# Location store of a weather single-page application, modelled in Dafny

The application keeps the user's last known position in a Pinia store,
`src/stores/location.store.js`. The store holds three pieces of state:

- `location`: the coordinate record, restored from `localStorage` when the store is created;
- `error`: a flag;
- `permissionStatus`: `null`, or the state the browser's permission query returned.

Seven computed flags read that state. Two functions change it:

- `getUserLocation` asks the Geolocation API for a position. Its success callback stores the position and persists it. Its failure callback raises the error flag and reports the provider's message. Both callbacks then refresh the permission status.
- `getPermissionStatus` queries the Permissions API. It also runs once when the component mounts.

A missing API raises the error flag and sends the fixed message "Geolocation is not supported by your browser".

The model has four modules:

- `JsValues` (`js_values.dfy`): parsed JSON values and JavaScript truthiness. Also property reads (`undefined` is `None`) and the stored text. `Text` is either the JSON text of a document or text that is not JSON. `Stringify` and `Parse` round-trip.
- `LocationSpec` (`location_spec.dfy`): the state as a value. `State` holds the three refs and `Env`. `Env` is the browser state the store writes: storage, sent messages, issued position requests and issued permission queries. This module also has the seven flags, one transition function per entry point or callback, and `Event`, `Step` and `Run`.
- `LocationLemmas` (`location_lemmas.dfy`): exclusivity of the flags and facts about single steps. It also proves facts about whole runs of events:
  - the persisted entry always reloads to the in-memory location;
  - each ref holds what the last event that wrote it wrote.
- `LocationStore` (`location_store.dfy`): the store as the object the application uses. `Store` has the refs as fields. `Browser` has the globals it writes. Each method is proved to leave exactly the snapshot its transition function gives.

Each asynchronous answer is a method or event of its own. The position callbacks, and the `then` of the permission query, run when the provider answers. The caller passes the answer in: a capability present or absent, coordinates, an error message, or a permission state. The nested `getPermissionStatus()` inside a position callback runs its synchronous part inside that callback. That part is the capability check, the error flag and the message. Only the query's answer arrives later.

Points where the code behaves otherwise than a quick reading suggests:

- `locationIsSet` is `latitude && longitude` read for truthiness. So a coordinate of `0` counts as unset although it is present.
- Stored text that is not JSON makes `JSON.parse` throw when the store is created (`Initial` returns `Err`). Nothing falls back to `{}` in that case. Only an absent key, or a falsy document such as `null`, `0`, `false` or `""`, gives `{}`.
- The permission status starts as `null` (`Null`).
- The error flag is sticky. Only a received position clears it, and only when the Permissions API exists (`ErrorClearedOnlyByPosition`). A successful permission query leaves it raised.
- When the Permissions API is missing, a position callback sends the geolocation message, although geolocation worked. On the failure path it sends it before the provider's own message.
- When the location is set while the permission status is `null` or `"prompt"`, neither weather view shows (`SomeWeatherViewUnlessUndecided`).

## Model

| member | source | states |
|---|---|---|
| JsValues.Parse | src/stores/location.store.js:6 | JSON.parse fails exactly on text that is not JSON |
| JsValues.Stringify | src/stores/location.store.js:52 | the text written to storage parses back to the same document |
| JsValues.Truthy | src/stores/location.store.js:11 | JavaScript truthiness of a parsed value: null, false, 0 and "" are falsy, everything else (empty objects and arrays included) truthy |
| JsValues.Property | src/stores/location.store.js:11 | the read `v.key`: the field of an object, `undefined` (None) for a missing key or a value that is not an object |
| JsValues.TruthyProperty | src/stores/location.store.js:11 | one operand of `latitude && longitude`: the property is present and truthy |
| LocationSpec.StoredLocation | src/stores/location.store.js:6 | `localStorage.getItem("location")`: the stored text, or null when the key is absent; `Browser.GetItem` is proved to agree with it |
| LocationSpec.Coordinates | src/stores/location.store.js:48-51 | the object `{latitude, longitude}` built from a position; `ZeroCoordinateIsUnset` states when it counts as set |
| LocationSpec.Rehydrate | src/stores/location.store.js:6 | the starting location: `{}` for an absent key or a falsy document, the document itself when it is truthy, an error exactly when the stored text is not JSON |
| LocationSpec.Initial | src/stores/location.store.js:6-8 | a new store has error false and permission status null; it fails exactly when the stored text is not JSON; an absent key gives `{}`; its persisted entry reloads to its location |
| LocationSpec.UserLocationRequested | src/stores/location.store.js:38-45 | without the Geolocation API: error raised, exactly the unsupported message sent, location, status and storage unchanged, and no query or request issued; with it: only one position request issued |
| LocationSpec.PositionSucceeded | src/stores/location.store.js:46-54 | location becomes exactly `{latitude, longitude}` and is set iff both are non-zero; storage under "location" holds its serialisation and reloads to it; the status is unchanged; error is false unless the refresh finds no Permissions API, in which case it is true and the unsupported message is sent; otherwise one query is issued |
| LocationSpec.PositionFailed | src/stores/location.store.js:55-59 | error raised; location, status and storage unchanged; a permission refresh is issued (or the unsupported message sent first when the Permissions API is missing); the provider's message is the last message sent |
| LocationSpec.LocationIsSet | src/stores/location.store.js:10-12 | `latitude && longitude` read for truthiness; `LocationIsSetMeansTruthyCoordinates` states it in terms of the object's fields |
| LocationSpec.ShowWelcomeMessage | src/stores/location.store.js:14-16 | location unset and status "prompt"; `WeatherViewsExclusive` and `PermissionResolved` state its consequences |
| LocationSpec.ShowWeather | src/stores/location.store.js:18-20 | location set and status "granted"; never together with the default weather or the welcome message (`WeatherViewsExclusive`) |
| LocationSpec.ShowDefaultWeather | src/stores/location.store.js:22-24 | location unset or status "denied"; `SomeWeatherViewUnlessUndecided` states when some weather view shows |
| LocationSpec.GrantedAccess | src/stores/location.store.js:26-28 | status is "granted"; exclusive with the other two access flags (`AccessFlagsExclusive`) |
| LocationSpec.DeniedAccess | src/stores/location.store.js:30-32 | status is "denied"; exclusive with the other two access flags (`AccessFlagsExclusive`) |
| LocationSpec.PromptAccess | src/stores/location.store.js:34-36 | status is "prompt"; exclusive with the other two access flags (`AccessFlagsExclusive`) |
| LocationSpec.PermissionStatusRequested | src/stores/location.store.js:63-69 | without the Permissions API: error raised, unsupported message sent, status unchanged, no query; with it: one query issued and the error flag untouched |
| LocationSpec.PermissionResolved | src/stores/location.store.js:70-72 | the status becomes the returned state and nothing else changes; a "prompt" answer sets promptAccess, and also showWelcomeMessage when the location is unset |
| LocationSpec.Step | src/stores/location.store.js:38-77 | one event applied to the state: the transition of the entry point or callback the event stands for |
| LocationSpec.Run | src/stores/location.store.js:38-77 | events applied first to last; `RunFollowsLatestWrites` and `RunKeepsInSync` state what every run keeps |
| LocationLemmas.LocationIsSetMeansTruthyCoordinates | src/stores/location.store.js:10-12 | locationIsSet holds iff the location is an object with both latitude and longitude present and truthy |
| LocationLemmas.ZeroCoordinateIsUnset | src/stores/location.store.js:10-12 | for a location built from coordinates, locationIsSet holds iff neither coordinate is 0 |
| LocationLemmas.EmptyLocationIsUnset | src/stores/location.store.js:6-24 | the `{}` fallback is unset, so it shows the default weather and never the weather view |
| LocationLemmas.AccessFlagsExclusive | src/stores/location.store.js:26-36 | at most one of grantedAccess, deniedAccess and promptAccess holds; all three are false exactly when the status is null |
| LocationLemmas.WeatherViewsExclusive | src/stores/location.store.js:14-24 | showWeather never holds together with showDefaultWeather or with showWelcomeMessage |
| LocationLemmas.SomeWeatherViewUnlessUndecided | src/stores/location.store.js:18-24 | a weather view shows iff the location is unset or the status is granted or denied |
| LocationLemmas.ErrorClearedOnlyByPosition | src/stores/location.store.js:38-73 | a step lowers a raised error flag only when it is a received position while the Permissions API exists |
| LocationLemmas.StepKeepsInSync | src/stores/location.store.js:46-52 | every event keeps the persisted entry reloading to the in-memory location |
| LocationLemmas.StepOnlyAppends | src/stores/location.store.js:38-73 | sent messages, position requests and permission queries are only ever added to |
| LocationLemmas.RunKeepsInSync | src/stores/location.store.js:38-73 | after any sequence of events the persisted entry still reloads to the in-memory location |
| LocationLemmas.CreatedStoreStaysInSync | src/stores/location.store.js:6-73 | a store created from readable storage keeps storage and memory in agreement forever after |
| LocationLemmas.RunFollowsLatestWrites | src/stores/location.store.js:38-73 | after any run: location is the last received position (else the starting one), status the last query answer (else the starting one), error what the last event touching it left |
| LocationLemmas.FailuresKeepStaleLocation | src/stores/location.store.js:39-59 | a run without a received position leaves the location as it was |
| LocationStore.Browser.GetItem | src/stores/location.store.js:6 | localStorage.getItem gives the stored text, or null exactly when the key is absent |
| LocationStore.Browser.SetItem | src/stores/location.store.js:52 | localStorage.setItem overwrites exactly one key |
| LocationStore.Browser.SendErrorMessage | src/stores/location.store.js:41 | the notification helper appends exactly the given message |
| LocationStore.Browser.GetCurrentPosition | src/stores/location.store.js:45 | issuing a position request only counts it |
| LocationStore.Browser.QueryPermission | src/stores/location.store.js:70 | issuing a permission query only counts it |
| LocationStore.Store.constructor | src/stores/location.store.js:5-8 | the new store's state is Initial of the browser state it was created on |
| LocationStore.Store.GetUserLocation | src/stores/location.store.js:38-45 | assigns the fields and calls the browser exactly as UserLocationRequested says |
| LocationStore.Store.OnPosition | src/stores/location.store.js:46-54 | clears error, assigns location, persists it, then runs GetPermissionStatus: the state PositionSucceeded gives |
| LocationStore.Store.OnPositionError | src/stores/location.store.js:55-59 | raises error, runs GetPermissionStatus, then sends the message: the state PositionFailed gives |
| LocationStore.Store.GetPermissionStatus | src/stores/location.store.js:63-69 | the state PermissionStatusRequested gives |
| LocationStore.Store.OnPermissionResult | src/stores/location.store.js:70-72 | the state PermissionResolved gives |
| LocationStore.Store.OnMounted | src/stores/location.store.js:75-77 | mounting makes one permission status request |
| LocationStore.Store.Handle | src/stores/location.store.js:38-77 | delivering an event to the store object has the effect Step gives, so every lemma about Run holds of the object |

## Left out

- `src/api/Api.js` is not part of this model. It only configures an HTTP client and registers interceptors from a helper file.
- The Vue and Pinia reactivity machinery is not modelled. The computed flags are plain predicates of a snapshot, and `onMounted` is one method call.
- The flags keep only their truthiness. In JavaScript, `locationIsSet` yields the longitude or a falsy value, and `showWeather` a boolean or a falsy value.
- Scheduling is not modelled. Each callback is a separate event. The model does not track which request an answer belongs to, so overlapping calls are not modelled.
- A rejected permission query is not modelled. The code never handles it.
- JSON text and its grammar are abstract. A stored text is either the encoding of a document or malformed, so the model does not capture which strings are valid JSON.
- Coordinates are integers. Floating point, NaN and JSON.stringify turning NaN into null are not modelled. Truthiness of a number is "not 0".
- LocationStore.Store.constructor: requires that the stored text parses, because the source throws there and no store exists. `Initial` returns `Err` for that case.
- LocationLemmas.RunKeepsInSync: holds only while nothing but the store writes the "location" key. Other code writing `localStorage` is not modelled.
- Consumers can assign the exported `location`, `error` and `permissionStatus` refs directly. Those outside writes are not modelled.
