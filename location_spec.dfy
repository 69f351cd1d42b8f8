/** The location store (src/stores/location.store.js) as values: a snapshot of
    its three refs together with the browser state it writes, the seven
    computed flags as functions of a snapshot, and one transition function per
    entry point or provider callback. */
module LocationSpec {
  import opened JsValues

  /** The localStorage key under which the location is kept. */
  const LocationKey: string := "location"

  /** The one fixed message the store sends for a missing capability, used
      for the geolocation API and for the permissions API alike. */
  const UnsupportedMessage: string := "Geolocation is not supported by your browser"

  /** `permissionStatus.value`: null until a permission query has resolved. */
  datatype PermissionState = Null | Granted | Denied | Prompt

  /** The `state` of a resolved permission query: never null. */
  type QueriedState = p: PermissionState | p != Null witness Prompt

  /** `location.value`: never falsy, because the stored document is replaced
      by `{}` when it is falsy, and a position always gives an object. */
  type Location = v: Json | Truthy(v) witness JObject(map[])

  /** The `{}` fallback. */
  const EmptyLocation: Location := JObject(map[])

  /** The object `{latitude, longitude}` built from a position's coordinates. */
  function Coordinates(latitude: int, longitude: int): Location {
    JObject(map["latitude" := JNum(latitude), "longitude" := JNum(longitude)])
  }

  /** The browser state the store writes: localStorage, the messages handed to
      the notification helper (oldest first), and how many position requests
      and permission queries were issued. */
  datatype Env = Env(
    storage: map<string, Text>,
    sent: seq<string>,
    positionRequests: nat,
    permissionQueries: nat)

  /** A snapshot of the store's refs and of the browser state. */
  datatype State = State(
    location: Location,
    error: bool,
    permissionStatus: PermissionState,
    env: Env)

  /** `localStorage.getItem("location")`. */
  function StoredLocation(env: Env): Option<Text> {
    if LocationKey in env.storage then Some(env.storage[LocationKey]) else None
  }

  /** `JSON.parse(localStorage.getItem("location")) || {}`: Err is the
      exception JSON.parse throws on text that is not JSON. */
  function Rehydrate(item: Option<Text>): (r: Result<Location>)
    ensures item.None? ==> r == Ok(EmptyLocation)
    ensures r.Err? <==> item.Some? && item.value.Malformed?
    ensures item.Some? && item.value.Encoded? && Truthy(item.value.doc) ==> r == Ok(item.value.doc)
    ensures item.Some? && item.value.Encoded? && !Truthy(item.value.doc) ==> r == Ok(EmptyLocation)
  {
    // An absent key gives null, which JSON.parse reads as the document null.
    var parsed := match item
      case None => Ok(JNull)
      case Some(text) => Parse(text);
    match parsed
    case Err(e) => Err(e)
    case Ok(v) => if Truthy(v) then Ok(v) else Ok(EmptyLocation)
  }

  /** The persisted entry reloads to the location held in memory: a new store
      created on this browser state would start from the same location. */
  predicate InSync(s: State) {
    Rehydrate(StoredLocation(s.env)) == Ok(s.location)
  }

  /** The state right after the store is created on browser state `env`;
      Err when the stored entry is not JSON and the creation throws. */
  function Initial(env: Env): (r: Result<State>)
    ensures r.Err? <==> LocationKey in env.storage && env.storage[LocationKey].Malformed?
    ensures r.Ok? ==> !r.value.error && r.value.permissionStatus == Null && r.value.env == env
    ensures r.Ok? ==> InSync(r.value)
    ensures LocationKey !in env.storage ==> r.Ok? && r.value.location == EmptyLocation
  {
    match Rehydrate(StoredLocation(env))
    case Err(e) => Err(e)
    case Ok(location) => Ok(State(location, false, Null, env))
  }

  // The computed flags, each a function of a snapshot.

  /** `location.latitude && location.longitude`, read for its truthiness. */
  predicate LocationIsSet(s: State) {
    TruthyProperty(s.location, "latitude") && TruthyProperty(s.location, "longitude")
  }

  predicate GrantedAccess(s: State) {
    s.permissionStatus == Granted
  }

  predicate DeniedAccess(s: State) {
    s.permissionStatus == Denied
  }

  predicate PromptAccess(s: State) {
    s.permissionStatus == Prompt
  }

  predicate ShowWelcomeMessage(s: State) {
    !LocationIsSet(s) && PromptAccess(s)
  }

  predicate ShowWeather(s: State) {
    LocationIsSet(s) && GrantedAccess(s)
  }

  predicate ShowDefaultWeather(s: State) {
    !LocationIsSet(s) || DeniedAccess(s)
  }

  // The transitions. Each one is what happens synchronously when the store's
  // code runs; a provider's answer arrives later as a transition of its own.

  /** `getPermissionStatus()` up to the point where it waits for the query. */
  function PermissionStatusRequested(s: State, permissionsSupported: bool): (t: State)
    ensures t.location == s.location && t.permissionStatus == s.permissionStatus
    ensures t.env.storage == s.env.storage && t.env.positionRequests == s.env.positionRequests
    ensures !permissionsSupported ==>
      t.error && t.env.sent == s.env.sent + [UnsupportedMessage]
      && t.env.permissionQueries == s.env.permissionQueries
    ensures permissionsSupported ==>
      t.error == s.error && t.env.sent == s.env.sent
      && t.env.permissionQueries == s.env.permissionQueries + 1
  {
    if !permissionsSupported then
      s.(error := true, env := s.env.(sent := s.env.sent + [UnsupportedMessage]))
    else
      s.(env := s.env.(permissionQueries := s.env.permissionQueries + 1))
  }

  /** The permission query resolves with `state`. */
  function PermissionResolved(s: State, state: QueriedState): (t: State)
    ensures t.permissionStatus == state
    ensures t.location == s.location && t.error == s.error && t.env == s.env
    ensures PromptAccess(t) <==> state == Prompt
    ensures state == Prompt && !LocationIsSet(s) ==> ShowWelcomeMessage(t)
  {
    s.(permissionStatus := state)
  }

  /** `getUserLocation()` up to the point where it waits for the position. */
  function UserLocationRequested(s: State, geolocationSupported: bool): (t: State)
    ensures !geolocationSupported ==>
      t == s.(error := true, env := s.env.(sent := s.env.sent + [UnsupportedMessage]))
    ensures geolocationSupported ==>
      t == s.(env := s.env.(positionRequests := s.env.positionRequests + 1))
    ensures t.env.permissionQueries == s.env.permissionQueries
  {
    if !geolocationSupported then
      s.(error := true, env := s.env.(sent := s.env.sent + [UnsupportedMessage]))
    else
      s.(env := s.env.(positionRequests := s.env.positionRequests + 1))
  }

  /** The success callback: the error is cleared, the location replaced and
      persisted, and then the permission status is requested. */
  function PositionSucceeded(s: State, latitude: int, longitude: int, permissionsSupported: bool): (t: State)
    ensures t.location == Coordinates(latitude, longitude)
    ensures LocationIsSet(t) <==> latitude != 0 && longitude != 0
    ensures t.env.storage == s.env.storage[LocationKey := Stringify(Coordinates(latitude, longitude))]
    ensures InSync(t)
    ensures t.error == !permissionsSupported
    ensures t.permissionStatus == s.permissionStatus
    ensures t.env.sent == s.env.sent + (if permissionsSupported then [] else [UnsupportedMessage])
    ensures t.env.permissionQueries == s.env.permissionQueries + (if permissionsSupported then 1 else 0)
    ensures t.env.positionRequests == s.env.positionRequests
  {
    var location := Coordinates(latitude, longitude);
    var fixed := s.(error := false, location := location,
                    env := s.env.(storage := s.env.storage[LocationKey := Stringify(location)]));
    PermissionStatusRequested(fixed, permissionsSupported)
  }

  /** The failure callback: the error is raised, the permission status is
      requested, and the provider's message is sent last. */
  function PositionFailed(s: State, message: string, permissionsSupported: bool): (t: State)
    ensures t.error
    ensures t.location == s.location && t.permissionStatus == s.permissionStatus
    ensures t.env.storage == s.env.storage
    ensures t.env.sent == s.env.sent + (if permissionsSupported then [] else [UnsupportedMessage]) + [message]
    ensures t.env.permissionQueries == s.env.permissionQueries + (if permissionsSupported then 1 else 0)
    ensures t.env.positionRequests == s.env.positionRequests
  {
    var refreshed := PermissionStatusRequested(s.(error := true), permissionsSupported);
    refreshed.(env := refreshed.env.(sent := refreshed.env.sent + [message]))
  }

  /** Everything that can happen to the store, in the order it happens. A
      call to getPermissionStatus stands for the call made on mount too. */
  datatype Event =
    | GetUserLocationCalled(geolocationSupported: bool)
    | PositionReceived(latitude: int, longitude: int, permissionsSupported: bool)
    | PositionError(message: string, permissionsSupported: bool)
    | GetPermissionStatusCalled(permissionsSupported: bool)
    | PermissionQueryResult(state: QueriedState)

  function Step(s: State, e: Event): State {
    match e
    case GetUserLocationCalled(geo) => UserLocationRequested(s, geo)
    case PositionReceived(lat, lon, perms) => PositionSucceeded(s, lat, lon, perms)
    case PositionError(message, perms) => PositionFailed(s, message, perms)
    case GetPermissionStatusCalled(perms) => PermissionStatusRequested(s, perms)
    case PermissionQueryResult(state) => PermissionResolved(s, state)
  }

  /** The state after the events, applied first to last. */
  function Run(s: State, events: seq<Event>): State
    decreases |events|
  {
    if events == [] then s else Run(Step(s, events[0]), events[1..])
  }
}
