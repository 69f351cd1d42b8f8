/** The location store as the object the application holds: its refs are
    fields that its functions and provider callbacks assign in place, and the
    browser globals it writes are a second object. Each method is proved to
    leave exactly the snapshot that its transition in LocationSpec gives. */
module LocationStore {
  import opened JsValues
  import opened LocationSpec

  /** The browser globals the store touches: localStorage, the notification
      helper (as the list of messages it was given), and how many position
      requests and permission queries the providers were asked for. */
  class Browser {
    var storage: map<string, Text>
    var sent: seq<string>
    var positionRequests: nat
    var permissionQueries: nat

    function Snapshot(): Env
      reads this
    {
      Env(storage, sent, positionRequests, permissionQueries)
    }

    constructor (storage: map<string, Text>)
      ensures Snapshot() == Env(storage, [], 0, 0)
    {
      this.storage := storage;
      sent := [];
      positionRequests := 0;
      permissionQueries := 0;
    }

    /** localStorage.getItem; None stands for null. */
    method GetItem(key: string) returns (item: Option<Text>)
      ensures item.Some? <==> key in storage
      ensures item.Some? ==> item.value == storage[key]
      ensures key == LocationKey ==> item == StoredLocation(Snapshot())
    {
      item := if key in storage then Some(storage[key]) else None;
    }

    /** localStorage.setItem. */
    method SetItem(key: string, value: Text)
      modifies this
      ensures Snapshot() == old(Snapshot()).(storage := old(storage)[key := value])
    {
      storage := storage[key := value];
    }

    /** helpers.sendErrorMessage. */
    method SendErrorMessage(message: string)
      modifies this
      ensures Snapshot() == old(Snapshot()).(sent := old(sent) + [message])
    {
      sent := sent + [message];
    }

    /** navigator.geolocation.getCurrentPosition: the request is issued; its
        answer comes back later through Store.OnPosition or Store.OnPositionError. */
    method GetCurrentPosition()
      modifies this
      ensures Snapshot() == old(Snapshot()).(positionRequests := old(positionRequests) + 1)
    {
      positionRequests := positionRequests + 1;
    }

    /** navigator.permissions.query: the query is issued; its answer comes
        back later through Store.OnPermissionResult. */
    method QueryPermission()
      modifies this
      ensures Snapshot() == old(Snapshot()).(permissionQueries := old(permissionQueries) + 1)
    {
      permissionQueries := permissionQueries + 1;
    }
  }

  class Store {
    const browser: Browser
    var location: Location
    var error: bool
    var permissionStatus: PermissionState

    function Snapshot(): State
      reads this, browser
    {
      State(location, error, permissionStatus, browser.Snapshot())
    }

    /** Creating the store reads the persisted location. The creation throws
        when the stored text is not JSON; that case is `Initial(...).Err?`. */
    constructor (browser: Browser)
      requires Initial(browser.Snapshot()).Ok?
      ensures this.browser == browser
      ensures Snapshot() == Initial(browser.Snapshot()).value
    {
      var item := browser.GetItem(LocationKey);
      var restored := Rehydrate(item);
      this.browser := browser;
      location := restored.value;
      error := false;
      permissionStatus := Null;
    }

    method GetUserLocation(geolocationSupported: bool)
      modifies this, browser
      ensures Snapshot() == UserLocationRequested(old(Snapshot()), geolocationSupported)
    {
      if !geolocationSupported {
        error := true;
        browser.SendErrorMessage(UnsupportedMessage);
        return;
      }
      browser.GetCurrentPosition();
    }

    /** The success callback of getCurrentPosition. */
    method OnPosition(latitude: int, longitude: int, permissionsSupported: bool)
      modifies this, browser
      ensures Snapshot() == PositionSucceeded(old(Snapshot()), latitude, longitude, permissionsSupported)
    {
      error := false;
      location := Coordinates(latitude, longitude);
      browser.SetItem(LocationKey, Stringify(location));
      GetPermissionStatus(permissionsSupported);
    }

    /** The failure callback of getCurrentPosition. */
    method OnPositionError(message: string, permissionsSupported: bool)
      modifies this, browser
      ensures Snapshot() == PositionFailed(old(Snapshot()), message, permissionsSupported)
    {
      error := true;
      GetPermissionStatus(permissionsSupported);
      browser.SendErrorMessage(message);
    }

    method GetPermissionStatus(permissionsSupported: bool)
      modifies this, browser
      ensures Snapshot() == PermissionStatusRequested(old(Snapshot()), permissionsSupported)
    {
      if !permissionsSupported {
        error := true;
        browser.SendErrorMessage(UnsupportedMessage);
        return;
      }
      browser.QueryPermission();
    }

    /** The `then` handler of the permission query. */
    method OnPermissionResult(state: QueriedState)
      modifies this
      ensures Snapshot() == PermissionResolved(old(Snapshot()), state)
    {
      permissionStatus := state;
    }

    /** The `onMounted` hook: one request for the permission status. */
    method OnMounted(permissionsSupported: bool)
      modifies this, browser
      ensures Snapshot() == PermissionStatusRequested(old(Snapshot()), permissionsSupported)
    {
      GetPermissionStatus(permissionsSupported);
    }

    /** Delivers one event to the store: the method the event stands for. */
    method Handle(e: Event)
      modifies this, browser
      ensures Snapshot() == Step(old(Snapshot()), e)
    {
      match e
      case GetUserLocationCalled(geo) => GetUserLocation(geo);
      case PositionReceived(lat, lon, perms) => OnPosition(lat, lon, perms);
      case PositionError(message, perms) => OnPositionError(message, perms);
      case GetPermissionStatusCalled(perms) => GetPermissionStatus(perms);
      case PermissionQueryResult(state) => OnPermissionResult(state);
    }
  }
}
