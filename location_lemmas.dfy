/** What the location store promises: facts about its computed flags, and
    facts about every sequence of events it can go through. */
module LocationLemmas {
  import opened JsValues
  import opened LocationSpec

  // The computed flags.

  /** `locationIsSet` holds exactly when the location is an object whose
      `latitude` and `longitude` are both present and truthy. */
  lemma LocationIsSetMeansTruthyCoordinates(s: State)
    ensures LocationIsSet(s) <==>
      s.location.JObject?
      && "latitude" in s.location.fields && Truthy(s.location.fields["latitude"])
      && "longitude" in s.location.fields && Truthy(s.location.fields["longitude"])
  {
  }

  /** A coordinate of 0 counts as unset, even though it is present. */
  lemma ZeroCoordinateIsUnset(s: State, latitude: int, longitude: int)
    requires s.location == Coordinates(latitude, longitude)
    ensures LocationIsSet(s) <==> latitude != 0 && longitude != 0
  {
  }

  /** The `{}` fallback is never a set location. */
  lemma EmptyLocationIsUnset(s: State)
    requires s.location == EmptyLocation
    ensures !LocationIsSet(s) && ShowDefaultWeather(s) && !ShowWeather(s)
  {
  }

  /** At most one access flag holds, and none does while the status is null. */
  lemma AccessFlagsExclusive(s: State)
    ensures !(GrantedAccess(s) && DeniedAccess(s))
    ensures !(GrantedAccess(s) && PromptAccess(s))
    ensures !(DeniedAccess(s) && PromptAccess(s))
    ensures s.permissionStatus == Null <==> !GrantedAccess(s) && !DeniedAccess(s) && !PromptAccess(s)
  {
  }

  /** The weather view never shows together with the default weather view or
      with the welcome message. */
  lemma WeatherViewsExclusive(s: State)
    ensures !(ShowWeather(s) && ShowDefaultWeather(s))
    ensures !(ShowWeather(s) && ShowWelcomeMessage(s))
  {
  }

  /** One of the two weather views shows unless the location is set while the
      permission status is still null or prompt; then neither does. */
  lemma SomeWeatherViewUnlessUndecided(s: State)
    ensures ShowWeather(s) || ShowDefaultWeather(s) <==>
      !LocationIsSet(s) || s.permissionStatus == Granted || s.permissionStatus == Denied
  {
  }

  // Single steps.

  /** Only a position that arrives while the permissions API exists clears
      the error flag; no other event lowers it. */
  lemma ErrorClearedOnlyByPosition(s: State, e: Event)
    requires s.error && !Step(s, e).error
    ensures e.PositionReceived? && e.permissionsSupported
  {
  }

  /** Every event keeps the persisted entry in step with the location. */
  lemma StepKeepsInSync(s: State, e: Event)
    requires InSync(s)
    ensures InSync(Step(s, e))
  {
  }

  /** The messages, position requests and permission queries already issued
      are never taken back. */
  lemma StepOnlyAppends(s: State, e: Event)
    ensures s.env.sent <= Step(s, e).env.sent
    ensures s.env.positionRequests <= Step(s, e).env.positionRequests
    ensures s.env.permissionQueries <= Step(s, e).env.permissionQueries
  {
  }

  // Runs of events.

  /** Running one more event is one more step. */
  lemma {:induction false} RunSnoc(s: State, events: seq<Event>, e: Event)
    ensures Run(s, events + [e]) == Step(Run(s, events), e)
    decreases |events|
  {
    if events == [] {
      assert [] + [e] == [e];
      assert [e][1..] == [];
    } else {
      assert (events + [e])[0] == events[0];
      assert (events + [e])[1..] == events[1..] + [e];
      RunSnoc(Step(s, events[0]), events[1..], e);
    }
  }

  /** A store created from a readable entry, then driven by any events,
      keeps its persisted entry in step with its location: reloading the page
      at any point restores the location it had. */
  lemma {:induction false} RunKeepsInSync(s: State, events: seq<Event>)
    requires InSync(s)
    ensures InSync(Run(s, events))
    decreases |events|
  {
    if events != [] {
      StepKeepsInSync(s, events[0]);
      RunKeepsInSync(Step(s, events[0]), events[1..]);
    }
  }

  lemma CreatedStoreStaysInSync(env: Env, events: seq<Event>)
    requires Initial(env).Ok?
    ensures InSync(Run(Initial(env).value, events))
  {
    RunKeepsInSync(Initial(env).value, events);
  }

  // An independent account of the same runs: each ref holds what the last
  // event that wrote it wrote, or its starting value if none did.

  /** The location an event writes, if any. */
  function LocationWrittenBy(e: Event): Option<Location> {
    if e.PositionReceived? then Some(Coordinates(e.latitude, e.longitude)) else None
  }

  /** The permission status an event writes, if any. */
  function PermissionWrittenBy(e: Event): Option<PermissionState> {
    if e.PermissionQueryResult? then Some(e.state) else None
  }

  /** The error flag an event writes last, if any: each missing capability
      raises it, a failed position raises it, and a received position lowers
      it unless the permissions API is missing. */
  function ErrorWrittenBy(e: Event): Option<bool> {
    match e
    case GetUserLocationCalled(geo) => if geo then None else Some(true)
    case PositionReceived(_, _, perms) => Some(!perms)
    case PositionError(_, _) => Some(true)
    case GetPermissionStatusCalled(perms) => if perms then None else Some(true)
    case PermissionQueryResult(_) => None
  }

  /** The value written by the last event that writes one, else `initial`. */
  function Latest<T>(initial: T, events: seq<Event>, written: Event -> Option<T>): T
    decreases |events|
  {
    if events == [] then initial
    else match written(events[|events| - 1])
      case Some(v) => v
      case None => Latest(initial, events[..|events| - 1], written)
  }

  /** After any run, the location is the last received position (or the
      starting location), the permission status is the last query result (or
      the starting status), and the error flag is what the last event that
      touches it left there (or its starting value). */
  lemma {:induction false} RunFollowsLatestWrites(s: State, events: seq<Event>)
    ensures Run(s, events).location == Latest(s.location, events, LocationWrittenBy)
    ensures Run(s, events).permissionStatus == Latest(s.permissionStatus, events, PermissionWrittenBy)
    ensures Run(s, events).error == Latest(s.error, events, ErrorWrittenBy)
    decreases |events|
  {
    if events != [] {
      var front, e := events[..|events| - 1], events[|events| - 1];
      assert events == front + [e];
      RunSnoc(s, front, e);
      RunFollowsLatestWrites(s, front);
    }
  }

  /** A failed position, or a request made without the geolocation API, keeps
      whatever location was there before, however many such events occur. */
  lemma {:induction false} FailuresKeepStaleLocation(s: State, events: seq<Event>)
    requires forall i :: 0 <= i < |events| ==> !events[i].PositionReceived?
    ensures Run(s, events).location == s.location
    decreases |events|
  {
    if events != [] {
      FailuresKeepStaleLocation(Step(s, events[0]), events[1..]);
    }
  }
}
