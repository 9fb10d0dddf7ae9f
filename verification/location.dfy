/** The shared location manager: its published state and its reactions to the
    platform's delegate callbacks, each callback an input event. */
module Location {
  import opened Wrappers

  /** A coordinate pair, kept as the text Swift renders for each `Double`. */
  datatype Coordinate = Coordinate(latitude: string, longitude: string)

  /** The authorization statuses the platform reports. */
  datatype AuthorizationStatus =
    | NotDetermined
    | Restricted
    | Denied
    | AuthorizedAlways
    | AuthorizedWhenInUse

  /** The errors the manager publishes: its own three, or one the platform
      reported, known by its description. */
  datatype LocationError =
    | ServicesDisabled
    | AccessDeniedOrRestricted
    | AuthorizationNotDetermined
    | PlatformFailure(description: string)
  {
    /** The localized description the manager attaches to its own errors. */
    function Message(): string
    {
      match this
      case ServicesDisabled => "Location services are not enabled."
      case AccessDeniedOrRestricted => "Location access denied or restricted."
      case AuthorizationNotDetermined => "Location authorization status not determined yet."
      case PlatformFailure(d) => d
    }
  }

  /** The manager's state. `updating` records that `startUpdatingLocation`
      has been called; the two counters record how often authorization and a
      one-shot location were requested from the platform. */
  datatype Manager = Manager(
    currentLocation: Option<Coordinate>,
    isAuthorized: bool,
    locationError: Option<LocationError>,
    updating: bool,
    authorizationRequests: nat,
    locationRequests: nat)

  /** The state right after construction, before the asynchronous setup ran. */
  const Fresh := Manager(None, false, None, false, 0, 0)

  /** `setupLocationManager`, given whether location services are enabled. */
  function Setup(m: Manager, servicesEnabled: bool): (r: Manager)
    ensures servicesEnabled ==> r == m.(authorizationRequests := m.authorizationRequests + 1)
    ensures !servicesEnabled ==> r == m.(locationError := Some(ServicesDisabled))
  {
    if servicesEnabled then RequestAuthorization(m)
    else m.(locationError := Some(ServicesDisabled))
  }

  /** `requestAuthorization`: one more when-in-use authorization request. */
  function RequestAuthorization(m: Manager): (r: Manager)
    ensures r.authorizationRequests == m.authorizationRequests + 1
    ensures r.(authorizationRequests := m.authorizationRequests) == m
  {
    m.(authorizationRequests := m.authorizationRequests + 1)
  }

  /** True for the two statuses that grant access. */
  predicate Grants(status: AuthorizationStatus)
  {
    status == AuthorizedAlways || status == AuthorizedWhenInUse
  }

  /** `locationManagerDidChangeAuthorization` for the reported status. */
  function DidChangeAuthorization(m: Manager, status: AuthorizationStatus): (r: Manager)
    ensures r.isAuthorized <==> Grants(status)
    ensures Grants(status) ==> r.updating && r.locationError == m.locationError
    ensures status == Denied || status == Restricted ==> r.locationError == Some(AccessDeniedOrRestricted)
    ensures status == NotDetermined ==> r.locationError == Some(AuthorizationNotDetermined)
    ensures !Grants(status) ==> r.updating == m.updating
    ensures r.currentLocation == m.currentLocation
    ensures r.authorizationRequests == m.authorizationRequests && r.locationRequests == m.locationRequests
  {
    match status
    case AuthorizedWhenInUse | AuthorizedAlways => m.(isAuthorized := true, updating := true)
    case Denied | Restricted => m.(isAuthorized := false, locationError := Some(AccessDeniedOrRestricted))
    case NotDetermined => m.(isAuthorized := false, locationError := Some(AuthorizationNotDetermined))
  }

  /** What a delegate callback leaves behind: the new state and the
      coordinate sent on the update stream, if any. */
  datatype Update = Update(manager: Manager, sent: Option<Coordinate>)

  /** `locationManager(_:didUpdateLocations:)`. */
  function DidUpdateLocations(m: Manager, locations: seq<Coordinate>): (r: Update)
    ensures |locations| == 0 ==> r == Update(m, None)
    ensures |locations| > 0 ==> r.sent == Some(locations[|locations| - 1])
    ensures |locations| > 0 ==> r.manager == m.(currentLocation := r.sent)
  {
    if |locations| == 0 then Update(m, None)
    else
      var last := locations[|locations| - 1];
      Update(m.(currentLocation := Some(last)), Some(last))
  }

  /** `locationManager(_:didFailWithError:)`. */
  function DidFail(m: Manager, description: string): (r: Manager)
    ensures r.locationError == Some(PlatformFailure(description))
    ensures r.(locationError := m.locationError) == m
  {
    m.(locationError := Some(PlatformFailure(description)))
  }

  /** Where `getCurrentLocation` gets its coordinate from: a fix it already
      has, or the stream of future updates. */
  datatype Source = Immediate(coordinate: Coordinate) | UpdateStream

  /** The answer of `getCurrentLocation` together with the manager's new state. */
  datatype Lookup = Lookup(manager: Manager, source: Source)

  /** `getCurrentLocation`. `platformFix` is the platform's last known
      location, which is not the published `currentLocation`. */
  function GetCurrentLocation(m: Manager, platformFix: Option<Coordinate>): (r: Lookup)
    ensures platformFix.Some? ==> r == Lookup(m, Immediate(platformFix.value))
    ensures platformFix.None? ==> r.source == UpdateStream
    ensures platformFix.None? ==> r.manager == m.(locationRequests := m.locationRequests + 1)
  {
    match platformFix
    case Some(c) => Lookup(m, Immediate(c))
    case None => Lookup(m.(locationRequests := m.locationRequests + 1), UpdateStream)
  }

  /** The platform events the manager reacts to. */
  datatype Event =
    | SetupRan(servicesEnabled: bool)
    | AuthorizationChanged(status: AuthorizationStatus)
    | LocationsUpdated(locations: seq<Coordinate>)
    | Failed(description: string)
    | CurrentLocationAsked(platformFix: Option<Coordinate>)

  /** The fix an event publishes: the last of a non-empty list of updates. */
  function FixIn(e: Event): Option<Coordinate>
  {
    if e.LocationsUpdated? && |e.locations| > 0 then Some(e.locations[|e.locations| - 1]) else None
  }

  /** The error an event publishes, if it publishes one. */
  function ErrorSetBy(e: Event): Option<LocationError>
  {
    match e
    case SetupRan(enabled) => if enabled then None else Some(ServicesDisabled)
    case AuthorizationChanged(status) =>
      if status == Denied || status == Restricted then Some(AccessDeniedOrRestricted)
      else if status == NotDetermined then Some(AuthorizationNotDetermined)
      else None
    case Failed(d) => Some(PlatformFailure(d))
    case _ => None
  }

  /** The manager's reaction to one event: only a non-empty update moves
      `currentLocation`, `locationError` changes exactly when the event
      publishes an error, and only an ask without a fix requests a location. */
  function Apply(m: Manager, e: Event): (r: Manager)
    ensures r.currentLocation == (if FixIn(e).Some? then FixIn(e) else m.currentLocation)
    ensures r.locationError == (if ErrorSetBy(e).Some? then ErrorSetBy(e) else m.locationError)
    ensures r.locationRequests
            == m.locationRequests + (if e.CurrentLocationAsked? && e.platformFix.None? then 1 else 0)
  {
    match e
    case SetupRan(enabled) => Setup(m, enabled)
    case AuthorizationChanged(status) => DidChangeAuthorization(m, status)
    case LocationsUpdated(locations) => DidUpdateLocations(m, locations).manager
    case Failed(d) => DidFail(m, d)
    case CurrentLocationAsked(fix) => GetCurrentLocation(m, fix).manager
  }

  /** The manager after a sequence of events, first to last. */
  function Run(m: Manager, es: seq<Event>): Manager
    decreases |es|
  {
    if |es| == 0 then m else Run(Apply(m, es[0]), es[1..])
  }

  /** How many events ask for the current location when the platform has no fix. */
  function UncachedAsks(es: seq<Event>): nat
    decreases |es|
  {
    if |es| == 0 then 0
    else (if es[0].CurrentLocationAsked? && es[0].platformFix.None? then 1 else 0) + UncachedAsks(es[1..])
  }

  /** Every one-shot location request comes from an uncached ask: the request
      counter grows by exactly the number of those, and by nothing else. */
  lemma {:induction false} RequestsCountUncachedAsks(m: Manager, es: seq<Event>)
    ensures Run(m, es).locationRequests == m.locationRequests + UncachedAsks(es)
    decreases |es|
  {
    if |es| > 0 {
      RequestsCountUncachedAsks(Apply(m, es[0]), es[1..]);
    }
  }

  /** The most recent authorization status reported in `es`, if any. */
  function LastStatus(es: seq<Event>): Option<AuthorizationStatus>
    decreases |es|
  {
    if |es| == 0 then None
    else
      match LastStatus(es[1..])
      case Some(s) => Some(s)
      case None => if es[0].AuthorizationChanged? then Some(es[0].status) else None
  }

  /** The published authorization flag always reflects the latest reported
      status; no other event touches it. */
  lemma {:induction false} AuthorizedFollowsLastStatus(m: Manager, es: seq<Event>)
    ensures LastStatus(es).Some? ==> (Run(m, es).isAuthorized <==> Grants(LastStatus(es).value))
    ensures LastStatus(es).None? ==> Run(m, es).isAuthorized == m.isAuthorized
    decreases |es|
  {
    if |es| > 0 {
      AuthorizedFollowsLastStatus(Apply(m, es[0]), es[1..]);
    }
  }

  /** Two asks for the current location in a row, with no fix available,
      issue two platform requests: nothing merges them. */
  lemma NoDeduplication(m: Manager)
    ensures Run(m, [CurrentLocationAsked(None), CurrentLocationAsked(None)]).locationRequests
            == m.locationRequests + 2
  {
    var es := [CurrentLocationAsked(None), CurrentLocationAsked(None)];
    RequestsCountUncachedAsks(m, es);
    assert es[1..] == [CurrentLocationAsked(None)];
    assert es[1..][1..] == [];
  }

  /** The last fix published in `es`, if any. */
  function LastFix(es: seq<Event>): Option<Coordinate>
    decreases |es|
  {
    if |es| == 0 then None
    else if LastFix(es[1..]).Some? then LastFix(es[1..])
    else FixIn(es[0])
  }

  /** `currentLocation` is the last coordinate of the last non-empty update,
      or unchanged when no update carried one. */
  lemma {:induction false} CurrentLocationIsLastFix(m: Manager, es: seq<Event>)
    ensures Run(m, es).currentLocation == (if LastFix(es).Some? then LastFix(es) else m.currentLocation)
    decreases |es|
  {
    if |es| > 0 {
      CurrentLocationIsLastFix(Apply(m, es[0]), es[1..]);
    }
  }

  /** The last error published in `es`, if any. */
  function LastError(es: seq<Event>): Option<LocationError>
    decreases |es|
  {
    if |es| == 0 then None
    else if LastError(es[1..]).Some? then LastError(es[1..])
    else ErrorSetBy(es[0])
  }

  /** `locationError` is the last error any event published; granted
      authorizations, updates and asks never clear or replace it. */
  lemma {:induction false} LocationErrorIsLastError(m: Manager, es: seq<Event>)
    ensures Run(m, es).locationError == (if LastError(es).Some? then LastError(es) else m.locationError)
    decreases |es|
  {
    if |es| > 0 {
      LocationErrorIsLastError(Apply(m, es[0]), es[1..]);
    }
  }
}
