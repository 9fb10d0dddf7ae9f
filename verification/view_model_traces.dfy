/** Properties of whole runs of the view model: what the published state is
    after any sequence of events, in whatever order the asynchronous answers
    arrive. */
module ViewModelTraces {
  import opened Wrappers
  import opened DataModels
  import Network
  import Location
  import opened WeatherViewModel

  /** The step after `es`, first to last, starting from `st`; the effects of
      every event are appended to those already started. */
  function Run(st: Step, es: seq<Event>, env: Env): Step
    decreases |es|
  {
    if |es| == 0 then st
    else
      var r := Apply(st.state, es[0], env);
      Run(Step(r.state, st.effects + r.effects), es[1..], env)
  }

  /** The model delivered by the last successful fetch in `es`, if any. */
  function LastFetched(es: seq<Event>): Option<WeatherModel>
    decreases |es|
  {
    if |es| == 0 then None
    else
      match LastFetched(es[1..])
      case Some(m) => Some(m)
      case None =>
        if es[0].FetchCompleted? && es[0].outcome.Success? then Some(es[0].outcome.value) else None
  }

  /** Whether the last forward-geocoder answer in `es` was empty, if there was one. */
  function LastAnswerEmpty(es: seq<Event>): Option<bool>
    decreases |es|
  {
    if |es| == 0 then None
    else
      match LastAnswerEmpty(es[1..])
      case Some(b) => Some(b)
      case None =>
        if es[0].ForwardGeocoded? then Some(|es[0].placemarks| == 0) else None
  }

  /** The published model is the one the last successful fetch to ARRIVE
      delivered, or the starting one if none arrived: failures never touch it
      and nothing patches it in part. */
  lemma {:induction false} ModelIsLastArrival(st: Step, es: seq<Event>, env: Env)
    ensures Run(st, es, env).state.weatherModel == LastFetched(es).GetOr(st.state.weatherModel)
    decreases |es|
  {
    if |es| > 0 {
      var r := Apply(st.state, es[0], env);
      ModelIsLastArrival(Step(r.state, st.effects + r.effects), es[1..], env);
    }
  }

  /** `invalidCity` tells whether the last forward-geocoder answer was empty;
      before any answer it keeps its starting value. */
  lemma {:induction false} InvalidCityIsLastAnswer(st: Step, es: seq<Event>, env: Env)
    ensures Run(st, es, env).state.invalidCity == LastAnswerEmpty(es).GetOr(st.state.invalidCity)
    decreases |es|
  {
    if |es| > 0 {
      var r := Apply(st.state, es[0], env);
      InvalidCityIsLastAnswer(Step(r.state, st.effects + r.effects), es[1..], env);
    }
  }

  /** Once `city` is the last name sent to the forward geocoder, it stays so:
      every change of `city` geocodes the new name. */
  lemma {:induction false} CityIsLastGeocoded(st: Step, es: seq<Event>, env: Env)
    requires LastGeocode(st.effects) == Some(st.state.city)
    ensures LastGeocode(Run(st, es, env).effects) == Some(Run(st, es, env).state.city)
    decreases |es|
  {
    if |es| > 0 {
      var r := Apply(st.state, es[0], env);
      LastGeocodeAppend(st.effects, r.effects);
      CityIsLastGeocoded(Step(r.state, st.effects + r.effects), es[1..], env);
    }
  }

  /** From launch on, whatever happens: the city shown is the last one sent to
      the geocoder, the model is the last one fetched (or the empty
      placeholder), and `invalidCity` reflects the last geocoder answer. */
  lemma FromLaunch(blank: Weather, es: seq<Event>, env: Env)
    ensures var r := Run(Init(blank), es, env);
            && LastGeocode(r.effects) == Some(r.state.city)
            && r.state.weatherModel == LastFetched(es).GetOr(Empty(blank))
            && r.state.invalidCity == LastAnswerEmpty(es).GetOr(false)
  {
    assert LastGeocode(Init(blank).effects) == Some(DefaultCity);
    CityIsLastGeocoded(Init(blank), es, env);
    ModelIsLastArrival(Init(blank), es, env);
    InvalidCityIsLastAnswer(Init(blank), es, env);
  }

  /** Two fetches in flight: whichever arrives second wins, whatever the order
      in which they were started. */
  lemma LastArrivalWins(s: State, first: WeatherModel, second: WeatherModel, env: Env)
    ensures Run(Step(s, []), [FetchCompleted(Success(first)), FetchCompleted(Success(second))], env).state.weatherModel
            == second
  {
    var es := [FetchCompleted(Success(first)), FetchCompleted(Success(second))];
    ModelIsLastArrival(Step(s, []), es, env);
    assert es[1..] == [FetchCompleted(Success(second))];
    assert es[1..][1..] == [];
    assert LastFetched(es[1..]) == Some(second);
  }

  /** A response that is not HTTP 200, fed through the fetch classification
      to the view model, leaves the whole published state as it was and
      starts nothing. */
  lemma BadStatusKeepsState(s: State, response: Network.ResponseKind, data: seq<bv8>,
                            decode: seq<bv8> -> Network.Decoded<WeatherModel>, env: Env)
    requires !Network.IsOK(response)
    ensures Apply(s, FetchCompleted(Network.Fetch(Network.Delivered(response, data), decode)), env) == Step(s, [])
  {
  }

  /** A successful 200 response replaces the published model by the decoded
      one and changes nothing else. */
  lemma DecodedResponseReplacesModel(s: State, data: seq<bv8>, decode: seq<bv8> -> Network.Decoded<WeatherModel>,
                                     m: WeatherModel, env: Env)
    requires decode(data) == Network.Decoded(m)
    ensures Apply(s, FetchCompleted(Network.Fetch(Network.Delivered(Network.HTTP(200), data), decode)), env)
            == Step(s.(weatherModel := m), [])
  {
  }

  /** How many events in `es` ask for the current location with no platform
      fix, by any route. */
  function NoFixAsks(es: seq<Event>): nat
    decreases |es|
  {
    if |es| == 0 then 0
    else
      var e := es[0];
      var asks := match e
        case RefreshRequested(fix) => fix.None?
        case CurrentLocationRequested(fix) => fix.None?
        case Platform(pe) => pe.CurrentLocationAsked? && pe.platformFix.None?
        case _ => false;
      (if asks then 1 else 0) + NoFixAsks(es[1..])
  }

  /** The platform's own events among `es`, in order. */
  function PlatformEvents(es: seq<Event>): seq<Location.Event>
    decreases |es|
  {
    if |es| == 0 then []
    else (if es[0].Platform? then [es[0].event] else []) + PlatformEvents(es[1..])
  }

  /** The last fix published by the platform events of `[e] + rest`. */
  lemma LastFixCons(e: Location.Event, rest: seq<Location.Event>)
    ensures Location.LastFix([e] + rest)
            == (if Location.LastFix(rest).Some? then Location.LastFix(rest) else Location.FixIn(e))
  {
    assert ([e] + rest)[0] == e;
    assert ([e] + rest)[1..] == rest;
  }

  /** The published location is the one the platform's last non-empty update
      carried, exactly as the manager alone would have it: the view model's
      own events never move it. */
  lemma {:induction false} CurrentLocationIsLastPlatformFix(st: Step, es: seq<Event>, env: Env)
    ensures var fix := Location.LastFix(PlatformEvents(es));
            Run(st, es, env).state.locationManager.currentLocation
            == (if fix.Some? then fix else st.state.locationManager.currentLocation)
    decreases |es|
  {
    if |es| > 0 {
      var r := Apply(st.state, es[0], env);
      CurrentLocationIsLastPlatformFix(Step(r.state, st.effects + r.effects), es[1..], env);
      if es[0].Platform? {
        assert PlatformEvents(es) == [es[0].event] + PlatformEvents(es[1..]);
        LastFixCons(es[0].event, PlatformEvents(es[1..]));
      } else {
        assert PlatformEvents(es) == [] + PlatformEvents(es[1..]) == PlatformEvents(es[1..]);
      }
    }
  }

  /** Location requests come only from asks with no platform fix: the
      counter grows by at most their number, and by exactly that while no
      location has been published. */
  lemma {:induction false} RequestsCountNoFixAsks(st: Step, es: seq<Event>, env: Env)
    ensures Run(st, es, env).state.locationManager.locationRequests
            <= st.state.locationManager.locationRequests + NoFixAsks(es)
    ensures st.state.locationManager.currentLocation.None? && Location.LastFix(PlatformEvents(es)).None?
            ==> Run(st, es, env).state.locationManager.locationRequests
                == st.state.locationManager.locationRequests + NoFixAsks(es)
    decreases |es|
  {
    if |es| > 0 {
      var r := Apply(st.state, es[0], env);
      RequestsCountNoFixAsks(Step(r.state, st.effects + r.effects), es[1..], env);
      if es[0].Platform? {
        assert PlatformEvents(es) == [es[0].event] + PlatformEvents(es[1..]);
        LastFixCons(es[0].event, PlatformEvents(es[1..]));
      } else {
        assert PlatformEvents(es) == [] + PlatformEvents(es[1..]) == PlatformEvents(es[1..]);
      }
    }
  }
}
