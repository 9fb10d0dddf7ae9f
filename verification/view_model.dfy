/** The weather view model: the published `city`, `invalidCity` and
    `weatherModel`, and its reactions to geocoder answers, fetch outcomes and
    location deliveries. Each asynchronous call the view model starts is an
    `Effect`; each answer that comes back is an input to a transition. */
module WeatherViewModel {
  import opened Wrappers
  import opened DataModels
  import Network
  import opened Location

  /** The city the view model starts with. */
  const DefaultCity: string := "Noida"

  /** The coordinate fetched for when a placemark carries no location. */
  const DefaultCoordinate := Coordinate("37.5485", "-121.9886")

  /** What the reverse geocoder's subject emits when there is no locality. */
  const UnknownCity: string := "Unknown"

  /** One geocoder placemark: its location and its locality, each optional. */
  datatype Placemark = Placemark(location: Option<Coordinate>, locality: Option<string>)

  /** Who listens to a reverse geocode's answer: the refresh path assigns the
      emitted name to `city`; the current-location chain goes on to fetch. */
  datatype Purpose = RenameCity | FetchAfterward

  /** An asynchronous call the view model starts, or the trap a forced
      unwrap of an unparsable URL raises. */
  datatype Effect =
    | ForwardGeocode(name: string)
    | ReverseGeocode(coordinate: Coordinate, purpose: Purpose)
    | StartFetch(url: string)
    | AwaitLocation
    | Crash

  /** The published state, plus the shared location manager it reads. */
  datatype State = State(
    city: string,
    invalidCity: bool,
    weatherModel: WeatherModel,
    locationManager: Manager)

  /** A transition's outcome: the new state and the calls it started, in order. */
  datatype Step = Step(state: State, effects: seq<Effect>)

  /** What the view model relies on but does not compute: the provider key
      and whether Foundation's `URL(string:)` accepts a string. */
  datatype Env = Env(appId: string, urlParses: string -> bool)

  /** The request URL for a coordinate. */
  function URLFor(c: Coordinate, env: Env): string
  {
    Network.GetURLFor(c.latitude, c.longitude, env.appId)
  }

  // ---------------------------------------------------------------------------
  // Transitions

  /** `getLocation`: one forward geocode of the current city. */
  function GetLocation(s: State): (r: Step)
    ensures r.state == s
    ensures r.effects == [ForwardGeocode(s.city)]
  {
    Step(s, [ForwardGeocode(s.city)])
  }

  /** `init`. `blank` stands for `Weather()`. */
  function Init(blank: Weather): (r: Step)
    ensures r.state.city == DefaultCity
    ensures !r.state.invalidCity
    ensures r.state.weatherModel == Empty(blank)
    ensures r.state.locationManager == Fresh
    ensures r.effects == [ForwardGeocode(DefaultCity)]
  {
    GetLocation(State(DefaultCity, false, Empty(blank), Fresh))
  }

  /** An assignment to `city`: its `didSet` geocodes the new name. */
  function AssignCity(s: State, name: string): (r: Step)
    ensures r.state.city == name
    ensures r.state.(city := s.city) == s
    ensures r.effects == [ForwardGeocode(name)]
  {
    GetLocation(s.(city := name))
  }

  /** `getWeatherInternal`: starts a fetch when the URL string parses and
      does nothing at all otherwise. */
  function GetWeatherInternal(s: State, url: string, env: Env): (r: Step)
    ensures r.state == s
    ensures env.urlParses(url) ==> r.effects == [StartFetch(url)]
    ensures !env.urlParses(url) ==> r.effects == []
  {
    Step(s, if env.urlParses(url) then [StartFetch(url)] else [])
  }

  /** `getWeather`: fetches for the placemark's coordinate, or for the fixed
      default coordinate when it has none. */
  function GetWeather(s: State, coord: Option<Coordinate>, env: Env): (r: Step)
    ensures r.state == s
    ensures var target := if coord.Some? then coord.value else DefaultCoordinate;
            r.effects == (if env.urlParses(URLFor(target, env)) then [StartFetch(URLFor(target, env))] else [])
  {
    GetWeatherInternal(s, URLFor(coord.GetOr(DefaultCoordinate), env), env)
  }

  /** The forward geocoder's answer for the city. Only the first placemark
      counts; an absent list and an empty one are the same `[]`. */
  function OnForwardGeocoded(s: State, placemarks: seq<Placemark>, env: Env): (r: Step)
    ensures |placemarks| > 0 ==> !r.state.invalidCity && r.state == s.(invalidCity := false)
    ensures |placemarks| > 0 ==> |r.effects| <= 1
    ensures |placemarks| > 0 && placemarks[0].location.Some? && env.urlParses(URLFor(placemarks[0].location.value, env))
            ==> r.effects == [StartFetch(URLFor(placemarks[0].location.value, env))]
    ensures |placemarks| > 0 && placemarks[0].location.None? && env.urlParses(URLFor(DefaultCoordinate, env))
            ==> r.effects == [StartFetch(URLFor(DefaultCoordinate, env))]
    ensures |placemarks| > 0 && !env.urlParses(URLFor(placemarks[0].location.GetOr(DefaultCoordinate), env))
            ==> r.effects == []
    ensures |placemarks| == 0 ==> r == Step(s.(invalidCity := true), [])
  {
    if |placemarks| > 0 then
      var w := GetWeather(s, placemarks[0].location, env);
      Step(w.state.(invalidCity := false), w.effects)
    else
      Step(s.(invalidCity := true), [])
  }

  /** A fetch's outcome reaching the subscriber: a value replaces the whole
      model, a failure is only logged. */
  function OnFetchCompleted(s: State, outcome: Result<WeatherModel, Network.NetworkError>): (r: Step)
    ensures outcome.Success? ==> r.state == s.(weatherModel := outcome.value)
    ensures outcome.Failure? ==> r.state == s
    ensures r.effects == []
  {
    match outcome
    case Success(m) => Step(s.(weatherModel := m), [])
    case Failure(_) => Step(s, [])
  }

  /** The locality of the first placemark, if there is one. */
  function FirstLocality(placemarks: seq<Placemark>): Option<string>
  {
    if |placemarks| > 0 then placemarks[0].locality else None
  }

  /** The reverse geocoder's answer for `coord` (`getCityName`): a locality is
      assigned to `city` and emitted, otherwise `"Unknown"` is emitted; the
      listener then either assigns the emitted name or fetches for `coord`,
      where a URL that does not parse traps on the forced unwrap. */
  function OnReverseGeocoded(s: State, coord: Coordinate, purpose: Purpose, placemarks: seq<Placemark>, env: Env): (r: Step)
    ensures purpose == FetchAfterward && FirstLocality(placemarks).None?
            ==> r == Step(s, [ChainFetch(coord, env)])
    ensures purpose == FetchAfterward && FirstLocality(placemarks).Some?
            ==> var name := FirstLocality(placemarks).value;
                r == Step(s.(city := name), [ForwardGeocode(name), ChainFetch(coord, env)])
    ensures purpose == RenameCity && FirstLocality(placemarks).None?
            ==> r == Step(s.(city := UnknownCity), [ForwardGeocode(UnknownCity)])
    ensures purpose == RenameCity && FirstLocality(placemarks).Some?
            ==> var name := FirstLocality(placemarks).value;
                r == Step(s.(city := name), [ForwardGeocode(name), ForwardGeocode(name)])
  {
    var named := match FirstLocality(placemarks)
      case Some(name) => AssignCity(s, name)
      case None => Step(s, []);
    var emitted := FirstLocality(placemarks).GetOr(UnknownCity);
    match purpose
    case RenameCity =>
      var sunk := AssignCity(named.state, emitted);
      Step(sunk.state, named.effects + sunk.effects)
    case FetchAfterward =>
      Step(named.state, named.effects + [ChainFetch(coord, env)])
  }

  /** The chain's fetch step, `fetch(for: URL(string: url)!)`: a fetch, or a
      trap when the URL does not parse. */
  function ChainFetch(coord: Coordinate, env: Env): Effect
  {
    var url := URLFor(coord, env);
    if env.urlParses(url) then StartFetch(url) else Crash
  }

  /** `getWeatherForCurrentLocation`: asks the location manager; a fix it
      already has goes straight to reverse geocoding, otherwise the chain waits
      for the update stream. */
  function GetWeatherForCurrentLocation(s: State, platformFix: Option<Coordinate>): (r: Step)
    ensures r.state == s.(locationManager := r.state.locationManager)
    ensures platformFix.Some? ==> r == Step(s, [ReverseGeocode(platformFix.value, FetchAfterward)])
    ensures platformFix.None?
            ==> r == Step(s.(locationManager := s.locationManager.(locationRequests := s.locationManager.locationRequests + 1)),
                          [AwaitLocation])
  {
    var lookup := Location.GetCurrentLocation(s.locationManager, platformFix);
    var s' := s.(locationManager := lookup.manager);
    match lookup.source
    case Immediate(c) => Step(s', [ReverseGeocode(c, FetchAfterward)])
    case UpdateStream => Step(s', [AwaitLocation])
  }

  /** A coordinate arriving on the stream the current-location chain waits on. */
  function OnChainLocation(s: State, c: Coordinate): (r: Step)
    ensures r == Step(s, [ReverseGeocode(c, FetchAfterward)])
  {
    Step(s, [ReverseGeocode(c, FetchAfterward)])
  }

  /** `refreshWeather`: with a published location, fetch for it and rename the
      city by reverse geocoding it; otherwise run the current-location chain. */
  function RefreshWeather(s: State, platformFix: Option<Coordinate>, env: Env): (r: Step)
    ensures s.locationManager.currentLocation.Some? ==> r.state == s
    ensures s.locationManager.currentLocation.Some? && env.urlParses(URLFor(s.locationManager.currentLocation.value, env))
            ==> r.effects == [StartFetch(URLFor(s.locationManager.currentLocation.value, env)),
                              ReverseGeocode(s.locationManager.currentLocation.value, RenameCity)]
    ensures s.locationManager.currentLocation.Some? && !env.urlParses(URLFor(s.locationManager.currentLocation.value, env))
            ==> r.effects == [ReverseGeocode(s.locationManager.currentLocation.value, RenameCity)]
    ensures s.locationManager.currentLocation.None? ==> r == GetWeatherForCurrentLocation(s, platformFix)
  {
    match s.locationManager.currentLocation
    case Some(c) =>
      var fetch := GetWeatherInternal(s, URLFor(c, env), env);
      Step(s, fetch.effects + [ReverseGeocode(c, RenameCity)])
    case None => GetWeatherForCurrentLocation(s, platformFix)
  }

  // ---------------------------------------------------------------------------
  // Events

  /** Everything that can happen to the view model. */
  datatype Event =
    | CityEntered(name: string)
    | ForwardGeocoded(placemarks: seq<Placemark>)
    | FetchCompleted(outcome: Result<WeatherModel, Network.NetworkError>)
    | ReverseGeocoded(coordinate: Coordinate, purpose: Purpose, placemarks: seq<Placemark>)
    | RefreshRequested(platformFix: Option<Coordinate>)
    | CurrentLocationRequested(platformFix: Option<Coordinate>)
    | ChainLocationDelivered(coordinate: Coordinate)
    | Platform(event: Location.Event)

  /** The name of the last forward geocode among `effects`, if any. */
  function LastGeocode(effects: seq<Effect>): Option<string>
    decreases |effects|
  {
    if |effects| == 0 then None
    else if effects[|effects| - 1].ForwardGeocode? then Some(effects[|effects| - 1].name)
    else LastGeocode(effects[..|effects| - 1])
  }

  /** The last forward geocode of a concatenation is the second part's, or
      failing that the first part's. */
  lemma {:induction false} LastGeocodeAppend(a: seq<Effect>, b: seq<Effect>)
    ensures LastGeocode(a + b) == (if LastGeocode(b).Some? then LastGeocode(b) else LastGeocode(a))
    decreases |b|
  {
    if |b| > 0 {
      assert (a + b)[..|a + b| - 1] == a + b[..|b| - 1];
      LastGeocodeAppend(a, b[..|b| - 1]);
    } else {
      assert a + b == a;
    }
  }

  /** Whether `e`, in state `s`, sends a one-shot location request to the
      platform: an ask for the current location when the platform has no fix,
      whether it comes directly, from a refresh with no published location, or
      from the manager itself. */
  predicate AsksPlatform(s: State, e: Event)
  {
    match e
    case RefreshRequested(fix) => s.locationManager.currentLocation.None? && fix.None?
    case CurrentLocationRequested(fix) => fix.None?
    case Platform(pe) => pe.CurrentLocationAsked? && pe.platformFix.None?
    case _ => false
  }

  /** The reaction to one event. Besides its result, it promises the three
      facts the published state rests on: only a successful fetch touches the
      model, only a geocoder answer touches `invalidCity`, and `city` changes
      only together with a forward geocode of the new name. */
  function Apply(s: State, e: Event, env: Env): (r: Step)
    ensures r.state.weatherModel
            == (if e.FetchCompleted? && e.outcome.Success? then e.outcome.value else s.weatherModel)
    ensures r.state.invalidCity
            == (if e.ForwardGeocoded? then |e.placemarks| == 0 else s.invalidCity)
    ensures LastGeocode(r.effects).None? ==> r.state.city == s.city
    ensures LastGeocode(r.effects).Some? ==> r.state.city == LastGeocode(r.effects).value
    ensures r.state.locationManager.locationRequests
            == s.locationManager.locationRequests + (if AsksPlatform(s, e) then 1 else 0)
    ensures r.state.locationManager.currentLocation
            == (if e.Platform? && Location.FixIn(e.event).Some? then Location.FixIn(e.event)
                else s.locationManager.currentLocation)
  {
    match e
    case CityEntered(name) => AssignCity(s, name)
    case ForwardGeocoded(places) =>
      var r := OnForwardGeocoded(s, places, env);
      assert LastGeocode(r.effects).None? by {
        assert r.effects == [] || r.effects == [StartFetch(r.effects[0].url)];
      }
      r
    case FetchCompleted(outcome) => OnFetchCompleted(s, outcome)
    case ReverseGeocoded(c, purpose, places) =>
      var r := OnReverseGeocoded(s, c, purpose, places, env);
      ReverseGeocodeRenames(s, c, purpose, places, env);
      r
    case RefreshRequested(fix) =>
      var r := RefreshWeather(s, fix, env);
      assert LastGeocode(r.effects).None? by {
        if s.locationManager.currentLocation.Some? {
          var c := s.locationManager.currentLocation.value;
          assert r.effects == [StartFetch(URLFor(c, env)), ReverseGeocode(c, RenameCity)]
              || r.effects == [ReverseGeocode(c, RenameCity)];
        } else if fix.Some? {
          assert r.effects == [ReverseGeocode(fix.value, FetchAfterward)];
          assert r.effects[..0] == [];
        } else {
          assert r.effects == [AwaitLocation];
          assert r.effects[..0] == [];
        }
      }
      r
    case CurrentLocationRequested(fix) => GetWeatherForCurrentLocation(s, fix)
    case ChainLocationDelivered(c) => OnChainLocation(s, c)
    case Platform(pe) => Step(s.(locationManager := Location.Apply(s.locationManager, pe)), [])
  }

  /** A fetch started by the forward geocoder's answer is for the first
      placemark's coordinate, or the default one when it has none: its URL
      reads back as exactly that coordinate. */
  lemma ForwardFetchTarget(s: State, p: Placemark, rest: seq<Placemark>, env: Env, url: string)
    requires p.location.Some? ==> '&' !in p.location.value.latitude && '&' !in p.location.value.longitude
    requires StartFetch(url) in OnForwardGeocoded(s, [p] + rest, env).effects
    ensures var c := p.location.GetOr(DefaultCoordinate);
            Network.ParseURL(url, env.appId) == Some((c.latitude, c.longitude))
  {
    var c := p.location.GetOr(DefaultCoordinate);
    assert ([p] + rest)[0] == p;
    assert url == URLFor(c, env);
    assert '&' !in c.latitude && '&' !in c.longitude by {
      if p.location.None? {
        assert c == DefaultCoordinate;
        assert forall i | 0 <= i < |c.latitude| :: c.latitude[i] != '&';
        assert forall i | 0 <= i < |c.longitude| :: c.longitude[i] != '&';
      }
    }
    Network.ParseGetURLFor(c.latitude, c.longitude, env.appId);
  }

  /** A refresh fetches only when a location is published, and then for
      that location: its URL reads back as the published coordinate. */
  lemma RefreshFetchTarget(s: State, platformFix: Option<Coordinate>, env: Env, url: string)
    requires StartFetch(url) in RefreshWeather(s, platformFix, env).effects
    requires s.locationManager.currentLocation.Some? ==>
               var c := s.locationManager.currentLocation.value;
               '&' !in c.latitude && '&' !in c.longitude
    ensures s.locationManager.currentLocation.Some?
    ensures var c := s.locationManager.currentLocation.value;
            Network.ParseURL(url, env.appId) == Some((c.latitude, c.longitude))
  {
    if s.locationManager.currentLocation.None? {
      assert false;
    }
    var c := s.locationManager.currentLocation.value;
    assert url == URLFor(c, env);
    Network.ParseGetURLFor(c.latitude, c.longitude, env.appId);
  }

  /** After a reverse geocode, `city` is the name last sent to the forward
      geocoder, or unchanged when none was sent. */
  lemma ReverseGeocodeRenames(s: State, coord: Coordinate, purpose: Purpose, placemarks: seq<Placemark>, env: Env)
    ensures var r := OnReverseGeocoded(s, coord, purpose, placemarks, env);
            && (LastGeocode(r.effects).None? ==> r.state.city == s.city)
            && (LastGeocode(r.effects).Some? ==> r.state.city == LastGeocode(r.effects).value)
  {
    var r := OnReverseGeocoded(s, coord, purpose, placemarks, env);
    var loc := FirstLocality(placemarks);
    if loc.Some? {
      var second := r.effects[1];
      assert r.effects == [ForwardGeocode(loc.value)] + [second];
      LastGeocodeAppend([ForwardGeocode(loc.value)], [second]);
    }
  }

  // ---------------------------------------------------------------------------
  // Derived values

  /** `weatherIcon`: the first current descriptor's icon code, or
      `"dayClearSky"` when the current observation has none. */
  function WeatherIcon(m: WeatherModel): (icon: string)
    ensures |m.current.weather| > 0 ==> icon == m.current.weather[0].icon
    ensures |m.current.weather| == 0 ==> icon == "dayClearSky"
  {
    if |m.current.weather| > 0 then m.current.weather[0].icon else "dayClearSky"
  }

  /** `conditions`: the first current descriptor's category, or `""`. */
  function Conditions(m: WeatherModel): (main: string)
    ensures |m.current.weather| > 0 ==> main == m.current.weather[0].main
    ensures |m.current.weather| == 0 ==> main == ""
  {
    if |m.current.weather| > 0 then m.current.weather[0].main else ""
  }

  /** The symbol every unlisted icon code gets, and `"01d"` too. */
  const ClearDay: string := "sun.max.fill"

  /** The icon codes the table lists. */
  const ListedCodes: set<string> := {
    "01d", "01n", "02d", "02n", "03d", "03n", "04d", "04n", "09d", "09n",
    "10d", "10n", "11d", "11n", "13d", "13n", "50d", "50n" }

  /** The symbol names the table can produce. */
  const SymbolNames: set<string> := {
    "sun.max.fill", "moon.fill", "cloud.sun.fill", "cloud.moon.fill", "cloud.fill",
    "cloud.drizzle.fill", "cloud.heavyrain.fill", "cloud.bolt.fill", "cloud.snow.fill",
    "cloud.fog.fill" }

  /** `getWeatherIconFor`: the SF Symbol name for a provider icon code. */
  function IconSymbol(icon: string): (name: string)
    ensures name in SymbolNames
    ensures icon !in ListedCodes ==> name == ClearDay
  {
    match icon
    case "01d" => "sun.max.fill"
    case "01n" => "moon.fill"
    case "02d" => "cloud.sun.fill"
    case "02n" => "cloud.moon.fill"
    case "03d" | "03n" | "04d" | "04n" => "cloud.fill"
    case "09d" | "09n" => "cloud.drizzle.fill"
    case "10d" | "10n" => "cloud.heavyrain.fill"
    case "11d" | "11n" => "cloud.bolt.fill"
    case "13d" | "13n" => "cloud.snow.fill"
    case "50d" | "50n" => "cloud.fog.fill"
    case _ => ClearDay
  }

  /** For every family but clear sky and few clouds, the day code and the night
      code get the same symbol. */
  lemma DayAndNightShareSymbol()
    ensures IconSymbol("03d") == IconSymbol("03n")
    ensures IconSymbol("04d") == IconSymbol("04n")
    ensures IconSymbol("09d") == IconSymbol("09n")
    ensures IconSymbol("10d") == IconSymbol("10n")
    ensures IconSymbol("11d") == IconSymbol("11n")
    ensures IconSymbol("13d") == IconSymbol("13n")
    ensures IconSymbol("50d") == IconSymbol("50n")
  {
  }

  /** Scattered and broken clouds share the plain cloud symbol; clear sky and
      few clouds tell day from night. */
  lemma CloudsMergeClearSkiesSplit()
    ensures IconSymbol("03d") == IconSymbol("04d") == IconSymbol("04n") == "cloud.fill"
    ensures IconSymbol("01d") != IconSymbol("01n")
    ensures IconSymbol("02d") != IconSymbol("02n")
  {
  }

  /** An unlisted code is drawn like a clear day. */
  lemma UnlistedLooksLikeClearDay(icon: string)
    requires icon !in ListedCodes
    ensures IconSymbol(icon) == IconSymbol("01d")
  {
  }

  /** The placeholder day's empty icon code is drawn like a clear day. */
  lemma PlaceholderIconIsClearDay()
    ensures IconSymbol(DefaultDailyWeather().weather[0].icon) == ClearDay
  {
    assert "" !in ListedCodes;
  }
}
