# Weather app core, modelled in Dafny

This project models the decision logic of a SwiftUI weather app. The app
turns a typed city name, or the device's position, into coordinates. It
fetches current, hourly and daily weather for those coordinates from
OpenWeatherMap's one-call endpoint. It then publishes the result for the
views to show.

The asynchronous edges of the app are turned into inputs:

- geocoder answers;
- fetch outcomes;
- location-delegate callbacks;
- coordinates arriving on the location stream.

The code's reactions to those inputs are pure transition functions. Each
transition returns the new state and the asynchronous calls it started (`Effect`s).

Modules, one per source file or component:

- `Wrappers`: `Option` (Swift optionals) and `Result` (a publisher's one value or failure).
- `DataModels`: `WeatherModel`, `DailyWeather`, `DailyWeatherDetail`. Also the placeholder values `WeatherModel.empty()` and `DailyWeather()`.
- `Network`: the request URL, its inverse `ParseURL`, the `NetworkError` enum, and the classification `NetworkManager.fetch` performs.
- `Location`: the shared `LocationManager`'s published state and its reactions to setup, authorization changes, location updates, failures and `getCurrentLocation`.
- `WeatherViewModel`: the view model's state (`city`, `invalidCity`, `weatherModel` and the shared location manager). It holds every transition, the icon table and the first-descriptor fallbacks.
- `ViewModelTraces`: what the published state is after any sequence of events, in any arrival order.

Coordinates are opaque. A `Coordinate` holds the text Swift renders for each
`Double`, so the default coordinate is `Coordinate("37.5485", "-121.9886")`.

Three things are parameters because the model cannot compute them:

- The provider key (`Env.appId`).
- Whether Foundation's `URL(string:)` accepts a string (`Env.urlParses`).
- The value `Weather()` the empty model is built from (`blank` in `DataModels.Empty` and `WeatherViewModel.Init`).

Behaviour of the code worth knowing:

- Fetch results apply in arrival order; the last one to arrive wins (`ViewModelTraces.LastArrivalWins`).
- Asking for the current location twice, with no fix, issues two platform requests (`Location.NoDeduplication`).
- A failed fetch is only logged: the published state does not change (`WeatherViewModel.OnFetchCompleted`).
- A decode failure becomes `.error(description)`; no fetch ever fails with `decodingError` or `invalidData` (`Network.FetchNeverInvalidDataOrDecodingError`).
- On the refresh path with a published location, a reverse geocode without a locality makes the subscriber assign `"Unknown"` to `city`, which geocodes `"Unknown"`.
- With a locality, that path assigns `city` twice: once in `getCityName` and once in the subscriber. That is two forward geocodes (`WeatherViewModel.OnReverseGeocoded`).
- The current-location chain discards the emitted name.

## Model

| member | source | states |
|---|---|---|
| DataModels.Repeat | WeatherApp-SwiftUI/DataModels/WeatherModel.swift:18 | `Array(repeating:count:)` has exactly `count` elements, every one equal to the repeated value |
| DataModels.DefaultDailyWeather | WeatherApp-SwiftUI/DataModels/DailyWeatherFile.swift:25-30 | the placeholder day has `dt` 0, min = max = 0, and exactly one descriptor whose `main`, `description` and `icon` are all empty |
| DataModels.Empty | WeatherApp-SwiftUI/DataModels/WeatherModel.swift:16-19 | the empty model has 23 hourly and 8 daily entries; `current` and every hourly entry are `Weather()`; every daily entry is `DailyWeather()` and so has a first descriptor |
| Network.GetURLFor | WeatherApp-SwiftUI/NetworkManager/NetworkManager.swift:19-21 | the URL is the base URL and `onecall?lat=`, then the latitude, `&lon=`, the longitude, and a tail starting `&exclude=minutely` and ending `&units=imperial` |
| Network.ParseGetURLFor | WeatherApp-SwiftUI/NetworkManager/NetworkManager.swift:19-21 | reading a request URL back gives exactly the latitude and longitude it was built from |
| Network.ParsedURLIsBuilt | WeatherApp-SwiftUI/NetworkManager/NetworkManager.swift:19-21 | conversely, any URL that reads back as a coordinate pair is the URL built from that pair |
| Network.GetURLForInjective | WeatherApp-SwiftUI/NetworkManager/NetworkManager.swift:19-21 | different coordinates never produce the same request URL |
| Network.MapError | WeatherApp-SwiftUI/NetworkManager/NetworkManager.swift:38-44 | error mapping is the identity on `NetworkError` values; any other error becomes `.error` with its description |
| Network.Fetch | WeatherApp-SwiftUI/NetworkManager/NetworkManager.swift:29-46 | the outcomes are the decoded value (exactly for HTTP 200 with a decodable body), `invalidResponse` (exactly for a non-HTTP or non-200 response), or `.error`; transport and decode failures become `.error` with their description |
| Network.DecoderUnusedUnlessOK | WeatherApp-SwiftUI/NetworkManager/NetworkManager.swift:32-35 | for a non-HTTP or non-200 response the outcome is `invalidResponse` whatever the decoder would do |
| Network.FetchNeverInvalidDataOrDecodingError | WeatherApp-SwiftUI/NetworkManager/NetworkManager.swift:38-56 | a fetch never fails with `invalidData` or `decodingError` |
| Location.Setup | WeatherApp-SwiftUI/NetworkManager/LocationManager.swift:34-46 | with services enabled, authorization is requested once and nothing else changes; with them disabled, the services-disabled error is set and no authorization is requested |
| Location.RequestAuthorization | WeatherApp-SwiftUI/NetworkManager/LocationManager.swift:29-31 | one more authorization request, nothing else changes |
| Location.DidChangeAuthorization | WeatherApp-SwiftUI/NetworkManager/LocationManager.swift:49-65 | `isAuthorized` holds exactly for the two granting statuses, which also start updates and keep the error; denied/restricted and not-determined set their own errors |
| Location.DidUpdateLocations | WeatherApp-SwiftUI/NetworkManager/LocationManager.swift:68-72 | an empty list changes nothing and sends nothing; otherwise the last location becomes `currentLocation` and is sent |
| Location.DidFail | WeatherApp-SwiftUI/NetworkManager/LocationManager.swift:75-78 | the failure is published as the error and nothing else changes |
| Location.GetCurrentLocation | WeatherApp-SwiftUI/NetworkManager/LocationManager.swift:81-88 | a platform fix is returned at once without a request; without one, exactly one location request is issued and the update stream is returned |
| Location.RequestsCountUncachedAsks | WeatherApp-SwiftUI/NetworkManager/LocationManager.swift:81-88 | over any event sequence, location requests grow by exactly the number of asks made without a platform fix |
| Location.AuthorizedFollowsLastStatus | WeatherApp-SwiftUI/NetworkManager/LocationManager.swift:49-65 | after any event sequence, `isAuthorized` reflects the last reported status; with no status reported it is unchanged |
| Location.Apply | WeatherApp-SwiftUI/NetworkManager/LocationManager.swift:34-88 | per callback: only a non-empty update moves `currentLocation` (to its last entry); `locationError` is replaced exactly by a disabled-services setup, a denied, restricted or undetermined status, or a failure; only an ask without a fix requests a location |
| Location.CurrentLocationIsLastFix | WeatherApp-SwiftUI/NetworkManager/LocationManager.swift:68-72 | after any callbacks, `currentLocation` is the last entry of the last non-empty update, or unchanged if there was none |
| Location.LocationErrorIsLastError | WeatherApp-SwiftUI/NetworkManager/LocationManager.swift:34-78 | after any callbacks, `locationError` is the last error published; nothing ever clears it |
| Location.NoDeduplication | WeatherApp-SwiftUI/NetworkManager/LocationManager.swift:81-88 | two asks in a row without a fix issue two platform requests |
| WeatherViewModel.Init | WeatherApp-SwiftUI/ViewModel/WeatherViewModel.swift:12-28 | the view model starts with city `"Noida"`, a valid city and the empty model, and issues exactly one forward geocode, of `"Noida"` |
| WeatherViewModel.GetLocation | WeatherApp-SwiftUI/ViewModel/WeatherViewModel.swift:146-147 | one forward geocode of the current city, state unchanged |
| WeatherViewModel.AssignCity | WeatherApp-SwiftUI/ViewModel/WeatherViewModel.swift:17-21 | every assignment to `city` changes only `city` and issues exactly one forward geocode, of the new name |
| WeatherViewModel.GetWeatherInternal | WeatherApp-SwiftUI/ViewModel/WeatherViewModel.swift:170-173 | a URL that parses starts exactly one fetch; one that does not starts nothing; state unchanged |
| WeatherViewModel.GetWeather | WeatherApp-SwiftUI/ViewModel/WeatherViewModel.swift:158-167 | fetches for the given coordinate, or for (37.5485, -121.9886) when there is none |
| WeatherViewModel.OnForwardGeocoded | WeatherApp-SwiftUI/ViewModel/WeatherViewModel.swift:147-154 | with a placemark, `invalidCity` becomes false and one fetch starts, for its location or else the default coordinate; with none, `invalidCity` becomes true, nothing starts and the model is kept |
| WeatherViewModel.OnFetchCompleted | WeatherApp-SwiftUI/ViewModel/WeatherViewModel.swift:173-185 | a value replaces `weatherModel` wholesale; a failure leaves the whole state unchanged |
| WeatherViewModel.OnReverseGeocoded | WeatherApp-SwiftUI/ViewModel/WeatherViewModel.swift:58-70 | a locality is assigned to `city` (one geocode) and emitted, otherwise `"Unknown"` is emitted with `city` unchanged. The refresh listener then assigns the emitted name; the location chain then fetches for the coordinate, or traps when the URL does not parse |
| WeatherViewModel.ReverseGeocodeRenames | WeatherApp-SwiftUI/ViewModel/WeatherViewModel.swift:58-70 | after a reverse geocode, `city` is the last name sent to the forward geocoder, or unchanged if none was sent |
| WeatherViewModel.GetWeatherForCurrentLocation | WeatherApp-SwiftUI/ViewModel/WeatherViewModel.swift:33-42 | a platform fix goes straight to reverse geocoding with no request and no state change; without one, exactly one location request is issued, nothing else changes, and the chain waits on the stream |
| WeatherViewModel.OnChainLocation | WeatherApp-SwiftUI/ViewModel/WeatherViewModel.swift:34-40 | a coordinate reaching the waiting chain starts its reverse geocode and nothing else |
| WeatherViewModel.RefreshWeather | WeatherApp-SwiftUI/ViewModel/WeatherViewModel.swift:221-233 | with a published location, a fetch for it (if the URL parses) and then a renaming reverse geocode, state unchanged; otherwise the current-location chain |
| WeatherViewModel.Apply | WeatherApp-SwiftUI/ViewModel/WeatherViewModel.swift:146-186 | per event: only a successful fetch changes the model; only a forward-geocoder answer changes `invalidCity`; `city` changes only to the name last sent to the forward geocoder; a location request is issued exactly for an ask with no platform fix (and, on refresh, no published location); only a platform update moves the published location |
| WeatherViewModel.WeatherIcon | WeatherApp-SwiftUI/ViewModel/WeatherViewModel.swift:92-97 | the first current descriptor's icon, or `"dayClearSky"` when there is no descriptor |
| WeatherViewModel.Conditions | WeatherApp-SwiftUI/ViewModel/WeatherViewModel.swift:107-112 | the first current descriptor's `main`, or `""` when there is no descriptor |
| WeatherViewModel.IconSymbol | WeatherApp-SwiftUI/ViewModel/WeatherViewModel.swift:191-216 | every string maps to one of the ten symbol names, and every unlisted code to `sun.max.fill` |
| WeatherViewModel.DayAndNightShareSymbol | WeatherApp-SwiftUI/ViewModel/WeatherViewModel.swift:201-212 | for 03, 04, 09, 10, 11, 13 and 50 the day and night codes get the same symbol |
| WeatherViewModel.CloudsMergeClearSkiesSplit | WeatherApp-SwiftUI/ViewModel/WeatherViewModel.swift:193-202 | 03 and 04 both give `cloud.fill`; `01d` differs from `01n` and `02d` from `02n` |
| WeatherViewModel.UnlistedLooksLikeClearDay | WeatherApp-SwiftUI/ViewModel/WeatherViewModel.swift:213-214 | an unlisted code gets the same symbol as `01d` |
| WeatherViewModel.PlaceholderIconIsClearDay | WeatherApp-SwiftUI/ViewModel/WeatherViewModel.swift:213-214 | the placeholder day's empty icon code gets `sun.max.fill` |
| WeatherViewModel.ForwardFetchTarget | WeatherApp-SwiftUI/ViewModel/WeatherViewModel.swift:147-167 | any fetch the forward geocoder's answer starts is for the first placemark's coordinate, or the default one when it has none: its URL reads back as exactly that coordinate |
| WeatherViewModel.RefreshFetchTarget | WeatherApp-SwiftUI/ViewModel/WeatherViewModel.swift:221-233 | a refresh starts a fetch only when a location is published, and that fetch's URL reads back as the published coordinate |
| ViewModelTraces.ModelIsLastArrival | WeatherApp-SwiftUI/ViewModel/WeatherViewModel.swift:173-185 | after any event sequence the model is the one the last successful fetch to arrive delivered, or the starting model |
| ViewModelTraces.InvalidCityIsLastAnswer | WeatherApp-SwiftUI/ViewModel/WeatherViewModel.swift:146-155 | after any event sequence, `invalidCity` tells whether the last forward-geocoder answer was empty |
| ViewModelTraces.CityIsLastGeocoded | WeatherApp-SwiftUI/ViewModel/WeatherViewModel.swift:17-21 | once `city` is the last geocoded name it stays so through any events |
| ViewModelTraces.FromLaunch | WeatherApp-SwiftUI/ViewModel/WeatherViewModel.swift:12-28 | from `init`, after any events: city is the last geocoded name, the model is the last one fetched or the empty one, `invalidCity` is the last answer's emptiness or false |
| ViewModelTraces.LastArrivalWins | WeatherApp-SwiftUI/ViewModel/WeatherViewModel.swift:182-184 | of two successful fetches, the one arriving second sets the model |
| ViewModelTraces.CurrentLocationIsLastPlatformFix | WeatherApp-SwiftUI/NetworkManager/LocationManager.swift:68-72 | through any view-model events, the published location is the last one the platform's updates carried; the view model's own events never move it |
| ViewModelTraces.RequestsCountNoFixAsks | WeatherApp-SwiftUI/ViewModel/WeatherViewModel.swift:221-233 | location requests grow by at most the number of asks with no platform fix, and by exactly that many while no location is published |
| ViewModelTraces.BadStatusKeepsState | WeatherApp-SwiftUI/NetworkManager/NetworkManager.swift:32-35 | a non-200 response, classified and delivered to the view model, changes nothing and starts nothing |
| ViewModelTraces.DecodedResponseReplacesModel | WeatherApp-SwiftUI/ViewModel/WeatherViewModel.swift:182-184 | a decodable 200 response replaces the model by the decoded value and changes nothing else |

## Left out

- All SwiftUI views: they are layout and presentation.
- Combine, `DispatchQueue`, `URLSession`, `CLGeocoder` and `CLLocationManager` mechanics. Their answers are input events and their calls are `Effect`s. Threads, schedulers, subscriptions and the `cancellables` store are not modelled.
- Current-location chain subscriptions: a coordinate delivered to a waiting chain is an input event. The model does not track how many live subscriptions each update reaches, or that a failed fetch ends a chain's subscription.
- `print` logging of fetch failures and of the location error: no state depends on it.
- `getTempFor`, `DailyWeatherTemp` (the computed property), `windSpeed`, `humidity` and `rainChances`: floating-point formatting. `rainChances` prints the dew point.
- `date` and `getDayFor`: they depend on `DateFormatter`, locale and platform.
- `DailyWeather.id`: it returns a fresh `UUID()` on every access.
- The `@unknown default` branch that calls `fatalError`: only the known authorization statuses are modelled.
- `desiredAccuracy` and the delegate assignment in `setupLocationManager`: platform configuration with no observable effect on the state.
- The hard-coded API key: it is the parameter `Env.appId`.
- The unused `city` argument of `getWeatherInternal`.
- Network.GetURLFor: takes the latitude and longitude as already-rendered text. It does not model Swift's `Double` string interpolation.
- WeatherViewModel.GetWeatherInternal: `URL(string:)` is the input predicate `Env.urlParses`, not Foundation's parser.
- DataModels.Empty: `Weather()` is the parameter `blank`, because Weather.swift is not part of this model. The fields of `Weather` are those the view model reads.
- DailyWeatherTemp.swift is not part of this model. `DailyWeatherTemp` is a plain min/max record.
- Forced unwrap of an unparsable URL in the current-location chain: the trap is recorded as the `Crash` effect, and the run goes on afterwards instead of ending the app.
- Placemark lists: a `nil` list and an empty one are both the empty sequence, as the code treats them alike.
