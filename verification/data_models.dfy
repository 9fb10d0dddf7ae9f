/** The decoded weather payload: one current observation, the hourly
    observations and the daily aggregates, together with the placeholder
    values the app shows before its first successful fetch. */
module DataModels {

  /** One condition descriptor: a category (`main`), a free-text description
      and the provider's icon code such as "10d". */
  datatype DailyWeatherDetail = DailyWeatherDetail(main: string, description: string, icon: string)

  /** The daily temperature range. */
  datatype DailyWeatherTemp = DailyWeatherTemp(min: real, max: real)

  /** One day of the forecast. */
  datatype DailyWeather = DailyWeather(dt: int, temp: DailyWeatherTemp, weather: seq<DailyWeatherDetail>)

  /** One observation (the current one or an hourly one). Only the fields the
      view model reads are kept; the numeric ones are never inspected here. */
  datatype Weather = Weather(
    dt: int,
    temp: real,
    humidity: int,
    windSpeed: real,
    dewPoint: real,
    weather: seq<DailyWeatherDetail>)

  /** The whole snapshot for one place. */
  datatype WeatherModel = WeatherModel(current: Weather, hourly: seq<Weather>, daily: seq<DailyWeather>)

  /** Number of placeholder hourly entries in the empty model. */
  const EmptyHourlyCount: nat := 23
  /** Number of placeholder daily entries in the empty model. */
  const EmptyDailyCount: nat := 8

  /** `n` copies of `x`, as Swift's `Array(repeating:count:)`. */
  function Repeat<T>(x: T, n: nat): (r: seq<T>)
    ensures |r| == n
    ensures forall i :: 0 <= i < |r| ==> r[i] == x
  {
    if n == 0 then [] else [x] + Repeat(x, n - 1)
  }

  /** The descriptor every placeholder day carries: all three strings empty. */
  const BlankDetail := DailyWeatherDetail("", "", "")

  /** `DailyWeather()`: the placeholder day. */
  function DefaultDailyWeather(): (d: DailyWeather)
    ensures d.dt == 0
    ensures d.temp.min == 0.0 && d.temp.max == 0.0
    ensures |d.weather| == 1
    ensures d.weather[0].main == "" && d.weather[0].description == "" && d.weather[0].icon == ""
  {
    DailyWeather(0, DailyWeatherTemp(0.0, 0.0), [BlankDetail])
  }

  /** True when the first-descriptor lookup `weather[0]` is defined. */
  predicate HasDescriptor(d: DailyWeather)
  {
    |d.weather| > 0
  }

  /** `WeatherModel.empty()`. `blank` stands for `Weather()`, whose
      initialiser lives in a file this model does not include. */
  function Empty(blank: Weather): (m: WeatherModel)
    ensures m.current == blank
    ensures |m.hourly| == EmptyHourlyCount
    ensures forall i :: 0 <= i < |m.hourly| ==> m.hourly[i] == blank
    ensures |m.daily| == EmptyDailyCount
    ensures forall i :: 0 <= i < |m.daily| ==> m.daily[i] == DefaultDailyWeather()
    ensures forall i :: 0 <= i < |m.daily| ==> HasDescriptor(m.daily[i])
  {
    WeatherModel(blank, Repeat(blank, EmptyHourlyCount), Repeat(DefaultDailyWeather(), EmptyDailyCount))
  }
}
