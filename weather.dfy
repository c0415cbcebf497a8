/** The weather snapshot the dashboard displays: only the fields that the
    advisory rules and the icon classifier read, plus the demo fixture that
    the application loads on start-up. Numbers are JavaScript numbers; the
    model uses `real`, since they are only ever compared with constants. */
module Weather {

  datatype Option<+T> = None | Some(value: T)

  /** The `current` block of a snapshot. */
  datatype Current = Current(
    tempC: real,          // temp_c
    humidity: real,       // humidity (percent)
    windKph: real,        // wind_kph
    conditionText: string // condition.text
  )

  /** One entry of `forecast.forecastday`. */
  datatype ForecastDay = ForecastDay(
    date: string,
    conditionText: string,    // day.condition.text
    dailyChanceOfRain: real   // day.daily_chance_of_rain (percent)
  )

  datatype WeatherData = WeatherData(current: Current, forecast: seq<ForecastDay>)

  /** The interface language; the source's type is 'en' | 'hi'. */
  datatype Language = En | Hi

  /** The demo fixture for Delhi loaded when the application starts. */
  const Demo: WeatherData := WeatherData(
    Current(28.0, 65.0, 12.0, "Partly cloudy"),
    [ ForecastDay("2024-01-20", "Sunny", 10.0),
      ForecastDay("2024-01-21", "Partly cloudy", 20.0),
      ForecastDay("2024-01-22", "Light rain", 80.0) ])
}
