/** The records the home screen receives from its collaborators: candidate
    locations from the location search and the forecast payload from the
    forecast service. Everything the screen only displays is kept opaque. */
module WeatherTypes {

  /** A value that may be absent: JavaScript's `null`/`undefined`. */
  datatype Option<+T> = None | Some(value: T)

  /** A candidate location of a search reply (`loc` in screens/HomeScreen.js);
      only `name` is used by the logic, `country` is displayed. */
  datatype Loc = Loc(name: string, country: string)

  /** A number passed through to the display unmodified (temperature, wind,
      humidity); never computed with, so its value stays opaque. */
  datatype Reading = Reading(shown: string)

  /** The `condition` record of a day; `text` keys the weather image. */
  datatype Condition = Condition(text: string)

  /** The `day` summary of one forecast day: `avgtemp_c`, `maxwind_kph`,
      `avghumidity` and `condition`. */
  datatype Day = Day(avgTempC: Reading, maxWindKph: Reading, avgHumidity: Reading, condition: Option<Condition>)

  /** One element of `forecast.forecastday`. */
  datatype ForecastDay = ForecastDay(date: string, day: Option<Day>, sunrise: Option<string>)

  /** The `forecast` record; `forecastDays` is `forecastday`. */
  datatype Forecast = Forecast(forecastDays: seq<ForecastDay>)

  /** The `location` record of a forecast payload. */
  datatype Place = Place(name: string, country: string)

  /** Whatever the forecast service resolves to; either part may be missing. */
  datatype Payload = Payload(location: Option<Place>, forecast: Option<Forecast>)
}
