/** The two reads the screen makes of the forecast payload: the strip of
    forecast days it lists, and the detail record of the selected day. */
module DayView {
  import opened WeatherTypes

  /** The days listed in the forecast strip: `weather?.forecast?.forecastday`,
      which lists nothing when the weather or its forecast is missing. */
  function Strip(weather: Option<Payload>): (days: seq<ForecastDay>)
    ensures weather.None? ==> days == []
    ensures weather.Some? && weather.value.forecast.None? ==> days == []
  {
    match weather
    case None => []
    case Some(p) =>
      match p.forecast
      case None => []
      case Some(f) => f.forecastDays
  }

  /** The selected day's detail record, `weather?.forecast?.forecastday[i]?.day || null`.
      Each link of the optional chain that is missing yields null; an index
      outside the array (negative or too large) reads `undefined`, hence null,
      rather than failing. The record shown is always the one of the strip's
      tile at the same index, and nothing is shown when no such tile exists. */
  function DeriveDay(weather: Option<Payload>, i: int): (shown: Option<Day>)
    ensures 0 <= i < |Strip(weather)| ==> shown == Strip(weather)[i].day
    ensures !(0 <= i < |Strip(weather)|) ==> shown == None
  {
    match weather
    case None => None
    case Some(p) =>
      match p.forecast
      case None => None
      case Some(f) =>
        if 0 <= i < |f.forecastDays| then f.forecastDays[i].day else None
  }
}
