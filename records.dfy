/** The two database records the providers produce. Every measurement column is optional
    and defaults to absent, as the keyword construction of the table rows leaves unset
    columns NULL. Timestamps are seconds on a common clock. */
module Records {
  import opened Wrappers

  /** A row of the current-conditions table; the key is (timestamp, provider, station id). */
  datatype CurrentConditions = CurrentConditions(
    timestamp: Option<real>,
    provider: string,
    stationId: string,
    temperature: Option<real> := None,
    feelsLike: Option<real> := None,
    dewPoint: Option<real> := None,
    windSpeed: Option<real> := None,
    windGusts: Option<real> := None,
    windBearing: Option<real> := None,
    humidity: Option<real> := None,
    precipHour: Option<real> := None,
    precipDay: Option<real> := None,
    precipWeek: Option<real> := None,
    precipMonth: Option<real> := None,
    precipYear: Option<real> := None,
    precipTotal: Option<real> := None,
    relPressure: Option<real> := None,
    absPressure: Option<real> := None,
    cloudCover: Option<real> := None,
    visibility: Option<real> := None,
    uvIndex: Option<real> := None,
    ozone: Option<real> := None,
    solarLux: Option<real> := None,
    solarRad: Option<real> := None,
    remarks: Option<string> := None)

  /** A row of the hourly-forecast table; the key adds the time the forecast originated. */
  datatype HourlyForecast = HourlyForecast(
    timestamp: Option<real>,
    provider: string,
    stationId: string,
    originTime: Option<real>,
    temperature: Option<real> := None,
    feelsLike: Option<real> := None,
    windSpeed: Option<real> := None,
    windGusts: Option<real> := None,
    windBearing: Option<real> := None,
    humidity: Option<real> := None,
    precip: Option<real> := None,
    relPressure: Option<real> := None,
    absPressure: Option<real> := None,
    cloudCover: Option<real> := None,
    visibility: Option<real> := None,
    uvIndex: Option<real> := None,
    ozone: Option<real> := None,
    remarks: Option<string> := None)
}
