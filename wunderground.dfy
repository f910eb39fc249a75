/** The Weather Underground provider: the imperial observation's "feels like" choice, the
    selection of the first observation, and the mapping of an observation to a
    current-conditions record. Payloads arrive already parsed. */
module Wunderground {
  import opened Wrappers
  import Records
  import Providers

  /** The imperial block of an observation (degrees Fahrenheit, mph, inHg, inches). */
  datatype ImperialObs = ImperialObs(
    temp: Option<real> := None,
    dewpt: Option<real> := None,
    pressure: Option<real> := None,
    heatIndex: Option<real> := None,
    windChill: Option<real> := None,
    windSpeed: Option<real> := None,
    windGust: Option<real> := None,
    precipRate: Option<real> := None,
    precipTotal: Option<real> := None,
    elev: Option<real> := None)

  /** One station observation; location and text fields the mapping never reads are not kept. */
  datatype Observation = Observation(
    stationID: string,
    obsTimeUtc: Option<real> := None,
    uv: Option<real> := None,
    solarRadation: Option<real> := None,
    humidity: Option<real> := None,
    winddir: Option<real> := None,
    imperial: Option<ImperialObs> := None)

  datatype Current = Current(observations: seq<Observation>)

  /** `feels_like`: the heat index from 70 F up, the wind chill at 61 F and below, the
      temperature itself in between. An absent temperature cannot be compared and raises
      TypeError; an absent index is returned as it is. */
  function FeelsLike(o: ImperialObs): (r: Result<Option<real>>)
    ensures r.Err? <==> o.temp.None?
    ensures r.Err? ==> r.error == TypeError
    ensures r.Ok? && o.temp.value >= 70.0 ==> r.value == o.heatIndex
    ensures r.Ok? && o.temp.value <= 61.0 ==> r.value == o.windChill
    ensures r.Ok? && 61.0 < o.temp.value < 70.0 ==> r.value == o.temp
  {
    if o.temp.None? then Err(TypeError)
    else if o.temp.value >= 70.0 then Ok(o.heatIndex)
    else if o.temp.value <= 61.0 then Ok(o.windChill)
    else Ok(o.temp)
  }

  /** The reported value is always one of temperature, heat index and wind chill, and the
      temperature itself is reported exactly in the band between the thresholds, where
      neither index is consulted. */
  lemma FeelsLikeSources(o: ImperialObs)
    requires o.temp.Some?
    ensures FeelsLike(o).value in {o.temp, o.heatIndex, o.windChill}
    ensures 61.0 < o.temp.value < 70.0 <==>
      FeelsLike(o) == FeelsLike(o.(heatIndex := None, windChill := None)) == Ok(o.temp)
  {
  }

  /** `get_current_weather` after the fetch: nothing when the fetch failed or returned no
      observation, otherwise the first observation. */
  function GetCurrentWeather(fetched: Option<Current>): (r: Option<Observation>)
    ensures r.None? <==> fetched.None? || |fetched.value.observations| == 0
    ensures r.Some? ==> r.value == fetched.value.observations[0]
  {
    if fetched.None? || |fetched.value.observations| < 1 then None
    else Some(fetched.value.observations[0])
  }

  /** A configured station. The api key only goes into the request, which is not modelled.
      The class as written defines no `observe`, so it cannot be instantiated
      (`Providers.AbstractStations`); the members below describe it once `observe` is defined
      (`Providers.CorrectedStationsInstantiate`). */
  datatype Station = Station(name: string, stationId: string, apiKey: string)

  /** `current_conditions`, given what `get_current_weather` returned: None when there is no
      observation; AttributeError when it lacks the imperial block; TypeError when the
      imperial temperature is absent (the "feels like" comparison); otherwise a record whose
      fields are copied unchanged from the observation. */
  function CurrentConditions(st: Station, weather: Option<Observation>)
    : (r: Result<Option<Records.CurrentConditions>>)
    ensures weather.None? ==> r == Ok(None)
    ensures weather.Some? && weather.value.imperial.None? ==> r == Err(AttributeError)
    ensures weather.Some? && weather.value.imperial.Some? ==>
      (r.Err? <==> weather.value.imperial.value.temp.None?)
    ensures r.Err? ==> weather.Some?
    ensures r.Ok? && r.value.Some? ==>
      var w := weather.value;
      var i := w.imperial.value;
      var c := r.value.value;
      && c.timestamp == w.obsTimeUtc
      && c.provider == Providers.Value(Providers.WUnderground)
      && c.stationId == st.stationId
      && c.temperature == i.temp && c.feelsLike == FeelsLike(i).value
      && c.windSpeed == i.windSpeed && c.windGusts == i.windGust
      && c.windBearing == w.winddir && c.humidity == w.humidity
      && c.dewPoint == i.dewpt && c.absPressure == i.pressure
      && c.uvIndex == w.uv && c.solarRad == w.solarRadation
      && c.precipDay == i.precipTotal && c.precipHour == i.precipRate
      && c.relPressure.None? && c.precipTotal.None? && c.remarks.None?
  {
    if weather.None? then Ok(None)
    else
      var w := weather.value;
      if w.imperial.None? then Err(AttributeError)
      else
        var i := w.imperial.value;
        var feels :- FeelsLike(i);
        Ok(Some(Records.CurrentConditions(
          timestamp := w.obsTimeUtc,
          provider := Providers.Value(Providers.WUnderground),
          stationId := st.stationId,
          temperature := i.temp,
          feelsLike := feels,
          windSpeed := i.windSpeed,
          windGusts := i.windGust,
          windBearing := w.winddir,
          humidity := w.humidity,
          dewPoint := i.dewpt,
          absPressure := i.pressure,
          uvIndex := w.uv,
          solarRad := w.solarRadation,
          precipDay := i.precipTotal,
          precipHour := i.precipRate)))
  }

  /** `hourly_forecast`: this provider gives none. */
  function HourlyForecast(st: Station): (r: Option<seq<Records.HourlyForecast>>)
    ensures r.None?
  {
    None
  }
}
