/** The NOAA (National Weather Service) provider: the "feels like" choice made on the
    Celsius reading, and the mapping of an observation to a current-conditions record. The
    unit conversions of the external conversion library that the mapping applies are
    parameters; the "feels like" thresholds take that library's Celsius-to-Fahrenheit
    conversion to be 1.8 C + 32 (Temperature.DegF). */
module Noaa {
  import opened Wrappers
  import Records
  import Providers
  import Temperature
  import Wunderground

  /** One measurement; its unit code and quality flag are not read by the mapping. */
  datatype Measurement = Measurement(value: Option<real>)

  /** The observation properties (SI units: degrees Celsius, m/s, Pa, m, mm/h). */
  datatype Properties = Properties(
    station: string,
    timestamp: real,
    temperature: Option<Measurement> := None,
    dewpoint: Option<Measurement> := None,
    windDirection: Option<Measurement> := None,
    windSpeed: Option<Measurement> := None,
    windGust: Option<Measurement> := None,
    barometricPressure: Option<Measurement> := None,
    seaLevelPressure: Option<Measurement> := None,
    visibility: Option<Measurement> := None,
    precipitationLastHour: Option<Measurement> := None,
    relativeHumidity: Option<Measurement> := None,
    windChill: Option<Measurement> := None,
    heatIndex: Option<Measurement> := None,
    textDescription: Option<string> := None,
    rawMessage: Option<string> := None)

  /** `feelsLike`: None without a temperature reading; otherwise, judged on the reading's
      Fahrenheit value (taken as 1.8 C + 32), the heat index from 70 F up, the wind chill at 61 F and below, and
      the Celsius reading itself in between. A missing index measurement raises
      AttributeError; a present one with no value gives None. */
  function FeelsLike(p: Properties): (r: Result<Option<real>>)
    ensures p.temperature.None? || p.temperature.value.value.None? ==> r == Ok(None)
    ensures r.Err? ==> r.error == AttributeError
    ensures p.temperature.Some? && p.temperature.value.value.Some? ==>
      var t := p.temperature.value.value.value;
      var f := Temperature.DegF(Temperature.Celsius, t);
      && (f >= 70.0 ==> r == (if p.heatIndex.None? then Err(AttributeError) else Ok(p.heatIndex.value.value)))
      && (f <= 61.0 ==> r == (if p.windChill.None? then Err(AttributeError) else Ok(p.windChill.value.value)))
      && (61.0 < f < 70.0 ==> r == Ok(Some(t)))
  {
    if p.temperature.None? || p.temperature.value.value.None? then Ok(None)
    else
      var t := p.temperature.value.value.value;
      var f := Temperature.DegF(Temperature.Celsius, t);
      if f >= 70.0 then
        if p.heatIndex.None? then Err(AttributeError) else Ok(p.heatIndex.value.value)
      else if f <= 61.0 then
        if p.windChill.None? then Err(AttributeError) else Ok(p.windChill.value.value)
      else Ok(Some(t))
  }

  /** On the Celsius scale the thresholds are 190/9 C (70 F) and 145/9 C (61 F). */
  lemma CelsiusThresholds(t: real)
    ensures Temperature.DegF(Temperature.Celsius, t) >= 70.0 <==> t >= 190.0 / 9.0
    ensures Temperature.DegF(Temperature.Celsius, t) <= 61.0 <==> t <= 145.0 / 9.0
  {
  }

  function ToFahrenheit(v: Option<real>): Option<real> {
    if v.None? then None else Some(Temperature.DegF(Temperature.Celsius, v.value))
  }

  /** Given the same weather, NOAA (Celsius readings) and Weather Underground (Fahrenheit
      readings) make the same choice: converting NOAA's answer to Fahrenheit gives the
      Weather Underground answer. */
  lemma AgreesWithWunderground(t: real, heat: Option<real>, chill: Option<real>)
    ensures var p := Properties("", 0.0, temperature := Some(Measurement(Some(t))),
                                heatIndex := Some(Measurement(heat)),
                                windChill := Some(Measurement(chill)));
      var o := Wunderground.ImperialObs(temp := ToFahrenheit(Some(t)), heatIndex := ToFahrenheit(heat),
                                        windChill := ToFahrenheit(chill));
      FeelsLike(p).Ok? && Wunderground.FeelsLike(o) == Ok(ToFahrenheit(FeelsLike(p).value))
  {
  }

  /** The conversions of the external library, applied to possibly-absent values. */
  datatype Converter = Converter(
    celsiusToFahrenheit: Option<real> -> Option<real>,
    mpsToMph: Option<real> -> Option<real>,
    mmphToInph: Option<real> -> Option<real>,
    paToInHg: Option<real> -> Option<real>,
    metersToMiles: Option<real> -> Option<real>)

  /** A configured station: a name and the NOAA station code. */
  datatype Station = Station(name: string, station: string)

  /** The measurements `observe` dereferences; a missing one raises AttributeError. */
  predicate HasMeasurements(p: Properties) {
    && p.temperature.Some? && p.dewpoint.Some? && p.windSpeed.Some? && p.windGust.Some?
    && p.precipitationLastHour.Some? && p.barometricPressure.Some?
    && p.seaLevelPressure.Some? && p.visibility.Some? && p.windDirection.Some?
    && p.relativeHumidity.Some?
  }

  /** `observe`, given what the fetch returned: None when nothing came back; AttributeError
      when a dereferenced measurement is missing or "feels like" raises; otherwise a record
      keyed by the configured station code, holding the converted readings and the raw
      message as remarks. */
  function Observe(st: Station, fetched: Option<Properties>, conv: Converter)
    : (r: Result<Option<Records.CurrentConditions>>)
    ensures fetched.None? <==> r == Ok(None)
    ensures fetched.Some? ==> (r.Err? <==> !HasMeasurements(fetched.value) || FeelsLike(fetched.value).Err?)
    ensures r.Err? ==> r.error == AttributeError
    ensures r.Ok? && r.value.Some? ==>
      var p := fetched.value;
      var c := r.value.value;
      && c.timestamp == Some(p.timestamp)
      && c.provider == Providers.Value(Providers.NOAA)
      && c.stationId == st.station
      && c.temperature == conv.celsiusToFahrenheit(p.temperature.value.value)
      && c.feelsLike == conv.celsiusToFahrenheit(FeelsLike(p).value)
      && c.dewPoint == conv.celsiusToFahrenheit(p.dewpoint.value.value)
      && c.windSpeed == conv.mpsToMph(p.windSpeed.value.value)
      && c.windGusts == conv.mpsToMph(p.windGust.value.value)
      && c.windBearing == p.windDirection.value.value
      && c.humidity == p.relativeHumidity.value.value
      && c.precipHour == conv.mmphToInph(p.precipitationLastHour.value.value)
      && c.absPressure == conv.paToInHg(p.barometricPressure.value.value)
      && c.relPressure == conv.paToInHg(p.seaLevelPressure.value.value)
      && c.visibility == conv.metersToMiles(p.visibility.value.value)
      && c.remarks == p.rawMessage
  {
    if fetched.None? then Ok(None)
    else
      var p := fetched.value;
      if p.temperature.None? then Err(AttributeError)
      else
        var feels :- FeelsLike(p);
        if !HasMeasurements(p) then Err(AttributeError)
        else
          Ok(Some(Records.CurrentConditions(
            timestamp := Some(p.timestamp),
            provider := Providers.Value(Providers.NOAA),
            stationId := st.station,
            temperature := conv.celsiusToFahrenheit(p.temperature.value.value),
            feelsLike := conv.celsiusToFahrenheit(feels),
            dewPoint := conv.celsiusToFahrenheit(p.dewpoint.value.value),
            windSpeed := conv.mpsToMph(p.windSpeed.value.value),
            windGusts := conv.mpsToMph(p.windGust.value.value),
            windBearing := p.windDirection.value.value,
            humidity := p.relativeHumidity.value.value,
            precipHour := conv.mmphToInph(p.precipitationLastHour.value.value),
            absPressure := conv.paToInHg(p.barometricPressure.value.value),
            relPressure := conv.paToInHg(p.seaLevelPressure.value.value),
            visibility := conv.metersToMiles(p.visibility.value.value),
            remarks := p.rawMessage)))
  }
}
