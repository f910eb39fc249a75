/** The Dark Sky provider: the mapping of the current conditions and of the hourly forecast
    into records, with percentages scaled by 100, pressure converted hPa -> inHg and the
    precipitation rate mm/h -> in/h through the quantity layer, and the station's cache of
    the last fetch. As written, both mappings stop at two attributes the code names but that
    do not exist: the provider's enumeration member, and the unit package's `mmph` factory.
    The corrected mapping takes the provider name as a parameter and converts precipitation
    with the MillimetersPerHour class. */
module DarkSky {
  import opened Wrappers
  import Records
  import Providers
  import Pressure
  import Rate
  import UnitFactories
  import Q = Quantities

  /** One set of conditions (the current ones or one forecast hour). */
  datatype Conditions = Conditions(
    time: real,
    summary: Option<string> := None,
    temperature: Option<real> := None,
    apparentTemperature: Option<real> := None,
    dewPoint: Option<real> := None,
    humidity: Option<real> := None,
    pressure: Option<real> := None,
    windSpeed: Option<real> := None,
    windGust: Option<real> := None,
    windBearing: Option<real> := None,
    cloudCover: Option<real> := None,
    uvIndex: Option<real> := None,
    visibility: Option<real> := None,
    ozone: Option<real> := None,
    precipIntensity: Option<real> := None)

  datatype Hourly = Hourly(data: seq<Conditions>)

  /** The forecast payload; the minutely and daily blocks are not read. */
  datatype Weather = Weather(currently: Conditions, hourly: Option<Hourly> := None)

  /** A fraction as a percentage; an absent fraction cannot be multiplied. */
  function Percent(v: Option<real>): (r: Result<Option<real>>)
    ensures r.Err? <==> v.None?
    ensures r.Err? ==> r.error == TypeError
    ensures r.Ok? ==> r.value == Some(100.0 * v.value)
  {
    if v.None? then Err(TypeError) else Ok(Some(v.value * 100.0))
  }

  /** `hPa(p).inHg`: an absent pressure fails at construction, since the class scales its
      argument by 1000. */
  function PressureInHg(p: Option<real>): (r: Result<Option<real>>)
    ensures r.Err? <==> p.None?
    ensures r.Err? ==> r.error == TypeError
    ensures r.Ok? ==> r.value == Some(1000.0 * p.value / Pressure.PascalsPerInHg)
  {
    var q :- Q.New(Q.Pres(Pressure.Hectorpascal), p);
    Q.GetAttr(q, Q.PresAttr(Pressure.InchesMercury))
  }

  /** Corrected: the precipitation rate in in/h as `MillimetersPerHour(x).inph`, the
      conversion tests/test_rate.py:8-18 expects `units.mmph` to give; an absent rate stays
      absent. As written the factory does not exist (PrecipAsWritten). */
  function PrecipInph(x: Option<real>): (r: Option<real>)
    ensures x.None? ==> r.None?
    ensures x.Some? ==> r == Some(x.value * 0.1 * 0.393700787)
  {
    var q := Q.New(Q.Rate(Rate.MillimetersPerHour), x).value;
    Q.GetAttr(q, Q.RateAttr(Rate.InchesPerHour)).value
  }

  /** `units.mmph(x).inph` as written: the unit package exports no `mmph`, so the lookup
      raises AttributeError whatever the rate, before the rate is read. */
  function PrecipAsWritten(x: Option<real>): (r: Result<Option<real>>)
    ensures r == Err(AttributeError)
  {
    UnitFactories.LookupMissingNames();
    match UnitFactories.Lookup("mmph")
    case Err(e) => Err(e)
  }

  function CurrentRecord(provider: string, stationId: string, c: Conditions,
                         humidity: Option<real>, pressure: Option<real>,
                         precip: Option<real>, cloud: Option<real>): Records.CurrentConditions
  {
    Records.CurrentConditions(
      timestamp := Some(c.time),
      provider := provider,
      stationId := stationId,
      temperature := c.temperature,
      feelsLike := c.apparentTemperature,
      windSpeed := c.windSpeed,
      windGusts := c.windGust,
      windBearing := c.windBearing,
      humidity := humidity,
      dewPoint := c.dewPoint,
      absPressure := pressure,
      precipHour := precip,
      cloudCover := cloud,
      visibility := c.visibility,
      ozone := c.ozone,
      uvIndex := c.uvIndex,
      remarks := c.summary)
  }

  function HourRecord(provider: string, stationId: string, origin: real, h: Conditions,
                      precip: Option<real>, pressure: Option<real>, cloud: Option<real>)
    : Records.HourlyForecast
  {
    Records.HourlyForecast(
      timestamp := Some(h.time),
      originTime := Some(origin),
      provider := provider,
      stationId := stationId,
      temperature := h.temperature,
      feelsLike := h.apparentTemperature,
      windSpeed := h.windSpeed,
      windGusts := h.windGust,
      windBearing := h.windBearing,
      humidity := h.humidity,
      precip := precip,
      absPressure := pressure,
      cloudCover := cloud,
      visibility := h.visibility,
      ozone := h.ozone,
      uvIndex := h.uvIndex,
      remarks := h.summary)
  }

  /** The corrected current-conditions record: humidity and cloud cover as percentages, pressure in
      inHg, precipitation in in/h, the other readings copied. An absent humidity, pressure
      or cloud cover raises TypeError. */
  function MapCurrent(provider: string, stationId: string, c: Conditions)
    : (r: Result<Records.CurrentConditions>)
    ensures r.Err? <==> c.humidity.None? || c.pressure.None? || c.cloudCover.None?
    ensures r.Err? ==> r.error == TypeError
    ensures r.Ok? ==>
      var cc := r.value;
      && cc.timestamp == Some(c.time) && cc.provider == provider && cc.stationId == stationId
      && cc.humidity == Some(100.0 * c.humidity.value)
      && cc.cloudCover == Some(100.0 * c.cloudCover.value)
      && cc.absPressure == Some(1000.0 * c.pressure.value / Pressure.PascalsPerInHg)
      && cc.precipHour == (if c.precipIntensity.None? then None
                           else Some(c.precipIntensity.value * 0.1 * 0.393700787))
      && cc.temperature == c.temperature && cc.feelsLike == c.apparentTemperature
      && cc.windSpeed == c.windSpeed && cc.windGusts == c.windGust
      && cc.windBearing == c.windBearing && cc.dewPoint == c.dewPoint
      && cc.visibility == c.visibility && cc.ozone == c.ozone && cc.uvIndex == c.uvIndex
      && cc.remarks == c.summary && cc.relPressure.None?
  {
    var humidity :- Percent(c.humidity);
    var pressure :- PressureInHg(c.pressure);
    var precip := PrecipInph(c.precipIntensity);
    var cloud :- Percent(c.cloudCover);
    Ok(CurrentRecord(provider, stationId, c, humidity, pressure, precip, cloud))
  }

  /** The current-conditions record as written, given a provider value: the keyword
      arguments are evaluated in order, so an absent humidity or pressure raises TypeError
      first and otherwise `units.mmph` raises AttributeError; no record is ever built. */
  function MapCurrentAsWritten(provider: string, stationId: string, c: Conditions)
    : (r: Result<Records.CurrentConditions>)
    ensures r.Err?
    ensures r.error == (if c.humidity.None? || c.pressure.None? then TypeError else AttributeError)
  {
    var humidity :- Percent(c.humidity);
    var pressure :- PressureInHg(c.pressure);
    match PrecipAsWritten(c.precipIntensity)
    case Err(e) => Err(e)
  }

  /** One corrected forecast hour: cloud cover as a percentage but humidity copied unscaled, pressure
      in inHg, precipitation in in/h, stamped with the forecast's origin time. An absent
      pressure or cloud cover raises TypeError. */
  function MapHour(provider: string, stationId: string, origin: real, h: Conditions)
    : (r: Result<Records.HourlyForecast>)
    ensures r.Err? <==> h.pressure.None? || h.cloudCover.None?
    ensures r.Err? ==> r.error == TypeError
    ensures r.Ok? ==>
      var f := r.value;
      && f.timestamp == Some(h.time) && f.originTime == Some(origin)
      && f.provider == provider && f.stationId == stationId
      && f.humidity == h.humidity
      && f.cloudCover == Some(100.0 * h.cloudCover.value)
      && f.absPressure == Some(1000.0 * h.pressure.value / Pressure.PascalsPerInHg)
      && f.precip == (if h.precipIntensity.None? then None
                      else Some(h.precipIntensity.value * 0.1 * 0.393700787))
      && f.temperature == h.temperature && f.feelsLike == h.apparentTemperature
      && f.windSpeed == h.windSpeed && f.windGusts == h.windGust
      && f.windBearing == h.windBearing && f.visibility == h.visibility
      && f.ozone == h.ozone && f.uvIndex == h.uvIndex && f.remarks == h.summary
  {
    var precip := PrecipInph(h.precipIntensity);
    var pressure :- PressureInHg(h.pressure);
    var cloud :- Percent(h.cloudCover);
    Ok(HourRecord(provider, stationId, origin, h, precip, pressure, cloud))
  }

  /** The forecast list as written, given a provider value: in each hour `units.mmph` is
      evaluated before the pressure and the cloud cover, so the first hour raises
      AttributeError and only an empty list maps. The lookup never succeeds, so the rest of
      the hour's record is not reached. */
  function MapHourlyAsWritten(provider: string, stationId: string, origin: real,
                              hours: seq<Conditions>): (r: Result<seq<Records.HourlyForecast>>)
    ensures r.Ok? <==> |hours| == 0
    ensures r.Ok? ==> r.value == []
    ensures r.Err? ==> r.error == AttributeError
  {
    if |hours| == 0 then Ok([])
    else
      match PrecipAsWritten(hours[0].precipIntensity)
      case Err(e) => Err(e)
  }

  /** The forecast list: one entry per hour, in order, each the mapping of its hour; it
      fails as soon as one hour fails. */
  function MapHourly(provider: string, stationId: string, origin: real, hours: seq<Conditions>)
    : (r: Result<seq<Records.HourlyForecast>>)
    ensures r.Ok? <==> forall i :: 0 <= i < |hours| ==> MapHour(provider, stationId, origin, hours[i]).Ok?
    ensures r.Err? ==> r.error == TypeError
    ensures r.Ok? ==> |r.value| == |hours|
    ensures r.Ok? ==> forall i :: 0 <= i < |hours| ==>
      r.value[i] == MapHour(provider, stationId, origin, hours[i]).value
  {
    if |hours| == 0 then Ok([])
    else
      var first :- MapHour(provider, stationId, origin, hours[0]);
      var rest :- MapHourly(provider, stationId, origin, hours[1..]);
      Ok([first] + rest)
  }

  /** The forecast keeps the hours' order and times, and every entry shares one origin time. */
  lemma ForecastTimes(provider: string, stationId: string, origin: real, hours: seq<Conditions>)
    requires MapHourly(provider, stationId, origin, hours).Ok?
    ensures var fs := MapHourly(provider, stationId, origin, hours).value;
      forall i :: 0 <= i < |fs| ==> fs[i].timestamp == Some(hours[i].time) && fs[i].originTime == Some(origin)
  {
  }

  /** The corrected forecast of a fetch: None when nothing came back, AttributeError without an
      hourly block, otherwise the hourly data mapped with the current time as origin. */
  function ForecastOf(provider: string, stationId: string, fetched: Option<Weather>)
    : (r: Result<Option<seq<Records.HourlyForecast>>>)
    ensures fetched.None? <==> r == Ok(None)
    ensures fetched.Some? && fetched.value.hourly.None? ==> r == Err(AttributeError)
    ensures fetched.Some? && fetched.value.hourly.Some? ==>
      var m := MapHourly(provider, stationId, fetched.value.currently.time, fetched.value.hourly.value.data);
      (r.Ok? <==> m.Ok?) && (r.Ok? ==> r.value == Some(m.value))
  {
    if fetched.None? then Ok(None)
    else if fetched.value.hourly.None? then Err(AttributeError)
    else
      var fs :- MapHourly(provider, stationId, fetched.value.currently.time, fetched.value.hourly.value.data);
      Ok(Some(fs))
  }

  /** The corrected current conditions of a fetch: None when nothing came back, otherwise the mapped
      record. */
  function CurrentOf(provider: string, stationId: string, fetched: Option<Weather>)
    : (r: Result<Option<Records.CurrentConditions>>)
    ensures fetched.None? <==> r == Ok(None)
    ensures fetched.Some? ==> var m := MapCurrent(provider, stationId, fetched.value.currently);
      (r.Ok? <==> m.Ok?) && (r.Ok? ==> r.value == Some(m.value))
  {
    if fetched.None? then Ok(None)
    else
      var cc :- MapCurrent(provider, stationId, fetched.value.currently);
      Ok(Some(cc))
  }

  /** As written, the provider name is looked up as a member the provider enumeration does
      not have, so once a fetch succeeds the current conditions always raise AttributeError. */
  function CurrentAsWritten(fetched: Option<Weather>): (r: Result<Option<Records.CurrentConditions>>)
    ensures r.Ok? <==> fetched.None?
    ensures r.Ok? ==> r.value.None?
    ensures r.Err? ==> r.error == AttributeError
  {
    if fetched.None? then Ok(None) else Err(AttributeError)
  }

  /** As written, the forecast raises AttributeError for the same reason as soon as one hour
      is mapped (and without an hourly block); only an empty hourly block gives a list. */
  function ForecastAsWritten(fetched: Option<Weather>): (r: Result<Option<seq<Records.HourlyForecast>>>)
    ensures r.Ok? <==> fetched.None? || (fetched.value.hourly.Some? && |fetched.value.hourly.value.data| == 0)
    ensures r.Ok? ==> r.value.None? || r.value == Some([])
    ensures r.Err? ==> r.error == AttributeError
  {
    if fetched.None? then Ok(None)
    else if fetched.value.hourly.None? then Err(AttributeError)
    else if |fetched.value.hourly.value.data| == 0 then Ok(Some([]))
    else Err(AttributeError)
  }

  /** A complete payload shows the difference: the code as written records nothing, while
      the corrected mapping records the current conditions and one forecast entry. */
  lemma AsWrittenRecordsNothing(provider: string, stationId: string, c: Conditions)
    requires c.humidity.Some? && c.pressure.Some? && c.cloudCover.Some?
    ensures var w := Some(Weather(c, Some(Hourly([c]))));
      && CurrentAsWritten(w).Err? && ForecastAsWritten(w).Err?
      && CurrentOf(provider, stationId, w).Ok? && CurrentOf(provider, stationId, w).value.Some?
      && ForecastOf(provider, stationId, w).Ok?
      && ForecastOf(provider, stationId, w).value.Some?
      && |ForecastOf(provider, stationId, w).value.value| == 1
  {
    var w := Some(Weather(c, Some(Hourly([c]))));
    assert MapHour(provider, stationId, c.time, c).Ok?;
    assert MapHourly(provider, stationId, c.time, [c]).Ok?;
  }

  /** Supplying the missing provider value alone is not enough: for a complete payload with
      at least one hour, the as-written mappings still raise AttributeError at `units.mmph`,
      while the corrected ones record the conditions and every hour. */
  lemma ProviderFixStillRaises(provider: string, stationId: string, c: Conditions, hours: seq<Conditions>)
    requires c.humidity.Some? && c.pressure.Some? && c.cloudCover.Some?
    requires |hours| > 0
    requires forall i :: 0 <= i < |hours| ==> hours[i].pressure.Some? && hours[i].cloudCover.Some?
    ensures MapCurrentAsWritten(provider, stationId, c) == Err(AttributeError)
    ensures MapHourlyAsWritten(provider, stationId, c.time, hours) == Err(AttributeError)
    ensures MapCurrent(provider, stationId, c).Ok?
    ensures MapHourly(provider, stationId, c.time, hours).Ok?
    ensures |MapHourly(provider, stationId, c.time, hours).value| == |hours|
  {
  }

  /** A station: coordinates, the id built from them, the provider name it records under,
      and the last fetch it cached. The class as written defines no `observe`, so it cannot
      be instantiated (`Providers.AbstractStations`); this is the station once `observe` is
      defined (`Providers.CorrectedStationsInstantiate`). */
  class Station {
    const name: string
    const apiKey: string
    const latitude: real
    const longitude: real
    const stationId: string
    const provider: string
    var cached: Option<Weather>

    constructor (show: real -> string, name: string, apiKey: string, latitude: real,
                 longitude: real, provider: string)
      ensures this.name == name && this.apiKey == apiKey && this.provider == provider
      ensures this.latitude == latitude && this.longitude == longitude
      ensures stationId == Providers.StationId(show, latitude, longitude)
      ensures cached.None?
    {
      this.name := name;
      this.apiKey := apiKey;
      this.latitude := latitude;
      this.longitude := longitude;
      this.provider := provider;
      stationId := Providers.StationId(show, latitude, longitude);
      cached := None;
    }

    /** `current_conditions`: caches the fetch, then maps it. */
    method CurrentConditions(fetched: Option<Weather>)
      returns (r: Result<Option<Records.CurrentConditions>>)
      modifies this
      ensures cached == fetched
      ensures r == CurrentOf(provider, stationId, fetched)
    {
      cached := fetched;
      if cached.None? {
        return Ok(None);
      }
      var m := MapCurrent(provider, stationId, cached.value.currently);
      if m.Err? {
        return Err(m.error);
      }
      return Ok(Some(m.value));
    }

    /** `hourly_forecast`: caches the fetch, then maps its hourly block. */
    method HourlyForecast(fetched: Option<Weather>)
      returns (r: Result<Option<seq<Records.HourlyForecast>>>)
      modifies this
      ensures cached == fetched
      ensures r == ForecastOf(provider, stationId, fetched)
    {
      cached := fetched;
      if cached.None? {
        return Ok(None);
      }
      if cached.value.hourly.None? {
        return Err(AttributeError);
      }
      var m := MapHourly(provider, stationId, cached.value.currently.time, cached.value.hourly.value.data);
      if m.Err? {
        return Err(m.error);
      }
      return Ok(Some(m.value));
    }
  }
}
