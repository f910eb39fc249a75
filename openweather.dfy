/** The OpenWeatherMap provider: the remark text built from the weather notes, the station
    id built from the coordinates, and the routing of a current-weather payload into a
    current-conditions record. Unit conversions of the external library are parameters. */
module OpenWeather {
  import opened Wrappers
  import Records
  import Providers
  import Text

  datatype WeatherNotes = WeatherNotes(id: int, main: string, description: string)

  datatype Main = Main(
    temp: real,
    humidity: int,
    pressure: int,
    feelsLike: Option<real> := None,
    seaLevel: Option<int> := None,
    grndLevel: Option<int> := None)

  datatype Wind = Wind(deg: int, speed: real, gust: Option<real> := None)

  /** The current-weather payload (imperial units were requested). */
  datatype CurrentWeather = CurrentWeather(
    dt: real,
    main: Main,
    wind: Wind,
    clouds: int,
    visibility: int,
    weather: Option<seq<WeatherNotes>> := None)

  /** The remark for one weather note: "main: description [id]". */
  function RemarkText(w: WeatherNotes): (s: string)
    ensures |s| == |w.main| + 2 + |w.description| + 2 + |Text.IntToString(w.id)| + 1
    ensures s[..|w.main|] == w.main
    ensures s[|s| - |Text.IntToString(w.id)| - 1..] == Text.IntToString(w.id) + "]"
  {
    w.main + ": " + w.description + " [" + Text.IntToString(w.id) + "]"
  }

  /** `remarks`: nothing without weather notes, otherwise the first note's text. */
  function Remarks(weather: Option<seq<WeatherNotes>>): (r: Option<string>)
    ensures r.None? <==> weather.None? || |weather.value| == 0
    ensures r.Some? ==> r.value == RemarkText(weather.value[0])
  {
    if weather.None? || |weather.value| < 1 then None else Some(RemarkText(weather.value[0]))
  }

  /** Only the first note matters: later notes never change the remark. */
  lemma RemarksUseFirstNote(w: WeatherNotes, rest: seq<WeatherNotes>)
    ensures Remarks(Some([w] + rest)) == Remarks(Some([w]))
  {
  }

  /** Splitting at the first `c` recovers both parts when the first parts have none. */
  lemma SplitAtFirst(c: char, a: string, x: string, b: string, y: string)
    requires c !in a && c !in b
    requires a + [c] + x == b + [c] + y
    ensures a == b && x == y
  {
    var s := a + [c] + x;
    Text.FirstOfAfter(a, c, x);
    Text.FirstOfAfter(b, c, y);
    assert a == s[..|a|] && b == s[..|b|];
    assert x == s[|a| + 1..] && y == s[|b| + 1..];
  }

  /** Splitting at the last `c` recovers both parts when the last parts have none. */
  lemma SplitAtLast(c: char, a: string, x: string, b: string, y: string)
    requires c !in x && c !in y
    requires a + [c] + x == b + [c] + y
    ensures a == b && x == y
  {
    var s := a + [c] + x;
    Text.LastOfBefore(a, c, x);
    Text.LastOfBefore(b, c, y);
    assert a == s[..|a|] && b == s[..|b|];
    assert x == s[|a| + 1..] && y == s[|b| + 1..];
  }

  /** The bracketed id holds no opening bracket. */
  lemma IdTextHasNoBracket(id: int)
    ensures '[' !in Text.IntToString(id) + "]"
  {
    var t := Text.IntToString(id) + "]";
    forall k | 0 <= k < |t| ensures t[k] != '[' {
      if k < |t| - 1 {
        assert t[k] == Text.IntToString(id)[k];
      }
    }
  }

  /** The remark identifies its note when the main text has no colon: the main text ends
      at the first colon, the id sits after the last bracket (its decimal text has none),
      and the description lies between them. */
  lemma RemarkIdentifiesNote(v: WeatherNotes, w: WeatherNotes)
    requires ':' !in v.main && ':' !in w.main
    ensures RemarkText(v) == RemarkText(w) <==> v == w
  {
    if RemarkText(v) == RemarkText(w) {
      var iv, iw := Text.IntToString(v.id) + "]", Text.IntToString(w.id) + "]";
      var dv, dw := " " + v.description + " ", " " + w.description + " ";
      assert RemarkText(v) == v.main + [':'] + (dv + ['['] + iv);
      assert RemarkText(w) == w.main + [':'] + (dw + ['['] + iw);
      SplitAtFirst(':', v.main, dv + ['['] + iv, w.main, dw + ['['] + iw);
      IdTextHasNoBracket(v.id);
      IdTextHasNoBracket(w.id);
      SplitAtLast('[', dv, iv, dw, iw);
      assert v.description == dv[1..|dv| - 1] && w.description == dw[1..|dw| - 1];
      assert Text.IntToString(v.id) == iv[..|iv| - 1] && Text.IntToString(w.id) == iw[..|iw| - 1];
      Text.IntToStringInjective(v.id, w.id);
    }
  }

  /** A configured station; its id is built once from the coordinates. */
  datatype Station = Station(name: string, apiKey: string, latitude: real, longitude: real,
                             stationId: string)

  /** The station constructor: the id is "latitude,longitude" with `show` rendering floats. */
  function NewStation(show: real -> string, name: string, apiKey: string, latitude: real,
                      longitude: real): (st: Station)
    ensures st.name == name && st.apiKey == apiKey
    ensures st.latitude == latitude && st.longitude == longitude
    ensures st.stationId == Providers.StationId(show, latitude, longitude)
  {
    Station(name, apiKey, latitude, longitude, Providers.StationId(show, latitude, longitude))
  }

  /** The conversions of the external library (Fahrenheit to Fahrenheit, mph to mph,
      hPa to inHg, meters to miles), applied to possibly-absent values. */
  datatype Converter = Converter(
    fahrenheit: Option<real> -> Option<real>,
    milesPerHour: Option<real> -> Option<real>,
    hpaToInHg: Option<real> -> Option<real>,
    metersToMiles: Option<real> -> Option<real>)

  function AsReal(v: Option<int>): (r: Option<real>)
    ensures r.Some? <==> v.Some?
    ensures r.Some? ==> r.value == v.value as real
  {
    if v.None? then None else Some(v.value as real)
  }

  /** `observe`, given what the fetch returned: None when nothing came back; otherwise a
      record whose absolute pressure comes from the ground-level reading and whose relative
      pressure from the sea-level reading, with the wind bearing, humidity and cloud cover
      copied unchanged. */
  function Observe(st: Station, fetched: Option<CurrentWeather>, conv: Converter)
    : (r: Option<Records.CurrentConditions>)
    ensures r.None? <==> fetched.None?
    ensures r.Some? ==>
      var w := fetched.value;
      var c := r.value;
      && c.timestamp == Some(w.dt)
      && c.provider == Providers.Value(Providers.OpenWeatherMap)
      && c.stationId == st.stationId
      && c.temperature == conv.fahrenheit(Some(w.main.temp))
      && c.feelsLike == conv.fahrenheit(w.main.feelsLike)
      && c.windSpeed == conv.milesPerHour(Some(w.wind.speed))
      && c.windGusts == conv.milesPerHour(w.wind.gust)
      && c.windBearing == Some(w.wind.deg as real)
      && c.humidity == Some(w.main.humidity as real)
      && c.absPressure == conv.hpaToInHg(AsReal(w.main.grndLevel))
      && c.relPressure == conv.hpaToInHg(AsReal(w.main.seaLevel))
      && c.cloudCover == Some(w.clouds as real)
      && c.visibility == conv.metersToMiles(Some(w.visibility as real))
      && c.remarks == Remarks(w.weather)
      && c.dewPoint.None? && c.precipHour.None? && c.uvIndex.None?
  {
    if fetched.None? then None
    else
      var w := fetched.value;
      Some(Records.CurrentConditions(
        timestamp := Some(w.dt),
        provider := Providers.Value(Providers.OpenWeatherMap),
        stationId := st.stationId,
        temperature := conv.fahrenheit(Some(w.main.temp)),
        feelsLike := conv.fahrenheit(w.main.feelsLike),
        windSpeed := conv.milesPerHour(Some(w.wind.speed)),
        windGusts := conv.milesPerHour(w.wind.gust),
        windBearing := Some(w.wind.deg as real),
        humidity := Some(w.main.humidity as real),
        absPressure := conv.hpaToInHg(AsReal(w.main.grndLevel)),
        relPressure := conv.hpaToInHg(AsReal(w.main.seaLevel)),
        cloudCover := Some(w.clouds as real),
        visibility := conv.metersToMiles(Some(w.visibility as real)),
        remarks := Remarks(w.weather)))
  }

  /** The payload's own `pressure` field is never used: two payloads that differ only there
      give the same record. */
  lemma PressureFieldUnused(st: Station, w: CurrentWeather, p: int, conv: Converter)
    ensures Observe(st, Some(w), conv) == Observe(st, Some(w.(main := w.main.(pressure := p))), conv)
  {
  }
}
