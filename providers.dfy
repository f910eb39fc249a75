/** What every weather provider shares: the provider enumeration, the User-Agent string,
    the station id built from coordinates, and the request bookkeeping of `safer_get`. */
module Providers {
  import opened Wrappers

  /** The provider names stored in each record. */
  datatype WeatherProvider = AccuWeather | Ambient | NOAA | OpenWeatherMap | WUnderground

  function Value(p: WeatherProvider): string {
    match p
    case AccuWeather => "AccuWeather"
    case Ambient => "AmbientWeather"
    case NOAA => "NOAA"
    case OpenWeatherMap => "OpenWeatherMap"
    case WUnderground => "WUndergroundPWS"
  }

  /** Looking a provider up by its value, as `WeatherProvider(s)` does. */
  function FromValue(s: string): (r: Option<WeatherProvider>)
    ensures r.Some? ==> Value(r.value) == s
  {
    if s == "AccuWeather" then Some(AccuWeather)
    else if s == "AmbientWeather" then Some(Ambient)
    else if s == "NOAA" then Some(NOAA)
    else if s == "OpenWeatherMap" then Some(OpenWeatherMap)
    else if s == "WUndergroundPWS" then Some(WUnderground)
    else None
  }

  /** Each provider is found again from its value, so the five values are distinct. */
  lemma ValueRoundTrip(p: WeatherProvider, q: WeatherProvider)
    ensures FromValue(Value(p)) == Some(p)
    ensures Value(p) == Value(q) ==> p == q
  {
    assert FromValue(Value(q)) == Some(q);
  }

  const Homepage := " (+https://github.com/jheddings/wxdat)"

  /** `user_agent`: package name, a slash, the version, then the project homepage. The parts
      can be read back at fixed positions. */
  function UserAgent(pkg: string, version: string): (ua: string)
    ensures |ua| == |pkg| + 1 + |version| + |Homepage|
    ensures ua[..|pkg|] == pkg && ua[|pkg|] == '/'
    ensures ua[|pkg| + 1..|ua| - |Homepage|] == version
    ensures ua[|ua| - |Homepage|..] == Homepage
  {
    pkg + "/" + version + Homepage
  }

  type Headers = map<string, string>

  /** The request headers: the User-Agent first, then the caller's headers merged over it. */
  function FullHeaders(ua: string, headers: Option<Headers>): (h: Headers)
    ensures h.Keys == {"User-Agent"} + (if headers.Some? then headers.value.Keys else {})
    ensures headers.Some? ==> forall k :: k in headers.value ==> h[k] == headers.value[k]
    ensures headers.None? || "User-Agent" !in headers.value ==> h["User-Agent"] == ua
  {
    var base := map["User-Agent" := ua];
    if headers.Some? then base + headers.value else base
  }

  /** A response, reduced to what the bookkeeping looks at. */
  datatype Response = Response(status: int, ok: bool)

  /** What the HTTP library did with one request. */
  datatype Transport =
    | Responded(resp: Response)
    | ConnectionFailure   // the library's connection error
    | OtherFailure        // any other exception

  /** The value `safer_get` returns: the response when one arrived and is ok, else None. */
  function Received(t: Transport): (r: Option<Response>)
    ensures r.Some? <==> t.Responded? && t.resp.ok
    ensures r.Some? ==> r.value == t.resp
  {
    match t
    case Responded(resp) => if resp.ok then Some(resp) else None
    case _ => None
  }

  /** The per-station counters. */
  class StationMetrics {
    var requests: nat
    var errors: nat
    var readings: nat
    var failed: nat

    constructor ()
      ensures requests == 0 && errors == 0 && readings == 0 && failed == 0
    {
      requests, errors, readings, failed := 0, 0, 0, 0;
    }
  }

  /** A provider's station: a name, the provider value it records under, its counters, and
      the package name and version the User-Agent reports. */
  class BaseStation {
    const name: string
    const provider: string
    const metrics: StationMetrics
    const pkg: string
    const version: string

    constructor (name: string, provider: string, pkg: string, version: string)
      ensures this.name == name && this.provider == provider
      ensures this.pkg == pkg && this.version == version
      ensures fresh(metrics)
      ensures metrics.requests == 0 && metrics.errors == 0
      ensures metrics.readings == 0 && metrics.failed == 0
    {
      this.name := name;
      this.provider := provider;
      this.pkg := pkg;
      this.version := version;
      metrics := new StationMetrics();
    }

    /** One GET through `get`, which stands for the HTTP library. A response that arrives
        counts one request; a failure to get one, or a response that is not ok, counts one
        error; the response is returned only when it is ok. */
    method SaferGet<P>(url: string, params: P, headers: Option<Headers>,
                       get: (string, P, Headers) -> Transport)
      returns (resp: Option<Response>)
      modifies metrics
      ensures var t := get(url, params, FullHeaders(UserAgent(pkg, version), headers));
        && resp == Received(t)
        && metrics.requests == old(metrics.requests) + (if t.Responded? then 1 else 0)
        && metrics.errors == old(metrics.errors) + (if resp.None? then 1 else 0)
      ensures metrics.readings == old(metrics.readings) && metrics.failed == old(metrics.failed)
    {
      var fullHeaders := map["User-Agent" := UserAgent(pkg, version)];
      if headers.Some? {
        fullHeaders := fullHeaders + headers.value;
      }
      var t := get(url, params, fullHeaders);
      match t {
        case ConnectionFailure =>
          metrics.errors := metrics.errors + 1;
          return None;
        case OtherFailure =>
          metrics.errors := metrics.errors + 1;
          return None;
        case Responded(r) =>
          metrics.requests := metrics.requests + 1;
          if !r.ok {
            metrics.errors := metrics.errors + 1;
            return None;
          }
          return Some(r);
      }
    }
  }

  /** The station id of a coordinate-based station: latitude, a comma, longitude, each
      rendered by `show` (Python's `str` of a float). */
  function StationId(show: real -> string, latitude: real, longitude: real): (id: string)
    ensures |id| == |show(latitude)| + 1 + |show(longitude)|
    ensures id[..|show(latitude)|] == show(latitude)
    ensures id[|show(latitude)|] == ','
    ensures id[|show(latitude)| + 1..] == show(longitude)
  {
    show(latitude) + "," + show(longitude)
  }

  predicate CommaFree(s: string) {
    forall i :: 0 <= i < |s| ==> s[i] != ','
  }

  /** The position of the first comma, or the length when there is none. */
  function FirstComma(s: string): (i: nat)
    ensures i <= |s|
    ensures i < |s| ==> s[i] == ','
    ensures CommaFree(s[..i])
  {
    if |s| == 0 then 0
    else if s[0] == ',' then 0
    else
      var i := 1 + FirstComma(s[1..]);
      assert s[..i] == [s[0]] + s[1..][..i - 1];
      i
  }

  /** The first comma of `a + "," + b` is the one after `a` when `a` has none. */
  lemma {:induction false} FirstCommaAfter(a: string, b: string)
    requires CommaFree(a)
    ensures FirstComma(a + "," + b) == |a|
  {
    if |a| > 0 {
      assert (a + "," + b)[1..] == a[1..] + "," + b;
      FirstCommaAfter(a[1..], b);
    }
  }

  /** Splitting at the first comma recovers both parts. */
  lemma SplitAtComma(a: string, b: string, c: string, d: string)
    requires CommaFree(a) && CommaFree(c)
    requires a + "," + b == c + "," + d
    ensures a == c && b == d
  {
    var s := a + "," + b;
    FirstCommaAfter(a, b);
    FirstCommaAfter(c, d);
    assert a == s[..|a|] && c == s[..|c|];
    assert b == s[|a| + 1..] && d == s[|c| + 1..];
  }

  /** When the rendering of a number never contains a comma, two stations share an id only
      when their coordinates render alike; with an injective rendering, only when they sit
      at the same coordinates. */
  lemma StationIdDeterminesCoordinates(show: real -> string, lat1: real, lon1: real,
                                        lat2: real, lon2: real)
    requires CommaFree(show(lat1)) && CommaFree(show(lat2))
    requires StationId(show, lat1, lon1) == StationId(show, lat2, lon2)
    ensures show(lat1) == show(lat2) && show(lon1) == show(lon2)
    ensures (forall x, y :: show(x) == show(y) ==> x == y) ==> lat1 == lat2 && lon1 == lon2
  {
    SplitAtComma(show(lat1), show(lon1), show(lat2), show(lon2));
  }

  /** The concrete station classes of the providers package. */
  datatype StationClass =
    | NoaaStation | OpenWeatherStation | AccuWeatherStation | AmbientStation
    | DarkSkyStation | WundergroundStation

  /** The properties `BaseStation` declares abstract. */
  const AbstractMembers: set<string> := {"observe", "provider"}

  /** The properties each class defines as written: the dark sky and Weather Underground
      stations define `current_conditions` and `hourly_forecast` but no `observe`. */
  function Defined(c: StationClass): set<string> {
    match c
    case DarkSkyStation => {"provider", "current_conditions", "hourly_forecast"}
    case WundergroundStation => {"provider", "current_conditions", "hourly_forecast"}
    case _ => {"provider", "observe"}
  }

  /** Creating an instance of a class: TypeError while an abstract property is left open. */
  function Instantiate(defined: set<string>): (r: Outcome)
    ensures r.Pass? <==> AbstractMembers <= defined
    ensures r.Fail? ==> r.error == TypeError
  {
    if "observe" in defined && "provider" in defined then Pass else Fail(TypeError)
  }

  /** As written, exactly the dark sky and Weather Underground stations cannot be built. */
  lemma AbstractStations(c: StationClass)
    ensures Instantiate(Defined(c)) == Fail(TypeError)
        <==> c == DarkSkyStation || c == WundergroundStation
  {
    if c == DarkSkyStation || c == WundergroundStation {
      assert "observe" !in Defined(c);
    } else {
      assert AbstractMembers <= Defined(c);
    }
  }

  /** Every station that can be built defines `observe` and not `current_conditions`. */
  lemma BuiltStationsObserve(c: StationClass)
    requires Instantiate(Defined(c)).Pass?
    ensures "observe" in Defined(c) && "current_conditions" !in Defined(c)
  {
    AbstractStations(c);
    assert c != DarkSkyStation && c != WundergroundStation;
  }

  /** The intended definitions: the two stations that define `current_conditions` also
      define `observe` as it. */
  function CorrectedDefined(c: StationClass): (d: set<string>)
    ensures Defined(c) <= d && d - Defined(c) <= {"observe"}
  {
    match c
    case DarkSkyStation => Defined(c) + {"observe"}
    case WundergroundStation => Defined(c) + {"observe"}
    case _ => Defined(c)
  }

  /** With `observe` defined, every station class can be built. */
  lemma CorrectedStationsInstantiate(c: StationClass)
    ensures Instantiate(CorrectedDefined(c)) == Pass
    ensures "observe" in CorrectedDefined(c)
  {
    assert AbstractMembers <= CorrectedDefined(c);
  }
}
