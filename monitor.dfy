/** The legacy monitor: a station list shared by every monitor that it updates in a loop,
    and the per-station gauge cache behind the exported weather metrics. Gauges are plain
    values; what the metrics library does with a set value is recorded as a log. */
module Monitor {
  import opened Wrappers

  /** Seconds slept between loop steps. */
  const LoopInterval: nat := 30

  const Celcius := "C"
  const Kelvin := "K"
  const Fahrenheit := "F"
  const Mph := "mph"
  const Kph := "km/h"
  const Hg := "Hg"
  const Mb := "mb"

  /** A legacy station; its `update` is outside this model, so calls to it are logged. */
  datatype LegacyStation = LegacyStation(name: string)

  /** The class-level station list, one object shared by every monitor. */
  class StationList {
    var stations: seq<LegacyStation>

    constructor ()
      ensures stations == []
    {
      stations := [];
    }
  }

  /** Every `station.update()` call, in order. */
  class UpdateLog {
    var calls: seq<LegacyStation>

    constructor ()
      ensures calls == []
    {
      calls := [];
    }
  }

  /** `stations` repeated `n` times. */
  function Repeat(stations: seq<LegacyStation>, n: nat): seq<LegacyStation> {
    if n == 0 then [] else stations + Repeat(stations, n - 1)
  }

  /** After `n` steps over the same list every station has been updated `n` times for each
      time it is listed, and the updates follow the list order step after step. */
  lemma RepeatCounts(stations: seq<LegacyStation>, n: nat)
    ensures |Repeat(stations, n)| == n * |stations|
    ensures forall s :: multiset(Repeat(stations, n))[s] == n * multiset(stations)[s]
    ensures |stations| > 0 ==>
      forall k :: 0 <= k < |Repeat(stations, n)| ==> Repeat(stations, n)[k] == stations[k % |stations|]
  {
    RepeatLength(stations, n);
    forall s ensures multiset(Repeat(stations, n))[s] == n * multiset(stations)[s] {
      RepeatCount(stations, n, s);
    }
    RepeatOrder(stations, n);
  }

  lemma {:induction false} RepeatLength(stations: seq<LegacyStation>, n: nat)
    ensures |Repeat(stations, n)| == n * |stations|
  {
    if n > 0 {
      RepeatLength(stations, n - 1);
      assert n * |stations| == (n - 1) * |stations| + |stations|;
    }
  }

  lemma {:induction false} RepeatCount(stations: seq<LegacyStation>, n: nat, s: LegacyStation)
    ensures multiset(Repeat(stations, n))[s] == n * multiset(stations)[s]
  {
    if n > 0 {
      RepeatCount(stations, n - 1, s);
      assert multiset(stations + Repeat(stations, n - 1)) == multiset(stations) + multiset(Repeat(stations, n - 1));
      assert n * multiset(stations)[s] == multiset(stations)[s] + (n - 1) * multiset(stations)[s];
    }
  }

  lemma {:induction false} RepeatOrder(stations: seq<LegacyStation>, n: nat)
    ensures |stations| > 0 ==>
      forall k :: 0 <= k < |Repeat(stations, n)| ==> Repeat(stations, n)[k] == stations[k % |stations|]
  {
    if n > 0 && |stations| > 0 {
      RepeatOrder(stations, n - 1);
      var r := Repeat(stations, n - 1);
      assert Repeat(stations, n) == stations + r;
      forall k | 0 <= k < |stations + r| ensures (stations + r)[k] == stations[k % |stations|] {
        ModuloStep(k, |stations|);
        if k >= |stations| {
          assert (stations + r)[k] == r[k - |stations|];
        }
      }
    }
  }

  lemma ModuloStep(k: nat, m: nat)
    requires 0 < m
    ensures k < m ==> k % m == k
    ensures k >= m ==> (k - m) % m == k % m
  {
    if k < m {
      ModuloUnique(k, m, 0, k);
    } else {
      var q, r := (k - m) / m, (k - m) % m;
      assert k == (q + 1) * m + r;
      ModuloUnique(k, m, q + 1, r);
    }
  }

  /** The remainder is the unique one below the divisor. */
  lemma ModuloUnique(k: int, m: int, q: int, r: int)
    requires 0 < m && 0 <= r < m && k == q * m + r
    ensures k % m == r
  {
    var d := q - k / m;
    assert d * m == k % m - r;
    if d >= 1 {
      MultipleAtLeast(d, m);
    } else if d <= -1 {
      MultipleAtLeast(-d, m);
    }
  }

  lemma MultipleAtLeast(d: int, m: int)
    requires d >= 1 && m > 0
    ensures d * m >= m
  {
  }

  class Monitor {
    const registry: StationList
    const log: UpdateLog

    constructor (registry: StationList, log: UpdateLog)
      ensures this.registry == registry && this.log == log
    {
      this.registry := registry;
      this.log := log;
    }

    /** `add_station`: appends to the shared list. */
    method AddStation(station: LegacyStation)
      modifies registry
      ensures registry.stations == old(registry.stations) + [station]
    {
      registry.stations := registry.stations + [station];
    }

    /** `_run_loop_step`: updates every station of the shared list once, in list order. */
    method RunLoopStep()
      modifies log
      ensures log.calls == old(log.calls) + registry.stations
    {
      for i := 0 to |registry.stations|
        invariant log.calls == old(log.calls) + registry.stations[..i]
      {
        log.calls := log.calls + [registry.stations[i]];
        assert registry.stations[..i + 1] == registry.stations[..i] + [registry.stations[i]];
      }
      assert registry.stations[..|registry.stations|] == registry.stations;
    }

    /** `run`, interrupted by the user after `interruptAfter` steps: with no stations it
        returns at once and updates nothing; otherwise it makes exactly that many steps,
        each over the whole list, so every station is updated once per step for each time
        it is listed. */
    method Run(interruptAfter: nat) returns (steps: nat)
      modifies log
      ensures |registry.stations| == 0 ==> steps == 0 && log.calls == old(log.calls)
      ensures |registry.stations| > 0 ==>
        steps == interruptAfter && log.calls == old(log.calls) + Repeat(registry.stations, steps)
      ensures forall s :: multiset(log.calls)[s] == multiset(old(log.calls))[s] + steps * multiset(registry.stations)[s]
    {
      steps := 0;
      if |registry.stations| == 0 {
        return;
      }
      while steps < interruptAfter
        invariant steps <= interruptAfter
        invariant log.calls == old(log.calls) + Repeat(registry.stations, steps)
      {
        RunLoopStep();
        RepeatAppend(registry.stations, steps);
        steps := steps + 1;
      }
      RepeatCounts(registry.stations, steps);
      assert multiset(log.calls) == multiset(old(log.calls)) + multiset(Repeat(registry.stations, steps));
    }
  }

  lemma RepeatAppend(stations: seq<LegacyStation>, n: nat)
    ensures Repeat(stations, n + 1) == Repeat(stations, n) + stations
    decreases n
  {
    if n > 0 {
      RepeatAppend(stations, n - 1);
    }
  }

  /** Monitors share one station list: a station added through one is seen by the other. */
  method AddThroughOne(first: Monitor, second: Monitor, station: LegacyStation)
    requires first.registry == second.registry
    modifies first.registry
    ensures second.registry.stations == old(second.registry.stations) + [station]
  {
    first.AddStation(station);
  }

  /** The six metrics with a description of their own. */
  const KnownMetrics: seq<string> := ["temperature", "windSpeed", "windGust", "windHeading", "humidity", "pressure"]

  /** `describe`: the fixed label of a known metric, "Unknown" for anything else. */
  function Describe(metric: string): (r: string)
    ensures r == "Unknown" <==> metric !in KnownMetrics
    ensures metric == "temperature" ==> r == "Temperature"
    ensures metric == "pressure" ==> r == "Atmospheric Pressure"
  {
    if metric == "temperature" then "Temperature"
    else if metric == "windSpeed" then "Wind Speed"
    else if metric == "windGust" then "Wind Gust"
    else if metric == "windHeading" then "Wind Heading"
    else if metric == "humidity" then "Relative Humidity"
    else if metric == "pressure" then "Atmospheric Pressure"
    else "Unknown"
  }

  /** The metric name `wx_<station>_<gauge>`. */
  function MetricName(station: string, gaugeName: string): (m: string)
    ensures |m| == 4 + |station| + |gaugeName|
    ensures m[..3] == "wx_" && m[3..3 + |station|] == station
    ensures m[3 + |station|] == '_' && m[4 + |station|..] == gaugeName
  {
    "wx_" + station + "_" + gaugeName
  }

  /** For one station, different gauge names give different metric names. */
  lemma MetricNameInjective(station: string, g1: string, g2: string)
    ensures MetricName(station, g1) == MetricName(station, g2) <==> g1 == g2
  {
    if MetricName(station, g1) == MetricName(station, g2) {
      assert g1 == MetricName(station, g1)[4 + |station|..];
    }
  }

  /** A gauge: its metric name, description and label names. */
  datatype Gauge = Gauge(name: string, description: string, labelNames: seq<string>)

  /** One `set` on a gauge: the metric, the `units` label and the value. */
  datatype Setting = Setting(metric: string, units: Option<string>, value: real)

  predicate NoDuplicates(s: seq<string>) {
    forall i, j :: 0 <= i < j < |s| ==> s[i] != s[j]
  }

  class WeatherData {
    const name: string
    var gauges: map<string, Gauge>
    /** Every gauge built, in order of construction. */
    var created: seq<string>
    /** Every value set on a gauge, in order. */
    var settings: seq<Setting>

    /** Each cached gauge is stored under its own metric name with the one `units` label
        and the description of its gauge name, and was built exactly once. */
    ghost predicate Valid()
      reads this
    {
      && (forall k :: k in gauges ==> gauges[k].name == k && gauges[k].labelNames == ["units"])
      && (forall g :: MetricName(name, g) in gauges ==> gauges[MetricName(name, g)].description == Describe(g))
      && NoDuplicates(created)
      && (forall k :: k in gauges <==> k in created)
    }

    constructor (name: string)
      ensures Valid() && this.name == name
      ensures gauges == map[] && created == [] && settings == []
    {
      this.name := name;
      gauges := map[];
      created := [];
      settings := [];
    }

    /** `_update_gauge`: builds the gauge for `wx_<name>_<gaugeName>` only when none is
        cached, reuses it otherwise, then sets the value under the given units label. The
        cache only grows and no gauge is built twice. */
    method UpdateGauge(gaugeName: string, value: real, units: Option<string> := None)
      requires Valid()
      modifies this
      ensures Valid()
      ensures var m := MetricName(name, gaugeName);
        && (m in old(gauges) ==> gauges == old(gauges) && created == old(created))
        && (m !in old(gauges) ==>
              gauges == old(gauges)[m := Gauge(m, Describe(gaugeName), ["units"])]
              && created == old(created) + [m])
        && settings == old(settings) + [Setting(m, units, value)]
      ensures old(gauges).Keys <= gauges.Keys
    {
      var m := MetricName(name, gaugeName);
      if m !in gauges {
        forall g | MetricName(name, g) == m
          ensures g == gaugeName
        {
          MetricNameInjective(name, g, gaugeName);
        }
        gauges := gauges[m := Gauge(m, Describe(gaugeName), ["units"])];
        created := created + [m];
      }
      settings := settings + [Setting(m, units, value)];
    }

    /** `set_temperature`, in Fahrenheit unless told otherwise. */
    method SetTemperature(value: real, units: Option<string> := Some(Fahrenheit))
      requires Valid()
      modifies this
      ensures Valid() && old(gauges).Keys <= gauges.Keys
      ensures var m := MetricName(name, "temperature");
        m in gauges && gauges[m].description == "Temperature"
        && settings == old(settings) + [Setting(m, units, value)]
      ensures var m := MetricName(name, "temperature");
        && (m in old(gauges) ==> gauges == old(gauges) && created == old(created))
        && (m !in old(gauges) ==>
              gauges == old(gauges)[m := Gauge(m, "Temperature", ["units"])] && created == old(created) + [m])
    {
      UpdateGauge("temperature", value, units);
    }

    /** `set_wind_speed`, in mph unless told otherwise. */
    method SetWindSpeed(value: real, units: Option<string> := Some(Mph))
      requires Valid()
      modifies this
      ensures Valid() && old(gauges).Keys <= gauges.Keys
      ensures var m := MetricName(name, "windSpeed");
        m in gauges && gauges[m].description == "Wind Speed"
        && settings == old(settings) + [Setting(m, units, value)]
      ensures var m := MetricName(name, "windSpeed");
        && (m in old(gauges) ==> gauges == old(gauges) && created == old(created))
        && (m !in old(gauges) ==>
              gauges == old(gauges)[m := Gauge(m, "Wind Speed", ["units"])] && created == old(created) + [m])
    {
      UpdateGauge("windSpeed", value, units);
    }

    /** `set_wind_gust`, in mph unless told otherwise. */
    method SetWindGust(value: real, units: Option<string> := Some(Mph))
      requires Valid()
      modifies this
      ensures Valid() && old(gauges).Keys <= gauges.Keys
      ensures var m := MetricName(name, "windGust");
        m in gauges && gauges[m].description == "Wind Gust"
        && settings == old(settings) + [Setting(m, units, value)]
      ensures var m := MetricName(name, "windGust");
        && (m in old(gauges) ==> gauges == old(gauges) && created == old(created))
        && (m !in old(gauges) ==>
              gauges == old(gauges)[m := Gauge(m, "Wind Gust", ["units"])] && created == old(created) + [m])
    {
      UpdateGauge("windGust", value, units);
    }

    /** `set_wind_direction`: the `windHeading` gauge, with no units label value. */
    method SetWindDirection(value: real)
      requires Valid()
      modifies this
      ensures Valid() && old(gauges).Keys <= gauges.Keys
      ensures var m := MetricName(name, "windHeading");
        m in gauges && gauges[m].description == "Wind Heading"
        && settings == old(settings) + [Setting(m, None, value)]
      ensures var m := MetricName(name, "windHeading");
        && (m in old(gauges) ==> gauges == old(gauges) && created == old(created))
        && (m !in old(gauges) ==>
              gauges == old(gauges)[m := Gauge(m, "Wind Heading", ["units"])] && created == old(created) + [m])
    {
      UpdateGauge("windHeading", value);
    }

    /** `set_humidity`, with no units label value. */
    method SetHumidity(value: real)
      requires Valid()
      modifies this
      ensures Valid() && old(gauges).Keys <= gauges.Keys
      ensures var m := MetricName(name, "humidity");
        m in gauges && gauges[m].description == "Relative Humidity"
        && settings == old(settings) + [Setting(m, None, value)]
      ensures var m := MetricName(name, "humidity");
        && (m in old(gauges) ==> gauges == old(gauges) && created == old(created))
        && (m !in old(gauges) ==>
              gauges == old(gauges)[m := Gauge(m, "Relative Humidity", ["units"])] && created == old(created) + [m])
    {
      UpdateGauge("humidity", value);
    }

    /** `set_pressure`, in inches of mercury unless told otherwise. */
    method SetPressure(value: real, units: Option<string> := Some(Hg))
      requires Valid()
      modifies this
      ensures Valid() && old(gauges).Keys <= gauges.Keys
      ensures var m := MetricName(name, "pressure");
        m in gauges && gauges[m].description == "Atmospheric Pressure"
        && settings == old(settings) + [Setting(m, units, value)]
      ensures var m := MetricName(name, "pressure");
        && (m in old(gauges) ==> gauges == old(gauges) && created == old(created))
        && (m !in old(gauges) ==>
              gauges == old(gauges)[m := Gauge(m, "Atmospheric Pressure", ["units"])] && created == old(created) + [m])
    {
      UpdateGauge("pressure", value, units);
    }
  }
}
