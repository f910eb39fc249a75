/** The station base class of the stations package: a name, the time of the last update
    (never set by the base class itself) and a 30-minute freshness window, plus its
    download helper. Times are seconds. */
module Stations {
  import opened Wrappers
  import Providers

  datatype WeatherStation = WeatherStation(name: string, lastUpdate: Option<real>, updateInterval: real)

  /** Thirty minutes, in seconds. */
  const DefaultInterval: real := 1800.0

  /** A new station: never updated, with the default window. */
  function NewStation(name: string): (s: WeatherStation)
    ensures s.name == name && s.lastUpdate.None? && s.updateInterval == DefaultInterval
  {
    WeatherStation(name, None, DefaultInterval)
  }

  /** `Name`. */
  function Name(s: WeatherStation): string {
    s.name
  }

  /** `is_current` at time `now`: updated, and no longer ago than the window. */
  predicate IsCurrent(s: WeatherStation, now: real) {
    s.lastUpdate.Some? && now - s.lastUpdate.value <= s.updateInterval
  }

  /** A new station reports its own name and is never current, whatever the time. */
  lemma NewStationState(name: string, now: real)
    ensures Name(NewStation(name)) == name
    ensures !IsCurrent(NewStation(name), now)
  {
  }

  /** An updated station is current exactly until the window has passed: current at some
      time means current at every earlier time. */
  lemma CurrentUntilWindowEnds(s: WeatherStation, earlier: real, now: real)
    requires s.lastUpdate.Some?
    ensures IsCurrent(s, now) <==> now <= s.lastUpdate.value + s.updateInterval
    ensures earlier <= now && IsCurrent(s, now) ==> IsCurrent(s, earlier)
  {
  }

  /** `safe_get`: None only when the request raised; a response is returned even when it
      is not ok. */
  function SafeGet(t: Providers.Transport): (r: Option<Providers.Response>)
    ensures r.Some? <==> t.Responded?
    ensures r.Some? ==> r.value == t.resp
  {
    if t.Responded? then Some(t.resp) else None
  }

  /** The two download helpers differ exactly on responses that are not ok: this one hands
      them back, the providers' one drops them. */
  lemma SafeGetKeepsFailedResponses(t: Providers.Transport)
    ensures SafeGet(t) != Providers.Received(t) <==> t.Responded? && !t.resp.ok
  {
  }
}
