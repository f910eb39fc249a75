/** The data recorder: one per station, it reads the station's current conditions on a
    fixed interval and saves them, counting successful and failed saves on the station.
    The thread is left out; its loop runs over a given sequence of ticks, each carrying
    what the clock, the stop flag and the station's observation gave at that step. */
module Recorder {
  import opened Wrappers
  import Records
  import Providers
  import Storage
  import Schedule
  import Text

  /** The class-wide count of recorders ever constructed. */
  class ThreadCounter {
    var count: nat

    constructor ()
      ensures count == 0
    {
      count := 0;
    }
  }

  /** `id` for a provider value and a recorder count. */
  function RecorderId(provider: string, count: nat): (id: string)
    ensures |id| == |provider| + 1 + |Text.NatToString(count)|
    ensures id[..|provider|] == provider && id[|provider|] == '-'
    ensures id[|provider| + 1..] == Text.NatToString(count)
  {
    provider + "-" + Text.NatToString(count)
  }

  /** The id names the count it was read at: ids read at different counts differ. Because
      `id` reads the class-wide count when asked, the same recorder reports a new id once
      another recorder has been constructed. */
  lemma RecorderIdNamesCount(provider: string, m: nat, n: nat)
    ensures RecorderId(provider, m) == RecorderId(provider, n) <==> m == n
  {
    if RecorderId(provider, m) == RecorderId(provider, n) {
      assert Text.NatToString(m) == RecorderId(provider, m)[|provider| + 1..];
      Text.ParseNatToString(m);
      Text.ParseNatToString(n);
    }
  }

  /** What one loop iteration sees: whether the stop flag is set when the loop condition
      is checked, the clock when the step starts and when it ends, and the observation the
      station gave (or the exception it raised). */
  datatype Tick = Tick(stopped: bool, start: real, obs: Result<Option<Records.CurrentConditions>>, end: real)

  /** The entries a run over `ticks` saves: every present observation until the stop flag
      is found set or reading the station raises. */
  function RunSaves(ticks: seq<Tick>): seq<Records.CurrentConditions> {
    if |ticks| == 0 || ticks[0].stopped || ticks[0].obs.Err? then []
    else (if ticks[0].obs.value.Some? then [ticks[0].obs.value.value] else []) + RunSaves(ticks[1..])
  }

  lemma AppendAssociative<T>(a: seq<T>, b: seq<T>, c: seq<T>)
    ensures a + b + c == a + (b + c)
  {
  }

  /** The number of steps a run over `ticks` performs before the stop flag is found set
      or a step raises. */
  function Steps(ticks: seq<Tick>): (n: nat)
    ensures n <= |ticks|
  {
    if |ticks| == 0 || ticks[0].stopped then 0
    else if ticks[0].obs.Err? then 1
    else 1 + Steps(ticks[1..])
  }

  /** The entries one tick adds. */
  function TickSaves(t: Tick): seq<Records.CurrentConditions> {
    if t.obs.Ok? && t.obs.value.Some? then [t.obs.value.value] else []
  }

  /** One step of a run from position `i`, unfolded. */
  lemma UnfoldRun(ticks: seq<Tick>, i: nat)
    requires i < |ticks| && !ticks[i].stopped
    ensures Steps(ticks[i..]) == if ticks[i].obs.Err? then 1 else 1 + Steps(ticks[i + 1..])
    ensures RunSaves(ticks[i..]) == if ticks[i].obs.Err? then [] else TickSaves(ticks[i]) + RunSaves(ticks[i + 1..])
  {
    assert ticks[i..][0] == ticks[i] && ticks[i..][1..] == ticks[i + 1..];
  }

  /** Each step saves at most one entry. */
  lemma {:induction false} SavesAtMostSteps(ticks: seq<Tick>)
    ensures |RunSaves(ticks)| <= Steps(ticks)
  {
    if |ticks| > 0 && !ticks[0].stopped && ticks[0].obs.Ok? {
      SavesAtMostSteps(ticks[1..]);
    }
  }

  /** A snapshot of what a recorder accumulates. */
  datatype Tally = Tally(db: Storage.Counts, updates: seq<Records.CurrentConditions>,
                         readings: nat, failed: nat)

  class DataRecorder {
    const station: Providers.BaseStation
    const database: Storage.Database
    const interval: real
    const counter: ThreadCounter
    /** The thread name, which is the id when the recorder was constructed. */
    const threadName: string
    var loopLastExec: Option<real>
    /** Every observation handed to the condition metrics, in order. */
    var metricUpdates: seq<Records.CurrentConditions>

    /** Counts one more recorder and names the thread after the id at that count. */
    constructor (station: Providers.BaseStation, database: Storage.Database, interval: real,
                 counter: ThreadCounter)
      modifies counter
      ensures counter.count == old(counter.count) + 1
      ensures this.station == station && this.database == database
      ensures this.interval == interval && this.counter == counter
      ensures threadName == RecorderId(station.provider, counter.count)
      ensures loopLastExec.None? && metricUpdates == []
    {
      counter.count := counter.count + 1;
      this.station := station;
      this.database := database;
      this.interval := interval;
      this.counter := counter;
      threadName := RecorderId(station.provider, counter.count);
      loopLastExec := None;
      metricUpdates := [];
    }

    /** `id`: the provider value and the current class-wide count. */
    function Id(): string
      reads this, counter
    {
      RecorderId(station.provider, counter.count)
    }

    /** `record_current_conditions` with the station's observation `obs`: an exception
        propagates and nothing changes; no observation returns false and nothing changes;
        otherwise the metrics see the observation, it is saved once, and exactly one of the
        station's `readings` (committed) and `failed` (not committed) goes up by one. */
    method RecordCurrentConditions(obs: Result<Option<Records.CurrentConditions>>)
      returns (r: Result<bool>)
      modifies this, database, station.metrics
      ensures obs.Err? ==> r == Err(obs.error)
      ensures obs.Ok? ==> r == Ok(obs.value.Some?)
      ensures obs.Err? || obs.value.None? ==>
        && metricUpdates == old(metricUpdates) && database.written == old(database.written)
        && database.Snapshot() == old(database.Snapshot())
        && station.metrics.readings == old(station.metrics.readings)
        && station.metrics.failed == old(station.metrics.failed)
      ensures obs.Ok? && obs.value.Some? ==>
        var entry := obs.value.value;
        && metricUpdates == old(metricUpdates) + [entry]
        && database.written == old(database.written) + [entry]
        && Storage.Extends(database.commits, old(database.Snapshot()), database.Snapshot(), [entry])
        && station.metrics.readings == old(station.metrics.readings) + (if database.commits(entry) then 1 else 0)
        && station.metrics.failed == old(station.metrics.failed) + (if database.commits(entry) then 0 else 1)
      ensures station.metrics.requests == old(station.metrics.requests)
      ensures station.metrics.errors == old(station.metrics.errors)
      ensures loopLastExec == old(loopLastExec)
      ensures old(database.Valid()) ==> database.Valid()
    {
      if obs.Err? {
        return Err(obs.error);
      }
      if obs.value.None? {
        return Ok(false);
      }
      var entry := obs.value.value;
      metricUpdates := metricUpdates + [entry];
      var ok := database.Save(entry);
      if ok {
        station.metrics.readings := station.metrics.readings + 1;
      } else {
        station.metrics.failed := station.metrics.failed + 1;
      }
      return Ok(true);
    }

    /** What a recorder has accumulated: the entries written to the database, the
        observations handed to the metrics, and the station's reading and failure counts. */
    function Tallies(): Tally
      reads this, database, station.metrics
    {
      Tally(database.Snapshot(), metricUpdates, station.metrics.readings, station.metrics.failed)
    }

    /** Since `start`, exactly `saved` was written and handed to the metrics, each of its
        entries counted once as a reading when committed and as a failure otherwise. */
    predicate Accounted(start: Tally, saved: seq<Records.CurrentConditions>)
      reads this, database, station.metrics
    {
      && Storage.Extends(database.commits, start.db, database.Snapshot(), saved)
      && metricUpdates == start.updates + saved
      && station.metrics.readings == start.readings + Storage.Committed(database.commits, saved)
      && station.metrics.readings + station.metrics.failed == start.readings + start.failed + |saved|
    }

    /** One loop step from position `i`: note the start time, record, and work out the
        sleep. A raising step accounts for the whole run; any other leaves the rest of
        the run to the following ticks. */
    method Advance(ticks: seq<Tick>, i: nat, ghost start: Tally, ghost saved: seq<Records.CurrentConditions>,
                   sleeps: seq<real>)
      returns (r: Result<bool>, ghost saved': seq<Records.CurrentConditions>, sleeps': seq<real>)
      requires i < |ticks| && !ticks[i].stopped
      requires Accounted(start, saved) && RunSaves(ticks) == saved + RunSaves(ticks[i..])
      modifies this, database, station.metrics
      ensures loopLastExec == Some(ticks[i].start)
      ensures r.Err? <==> ticks[i].obs.Err?
      ensures r.Err? ==> && r.error == ticks[i].obs.error && Steps(ticks[i..]) == 1
                         && Accounted(start, RunSaves(ticks)) && sleeps' == sleeps
      ensures r.Ok? ==> && Steps(ticks[i..]) == 1 + Steps(ticks[i + 1..])
                        && Accounted(start, saved') && RunSaves(ticks) == saved' + RunSaves(ticks[i + 1..])
                        && sleeps' == sleeps + [Schedule.NextSleep(ticks[i].start, interval, ticks[i].end)]
    {
      var t := ticks[i];
      UnfoldRun(ticks, i);
      loopLastExec := Some(t.start);
      ghost var mid := database.Snapshot();
      r := RecordCurrentConditions(t.obs);
      Storage.CommittedAppend(database.commits, saved, TickSaves(t));
      Storage.ExtendsCompose(database.commits, start.db, mid, database.Snapshot(), saved, TickSaves(t));
      saved' := saved + TickSaves(t);
      sleeps' := sleeps;
      if r.Err? {
        assert saved' == saved + [];
        return;
      }
      AppendAssociative(saved, TickSaves(t), RunSaves(ticks[i + 1..]));
      sleeps' := sleeps + [Schedule.NextSleep(t.start, interval, t.end)];
    }

    /** `run_loop` over `ticks`: while the stop flag is unset, note the start time, record,
        and sleep until the next step is due. It stops at the first tick whose flag is set,
        or when recording raises (the exception ends the thread). Every entry the run
        reads is saved in order and counted once as a reading or a failure, and no sleep
        is negative. */
    method RunLoop(ticks: seq<Tick>) returns (sleeps: seq<real>, r: Outcome)
      modifies this, database, station.metrics
      ensures r.Fail? <==> Steps(ticks) > 0 && ticks[Steps(ticks) - 1].obs.Err?
      ensures r.Fail? ==> r.error == ticks[Steps(ticks) - 1].obs.error
      ensures |sleeps| == (if r.Fail? then Steps(ticks) - 1 else Steps(ticks))
      ensures forall i :: 0 <= i < |sleeps| ==>
        sleeps[i] == Schedule.NextSleep(ticks[i].start, interval, ticks[i].end) && sleeps[i] >= 0.0
      ensures Accounted(old(Tallies()), RunSaves(ticks))
      ensures old(database.Valid()) ==> database.Valid()
      ensures Steps(ticks) > 0 ==> loopLastExec == Some(ticks[Steps(ticks) - 1].start)
      ensures Steps(ticks) == 0 ==> loopLastExec == old(loopLastExec)
    {
      sleeps := [];
      r := Pass;
      var i := 0;
      ghost var saved: seq<Records.CurrentConditions> := [];
      ghost var start := Tallies();
      while i < |ticks| && !ticks[i].stopped
        invariant 0 <= i <= |ticks|
        invariant Accounted(start, saved)
        invariant Steps(ticks) == i + Steps(ticks[i..])
        invariant RunSaves(ticks) == saved + RunSaves(ticks[i..])
        invariant i > 0 ==> ticks[i - 1].obs.Ok?
        invariant |sleeps| == i
        invariant forall k :: 0 <= k < i ==> sleeps[k] == Schedule.NextSleep(ticks[k].start, interval, ticks[k].end)
        invariant i > 0 ==> loopLastExec == Some(ticks[i - 1].start)
        invariant i == 0 ==> loopLastExec == old(loopLastExec)
        decreases |ticks| - i
      {
        var res;
        res, saved, sleeps := Advance(ticks, i, start, saved, sleeps);
        if res.Err? {
          return sleeps, Fail(res.error);
        }
        i := i + 1;
      }
      assert Steps(ticks[i..]) == 0 && RunSaves(ticks[i..]) == [];
      assert saved + [] == saved;
    }
  }
}
