/** The observer: a list of watched stations that it visits in order on a fixed interval,
    saving each station's current conditions. The thread and lock are left out; the loop
    runs over a given sequence of ticks. */
module Observer {
  import opened Wrappers
  import Records
  import Providers
  import Storage
  import Schedule

  /** What reading a station's current conditions gave: a record, nothing, or an exception. */
  type Reader = Providers.BaseStation -> Result<Option<Records.CurrentConditions>>

  /** `update_station_data` for one station: the record to save, or the exception that
      escapes (reading the timestamp of an absent record raises AttributeError). */
  function StationUpdate(station: Providers.BaseStation, read: Reader): (r: Result<Records.CurrentConditions>)
    ensures read(station).Err? ==> r == Err(read(station).error)
    ensures read(station) == Ok(None) ==> r == Err(AttributeError)
    ensures read(station).Ok? && read(station).value.Some? ==> r == Ok(read(station).value.value)
  {
    var wx :- read(station);
    if wx.None? then Err(AttributeError) else Ok(wx.value)
  }

  /** The entries one pass over `stations` saves: one per station, in order, up to the
      first station whose update raises. */
  function StepSaves(stations: seq<Providers.BaseStation>, read: Reader): seq<Records.CurrentConditions> {
    if |stations| == 0 || StationUpdate(stations[0], read).Err? then []
    else [StationUpdate(stations[0], read).value] + StepSaves(stations[1..], read)
  }

  /** How a pass over `stations` ends: the first exception, if any. */
  function StepOutcome(stations: seq<Providers.BaseStation>, read: Reader): Outcome {
    if |stations| == 0 then Pass
    else if StationUpdate(stations[0], read).Err? then Fail(StationUpdate(stations[0], read).error)
    else StepOutcome(stations[1..], read)
  }

  /** When no update raises, a pass saves exactly one entry per watched station, in the
      order the stations were watched. */
  lemma {:induction false} StepSavesInOrder(stations: seq<Providers.BaseStation>, read: Reader)
    requires StepOutcome(stations, read) == Pass
    ensures |StepSaves(stations, read)| == |stations|
    ensures forall i :: 0 <= i < |stations| ==> StationUpdate(stations[i], read).Ok?
    ensures forall i :: 0 <= i < |stations| ==>
      StepSaves(stations, read)[i] == StationUpdate(stations[i], read).value
  {
    if |stations| > 0 {
      StepSavesInOrder(stations[1..], read);
    }
  }

  /** What one loop iteration sees: the stop flag when the loop condition is checked, the
      clock when the step starts and ends, and what each station reports at that step. */
  datatype Tick = Tick(stopped: bool, start: real, read: Reader, end: real)

  /** The entries a run saves, until the flag is found set or a pass raises. */
  function RunSaves(stations: seq<Providers.BaseStation>, ticks: seq<Tick>): seq<Records.CurrentConditions> {
    if |ticks| == 0 || ticks[0].stopped then []
    else StepSaves(stations, ticks[0].read)
         + (if StepOutcome(stations, ticks[0].read).Fail? then [] else RunSaves(stations, ticks[1..]))
  }

  /** The number of passes a run makes. */
  function Steps(stations: seq<Providers.BaseStation>, ticks: seq<Tick>): (n: nat)
    ensures n <= |ticks|
  {
    if |ticks| == 0 || ticks[0].stopped then 0
    else if StepOutcome(stations, ticks[0].read).Fail? then 1
    else 1 + Steps(stations, ticks[1..])
  }

  lemma AppendAssociative<T>(a: seq<T>, b: seq<T>, c: seq<T>)
    ensures a + b + c == a + (b + c)
  {
  }

  lemma UnfoldRun(stations: seq<Providers.BaseStation>, ticks: seq<Tick>, i: nat)
    requires i < |ticks| && !ticks[i].stopped
    ensures var failed := StepOutcome(stations, ticks[i].read).Fail?;
      && Steps(stations, ticks[i..]) == (if failed then 1 else 1 + Steps(stations, ticks[i + 1..]))
      && RunSaves(stations, ticks[i..]) == StepSaves(stations, ticks[i].read)
           + (if failed then [] else RunSaves(stations, ticks[i + 1..]))
  {
    assert ticks[i..][0] == ticks[i] && ticks[i..][1..] == ticks[i + 1..];
  }

  /** The reader as written: `update_station_data` reads `current_conditions`, so a station
      whose class (given by `classOf`) does not define it raises AttributeError; any other
      reports what `read` gives. */
  function AsWrittenReader(classOf: Providers.BaseStation -> Providers.StationClass, read: Reader): Reader {
    (st: Providers.BaseStation) =>
      if "current_conditions" in Providers.Defined(classOf(st)) then read(st) else Err(AttributeError)
  }

  /** What the reader as written gives for one station: AttributeError exactly when its
      class lacks `current_conditions`, otherwise the underlying reading. */
  lemma AsWrittenRead(classOf: Providers.BaseStation -> Providers.StationClass, read: Reader,
                      st: Providers.BaseStation)
    ensures "current_conditions" !in Providers.Defined(classOf(st)) ==>
      AsWrittenReader(classOf, read)(st) == Err(AttributeError)
    ensures "current_conditions" in Providers.Defined(classOf(st)) ==>
      AsWrittenReader(classOf, read)(st) == read(st)
  {
  }

  /** A run's ticks with each step's reader replaced by the reader as written. */
  function AsWrittenTicks(classOf: Providers.BaseStation -> Providers.StationClass, ticks: seq<Tick>)
    : (r: seq<Tick>)
    ensures |r| == |ticks|
    ensures forall i :: 0 <= i < |ticks| ==>
      r[i] == ticks[i].(read := AsWrittenReader(classOf, ticks[i].read))
  {
    seq(|ticks|, i requires 0 <= i < |ticks| => ticks[i].(read := AsWrittenReader(classOf, ticks[i].read)))
  }

  /** As written, a run saves nothing: the first watched station was built, so its class
      lacks `current_conditions`, the first pass raises AttributeError before any save, and
      the loop ends after that pass. */
  lemma AsWrittenSavesNothing(classOf: Providers.BaseStation -> Providers.StationClass,
                              stations: seq<Providers.BaseStation>, ticks: seq<Tick>)
    requires |stations| > 0
    requires Providers.Instantiate(Providers.Defined(classOf(stations[0]))).Pass?
    ensures RunSaves(stations, AsWrittenTicks(classOf, ticks)) == []
    ensures Steps(stations, AsWrittenTicks(classOf, ticks)) == (if |ticks| == 0 || ticks[0].stopped then 0 else 1)
    ensures |ticks| > 0 ==>
      StepOutcome(stations, AsWrittenTicks(classOf, ticks)[0].read) == Fail(AttributeError)
  {
    Providers.BuiltStationsObserve(classOf(stations[0]));
    if |ticks| > 0 {
      var read := AsWrittenTicks(classOf, ticks)[0].read;
      assert read == AsWrittenReader(classOf, ticks[0].read);
      AsWrittenRead(classOf, ticks[0].read, stations[0]);
      assert StationUpdate(stations[0], read) == Err(AttributeError);
    }
  }

  class Observer {
    const database: Storage.Database
    const updateInterval: real
    var stations: seq<Providers.BaseStation>
    var loopLastExec: Option<real>

    /** A new observer watches nothing; the interval defaults to 300 seconds. */
    constructor (database: Storage.Database, interval: real := 300.0)
      ensures this.database == database && updateInterval == interval
      ensures stations == [] && loopLastExec.None?
    {
      this.database := database;
      updateInterval := interval;
      stations := [];
      loopLastExec := None;
    }

    /** `watch`: an absent station raises ValueError and changes nothing; any other is
        appended to the end of the list. */
    method Watch(station: Option<Providers.BaseStation>) returns (r: Outcome)
      modifies this
      ensures station.None? ==> r == Fail(ValueError) && stations == old(stations)
      ensures station.Some? ==> r == Pass && stations == old(stations) + [station.value]
      ensures loopLastExec == old(loopLastExec)
    {
      if station.None? {
        return Fail(ValueError);
      }
      stations := stations + [station.value];
      return Pass;
    }

    /** `update_station_data`: saves the station's current conditions once, or raises
        without saving. */
    method UpdateStationData(station: Providers.BaseStation, read: Reader) returns (r: Outcome)
      modifies database
      ensures var u := StationUpdate(station, read);
        && (u.Err? ==> r == Fail(u.error) && database.written == old(database.written))
        && (u.Ok? ==> r == Pass && database.written == old(database.written) + [u.value])
      ensures StationUpdate(station, read).Err? ==> database.Snapshot() == old(database.Snapshot())
      ensures StationUpdate(station, read).Ok? ==>
        Storage.Extends(database.commits, old(database.Snapshot()), database.Snapshot(),
                        [StationUpdate(station, read).value])
      ensures old(database.Valid()) ==> database.Valid()
    {
      var wx := read(station);
      if wx.Err? {
        return Fail(wx.error);
      }
      if wx.value.None? {
        return Fail(AttributeError);
      }
      var _ := database.Save(wx.value.value);
      return Pass;
    }

    /** `thread_loop_step`: updates every watched station in order; an exception ends the
        pass at that station. */
    method ThreadLoopStep(read: Reader) returns (r: Outcome)
      modifies database
      ensures r == StepOutcome(stations, read)
      ensures database.written == old(database.written) + StepSaves(stations, read)
      ensures Storage.Extends(database.commits, old(database.Snapshot()), database.Snapshot(),
                              StepSaves(stations, read))
      ensures old(database.Valid()) ==> database.Valid()
    {
      var i := 0;
      ghost var saved: seq<Records.CurrentConditions> := [];
      while i < |stations|
        invariant 0 <= i <= |stations|
        invariant database.written == old(database.written) + saved
        invariant Storage.Extends(database.commits, old(database.Snapshot()), database.Snapshot(), saved)
        invariant StepSaves(stations, read) == saved + StepSaves(stations[i..], read)
        invariant StepOutcome(stations, read) == StepOutcome(stations[i..], read)
        decreases |stations| - i
      {
        assert stations[i..][0] == stations[i] && stations[i..][1..] == stations[i + 1..];
        ghost var mid := database.Snapshot();
        var o := UpdateStationData(stations[i], read);
        if o.Fail? {
          assert saved + [] == saved;
          return o;
        }
        AppendAssociative(saved, [StationUpdate(stations[i], read).value], StepSaves(stations[i + 1..], read));
        Storage.ExtendsCompose(database.commits, old(database.Snapshot()), mid, database.Snapshot(),
                               saved, [StationUpdate(stations[i], read).value]);
        saved := saved + [StationUpdate(stations[i], read).value];
        i := i + 1;
      }
      assert saved + [] == saved;
      return Pass;
    }

    /** Since a database state `start`, exactly `saved` was saved: written in order and
        counted by the database's session, write, rollback and commit counters. */
    predicate Accounted(start: Storage.Counts, saved: seq<Records.CurrentConditions>)
      reads database
    {
      Storage.Extends(database.commits, start, database.Snapshot(), saved)
    }

    /** One loop step: note the start time, then make a pass. */
    method BeginStep(t: Tick, ghost start: Storage.Counts, ghost saved: seq<Records.CurrentConditions>)
      returns (r: Outcome)
      requires Accounted(start, saved)
      modifies this, database
      ensures stations == old(stations) && loopLastExec == Some(t.start)
      ensures r == StepOutcome(stations, t.read)
      ensures Accounted(start, saved + StepSaves(stations, t.read))
    {
      loopLastExec := Some(t.start);
      ghost var mid := database.Snapshot();
      r := ThreadLoopStep(t.read);
      Storage.ExtendsCompose(database.commits, start, mid, database.Snapshot(), saved, StepSaves(stations, t.read));
    }

    /** `run_loop` over `ticks`: while the stop flag is unset, note the start time, make a
        pass, and sleep until the next pass is due. An exception in a pass ends the loop.
        The watched list does not change, every saved entry is one of a pass's entries in
        order, and no sleep is negative. */
    method RunLoop(ticks: seq<Tick>) returns (sleeps: seq<real>, r: Outcome)
      modifies this, database
      ensures stations == old(stations)
      ensures var n := Steps(stations, ticks);
        r.Fail? <==> n > 0 && StepOutcome(stations, ticks[n - 1].read).Fail?
      ensures r.Fail? ==> r == StepOutcome(stations, ticks[Steps(stations, ticks) - 1].read)
      ensures |sleeps| == (if r.Fail? then Steps(stations, ticks) - 1 else Steps(stations, ticks))
      ensures forall i :: 0 <= i < |sleeps| ==>
        sleeps[i] == Schedule.NextSleep(ticks[i].start, updateInterval, ticks[i].end) && sleeps[i] >= 0.0
      ensures Accounted(old(database.Snapshot()), RunSaves(stations, ticks))
      ensures database.written == old(database.written) + RunSaves(stations, ticks)
      ensures old(database.Valid()) ==> database.Valid()
      ensures Steps(stations, ticks) > 0 ==> loopLastExec == Some(ticks[Steps(stations, ticks) - 1].start)
      ensures Steps(stations, ticks) == 0 ==> loopLastExec == old(loopLastExec)
    {
      sleeps := [];
      r := Pass;
      var i := 0;
      ghost var saved: seq<Records.CurrentConditions> := [];
      ghost var start := database.Snapshot();
      while i < |ticks| && !ticks[i].stopped
        invariant 0 <= i <= |ticks|
        invariant stations == old(stations)
        invariant Accounted(start, saved)
        invariant Steps(stations, ticks) == i + Steps(stations, ticks[i..])
        invariant RunSaves(stations, ticks) == saved + RunSaves(stations, ticks[i..])
        invariant i > 0 ==> StepOutcome(stations, ticks[i - 1].read).Pass?
        invariant |sleeps| == i
        invariant forall k :: 0 <= k < i ==>
          sleeps[k] == Schedule.NextSleep(ticks[k].start, updateInterval, ticks[k].end)
        invariant i > 0 ==> loopLastExec == Some(ticks[i - 1].start)
        invariant i == 0 ==> loopLastExec == old(loopLastExec)
        decreases |ticks| - i
      {
        var t := ticks[i];
        UnfoldRun(stations, ticks, i);
        var o := BeginStep(t, start, saved);
        if o.Fail? {
          saved := saved + StepSaves(stations, t.read);
          assert saved + [] == saved;
          assert RunSaves(stations, ticks) == saved;
          return sleeps, o;
        }
        AppendAssociative(saved, StepSaves(stations, t.read), RunSaves(stations, ticks[i + 1..]));
        saved := saved + StepSaves(stations, t.read);
        var sleep := Schedule.NextSleep(t.start, updateInterval, t.end);
        sleeps := sleeps + [sleep];
        i := i + 1;
      }
      assert Steps(stations, ticks[i..]) == 0 && RunSaves(stations, ticks[i..]) == [];
      assert saved + [] == saved;
    }
  }
}
