/** The database the recorders save into. Whether a save commits is decided by the
    database engine, which is a parameter here. */
module Storage {
  import Records

  /** The number of `entries` the engine commits. */
  function Committed(commits: Records.CurrentConditions -> bool, entries: seq<Records.CurrentConditions>): (n: nat)
    ensures n <= |entries|
  {
    if |entries| == 0 then 0 else (if commits(entries[0]) then 1 else 0) + Committed(commits, entries[1..])
  }

  lemma {:induction false} CommittedAppend(commits: Records.CurrentConditions -> bool,
                                           a: seq<Records.CurrentConditions>,
                                           b: seq<Records.CurrentConditions>)
    ensures Committed(commits, a + b) == Committed(commits, a) + Committed(commits, b)
  {
    if |a| == 0 {
      assert a + b == b;
    } else {
      assert (a + b)[1..] == a[1..] + b;
      CommittedAppend(commits, a[1..], b);
    }
  }

  /** A snapshot of the database: what was written, and its session, write, rollback and
      commit counters. */
  datatype Counts = Counts(written: seq<Records.CurrentConditions>, sessions: nat, writes: nat,
                           errors: nat, commits: nat)

  /** Every write opened one session and ended in exactly one rollback or commit. */
  predicate Consistent(c: Counts) {
    c.sessions == c.writes == |c.written| && c.writes == c.errors + c.commits
  }

  /** From `start` to `now` exactly `saved` was handed to `save`, in order: one session and
      one write per entry, a commit for each entry the engine commits and a rollback for
      every other. */
  predicate Extends(commits: Records.CurrentConditions -> bool, start: Counts, now: Counts,
                    saved: seq<Records.CurrentConditions>)
  {
    && now.written == start.written + saved
    && now.sessions == start.sessions + |saved|
    && now.writes == start.writes + |saved|
    && now.commits == start.commits + Committed(commits, saved)
    && now.errors == start.errors + (|saved| - Committed(commits, saved))
  }

  /** Saving keeps the counters consistent. */
  lemma ExtendsKeepsConsistent(commits: Records.CurrentConditions -> bool, start: Counts, now: Counts,
                               saved: seq<Records.CurrentConditions>)
    requires Extends(commits, start, now, saved) && Consistent(start)
    ensures Consistent(now)
  {
  }

  /** Saving `a` and then `b` is saving `a + b`. */
  lemma ExtendsCompose(commits: Records.CurrentConditions -> bool, start: Counts, mid: Counts, now: Counts,
                       a: seq<Records.CurrentConditions>, b: seq<Records.CurrentConditions>)
    requires Extends(commits, start, mid, a) && Extends(commits, mid, now, b)
    ensures Extends(commits, start, now, a + b)
  {
    CommittedAppend(commits, a, b);
  }

  class Database {
    /** Whether the engine commits an entry (it rolls back, and `save` reports failure,
        otherwise). */
    const commits: Records.CurrentConditions -> bool
    /** Every entry handed to `save`, in order. */
    var written: seq<Records.CurrentConditions>
    /** The database's own counters: sessions opened, writes attempted, rollbacks and
        commits. */
    var sessionCount: nat
    var writeCount: nat
    var errorCount: nat
    var commitCount: nat

    /** The current entries and counters. */
    function Snapshot(): Counts
      reads this
    {
      Counts(written, sessionCount, writeCount, errorCount, commitCount)
    }

    /** Every write opens one session, and ends in exactly one rollback or commit. */
    ghost predicate Valid()
      reads this
    {
      Consistent(Snapshot())
    }

    constructor (commits: Records.CurrentConditions -> bool)
      ensures this.commits == commits && written == []
      ensures sessionCount == writeCount == errorCount == commitCount == 0
      ensures Valid()
    {
      this.commits := commits;
      written := [];
      sessionCount, writeCount, errorCount, commitCount := 0, 0, 0, 0;
    }

    /** `save`: counts the write and the session it opens, writes the entry once, and
        counts a rollback or a commit, reporting whether it committed. */
    method Save(entry: Records.CurrentConditions) returns (ok: bool)
      modifies this
      ensures written == old(written) + [entry]
      ensures ok == commits(entry)
      ensures writeCount == old(writeCount) + 1 && sessionCount == old(sessionCount) + 1
      ensures errorCount == old(errorCount) + (if ok then 0 else 1)
      ensures commitCount == old(commitCount) + (if ok then 1 else 0)
      ensures old(Valid()) ==> Valid()
      ensures Extends(commits, old(Snapshot()), Snapshot(), [entry])
    {
      writeCount := writeCount + 1;
      sessionCount := sessionCount + 1;
      written := written + [entry];
      if !commits(entry) {
        errorCount := errorCount + 1;
        return false;
      }
      commitCount := commitCount + 1;
      return true;
    }
  }
}
