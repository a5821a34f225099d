/** What eviction does, in terms of the finish times of the registered runs and of the limits alone. */
module Retention {
  import opened Common
  import opened Lifecycle
  import opened Eviction
  import opened Scheduler
  import opened Ownership
  import opened SchedulerInvariant
  import opened Guarantees

  /** The registered finished runs. */
  function FinishedRuns(s: State): set<RunId> {
    set id | id in s.runs && id < |s.recs| && Terminal(s.recs[id].state)
  }

  /** The finish time of a run; every finished run has one. */
  function FinishTime(r: Run): real {
    if r.finishedAt.Some? then r.finishedAt.value else 0.0
  }

  /** Those that finished longer ago than `run_retention_seconds`. */
  function Old(s: State, now: real): set<RunId> {
    set id | id in FinishedRuns(s) && FinishTime(s.recs[id]) < now - s.config.retention
  }

  lemma KeyIsFinishTime(s: State, id: RunId)
    requires Inv(s) && id in FinishedRuns(s)
    ensures s.recs[id].finishedAt.Some? && FinishKey(s.recs[id]) == FinishTime(s.recs[id])
  {
    hide Owned, KeysInverse, Balanced, HandlesExact, Unfinished;
    WellRecordedOf(s, id);
  }

  lemma OldIsExpired(s: State, now: real)
    requires Inv(s)
    ensures Old(s, now) == Expired(s.recs, s.runs, now - s.config.retention)
  {
    hide Inv, FinishKey, FinishTime;
    forall id: RunId ensures id in Old(s, now) <==> id in Expired(s.recs, s.runs, now - s.config.retention) {
      assert id in FinishedRuns(s) <==> IsTerminalRun(s.recs, s.runs, id);
      if id in FinishedRuns(s) {
        KeyIsFinishTime(s, id);
      }
    }
  }

  lemma CountFinishedRuns(s: State)
    ensures |Finished(s.recs, s.runs)| == |FinishedRuns(s)|
  {
    hide Finished;
    FinishedExact(s.recs, s.runs);
    var f := Finished(s.recs, s.runs);
    ElementsExact(f);
    assert Elements(f) == FinishedRuns(s) by {
      forall id: RunId ensures id in f <==> id in FinishedRuns(s) {
        assert id in f <==> IsTerminalRun(s.recs, s.runs, id);
      }
    }
  }

  /**
   Eviction takes finished runs only, all the old ones among them, earlier finished ones first, and in
   all exactly as many as must go to make room, unless there are too few finished ones or more are old.
   */
  lemma CleanUpExact(s: State, reserve: nat, now: real)
    requires Inv(s) && WellFormed(s)
    ensures var r := CleanedUp(s, reserve, now);
      var gone := s.runs - r.runs;
      && r.runs <= s.runs && r.recs == s.recs && r.queue == s.queue && r.slots == s.slots
      && Old(s, now) <= gone <= FinishedRuns(s)
      && |gone| == MaxInt(|Old(s, now)|, MinInt(|FinishedRuns(s)|, |s.runs| + reserve - s.config.maxRunRecords))
      && (forall a: RunId, b: RunId :: a in gone && b in FinishedRuns(s) - gone ==>
            || FinishTime(s.recs[a]) < FinishTime(s.recs[b])
            || (FinishTime(s.recs[a]) == FinishTime(s.recs[b]) && a < b))
      && r.requests.evicted == s.requests.evicted + |gone|
  {
    hide Inv, Victims, Finished, Expired, FinishedRuns, Old, FinishTime, FinishKey;
    var cutoff, limit := now - s.config.retention, s.config.maxRunRecords;
    var gone := Victims(s.recs, s.runs, cutoff, reserve, limit);
    EvictionExact(s.recs, s.runs, cutoff, reserve, limit);
    OldIsExpired(s, now);
    CountFinishedRuns(s);
    assert gone <= s.runs;
    assert s.runs - (s.runs - gone) == gone;
    FinishedMembers(s, gone);
    forall a: RunId, b: RunId | a in gone && b in FinishedRuns(s) - gone
      ensures || FinishTime(s.recs[a]) < FinishTime(s.recs[b])
              || (FinishTime(s.recs[a]) == FinishTime(s.recs[b]) && a < b)
    {
      KeyIsFinishTime(s, a);
      KeyIsFinishTime(s, b);
      assert Before(s.recs, a, b);
    }
  }

  lemma FinishedMembers(s: State, gone: set<RunId>)
    requires forall id :: id in gone ==> IsTerminalRun(s.recs, s.runs, id)
    ensures gone <= FinishedRuns(s)
    ensures forall id: RunId :: id in FinishedRuns(s) <==> IsTerminalRun(s.recs, s.runs, id)
  {
  }

  /** If anything goes that is not old, then nothing more than had to: the reserve just fits, or not yet. */
  lemma NoneGoesInVain(s: State, reserve: nat, now: real)
    requires Inv(s) && WellFormed(s)
    requires s.runs - CleanedUp(s, reserve, now).runs != Old(s, now)
    ensures |CleanedUp(s, reserve, now).runs| + reserve >= s.config.maxRunRecords
  {
    hide Inv, CleanedUp, FinishedRuns, Old;
    CleanUpExact(s, reserve, now);
    var r := CleanedUp(s, reserve, now);
    var gone := s.runs - r.runs;
    assert s.runs == r.runs + gone;
    if |gone| == |Old(s, now)| {
      SameSize(Old(s, now), gone);
    }
  }

  lemma SameSize(a: set<RunId>, b: set<RunId>)
    requires a <= b && |a| == |b|
    ensures a == b
  {
    assert b == a + (b - a);
    assert |b - a| == 0;
  }
}
