/** The transition counters against the logs: each counter counts one edge over all runs ever made. */
module Accounts {
  import opened Common
  import opened Lifecycle
  import opened Eviction
  import opened Scheduler
  import opened Ownership
  import opened SchedulerInvariant
  import opened Guarantees
  import opened Logs

  function Counter(source: RunState, target: RunState): Run -> int {
    (r: Run) => CountEdge(r.transitions, source, target)
  }

  /** How often an edge occurs in all logs together. */
  function LogTotal(recs: seq<Run>, source: RunState, target: RunState): int {
    SumOf(recs, Counter(source, target))
  }

  ghost predicate Exact(recs: seq<Run>, edges: EdgeCounts) {
    forall source, target :: CountOf(edges, source, target) == LogTotal(recs, source, target)
  }

  lemma InitExact(config: Config, capacity: nat)
    ensures Exact(Init(config, capacity).recs, Init(config, capacity).edges)
  {
  }

  // ---------------------------------------------------------------------
  // Single writes
  // ---------------------------------------------------------------------

  /** A write that leaves the log alone. */
  lemma WriteExact(recs: seq<Run>, edges: EdgeCounts, id: RunId, run: Run)
    requires Exact(recs, edges) && id < |recs| && run.transitions == recs[id].transitions
    ensures Exact(recs[id := run], edges)
  {
    forall source, target ensures CountOf(edges, source, target) == LogTotal(recs[id := run], source, target) {
      SumOfUpdate(recs, id, run, Counter(source, target));
    }
  }

  lemma CountAppend(log: seq<Transition>, t: Transition, source: RunState, target: RunState)
    ensures CountEdge(log + [t], source, target)
            == CountEdge(log, source, target) + One(t.from == source && t.to == target)
  {
    assert (log + [t])[..|log|] == log;
  }

  lemma BumpedCount(edges: EdgeCounts, from: RunState, to: RunState, source: RunState, target: RunState)
    ensures CountOf(Bumped(edges, from, to), source, target)
            == CountOf(edges, source, target) + One(from == source && to == target)
  {
  }

  /** A transition with its counter. */
  lemma MoveExact(recs: seq<Run>, edges: EdgeCounts, id: RunId, run: Run, to: RunState, now: real)
    requires Exact(recs, edges) && id < |recs|
    requires run.transitions == recs[id].transitions + [Transition(recs[id].state, to, now)]
    ensures Exact(recs[id := run], Bumped(edges, recs[id].state, to))
  {
    hide Bumped, CountOf, CountEdge;
    forall source, target
      ensures CountOf(Bumped(edges, recs[id].state, to), source, target)
              == LogTotal(recs[id := run], source, target)
    {
      SumOfUpdate(recs, id, run, Counter(source, target));
      CountAppend(recs[id].transitions, Transition(recs[id].state, to, now), source, target);
      BumpedCount(edges, recs[id].state, to, source, target);
    }
  }

  // ---------------------------------------------------------------------
  // Steps
  // ---------------------------------------------------------------------

  ghost predicate Counted(s: State) {
    Exact(s.recs, s.edges)
  }

  lemma MovedCounted(s: State, id: RunId, target: RunState, now: real)
    requires WellFormed(s) && id < |s.recs| && Counted(s)
    ensures Counted(Moved(s, id, target, now))
  {
    hide Exact, Bumped;
    MoveExact(s.recs, s.edges, id, Applied(s.recs[id], target, now), target, now);
  }

  lemma AdmittedCounted(s: State, q: Request, now: real)
    requires WellFormed(s) && Counted(s)
    ensures Counted(Admitted(s, q, now))
  {
    hide Bumped, CountOf, CountEdge;
    var r := Admitted(s, q, now);
    var run := Applied(NewRun(q.input, q.kind, SessionOf(q), now), Ready, now);
    forall source, target ensures CountOf(r.edges, source, target) == LogTotal(r.recs, source, target) {
      SumOfAppend(s.recs, run, Counter(source, target));
      CountAppend([], Transition(Created, Ready, now), source, target);
      BumpedCount(s.edges, Created, Ready, source, target);
      EmptyLog(source, target);
      assert [] + [Transition(Created, Ready, now)] == run.transitions;
    }
  }

  lemma EmptyLog(source: RunState, target: RunState)
    ensures CountEdge([], source, target) == 0
  {
  }

  lemma AdmitUnlessFullCounted(s: State, q: Request, now: real)
    requires WellFormed(s) && Counted(s)
    ensures Counted(AdmitUnlessFull(s, q, now).0)
  {
    hide Admitted, Exact, SameSetup;
    AdmittedCounted(s, q, now);
  }

  lemma LookedCounted(s: State, q: Request, now: real)
    requires WellFormed(s) && Counted(s)
    ensures Counted(Looked(s, q, now).0)
  {
    hide AdmitUnlessFull, Exact, SameSetup;
    AdmitUnlessFullCounted(s, q, now);
    if q.key.Some? {
      AdmitUnlessFullCounted(s.(index := s.index - {q.key.value}), q, now);
    }
  }

  lemma SubmittedCounted(s: State, q: Request, now: real)
    requires WellFormed(s) && Counted(s)
    ensures Counted(Submitted(s, q, now).0)
  {
    hide Looked, Exact, Victims, KeysOf, SameSetup;
    LookedCounted(CleanedUp(StartWorkers(s), 1, now), q, now);
  }

  lemma RetriedCounted(s: State, id: RunId, now: real)
    requires WellFormed(s) && Counted(s)
    ensures Counted(Retried(s, id, now).0)
  {
    hide Exact, Moved, SameSetup;
    if id in s.runs {
      var m := Moved(s, id, Ready, now);
      MovedCounted(s, id, Ready, now);
      WriteExact(m.recs, m.edges, id, Reset(m.recs[id]));
    }
  }

  lemma CancelledRunCounted(s: State, id: RunId, now: real)
    requires WellFormed(s) && id < |s.recs| && Counted(s)
    ensures Counted(CancelledRun(s, id, now))
  {
    hide Exact, Moved;
    MovedCounted(s, id, Cancelled, now);
  }

  lemma CancelAnswerCounted(s: State, id: RunId, now: real)
    requires WellFormed(s) && Counted(s)
    ensures Counted(CancelAnswer(s, id, now).0)
  {
    hide Exact, CancelledRun, SameSetup;
    if id in s.runs {
      assert id < |s.recs|;
      WriteExact(s.recs, s.edges, id, s.recs[id].(cancelRequested := true));
      CancelledRunCounted(CancelRequested(s, id), id, now);
    }
  }

  lemma {:induction false} CancelledBelowCounted(s: State, n: nat, now: real)
    requires WellFormed(s) && n <= |s.recs| && Counted(s)
    ensures Counted(CancelledBelow(s, n, now))
  {
    hide Counted, CancelledRun, SameSetup;
    if n > 0 {
      CancelledBelowCounted(s, n - 1, now);
      CancelledRunCounted(CancelledBelow(s, n - 1, now), n - 1, now);
    }
  }

  lemma ClosedCounted(s: State, now: real)
    requires WellFormed(s) && Counted(s)
    ensures Counted(Closed(s, now))
  {
    hide Exact, CancelledBelow, SameSetup;
    CancelledBelowCounted(s.(closed := true), |s.recs|, now);
  }

  lemma SettledCounted(s: State, id: RunId, outcome: Outcome, now: real)
    requires WellFormed(s) && id < |s.recs| && Counted(s)
    ensures Counted(Settled(s, id, outcome, now))
  {
    hide Exact, Bumped, SameSetup, WellFormed, Verdict, Written, Applied, LogTotal;
    var verdict, run := Verdict(s.recs[id].state, outcome), Written(s.recs[id], outcome);
    WrittenLog(s.recs[id], outcome);
    if verdict.Some? {
      AppliedLog(run, verdict.value, now);
      MoveExact(s.recs, s.edges, id, Applied(run, verdict.value, now), verdict.value, now);
    } else {
      WriteExact(s.recs, s.edges, id, run);
    }
  }

  lemma EndedCounted(s: State, w: nat, outcome: Outcome, now: real)
    requires WellFormed(s) && HasRun(s, w) && Counted(s)
    ensures Counted(Ended(s, w, outcome, now))
  {
    hide Exact, Settled, SameSetup, WellFormed;
    SettledCounted(s, s.slots[w].run, outcome, now);
  }

  lemma BegunCounted(s: State, w: nat, now: real)
    requires WellFormed(s) && HasRun(s, w) && s.slots[w].exec.Pending? && Counted(s)
    ensures Counted(Begun(s, w, now))
  {
    hide Exact, Ended, Moved, SameSetup;
    if !s.slots[w].exec.cancelled {
      var m := s.(active := s.active + 1);
      MovedCounted(m, m.slots[w].run, Running, now);
      EndedCounted(m, w, ILLEGAL, now);
    }
  }

  lemma CallBegunCounted(s: State, w: nat, now: real)
    requires WellFormed(s) && HasRun(s, w) && s.slots[w].exec.Active? && s.slots[w].exec.budget > 0 && Counted(s)
    ensures Counted(CallBegun(s, w, now))
  {
    hide Exact, Ended, Moved, SameSetup;
    MovedCounted(s, s.slots[w].run, Waiting, now);
    EndedCounted(s, w, ILLEGAL, now);
  }

  lemma CallEndedCounted(s: State, w: nat, ok: bool, now: real)
    requires WellFormed(s) && HasRun(s, w) && s.slots[w].exec.Active? && Counted(s)
    ensures Counted(CallEnded(s, w, ok, now))
  {
    hide Exact, Moved, SameSetup;
    var id := s.slots[w].run;
    var m := WithStep(s, id, ok);
    WriteExact(s.recs, s.edges, id, s.recs[id].(steps := s.recs[id].steps + 1));
    MovedCounted(m, id, Running, now);
  }

  lemma NextCounted(s: State, step: Step)
    requires WellFormed(s) && Enabled(s, step) && Counted(s)
    ensures Counted(Next(s, step))
  {
    hide Exact, Submitted, Retried, CancelAnswer, Closed, Begun, CallBegun, CallEnded, Ended, SameSetup;
    match step
    case Submit(q, now) => SubmittedCounted(s, q, now);
    case Retry(id, now) => RetriedCounted(s, id, now);
    case Cancel(id, now) => CancelAnswerCounted(s, id, now);
    case Close(now) => ClosedCounted(s, now);
    case Dequeue(w) =>
    case Begin(w, now) => BegunCounted(s, w, now);
    case CallBegin(w, now) => CallBegunCounted(s, w, now);
    case CallEnd(w, ok, now) => CallEndedCounted(s, w, ok, now);
    case End(w, outcome, now) => EndedCounted(s, w, outcome, now);
    case Resume(w) =>
  }

  lemma {:induction false} AfterCounted(s: State, steps: seq<Step>)
    requires WellFormed(s) && Possible(s, steps) && Counted(s)
    ensures Counted(After(s, steps))
    decreases |steps|
  {
    hide Next, Counted;
    if steps != [] {
      NextCounted(s, steps[0]);
      AfterCounted(Next(s, steps[0]), steps[1..]);
    }
  }

  // ---------------------------------------------------------------------
  // What the counters tell
  // ---------------------------------------------------------------------

  function IsIn(state: RunState): Run -> int {
    (r: Run) => One(r.state == state)
  }

  /** How many of all runs ever made are in a state. */
  function Population(recs: seq<Run>, state: RunState): int {
    SumOf(recs, IsIn(state))
  }

  ghost predicate AllLogged(recs: seq<Run>) {
    forall id :: 0 <= id < |recs| ==> LegalLog(recs[id].transitions) && EndOf(recs[id].transitions) == recs[id].state
  }

  lemma {:induction false} IntoSucceeded(log: seq<Transition>)
    requires LegalLog(log)
    ensures CountEdge(log, Running, Succeeded) == Arrivals(log, Succeeded)
    ensures CountEdge(log, Created, Cancelled) + CountEdge(log, Ready, Cancelled)
            + CountEdge(log, Running, Cancelled) + CountEdge(log, Waiting, Cancelled) == Arrivals(log, Cancelled)
  {
    if log != [] {
      IntoSucceeded(log[..|log| - 1]);
    }
  }

  lemma {:induction false} PopulationsLogged(recs: seq<Run>)
    requires AllLogged(recs)
    ensures Population(recs, Succeeded) == LogTotal(recs, Running, Succeeded)
    ensures Population(recs, Cancelled)
            == LogTotal(recs, Created, Cancelled) + LogTotal(recs, Ready, Cancelled)
               + LogTotal(recs, Running, Cancelled) + LogTotal(recs, Waiting, Cancelled)
  {
    if recs != [] {
      var n := |recs| - 1;
      assert forall id :: 0 <= id < n ==> recs[..n][id] == recs[id];
      PopulationsLogged(recs[..n]);
      hide CountEdge, LegalLog;
      IntoSucceeded(recs[n].transitions);
      OneFinalOutcome(recs[n].transitions);
    }
  }

  /**
   In every reachable state each transition counter is the number of times its edge occurs in the
   logs of all runs ever made, evicted ones included. So runs_retried_total is the number of
   Failed-to-Ready edges, runs_succeeded_total the number of runs in state Succeeded, and the
   cancellation counters together the number of runs in state Cancelled.
   */
  lemma CountersTellTheLogs(config: Config, capacity: nat, steps: seq<Step>)
    requires Reaches(config, capacity, steps)
    ensures var s := StateAfter(config, capacity, steps);
      && Exact(s.recs, s.edges)
      && s.tally.retried == LogTotal(s.recs, Failed, Ready)
      && s.tally.succeeded == Population(s.recs, Succeeded)
      && Cancellations(s.edges) == Population(s.recs, Cancelled)
  {
    hide After, Possible, Owned, Recorded, KeysInverse, HandlesExact, Bounded, LogTotal, Population, CountOf;
    var s := StateAfter(config, capacity, steps);
    InitExact(config, capacity);
    AfterCounted(Init(config, capacity), steps);
    ReachableInv(config, capacity, steps);
    forall id | 0 <= id < |s.recs|
      ensures LegalLog(s.recs[id].transitions) && EndOf(s.recs[id].transitions) == s.recs[id].state
    {
      LogTellsTheState(config, capacity, steps, id);
    }
    PopulationsLogged(s.recs);
  }
}
