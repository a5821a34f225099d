/**
 What each step writes to the logs, told from the state before the step, and so the whole log of
 every run as a function of the history.
 */
module Logs {
  import opened Common
  import opened Lifecycle
  import opened Eviction
  import opened Scheduler
  import opened Ownership
  import opened SchedulerInvariant
  import opened Guarantees
  import opened Histories

  function LogOf(recs: seq<Run>, id: RunId): seq<Transition> {
    if id < |recs| then recs[id].transitions else []
  }

  /** The state in which an attempt that ends leaves a run that was not cancelled meanwhile. */
  function FinalState(outcome: Outcome): RunState {
    match outcome
    case Returned(_) => Succeeded
    case RefusedTurn(_, _) => Failed
    case Raised(_) => Failed
    case TaskCancelled => Cancelled
  }

  /** Registered, and not finished. */
  predicate IsOpen(s: State, id: RunId) {
    id in s.runs && IsUnfinished(s.recs, id)
  }

  /** Worker w executes run id, which is in this state. */
  predicate Executes(s: State, w: nat, id: RunId, state: RunState) {
    HasRun(s, w) && s.slots[w].run == id && s.recs[id].state == state
  }

  /** The entries a step adds to the log of run id. */
  function NewEntries(s: State, step: Step, id: RunId): seq<Transition>
    requires WellFormed(s) && Enabled(s, step)
  {
    match step
    case Submit(q, now) => if Submitted(s, q, now).1 == Accepted(id) then [Transition(Created, Ready, now)] else []
    case Retry(k, now) => if k == id && Retried(s, k, now).1 == Requeued then [Transition(Failed, Ready, now)] else []
    case Cancel(k, now) => if k == id && IsOpen(s, id) then [Transition(s.recs[id].state, Cancelled, now)] else []
    case Close(now) => if !s.closed && IsOpen(s, id) then [Transition(s.recs[id].state, Cancelled, now)] else []
    case Dequeue(w) => []
    case Begin(w, now) =>
      if Executes(s, w, id, Ready) && !s.slots[w].exec.cancelled then [Transition(Ready, Running, now)] else []
    case CallBegin(w, now) => if Executes(s, w, id, Running) then [Transition(Running, Waiting, now)] else []
    case CallEnd(w, ok, now) => if Executes(s, w, id, Waiting) then [Transition(Waiting, Running, now)] else []
    case End(w, outcome, now) =>
      if Executes(s, w, id, Running) then [Transition(Running, FinalState(outcome), now)] else []
    case Resume(w) => []
  }

  /** All entries a history adds to the log of run id. */
  function EntriesOf(s: State, steps: seq<Step>, id: RunId): seq<Transition>
    requires WellFormed(s) && Possible(s, steps)
    decreases |steps|
  {
    if steps == [] then [] else NewEntries(s, steps[0], id) + EntriesOf(Next(s, steps[0]), steps[1..], id)
  }

  lemma {:induction false} CountEntries(log: seq<Transition>, more: seq<Transition>, source: RunState, target: RunState)
    ensures CountEdge(log + more, source, target) == CountEdge(log, source, target) + CountEdge(more, source, target)
  {
    if more == [] {
      assert log + more == log;
    } else {
      var n := |more| - 1;
      assert (log + more)[..|log + more| - 1] == log + more[..n];
      CountEntries(log, more[..n], source, target);
    }
  }

  lemma OneEntry(log: seq<Transition>, source: RunState, target: RunState)
    requires |log| == 1
    ensures CountEdge(log, source, target) == One(log[0].from == source && log[0].to == target)
  {
    assert log[..0] == [];
  }

  ghost predicate LogsSame(a: seq<Run>, b: seq<Run>) {
    forall k: RunId :: LogOf(b, k) == LogOf(a, k)
  }

  /** One entry more in the log of run id, and no other change. */
  ghost predicate LogGrows(a: seq<Run>, b: seq<Run>, id: RunId, t: Transition) {
    forall k: RunId :: LogOf(b, k) == if k == id then LogOf(a, k) + [t] else LogOf(a, k)
  }

  // ---------------------------------------------------------------------
  // Single writes
  // ---------------------------------------------------------------------

  lemma NothingWritten(recs: seq<Run>)
    ensures LogsSame(recs, recs)
  {
  }

  lemma WriteLog(recs: seq<Run>, id: RunId, run: Run)
    requires id < |recs| && run.transitions == recs[id].transitions
    ensures LogsSame(recs, recs[id := run])
  {
  }

  lemma MoveLog(recs: seq<Run>, id: RunId, run: Run, t: Transition)
    requires id < |recs| && run.transitions == recs[id].transitions + [t]
    ensures LogGrows(recs, recs[id := run], id, t)
  {
  }

  lemma AppliedLog(r: Run, target: RunState, now: real)
    ensures Applied(r, target, now).transitions == r.transitions + [Transition(r.state, target, now)]
    ensures Applied(r, target, now).state == target
  {
  }

  lemma MovedLog(s: State, id: RunId, target: RunState, now: real)
    requires WellFormed(s) && id < |s.recs|
    ensures LogGrows(s.recs, Moved(s, id, target, now).recs, id, Transition(s.recs[id].state, target, now))
  {
    hide Bumped, SameSetup, LogGrows, Applied;
    AppliedLog(s.recs[id], target, now);
    MoveLog(s.recs, id, Applied(s.recs[id], target, now), Transition(s.recs[id].state, target, now));
  }

  // ---------------------------------------------------------------------
  // Steps
  // ---------------------------------------------------------------------

  lemma AdmittedLog(s: State, q: Request, now: real)
    requires WellFormed(s)
    ensures LogGrows(s.recs, Admitted(s, q, now).recs, |s.recs|, Transition(Created, Ready, now))
  {
    hide Bumped, SameSetup, Applied;
    AppliedLog(NewRun(q.input, q.kind, SessionOf(q), now), Ready, now);
  }

  lemma AdmitUnlessFullLog(s: State, q: Request, now: real, k: RunId)
    requires WellFormed(s)
    ensures var (r, reply) := AdmitUnlessFull(s, q, now);
      LogOf(r.recs, k) == if reply == Accepted(k) then LogOf(s.recs, k) + [Transition(Created, Ready, now)]
                          else LogOf(s.recs, k)
  {
    hide Admitted, SameSetup, LogOf;
    AdmittedLog(s, q, now);
  }

  lemma LookedLog(s: State, q: Request, now: real, k: RunId)
    requires WellFormed(s)
    ensures var (r, reply) := Looked(s, q, now);
      LogOf(r.recs, k) == if reply == Accepted(k) then LogOf(s.recs, k) + [Transition(Created, Ready, now)]
                          else LogOf(s.recs, k)
  {
    hide AdmitUnlessFull, SameSetup, LogOf;
    AdmitUnlessFullLog(s, q, now, k);
    if q.key.Some? {
      AdmitUnlessFullLog(s.(index := s.index - {q.key.value}), q, now, k);
    }
  }

  lemma SubmittedLog(s: State, q: Request, now: real, k: RunId)
    requires WellFormed(s)
    ensures var (r, reply) := Submitted(s, q, now);
      LogOf(r.recs, k) == if reply == Accepted(k) then LogOf(s.recs, k) + [Transition(Created, Ready, now)]
                          else LogOf(s.recs, k)
  {
    hide Looked, CleanedUp, SameSetup, LogOf;
    EvictKeepsRecs(StartWorkers(s), 1, now);
    LookedLog(CleanedUp(StartWorkers(s), 1, now), q, now, k);
  }

  lemma RequeuedLog(s: State, id: RunId, now: real)
    requires WellFormed(s) && id < |s.recs|
    ensures LogGrows(s.recs, RequeuedRun(s, id, now).recs, id, Transition(s.recs[id].state, Ready, now))
  {
    hide Bumped, SameSetup, SameRegistry, Applied, LogGrows, IdsKnown;
    var run := Applied(s.recs[id], Ready, now);
    AppliedLog(s.recs[id], Ready, now);
    MoveLog(s.recs, id, Reset(run), Transition(s.recs[id].state, Ready, now));
    assert s.recs[id := run][id := Reset(run)] == s.recs[id := Reset(run)];
  }

  lemma RetriedLog(s: State, id: RunId, now: real, k: RunId)
    requires Inv(s) && WellFormed(s)
    ensures LogOf(Retried(s, id, now).0.recs, k) == LogOf(s.recs, k) + NewEntries(s, Retry(id, now), k)
  {
    hide Inv, RequeuedRun, SameSetup, SameRegistry, LogOf;
    if id in s.runs {
      NotCreated(s, id);
      RequeuedLog(s, id, now);
    }
  }

  lemma CancelledRunLog(s: State, id: RunId, now: real)
    requires WellFormed(s) && id < |s.recs|
    ensures LogGrows(s.recs, CancelledRun(s, id, now).recs, id, Transition(s.recs[id].state, Cancelled, now))
  {
    hide Moved, LogGrows;
    MovedLog(s, id, Cancelled, now);
  }

  lemma CancelLog(s: State, id: RunId, now: real, k: RunId)
    requires WellFormed(s)
    ensures LogOf(CancelAnswer(s, id, now).0.recs, k) == LogOf(s.recs, k) + NewEntries(s, Cancel(id, now), k)
  {
    hide CancelledRun, SameSetup, LogOf;
    if id in s.runs && !Terminal(s.recs[id].state) {
      var m := CancelRequested(s, id);
      WriteLog(s.recs, id, m.recs[id]);
      CancelledRunLog(m, id, now);
    }
  }

  lemma {:induction false} CancelledBelowLog(s: State, n: nat, now: real, k: RunId)
    requires WellFormed(s) && n <= |s.recs|
    ensures LogOf(CancelledBelow(s, n, now).recs, k)
            == if k < n && IsOpen(s, k) then LogOf(s.recs, k) + [Transition(s.recs[k].state, Cancelled, now)]
               else LogOf(s.recs, k)
  {
    hide CancelledRun, SameSetup, LogOf;
    if n > 0 {
      CancelledBelowLog(s, n - 1, now, k);
      var c := CancelledBelow(s, n - 1, now);
      assert c.recs[n - 1] == s.recs[n - 1];
      CancelledRunLog(c, n - 1, now);
    }
  }

  lemma ClosedLog(s: State, now: real, k: RunId)
    requires WellFormed(s)
    ensures LogOf(Closed(s, now).recs, k) == LogOf(s.recs, k) + NewEntries(s, Close(now), k)
  {
    hide CancelledBelow, SameSetup, LogOf;
    CancelledBelowLog(s.(closed := true), |s.recs|, now, k);
  }

  lemma WrittenLog(r: Run, outcome: Outcome)
    ensures Written(r, outcome).transitions == r.transitions && Written(r, outcome).state == r.state
  {
  }

  lemma SettledLog(s: State, id: RunId, outcome: Outcome, now: real)
    requires WellFormed(s) && id < |s.recs|
    requires s.recs[id].state == Running || s.recs[id].state == Cancelled
    ensures s.recs[id].state == Cancelled ==> LogsSame(s.recs, Settled(s, id, outcome, now).recs)
    ensures s.recs[id].state == Running ==>
      LogGrows(s.recs, Settled(s, id, outcome, now).recs, id, Transition(Running, FinalState(outcome), now))
  {
    hide Bumped, SameSetup, WellFormed, Written, Applied, LogsSame, LogGrows;
    var run := Written(s.recs[id], outcome);
    WrittenLog(s.recs[id], outcome);
    if s.recs[id].state == Running {
      AppliedLog(run, FinalState(outcome), now);
      MoveLog(s.recs, id, Applied(run, FinalState(outcome), now), Transition(Running, FinalState(outcome), now));
    } else {
      WriteLog(s.recs, id, run);
    }
  }

  lemma EndedLog(s: State, w: nat, outcome: Outcome, now: real, k: RunId)
    requires Inv(s) && WellFormed(s) && HasRun(s, w)
    requires s.slots[w].exec.Active? && !s.slots[w].exec.inCall
    ensures LogOf(Ended(s, w, outcome, now).recs, k) == LogOf(s.recs, k) + NewEntries(s, End(w, outcome, now), k)
    ensures s.recs[s.slots[w].run].state == Cancelled ==>
      LogOf(Ended(s, w, outcome, now).recs, k) == LogOf(s.recs, k)
  {
    hide Inv, Settled, SameSetup, LogOf;
    PhaseOfHolder(s, w);
    SettledLog(s, s.slots[w].run, outcome, now);
  }

  lemma BegunLog(s: State, w: nat, now: real, k: RunId)
    requires Inv(s) && WellFormed(s) && HasRun(s, w) && s.slots[w].exec.Pending?
    ensures LogOf(Begun(s, w, now).recs, k) == LogOf(s.recs, k) + NewEntries(s, Begin(w, now), k)
  {
    hide Inv, Ended, Moved, SameSetup, LogOf;
    PhaseOfHolder(s, w);
    MovedLog(s.(active := s.active + 1), s.slots[w].run, Running, now);
  }

  lemma CallBegunLog(s: State, w: nat, now: real, k: RunId)
    requires Inv(s) && WellFormed(s) && HasRun(s, w)
    requires s.slots[w].exec.Active? && !s.slots[w].exec.inCall && s.slots[w].exec.budget > 0
    ensures LogOf(CallBegun(s, w, now).recs, k) == LogOf(s.recs, k) + NewEntries(s, CallBegin(w, now), k)
  {
    hide Inv, Ended, Moved, SameSetup, LogOf;
    PhaseOfHolder(s, w);
    MovedLog(s, s.slots[w].run, Waiting, now);
    EndedLog(s, w, ILLEGAL, now, k);
  }

  lemma CallEndedLog(s: State, w: nat, ok: bool, now: real, k: RunId)
    requires WellFormed(s) && HasRun(s, w) && s.slots[w].exec.Active?
    ensures LogOf(CallEnded(s, w, ok, now).recs, k)
            == if Executes(s, w, k, Waiting) then LogOf(s.recs, k) + [Transition(Waiting, Running, now)]
               else LogOf(s.recs, k)
  {
    hide Moved, SameSetup, LogOf;
    var id := s.slots[w].run;
    var m := WithStep(s, id, ok);
    NothingWritten(s.recs);
    WriteLog(s.recs, id, s.recs[id].(steps := s.recs[id].steps + 1));
    MovedLog(m, id, Running, now);
  }

  /** A step adds exactly its entries to the log of every run. */
  lemma LogStep(s: State, step: Step, k: RunId)
    requires Inv(s) && WellFormed(s) && Enabled(s, step)
    ensures LogOf(Next(s, step).recs, k) == LogOf(s.recs, k) + NewEntries(s, step, k)
  {
    hide Inv, LogOf, Submitted, Retried, CancelAnswer, Closed, Begun, CallBegun, CallEnded, Ended, SameSetup;
    match step
    case Submit(q, now) => SubmittedLog(s, q, now, k);
    case Retry(id, now) => RetriedLog(s, id, now, k);
    case Cancel(id, now) => CancelLog(s, id, now, k);
    case Close(now) => ClosedLog(s, now, k);
    case Dequeue(w) =>
    case Begin(w, now) => BegunLog(s, w, now, k);
    case CallBegin(w, now) => CallBegunLog(s, w, now, k);
    case CallEnd(w, ok, now) => CallEndedLog(s, w, ok, now, k);
    case End(w, outcome, now) => EndedLog(s, w, outcome, now, k);
    case Resume(w) =>
  }

  lemma {:induction false} AfterLog(s: State, steps: seq<Step>, k: RunId)
    requires Inv(s) && WellFormed(s) && Possible(s, steps)
    ensures LogOf(After(s, steps).recs, k) == LogOf(s.recs, k) + EntriesOf(s, steps, k)
    decreases |steps|
  {
    hide Inv, Next, LogOf, NewEntries;
    if steps != [] {
      LogStep(s, steps[0], k);
      NextKeepsInv(s, steps[0]);
      AfterLog(Next(s, steps[0]), steps[1..], k);
      assert (LogOf(s.recs, k) + NewEntries(s, steps[0], k)) + EntriesOf(Next(s, steps[0]), steps[1..], k)
             == LogOf(s.recs, k) + EntriesOf(s, steps, k);
    }
  }

  /** In every reachable state the log of every run is what the history added to it, entry by entry. */
  lemma LogIsTheHistory(config: Config, capacity: nat, steps: seq<Step>, id: RunId)
    requires Reaches(config, capacity, steps)
    ensures LogOf(StateAfter(config, capacity, steps).recs, id) == EntriesOf(Init(config, capacity), steps, id)
  {
    hide Inv, After, Possible, EntriesOf;
    InitInv(config, capacity);
    AfterLog(Init(config, capacity), steps, id);
    assert LogOf(Init(config, capacity).recs, id) == [];
  }
}
