/**
 Exactly which steps cost a worker. A worker is lost when its task is cancelled before the task's
 first step, when the run of its live task is evicted, and when the runtime is closed.
 */
module WorkerLoss {
  import opened Common
  import opened Lifecycle
  import opened Eviction
  import opened Scheduler
  import opened Ownership
  import opened SchedulerInvariant
  import opened Guarantees
  import opened Quiescence

  /** The worker will be back in its loop once its task, if it has one, is over. */
  predicate Intact(runs: set<RunId>, slot: Slot) {
    match slot
    case Idle => true
    case Dead => false
    case Busy(_, Over(crashed), _) => !crashed
    case Busy(run, Active(_, _), orphan) => !orphan && run in runs
    case Busy(run, Pending(cancelled), orphan) => !orphan && !cancelled && run in runs
  }

  function Broken(runs: set<RunId>, slots: seq<Slot>): set<nat> {
    set w: nat | w < |slots| && !Intact(runs, slots[w])
  }

  /** Workers whose live task holds one of these runs. */
  function HoldersOf(slots: seq<Slot>, ids: set<RunId>): set<nat> {
    set w: nat | w < |slots| && Live(slots[w]) && slots[w].run in ids
  }

  predicate IsWorker(slots: seq<Slot>, w: nat) {
    w < |slots|
  }

  function Workers(slots: seq<Slot>): set<nat> {
    set w: nat | w < |slots| && IsWorker(slots, w)
  }

  /** A submission gets as far as the eviction. */
  predicate CleansUp(s: State, q: Request) {
    q.input != "" && !s.closed && !BadRequestKey(q.key)
  }

  /** The worker `cancel` dooms: the one whose task for the run has not started yet. */
  function DoomedByCancel(s: State, id: RunId): set<nat> {
    if && id in s.runs && IsUnfinished(s.recs, id)
       && id in s.tasks && s.tasks[id] < |s.slots|
       && s.slots[s.tasks[id]].Busy? && s.slots[s.tasks[id]].exec == Pending(false)
    then {s.tasks[id]} else {}
  }

  /** The workers a step dooms, told from the state before the step. */
  function Doomed(s: State, step: Step): set<nat> {
    match step
    case Cancel(id, _) => DoomedByCancel(s, id)
    case Submit(q, now) =>
      if CleansUp(s, q)
      then HoldersOf(s.slots, Victims(s.recs, s.runs, now - s.config.retention, 1, s.config.maxRunRecords))
      else {}
    case Close(_) => if s.closed then {} else Workers(s.slots)
    case _ => {}
  }

  /** The workers doomed by any of the steps. */
  function AllDoomed(s: State, steps: seq<Step>): set<nat>
    requires WellFormed(s) && Possible(s, steps)
    decreases |steps|
  {
    if steps == [] then {} else Doomed(s, steps[0]) + AllDoomed(Next(s, steps[0]), steps[1..])
  }

  // ---------------------------------------------------------------------
  // One step
  // ---------------------------------------------------------------------

  /** Only worker w changes, and stays as intact as it was. */
  lemma SameBroken(runs: set<RunId>, slots: seq<Slot>, w: nat, slot: Slot)
    requires w < |slots| && (Intact(runs, slot) <==> Intact(runs, slots[w]))
    ensures Broken(runs, slots[w := slot]) == Broken(runs, slots)
  {
  }

  /** The end of a task tells its worker of a crash exactly when the run has been evicted. */
  lemma FinalizedIntact(s: State, m: State, w: nat)
    requires WellFormed(m) && HasRun(m, w)
    requires m.slots == s.slots && m.runs == s.runs && m.events.Keys == s.runs
    requires Live(s.slots[w]) && s.slots[w].exec != Pending(true)
    requires Terminal(m.recs[s.slots[w].run].state)
    ensures var r := Finalized(m, w);
      r.runs == s.runs && Broken(r.runs, r.slots) == Broken(s.runs, s.slots)
  {
    hide WellFormed, SameSetup;
    var r := Finalized(m, w);
    assert r.slots == s.slots[w := r.slots[w]];
    SameBroken(s.runs, s.slots, w, r.slots[w]);
  }

  lemma EndIntact(s: State, w: nat, outcome: Outcome, now: real)
    requires Inv(s) && WellFormed(s) && HasRun(s, w)
    requires s.slots[w].exec.Active? && !s.slots[w].exec.inCall
    ensures var r := Ended(s, w, outcome, now); Broken(r.runs, r.slots) == Broken(s.runs, s.slots)
  {
    hide Inv, Settled, Finalized, SameSetup, Sound;
    var id := s.slots[w].run;
    EventsAreRuns(s);
    InvSound(s, w);
    HeldIsRegistered(s, w);
    SettledStep(s, id, outcome, now);
    FinalizedIntact(s, Settled(s, id, outcome, now), w);
  }

  lemma BeginIntact(s: State, w: nat, now: real)
    requires Inv(s) && WellFormed(s) && HasRun(s, w) && s.slots[w].exec.Pending?
    ensures var r := Begun(s, w, now); Broken(r.runs, r.slots) == Broken(s.runs, s.slots)
  {
    hide Inv, Finalized, Ended, Moved, SameSetup;
    var r := Begun(s, w, now);
    HeldIsRegistered(s, w);
    EventsAreRuns(s);
    if s.slots[w].exec.cancelled {
      SameBroken(s.runs, s.slots, w, r.slots[w]);
    } else if s.recs[s.slots[w].run].state == Cancelled {
      FinalizedIntact(s, s.(active := s.active + 1), w);
    } else {
      MovedFrame(s.(active := s.active + 1), s.slots[w].run, Running, now);
      SameBroken(s.runs, s.slots, w, r.slots[w]);
    }
  }

  lemma CallBeginIntact(s: State, w: nat, now: real)
    requires Inv(s) && WellFormed(s) && HasRun(s, w)
    requires s.slots[w].exec.Active? && !s.slots[w].exec.inCall && s.slots[w].exec.budget > 0
    ensures var r := CallBegun(s, w, now); Broken(r.runs, r.slots) == Broken(s.runs, s.slots)
  {
    hide Inv, Ended, Moved, SameSetup;
    EndIntact(s, w, ILLEGAL, now);
    MovedFrame(s, s.slots[w].run, Waiting, now);
    SameBroken(s.runs, s.slots, w, s.slots[w].(exec := Active(true, s.slots[w].exec.budget - 1)));
  }

  lemma CallEndIntact(s: State, w: nat, ok: bool, now: real)
    requires WellFormed(s) && HasRun(s, w) && s.slots[w].exec.Active?
    ensures var r := CallEnded(s, w, ok, now); Broken(r.runs, r.slots) == Broken(s.runs, s.slots)
  {
    hide BackToRunning, SameSetup;
    SameBroken(s.runs, s.slots, w, s.slots[w].(exec := Active(false, s.slots[w].exec.budget)));
  }

  lemma DequeueIntact(s: State, w: nat)
    requires WellFormed(s) && w < |s.slots| && s.slots[w].Idle? && s.queue != []
    ensures var r := Dequeued(s, w); Broken(r.runs, r.slots) == Broken(s.runs, s.slots)
  {
    var id := s.queue[0];
    if id in s.runs {
      SameBroken(s.runs, s.slots, w, Busy(id, Pending(false), false));
    }
  }

  lemma ResumeIntact(s: State, w: nat)
    requires WellFormed(s) && HasRun(s, w) && s.slots[w].exec.Over?
    ensures var r := Resumed(s, w); Broken(r.runs, r.slots) == Broken(s.runs, s.slots)
  {
    SameBroken(s.runs, s.slots, w, if s.slots[w].exec.crashed then Dead else Idle);
  }

  /** Cancelling a task breaks its worker exactly when the task has not started. */
  lemma CancelBreaks(s: State, id: RunId, now: real)
    requires Inv(s) && WellFormed(s)
    ensures var r := CancelAnswer(s, id, now).0;
      Broken(r.runs, r.slots) == Broken(s.runs, s.slots) + DoomedByCancel(s, id)
  {
    hide Inv, CancelAnswer, SameSetup;
    CancelFrame(s, id, now);
    if id in s.runs && !Terminal(s.recs[id].state) && id in s.tasks {
      HandleIsTask(s, id);
      var w, slots := s.tasks[id], s.slots;
      if slots[w].exec.Pending? {
        PendingIsReady(s, w);
        assert Broken(s.runs, slots[w := CancelTask(slots[w])]) == Broken(s.runs, slots) + {w};
      } else {
        assert slots[w := CancelTask(slots[w])] == slots;
      }
    }
  }

  lemma HandleIsTask(s: State, id: RunId)
    requires Inv(s) && id in s.tasks
    ensures s.tasks[id] < |s.slots| && s.slots[s.tasks[id]].Busy? && s.slots[s.tasks[id]].run == id
  {
  }

  /** A task that has not started and whose run is unfinished has not been cancelled. */
  lemma PendingIsReady(s: State, w: nat)
    requires Inv(s) && w < |s.slots| && s.slots[w].Busy? && s.slots[w].exec.Pending?
    ensures s.slots[w].run < |s.recs|
    ensures !Terminal(s.recs[s.slots[w].run].state) ==> s.slots[w].exec == Pending(false)
  {
    hide Recorded, KeysInverse, Balanced, HandlesExact;
  }

  lemma CloseBreaks(s: State, now: real)
    requires WellFormed(s)
    ensures var r := Closed(s, now);
      Broken(r.runs, r.slots) == Broken(s.runs, s.slots) + Doomed(s, Close(now))
  {
    hide CancelledBelow, SameSetup;
    if !s.closed {
      var r := Closed(s, now);
      assert forall w :: 0 <= w < |r.slots| ==> !Intact(r.runs, r.slots[w]);
    }
  }

  /** Eviction breaks the workers whose live task holds an evicted run. */
  lemma EvictionBreaks(runs: set<RunId>, slots: seq<Slot>, gone: set<RunId>)
    ensures Broken(runs - gone, slots) == Broken(runs, slots) + HoldersOf(slots, gone)
  {
  }

  /** A fresh run is held by no task yet. */
  lemma FreshRunBreaksNothing(runs: set<RunId>, slots: seq<Slot>, id: RunId)
    requires forall w :: 0 <= w < |slots| && slots[w].Busy? ==> slots[w].run < id
    ensures Broken(runs + {id}, slots) == Broken(runs, slots)
  {
  }

  lemma LookedIntact(s: State, q: Request, now: real)
    requires WellFormed(s)
    ensures var r := Looked(s, q, now).0; Broken(r.runs, r.slots) == Broken(s.runs, s.slots)
  {
    hide Looked, Broken;
    LookedFrame(s, q, now);
    FreshRunBreaksNothing(s.runs, s.slots, |s.recs|);
  }

  lemma StartIntact(s: State)
    requires Inv(s) && WellFormed(s)
    ensures var r := StartWorkers(s); r.runs == s.runs && r.recs == s.recs
    ensures var r := StartWorkers(s);
      && Broken(r.runs, r.slots) == Broken(s.runs, s.slots)
      && forall gone :: HoldersOf(r.slots, gone) == HoldersOf(s.slots, gone)
  {
    hide Owned, Recorded, KeysInverse, Balanced, HandlesExact;
  }

  lemma SubmitBreaks(s: State, q: Request, now: real)
    requires Inv(s) && WellFormed(s)
    ensures var r := Submitted(s, q, now).0;
      Broken(r.runs, r.slots) == Broken(s.runs, s.slots) + Doomed(s, Submit(q, now))
  {
    hide Inv, Looked, Victims, KeysOf, SameSetup, Broken, HoldersOf;
    StartIntact(s);
    var t := StartWorkers(s);
    var gone := Victims(t.recs, t.runs, now - t.config.retention, 1, t.config.maxRunRecords);
    EvictionBreaks(t.runs, t.slots, gone);
    LookedIntact(CleanedUp(t, 1, now), q, now);
  }

  /** A step breaks exactly the workers it dooms, and no step mends one. */
  lemma StepBreaks(s: State, step: Step)
    requires Inv(s) && WellFormed(s) && Enabled(s, step)
    ensures var r := Next(s, step);
      Broken(r.runs, r.slots) == Broken(s.runs, s.slots) + Doomed(s, step)
  {
    hide Inv, Broken, HoldersOf, Victims, DoomedByCancel, Submitted, Retried, CancelAnswer, Closed, Dequeued,
         Begun, CallBegun, CallEnded, Ended, Resumed, SameSetup;
    match step
    case Submit(q, now) => SubmitBreaks(s, q, now);
    case Retry(id, now) => RetryFrame(s, id, now);
    case Cancel(id, now) => CancelBreaks(s, id, now);
    case Close(now) => CloseBreaks(s, now);
    case Dequeue(w) => DequeueIntact(s, w);
    case Begin(w, now) => BeginIntact(s, w, now);
    case CallBegin(w, now) => CallBeginIntact(s, w, now);
    case CallEnd(w, ok, now) => CallEndIntact(s, w, ok, now);
    case End(w, outcome, now) => EndIntact(s, w, outcome, now);
    case Resume(w) => ResumeIntact(s, w);
  }

  lemma {:induction false} StepsBreak(s: State, steps: seq<Step>)
    requires Inv(s) && WellFormed(s) && Possible(s, steps)
    ensures var r := After(s, steps);
      Broken(r.runs, r.slots) == Broken(s.runs, s.slots) + AllDoomed(s, steps)
    decreases |steps|
  {
    hide Inv, Next, Broken, Doomed;
    if steps != [] {
      StepBreaks(s, steps[0]);
      NextKeepsInv(s, steps[0]);
      StepsBreak(Next(s, steps[0]), steps[1..]);
    }
  }

  // ---------------------------------------------------------------------
  // Every run of the system
  // ---------------------------------------------------------------------

  /** In every reachable state the broken workers are exactly those some step has doomed. */
  lemma WorkersLostExactly(config: Config, capacity: nat, steps: seq<Step>)
    requires Reaches(config, capacity, steps)
    ensures var s := StateAfter(config, capacity, steps);
      Broken(s.runs, s.slots) == AllDoomed(Init(config, capacity), steps)
  {
    hide Inv, After, Possible, Broken, AllDoomed;
    InitInv(config, capacity);
    StepsBreak(Init(config, capacity), steps);
    NoWorkersYet(config, capacity);
  }

  lemma NoWorkersYet(config: Config, capacity: nat)
    ensures Broken(Init(config, capacity).runs, Init(config, capacity).slots) == {}
  {
  }

  /** No worker is ever doomed exactly when no single step dooms one. */
  lemma {:induction false} NoneDoomed(s: State, steps: seq<Step>)
    requires WellFormed(s) && Possible(s, steps)
    ensures AllDoomed(s, steps) == {} <==>
      forall a, b, step :: steps == a + [step] + b && Possible(s, a) ==> Doomed(After(s, a), step) == {}
    decreases |steps|
  {
    hide Next, Enabled, Doomed;
    if steps != [] {
      var first, rest, m := steps[0], steps[1..], Next(s, steps[0]);
      NoneDoomed(m, rest);
      if AllDoomed(s, steps) == {} {
        forall a, b, step | steps == a + [step] + b && Possible(s, a) ensures Doomed(After(s, a), step) == {} {
          if a != [] {
            assert rest == a[1..] + [step] + b && a[0] == first;
          }
        }
      } else if Doomed(s, first) != {} {
        assert steps == [] + [first] + rest;
      } else {
        var a, b, step :| rest == a + [step] + b && Possible(m, a) && Doomed(After(m, a), step) != {};
        assert ([first] + a)[1..] == a;
        assert steps == ([first] + a) + [step] + b;
      }
    }
  }

  /**
   At rest a worker is idle exactly when no step has doomed it, and every run ever accepted has
   finished exactly when such a worker is left or no Ready run is queued.
   */
  lemma RestExactly(config: Config, capacity: nat, steps: seq<Step>)
    requires Reaches(config, capacity, steps) && AtRest(StateAfter(config, capacity, steps))
    ensures var s, doomed := StateAfter(config, capacity, steps), AllDoomed(Init(config, capacity), steps);
      && (forall w: nat :: w < |s.slots| ==> (s.slots[w].Idle? <==> w !in doomed))
      && ((forall id :: 0 <= id < |s.recs| ==> Terminal(s.recs[id].state)) <==>
            || (exists w: nat :: w < |s.slots| && w !in doomed)
            || (forall i :: 0 <= i < |s.queue| ==> s.recs[s.queue[i]].state != Ready))
  {
    hide Inv, AtRest, After, Possible, AllDoomed;
    var s, doomed := StateAfter(config, capacity, steps), AllDoomed(Init(config, capacity), steps);
    WorkersLostExactly(config, capacity, steps);
    ReachableInv(config, capacity, steps);
    RestingSlots(s);
    forall w: nat | w < |s.slots| ensures s.slots[w].Idle? <==> w !in doomed {
      assert w in Broken(s.runs, s.slots) <==> !Intact(s.runs, s.slots[w]);
    }
    if w: nat :| w < |s.slots| && w !in doomed {
      assert WorkerLeft(s);
      RestMeansFinished(s);
    } else {
      forall id | 0 <= id < |s.recs|
        ensures !Terminal(s.recs[id].state) <==> id in s.queue && s.recs[id].state == Ready
      {
        RestWithoutWorkers(s, id);
      }
    }
  }

  // ---------------------------------------------------------------------
  // A worker lost to an eviction
  // ---------------------------------------------------------------------

  /** The only run was cancelled inside its pattern, and its task has not noticed yet. */
  ghost predicate Unwinding(s: State) {
    && WellFormed(s) && s.config == SMALL && s.capacity == 1 && s.started && !s.closed
    && |s.recs| == 1 && s.runs == {0} && s.recs[0].state == Cancelled
    && s.recs[0].finishedAt == Some(0.0) && s.recs[0].updatedAt == 0.0
    && s.queue == [] && s.slots == [Busy(0, Active(false, 1), false)]
    && s.index == map[] && s.byRun == map[]
  }

  /** Its run has been evicted by a later submission. */
  ghost predicate Orphaned(s: State) {
    && WellFormed(s) && |s.recs| == 2 && s.recs[0].state == Cancelled && s.recs[1].state == Ready
    && s.runs == {1} && 0 !in s.events && s.queue == [1]
    && s.slots == [Busy(0, Active(false, 1), false)]
  }

  lemma BegunByWorker(s: State)
    requires Taken(s, Pending(false), Ready)
    ensures Enabled(s, Begin(0, 0.0)) && Taken(Next(s, Begin(0, 0.0)), Active(false, 1), Running)
  {
    hide Bumped, SameSetup;
  }

  lemma CancelledInside(s: State)
    requires Taken(s, Active(false, 1), Running)
    ensures Enabled(s, Cancel(0, 0.0)) && Unwinding(Next(s, Cancel(0, 0.0)))
    ensures Doomed(s, Cancel(0, 0.0)) == {}
  {
    hide Bumped, SameSetup;
  }

  /** A run of the system up to there; no step in it dooms a worker. */
  lemma UnwindingReached() returns (steps: seq<Step>)
    ensures Reaches(SMALL, 1, steps) && Unwinding(StateAfter(SMALL, 1, steps))
    ensures AllDoomed(Init(SMALL, 1), steps) == {}
  {
    hide Next, Enabled, OneReady, Taken, Unwinding, DoomedByCancel;
    var i := Init(SMALL, 1);
    SubmitIsEnabled(i, PLAIN, 0.0);
    FirstSubmission();
    var a := Next(i, Submit(PLAIN, 0.0));
    OneReadyFacts(a);
    TakenByWorker(a);
    var b := Next(a, Dequeue(0));
    BegunByWorker(b);
    var c := Next(b, Begin(0, 0.0));
    CancelledInside(c);
    NobodyToDoom(Submit(PLAIN, 0.0));
    LastStep(c, Cancel(0, 0.0));
    MoreSteps(b, Begin(0, 0.0), [Cancel(0, 0.0)]);
    MoreSteps(a, Dequeue(0), [Begin(0, 0.0), Cancel(0, 0.0)]);
    MoreSteps(i, Submit(PLAIN, 0.0), [Dequeue(0), Begin(0, 0.0), Cancel(0, 0.0)]);
    steps := [Submit(PLAIN, 0.0), Dequeue(0), Begin(0, 0.0), Cancel(0, 0.0)];
  }

  lemma OneReadyFacts(s: State)
    requires OneReady(s)
    ensures WellFormed(s)
  {
  }

  lemma SubmitIsEnabled(s: State, q: Request, now: real)
    ensures Enabled(s, Submit(q, now))
  {
  }

  lemma NobodyToDoom(step: Step)
    requires step.Submit?
    ensures Doomed(Init(SMALL, 1), step) == {}
  {
  }

  lemma LastStep(s: State, step: Step)
    requires WellFormed(s) && Enabled(s, step)
    ensures Possible(s, [step]) && After(s, [step]) == Next(s, step) && AllDoomed(s, [step]) == Doomed(s, step)
  {
    hide Next, Enabled, Doomed;
    assert [step][1..] == [];
  }

  lemma MoreSteps(s: State, step: Step, rest: seq<Step>)
    requires WellFormed(s) && Enabled(s, step) && Possible(Next(s, step), rest)
    ensures Possible(s, [step] + rest) && After(s, [step] + rest) == After(Next(s, step), rest)
    ensures AllDoomed(s, [step] + rest) == Doomed(s, step) + AllDoomed(Next(s, step), rest)
  {
    hide Next, Enabled, Doomed;
    assert ([step] + rest)[1..] == rest;
  }

  lemma VictimIsZero(s: State)
    requires Unwinding(s)
    ensures Victims(s.recs, s.runs, 1.0, 1, 2) == {0}
  {
    hide Victims;
    EvictionExact(s.recs, s.runs, 1.0, 1, 2);
    var gone := Victims(s.recs, s.runs, 1.0, 1, 2);
    assert IsTerminalRun(s.recs, s.runs, 0) && 0 in Expired(s.recs, s.runs, 1.0);
    assert forall id: RunId :: id in gone ==> IsTerminalRun(s.recs, s.runs, id);
  }

  lemma EvictedZero(s: State)
    requires Unwinding(s)
    ensures var c := Evict(s, {0});
      Orphaned(Admitted(c, PLAIN, 2.0)) && CleanedUp(s, 1, 2.0) == c
  {
    hide Victims, Bumped, SameSetup;
    VictimIsZero(s);
  }

  /** A submission two seconds later finds the cancelled run expired and evicts it. */
  lemma SubmissionEvicts(s: State)
    requires Unwinding(s)
    ensures Orphaned(Next(s, Submit(PLAIN, 2.0)))
    ensures Doomed(s, Submit(PLAIN, 2.0)) == {0}
  {
    hide Victims, CleanedUp, Admitted, Orphaned, SameSetup;
    VictimIsZero(s);
    EvictedZero(s);
    assert Next(s, Submit(PLAIN, 2.0)) == Admitted(CleanedUp(s, 1, 2.0), PLAIN, 2.0);
  }

  /** The task ends, misses its event, and takes the worker with it. */
  lemma OrphanedStrands(s: State)
    requires Orphaned(s)
    ensures var steps := [End(0, TaskCancelled, 2.0), Resume(0)];
      Possible(s, steps) && Stranded(After(s, steps)) && AllDoomed(s, steps) == {}
  {
    hide Bumped, SameSetup, AllDoomed;
    var a := Next(s, End(0, TaskCancelled, 2.0));
    assert a.slots == [Busy(0, Over(true), false)] && a.queue == [1] && a.runs == {1} && |a.recs| == 2;
    LastStep(a, Resume(0));
    MoreSteps(s, End(0, TaskCancelled, 2.0), [Resume(0)]);
    assert [End(0, TaskCancelled, 2.0)] + [Resume(0)] == [End(0, TaskCancelled, 2.0), Resume(0)];
  }

  /**
   The second cause: a run cancelled inside its pattern dooms no worker, but evicting it before its
   task has noticed does. The task misses its completion event, the worker dies with it, and the
   run submitted last stays Ready for ever.
   */
  lemma EvictionCanCostTheLastWorker() returns (before: seq<Step>, steps: seq<Step>)
    ensures ValidConfig(SMALL) && Reaches(SMALL, 1, steps)
    ensures Reaches(SMALL, 1, before) && AllDoomed(Init(SMALL, 1), before) == {}
    ensures steps == before + [Submit(PLAIN, 2.0), End(0, TaskCancelled, 2.0), Resume(0)]
    ensures var s := StateAfter(SMALL, 1, steps);
      AtRest(s) && 1 in s.runs && 1 < |s.recs| && s.recs[1].state == Ready
  {
    hide Next, Unwinding, Orphaned, Enabled;
    before := UnwindingReached();
    var s := StateAfter(SMALL, 1, before);
    SubmitIsEnabled(s, PLAIN, 2.0);
    SubmissionEvicts(s);
    OrphanedStrands(Next(s, Submit(PLAIN, 2.0)));
    MoreSteps(s, Submit(PLAIN, 2.0), [End(0, TaskCancelled, 2.0), Resume(0)]);
    var more := [Submit(PLAIN, 2.0), End(0, TaskCancelled, 2.0), Resume(0)];
    assert more == [Submit(PLAIN, 2.0)] + [End(0, TaskCancelled, 2.0), Resume(0)];
    AfterAppend(Init(SMALL, 1), before, more);
    steps := before + more;
    StrandedIsAtRest(StateAfter(SMALL, 1, steps));
  }
}
