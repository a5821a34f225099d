/**
 Progress of the scheduler: without further submissions or retries the workers come to
 rest after a bounded number of steps, and at rest every registered run is finished as
 long as one worker is left.
 */
module Quiescence {
  import opened Common
  import opened Lifecycle
  import opened Eviction
  import opened Scheduler
  import opened Ownership
  import opened SchedulerInvariant
  import opened Guarantees

  /** No attempt makes more calls than this. */
  function MaxBudget(config: Config): nat {
    2 * config.maxAgentSteps + 3
  }

  lemma BudgetIsBounded(kind: AgentKind, config: Config)
    ensures CallBudget(kind, config.maxAgentSteps) <= MaxBudget(config)
  {
  }

  /** Steps a slot can still take before it is idle or gone; each call costs two. */
  function Weight(slot: Slot, b: nat): int {
    match slot
    case Idle => 0
    case Dead => 0
    case Busy(_, Pending(_), _) => 2 * b + 5
    case Busy(_, Active(inCall, budget), _) => 2 * budget + (if inCall then 1 else 0) + 2
    case Busy(_, Over(_), _) => 1
  }

  function Weigher(b: nat): Slot -> int {
    (slot: Slot) => Weight(slot, b)
  }

  /** The weight of n queue entries: each may become a task and be taken from the queue first. */
  function QueueWeight(n: nat, b: nat): int {
    n * (2 * b + 6)
  }

  /** An upper bound on the steps workers, tasks and patterns can still take. */
  function Remaining(s: State): int {
    QueueWeight(|s.queue|, MaxBudget(s.config)) + SumOf(s.slots, Weigher(MaxBudget(s.config)))
  }

  lemma OneEntryLess(n: nat, b: nat)
    requires n > 0
    ensures QueueWeight(n, b) == QueueWeight(n - 1, b) + 2 * b + 6
  {
  }

  lemma QueueWeightIsNatural(n: nat, b: nat)
    ensures QueueWeight(n, b) >= 0
  {
  }

  lemma {:induction false} RemainingIsNatural(slots: seq<Slot>, b: nat)
    ensures SumOf(slots, Weigher(b)) >= 0
  {
    if slots != [] {
      RemainingIsNatural(slots[..|slots| - 1], b);
    }
  }

  /** A step of worker w that leaves the queue alone makes its slot lighter. */
  lemma LighterSlot(s: State, r: State, w: nat, slot: Slot)
    requires w < |s.slots| && r.slots == s.slots[w := slot]
    requires r.queue == s.queue && r.config == s.config
    requires Weight(slot, MaxBudget(s.config)) < Weight(s.slots[w], MaxBudget(s.config))
    ensures Remaining(r) < Remaining(s)
  {
    SumOfUpdate(s.slots, w, slot, Weigher(MaxBudget(s.config)));
  }

  lemma DequeueIsProgress(s: State, w: nat)
    requires WellFormed(s) && w < |s.slots| && s.slots[w].Idle? && s.queue != []
    ensures Remaining(Dequeued(s, w)) < Remaining(s)
  {
    hide QueueWeight, IdsKnown, SumOf;
    var b := MaxBudget(s.config);
    SumOfUpdate(s.slots, w, Busy(s.queue[0], Pending(false), false), Weigher(b));
    OneEntryLess(|s.queue|, b);
  }

  lemma TaskOverSlot(s: State, w: nat, crashed: bool)
    requires WellFormed(s) && HasRun(s, w)
    ensures TaskOver(s, w, crashed).queue == s.queue
    ensures TaskOver(s, w, crashed).slots
            == s.slots[w := if s.slots[w].orphan then Dead else s.slots[w].(exec := Over(crashed))]
  {
  }

  lemma FinalizedIsProgress(s: State, m: State, w: nat)
    requires WellFormed(m) && HasRun(m, w)
    requires m.slots == s.slots && m.queue == s.queue && m.config == s.config
    requires Live(s.slots[w])
    ensures Remaining(Finalized(m, w)) < Remaining(s)
  {
    hide WellFormed, TaskOver;
    var r := Finalized(m, w);
    FinalizedSlot(m, w);
    LighterSlot(s, r, w, r.slots[w]);
  }

  lemma FinalizedSlot(m: State, w: nat)
    requires WellFormed(m) && HasRun(m, w)
    ensures var r := Finalized(m, w);
      && r.queue == m.queue && r.config == m.config && |r.slots| == |m.slots|
      && r.slots == m.slots[w := r.slots[w]]
      && (r.slots[w] == Dead || (r.slots[w].Busy? && r.slots[w].exec.Over?))
  {
  }

  lemma EndedIsProgress(s: State, w: nat, outcome: Outcome, now: real)
    requires WellFormed(s) && HasRun(s, w) && Live(s.slots[w])
    ensures Remaining(Ended(s, w, outcome, now)) < Remaining(s)
  {
    hide Finalized, WellFormed;
    FinalizedIsProgress(s, Settled(s, s.slots[w].run, outcome, now), w);
  }

  lemma BeginIsProgress(s: State, w: nat, now: real)
    requires WellFormed(s) && HasRun(s, w) && s.slots[w].exec.Pending?
    ensures Remaining(Begun(s, w, now)) < Remaining(s)
  {
    hide Finalized, Ended, Moved, TaskOver;
    var r := Begun(s, w, now);
    var id := s.slots[w].run;
    if s.slots[w].exec.cancelled {
      TaskOverSlot(s, w, true);
      LighterSlot(s, r, w, r.slots[w]);
    } else {
      var a := s.(active := s.active + 1);
      if s.recs[id].state == Cancelled {
        FinalizedIsProgress(s, a, w);
      } else if CanTransition(s.recs[id].state, Running) {
        BudgetIsBounded(s.recs[id].kind, s.config);
        MovedFrame(a, id, Running, now);
        LighterSlot(s, r, w, r.slots[w]);
      } else {
        EndedIsProgress(a, w, ILLEGAL, now);
      }
    }
  }

  lemma MovedFrame(s: State, id: RunId, target: RunState, now: real)
    requires WellFormed(s) && id < |s.recs|
    ensures Moved(s, id, target, now).slots == s.slots && Moved(s, id, target, now).queue == s.queue
  {
  }

  lemma CallBeginIsProgress(s: State, w: nat, now: real)
    requires WellFormed(s) && HasRun(s, w)
    requires s.slots[w].exec.Active? && !s.slots[w].exec.inCall && s.slots[w].exec.budget > 0
    ensures Remaining(CallBegun(s, w, now)) < Remaining(s)
  {
    hide Ended, Moved;
    var r := CallBegun(s, w, now);
    if CanTransition(s.recs[s.slots[w].run].state, Waiting) {
      MovedFrame(s, s.slots[w].run, Waiting, now);
      LighterSlot(s, r, w, r.slots[w]);
    } else {
      EndedIsProgress(s, w, ILLEGAL, now);
    }
  }

  lemma CallEndIsProgress(s: State, w: nat, ok: bool, now: real)
    requires WellFormed(s) && HasRun(s, w) && s.slots[w].exec.Active? && s.slots[w].exec.inCall
    ensures Remaining(CallEnded(s, w, ok, now)) < Remaining(s)
  {
    hide BackToRunning, WithStep;
    var id := s.slots[w].run;
    CallReturnFrame(s, id, ok, now);
    LighterSlot(s, CallEnded(s, w, ok, now), w, s.slots[w].(exec := Active(false, s.slots[w].exec.budget)));
  }

  lemma CallReturnFrame(s: State, id: RunId, ok: bool, now: real)
    requires WellFormed(s) && id < |s.recs|
    ensures BackToRunning(WithStep(s, id, ok), id, now).queue == s.queue
  {
  }

  /** Every step of a worker, a task or a pattern uses up some of what remains. */
  lemma InternalStepIsProgress(s: State, step: Step)
    requires WellFormed(s) && Enabled(s, step) && Internal(step)
    ensures Remaining(Next(s, step)) < Remaining(s)
  {
    hide Remaining, Begun, CallBegun, CallEnded, Ended, Dequeued, SameSetup, SameRegistry, WellFormed;
    match step
    case Dequeue(w) => DequeueIsProgress(s, w);
    case Begin(w, now) => BeginIsProgress(s, w, now);
    case CallBegin(w, now) => CallBeginIsProgress(s, w, now);
    case CallEnd(w, ok, now) => CallEndIsProgress(s, w, ok, now);
    case End(w, outcome, now) => EndedIsProgress(s, w, outcome, now);
    case Resume(w) => LighterSlot(s, Resumed(s, w), w, if s.slots[w].exec.crashed then Dead else Idle);
    case _ =>
  }

  lemma CancelTaskFrame(s: State, id: RunId)
    requires WellFormed(s)
    ensures Remaining(WithTaskCancelled(s, id)) == Remaining(s)
  {
    if id in s.tasks && s.tasks[id] < |s.slots| {
      SumOfUpdate(s.slots, s.tasks[id], CancelTask(s.slots[s.tasks[id]]), Weigher(MaxBudget(s.config)));
    }
  }

  lemma CancelAddsNothing(s: State, id: RunId, now: real)
    requires WellFormed(s)
    ensures Remaining(CancelAnswer(s, id, now).0) <= Remaining(s)
  {
    hide WithTaskCancelled, CancelledRun;
    if id in s.runs && !Terminal(s.recs[id].state) {
      var c := CancelledRun(CancelRequested(s, id), id, now);
      CancelTaskFrame(c, id);
      assert Remaining(c) == Remaining(s);
    }
  }

  lemma {:induction false} StoppedWeights(slots: seq<Slot>, stopped: seq<Slot>, tasks: map<RunId, nat>, b: nat)
    requires |stopped| == |slots|
    requires forall w :: 0 <= w < |slots| ==> stopped[w] == Stopped(slots[w], w, tasks)
    ensures SumOf(stopped, Weigher(b)) <= SumOf(slots, Weigher(b))
  {
    if slots != [] {
      StoppedWeights(slots[..|slots| - 1], stopped[..|slots| - 1], tasks, b);
    }
  }

  lemma CloseAddsNothing(s: State, now: real)
    requires WellFormed(s)
    ensures Remaining(Closed(s, now)) <= Remaining(s)
  {
    hide CancelledBelow;
    if !s.closed {
      var c := CancelledBelow(s.(closed := true), |s.recs|, now);
      StoppedWeights(c.slots, WorkersStopped(c).slots, c.tasks, MaxBudget(s.config));
    }
  }

  function InternalCount(steps: seq<Step>): nat {
    if steps == [] then 0 else One(Internal(steps[0])) + InternalCount(steps[1..])
  }

  predicate NoNewWork(steps: seq<Step>) {
    forall i :: 0 <= i < |steps| ==> !steps[i].Submit? && !steps[i].Retry?
  }

  lemma OneStepRemaining(s: State, step: Step)
    requires WellFormed(s) && Enabled(s, step)
    requires !step.Submit? && !step.Retry?
    ensures Remaining(Next(s, step)) + One(Internal(step)) <= Remaining(s)
  {
    hide Remaining, CancelAnswer, Closed, SameSetup, SameRegistry, WellFormed, Begun, CallBegun, CallEnded, Ended,
         Dequeued;
    if Internal(step) {
      InternalStepIsProgress(s, step);
    } else if step.Cancel? {
      CancelAddsNothing(s, step.id, step.now);
    } else {
      CloseAddsNothing(s, step.now);
    }
  }

  /**
   Termination: with no further submit or retry, the workers, tasks and patterns take at
   most Remaining(s) more steps, whatever is cancelled and however steps interleave.
   */
  lemma {:induction false} StepsAreBounded(s: State, steps: seq<Step>)
    requires WellFormed(s) && Possible(s, steps) && NoNewWork(steps)
    ensures InternalCount(steps) + Remaining(After(s, steps)) <= Remaining(s)
    ensures InternalCount(steps) <= Remaining(s)
    decreases |steps|
  {
    hide Next;
    if steps == [] {
      RemainingIsNatural(s.slots, MaxBudget(s.config));
      QueueWeightIsNatural(|s.queue|, MaxBudget(s.config));
    } else {
      OneStepRemaining(s, steps[0]);
      StepsAreBounded(Next(s, steps[0]), steps[1..]);
    }
  }

  // ---------------------------------------------------------------------
  // At rest
  // ---------------------------------------------------------------------

  /** No worker, task or pattern has a step to take. */
  ghost predicate AtRest(s: State) {
    forall step :: Internal(step) ==> !Enabled(s, step)
  }

  /** A worker that still takes entries from the queue, now or after its task. */
  ghost predicate WorkerLeft(s: State) {
    exists w :: 0 <= w < |s.slots| && (s.slots[w].Idle? || (s.slots[w].Busy? && !s.slots[w].orphan))
  }

  /** At rest no slot is busy, and an idle worker means an empty queue. */
  lemma RestingSlots(s: State)
    requires Inv(s) && AtRest(s)
    ensures forall w :: 0 <= w < |s.slots| ==> !s.slots[w].Busy?
    ensures forall w :: 0 <= w < |s.slots| && s.slots[w].Idle? ==> s.queue == []
  {
    hide Recorded, KeysInverse, Balanced, HandlesExact, QueueAgrees, OneTask, NothingLost;
    forall w | 0 <= w < |s.slots| ensures !s.slots[w].Busy? {
      assert s.slots[w].Busy? ==> HasRun(s, w);
      assert !Enabled(s, Begin(w, 0.0));
      assert !Enabled(s, CallEnd(w, true, 0.0));
      assert !Enabled(s, End(w, TaskCancelled, 0.0));
      assert !Enabled(s, Resume(w));
    }
    forall w | 0 <= w < |s.slots| && s.slots[w].Idle? ensures s.queue == [] {
      assert !Enabled(s, Dequeue(w));
    }
  }

  /** At rest, with a worker left, every run ever accepted is finished: none is lost. */
  lemma RestMeansFinished(s: State)
    requires Inv(s) && AtRest(s) && WorkerLeft(s)
    ensures forall id :: 0 <= id < |s.recs| ==> Terminal(s.recs[id].state)
    ensures Unfinished(s.recs, s.runs) == {}
  {
    hide Recorded, KeysInverse, Balanced, HandlesExact;
    RestingSlots(s);
    forall id | 0 <= id < |s.recs| ensures Terminal(s.recs[id].state) {
      assert !Held(s.slots, id);
    }
  }

  /** At rest without workers, exactly the queued Ready runs are unfinished. */
  lemma RestWithoutWorkers(s: State, id: RunId)
    requires Inv(s) && AtRest(s) && id < |s.recs|
    ensures !Terminal(s.recs[id].state) <==> id in s.queue && s.recs[id].state == Ready
  {
    hide Recorded, KeysInverse, Balanced, HandlesExact;
    RestingSlots(s);
    assert !Held(s.slots, id);
  }

  // ---------------------------------------------------------------------
  // When workers are lost
  // ---------------------------------------------------------------------

  /** The worker is there, its task is not doomed, and the run of a live task is not cancelled. */
  predicate HealthySlot(recs: seq<Run>, slot: Slot) {
    || slot.Idle?
    || (&& slot.Busy? && !slot.orphan && slot.run < |recs|
        && (slot.exec.Pending? ==> !slot.exec.cancelled)
        && (slot.exec.Over? ==> !slot.exec.crashed)
        && (Live(slot) ==> recs[slot.run].state != Cancelled))
  }

  ghost predicate Healthy(s: State) {
    && !s.closed
    && (s.started || s.recs == [])
    && (forall w :: 0 <= w < |s.slots| ==> HealthySlot(s.recs, s.slots[w]))
  }

  lemma HealthySubmit(s: State, q: Request, now: real)
    requires WellFormed(s) && Healthy(s)
    requires s.started || s.slots == []
    ensures Healthy(Submitted(s, q, now).0)
  {
    hide Victims, Evict, SameSetup, KeysOf;
    var t := StartWorkers(s);
    var c := CleanedUp(t, 1, now);
    EvictFrame(t, Victims(t.recs, t.runs, now - t.config.retention, 1, t.config.maxRunRecords));
    assert Healthy(t) && Healthy(c) && c.started;
    HealthyLook(c, q, now);
  }

  lemma EvictFrame(s: State, gone: set<RunId>)
    requires WellFormed(s)
    ensures var r := Evict(s, gone);
      r.recs == s.recs && r.slots == s.slots && r.started == s.started && r.closed == s.closed
  {
  }

  lemma HealthyLook(s: State, q: Request, now: real)
    requires WellFormed(s) && Healthy(s) && s.started
    ensures Healthy(Looked(s, q, now).0)
  {
    hide Admitted, SameSetup;
    HealthyAdmit(s, q, now);
    if q.key.Some? {
      HealthyAdmit(s.(index := s.index - {q.key.value}), q, now);
    }
  }

  lemma HealthyAdmit(s: State, q: Request, now: real)
    requires WellFormed(s) && Healthy(s) && s.started
    ensures Healthy(Admitted(s, q, now))
  {
  }

  lemma HealthyRetry(s: State, id: RunId, now: real)
    requires WellFormed(s) && Healthy(s)
    ensures Healthy(Retried(s, id, now).0)
  {
    hide Bumped;
  }

  lemma HealthyDequeue(s: State, w: nat)
    requires Inv(s) && WellFormed(s) && Healthy(s)
    requires w < |s.slots| && s.slots[w].Idle? && s.queue != []
    ensures Healthy(Dequeued(s, w))
  {
    hide Inv;
    QueueHead(s);
  }

  /** A step of worker w changes its slot and its run only. */
  lemma HealthyTask(s: State, r: State, w: nat)
    requires Inv(s) && Healthy(s)
    requires w < |s.slots| && Live(s.slots[w]) && s.slots[w].run < |s.recs|
    requires |r.recs| == |s.recs| && |r.slots| == |s.slots|
    requires r.recs == s.recs[s.slots[w].run := r.recs[s.slots[w].run]]
    requires r.slots == s.slots[w := r.slots[w]]
    requires HealthySlot(r.recs, r.slots[w])
    requires r.closed == s.closed && r.started == s.started
    ensures Healthy(r)
  {
    hide Recorded, KeysInverse, Balanced, HandlesExact, QueueAgrees, NothingLost, TasksAgree;
    forall v | 0 <= v < |r.slots| ensures HealthySlot(r.recs, r.slots[v]) {
      if v != w && Live(s.slots[v]) {
        assert s.slots[v].run != s.slots[w].run;
      }
    }
  }

  lemma HealthyEnd(s: State, w: nat, outcome: Outcome, now: real)
    requires Inv(s) && WellFormed(s) && Healthy(s) && HasRun(s, w)
    requires s.slots[w].exec.Active? && !s.slots[w].exec.inCall
    ensures Healthy(Ended(s, w, outcome, now))
  {
    hide Inv, Bumped;
    HeldIsRegistered(s, w);
    WellRecordedOf(s, s.slots[w].run);
    HealthyTask(s, Ended(s, w, outcome, now), w);
  }

  lemma HealthyBegin(s: State, w: nat, now: real)
    requires Inv(s) && WellFormed(s) && Healthy(s) && HasRun(s, w) && s.slots[w].exec.Pending?
    ensures Healthy(Begun(s, w, now))
  {
    hide Inv, Bumped, Ended, Finalized;
    HeldIsRegistered(s, w);
    HealthyTask(s, Begun(s, w, now), w);
  }

  lemma HealthyCallBegin(s: State, w: nat, now: real)
    requires Inv(s) && WellFormed(s) && Healthy(s) && HasRun(s, w)
    requires s.slots[w].exec.Active? && !s.slots[w].exec.inCall && s.slots[w].exec.budget > 0
    ensures Healthy(CallBegun(s, w, now))
  {
    hide Inv, Bumped, Ended;
    HeldIsRegistered(s, w);
    HealthyTask(s, CallBegun(s, w, now), w);
  }

  lemma HealthyCallEnd(s: State, w: nat, ok: bool, now: real)
    requires Inv(s) && WellFormed(s) && Healthy(s) && HasRun(s, w)
    requires s.slots[w].exec.Active? && s.slots[w].exec.inCall
    ensures Healthy(CallEnded(s, w, ok, now))
  {
    hide Inv, Bumped;
    HeldIsRegistered(s, w);
    HealthyTask(s, CallEnded(s, w, ok, now), w);
  }

  lemma HealthyResume(s: State, w: nat)
    requires WellFormed(s) && Healthy(s) && HasRun(s, w) && s.slots[w].exec.Over?
    ensures Healthy(Resumed(s, w))
  {
  }

  predicate NoCancellation(steps: seq<Step>) {
    forall i :: 0 <= i < |steps| ==> !steps[i].Cancel? && !steps[i].Close?
  }

  lemma NextHealthy(s: State, step: Step)
    requires Inv(s) && WellFormed(s) && Healthy(s) && Enabled(s, step)
    requires !step.Cancel? && !step.Close?
    ensures Healthy(Next(s, step))
  {
    hide Inv, Healthy, Submitted, Retried, Dequeued, Begun, CallBegun, CallEnded, Ended, Resumed, SameSetup;
    match step
    case Submit(q, now) =>
      PoolAndQueue(s);
      HealthySubmit(s, q, now);
    case Retry(id, now) => HealthyRetry(s, id, now);
    case Dequeue(w) => HealthyDequeue(s, w);
    case Begin(w, now) => HealthyBegin(s, w, now);
    case CallBegin(w, now) => HealthyCallBegin(s, w, now);
    case CallEnd(w, ok, now) => HealthyCallEnd(s, w, ok, now);
    case End(w, outcome, now) => HealthyEnd(s, w, outcome, now);
    case Resume(w) => HealthyResume(s, w);
    case _ =>
  }

  lemma {:induction false} AfterHealthy(s: State, steps: seq<Step>)
    requires Inv(s) && WellFormed(s) && Healthy(s) && Possible(s, steps) && NoCancellation(steps)
    ensures Healthy(After(s, steps))
    decreases |steps|
  {
    hide Inv, Next, Healthy;
    if steps != [] {
      NextHealthy(s, steps[0]);
      NextKeepsInv(s, steps[0]);
      AfterHealthy(Next(s, steps[0]), steps[1..]);
    }
  }

  /**
   No run is lost: in a history without cancel and close no worker is ever lost either,
   so when the system comes to rest every run it accepted has finished.
   */
  lemma NoRunIsLost(config: Config, capacity: nat, steps: seq<Step>)
    requires config.maxConcurrency > 0
    requires Reaches(config, capacity, steps) && NoCancellation(steps)
    requires AtRest(StateAfter(config, capacity, steps))
    ensures var s := StateAfter(config, capacity, steps);
      forall id :: 0 <= id < |s.recs| ==> Terminal(s.recs[id].state)
  {
    hide Inv, AtRest, After, Possible;
    InitInv(config, capacity);
    AfterHealthy(Init(config, capacity), steps);
    ReachableInv(config, capacity, steps);
    var s := StateAfter(config, capacity, steps);
    PoolAndQueue(s);
    if s.started {
      assert HealthySlot(s.recs, s.slots[0]);
      assert WorkerLeft(s);
      RestMeansFinished(s);
    }
  }

  /** One worker, one queue place. */
  const SMALL := Config(1, 1, 1, 1.0, 2)

  /** The worker's only task was cancelled before it started. */
  ghost predicate DoomedTask(s: State) {
    && WellFormed(s) && s.config == SMALL && s.capacity == 1 && s.started && !s.closed
    && |s.recs| == 1 && s.runs == {0} && s.recs[0].state == Cancelled
    && s.recs[0].finishedAt == Some(0.0) && s.recs[0].updatedAt == 0.0
    && s.queue == [] && s.slots == [Busy(0, Pending(true), false)]
    && s.index == map[] && s.byRun == map[]
  }

  ghost predicate OneReady(s: State) {
    && WellFormed(s) && s.config == SMALL && s.capacity == 1 && s.started && !s.closed
    && |s.recs| == 1 && s.runs == {0} && s.recs[0].state == Ready && s.recs[0].kind == Simple
    && s.queue == [0] && s.slots == [Idle] && s.tasks == map[]
    && s.index == map[] && s.byRun == map[]
  }

  lemma FirstSubmission()
    ensures OneReady(Next(Init(SMALL, 1), Submit(PLAIN, 0.0)))
  {
    hide CleanedUp, Victims;
    var t := StartWorkers(Init(SMALL, 1));
    NothingToEvict(t, 1, 0.0);
    assert Next(Init(SMALL, 1), Submit(PLAIN, 0.0)) == Admitted(t, PLAIN, 0.0);
  }

  /** The worker has taken the only run, and its task is in the phase `exec`. */
  ghost predicate Taken(s: State, exec: Exec, state: RunState) {
    && WellFormed(s) && s.config == SMALL && s.capacity == 1 && s.started && !s.closed
    && |s.recs| == 1 && s.runs == {0} && s.recs[0].state == state && s.recs[0].kind == Simple
    && s.queue == [] && s.slots == [Busy(0, exec, false)] && s.tasks == map[0 := 0]
    && s.index == map[] && s.byRun == map[]
  }

  lemma TakenByWorker(s: State)
    requires OneReady(s)
    ensures Enabled(s, Dequeue(0)) && Taken(Next(s, Dequeue(0)), Pending(false), Ready)
  {
    hide SameSetup, SameRegistry;
    assert s.slots[0 := Busy(0, Pending(false), false)] == [Busy(0, Pending(false), false)];
  }

  lemma DoomedByCancelling(s: State)
    requires Taken(s, Pending(false), Ready)
    ensures Enabled(s, Cancel(0, 0.0)) && DoomedTask(Next(s, Cancel(0, 0.0)))
  {
    hide SameSetup, SameRegistry, Bumped;
  }

  lemma CancelledBeforeStart(a: State)
    requires OneReady(a)
    ensures Possible(a, [Dequeue(0), Cancel(0, 0.0)])
    ensures DoomedTask(After(a, [Dequeue(0), Cancel(0, 0.0)]))
  {
    hide Next, Enabled, Taken, DoomedTask;
    TakenByWorker(a);
    DoomedByCancelling(Next(a, Dequeue(0)));
    TwoSteps(a, Dequeue(0), Cancel(0, 0.0));
  }

  lemma DoomedTaskReached() returns (steps: seq<Step>)
    ensures Reaches(SMALL, 1, steps) && DoomedTask(StateAfter(SMALL, 1, steps))
  {
    hide Next, DoomedTask;
    FirstSubmission();
    var more := [Dequeue(0), Cancel(0, 0.0)];
    CancelledBeforeStart(Next(Init(SMALL, 1), Submit(PLAIN, 0.0)));
    steps := [Submit(PLAIN, 0.0)] + more;
    assert steps[1..] == more;
  }

  /** The run is queued, Ready, and no worker is left to take it. */
  ghost predicate Stranded(s: State) {
    && |s.recs| == 2 && s.recs[1].state == Ready && 1 in s.runs
    && s.queue == [1] && s.slots == [Dead]
  }

  lemma StrandedIsAtRest(s: State)
    requires Stranded(s)
    ensures AtRest(s)
  {
  }

  /** The worker is gone, and with it the only run. */
  ghost predicate Deserted(s: State) {
    && WellFormed(s) && s.config == SMALL && s.capacity == 1 && s.started && !s.closed
    && |s.recs| == 1 && s.runs == {0} && s.recs[0].finishedAt == Some(0.0) && s.recs[0].updatedAt == 0.0
    && s.queue == [] && s.slots == [Dead]
  }

  lemma DoomedIsDeserted(s: State)
    requires DoomedTask(s)
    ensures Possible(s, [Begin(0, 0.0), Resume(0)]) && Deserted(After(s, [Begin(0, 0.0), Resume(0)]))
  {
    hide SameSetup, SameRegistry;
    var a := Next(s, Begin(0, 0.0));
    assert a.slots == [Busy(0, Over(true), false)] && a.recs == s.recs;
    assert Next(a, Resume(0)).slots == [Dead];
    TwoSteps(s, Begin(0, 0.0), Resume(0));
  }

  lemma SubmissionStrands(s: State)
    requires Deserted(s)
    ensures Enabled(s, Submit(PLAIN, 0.0)) && Stranded(Next(s, Submit(PLAIN, 0.0)))
  {
    hide CleanedUp, Victims, Bumped;
    KeptByCleanUp(s);
    assert Next(s, Submit(PLAIN, 0.0)) == Admitted(CleanedUp(s, 1, 0.0), PLAIN, 0.0);
  }

  lemma DoomedBecomesStranded(s: State) returns (steps: seq<Step>)
    requires DoomedTask(s)
    ensures Possible(s, steps) && Stranded(After(s, steps))
  {
    hide Next, Enabled, DoomedTask, Deserted, Stranded;
    var front := [Begin(0, 0.0), Resume(0)];
    DoomedFacts(s);
    DoomedIsDeserted(s);
    SubmissionStrands(After(s, front));
    OneStep(After(s, front), Submit(PLAIN, 0.0));
    AfterAppend(s, front, [Submit(PLAIN, 0.0)]);
    steps := front + [Submit(PLAIN, 0.0)];
  }

  lemma DoomedFacts(s: State)
    requires DoomedTask(s)
    ensures WellFormed(s)
  {
  }

  /** One finished run, not expired, with room for another: eviction takes nothing. */
  lemma KeptByCleanUp(s: State)
    requires WellFormed(s) && s.config == SMALL && |s.recs| == 1 && s.runs == {0}
    requires s.recs[0].finishedAt == Some(0.0) && s.recs[0].updatedAt == 0.0
    ensures var c := CleanedUp(s, 1, 0.0);
      c.recs == s.recs && c.queue == s.queue && c.slots == s.slots && c.started == s.started
  {
    hide Victims;
  }

  /**
   The pool can shrink to nothing: a run cancelled between its dequeue and its first step
   takes the worker with it, and a run submitted afterwards stays Ready for ever.
   */
  lemma LastWorkerCanBeLost() returns (steps: seq<Step>)
    ensures ValidConfig(SMALL) && Reaches(SMALL, 1, steps)
    ensures var s := StateAfter(SMALL, 1, steps);
      AtRest(s) && 1 in s.runs && 1 < |s.recs| && s.recs[1].state == Ready
  {
    hide Inv, Next;
    var front := DoomedTaskReached();
    var more := DoomedBecomesStranded(StateAfter(SMALL, 1, front));
    AfterAppend(Init(SMALL, 1), front, more);
    steps := front + more;
    StrandedIsAtRest(StateAfter(SMALL, 1, steps));
  }
}
