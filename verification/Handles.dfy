/**
 `_tasks` against the live tasks. A worker that resumes pops the handle of its run whatever task it
 belongs to by then, so after a fast retry a live task can be left without its handle.
 */
module Handles {
  import opened Common
  import opened Lifecycle
  import opened Eviction
  import opened Scheduler
  import opened Ownership
  import opened SchedulerInvariant
  import opened Guarantees
  import opened Quiescence

  predicate HasHandle(tasks: map<RunId, nat>, slot: Slot, w: nat) {
    slot.Busy? && slot.run in tasks && tasks[slot.run] == w
  }

  /** The task can still act, and its worker waits for it. */
  predicate Attended(slot: Slot) {
    Live(slot) && !slot.orphan
  }

  /** Workers whose live task cannot be found in `_tasks`. */
  function Unhandled(tasks: map<RunId, nat>, slots: seq<Slot>): set<nat> {
    set w: nat | w < |slots| && Attended(slots[w]) && !HasHandle(tasks, slots[w], w)
  }

  /** The worker whose handle a step takes away: `pop` by another worker that held the same run. */
  function Stripped(s: State, step: Step): set<nat>
    requires Enabled(s, step)
  {
    if step.Resume? && s.slots[step.w].run in s.tasks then {s.tasks[s.slots[step.w].run]} - {step.w} else {}
  }

  /** What is left of a set of workers once tasks have ended or lost their worker. */
  function StillAttended(slots: seq<Slot>, ws: set<nat>): set<nat> {
    set w | w in ws && w < |slots| && Attended(slots[w])
  }

  /** Worker w's slot changes, but neither the run it holds nor any handle. */
  lemma SameHandles(tasks: map<RunId, nat>, slots: seq<Slot>, w: nat, slot: Slot)
    requires w < |slots| && slots[w].Busy?
    requires slot == Dead || (slot.Busy? && slot.run == slots[w].run)
    requires Attended(slot) ==> Attended(slots[w])
    ensures Unhandled(tasks, slots[w := slot]) == StillAttended(slots[w := slot], Unhandled(tasks, slots))
  {
  }

  lemma UnchangedHandles(tasks: map<RunId, nat>, slots: seq<Slot>)
    ensures StillAttended(slots, Unhandled(tasks, slots)) == Unhandled(tasks, slots)
  {
  }

  /** What a step of a task does to its slot. */
  ghost predicate TaskFrame(s: State, r: State, w: nat) {
    && w < |s.slots| && |r.slots| == |s.slots| && s.slots[w].Busy? && Live(s.slots[w])
    && r.tasks == s.tasks && r.slots == s.slots[w := r.slots[w]]
    && (r.slots[w] == Dead
        || (r.slots[w].Busy? && r.slots[w].run == s.slots[w].run && r.slots[w].orphan == s.slots[w].orphan))
  }

  lemma FinalizedTask(s: State, w: nat)
    requires WellFormed(s) && HasRun(s, w) && Live(s.slots[w])
    ensures TaskFrame(s, Finalized(s, w), w)
  {
    hide SameSetup;
  }

  lemma EndedTask(s: State, w: nat, outcome: Outcome, now: real)
    requires WellFormed(s) && HasRun(s, w) && Live(s.slots[w])
    ensures TaskFrame(s, Ended(s, w, outcome, now), w)
  {
    hide Finalized, SameSetup, Bumped, Applied, Written, Verdict;
    FinalizedTask(Settled(s, s.slots[w].run, outcome, now), w);
  }

  lemma MovedSlots(s: State, id: RunId, target: RunState, now: real)
    requires WellFormed(s) && id < |s.recs|
    ensures Moved(s, id, target, now).slots == s.slots && Moved(s, id, target, now).tasks == s.tasks
  {
  }

  lemma EnteredTask(s: State, w: nat, now: real)
    requires WellFormed(s) && HasRun(s, w) && Live(s.slots[w])
    ensures TaskFrame(s, Entered(s, w, now), w)
  {
    hide Finalized, Ended, Moved, SameSetup;
    MovedSlots(s, s.slots[w].run, Running, now);
    FinalizedTask(s, w);
    EndedTask(s, w, ILLEGAL, now);
  }

  lemma BegunTask(s: State, w: nat, now: real)
    requires WellFormed(s) && HasRun(s, w) && s.slots[w].exec.Pending?
    ensures TaskFrame(s, Begun(s, w, now), w)
  {
    hide Entered, SameSetup;
    EnteredTask(s.(active := s.active + 1), w, now);
  }

  lemma CallBegunTask(s: State, w: nat, now: real)
    requires WellFormed(s) && HasRun(s, w) && s.slots[w].exec.Active? && s.slots[w].exec.budget > 0
    ensures TaskFrame(s, CallBegun(s, w, now), w)
  {
    hide Ended, Moved, SameSetup;
    MovedSlots(s, s.slots[w].run, Waiting, now);
    EndedTask(s, w, ILLEGAL, now);
  }

  lemma CallEndedTask(s: State, w: nat, ok: bool, now: real)
    requires WellFormed(s) && HasRun(s, w) && s.slots[w].exec.Active?
    ensures TaskFrame(s, CallEnded(s, w, ok, now), w)
  {
    hide SameSetup, Bumped, Applied;
  }

  /** The handles after a step, told from the state before. */
  ghost predicate HandlesFollow(s: State, r: State, stripped: set<nat>) {
    Unhandled(r.tasks, r.slots) == StillAttended(r.slots, Unhandled(s.tasks, s.slots) + stripped)
  }

  lemma TaskHandles(s: State, r: State, w: nat)
    requires TaskFrame(s, r, w)
    ensures HandlesFollow(s, r, {})
  {
    SameHandles(s.tasks, s.slots, w, r.slots[w]);
    assert Unhandled(s.tasks, s.slots) + {} == Unhandled(s.tasks, s.slots);
  }

  /** A new task has its handle, and no live task loses one: its run was queued. */
  lemma DequeueHandles(s: State, w: nat)
    requires Inv(s) && WellFormed(s) && w < |s.slots| && s.slots[w].Idle? && s.queue != []
    ensures HandlesFollow(s, Dequeued(s, w), {})
  {
    hide Inv, Attended, HasHandle;
    var id := s.queue[0];
    assert id < |s.recs|;
    UnchangedHandles(s.tasks, s.slots);
    assert Unhandled(s.tasks, s.slots) + {} == Unhandled(s.tasks, s.slots);
    if id in s.runs && !Terminal(s.recs[id].state) {
      QueuedIsUnheld(s);
      NewHandle(s.tasks, s.slots, w, id);
    }
  }

  lemma QueuedIsUnheld(s: State)
    requires Inv(s) && s.queue != []
    ensures forall w :: 0 <= w < |s.slots| && Attended(s.slots[w]) ==> s.slots[w].run != s.queue[0]
  {
    hide Recorded, KeysInverse, Balanced, HandlesExact, QueueAgrees, NothingLost, TasksAgree;
    assert s.queue[0] in s.queue;
  }

  /** A handle for a run no attended task holds. */
  lemma NewHandle(tasks: map<RunId, nat>, slots: seq<Slot>, w: nat, id: RunId)
    requires w < |slots| && slots[w].Idle?
    requires forall v :: 0 <= v < |slots| && Attended(slots[v]) ==> slots[v].run != id
    ensures var after := slots[w := Busy(id, Pending(false), false)];
      Unhandled(tasks[id := w], after) == StillAttended(after, Unhandled(tasks, slots))
  {
    var after := slots[w := Busy(id, Pending(false), false)];
    forall v: nat | v < |slots|
      ensures v in Unhandled(tasks[id := w], after) <==> v in StillAttended(after, Unhandled(tasks, slots))
    {
      assert v != w ==> after[v] == slots[v];
    }
  }

  lemma ResumeHandles(s: State, w: nat)
    requires Inv(s) && WellFormed(s) && HasRun(s, w) && s.slots[w].exec.Over?
    ensures HandlesFollow(s, Resumed(s, w), Stripped(s, Resume(w)))
  {
    hide Recorded, KeysInverse, Balanced, Owned;
    var r := Resumed(s, w);
    var run := s.slots[w].run;
    forall v: nat | v < |r.slots|
      ensures v in Unhandled(r.tasks, r.slots)
              <==> v in StillAttended(r.slots, Unhandled(s.tasks, s.slots) + Stripped(s, Resume(w)))
    {
      if v != w {
        assert r.slots[v] == s.slots[v];
        assert v in Unhandled(s.tasks, s.slots)
               <==> Attended(s.slots[v]) && !HasHandle(s.tasks, s.slots[v], v);
      }
    }
  }

  lemma CancelHandles(s: State, id: RunId, now: real)
    requires WellFormed(s)
    ensures HandlesFollow(s, CancelAnswer(s, id, now).0, {})
  {
    hide CancelAnswer, SameSetup, HasHandle, Attended, IdsKnown;
    CancelFrame(s, id, now);
    UnchangedHandles(s.tasks, s.slots);
    assert Unhandled(s.tasks, s.slots) + {} == Unhandled(s.tasks, s.slots);
    if id in s.tasks && s.tasks[id] < |s.slots| {
      CancelledTaskHandles(s.tasks, s.slots, s.tasks[id]);
    }
  }

  lemma CancelledTaskHandles(tasks: map<RunId, nat>, slots: seq<Slot>, w: nat)
    requires w < |slots|
    ensures var after := slots[w := CancelTask(slots[w])];
      Unhandled(tasks, after) == StillAttended(after, Unhandled(tasks, slots))
  {
    if slots[w].Busy? {
      SameHandles(tasks, slots, w, CancelTask(slots[w]));
    } else {
      UnchangedHandles(tasks, slots);
      assert slots[w := CancelTask(slots[w])] == slots;
    }
  }

  lemma CloseHandles(s: State, now: real)
    requires WellFormed(s)
    ensures HandlesFollow(s, Closed(s, now), {})
  {
    hide CancelledBelow, SameSetup;
    UnchangedHandles(s.tasks, s.slots);
    assert Unhandled(s.tasks, s.slots) + {} == Unhandled(s.tasks, s.slots);
    if !s.closed {
      var r := Closed(s, now);
      assert forall w :: 0 <= w < |r.slots| ==> !Attended(r.slots[w]);
    }
  }

  lemma SubmitHandles(s: State, q: Request, now: real)
    requires Inv(s) && WellFormed(s)
    ensures HandlesFollow(s, Submitted(s, q, now).0, {})
  {
    hide Owned, Recorded, KeysInverse, Balanced, Victims, KeysOf, SameSetup, Looked;
    UnchangedHandles(s.tasks, s.slots);
    assert Unhandled(s.tasks, s.slots) + {} == Unhandled(s.tasks, s.slots);
    var t := StartWorkers(s);
    LookedFrame(CleanedUp(t, 1, now), q, now);
  }

  lemma RetryHandles(s: State, id: RunId, now: real)
    requires WellFormed(s)
    ensures HandlesFollow(s, Retried(s, id, now).0, {})
  {
    hide Retried;
    RetryFrame(s, id, now);
    UnchangedHandles(s.tasks, s.slots);
    assert Unhandled(s.tasks, s.slots) + {} == Unhandled(s.tasks, s.slots);
  }

  /**
   After any step the live tasks without a handle are exactly those that had none before or whose
   handle the step has popped, as far as they are still live and attended.
   */
  lemma HandlesStep(s: State, step: Step)
    requires Inv(s) && WellFormed(s) && Enabled(s, step)
    ensures HandlesFollow(s, Next(s, step), Stripped(s, step))
  {
    hide Inv, HandlesFollow, Submitted, Retried, CancelAnswer, Closed, Dequeued, Begun, CallBegun, CallEnded,
         Ended, Resumed, TaskFrame, SameSetup;
    match step
    case Submit(q, now) => SubmitHandles(s, q, now);
    case Retry(id, now) => RetryHandles(s, id, now);
    case Cancel(id, now) => CancelHandles(s, id, now);
    case Close(now) => CloseHandles(s, now);
    case Dequeue(w) => DequeueHandles(s, w);
    case Begin(w, now) =>
      BegunTask(s, w, now);
      TaskHandles(s, Begun(s, w, now), w);
    case CallBegin(w, now) =>
      CallBegunTask(s, w, now);
      TaskHandles(s, CallBegun(s, w, now), w);
    case CallEnd(w, ok, now) =>
      CallEndedTask(s, w, ok, now);
      TaskHandles(s, CallEnded(s, w, ok, now), w);
    case End(w, outcome, now) =>
      EndedTask(s, w, outcome, now);
      TaskHandles(s, Ended(s, w, outcome, now), w);
    case Resume(w) => ResumeHandles(s, w);
  }

  // ---------------------------------------------------------------------
  // Every run of the system
  // ---------------------------------------------------------------------

  /** No step pops the handle of a task that is live and attended. */
  ghost predicate NoneStripped(s: State, steps: seq<Step>)
    requires WellFormed(s) && Possible(s, steps)
    decreases |steps|
  {
    steps == [] ||
    (StillAttended(Next(s, steps[0]).slots, Stripped(s, steps[0])) == {}
     && NoneStripped(Next(s, steps[0]), steps[1..]))
  }

  /** In no state on the way is a live task without its handle. */
  ghost predicate HandledThroughout(s: State, steps: seq<Step>)
    requires WellFormed(s) && Possible(s, steps)
    decreases |steps|
  {
    Unhandled(s.tasks, s.slots) == {} && (steps == [] || HandledThroughout(Next(s, steps[0]), steps[1..]))
  }

  /** `_tasks` is complete all the way exactly when no step pops the handle of such a task. */
  lemma {:induction false} HandledExactly(s: State, steps: seq<Step>)
    requires Inv(s) && WellFormed(s) && Possible(s, steps) && Unhandled(s.tasks, s.slots) == {}
    ensures HandledThroughout(s, steps) <==> NoneStripped(s, steps)
    decreases |steps|
  {
    hide Inv, Next, Enabled, Stripped, Unhandled, StillAttended;
    if steps != [] {
      var r := Next(s, steps[0]);
      HandlesStep(s, steps[0]);
      NextKeepsInv(s, steps[0]);
      assert Unhandled(s.tasks, s.slots) + Stripped(s, steps[0]) == Stripped(s, steps[0]);
      if Unhandled(r.tasks, r.slots) == {} {
        HandledExactly(r, steps[1..]);
      }
    }
  }

  lemma HandlesTold(config: Config, capacity: nat, steps: seq<Step>)
    requires Reaches(config, capacity, steps)
    ensures HandledThroughout(Init(config, capacity), steps) <==> NoneStripped(Init(config, capacity), steps)
  {
    hide Inv, HandledThroughout, NoneStripped;
    InitInv(config, capacity);
    HandledExactly(Init(config, capacity), steps);
  }

  // A run of the system in which an old worker pops the handle of a new task.

  /** Two workers, one queue place. */
  const PAIR := Config(2, 1, 1, 1.0, 3)

  /** One run and two workers. */
  ghost predicate Duo(s: State, state: RunState, queue: seq<RunId>, first: Slot, second: Slot, tasks: map<RunId, nat>) {
    && WellFormed(s) && s.config == PAIR && s.capacity == 1 && s.started && !s.closed
    && |s.recs| == 1 && s.runs == {0} && s.recs[0].state == state && s.recs[0].kind == Simple
    && s.queue == queue && s.slots == [first, second] && s.tasks == tasks
  }

  lemma DuoSubmits()
    ensures var i := Init(PAIR, 1);
      Enabled(i, Submit(PLAIN, 0.0)) && Duo(Next(i, Submit(PLAIN, 0.0)), Ready, [0], Idle, Idle, map[])
  {
    hide CleanedUp, Victims;
    var t := StartWorkers(Init(PAIR, 1));
    assert t.slots == [Idle, Idle];
    NothingToEvict(t, 1, 0.0);
    assert Next(Init(PAIR, 1), Submit(PLAIN, 0.0)) == Admitted(t, PLAIN, 0.0);
  }

  lemma DuoFirstTakes(s: State)
    requires Duo(s, Ready, [0], Idle, Idle, map[])
    ensures Enabled(s, Dequeue(0))
    ensures Duo(Next(s, Dequeue(0)), Ready, [], Busy(0, Pending(false), false), Idle, map[0 := 0])
  {
    hide SameSetup, SameRegistry;
    assert s.slots[0 := Busy(0, Pending(false), false)] == [Busy(0, Pending(false), false), Idle];
  }

  lemma DuoBegins(s: State)
    requires Duo(s, Ready, [], Busy(0, Pending(false), false), Idle, map[0 := 0])
    ensures Enabled(s, Begin(0, 0.0))
    ensures Duo(Next(s, Begin(0, 0.0)), Running, [], Busy(0, Active(false, 1), false), Idle, map[0 := 0])
  {
    hide SameSetup, SameRegistry, Bumped;
    assert s.slots[0 := Busy(0, Active(false, 1), false)] == [Busy(0, Active(false, 1), false), Idle];
  }

  lemma DuoFails(s: State)
    requires Duo(s, Running, [], Busy(0, Active(false, 1), false), Idle, map[0 := 0]) && s.events.Keys == {0}
    ensures Enabled(s, End(0, ILLEGAL, 0.0))
    ensures Duo(Next(s, End(0, ILLEGAL, 0.0)), Failed, [], Busy(0, Over(false), false), Idle, map[0 := 0])
  {
    hide SameSetup, SameRegistry, Bumped;
    assert s.slots[0 := Busy(0, Over(false), false)] == [Busy(0, Over(false), false), Idle];
  }

  lemma DuoRetries(s: State)
    requires Duo(s, Failed, [], Busy(0, Over(false), false), Idle, map[0 := 0])
    ensures Enabled(s, Retry(0, 0.0))
    ensures Duo(Next(s, Retry(0, 0.0)), Ready, [0], Busy(0, Over(false), false), Idle, map[0 := 0])
  {
    hide SameSetup, SameRegistry, Bumped;
  }

  lemma DuoSecondTakes(s: State)
    requires Duo(s, Ready, [0], Busy(0, Over(false), false), Idle, map[0 := 0])
    ensures Enabled(s, Dequeue(1))
    ensures Duo(Next(s, Dequeue(1)), Ready, [], Busy(0, Over(false), false), Busy(0, Pending(false), false),
                map[0 := 1])
  {
    hide SameSetup, SameRegistry;
    assert s.slots[1 := Busy(0, Pending(false), false)] == [s.slots[0], Busy(0, Pending(false), false)];
  }

  lemma DuoResumes(s: State)
    requires Duo(s, Ready, [], Busy(0, Over(false), false), Busy(0, Pending(false), false), map[0 := 1])
    ensures Enabled(s, Resume(0))
    ensures Duo(Next(s, Resume(0)), Ready, [], Idle, Busy(0, Pending(false), false), map[])
    ensures Stripped(s, Resume(0)) == {1}
  {
    hide SameSetup, SameRegistry;
    assert s.slots[0 := Idle] == [Idle, s.slots[1]];
    assert s.tasks - {0} == map[];
  }

  lemma OneMoreStep(s: State, steps: seq<Step>, step: Step)
    requires WellFormed(s) && Possible(s, steps) && Enabled(After(s, steps), step)
    ensures Possible(s, steps + [step]) && After(s, steps + [step]) == Next(After(s, steps), step)
  {
    hide Next, Enabled;
    OneStep(After(s, steps), step);
    AfterAppend(s, steps, [step]);
  }

  /**
   After a fast retry the old worker's `pop` removes the new task's handle: the task is live and
   attended, its run is Ready, and `cancel` could not find it.
   */
  lemma HandleCanBeLost() returns (steps: seq<Step>)
    ensures ValidConfig(PAIR) && Reaches(PAIR, 1, steps)
    ensures var s := StateAfter(PAIR, 1, steps);
      s.tasks == map[] && Unhandled(s.tasks, s.slots) == {1} && |s.recs| == 1 && s.recs[0].state == Ready
  {
    hide Inv, Next, Enabled, After, Possible;
    var i := Init(PAIR, 1);
    DuoSubmits();
    OneStep(i, Submit(PLAIN, 0.0));
    steps := [Submit(PLAIN, 0.0)];
    DuoFirstTakes(After(i, steps));
    OneMoreStep(i, steps, Dequeue(0));
    steps := steps + [Dequeue(0)];
    DuoBegins(After(i, steps));
    OneMoreStep(i, steps, Begin(0, 0.0));
    steps := steps + [Begin(0, 0.0)];
    ReachableInv(PAIR, 1, steps);
    EventsAreRuns(After(i, steps));
    DuoFails(After(i, steps));
    OneMoreStep(i, steps, End(0, ILLEGAL, 0.0));
    steps := steps + [End(0, ILLEGAL, 0.0)];
    DuoRetries(After(i, steps));
    OneMoreStep(i, steps, Retry(0, 0.0));
    steps := steps + [Retry(0, 0.0)];
    DuoSecondTakes(After(i, steps));
    OneMoreStep(i, steps, Dequeue(1));
    steps := steps + [Dequeue(1)];
    DuoResumes(After(i, steps));
    OneMoreStep(i, steps, Resume(0));
    steps := steps + [Resume(0)];
  }
}
