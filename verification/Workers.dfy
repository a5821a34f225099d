/**
 What the steps of workers and their tasks do to slots, handles and events. What they write to the
 runs is said by Logs and Outcomes.
 */
module Workers {
  import opened Common
  import opened Lifecycle
  import opened Scheduler
  import opened Ownership
  import opened SchedulerInvariant
  import opened Guarantees
  import opened Histories
  import opened Logs

  /** No other worker, and neither the queue nor the registry, is touched. */
  predicate OnlySlot(s: State, r: State, w: nat, slot: Slot) {
    && w < |s.slots| && r.slots == s.slots[w := slot]
    && r.queue == s.queue && r.runs == s.runs && |r.recs| == |s.recs|
    && r.closed == s.closed && r.started == s.started && r.index == s.index && r.byRun == s.byRun
  }

  /** A task that ends leaves its worker to notice it, or nobody. */
  function EndedSlot(slot: Slot, crashed: bool): Slot
    requires slot.Busy?
  {
    if slot.orphan then Dead else Busy(slot.run, Over(crashed), false)
  }

  /** What a worker does with the oldest entry: a task for a registered unfinished run, nothing otherwise. */
  lemma DequeueExact(s: State, w: nat)
    requires WellFormed(s) && Enabled(s, Dequeue(w))
    ensures var (r, id) := (Next(s, Dequeue(w)), s.queue[0]);
      && r.queue == s.queue[1..] && r.recs == s.recs && r.events == s.events && r.requests == s.requests
      && r.tally == s.tally && r.active == s.active
      && (if IsOpen(s, id) then
            r.slots == s.slots[w := Busy(id, Pending(false), false)] && r.tasks == s.tasks[id := w]
          else
            r.slots == s.slots && r.tasks == s.tasks)
  {
  }

  lemma FinalizedExact(s: State, w: nat)
    requires WellFormed(s) && HasRun(s, w)
    ensures var (r, id) := (Finalized(s, w), s.slots[w].run);
      var done := Terminal(s.recs[id].state);
      && OnlySlot(s, r, w, EndedSlot(s.slots[w], done && id !in s.events)) && r.tasks == s.tasks
      && r.active == s.active - 1 && r.recs == s.recs
      && r.events == if done && id in s.events then s.events[id := true] else s.events
  {
  }

  lemma SettledKeeps(s: State, id: RunId, outcome: Outcome, now: real)
    requires WellFormed(s) && id < |s.recs|
    ensures var r := Settled(s, id, outcome, now);
      && r.slots == s.slots && r.tasks == s.tasks && r.events == s.events && r.active == s.active
      && r.queue == s.queue && r.closed == s.closed && r.started == s.started
  {
    hide Applied, Bumped, Written;
  }

  lemma MovedKeeps(s: State, id: RunId, target: RunState, now: real)
    requires WellFormed(s) && id < |s.recs|
    ensures var r := Moved(s, id, target, now);
      && r.slots == s.slots && r.tasks == s.tasks && r.events == s.events && r.active == s.active
      && r.queue == s.queue && r.closed == s.closed && r.started == s.started
  {
  }

  /** The end of an execution: the event is set at once, and the task has crashed iff the run was evicted. */
  lemma EndExact(s: State, w: nat, outcome: Outcome, now: real)
    requires Inv(s) && WellFormed(s) && HasRun(s, w) && Live(s.slots[w])
    requires s.recs[s.slots[w].run].state == Running || s.recs[s.slots[w].run].state == Cancelled
    ensures var (r, id) := (Ended(s, w, outcome, now), s.slots[w].run);
      && OnlySlot(s, r, w, EndedSlot(s.slots[w], id !in s.runs)) && r.tasks == s.tasks
      && r.active == s.active - 1
      && r.events == if id in s.runs then s.events[id := true] else s.events
  {
    hide Inv, Settled, Finalized, SameSetup, OnlySlot;
    var id := s.slots[w].run;
    var m := Settled(s, id, outcome, now);
    SettledKeeps(s, id, outcome, now);
    SettledEnds(s, id, outcome, now);
    WellRecordedOf(s, id);
    FinalizedExact(m, w);
    OnlySlotFrom(s, m, Finalized(m, w), w, EndedSlot(s.slots[w], id !in s.runs));
  }

  lemma OnlySlotFrom(s: State, m: State, r: State, w: nat, slot: Slot)
    requires m.slots == s.slots && m.queue == s.queue && m.closed == s.closed && m.started == s.started
    requires SameRegistry(s, m)
    requires OnlySlot(m, r, w, slot)
    ensures OnlySlot(s, r, w, slot)
  {
  }

  lemma SettledEnds(s: State, id: RunId, outcome: Outcome, now: real)
    requires WellFormed(s) && id < |s.recs|
    requires s.recs[id].state == Running || s.recs[id].state == Cancelled
    ensures Terminal(Settled(s, id, outcome, now).recs[id].state)
  {
    hide Bumped;
  }

  /** The most LLM and tool calls each kind of agent may make. */
  predicate MayCall(kind: AgentKind, maxSteps: nat, n: nat) {
    match kind
    case Simple => n == 1
    case Reflection => n == 3
    case PlanSolve => n == maxSteps + 2
    case ReAct => n == 2 * maxSteps + 1
  }

  /**
   The first step of a task: it never enters its body when it has been cancelled before, it is over at
   once when only its run has been, and otherwise it executes, with all its calls before it.
   */
  lemma BeginExact(s: State, w: nat, now: real)
    requires Inv(s) && WellFormed(s) && Enabled(s, Begin(w, now))
    ensures var (r, id) := (Next(s, Begin(w, now)), s.slots[w].run);
      var slot := s.slots[w];
      && w < |r.slots| && OnlySlot(s, r, w, r.slots[w]) && r.tasks == s.tasks && r.events == s.events
      && (if slot.exec.cancelled then
            r.slots[w] == EndedSlot(slot, true) && r.active == s.active && r.recs == s.recs
          else if s.recs[id].state == Cancelled then
            r.slots[w] == EndedSlot(slot, id !in s.runs) && r.active == s.active && r.recs == s.recs
          else
            && s.recs[id].state == Ready && r.active == s.active + 1
            && r.slots[w].Busy? && r.slots[w].run == id && r.slots[w].orphan == slot.orphan
            && r.slots[w].exec.Active? && !r.slots[w].exec.inCall
            && MayCall(s.recs[id].kind, s.config.maxAgentSteps, r.slots[w].exec.budget))
  {
    hide Inv, Entered, SameSetup, MayCall, OnlySlot, TaskOver;
    var id, a := s.slots[w].run, s.(active := s.active + 1);
    PhaseOfHolder(s, w);
    WellRecordedOf(s, id);
    if s.slots[w].exec.cancelled {
      TaskOverExact(s, w, true);
    } else if s.recs[id].state == Cancelled {
      CancelledEnters(a, w, now);
      OnlySlotFrom(s, a, Entered(a, w, now), w, EndedSlot(s.slots[w], id !in s.runs));
      SetAgain(s.events, id);
    } else {
      ReadyEnters(a, w, now);
      OnlySlotFrom(s, a, Entered(a, w, now), w, Entered(a, w, now).slots[w]);
    }
  }

  lemma TaskOverExact(s: State, w: nat, crashed: bool)
    requires WellFormed(s) && HasRun(s, w)
    ensures var r := TaskOver(s, w, crashed);
      && OnlySlot(s, r, w, EndedSlot(s.slots[w], crashed)) && |r.slots| == |s.slots|
      && r.slots[w] == EndedSlot(s.slots[w], crashed)
      && r.tasks == s.tasks && r.events == s.events && r.active == s.active && r.recs == s.recs
  {
  }

  lemma CancelledEnters(s: State, w: nat, now: real)
    requires WellFormed(s) && HasRun(s, w) && s.recs[s.slots[w].run].state == Cancelled
    ensures var (r, id) := (Entered(s, w, now), s.slots[w].run);
      && OnlySlot(s, r, w, EndedSlot(s.slots[w], id !in s.events)) && r.tasks == s.tasks
      && |r.slots| == |s.slots| && r.slots[w] == EndedSlot(s.slots[w], id !in s.events)
      && r.active == s.active - 1 && r.recs == s.recs
      && r.events == if id in s.events then s.events[id := true] else s.events
  {
    hide Finalized, SameSetup;
    FinalizedExact(s, w);
  }

  lemma ReadyEnters(s: State, w: nat, now: real)
    requires WellFormed(s) && HasRun(s, w) && s.recs[s.slots[w].run].state == Ready
    ensures var (r, id) := (Entered(s, w, now), s.slots[w].run);
      && w < |r.slots| && OnlySlot(s, r, w, r.slots[w]) && r.tasks == s.tasks && r.events == s.events
      && r.active == s.active
      && r.slots[w].Busy? && r.slots[w].run == id && r.slots[w].orphan == s.slots[w].orphan
      && r.slots[w].exec.Active? && !r.slots[w].exec.inCall
      && MayCall(s.recs[id].kind, s.config.maxAgentSteps, r.slots[w].exec.budget)
  {
    hide Moved, SameSetup;
    MovedKeeps(s, s.slots[w].run, Running, now);
  }

  lemma SetAgain(events: map<RunId, bool>, id: RunId)
    ensures id in events && events[id] ==> events[id := true] == events
  {
  }

  /** A call goes out while the run is Running, one fewer is left; for a cancelled run the attempt is over. */
  lemma CallBeginExact(s: State, w: nat, now: real)
    requires Inv(s) && WellFormed(s) && Enabled(s, CallBegin(w, now))
    ensures var (r, id) := (Next(s, CallBegin(w, now)), s.slots[w].run);
      var slot := s.slots[w];
      && r.tasks == s.tasks && r.events == s.events
      && (if s.recs[id].state == Running then
            && OnlySlot(s, r, w, slot.(exec := Active(true, slot.exec.budget - 1))) && r.active == s.active
          else
            && s.recs[id].state == Cancelled
            && OnlySlot(s, r, w, EndedSlot(slot, id !in s.runs)) && r.active == s.active - 1)
  {
    hide Inv, Moved, Ended, SameSetup;
    var id := s.slots[w].run;
    PhaseOfHolder(s, w);
    WellRecordedOf(s, id);
    MovedKeeps(s, id, Waiting, now);
    EndExact(s, w, ILLEGAL, now);
    SetAgain(s.events, id);
  }

  /** A call comes back, or fails: the task goes on. */
  lemma CallEndExact(s: State, w: nat, ok: bool, now: real)
    requires WellFormed(s) && Enabled(s, CallEnd(w, ok, now))
    ensures var r, slot := Next(s, CallEnd(w, ok, now)), s.slots[w];
      && OnlySlot(s, r, w, slot.(exec := Active(false, slot.exec.budget)))
      && r.tasks == s.tasks && r.events == s.events && r.active == s.active
  {
    hide Moved, SameSetup;
    MovedKeeps(WithStep(s, s.slots[w].run, ok), s.slots[w].run, Running, now);
  }

  /** A worker notices that its task is over: it pops the handle of the run, and a crash ends it. */
  lemma ResumeExact(s: State, w: nat)
    requires WellFormed(s) && Enabled(s, Resume(w))
    ensures var r, slot := Next(s, Resume(w)), s.slots[w];
      && OnlySlot(s, r, w, if slot.exec.crashed then Dead else Idle)
      && r.tasks == s.tasks - {slot.run} && r.recs == s.recs && r.events == s.events && r.active == s.active
  {
  }
}
