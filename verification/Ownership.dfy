/**
 The ownership invariant of the scheduler: where the one token of a run is.

 A queued run is Ready or Cancelled, a task agrees with the state of the run it
 executes, and every run that is not finished is queued or held by a live task.
 */
module Ownership {
  import opened Common
  import opened Lifecycle
  import opened Scheduler

  /** The task still can act on its run. */
  predicate Live(slot: Slot) {
    slot.Busy? && !slot.exec.Over?
  }

  predicate Agrees(exec: Exec, state: RunState) {
    match exec
    case Pending(cancelled) => state == Cancelled || (state == Ready && !cancelled)
    case Active(inCall, _) => state == Cancelled || state == (if inCall then Waiting else Running)
    case Over(_) => true
  }

  ghost predicate Held(slots: seq<Slot>, id: RunId) {
    exists w :: 0 <= w < |slots| && Live(slots[w]) && slots[w].run == id
  }

  ghost predicate TasksAgree(recs: seq<Run>, slots: seq<Slot>) {
    forall w :: 0 <= w < |slots| && slots[w].Busy? ==>
      slots[w].run < |recs| && Agrees(slots[w].exec, recs[slots[w].run].state)
  }

  ghost predicate QueueAgrees(recs: seq<Run>, queue: seq<RunId>) {
    && NoDuplicates(queue)
    && (forall i :: 0 <= i < |queue| ==>
          queue[i] < |recs| && (recs[queue[i]].state == Ready || recs[queue[i]].state == Cancelled))
  }

  ghost predicate OneTask(queue: seq<RunId>, slots: seq<Slot>) {
    && (forall w :: 0 <= w < |slots| && Live(slots[w]) ==> slots[w].run !in queue)
    && (forall v, w :: 0 <= v < w < |slots| && Live(slots[v]) && Live(slots[w]) ==>
          slots[v].run != slots[w].run)
  }

  ghost predicate NothingLost(recs: seq<Run>, runs: set<RunId>, queue: seq<RunId>, slots: seq<Slot>) {
    && (forall id :: id in runs ==> id < |recs|)
    && (forall id :: 0 <= id < |recs| ==> recs[id].state != Created)
    && (forall id :: 0 <= id < |recs| && !Terminal(recs[id].state) ==>
          id in runs && (id in queue || Held(slots, id)))
  }

  ghost predicate Owned(recs: seq<Run>, runs: set<RunId>, queue: seq<RunId>, slots: seq<Slot>) {
    && TasksAgree(recs, slots)
    && QueueAgrees(recs, queue)
    && OneTask(queue, slots)
    && NothingLost(recs, runs, queue, slots)
  }

  lemma HeldElsewhere(slots: seq<Slot>, w: nat, slot: Slot, id: RunId)
    requires w < |slots|
    requires Held(slots, id) && !(Live(slots[w]) && slots[w].run == id)
    ensures Held(slots[w := slot], id)
  {
    var v :| 0 <= v < |slots| && Live(slots[v]) && slots[v].run == id;
    assert slots[w := slot][v] == slots[v];
  }

  lemma OwnedEvict(recs: seq<Run>, runs: set<RunId>, queue: seq<RunId>, slots: seq<Slot>, gone: set<RunId>)
    requires Owned(recs, runs, queue, slots)
    requires forall id :: id in gone ==> id < |recs| && Terminal(recs[id].state)
    ensures Owned(recs, runs - gone, queue, slots)
  {
  }

  lemma OwnedAdmit(recs: seq<Run>, runs: set<RunId>, queue: seq<RunId>, slots: seq<Slot>, run: Run)
    requires Owned(recs, runs, queue, slots)
    requires run.state == Ready
    ensures Owned(recs + [run], runs + {|recs|}, queue + [|recs|], slots)
  {
    var recs', queue' := recs + [run], queue + [|recs|];
    forall id | 0 <= id < |recs'| && !Terminal(recs'[id].state)
      ensures id in runs + {|recs|} && (id in queue' || Held(slots, id))
    {
      if id == |recs| {
        assert queue'[|queue|] == id;
      } else {
        assert recs'[id] == recs[id];
      }
    }
  }

  /** A Failed run goes back to the queue: neither the queue nor a live task knew it. */
  lemma OwnedRequeue(recs: seq<Run>, runs: set<RunId>, queue: seq<RunId>, slots: seq<Slot>, id: RunId, run: Run)
    requires Owned(recs, runs, queue, slots)
    requires id in runs && recs[id].state == Failed && run.state == Ready
    ensures Owned(recs[id := run], runs, queue + [id], slots)
  {
    var recs', queue' := recs[id := run], queue + [id];
    assert id !in queue;
    assert queue'[|queue|] == id;
    forall w | 0 <= w < |slots| && slots[w].Busy?
      ensures slots[w].run < |recs'| && Agrees(slots[w].exec, recs'[slots[w].run].state)
      ensures Live(slots[w]) ==> slots[w].run != id
    {
    }
  }

  /** Cancellation agrees with the queue and with every phase of a task. */
  lemma OwnedCancel(recs: seq<Run>, runs: set<RunId>, queue: seq<RunId>, slots: seq<Slot>, id: RunId, run: Run)
    requires Owned(recs, runs, queue, slots)
    requires id < |recs| && run.state == Cancelled
    ensures Owned(recs[id := run], runs, queue, slots)
  {
  }

  lemma OwnedSameState(recs: seq<Run>, runs: set<RunId>, queue: seq<RunId>, slots: seq<Slot>, id: RunId, run: Run)
    requires Owned(recs, runs, queue, slots)
    requires id < |recs| && run.state == recs[id].state
    ensures Owned(recs[id := run], runs, queue, slots)
  {
  }

  lemma OwnedCancelTask(recs: seq<Run>, runs: set<RunId>, queue: seq<RunId>, slots: seq<Slot>, w: nat)
    requires Owned(recs, runs, queue, slots)
    requires w < |slots|
    requires slots[w].Busy? ==> recs[slots[w].run].state == Cancelled
    ensures Owned(recs, runs, queue, slots[w := CancelTask(slots[w])])
  {
    var slots' := slots[w := CancelTask(slots[w])];
    forall id | Held(slots, id) ensures Held(slots', id) {
      var v :| 0 <= v < |slots| && Live(slots[v]) && slots[v].run == id;
      assert Live(slots'[v]) && slots'[v].run == id;
    }
  }

  /** The step of a task: the run and the phase change together, or the task ends with a finished run. */
  lemma OwnedTaskStep(recs: seq<Run>, runs: set<RunId>, queue: seq<RunId>, slots: seq<Slot>,
                      w: nat, run: Run, slot: Slot)
    requires Owned(recs, runs, queue, slots)
    requires w < |slots| && Live(slots[w])
    requires run.state != Created
    requires slot.Busy? ==> slot.run == slots[w].run && Agrees(slot.exec, run.state)
    requires Live(slot) || Terminal(run.state)
    requires recs[slots[w].run].state == Cancelled ==> run.state == Cancelled
    ensures Owned(recs[slots[w].run := run], runs, queue, slots[w := slot])
  {
    var id := slots[w].run;
    var recs', slots' := recs[id := run], slots[w := slot];
    forall k | 0 <= k < |recs'| && !Terminal(recs'[k].state)
      ensures k in runs && (k in queue || Held(slots', k))
    {
      if k == id {
        assert Live(slots'[w]) && slots'[w].run == id;
        assert !Terminal(recs[id].state);
      } else if k !in queue {
        HeldElsewhere(slots, w, slot, k);
      }
    }
    forall v | 0 <= v < |slots'| && slots'[v].Busy?
      ensures slots'[v].run < |recs'| && Agrees(slots'[v].exec, recs'[slots'[v].run].state)
    {
      if v != w && Live(slots[v]) {
        assert slots[v].run != id;
      }
    }
  }

  lemma OwnedSkip(recs: seq<Run>, runs: set<RunId>, queue: seq<RunId>, slots: seq<Slot>)
    requires Owned(recs, runs, queue, slots)
    requires queue != [] && Terminal(recs[queue[0]].state)
    ensures Owned(recs, runs, queue[1..], slots)
  {
    forall k | 0 <= k < |recs| && !Terminal(recs[k].state)
      ensures k in queue[1..] || Held(slots, k)
    {
      assert queue == [queue[0]] + queue[1..];
    }
  }

  lemma OwnedDequeue(recs: seq<Run>, runs: set<RunId>, queue: seq<RunId>, slots: seq<Slot>, w: nat)
    requires Owned(recs, runs, queue, slots)
    requires w < |slots| && !Live(slots[w]) && queue != [] && recs[queue[0]].state == Ready
    ensures Owned(recs, runs, queue[1..], slots[w := Busy(queue[0], Pending(false), false)])
  {
    var id := queue[0];
    var slots' := slots[w := Busy(id, Pending(false), false)];
    assert queue == [id] + queue[1..];
    assert id !in queue[1..] by {
      forall i | 0 <= i < |queue[1..]| ensures queue[1..][i] != id {
        assert queue[1..][i] == queue[i + 1];
      }
    }
    assert forall i :: 0 <= i < |queue[1..]| ==> queue[1..][i] in queue;
    assert Live(slots'[w]) && slots'[w].run == id;
    forall k | 0 <= k < |recs| && !Terminal(recs[k].state)
      ensures k in queue[1..] || Held(slots', k)
    {
      if k != id && k !in queue[1..] {
        HeldElsewhere(slots, w, slots'[w], k);
      }
    }
  }

  /** A slot without a live task may change to any other one. */
  lemma OwnedIdle(recs: seq<Run>, runs: set<RunId>, queue: seq<RunId>, slots: seq<Slot>, w: nat, slot: Slot)
    requires Owned(recs, runs, queue, slots)
    requires w < |slots| && !Live(slots[w]) && !slot.Busy?
    ensures Owned(recs, runs, queue, slots[w := slot])
  {
    forall k | Held(slots, k) ensures Held(slots[w := slot], k) {
      HeldElsewhere(slots, w, slot, k);
    }
  }

  /** Stopping every worker once all runs are finished. */
  lemma OwnedStop(recs: seq<Run>, runs: set<RunId>, queue: seq<RunId>, slots: seq<Slot>, stopped: seq<Slot>,
                  tasks: map<RunId, nat>)
    requires Owned(recs, runs, queue, slots)
    requires forall id :: 0 <= id < |recs| ==> Terminal(recs[id].state)
    requires |stopped| == |slots|
    requires forall w :: 0 <= w < |slots| ==> stopped[w] == Stopped(slots[w], w, tasks)
    ensures Owned(recs, runs, queue, stopped)
  {
    forall w | 0 <= w < |stopped| && stopped[w].Busy?
      ensures Live(slots[w]) && stopped[w].run == slots[w].run
      ensures stopped[w].run < |recs| && Agrees(stopped[w].exec, recs[stopped[w].run].state)
    {
    }
  }

  lemma OwnedStart(recs: seq<Run>, runs: set<RunId>, queue: seq<RunId>, slots: seq<Slot>)
    requires Owned(recs, runs, queue, [])
    requires forall w :: 0 <= w < |slots| ==> slots[w].Idle?
    ensures Owned(recs, runs, queue, slots)
  {
    forall id | 0 <= id < |recs| && !Terminal(recs[id].state) ensures id in queue {
      assert !Held([], id);
    }
  }
}
