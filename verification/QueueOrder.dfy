/** First in, first out: runs leave the queue, and get their tasks, in the order they were queued. */
module QueueOrder {
  import opened Common
  import opened Lifecycle
  import opened Eviction
  import opened Scheduler
  import opened Guarantees

  /** The run a step puts into the queue. */
  function Queued(s: State, step: Step): seq<RunId>
    requires WellFormed(s)
  {
    match step
    case Submit(q, now) =>
      var reply := Submitted(s, q, now).1;
      if reply.Accepted? then [reply.id] else []
    case Retry(id, now) => if Retried(s, id, now).1 == Requeued then [id] else []
    case _ => []
  }

  /** The run a step takes from the queue. */
  function TakenOff(s: State, step: Step): seq<RunId>
    requires Enabled(s, step)
  {
    if step.Dequeue? then [s.queue[0]] else []
  }

  /** The run a step gives a task: entries of finished and evicted runs are skipped. */
  function Tasked(s: State, step: Step): seq<RunId>
    requires WellFormed(s) && Enabled(s, step)
  {
    if && step.Dequeue? && s.queue[0] in s.runs && !Terminal(s.recs[s.queue[0]].state)
    then [s.queue[0]] else []
  }

  function AllQueued(s: State, steps: seq<Step>): seq<RunId>
    requires WellFormed(s) && Possible(s, steps)
    decreases |steps|
  {
    if steps == [] then [] else Queued(s, steps[0]) + AllQueued(Next(s, steps[0]), steps[1..])
  }

  function AllTakenOff(s: State, steps: seq<Step>): seq<RunId>
    requires WellFormed(s) && Possible(s, steps)
    decreases |steps|
  {
    if steps == [] then [] else TakenOff(s, steps[0]) + AllTakenOff(Next(s, steps[0]), steps[1..])
  }

  function AllTasked(s: State, steps: seq<Step>): seq<RunId>
    requires WellFormed(s) && Possible(s, steps)
    decreases |steps|
  {
    if steps == [] then [] else Tasked(s, steps[0]) + AllTasked(Next(s, steps[0]), steps[1..])
  }

  /** a is b with some entries left out. */
  predicate Subsequence(a: seq<RunId>, b: seq<RunId>)
    decreases |b|
  {
    a == [] ||
    (b != [] && ((a[0] == b[0] && Subsequence(a[1..], b[1..])) || Subsequence(a, b[1..])))
  }

  // ---------------------------------------------------------------------
  // One step
  // ---------------------------------------------------------------------

  lemma AdmitQueues(s: State, q: Request, now: real)
    requires WellFormed(s)
    ensures var r := AdmitUnlessFull(s, q, now);
      r.0.queue == s.queue + if r.1.Accepted? then [r.1.id] else []
  {
    hide SameSetup, Bumped, Applied, IdsKnown;
  }

  lemma LookedQueues(s: State, q: Request, now: real)
    requires WellFormed(s)
    ensures var r := Looked(s, q, now);
      r.0.queue == s.queue + if r.1.Accepted? then [r.1.id] else []
  {
    hide AdmitUnlessFull, SameSetup;
    AdmitQueues(s, q, now);
    if q.key.Some? {
      AdmitQueues(s.(index := s.index - {q.key.value}), q, now);
    }
  }

  lemma SubmittedQueues(s: State, q: Request, now: real)
    requires WellFormed(s)
    ensures Submitted(s, q, now).0.queue == s.queue + Queued(s, Submit(q, now))
  {
    hide Looked, Victims, KeysOf, SameSetup;
    LookedQueues(CleanedUp(StartWorkers(s), 1, now), q, now);
  }

  lemma RetriedQueues(s: State, id: RunId, now: real)
    requires WellFormed(s)
    ensures Retried(s, id, now).0.queue == s.queue + Queued(s, Retry(id, now))
  {
    hide SameSetup, SameRegistry, Bumped, Applied;
  }

  lemma CancelQueues(s: State, id: RunId, now: real)
    requires WellFormed(s)
    ensures CancelAnswer(s, id, now).0.queue == s.queue
  {
    hide SameSetup, SameRegistry, CancelledRun;
  }

  lemma ClosedQueues(s: State, now: real)
    requires WellFormed(s)
    ensures Closed(s, now).queue == s.queue
  {
    hide SameSetup, SameRegistry, CancelledBelow;
  }

  lemma EndedQueues(s: State, w: nat, outcome: Outcome, now: real)
    requires WellFormed(s) && HasRun(s, w)
    ensures Ended(s, w, outcome, now).queue == s.queue && Finalized(s, w).queue == s.queue
  {
    hide SameSetup, SameRegistry, Bumped, Applied, Verdict, Written;
  }

  lemma BegunQueues(s: State, w: nat, now: real)
    requires WellFormed(s) && HasRun(s, w) && s.slots[w].exec.Pending?
    ensures Begun(s, w, now).queue == s.queue
  {
    hide SameSetup, SameRegistry, Bumped, Applied, Ended, Finalized;
    EndedQueues(s.(active := s.active + 1), w, ILLEGAL, now);
  }

  lemma MovedQueues(s: State, id: RunId, target: RunState, now: real)
    requires WellFormed(s) && id < |s.recs|
    ensures Moved(s, id, target, now).queue == s.queue
  {
  }

  lemma CallBegunQueues(s: State, w: nat, now: real)
    requires WellFormed(s) && HasRun(s, w) && s.slots[w].exec.Active? && s.slots[w].exec.budget > 0
    ensures CallBegun(s, w, now).queue == s.queue
  {
    hide SameSetup, SameRegistry, Moved, Ended;
    EndedQueues(s, w, ILLEGAL, now);
    MovedQueues(s, s.slots[w].run, Waiting, now);
  }

  lemma CallEndedQueues(s: State, w: nat, ok: bool, now: real)
    requires WellFormed(s) && HasRun(s, w) && s.slots[w].exec.Active?
    ensures CallEnded(s, w, ok, now).queue == s.queue
  {
    hide SameSetup, Moved;
    MovedQueues(WithStep(s, s.slots[w].run, ok), s.slots[w].run, Running, now);
  }

  /** Entries come in at the back and leave at the front, one at a time. */
  lemma QueueStep(s: State, step: Step)
    requires WellFormed(s) && Enabled(s, step)
    ensures s.queue + Queued(s, step) == TakenOff(s, step) + Next(s, step).queue
  {
    hide Submitted, Retried, CancelAnswer, Closed, Begun, CallBegun, CallEnded, Ended, SameSetup, SameRegistry;
    match step
    case Submit(q, now) => SubmittedQueues(s, q, now);
    case Retry(id, now) => RetriedQueues(s, id, now);
    case Cancel(id, now) => CancelQueues(s, id, now);
    case Close(now) => ClosedQueues(s, now);
    case Dequeue(w) => assert s.queue == [s.queue[0]] + s.queue[1..];
    case Begin(w, now) => BegunQueues(s, w, now);
    case CallBegin(w, now) => CallBegunQueues(s, w, now);
    case CallEnd(w, ok, now) => CallEndedQueues(s, w, ok, now);
    case End(w, outcome, now) => EndedQueues(s, w, outcome, now);
    case Resume(w) =>
  }

  // ---------------------------------------------------------------------
  // Every run of the system
  // ---------------------------------------------------------------------

  lemma Splice(queue: seq<RunId>, i: seq<RunId>, o: seq<RunId>, middle: seq<RunId>,
               later: seq<RunId>, os: seq<RunId>, rest: seq<RunId>)
    requires queue + i == o + middle && middle + later == os + rest
    ensures queue + (i + later) == (o + os) + rest
  {
    assert queue + (i + later) == (queue + i) + later;
    assert (o + middle) + later == o + (middle + later);
    assert (o + os) + rest == o + (os + rest);
  }

  lemma {:induction false} QueueSteps(s: State, steps: seq<Step>)
    requires WellFormed(s) && Possible(s, steps)
    ensures s.queue + AllQueued(s, steps) == AllTakenOff(s, steps) + After(s, steps).queue
    ensures Subsequence(AllTasked(s, steps), AllTakenOff(s, steps))
    decreases |steps|
  {
    hide Next, Enabled, Queued;
    if steps != [] {
      var m, rest := Next(s, steps[0]), steps[1..];
      QueueStep(s, steps[0]);
      QueueSteps(m, rest);
      Splice(s.queue, Queued(s, steps[0]), TakenOff(s, steps[0]), m.queue,
             AllQueued(m, rest), AllTakenOff(m, rest), After(m, rest).queue);
      TaskedInOrder(s, steps[0], AllTasked(m, rest), AllTakenOff(m, rest));
    }
  }

  lemma TaskedInOrder(s: State, step: Step, tasked: seq<RunId>, taken: seq<RunId>)
    requires WellFormed(s) && Enabled(s, step) && Subsequence(tasked, taken)
    ensures Subsequence(Tasked(s, step) + tasked, TakenOff(s, step) + taken)
  {
    var more := TakenOff(s, step) + taken;
    if step.Dequeue? {
      assert more[1..] == taken && more[0] == s.queue[0];
      if Tasked(s, step) != [] {
        assert (Tasked(s, step) + tasked)[1..] == tasked;
      } else {
        assert Tasked(s, step) + tasked == tasked;
      }
    } else {
      assert more == taken && Tasked(s, step) + tasked == tasked;
    }
  }

  /**
   In every run of the system the entries taken off the queue are the first ones queued, in that
   order, the queue holds the rest, and tasks are created in the order of the entries taken off.
   */
  lemma FirstInFirstOut(config: Config, capacity: nat, steps: seq<Step>)
    requires Reaches(config, capacity, steps)
    ensures var init := Init(config, capacity);
      && AllQueued(init, steps) == AllTakenOff(init, steps) + StateAfter(config, capacity, steps).queue
      && Subsequence(AllTasked(init, steps), AllTakenOff(init, steps))
  {
    hide After, AllQueued, AllTakenOff, AllTasked, Subsequence;
    var init := Init(config, capacity);
    QueueSteps(init, steps);
    assert init.queue + AllQueued(init, steps) == AllQueued(init, steps);
  }
}
