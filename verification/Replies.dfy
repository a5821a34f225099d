/** What the counters of requests, evictions and calls tell about a whole history. */
module Replies {
  import opened Common
  import opened Lifecycle
  import opened Eviction
  import opened Scheduler
  import opened Ownership
  import opened SchedulerInvariant
  import opened Guarantees
  import opened Histories
  import opened Logs
  import opened Requests

  // ---------------------------------------------------------------------
  // Replies
  // ---------------------------------------------------------------------

  /** The answer a step gives its caller. */
  function ReplyTo(s: State, step: Step): seq<Reply>
    requires WellFormed(s)
  {
    match step
    case Submit(q, now) => [Submitted(s, q, now).1]
    case Retry(id, now) => [Retried(s, id, now).1]
    case Cancel(id, now) => [CancelAnswer(s, id, now).1]
    case _ => []
  }

  function RepliesTo(s: State, steps: seq<Step>): seq<Reply>
    requires WellFormed(s) && Possible(s, steps)
    decreases |steps|
  {
    if steps == [] then [] else ReplyTo(s, steps[0]) + RepliesTo(Next(s, steps[0]), steps[1..])
  }

  function HowMany(replies: seq<Reply>, p: Reply -> bool): nat {
    if replies == [] then 0 else One(p(replies[0])) + HowMany(replies[1..], p)
  }

  predicate IsAccepted(r: Reply) { r.Accepted? }
  predicate IsRequeued(r: Reply) { r == Requeued }
  predicate IsRejected(r: Reply) { r == QueueFull }
  predicate IsReplayed(r: Reply) { r.Replayed? }
  predicate IsCancelled(r: Reply) { r == Answer(true) }

  lemma {:induction false} HowManySplit(a: seq<Reply>, b: seq<Reply>, p: Reply -> bool)
    ensures HowMany(a + b, p) == HowMany(a, p) + HowMany(b, p)
  {
    if a == [] {
      assert a + b == b;
    } else {
      assert (a + b)[1..] == a[1..] + b;
      HowManySplit(a[1..], b, p);
    }
  }

  lemma SingleReply(reply: Reply)
    ensures HowMany([reply], IsAccepted) == One(reply.Accepted?)
    ensures HowMany([reply], IsRequeued) == One(reply == Requeued)
    ensures HowMany([reply], IsRejected) == One(reply == QueueFull)
    ensures HowMany([reply], IsReplayed) == One(reply.Replayed?)
    ensures HowMany([reply], IsCancelled) == One(reply == Answer(true))
  {
  }

  /** How far the counters are from s to r. */
  ghost predicate Answered(s: State, r: State, replies: seq<Reply>) {
    && r.tally.submitted == s.tally.submitted + HowMany(replies, IsAccepted)
    && r.tally.retried == s.tally.retried + HowMany(replies, IsRequeued)
    && r.requests.rejected == s.requests.rejected + HowMany(replies, IsRejected)
    && r.requests.replays == s.requests.replays + HowMany(replies, IsReplayed)
    && r.requests.cancelled == s.requests.cancelled + HowMany(replies, IsCancelled)
    && r.requests.evicted - s.requests.evicted == (|r.recs| - |r.runs|) - (|s.recs| - |s.runs|)
  }

  lemma SubmitAnswered(s: State, q: Request, now: real)
    requires Inv(s) && WellFormed(s)
    ensures var (r, reply) := Submitted(s, q, now); Answered(s, r, [reply])
  {
    hide Inv, Submitted, Evicted, Kept, AllIdle, SameSetup;
    SubmitBooks(s, q, now);
    SubmitDecides(s, q, now);
    var (r, reply) := Submitted(s, q, now);
    SingleReply(reply);
    SubmitMakes(s, q, now);
    var gone := Evicted(s, q, now);
    EvictedKnown(s, q, now);
    assert |s.runs - gone| + |gone| == |s.runs| by {
      assert s.runs == (s.runs - gone) + gone;
    }
    assert |s.recs| !in s.runs;
  }

  lemma EvictedKnown(s: State, q: Request, now: real)
    requires WellFormed(s)
    ensures Evicted(s, q, now) <= s.runs
  {
  }

  /** A submission makes one run if it is accepted, and none otherwise. */
  lemma SubmitMakes(s: State, q: Request, now: real)
    requires Inv(s) && WellFormed(s)
    ensures var (r, reply) := Submitted(s, q, now);
      |r.recs| == |s.recs| + One(reply.Accepted?)
  {
    hide Inv, Submitted, Kept;
    if Submitted(s, q, now).1.Accepted? {
      AcceptedEnters(s, q, now);
    } else {
      RejectionAddsNothing(s, q, now);
    }
  }

  lemma NoReply(s: State, r: State)
    requires SameCounts(s, r) && |r.recs| == |s.recs| && r.runs == s.runs
    ensures Answered(s, r, [])
  {
  }

  predicate SameCounts(s: State, r: State) {
    r.tally.submitted == s.tally.submitted && r.tally.retried == s.tally.retried && r.requests == s.requests
  }

  lemma EndedCounts(s: State, w: nat, outcome: Outcome, now: real)
    requires WellFormed(s) && HasRun(s, w)
    ensures SameCounts(s, Ended(s, w, outcome, now))
  {
    hide Bumped, SameSetup, Applied, Written;
  }

  lemma FinalizedCounts(s: State, w: nat)
    requires WellFormed(s) && HasRun(s, w)
    ensures SameCounts(s, Finalized(s, w))
  {
  }

  lemma MovedCounts(s: State, id: RunId, target: RunState, now: real)
    requires WellFormed(s) && id < |s.recs|
    ensures SameCounts(s, Moved(s, id, target, now))
  {
  }

  lemma BegunCounts(s: State, w: nat, now: real)
    requires WellFormed(s) && HasRun(s, w) && s.slots[w].exec.Pending?
    ensures SameCounts(s, Begun(s, w, now))
  {
    hide SameSetup, IdsKnown, Moved, Ended, Finalized;
    var a := s.(active := s.active + 1);
    FinalizedCounts(a, w);
    MovedCounts(a, a.slots[w].run, Running, now);
    EndedCounts(a, w, ILLEGAL, now);
  }

  lemma CallBegunCounts(s: State, w: nat, now: real)
    requires WellFormed(s) && HasRun(s, w)
    requires s.slots[w].exec.Active? && s.slots[w].exec.budget > 0
    ensures SameCounts(s, CallBegun(s, w, now))
  {
    hide SameSetup, IdsKnown, Moved, Ended;
    MovedCounts(s, s.slots[w].run, Waiting, now);
    EndedCounts(s, w, ILLEGAL, now);
  }

  lemma CallEndedCounts(s: State, w: nat, ok: bool, now: real)
    requires WellFormed(s) && HasRun(s, w) && s.slots[w].exec.Active?
    ensures SameCounts(s, CallEnded(s, w, ok, now))
  {
    hide SameSetup, IdsKnown, Moved;
    var id := s.slots[w].run;
    MovedCounts(WithStep(s, id, ok), id, Running, now);
  }

  /** The steps of workers and executions answer no one. */
  lemma InternalCounts(s: State, step: Step)
    requires WellFormed(s) && Enabled(s, step) && Internal(step)
    ensures Answered(s, Next(s, step), [])
  {
    hide SameSetup, Begun, CallBegun, CallEnded, Ended;
    match step {
      case Dequeue(w) =>
      case Begin(w, now) => BegunCounts(s, w, now);
      case CallBegin(w, now) => CallBegunCounts(s, w, now);
      case CallEnd(w, ok, now) => CallEndedCounts(s, w, ok, now);
      case End(w, outcome, now) => EndedCounts(s, w, outcome, now);
      case Resume(w) =>
    }
    NoReply(s, Next(s, step));
  }

  lemma RetryAnswered(s: State, id: RunId, now: real)
    requires Inv(s) && WellFormed(s)
    ensures var (r, reply) := Retried(s, id, now); Answered(s, r, [reply])
  {
    hide Inv, Retried, Again;
    RetryDecides(s, id, now);
    RetryRequeues(s, id, now);
    SingleReply(Retried(s, id, now).1);
  }

  lemma CancelAnswered(s: State, id: RunId, now: real)
    requires WellFormed(s)
    ensures var (r, reply) := CancelAnswer(s, id, now); Answered(s, r, [reply])
  {
    hide CancelAnswer, CancelledFrom, TaskStopped;
    CancelDecides(s, id, now);
    CancelEnds(s, id, now);
    SingleReply(CancelAnswer(s, id, now).1);
  }

  lemma CloseAnswered(s: State, now: real)
    requires WellFormed(s)
    ensures Answered(s, Closed(s, now), [])
  {
    hide Closed, CancelledUpTo, WorkerStopped;
    CloseEnds(s, now);
    NoReply(s, Closed(s, now));
  }

  lemma StepAnswered(s: State, step: Step)
    requires Inv(s) && WellFormed(s) && Enabled(s, step)
    ensures Answered(s, Next(s, step), ReplyTo(s, step))
  {
    hide Inv, Submitted, Retried, CancelAnswer, Closed, SameSetup, Answered;
    if Internal(step) {
      InternalCounts(s, step);
    } else {
      match step
      case Submit(q, now) => SubmitAnswered(s, q, now);
      case Retry(id, now) => RetryAnswered(s, id, now);
      case Cancel(id, now) => CancelAnswered(s, id, now);
      case Close(now) => CloseAnswered(s, now);
    }
  }

  lemma {:induction false} StepsAnswered(s: State, steps: seq<Step>)
    requires Inv(s) && WellFormed(s) && Possible(s, steps)
    ensures Answered(s, After(s, steps), RepliesTo(s, steps))
    decreases |steps|
  {
    hide Inv, Next, ReplyTo;
    if steps != [] {
      StepAnswered(s, steps[0]);
      NextKeepsInv(s, steps[0]);
      StepsAnswered(Next(s, steps[0]), steps[1..]);
      var a, b := ReplyTo(s, steps[0]), RepliesTo(Next(s, steps[0]), steps[1..]);
      HowManySplit(a, b, IsAccepted);
      HowManySplit(a, b, IsRequeued);
      HowManySplit(a, b, IsRejected);
      HowManySplit(a, b, IsReplayed);
      HowManySplit(a, b, IsCancelled);
    }
  }

  lemma SubmittedAreMade(s: State)
    requires Inv(s)
    ensures s.tally.submitted == |s.recs|
  {
    hide Owned, Recorded, KeysInverse, HandlesExact, Bounded, Unfinished;
  }

  /**
   In every reachable state each request counter is the number of such answers given, and the
   evicted runs are those made and no longer registered.
   */
  lemma CountersTellTheReplies(config: Config, capacity: nat, steps: seq<Step>)
    requires Reaches(config, capacity, steps)
    ensures var s := StateAfter(config, capacity, steps);
      var replies := RepliesTo(Init(config, capacity), steps);
      && s.tally.submitted == |s.recs| == HowMany(replies, IsAccepted)
      && s.tally.retried == HowMany(replies, IsRequeued)
      && s.requests.rejected == HowMany(replies, IsRejected)
      && s.requests.replays == HowMany(replies, IsReplayed)
      && s.requests.cancelled == HowMany(replies, IsCancelled)
      && s.requests.evicted + |s.runs| == |s.recs|
  {
    hide Inv, After, Possible, RepliesTo, HowMany;
    ReachableInv(config, capacity, steps);
    InitInv(config, capacity);
    StepsAnswered(Init(config, capacity), steps);
    SubmittedAreMade(StateAfter(config, capacity, steps));
  }

  // ---------------------------------------------------------------------
  // Calls
  // ---------------------------------------------------------------------

  /** An LLM or tool call of run id comes back. */
  predicate Returns(s: State, step: Step, id: RunId) {
    step.CallEnd? && step.ok && HasRun(s, step.w) && s.slots[step.w].run == id
  }

  function ReturnCount(s: State, steps: seq<Step>, id: RunId): nat
    requires WellFormed(s) && Possible(s, steps)
    decreases |steps|
  {
    if steps == [] then 0
    else One(Returns(s, steps[0], id)) + ReturnCount(Next(s, steps[0]), steps[1..], id)
  }

  function StepsOf(recs: seq<Run>, id: RunId): nat {
    if id < |recs| then recs[id].steps else 0
  }

  ghost predicate StepsSame(a: seq<Run>, b: seq<Run>) {
    forall id: RunId :: StepsOf(b, id) == StepsOf(a, id)
  }

  lemma SubmitSteps(s: State, q: Request, now: real)
    requires Inv(s) && WellFormed(s)
    ensures StepsSame(s.recs, Submitted(s, q, now).0.recs)
  {
    hide Inv, Submitted, Kept;
    if Submitted(s, q, now).1.Accepted? {
      AcceptedEnters(s, q, now);
      var r := Submitted(s, q, now).0;
      forall id: RunId ensures StepsOf(r.recs, id) == StepsOf(s.recs, id) {
        if id < |s.recs| {
          assert r.recs[..|s.recs|][id] == r.recs[id];
        }
      }
    } else {
      RejectionAddsNothing(s, q, now);
    }
  }

  lemma EndedSteps(s: State, w: nat, outcome: Outcome, now: real)
    requires WellFormed(s) && HasRun(s, w)
    ensures StepsSame(s.recs, Ended(s, w, outcome, now).recs)
  {
    hide Bumped, SameSetup, Finalized;
    TaskOverKeepsRuns(Settled(s, s.slots[w].run, outcome, now), w);
  }

  lemma BegunSteps(s: State, w: nat, now: real)
    requires WellFormed(s) && HasRun(s, w) && s.slots[w].exec.Pending?
    ensures StepsSame(s.recs, Begun(s, w, now).recs)
  {
    hide Bumped, SameSetup, IdsKnown, Ended, Finalized;
    TaskOverKeepsRuns(s.(active := s.active + 1), w);
    EndedSteps(s.(active := s.active + 1), w, ILLEGAL, now);
  }

  lemma CallBegunSteps(s: State, w: nat, now: real)
    requires WellFormed(s) && HasRun(s, w)
    requires s.slots[w].exec.Active? && s.slots[w].exec.budget > 0
    ensures StepsSame(s.recs, CallBegun(s, w, now).recs)
  {
    hide Bumped, SameSetup, IdsKnown, Ended;
    EndedSteps(s, w, ILLEGAL, now);
  }

  lemma CallEndedSteps(s: State, w: nat, ok: bool, now: real, id: RunId)
    requires WellFormed(s) && HasRun(s, w) && s.slots[w].exec.Active?
    ensures StepsOf(CallEnded(s, w, ok, now).recs, id)
            == StepsOf(s.recs, id) + One(ok && s.slots[w].run == id)
  {
    hide Bumped, SameSetup;
  }

  lemma RequestSteps(s: State, k: RunId, now: real)
    requires WellFormed(s)
    ensures StepsSame(s.recs, Retried(s, k, now).0.recs)
    ensures StepsSame(s.recs, CancelAnswer(s, k, now).0.recs)
    ensures StepsSame(s.recs, Closed(s, now).recs)
  {
    hide Retried, CancelAnswer, Closed, WorkerStopped, TaskStopped;
    RetryRequeues(s, k, now);
    CancelEnds(s, k, now);
    CloseEnds(s, now);
  }

  lemma StepsStep(s: State, step: Step, id: RunId)
    requires Inv(s) && WellFormed(s) && Enabled(s, step)
    ensures StepsOf(Next(s, step).recs, id) == StepsOf(s.recs, id) + One(Returns(s, step, id))
  {
    hide Inv, Submitted, Retried, CancelAnswer, Closed, Begun, CallBegun, CallEnded, Ended, SameSetup, StepsOf;
    match step
    case Submit(q, now) => SubmitSteps(s, q, now);
    case Retry(k, now) => RequestSteps(s, k, now);
    case Cancel(k, now) => RequestSteps(s, k, now);
    case Close(now) => RequestSteps(s, id, now);
    case Dequeue(w) =>
    case Begin(w, now) => BegunSteps(s, w, now);
    case CallBegin(w, now) => CallBegunSteps(s, w, now);
    case CallEnd(w, ok, now) => CallEndedSteps(s, w, ok, now, id);
    case End(w, outcome, now) => EndedSteps(s, w, outcome, now);
    case Resume(w) =>
  }

  lemma {:induction false} AfterSteps(s: State, steps: seq<Step>, id: RunId)
    requires Inv(s) && WellFormed(s) && Possible(s, steps)
    ensures StepsOf(After(s, steps).recs, id) == StepsOf(s.recs, id) + ReturnCount(s, steps, id)
    decreases |steps|
  {
    hide Inv, Next, StepsOf, Returns;
    if steps != [] {
      StepsStep(s, steps[0], id);
      NextKeepsInv(s, steps[0]);
      AfterSteps(Next(s, steps[0]), steps[1..], id);
    }
  }

  /** Every run shows one step for each of its calls that has come back, over all its attempts. */
  lemma StepsTellTheCalls(config: Config, capacity: nat, steps: seq<Step>, id: RunId)
    requires Reaches(config, capacity, steps)
    requires id < |StateAfter(config, capacity, steps).recs|
    ensures StateAfter(config, capacity, steps).recs[id].steps == ReturnCount(Init(config, capacity), steps, id)
  {
    hide Inv, After, Possible, ReturnCount;
    InitInv(config, capacity);
    AfterSteps(Init(config, capacity), steps, id);
    assert StepsOf(StateAfter(config, capacity, steps).recs, id)
        == StateAfter(config, capacity, steps).recs[id].steps;
  }
}
