/** Run by run, the Failed-to-Ready edges of the log are the retries of the history. */
module Retries {
  import opened Common
  import opened Lifecycle
  import opened Eviction
  import opened Scheduler
  import opened Ownership
  import opened SchedulerInvariant
  import opened Guarantees
  import opened Logs

  function RetryEdges(r: Run): nat {
    CountEdge(r.transitions, Failed, Ready)
  }

  function EdgesOf(recs: seq<Run>, id: RunId): nat {
    if id < |recs| then RetryEdges(recs[id]) else 0
  }

  /** The step is a retry of this run that is not turned down. */
  predicate Retries(s: State, step: Step, id: RunId)
    requires WellFormed(s)
  {
    step.Retry? && step.id == id && Retried(s, id, step.now).1 == Requeued
  }

  function RetryCount(s: State, steps: seq<Step>, id: RunId): nat
    requires WellFormed(s) && Possible(s, steps)
    decreases |steps|
  {
    if steps == [] then 0
    else One(Retries(s, steps[0], id)) + RetryCount(Next(s, steps[0]), steps[1..], id)
  }

  /** A step adds a retry edge to the log of a run exactly when it is a retry of that run. */
  lemma NextEdges(s: State, step: Step, k: RunId)
    requires Inv(s) && WellFormed(s) && Enabled(s, step)
    ensures EdgesOf(Next(s, step).recs, k) == EdgesOf(s.recs, k) + One(Retries(s, step, k))
  {
    hide Inv, Next, Enabled;
    LogStep(s, step, k);
    CountEntries(LogOf(s.recs, k), NewEntries(s, step, k), Failed, Ready);
    assert EdgesOf(s.recs, k) == CountEdge(LogOf(s.recs, k), Failed, Ready);
    NewRetryEdge(s, step, k);
  }

  lemma NewRetryEdge(s: State, step: Step, k: RunId)
    requires WellFormed(s) && Enabled(s, step)
    ensures CountEdge(NewEntries(s, step, k), Failed, Ready) == One(Retries(s, step, k))
  {
    hide Submitted, Retried;
    if |NewEntries(s, step, k)| == 1 {
      OneEntry(NewEntries(s, step, k), Failed, Ready);
    }
  }

  lemma {:induction false} AfterEdges(s: State, steps: seq<Step>, k: RunId)
    requires Inv(s) && WellFormed(s) && Possible(s, steps)
    ensures EdgesOf(After(s, steps).recs, k) == EdgesOf(s.recs, k) + RetryCount(s, steps, k)
    decreases |steps|
  {
    hide Inv, Next, EdgesOf, Retries;
    if steps != [] {
      NextEdges(s, steps[0], k);
      NextKeepsInv(s, steps[0]);
      AfterEdges(Next(s, steps[0]), steps[1..], k);
    }
  }

  /**
   In every reachable state the log of every run has one Failed-to-Ready edge for each accepted
   retry of that run, and so at most that many acquisitions and one more.
   */
  lemma LogTellsTheRetries(config: Config, capacity: nat, steps: seq<Step>, id: RunId)
    requires Reaches(config, capacity, steps)
    requires id < |StateAfter(config, capacity, steps).recs|
    ensures var r := StateAfter(config, capacity, steps).recs[id];
      var retries := RetryCount(Init(config, capacity), steps, id);
      && CountEdge(r.transitions, Failed, Ready) == retries
      && CountEdge(r.transitions, Ready, Running) <= 1 + retries
  {
    hide Inv, After, Possible, RetryCount;
    InitInv(config, capacity);
    AfterEdges(Init(config, capacity), steps, id);
    LogTellsTheState(config, capacity, steps, id);
  }
}
