/** What the end of an execution makes of its run, step by step and over whole histories. */
module Outcomes {
  import opened Common
  import opened Lifecycle
  import opened Scheduler
  import opened Ownership
  import opened SchedulerInvariant
  import opened Guarantees
  import opened Logs
  import A = Accounts

  // ---------------------------------------------------------------------
  // One step
  // ---------------------------------------------------------------------

  /** Settling touches no other run. */
  lemma SettledOthers(s: State, id: RunId, outcome: Outcome, now: real)
    requires WellFormed(s) && id < |s.recs|
    ensures var r := Settled(s, id, outcome, now);
      |r.recs| == |s.recs| && forall k :: 0 <= k < |s.recs| && k != id ==> r.recs[k] == s.recs[k]
  {
    hide Bumped, Applied, Written;
  }

  lemma FinalizedKeeps(s: State, w: nat)
    requires WellFormed(s) && HasRun(s, w)
    ensures var r := Finalized(s, w); r.recs == s.recs && r.tally == s.tally
  {
  }

  /** A run that is not cancelled meanwhile ends as its pattern ended, and is counted accordingly. */
  lemma RunningEnds(s: State, w: nat, outcome: Outcome, now: real)
    requires Inv(s) && WellFormed(s) && Enabled(s, End(w, outcome, now))
    requires s.recs[s.slots[w].run].state == Running
    ensures var r, id := Next(s, End(w, outcome, now)), s.slots[w].run;
      && |r.recs| == |s.recs|
      && r.recs[id].finishedAt == Some(now) && r.recs[id].updatedAt == now
      && r.tally.submitted == s.tally.submitted && r.tally.retried == s.tally.retried
      && match outcome
         case Returned(output) =>
           && r.recs[id].state == Succeeded
           && r.recs[id].output == Some(output) && r.recs[id].error == s.recs[id].error
           && r.tally.succeeded == s.tally.succeeded + 1 && r.tally.failed == s.tally.failed
         case RefusedTurn(output, error) =>
           && r.recs[id].state == Failed
           && r.recs[id].output == Some(output) && r.recs[id].error == Some(error)
           && r.tally.succeeded == s.tally.succeeded && r.tally.failed == s.tally.failed + 1
         case Raised(error) =>
           && r.recs[id].state == Failed
           && r.recs[id].output == s.recs[id].output && r.recs[id].error == Some(error)
           && r.tally.succeeded == s.tally.succeeded && r.tally.failed == s.tally.failed + 1
         case TaskCancelled =>
           && r.recs[id].state == Cancelled
           && r.recs[id].output == s.recs[id].output && r.recs[id].error == s.recs[id].error
           && r.tally == s.tally
  {
    hide Inv, Finalized, Bumped, SameSetup;
    FinalizedKeeps(Settled(s, s.slots[w].run, outcome, now), w);
  }

  /** A run cancelled meanwhile stays cancelled and is not counted; output and error may still be written. */
  lemma CancelledEnds(s: State, w: nat, outcome: Outcome, now: real)
    requires Inv(s) && WellFormed(s) && Enabled(s, End(w, outcome, now))
    requires s.recs[s.slots[w].run].state != Running
    ensures var r, id := Next(s, End(w, outcome, now)), s.slots[w].run;
      && s.recs[id].state == Cancelled && r.tally == s.tally && |r.recs| == |s.recs|
      && r.recs[id] == s.recs[id].(
           output := if outcome.Returned? || outcome.RefusedTurn? then Some(outcome.output) else s.recs[id].output,
           error := if outcome.RefusedTurn? || outcome.Raised? then Some(outcome.error) else s.recs[id].error)
  {
    hide Inv, Finalized, Bumped, SameSetup;
    PhaseOfHolder(s, w);
    FinalizedKeeps(Settled(s, s.slots[w].run, outcome, now), w);
  }

  /** The end of one execution leaves every other run as it was. */
  lemma OthersUntouched(s: State, w: nat, outcome: Outcome, now: real)
    requires WellFormed(s) && Enabled(s, End(w, outcome, now))
    ensures var r, id := Next(s, End(w, outcome, now)), s.slots[w].run;
      |r.recs| == |s.recs| && forall k :: 0 <= k < |s.recs| && k != id ==> r.recs[k] == s.recs[k]
  {
    hide Settled, Finalized, SameSetup;
    SettledOthers(s, s.slots[w].run, outcome, now);
    FinalizedKeeps(Settled(s, s.slots[w].run, outcome, now), w);
  }

  // ---------------------------------------------------------------------
  // Whole histories
  // ---------------------------------------------------------------------

  /** The pattern of run id returned, and its turn was stored, before the run was cancelled. */
  predicate Succeeds(s: State, step: Step, id: RunId) {
    step.End? && Executes(s, step.w, id, Running) && step.outcome.Returned?
  }

  /** The pattern of run id raised, or its turn was refused, before the run was cancelled. */
  predicate Fails(s: State, step: Step, id: RunId) {
    step.End? && Executes(s, step.w, id, Running) && (step.outcome.Raised? || step.outcome.RefusedTurn?)
  }

  function SuccessCount(s: State, steps: seq<Step>, id: RunId): nat
    requires WellFormed(s) && Possible(s, steps)
    decreases |steps|
  {
    if steps == [] then 0
    else One(Succeeds(s, steps[0], id)) + SuccessCount(Next(s, steps[0]), steps[1..], id)
  }

  function FailureCount(s: State, steps: seq<Step>, id: RunId): nat
    requires WellFormed(s) && Possible(s, steps)
    decreases |steps|
  {
    if steps == [] then 0
    else One(Fails(s, steps[0], id)) + FailureCount(Next(s, steps[0]), steps[1..], id)
  }

  lemma NewOutcomeEdges(s: State, step: Step, id: RunId)
    requires WellFormed(s) && Enabled(s, step)
    ensures CountEdge(NewEntries(s, step, id), Running, Succeeded) == One(Succeeds(s, step, id))
    ensures CountEdge(NewEntries(s, step, id), Running, Failed) == One(Fails(s, step, id))
  {
    hide Submitted, Retried;
    if |NewEntries(s, step, id)| == 1 {
      OneEntry(NewEntries(s, step, id), Running, Succeeded);
      OneEntry(NewEntries(s, step, id), Running, Failed);
    }
  }

  lemma {:induction false} OutcomeEdges(s: State, steps: seq<Step>, id: RunId)
    requires WellFormed(s) && Possible(s, steps)
    ensures CountEdge(EntriesOf(s, steps, id), Running, Succeeded) == SuccessCount(s, steps, id)
    ensures CountEdge(EntriesOf(s, steps, id), Running, Failed) == FailureCount(s, steps, id)
    decreases |steps|
  {
    hide Next, NewEntries, Succeeds, Fails;
    if steps != [] {
      var m, entries := Next(s, steps[0]), NewEntries(s, steps[0], id);
      OutcomeEdges(m, steps[1..], id);
      NewOutcomeEdges(s, steps[0], id);
      CountEntries(entries, EntriesOf(m, steps[1..], id), Running, Succeeded);
      CountEntries(entries, EntriesOf(m, steps[1..], id), Running, Failed);
    }
  }

  /**
   In every reachable state, run by run: the Running-to-Succeeded edges of the log are the returns of
   its pattern taken in Running, the Running-to-Failed edges the exceptions; and a run is in state
   Succeeded exactly when such a return has happened.
   */
  lemma LogTellsTheOutcomes(config: Config, capacity: nat, steps: seq<Step>, id: RunId)
    requires Reaches(config, capacity, steps)
    requires id < |StateAfter(config, capacity, steps).recs|
    ensures var r := StateAfter(config, capacity, steps).recs[id];
      && CountEdge(r.transitions, Running, Succeeded) == SuccessCount(Init(config, capacity), steps, id)
      && CountEdge(r.transitions, Running, Failed) == FailureCount(Init(config, capacity), steps, id)
      && (r.state == Succeeded <==> SuccessCount(Init(config, capacity), steps, id) > 0)
  {
    hide Inv, After, Possible, EntriesOf, SuccessCount, FailureCount;
    LogIsTheHistory(config, capacity, steps, id);
    OutcomeEdges(Init(config, capacity), steps, id);
    LogTellsTheState(config, capacity, steps, id);
    var log := StateAfter(config, capacity, steps).recs[id].transitions;
    OneFinalOutcome(log);
    A.IntoSucceeded(log);
  }
}
