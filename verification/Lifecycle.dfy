/**
 Run records and the seven-state lifecycle (models.py and fsm.py).

 asyncio is cooperative and no body of a lock suspends, so one transition is one
 atomic step; the lock table is kept because `discard` changes it.
 */
module Lifecycle {
  import opened Common

  type RunId = nat

  datatype RunState = Created | Ready | Running | Waiting | Succeeded | Failed | Cancelled

  datatype AgentKind = Simple | ReAct | Reflection | PlanSolve

  datatype Transition = Transition(from: RunState, to: RunState, at: real)

  /** The most LLM and tool calls one attempt of a pattern can make. */
  function CallBudget(kind: AgentKind, maxSteps: nat): nat {
    match kind
    case Simple => 1
    case ReAct => 2 * maxSteps + 1
    case Reflection => 3
    case PlanSolve => maxSteps + 2
  }

  predicate Terminal(state: RunState) {
    state == Succeeded || state == Failed || state == Cancelled
  }

  /** The twelve legal edges. */
  predicate CanTransition(source: RunState, target: RunState) {
    match source
    case Created => target == Ready || target == Cancelled
    case Ready => target == Running || target == Cancelled
    case Running => target == Waiting || Terminal(target)
    case Waiting => target == Running || target == Failed || target == Cancelled
    case Failed => target == Ready
    case Succeeded => false
    case Cancelled => false
  }

  /** The same edges as pairs: the moves a run can make, and no others. */
  lemma EdgesExact(source: RunState, target: RunState)
    ensures CanTransition(source, target) <==>
      (source, target) in [(Created, Ready), (Created, Cancelled), (Ready, Running), (Ready, Cancelled),
                           (Running, Waiting), (Running, Succeeded), (Running, Failed), (Running, Cancelled),
                           (Waiting, Running), (Waiting, Failed), (Waiting, Cancelled), (Failed, Ready)]
  {
  }

  /** The fields of a run record, as a value. */
  datatype Run = Run(
    input: string,
    kind: AgentKind,
    session: string,
    state: RunState,
    output: Option<string>,
    error: Option<string>,
    createdAt: real,
    updatedAt: real,
    startedAt: Option<real>,
    finishedAt: Option<real>,
    transitions: seq<Transition>,
    steps: nat,
    cancelRequested: bool)

  function NewRun(input: string, kind: AgentKind, session: string, now: real): Run {
    Run(input, kind, session, Created, None, None, now, now, None, None, [], 0, false)
  }

  /** What the state machine writes when it moves a run to `target`. */
  function Applied(r: Run, target: RunState, now: real): Run {
    r.(state := target,
       updatedAt := now,
       startedAt := if target == Running && r.startedAt.None? then Some(now) else r.startedAt,
       finishedAt := if Terminal(target) then Some(now) else r.finishedAt,
       transitions := r.transitions + [Transition(r.state, target, now)])
  }

  datatype Edge = Edge(source: RunState, target: RunState)

  /** The counters `state_transitions_X_to_Y_total`; a counter starts at zero when first touched. */
  type EdgeCounts = map<Edge, nat>

  function CountOf(c: EdgeCounts, source: RunState, target: RunState): nat {
    if Edge(source, target) in c then c[Edge(source, target)] else 0
  }

  function Bumped(c: EdgeCounts, source: RunState, target: RunState): EdgeCounts {
    c[Edge(source, target) := CountOf(c, source, target) + 1]
  }

  /** Moves into Failed and into Cancelled, over every source state. */
  function Failures(c: EdgeCounts): nat {
    CountOf(c, Running, Failed) + CountOf(c, Waiting, Failed)
  }

  function Cancellations(c: EdgeCounts): nat {
    CountOf(c, Created, Cancelled) + CountOf(c, Ready, Cancelled)
    + CountOf(c, Running, Cancelled) + CountOf(c, Waiting, Cancelled)
  }

  // ---------------------------------------------------------------------
  // Logs as paths of the state machine
  // ---------------------------------------------------------------------

  function EndOf(log: seq<Transition>): RunState {
    if log == [] then Created else log[|log| - 1].to
  }

  /** A log that starts at Created, whose entries join up, and whose every edge is legal. */
  predicate LegalLog(log: seq<Transition>) {
    log == [] ||
    var front, last := log[..|log| - 1], log[|log| - 1];
    LegalLog(front) && last.from == EndOf(front) && CanTransition(last.from, last.to)
  }

  function CountEdge(log: seq<Transition>, source: RunState, target: RunState): nat {
    if log == [] then 0
    else
      var last := log[|log| - 1];
      CountEdge(log[..|log| - 1], source, target)
      + (if last.from == source && last.to == target then 1 else 0)
  }

  /** When the last entry was written. */
  function LastAt(log: seq<Transition>, createdAt: real): real {
    if log == [] then createdAt else log[|log| - 1].at
  }

  /** When the log first enters a state. */
  function FirstInto(log: seq<Transition>, state: RunState): Option<real> {
    if log == [] then None
    else
      var earlier, last := FirstInto(log[..|log| - 1], state), log[|log| - 1];
      if earlier.None? && last.to == state then Some(last.at) else earlier
  }

  lemma LegalLogAppend(log: seq<Transition>, t: Transition)
    requires LegalLog(log)
    requires t.from == EndOf(log) && CanTransition(t.from, t.to)
    ensures LegalLog(log + [t])
    ensures EndOf(log + [t]) == t.to
    ensures FirstInto(log + [t], Running)
            == if FirstInto(log, Running).None? && t.to == Running then Some(t.at) else FirstInto(log, Running)
  {
    assert (log + [t])[..|log|] == log;
  }

  function Arrivals(log: seq<Transition>, state: RunState): nat {
    if log == [] then 0
    else Arrivals(log[..|log| - 1], state) + One(log[|log| - 1].to == state)
  }

  function Departures(log: seq<Transition>, state: RunState): nat {
    if log == [] then 0
    else Departures(log[..|log| - 1], state) + One(log[|log| - 1].from == state)
  }

  /** Every state is left as often as it is entered, save the one the log ends in. */
  lemma {:induction false} FlowConservation(log: seq<Transition>, state: RunState)
    requires LegalLog(log)
    ensures One(state == Created) + Arrivals(log, state) == Departures(log, state) + One(EndOf(log) == state)
  {
    if log != [] {
      FlowConservation(log[..|log| - 1], state);
    }
  }

  lemma {:induction false} EdgesIntoReady(log: seq<Transition>)
    requires LegalLog(log)
    ensures Arrivals(log, Ready) == CountEdge(log, Created, Ready) + CountEdge(log, Failed, Ready)
    ensures CountEdge(log, Ready, Running) <= Departures(log, Ready)
    ensures CountEdge(log, Created, Ready) <= Departures(log, Created)
    ensures Arrivals(log, Created) == 0
  {
    if log != [] {
      EdgesIntoReady(log[..|log| - 1]);
    }
  }

  /** A run is acquired by a worker at most once more than it is retried. */
  lemma AcquisitionsBounded(log: seq<Transition>)
    requires LegalLog(log)
    ensures CountEdge(log, Ready, Running) <= 1 + CountEdge(log, Failed, Ready)
  {
    EdgesIntoReady(log);
    FlowConservation(log, Ready);
    FlowConservation(log, Created);
  }

  lemma {:induction false} NothingLeaves(log: seq<Transition>)
    requires LegalLog(log)
    ensures Departures(log, Succeeded) == 0 && Departures(log, Cancelled) == 0
  {
    if log != [] {
      NothingLeaves(log[..|log| - 1]);
    }
  }

  /** A run succeeds at most once and is cancelled at most once, never both, and then stays so. */
  lemma {:induction false} OneFinalOutcome(log: seq<Transition>)
    requires LegalLog(log)
    ensures Arrivals(log, Succeeded) == One(EndOf(log) == Succeeded)
    ensures Arrivals(log, Cancelled) == One(EndOf(log) == Cancelled)
  {
    NothingLeaves(log);
    FlowConservation(log, Succeeded);
    FlowConservation(log, Cancelled);
  }

  /** Succeeded and Cancelled are final: no legal log goes past them. */
  lemma {:induction false} FinalStatesEndTheLog(log: seq<Transition>, n: nat)
    requires LegalLog(log) && n <= |log|
    requires EndOf(log[..n]) == Succeeded || EndOf(log[..n]) == Cancelled
    ensures n == |log|
  {
    if n < |log| {
      var front := log[..|log| - 1];
      assert front[..n] == log[..n];
      FinalStatesEndTheLog(front, n);
    }
  }

  // ---------------------------------------------------------------------
  // The record and the state machine as the source keeps them
  // ---------------------------------------------------------------------

  class RunRecord {
    const id: RunId
    const input: string
    const kind: AgentKind
    const sessionId: string
    const createdAt: real
    var state: RunState
    var output: Option<string>
    var error: Option<string>
    var updatedAt: real
    var startedAt: Option<real>
    var finishedAt: Option<real>
    var transitions: seq<Transition>
    var steps: nat
    var cancelRequested: bool

    ghost function Value(): (r: Run)
      reads this
      ensures r.state == state
    {
      Run(input, kind, sessionId, state, output, error, createdAt, updatedAt,
          startedAt, finishedAt, transitions, steps, cancelRequested)
    }

    constructor (id: RunId, input: string, kind: AgentKind, sessionId: string, now: real)
      ensures this.id == id
      ensures Value() == NewRun(input, kind, sessionId, now)
    {
      this.id, this.input, this.kind, this.sessionId := id, input, kind, sessionId;
      createdAt, updatedAt := now, now;
      state, output, error := Created, None, None;
      startedAt, finishedAt, transitions, steps := None, None, [], 0;
      cancelRequested := false;
    }
  }

  datatype MoveOutcome = Done | Skipped | Illegal

  class StateMachine {
    /** Ids for which a lock object exists. */
    var locks: set<RunId>

    constructor ()
      ensures locks == {}
    {
      locks := {};
    }

    /** `_apply`: the unconditional write. */
    method Apply(run: RunRecord, target: RunState, now: real)
      modifies run
      ensures run.Value() == Applied(old(run.Value()), target, now)
    {
      var source := run.state;
      run.state := target;
      run.updatedAt := now;
      if target == Running && run.startedAt.None? {
        run.startedAt := Some(now);
      }
      if target == Succeeded || target == Failed || target == Cancelled {
        run.finishedAt := Some(now);
      }
      run.transitions := run.transitions + [Transition(source, target, now)];
    }

    /** `transition`: false stands for InvalidStateTransition, raised without a change. */
    method Move(run: RunRecord, target: RunState, now: real) returns (ok: bool)
      modifies run, this
      ensures ok == CanTransition(old(run.state), target)
      ensures run.Value() == if ok then Applied(old(run.Value()), target, now) else old(run.Value())
      ensures locks == old(locks) + {run.id}
    {
      locks := locks + {run.id};
      ok := CanTransition(run.state, target);
      if ok {
        Apply(run, target, now);
      }
    }

    /** `transition_if_current`: Illegal stands for the exception, raised only when the state matches. */
    method MoveIfCurrent(run: RunRecord, expected: RunState, target: RunState, now: real)
      returns (outcome: MoveOutcome)
      modifies run, this
      ensures outcome.Skipped? <==> old(run.state) != expected
      ensures outcome.Illegal? <==> old(run.state) == expected && !CanTransition(expected, target)
      ensures run.Value() == if outcome.Done? then Applied(old(run.Value()), target, now) else old(run.Value())
      ensures locks == old(locks) + {run.id}
    {
      locks := locks + {run.id};
      if run.state != expected {
        return Skipped;
      }
      if !CanTransition(expected, target) {
        return Illegal;
      }
      Apply(run, target, now);
      outcome := Done;
    }

    /** `transition_if_allowed`. */
    method MoveIfAllowed(run: RunRecord, target: RunState, now: real) returns (moved: bool)
      modifies run, this
      ensures moved == CanTransition(old(run.state), target)
      ensures run.Value() == if moved then Applied(old(run.Value()), target, now) else old(run.Value())
      ensures locks == old(locks) + {run.id}
    {
      locks := locks + {run.id};
      if !CanTransition(run.state, target) {
        return false;
      }
      Apply(run, target, now);
      moved := true;
    }

    /** `discard`: no lock is held at a step boundary, so the entry always goes. */
    method Discard(id: RunId)
      modifies this
      ensures locks == old(locks) - {id}
    {
      locks := locks - {id};
    }
  }
}
