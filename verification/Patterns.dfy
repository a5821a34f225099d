/**
 The agent patterns (agents/patterns.py) as bounded drivers of the state machine, through
 `_complete` and `_execute_tool` (runtime.py).

 The replies of the model and the tools, the parsing of replies, and the moments at which some
 other task cancels the run are decided by the surroundings.
 */
module Patterns {
  import opened Common
  import opened Lifecycle

  /**
   One call: whether the run is cancelled before it, whether it is cancelled while the call is out,
   and what comes back; None stands for any exception, a timeout or a cancellation included.
   */
  datatype Reply = Reply(cancelBefore: bool, cancelDuring: bool, content: Option<string>, now: real)

  /** What `_parse_object` finds: a final answer, a tool to call, or neither. */
  datatype Decision = Final(text: string) | Act(tool: string) | Neither

  /** The surroundings of an attempt: the k-th call's reply, and the two parsers. */
  datatype World = World(reply: nat -> Reply, decide: string -> Decision, plan: string -> seq<string>)

  predicate Move(t: Transition, source: RunState, target: RunState) {
    t.from == source && t.to == target
  }

  /** Complete brackets: Running to Waiting, then Waiting to Running. */
  predicate Brackets(log: seq<Transition>) {
    log == [] ||
    (|log| >= 2 && Move(log[|log| - 2], Running, Waiting) && Move(log[|log| - 1], Waiting, Running)
     && Brackets(log[..|log| - 2]))
  }

  /** Brackets, then a cancellation outside or inside one. */
  predicate CutShort(log: seq<Transition>) {
    || (|log| >= 1 && Move(log[|log| - 1], Running, Cancelled) && Brackets(log[..|log| - 1]))
    || (|log| >= 2 && Move(log[|log| - 2], Running, Waiting) && Move(log[|log| - 1], Waiting, Cancelled)
        && Brackets(log[..|log| - 2]))
  }

  /** The log an attempt has added fits its state and the number of its calls. */
  predicate Bracketed(state: RunState, added: seq<Transition>, calls: nat) {
    || (state == Running && Brackets(added) && |added| == 2 * calls)
    || (state == Cancelled && CutShort(added) && |added| <= 2 * calls + 1)
  }

  /** A cancellation by another task, if the state allows it. */
  function Cut(r: Run, cancelled: bool, now: real): Run {
    if cancelled && CanTransition(r.state, Cancelled) then Applied(r, Cancelled, now) else r
  }

  function WithStep(r: Run, returned: bool): Run {
    if returned then r.(steps := r.steps + 1) else r
  }

  function Resumed(r: Run, now: real): Run {
    if r.state == Waiting then Applied(r, Running, now) else r
  }

  /** The run after the call has gone out, and whether it has: a cancelled run's call does not. */
  function Sent(r: Run, reply: Reply): (Run, bool) {
    var c := Cut(r, reply.cancelBefore, reply.now);
    if CanTransition(c.state, Waiting) then (Applied(c, Waiting, reply.now), true) else (c, false)
  }

  /** The run after the whole call. */
  function Called(r: Run, reply: Reply): Run {
    var (s, sent) := Sent(r, reply);
    if !sent then s
    else Resumed(WithStep(Cut(s, reply.cancelDuring, reply.now), reply.content.Some?), reply.now)
  }

  lemma OneBracket(log: seq<Transition>, a: Transition, b: Transition)
    requires Brackets(log) && Move(a, Running, Waiting)
    ensures Move(b, Waiting, Running) ==> Brackets(log + [a, b])
    ensures Move(b, Waiting, Cancelled) ==> CutShort(log + [a, b])
  {
    var longer := log + [a, b];
    assert longer[..|longer| - 2] == log;
  }

  lemma OneCut(log: seq<Transition>, a: Transition)
    requires Brackets(log) && Move(a, Running, Cancelled)
    ensures CutShort(log + [a])
  {
    assert (log + [a])[..|log|] == log;
  }

  lemma CallShape(r: Run, reply: Reply)
    requires r.state == Running || r.state == Cancelled
    ensures var (c, sent) := (Called(r, reply), Sent(r, reply).1);
      if r.state == Cancelled then
        !sent && c.state == Cancelled && c.transitions == r.transitions
      else if reply.cancelBefore then
        !sent && c.state == Cancelled && c.transitions == r.transitions + [Transition(Running, Cancelled, reply.now)]
      else
        var end := if reply.cancelDuring then Cancelled else Running;
        && sent && c.state == end
        && c.transitions == r.transitions + [Transition(Running, Waiting, reply.now),
                                             Transition(Waiting, end, reply.now)]
  {
    var out := Transition(Running, Waiting, reply.now);
    var end := if reply.cancelDuring then Cancelled else Running;
    assert (r.transitions + [out]) + [Transition(Waiting, end, reply.now)]
           == r.transitions + [out, Transition(Waiting, end, reply.now)];
  }

  /** A call closes its own bracket, unless the run is cancelled before or inside it. */
  lemma CallBrackets(r: Run, reply: Reply, before: seq<Transition>, calls: nat)
    requires before <= r.transitions && Bracketed(r.state, r.transitions[|before|..], calls)
    ensures var c := Called(r, reply);
      && before <= c.transitions
      && Bracketed(c.state, c.transitions[|before|..], if Sent(r, reply).1 then calls + 1 else calls)
  {
    hide Called, Sent, Brackets, CutShort;
    CallShape(r, reply);
    var log, c := r.transitions[|before|..], Called(r, reply);
    if r.state == Running {
      var more := c.transitions[|r.transitions|..];
      assert c.transitions[|before|..] == log + more;
      if reply.cancelBefore {
        OneCut(log, more[0]);
        assert more == [more[0]];
      } else {
        OneBracket(log, more[0], more[1]);
        assert more == [more[0], more[1]];
      }
    }
  }

  lemma StateOfAttempt(state: RunState, added: seq<Transition>, calls: nat)
    requires Bracketed(state, added, calls)
    ensures state == Running || state == Cancelled
  {
  }

  lemma CallSteps(r: Run, reply: Reply)
    ensures Called(r, reply).steps == r.steps + if Sent(r, reply).1 && reply.content.Some? then 1 else 0
    ensures Called(r, reply) == if Sent(r, reply).1
      then Resumed(WithStep(Cut(Sent(r, reply).0, reply.cancelDuring, reply.now), reply.content.Some?), reply.now)
      else Sent(r, reply).0
  {
  }

  /** One attempt at a run: what AgentContext gives a pattern, and what its calls have done so far. */
  class Attempt {
    const run: RunRecord
    const fsm: StateMachine
    const maxSteps: nat
    const world: World
    var llmCalls: nat
    var toolCalls: nat
    /** The log when the attempt began. */
    ghost const before: seq<Transition>

    /** The attempt is strictly bracketed so far. */
    ghost predicate Valid()
      reads this, run
    {
      before <= run.transitions && Bracketed(run.state, run.transitions[|before|..], Calls())
    }

    function Calls(): nat
      reads this
    {
      llmCalls + toolCalls
    }

    constructor (run: RunRecord, fsm: StateMachine, maxSteps: nat, world: World)
      requires run.state == Running
      ensures Valid() && llmCalls == 0 && toolCalls == 0 && before == run.transitions
      ensures this.run == run && this.fsm == fsm && this.maxSteps == maxSteps && this.world == world
    {
      this.run, this.fsm, this.maxSteps, this.world := run, fsm, maxSteps, world;
      llmCalls, toolCalls := 0, 0;
      before := run.transitions;
    }

    /** `cancel`, run by another task. */
    method CancelIf(cancelled: bool, now: real)
      modifies run, fsm
      ensures run.Value() == Cut(old(run.Value()), cancelled, now)
    {
      if cancelled {
        var moved := fsm.MoveIfAllowed(run, Cancelled, now);
      }
    }

    /** The call up to the point where it is out; false stands for the exception of an illegal move. */
    method Send(reply: Reply) returns (sent: bool)
      modifies run, fsm
      ensures (run.Value(), sent) == Sent(old(run.Value()), reply)
    {
      CancelIf(reply.cancelBefore, reply.now);
      sent := fsm.Move(run, Waiting, reply.now);
    }

    /** The rest of the call, with its finally block. */
    method Receive(reply: Reply)
      modifies run, fsm
      ensures run.Value()
              == Resumed(WithStep(Cut(old(run.Value()), reply.cancelDuring, reply.now), reply.content.Some?), reply.now)
    {
      CancelIf(reply.cancelDuring, reply.now);
      if reply.content.Some? {
        run.steps := run.steps + 1;
      }
      var back := fsm.MoveIfCurrent(run, Waiting, Running, reply.now);
    }

    /** `_complete` or `_execute_tool`; None stands for an exception. */
    method Call(tool: bool) returns (content: Option<string>)
      requires Valid()
      modifies run, fsm, this`llmCalls, this`toolCalls
      ensures Valid()
      ensures var reply := world.reply(old(Calls()));
        var sent := old(run.state) == Running && !reply.cancelBefore;
        && content == (if sent then reply.content else None)
        && llmCalls == old(llmCalls) + (if sent && !tool then 1 else 0)
        && toolCalls == old(toolCalls) + (if sent && tool then 1 else 0)
        && run.steps == old(run.steps) + (if content.Some? then 1 else 0)
        && run.state == (if sent && !reply.cancelDuring then Running else Cancelled)
    {
      hide Bracketed, Sent, Cut, Resumed, WithStep;
      var reply := world.reply(Calls());
      CallBrackets(run.Value(), reply, before, Calls());
      ghost var r := run.Value();
      StateOfAttempt(r.state, r.transitions[|before|..], Calls());
      CallShape(r, reply);
      CallSteps(r, reply);
      var sent := Send(reply);
      if !sent {
        return None;
      }
      if tool {
        toolCalls := toolCalls + 1;
      } else {
        llmCalls := llmCalls + 1;
      }
      Receive(reply);
      content := reply.content;
    }

    // -------------------------------------------------------------------
    // The patterns; None stands for an exception that leaves the pattern
    // -------------------------------------------------------------------

    /** The attempt was cancelled, or its last call brought an exception. */
    ghost predicate GaveUp()
      reads this, run
    {
      run.state == Cancelled || (Calls() > 0 && world.reply(Calls() - 1).content.None?)
    }

    /** Every call so far went out and came back, and each added one step to the run. */
    ghost predicate AllBack(stepsBefore: nat)
      reads this, run
    {
      && run.steps == stepsBefore + Calls()
      && forall k: nat :: k < Calls() ==> world.reply(k).content.Some?
    }

    method RunSimple() returns (output: Option<string>)
      requires Valid() && Calls() == 0
      modifies run, fsm, this`llmCalls, this`toolCalls
      ensures Valid() && llmCalls <= 1 && toolCalls == 0
      ensures output.Some? ==> llmCalls == 1 && output == world.reply(0).content
      ensures if output.Some? then AllBack(old(run.steps)) else GaveUp()
    {
      hide Bracketed;
      output := Call(false);
    }

    method RunReflection() returns (output: Option<string>)
      requires Valid() && Calls() == 0
      modifies run, fsm, this`llmCalls, this`toolCalls
      ensures Valid() && llmCalls <= 3 && toolCalls == 0
      ensures output.Some? ==> llmCalls == 3 && output == world.reply(2).content
      ensures if output.Some? then AllBack(old(run.steps)) else GaveUp()
    {
      hide Bracketed;
      var draft := Call(false);
      if draft.None? {
        return None;
      }
      var critique := Call(false);
      if critique.None? {
        return None;
      }
      output := Call(false);
    }

    method RunPlanSolve() returns (output: Option<string>)
      requires Valid() && Calls() == 0
      modifies run, fsm, this`llmCalls, this`toolCalls
      ensures Valid() && llmCalls <= maxSteps + 2 && toolCalls == 0
      ensures output.Some? ==>
        && world.reply(0).content.Some?
        && llmCalls == MinNat(|world.plan(world.reply(0).content.value)|, maxSteps) + 2
        && output == world.reply(llmCalls - 1).content
      ensures if output.Some? then AllBack(old(run.steps)) else GaveUp()
    {
      hide Bracketed;
      var response := Call(false);
      if response.None? {
        return None;
      }
      var plan := world.plan(response.value);
      if |plan| > maxSteps {
        plan := plan[..maxSteps];
      }
      for index := 0 to |plan|
        invariant Valid() && llmCalls == index + 1 && toolCalls == 0 && AllBack(old(run.steps))
      {
        var result := Call(false);
        if result.None? {
          return None;
        }
      }
      output := Call(false);
    }

    /** The k-th turn asked for a tool, and the tool came back. */
    ghost predicate Acted(k: nat)
    {
      && world.reply(2 * k).content.Some? && world.decide(world.reply(2 * k).content.value).Act?
      && world.reply(2 * k + 1).content.Some?
    }

    /** The loop goes on while tools are asked for; its last reply is the output, or holds it. */
    method RunReAct() returns (output: Option<string>)
      requires Valid() && Calls() == 0
      modifies run, fsm, this`llmCalls, this`toolCalls
      ensures Valid() && llmCalls <= maxSteps + 1 && toolCalls <= maxSteps
      ensures toolCalls <= llmCalls <= toolCalls + 1
      ensures output.Some? ==>
        var last := world.reply(2 * toolCalls).content;
        && llmCalls == toolCalls + 1 && last.Some?
        && (forall k: nat :: k < toolCalls ==> Acted(k))
        && (toolCalls < maxSteps ==> !world.decide(last.value).Act?)
        && output == match world.decide(last.value) case Final(text) => Some(text) case _ => last
      ensures if output.Some? then AllBack(old(run.steps)) else GaveUp()
    {
      hide Bracketed;
      for index := 0 to maxSteps
        invariant Valid() && llmCalls == toolCalls == index && AllBack(old(run.steps))
        invariant forall k: nat :: k < index ==> Acted(k)
      {
        var response := Call(false);
        if response.None? {
          return None;
        }
        match world.decide(response.value) {
          case Final(text) => return Some(text);
          case Neither => return response;
          case Act(tool) =>
            var observation := Call(true);
            if observation.None? {
              return None;
            }
        }
      }
      var response := Call(false);
      if response.None? {
        return None;
      }
      var decision := world.decide(response.value);
      output := if decision.Final? then Some(decision.text) else response;
    }

    /**
     `pattern.run`: whatever the replies, the parsers and the cancellations, on return and on
     exception alike the run is Running or Cancelled, its log has grown by complete brackets only
     (the last one perhaps cut short by a cancellation), and the calls stay within the budget.
     It returns an output when every call came back, and gives up when one did not.
     */
    method Run(kind: AgentKind) returns (output: Option<string>)
      requires Valid() && Calls() == 0
      modifies run, fsm, this`llmCalls, this`toolCalls
      ensures Valid() && Calls() <= CallBudget(kind, maxSteps)
      ensures run.state == Running || run.state == Cancelled
      ensures |run.transitions| <= |before| + 2 * CallBudget(kind, maxSteps) + 1
      ensures if output.Some? then Calls() > 0 && AllBack(old(run.steps)) else GaveUp()
    {
      match kind {
        case Simple => output := RunSimple();
        case ReAct => output := RunReAct();
        case Reflection => output := RunReflection();
        case PlanSolve => output := RunPlanSolve();
      }
    }
  }
}
