/**
 The run scheduler (runtime.py) as a state machine over its atomic steps.

 A step is the code between two points where a coroutine can really suspend:
 `queue.get`, the start of a task, `shield`, an LLM or tool call, `pattern.run`.
 With the in-memory queue and session store nothing else suspends, so submit, retry,
 cancel and the transitions are one step each; steps interleave in any order.
 A step reads the clock once. Run ids are numbered in creation order.
 */
module Scheduler {
  import opened Common
  import opened Lifecycle
  import opened Eviction

  datatype Config = Config(
    maxConcurrency: nat, queueCapacity: nat, maxAgentSteps: nat, retention: real, maxRunRecords: nat)

  predicate ValidConfig(c: Config) {
    && c.maxConcurrency > 0 && c.queueCapacity > 0 && c.maxAgentSteps > 0
    && c.retention > 0.0 && c.maxRunRecords > 0
    && c.maxRunRecords >= c.maxConcurrency + c.queueCapacity
  }

  /** The task a worker created: not started, in its pattern, or over and not yet noticed. */
  datatype Exec =
    | Pending(cancelled: bool)
    | Active(inCall: bool, budget: nat)
    | Over(crashed: bool)

  /** A worker; an orphan is a task whose worker was stopped by `close`. */
  datatype Slot = Idle | Busy(run: RunId, exec: Exec, orphan: bool) | Dead

  datatype Entry = Entry(run: RunId, input: string, kind: AgentKind, session: Option<string>)

  /**
   `recs` holds every run object ever created, `runs` the ids still registered; an
   evicted run can outlive its registration in the task that executes it.
   */
  datatype State = State(
    config: Config,
    capacity: nat,
    started: bool,
    closed: bool,
    recs: seq<Run>,
    runs: set<RunId>,
    events: map<RunId, bool>,
    index: map<string, Entry>,
    byRun: map<RunId, string>,
    queue: seq<RunId>,
    slots: seq<Slot>,
    tasks: map<RunId, nat>,
    // counters; active is the gauge `runs_active`
    tally: Tally,
    requests: RequestCounts,
    active: int,
    edges: EdgeCounts)

  datatype Tally = Tally(submitted: nat, retried: nat, succeeded: nat, failed: nat)

  /** Counters no guarantee depends on. */
  datatype RequestCounts = RequestCounts(cancelled: nat, evicted: nat, rejected: nat, replays: nat)

  function Init(config: Config, capacity: nat): State {
    State(config, capacity, false, false, [], {}, map[], map[], map[], [], [], map[],
          Tally(0, 0, 0, 0), RequestCounts(0, 0, 0, 0), 0, map[])
  }

  /** Every id in use denotes a run object. */
  predicate WellFormed(s: State) {
    IdsKnown(|s.recs|, s.runs, s.queue, s.slots)
  }

  predicate IdsKnown(made: nat, runs: set<RunId>, queue: seq<RunId>, slots: seq<Slot>) {
    && (forall id :: id in runs ==> id < made)
    && (forall i :: 0 <= i < |queue| ==> queue[i] < made)
    && (forall w :: 0 <= w < |slots| && slots[w].Busy? ==> slots[w].run < made)
  }

  /** Limits are fixed for good, and a started pool stays started. */
  predicate SameSetup(s: State, r: State) {
    r.config == s.config && r.capacity == s.capacity && (s.started ==> r.started)
  }

  /** Only submit changes which runs are registered and which keys they hold. */
  predicate SameRegistry(s: State, r: State) {
    && SameSetup(s, r)
    && r.runs == s.runs && r.index == s.index && r.byRun == s.byRun && |r.recs| == |s.recs|
  }

  // ---------------------------------------------------------------------
  // Transitions, eviction, submission
  // ---------------------------------------------------------------------

  /** A transition and the counter its hook increments. */
  function Moved(s: State, id: RunId, target: RunState, now: real): (r: State)
    requires WellFormed(s) && id < |s.recs|
    ensures WellFormed(r) && SameRegistry(s, r)
  {
    s.(recs := s.recs[id := Applied(s.recs[id], target, now)],
       edges := Bumped(s.edges, s.recs[id].state, target))
  }

  function StartWorkers(s: State): (r: State)
    requires WellFormed(s)
    ensures WellFormed(r) && SameSetup(s, r)
  {
    if s.started then s
    else s.(started := true, slots := seq(s.config.maxConcurrency, _ => Idle))
  }

  function KeysOf(byRun: map<RunId, string>, gone: set<RunId>): set<string> {
    set id | id in gone && id in byRun :: byRun[id]
  }

  lemma KeysOfAdd(byRun: map<RunId, string>, gone: set<RunId>, id: RunId)
    ensures KeysOf(byRun, gone + {id})
            == KeysOf(byRun, gone) + (if id in byRun then {byRun[id]} else {})
  {
  }

  function Evict(s: State, gone: set<RunId>): (r: State)
    requires WellFormed(s)
    ensures WellFormed(r) && SameSetup(s, r)
  {
    s.(runs := s.runs - gone,
       events := s.events - gone,
       index := s.index - KeysOf(s.byRun, gone),
       byRun := s.byRun - gone,
       requests := s.requests.(evicted := s.requests.evicted + |gone|))
  }

  function CleanedUp(s: State, reserve: nat, now: real): (r: State)
    requires WellFormed(s)
    ensures WellFormed(r) && SameSetup(s, r)
  {
    Evict(s, Victims(s.recs, s.runs, now - s.config.retention, reserve, s.config.maxRunRecords))
  }

  datatype Request = Request(
    input: string, kind: AgentKind, session: Option<string>, key: Option<string>, freshSession: string)

  datatype Reply =
    | Accepted(id: RunId) | Replayed(id: RunId) | Requeued | Answer(value: bool)
    | EmptyInput | RuntimeClosed | BadKey | Conflict | QueueFull | NotFound | IllegalTransition

  predicate BadRequestKey(key: Option<string>) {
    key.Some? && (key.value == "" || |key.value| > 128)
  }

  function SessionOf(q: Request): string {
    if q.session.Some? && q.session.value != "" then q.session.value else q.freshSession
  }

  predicate SameRequest(q: Request, e: Entry) {
    q.input == e.input && q.kind == e.kind && q.session == e.session
  }

  /** A new run, registered, moved from Created to Ready and queued. */
  function Admitted(s: State, q: Request, now: real): (r: State)
    requires WellFormed(s)
    ensures WellFormed(r) && SameSetup(s, r)
  {
    var id := |s.recs|;
    var run := NewRun(q.input, q.kind, SessionOf(q), now);
    s.(recs := s.recs + [Applied(run, Ready, now)],
       runs := s.runs + {id},
       events := s.events[id := false],
       index := if q.key.Some? then s.index[q.key.value := Entry(id, q.input, q.kind, q.session)] else s.index,
       byRun := if q.key.Some? then s.byRun[id := q.key.value] else s.byRun,
       queue := s.queue + [id],
       tally := s.tally.(submitted := s.tally.submitted + 1),
       edges := Bumped(s.edges, Created, Ready))
  }

  function AdmitUnlessFull(s: State, q: Request, now: real): (r: (State, Reply))
    requires WellFormed(s)
    ensures WellFormed(r.0) && SameSetup(s, r.0)
  {
    if |s.queue| >= s.capacity then
      (s.(requests := s.requests.(rejected := s.requests.rejected + 1)), QueueFull)
    else
      (Admitted(s, q, now), Accepted(|s.recs|))
  }

  /** The part of submit under the submission lock, after eviction. */
  function Looked(s: State, q: Request, now: real): (r: (State, Reply))
    requires WellFormed(s)
    ensures WellFormed(r.0) && SameSetup(s, r.0)
  {
    if q.key.Some? && q.key.value in s.index then
      var e := s.index[q.key.value];
      if e.run in s.runs then
        if !SameRequest(q, e) then (s, Conflict)
        else (s.(requests := s.requests.(replays := s.requests.replays + 1)), Replayed(e.run))
      else
        AdmitUnlessFull(s.(index := s.index - {q.key.value}), q, now)
    else
      AdmitUnlessFull(s, q, now)
  }

  /** `submit`, given the input with surrounding blanks already stripped. */
  function Submitted(s: State, q: Request, now: real): (r: (State, Reply))
    requires WellFormed(s)
    ensures WellFormed(r.0) && SameSetup(s, r.0)
  {
    if q.input == "" then (s, EmptyInput)
    else if s.closed then (s, RuntimeClosed)
    else if BadRequestKey(q.key) then (StartWorkers(s), BadKey)
    else Looked(CleanedUp(StartWorkers(s), 1, now), q, now)
  }

  // ---------------------------------------------------------------------
  // Retry, cancel, close
  // ---------------------------------------------------------------------

  function Reset(r: Run): Run {
    r.(error := None, output := None, finishedAt := None, cancelRequested := false)
  }

  function RequeuedRun(s: State, id: RunId, now: real): (r: State)
    requires WellFormed(s) && id < |s.recs|
    ensures WellFormed(r) && SameRegistry(s, r)
  {
    var m := Moved(s, id, Ready, now);
    m.(recs := m.recs[id := Reset(m.recs[id])],
       events := s.events[id := false],
       queue := s.queue + [id],
       tally := s.tally.(retried := s.tally.retried + 1))
  }

  function Retried(s: State, id: RunId, now: real): (r: (State, Reply))
    requires WellFormed(s)
    ensures WellFormed(r.0) && SameRegistry(s, r.0)
  {
    if id !in s.runs then (s, NotFound)
    else if |s.queue| >= s.capacity then
      (s.(requests := s.requests.(rejected := s.requests.rejected + 1)), QueueFull)
    else if !CanTransition(s.recs[id].state, Ready) then (s, IllegalTransition)
    else (RequeuedRun(s, id, now), Requeued)
  }

  /** Move to Cancelled and set the completion event: common to cancel and close. */
  function CancelledRun(s: State, id: RunId, now: real): (r: State)
    requires WellFormed(s) && id < |s.recs|
    ensures WellFormed(r) && SameRegistry(s, r)
    ensures r.slots == s.slots && r.tasks == s.tasks && r.queue == s.queue
  {
    Moved(s, id, Cancelled, now).(events := s.events[id := true])
  }

  /** `task.cancel()`: a task that has not started will never enter its body. */
  function CancelTask(slot: Slot): Slot {
    if slot.Busy? && slot.exec.Pending? then slot.(exec := Pending(true)) else slot
  }

  function WithTaskCancelled(s: State, id: RunId): (r: State)
    requires WellFormed(s)
    ensures WellFormed(r) && SameRegistry(s, r)
  {
    if id in s.tasks && s.tasks[id] < |s.slots| then
      s.(slots := s.slots[s.tasks[id] := CancelTask(s.slots[s.tasks[id]])])
    else s
  }

  function CancelRequested(s: State, id: RunId): (r: State)
    requires WellFormed(s) && id < |s.recs|
    ensures WellFormed(r) && SameRegistry(s, r)
  {
    s.(recs := s.recs[id := s.recs[id].(cancelRequested := true)])
  }

  function CancelAnswer(s: State, id: RunId, now: real): (r: (State, Reply))
    requires WellFormed(s)
    ensures WellFormed(r.0) && SameRegistry(s, r.0)
  {
    if id !in s.runs then (s, NotFound)
    else if Terminal(s.recs[id].state) then (s, Answer(false))
    else
      var c := WithTaskCancelled(CancelledRun(CancelRequested(s, id), id, now), id);
      (c.(requests := c.requests.(cancelled := c.requests.cancelled + 1)), Answer(true))
  }

  /** close's loop over the registry, up to id n. */
  function CancelledBelow(s: State, n: nat, now: real): (r: State)
    requires WellFormed(s) && n <= |s.recs|
    ensures WellFormed(r) && SameRegistry(s, r)
    ensures r.slots == s.slots && r.tasks == s.tasks && r.queue == s.queue
    ensures forall id :: n <= id < |s.recs| ==> r.recs[id] == s.recs[id]
    ensures r.queue == s.queue
  {
    if n == 0 then s
    else
      var c := CancelledBelow(s, n - 1, now);
      if n - 1 in s.runs && !Terminal(s.recs[n - 1].state) then CancelledRun(c, n - 1, now) else c
  }

  /** A worker cancelled by close; its task runs on, cancelled if `_tasks` still knows it. */
  function Stopped(slot: Slot, w: nat, tasks: map<RunId, nat>): Slot {
    if slot.Busy? && !slot.exec.Over? then
      var known := slot.run in tasks && tasks[slot.run] == w;
      (if known then CancelTask(slot) else slot).(orphan := true)
    else Dead
  }

  function WorkersStopped(s: State): (r: State)
    requires WellFormed(s)
    ensures WellFormed(r) && SameRegistry(s, r)
  {
    s.(slots := seq(|s.slots|, w requires 0 <= w < |s.slots| => Stopped(s.slots[w], w, s.tasks)),
       tasks := map[])
  }

  function Closed(s: State, now: real): (r: State)
    requires WellFormed(s)
    ensures WellFormed(r) && SameRegistry(s, r)
  {
    if s.closed then s
    else WorkersStopped(CancelledBelow(s.(closed := true), |s.recs|, now))
  }

  // ---------------------------------------------------------------------
  // Workers and executors
  // ---------------------------------------------------------------------

  /** A worker takes the oldest entry; entries of finished or evicted runs are skipped. */
  function Dequeued(s: State, w: nat): (r: State)
    requires WellFormed(s) && w < |s.slots| && s.queue != []
    ensures WellFormed(r) && SameRegistry(s, r)
  {
    var id := s.queue[0];
    var rest := s.(queue := s.queue[1..]);
    if id !in s.runs || Terminal(s.recs[id].state) then rest
    else rest.(slots := s.slots[w := Busy(id, Pending(false), false)], tasks := s.tasks[id := w])
  }

  predicate HasRun(s: State, w: nat) {
    w < |s.slots| && s.slots[w].Busy? && s.slots[w].run < |s.recs|
  }

  function WithExec(s: State, w: nat, exec: Exec): (r: State)
    requires WellFormed(s) && HasRun(s, w)
    ensures WellFormed(r) && SameRegistry(s, r) && HasRun(r, w)
  {
    s.(slots := s.slots[w := s.slots[w].(exec := exec)])
  }

  /** The task is over; without a worker to notice, the slot is gone. */
  function TaskOver(s: State, w: nat, crashed: bool): (r: State)
    requires WellFormed(s) && HasRun(s, w)
    ensures WellFormed(r) && SameRegistry(s, r)
  {
    s.(slots := s.slots[w := if s.slots[w].orphan then Dead else s.slots[w].(exec := Over(crashed))])
  }

  /** The finally block of `_execute`; a missing completion event makes the task fail. */
  function Finalized(s: State, w: nat): (r: State)
    requires WellFormed(s) && HasRun(s, w)
    ensures WellFormed(r) && SameRegistry(s, r)
  {
    var id := s.slots[w].run;
    var done := Terminal(s.recs[id].state);
    TaskOver(s.(active := s.active - 1,
                events := if done && id in s.events then s.events[id := true] else s.events),
             w, done && id !in s.events)
  }

  /** How `pattern.run` and the session append end. */
  datatype Outcome =
    | Returned(output: string)
    | RefusedTurn(output: string, error: string)
    | Raised(error: string)
    | TaskCancelled

  /** What an outcome writes to the run whether or not it still may move. */
  function Written(r: Run, outcome: Outcome): Run {
    match outcome
    case Returned(output) => r.(output := Some(output))
    case RefusedTurn(output, error) => r.(output := Some(output), error := Some(error))
    case Raised(error) => r.(error := Some(error))
    case TaskCancelled => r
  }

  /** The move an outcome asks for, if the state allows it. */
  function Verdict(state: RunState, outcome: Outcome): Option<RunState> {
    match outcome
    case Returned(_) => if state == Running then Some(Succeeded) else None
    case TaskCancelled => if CanTransition(state, Cancelled) then Some(Cancelled) else None
    case _ => if CanTransition(state, Failed) then Some(Failed) else None
  }

  /** The body of `_execute` from the pattern's end to the finally block. */
  function Settled(s: State, id: RunId, outcome: Outcome, now: real): (r: State)
    requires WellFormed(s) && id < |s.recs|
    ensures WellFormed(r) && SameRegistry(s, r) && r.slots == s.slots
  {
    var verdict := Verdict(s.recs[id].state, outcome);
    var run := Written(s.recs[id], outcome);
    s.(recs := s.recs[id := if verdict.Some? then Applied(run, verdict.value, now) else run],
       edges := if verdict.Some? then Bumped(s.edges, s.recs[id].state, verdict.value) else s.edges,
       tally := s.tally.(succeeded := s.tally.succeeded + One(verdict == Some(Succeeded)),
                         failed := s.tally.failed + One(verdict == Some(Failed))))
  }

  function Ended(s: State, w: nat, outcome: Outcome, now: real): (r: State)
    requires WellFormed(s) && HasRun(s, w)
    ensures WellFormed(r) && SameRegistry(s, r)
  {
    Finalized(Settled(s, s.slots[w].run, outcome, now), w)
  }

  const ILLEGAL := Raised("InvalidStateTransition")

  /** `_execute` up to the start of the pattern; a run found cancelled ends at once. */
  function Entered(s: State, w: nat, now: real): (r: State)
    requires WellFormed(s) && HasRun(s, w)
    ensures WellFormed(r) && SameRegistry(s, r)
  {
    var id := s.slots[w].run;
    if s.recs[id].state == Cancelled then Finalized(s, w)
    else if CanTransition(s.recs[id].state, Running) then
      WithExec(Moved(s, id, Running, now), w,
               Active(false, CallBudget(s.recs[id].kind, s.config.maxAgentSteps)))
    else Ended(s, w, ILLEGAL, now)
  }

  /** The first step of a task. */
  function Begun(s: State, w: nat, now: real): (r: State)
    requires WellFormed(s) && HasRun(s, w) && s.slots[w].exec.Pending?
    ensures WellFormed(r) && SameRegistry(s, r)
  {
    if s.slots[w].exec.cancelled then TaskOver(s, w, true)
    else Entered(s.(active := s.active + 1), w, now)
  }

  /** `_complete` or `_execute_tool` up to the call; an illegal move ends the attempt. */
  function CallBegun(s: State, w: nat, now: real): (r: State)
    requires WellFormed(s) && HasRun(s, w)
    requires s.slots[w].exec.Active? && s.slots[w].exec.budget > 0
    ensures WellFormed(r) && SameRegistry(s, r)
  {
    var id := s.slots[w].run;
    if CanTransition(s.recs[id].state, Waiting) then
      WithExec(Moved(s, id, Waiting, now), w, Active(true, s.slots[w].exec.budget - 1))
    else Ended(s, w, ILLEGAL, now)
  }

  /** A call that returned adds one entry to `run.steps`. */
  function WithStep(s: State, id: RunId, ok: bool): (r: State)
    requires WellFormed(s) && id < |s.recs|
    ensures WellFormed(r) && SameRegistry(s, r) && r.slots == s.slots
  {
    if ok then s.(recs := s.recs[id := s.recs[id].(steps := s.recs[id].steps + 1)]) else s
  }

  function BackToRunning(s: State, id: RunId, now: real): (r: State)
    requires WellFormed(s) && id < |s.recs|
    ensures WellFormed(r) && SameRegistry(s, r) && r.slots == s.slots
  {
    if s.recs[id].state == Waiting then Moved(s, id, Running, now) else s
  }

  /** The call is back, or failed: the finally block of `_complete` or `_execute_tool`. */
  function CallEnded(s: State, w: nat, ok: bool, now: real): (r: State)
    requires WellFormed(s) && HasRun(s, w) && s.slots[w].exec.Active?
    ensures WellFormed(r) && SameRegistry(s, r)
  {
    var id := s.slots[w].run;
    WithExec(BackToRunning(WithStep(s, id, ok), id, now), w, Active(false, s.slots[w].exec.budget))
  }

  /** The worker resumes from `shield`; a task that crashed takes the worker with it. */
  function Resumed(s: State, w: nat): (r: State)
    requires WellFormed(s) && HasRun(s, w) && s.slots[w].exec.Over?
    ensures WellFormed(r) && SameRegistry(s, r)
  {
    s.(tasks := s.tasks - {s.slots[w].run},
       slots := s.slots[w := if s.slots[w].exec.crashed then Dead else Idle])
  }

  // ---------------------------------------------------------------------
  // Steps and runs of the whole system
  // ---------------------------------------------------------------------

  datatype Step =
    | Submit(request: Request, now: real)
    | Retry(id: RunId, now: real)
    | Cancel(id: RunId, now: real)
    | Close(now: real)
    | Dequeue(w: nat)
    | Begin(w: nat, now: real)
    | CallBegin(w: nat, now: real)
    | CallEnd(w: nat, ok: bool, now: real)
    | End(w: nat, outcome: Outcome, now: real)
    | Resume(w: nat)

  predicate Internal(step: Step) {
    !step.Submit? && !step.Retry? && !step.Cancel? && !step.Close?
  }

  predicate Enabled(s: State, step: Step) {
    match step
    case Submit(_, _) => true
    case Retry(_, _) => true
    case Cancel(_, _) => true
    case Close(_) => true
    case Dequeue(w) => w < |s.slots| && s.slots[w].Idle? && s.queue != []
    case Begin(w, _) => HasRun(s, w) && s.slots[w].exec.Pending?
    case CallBegin(w, _) =>
      HasRun(s, w) && s.slots[w].exec.Active? && !s.slots[w].exec.inCall && s.slots[w].exec.budget > 0
    case CallEnd(w, _, _) => HasRun(s, w) && s.slots[w].exec.Active? && s.slots[w].exec.inCall
    case End(w, _, _) => HasRun(s, w) && s.slots[w].exec.Active? && !s.slots[w].exec.inCall
    case Resume(w) => HasRun(s, w) && s.slots[w].exec.Over?
  }

  function Next(s: State, step: Step): (r: State)
    requires WellFormed(s) && Enabled(s, step)
    ensures WellFormed(r) && SameSetup(s, r)
    ensures !step.Submit? ==> SameRegistry(s, r)
  {
    match step
    case Submit(q, now) => Submitted(s, q, now).0
    case Retry(id, now) => Retried(s, id, now).0
    case Cancel(id, now) => CancelAnswer(s, id, now).0
    case Close(now) => Closed(s, now)
    case Dequeue(w) => Dequeued(s, w)
    case Begin(w, now) => Begun(s, w, now)
    case CallBegin(w, now) => CallBegun(s, w, now)
    case CallEnd(w, ok, now) => CallEnded(s, w, ok, now)
    case End(w, outcome, now) => Ended(s, w, outcome, now)
    case Resume(w) => Resumed(s, w)
  }

  /** The steps can be taken one after the other. */
  predicate Possible(s: State, steps: seq<Step>)
    requires WellFormed(s)
    decreases |steps|
  {
    steps == [] || (Enabled(s, steps[0]) && Possible(Next(s, steps[0]), steps[1..]))
  }

  function After(s: State, steps: seq<Step>): (r: State)
    requires WellFormed(s) && Possible(s, steps)
    ensures WellFormed(r) && SameSetup(s, r)
    decreases |steps|
  {
    if steps == [] then s else After(Next(s, steps[0]), steps[1..])
  }
}
