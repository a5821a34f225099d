/** What the scheduler promises in every reachable state. */
module Guarantees {
  import opened Common
  import opened Lifecycle
  import opened Eviction
  import opened Scheduler
  import opened Ownership
  import opened SchedulerInvariant

  // ---------------------------------------------------------------------
  // Single ownership
  // ---------------------------------------------------------------------

  /** Queue places of a run. */
  function Places(queue: seq<RunId>, id: RunId): set<nat> {
    set i: nat | i < |queue| && queue[i] == id
  }

  /** Workers whose task can still act on a run. */
  function Holders(slots: seq<Slot>, id: RunId): set<nat> {
    set w: nat | w < |slots| && Live(slots[w]) && slots[w].run == id
  }

  function Tokens(s: State, id: RunId): nat {
    |Places(s.queue, id)| + |Holders(s.slots, id)|
  }

  lemma AtMostOne(a: set<nat>)
    requires forall i, j :: i in a && j in a ==> i == j
    ensures |a| == One(a != {})
  {
    if a != {} {
      var i :| i in a;
      assert a == {i};
    }
  }

  lemma PlacesCount(queue: seq<RunId>, id: RunId)
    requires NoDuplicates(queue)
    ensures |Places(queue, id)| == One(id in queue)
  {
    AtMostOne(Places(queue, id));
    if id in queue {
      var i :| 0 <= i < |queue| && queue[i] == id;
      assert i in Places(queue, id);
    }
  }

  lemma HoldersCount(queue: seq<RunId>, slots: seq<Slot>, id: RunId)
    requires OneTask(queue, slots)
    ensures |Holders(slots, id)| == One(Held(slots, id))
    ensures Held(slots, id) ==> id !in queue
  {
    AtMostOne(Holders(slots, id));
    if Held(slots, id) {
      var w :| 0 <= w < |slots| && Live(slots[w]) && slots[w].run == id;
      assert w in Holders(slots, id);
    }
  }

  /** A finished run is held by no task, save a cancelled one that still unwinds. */
  lemma FinishedIsFree(recs: seq<Run>, slots: seq<Slot>, queue: seq<RunId>, id: RunId)
    requires TasksAgree(recs, slots) && QueueAgrees(recs, queue) && id < |recs|
    requires recs[id].state == Succeeded || recs[id].state == Failed
    ensures !Held(slots, id) && id !in queue
  {
  }

  /** A run that can still act has exactly one token, a finished one none, a cancelled one at most one. */
  lemma OneToken(s: State, id: RunId)
    requires Inv(s) && id < |s.recs|
    ensures !Terminal(s.recs[id].state) ==> Tokens(s, id) == 1 && id in s.runs
    ensures s.recs[id].state == Succeeded || s.recs[id].state == Failed ==> Tokens(s, id) == 0
    ensures s.recs[id].state == Cancelled ==> Tokens(s, id) <= 1
  {
    hide Recorded, KeysInverse, Balanced, HandlesExact, Held, TasksAgree, OneTask, QueueAgrees, Places, Holders;
    QueueHasNoDuplicates(s);
    PlacesCount(s.queue, id);
    HoldersCount(s.queue, s.slots, id);
    if s.recs[id].state == Succeeded || s.recs[id].state == Failed {
      FinishedIsFree(s.recs, s.slots, s.queue, id);
    }
  }

  lemma QueueHasNoDuplicates(s: State)
    requires Inv(s)
    ensures NoDuplicates(s.queue)
  {
  }

  /** Where that token is: the state of a run tells the phase of its executor. */
  lemma PhaseOfHolder(s: State, w: nat)
    requires Inv(s)
    requires w < |s.slots| && Live(s.slots[w])
    ensures var state := s.recs[s.slots[w].run].state;
      || state == Cancelled
      || (state == Ready && s.slots[w].exec == Pending(false))
      || (state == Running && s.slots[w].exec.Active? && !s.slots[w].exec.inCall)
      || (state == Waiting && s.slots[w].exec.Active? && s.slots[w].exec.inCall)
  {
    HeldIsRegistered(s, w);
  }

  /** A task that starts uncancelled finds its run Ready or Cancelled: the acquiring move is legal. */
  lemma AcquireNeverRaises(s: State, w: nat)
    requires Inv(s)
    requires w < |s.slots| && s.slots[w].Busy? && s.slots[w].exec == Pending(false)
    ensures s.slots[w].run < |s.recs|
    ensures s.recs[s.slots[w].run].state == Cancelled || CanTransition(s.recs[s.slots[w].run].state, Running)
  {
    PhaseOfHolder(s, w);
  }

  /** Workers whose task has started its pattern. */
  function ActiveWorkers(slots: seq<Slot>): set<nat> {
    set w: nat | w < |slots| && ActiveWeight(slots[w]) == 1
  }

  /** The gauge counts them exactly, and there are at most as many as workers. */
  lemma {:induction false} ActiveCounts(slots: seq<Slot>)
    ensures 0 <= SumOf(slots, ActiveWeight) <= |slots|
    ensures SumOf(slots, ActiveWeight) == |ActiveWorkers(slots)|
  {
    if slots == [] {
      assert ActiveWorkers(slots) == {};
    } else {
      var n := |slots| - 1;
      ActiveCounts(slots[..n]);
      var front := ActiveWorkers(slots[..n]);
      assert n !in front;
      if ActiveWeight(slots[n]) == 1 {
        assert ActiveWorkers(slots) == front + {n};
      } else {
        assert ActiveWorkers(slots) == front;
      }
    }
  }

  // ---------------------------------------------------------------------
  // Every reachable state
  // ---------------------------------------------------------------------

  predicate Reaches(config: Config, capacity: nat, steps: seq<Step>) {
    Possible(Init(config, capacity), steps)
  }

  function StateAfter(config: Config, capacity: nat, steps: seq<Step>): State
    requires Reaches(config, capacity, steps)
  {
    After(Init(config, capacity), steps)
  }

  lemma ReachableInv(config: Config, capacity: nat, steps: seq<Step>)
    requires Reaches(config, capacity, steps)
    ensures Inv(StateAfter(config, capacity, steps))
    ensures WellFormed(StateAfter(config, capacity, steps))
  {
    hide Inv, After, Possible;
    InitInv(config, capacity);
    AfterKeepsInv(Init(config, capacity), steps);
  }

  /**
   Conservation of runs in every reachable state, evictions included: what was submitted
   or retried is still unfinished, succeeded, failed or was cancelled.
   */
  lemma RunsAreConserved(config: Config, capacity: nat, steps: seq<Step>)
    requires Reaches(config, capacity, steps)
    ensures var s := StateAfter(config, capacity, steps);
      s.tally.submitted + s.tally.retried
      == |Unfinished(s.recs, s.runs)| + s.tally.succeeded + s.tally.failed + Cancellations(s.edges)
  {
    ReachableInv(config, capacity, steps);
  }

  /** Completion events and finish times are exact in every reachable state. */
  lemma CompletionIsExact(config: Config, capacity: nat, steps: seq<Step>, id: RunId)
    requires Reaches(config, capacity, steps)
    requires id in StateAfter(config, capacity, steps).runs
    ensures var s := StateAfter(config, capacity, steps);
      && id < |s.recs| && id in s.events
      && (s.events[id] <==> Terminal(s.recs[id].state))
      && (s.recs[id].finishedAt.Some? <==> Terminal(s.recs[id].state))
  {
    ReachableInv(config, capacity, steps);
    WellRecordedOf(StateAfter(config, capacity, steps), id);
  }

  /** The log of every run ever created tells its state and bounds its acquisitions by its retries. */
  lemma LogTellsTheState(config: Config, capacity: nat, steps: seq<Step>, id: RunId)
    requires Reaches(config, capacity, steps)
    requires id < |StateAfter(config, capacity, steps).recs|
    ensures var r := StateAfter(config, capacity, steps).recs[id];
      && LegalLog(r.transitions) && EndOf(r.transitions) == r.state
      && CountEdge(r.transitions, Ready, Running) <= 1 + CountEdge(r.transitions, Failed, Ready)
  {
    ReachableInv(config, capacity, steps);
    var s := StateAfter(config, capacity, steps);
    WellRecordedOf(s, id);
    AcquisitionsBounded(s.recs[id].transitions);
  }

  /** The times of every run ever created are those of its log. */
  lemma TimesAreLogged(config: Config, capacity: nat, steps: seq<Step>, id: RunId)
    requires Reaches(config, capacity, steps)
    requires id < |StateAfter(config, capacity, steps).recs|
    ensures var r := StateAfter(config, capacity, steps).recs[id];
      && r.transitions != [] && r.updatedAt == r.transitions[|r.transitions| - 1].at
      && r.startedAt == FirstInto(r.transitions, Running)
      && r.finishedAt == if Terminal(r.state) then Some(r.updatedAt) else None
  {
    ReachableInv(config, capacity, steps);
    WellRecordedOf(StateAfter(config, capacity, steps), id);
    NotCreated(StateAfter(config, capacity, steps), id);
  }

  /** Concurrency is bounded, and the gauge `runs_active` is exact. */
  lemma ConcurrencyBounded(config: Config, capacity: nat, steps: seq<Step>)
    requires Reaches(config, capacity, steps)
    ensures var s := StateAfter(config, capacity, steps);
      && 0 <= s.active <= config.maxConcurrency
      && s.active == |ActiveWorkers(s.slots)|
  {
    ReachableInv(config, capacity, steps);
    ActiveCounts(StateAfter(config, capacity, steps).slots);
  }

  // ---------------------------------------------------------------------
  // The registry bound, exactly
  // ---------------------------------------------------------------------

  lemma {:induction false} AfterAppend(s: State, a: seq<Step>, b: seq<Step>)
    requires WellFormed(s) && Possible(s, a) && Possible(After(s, a), b)
    ensures Possible(s, a + b) && After(s, a + b) == After(After(s, a), b)
    decreases |a|
  {
    hide Next;
    if a == [] {
      assert a + b == b;
    } else {
      assert (a + b)[1..] == a[1..] + b;
      AfterAppend(Next(s, a[0]), a[1..], b);
    }
  }

  /** k workers hold a run not yet started, j runs are queued, and nothing else exists. */
  ghost predicate Packed(s: State, config: Config, capacity: nat, k: nat, j: nat) {
    && WellFormed(s)
    && s.config == config && s.capacity == capacity && !s.closed
    && |s.queue| == j && |s.runs| == k + j
    && (forall id :: 0 <= id < |s.recs| ==> id in s.runs && s.recs[id].state == Ready)
    && (forall w :: k <= w < |s.slots| ==> s.slots[w].Idle?)
    && (k + j > 0 ==> s.started)
  }

  ghost predicate Filled(s: State, config: Config, capacity: nat, k: nat, j: nat) {
    Inv(s) && Packed(s, config, capacity, k, j)
  }

  const PLAIN := Request("task", Simple, None, None, "session")

  /** Without finished runs nothing is evicted. */
  lemma NothingToEvict(s: State, reserve: nat, now: real)
    requires WellFormed(s)
    requires forall id :: id in s.runs ==> !Terminal(s.recs[id].state)
    ensures CleanedUp(s, reserve, now) == s
  {
    hide Victims;
    var gone := Victims(s.recs, s.runs, now - s.config.retention, reserve, s.config.maxRunRecords);
    EvictionExact(s.recs, s.runs, now - s.config.retention, reserve, s.config.maxRunRecords);
    assert gone == {} by {
      assert forall id: RunId :: id in gone ==> IsTerminalRun(s.recs, s.runs, id);
    }
    assert KeysOf(s.byRun, gone) == {};
    assert s.runs - gone == s.runs && s.events - gone == s.events;
    assert s.index - KeysOf(s.byRun, gone) == s.index && s.byRun - gone == s.byRun;
  }

  lemma PackStart(s: State, config: Config, capacity: nat, k: nat, j: nat)
    requires Packed(s, config, capacity, k, j)
    ensures Packed(StartWorkers(s), config, capacity, k, j) && StartWorkers(s).started
  {
  }

  lemma PackAdmit(s: State, config: Config, capacity: nat, k: nat, j: nat)
    requires Packed(s, config, capacity, k, j) && s.started
    ensures Packed(Admitted(s, PLAIN, 0.0), config, capacity, k, j + 1)
  {
    assert |s.recs| !in s.runs;
  }

  lemma PackOne(s: State, config: Config, capacity: nat, k: nat, j: nat)
    requires Packed(s, config, capacity, k, j) && j < capacity
    ensures Packed(Next(s, Submit(PLAIN, 0.0)), config, capacity, k, j + 1)
  {
    hide CleanedUp, StartWorkers, Admitted;
    var t := StartWorkers(s);
    PackStart(s, config, capacity, k, j);
    NothingToEvict(t, 1, 0.0);
    PackAdmit(t, config, capacity, k, j);
  }

  lemma FillOne(s: State, config: Config, capacity: nat, k: nat, j: nat)
    requires Filled(s, config, capacity, k, j) && j < capacity
    ensures Filled(Next(s, Submit(PLAIN, 0.0)), config, capacity, k, j + 1)
  {
    hide Inv, Next;
    NextKeepsInv(s, Submit(PLAIN, 0.0));
    PackOne(s, config, capacity, k, j);
  }

  lemma UnpackOne(s: State, config: Config, capacity: nat, k: nat)
    requires Packed(s, config, capacity, k, 1) && k < |s.slots|
    ensures Enabled(s, Dequeue(k))
    ensures Packed(Next(s, Dequeue(k)), config, capacity, k + 1, 0)
  {
    assert s.queue[0] in s.runs;
  }

  lemma TakeOne(s: State, config: Config, capacity: nat, k: nat)
    requires Filled(s, config, capacity, k, 1) && k < config.maxConcurrency
    ensures Enabled(s, Dequeue(k))
    ensures Filled(Next(s, Dequeue(k)), config, capacity, k + 1, 0)
  {
    hide Inv, Next;
    PoolAndQueue(s);
    UnpackOne(s, config, capacity, k);
    NextKeepsInv(s, Dequeue(k));
  }

  lemma PoolAndQueue(s: State)
    requires Inv(s)
    ensures |s.slots| == if s.started then s.config.maxConcurrency else 0
    ensures |s.queue| <= s.capacity
    ensures |s.runs| <= RegistryLimit(s.config, s.capacity)
  {
  }

  lemma OneStep(s: State, step: Step)
    requires WellFormed(s) && Enabled(s, step)
    ensures Possible(s, [step]) && After(s, [step]) == Next(s, step)
  {
    hide Next, Enabled, WellFormed;
    assert [step][1..] == [];
  }

  lemma TwoSteps(s: State, a: Step, b: Step)
    requires WellFormed(s) && Enabled(s, a) && Enabled(Next(s, a), b)
    ensures Possible(s, [a, b]) && After(s, [a, b]) == Next(Next(s, a), b)
  {
    hide Next, Enabled, WellFormed;
    OneStep(Next(s, a), b);
    assert [a, b][1..] == [b];
  }

  lemma {:induction false} FillWorkers(config: Config, capacity: nat, k: nat) returns (steps: seq<Step>)
    requires capacity > 0 && k <= config.maxConcurrency
    ensures Reaches(config, capacity, steps)
    ensures Filled(StateAfter(config, capacity, steps), config, capacity, k, 0)
  {
    hide Inv, Next, Filled;
    if k == 0 {
      steps := [];
      InitFilled(config, capacity);
    } else {
      var front := FillWorkers(config, capacity, k - 1);
      var s := StateAfter(config, capacity, front);
      FilledFacts(s, config, capacity, k - 1, 0);
      FillOne(s, config, capacity, k - 1, 0);
      var t := Next(s, Submit(PLAIN, 0.0));
      TakeOne(t, config, capacity, k - 1);
      var more := [Submit(PLAIN, 0.0), Dequeue(k - 1)];
      TwoSteps(s, Submit(PLAIN, 0.0), Dequeue(k - 1));
      AfterAppend(Init(config, capacity), front, more);
      steps := front + more;
    }
  }

  lemma InitFilled(config: Config, capacity: nat)
    ensures Filled(Init(config, capacity), config, capacity, 0, 0)
  {
    hide Inv;
    InitInv(config, capacity);
  }

  lemma FilledFacts(s: State, config: Config, capacity: nat, k: nat, j: nat)
    requires Filled(s, config, capacity, k, j)
    ensures WellFormed(s) && |s.runs| == k + j
  {
  }

  lemma {:induction false} FillQueue(config: Config, capacity: nat, j: nat) returns (steps: seq<Step>)
    requires capacity > 0 && j <= capacity
    ensures Reaches(config, capacity, steps)
    ensures Filled(StateAfter(config, capacity, steps), config, capacity, config.maxConcurrency, j)
  {
    hide Inv, Next, Filled;
    if j == 0 {
      steps := FillWorkers(config, capacity, config.maxConcurrency);
    } else {
      var front := FillQueue(config, capacity, j - 1);
      var s := StateAfter(config, capacity, front);
      FilledFacts(s, config, capacity, config.maxConcurrency, j - 1);
      FillOne(s, config, capacity, config.maxConcurrency, j - 1);
      var more := [Submit(PLAIN, 0.0)];
      OneStep(s, Submit(PLAIN, 0.0));
      AfterAppend(Init(config, capacity), front, more);
      steps := front + more;
    }
  }

  /** The registry never holds more than max(max_run_records, max_concurrency + capacity) runs. */
  lemma RegistryBound(config: Config, capacity: nat, steps: seq<Step>)
    requires Reaches(config, capacity, steps)
    ensures |StateAfter(config, capacity, steps).runs| <= RegistryLimit(config, capacity)
  {
    hide Inv;
    ReachableInv(config, capacity, steps);
    PoolAndQueue(StateAfter(config, capacity, steps));
  }

  /**
   max_run_records bounds the registry in every reachable state exactly when it covers the
   workers and the places of the queue actually used, which may be an injected one.
   */
  lemma RegistryBoundExact(config: Config, capacity: nat)
    requires capacity > 0
    ensures (forall steps :: Reaches(config, capacity, steps) ==>
               |StateAfter(config, capacity, steps).runs| <= config.maxRunRecords)
            <==> config.maxConcurrency + capacity <= config.maxRunRecords
  {
    if config.maxConcurrency + capacity <= config.maxRunRecords {
      forall steps | Reaches(config, capacity, steps)
        ensures |StateAfter(config, capacity, steps).runs| <= config.maxRunRecords
      {
        RegistryBound(config, capacity, steps);
      }
    } else {
      var steps := FillQueue(config, capacity, capacity);
      FilledFacts(StateAfter(config, capacity, steps), config, capacity, config.maxConcurrency, capacity);
      assert |StateAfter(config, capacity, steps).runs| > config.maxRunRecords;
    }
  }

  // ---------------------------------------------------------------------
  // What cancel, submit and retry leave alone
  // ---------------------------------------------------------------------

  lemma EventsAreRuns(s: State)
    requires Inv(s)
    ensures s.events.Keys == s.runs
  {
  }

  lemma CancelFrame(s: State, id: RunId, now: real)
    requires WellFormed(s)
    ensures var r := CancelAnswer(s, id, now).0;
      && r.runs == s.runs && r.tasks == s.tasks
      && r.slots == if id in s.runs && !Terminal(s.recs[id].state) then WithTaskCancelled(s, id).slots else s.slots
  {
    hide CancelledRun, SameSetup;
  }

  lemma RequeueFrame(s: State, id: RunId, now: real)
    requires WellFormed(s) && id < |s.recs|
    ensures var r := RequeuedRun(s, id, now); r.slots == s.slots && r.tasks == s.tasks && r.runs == s.runs
  {
    hide Bumped, Applied, Reset, IdsKnown;
  }

  lemma RetryFrame(s: State, id: RunId, now: real)
    requires WellFormed(s)
    ensures var r := Retried(s, id, now).0; r.slots == s.slots && r.tasks == s.tasks && r.runs == s.runs
  {
    hide RequeuedRun, SameSetup;
    if id in s.runs {
      RequeueFrame(s, id, now);
    }
  }

  lemma AdmitFrame(s: State, q: Request, now: real)
    requires WellFormed(s)
    ensures var r := AdmitUnlessFull(s, q, now).0;
      && r.slots == s.slots && r.tasks == s.tasks
      && (r.runs == s.runs || r.runs == s.runs + {|s.recs|})
  {
    hide Bumped, Applied, IdsKnown, SameSetup;
  }

  lemma LookedFrame(s: State, q: Request, now: real)
    requires WellFormed(s)
    ensures var r := Looked(s, q, now).0;
      && r.slots == s.slots && r.tasks == s.tasks
      && (r.runs == s.runs || r.runs == s.runs + {|s.recs|})
  {
    hide AdmitUnlessFull, SameSetup;
    AdmitFrame(s, q, now);
    if q.key.Some? {
      AdmitFrame(s.(index := s.index - {q.key.value}), q, now);
    }
  }
}
