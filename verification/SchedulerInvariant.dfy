/**
 The scheduler's invariant and its preservation by every step.

 The invariant has one part per concern, each over the fields it speaks of; a step
 is checked part by part and the parts are put together at the end.
 */
module SchedulerInvariant {
  import opened Common
  import opened Lifecycle
  import opened Eviction
  import opened Scheduler
  import opened Ownership

  /** The log is a legal path that ends in the state, and the times are those of its entries. */
  predicate WellRecorded(r: Run) {
    && r.finishedAt == (if Terminal(r.state) then Some(r.updatedAt) else None)
    && r.updatedAt == LastAt(r.transitions, r.createdAt) && r.startedAt == FirstInto(r.transitions, Running)
    && LegalLog(r.transitions) && EndOf(r.transitions) == r.state
  }

  /** Every run is well recorded, and its completion event is set iff it is finished. */
  ghost predicate Recorded(recs: seq<Run>, runs: set<RunId>, events: map<RunId, bool>) {
    && (forall id :: 0 <= id < |recs| ==> WellRecorded(recs[id]))
    && events.Keys == runs
    && (forall id :: id in runs ==> id < |recs| && events[id] == Terminal(recs[id].state))
  }

  /** The two idempotency maps are inverse to each other and speak of registered runs. */
  ghost predicate KeysInverse(recs: seq<Run>, runs: set<RunId>, index: map<string, Entry>,
                              byRun: map<RunId, string>) {
    && (forall id, key :: id in byRun && byRun[id] == key <==> key in index && index[key].run == id)
    && (forall key :: key in index ==>
          && index[key].run in runs && index[key].run < |recs|
          && recs[index[key].run].input == index[key].input
          && recs[index[key].run].kind == index[key].kind)
  }

  predicate IsUnfinished(recs: seq<Run>, id: RunId) {
    id < |recs| && !Terminal(recs[id].state)
  }

  function Unfinished(recs: seq<Run>, runs: set<RunId>): set<RunId> {
    set id | id in runs && IsUnfinished(recs, id)
  }

  /** No run appears or disappears unaccounted: conservation over the counters. */
  predicate Balanced(created: nat, unfinished: nat, t: Tally, c: EdgeCounts) {
    && t.submitted == created == CountOf(c, Created, Ready)
    && t.retried == CountOf(c, Failed, Ready)
    && t.succeeded == CountOf(c, Running, Succeeded)
    && t.failed == Failures(c)
    && t.submitted + t.retried == unfinished + t.succeeded + t.failed + Cancellations(c)
  }

  function ActiveWeight(slot: Slot): int {
    if slot.Busy? && slot.exec.Active? then 1 else 0
  }

  /** A task handle belongs to a worker that still waits for that run. */
  ghost predicate HandlesExact(tasks: map<RunId, nat>, slots: seq<Slot>) {
    forall id :: id in tasks ==>
      && tasks[id] < |slots|
      && slots[tasks[id]].Busy? && slots[tasks[id]].run == id && !slots[tasks[id]].orphan
  }

  /** The most runs the registry can hold. */
  function RegistryLimit(config: Config, capacity: nat): nat {
    if config.maxRunRecords >= config.maxConcurrency + capacity
    then config.maxRunRecords else config.maxConcurrency + capacity
  }

  predicate Bounded(config: Config, capacity: nat, queued: nat, workers: nat, started: bool, registered: nat) {
    && queued <= capacity
    && workers == (if started then config.maxConcurrency else 0)
    && registered <= RegistryLimit(config, capacity)
  }

  ghost predicate Inv(s: State) {
    && Owned(s.recs, s.runs, s.queue, s.slots)
    && Recorded(s.recs, s.runs, s.events)
    && KeysInverse(s.recs, s.runs, s.index, s.byRun)
    && Balanced(|s.recs|, |Unfinished(s.recs, s.runs)|, s.tally, s.edges)
    && s.active == SumOf(s.slots, ActiveWeight)
    && HandlesExact(s.tasks, s.slots)
    && Bounded(s.config, s.capacity, |s.queue|, |s.slots|, s.started, |s.runs|)
  }

  /** Nothing exists yet. */
  lemma EmptyParts()
    ensures Owned([], {}, [], [])
    ensures Recorded([], {}, map[])
    ensures KeysInverse([], {}, map[], map[])
    ensures HandlesExact(map[], [])
    ensures Unfinished([], {}) == {}
  {
  }

  lemma EmptyBooks()
    ensures Balanced(0, 0, Tally(0, 0, 0, 0), map[])
  {
  }

  lemma EmptyInv(s: State)
    requires s.recs == [] && s.runs == {} && s.events == map[] && s.index == map[] && s.byRun == map[]
    requires s.queue == [] && s.slots == [] && s.tasks == map[] && !s.started
    requires s.tally == Tally(0, 0, 0, 0) && s.active == 0 && s.edges == map[]
    ensures Inv(s)
  {
    hide Owned, Recorded, KeysInverse, HandlesExact, Unfinished, Balanced;
    EmptyParts();
    EmptyBooks();
  }

  lemma InitInv(config: Config, capacity: nat)
    ensures Inv(Init(config, capacity))
  {
    hide Inv;
    EmptyInv(Init(config, capacity));
  }

  // ---------------------------------------------------------------------
  // Parts of the invariant under a change to one run
  // ---------------------------------------------------------------------

  /** The parts of a run no step ever rewrites. */
  predicate SameIdentity(a: Run, b: Run) {
    a.input == b.input && a.kind == b.kind && a.session == b.session && a.createdAt == b.createdAt
  }

  lemma KeysKept(recs: seq<Run>, runs: set<RunId>, index: map<string, Entry>, byRun: map<RunId, string>,
                 id: RunId, run: Run)
    requires KeysInverse(recs, runs, index, byRun)
    requires id < |recs| && SameIdentity(recs[id], run)
    ensures KeysInverse(recs[id := run], runs, index, byRun)
  {
  }

  lemma UnfinishedChange(recs: seq<Run>, runs: set<RunId>, id: RunId, run: Run)
    requires id < |recs| && id in runs
    ensures |Unfinished(recs[id := run], runs)| + One(!Terminal(recs[id].state))
            == |Unfinished(recs, runs)| + One(!Terminal(run.state))
  {
    var before, after := Unfinished(recs, runs), Unfinished(recs[id := run], runs);
    forall k | k != id ensures k in before <==> k in after {
      assert IsUnfinished(recs, k) <==> IsUnfinished(recs[id := run], k);
    }
    var others := before - {id};
    assert IsUnfinished(recs, id) <==> !Terminal(recs[id].state);
    assert IsUnfinished(recs[id := run], id) <==> !Terminal(run.state);
    assert before == if Terminal(recs[id].state) then others else others + {id};
    assert after == if Terminal(run.state) then others else others + {id};
  }

  /** A plain write or an evicted run does not touch the number of unfinished runs. */
  lemma UnfinishedSame(recs: seq<Run>, runs: set<RunId>, id: RunId, run: Run)
    requires id < |recs|
    requires id in runs ==> Terminal(run.state) == Terminal(recs[id].state)
    ensures Unfinished(recs[id := run], runs) == Unfinished(recs, runs)
  {
    forall k | k in runs ensures IsUnfinished(recs[id := run], k) == IsUnfinished(recs, k) {
      assert k != id && k < |recs| ==> recs[id := run][k] == recs[k];
    }
  }

  lemma WellRecordedMove(run: Run, target: RunState, now: real)
    requires WellRecorded(run) && CanTransition(run.state, target) && target != Ready
    ensures WellRecorded(Applied(run, target, now))
  {
    LegalLogAppend(run.transitions, Transition(run.state, target, now));
  }

  lemma WellRecordedReset(run: Run, now: real)
    requires WellRecorded(run) && CanTransition(run.state, Ready)
    ensures WellRecorded(Reset(Applied(run, Ready, now)))
  {
    LegalLogAppend(run.transitions, Transition(run.state, Ready, now));
  }

  lemma RecordedChange(recs: seq<Run>, runs: set<RunId>, events: map<RunId, bool>, id: RunId, run: Run,
                       events': map<RunId, bool>)
    requires Recorded(recs, runs, events)
    requires id < |recs| && WellRecorded(run)
    requires id in runs ==> events' == events[id := Terminal(run.state)]
    requires id !in runs ==> events' == events
    ensures Recorded(recs[id := run], runs, events')
  {
  }

  lemma {:induction false} BooksMove(created: nat, unfinished: nat, t: Tally, c: EdgeCounts,
                                     source: RunState, target: RunState, unfinished': nat, t': Tally)
    requires Balanced(created, unfinished, t, c)
    requires CanTransition(source, target) && source != Created
    requires unfinished' + One(!Terminal(source)) == unfinished + One(!Terminal(target))
    requires t'.submitted == t.submitted
    requires t'.retried == t.retried + One(target == Ready)
    requires t'.succeeded == t.succeeded + One(target == Succeeded)
    requires t'.failed == t.failed + One(target == Failed)
    ensures Balanced(created, unfinished', t', Bumped(c, source, target))
  {
    var c' := Bumped(c, source, target);
    assert forall a, b :: Edge(a, b) != Edge(source, target) ==> CountOf(c', a, b) == CountOf(c, a, b);
  }

  // ---------------------------------------------------------------------
  // Submission
  // ---------------------------------------------------------------------

  lemma InvWellFormed(s: State)
    requires Inv(s)
    ensures WellFormed(s)
    ensures forall id :: 0 <= id < |s.recs| && !Terminal(s.recs[id].state) ==> id in s.runs
  {
  }

  lemma CountersKeepInv(s: State, r: State)
    requires Inv(s)
    requires r == s.(requests := r.requests, closed := r.closed)
    ensures Inv(r)
  {
  }

  lemma StartKeepsInv(s: State)
    requires Inv(s)
    ensures Inv(StartWorkers(s))
  {
    if !s.started {
      var slots := seq(s.config.maxConcurrency, _ => Idle);
      SumOfZero(slots, ActiveWeight);
      OwnedStart(s.recs, s.runs, s.queue, slots);
      assert s.tasks == map[];
    }
  }

  lemma KeysEvict(recs: seq<Run>, runs: set<RunId>, index: map<string, Entry>, byRun: map<RunId, string>,
                  gone: set<RunId>)
    requires KeysInverse(recs, runs, index, byRun)
    ensures KeysInverse(recs, runs - gone,
                        index - KeysOf(byRun, gone), byRun - gone)
  {
    var index', byRun' := index - KeysOf(byRun, gone), byRun - gone;
    forall id, key
      ensures id in byRun' && byRun'[id] == key <==> key in index' && index'[key].run == id
    {
      assert id in byRun && byRun[id] == key <==> key in index && index[key].run == id;
    }
  }

  lemma RecordedEvict(recs: seq<Run>, runs: set<RunId>, events: map<RunId, bool>, gone: set<RunId>)
    requires Recorded(recs, runs, events)
    ensures Recorded(recs, runs - gone, events - gone)
  {
  }

  lemma EvictKeepsInv(s: State, gone: set<RunId>)
    requires Inv(s)
    requires forall id :: id in gone ==> IsTerminalRun(s.recs, s.runs, id)
    ensures Inv(Evict(s, gone))
  {
    hide Owned, KeysInverse, Recorded, Balanced, HandlesExact;
    InvWellFormed(s);
    RecordedEvict(s.recs, s.runs, s.events, gone);
    OwnedEvict(s.recs, s.runs, s.queue, s.slots, gone);
    KeysEvict(s.recs, s.runs, s.index, s.byRun, gone);
    assert Unfinished(s.recs, s.runs - gone) == Unfinished(s.recs, s.runs) by {
      assert forall id :: id in gone ==> !IsUnfinished(s.recs, id);
    }
    SubsetSize(s.runs - gone, s.runs);
  }

  /** After eviction the new run fits, or only unfinished runs are left. */
  predicate Roomy(s: State, reserve: nat) {
    |s.runs| + reserve <= s.config.maxRunRecords || s.runs <= Unfinished(s.recs, s.runs)
  }

  lemma CleanUpMakesRoom(s: State, reserve: nat, now: real)
    requires forall id :: id in s.runs ==> id < |s.recs|
    requires WellFormed(s)
    ensures Roomy(CleanedUp(s, reserve, now), reserve)
  {
    hide Victims;
    EvictionSuffices(s.recs, s.runs, now - s.config.retention, reserve, s.config.maxRunRecords);
  }

  lemma CleanUpKeepsInv(s: State, reserve: nat, now: real)
    requires Inv(s)
    ensures Inv(CleanedUp(s, reserve, now))
  {
    hide Victims, Inv;
    EvictionExact(s.recs, s.runs, now - s.config.retention, reserve, s.config.maxRunRecords);
    EvictKeepsInv(s, Victims(s.recs, s.runs, now - s.config.retention, reserve, s.config.maxRunRecords));
  }

  function RunsOf(slots: seq<Slot>): set<RunId> {
    if slots == [] then {}
    else
      var last := slots[|slots| - 1];
      RunsOf(slots[..|slots| - 1]) + (if last.Busy? then {last.run} else {})
  }

  lemma {:induction false} RunsOfBound(slots: seq<Slot>)
    ensures |RunsOf(slots)| <= |slots|
    ensures forall w :: 0 <= w < |slots| && slots[w].Busy? ==> slots[w].run in RunsOf(slots)
  {
    if slots != [] {
      RunsOfBound(slots[..|slots| - 1]);
    }
  }

  /** Every unfinished run occupies a queue place or a worker of its own. */
  lemma UnfinishedFit(recs: seq<Run>, runs: set<RunId>, queue: seq<RunId>, slots: seq<Slot>)
    requires Owned(recs, runs, queue, slots)
    ensures |Unfinished(recs, runs)| <= |queue| + |slots|
  {
    RunsOfBound(slots);
    ElementsBound(queue);
    forall id | id in Unfinished(recs, runs) ensures id in Elements(queue) + RunsOf(slots) {
      assert IsUnfinished(recs, id);
    }
    SubsetSize(Unfinished(recs, runs), Elements(queue) + RunsOf(slots));
  }

  lemma KeysAdmit(s: State, q: Request, now: real)
    requires WellFormed(s)
    requires KeysInverse(s.recs, s.runs, s.index, s.byRun)
    requires q.key.Some? ==> q.key.value !in s.index
    ensures var r := Admitted(s, q, now); KeysInverse(r.recs, r.runs, r.index, r.byRun)
  {
    var r := Admitted(s, q, now);
    forall id, key
      ensures id in r.byRun && r.byRun[id] == key <==> key in r.index && r.index[key].run == id
    {
      assert id in s.byRun && s.byRun[id] == key <==> key in s.index && s.index[key].run == id;
    }
  }

  lemma BooksAdmit(created: nat, unfinished: nat, t: Tally, c: EdgeCounts)
    requires Balanced(created, unfinished, t, c)
    ensures Balanced(created + 1, unfinished + 1, t.(submitted := t.submitted + 1), Bumped(c, Created, Ready))
  {
    var c' := Bumped(c, Created, Ready);
    assert forall a, b :: Edge(a, b) != Edge(Created, Ready) ==> CountOf(c', a, b) == CountOf(c, a, b);
  }

  lemma AdmitKeepsInv(s: State, q: Request, now: real)
    requires Inv(s)
    requires |s.queue| < s.capacity
    requires Roomy(s, 1)
    requires q.key.Some? ==> q.key.value !in s.index
    ensures Inv(Admitted(s, q, now))
  {
    hide Owned, KeysInverse, Recorded, Balanced, HandlesExact, Roomy, Unfinished, Bumped;
    InvWellFormed(s);
    var id := |s.recs|;
    var run := Applied(NewRun(q.input, q.kind, SessionOf(q), now), Ready, now);
    OwnedAdmit(s.recs, s.runs, s.queue, s.slots, run);
    KeysAdmit(s, q, now);
    RecordedAdmit(s.recs, s.runs, s.events, q, now);
    UnfinishedAdmit(s.recs, s.runs, run);
    BooksAdmit(|s.recs|, |Unfinished(s.recs, s.runs)|, s.tally, s.edges);
    RoomForOne(s);
    assert id !in s.runs;
  }

  /** The heart of the registry bound: what is not finished fits the queue and the workers. */
  lemma RoomForOne(s: State)
    requires Inv(s)
    requires |s.queue| < s.capacity && Roomy(s, 1)
    ensures |s.runs| + 1 <= RegistryLimit(s.config, s.capacity)
  {
    hide Owned, KeysInverse, Recorded, Balanced, HandlesExact;
    UnfinishedFit(s.recs, s.runs, s.queue, s.slots);
    if s.runs <= Unfinished(s.recs, s.runs) {
      SubsetSize(s.runs, Unfinished(s.recs, s.runs));
    }
  }

  lemma UnfinishedAdmit(recs: seq<Run>, runs: set<RunId>, run: Run)
    requires forall id :: id in runs ==> id < |recs|
    requires !Terminal(run.state)
    ensures |Unfinished(recs + [run], runs + {|recs|})| == |Unfinished(recs, runs)| + 1
  {
    var id := |recs|;
    assert Unfinished(recs + [run], runs + {id}) == Unfinished(recs, runs) + {id} by {
      forall k | k in runs ensures IsUnfinished(recs + [run], k) == IsUnfinished(recs, k) {
      }
      assert IsUnfinished(recs + [run], id);
    }
    assert id !in Unfinished(recs, runs);
  }

  lemma RecordedAdmit(recs: seq<Run>, runs: set<RunId>, events: map<RunId, bool>, q: Request, now: real)
    requires Recorded(recs, runs, events)
    ensures Recorded(recs + [Applied(NewRun(q.input, q.kind, SessionOf(q), now), Ready, now)],
                     runs + {|recs|}, events[|recs| := false])
  {
    var run := Applied(NewRun(q.input, q.kind, SessionOf(q), now), Ready, now);
    LegalLogAppend([], Transition(Created, Ready, now));
    assert run.transitions == [] + [Transition(Created, Ready, now)];
    assert WellRecorded(run);
    assert |recs| !in runs;
  }

  /** A key in the index always finds its run: the fall-through of submit is never taken. */
  lemma EntryIsRegistered(s: State, key: string)
    requires Inv(s) && key in s.index
    ensures s.index[key].run in s.runs
    ensures s.index[key].run < |s.recs|
    ensures s.recs[s.index[key].run].input == s.index[key].input
    ensures s.recs[s.index[key].run].kind == s.index[key].kind
  {
  }

  lemma LookKeepsInv(s: State, q: Request, now: real)
    requires Inv(s)
    requires Roomy(s, 1)
    ensures Inv(Looked(s, q, now).0)
  {
    hide Inv;
    InvWellFormed(s);
    if q.key.Some? && q.key.value in s.index {
      EntryIsRegistered(s, q.key.value);
      CountersKeepInv(s, s.(requests := s.requests.(replays := s.requests.replays + 1)));
    } else if |s.queue| < s.capacity {
      AdmitKeepsInv(s, q, now);
    } else {
      CountersKeepInv(s, s.(requests := s.requests.(rejected := s.requests.rejected + 1)));
    }
  }

  lemma SubmitKeepsInv(s: State, q: Request, now: real)
    requires Inv(s)
    ensures Inv(Submitted(s, q, now).0)
  {
    hide Inv, Victims;
    InvWellFormed(s);
    StartKeepsInv(s);
    InvWellFormed(StartWorkers(s));
    CleanUpKeepsInv(StartWorkers(s), 1, now);
    CleanUpMakesRoom(StartWorkers(s), 1, now);
    LookKeepsInv(CleanedUp(StartWorkers(s), 1, now), q, now);
  }

  // ---------------------------------------------------------------------
  // Retry, cancel, close
  // ---------------------------------------------------------------------

  lemma RequeueKeepsInv(s: State, id: RunId, now: real)
    requires Inv(s) && WellFormed(s)
    requires id in s.runs && s.recs[id].state == Failed && |s.queue| < s.capacity
    ensures Inv(RequeuedRun(s, id, now))
  {
    hide Owned, KeysInverse, Balanced, Recorded, WellRecorded, HandlesExact, Bumped, LegalLog;
    var run := Reset(Applied(s.recs[id], Ready, now));
    var r := RequeuedRun(s, id, now);
    OwnedRequeue(s.recs, s.runs, s.queue, s.slots, id, run);
    WellRecordedOf(s, id);
    WellRecordedReset(s.recs[id], now);
    RecordedChange(s.recs, s.runs, s.events, id, run, r.events);
    KeysKept(s.recs, s.runs, s.index, s.byRun, id, run);
    UnfinishedChange(s.recs, s.runs, id, run);
    assert r.recs == s.recs[id := run];
    BooksMove(|s.recs|, |Unfinished(s.recs, s.runs)|, s.tally, s.edges, Failed, Ready,
              |Unfinished(r.recs, r.runs)|, r.tally);
  }

  lemma RetryKeepsInv(s: State, id: RunId, now: real)
    requires Inv(s)
    ensures Inv(Retried(s, id, now).0)
  {
    hide Inv;
    InvWellFormed(s);
    if id !in s.runs {
    } else if |s.queue| >= s.capacity {
      CountersKeepInv(s, s.(requests := s.requests.(rejected := s.requests.rejected + 1)));
    } else if CanTransition(s.recs[id].state, Ready) {
      NotCreated(s, id);
      RequeueKeepsInv(s, id, now);
    }
  }

  lemma NotCreated(s: State, id: RunId)
    requires Inv(s) && id < |s.recs|
    ensures s.recs[id].state != Created
  {
  }

  lemma WellRecordedOf(s: State, id: RunId)
    requires Inv(s) && id < |s.recs|
    ensures WellRecorded(s.recs[id])
    ensures id in s.runs ==> id in s.events && s.events[id] == Terminal(s.recs[id].state)
    ensures id in s.events <==> id in s.runs
  {
  }

  /** A change to a run that is no transition. */
  lemma PlainWriteKeepsInv(s: State, id: RunId, run: Run)
    requires Inv(s)
    requires id < |s.recs|
    requires SameIdentity(s.recs[id], run) && run.state == s.recs[id].state
    requires run.finishedAt == s.recs[id].finishedAt && run.updatedAt == s.recs[id].updatedAt
    requires run.startedAt == s.recs[id].startedAt
    requires run.transitions == s.recs[id].transitions
    ensures Inv(s.(recs := s.recs[id := run]))
  {
    hide Owned, KeysInverse, Balanced, Recorded, LegalLog;
    WellRecordedOf(s, id);
    OwnedSameState(s.recs, s.runs, s.queue, s.slots, id, run);
    KeysKept(s.recs, s.runs, s.index, s.byRun, id, run);
    UnfinishedSame(s.recs, s.runs, id, run);
    assert id in s.runs ==> s.events[id := Terminal(run.state)] == s.events;
    RecordedChange(s.recs, s.runs, s.events, id, run, s.events);
  }

  lemma CancelledRunParts(s: State, id: RunId, now: real)
    requires WellFormed(s) && id < |s.recs|
    ensures var run := Applied(s.recs[id], Cancelled, now);
      run.state == Cancelled && SameIdentity(s.recs[id], run)
    ensures CancelledRun(s, id, now) == s.(
      recs := s.recs[id := Applied(s.recs[id], Cancelled, now)],
      edges := Bumped(s.edges, s.recs[id].state, Cancelled),
      events := s.events[id := true])
  {
    hide Bumped, IdsKnown;
  }

  lemma CancelledRunKeepsInv(s: State, id: RunId, now: real)
    requires Inv(s)
    requires id in s.runs && !Terminal(s.recs[id].state)
    ensures Inv(CancelledRun(s, id, now))
  {
    hide Owned, KeysInverse, Balanced, Recorded, WellRecorded, LegalLog, HandlesExact, Bumped, Unfinished, Applied;
    InvWellFormed(s);
    NotCreated(s, id);
    CancelledRunParts(s, id, now);
    var run := Applied(s.recs[id], Cancelled, now);
    var r := CancelledRun(s, id, now);
    OwnedCancel(s.recs, s.runs, s.queue, s.slots, id, run);
    WellRecordedOf(s, id);
    WellRecordedMove(s.recs[id], Cancelled, now);
    RecordedChange(s.recs, s.runs, s.events, id, run, r.events);
    KeysKept(s.recs, s.runs, s.index, s.byRun, id, run);
    UnfinishedChange(s.recs, s.runs, id, run);
    BooksMove(|s.recs|, |Unfinished(s.recs, s.runs)|, s.tally, s.edges, s.recs[id].state, Cancelled,
              |Unfinished(r.recs, r.runs)|, r.tally);
  }

  lemma CancelTaskKeepsInv(s: State, id: RunId)
    requires Inv(s)
    requires id < |s.recs| && s.recs[id].state == Cancelled
    ensures Inv(WithTaskCancelled(s, id))
  {
    hide Owned, KeysInverse, Balanced, Recorded;
    InvWellFormed(s);
    if id in s.tasks {
      var w := s.tasks[id];
      OwnedCancelTask(s.recs, s.runs, s.queue, s.slots, w);
      SumOfUpdate(s.slots, w, CancelTask(s.slots[w]), ActiveWeight);
    }
  }

  lemma CancelKeepsInv(s: State, id: RunId, now: real)
    requires Inv(s)
    ensures Inv(CancelAnswer(s, id, now).0)
  {
    hide Inv;
    InvWellFormed(s);
    if id in s.runs && !Terminal(s.recs[id].state) {
      var a := CancelRequested(s, id);
      PlainWriteKeepsInv(s, id, a.recs[id]);
      CancelledRunKeepsInv(a, id, now);
      var b := WithTaskCancelled(CancelledRun(a, id, now), id);
      CancelTaskKeepsInv(CancelledRun(a, id, now), id);
      CountersKeepInv(b, b.(requests := b.requests.(cancelled := b.requests.cancelled + 1)));
    }
  }

  lemma CancelledRunState(s: State, id: RunId, now: real)
    requires WellFormed(s) && id < |s.recs|
    ensures CancelledRun(s, id, now).recs[id].state == Cancelled
    ensures forall k :: 0 <= k < |s.recs| && k != id ==> CancelledRun(s, id, now).recs[k] == s.recs[k]
  {
  }

  lemma {:induction false} CancelledBelowKeepsInv(s: State, n: nat, now: real)
    requires Inv(s) && n <= |s.recs|
    ensures Inv(CancelledBelow(s, n, now))
    ensures forall id :: 0 <= id < n ==> Terminal(CancelledBelow(s, n, now).recs[id].state)
  {
    hide Inv, CancelledRun, SameSetup, IdsKnown;
    if n > 0 {
      InvWellFormed(s);
      CancelledBelowKeepsInv(s, n - 1, now);
      var c := CancelledBelow(s, n - 1, now);
      assert c.recs[n - 1] == s.recs[n - 1];
      if n - 1 in s.runs && !Terminal(s.recs[n - 1].state) {
        CancelledRunKeepsInv(c, n - 1, now);
        CancelledRunState(c, n - 1, now);
      } else {
        assert Terminal(c.recs[n - 1].state);
      }
    }
  }

  lemma StopKeepsInv(s: State)
    requires Inv(s)
    requires forall id :: 0 <= id < |s.recs| ==> Terminal(s.recs[id].state)
    ensures Inv(WorkersStopped(s))
  {
    hide Owned, KeysInverse, Balanced, Recorded;
    InvWellFormed(s);
    var r := WorkersStopped(s);
    OwnedStop(s.recs, s.runs, s.queue, s.slots, r.slots, s.tasks);
    SumOfSame(s.slots, r.slots, ActiveWeight);
  }

  lemma CloseKeepsInv(s: State, now: real)
    requires Inv(s)
    ensures Inv(Closed(s, now))
  {
    hide Inv;
    InvWellFormed(s);
    if !s.closed {
      var c := s.(closed := true);
      CountersKeepInv(s, c);
      CancelledBelowKeepsInv(c, |c.recs|, now);
      StopKeepsInv(CancelledBelow(c, |c.recs|, now));
    }
  }

  // ---------------------------------------------------------------------
  // Workers and executors
  // ---------------------------------------------------------------------

  /** The oldest entry is of a run that can be executed, or of a finished one. */
  lemma QueueHead(s: State)
    requires Inv(s) && s.queue != []
    ensures WellFormed(s)
    ensures s.recs[s.queue[0]].state == Ready || Terminal(s.recs[s.queue[0]].state)
    ensures s.queue[0] !in s.runs ==> Terminal(s.recs[s.queue[0]].state)
    ensures s.queue[0] in s.tasks ==> !Live(s.slots[s.tasks[s.queue[0]]])
  {
  }

  lemma HandlesDequeue(tasks: map<RunId, nat>, slots: seq<Slot>, w: nat, id: RunId)
    requires HandlesExact(tasks, slots)
    requires w < |slots| && slots[w].Idle?
    ensures HandlesExact(tasks[id := w], slots[w := Busy(id, Pending(false), false)])
  {
  }

  lemma DequeueKeepsInv(s: State, w: nat)
    requires Inv(s)
    requires w < |s.slots| && s.slots[w].Idle? && s.queue != []
    ensures Inv(Dequeued(s, w))
  {
    hide Owned, KeysInverse, Balanced, Recorded, HandlesExact;
    QueueHead(s);
    HandlesDequeue(s.tasks, s.slots, w, s.queue[0]);
    var id := s.queue[0];
    if id !in s.runs || Terminal(s.recs[id].state) {
      OwnedSkip(s.recs, s.runs, s.queue, s.slots);
    } else {
      OwnedDequeue(s.recs, s.runs, s.queue, s.slots, w);
      SumOfUpdate(s.slots, w, Busy(id, Pending(false), false), ActiveWeight);
    }
  }

  /** The general step of a task, stated over what may change with it. */
  lemma TaskStepKeepsInv(s: State, r: State, w: nat, run: Run, slot: Slot)
    requires Inv(s)
    requires w < |s.slots| && Live(s.slots[w])
    requires r == s.(recs := s.recs[s.slots[w].run := run], slots := s.slots[w := slot],
                     events := r.events, tally := r.tally, active := r.active, edges := r.edges)
    requires SameIdentity(s.recs[s.slots[w].run], run) && WellRecorded(run) && run.state != Created
    requires s.recs[s.slots[w].run].state == Cancelled ==> run.state == Cancelled
    requires slot.Busy? ==> slot.run == s.slots[w].run && slot.orphan == s.slots[w].orphan
                            && Agrees(slot.exec, run.state)
    requires !slot.Busy? ==> s.slots[w].orphan
    requires Live(slot) || Terminal(run.state)
    requires r.events == if s.slots[w].run in s.runs
                         then s.events[s.slots[w].run := Terminal(run.state)] else s.events
    requires r.active == s.active - ActiveWeight(s.slots[w]) + ActiveWeight(slot)
    requires Balanced(|r.recs|, |Unfinished(r.recs, r.runs)|, r.tally, r.edges)
    ensures Inv(r)
  {
    hide Owned, KeysInverse, Balanced, WellRecorded, Recorded;
    var id := s.slots[w].run;
    HeldIsRegistered(s, w);
    OwnedTaskStep(s.recs, s.runs, s.queue, s.slots, w, run, slot);
    RecordedChange(s.recs, s.runs, s.events, id, run, r.events);
    KeysKept(s.recs, s.runs, s.index, s.byRun, id, run);
    SumOfUpdate(s.slots, w, slot, ActiveWeight);
    assert HandlesExact(r.tasks, r.slots);
  }

  /** A run a live task executes is registered unless it was cancelled. */
  lemma HeldIsRegistered(s: State, w: nat)
    requires Inv(s)
    requires w < |s.slots| && Live(s.slots[w])
    ensures s.slots[w].run < |s.recs| && Agrees(s.slots[w].exec, s.recs[s.slots[w].run].state)
    ensures s.recs[s.slots[w].run].state != Cancelled ==>
      s.slots[w].run in s.runs && !Terminal(s.recs[s.slots[w].run].state)
  {
  }

  /** A write or a move of one run with its counters; the rest of the state is as before. */
  ghost predicate RunStep(s: State, r: State, id: RunId) {
    && id < |s.recs| && |r.recs| == |s.recs|
    && r == s.(recs := s.recs[id := r.recs[id]], tally := r.tally, edges := r.edges)
    && SameIdentity(s.recs[id], r.recs[id])
    && WellRecorded(r.recs[id]) && r.recs[id].state != Created
    && (s.recs[id].state == Cancelled ==> r.recs[id].state == Cancelled)
    && Balanced(|r.recs|, |Unfinished(r.recs, r.runs)|, r.tally, r.edges)
  }

  /** The state a run step may start from. */
  ghost predicate Sound(s: State, id: RunId) {
    && WellFormed(s) && id < |s.recs|
    && WellRecorded(s.recs[id]) && s.recs[id].state != Created
    && (!Terminal(s.recs[id].state) ==> id in s.runs)
    && Balanced(|s.recs|, |Unfinished(s.recs, s.runs)|, s.tally, s.edges)
  }

  lemma RunStepCompose(s: State, m: State, r: State, id: RunId)
    requires RunStep(s, m, id) && RunStep(m, r, id)
    ensures RunStep(s, r, id)
  {
    assert s.recs[id := m.recs[id]][id := r.recs[id]] == s.recs[id := r.recs[id]];
  }

  lemma SoundAfter(s: State, r: State, id: RunId)
    requires Sound(s, id) && RunStep(s, r, id)
    requires !Terminal(r.recs[id].state) ==> id in s.runs
    ensures Sound(r, id)
  {
  }

  lemma WriteStep(s: State, id: RunId, run: Run)
    requires Sound(s, id)
    requires SameIdentity(s.recs[id], run) && run.state == s.recs[id].state
    requires run.finishedAt == s.recs[id].finishedAt && run.updatedAt == s.recs[id].updatedAt
    requires run.startedAt == s.recs[id].startedAt
    requires run.transitions == s.recs[id].transitions
    ensures RunStep(s, s.(recs := s.recs[id := run]), id)
  {
    UnfinishedSame(s.recs, s.runs, id, run);
  }

  /** A transition with the counter that belongs to it. */
  lemma MoveStep(s: State, id: RunId, target: RunState, now: real, r: State)
    requires Sound(s, id)
    requires CanTransition(s.recs[id].state, target) && target != Ready
    requires id in s.runs
    requires r == Moved(s, id, target, now).(tally := r.tally)
    requires r.tally == s.tally.(succeeded := s.tally.succeeded + One(target == Succeeded),
                                 failed := s.tally.failed + One(target == Failed))
    ensures RunStep(s, r, id)
  {
    hide Balanced, WellRecorded, Bumped;
    var run := Applied(s.recs[id], target, now);
    WellRecordedMove(s.recs[id], target, now);
    UnfinishedChange(s.recs, s.runs, id, run);
    BooksMove(|s.recs|, |Unfinished(s.recs, s.runs)|, s.tally, s.edges, s.recs[id].state, target,
              |Unfinished(r.recs, r.runs)|, r.tally);
  }

  /** However an attempt ends, its run ends finished: bracketing never leaves it Waiting. */
  lemma SettledStep(s: State, id: RunId, outcome: Outcome, now: real)
    requires Sound(s, id)
    requires s.recs[id].state == Running || s.recs[id].state == Cancelled
    ensures RunStep(s, Settled(s, id, outcome, now), id)
    ensures Terminal(Settled(s, id, outcome, now).recs[id].state)
  {
    hide Balanced, WellRecorded, Bumped, RunStep, Sound;
    SoundFacts(s, id);
    var m := s.(recs := s.recs[id := Written(s.recs[id], outcome)]);
    WriteStep(s, id, Written(s.recs[id], outcome));
    SoundAfter(s, m, id);
    var r := Settled(s, id, outcome, now);
    if s.recs[id].state == Running {
      MoveStep(m, id, Verdict(Running, outcome).value, now, r);
      RunStepCompose(s, m, r, id);
    } else {
      assert r == m;
    }
  }

  lemma SoundFacts(s: State, id: RunId)
    requires Sound(s, id)
    ensures WellFormed(s) && id < |s.recs|
    ensures !Terminal(s.recs[id].state) ==> id in s.runs
  {
  }

  lemma InvSound(s: State, w: nat)
    requires Inv(s)
    requires w < |s.slots| && Live(s.slots[w])
    ensures HasRun(s, w) && Sound(s, s.slots[w].run)
  {
    hide Balanced, WellRecorded;
  }

  /** `_execute` ends a task: its run is finished, its event set, and its worker is told. */
  lemma FinalizedKeepsInv(s: State, m: State, w: nat)
    requires Inv(s)
    requires w < |s.slots| && Live(s.slots[w]) && HasRun(m, w) && WellFormed(m)
    requires exists active :: m == s.(recs := m.recs, tally := m.tally, edges := m.edges, active := active)
    requires m.active - 1 == s.active - ActiveWeight(s.slots[w])
    requires RunStep(s, m.(active := s.active), s.slots[w].run)
    requires Terminal(m.recs[s.slots[w].run].state)
    ensures Inv(Finalized(m, w))
  {
    hide Owned, KeysInverse, Balanced, WellRecorded, HandlesExact, Recorded;
    var id := s.slots[w].run;
    var r := Finalized(m, w);
    WellRecordedOf(s, id);
    TaskStepKeepsInv(s, r, w, m.recs[id], r.slots[w]);
  }

  lemma EndedKeepsInv(s: State, w: nat, outcome: Outcome, now: real)
    requires Inv(s)
    requires w < |s.slots| && s.slots[w].Busy? && s.slots[w].exec.Active? && !s.slots[w].exec.inCall
    requires HasRun(s, w) && WellFormed(s)
    ensures Inv(Ended(s, w, outcome, now))
  {
    hide Owned, KeysInverse, Balanced, WellRecorded, HandlesExact, Recorded, Settled, Finalized, Sound;
    var id := s.slots[w].run;
    InvSound(s, w);
    HeldIsRegistered(s, w);
    SettledStep(s, id, outcome, now);
    var m := Settled(s, id, outcome, now);
    assert m.(active := s.active) == m;
    assert m == s.(recs := m.recs, tally := m.tally, edges := m.edges, active := m.active);
    FinalizedKeepsInv(s, m, w);
  }

  /** A task that ends without touching its run. */
  lemma TaskOverKeepsInv(s: State, w: nat)
    requires Inv(s) && WellFormed(s) && HasRun(s, w)
    requires s.slots[w].exec.Pending? && s.recs[s.slots[w].run].state == Cancelled
    ensures Inv(TaskOver(s, w, true))
  {
    hide Owned, KeysInverse, Balanced, WellRecorded, HandlesExact, Recorded;
    var id := s.slots[w].run;
    var r := TaskOver(s, w, true);
    WellRecordedOf(s, id);
    assert s.recs[id := s.recs[id]] == s.recs;
    assert id in s.runs ==> s.events[id := true] == s.events;
    TaskStepKeepsInv(s, r, w, s.recs[id], r.slots[w]);
  }

  /** A task goes to its next phase together with its run; the event stays as it was. */
  lemma PhaseKeepsInv(s: State, m: State, w: nat, exec: Exec)
    requires Inv(s) && WellFormed(m)
    requires w < |s.slots| && Live(s.slots[w]) && HasRun(m, w)
    requires RunStep(s, m.(active := s.active), s.slots[w].run)
    requires m.active == s.active - ActiveWeight(s.slots[w]) + ActiveWeight(s.slots[w].(exec := exec))
    requires !exec.Over? && Agrees(exec, m.recs[s.slots[w].run].state)
    requires Terminal(m.recs[s.slots[w].run].state) == Terminal(s.recs[s.slots[w].run].state)
    ensures Inv(WithExec(m, w, exec))
  {
    hide Owned, KeysInverse, Balanced, WellRecorded, HandlesExact, Recorded, WellFormed;
    var id := s.slots[w].run;
    var r := WithExec(m, w, exec);
    HeldIsRegistered(s, w);
    WellRecordedOf(s, id);
    assert id in s.runs ==> s.events[id := Terminal(m.recs[id].state)] == s.events;
    TaskStepKeepsInv(s, r, w, m.recs[id], r.slots[w]);
  }

  /** A task that starts: its run is Ready, so the move to Running is legal. */
  lemma StartedKeepsInv(s: State, w: nat, now: real)
    requires Inv(s) && WellFormed(s) && HasRun(s, w) && s.slots[w].exec == Pending(false)
    requires s.recs[s.slots[w].run].state == Ready
    ensures Inv(Begun(s, w, now))
  {
    hide Inv, Sound, Ended, Finalized, Bumped;
    var id := s.slots[w].run;
    HeldIsRegistered(s, w);
    InvSound(s, w);
    MoveStep(s, id, Running, now, Moved(s, id, Running, now));
    var m := Moved(s.(active := s.active + 1), id, Running, now);
    assert m.(active := s.active) == Moved(s, id, Running, now);
    PhaseKeepsInv(s, m, w, Active(false, CallBudget(s.recs[id].kind, s.config.maxAgentSteps)));
  }

  /** A task that finds its run cancelled returns at once. */
  lemma SkippedKeepsInv(s: State, w: nat)
    requires Inv(s) && WellFormed(s) && HasRun(s, w) && s.slots[w].exec == Pending(false)
    requires s.recs[s.slots[w].run].state == Cancelled
    ensures Inv(Finalized(s.(active := s.active + 1), w))
  {
    hide Owned, KeysInverse, Balanced, WellRecorded, HandlesExact, Recorded, Finalized, Sound;
    var id := s.slots[w].run;
    InvSound(s, w);
    WriteStep(s, id, s.recs[id]);
    assert s.recs[id := s.recs[id]] == s.recs;
    var a := s.(active := s.active + 1);
    assert a == s.(recs := a.recs, tally := a.tally, edges := a.edges, active := a.active);
    FinalizedKeepsInv(s, a, w);
  }

  lemma BegunKeepsInv(s: State, w: nat, now: real)
    requires Inv(s) && WellFormed(s) && HasRun(s, w) && s.slots[w].exec.Pending?
    ensures Inv(Begun(s, w, now))
  {
    hide Inv, Finalized, Ended;
    HeldIsRegistered(s, w);
    if s.slots[w].exec.cancelled {
      TaskOverKeepsInv(s, w);
    } else if s.recs[s.slots[w].run].state == Cancelled {
      SkippedKeepsInv(s, w);
    } else {
      StartedKeepsInv(s, w, now);
    }
  }

  /** A call may begin: the run waits, or was cancelled and the attempt ends. */
  lemma CallBegunKeepsInv(s: State, w: nat, now: real)
    requires Inv(s) && WellFormed(s) && HasRun(s, w)
    requires s.slots[w].exec.Active? && !s.slots[w].exec.inCall && s.slots[w].exec.budget > 0
    ensures Inv(CallBegun(s, w, now))
  {
    hide Inv, Sound, Ended, Bumped;
    var id := s.slots[w].run;
    HeldIsRegistered(s, w);
    InvSound(s, w);
    if s.recs[id].state == Cancelled {
      EndedKeepsInv(s, w, ILLEGAL, now);
    } else {
      var m := Moved(s, id, Waiting, now);
      MoveStep(s, id, Waiting, now, m);
      assert m.(active := s.active) == m;
      PhaseKeepsInv(s, m, w, Active(true, s.slots[w].exec.budget - 1));
    }
  }

  lemma BackToRunningStep(s: State, id: RunId, now: real)
    requires Sound(s, id)
    requires s.recs[id].state == Waiting || s.recs[id].state == Cancelled
    ensures RunStep(s, BackToRunning(s, id, now), id)
    ensures BackToRunning(s, id, now).recs[id].state
            == if s.recs[id].state == Waiting then Running else Cancelled
  {
    if s.recs[id].state == Waiting {
      MoveStep(s, id, Running, now, Moved(s, id, Running, now));
    } else {
      WriteStep(s, id, s.recs[id]);
    }
  }

  /** What the end of a call does to its run. */
  lemma CallReturnStep(s: State, id: RunId, ok: bool, now: real)
    requires Sound(s, id)
    requires s.recs[id].state == Waiting || s.recs[id].state == Cancelled
    ensures var r := BackToRunning(WithStep(s, id, ok), id, now);
      && RunStep(s, r, id)
      && r.recs[id].state == if s.recs[id].state == Waiting then Running else Cancelled
  {
    hide Balanced, WellRecorded, BackToRunning;
    var m := WithStep(s, id, ok);
    assert s.recs[id := s.recs[id]] == s.recs;
    WriteStep(s, id, m.recs[id]);
    SoundAfter(s, m, id);
    BackToRunningStep(m, id, now);
    RunStepCompose(s, m, BackToRunning(m, id, now), id);
  }

  lemma CallEndedKeepsInv(s: State, w: nat, ok: bool, now: real)
    requires Inv(s) && WellFormed(s) && HasRun(s, w)
    requires s.slots[w].exec.Active? && s.slots[w].exec.inCall
    ensures Inv(CallEnded(s, w, ok, now))
  {
    hide Inv, Sound, RunStep, BackToRunning, WithStep;
    var id := s.slots[w].run;
    HeldIsRegistered(s, w);
    InvSound(s, w);
    CallReturnStep(s, id, ok, now);
    var m := BackToRunning(WithStep(s, id, ok), id, now);
    RunStepFrame(s, m, id);
    assert m.(active := s.active) == m;
    PhaseKeepsInv(s, m, w, Active(false, s.slots[w].exec.budget));
  }

  lemma RunStepFrame(s: State, r: State, id: RunId)
    requires RunStep(s, r, id)
    ensures r.active == s.active && r.slots == s.slots && r.runs == s.runs
  {
  }

  lemma HandlesResume(tasks: map<RunId, nat>, slots: seq<Slot>, w: nat, slot: Slot)
    requires HandlesExact(tasks, slots)
    requires w < |slots| && slots[w].Busy?
    ensures HandlesExact(tasks - {slots[w].run}, slots[w := slot])
  {
  }

  lemma ResumedKeepsInv(s: State, w: nat)
    requires Inv(s) && WellFormed(s) && HasRun(s, w) && s.slots[w].exec.Over?
    ensures Inv(Resumed(s, w))
  {
    hide Owned, KeysInverse, Balanced, WellRecorded, HandlesExact, Recorded;
    var r := Resumed(s, w);
    OwnedIdle(s.recs, s.runs, s.queue, s.slots, w, r.slots[w]);
    SumOfUpdate(s.slots, w, r.slots[w], ActiveWeight);
    HandlesResume(s.tasks, s.slots, w, r.slots[w]);
  }

  // ---------------------------------------------------------------------
  // Every step, every run of the system
  // ---------------------------------------------------------------------

  lemma NextKeepsInv(s: State, step: Step)
    requires Inv(s) && WellFormed(s) && Enabled(s, step)
    ensures Inv(Next(s, step))
  {
    hide Inv, Submitted, Retried, CancelAnswer, Closed, Dequeued, Begun, CallBegun, CallEnded, Ended, Resumed;
    match step
    case Submit(q, now) => SubmitKeepsInv(s, q, now);
    case Retry(id, now) => RetryKeepsInv(s, id, now);
    case Cancel(id, now) => CancelKeepsInv(s, id, now);
    case Close(now) => CloseKeepsInv(s, now);
    case Dequeue(w) => DequeueKeepsInv(s, w);
    case Begin(w, now) => BegunKeepsInv(s, w, now);
    case CallBegin(w, now) => CallBegunKeepsInv(s, w, now);
    case CallEnd(w, ok, now) => CallEndedKeepsInv(s, w, ok, now);
    case End(w, outcome, now) => EndedKeepsInv(s, w, outcome, now);
    case Resume(w) => ResumedKeepsInv(s, w);
  }

  /** The invariant holds in every reachable state. */
  lemma {:induction false} AfterKeepsInv(s: State, steps: seq<Step>)
    requires Inv(s) && WellFormed(s) && Possible(s, steps)
    ensures Inv(After(s, steps))
    decreases |steps|
  {
    hide Inv, Next;
    if steps != [] {
      NextKeepsInv(s, steps[0]);
      AfterKeepsInv(Next(s, steps[0]), steps[1..]);
    }
  }
}
