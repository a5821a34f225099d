/**
 The runtime as the source keeps it: run records on the heap, dictionaries as fields,
 a queue object, and one slot per worker coroutine with what it holds between two
 suspension points. Each method performs one atomic step in place; its postcondition equates
 the new abstract state with a step function of module Scheduler applied to the old one, so
 everything proved of reachable states there holds of this object too.
 */
module AgentRuntimes {
  import opened Common
  import opened Lifecycle
  import opened Eviction
  import opened Scheduler
  import opened Text

  /** `InMemoryTaskQueue`: a bounded FIFO (the constructor raises unless the capacity is positive). */
  class InMemoryTaskQueue {
    const capacity: nat
    var items: seq<RunId>

    constructor (capacity: nat)
      requires capacity > 0
      ensures this.capacity == capacity && items == []
    {
      this.capacity := capacity;
      items := [];
    }

    predicate Full()
      reads this
    {
      |items| >= capacity
    }

    /** False stands for asyncio.QueueFull. */
    method PutNowait(id: RunId) returns (ok: bool)
      modifies this
      ensures ok == (|old(items)| < capacity)
      ensures items == if ok then old(items) + [id] else old(items)
    {
      ok := |items| < capacity;
      if ok {
        items := items + [id];
      }
    }

    /** `get` resumes only when there is an entry. */
    method Get() returns (id: RunId)
      requires items != []
      modifies this
      ensures id == old(items)[0] && items == old(items)[1..]
    {
      id := items[0];
      items := items[1..];
    }
  }

  /** The values of the run objects. */
  ghost function ValuesOf(all: seq<RunRecord>): (r: seq<Run>)
    reads all
    ensures |r| == |all|
  {
    if all == [] then [] else ValuesOf(all[..|all| - 1]) + [all[|all| - 1].Value()]
  }

  lemma {:induction false} ValueAt(all: seq<RunRecord>, i: nat)
    requires i < |all|
    ensures ValuesOf(all)[i] == all[i].Value()
  {
    if i < |all| - 1 {
      ValueAt(all[..|all| - 1], i);
    }
  }

  /** The objects have the values of `recs`, save perhaps the one at position `id`. */
  ghost predicate AgreeExcept(all: seq<RunRecord>, recs: seq<Run>, id: nat)
    reads all
  {
    |all| == |recs| && forall i :: 0 <= i < |all| && i != id ==> all[i].Value() == recs[i]
  }

  lemma ValuesAgree(all: seq<RunRecord>, id: nat)
    ensures AgreeExcept(all, ValuesOf(all), id)
  {
    forall i | 0 <= i < |all| ensures all[i].Value() == ValuesOf(all)[i] {
      ValueAt(all, i);
    }
  }

  lemma OneWritten(all: seq<RunRecord>, recs: seq<Run>, id: nat)
    requires AgreeExcept(all, recs, id) && id < |all|
    ensures ValuesOf(all) == recs[id := all[id].Value()]
  {
    forall i | 0 <= i < |all| ensures ValuesOf(all)[i] == recs[id := all[id].Value()][i] {
      ValueAt(all, i);
    }
  }

  /** Ids are positions in the order of creation. */
  ghost predicate Numbered(all: seq<RunRecord>) {
    forall i :: 0 <= i < |all| ==> all[i].id == i
  }

  /** The registry maps ids to their run objects. */
  ghost predicate Registered(all: seq<RunRecord>, runs: map<RunId, RunRecord>) {
    forall id :: id in runs ==> id < |all| && runs[id] == all[id]
  }

  /** A busy worker's local variable holds the object of the run it executes. */
  ghost predicate Holding(all: seq<RunRecord>, slots: seq<Slot>, held: map<nat, RunRecord>) {
    forall w :: 0 <= w < |slots| && slots[w].Busy? ==>
      slots[w].run < |all| && w in held && held[w] == all[slots[w].run]
  }

  lemma MinusTwice<K, V>(m: map<K, V>, a: set<K>, b: set<K>)
    ensures (m - a) - b == m - (a + b)
  {
  }

  lemma KeysOfOne(byRun: map<RunId, string>, id: RunId)
    ensures KeysOf(byRun, {id}) == if id in byRun then {byRun[id]} else {}
  {
  }

  lemma EvictSingle(s: State, id: RunId)
    requires WellFormed(s)
    ensures Evict(s, {id}) == s.(
      runs := s.runs - {id}, events := s.events - {id}, byRun := s.byRun - {id},
      index := s.index - if id in s.byRun then {s.byRun[id]} else {},
      requests := s.requests.(evicted := s.requests.evicted + 1))
  {
    KeysOfOne(s.byRun, id);
  }

  lemma EvictNone(s: State)
    requires WellFormed(s)
    ensures Evict(s, {}) == s
  {
    assert KeysOf(s.byRun, {}) == {};
  }

  lemma KeysOneMore(byRun: map<RunId, string>, gone: set<RunId>, id: RunId)
    requires id !in gone
    ensures KeysOf(byRun, gone) + KeysOf(byRun - gone, {id}) == KeysOf(byRun, gone + {id})
  {
    KeysOfAdd(byRun, gone, id);
    KeysOfOne(byRun - gone, id);
  }

  /** Evicting one more run. */
  lemma EvictOneMore(s: State, gone: set<RunId>, id: RunId)
    requires WellFormed(s) && id !in gone
    ensures Evict(Evict(s, gone), {id}) == Evict(s, gone + {id})
  {
    hide KeysOf, IdsKnown;
    KeysOneMore(s.byRun, gone, id);
    MinusTwice(s.events, gone, {id});
    MinusTwice(s.byRun, gone, {id});
    MinusTwice(s.index, KeysOf(s.byRun, gone), KeysOf(s.byRun - gone, {id}));
    assert (s.runs - gone) - {id} == s.runs - (gone + {id});
    assert |gone + {id}| == |gone| + 1;
  }

  /** The state once a new run is in the dictionaries, before it moves to Ready and is queued. */
  function Noted(s: State, q: Request, now: real): (r: State)
    requires WellFormed(s)
    ensures WellFormed(r)
  {
    var id := |s.recs|;
    s.(recs := s.recs + [NewRun(q.input, q.kind, SessionOf(q), now)],
       runs := s.runs + {id},
       events := s.events[id := false],
       index := if q.key.Some? then s.index[q.key.value := Entry(id, q.input, q.kind, q.session)] else s.index,
       byRun := if q.key.Some? then s.byRun[id := q.key.value] else s.byRun,
       tally := s.tally.(submitted := s.tally.submitted + 1))
  }

  lemma AdmittedInSteps(s: State, q: Request, now: real)
    requires WellFormed(s)
    ensures |Noted(s, q, now).recs| == |s.recs| + 1
    ensures var m := Moved(Noted(s, q, now), |s.recs|, Ready, now);
      Admitted(s, q, now) == m.(queue := m.queue + [|s.recs|])
  {
    hide Bumped, Applied, IdsKnown;
    var run := NewRun(q.input, q.kind, SessionOf(q), now);
    assert (s.recs + [run])[|s.recs| := Applied(run, Ready, now)] == s.recs + [Applied(run, Ready, now)];
  }

  class AgentRuntime {
    const config: Config
    const queue: InMemoryTaskQueue
    const fsm: StateMachine
    var started: bool
    var closed: bool
    /** Run objects made so far; the next fresh id. */
    var created: nat
    var runs: map<RunId, RunRecord>
    var completionEvents: map<RunId, bool>
    var idempotencyIndex: map<string, Entry>
    var idempotencyByRun: map<RunId, string>
    var slots: seq<Slot>
    /** The run a worker's task has in its local variable. */
    var held: map<nat, RunRecord>
    var tasks: map<RunId, nat>
    var tally: Tally
    var requests: RequestCounts
    var active: int
    var edges: EdgeCounts
    /** Every run object ever made, evicted ones included. */
    ghost var all: seq<RunRecord>

    ghost predicate Valid()
      reads this, queue, all
    {
      && IdsKnown(|all|, runs.Keys, queue.items, slots) && created == |all|
      && Numbered(all) && Registered(all, runs) && Holding(all, slots, held)
    }

    /** The abstract state. */
    ghost function Model(): (s: State)
      requires Valid()
      reads this, queue, all
      ensures WellFormed(s) && |s.recs| == |all|
    {
      State(config, queue.capacity, started, closed, ValuesOf(all), runs.Keys, completionEvents,
            idempotencyIndex, idempotencyByRun, queue.items, slots, tasks, tally, requests, active, edges)
    }

    ghost predicate Known(run: RunRecord)
      reads this
    {
      run.id < |all| && all[run.id] == run
    }

    /** `config.validate` raises unless the configuration is valid. */
    constructor (config: Config, queue: InMemoryTaskQueue)
      requires ValidConfig(config) && queue.items == []
      ensures Valid() && Model() == Init(config, queue.capacity)
      ensures this.config == config && this.queue == queue && fresh(fsm) && all == []
    {
      this.config := config;
      this.queue := queue;
      fsm := new StateMachine();
      started, closed, created := false, false, 0;
      runs, completionEvents, idempotencyIndex, idempotencyByRun := map[], map[], map[], map[];
      slots, held, tasks := [], map[], map[];
      tally, requests := Tally(0, 0, 0, 0), RequestCounts(0, 0, 0, 0);
      active, edges := 0, map[];
      all := [];
    }

    // -------------------------------------------------------------------
    // Transitions with their hook
    // -------------------------------------------------------------------

    /** `_on_transition`. */
    method CountTransition(source: RunState, target: RunState)
      modifies this`edges
      ensures edges == Bumped(old(edges), source, target)
    {
      var edge := Edge(source, target);
      edges := edges[edge := (if edge in edges then edges[edge] else 0) + 1];
    }

    /** A transition known to be legal, with its counter. */
    method MoveRun(run: RunRecord, target: RunState, now: real)
      requires Valid() && Known(run)
      requires CanTransition(run.state, target)
      modifies run, fsm, this`edges
      ensures Valid() && Model() == Moved(old(Model()), run.id, target, now)
    {
      hide IdsKnown, Registered, Holding, Bumped, Applied, RunRecord.Value;
      ghost var recs := ValuesOf(all);
      ValueAt(all, run.id);
      ValuesAgree(all, run.id);
      var source := run.state;
      var ok := fsm.Move(run, target, now);
      CountTransition(source, target);
      OneWritten(all, recs, run.id);
    }

    // -------------------------------------------------------------------
    // start, submit, eviction
    // -------------------------------------------------------------------

    /** `start`: false stands for the RuntimeError of a closed runtime. */
    method Start() returns (ok: bool)
      requires Valid()
      modifies this`started, this`slots
      ensures Valid()
      ensures ok == !closed == !old(Model()).closed
      ensures Model() == if ok then StartWorkers(old(Model())) else old(Model())
    {
      if closed {
        return false;
      }
      if !started {
        slots := seq(config.maxConcurrency, _ => Idle);
        started := true;
      }
      ok := true;
    }

    /** `finished_at or updated_at` of a registered run. */
    function KeyOf(id: RunId): (key: real)
      requires Valid() && id in runs
      reads this, queue, all
      ensures id < |Model().recs| && key == FinishKey(Model().recs[id])
    {
      ValueAt(all, id);
      var run := runs[id];
      if run.finishedAt.Some? && run.finishedAt.value != 0.0 then run.finishedAt.value else run.updatedAt
    }

    lemma KeyIsFinishKey(id: RunId)
      requires Valid() && id in runs
      ensures id < |Model().recs| && KeyOf(id) == FinishKey(Model().recs[id])
    {
      hide Valid, Model;
      var key := KeyOf(id);
    }

    predicate IsFinished(id: RunId): (b: bool)
      requires Valid()
      reads this, queue, all
      ensures b == IsTerminalRun(Model().recs, Model().runs, id)
    {
      assert id in runs ==> ValuesOf(all)[id] == runs[id].Value() by {
        if id in runs {
          ValueAt(all, id);
        }
      }
      id in runs && Terminal(runs[id].state)
    }

    /** The registered terminal runs by finish time: Python's `sorted` as an insertion sort. */
    method SortedTerminal() returns (sorted: seq<RunId>)
      requires Valid()
      ensures sorted == Finished(Model().recs, Model().runs)
      ensures forall i :: 0 <= i < |sorted| ==> sorted[i] in runs
    {
      ghost var s := Model();
      var ids := [];
      for i := 0 to created
        invariant ids == TerminalIds(s.recs, s.runs, i)
        invariant forall j :: 0 <= j < |ids| ==> ids[j] in runs
      {
        if IsFinished(i) {
          ids := ids + [i];
        }
      }
      TerminalIdsExact(s.recs, s.runs, created);
      sorted := SortedByKey(ids);
    }

    method SortedByKey(ids: seq<RunId>) returns (sorted: seq<RunId>)
      requires Valid()
      requires forall j :: 0 <= j < |ids| ==> ids[j] in runs
      ensures AllBelow(ids, |Model().recs|)
      ensures sorted == SortByFinish(Model().recs, ids)
      ensures forall j :: 0 <= j < |sorted| ==> sorted[j] in runs
    {
      hide Model, Insert;
      ghost var recs := Model().recs;
      assert forall j :: 0 <= j < |ids| ==> KeyOf(ids[j]) == FinishKey(recs[ids[j]]);
      sorted := [];
      for k := 0 to |ids|
        invariant AllBelow(ids, |recs|)
        invariant sorted == SortByFinish(recs, ids[..k])
        invariant forall j :: 0 <= j < |sorted| ==> sorted[j] in runs
      {
        assert ids[..k + 1][..k] == ids[..k];
        sorted := Inserted(sorted, ids[k]);
      }
      assert ids[..|ids|] == ids;
    }

    method Inserted(sorted: seq<RunId>, x: RunId) returns (longer: seq<RunId>)
      requires Valid()
      requires x in runs && forall j :: 0 <= j < |sorted| ==> sorted[j] in runs
      ensures AllBelow(sorted, |Model().recs|) && x < |Model().recs|
      ensures longer == Insert(Model().recs, sorted, x)
      ensures forall j :: 0 <= j < |longer| ==> longer[j] in runs
    {
      hide Valid, Model, Insert;
      var pos := |sorted|;
      while pos > 0 && KeyOf(sorted[pos - 1]) > KeyOf(x)
        invariant 0 <= pos <= |sorted|
        invariant forall i :: pos <= i < |sorted| ==> KeyOf(sorted[i]) > KeyOf(x)
      {
        pos := pos - 1;
      }
      longer := sorted[..pos] + [x] + sorted[pos..];
      ghost var recs := Model().recs;
      KeyIsFinishKey(x);
      forall i | 0 <= i < |sorted|
        ensures sorted[i] < |recs| && KeyOf(sorted[i]) == FinishKey(recs[sorted[i]])
      {
        KeyIsFinishKey(sorted[i]);
      }
      InsertAt(recs, sorted, x, pos);
    }

    /** The runs whose finish time is before the cutoff. */
    method ExpiredOf(terminal: seq<RunId>, cutoff: real) returns (expired: set<RunId>)
      requires Valid()
      requires terminal == Finished(Model().recs, Model().runs)
      requires forall i :: 0 <= i < |terminal| ==> terminal[i] in runs
      ensures expired == Expired(Model().recs, Model().runs, cutoff)
    {
      hide Valid, Model, Finished;
      expired := set id: RunId | id in terminal && KeyOf(id) < cutoff;
      ghost var recs, registered := Model().recs, Model().runs;
      FinishedExact(recs, registered);
      forall id: RunId ensures id in expired <==> id in Expired(recs, registered, cutoff) {
        assert id in terminal <==> IsTerminalRun(recs, registered, id);
        if id in terminal {
          assert KeyOf(id) == FinishKey(recs[id]);
        }
      }
    }

    /** The overflow loop: adds the oldest runs not chosen yet until enough are chosen. */
    static method AddOldest(terminal: seq<RunId>, chosen: set<RunId>, e: nat, overflow: nat)
      returns (removeIds: set<RunId>)
      requires NoDuplicates(terminal) && e <= |terminal| && chosen == Elements(terminal[..e])
      ensures removeIds == Elements(terminal[..MinNat(|terminal|, e + overflow)])
    {
      removeIds := chosen;
      var left := overflow;
      if left > 0 {
        var i := 0;
        while i < |terminal|
          invariant 0 <= i <= |terminal|
          invariant removeIds == Elements(terminal[..if i < e then e else i])
          invariant left == overflow - (if i < e then 0 else i - e) > 0
        {
          OverflowStep(terminal, e, i);
          if terminal[i] !in removeIds {
            removeIds := removeIds + {terminal[i]};
            left := left - 1;
            if left == 0 {
              break;
            }
          }
          i := i + 1;
        }
      }
    }

    /** The choice of `_cleanup_runs`: the expired runs, then the oldest until the overflow is gone. */
    method ChooseVictims(now: real, reserve: nat) returns (removeIds: set<RunId>)
      requires Valid()
      ensures removeIds
              == Victims(Model().recs, Model().runs, now - config.retention, reserve, config.maxRunRecords)
    {
      hide Valid, Finished, Expired;
      var cutoff := now - config.retention;
      ghost var recs, registered := Model().recs, Model().runs;
      var terminal := SortedTerminal();
      removeIds := ExpiredOf(terminal, cutoff);
      EvictionShape(recs, registered, cutoff);
      var retained := |runs| - |removeIds|;
      assert |runs| == |registered|;
      var overflow := if retained + reserve > config.maxRunRecords
                      then retained + reserve - config.maxRunRecords else 0;
      removeIds := AddOldest(terminal, removeIds, |removeIds|, overflow);
    }

    /** `_cleanup_runs`. */
    method CleanupRuns(now: real, reserve: nat)
      requires Valid()
      modifies fsm, this`runs, this`completionEvents, this`idempotencyIndex, this`idempotencyByRun, this`requests
      ensures Valid() && Model() == CleanedUp(old(Model()), reserve, now)
    {
      hide Valid, Victims, Evict;
      ghost var s := Model();
      var left := ChooseVictims(now, reserve);
      ghost var removeIds, gone := left, {};
      EvictNone(s);
      while left != {}
        invariant Valid() && Model() == Evict(s, gone)
        invariant gone + left == removeIds && gone !! left
        decreases left
      {
        var id :| id in left;
        Forget(id);
        EvictOneMore(s, gone, id);
        left := left - {id};
        gone := gone + {id};
      }
      assert gone == removeIds;
    }

    lemma StillKnown(id: RunId)
      requires Valid()
      ensures IdsKnown(|all|, (runs - {id}).Keys, queue.items, slots) && Registered(all, runs - {id})
      ensures (runs - {id}).Keys == runs.Keys - {id}
    {
    }

    /** `pop` of the key a run holds, from both dictionaries. */
    method ForgetKey(id: RunId)
      requires Valid()
      modifies this`idempotencyIndex, this`idempotencyByRun
      ensures Valid()
      ensures Model() == old(Model()).(
        byRun := old(Model()).byRun - {id},
        index := old(Model()).index - (if id in old(Model()).byRun then {old(Model()).byRun[id]} else {}))
    {
      hide ValuesOf, IdsKnown, Registered, Holding;
      var keys := if id in idempotencyByRun then {idempotencyByRun[id]} else {};
      idempotencyByRun := idempotencyByRun - {id};
      idempotencyIndex := idempotencyIndex - keys;
    }

    /** One round of the removal loop of `_cleanup_runs`. */
    method Forget(id: RunId)
      requires Valid()
      modifies fsm, this`runs, this`completionEvents, this`idempotencyIndex, this`idempotencyByRun, this`requests
      ensures Valid() && Model() == Evict(old(Model()), {id})
    {
      hide KeysOf, IdsKnown, Registered, Holding, RunRecord.Value, Evict, ValuesOf;
      EvictSingle(Model(), id);
      StillKnown(id);
      runs := runs - {id};
      completionEvents := completionEvents - {id};
      ForgetKey(id);
      fsm.Discard(id);
      requests := requests.(evicted := requests.evicted + 1);
    }

    /** A run object with a fresh id; nothing refers to it yet. */
    method MakeRun(q: Request, now: real) returns (run: RunRecord)
      requires Valid()
      modifies this`created, this`all
      ensures Valid() && Model() == old(Model()).(
        recs := old(Model()).recs + [NewRun(q.input, q.kind, SessionOf(q), now)])
      ensures run.id == |old(Model()).recs| && run.state == Created
      ensures fresh(run) && all == old(all) + [run]
    {
      hide RunRecord.Value, IdsKnown, Registered, Holding;
      var session := if q.session.Some? && q.session.value != "" then q.session.value else q.freshSession;
      run := new RunRecord(created, q.input, q.kind, session, now);
      assert ValuesOf(all) == old(ValuesOf(all));
      MoreObjects(run);
      created := created + 1;
      all := all + [run];
      assert all[..|all| - 1] == old(all);
    }

    lemma MoreObjects(run: RunRecord)
      requires Valid()
      ensures IdsKnown(|all| + 1, runs.Keys, queue.items, slots)
      ensures Registered(all + [run], runs) && Holding(all + [run], slots, held)
    {
    }

    /** The idempotency entries of a new run. */
    method BindKey(q: Request, id: RunId)
      requires Valid()
      modifies this`idempotencyIndex, this`idempotencyByRun
      ensures Valid()
      ensures Model() == old(Model()).(
        index := if q.key.Some? then old(Model()).index[q.key.value := Entry(id, q.input, q.kind, q.session)]
                 else old(Model()).index,
        byRun := if q.key.Some? then old(Model()).byRun[id := q.key.value] else old(Model()).byRun)
    {
      hide ValuesOf, IdsKnown, Registered, Holding;
      if q.key.Some? {
        idempotencyIndex := idempotencyIndex[q.key.value := Entry(id, q.input, q.kind, q.session)];
        idempotencyByRun := idempotencyByRun[id := q.key.value];
      }
    }

    /** The dictionary entries of a new run, still in state Created. */
    method Register(q: Request, now: real) returns (run: RunRecord)
      requires Valid()
      modifies this`created, this`runs, this`completionEvents, this`idempotencyIndex,
               this`idempotencyByRun, this`tally, this`all
      ensures Valid() && Model() == Noted(old(Model()), q, now)
      ensures run.id == |old(Model()).recs| && run.state == Created
      ensures fresh(run) && all == old(all) + [run]
    {
      hide ValuesOf, IdsKnown, Registered, Holding;
      run := MakeRun(q, now);
      ListRun(run);
      BindKey(q, run.id);
    }

    lemma StillListed(run: RunRecord)
      requires Valid() && Known(run)
      ensures (runs[run.id := run]).Keys == runs.Keys + {run.id}
      ensures IdsKnown(|all|, (runs[run.id := run]).Keys, queue.items, slots)
      ensures Registered(all, runs[run.id := run])
    {
    }

    method ListRun(run: RunRecord)
      requires Valid() && Known(run)
      modifies this`runs, this`completionEvents, this`tally
      ensures Valid() && Model() == old(Model()).(
        runs := old(Model()).runs + {run.id},
        events := old(Model()).events[run.id := false],
        tally := old(Model()).tally.(submitted := old(Model()).tally.submitted + 1))
    {
      hide ValuesOf, IdsKnown, Registered, Holding;
      StillListed(run);
      runs := runs[run.id := run];
      completionEvents := completionEvents[run.id := false];
      tally := tally.(submitted := tally.submitted + 1);
    }

    method Enqueue(id: RunId)
      requires Valid() && id < |all| && |queue.items| < queue.capacity
      modifies queue
      ensures Valid() && Model() == old(Model()).(queue := old(Model()).queue + [id])
    {
      hide ValuesOf, Registered, Holding;
      var queued := queue.PutNowait(id);
    }

    /** Registering and queueing a new run. */
    method AdmitRun(q: Request, now: real) returns (id: RunId)
      requires Valid()
      requires |queue.items| < queue.capacity
      modifies queue, fsm, this`created, this`runs, this`completionEvents, this`idempotencyIndex,
               this`idempotencyByRun, this`tally, this`edges, this`all
      ensures Valid() && Model() == Admitted(old(Model()), q, now)
      ensures id == |old(Model()).recs|
      ensures old(all) <= all && fresh(all[|old(all)|..])
    {
      hide Valid, Model, Moved, Admitted, Noted;
      AdmittedInSteps(Model(), q, now);
      var run := Register(q, now);
      MoveRun(run, Ready, now);
      Enqueue(run.id);
      id := run.id;
    }

    method CountRejection()
      requires Valid()
      modifies this`requests
      ensures Valid() && Model() == old(Model()).(
        requests := old(Model()).requests.(rejected := old(Model()).requests.rejected + 1))
    {
      requests := requests.(rejected := requests.rejected + 1);
    }

    /** `submit`, on input already stripped. */
    method Submit(q: Request, now: real) returns (reply: Reply)
      requires Valid()
      modifies this, queue, fsm
      ensures Valid() && (Model(), reply) == Submitted(old(Model()), q, now)
      ensures old(all) <= all && fresh(all[|old(all)|..])
    {
      hide Valid, Model, CleanedUp, StartWorkers, Looked;
      if q.input == "" {
        return EmptyInput;
      }
      var ok := Start();
      if !ok {
        return RuntimeClosed;
      }
      if q.key.Some? && (q.key.value == "" || |q.key.value| > 128) {
        return BadKey;
      }
      CleanupRuns(now, 1);
      reply := LookUp(q, now);
    }

    /** `submit` on the caller's text. */
    method SubmitText(text: string, q: Request, now: real) returns (reply: Reply)
      requires Valid()
      modifies this, queue, fsm
      ensures Valid() && (Model(), reply) == Submitted(old(Model()), q.(input := Strip(text)), now)
      ensures Blank(text) ==> reply == EmptyInput && Model() == old(Model())
      ensures old(all) <= all && fresh(all[|old(all)|..])
    {
      hide Valid, Model, Looked, CleanedUp, StartWorkers, Strip, Blank;
      ghost var i, j := StripExact(text);
      reply := Submit(q.(input := Strip(text)), now);
    }

    /** `submit` under its lock, after the eviction. */
    method LookUp(q: Request, now: real) returns (reply: Reply)
      requires Valid()
      modifies queue, fsm, this`created, this`runs, this`completionEvents, this`idempotencyIndex,
               this`idempotencyByRun, this`tally, this`requests, this`edges, this`all
      ensures Valid() && (Model(), reply) == Looked(old(Model()), q, now)
      ensures old(all) <= all && fresh(all[|old(all)|..])
    {
      hide Admitted, IdsKnown, ValuesOf, Registered, Holding;
      if q.key.Some? && q.key.value in idempotencyIndex {
        var previous := idempotencyIndex[q.key.value];
        if previous.run in runs {
          if q.input != previous.input || q.kind != previous.kind || q.session != previous.session {
            return Conflict;
          }
          requests := requests.(replays := requests.replays + 1);
          return Replayed(previous.run);
        }
        idempotencyIndex := idempotencyIndex - {q.key.value};
      }
      reply := AdmitUnlessQueueFull(q, now);
    }

    method AdmitUnlessQueueFull(q: Request, now: real) returns (reply: Reply)
      requires Valid()
      modifies queue, fsm, this`created, this`runs, this`completionEvents, this`idempotencyIndex,
               this`idempotencyByRun, this`tally, this`requests, this`edges, this`all
      ensures Valid() && (Model(), reply) == AdmitUnlessFull(old(Model()), q, now)
      ensures old(all) <= all && fresh(all[|old(all)|..])
    {
      hide Valid, Admitted;
      if queue.Full() {
        CountRejection();
        return QueueFull;
      }
      var id := AdmitRun(q, now);
      reply := Accepted(id);
    }

    /** `get`: None stands for RunNotFoundError. */
    method Get(id: RunId) returns (run: Option<RunRecord>)
      requires Valid()
      ensures run.Some? <==> id in Model().runs
      ensures run.Some? ==> id < |Model().recs| && run.value.Value() == Model().recs[id]
    {
      if id in runs {
        ValueAt(all, id);
        return Some(runs[id]);
      }
      run := None;
    }

    // -------------------------------------------------------------------
    // retry, cancel, close
    // -------------------------------------------------------------------

    method Retry(id: RunId, now: real) returns (reply: Reply)
      requires Valid()
      modifies queue, fsm, runs.Values, this`completionEvents, this`requests, this`tally, this`edges
      ensures Valid() && (Model(), reply) == Retried(old(Model()), id, now)
    {
      hide RequeuedRun, IdsKnown, Holding, ValuesOf;
      if id !in runs {
        return NotFound;
      }
      var run := runs[id];
      ValueAt(all, id);
      if queue.Full() {
        CountRejection();
        return QueueFull;
      }
      if !CanTransition(run.state, Ready) {
        return IllegalTransition;
      }
      Requeue(run, now);
      reply := Requeued;
    }

    /** The rest of retry, once the move to Ready is known to be legal. */
    method Requeue(run: RunRecord, now: real)
      requires Valid() && Known(run)
      requires CanTransition(run.state, Ready) && |queue.items| < queue.capacity
      modifies run, queue, fsm, this`completionEvents, this`tally, this`edges
      ensures Valid() && Model() == RequeuedRun(old(Model()), run.id, now)
    {
      hide ValuesOf, Registered, Holding;
      MoveRun(run, Ready, now);
      ResetRun(run);
      Reopen(run.id);
      Enqueue(run.id);
    }

    method Reopen(id: RunId)
      requires Valid()
      modifies this`completionEvents, this`tally
      ensures Valid() && Model() == old(Model()).(
        events := old(Model()).events[id := false],
        tally := old(Model()).tally.(retried := old(Model()).tally.retried + 1))
    {
      completionEvents := completionEvents[id := false];
      tally := tally.(retried := tally.retried + 1);
    }

    method ResetRun(run: RunRecord)
      requires Valid() && Known(run)
      modifies run
      ensures Valid() && run.id < |old(Model()).recs|
      ensures Model() == old(Model()).(
        recs := old(Model()).recs[run.id := Reset(old(Model()).recs[run.id])])
    {
      ghost var recs := ValuesOf(all);
      ValueAt(all, run.id);
      ValuesAgree(all, run.id);
      run.error := None;
      run.output := None;
      run.finishedAt := None;
      run.cancelRequested := false;
      OneWritten(all, recs, run.id);
    }

    /** The common part of cancel and close for one unfinished run. */
    method CancelRun(run: RunRecord, now: real)
      requires Valid() && Known(run) && !Terminal(run.state)
      modifies run, fsm, this`edges, this`completionEvents
      ensures Valid() && Model() == CancelledRun(old(Model()), run.id, now)
    {
      hide ValuesOf, IdsKnown, Registered, Holding, Moved;
      MoveRun(run, Cancelled, now);
      completionEvents := completionEvents[run.id := true];
    }

    /** `task.cancel()` on the task `_tasks` knows for this run, unless it is done. */
    method CancelTaskOf(id: RunId)
      requires Valid()
      modifies this`slots
      ensures Valid() && Model() == WithTaskCancelled(old(Model()), id)
    {
      if id in tasks && tasks[id] < |slots| {
        var w := tasks[id];
        slots := slots[w := CancelTask(slots[w])];
      }
    }

    method Cancel(id: RunId, now: real) returns (reply: Reply)
      requires Valid()
      modifies fsm, runs.Values, this`edges, this`completionEvents, this`slots, this`requests
      ensures Valid() && (Model(), reply) == CancelAnswer(old(Model()), id, now)
    {
      hide CancelledRun, WithTaskCancelled, CancelRequested, IdsKnown, Holding, ValuesOf;
      if id !in runs {
        return NotFound;
      }
      var run := runs[id];
      ValueAt(all, id);
      if Terminal(run.state) {
        return Answer(false);
      }
      RequestCancel(run);
      CancelRun(run, now);
      CancelTaskOf(id);
      CountCancel();
      reply := Answer(true);
    }

    method CountCancel()
      requires Valid()
      modifies this`requests
      ensures Valid() && Model() == old(Model()).(
        requests := old(Model()).requests.(cancelled := old(Model()).requests.cancelled + 1))
    {
      requests := requests.(cancelled := requests.cancelled + 1);
    }

    method RequestCancel(run: RunRecord)
      requires Valid() && Known(run)
      modifies run`cancelRequested
      ensures Valid() && Model() == CancelRequested(old(Model()), run.id)
    {
      ghost var recs := ValuesOf(all);
      ValueAt(all, run.id);
      ValuesAgree(all, run.id);
      run.cancelRequested := true;
      OneWritten(all, recs, run.id);
    }

    /** `close` up to the point where it waits for the tasks it cancelled. */
    method Close(now: real)
      requires Valid()
      modifies fsm, runs.Values, this`closed, this`edges, this`completionEvents, this`slots, this`tasks
      ensures Valid() && Model() == Closed(old(Model()), now)
    {
      if closed {
        return;
      }
      closed := true;
      assert Model() == old(Model()).(closed := true);
      hide Valid, CancelledBelow, WorkersStopped;
      CancelAll(now);
      StopWorkers();
    }

    method CancelAll(now: real)
      requires Valid()
      modifies fsm, runs.Values, this`edges, this`completionEvents
      ensures Valid() && Model() == CancelledBelow(old(Model()), |old(Model()).recs|, now)
    {
      hide CancelledRun, IdsKnown, Holding, ValuesOf;
      ghost var s := Model();
      var id := 0;
      while id < created
        invariant Valid()
        invariant 0 <= id <= created == |s.recs|
        invariant Model() == CancelledBelow(s, id, now)
      {
        if id in runs {
          ValueAt(all, id);
        }
        if id in runs && !Terminal(runs[id].state) {
          CancelRun(runs[id], now);
        }
        id := id + 1;
      }
    }

    method StopWorkers()
      requires Valid()
      modifies this`slots, this`tasks
      ensures Valid() && Model() == WorkersStopped(old(Model()))
    {
      hide Registered, ValuesOf;
      var before, handles := slots, tasks;
      slots := seq(|before|, w requires 0 <= w < |before| => Stopped(before[w], w, handles));
      tasks := map[];
    }

    // -------------------------------------------------------------------
    // Workers and their tasks
    // -------------------------------------------------------------------

    /** A worker's `get` returns: it skips the entry or creates a task for it. */
    method WorkerGet(w: nat)
      requires Valid()
      requires w < |slots| && slots[w].Idle? && queue.items != []
      modifies queue, this`slots, this`held, this`tasks
      ensures Valid() && Model() == Dequeued(old(Model()), w)
    {
      hide ValuesOf, RunRecord.Value, IdsKnown, Holding;
      QueueHeadKnown();
      var id := queue.Get();
      if id in runs && !Terminal(runs[id].state) {
        CreateTask(w, id);
      }
    }

    lemma QueueHeadKnown()
      requires Valid() && queue.items != []
      ensures IdsKnown(|all|, runs.Keys, queue.items[1..], slots)
      ensures var id := queue.items[0];
        id in runs ==> id < |all| && ValuesOf(all)[id] == runs[id].Value()
    {
      if queue.items[0] in runs {
        ValueAt(all, queue.items[0]);
      }
    }

    /** `create_task` for a registered run, and its handle. */
    method CreateTask(w: nat, id: RunId)
      requires Valid() && w < |slots| && id in runs
      modifies this`slots, this`held, this`tasks
      ensures Valid() && Model() == old(Model()).(
        slots := old(Model()).slots[w := Busy(id, Pending(false), false)],
        tasks := old(Model()).tasks[id := w])
    {
      hide ValuesOf, RunRecord.Value;
      held := held[w := runs[id]];
      slots := slots[w := Busy(id, Pending(false), false)];
      tasks := tasks[id := w];
    }

    method SetExec(w: nat, exec: Exec)
      requires Valid() && HasRun(Model(), w)
      modifies this`slots
      ensures Valid() && Model() == WithExec(old(Model()), w, exec)
    {
      hide ValuesOf;
      slots := slots[w := slots[w].(exec := exec)];
    }

    /** The task is done; its worker sees it at the next step, unless close stopped the worker. */
    method TaskEnds(w: nat, crashed: bool)
      requires Valid() && HasRun(Model(), w)
      modifies this`slots
      ensures Valid() && Model() == TaskOver(old(Model()), w, crashed)
    {
      hide ValuesOf;
      slots := slots[w := if slots[w].orphan then Dead else slots[w].(exec := Over(crashed))];
    }

    /** The finally block of `_execute`. */
    method Finally(w: nat)
      requires Valid() && HasRun(Model(), w)
      modifies this`active, this`completionEvents, this`slots
      ensures Valid() && Model() == Finalized(old(Model()), w)
    {
      hide ValuesOf, TaskOver;
      active := active - 1;
      var crashed := SetEvent(held[w]);
      TaskEnds(w, crashed);
    }

    /** Sets the completion event of a finished run; true stands for the KeyError of a missing one. */
    method SetEvent(run: RunRecord) returns (missing: bool)
      requires Valid() && Known(run)
      modifies this`completionEvents
      ensures var s, done := old(Model()), Terminal(run.state);
        && Valid() && run.id < |s.recs| && s.recs[run.id].state == run.state
        && missing == (done && run.id !in s.events)
        && Model() == s.(events := if done && run.id in s.events then s.events[run.id := true] else s.events)
    {
      hide ValuesOf, RunRecord.Value, IdsKnown, Registered, Holding;
      ValueAt(all, run.id);
      missing := Terminal(run.state) && run.id !in completionEvents;
      if Terminal(run.state) && run.id in completionEvents {
        completionEvents := completionEvents[run.id := true];
      }
    }

    /** What the try block and the except clauses of `_execute` do once the pattern is over. */
    method Settle(run: RunRecord, outcome: Outcome, now: real)
      requires Valid() && Known(run)
      modifies run, fsm, this`edges, this`tally
      ensures Valid() && Model() == Settled(old(Model()), run.id, outcome, now)
    {
      hide Valid, Model, Applied, Written, Bumped, Verdict;
      var source := run.state;
      var moved := SettleRecord(run, outcome, now);
      CountOutcome(source, moved);
    }

    method SettleRecord(run: RunRecord, outcome: Outcome, now: real) returns (moved: Option<RunState>)
      requires Valid() && Known(run)
      modifies run, fsm
      ensures var s, id := old(Model()), run.id;
        && Valid() && id < |s.recs| && s.recs[id].state == old(run.state)
        && moved == Verdict(s.recs[id].state, outcome)
        && var written := Written(s.recs[id], outcome);
           Model() == s.(recs := s.recs[id := if moved.Some? then Applied(written, moved.value, now) else written])
    {
      hide IdsKnown, Registered, Holding, Applied, Written, Verdict;
      ghost var recs := ValuesOf(all);
      ValueAt(all, run.id);
      ValuesAgree(all, run.id);
      moved := WriteOutcome(run, outcome, now);
      OneWritten(all, recs, run.id);
    }

    method CountOutcome(source: RunState, moved: Option<RunState>)
      requires Valid()
      modifies this`edges, this`tally
      ensures Valid() && Model() == old(Model()).(
        edges := if moved.Some? then Bumped(old(Model()).edges, source, moved.value) else old(Model()).edges,
        tally := old(Model()).tally.(succeeded := old(Model()).tally.succeeded + One(moved == Some(Succeeded)),
                                     failed := old(Model()).tally.failed + One(moved == Some(Failed))))
    {
      hide ValuesOf, IdsKnown, Registered, Holding, Bumped;
      if moved.Some? {
        CountTransition(source, moved.value);
      }
      tally := tally.(succeeded := tally.succeeded + One(moved == Some(Succeeded)),
                      failed := tally.failed + One(moved == Some(Failed)));
    }

    /** The writes to the record, and the transition if the state allows it. */
    method WriteOutcome(run: RunRecord, outcome: Outcome, now: real) returns (moved: Option<RunState>)
      modifies run, fsm
      ensures moved == Verdict(old(run.state), outcome)
      ensures run.Value() == if moved.Some? then Applied(Written(old(run.Value()), outcome), moved.value, now)
                             else Written(old(run.Value()), outcome)
    {
      match outcome {
        case Returned(output) =>
          run.output := Some(output);
          var result := fsm.MoveIfCurrent(run, Running, Succeeded, now);
          return if result.Done? then Some(Succeeded) else None;
        case RefusedTurn(output, error) =>
          run.output := Some(output);
          run.error := Some(error);
          var ok := fsm.MoveIfAllowed(run, Failed, now);
          return if ok then Some(Failed) else None;
        case Raised(error) =>
          run.error := Some(error);
          var ok := fsm.MoveIfAllowed(run, Failed, now);
          return if ok then Some(Failed) else None;
        case TaskCancelled =>
          var ok := fsm.MoveIfAllowed(run, Cancelled, now);
          return if ok then Some(Cancelled) else None;
      }
    }

    /** The end of `_execute`. */
    method ExecuteEnd(w: nat, outcome: Outcome, now: real)
      requires Valid() && HasRun(Model(), w)
      modifies if w in held then {held[w]} else {}, fsm, this`edges, this`tally, this`active,
               this`completionEvents, this`slots
      ensures Valid() && Model() == Ended(old(Model()), w, outcome, now)
    {
      hide ValuesOf, Settled, Finalized, IdsKnown;
      Settle(held[w], outcome, now);
      Finally(w);
    }

    /** The first step of a task: `_execute` up to the start of the pattern. */
    method ExecuteBegin(w: nat, now: real)
      requires Valid() && HasRun(Model(), w) && slots[w].exec.Pending?
      modifies if w in held then {held[w]} else {}, fsm, this`edges, this`tally, this`active,
               this`completionEvents, this`slots
      ensures Valid() && Model() == Begun(old(Model()), w, now)
    {
      hide ValuesOf, TaskOver, Entered, IdsKnown;
      if slots[w].exec.cancelled {
        TaskEnds(w, true);
        return;
      }
      active := active + 1;
      AcquireRun(w, now);
    }

    method AcquireRun(w: nat, now: real)
      requires Valid() && HasRun(Model(), w)
      modifies if w in held then {held[w]} else {}, fsm, this`edges, this`tally, this`active,
               this`completionEvents, this`slots
      ensures Valid() && Model() == Entered(old(Model()), w, now)
    {
      hide ValuesOf, Moved, WithExec, Finalized, Ended, IdsKnown;
      var run := held[w];
      ValueAt(all, run.id);
      if run.state == Cancelled {
        Finally(w);
      } else if CanTransition(run.state, Running) {
        MoveRun(run, Running, now);
        SetExec(w, Active(false, CallBudget(run.kind, config.maxAgentSteps)));
      } else {
        ExecuteEnd(w, ILLEGAL, now);
      }
    }

    /** `_complete` and `_execute_tool` up to the call. */
    method CallBegin(w: nat, now: real)
      requires Valid() && HasRun(Model(), w)
      requires slots[w].exec.Active? && slots[w].exec.budget > 0
      modifies if w in held then {held[w]} else {}, fsm, this`edges, this`tally, this`active,
               this`completionEvents, this`slots
      ensures Valid() && Model() == CallBegun(old(Model()), w, now)
    {
      hide ValuesOf, Moved, WithExec, Ended, IdsKnown;
      var run := held[w];
      ValueAt(all, run.id);
      if CanTransition(run.state, Waiting) {
        MoveRun(run, Waiting, now);
        SetExec(w, Active(true, slots[w].exec.budget - 1));
      } else {
        ExecuteEnd(w, ILLEGAL, now);
      }
    }

    /** `run.steps.append`, after a call that returned. */
    method AddStep(run: RunRecord, ok: bool)
      requires Valid() && Known(run)
      modifies run`steps
      ensures Valid() && Model() == WithStep(old(Model()), run.id, ok)
    {
      ghost var recs := ValuesOf(all);
      ValueAt(all, run.id);
      ValuesAgree(all, run.id);
      if ok {
        run.steps := run.steps + 1;
        OneWritten(all, recs, run.id);
      }
    }

    /** The finally block of `_complete` and `_execute_tool`. */
    method CallEnd(w: nat, ok: bool, now: real)
      requires Valid() && HasRun(Model(), w) && slots[w].exec.Active?
      modifies if w in held then {held[w]} else {}, fsm, this`edges, this`slots
      ensures Valid() && Model() == CallEnded(old(Model()), w, ok, now)
    {
      hide ValuesOf, Moved, WithExec, WithStep, IdsKnown;
      var run := held[w];
      AddStep(run, ok);
      ValueAt(all, run.id);
      if run.state == Waiting {
        MoveRun(run, Running, now);
      }
      SetExec(w, Active(false, slots[w].exec.budget));
    }

    /** The worker resumes from `shield`: it forgets the handle and waits for the next entry. */
    method Resume(w: nat)
      requires Valid() && HasRun(Model(), w) && slots[w].exec.Over?
      modifies this`tasks, this`slots
      ensures Valid() && Model() == Resumed(old(Model()), w)
    {
      hide ValuesOf;
      tasks := tasks - {slots[w].run};
      slots := slots[w := if slots[w].exec.crashed then Dead else Idle];
    }

    // -------------------------------------------------------------------
    // Whole runs
    // -------------------------------------------------------------------

    /** Any step of the scheduler, performed in place. */
    method Perform(step: Step)
      requires Valid() && Enabled(Model(), step)
      modifies this, queue, fsm, all
      ensures Valid() && Model() == Next(old(Model()), step)
      ensures old(all) <= all && fresh(all[|old(all)|..])
    {
      hide ValuesOf, IdsKnown, Submitted, Retried, CancelAnswer, Closed, Dequeued, Begun, CallBegun, CallEnded,
           Ended, Resumed;
      assert forall run :: run in runs.Values ==> run in all;
      match step {
        case Submit(q, now) => var reply := Submit(q, now);
        case Retry(id, now) => var reply := Retry(id, now);
        case Cancel(id, now) => var reply := Cancel(id, now);
        case Close(now) => Close(now);
        case Dequeue(w) => WorkerGet(w);
        case Begin(w, now) => ExecuteBegin(w, now);
        case CallBegin(w, now) => CallBegin(w, now);
        case CallEnd(w, ok, now) => CallEnd(w, ok, now);
        case End(w, outcome, now) => ExecuteEnd(w, outcome, now);
        case Resume(w) => Resume(w);
      }
    }
  }
}
