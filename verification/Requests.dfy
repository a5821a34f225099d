/** What a request to the runtime answers and changes, field by field: submit, retry, cancel and close. */
module Requests {
  import opened Common
  import opened Lifecycle
  import opened Eviction
  import opened Scheduler
  import opened Ownership
  import opened SchedulerInvariant
  import opened Guarantees
  import opened Histories
  import opened Logs
  import opened Retention

  // ---------------------------------------------------------------------
  // Submit
  // ---------------------------------------------------------------------

  /** The checks before the registry is looked at. */
  predicate WellAsked(s: State, q: Request) {
    q.input != "" && !s.closed && (q.key.Some? ==> 1 <= |q.key.value| <= 128)
  }

  /** The request's key means a run that eviction has left registered. */
  predicate KeyHeld(s: State, q: Request, kept: set<RunId>) {
    q.key.Some? && q.key.value in s.index && s.index[q.key.value].run in kept
  }

  /** The registry after eviction. */
  function Kept(s: State, now: real): set<RunId>
    requires WellFormed(s)
  {
    CleanedUp(s, 1, now).runs
  }

  lemma AdmitAnswers(s: State, q: Request, now: real)
    requires WellFormed(s)
    ensures AdmitUnlessFull(s, q, now).1 == if |s.queue| >= s.capacity then QueueFull else Accepted(|s.recs|)
  {
    hide Admitted;
  }

  lemma LookedAnswers(s: State, q: Request, now: real)
    requires WellFormed(s)
    ensures Looked(s, q, now).1 ==
      if KeyHeld(s, q, s.runs) then
        var e := s.index[q.key.value];
        if q.input == e.input && q.kind == e.kind && q.session == e.session then Replayed(e.run) else Conflict
      else if |s.queue| >= s.capacity then QueueFull
      else Accepted(|s.recs|)
  {
    hide AdmitUnlessFull, SameSetup;
    AdmitAnswers(s, q, now);
    if q.key.Some? {
      AdmitAnswers(s.(index := s.index - {q.key.value}), q, now);
    }
  }

  lemma StartedKept(s: State, now: real)
    requires WellFormed(s)
    ensures Kept(StartWorkers(s), now) == Kept(s, now)
  {
    hide Victims, SameSetup;
  }

  /** Which answer a submission gets, from the state it finds. */
  lemma SubmitDecides(s: State, q: Request, now: real)
    requires Inv(s) && WellFormed(s)
    ensures Submitted(s, q, now).1 ==
      if q.input == "" then EmptyInput
      else if s.closed then RuntimeClosed
      else if q.key.Some? && (|q.key.value| == 0 || |q.key.value| > 128) then BadKey
      else if KeyHeld(s, q, Kept(s, now)) then
        var e := s.index[q.key.value];
        if q.input == e.input && q.kind == e.kind && q.session == e.session then Replayed(e.run) else Conflict
      else if |s.queue| >= s.capacity then QueueFull
      else Accepted(|s.recs|)
  {
    hide Inv, Looked, CleanedUp, SameSetup;
    if WellAsked(s, q) {
      var t := StartWorkers(s);
      var c := CleanedUp(t, 1, now);
      StartKeepsInv(s);
      CleanUpKeepsInv(t, 1, now);
      StartedKept(s, now);
      EvictKeepsRecs(t, 1, now);
      CleanedUpIndexExact(t, now, q);
      LookedAnswers(c, q, now);
    }
  }

  lemma CleanedUpIndexExact(s: State, now: real, q: Request)
    requires Inv(s) && WellFormed(s)
    ensures var c := CleanedUp(s, 1, now);
      && c.capacity == s.capacity && |c.recs| == |s.recs|
      && (KeyHeld(s, q, c.runs) <==> KeyHeld(c, q, c.runs))
      && (KeyHeld(s, q, c.runs) ==> c.index[q.key.value] == s.index[q.key.value])
  {
    hide Inv, CleanedUp;
    CleanUpExact(s, 1, now);
    CleanedUpIndex(s, now);
    if q.key.Some? {
      CleanedUpKeepsEntry(s, now, q.key.value);
    }
  }

  /** A run as submit makes it: moved to Ready, and nothing else has happened to it. */
  predicate FreshRun(r: Run, q: Request, now: real) {
    && r.input == q.input && r.kind == q.kind
    && (q.session.Some? && q.session.value != "" ==> r.session == q.session.value)
    && (q.session.None? || q.session.value == "" ==> r.session == q.freshSession)
    && r.state == Ready && r.transitions == [Transition(Created, Ready, now)]
    && r.createdAt == now && r.updatedAt == now && r.startedAt == None && r.finishedAt == None
    && r.output == None && r.error == None && r.steps == 0 && !r.cancelRequested
  }

  /** The new run is registered, its event is clear, it is last in the queue, and it owns its key. */
  ghost predicate Enters(s: State, r: State, q: Request, kept: set<RunId>, now: real) {
    var id := |s.recs|;
    && |r.recs| == id + 1 && r.recs[..id] == s.recs && FreshRun(r.recs[id], q, now)
    && r.runs == kept + {id} && r.queue == s.queue + [id]
    && id in r.events && !r.events[id]
    && (q.key.Some? ==>
          && q.key.value in r.index && r.index[q.key.value] == Entry(id, q.input, q.kind, q.session)
          && id in r.byRun && r.byRun[id] == q.key.value)
  }

  lemma AdmittedEnters(s: State, q: Request, now: real)
    requires WellFormed(s)
    ensures Enters(s, Admitted(s, q, now), q, s.runs, now)
  {
    hide Bumped, SameSetup, IdsKnown;
    var run := NewRun(q.input, q.kind, SessionOf(q), now);
    assert [] + [Transition(Created, Ready, now)] == [Transition(Created, Ready, now)];
    assert (s.recs + [Applied(run, Ready, now)])[..|s.recs|] == s.recs;
  }

  lemma AdmitEnters(s: State, q: Request, now: real)
    requires WellFormed(s)
    ensures var (r, reply) := AdmitUnlessFull(s, q, now);
      reply.Accepted? ==> Enters(s, r, q, s.runs, now)
  {
    hide Admitted, Enters, SameSetup;
    AdmittedEnters(s, q, now);
  }

  lemma LookedEnters(s: State, q: Request, now: real)
    requires WellFormed(s)
    ensures var (r, reply) := Looked(s, q, now);
      reply.Accepted? ==> Enters(s, r, q, s.runs, now)
  {
    hide AdmitUnlessFull, SameSetup;
    AdmitEnters(s, q, now);
    if q.key.Some? {
      AdmitEnters(s.(index := s.index - {q.key.value}), q, now);
    }
  }

  /** What an accepted submission adds. */
  lemma AcceptedEnters(s: State, q: Request, now: real)
    requires WellFormed(s)
    requires Submitted(s, q, now).1.Accepted?
    ensures Enters(s, Submitted(s, q, now).0, q, Kept(s, now), now)
  {
    hide Looked, CleanedUp, SameSetup, FreshRun;
    var c := CleanedUp(StartWorkers(s), 1, now);
    LookedEnters(c, q, now);
    StartedKept(s, now);
    EvictKeepsRecs(StartWorkers(s), 1, now);
  }

  /** Nothing but the registry, the queue and these counters changes. */
  predicate Booked(s: State, r: State, reply: Reply) {
    && r.slots == s.slots && r.tasks == s.tasks && r.active == s.active
    && r.started == s.started && r.closed == s.closed
    && r.tally == s.tally.(submitted := s.tally.submitted + One(reply.Accepted?))
    && r.requests == s.requests.(rejected := s.requests.rejected + One(reply.QueueFull?),
                                 replays := s.requests.replays + One(reply.Replayed?))
  }

  lemma AdmittedBooks(s: State, q: Request, now: real)
    requires WellFormed(s)
    ensures Booked(s, Admitted(s, q, now), Accepted(|s.recs|))
  {
    hide SameSetup, IdsKnown, Bumped, Applied;
  }

  lemma AdmitBooks(s: State, q: Request, now: real)
    requires WellFormed(s)
    ensures var (r, reply) := AdmitUnlessFull(s, q, now); Booked(s, r, reply)
  {
    hide SameSetup, Admitted;
    AdmittedBooks(s, q, now);
  }

  lemma FoundBooks(s: State, id: RunId)
    ensures Booked(s, s.(requests := s.requests.(replays := s.requests.replays + 1)), Replayed(id))
    ensures Booked(s, s, Conflict)
  {
  }

  lemma IndexIsNoBook(s: State, index: map<string, Entry>, r: State, reply: Reply)
    requires Booked(s.(index := index), r, reply)
    ensures Booked(s, r, reply)
  {
  }

  lemma LookedBooks(s: State, q: Request, now: real)
    requires WellFormed(s)
    ensures var (r, reply) := Looked(s, q, now); Booked(s, r, reply)
  {
    hide AdmitUnlessFull, SameSetup, IdsKnown, Booked;
    AdmitBooks(s, q, now);
    if q.key.Some? && q.key.value in s.index {
      FoundBooks(s, s.index[q.key.value].run);
      var t := s.(index := s.index - {q.key.value});
      AdmitBooks(t, q, now);
      IndexIsNoBook(s, t.index, AdmitUnlessFull(t, q, now).0, AdmitUnlessFull(t, q, now).1);
    }
  }

  lemma CleanUpBooks(s: State, now: real)
    requires Inv(s) && WellFormed(s)
    ensures var c := CleanedUp(s, 1, now);
      && c.slots == s.slots && c.tasks == s.tasks && c.active == s.active
      && c.started == s.started && c.closed == s.closed && c.tally == s.tally
      && c.requests == s.requests.(evicted := s.requests.evicted + |s.runs - c.runs|)
      && c.runs <= s.runs && c.recs == s.recs
  {
    hide Inv, Victims, KeysOf, SameSetup, FinishedRuns, Old, IdsKnown;
    CleanUpExact(s, 1, now);
  }

  lemma AdmitRuns(s: State, q: Request, now: real)
    requires WellFormed(s)
    ensures var (r, reply) := AdmitUnlessFull(s, q, now);
      r.runs == s.runs + if reply.Accepted? then {|s.recs|} else {}
  {
    hide Bumped, Applied, SameSetup, IdsKnown;
  }

  lemma LookedRuns(s: State, q: Request, now: real)
    requires WellFormed(s)
    ensures var (r, reply) := Looked(s, q, now);
      r.runs == s.runs + if reply.Accepted? then {|s.recs|} else {}
  {
    hide AdmitUnlessFull, SameSetup, IdsKnown;
    AdmitRuns(s, q, now);
    if q.key.Some? {
      AdmitRuns(s.(index := s.index - {q.key.value}), q, now);
    }
  }

  /** The runs a submission evicts. */
  function Evicted(s: State, q: Request, now: real): set<RunId>
    requires WellFormed(s)
  {
    if WellAsked(s, q) then s.runs - Kept(s, now) else {}
  }

  /** What a submission does besides admitting: whether it starts the workers, what it evicts, what it counts. */
  ghost predicate SubmitBooked(s: State, r: State, reply: Reply, starts: bool, gone: set<RunId>) {
    && r.started == (s.started || starts) && r.closed == s.closed
    && (if r.started == s.started then r.slots == s.slots else AllIdle(r.slots, s.config.maxConcurrency))
    && r.tasks == s.tasks && r.active == s.active
    && r.runs == s.runs - gone + (if reply.Accepted? then {|s.recs|} else {})
    && r.tally == s.tally.(submitted := s.tally.submitted + One(reply.Accepted?))
    && r.requests == s.requests.(evicted := s.requests.evicted + |gone|,
                                 rejected := s.requests.rejected + One(reply.QueueFull?),
                                 replays := s.requests.replays + One(reply.Replayed?))
  }

  lemma StartBooks(s: State, reply: Reply)
    requires WellFormed(s) && !reply.Accepted? && !reply.QueueFull? && !reply.Replayed?
    ensures SubmitBooked(s, StartWorkers(s), reply, true, {}) && SubmitBooked(s, s, reply, false, {})
    ensures StartWorkers(s).recs == s.recs && StartWorkers(s).runs == s.runs
  {
  }

  /** Workers started, then runs evicted, then the request admitted or turned down. */
  lemma BookedInTurn(s: State, t: State, c: State, r: State, reply: Reply)
    requires SubmitBooked(s, t, NotFound, true, {}) && t.recs == s.recs && t.runs == s.runs
    requires c.slots == t.slots && c.tasks == t.tasks && c.active == t.active
    requires c.started == t.started && c.closed == t.closed && c.tally == t.tally
    requires c.requests == t.requests.(evicted := t.requests.evicted + |t.runs - c.runs|)
    requires c.runs <= t.runs && c.recs == t.recs
    requires Booked(c, r, reply) && r.runs == c.runs + if reply.Accepted? then {|c.recs|} else {}
    ensures SubmitBooked(s, r, reply, true, s.runs - c.runs)
  {
    hide AllIdle;
  }

  lemma LookBooks(s: State, t: State, q: Request, now: real)
    requires Inv(t) && WellFormed(t) && t.recs == s.recs && t.runs == s.runs
    requires SubmitBooked(s, t, NotFound, true, {})
    ensures var c := CleanedUp(t, 1, now);
      var (r, reply) := Looked(c, q, now); SubmitBooked(s, r, reply, true, s.runs - c.runs)
  {
    hide Inv, WellFormed, Looked, CleanedUp, SameSetup, SubmitBooked, Booked;
    var c := CleanedUp(t, 1, now);
    CleanUpBooks(t, now);
    LookedBooks(c, q, now);
    LookedRuns(c, q, now);
    BookedInTurn(s, t, c, Looked(c, q, now).0, Looked(c, q, now).1);
  }

  /** Submissions that get past the first checks start the workers and evict; each is counted by its answer. */
  lemma SubmitBooks(s: State, q: Request, now: real)
    requires Inv(s) && WellFormed(s)
    ensures var (r, reply) := Submitted(s, q, now);
      SubmitBooked(s, r, reply, q.input != "" && !s.closed, Evicted(s, q, now))
  {
    hide Inv, Looked, CleanedUp, SameSetup, IdsKnown, StartWorkers, SubmitBooked;
    StartBooks(s, NotFound);
    if WellAsked(s, q) {
      var t := StartWorkers(s);
      StartKeepsInv(s);
      StartedKept(s, now);
      LookBooks(s, t, q, now);
    } else {
      StartBooks(s, Submitted(s, q, now).1);
    }
  }

  ghost predicate AllIdle(slots: seq<Slot>, n: nat) {
    |slots| == n && forall w :: 0 <= w < |slots| ==> slots[w] == Idle
  }

  // ---------------------------------------------------------------------
  // Retry
  // ---------------------------------------------------------------------

  /** Which answer a retry gets: only a Failed run is queued again. */
  lemma RetryDecides(s: State, id: RunId, now: real)
    requires Inv(s) && WellFormed(s)
    ensures Retried(s, id, now).1 ==
      if id !in s.runs then NotFound
      else if |s.queue| >= s.capacity then QueueFull
      else if s.recs[id].state != Failed then IllegalTransition
      else Requeued
  {
    hide Inv, RequeuedRun, SameSetup, SameRegistry;
    if id in s.runs {
      NotCreated(s, id);
    }
  }

  /** A run that is queued again: as before its first attempt, save its log, its start and its steps. */
  predicate Again(a: Run, b: Run, now: real) {
    && b.state == Ready && b.transitions == a.transitions + [Transition(a.state, Ready, now)]
    && b.output == None && b.error == None && b.finishedAt == None && !b.cancelRequested
    && b.updatedAt == now && b.startedAt == a.startedAt && b.steps == a.steps
    && b.input == a.input && b.kind == a.kind && b.session == a.session && b.createdAt == a.createdAt
  }

  lemma KnownId(s: State, id: RunId)
    requires WellFormed(s) && id in s.runs
    ensures id < |s.recs|
  {
  }

  lemma AgainRun(a: Run, now: real)
    ensures Again(a, Reset(Applied(a, Ready, now)), now)
  {
  }

  /** What an accepted retry changes; one that is turned down changes nothing but the count of rejections. */
  lemma RetryRequeues(s: State, id: RunId, now: real)
    requires WellFormed(s)
    ensures var (r, reply) := Retried(s, id, now);
      && r.slots == s.slots && r.tasks == s.tasks && r.active == s.active && r.closed == s.closed
      && r.tally == s.tally.(retried := s.tally.retried + One(reply == Requeued))
      && r.requests == s.requests.(rejected := s.requests.rejected + One(reply == QueueFull))
      && |r.recs| == |s.recs|
      && (if reply == Requeued then
            && id < |s.recs| && r.recs == s.recs[id := r.recs[id]] && Again(s.recs[id], r.recs[id], now)
            && r.queue == s.queue + [id] && r.events == s.events[id := false]
          else
            r.recs == s.recs && r.queue == s.queue && r.events == s.events)
  {
    hide SameSetup, SameRegistry, IdsKnown, Bumped, Applied, Reset, Again;
    if id in s.runs {
      KnownId(s, id);
      AgainRun(s.recs[id], now);
      var run := Applied(s.recs[id], Ready, now);
      assert s.recs[id := run][id := Reset(run)] == s.recs[id := Reset(run)];
    }
  }

  // ---------------------------------------------------------------------
  // Cancel and close
  // ---------------------------------------------------------------------

  lemma CancelDecides(s: State, id: RunId, now: real)
    requires WellFormed(s)
    ensures CancelAnswer(s, id, now).1 ==
      if id !in s.runs then NotFound else Answer(s.recs[id].state in {Created, Ready, Running, Waiting})
  {
    hide CancelledRun, SameSetup;
  }

  /** A run as a cancellation leaves it; only cancel asks for it by name. */
  predicate CancelledFrom(a: Run, b: Run, now: real) {
    b == a.(state := Cancelled, updatedAt := now, finishedAt := Some(now), cancelRequested := b.cancelRequested,
            transitions := a.transitions + [Transition(a.state, Cancelled, now)])
  }

  lemma CancelledRunFields(a: Run, now: real)
    ensures CancelledFrom(a, Applied(a, Cancelled, now), now)
    ensures Applied(a, Cancelled, now).cancelRequested == a.cancelRequested
    ensures CancelledFrom(a, Applied(a.(cancelRequested := true), Cancelled, now), now)
    ensures Applied(a.(cancelRequested := true), Cancelled, now).cancelRequested
  {
  }

  /** A task not started yet, known by its handle, will never start; no other worker is touched. */
  ghost predicate TaskStopped(slots: seq<Slot>, tasks: map<RunId, nat>, id: RunId, after: seq<Slot>) {
    && |after| == |slots|
    && (forall w :: 0 <= w < |slots| ==>
          after[w] == if id in tasks && tasks[id] == w && slots[w].Busy? && slots[w].exec.Pending?
                      then slots[w].(exec := Pending(true)) else slots[w])
  }

  lemma TaskCancelled(s: State, id: RunId)
    requires WellFormed(s)
    ensures var r := WithTaskCancelled(s, id); r == s.(slots := r.slots) && TaskStopped(s.slots, s.tasks, id, r.slots)
  {
  }

  lemma RequestedAndCancelled(s: State, id: RunId, now: real)
    requires WellFormed(s) && id < |s.recs|
    ensures var r := CancelledRun(CancelRequested(s, id), id, now);
      && r == s.(recs := r.recs, events := s.events[id := true], edges := r.edges)
      && |r.recs| == |s.recs| && r.recs == s.recs[id := r.recs[id]]
      && CancelledFrom(s.recs[id], r.recs[id], now) && r.recs[id].cancelRequested
  {
    hide SameSetup, SameRegistry, IdsKnown, Bumped, Applied, CancelledFrom;
    CancelledRunFields(s.recs[id], now);
    var a := s.recs[id].(cancelRequested := true);
    assert s.recs[id := a][id := Applied(a, Cancelled, now)] == s.recs[id := Applied(a, Cancelled, now)];
  }

  /** What cancel changes: the run and its event at once, and its task if that has not started. */
  lemma CancelEnds(s: State, id: RunId, now: real)
    requires WellFormed(s)
    ensures var (r, reply) := CancelAnswer(s, id, now);
      && r.queue == s.queue && r.tasks == s.tasks && r.active == s.active && r.tally == s.tally
      && r.closed == s.closed && |r.recs| == |s.recs|
      && r.requests == s.requests.(cancelled := s.requests.cancelled + One(reply == Answer(true)))
      && (if reply == Answer(true) then
            && id < |s.recs| && r.recs == s.recs[id := r.recs[id]]
            && CancelledFrom(s.recs[id], r.recs[id], now) && r.recs[id].cancelRequested
            && r.events == s.events[id := true] && TaskStopped(s.slots, s.tasks, id, r.slots)
          else
            r.recs == s.recs && r.events == s.events && r.slots == s.slots)
  {
    hide SameSetup, CancelledRun, CancelRequested, CancelledFrom, WithTaskCancelled, TaskStopped;
    if id in s.runs && !Terminal(s.recs[id].state) {
      KnownId(s, id);
      RequestedAndCancelled(s, id, now);
      var m := CancelledRun(CancelRequested(s, id), id, now);
      TaskCancelled(m, id);
    }
  }

  /** Close cancels every registered unfinished run below n and sets its event; no other run or event changes. */
  ghost predicate CancelledUpTo(s: State, r: State, n: nat, now: real) {
    && |r.recs| == |s.recs|
    && (forall id :: 0 <= id < |s.recs| ==>
          if id < n && IsOpen(s, id) then
            CancelledFrom(s.recs[id], r.recs[id], now) && r.recs[id].cancelRequested == s.recs[id].cancelRequested
          else
            r.recs[id] == s.recs[id])
    && (forall id: RunId :: EventOf(r, id) == if id < n && IsOpen(s, id) then Some(true) else EventOf(s, id))
  }

  function EventOf(s: State, id: RunId): Option<bool> {
    if id in s.events then Some(s.events[id]) else None
  }

  lemma CancelOneMore(s: State, c: State, id: RunId, now: real)
    requires WellFormed(c) && id < |s.recs| && CancelledUpTo(s, c, id, now)
    requires IsOpen(s, id)
    ensures CancelledUpTo(s, CancelledRun(c, id, now), id + 1, now)
  {
    hide SameSetup, SameRegistry, IdsKnown, Bumped, Applied, CancelledFrom;
    CancelledRunFields(s.recs[id], now);
  }

  lemma CancelNoMore(s: State, c: State, id: RunId, now: real)
    requires id < |s.recs| && CancelledUpTo(s, c, id, now) && !IsOpen(s, id)
    ensures CancelledUpTo(s, c, id + 1, now)
  {
    hide CancelledFrom;
  }

  lemma NoneCancelled(s: State, now: real)
    ensures CancelledUpTo(s, s, 0, now)
  {
  }

  lemma {:induction false} CancelledBelowExact(s: State, n: nat, now: real)
    requires WellFormed(s) && n <= |s.recs|
    ensures var r := CancelledBelow(s, n, now);
      && CancelledUpTo(s, r, n, now)
      && r.tally == s.tally && r.requests == s.requests && r.active == s.active && r.closed == s.closed
  {
    hide SameSetup, CancelledRun, CancelledUpTo;
    if n == 0 {
      NoneCancelled(s, now);
    } else {
      CancelledBelowExact(s, n - 1, now);
      var c := CancelledBelow(s, n - 1, now);
      if IsOpen(s, n - 1) {
        CancelOneMore(s, c, n - 1, now);
        CancelledRunBooks(c, n - 1, now);
      } else {
        CancelNoMore(s, c, n - 1, now);
      }
    }
  }

  lemma CancelledUpToFields(s: State, t: State, m: State, r: State, n: nat, now: real)
    requires t.recs == s.recs && t.runs == s.runs && t.events == s.events
    requires r.recs == m.recs && r.events == m.events
    requires CancelledUpTo(t, m, n, now)
    ensures CancelledUpTo(s, r, n, now)
  {
    hide CancelledFrom;
    forall id: RunId ensures EventOf(r, id) == if id < n && IsOpen(s, id) then Some(true) else EventOf(s, id) {
      assert EventOf(m, id) == if id < n && IsOpen(t, id) then Some(true) else EventOf(t, id);
    }
  }

  lemma CancelledRunBooks(s: State, id: RunId, now: real)
    requires WellFormed(s) && id < |s.recs|
    ensures var r := CancelledRun(s, id, now);
      r.tally == s.tally && r.requests == s.requests && r.active == s.active && r.closed == s.closed
  {
  }

  /** A worker that waits or has noticed nothing is gone; a task goes on alone, cancelled if it is known. */
  predicate WorkerStopped(s: State, w: nat, slot: Slot)
    requires w < |s.slots|
  {
    var was := s.slots[w];
    if !was.Busy? || was.exec.Over? then slot == Dead
    else
      && slot.Busy? && slot.run == was.run && slot.orphan
      && slot.exec == if was.exec.Pending? && was.run in s.tasks && s.tasks[was.run] == w then Pending(true)
                      else was.exec
  }

  /** What the first close changes; another one changes nothing. */
  lemma CloseEnds(s: State, now: real)
    requires WellFormed(s)
    ensures var r := Closed(s, now);
      && r.closed && (s.closed ==> r == s)
      && r.queue == s.queue && r.tally == s.tally && r.requests == s.requests && r.active == s.active
      && (!s.closed ==>
            && CancelledUpTo(s, r, |s.recs|, now)
            && r.tasks == map[] && |r.slots| == |s.slots|
            && forall w: nat :: w < |s.slots| ==> WorkerStopped(s, w, r.slots[w]))
  {
    hide SameSetup, CancelledBelow, CancelledUpTo;
    var t := s.(closed := true);
    CancelledBelowExact(t, |s.recs|, now);
    if !s.closed {
      CancelledUpToFields(s, t, CancelledBelow(t, |s.recs|, now), Closed(s, now), |s.recs|, now);
    }
  }
}
