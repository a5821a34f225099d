/**
 The event bus (events.py): bounded queues per subscription, their workers, and the shutdown
 by sentinels.

 `emit` never suspends. A worker suspends in `queue.get` and in the handler, `close` while a full
 queue takes no sentinel; between those points everything is one step.
 */
module EventBuses {
  import opened Common

  datatype Event = Event(id: nat, topic: string, traceId: string)

  /** A queue entry; None is the sentinel. */
  type Item = Option<Event>

  datatype Worker = Waiting | Handling(event: Event) | Exited

  /**
   One subscription. `entered`, `taken` and `finished` record what has been put into the queue,
   taken out of it, and handled, in that order; `due` counts the sentinels close has still to put.
   */
  datatype Sub = Sub(
    topic: string, maxConcurrency: nat, queueSize: nat,
    queue: seq<Item>, workers: seq<Worker>, closing: bool, due: nat,
    entered: seq<Item>, taken: seq<Item>, finished: seq<Event>,
    dropped: nat, delivered: nat, errored: nat)

  function Subscribed(topic: string, maxConcurrency: nat, queueSize: nat): Sub {
    Sub(topic, maxConcurrency, queueSize, [], [], false, 0, [], [], [], 0, 0, 0)
  }

  predicate Matches(s: Sub, e: Event) {
    s.topic == e.topic || s.topic == "*"
  }

  function Put(s: Sub, item: Item): Sub {
    s.(queue := s.queue + [item], entered := s.entered + [item])
  }

  /** One round of emit's loop. */
  function Offered(s: Sub, e: Event): Sub {
    if !Matches(s, e) then s
    else if |s.queue| < s.queueSize then Put(s, Some(e))
    else s.(dropped := s.dropped + 1)
  }

  function Started(s: Sub): Sub {
    if s.workers == [] && !s.closing then s.(workers := seq(s.maxConcurrency, _ => Waiting)) else s
  }

  function Closing(s: Sub): Sub {
    if s.closing then s else s.(closing := true, due := |s.workers|)
  }

  function SentinelPut(s: Sub): Sub {
    if s.due > 0 && |s.queue| < s.queueSize then Put(s.(due := s.due - 1), None) else s
  }

  /** A worker's `get` returns: an event goes to the handler, a sentinel ends the worker. */
  function Taken(s: Sub, w: nat): Sub {
    if w < |s.workers| && s.workers[w].Waiting? && s.queue != [] then
      var item := s.queue[0];
      s.(queue := s.queue[1..],
         taken := s.taken + [item],
         workers := s.workers[w := if item.Some? then Handling(item.value) else Exited])
    else s
  }

  /** The handler is done, with or without an exception. */
  function Finished(s: Sub, w: nat, ok: bool): Sub {
    if w < |s.workers| && s.workers[w].Handling? then
      s.(finished := s.finished + [s.workers[w].event],
         workers := s.workers[w := Waiting],
         delivered := s.delivered + if ok then 1 else 0,
         errored := s.errored + if ok then 0 else 1)
    else s
  }

  datatype Action = Emit(event: Event) | Start | Close | PutSentinel | Take(w: nat) | Finish(w: nat, ok: bool)

  /** An action that is not enabled changes nothing. */
  function Next(s: Sub, a: Action): Sub {
    match a
    case Emit(e) => Offered(s, e)
    case Start => Started(s)
    case Close => Closing(s)
    case PutSentinel => SentinelPut(s)
    case Take(w) => Taken(s, w)
    case Finish(w, ok) => Finished(s, w, ok)
  }

  function After(s: Sub, h: seq<Action>): Sub {
    if h == [] then s else Next(After(s, h[..|h| - 1]), h[|h| - 1])
  }

  // ---------------------------------------------------------------------
  // Conservation and order for one subscription
  // ---------------------------------------------------------------------

  function EventsOf(items: seq<Item>): seq<Event> {
    if items == [] then []
    else
      var last := items[|items| - 1];
      EventsOf(items[..|items| - 1]) + if last.Some? then [last.value] else []
  }

  function Sentinels(items: seq<Item>): nat {
    if items == [] then 0
    else Sentinels(items[..|items| - 1]) + if items[|items| - 1].None? then 1 else 0
  }

  function HandOf(worker: Worker): seq<Event> {
    if worker.Handling? then [worker.event] else []
  }

  /** The events the workers have in their hands. */
  function Hands(workers: seq<Worker>): multiset<Event> {
    if workers == [] then multiset{}
    else Hands(workers[..|workers| - 1]) + multiset(HandOf(workers[|workers| - 1]))
  }

  function ExitedCount(workers: seq<Worker>): nat {
    if workers == [] then 0
    else ExitedCount(workers[..|workers| - 1]) + if workers[|workers| - 1].Exited? then 1 else 0
  }

  lemma {:induction false} SplitItems(a: seq<Item>, b: seq<Item>)
    ensures EventsOf(a + b) == EventsOf(a) + EventsOf(b)
    ensures Sentinels(a + b) == Sentinels(a) + Sentinels(b)
  {
    if b == [] {
      assert a + b == a;
    } else {
      var n := |b| - 1;
      assert (a + b)[..|a + b| - 1] == a + b[..n];
      SplitItems(a, b[..n]);
    }
  }

  lemma Exchange<T>(a: multiset<T>, b: multiset<T>, c: multiset<T>, d: multiset<T>, more: multiset<T>)
    requires a + b == c + d
    ensures (a + more) + b == (c + more) + d
  {
    assert (a + more) + b == (a + b) + more;
    assert (c + more) + d == (c + d) + more;
  }

  lemma {:induction false} WorkerUpdate(workers: seq<Worker>, w: nat, x: Worker)
    requires w < |workers|
    ensures ExitedCount(workers[w := x]) + (if workers[w].Exited? then 1 else 0)
            == ExitedCount(workers) + (if x.Exited? then 1 else 0)
    ensures Hands(workers[w := x]) + multiset(HandOf(workers[w])) == Hands(workers) + multiset(HandOf(x))
  {
    hide HandOf;
    var n := |workers| - 1;
    if w == n {
      assert workers[w := x][..n] == workers[..n];
    } else {
      assert workers[w := x][..n] == workers[..n][w := x];
      WorkerUpdate(workers[..n], w, x);
      Exchange(Hands(workers[..n][w := x]), multiset(HandOf(workers[w])), Hands(workers[..n]), multiset(HandOf(x)),
               multiset(HandOf(workers[n])));
    }
  }

  lemma {:induction false} AllWaiting(workers: seq<Worker>)
    requires forall w :: 0 <= w < |workers| ==> workers[w] == Waiting
    ensures Hands(workers) == multiset{} && ExitedCount(workers) == 0
  {
    if workers != [] {
      AllWaiting(workers[..|workers| - 1]);
    }
  }

  /** First in, first out, within the queue's size. */
  ghost predicate Flow(s: Sub) {
    s.entered == s.taken + s.queue && |s.queue| <= s.queueSize
  }

  /** Every event taken is finished once or in a worker's hand; a single worker keeps the order. */
  ghost predicate Handled(taken: seq<Item>, finished: seq<Event>, workers: seq<Worker>) {
    && multiset(EventsOf(taken)) == multiset(finished) + Hands(workers)
    && Sentinels(taken) == ExitedCount(workers)
    && (|workers| == 1 ==> EventsOf(taken) == finished + HandOf(workers[0]))
    && (workers == [] ==> taken == [])
  }

  /** close puts one sentinel for each worker. */
  ghost predicate Sealed(s: Sub) {
    Sentinels(s.entered) + s.due == if s.closing then |s.workers| else 0
  }

  ghost predicate Inv(s: Sub) {
    && Flow(s) && Handled(s.taken, s.finished, s.workers) && Sealed(s)
    && |s.finished| == s.delivered + s.errored
  }

  lemma PutKeepsInv(s: Sub, item: Item)
    requires Inv(s) && |s.queue| < s.queueSize
    requires item.None? ==> s.due > 0
    ensures Inv(if item.Some? then Put(s, item) else Put(s.(due := s.due - 1), item))
  {
    hide Handled;
    SplitItems(s.entered, [item]);
    OneItem(item);
  }

  lemma OneItem(item: Item)
    ensures EventsOf([item]) == if item.Some? then [item.value] else []
    ensures Sentinels([item]) == if item.None? then 1 else 0
  {
    assert [item][..0] == [];
  }

  lemma TakeHandled(taken: seq<Item>, finished: seq<Event>, workers: seq<Worker>, w: nat, item: Item)
    requires Handled(taken, finished, workers)
    requires w < |workers| && workers[w].Waiting?
    ensures Handled(taken + [item], finished,
                    workers[w := if item.Some? then Handling(item.value) else Exited])
  {
    hide EventsOf, Sentinels, Hands, ExitedCount, HandOf;
    var x := if item.Some? then Handling(item.value) else Exited;
    SplitItems(taken, [item]);
    HandsFollow(workers, w, item);
    var e, before := EventsOf([item]), Hands(workers);
    assert multiset(finished) + (before + multiset(e)) == (multiset(finished) + before) + multiset(e);
    if |workers| == 1 {
      assert EventsOf(taken) == finished + [];
      assert (finished + []) + e == finished + e;
    }
  }

  /** What taking one item does to the worker that takes it. */
  lemma HandsFollow(workers: seq<Worker>, w: nat, item: Item)
    requires w < |workers| && workers[w].Waiting?
    ensures var x := if item.Some? then Handling(item.value) else Exited;
      && HandOf(workers[w]) == [] && HandOf(x) == EventsOf([item])
      && Hands(workers[w := x]) == Hands(workers) + multiset(EventsOf([item]))
      && ExitedCount(workers[w := x]) == ExitedCount(workers) + Sentinels([item])
  {
    hide EventsOf, Sentinels, Hands, ExitedCount;
    var x := if item.Some? then Handling(item.value) else Exited;
    OneItem(item);
    WorkerUpdate(workers, w, x);
    assert Hands(workers[w := x]) + multiset([]) == Hands(workers[w := x]);
  }

  lemma FinishHandled(taken: seq<Item>, finished: seq<Event>, workers: seq<Worker>, w: nat)
    requires Handled(taken, finished, workers)
    requires w < |workers| && workers[w].Handling?
    ensures Handled(taken, finished + [workers[w].event], workers[w := Waiting])
  {
    hide EventsOf, Sentinels, Hands, ExitedCount;
    WorkerUpdate(workers, w, Waiting);
    var e, before, after := workers[w].event, Hands(workers), Hands(workers[w := Waiting]);
    assert HandOf(workers[w]) == [e] && HandOf(Waiting) == [];
    assert after + multiset{e} == before;
    assert multiset(finished + [e]) + after == multiset(finished) + (after + multiset{e});
    assert (finished + [e]) + [] == finished + [e];
  }

  lemma StartHandled(finished: seq<Event>, workers: seq<Worker>)
    requires Handled([], finished, [])
    requires forall w :: 0 <= w < |workers| ==> workers[w] == Waiting
    ensures Handled([], finished, workers)
  {
    AllWaiting(workers);
    assert |multiset(finished)| == |finished|;
    assert finished == [];
  }

  lemma NextKeepsInv(s: Sub, a: Action)
    requires Inv(s)
    ensures Inv(Next(s, a))
  {
    hide EventsOf, Sentinels, Hands, ExitedCount;
    match a {
      case Emit(e) =>
        if Matches(s, e) && |s.queue| < s.queueSize {
          PutKeepsInv(s, Some(e));
        }
      case Start =>
        if s.workers == [] && !s.closing {
          StartHandled(s.finished, Started(s).workers);
        }
      case Close => {}
      case PutSentinel =>
        if s.due > 0 && |s.queue| < s.queueSize {
          PutKeepsInv(s, None);
        }
      case Take(w) =>
        if w < |s.workers| && s.workers[w].Waiting? && s.queue != [] {
          assert s.queue == [s.queue[0]] + s.queue[1..];
          TakeHandled(s.taken, s.finished, s.workers, w, s.queue[0]);
        }
      case Finish(w, ok) =>
        if w < |s.workers| && s.workers[w].Handling? {
          FinishHandled(s.taken, s.finished, s.workers, w);
        }
    }
  }

  lemma {:induction false} AfterKeepsInv(s: Sub, h: seq<Action>)
    requires Inv(s)
    ensures Inv(After(s, h))
  {
    hide Next, Inv;
    if h != [] {
      AfterKeepsInv(s, h[..|h| - 1]);
      NextKeepsInv(After(s, h[..|h| - 1]), h[|h| - 1]);
    }
  }

  /** How many emitted events a subscription matches. */
  function MatchingCount(s: Sub, h: seq<Action>): nat {
    if h == [] then 0
    else
      var a := h[|h| - 1];
      MatchingCount(s, h[..|h| - 1]) + if a.Emit? && Matches(s, a.event) then 1 else 0
  }

  lemma OfferCounted(s: Sub, a: Action)
    ensures var r := Next(s, a);
      && r.topic == s.topic
      && r.dropped + |EventsOf(r.entered)|
         == s.dropped + |EventsOf(s.entered)| + if a.Emit? && Matches(s, a.event) then 1 else 0
  {
    hide EventsOf, Sentinels;
    if a.Emit? {
      SplitItems(s.entered, [Some(a.event)]);
      OneItem(Some(a.event));
    } else if a.PutSentinel? {
      SplitItems(s.entered, [None]);
      OneItem(None);
    }
  }

  lemma {:induction false} OffersCounted(s: Sub, h: seq<Action>)
    requires s.entered == [] && s.dropped == 0
    ensures var r := After(s, h);
      && r.topic == s.topic
      && MatchingCount(s, h) == r.dropped + |EventsOf(r.entered)|
  {
    hide Next;
    if h != [] {
      OffersCounted(s, h[..|h| - 1]);
      OfferCounted(After(s, h[..|h| - 1]), h[|h| - 1]);
    }
  }

  lemma SubscribedInv(topic: string, maxConcurrency: nat, queueSize: nat)
    ensures Inv(Subscribed(topic, maxConcurrency, queueSize))
  {
  }

  /** Every matching event was dropped, is queued, is with a handler, or has been handled. */
  lemma EventsAreConserved(topic: string, maxConcurrency: nat, queueSize: nat, h: seq<Action>)
    ensures var s := Subscribed(topic, maxConcurrency, queueSize);
      var r := After(s, h);
      && MatchingCount(s, h) == r.dropped + |EventsOf(r.queue)| + |Hands(r.workers)| + r.delivered + r.errored
      && multiset(EventsOf(r.entered)) == multiset(EventsOf(r.queue)) + Hands(r.workers) + multiset(r.finished)
      && r.entered == r.taken + r.queue && |r.queue| <= queueSize
  {
    hide After, MatchingCount, EventsOf, Hands, Sentinels, ExitedCount;
    var s := Subscribed(topic, maxConcurrency, queueSize);
    var r := After(s, h);
    SubscribedInv(topic, maxConcurrency, queueSize);
    AfterKeepsInv(s, h);
    AfterKeepsLimits(s, h);
    OffersCounted(s, h);
    SplitItems(r.taken, r.queue);
    var t, q := EventsOf(r.taken), EventsOf(r.queue);
    assert |multiset(t)| == |t| && |multiset(r.finished)| == |r.finished|;
    assert multiset(t + q) == multiset(t) + multiset(q);
  }

  lemma {:induction false} AfterKeepsLimits(s: Sub, h: seq<Action>)
    ensures After(s, h).queueSize == s.queueSize
  {
    if h != [] {
      AfterKeepsLimits(s, h[..|h| - 1]);
    }
  }

  lemma {:induction false} NoSentinels(items: seq<Item>)
    requires Sentinels(items) == 0
    ensures forall j :: 0 <= j < |items| ==> items[j].Some?
  {
    if items != [] {
      NoSentinels(items[..|items| - 1]);
    }
  }

  lemma {:induction false} AllExited(workers: seq<Worker>)
    requires forall w :: 0 <= w < |workers| ==> workers[w] == Exited
    ensures ExitedCount(workers) == |workers| && Hands(workers) == multiset{}
  {
    if workers != [] {
      AllExited(workers[..|workers| - 1]);
    }
  }

  /**
   When all workers have exited, every sentinel has been taken: nothing that entered the queue
   before the last of them remains, and each event taken has been handled exactly once.
   */
  lemma ShutdownDrains(s: Sub)
    requires Inv(s) && s.workers != []
    requires forall w :: 0 <= w < |s.workers| ==> s.workers[w] == Exited
    ensures s.closing && s.due == 0
    ensures forall j :: 0 <= j < |s.entered| && s.entered[j].None? ==>
      s.taken == s.entered[..|s.taken|] && j < |s.taken|
    ensures multiset(EventsOf(s.taken)) == multiset(s.finished)
  {
    AllExited(s.workers);
    SplitItems(s.taken, s.queue);
    NoSentinels(s.queue);
  }

  // ---------------------------------------------------------------------
  // The bus
  // ---------------------------------------------------------------------

  /** Emitting, starting and closing reach every subscription, the rest a single one. */
  datatype BusAction = Every(action: Action) | At(i: nat, action: Action)

  function BusNext(subs: seq<Sub>, b: BusAction): (r: seq<Sub>)
    ensures |r| == |subs|
  {
    match b
    case Every(a) => seq(|subs|, i requires 0 <= i < |subs| => Next(subs[i], a))
    case At(i, a) => if i < |subs| then subs[i := Next(subs[i], a)] else subs
  }

  function BusAfter(subs: seq<Sub>, h: seq<BusAction>): (r: seq<Sub>)
    ensures |r| == |subs|
  {
    if h == [] then subs else BusNext(BusAfter(subs, h[..|h| - 1]), h[|h| - 1])
  }

  /** What subscription i sees of a history. */
  function Seen(h: seq<BusAction>, i: nat): seq<Action> {
    if h == [] then []
    else
      var front, b := Seen(h[..|h| - 1], i), h[|h| - 1];
      if b.Every? || b.i == i then front + [b.action] else front
  }

  /** A subscription depends on what it sees only: the backlog of another one never affects it. */
  lemma {:induction false} Isolation(subs: seq<Sub>, h: seq<BusAction>, i: nat)
    requires i < |subs|
    ensures BusAfter(subs, h)[i] == After(subs[i], Seen(h, i))
  {
    hide Next;
    if h != [] {
      var front, b := h[..|h| - 1], h[|h| - 1];
      Isolation(subs, front, i);
      assert (Seen(front, i) + [b.action])[..|Seen(front, i)|] == Seen(front, i);
    }
  }

  // ---------------------------------------------------------------------
  // The bus as the source keeps it
  // ---------------------------------------------------------------------

  /** A bounded deque of events; the constructor raises unless the capacity is positive. */
  class AuditTrail {
    const capacity: nat
    var events: seq<Event>
    ghost var recorded: seq<Event>

    ghost predicate Valid()
      reads this
    {
      capacity > 0 && events == LastOf(recorded, capacity)
    }

    constructor (capacity: nat)
      requires capacity > 0
      ensures Valid() && this.capacity == capacity && recorded == []
    {
      this.capacity := capacity;
      events, recorded := [], [];
    }

    method Record(event: Event)
      requires Valid()
      modifies this
      ensures Valid() && recorded == old(recorded) + [event]
    {
      LastOfAppend(recorded, event, capacity);
      events := events + [event];
      if |events| > capacity {
        events := events[1..];
      }
      recorded := recorded + [event];
    }
  }

  class Subscription {
    const topic: string
    const maxConcurrency: nat
    const queueSize: nat
    var queue: seq<Item>
    var workers: seq<Worker>
    var closing: bool
    var due: nat
    var dropped: nat
    var delivered: nat
    var errored: nat
    ghost var entered: seq<Item>
    ghost var taken: seq<Item>
    ghost var finished: seq<Event>

    ghost function Value(): Sub
      reads this
    {
      Sub(topic, maxConcurrency, queueSize, queue, workers, closing, due, entered, taken, finished,
          dropped, delivered, errored)
    }

    constructor (topic: string, maxConcurrency: nat, queueSize: nat)
      ensures Value() == Subscribed(topic, maxConcurrency, queueSize)
    {
      this.topic, this.maxConcurrency, this.queueSize := topic, maxConcurrency, queueSize;
      queue, workers, closing, due := [], [], false, 0;
      dropped, delivered, errored := 0, 0, 0;
      entered, taken, finished := [], [], [];
    }

    /** `put_nowait`; a full queue drops the event. */
    method Offer(event: Event)
      modifies this
      ensures Value() == Next(old(Value()), Emit(event))
    {
      if topic == event.topic || topic == "*" {
        if |queue| < queueSize {
          queue := queue + [Some(event)];
          entered := entered + [Some(event)];
        } else {
          dropped := dropped + 1;
        }
      }
    }

    method CreateTasks()
      modifies this
      ensures Value() == Next(old(Value()), Start)
    {
      if workers == [] && !closing {
        workers := seq(maxConcurrency, _ => Waiting);
      }
    }

    method BeginClose()
      modifies this
      ensures Value() == Next(old(Value()), Close)
    {
      if !closing {
        closing, due := true, |workers|;
      }
    }

    /** One round of close's inner loop, once the queue has room. */
    method PutOneSentinel()
      requires due > 0 && |queue| < queueSize
      modifies this
      ensures Value() == Next(old(Value()), PutSentinel)
    {
      due := due - 1;
      queue := queue + [None];
      entered := entered + [None];
    }

    /** A worker's `get` returns. */
    method WorkerGet(w: nat)
      requires w < |workers| && workers[w].Waiting? && queue != []
      modifies this
      ensures Value() == Next(old(Value()), Take(w))
    {
      var item := queue[0];
      queue := queue[1..];
      taken := taken + [item];
      workers := workers[w := if item.Some? then Handling(item.value) else Exited];
    }

    /** The handler returned or raised. */
    method HandlerDone(w: nat, ok: bool)
      requires w < |workers| && workers[w].Handling?
      modifies this
      ensures Value() == Next(old(Value()), Finish(w, ok))
    {
      if ok {
        delivered := delivered + 1;
      } else {
        errored := errored + 1;
      }
      finished := finished + [workers[w].event];
      workers := workers[w := Waiting];
    }
  }

  datatype SubscribeResult = Added | TooLate | BadLimits

  class EventBus {
    const audit: AuditTrail
    var subscriptions: seq<Subscription>
    var started: bool

    ghost predicate Valid()
      reads this, audit
    {
      && audit.Valid()
      && (forall i, j :: 0 <= i < j < |subscriptions| ==> subscriptions[i] != subscriptions[j])
    }

    ghost function Values(): (r: seq<Sub>)
      reads this, subscriptions
      ensures |r| == |subscriptions|
    {
      seq(|subscriptions|, i requires 0 <= i < |subscriptions| reads this, subscriptions => subscriptions[i].Value())
    }

    constructor (auditCapacity: nat)
      requires auditCapacity > 0
      ensures Valid() && Values() == [] && !started && audit.recorded == []
    {
      audit := new AuditTrail(auditCapacity);
      subscriptions, started := [], false;
    }

    method Subscribe(topic: string, maxConcurrency: int, queueSize: int) returns (result: SubscribeResult)
      requires Valid()
      modifies this`subscriptions
      ensures Valid()
      ensures result == if started then TooLate else if maxConcurrency <= 0 || queueSize <= 0 then BadLimits else Added
      ensures Values() == if result.Added? then old(Values()) + [Subscribed(topic, maxConcurrency, queueSize)]
                          else old(Values())
    {
      if started {
        return TooLate;
      }
      if maxConcurrency <= 0 || queueSize <= 0 {
        return BadLimits;
      }
      var subscription := new Subscription(topic, maxConcurrency, queueSize);
      subscriptions := subscriptions + [subscription];
      assert Values() == old(Values()) + [Subscribed(topic, maxConcurrency, queueSize)];
      result := Added;
    }

    /** `emit`: the event is recorded, then offered to every subscription in turn. */
    method Emit(event: Event)
      requires Valid()
      modifies audit, subscriptions
      ensures Valid() && audit.recorded == old(audit.recorded) + [event]
      ensures Values() == BusNext(old(Values()), Every(Action.Emit(event)))
    {
      audit.Record(event);
      for i := 0 to |subscriptions|
        invariant audit.Valid() && audit.recorded == old(audit.recorded) + [event]
        invariant forall j :: 0 <= j < |subscriptions| ==>
          subscriptions[j].Value()
          == if j < i then Next(old(subscriptions[j].Value()), Action.Emit(event)) else old(subscriptions[j].Value())
      {
        subscriptions[i].Offer(event);
      }
    }

    /** `start`: the workers of every subscription. */
    method Start()
      requires Valid()
      modifies this`started, subscriptions
      ensures Valid() && started
      ensures Values() == if old(started) then old(Values()) else BusNext(old(Values()), Every(Action.Start))
    {
      if started {
        return;
      }
      started := true;
      for i := 0 to |subscriptions|
        invariant audit.Valid() && started
        invariant forall j :: 0 <= j < |subscriptions| ==>
          subscriptions[j].Value()
          == if j < i then Next(old(subscriptions[j].Value()), Action.Start) else old(subscriptions[j].Value())
      {
        subscriptions[i].CreateTasks();
      }
    }

    /** The start of `close`: every worker is due a sentinel. */
    method BeginClose()
      requires Valid()
      modifies subscriptions
      ensures Valid()
      ensures Values() == if started then BusNext(old(Values()), Every(Action.Close)) else old(Values())
    {
      if !started {
        return;
      }
      for i := 0 to |subscriptions|
        invariant audit.Valid()
        invariant forall j :: 0 <= j < |subscriptions| ==>
          subscriptions[j].Value()
          == if j < i then Next(old(subscriptions[j].Value()), Action.Close) else old(subscriptions[j].Value())
      {
        subscriptions[i].BeginClose();
      }
    }
  }
}
