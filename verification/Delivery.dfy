/**
 What reaches a subscription, told by the actions of a history (events.py): which events are
 queued and which dropped, what the workers take and how they end, and that shutdown completes.
 */
module Deliveries {
  import opened Common
  import opened EventBuses

  // ---------------------------------------------------------------------
  // One action
  // ---------------------------------------------------------------------

  /** A subscription is addressed by events of its own topic; "*" by every event. */
  predicate Addressed(topic: string, e: Event) {
    e.topic == topic || topic == "*"
  }

  /** What the action puts into the queue. */
  function Entering(s: Sub, a: Action): seq<Item> {
    if |s.queue| >= s.queueSize then []
    else if a.Emit? && Addressed(s.topic, a.event) then [Some(a.event)]
    else if a.PutSentinel? && s.due > 0 then [None]
    else []
  }

  /** What a waiting worker takes. */
  function Leaving(s: Sub, a: Action): seq<Item> {
    if a.Take? && a.w < |s.workers| && s.workers[a.w].Waiting? && s.queue != [] then [s.queue[0]] else []
  }

  /** What a handler is done with. */
  function Ending(s: Sub, a: Action): seq<Event> {
    if a.Finish? && a.w < |s.workers| && s.workers[a.w].Handling? then [s.workers[a.w].event] else []
  }

  /** An event a subscription is addressed by meets a full queue. */
  predicate TurnedAway(s: Sub, a: Action) {
    a.Emit? && Addressed(s.topic, a.event) && |s.queue| >= s.queueSize
  }

  lemma ActionExact(s: Sub, a: Action)
    ensures var r := Next(s, a);
      && r.topic == s.topic && r.maxConcurrency == s.maxConcurrency && r.queueSize == s.queueSize
      && s.queue + Entering(s, a) == Leaving(s, a) + r.queue
      && r.entered == s.entered + Entering(s, a)
      && r.taken == s.taken + Leaving(s, a)
      && r.finished == s.finished + Ending(s, a)
      && r.dropped == s.dropped + One(TurnedAway(s, a))
      && r.delivered == s.delivered + One(Ending(s, a) != [] && a.ok)
      && r.errored == s.errored + One(Ending(s, a) != [] && !a.ok)
      && r.closing == (s.closing || a.Close?)
  {
  }

  /** A worker changes only by taking an entry and by being done with it. */
  lemma WorkersExact(s: Sub, a: Action)
    ensures var r := Next(s, a);
      && |r.workers| == (if a.Start? && s.workers == [] && !s.closing then s.maxConcurrency else |s.workers|)
      && (forall w :: |s.workers| <= w < |r.workers| ==> r.workers[w] == Waiting)
      && (forall w :: 0 <= w < |s.workers| ==>
            r.workers[w] == (if Leaving(s, a) != [] && a.w == w then
                               (if s.queue[0].Some? then Handling(s.queue[0].value) else Exited)
                             else if Ending(s, a) != [] && a.w == w then Waiting
                             else s.workers[w]))
  {
  }

  /** Closing owes one sentinel to each worker, and each sentinel put is one less. */
  lemma DueExact(s: Sub, a: Action)
    ensures Next(s, a).due == if a.Close? && !s.closing then |s.workers| else s.due - One(Entering(s, a) == [None])
  {
  }

  // ---------------------------------------------------------------------
  // Every history
  // ---------------------------------------------------------------------

  function AllEntering(s: Sub, h: seq<Action>): seq<Item> {
    if h == [] then []
    else AllEntering(s, h[..|h| - 1]) + Entering(After(s, h[..|h| - 1]), h[|h| - 1])
  }

  function AllLeaving(s: Sub, h: seq<Action>): seq<Item> {
    if h == [] then []
    else AllLeaving(s, h[..|h| - 1]) + Leaving(After(s, h[..|h| - 1]), h[|h| - 1])
  }

  function AllEnding(s: Sub, h: seq<Action>): seq<Event> {
    if h == [] then []
    else AllEnding(s, h[..|h| - 1]) + Ending(After(s, h[..|h| - 1]), h[|h| - 1])
  }

  function AllTurnedAway(s: Sub, h: seq<Action>): nat {
    if h == [] then 0
    else AllTurnedAway(s, h[..|h| - 1]) + One(TurnedAway(After(s, h[..|h| - 1]), h[|h| - 1]))
  }

  /** How many handlers ended well (ok) or with an exception (!ok). */
  function AllDone(s: Sub, h: seq<Action>, ok: bool): nat {
    if h == [] then 0
    else
      var a := h[|h| - 1];
      AllDone(s, h[..|h| - 1], ok) + One(Ending(After(s, h[..|h| - 1]), a) != [] && a.ok == ok)
  }

  lemma {:induction false} RecordsExact(s: Sub, h: seq<Action>)
    requires s.entered == [] && s.taken == [] && s.finished == []
    requires s.dropped == 0 && s.delivered == 0 && s.errored == 0
    ensures var r := After(s, h);
      && r.entered == AllEntering(s, h) && r.taken == AllLeaving(s, h) && r.finished == AllEnding(s, h)
      && r.dropped == AllTurnedAway(s, h)
      && r.delivered == AllDone(s, h, true) && r.errored == AllDone(s, h, false)
  {
    hide Next, Entering, Leaving, Ending, TurnedAway, One;
    if h != [] {
      RecordsExact(s, h[..|h| - 1]);
      OneOrOther(After(s, h[..|h| - 1]), h[|h| - 1]);
      ActionExact(After(s, h[..|h| - 1]), h[|h| - 1]);
    }
  }

  lemma OneOrOther(s: Sub, a: Action)
    ensures Ending(s, a) != [] ==> a.Finish?
    ensures One(Ending(s, a) != [] && a.ok == true) == One(Ending(s, a) != [] && a.ok)
    ensures One(Ending(s, a) != [] && a.ok == false) == One(Ending(s, a) != [] && !a.ok)
  {
  }

  /**
   Of the events that address a subscription those that find room are queued, in the order they
   were emitted, and the others are dropped. Workers take the entries in that order, and each
   handler that ends counts as delivered or as an error.
   */
  lemma DeliveryExact(topic: string, maxConcurrency: nat, queueSize: nat, h: seq<Action>)
    ensures var s := Subscribed(topic, maxConcurrency, queueSize);
      var r := After(s, h);
      && AllEntering(s, h) == AllLeaving(s, h) + r.queue && |r.queue| <= queueSize
      && multiset(EventsOf(AllLeaving(s, h))) == multiset(AllEnding(s, h)) + Hands(r.workers)
      && (|r.workers| == 1 ==> EventsOf(AllLeaving(s, h)) == AllEnding(s, h) + HandOf(r.workers[0]))
      && r.dropped == AllTurnedAway(s, h)
      && r.delivered == AllDone(s, h, true) && r.errored == AllDone(s, h, false)
  {
    hide After, EventsOf, Hands, HandOf, Sentinels, ExitedCount,
      AllEntering, AllLeaving, AllEnding, AllTurnedAway, AllDone;
    var s := Subscribed(topic, maxConcurrency, queueSize);
    RecordsExact(s, h);
    SubscribedInv(topic, maxConcurrency, queueSize);
    AfterKeepsInv(s, h);
    AfterKeepsLimits(s, h);
  }

  // ---------------------------------------------------------------------
  // Shutdown
  // ---------------------------------------------------------------------

  /** A step of the shutdown itself: a sentinel put, an entry taken, a handler done. */
  predicate Works(s: Sub, a: Action) {
    || (a.PutSentinel? && Entering(s, a) != [])
    || Leaving(s, a) != []
    || Ending(s, a) != []
  }

  /** What a closing subscription has still to do. */
  function Remaining(s: Sub): nat {
    3 * s.due + 2 * |s.queue| + |Hands(s.workers)|
  }

  /** The two steps an event that still finds room costs. */
  function Added(s: Sub, a: Action): nat {
    if a.Emit? && Entering(s, a) != [] then 2 else 0
  }

  lemma WorkShrinks(s: Sub, a: Action)
    requires s.closing
    ensures Next(s, a).closing
    ensures Remaining(Next(s, a)) + One(Works(s, a)) <= Remaining(s) + Added(s, a)
  {
    hide Hands, ExitedCount;
    if a.Take? && Leaving(s, a) != [] {
      HandsFollow(s.workers, a.w, s.queue[0]);
      OneItem(s.queue[0]);
    } else if a.Finish? && Ending(s, a) != [] {
      WorkerUpdate(s.workers, a.w, Waiting);
      assert |Hands(s.workers[a.w := Waiting]) + multiset(HandOf(s.workers[a.w]))|
          == |Hands(s.workers)| + |multiset(HandOf(Waiting))|;
    }
  }

  function Worked(s: Sub, h: seq<Action>): nat {
    if h == [] then 0
    else Worked(s, h[..|h| - 1]) + One(Works(After(s, h[..|h| - 1]), h[|h| - 1]))
  }

  function AllAdded(s: Sub, h: seq<Action>): nat {
    if h == [] then 0
    else AllAdded(s, h[..|h| - 1]) + Added(After(s, h[..|h| - 1]), h[|h| - 1])
  }

  /** Shutdown takes a bounded number of steps, two more for each event that still finds room. */
  lemma {:induction false} ShutdownIsBounded(s: Sub, h: seq<Action>)
    requires s.closing
    ensures After(s, h).closing
    ensures Worked(s, h) + Remaining(After(s, h)) <= Remaining(s) + AllAdded(s, h)
  {
    hide Next, Remaining, Works, Added;
    if h != [] {
      ShutdownIsBounded(s, h[..|h| - 1]);
      WorkShrinks(After(s, h[..|h| - 1]), h[|h| - 1]);
    }
  }

  ghost predicate AllGone(s: Sub) {
    forall w :: 0 <= w < |s.workers| ==> s.workers[w] == Exited
  }

  lemma {:induction false} SomeLeft(workers: seq<Worker>)
    requires exists w :: 0 <= w < |workers| && workers[w] != Exited
    ensures ExitedCount(workers) < |workers|
  {
    var n := |workers| - 1;
    if workers[n] == Exited {
      SomeLeft(workers[..n]);
    } else {
      ExitedAtMost(workers[..n]);
    }
  }

  lemma {:induction false} ExitedAtMost(workers: seq<Worker>)
    ensures ExitedCount(workers) <= |workers|
  {
    if workers != [] {
      ExitedAtMost(workers[..|workers| - 1]);
    }
  }

  /** The step a closing subscription can take while one of its workers is left. */
  function NextWork(s: Sub, w: nat): Action
    requires w < |s.workers|
  {
    if s.workers[w].Handling? then Finish(w, true)
    else if s.queue != [] then Take(w)
    else PutSentinel
  }

  lemma NotStuck(s: Sub, w: nat)
    requires Inv(s) && s.closing && s.queueSize > 0
    requires w < |s.workers| && s.workers[w] != Exited
    ensures Works(s, NextWork(s, w))
  {
    if s.workers[w].Waiting? && s.queue == [] {
      assert s.taken + s.queue == s.taken;
      SomeLeft(s.workers);
    }
  }

  /** A closing subscription has come to rest exactly when all its workers have exited. */
  lemma RestIsTheEnd(s: Sub)
    requires Inv(s) && s.closing && s.queueSize > 0
    ensures (forall a :: !Works(s, a)) <==> AllGone(s)
    ensures AllGone(s) && s.workers != [] ==> s.due == 0 && multiset(EventsOf(s.taken)) == multiset(s.finished)
  {
    hide Inv;
    if AllGone(s) {
      forall a ensures !Works(s, a) {
        if s.workers != [] {
          ShutdownDrains(s);
        } else {
          NothingDue(s);
        }
      }
    } else {
      var w :| 0 <= w < |s.workers| && s.workers[w] != Exited;
      NotStuck(s, w);
    }
    if AllGone(s) && s.workers != [] {
      ShutdownDrains(s);
    }
  }

  lemma NothingDue(s: Sub)
    requires Inv(s) && s.workers == []
    ensures s.due == 0
  {
  }

  /** Everything `close` waits for: each subscription closing, as its queue and workers allow. */
  ghost predicate ClosingBus(subs: seq<Sub>) {
    forall i :: 0 <= i < |subs| ==> Inv(subs[i]) && subs[i].closing && subs[i].queueSize > 0
  }

  /** `close` serves the subscriptions in turn: a sentinel is put once the earlier ones have all theirs. */
  ghost predicate InTurn(subs: seq<Sub>, i: nat, a: Action) {
    a.PutSentinel? ==> forall j :: 0 <= j < i && j < |subs| ==> subs[j].due == 0
  }

  /** While any worker is left some step is possible, although a full queue holds `close` up. */
  lemma CloseIsNotStuck(subs: seq<Sub>)
    requires ClosingBus(subs)
    requires exists i :: 0 <= i < |subs| && !AllGone(subs[i])
    ensures exists i: nat, a :: i < |subs| && Works(subs[i], a) && InTurn(subs, i, a)
  {
    hide Inv, Works;
    var i := FirstLeft(subs);
    var w :| 0 <= w < |subs[i].workers| && subs[i].workers[w] != Exited;
    NotStuck(subs[i], w);
    forall j | 0 <= j < i ensures subs[j].due == 0 {
      if subs[j].workers == [] {
        NothingDue(subs[j]);
      } else {
        ShutdownDrains(subs[j]);
      }
    }
    assert Works(subs[i], NextWork(subs[i], w)) && InTurn(subs, i, NextWork(subs[i], w));
  }

  /** The first subscription with a worker left. */
  lemma {:induction false} FirstLeft(subs: seq<Sub>) returns (i: nat)
    requires exists k :: 0 <= k < |subs| && !AllGone(subs[k])
    ensures i < |subs| && !AllGone(subs[i]) && forall j :: 0 <= j < i ==> AllGone(subs[j])
  {
    i := 0;
    while AllGone(subs[i])
      invariant i < |subs| && forall j :: 0 <= j < i ==> AllGone(subs[j])
      decreases |subs| - i
    {
      i := i + 1;
    }
  }
}
