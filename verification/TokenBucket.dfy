/**
 The token bucket (llm/resilience.py) over real arithmetic.

 The lock body of `acquire` never suspends, so one round of its loop, a poll, is one step.
 Polls of any number of callers are a history with a non-decreasing clock.
 */
module TokenBuckets {
  import opened Common

  /** `capacity` and `rate` are positive (RateLimitConfig.validate). */
  datatype Bucket = Bucket(capacity: real, rate: real, tokens: real, updatedAt: real)

  predicate ValidBucket(b: Bucket) {
    b.capacity > 0.0 && b.rate > 0.0 && 0.0 <= b.tokens <= b.capacity
  }

  function Full(capacity: real, rate: real, now: real): Bucket {
    Bucket(capacity, rate, capacity, now)
  }

  /** What is earned in a stretch of time. */
  function Accrued(rate: real, duration: real): real {
    duration * rate
  }

  function Refilled(b: Bucket, now: real): Bucket {
    b.(tokens := MinReal(b.capacity, b.tokens + Accrued(b.rate, MaxReal(0.0, now - b.updatedAt))),
       updatedAt := now)
  }

  /** One poll: refill, then take the tokens if they are there. */
  function Polled(b: Bucket, want: real, now: real): (r: (Bucket, bool)) {
    var f := Refilled(b, now);
    if f.tokens >= want then (f.(tokens := f.tokens - want), true) else (f, false)
  }

  /** What a poll finds there, and what it leaves; a clock that runs backwards earns nothing. */
  lemma PollExact(b: Bucket, want: real, now: real)
    requires ValidBucket(b)
    ensures var (r, granted) := Polled(b, want, now);
      var earned := if now >= b.updatedAt then (now - b.updatedAt) * b.rate else 0.0;
      var there := if b.tokens + earned <= b.capacity then b.tokens + earned else b.capacity;
      && (granted <==> there >= want)
      && r == Bucket(b.capacity, b.rate, if granted then there - want else there, now)
  {
  }

  /** How long a denied caller sleeps. */
  function WaitTime(b: Bucket, want: real): real
    requires b.rate > 0.0
  {
    (want - b.tokens) / b.rate
  }

  datatype Poll = Poll(want: real, now: real)

  /** `acquire` polls only for amounts in (0, capacity]. */
  predicate Acceptable(b: Bucket, polls: seq<Poll>) {
    forall i :: 0 <= i < |polls| ==> 0.0 < polls[i].want <= b.capacity
  }

  /** The clock does not run backwards, neither before the first poll nor after the last one. */
  ghost predicate Timed(from: real, polls: seq<Poll>, to: real) {
    && from <= to
    && (forall i :: 0 <= i < |polls| ==> from <= polls[i].now <= to)
    && (forall i, j :: 0 <= i < j < |polls| ==> polls[i].now <= polls[j].now)
  }

  function After(b: Bucket, polls: seq<Poll>): Bucket {
    if polls == [] then b
    else
      var last := polls[|polls| - 1];
      Polled(After(b, polls[..|polls| - 1]), last.want, last.now).0
  }

  /** The tokens handed out. */
  function Granted(b: Bucket, polls: seq<Poll>): real {
    if polls == [] then 0.0
    else
      var front, last := polls[..|polls| - 1], polls[|polls| - 1];
      Granted(b, front)
      + if Polled(After(b, front), last.want, last.now).1 then last.want else 0.0
  }

  /** The polls that were granted. */
  function Grants(b: Bucket, polls: seq<Poll>): seq<Poll> {
    if polls == [] then []
    else
      var front, last := polls[..|polls| - 1], polls[|polls| - 1];
      Grants(b, front) + if Polled(After(b, front), last.want, last.now).1 then [last] else []
  }

  lemma FrontOf(b: Bucket, polls: seq<Poll>, from: real, to: real)
    requires polls != [] && Acceptable(b, polls) && Timed(from, polls, to)
    ensures var front, last := polls[..|polls| - 1], polls[|polls| - 1];
      Acceptable(b, front) && Timed(from, front, last.now) && 0.0 < last.want && from <= last.now <= to
  {
  }

  lemma NoPolls(b: Bucket, polls: seq<Poll>)
    requires polls == []
    ensures After(b, polls) == b && Granted(b, polls) == 0.0 && Grants(b, polls) == []
  {
  }

  lemma LastPoll(b: Bucket, polls: seq<Poll>)
    requires polls != []
    ensures var front, last := polls[..|polls| - 1], polls[|polls| - 1];
      var (r, granted) := Polled(After(b, front), last.want, last.now);
      && After(b, polls) == r
      && Granted(b, polls) == Granted(b, front) + (if granted then last.want else 0.0)
      && Grants(b, polls) == if granted then Grants(b, front) + [last] else Grants(b, front)
  {
  }

  // ---------------------------------------------------------------------
  // Refilling
  // ---------------------------------------------------------------------

  lemma AccruedAdds(rate: real, a: real, c: real)
    requires rate > 0.0 && a >= 0.0 && c >= 0.0
    ensures Accrued(rate, a + c) == Accrued(rate, a) + Accrued(rate, c)
    ensures Accrued(rate, a) >= 0.0 && Accrued(rate, c) >= 0.0
  {
  }

  lemma RefillStaysValid(b: Bucket, now: real)
    requires ValidBucket(b)
    ensures ValidBucket(Refilled(b, now)) && Refilled(b, now).capacity == b.capacity
  {
    hide Accrued;
    AccruedAdds(b.rate, MaxReal(0.0, now - b.updatedAt), 0.0);
  }

  /** Lazy refilling composes: looking at the bucket in between makes no difference. */
  lemma RefillComposes(b: Bucket, t: real, now: real)
    requires ValidBucket(b) && b.updatedAt <= t <= now
    ensures Refilled(Refilled(b, t), now) == Refilled(b, now)
  {
    hide Accrued;
    AccruedAdds(b.rate, t - b.updatedAt, now - t);
    assert now - b.updatedAt == (t - b.updatedAt) + (now - t);
  }

  lemma PolledStaysValid(b: Bucket, want: real, now: real)
    requires ValidBucket(b) && 0.0 < want
    ensures ValidBucket(Polled(b, want, now).0) && Polled(b, want, now).0.updatedAt == now
  {
    RefillStaysValid(b, now);
  }

  lemma {:induction false} AfterStaysValid(b: Bucket, polls: seq<Poll>, to: real)
    requires ValidBucket(b) && Acceptable(b, polls) && Timed(b.updatedAt, polls, to)
    ensures var r := After(b, polls);
      && ValidBucket(r) && r.capacity == b.capacity && r.rate == b.rate
      && b.updatedAt <= r.updatedAt <= to
      && (polls != [] ==> r.updatedAt == polls[|polls| - 1].now)
  {
    if polls != [] {
      var front, last := polls[..|polls| - 1], polls[|polls| - 1];
      AfterStaysValid(b, front, last.now);
      PolledStaysValid(After(b, front), last.want, last.now);
    }
  }

  // ---------------------------------------------------------------------
  // The rate bound
  // ---------------------------------------------------------------------

  /**
   What was handed out and what is left at time `to` is at most what was there at time `from`
   and what has been earned since.
   */
  lemma {:induction false} TokenBudget(b: Bucket, polls: seq<Poll>, from: real, to: real)
    requires ValidBucket(b) && Acceptable(b, polls)
    requires b.updatedAt <= from && Timed(from, polls, to)
    ensures Granted(b, polls) + Refilled(After(b, polls), to).tokens
            <= Refilled(b, from).tokens + Accrued(b.rate, to - from)
  {
    hide Accrued, Refilled, Polled, After, Granted, Acceptable;
    AfterStaysValid(b, polls, to);
    if polls == [] {
      NoPolls(b, polls);
      RefillStep(b, from, to);
    } else {
      var front, last := polls[..|polls| - 1], polls[|polls| - 1];
      FrontOf(b, polls, from, to);
      LastPoll(b, polls);
      TokenBudget(b, front, from, last.now);
      AfterStaysValid(b, front, last.now);
      PollSpends(After(b, front), last.want, last.now);
      RefillStep(After(b, polls), last.now, to);
      AccruedAdds(b.rate, last.now - from, to - last.now);
      assert to - from == (last.now - from) + (to - last.now);
    }
  }

  /** A poll takes what it hands out from the refilled bucket and nothing else. */
  lemma PollSpends(b: Bucket, want: real, now: real)
    requires ValidBucket(b) && 0.0 < want
    ensures var (r, granted) := Polled(b, want, now);
      && ValidBucket(r) && r.updatedAt == now && Refilled(r, now) == r
      && r.tokens + (if granted then want else 0.0) == Refilled(b, now).tokens
  {
    PolledStaysValid(b, want, now);
  }

  lemma RefillStep(b: Bucket, from: real, to: real)
    requires ValidBucket(b) && b.updatedAt <= from <= to
    ensures Refilled(b, to).tokens <= Refilled(b, from).tokens + Accrued(b.rate, to - from)
  {
    RefillComposes(b, from, to);
  }

  lemma StretchOf(b: Bucket, polls: seq<Poll>, i: nat, j: nat)
    requires i < j <= |polls| && Acceptable(b, polls)
    requires Timed(b.updatedAt, polls, polls[|polls| - 1].now)
    ensures Acceptable(b, polls[..i]) && Timed(b.updatedAt, polls[..i], polls[i].now)
    ensures Acceptable(b, polls[i..j]) && Timed(polls[i].now, polls[i..j], polls[j - 1].now)
    ensures polls[i..j] != [] && polls[i..j][|polls[i..j]| - 1] == polls[j - 1]
  {
  }

  lemma TimedEarlier(b: Bucket, polls: seq<Poll>, from: real, to: real)
    requires Timed(from, polls, to) && b.updatedAt <= from
    ensures Timed(b.updatedAt, polls, to)
  {
  }

  lemma SameCapacity(b: Bucket, m: Bucket, polls: seq<Poll>)
    requires Acceptable(b, polls) && m.capacity == b.capacity
    ensures Acceptable(m, polls)
  {
  }

  /** In every stretch of every history at most capacity + rate * duration is handed out. */
  lemma RateBound(b: Bucket, polls: seq<Poll>, i: nat, j: nat)
    requires ValidBucket(b) && Acceptable(b, polls)
    requires i < j <= |polls| && Timed(b.updatedAt, polls, polls[|polls| - 1].now)
    ensures Granted(After(b, polls[..i]), polls[i..j])
            <= b.capacity + Accrued(b.rate, polls[j - 1].now - polls[i].now)
  {
    hide Accrued, Refilled, Polled, After, Granted, Acceptable, Timed;
    var before, window := polls[..i], polls[i..j];
    StretchOf(b, polls, i, j);
    AfterStaysValid(b, before, polls[i].now);
    var m := After(b, before);
    SameCapacity(b, m, window);
    TokenBudget(m, window, polls[i].now, polls[j - 1].now);
    TimedEarlier(m, window, polls[i].now, polls[j - 1].now);
    AfterStaysValid(m, window, polls[j - 1].now);
    RefillStaysValid(m, polls[i].now);
    RefillStaysValid(After(m, window), polls[j - 1].now);
  }

  // ---------------------------------------------------------------------
  // Denied polls do not matter
  // ---------------------------------------------------------------------

  lemma {:induction false} GrantsTimed(b: Bucket, polls: seq<Poll>, from: real, to: real)
    requires Acceptable(b, polls) && Timed(from, polls, to)
    ensures Acceptable(b, Grants(b, polls)) && Timed(from, Grants(b, polls), to)
    ensures forall p :: p in Grants(b, polls) ==> p in polls
  {
    if polls != [] {
      var front, last := polls[..|polls| - 1], polls[|polls| - 1];
      GrantsTimed(b, front, from, last.now);
    }
  }

  /**
   Leaving out the denied polls changes nothing: every remaining poll is still granted, as much
   is handed out, and at any later time the bucket holds as much.
   */
  lemma {:induction false} DeniedPollsAreInvisible(b: Bucket, polls: seq<Poll>, to: real)
    requires ValidBucket(b) && Acceptable(b, polls) && Timed(b.updatedAt, polls, to)
    ensures Grants(b, Grants(b, polls)) == Grants(b, polls)
    ensures Granted(b, Grants(b, polls)) == Granted(b, polls)
    ensures Refilled(After(b, Grants(b, polls)), to) == Refilled(After(b, polls), to)
  {
    hide Accrued, Refilled, Polled, After, Granted, Grants, Timed, Acceptable, ValidBucket;
    if polls == [] {
      NoPolls(b, polls);
    } else {
      var front, last := polls[..|polls| - 1], polls[|polls| - 1];
      FrontOf(b, polls, b.updatedAt, to);
      LastPoll(b, polls);
      DeniedPollsAreInvisible(b, front, last.now);
      var kept := Grants(b, front);
      GrantsTimed(b, front, b.updatedAt, last.now);
      AfterStaysValid(b, front, last.now);
      AfterStaysValid(b, kept, last.now);
      SamePoll(After(b, front), After(b, kept), last, to);
      assert (kept + [last])[..|kept|] == kept;
      LastPoll(b, kept + [last]);
    }
  }

  /** A bucket not looked at since answers like one just looked at. */
  lemma SamePoll(a: Bucket, b: Bucket, p: Poll, to: real)
    requires ValidBucket(a) && ValidBucket(b) && 0.0 < p.want
    requires a.updatedAt <= p.now <= to && b.updatedAt <= p.now
    requires Refilled(a, p.now) == Refilled(b, p.now)
    ensures Polled(a, p.want, p.now) == Polled(b, p.want, p.now)
    ensures !Polled(a, p.want, p.now).1 ==> Refilled(Polled(a, p.want, p.now).0, to) == Refilled(b, to)
  {
    RefillComposes(b, p.now, to);
  }

  // ---------------------------------------------------------------------
  // Progress of a waiter
  // ---------------------------------------------------------------------

  /** A caller that was denied and comes back after its wait finds the tokens, if nobody took any. */
  lemma WaitSuffices(b: Bucket, want: real, denied: real, back: real)
    requires ValidBucket(b) && 0.0 < want <= b.capacity && b.updatedAt <= denied
    requires !Polled(b, want, denied).1
    requires back >= denied + WaitTime(Refilled(b, denied), want)
    ensures Polled(Polled(b, want, denied).0, want, back).1
  {
    RefillStaysValid(b, denied);
    var f := Refilled(b, denied);
    assert (want - f.tokens) / f.rate * f.rate == want - f.tokens;
    var wait := WaitTime(f, want);
    assert (back - denied) * f.rate >= wait * f.rate by {
      assert (back - denied - wait) * f.rate >= 0.0;
    }
  }

  /** The wait is exact: coming back any earlier the caller is denied again. */
  lemma WaitExact(b: Bucket, want: real, denied: real, back: real)
    requires ValidBucket(b) && 0.0 < want <= b.capacity && b.updatedAt <= denied <= back
    requires !Polled(b, want, denied).1
    ensures Polled(Polled(b, want, denied).0, want, back).1 <==> back >= denied + WaitTime(Refilled(b, denied), want)
    ensures WaitTime(Refilled(b, denied), want) > 0.0
  {
    var f := Refilled(b, denied);
    WaitEarns(f, want, back - denied);
    if back >= denied + WaitTime(f, want) {
      WaitSuffices(b, want, denied, back);
    }
  }

  /** Exactly after the wait the missing tokens have been earned. */
  lemma WaitEarns(f: Bucket, want: real, d: real)
    requires f.rate > 0.0 && f.tokens < want
    ensures WaitTime(f, want) > 0.0
    ensures d >= WaitTime(f, want) <==> f.tokens + Accrued(f.rate, d) >= want
  {
    var wait := WaitTime(f, want);
    assert wait * f.rate == want - f.tokens;
    if d >= wait {
      assert (d - wait) * f.rate >= 0.0;
    } else {
      assert (wait - d) * f.rate > 0.0;
    }
    PositiveFactor(wait, f.rate);
  }

  lemma PositiveFactor(x: real, y: real)
    requires y > 0.0 && x * y > 0.0
    ensures x > 0.0
  {
    assert x <= 0.0 ==> (0.0 - x) * y >= 0.0;
  }

  function Wanted(polls: seq<Poll>): real {
    if polls == [] then 0.0 else Wanted(polls[..|polls| - 1]) + polls[|polls| - 1].want
  }

  /** A burst that asks for no more than what is there is granted in full, poll by poll. */
  lemma {:induction false} BurstIsGranted(b: Bucket, polls: seq<Poll>, to: real)
    requires ValidBucket(b) && Acceptable(b, polls) && Timed(b.updatedAt, polls, to)
    requires Wanted(polls) <= b.tokens
    ensures Grants(b, polls) == polls && Granted(b, polls) == Wanted(polls)
    ensures After(b, polls).tokens >= b.tokens - Wanted(polls)
  {
    hide Accrued, Refilled, Polled, After, Granted, Grants, Timed, Acceptable;
    if polls == [] {
      NoPolls(b, polls);
    } else {
      var front, last := polls[..|polls| - 1], polls[|polls| - 1];
      FrontOf(b, polls, b.updatedAt, to);
      LastPoll(b, polls);
      BurstIsGranted(b, front, last.now);
      AfterStaysValid(b, front, last.now);
      GrantedIfThere(After(b, front), last.want, last.now);
      assert front + [last] == polls;
    }
  }

  /** Tokens that are there are handed out, and only they are taken. */
  lemma GrantedIfThere(b: Bucket, want: real, now: real)
    requires ValidBucket(b) && 0.0 < want <= b.tokens && b.updatedAt <= now
    ensures Polled(b, want, now).1 && Polled(b, want, now).0.tokens >= b.tokens - want
  {
    hide Accrued;
    AccruedAdds(b.rate, now - b.updatedAt, 0.0);
  }

  /** A new bucket is full: it grants any burst up to its capacity at once. */
  lemma NewBucketIsFull(capacity: real, rate: real, now: real, polls: seq<Poll>, to: real)
    requires capacity > 0.0 && rate > 0.0
    requires Acceptable(Full(capacity, rate, now), polls) && Timed(now, polls, to) && Wanted(polls) <= capacity
    ensures Grants(Full(capacity, rate, now), polls) == polls
  {
    BurstIsGranted(Full(capacity, rate, now), polls, to);
  }

  lemma {:induction false} NothingGranted(b: Bucket, polls: seq<Poll>)
    requires Acceptable(b, polls)
    ensures Granted(b, polls) >= 0.0
    ensures Granted(b, polls) == 0.0 <==> Grants(b, polls) == []
  {
    if polls != [] {
      NothingGranted(b, polls[..|polls| - 1]);
    }
  }

  /**
   A caller that slept its whole wait and is denied again was overtaken: some other caller was
   granted tokens in between.
   */
  lemma WaiterWasOvertaken(b: Bucket, want: real, denied: real, others: seq<Poll>, back: real)
    requires ValidBucket(b) && 0.0 < want <= b.capacity && b.updatedAt <= denied
    requires !Polled(b, want, denied).1
    requires back >= denied + WaitTime(Refilled(b, denied), want)
    requires Acceptable(b, others) && Timed(denied, others, back)
    requires !Polled(After(Polled(b, want, denied).0, others), want, back).1
    ensures Granted(Polled(b, want, denied).0, others) > 0.0
  {
    var m := Polled(b, want, denied).0;
    PolledStaysValid(b, want, denied);
    NothingGranted(m, others);
    DeniedPollsAreInvisible(m, others, back);
    WaitSuffices(b, want, denied, back);
  }

  // ---------------------------------------------------------------------
  // The bucket as the source keeps it
  // ---------------------------------------------------------------------

  class TokenBucket {
    const capacity: real
    const refillRate: real
    var tokens: real
    var updatedAt: real

    ghost function Value(): Bucket
      reads this
    {
      Bucket(capacity, refillRate, tokens, updatedAt)
    }

    constructor (capacity: real, refillRate: real, now: real)
      requires capacity > 0.0 && refillRate > 0.0
      ensures Value() == Full(capacity, refillRate, now)
    {
      this.capacity, this.refillRate := capacity, refillRate;
      tokens, updatedAt := capacity, now;
    }

    /** One round under the lock; a denied caller is told how long to sleep. */
    method TryAcquire(want: real, now: real) returns (granted: bool, wait: real)
      requires refillRate > 0.0
      modifies this
      ensures (Value(), granted) == Polled(old(Value()), want, now)
      ensures !granted ==> wait == WaitTime(Value(), want)
    {
      hide Accrued;
      var elapsed := MaxReal(0.0, now - updatedAt);
      tokens := MinReal(capacity, tokens + Accrued(refillRate, elapsed));
      updatedAt := now;
      granted, wait := tokens >= want, 0.0;
      if granted {
        tokens := tokens - want;
      } else {
        wait := (want - tokens) / refillRate;
      }
    }

    /**
     `acquire` when no other caller is granted anything meanwhile; `late(k)` is by how much
     the k-th sleep oversleeps. None stands for the ValueError.
     */
    method Acquire(want: real, start: real, late: nat -> real) returns (polls: Option<nat>, now: real)
      requires ValidBucket(Value()) && updatedAt <= start && forall k :: late(k) >= 0.0
      modifies this
      ensures polls.None? <==> want <= 0.0 || want > capacity
      ensures polls.None? ==> Value() == old(Value())
      ensures polls.Some? ==>
        var (first, granted) := Polled(old(Value()), want, start);
        if granted then polls == Some(1) && now == start && Value() == first
        else polls == Some(2) && now == start + WaitTime(first, want) + late(0)
             && (Value(), true) == Polled(first, want, now)
    {
      now := start;
      if want <= 0.0 || want > capacity {
        return None, now;
      }
      ghost var b := Value();
      var count := 0;
      while true
        invariant 0 <= count <= 1 && refillRate > 0.0
        invariant count == 0 ==> Value() == b && now == start
        invariant count == 1 ==>
          && !Polled(b, want, start).1 && Value() == Polled(b, want, start).0
          && now == start + WaitTime(Value(), want) + late(0)
        decreases 2 - count
      {
        if count == 1 {
          WaitSuffices(b, want, start, now);
        }
        var granted, wait := TryAcquire(want, now);
        count := count + 1;
        if granted {
          return Some(count), now;
        }
        now := now + wait + late(count - 1);
      }
    }
  }
}
