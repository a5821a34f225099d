/**
 The circuit breaker (llm/resilience.py). Its methods run under a lock that never suspends,
 so each is one step; calls and late reports of any number of callers interleave freely.
 */
module CircuitBreakers {
  import opened Common

  datatype BreakerState = Closed | Open | HalfOpen

  datatype Limits = Limits(failureThreshold: nat, recoveryTimeout: real, halfOpenMaxCalls: nat)

  /** CircuitBreakerConfig.validate. */
  predicate ValidLimits(c: Limits) {
    c.failureThreshold > 0 && c.halfOpenMaxCalls > 0 && c.recoveryTimeout >= 0.0
  }

  datatype Breaker = Breaker(state: BreakerState, failureCount: nat, openedAt: Option<real>, halfOpenCalls: nat)

  const FRESH := Breaker(Closed, 0, None, 0)

  function OpenedAt(b: Breaker): real {
    if b.openedAt.Some? then b.openedAt.value else 0.0
  }

  /** The recovery timeout is over at `now`. */
  predicate Recovered(c: Limits, b: Breaker, now: real) {
    now - OpenedAt(b) >= c.recoveryTimeout
  }

  /** What an open breaker becomes when it is asked. */
  function Woken(c: Limits, b: Breaker, now: real): Breaker {
    if b.state == Open && Recovered(c, b, now) then b.(state := HalfOpen, halfOpenCalls := 0) else b
  }

  predicate Admits(c: Limits, b: Breaker, now: real) {
    var w := Woken(c, b, now);
    w.state == Closed || (w.state == HalfOpen && w.halfOpenCalls < c.halfOpenMaxCalls)
  }

  /** `before_call`; a breaker that has woken stays awake even when it rejects. */
  function Asked(c: Limits, b: Breaker, now: real): Breaker {
    var w := Woken(c, b, now);
    if w.state == HalfOpen && Admits(c, b, now) then w.(halfOpenCalls := w.halfOpenCalls + 1) else w
  }

  /** `record_success`. */
  function Healed(b: Breaker): Breaker {
    FRESH
  }

  /** `record_failure`. */
  function Struck(c: Limits, b: Breaker, now: real): Breaker {
    var n := b.failureCount + 1;
    if b.state == HalfOpen || n >= c.failureThreshold then Breaker(Open, n, Some(now), 0)
    else b.(failureCount := n)
  }

  /** `release_probe`. */
  function Released(b: Breaker): Breaker {
    if b.state == HalfOpen && b.halfOpenCalls > 0 then b.(halfOpenCalls := b.halfOpenCalls - 1) else b
  }

  // ---------------------------------------------------------------------
  // The state as a function of what happened
  // ---------------------------------------------------------------------

  datatype Event = Call(now: real) | Success | Failure(now: real) | Release

  function Step(c: Limits, b: Breaker, e: Event): Breaker {
    match e
    case Call(now) => Asked(c, b, now)
    case Success => Healed(b)
    case Failure(now) => Struck(c, b, now)
    case Release => Released(b)
  }

  function After(c: Limits, h: seq<Event>): Breaker {
    if h == [] then FRESH else Step(c, After(c, h[..|h| - 1]), h[|h| - 1])
  }

  /** Failures reported since the last success. */
  function FailuresSinceSuccess(h: seq<Event>): nat {
    if h == [] then 0
    else
      var front := h[..|h| - 1];
      match h[|h| - 1]
      case Success => 0
      case Failure(_) => FailuresSinceSuccess(front) + 1
      case _ => FailuresSinceSuccess(front)
  }

  /** The time of the latest failure since the last success. */
  function LatestFailure(h: seq<Event>): Option<real> {
    if h == [] then None
    else
      match h[|h| - 1]
      case Success => None
      case Failure(now) => Some(now)
      case _ => LatestFailure(h[..|h| - 1])
  }

  /** Some call since the latest failure came after the recovery timeout. */
  predicate Probed(c: Limits, h: seq<Event>) {
    h != [] &&
    var front := h[..|h| - 1];
    match h[|h| - 1]
    case Success => false
    case Failure(_) => false
    case Call(now) =>
      Probed(c, front) || (Tripped(c, front) && LatestFailure(front).Some?
                           && now - LatestFailure(front).value >= c.recoveryTimeout)
    case Release => Probed(c, front)
  }

  /** The threshold has been reached and no success has been reported since. */
  predicate Tripped(c: Limits, h: seq<Event>) {
    FailuresSinceSuccess(h) >= c.failureThreshold
  }

  /** Probes admitted and not released since the latest failure; a release at zero is lost. */
  function ProbesOut(c: Limits, h: seq<Event>): nat {
    if h == [] || !Probed(c, h) then 0
    else
      var before := ProbesOut(c, h[..|h| - 1]);
      match h[|h| - 1]
      case Release => if before > 0 then before - 1 else 0
      case Call(_) => if before < c.halfOpenMaxCalls then before + 1 else before
      case _ => before
  }

  /** The breaker's state is a function of the reports and calls it has seen. */
  lemma {:induction false} StateIsHistory(c: Limits, h: seq<Event>)
    requires ValidLimits(c)
    ensures var b := After(c, h);
      && b.failureCount == FailuresSinceSuccess(h)
      && (b.state == Closed <==> !Tripped(c, h))
      && (b.state == HalfOpen <==> Probed(c, h))
      && b.openedAt == (if Tripped(c, h) then LatestFailure(h) else None)
      && b.halfOpenCalls == ProbesOut(c, h) <= c.halfOpenMaxCalls
    ensures FailuresSinceSuccess(h) > 0 ==> LatestFailure(h).Some?
    ensures Probed(c, h) ==> Tripped(c, h)
  {
    if h != [] {
      StateIsHistory(c, h[..|h| - 1]);
    }
  }

  /** Calls since probing began. */
  function LateCalls(c: Limits, h: seq<Event>): nat {
    if h == [] || !Probed(c, h) then 0
    else LateCalls(c, h[..|h| - 1]) + if h[|h| - 1].Call? then 1 else 0
  }

  /** Releases since probing began. */
  function LateReleases(c: Limits, h: seq<Event>): nat {
    if h == [] || !Probed(c, h) then 0
    else LateReleases(c, h[..|h| - 1]) + if h[|h| - 1].Release? then 1 else 0
  }

  /** The counter against plain counts: exact while nothing is released, off by the releases at most. */
  lemma {:induction false} ProbesOutBounds(c: Limits, h: seq<Event>)
    requires ValidLimits(c)
    ensures var p, top := After(c, h).halfOpenCalls, MinNat(c.halfOpenMaxCalls, LateCalls(c, h));
      && top - LateReleases(c, h) <= p <= top
      && (LateReleases(c, h) == 0 ==> p == top)
  {
    StateIsHistory(c, h);
    hide Step, After;
    if h != [] {
      ProbesOutBounds(c, h[..|h| - 1]);
      StateIsHistory(c, h[..|h| - 1]);
    }
  }

  /** The clock readings do not run backwards and none is later than `to`. */
  predicate Timed(h: seq<Event>, to: real) {
    h == [] ||
    var last, front := h[|h| - 1], h[..|h| - 1];
    if last.Call? || last.Failure? then last.now <= to && Timed(front, last.now) else Timed(front, to)
  }

  lemma {:induction false} ProbedIsLate(c: Limits, h: seq<Event>, to: real)
    requires ValidLimits(c) && Timed(h, to) && Probed(c, h)
    ensures LatestFailure(h).Some? && to - LatestFailure(h).value >= c.recoveryTimeout
  {
    var last, front := h[|h| - 1], h[..|h| - 1];
    if last.Release? {
      ProbedIsLate(c, front, to);
    } else if Probed(c, front) {
      ProbedIsLate(c, front, last.now);
    }
  }

  /**
   Exactly when a call is admitted: fewer failures than the threshold since the last success,
   or the recovery timeout has passed since the latest failure and a probe place is free.
   */
  lemma AdmissionExact(c: Limits, h: seq<Event>, now: real)
    requires ValidLimits(c) && Timed(h, now)
    ensures Admits(c, After(c, h), now) <==>
      || FailuresSinceSuccess(h) < c.failureThreshold
      || (&& LatestFailure(h).Some? && now - LatestFailure(h).value >= c.recoveryTimeout
          && ProbesOut(c, h) < c.halfOpenMaxCalls)
  {
    StateIsHistory(c, h);
    if Probed(c, h) {
      ProbedIsLate(c, h, now);
    }
  }

  // ---------------------------------------------------------------------
  // The breaker as the source keeps it
  // ---------------------------------------------------------------------

  class CircuitBreaker {
    const config: Limits
    var state: BreakerState
    var failureCount: nat
    var openedAt: Option<real>
    var halfOpenCalls: nat

    ghost function Value(): Breaker
      reads this
    {
      Breaker(state, failureCount, openedAt, halfOpenCalls)
    }

    constructor (config: Limits)
      requires ValidLimits(config)
      ensures this.config == config && Value() == After(config, [])
    {
      this.config := config;
      state, failureCount, openedAt, halfOpenCalls := Closed, 0, None, 0;
    }

    /** False stands for CircuitOpenError. */
    method BeforeCall(now: real) returns (admitted: bool)
      modifies this
      ensures admitted == Admits(config, old(Value()), now)
      ensures Value() == Step(config, old(Value()), Call(now))
    {
      if state == Open {
        var elapsed := now - (if openedAt.Some? then openedAt.value else 0.0);
        if elapsed < config.recoveryTimeout {
          return false;
        }
        state := HalfOpen;
        halfOpenCalls := 0;
      }
      if state == HalfOpen {
        if halfOpenCalls >= config.halfOpenMaxCalls {
          return false;
        }
        halfOpenCalls := halfOpenCalls + 1;
      }
      admitted := true;
    }

    method RecordSuccess()
      modifies this
      ensures Value() == Step(config, old(Value()), Success)
    {
      state, failureCount, openedAt, halfOpenCalls := Closed, 0, None, 0;
    }

    method RecordFailure(now: real)
      modifies this
      ensures Value() == Step(config, old(Value()), Failure(now))
    {
      failureCount := failureCount + 1;
      if state == HalfOpen || failureCount >= config.failureThreshold {
        state := Open;
        openedAt := Some(now);
        halfOpenCalls := 0;
      }
    }

    method ReleaseProbe()
      modifies this
      ensures Value() == Step(config, old(Value()), Release)
    {
      if state == HalfOpen {
        halfOpenCalls := if halfOpenCalls > 0 then halfOpenCalls - 1 else 0;
      }
    }
  }
}
