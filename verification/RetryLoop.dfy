/**
 The attempt loop of `ResilientLLMClient.complete` (llm/resilience.py).

 Other calls share the breaker, so its state when this call asks and when it reports is part of
 the surroundings, as are the provider's answers and the random numbers.
 */
module RetryLoop {
  import opened Common
  import opened CircuitBreakers
  import R = Resilience

  datatype RetryConfig = RetryConfig(maxAttempts: nat, baseDelay: real, maxDelay: real, jitterRatio: real)

  /** RetryConfig.validate. */
  predicate ValidRetry(c: RetryConfig) {
    c.maxAttempts > 0 && 0.0 <= c.baseDelay <= c.maxDelay && 0.0 <= c.jitterRatio <= 1.0
  }

  datatype Answer = Response(content: string) | Transient(error: string) | Permanent(error: string) | Interrupted

  /**
   One round as the surroundings decide it: whether the limiter hands out a token (it raises, or the
   wait is cancelled, otherwise), the breaker as other calls left it before this one asks and before
   it reports, the clock at both moments, the provider's answer and the random number in [0, 1).
   */
  datatype Round = Round(
    token: bool, before: Breaker, asks: real, answer: Answer, meanwhile: Breaker, reports: real, random: real)

  type Surroundings = nat -> Round

  ghost predicate Fair(env: Surroundings) {
    forall k :: 0.0 <= env(k).random < 1.0
  }

  datatype Outcome = Completed(content: string) | Raised(error: string) | CircuitOpen | Cancelled | NoToken

  /** What the loop does to the breaker, in order. */
  datatype Act = Asks(admitted: bool) | Reports(event: Event)

  function Power(n: nat): nat {
    if n == 0 then 1 else 2 * Power(n - 1)
  }

  /** Exponential backoff, not yet capped. */
  function Backoff(base: real, k: nat): real
    requires k > 0
  {
    base * Power(k - 1) as real
  }

  /** The delay after the k-th failed attempt, without jitter. */
  function Delay(c: RetryConfig, k: nat): real
    requires k > 0
  {
    MinReal(c.maxDelay, Backoff(c.baseDelay, k))
  }

  /** The part t of y. */
  function Share(y: real, t: real): real {
    y * t
  }

  /** The most jitter can make of a delay. */
  function Stretched(c: RetryConfig, delay: real): real {
    (1.0 + c.jitterRatio) * delay
  }

  function Jitter(c: RetryConfig, delay: real, random: real): real {
    Share(Share(delay, c.jitterRatio), random)
  }

  function Pause(c: RetryConfig, env: Surroundings, k: nat): real
    requires k > 0
  {
    Delay(c, k) + Jitter(c, Delay(c, k), env(k).random)
  }

  predicate Admitted(limits: Limits, r: Round) {
    r.token && Admits(limits, r.before, r.asks)
  }

  /** The round fails in a way that is retried. */
  predicate Retriable(limits: Limits, r: Round) {
    Admitted(limits, r) && r.answer.Transient?
  }

  /** The last round: the first one that is not retriable, or the last allowed one. */
  function LastRound(limits: Limits, env: Surroundings, k: nat, n: nat): (last: nat)
    requires 0 < k <= n
    ensures k <= last <= n
    decreases n - k
  {
    if k < n && Retriable(limits, env(k)) then LastRound(limits, env, k + 1, n) else k
  }

  function OutcomeOf(limits: Limits, r: Round): Outcome {
    if !r.token then NoToken
    else if !Admitted(limits, r) then CircuitOpen
    else
      match r.answer
      case Response(content) => Completed(content)
      case Transient(error) => Raised(error)
      case Permanent(error) => Raised(error)
      case Interrupted => Cancelled
  }

  function ReportOf(r: Round): Event {
    match r.answer
    case Response(_) => Success
    case Permanent(_) => Success
    case Transient(_) => Failure(r.reports)
    case Interrupted => Release
  }

  function ActsOf(limits: Limits, r: Round): seq<Act> {
    if !r.token then []
    else if !Admitted(limits, r) then [Asks(false)]
    else [Asks(true), Reports(ReportOf(r))]
  }

  /** What rounds 1 to n do to the breaker. */
  function ActsUpTo(limits: Limits, env: Surroundings, n: nat): seq<Act> {
    if n == 0 then [] else ActsUpTo(limits, env, n - 1) + ActsOf(limits, env(n))
  }

  function PausesUpTo(c: RetryConfig, env: Surroundings, n: nat): seq<real> {
    if n == 0 then [] else PausesUpTo(c, env, n - 1) + [Pause(c, env, n)]
  }

  /** The breaker as a round leaves it. */
  function LeftBy(limits: Limits, r: Round): Breaker {
    if !Admitted(limits, r) then Step(limits, r.before, Call(r.asks))
    else Step(limits, r.meanwhile, ReportOf(r))
  }

  class ResilientLLMClient {
    const retry: RetryConfig
    const breaker: CircuitBreaker

    constructor (retry: RetryConfig, breaker: CircuitBreaker)
      requires ValidRetry(retry)
      ensures this.retry == retry && this.breaker == breaker
    {
      this.retry, this.breaker := retry, breaker;
    }

    /** While this call is suspended other calls change the breaker. */
    method Yield(left: Breaker)
      modifies breaker
      ensures breaker.Value() == left
    {
      breaker.state, breaker.failureCount := left.state, left.failureCount;
      breaker.openedAt, breaker.halfOpenCalls := left.openedAt, left.halfOpenCalls;
    }

    /** What the except clauses and the success path tell the breaker. */
    method Report(round: Round)
      modifies breaker
      ensures breaker.Value() == Step(breaker.config, old(breaker.Value()), ReportOf(round))
    {
      match round.answer {
        case Interrupted => breaker.ReleaseProbe();
        case Transient(_) => breaker.RecordFailure(round.reports);
        case Permanent(_) => breaker.RecordSuccess();
        case Response(_) => breaker.RecordSuccess();
      }
    }

    /** From the granted token to the report: `before_call`, the provider call, and its report. */
    method Attempt(round: Round) returns (admitted: bool, ghost acts: seq<Act>)
      requires round.token
      modifies breaker
      ensures admitted == Admitted(breaker.config, round)
      ensures acts == ActsOf(breaker.config, round)
      ensures breaker.Value() == LeftBy(breaker.config, round)
      ensures admitted && (round.answer.Response? || round.answer.Permanent?) ==>
        breaker.state == Closed && breaker.failureCount == 0 && breaker.openedAt == None && breaker.halfOpenCalls == 0
      ensures admitted && round.answer.Transient? ==>
        && breaker.failureCount == round.meanwhile.failureCount + 1
        && (round.meanwhile.state == HalfOpen || breaker.failureCount >= breaker.config.failureThreshold ==>
              breaker.state == Open && breaker.openedAt == Some(round.reports) && breaker.halfOpenCalls == 0)
      ensures admitted && round.answer.Interrupted? ==>
        && breaker.state == round.meanwhile.state && breaker.failureCount == round.meanwhile.failureCount
        && breaker.openedAt == round.meanwhile.openedAt
    {
      hide Admits, Asked;
      Yield(round.before);
      admitted := breaker.BeforeCall(round.asks);
      acts := [Asks(admitted)];
      if admitted {
        Yield(round.meanwhile);
        Report(round);
        acts := acts + [Reports(ReportOf(round))];
      }
    }

    /**
     `complete`. `acts` is what it does to the breaker, `pauses` are its sleeps, `rounds` is the
     number of attempts it begins.
     */
    method Complete(env: Surroundings)
      returns (outcome: Outcome, pauses: seq<real>, ghost acts: seq<Act>, ghost rounds: nat)
      requires ValidRetry(retry)
      modifies breaker
      ensures rounds == LastRound(breaker.config, env, 1, retry.maxAttempts)
      ensures outcome == OutcomeOf(breaker.config, env(rounds))
      ensures acts == ActsUpTo(breaker.config, env, rounds)
      ensures pauses == PausesUpTo(retry, env, rounds - 1)
      ensures breaker.Value() ==
        if env(rounds).token then LeftBy(breaker.config, env(rounds))
        else if rounds == 1 then old(breaker.Value())
        else LeftBy(breaker.config, env(rounds - 1))
    {
      hide Admitted, ActsOf, LeftBy, Delay, Jitter;
      ghost var limits := breaker.config;
      pauses, acts := [], [];
      var lastError := None;
      var attempt := 1;
      while attempt <= retry.maxAttempts
        invariant 1 <= attempt <= retry.maxAttempts
        invariant LastRound(limits, env, 1, retry.maxAttempts) == LastRound(limits, env, attempt, retry.maxAttempts)
        invariant acts == ActsUpTo(limits, env, attempt - 1)
        invariant pauses == PausesUpTo(retry, env, attempt - 1)
        invariant breaker.Value() == if attempt == 1 then old(breaker.Value()) else LeftBy(limits, env(attempt - 1))
      {
        rounds := attempt;
        var round := env(attempt);
        NoTokenNoActs(limits, round);
        if !round.token {
          outcome := NoToken;
          return;
        }
        var admitted, more := Attempt(round);
        acts := acts + more;
        if !admitted {
          outcome := CircuitOpen;
          return;
        }
        match round.answer {
          case Interrupted =>
            outcome := Cancelled;
            return;
          case Transient(error) =>
            lastError := Some(error);
            if attempt >= retry.maxAttempts {
              break;
            }
            var delay := Delay(retry, attempt);
            var jitter := Jitter(retry, delay, round.random);
            pauses := pauses + [delay + jitter];
          case Permanent(error) =>
            outcome := Raised(error);
            return;
          case Response(content) =>
            outcome := Completed(content);
            return;
        }
        assert Retriable(limits, round);
        attempt := attempt + 1;
      }
      outcome := Raised(lastError.value);
    }
  }

  lemma NoTokenNoActs(limits: Limits, r: Round)
    ensures !r.token ==> ActsOf(limits, r) == [] && !Admitted(limits, r)
  {
  }

  // ---------------------------------------------------------------------
  // Attempts and reports
  // ---------------------------------------------------------------------

  /** All rounds before the last one failed transiently, and the last one was not retried. */
  lemma {:induction false} EarlierRoundsFailed(limits: Limits, env: Surroundings, k: nat, n: nat)
    requires 0 < k <= n
    ensures forall j :: k <= j < LastRound(limits, env, k, n) ==> Retriable(limits, env(j))
    ensures LastRound(limits, env, k, n) < n ==> !Retriable(limits, env(LastRound(limits, env, k, n)))
    decreases n - k
  {
    if k < n && Retriable(limits, env(k)) {
      EarlierRoundsFailed(limits, env, k + 1, n);
    }
  }

  function ProviderCalls(acts: seq<Act>): nat {
    if acts == [] then 0
    else ProviderCalls(acts[..|acts| - 1]) + if acts[|acts| - 1] == Asks(true) then 1 else 0
  }

  /** Every admission is followed by exactly one report, and nothing else is reported. */
  predicate Bracketed(acts: seq<Act>) {
    acts == [] ||
    var n := |acts|;
    (acts[n - 1] == Asks(false) && Bracketed(acts[..n - 1]))
    || (acts[n - 1].Reports? && n >= 2 && acts[n - 2] == Asks(true) && Bracketed(acts[..n - 2]))
  }

  lemma AppendRound(acts: seq<Act>, limits: Limits, r: Round)
    requires Bracketed(acts)
    ensures Bracketed(acts + ActsOf(limits, r))
    ensures ProviderCalls(acts + ActsOf(limits, r))
            == ProviderCalls(acts) + if Admitted(limits, r) then 1 else 0
  {
    hide Admits;
    var more := ActsOf(limits, r);
    var all := acts + more;
    if more == [] {
      assert all == acts;
    } else if |more| == 1 {
      assert all[..|all| - 1] == acts;
    } else {
      var front := all[..|all| - 1];
      assert front[..|front| - 1] == acts && all[..|all| - 2] == acts;
      assert front[|front| - 1] == Asks(true);
    }
  }

  /** The reports among the acts. */
  function ReportsIn(acts: seq<Act>): seq<Event> {
    if acts == [] then []
    else
      var last := acts[|acts| - 1];
      ReportsIn(acts[..|acts| - 1]) + if last.Reports? then [last.event] else []
  }

  /** The rounds up to n that got a token and were admitted. */
  function AdmittedRounds(limits: Limits, env: Surroundings, n: nat): seq<nat> {
    if n == 0 then []
    else
      var earlier := AdmittedRounds(limits, env, n - 1);
      if env(n).token && Admits(limits, env(n).before, env(n).asks) then earlier + [n] else earlier
  }

  /** The report a round calls for. */
  predicate Fits(e: Event, r: Round) {
    match r.answer
    case Response(_) => e == Success
    case Permanent(_) => e == Success
    case Transient(_) => e == Failure(r.reports)
    case Interrupted => e == Release
  }

  lemma ReportsAppend(acts: seq<Act>, limits: Limits, r: Round)
    ensures ReportsIn(acts + ActsOf(limits, r))
            == ReportsIn(acts) + if Admitted(limits, r) then [ReportOf(r)] else []
  {
    hide Admits, ReportOf;
    var more := ActsOf(limits, r);
    var all := acts + more;
    if more == [] {
      assert all == acts;
    } else if |more| == 1 {
      assert all[..|all| - 1] == acts;
    } else {
      var front := all[..|all| - 1];
      assert front[..|front| - 1] == acts && front[|front| - 1] == Asks(true);
    }
  }

  /**
   The reports are exactly those of the admitted rounds, in order: a failure at its time for each
   transient error, a success for each answer or permanent error, a release for each interruption.
   */
  lemma {:induction false} ReportsAreAnswers(limits: Limits, env: Surroundings, n: nat)
    ensures var reports, rounds := ReportsIn(ActsUpTo(limits, env, n)), AdmittedRounds(limits, env, n);
      |reports| == |rounds| && forall i :: 0 <= i < |rounds| ==> Fits(reports[i], env(rounds[i]))
  {
    hide Admits;
    if n > 0 {
      ReportsAreAnswers(limits, env, n - 1);
      ReportsAppend(ActsUpTo(limits, env, n - 1), limits, env(n));
    }
  }

  /** Exactly when the call ends in which way. */
  lemma OutcomeExact(limits: Limits, r: Round)
    ensures var o, admitted := OutcomeOf(limits, r), r.token && Admits(limits, r.before, r.asks);
      && (o == NoToken <==> !r.token)
      && (o == CircuitOpen <==> r.token && !Admits(limits, r.before, r.asks))
      && (o == Cancelled <==> admitted && r.answer.Interrupted?)
      && (forall content :: o == Completed(content) <==> admitted && r.answer == Response(content))
      && (forall error :: o == Raised(error)
            <==> admitted && (r.answer == Transient(error) || r.answer == Permanent(error)))
  {
    hide Admits;
  }

  /** The kind of an answer among many concurrent calls. */
  function KindOf(a: Answer): R.Report {
    match a
    case Response(_) => R.Answered
    case Transient(_) => R.TransientError
    case Permanent(_) => R.PermanentError
    case Interrupted => R.Interrupted
  }

  /** The loop reports and retries as the calls of module Resilience do. */
  lemma SameReports(s: R.System, r: Round, attempt: nat)
    requires r.meanwhile == s.breaker
    ensures R.BreakerAfter(s, KindOf(r.answer), r.reports) == Step(s.limits, r.meanwhile, ReportOf(r))
    ensures Admitted(s.limits, r) ==>
      (R.AfterReport(s, attempt, KindOf(r.answer)).Asking? <==> attempt < s.maxAttempts && Retriable(s.limits, r))
  {
    hide Admits, Struck, Released;
  }

  /** One call makes at most one provider call per round, each admission reported exactly once. */
  lemma {:induction false} OneReportPerAttempt(limits: Limits, env: Surroundings, n: nat)
    ensures Bracketed(ActsUpTo(limits, env, n))
    ensures ProviderCalls(ActsUpTo(limits, env, n)) <= n
    ensures (forall k :: 1 <= k <= n ==> Admitted(limits, env(k))) ==>
      ProviderCalls(ActsUpTo(limits, env, n)) == n
  {
    hide Admits;
    if n > 0 {
      OneReportPerAttempt(limits, env, n - 1);
      AppendRound(ActsUpTo(limits, env, n - 1), limits, env(n));
    }
  }

  /**
   `complete` makes at most `max_attempts` provider calls, and exactly as many as it has rounds
   unless the last one got no token or was turned away.
   */
  lemma AttemptsExact(limits: Limits, env: Surroundings, n: nat)
    requires n > 0
    ensures var last := LastRound(limits, env, 1, n);
      && Bracketed(ActsUpTo(limits, env, last))
      && ProviderCalls(ActsUpTo(limits, env, last)) == (if Admitted(limits, env(last)) then last else last - 1)
      && last <= n
  {
    hide Admits, ActsOf;
    var last := LastRound(limits, env, 1, n);
    EarlierRoundsFailed(limits, env, 1, n);
    OneReportPerAttempt(limits, env, last - 1);
    AppendRound(ActsUpTo(limits, env, last - 1), limits, env(last));
  }

  /** The error raised after the loop is set, and is raised exactly when every attempt failed transiently. */
  lemma ExhaustedExactly(limits: Limits, env: Surroundings, n: nat)
    requires n > 0
    ensures var last := LastRound(limits, env, 1, n);
      Retriable(limits, env(last)) <==> forall k :: 1 <= k <= n ==> Retriable(limits, env(k))
    ensures var last := LastRound(limits, env, 1, n);
      Retriable(limits, env(last)) ==> last == n && OutcomeOf(limits, env(last)) == Raised(env(n).answer.error)
  {
    hide Admits;
    EarlierRoundsFailed(limits, env, 1, n);
  }

  // ---------------------------------------------------------------------
  // Backoff
  // ---------------------------------------------------------------------

  function Total(s: seq<real>): real {
    if s == [] then 0.0 else Total(s[..|s| - 1]) + s[|s| - 1]
  }

  lemma Distribute(x: real, a: real, b: real)
    ensures x * (a + b) == x * a + x * b
  {
  }

  lemma Scale(x: real, a: real, b: real)
    requires x >= 0.0 && a <= b
    ensures x * a <= x * b
  {
    assert x * (b - a) >= 0.0;
  }

  lemma BackoffDoubles(base: real, k: nat)
    requires base >= 0.0 && k > 0
    ensures Backoff(base, k) >= 0.0
    ensures Backoff(base, k + 1) == Backoff(base, k) + Backoff(base, k)
  {
    PowerDoubles(k);
    ScaledPowers(base, Power(k - 1) as real, Power(k) as real);
  }

  lemma PowerDoubles(k: nat)
    requires k > 0
    ensures Power(k) as real == Power(k - 1) as real + Power(k - 1) as real
  {
  }

  lemma ScaledPowers(base: real, p: real, q: real)
    requires base >= 0.0 && p >= 0.0 && q == p + p
    ensures base * p >= 0.0 && base * q == base * p + base * p
  {
    Scale(base, 0.0, p);
    Distribute(base, p, p);
  }

  /** Delays do not decrease. */
  lemma DelaysGrow(c: RetryConfig, k: nat)
    requires ValidRetry(c) && k > 0
    ensures 0.0 <= Delay(c, k) <= Delay(c, k + 1) <= c.maxDelay
    ensures Delay(c, k) <= Backoff(c.baseDelay, k)
  {
    hide Backoff;
    BackoffDoubles(c.baseDelay, k);
  }

  /** The delays by recursion: the base first, then twice the one before, never above the cap. */
  lemma DelaysDouble(c: RetryConfig, k: nat)
    requires ValidRetry(c) && k > 0
    ensures Delay(c, 1) == c.baseDelay
    ensures Delay(c, k + 1) == MinReal(c.maxDelay, Delay(c, k) + Delay(c, k))
  {
    hide Backoff;
    FirstBackoff(c.baseDelay);
    BackoffDoubles(c.baseDelay, k);
  }

  lemma FirstBackoff(base: real)
    ensures Backoff(base, 1) == base
  {
  }

  lemma ShareBounded(y: real, t: real)
    requires y >= 0.0 && 0.0 <= t <= 1.0
    ensures 0.0 <= Share(y, t) <= y
  {
    Scale(y, 0.0, t);
    Scale(y, t, 1.0);
  }

  /** Jitter is the random share of the delay's jitter ratio. */
  lemma JitterExact(c: RetryConfig, delay: real, random: real)
    ensures Jitter(c, delay, random) == random * (c.jitterRatio * delay)
  {
    SwapFactors(delay, c.jitterRatio, random);
  }

  lemma SwapFactors(a: real, b: real, t: real)
    ensures Share(Share(a, b), t) == t * (b * a)
  {
    assert Share(a, b) == b * a;
  }

  /** Every sleep: the delay of its attempt and the jitter of its round. */
  lemma {:induction false} PausesExact(c: RetryConfig, env: Surroundings, n: nat)
    ensures |PausesUpTo(c, env, n)| == n
    ensures forall k: nat :: 0 < k <= n ==>
      PausesUpTo(c, env, n)[k - 1] == Delay(c, k) + env(k).random * (c.jitterRatio * Delay(c, k))
  {
    hide Delay, Jitter;
    if n > 0 {
      PausesExact(c, env, n - 1);
      JitterExact(c, Delay(c, n), env(n).random);
    }
  }

  lemma JitterBounded(c: RetryConfig, delay: real, random: real)
    requires ValidRetry(c) && delay >= 0.0 && 0.0 <= random < 1.0
    ensures 0.0 <= Jitter(c, delay, random) <= Share(delay, c.jitterRatio)
  {
    hide Share;
    ShareBounded(delay, c.jitterRatio);
    ShareBounded(Share(delay, c.jitterRatio), random);
  }

  lemma StretchedAdds(c: RetryConfig, sum: real, d: real)
    ensures Stretched(c, sum + d) == Stretched(c, sum) + d + Share(d, c.jitterRatio)
  {
    Distribute(1.0 + c.jitterRatio, sum, d);
    OneAndShare(c.jitterRatio, d);
  }

  lemma OneAndShare(ratio: real, d: real)
    ensures (1.0 + ratio) * d == d + Share(d, ratio)
  {
  }

  lemma NothingStretched(c: RetryConfig)
    ensures Stretched(c, 0.0) == 0.0
  {
  }

  lemma StretchedGrows(c: RetryConfig, a: real, b: real)
    requires ValidRetry(c) && a <= b
    ensures Stretched(c, a) <= Stretched(c, b)
  {
    Scale(1.0 + c.jitterRatio, a, b);
  }

  lemma CappedStep(cap: real, n: nat)
    requires n > 0
    ensures n as real * cap == (n - 1) as real * cap + cap
  {
  }

  function DelaySum(c: RetryConfig, n: nat): real {
    if n == 0 then 0.0 else DelaySum(c, n - 1) + Delay(c, n)
  }

  lemma PowerZero()
    ensures Power(0) == 1
  {
  }

  lemma GeometricStep(base: real, n: nat)
    requires n > 0
    ensures base * (Power(n) - 1) as real == base * (Power(n - 1) - 1) as real + Backoff(base, n)
  {
    var p := Power(n - 1) as real;
    assert (Power(n) - 1) as real == (p - 1.0) + p;
    Distribute(base, p - 1.0, p);
  }

  /** The two bounds on the un-jittered delays: the cap, and the geometric sum. */
  lemma {:induction false} DelaySumBounded(c: RetryConfig, n: nat)
    requires ValidRetry(c)
    ensures 0.0 <= DelaySum(c, n) <= n as real * c.maxDelay
    ensures DelaySum(c, n) <= c.baseDelay * (Power(n) - 1) as real
  {
    hide Delay, Backoff, Power;
    if n == 0 {
      assert Power(n) == 1 by {
        PowerZero();
      }
    } else {
      DelaySumBounded(c, n - 1);
      DelaysGrow(c, n);
      GeometricStep(c.baseDelay, n);
      CappedStep(c.maxDelay, n);
    }
  }

  lemma {:induction false} PausesBounded(c: RetryConfig, env: Surroundings, n: nat)
    requires ValidRetry(c) && Fair(env)
    ensures DelaySum(c, n) <= Total(PausesUpTo(c, env, n)) <= Stretched(c, DelaySum(c, n))
  {
    hide Delay, Jitter, Backoff, Share, Stretched;
    if n == 0 {
      NothingStretched(c);
    } else {
      PausesBounded(c, env, n - 1);
      DelaysGrow(c, n);
      JitterBounded(c, Delay(c, n), env(n).random);
      var before := PausesUpTo(c, env, n - 1);
      assert (before + [Pause(c, env, n)])[..|before|] == before;
      StretchedAdds(c, DelaySum(c, n - 1), Delay(c, n));
    }
  }

  /** The smaller of the capped and the geometric bound on n delays. */
  function DelayLimit(c: RetryConfig, n: nat): real {
    MinReal(n as real * c.maxDelay, c.baseDelay * (Power(n) - 1) as real)
  }

  /** All sleeps of one call together. */
  lemma SleepBounded(c: RetryConfig, limits: Limits, env: Surroundings)
    requires ValidRetry(c) && Fair(env)
    ensures Total(PausesUpTo(c, env, LastRound(limits, env, 1, c.maxAttempts) - 1))
            <= Stretched(c, DelayLimit(c, c.maxAttempts - 1))
  {
    hide Delay, Power, DelaySum, PausesUpTo, Total, LastRound, DelayLimit, Stretched;
    var n, m := c.maxAttempts - 1, LastRound(limits, env, 1, c.maxAttempts) - 1;
    PausesBounded(c, env, m);
    DelaySumGrows(c, m, n);
    DelaySumLimited(c, n);
    StretchedGrows(c, DelaySum(c, m), DelayLimit(c, n));
  }

  lemma DelaySumLimited(c: RetryConfig, n: nat)
    requires ValidRetry(c)
    ensures DelaySum(c, n) <= DelayLimit(c, n)
  {
    hide Delay, Power, DelaySum;
    DelaySumBounded(c, n);
  }

  lemma {:induction false} DelaySumGrows(c: RetryConfig, m: nat, n: nat)
    requires ValidRetry(c) && m <= n
    ensures DelaySum(c, m) <= DelaySum(c, n)
  {
    if m < n {
      DelaySumGrows(c, m, n - 1);
      DelaysGrow(c, n);
    }
  }
}
