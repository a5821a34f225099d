/**
 Any number of concurrent `ResilientLLMClient.complete` calls over one token bucket and one
 circuit breaker (llm/resilience.py).

 From a granted poll to the start of the provider call nothing suspends, so polling, asking the
 breaker and starting the attempt are one step. Attempts are tagged with the half-open epoch
 they probe, so reports that come back in a later breaker state are represented.
 */
module Resilience {
  import opened Common
  import opened TokenBuckets
  import B = CircuitBreakers

  /** A call asks for a token, has an attempt at the provider, or is over. */
  datatype Phase = Asking(attempt: nat) | InFlight(attempt: nat, probe: Option<nat>) | Over

  /**
   `epoch` numbers the half-open periods. `surplus` is the number of probe places of the current one
   that were freed by attempts that did not take them. The ledger counts provider calls and how they
   were reported.
   */
  datatype System = System(
    limits: B.Limits, maxAttempts: nat, bucket: Bucket, breaker: B.Breaker, calls: seq<Phase>,
    epoch: nat, surplus: int, ledger: Ledger)

  datatype Ledger = Ledger(attempts: nat, successes: nat, failures: nat, releases: nat)

  function Init(limits: B.Limits, maxAttempts: nat, capacity: real, rate: real, now: real): System {
    System(limits, maxAttempts, Full(capacity, rate, now), B.FRESH, [], 0, 0, Ledger(0, 0, 0, 0))
  }

  /** The provider's answer; a permanent error counts as a success of the provider. */
  datatype Report = Answered | TransientError | PermanentError | Interrupted

  datatype Action =
    | Arrive
    | Try(call: nat, now: real)
    | Back(call: nat, report: Report, now: real)
    | GiveUp(call: nat)

  predicate Enabled(s: System, a: Action) {
    match a
    case Arrive => true
    case Try(i, _) => i < |s.calls| && s.calls[i].Asking?
    case Back(i, _, _) => i < |s.calls| && s.calls[i].InFlight?
    case GiveUp(i) => i < |s.calls| && s.calls[i].Asking?
  }

  /** The probe tag of an attempt admitted at `now`, and the epoch it belongs to. */
  function Epoch(s: System, now: real): nat {
    if s.breaker.state == B.Open && B.Recovered(s.limits, s.breaker, now) then s.epoch + 1 else s.epoch
  }

  function Tag(s: System, now: real): Option<nat> {
    if B.Asked(s.limits, s.breaker, now).state == B.HalfOpen then Some(Epoch(s, now)) else None
  }

  /** A new period starts without a surplus. */
  function Surplus(s: System, now: real): int {
    if s.breaker.state == B.Open && B.Recovered(s.limits, s.breaker, now) then 0 else s.surplus
  }

  /** A poll of the bucket for one token and, if it is granted, `before_call` and the provider call. */
  function Tried(s: System, i: nat, now: real): System
    requires Enabled(s, Try(i, now))
  {
    var (bucket, granted) := Polled(s.bucket, 1.0, now);
    if !granted then s.(bucket := bucket)
    else
      var admitted := B.Admits(s.limits, s.breaker, now);
      s.(bucket := bucket,
         breaker := B.Asked(s.limits, s.breaker, now),
         epoch := Epoch(s, now),
         surplus := Surplus(s, now),
         calls := s.calls[i := if admitted then InFlight(s.calls[i].attempt, Tag(s, now)) else Over],
         ledger := if admitted then s.ledger.(attempts := s.ledger.attempts + 1) else s.ledger)
  }

  function AfterReport(s: System, attempt: nat, report: Report): Phase {
    if report == TransientError && attempt < s.maxAttempts then Asking(attempt + 1) else Over
  }

  function BreakerAfter(s: System, report: Report, now: real): B.Breaker {
    match report
    case Answered => B.Healed(s.breaker)
    case PermanentError => B.Healed(s.breaker)
    case TransientError => B.Struck(s.limits, s.breaker, now)
    case Interrupted => B.Released(s.breaker)
  }

  function Noted(l: Ledger, report: Report): Ledger {
    match report
    case TransientError => l.(failures := l.failures + 1)
    case Interrupted => l.(releases := l.releases + 1)
    case _ => l.(successes := l.successes + 1)
  }

  /** A cancelled attempt from an older breaker state frees a probe place it did not take. */
  predicate FreesStray(s: System, i: nat, report: Report) {
    && i < |s.calls| && s.calls[i].InFlight? && report == Interrupted
    && s.breaker.state == B.HalfOpen && s.breaker.halfOpenCalls > 0 && s.calls[i].probe != Some(s.epoch)
  }

  /** A cancelled probe finds its place already freed by such an attempt. */
  predicate FreedBefore(s: System, i: nat, report: Report) {
    && i < |s.calls| && s.calls[i].InFlight? && report == Interrupted
    && s.breaker.state == B.HalfOpen && s.breaker.halfOpenCalls == 0 && s.calls[i].probe == Some(s.epoch)
  }

  /** The provider call is over; the breaker is told, exactly once. */
  function Returned(s: System, i: nat, report: Report, now: real): System
    requires Enabled(s, Back(i, report, now))
  {
    s.(breaker := BreakerAfter(s, report, now),
       calls := s.calls[i := AfterReport(s, s.calls[i].attempt, report)],
       surplus := if FreesStray(s, i, report) then s.surplus + 1
                  else if FreedBefore(s, i, report) then s.surplus - 1
                  else s.surplus,
       ledger := Noted(s.ledger, report))
  }

  /** An action that is not enabled changes nothing. */
  function Next(s: System, a: Action): System {
    if !Enabled(s, a) then s
    else
      match a
      case Arrive => s.(calls := s.calls + [Asking(1)])
      case Try(i, now) => Tried(s, i, now)
      case Back(i, report, now) => Returned(s, i, report, now)
      case GiveUp(i) => s.(calls := s.calls[i := Over])
  }

  function After(s: System, h: seq<Action>): System {
    if h == [] then s else Next(After(s, h[..|h| - 1]), h[|h| - 1])
  }

  // ---------------------------------------------------------------------
  // What one action does
  // ---------------------------------------------------------------------

  /**
   A poll without a token changes the bucket only. With a token the call is in flight exactly when the
   breaker admits it, and over otherwise; no other call is touched.
   */
  lemma TryDecides(s: System, i: nat, now: real)
    requires Enabled(s, Try(i, now))
    ensures var r, token := Next(s, Try(i, now)), Polled(s.bucket, 1.0, now).1;
      && r.bucket == Polled(s.bucket, 1.0, now).0 && |r.calls| == |s.calls|
      && (forall k :: 0 <= k < |s.calls| && k != i ==> r.calls[k] == s.calls[k])
      && (!token ==> r == s.(bucket := r.bucket))
      && (token ==> r.breaker == B.Step(s.limits, s.breaker, B.Call(now)))
      && (r.calls[i].InFlight? <==> token && B.Admits(s.limits, s.breaker, now))
      && (r.calls[i].Over? <==> token && !B.Admits(s.limits, s.breaker, now))
      && (r.calls[i].InFlight? ==> r.calls[i].attempt == s.calls[i].attempt)
      && (r.calls[i].InFlight? ==> (r.calls[i].probe.Some? <==> r.breaker.state == B.HalfOpen))
      && r.ledger.attempts == s.ledger.attempts + if r.calls[i].InFlight? then 1 else 0
  {
    hide Polled;
  }

  /**
   What a report does: an answer or a permanent error closes the breaker and forgets the failures, a
   transient error counts one and opens a half-open breaker or one at its threshold, an interruption
   frees a probe place at most. Only a transient error with attempts left is tried again.
   */
  lemma ReportEffect(s: System, i: nat, report: Report, now: real)
    requires Enabled(s, Back(i, report, now))
    ensures var r, b := Next(s, Back(i, report, now)), s.breaker;
      && r.bucket == s.bucket && |r.calls| == |s.calls|
      && (forall k :: 0 <= k < |s.calls| && k != i ==> r.calls[k] == s.calls[k])
      && (r.calls[i] == Asking(s.calls[i].attempt + 1)
          <==> report == TransientError && s.calls[i].attempt < s.maxAttempts)
      && (r.calls[i] == Over <==> !(report == TransientError && s.calls[i].attempt < s.maxAttempts))
      && match report
         case Answered => r.breaker == B.Breaker(B.Closed, 0, None, 0) && r.ledger.successes == s.ledger.successes + 1
         case PermanentError =>
           r.breaker == B.Breaker(B.Closed, 0, None, 0) && r.ledger.successes == s.ledger.successes + 1
         case TransientError =>
           && r.ledger.failures == s.ledger.failures + 1
           && r.breaker.failureCount == b.failureCount + 1
           && (b.state == B.HalfOpen || b.failureCount + 1 >= s.limits.failureThreshold ==>
                 r.breaker.state == B.Open && r.breaker.openedAt == Some(now) && r.breaker.halfOpenCalls == 0)
           && (!(b.state == B.HalfOpen || b.failureCount + 1 >= s.limits.failureThreshold) ==>
                 r.breaker == b.(failureCount := b.failureCount + 1))
         case Interrupted =>
           && r.ledger.releases == s.ledger.releases + 1
           && r.breaker.state == b.state && r.breaker.failureCount == b.failureCount
           && r.breaker.openedAt == b.openedAt
           && r.breaker.halfOpenCalls
              == if b.state == B.HalfOpen && b.halfOpenCalls > 0 then b.halfOpenCalls - 1 else b.halfOpenCalls
  {
  }

  // ---------------------------------------------------------------------
  // Invariant
  // ---------------------------------------------------------------------

  function IsFlying(p: Phase): int {
    if p.InFlight? then 1 else 0
  }

  function IsProbe(epoch: nat): Phase -> int {
    (p: Phase) => if p.InFlight? && p.probe == Some(epoch) then 1 else 0
  }

  /** Attempts in flight that probe the current half-open period. */
  function Probes(s: System): int {
    SumOf(s.calls, IsProbe(s.epoch))
  }

  predicate Possibly(p: Phase, epoch: nat, maxAttempts: nat) {
    match p
    case Asking(attempt) => 1 <= attempt <= maxAttempts
    case InFlight(attempt, probe) => 1 <= attempt <= maxAttempts && (probe.Some? ==> probe.value <= epoch)
    case Over => true
  }

  predicate WellTagged(s: System) {
    forall i :: 0 <= i < |s.calls| ==> Possibly(s.calls[i], s.epoch, s.maxAttempts)
  }

  /** The probes in flight are the breaker's counter and the surplus, exactly. */
  predicate ProbesCounted(s: System) {
    if s.breaker.state == B.HalfOpen then
      && Probes(s) == s.breaker.halfOpenCalls + s.surplus && s.surplus >= 0
      && s.breaker.halfOpenCalls <= s.limits.halfOpenMaxCalls
    else s.breaker.halfOpenCalls == 0
  }

  predicate Balanced(s: System) {
    s.ledger.attempts == s.ledger.successes + s.ledger.failures + s.ledger.releases + SumOf(s.calls, IsFlying)
  }

  predicate Inv(s: System) {
    B.ValidLimits(s.limits) && s.maxAttempts > 0 && WellTagged(s) && ProbesCounted(s) && Balanced(s)
  }

  lemma InitInv(limits: B.Limits, maxAttempts: nat, capacity: real, rate: real, now: real)
    requires B.ValidLimits(limits) && maxAttempts > 0
    ensures Inv(Init(limits, maxAttempts, capacity, rate, now))
  {
  }

  lemma {:induction false} NewEpochHasNoProbes(calls: seq<Phase>, epoch: nat, maxAttempts: nat)
    requires forall i :: 0 <= i < |calls| ==> Possibly(calls[i], epoch, maxAttempts)
    ensures SumOf(calls, IsProbe(epoch + 1)) == 0
  {
    SumOfZero(calls, IsProbe(epoch + 1));
  }

  lemma ArriveKeepsInv(s: System)
    requires Inv(s)
    ensures Inv(Next(s, Arrive))
  {
    SumOfAppend(s.calls, Asking(1), IsFlying);
    SumOfAppend(s.calls, Asking(1), IsProbe(s.epoch));
  }

  lemma GiveUpKeepsInv(s: System, i: nat)
    requires Inv(s) && Enabled(s, GiveUp(i))
    ensures Inv(Next(s, GiveUp(i)))
  {
    SumOfUpdate(s.calls, i, Over, IsFlying);
    SumOfUpdate(s.calls, i, Over, IsProbe(s.epoch));
  }

  lemma TryKeepsInv(s: System, i: nat, now: real)
    requires Inv(s) && Enabled(s, Try(i, now))
    ensures Inv(Next(s, Try(i, now)))
  {
    hide Polled;
    var phase := Tried(s, i, now).calls[i];
    SumOfUpdate(s.calls, i, phase, IsFlying);
    SumOfUpdate(s.calls, i, phase, IsProbe(s.epoch));
    SumOfUpdate(s.calls, i, phase, IsProbe(s.epoch + 1));
    NewEpochHasNoProbes(s.calls, s.epoch, s.maxAttempts);
  }

  lemma BackKeepsInv(s: System, i: nat, report: Report, now: real)
    requires Inv(s) && Enabled(s, Back(i, report, now))
    ensures Inv(Next(s, Back(i, report, now)))
  {
    SumOfAtLeast(s.calls, IsProbe(s.epoch), i);
    var phase := Returned(s, i, report, now).calls[i];
    SumOfUpdate(s.calls, i, phase, IsFlying);
    SumOfUpdate(s.calls, i, phase, IsProbe(s.epoch));
  }

  lemma {:induction false} AfterKeepsInv(s: System, h: seq<Action>)
    requires Inv(s)
    ensures Inv(After(s, h))
  {
    hide Inv;
    if h != [] {
      AfterKeepsInv(s, h[..|h| - 1]);
      var m, a := After(s, h[..|h| - 1]), h[|h| - 1];
      if Enabled(m, a) {
        match a {
          case Arrive => ArriveKeepsInv(m);
          case Try(i, now) => TryKeepsInv(m, i, now);
          case Back(i, report, now) => BackKeepsInv(m, i, report, now);
          case GiveUp(i) => GiveUpKeepsInv(m, i);
        }
      }
    }
  }

  // ---------------------------------------------------------------------
  // The breaker never wedges
  // ---------------------------------------------------------------------

  ghost predicate ProbeInFlight(s: System, i: nat) {
    i < |s.calls| && s.calls[i].InFlight? && s.calls[i].probe == Some(s.epoch)
  }

  lemma {:induction false} SomeProbe(calls: seq<Phase>, epoch: nat) returns (i: nat)
    requires SumOf(calls, IsProbe(epoch)) > 0
    ensures i < |calls| && calls[i].InFlight? && calls[i].probe == Some(epoch)
  {
    var n := |calls| - 1;
    if IsProbe(epoch)(calls[n]) > 0 {
      i := n;
    } else {
      i := SomeProbe(calls[..n], epoch);
    }
  }

  /** The breaker is open and its recovery timeout is not over. */
  predicate CoolingDown(s: System, now: real) {
    s.breaker.state == B.Open && !B.Recovered(s.limits, s.breaker, now)
  }

  /**
   Whenever the breaker turns a call away it is cooling down, or a probe of the current period is
   in flight. Any report of that probe makes room: the next call is admitted at once, or after a
   transient error as soon as the recovery timeout is over.
   */
  lemma NeverWedged(s: System, now: real)
    requires Inv(s) && !B.Admits(s.limits, s.breaker, now) && !CoolingDown(s, now)
    ensures s.breaker.state == B.HalfOpen
    ensures exists i: nat :: ProbeInFlight(s, i)
    ensures forall i: nat, report, at: real, later: real ::
      && ProbeInFlight(s, i)
      && (report == TransientError ==> later >= at + s.limits.recoveryTimeout)
      ==> B.Admits(s.limits, Returned(s, i, report, at).breaker, later)
  {
    var i := SomeProbe(s.calls, s.epoch);
    assert ProbeInFlight(s, i);
  }

  /** With nothing in flight the breaker turns calls away only while it cools down. */
  lemma IdleBreakerAdmits(s: System, now: real)
    requires Inv(s) && forall i :: 0 <= i < |s.calls| ==> !s.calls[i].InFlight?
    ensures B.Admits(s.limits, s.breaker, now) <==> !CoolingDown(s, now)
  {
    if !B.Admits(s.limits, s.breaker, now) && !CoolingDown(s, now) {
      NeverWedged(s, now);
    }
  }

  /**
   In every reachable half-open state the probes in flight are the breaker's counter and the surplus.
   So they exceed `half_open_max_calls` exactly when the surplus is larger than the places still free.
   */
  lemma ProbesExact(s: System, h: seq<Action>)
    requires Inv(s) && After(s, h).breaker.state == B.HalfOpen
    ensures var r := After(s, h);
      && Probes(r) == r.breaker.halfOpenCalls + r.surplus
      && 0 <= r.surplus
      && r.breaker.halfOpenCalls <= r.limits.halfOpenMaxCalls
      && (Probes(r) > r.limits.halfOpenMaxCalls
          <==> r.surplus > r.limits.halfOpenMaxCalls - r.breaker.halfOpenCalls)
  {
    AfterKeepsInv(s, h);
  }

  predicate WithinLimit(s: System) {
    s.breaker.state == B.HalfOpen ==> Probes(s) <= s.limits.halfOpenMaxCalls
  }

  /** The call is admitted as a probe although counter and surplus together fill all places. */
  predicate Overfills(s: System, a: Action) {
    StartsCall(s, a) && s.breaker.state == B.HalfOpen
    && s.breaker.halfOpenCalls + s.surplus >= s.limits.halfOpenMaxCalls
  }

  /** One action takes the probes over the limit exactly when it is such an admission. */
  lemma LimitBrokenExactly(s: System, a: Action)
    requires Inv(s) && WithinLimit(s)
    ensures !WithinLimit(Next(s, a)) <==> Overfills(s, a)
  {
    hide Polled;
    if Enabled(s, a) {
      match a {
        case Arrive => ArriveKeepsInv(s);
        case Try(i, now) => TryKeepsInv(s, i, now);
        case Back(i, report, now) => BackKeepsInv(s, i, report, now);
        case GiveUp(i) => GiveUpKeepsInv(s, i);
      }
    }
  }

  /** The system after the first i actions. */
  function At(s: System, h: seq<Action>, i: nat): System
    requires i <= |h|
  {
    After(s, h[..i])
  }

  /** Over a whole history the limit holds throughout exactly when no action overfills it. */
  lemma {:induction false} LimitHoldsExactly(s: System, h: seq<Action>)
    requires Inv(s) && WithinLimit(s)
    ensures (forall i: nat :: i <= |h| ==> WithinLimit(At(s, h, i)))
            <==> (forall i: nat :: i < |h| ==> !Overfills(At(s, h, i), h[i]))
  {
    hide Inv, WithinLimit, Overfills, Next;
    forall i: nat | i < |h| && WithinLimit(At(s, h, i))
      ensures !WithinLimit(At(s, h, i + 1)) <==> Overfills(At(s, h, i), h[i])
    {
      assert h[..i + 1][..i] == h[..i];
      AfterKeepsInv(s, h[..i]);
      LimitBrokenExactly(At(s, h, i), h[i]);
    }
    if forall i: nat :: i < |h| ==> !Overfills(At(s, h, i), h[i]) {
      forall i: nat | i <= |h| ensures WithinLimit(At(s, h, i)) {
        WithinUpTo(s, h, i);
      }
    } else {
      var i: nat :| i < |h| && Overfills(At(s, h, i), h[i]);
      assert !WithinLimit(At(s, h, i)) || !WithinLimit(At(s, h, i + 1));
    }
  }

  lemma {:induction false} WithinUpTo(s: System, h: seq<Action>, n: nat)
    requires n <= |h| && WithinLimit(s)
    requires forall i: nat :: i < |h| && WithinLimit(At(s, h, i)) ==> WithinLimit(At(s, h, i + 1))
    ensures WithinLimit(At(s, h, n))
  {
    hide WithinLimit, Next;
    if n > 0 {
      WithinUpTo(s, h, n - 1);
    } else {
      assert h[..0] == [];
    }
  }

  predicate NoSurplus(s: System) {
    s.breaker.state == B.HalfOpen ==> s.surplus == 0
  }

  lemma NoSurplusStep(s: System, a: Action)
    requires Inv(s) && NoSurplus(s)
    requires a.Back? ==> !FreesStray(s, a.call, a.report)
    ensures NoSurplus(Next(s, a))
  {
    hide Polled;
    if a.Back? && Enabled(s, a) {
      SumOfAtLeast(s.calls, IsProbe(s.epoch), a.call);
    }
  }

  /**
   A surplus comes only from a cancelled attempt that freed a place it had not taken; without one
   the counter is exact.
   */
  lemma {:induction false} SurplusNeedsStray(s: System, h: seq<Action>)
    requires Inv(s) && NoSurplus(s)
    requires forall i: nat :: i < |h| && h[i].Back? ==> !FreesStray(At(s, h, i), h[i].call, h[i].report)
    ensures NoSurplus(After(s, h))
    ensures After(s, h).breaker.state == B.HalfOpen ==> Probes(After(s, h)) == After(s, h).breaker.halfOpenCalls
  {
    hide Next, FreesStray;
    AfterKeepsInv(s, h);
    if h != [] {
      var n := |h| - 1;
      forall i: nat | i < n ensures At(s, h[..n], i) == At(s, h, i) && h[..n][i] == h[i] {
        assert h[..n][..i] == h[..i];
      }
      SurplusNeedsStray(s, h[..n]);
      AfterKeepsInv(s, h[..n]);
      assert At(s, h, n) == After(s, h[..n]);
      NoSurplusStep(After(s, h[..n]), h[n]);
    }
  }

  // A run in which a stray cancellation frees the place of a probe it did not take.

  const STRICT := B.Limits(1, 0.0, 1)

  ghost predicate Looks(s: System, breaker: B.Breaker, calls: seq<Phase>, epoch: nat, tokens: real) {
    && s.limits == STRICT && s.maxAttempts == 2 && s.breaker == breaker && s.calls == calls && s.epoch == epoch
    && s.bucket == Bucket(9.0, 1.0, tokens, 0.0)
  }

  lemma OneMore(s: System, h: seq<Action>, a: Action)
    ensures After(s, h + [a]) == Next(After(s, h), a)
  {
    assert (h + [a])[..|h|] == h;
  }

  lemma TryStep(s: System, breaker: B.Breaker, calls: seq<Phase>, epoch: nat, tokens: real, i: nat)
    requires Looks(s, breaker, calls, epoch, tokens) && 1.0 <= tokens <= 9.0
    requires i < |calls| && calls[i].Asking? && B.Admits(STRICT, breaker, 0.0)
    ensures Looks(Next(s, Try(i, 0.0)), B.Asked(STRICT, breaker, 0.0),
                  calls[i := InFlight(calls[i].attempt, Tag(s, 0.0))], Epoch(s, 0.0), tokens - 1.0)
  {
  }

  lemma BackStep(s: System, breaker: B.Breaker, calls: seq<Phase>, epoch: nat, tokens: real, i: nat, report: Report)
    requires Looks(s, breaker, calls, epoch, tokens) && i < |calls| && calls[i].InFlight?
    ensures Looks(Next(s, Back(i, report, 0.0)), BreakerAfter(s, report, 0.0),
                  calls[i := AfterReport(s, calls[i].attempt, report)], epoch, tokens)
  {
  }

  lemma ThreeCallsInFlight() returns (h: seq<Action>)
    ensures Looks(After(Init(STRICT, 2, 9.0, 1.0, 0.0), h), B.FRESH,
                  [InFlight(1, None), InFlight(1, None), Asking(1)], 0, 7.0)
  {
    var s := Init(STRICT, 2, 9.0, 1.0, 0.0);
    h := [];
    OneMore(s, h, Arrive);
    h := h + [Arrive];
    OneMore(s, h, Arrive);
    h := h + [Arrive];
    OneMore(s, h, Arrive);
    h := h + [Arrive];
    var calls := [Asking(1), Asking(1), Asking(1)];
    assert After(s, h).calls == calls;
    TryStep(After(s, h), B.FRESH, calls, 0, 9.0, 0);
    OneMore(s, h, Try(0, 0.0));
    h := h + [Try(0, 0.0)];
    calls := [InFlight(1, None), Asking(1), Asking(1)];
    assert After(s, h).calls == calls;
    TryStep(After(s, h), B.FRESH, calls, 0, 8.0, 1);
    OneMore(s, h, Try(1, 0.0));
    h := h + [Try(1, 0.0)];
    assert After(s, h).calls == [InFlight(1, None), InFlight(1, None), Asking(1)];
  }

  lemma ProbeAndStray() returns (h: seq<Action>)
    ensures Looks(After(Init(STRICT, 2, 9.0, 1.0, 0.0), h), B.Breaker(B.HalfOpen, 1, Some(0.0), 1),
                  [InFlight(2, Some(1)), InFlight(1, None), Asking(1)], 1, 6.0)
  {
    var s := Init(STRICT, 2, 9.0, 1.0, 0.0);
    h := ThreeCallsInFlight();
    BackStep(After(s, h), B.FRESH, [InFlight(1, None), InFlight(1, None), Asking(1)], 0, 7.0, 0, TransientError);
    OneMore(s, h, Back(0, TransientError, 0.0));
    h := h + [Back(0, TransientError, 0.0)];
    var calls := [Asking(2), InFlight(1, None), Asking(1)];
    assert After(s, h).calls == calls;
    TryStep(After(s, h), B.Breaker(B.Open, 1, Some(0.0), 0), calls, 0, 7.0, 0);
    OneMore(s, h, Try(0, 0.0));
    h := h + [Try(0, 0.0)];
    assert After(s, h).calls == [InFlight(2, Some(1)), InFlight(1, None), Asking(1)];
  }

  lemma TwoProbes()
    ensures SumOf([InFlight(2, Some(1)), Over, InFlight(1, Some(1))], IsProbe(1)) == 2
  {
    var first, last := InFlight(2, Some(1)), InFlight(1, Some(1));
    SumOfAppend([], first, IsProbe(1));
    SumOfAppend([first], Over, IsProbe(1));
    SumOfAppend([first, Over], last, IsProbe(1));
    assert [] + [first] == [first] && [first] + [Over] == [first, Over];
    assert [first, Over] + [last] == [first, Over, last];
  }

  /** True probes in flight can exceed `half_open_max_calls`; only the counter is bounded. */
  lemma ProbesCanExceedTheLimit() returns (h: seq<Action>)
    ensures var s := After(Init(STRICT, 2, 9.0, 1.0, 0.0), h);
      s.breaker.state == B.HalfOpen && Probes(s) > s.limits.halfOpenMaxCalls
  {
    var s := Init(STRICT, 2, 9.0, 1.0, 0.0);
    h := ProbeAndStray();
    BackStep(After(s, h), B.Breaker(B.HalfOpen, 1, Some(0.0), 1),
             [InFlight(2, Some(1)), InFlight(1, None), Asking(1)], 1, 6.0, 1, Interrupted);
    OneMore(s, h, Back(1, Interrupted, 0.0));
    h := h + [Back(1, Interrupted, 0.0)];
    var calls := [InFlight(2, Some(1)), Over, Asking(1)];
    assert After(s, h).calls == calls;
    TryStep(After(s, h), B.Breaker(B.HalfOpen, 1, Some(0.0), 0), calls, 1, 6.0, 2);
    OneMore(s, h, Try(2, 0.0));
    h := h + [Try(2, 0.0)];
    var two := [InFlight(2, Some(1)), Over, InFlight(1, Some(1))];
    assert After(s, h).calls == two;
    TwoProbes();
  }

  /** Every provider call has been reported exactly once or is still in flight. */
  lemma ReportedOnce(s: System, h: seq<Action>)
    requires Inv(s)
    ensures var r := After(s, h);
      r.ledger.attempts == r.ledger.successes + r.ledger.failures + r.ledger.releases + SumOf(r.calls, IsFlying)
  {
    AfterKeepsInv(s, h);
  }

  // ---------------------------------------------------------------------
  // How often the provider is called
  // ---------------------------------------------------------------------

  predicate StartsCall(s: System, a: Action) {
    a.Try? && Enabled(s, a) && Polled(s.bucket, 1.0, a.now).1 && B.Admits(s.limits, s.breaker, a.now)
  }

  /** The attempts call `i` has made at the provider. */
  function CallsOf(s: System, h: seq<Action>, i: nat): nat {
    if h == [] then 0
    else
      var front, a := h[..|h| - 1], h[|h| - 1];
      CallsOf(s, front, i) + if StartsCall(After(s, front), a) && a.call == i then 1 else 0
  }

  predicate AttemptsCounted(calls: seq<Phase>, i: nat, made: nat, maxAttempts: nat) {
    if i >= |calls| then made == 0
    else
      match calls[i]
      case Asking(attempt) => made == attempt - 1 && attempt <= maxAttempts
      case InFlight(attempt, _) => made == attempt <= maxAttempts
      case Over => made <= maxAttempts
  }

  /** No call makes more than `max_attempts` provider calls, and one in flight knows how many it made. */
  lemma {:induction false} AttemptsBounded(s: System, h: seq<Action>, i: nat)
    requires s.calls == [] && s.maxAttempts > 0
    ensures After(s, h).maxAttempts == s.maxAttempts
    ensures AttemptsCounted(After(s, h).calls, i, CallsOf(s, h, i), s.maxAttempts)
    ensures CallsOf(s, h, i) <= s.maxAttempts
  {
    hide Polled, B.Admits, B.Asked;
    if h != [] {
      AttemptsBounded(s, h[..|h| - 1], i);
    }
  }

  /** The polls of the bucket an action history makes. */
  function PollsOf(s: System, h: seq<Action>): seq<Poll> {
    if h == [] then []
    else
      var front, a := h[..|h| - 1], h[|h| - 1];
      if a.Try? && Enabled(After(s, front), a) then PollsOf(s, front) + [Poll(1.0, a.now)] else PollsOf(s, front)
  }

  /** The shared bucket only sees the polls; each provider call costs one granted token. */
  lemma {:induction false} BucketSeesPolls(s: System, h: seq<Action>)
    ensures After(s, h).bucket == TokenBuckets.After(s.bucket, PollsOf(s, h))
    ensures 0 <= After(s, h).ledger.attempts - s.ledger.attempts
    ensures (After(s, h).ledger.attempts - s.ledger.attempts) as real <= Granted(s.bucket, PollsOf(s, h))
  {
    hide Polled, B.Admits, B.Asked, TokenBuckets.After, Granted;
    if h == [] {
      NoPolls(s.bucket, []);
    } else {
      var front, a := h[..|h| - 1], h[|h| - 1];
      BucketSeesPolls(s, front);
      var polls := PollsOf(s, front);
      if a.Try? && Enabled(After(s, front), a) {
        LastPoll(s.bucket, polls + [Poll(1.0, a.now)]);
        assert (polls + [Poll(1.0, a.now)])[..|polls|] == polls;
      }
    }
  }

  /** The clock readings of the polls lie in [from, to] and do not run backwards. */
  predicate Clocked(from: real, h: seq<Action>, to: real) {
    if h == [] then from <= to
    else
      var front, a := h[..|h| - 1], h[|h| - 1];
      if a.Try? then a.now <= to && Clocked(from, front, a.now) else Clocked(from, front, to)
  }

  lemma {:induction false} PollsClocked(s: System, h: seq<Action>, from: real, to: real)
    requires Clocked(from, h, to)
    ensures Timed(from, PollsOf(s, h), to)
    ensures forall i :: 0 <= i < |PollsOf(s, h)| ==> PollsOf(s, h)[i].want == 1.0
  {
    hide Next;
    if h != [] {
      var front, a := h[..|h| - 1], h[|h| - 1];
      PollsClocked(s, front, from, if a.Try? then a.now else to);
    }
  }

  lemma {:induction false} AfterConcat(s: System, a: seq<Action>, b: seq<Action>)
    ensures After(s, a + b) == After(After(s, a), b)
  {
    hide Next;
    if b == [] {
      assert a + b == a;
    } else {
      AfterConcat(s, a, b[..|b| - 1]);
      assert (a + b)[..|a + b| - 1] == a + b[..|b| - 1];
    }
  }

  /**
   Provider calls of all concurrent `complete` calls together: in any stretch of time at most
   capacity + rate * duration.
   */
  lemma ProviderRateBound(s: System, past: seq<Action>, window: seq<Action>, from: real, to: real)
    requires ValidBucket(s.bucket) && s.bucket.capacity >= 1.0
    requires Clocked(s.bucket.updatedAt, past, from) && Clocked(from, window, to)
    ensures (After(s, past + window).ledger.attempts - After(s, past).ledger.attempts) as real
            <= s.bucket.capacity + Accrued(s.bucket.rate, to - from)
  {
    hide Next, Accrued, Refilled, Polled, PollsOf, TokenBuckets.After, Granted;
    var m := After(s, past);
    AfterConcat(s, past, window);
    BucketSeesPolls(s, past);
    PollsClocked(s, past, s.bucket.updatedAt, from);
    TokenBuckets.AfterStaysValid(s.bucket, PollsOf(s, past), from);
    BucketSeesPolls(m, window);
    PollsClocked(m, window, from, to);
    var polls := PollsOf(m, window);
    TokenBudget(m.bucket, polls, from, to);
    TokenBuckets.AfterStaysValid(m.bucket, polls, to);
    RefillStaysValid(m.bucket, from);
    RefillStaysValid(TokenBuckets.After(m.bucket, polls), to);
  }
}
