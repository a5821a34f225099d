/** The in-memory lease manager (adapters/memory.py): mutual exclusion over time. */
module Leases {
  import opened Common

  datatype Lease = Lease(owner: string, expiresAt: real)

  type Table = map<string, Lease>

  /** One request; `release` reads no clock, its time only places it in the history. */
  datatype Request =
    | Acquire(resource: string, owner: string, ttl: real, now: real)
    | Renew(resource: string, owner: string, ttl: real, now: real)
    | Release(resource: string, owner: string, now: real)
    | Owner(resource: string, now: real)

  datatype Reply = Answer(value: bool) | Holder(owner: Option<string>) | Invalid

  predicate WellFormed(q: Request) {
    (q.Acquire? || q.Renew?) ==> q.resource != "" && q.owner != "" && q.ttl > 0.0
  }

  /** The lease in force at time `now`. */
  function View(m: Table, resource: string, now: real): Option<Lease> {
    if resource in m && m[resource].expiresAt > now then Some(m[resource]) else None
  }

  function Answered(m: Table, q: Request): Reply {
    if !WellFormed(q) then Invalid
    else
      match q
      case Acquire(r, o, _, now) => Answer(View(m, r, now).None? || View(m, r, now).value.owner == o)
      case Renew(r, o, _, now) => Answer(View(m, r, now).Some? && View(m, r, now).value.owner == o)
      case Release(r, o, _) => Answer(r in m && m[r].owner == o)
      case Owner(r, now) => Holder(if View(m, r, now).Some? then Some(View(m, r, now).value.owner) else None)
  }

  /** The request writes a lease: a first acquisition, or a renewal. */
  predicate Grants(m: Table, q: Request) {
    && WellFormed(q)
    && ((q.Acquire? && View(m, q.resource, q.now).None?) || (q.Renew? && Answered(m, q) == Answer(true)))
  }

  /** The holder gives the lease back or replaces it. */
  predicate Yields(m: Table, q: Request, resource: string, owner: string) {
    && (q.Release? || q.Renew?) && q.resource == resource && q.owner == owner && Answered(m, q) == Answer(true)
  }

  function Next(m: Table, q: Request): Table {
    if Grants(m, q) then m[q.resource := Lease(q.owner, q.now + q.ttl)]
    else if q.Release? && Answered(m, q) == Answer(true) then m - {q.resource}
    else if q.Owner? && View(m, q.resource, q.now).None? then m - {q.resource}
    else m
  }

  function After(m: Table, h: seq<Request>): Table {
    if h == [] then m else Next(After(m, h[..|h| - 1]), h[|h| - 1])
  }

  /** The clock does not run backwards. */
  ghost predicate Timed(h: seq<Request>) {
    forall i, j :: 0 <= i < j < |h| ==> h[i].now <= h[j].now
  }

  // ---------------------------------------------------------------------
  // Mutual exclusion
  // ---------------------------------------------------------------------

  /** A lease in force outlives every request except its holder's own release or renewal. */
  lemma LeasePersists(m: Table, q: Request, r: string, lease: Lease)
    requires r in m && m[r] == lease && q.now < lease.expiresAt
    requires !Yields(m, q, r, lease.owner)
    ensures r in Next(m, q) && Next(m, q)[r] == lease
    ensures (q.Acquire? || q.Renew?) && q.resource == r && q.owner != lease.owner && WellFormed(q) ==>
      Answered(m, q) == Answer(false)
  {
  }

  lemma GrantWrites(m: Table, q: Request)
    requires Grants(m, q)
    ensures (q.Acquire? || q.Renew?) && Next(m, q) == m[q.resource := Lease(q.owner, q.now + q.ttl)]
  {
  }

  /** The table after the first k requests. */
  function TableAt(h: seq<Request>, k: nat): Table
    requires k <= |h|
  {
    After(map[], h[..k])
  }

  lemma TableStep(h: seq<Request>, k: nat)
    requires k < |h|
    ensures TableAt(h, k + 1) == Next(TableAt(h, k), h[k])
  {
    hide Next;
    assert h[..k + 1][..k] == h[..k];
  }

  /** From a grant on, the table shows the lease until it expires or its holder yields it. */
  lemma {:induction false} HeldUntilExpiry(h: seq<Request>, i: nat, j: nat)
    requires i < j <= |h| && Timed(h)
    requires Grants(TableAt(h, i), h[i])
    requires forall k: nat :: i < k < j ==> h[k].now < h[i].now + h[i].ttl
    requires forall k: nat :: i < k < j ==> !Yields(TableAt(h, k), h[k], h[i].resource, h[i].owner)
    ensures var m := TableAt(h, j);
      h[i].resource in m && m[h[i].resource] == Lease(h[i].owner, h[i].now + h[i].ttl)
  {
    hide Next, Answered, TableAt;
    TableStep(h, j - 1);
    if j - 1 == i {
      GrantWrites(TableAt(h, i), h[i]);
    } else {
      HeldUntilExpiry(h, i, j - 1);
      LeasePersists(TableAt(h, j - 1), h[j - 1], h[i].resource, Lease(h[i].owner, h[i].now + h[i].ttl));
    }
  }

  /**
   Mutual exclusion: between two grants of one resource to different owners the first one has
   expired, or its holder has itself released or renewed it.
   */
  lemma MutualExclusion(h: seq<Request>, i: nat, j: nat)
    requires i < j < |h| && Timed(h)
    requires Grants(TableAt(h, i), h[i]) && Grants(TableAt(h, j), h[j])
    requires h[i].resource == h[j].resource && h[i].owner != h[j].owner
    ensures h[j].now >= h[i].now + h[i].ttl
            || exists k: nat :: i < k < j && Yields(TableAt(h, k), h[k], h[i].resource, h[i].owner)
  {
    hide TableAt;
    if h[j].now < h[i].now + h[i].ttl
       && forall k: nat :: i < k < j ==> !Yields(TableAt(h, k), h[k], h[i].resource, h[i].owner) {
      assert forall k: nat :: i < k < j ==> h[k].now <= h[j].now;
      HeldUntilExpiry(h, i, j);
      LeasePersists(TableAt(h, j), h[j], h[i].resource, Lease(h[i].owner, h[i].now + h[i].ttl));
    }
  }

  // ---------------------------------------------------------------------
  // What the answers mean
  // ---------------------------------------------------------------------

  /** The lease in force belongs to this owner. */
  predicate Holds(m: Table, resource: string, owner: string, now: real) {
    resource in m && m[resource].expiresAt > now && m[resource].owner == owner
  }

  /**
   A valid acquire is answered True exactly when afterwards the caller holds the resource; a new
   lease runs from now for the time asked, one already held stays as it is.
   */
  lemma AcquireAnswers(m: Table, r: string, o: string, ttl: real, now: real)
    requires r != "" && o != "" && ttl > 0.0
    ensures var q := Acquire(r, o, ttl, now);
      && (Answered(m, q) == Answer(true) <==> Holds(Next(m, q), r, o, now))
      && (Answered(m, q) == Answer(false) <==> exists other :: other != o && Holds(m, r, other, now))
      && (Holds(m, r, o, now) ==> Next(m, q) == m)
      && ((forall other :: !Holds(m, r, other, now)) ==> Next(m, q) == m[r := Lease(o, now + ttl)])
  {
    assert r in m && m[r].expiresAt > now ==> Holds(m, r, m[r].owner, now);
  }

  /** A valid renew is answered True exactly when the caller holds the resource, and then it runs from now. */
  lemma RenewAnswers(m: Table, r: string, o: string, ttl: real, now: real)
    requires r != "" && o != "" && ttl > 0.0
    ensures var q := Renew(r, o, ttl, now);
      && (Answered(m, q) == if Holds(m, r, o, now) then Answer(true) else Answer(false))
      && Next(m, q) == if Holds(m, r, o, now) then m[r := Lease(o, now + ttl)] else m
  {
  }

  /** Release is answered True exactly when the entry is the caller's own, expired or not, and takes it away. */
  lemma ReleaseAnswers(m: Table, r: string, o: string, now: real)
    ensures var q := Release(r, o, now);
      && (Answered(m, q) == if r in m && m[r].owner == o then Answer(true) else Answer(false))
      && Next(m, q) == if r in m && m[r].owner == o then m - {r} else m
  {
  }

  /** An invalid request raises and changes nothing. */
  lemma InvalidRaises(m: Table, q: Request)
    ensures Answered(m, q) == Invalid
            <==> (q.Acquire? || q.Renew?) && (q.resource == "" || q.owner == "" || q.ttl <= 0.0)
    ensures Answered(m, q) == Invalid ==> Next(m, q) == m
  {
  }

  /** The request was answered with True. */
  predicate Said(h: seq<Request>, k: nat)
    requires k < |h|
  {
    Answered(TableAt(h, k), h[k]) == Answer(true)
  }

  /** The lease the answers so far have given out for a resource and not taken back. */
  function Given(h: seq<Request>, n: nat, resource: string): Option<Lease>
    requires n <= |h|
  {
    if n == 0 then None
    else
      var before, q := Given(h, n - 1, resource), h[n - 1];
      if q.resource != resource || !Said(h, n - 1) then before
      else
        match q
        case Acquire(_, owner, ttl, now) =>
          if before.Some? && before.value.expiresAt > now then before else Some(Lease(owner, now + ttl))
        case Renew(_, owner, ttl, now) => Some(Lease(owner, now + ttl))
        case Release(_, _, _) => None
        case Owner(_, _) => before
  }

  lemma {:induction false} GivenIsShown(h: seq<Request>, n: nat, resource: string, now: real)
    requires n <= |h| && Timed(h) && forall k :: 0 <= k < n ==> h[k].now <= now
    ensures var given := Given(h, n, resource);
      View(TableAt(h, n), resource, now) == if given.Some? && given.value.expiresAt > now then given else None
  {
    hide TableAt;
    if n == 0 {
      EmptyTable(h);
    } else {
      TableStep(h, n - 1);
      GivenIsShown(h, n - 1, resource, h[n - 1].now);
      GivenIsShown(h, n - 1, resource, now);
    }
  }

  lemma EmptyTable(h: seq<Request>)
    ensures TableAt(h, 0) == map[]
  {
    assert h[..0] == [];
  }

  /** `owner` names the holder of the lease the answers have given out, until it expires. */
  lemma OwnerTellsTheHolder(h: seq<Request>, n: nat)
    requires n < |h| && Timed(h) && h[n].Owner?
    ensures var given := Given(h, n, h[n].resource);
      Answered(TableAt(h, n), h[n])
      == Holder(if given.Some? && given.value.expiresAt > h[n].now then Some(given.value.owner) else None)
  {
    hide TableAt;
    GivenIsShown(h, n, h[n].resource, h[n].now);
  }

  /**
   Mutual exclusion of answers: when two acquires or renewals of one resource by different owners
   are both answered True, the lease the first one held then has expired in between, or its owner
   has itself released or renewed it.
   */
  lemma {:induction false} ExclusiveAnswers(h: seq<Request>, i: nat, j: nat)
    requires i < j < |h| && Timed(h) && Said(h, i) && Said(h, j)
    requires (h[i].Acquire? || h[i].Renew?) && (h[j].Acquire? || h[j].Renew?)
    requires h[i].resource == h[j].resource && h[i].owner != h[j].owner
    ensures Holds(TableAt(h, i + 1), h[i].resource, h[i].owner, h[i].now)
    ensures h[j].now >= TableAt(h, i + 1)[h[i].resource].expiresAt
            || exists k: nat :: i < k < j && Yields(TableAt(h, k), h[k], h[i].resource, h[i].owner)
  {
    hide TableAt, Yields;
    TableStep(h, i);
    var r := h[i].resource;
    var lease := TableAt(h, i + 1)[r];
    if h[j].now < lease.expiresAt
       && forall k: nat :: i < k < j ==> !Yields(TableAt(h, k), h[k], r, h[i].owner) {
      assert forall k: nat :: i < k < j ==> h[k].now <= h[j].now;
      StaysShown(h, i + 1, j, r, lease);
    }
  }

  lemma {:induction false} StaysShown(h: seq<Request>, i: nat, j: nat, r: string, lease: Lease)
    requires i <= j <= |h| && r in TableAt(h, i) && TableAt(h, i)[r] == lease
    requires forall k: nat :: i <= k < j ==> h[k].now < lease.expiresAt
    requires forall k: nat :: i <= k < j ==> !Yields(TableAt(h, k), h[k], r, lease.owner)
    ensures r in TableAt(h, j) && TableAt(h, j)[r] == lease
  {
    hide TableAt, Next, Answered;
    if i < j {
      StaysShown(h, i, j - 1, r, lease);
      TableStep(h, j - 1);
      LeasePersists(TableAt(h, j - 1), h[j - 1], r, lease);
    }
  }

  // ---------------------------------------------------------------------
  // Expired entries
  // ---------------------------------------------------------------------

  /** From time `now` on the two tables show the same leases. */
  ghost predicate SameView(a: Table, b: Table, now: real) {
    forall r :: View(a, r, now) == View(b, r, now)
  }

  lemma ViewLater(a: Table, b: Table, from: real, now: real)
    requires SameView(a, b, from) && from <= now
    ensures SameView(a, b, now)
  {
    forall r ensures View(a, r, now) == View(b, r, now) {
      assert View(a, r, from) == View(b, r, from);
    }
  }

  lemma ViewStep(a: Table, b: Table, q: Request)
    requires SameView(a, b, q.now)
    ensures SameView(Next(a, q), Next(b, q), q.now)
    ensures !q.Release? ==> Answered(a, q) == Answered(b, q)
  {
    assert !q.Release? ==> View(a, q.resource, q.now) == View(b, q.resource, q.now);
    var m, n := Next(a, q), Next(b, q);
    forall r ensures View(m, r, q.now) == View(n, r, q.now) {
      assert View(a, r, q.now) == View(b, r, q.now);
    }
  }

  /** Expired entries matter to no answer but release's, over whole histories. */
  lemma {:induction false} ViewIsEnough(a: Table, b: Table, h: seq<Request>, from: real)
    requires SameView(a, b, from) && Timed(h) && forall i :: 0 <= i < |h| ==> from <= h[i].now
    ensures SameView(After(a, h), After(b, h), if h == [] then from else h[|h| - 1].now)
    ensures forall i :: 0 <= i < |h| && !h[i].Release? ==>
      Answered(After(a, h[..i]), h[i]) == Answered(After(b, h[..i]), h[i])
  {
    hide Next, Answered, SameView;
    if h != [] {
      var front, q := h[..|h| - 1], h[|h| - 1];
      ViewIsEnough(a, b, front, from);
      ViewLater(After(a, front), After(b, front), if front == [] then from else front[|front| - 1].now, q.now);
      ViewStep(After(a, front), After(b, front), q);
      assert forall i :: 0 <= i < |front| ==> front[..i] == h[..i] && front[i] == h[i];
    }
  }

  /** An entry that has expired but is still in the table. */
  predicate Stale(m: Table, r: string, now: real) {
    r in m && m[r].expiresAt <= now
  }

  /** Release ignores expiry, so asking for the owner first changes its answer exactly for a stale entry. */
  lemma OwnerQueryChangesRelease(m: Table, r: string, o: string, now: real)
    ensures Answered(Next(m, Owner(r, now)), Release(r, o, now)) != Answered(m, Release(r, o, now))
            <==> Stale(m, r, now) && m[r].owner == o
    ensures SameView(Next(m, Owner(r, now)), m, now)
  {
  }

  // ---------------------------------------------------------------------
  // The manager as the source keeps it
  // ---------------------------------------------------------------------

  class InMemoryLeaseManager {
    var leases: Table

    constructor ()
      ensures leases == map[]
    {
      leases := map[];
    }

    /** False stands for the ValueError of `_validate`. */
    predicate Validate(resource: string, owner: string, ttl: real) {
      resource != "" && owner != "" && ttl > 0.0
    }

    method Acquire(resource: string, owner: string, ttl: real, now: real) returns (reply: Reply)
      modifies this
      ensures reply == Answered(old(leases), Request.Acquire(resource, owner, ttl, now))
      ensures leases == Next(old(leases), Request.Acquire(resource, owner, ttl, now))
    {
      if !Validate(resource, owner, ttl) {
        return Invalid;
      }
      if resource in leases && leases[resource].expiresAt > now {
        return Answer(leases[resource].owner == owner);
      }
      leases := leases[resource := Lease(owner, now + ttl)];
      reply := Answer(true);
    }

    method Renew(resource: string, owner: string, ttl: real, now: real) returns (reply: Reply)
      modifies this
      ensures reply == Answered(old(leases), Request.Renew(resource, owner, ttl, now))
      ensures leases == Next(old(leases), Request.Renew(resource, owner, ttl, now))
    {
      if !Validate(resource, owner, ttl) {
        return Invalid;
      }
      if resource !in leases || leases[resource].owner != owner || leases[resource].expiresAt <= now {
        return Answer(false);
      }
      leases := leases[resource := Lease(owner, now + ttl)];
      reply := Answer(true);
    }

    method Release(resource: string, owner: string, ghost now: real) returns (reply: Reply)
      modifies this
      ensures reply == Answered(old(leases), Request.Release(resource, owner, now))
      ensures leases == Next(old(leases), Request.Release(resource, owner, now))
    {
      if resource !in leases || leases[resource].owner != owner {
        return Answer(false);
      }
      leases := leases - {resource};
      reply := Answer(true);
    }

    method Owner(resource: string, now: real) returns (reply: Reply)
      modifies this
      ensures reply == Answered(old(leases), Request.Owner(resource, now))
      ensures leases == Next(old(leases), Request.Owner(resource, now))
    {
      if resource !in leases {
        return Holder(None);
      }
      if leases[resource].expiresAt <= now {
        leases := leases - {resource};
        return Holder(None);
      }
      reply := Holder(Some(leases[resource].owner));
    }
  }
}
