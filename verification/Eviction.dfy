/**
 Which runs `_cleanup_runs` removes (runtime.py), as a function of the registry.

 Run ids are numbers in creation order, so id order is the insertion order of the
 run dictionary and decides ties in Python's stable sort.
 */
module Eviction {
  import opened Common
  import opened Lifecycle

  /** The sort key: `finished_at or updated_at`, where 0.0 counts as missing. */
  function FinishKey(r: Run): real {
    if r.finishedAt.Some? && r.finishedAt.value != 0.0 then r.finishedAt.value else r.updatedAt
  }

  predicate IsTerminalRun(recs: seq<Run>, runs: set<RunId>, id: RunId) {
    id in runs && id < |recs| && Terminal(recs[id].state)
  }

  /** Ids below n of retained terminal runs, in insertion order. */
  function TerminalIds(recs: seq<Run>, runs: set<RunId>, n: nat): seq<RunId>
    requires n <= |recs|
  {
    if n == 0 then []
    else TerminalIds(recs, runs, n - 1) + (if IsTerminalRun(recs, runs, n - 1) then [n - 1] else [])
  }

  predicate Before(recs: seq<Run>, a: RunId, b: RunId)
    requires a < |recs| && b < |recs|
  {
    FinishKey(recs[a]) < FinishKey(recs[b]) || (FinishKey(recs[a]) == FinishKey(recs[b]) && a < b)
  }

  predicate AllBelow(ids: seq<RunId>, n: nat) {
    forall i :: 0 <= i < |ids| ==> ids[i] < n
  }

  ghost predicate Ordered(recs: seq<Run>, ids: seq<RunId>)
    requires AllBelow(ids, |recs|)
  {
    forall i, j :: 0 <= i < j < |ids| ==> Before(recs, ids[i], ids[j])
  }

  /** One insertion of a stable sort: x goes behind every element whose key is not larger. */
  function Insert(recs: seq<Run>, sorted: seq<RunId>, x: RunId): (r: seq<RunId>)
    requires AllBelow(sorted, |recs|) && x < |recs|
    ensures AllBelow(r, |recs|)
    ensures |r| == |sorted| + 1
    ensures Elements(r) == Elements(sorted) + {x}
  {
    if sorted == [] then [x]
    else
      var n := |sorted| - 1;
      assert sorted == sorted[..n] + [sorted[n]];
      if FinishKey(recs[sorted[n]]) <= FinishKey(recs[x]) then sorted + [x]
      else
        var front := Insert(recs, sorted[..n], x);
        ElementsConcat(front, [sorted[n]]);
        front + [sorted[n]]
  }

  /** Python's `sorted` with the finish key. */
  function SortByFinish(recs: seq<Run>, ids: seq<RunId>): (r: seq<RunId>)
    requires AllBelow(ids, |recs|)
    ensures AllBelow(r, |recs|)
    ensures |r| == |ids|
    ensures Elements(r) == Elements(ids)
  {
    if ids == [] then []
    else
      var n := |ids| - 1;
      assert ids == ids[..n] + [ids[n]];
      Insert(recs, SortByFinish(recs, ids[..n]), ids[n])
  }

  lemma {:induction false} TerminalIdsExact(recs: seq<Run>, runs: set<RunId>, n: nat)
    requires n <= |recs|
    ensures AllBelow(TerminalIds(recs, runs, n), n)
    ensures forall i, j :: 0 <= i < j < |TerminalIds(recs, runs, n)| ==>
      TerminalIds(recs, runs, n)[i] < TerminalIds(recs, runs, n)[j]
    ensures forall id: RunId :: id in TerminalIds(recs, runs, n) <==> id < n && IsTerminalRun(recs, runs, id)
  {
    if n > 0 {
      TerminalIdsExact(recs, runs, n - 1);
    }
  }

  lemma {:induction false} InsertOrdered(recs: seq<Run>, sorted: seq<RunId>, x: RunId)
    requires AllBelow(sorted, |recs|) && x < |recs|
    requires Ordered(recs, sorted)
    requires forall y :: y in sorted ==> y < x
    ensures Ordered(recs, Insert(recs, sorted, x))
  {
    if sorted != [] {
      var n := |sorted| - 1;
      var last := sorted[n];
      if FinishKey(recs[last]) <= FinishKey(recs[x]) {
        forall i | 0 <= i <= n ensures Before(recs, sorted[i], x) {
          assert sorted[i] in sorted;
          assert i < n ==> Before(recs, sorted[i], last);
        }
      } else {
        assert forall y :: y in sorted[..n] ==> y in sorted;
        InsertOrdered(recs, sorted[..n], x);
        var r := Insert(recs, sorted[..n], x);
        forall i | 0 <= i < |r| ensures Before(recs, r[i], last) {
          assert r[i] in Elements(r);
          assert r[i] == x || r[i] in sorted[..n];
        }
      }
    }
  }

  lemma {:induction false} SortOrdered(recs: seq<Run>, ids: seq<RunId>)
    requires AllBelow(ids, |recs|)
    requires forall i, j :: 0 <= i < j < |ids| ==> ids[i] < ids[j]
    ensures Ordered(recs, SortByFinish(recs, ids))
  {
    if ids != [] {
      var n := |ids| - 1;
      SortOrdered(recs, ids[..n]);
      var front := SortByFinish(recs, ids[..n]);
      forall y | y in front ensures y < ids[n] {
        assert y in Elements(front);
        assert y in ids[..n];
      }
      InsertOrdered(recs, front, ids[n]);
    }
  }

  /** Retained terminal runs, oldest finish first. */
  function Finished(recs: seq<Run>, runs: set<RunId>): (r: seq<RunId>)
    ensures AllBelow(r, |recs|)
  {
    TerminalIdsExact(recs, runs, |recs|);
    SortByFinish(recs, TerminalIds(recs, runs, |recs|))
  }

  function Expired(recs: seq<Run>, runs: set<RunId>, cutoff: real): set<RunId> {
    set id | id in runs && IsTerminalRun(recs, runs, id) && FinishKey(recs[id]) < cutoff
  }

  /** How many runs over the limit remain once the expired ones are gone. */
  function Overflow(recs: seq<Run>, runs: set<RunId>, cutoff: real, reserve: nat, limit: nat): nat {
    var over := |runs| - |Expired(recs, runs, cutoff)| + reserve - limit;
    if over > 0 then over else 0
  }

  function VictimCount(recs: seq<Run>, runs: set<RunId>, cutoff: real, reserve: nat, limit: nat): nat {
    MinNat(|Finished(recs, runs)|,
           |Expired(recs, runs, cutoff)| + Overflow(recs, runs, cutoff, reserve, limit))
  }

  function Victims(recs: seq<Run>, runs: set<RunId>, cutoff: real, reserve: nat, limit: nat): set<RunId> {
    Elements(Finished(recs, runs)[..VictimCount(recs, runs, cutoff, reserve, limit)])
  }

  lemma FinishedExact(recs: seq<Run>, runs: set<RunId>)
    ensures Ordered(recs, Finished(recs, runs))
    ensures NoDuplicates(Finished(recs, runs))
    ensures forall id :: id in Finished(recs, runs) <==> IsTerminalRun(recs, runs, id)
  {
    TerminalIdsExact(recs, runs, |recs|);
    var ids := TerminalIds(recs, runs, |recs|);
    SortOrdered(recs, ids);
    var f := Finished(recs, runs);
    forall id ensures id in f <==> IsTerminalRun(recs, runs, id) {
      assert id in f <==> id in Elements(f);
      assert id in ids <==> id in Elements(ids);
    }
    forall i, j | 0 <= i < j < |f| ensures f[i] != f[j] {
      assert Before(recs, f[i], f[j]);
    }
  }

  /** The expired runs are the first so many of the finished ones. */
  lemma ExpiredIsPrefix(recs: seq<Run>, runs: set<RunId>, cutoff: real)
    ensures |Expired(recs, runs, cutoff)| <= |Finished(recs, runs)|
    ensures Expired(recs, runs, cutoff)
            == Elements(Finished(recs, runs)[..|Expired(recs, runs, cutoff)|])
  {
    FinishedExact(recs, runs);
    var f := Finished(recs, runs);
    var n := PrefixLength(recs, f, cutoff);
    assert Elements(f[..n]) == Expired(recs, runs, cutoff) by {
      forall id ensures id in f[..n] <==> id in Expired(recs, runs, cutoff) {
        if id in Expired(recs, runs, cutoff) {
          var i :| 0 <= i < |f| && f[i] == id;
          assert i < n;
          assert f[..n][i] == id;
        }
        if id in f[..n] {
          var i :| 0 <= i < n && f[..n][i] == id;
          assert id in f;
        }
      }
    }
    ElementsExact(f[..n]);
  }

  /** The length of the expired prefix of a sequence sorted by finish key. */
  lemma {:induction false} PrefixLength(recs: seq<Run>, f: seq<RunId>, cutoff: real) returns (n: nat)
    requires AllBelow(f, |recs|) && Ordered(recs, f)
    ensures n <= |f|
    ensures forall i :: 0 <= i < n ==> FinishKey(recs[f[i]]) < cutoff
    ensures forall i :: n <= i < |f| ==> FinishKey(recs[f[i]]) >= cutoff
  {
    if f == [] {
      n := 0;
    } else {
      var last := |f| - 1;
      n := PrefixLength(recs, f[..last], cutoff);
      assert n < last ==> f[..last][n] == f[n] && FinishKey(recs[f[n]]) >= cutoff;
      if FinishKey(recs[f[last]]) < cutoff {
        forall i | 0 <= i < last ensures FinishKey(recs[f[i]]) < cutoff {
          assert Before(recs, f[i], f[last]);
        }
        assert n == last;
        n := |f|;
      }
    }
  }

  /** What is in a prefix of a sorted list is before what is not. */
  lemma PrefixBefore(recs: seq<Run>, f: seq<RunId>, k: nat, a: RunId, b: RunId)
    requires AllBelow(f, |recs|) && Ordered(recs, f) && k <= |f|
    requires a in f[..k] && b in f && b !in f[..k]
    ensures a < |recs| && b < |recs| && Before(recs, a, b)
  {
    var i :| 0 <= i < k && f[..k][i] == a;
    var j :| 0 <= j < |f| && f[j] == b;
    assert forall m :: 0 <= m < k ==> f[..k][m] == f[m] && f[m] in f[..k];
    assert j >= k;
    assert Before(recs, f[i], f[j]);
  }

  /**
   Eviction removes terminal runs only, oldest finish first, every expired one, and
   beyond those exactly as many as the limit asks for and the terminal runs allow.
   */
  lemma EvictionExact(recs: seq<Run>, runs: set<RunId>, cutoff: real, reserve: nat, limit: nat)
    ensures |Expired(recs, runs, cutoff)| <= |Finished(recs, runs)|
    ensures var gone := Victims(recs, runs, cutoff, reserve, limit);
      && (forall id: RunId :: id in gone ==> IsTerminalRun(recs, runs, id))
      && Expired(recs, runs, cutoff) <= gone
      && (forall a: RunId, b: RunId :: a in gone && IsTerminalRun(recs, runs, b) && b !in gone ==> Before(recs, a, b))
      && |gone| == |Expired(recs, runs, cutoff)|
                   + MinNat(Overflow(recs, runs, cutoff, reserve, limit),
                            |Finished(recs, runs)| - |Expired(recs, runs, cutoff)|)
      && |gone| == MaxInt(|Expired(recs, runs, cutoff)|, MinInt(|Finished(recs, runs)|, |runs| + reserve - limit))
  {
    FinishedExact(recs, runs);
    ExpiredIsPrefix(recs, runs, cutoff);
    var f := Finished(recs, runs);
    var k := VictimCount(recs, runs, cutoff, reserve, limit);
    var gone := Victims(recs, runs, cutoff, reserve, limit);
    ElementsExact(f[..k]);
    forall id | id in gone ensures IsTerminalRun(recs, runs, id) {
      assert id in f;
    }
    forall id | id in Expired(recs, runs, cutoff) ensures id in gone {
      var e := |Expired(recs, runs, cutoff)|;
      var i :| 0 <= i < e && f[..e][i] == id;
      assert f[..k][i] == id;
    }
    forall a, b | a in gone && IsTerminalRun(recs, runs, b) && b !in gone
      ensures Before(recs, a, b)
    {
      assert b in f;
      PrefixBefore(recs, f, k, a, b);
    }
  }

  /** After eviction the reserve fits, or no terminal run is left. */
  lemma EvictionSuffices(recs: seq<Run>, runs: set<RunId>, cutoff: real, reserve: nat, limit: nat)
    requires forall id :: id in runs ==> id < |recs|
    ensures var kept := runs - Victims(recs, runs, cutoff, reserve, limit);
      || |kept| + reserve <= limit
      || (forall id :: id in kept ==> !Terminal(recs[id].state))
  {
    EvictionExact(recs, runs, cutoff, reserve, limit);
    FinishedExact(recs, runs);
    ExpiredIsPrefix(recs, runs, cutoff);
    var f := Finished(recs, runs);
    var gone := Victims(recs, runs, cutoff, reserve, limit);
    var k := VictimCount(recs, runs, cutoff, reserve, limit);
    assert gone <= runs;
    assert |runs - gone| == |runs| - |gone|;
    if k == |f| {
      assert f[..k] == f;
      forall id | id in runs - gone ensures !Terminal(recs[id].state) {
        assert id in f <==> IsTerminalRun(recs, runs, id);
      }
    }
  }

  /** What the loop that picks the victims starts from. */
  lemma EvictionShape(recs: seq<Run>, runs: set<RunId>, cutoff: real)
    ensures NoDuplicates(Finished(recs, runs))
    ensures Expired(recs, runs, cutoff) <= runs && |Expired(recs, runs, cutoff)| <= |runs|
    ensures |Expired(recs, runs, cutoff)| <= |Finished(recs, runs)|
    ensures Expired(recs, runs, cutoff)
            == Elements(Finished(recs, runs)[..|Expired(recs, runs, cutoff)|])
  {
    FinishedExact(recs, runs);
    ExpiredIsPrefix(recs, runs, cutoff);
    SubsetSize(Expired(recs, runs, cutoff), runs);
  }

  /** Insertion as a loop finds its place: behind the last key that is not larger. */
  lemma {:induction false} InsertAt(recs: seq<Run>, sorted: seq<RunId>, x: RunId, pos: nat)
    requires AllBelow(sorted, |recs|) && x < |recs| && pos <= |sorted|
    requires forall i :: pos <= i < |sorted| ==> FinishKey(recs[sorted[i]]) > FinishKey(recs[x])
    requires pos > 0 ==> FinishKey(recs[sorted[pos - 1]]) <= FinishKey(recs[x])
    ensures Insert(recs, sorted, x) == sorted[..pos] + [x] + sorted[pos..]
  {
    hide FinishKey, Insert;
    InsertUnfolds(recs, sorted, x);
    if pos < |sorted| {
      var n := |sorted| - 1;
      InsertAt(recs, sorted[..n], x, pos);
      SplitAround(sorted, x, pos);
    } else {
      assert sorted[..pos] + [x] + sorted[pos..] == sorted + [x];
    }
  }

  lemma InsertUnfolds(recs: seq<Run>, sorted: seq<RunId>, x: RunId)
    requires AllBelow(sorted, |recs|) && x < |recs|
    ensures sorted == [] ==> Insert(recs, sorted, x) == sorted + [x]
    ensures sorted != [] ==>
      var n := |sorted| - 1;
      Insert(recs, sorted, x)
      == if FinishKey(recs[sorted[n]]) <= FinishKey(recs[x]) then sorted + [x]
         else Insert(recs, sorted[..n], x) + [sorted[n]]
  {
  }

  lemma SplitAround(sorted: seq<RunId>, x: RunId, pos: nat)
    requires pos < |sorted|
    ensures var front := sorted[..|sorted| - 1];
      (front[..pos] + [x] + front[pos..]) + [sorted[|sorted| - 1]] == sorted[..pos] + [x] + sorted[pos..]
  {
  }

  /** The state of `_cleanup_runs`' overflow loop after i entries of the sorted list. */
  lemma OverflowStep(f: seq<RunId>, e: nat, i: nat)
    requires NoDuplicates(f) && i < |f| && e <= |f|
    ensures f[i] in Elements(f[..if i < e then e else i]) <==> i < e
    ensures i >= e ==> Elements(f[..i]) + {f[i]} == Elements(f[..i + 1])
  {
    if i < e {
      assert f[..e][i] == f[i];
    } else {
      assert forall j :: 0 <= j < i ==> f[..i][j] == f[j] && f[j] != f[i];
      assert f[..i + 1] == f[..i] + [f[i]];
      ElementsConcat(f[..i], [f[i]]);
    }
  }
}
