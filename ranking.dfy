/**
 * The selection and aggregation steps the measures facade applies to what networkx
 * returns: `dict(Counter(sorted(xs)))` for degree distributions, `heapq.nlargest`
 * with a score key for the top-10 centralities, and `statistics.mean`.
 */
module Ranking {
  import opened Wrappers

  // ---- sorted(xs) on integers ----

  predicate Ascending(s: seq<int>) {
    forall i, j :: 0 <= i < j < |s| ==> s[i] <= s[j]
  }

  function InsertAsc(s: seq<int>, x: int): (r: seq<int>)
    requires Ascending(s)
    ensures r != [] && (r[0] == x || (s != [] && r[0] == s[0]))
    ensures Ascending(r) && multiset(r) == multiset(s) + multiset{x}
  {
    if s == [] || x <= s[0] then [x] + s
    else
      assert s == [s[0]] + s[1..];
      [s[0]] + InsertAsc(s[1..], x)
  }

  /** `sorted(xs)`: ascending, and the same values with the same multiplicities. */
  function SortAsc(s: seq<int>): (r: seq<int>)
    ensures Ascending(r) && multiset(r) == multiset(s)
  {
    if s == [] then []
    else
      assert s == s[..|s| - 1] + [s[|s| - 1]];
      InsertAsc(SortAsc(s[..|s| - 1]), s[|s| - 1])
  }

  // ---- Counter ----

  /** A `Counter` as a dict in insertion order: (value, count) pairs. */
  type Tally = seq<(int, nat)>

  predicate HasKey(ps: Tally, k: int) {
    exists i :: 0 <= i < |ps| && ps[i].0 == k
  }

  /** `counter[k]`: 0 for a value never seen. */
  function CountOf(ps: Tally, k: int): nat {
    if ps == [] then 0 else if ps[0].0 == k then ps[0].1 else CountOf(ps[1..], k)
  }

  /** The sum of all counts. */
  function Total(ps: Tally): nat {
    if ps == [] then 0 else ps[0].1 + Total(ps[1..])
  }

  predicate PositiveCounts(ps: Tally) {
    forall i :: 0 <= i < |ps| ==> ps[i].1 >= 1
  }

  predicate StrictlyAscendingKeys(ps: Tally) {
    forall i, j :: 0 <= i < j < |ps| ==> ps[i].0 < ps[j].0
  }

  /** One `counter[x] += 1`: a known value is counted in place, a new one goes last with count 1. */
  function Bump(ps: Tally, x: int): Tally {
    if ps == [] then [(x, 1)]
    else if ps[0].0 == x then [(x, ps[0].1 + 1)] + ps[1..]
    else [ps[0]] + Bump(ps[1..], x)
  }

  /** `Counter(s)`: the values of `s` counted in order of first appearance. */
  function Count(s: seq<int>): Tally {
    if s == [] then [] else Bump(Count(s[..|s| - 1]), s[|s| - 1])
  }

  lemma {:induction false} BumpShape(ps: Tally, x: int)
    ensures HasKey(ps, x) ==> |Bump(ps, x)| == |ps| && forall i :: 0 <= i < |ps| ==> Bump(ps, x)[i].0 == ps[i].0
    ensures !HasKey(ps, x) ==> Bump(ps, x) == ps + [(x, 1)]
    ensures Total(Bump(ps, x)) == Total(ps) + 1
    ensures PositiveCounts(ps) ==> PositiveCounts(Bump(ps, x))
  {
    if ps != [] && ps[0].0 != x {
      BumpShape(ps[1..], x);
      assert HasKey(ps, x) ==> HasKey(ps[1..], x) by {
        if HasKey(ps, x) {
          var i :| 0 <= i < |ps| && ps[i].0 == x;
          assert ps[1..][i - 1].0 == x;
        }
      }
      assert HasKey(ps[1..], x) ==> HasKey(ps, x) by {
        if HasKey(ps[1..], x) {
          var i :| 0 <= i < |ps[1..]| && ps[1..][i].0 == x;
          assert ps[i + 1].0 == x;
        }
      }
    } else if ps != [] {
      assert HasKey(ps, x) by { assert ps[0].0 == x; }
      assert Total(Bump(ps, x)) == ps[0].1 + 1 + Total(ps[1..]) by {
        assert Bump(ps, x)[1..] == ps[1..];
      }
    }
  }

  lemma {:induction false} BumpCount(ps: Tally, x: int, k: int)
    ensures CountOf(Bump(ps, x), k) == CountOf(ps, k) + (if k == x then 1 else 0)
  {
    if ps != [] && ps[0].0 != x {
      BumpCount(ps[1..], x, k);
      assert Bump(ps, x)[1..] == Bump(ps[1..], x);
    } else if ps != [] {
      assert Bump(ps, x)[1..] == ps[1..];
    }
  }

  /**
   * `Counter(s)` counts every value exactly as often as it occurs, lists every
   * value of `s` once, with a positive count, and the counts add up to `|s|`.
   */
  lemma {:induction false} CountProperties(s: seq<int>)
    ensures forall k :: CountOf(Count(s), k) == multiset(s)[k]
    ensures forall k :: HasKey(Count(s), k) <==> k in s
    ensures PositiveCounts(Count(s)) && Total(Count(s)) == |s|
  {
    if s != [] {
      var s', x := s[..|s| - 1], s[|s| - 1];
      assert s == s' + [x];
      CountProperties(s');
      BumpShape(Count(s'), x);
      forall k ensures CountOf(Count(s), k) == multiset(s)[k] {
        BumpCount(Count(s'), x, k);
      }
      forall k ensures HasKey(Count(s), k) <==> k in s {
        if HasKey(Count(s'), x) {
          if HasKey(Count(s), k) {
            var i :| 0 <= i < |Count(s)| && Count(s)[i].0 == k;
            assert Count(s')[i].0 == k;
          }
          if k in s' {
            var i :| 0 <= i < |Count(s')| && Count(s')[i].0 == k;
            assert Count(s)[i].0 == k;
          }
        } else {
          if HasKey(Count(s), k) {
            var i :| 0 <= i < |Count(s)| && Count(s)[i].0 == k;
            if i < |Count(s')| { assert Count(s')[i].0 == k; }
          }
          if k in s' {
            var i :| 0 <= i < |Count(s')| && Count(s')[i].0 == k;
            assert Count(s)[i].0 == k;
          }
          assert Count(s)[|Count(s')|].0 == x;
        }
      }
    }
  }

  /** Counting a sorted sequence lists its values in strictly ascending order. */
  lemma {:induction false} CountSortedAscending(s: seq<int>)
    requires Ascending(s)
    ensures StrictlyAscendingKeys(Count(s))
  {
    if s != [] {
      var s', x := s[..|s| - 1], s[|s| - 1];
      assert Ascending(s');
      CountSortedAscending(s');
      CountProperties(s');
      BumpShape(Count(s'), x);
      if !HasKey(Count(s'), x) {
        forall i | 0 <= i < |Count(s')|
          ensures Count(s')[i].0 < x
        {
          assert HasKey(Count(s'), Count(s')[i].0);
          var j :| 0 <= j < |s'| && s'[j] == Count(s')[i].0;
          assert s[j] == s'[j];
        }
      }
    }
  }

  /**
   * `dict(Counter(sorted(xs)))`: the degree distribution, keyed by degree in
   * ascending order.
   */
  function Distribution(xs: seq<int>): Tally {
    Count(SortAsc(xs))
  }

  /**
   * A distribution's keys are strictly ascending, each count is at least 1 and is
   * the number of times its key occurs, and the counts add up to the input length.
   */
  lemma DistributionProperties(xs: seq<int>)
    ensures StrictlyAscendingKeys(Distribution(xs))
    ensures PositiveCounts(Distribution(xs))
    ensures Total(Distribution(xs)) == |xs|
    ensures forall k :: CountOf(Distribution(xs), k) == multiset(xs)[k]
    ensures forall k :: HasKey(Distribution(xs), k) <==> k in xs
  {
    var s := SortAsc(xs);
    CountSortedAscending(s);
    CountProperties(s);
    assert forall k :: k in s <==> k in multiset(s);
  }

  // ---- heapq.nlargest(n, items, key=itemgetter(1)) ----

  /** A (node, score) item of a centrality dict. */
  type Scored = (string, real)

  /** Each item scores at least as much as the next one. */
  predicate Descending(s: seq<Scored>) {
    |s| <= 1 || (s[0].1 >= s[1].1 && Descending(s[1..]))
  }

  /** In a descending sequence every item scores at least as much as any later one. */
  lemma {:induction false} DescendingPairwise(s: seq<Scored>)
    requires Descending(s)
    ensures forall i, j :: 0 <= i < j < |s| ==> s[i].1 >= s[j].1
  {
    if |s| > 1 {
      DescendingPairwise(s[1..]);
      forall i, j | 0 <= i < j < |s| ensures s[i].1 >= s[j].1 {
        if i > 0 {
          assert s[i] == s[1..][i - 1] && s[j] == s[1..][j - 1];
        } else if j > 1 {
          assert s[1] == s[1..][0] && s[j] == s[1..][j - 1];
        }
      }
    }
  }

  /** Puts `x` after every item scoring at least as much, so earlier ties stay first. */
  function InsertDesc(s: seq<Scored>, x: Scored): (r: seq<Scored>)
    ensures |r| == |s| + 1
    ensures r[0] == x || (s != [] && r[0] == s[0])
  {
    if s == [] || s[0].1 < x.1 then [x] + s
    else [s[0]] + InsertDesc(s[1..], x)
  }

  lemma {:induction false} DescendingPrefix(s: seq<Scored>, k: nat)
    requires Descending(s) && k <= |s|
    ensures Descending(s[..k])
  {
    if k > 1 {
      DescendingPrefix(s[1..], k - 1);
      assert s[..k][1..] == s[1..][..k - 1];
    }
  }

  /** Inserting into a descending sequence keeps it descending. */
  lemma {:induction false} InsertDescSorted(s: seq<Scored>, x: Scored)
    requires Descending(s)
    ensures Descending(InsertDesc(s, x))
  {
    if s == [] || s[0].1 < x.1 {
      assert InsertDesc(s, x) == [x] + s;
      assert ([x] + s)[1..] == s;
    } else {
      var rest := InsertDesc(s[1..], x);
      assert InsertDesc(s, x) == [s[0]] + rest;
      InsertDescSorted(s[1..], x);
      assert ([s[0]] + rest)[1..] == rest;
    }
  }

  /** Inserting adds exactly `x` to the items. */
  lemma {:induction false} InsertDescPermutes(s: seq<Scored>, x: Scored)
    ensures multiset(InsertDesc(s, x)) == multiset(s) + multiset{x}
  {
    if s != [] && s[0].1 >= x.1 {
      InsertDescPermutes(s[1..], x);
      assert s == [s[0]] + s[1..];
    }
  }

  /** `sorted(items, key=score, reverse=True)`, which is stable. */
  function SortDesc(s: seq<Scored>): (r: seq<Scored>)
    ensures |r| == |s|
  {
    if s == [] then []
    else InsertDesc(SortDesc(s[..|s| - 1]), s[|s| - 1])
  }

  /** The sorted items come best first and are the input's items. */
  lemma {:induction false} SortDescSorted(s: seq<Scored>)
    ensures Descending(SortDesc(s))
    ensures multiset(SortDesc(s)) == multiset(s)
  {
    if s != [] {
      var s', x := s[..|s| - 1], s[|s| - 1];
      SortDescSorted(s');
      InsertDescSorted(SortDesc(s'), x);
      InsertDescPermutes(SortDesc(s'), x);
      assert s == s' + [x];
    }
  }

  /** The items scoring exactly `v`, in order. */
  function WithScore(s: seq<Scored>, v: real): seq<Scored> {
    if s == [] then []
    else (if s[0].1 == v then [s[0]] else []) + WithScore(s[1..], v)
  }

  lemma {:induction false} WithScoreAppend(s: seq<Scored>, t: seq<Scored>, v: real)
    ensures WithScore(s + t, v) == WithScore(s, v) + WithScore(t, v)
  {
    if s != [] {
      var h := if s[0].1 == v then [s[0]] else [];
      assert (s + t)[0] == s[0] && (s + t)[1..] == s[1..] + t;
      assert WithScore(s + t, v) == h + WithScore(s[1..] + t, v);
      WithScoreAppend(s[1..], t, v);
      assert WithScore(s, v) == h + WithScore(s[1..], v);
    } else {
      assert s + t == t;
    }
  }

  /** A descending sequence that opens below `v` has no item scoring `v`. */
  lemma {:induction false} WithScoreNone(s: seq<Scored>, v: real)
    requires Descending(s) && (s == [] || s[0].1 < v)
    ensures WithScore(s, v) == []
  {
    if s != [] {
      WithScoreNone(s[1..], v);
    }
  }

  lemma AppendAssociative(a: seq<Scored>, b: seq<Scored>, c: seq<Scored>)
    ensures a + (b + c) == (a + b) + c
  {
  }

  lemma WithScoreCons(x: Scored, s: seq<Scored>, v: real)
    ensures WithScore([x] + s, v) == (if x.1 == v then [x] else []) + WithScore(s, v)
  {
    assert ([x] + s)[0] == x && ([x] + s)[1..] == s;
  }

  lemma {:induction false} InsertDescStable(s: seq<Scored>, x: Scored, v: real)
    requires Descending(s)
    ensures WithScore(InsertDesc(s, x), v) == WithScore(s, v) + (if x.1 == v then [x] else [])
  {
    var tail := if x.1 == v then [x] else [];
    if s == [] || s[0].1 < x.1 {
      assert InsertDesc(s, x) == [x] + s;
      WithScoreCons(x, s, v);
      if x.1 == v {
        WithScoreNone(s, v);
        assert WithScore(s, v) + tail == [x];
      } else {
        assert WithScore(s, v) + tail == WithScore(s, v);
      }
    } else {
      var h := if s[0].1 == v then [s[0]] else [];
      var rest := InsertDesc(s[1..], x);
      assert InsertDesc(s, x) == [s[0]] + rest;
      InsertDescStable(s[1..], x, v);
      WithScoreCons(s[0], rest, v);
      WithScoreCons(s[0], s[1..], v);
      assert [s[0]] + s[1..] == s;
      AppendAssociative(h, WithScore(s[1..], v), tail);
    }
  }

  /** Sorting by score in reverse keeps the items of each score in their input order. */
  lemma {:induction false} SortDescStable(s: seq<Scored>, v: real)
    ensures WithScore(SortDesc(s), v) == WithScore(s, v)
  {
    if s != [] {
      var s', x := s[..|s| - 1], s[|s| - 1];
      var tail := if x.1 == v then [x] else [];
      assert s == s' + [x];
      WithScoreAppend(s', [x], v);
      assert WithScore([x], v) == tail + WithScore([], v);
      assert SortDesc(s) == InsertDesc(SortDesc(s'), x);
      SortDescStable(s', v);
      SortDescSorted(s');
      InsertDescStable(SortDesc(s'), x, v);
      assert WithScore(SortDesc(s), v) == WithScore(s', v) + tail;
    }
  }

  lemma {:induction false} WithScorePrefix(s: seq<Scored>, k: nat, v: real)
    requires k <= |s|
    ensures WithScore(s[..k], v) <= WithScore(s, v)
  {
    assert s == s[..k] + s[k..];
    WithScoreAppend(s[..k], s[k..], v);
  }

  /** `heapq.nlargest(n, items, key=itemgetter(1))`, documented as `sorted(...)[:n]`. */
  function NLargest(n: nat, s: seq<Scored>): (r: seq<Scored>)
    ensures |r| == if n < |s| then n else |s|
  {
    var t := SortDesc(s);
    if n < |t| then t[..n] else t
  }

  /** The `n` best-scoring items come best first and are taken from the input. */
  lemma NLargestOrdered(n: nat, s: seq<Scored>)
    ensures Descending(NLargest(n, s))
    ensures multiset(NLargest(n, s)) <= multiset(s)
  {
    var t, r := SortDesc(s), NLargest(n, s);
    SortDescSorted(s);
    assert r == t[..|r|];
    DescendingPrefix(t, |r|);
    assert multiset(r) <= multiset(s) by {
      assert t == r + t[|r|..];
    }
  }

  /** No item left out scores more than any item chosen. */
  lemma NLargestBest(n: nat, s: seq<Scored>)
    ensures forall x, y :: x in NLargest(n, s) && y in s && y !in NLargest(n, s) ==> x.1 >= y.1
  {
    var t := SortDesc(s);
    SortDescSorted(s);
    DescendingPairwise(t);
    var r := NLargest(n, s);
    var k := |r|;
    assert r == t[..k];
    forall x, y | x in r && y in s && y !in r
      ensures x.1 >= y.1
    {
      assert y in multiset(s);
      assert y in t;
      var i :| 0 <= i < k && t[i] == x;
      var j :| 0 <= j < |t| && t[j] == y;
      assert j >= k;
    }
  }

  /**
   * Ties keep their input order: the chosen items of each score are a prefix of
   * that score's items in the input.
   */
  lemma NLargestStable(n: nat, s: seq<Scored>, v: real)
    ensures WithScore(NLargest(n, s), v) <= WithScore(s, v)
  {
    var t := SortDesc(s);
    assert NLargest(n, s) == t[..|NLargest(n, s)|];
    WithScorePrefix(t, |NLargest(n, s)|, v);
    SortDescStable(s, v);
  }

  // ---- statistics.mean ----

  function Sum(xs: seq<real>): real {
    if xs == [] then 0.0 else xs[0] + Sum(xs[1..])
  }

  /** `statistics.mean(xs)`; None stands for the `StatisticsError` it raises on no data. */
  function Mean(xs: seq<real>): (r: Option<real>)
    ensures r.None? <==> xs == []
  {
    if xs == [] then None else Some(Sum(xs) / |xs| as real)
  }

  lemma {:induction false} SumBounds(xs: seq<real>, lo: real, hi: real)
    requires forall i :: 0 <= i < |xs| ==> lo <= xs[i] <= hi
    ensures lo * |xs| as real <= Sum(xs) <= hi * |xs| as real
  {
    if xs != [] {
      SumBounds(xs[1..], lo, hi);
    }
  }

  /** A mean lies between any lower and upper bound of its data. */
  lemma MeanBounds(xs: seq<real>, lo: real, hi: real)
    requires xs != []
    requires forall i :: 0 <= i < |xs| ==> lo <= xs[i] <= hi
    ensures lo <= Mean(xs).value <= hi
  {
    SumBounds(xs, lo, hi);
    var n := |xs| as real;
    assert lo * n <= Sum(xs) <= hi * n;
    assert Mean(xs).value * n == Sum(xs);
  }
}
