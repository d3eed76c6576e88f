/** Nearest-rank percentiles, over exact numbers. */
module Percentile {
  import opened Prelude

  predicate Sorted(s: seq<real>) { forall i, j :: 0 <= i < j < |s| ==> s[i] <= s[j] }

  function Insert(x: real, s: seq<real>): seq<real> {
    if s == [] || x <= s[0] then [x] + s else [s[0]] + Insert(x, s[1..])
  }

  function Sort(values: seq<real>): seq<real> {
    if values == [] then [] else Insert(values[0], Sort(values[1..]))
  }

  function Ceil(x: real): int { -((-x).Floor) }

  /** The rank of the quantile, counted from one. */
  function Rank(n: nat, p: real): int { Ceil(n as real * p) }

  /** None for the empty distribution, which is refused. */
  function Percentile(values: seq<real>, p: real): Option<real>
    requires p <= 1.0
  {
    if values == [] then None
    else
      SortKeeps(values);
      RankBound(|values|, p);
      Some(Sort(values)[Max(0, Rank(|values|, p) - 1)])
  }

  function AtMost(s: seq<real>, r: real): nat { if s == [] then 0 else (if s[0] <= r then 1 else 0) + AtMost(s[1..], r) }
  function AtLeast(s: seq<real>, r: real): nat { if s == [] then 0 else (if r <= s[0] then 1 else 0) + AtLeast(s[1..], r) }

  lemma RankBound(n: nat, p: real)
    requires p <= 1.0
    ensures Rank(n, p) <= n
  {
    ScaledMonotone(n, p, 1.0);
  }

  lemma ScaledMonotone(n: nat, p: real, q: real)
    requires p <= q
    ensures n as real * p <= n as real * q
  {}

  lemma RankMonotone(n: nat, p: real, q: real)
    requires p <= q
    ensures Rank(n, p) <= Rank(n, q)
  {
    ScaledMonotone(n, p, q);
  }

  lemma RankPositive(n: nat, p: real)
    requires n > 0 && p > 0.0
    ensures Rank(n, p) >= 1
  {
    assert n as real * p > 0.0;
  }

  lemma RankOfOne(n: nat)
    ensures Rank(n, 1.0) == n
  {}

  lemma {:induction false} InsertKeepsValues(x: real, s: seq<real>)
    ensures multiset(Insert(x, s)) == multiset(s) + multiset{x} && |Insert(x, s)| == |s| + 1
  {
    if s != [] && x > s[0] {
      InsertKeepsValues(x, s[1..]);
      assert s == [s[0]] + s[1..];
    }
  }

  lemma {:induction false} InsertKeepsOrder(x: real, s: seq<real>)
    requires Sorted(s)
    ensures Sorted(Insert(x, s))
  {
    if s != [] && x > s[0] {
      InsertKeepsOrder(x, s[1..]);
      InsertKeepsValues(x, s[1..]);
      hide Insert;
      HeadIsLeast(s, x, Insert(x, s[1..]));
    }
  }

  lemma HeadIsLeast(s: seq<real>, x: real, rest: seq<real>)
    requires s != [] && Sorted(s) && s[0] < x && Sorted(rest) && multiset(rest) == multiset(s[1..]) + multiset{x}
    ensures Sorted([s[0]] + rest)
  {
    forall i | 0 <= i < |rest| ensures s[0] <= rest[i] {
      assert rest[i] in multiset(rest);
      if rest[i] != x {
        assert rest[i] in s[1..];
        var k :| 0 <= k < |s[1..]| && s[1..][k] == rest[i];
        assert s[k + 1] == rest[i];
      }
    }
  }

  lemma {:induction false} InsertCounts(x: real, s: seq<real>, r: real)
    ensures AtMost(Insert(x, s), r) == AtMost(s, r) + (if x <= r then 1 else 0)
    ensures AtLeast(Insert(x, s), r) == AtLeast(s, r) + (if r <= x then 1 else 0)
  {
    if s == [] || x <= s[0] {
      assert ([x] + s)[1..] == s;
    } else {
      InsertCounts(x, s[1..], r);
      var rest := Insert(x, s[1..]);
      assert ([s[0]] + rest)[1..] == rest;
    }
  }

  lemma {:induction false} SortKeeps(values: seq<real>)
    ensures multiset(Sort(values)) == multiset(values) && |Sort(values)| == |values| && Sorted(Sort(values))
  {
    hide Insert, Sorted;
    if values == [] {
      assert Sorted([]) by { EmptySorted(); }
    } else {
      var rest := Sort(values[1..]);
      SortKeeps(values[1..]);
      InsertKeepsValues(values[0], rest);
      InsertKeepsOrder(values[0], rest);
      assert values == [values[0]] + values[1..];
    }
  }

  lemma EmptySorted()
    ensures Sorted([])
  {}

  lemma {:induction false} SortCounts(values: seq<real>, r: real)
    ensures AtMost(Sort(values), r) == AtMost(values, r) && AtLeast(Sort(values), r) == AtLeast(values, r)
  {
    if values != [] {
      SortCounts(values[1..], r);
      InsertCounts(values[0], Sort(values[1..]), r);
    }
  }

  lemma {:induction false} CountAtMost(s: seq<real>, r: real, k: nat)
    requires k <= |s| && forall i :: 0 <= i < k ==> s[i] <= r
    ensures AtMost(s, r) >= k
  {
    if k > 0 { CountAtMost(s[1..], r, k - 1); }
  }

  lemma {:induction false} CountAtLeast(s: seq<real>, r: real, k: nat)
    requires k <= |s| && forall i :: k <= i < |s| ==> r <= s[i]
    ensures AtLeast(s, r) >= |s| - k
  {
    if s != [] { CountAtLeast(s[1..], r, if k == 0 then 0 else k - 1); }
  }

  /** The result is one of the values; at least Rank of them are no larger, and at least n - Rank + 1 no smaller. */
  lemma IsNearestRank(values: seq<real>, p: real)
    requires values != [] && 0.0 < p <= 1.0
    ensures var r, n, k := Percentile(values, p).value, |values|, Rank(|values|, p);
            1 <= k <= n && r in values && AtMost(values, r) >= k && AtLeast(values, r) >= n - k + 1
  {
    hide Sort, Rank, AtMost, AtLeast;
    var n, k := |values|, Rank(|values|, p);
    RankBound(n, p);
    RankPositive(n, p);
    SortKeeps(values);
    var s := Sort(values);
    SortCounts(values, s[k - 1]);
    assert s[k - 1] in multiset(s);
    CountAtMost(s, s[k - 1], k);
    CountAtLeast(s, s[k - 1], k - 1);
  }

  lemma HeadsAgree(a: seq<real>, b: seq<real>)
    requires Sorted(a) && Sorted(b) && multiset(a) == multiset(b) && a != [] && b != []
    ensures a[0] == b[0]
  {
    assert a[0] in multiset(b) && b[0] in multiset(a);
    var i :| 0 <= i < |b| && b[i] == a[0];
    var j :| 0 <= j < |a| && a[j] == b[0];
  }

  lemma {:induction false} SortedUnique(a: seq<real>, b: seq<real>)
    requires Sorted(a) && Sorted(b) && multiset(a) == multiset(b)
    ensures a == b
  {
    assert |multiset(a)| == |a| && |multiset(b)| == |b|;
    if a != [] {
      HeadsAgree(a, b);
      assert Sorted(a[1..]) && Sorted(b[1..]);
      hide Sorted;
      assert a == [a[0]] + a[1..] && b == [b[0]] + b[1..];
      assert multiset(a[1..]) == multiset(a) - multiset{a[0]} == multiset(b[1..]);
      SortedUnique(a[1..], b[1..]);
    }
  }

  lemma OrderIrrelevant(a: seq<real>, b: seq<real>, p: real)
    requires p <= 1.0 && multiset(a) == multiset(b)
    ensures Percentile(a, p) == Percentile(b, p)
  {
    SortKeeps(a);
    SortKeeps(b);
    assert |multiset(a)| == |a| && |multiset(b)| == |b|;
    SortedUnique(Sort(a), Sort(b));
  }

  lemma Monotone(values: seq<real>, p: real, q: real)
    requires values != [] && p <= q <= 1.0
    ensures Percentile(values, p).value <= Percentile(values, q).value
  {
    hide Sort, Rank;
    SortKeeps(values);
    RankBound(|values|, q);
    RankMonotone(|values|, p, q);
  }

  lemma FullPercentile(values: seq<real>)
    requires values != []
    ensures forall v :: v in values ==> v <= Percentile(values, 1.0).value
    ensures Percentile(values, 1.0).value in values
  {
    hide Sort, Rank;
    SortKeeps(values);
    RankOfOne(|values|);
    var s := Sort(values);
    assert s[|s| - 1] in multiset(s);
    forall v | v in values ensures v <= s[|s| - 1] {
      assert v in multiset(s);
      var k :| 0 <= k < |s| && s[k] == v;
    }
  }

  /** The loop behind max(). */
  method Largest(values: seq<real>) returns (m: real)
    requires values != []
    ensures m in values && forall v :: v in values ==> v <= m
  {
    m := values[0];
    var i := 1;
    while i < |values|
      invariant 1 <= i <= |values|
      invariant m in values && forall k :: 0 <= k < i ==> values[k] <= m
    {
      if values[i] > m { m := values[i]; }
      i := i + 1;
    }
  }

  /** In every summary p50, p95, p99 and the maximum stand in order, and the maximum is the percentile of 1. */
  lemma SummaryInOrder(values: seq<real>, max: real)
    requires values != [] && max in values && forall v :: v in values ==> v <= max
    ensures Percentile(values, 0.5).value <= Percentile(values, 0.95).value <= Percentile(values, 0.99).value <= max
    ensures Percentile(values, 1.0).value == max
  {
    hide Percentile;
    Monotone(values, 0.5, 0.95);
    Monotone(values, 0.95, 0.99);
    Monotone(values, 0.99, 1.0);
    FullPercentile(values);
  }
}
