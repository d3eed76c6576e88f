/** The measurement plan: rotated backend order and the names of the cases. */
module Rotation {
  import opened Prelude
  import opened Text
  import opened Address

  // ---------------------------------------------------------------- the rotation

  function Order(backends: seq<string>, trial: nat): (o: seq<string>)
    requires backends != []
  {
    backends[trial % |backends|..] + backends[..trial % |backends|]
  }

  lemma ModIs(x: int, k: int, q: int, r: int)
    requires k > 0 && x == k * q + r && 0 <= r < k
    ensures x % k == r
  {
    assert x == k * (x / k) + x % k;
    QuotientUnique(k, q, r, x / k, x % k);
  }

  lemma QuotientUnique(k: int, q: int, r: int, q': int, r': int)
    requires k > 0 && k * q + r == k * q' + r' && 0 <= r < k && 0 <= r' < k
    ensures r == r'
  {
    var t := q - q';
    assert k * t == k * q - k * q';
    AtLeastOnce(k, t);
  }

  lemma AtLeastOnce(k: int, t: int)
    requires k > 0
    ensures t >= 1 ==> k * t >= k
    ensures t <= -1 ==> k * t <= -k
  {
    if t >= 1 { assert k * (t - 1) >= 0; }
    if t <= -1 { assert k * (-t - 1) >= 0; }
  }

  /** Counting on from a: d steps lead to j exactly for one d below k. */
  lemma StepsTo(a: nat, d: nat, k: nat, j: nat)
    requires d < k && j < k
    ensures (a + d) % k == j <==> d == (j - a) % k
  {
    var q, r := a / k, a % k;
    assert a == k * q + r;
    if r + d < k { ModIs(a + d, k, q, r + d); } else { Carry(k, q); ModIs(a + d, k, q + 1, r + d - k); }
    if j >= r { ModIs(j - a, k, -q, j - r); } else { Carry(k, -q - 1); ModIs(j - a, k, -q - 1, j - r + k); }
  }

  lemma Carry(k: int, q: int)
    ensures k * (q + 1) == k * q + k
  {}

  /** Each trial runs every backend; at position i it runs the one i places on from the trial's own. */
  lemma OrderPermutes(backends: seq<string>, trial: nat)
    requires backends != []
    ensures |Order(backends, trial)| == |backends|
    ensures multiset(Order(backends, trial)) == multiset(backends)
    ensures forall i :: 0 <= i < |backends| ==> Order(backends, trial)[i] == backends[(trial + i) % |backends|]
  {
    var k := |backends|;
    var m := trial % k;
    assert backends == backends[..m] + backends[m..];
    forall i | 0 <= i < k ensures Order(backends, trial)[i] == backends[(trial + i) % k] {
      assert trial == k * (trial / k) + m;
      if m + i < k { ModIs(trial + i, k, trial / k, m + i); }
      else { Carry(k, trial / k); ModIs(trial + i, k, trial / k + 1, m + i - k); }
    }
  }

  /** Over any k consecutive trials of k backends, each backend takes each position in exactly one trial. */
  lemma EachPositionOnce(backends: seq<string>, first: nat, d: nat, i: nat, j: nat)
    requires Distinct(backends) && d < |backends| && i < |backends| && j < |backends|
    ensures |Order(backends, first + d)| == |backends|
    ensures Order(backends, first + d)[i] == backends[j] <==> d == (j - (first + i)) % |backends|
  {
    OrderPermutes(backends, first + d);
    assert Order(backends, first + d)[i] == backends[(first + d + i) % |backends|];
    assert first + d + i == first + i + d;
    StepsTo(first + i, d, |backends|, j);
  }

  // ---------------------------------------------------------------- the cases

  datatype Case = PathCase(path: nat, trial: nat) | CurveCase(backend: string, n: nat, trial: nat)

  /** The name of a case; the separator is a dash, and an underscore for database names. */
  function IdWith(c: Case, sep: char): string {
    match c
    case PathCase(path, trial) => "path" + [sep] + Decimal(path) + [sep] + "r" + Decimal(trial)
    case CurveCase(backend, n, trial) =>
      "curve" + [sep] + backend + [sep] + "n" + Padded(Decimal(n), 3) + [sep] + "r" + Decimal(trial)
  }

  function Id(c: Case): string { IdWith(c, '-') }

  function Rewritten(s: string): string { seq(|s|, i requires 0 <= i < |s| => if s[i] == '-' then '_' else s[i]) }

  lemma RewrittenConcat(a: string, b: string)
    ensures Rewritten(a + b) == Rewritten(a) + Rewritten(b)
  {}

  lemma RewrittenPlain(s: string)
    requires '-' !in s
    ensures Rewritten(s) == s
  {
    forall i | 0 <= i < |s| ensures s[i] != '-' { assert s[i] in s; }
  }

  predicate PlainBackend(c: Case) { c.CurveCase? ==> '-' !in c.backend }

  lemma PathName(c: Case)
    requires c.PathCase?
    ensures Rewritten(Id(c)) == IdWith(c, '_')
  {
    hide Rewritten, Decimal;
    DigitsHaveNoDash(c.path);
    DigitsHaveNoDash(c.trial);
    var tail := "r" + Decimal(c.trial);
    Rewrite2("path", Decimal(c.path), tail);
    assert Id(c) == "path" + "-" + Decimal(c.path) + "-" + tail;
    assert IdWith(c, '_') == "path" + "_" + Decimal(c.path) + "_" + tail;
  }

  lemma CurveName(c: Case)
    requires c.CurveCase? && '-' !in c.backend
    ensures Rewritten(Id(c)) == IdWith(c, '_')
  {
    hide Rewritten, Decimal, Padded;
    DigitsHaveNoDash(c.n);
    DigitsHaveNoDash(c.trial);
    var n, tail := "n" + Padded(Decimal(c.n), 3), "r" + Decimal(c.trial);
    Rewrite2(c.backend, n, tail);
    var rest := c.backend + "-" + n + "-" + tail;
    Rewrite1("curve", rest);
    assert Id(c) == "curve" + "-" + rest;
    assert IdWith(c, '_') == "curve" + "_" + (c.backend + "_" + n + "_" + tail);
  }

  lemma Rewrite1(a: string, b: string)
    requires '-' !in a
    ensures Rewritten(a + "-" + b) == a + "_" + Rewritten(b)
  {
    RewrittenPlain(a);
    RewrittenConcat(a + "-", b);
    RewrittenConcat(a, "-");
    assert Rewritten("-") == "_";
  }

  lemma DigitsHaveNoDash(n: nat)
    ensures '-' !in Decimal(n) && '-' !in Padded(Decimal(n), 3)
  {
    DecimalDigits(n);
    PaddedValue(Decimal(n), 3);
    NoDash(Decimal(n));
    NoDash(Padded(Decimal(n), 3));
  }

  /** The database name of a case is its name with the other separator. */
  lemma DatabaseName(c: Case)
    requires PlainBackend(c)
    ensures Rewritten(Id(c)) == IdWith(c, '_')
  {
    hide Rewritten, Id, IdWith;
    if c.PathCase? { PathName(c); } else { CurveName(c); }
  }

  lemma NoDash(s: string)
    requires Digits(s)
    ensures '-' !in s && 'n' !in s && 'r' !in s
  {}

  lemma Rewrite2(a: string, b: string, c: string)
    requires '-' !in a && '-' !in b && '-' !in c
    ensures Rewritten(a + "-" + b + "-" + c) == a + "_" + b + "_" + c
  {
    RewrittenPlain(a);
    RewrittenPlain(b);
    RewrittenPlain(c);
    RewrittenConcat(a + "-" + b + "-", c);
    RewrittenConcat(a + "-" + b, "-");
    RewrittenConcat(a + "-", b);
    RewrittenConcat(a, "-");
    assert Rewritten("-") == "_";
  }

  /** A text is determined by what stands before and after the last occurrence of a character. */
  lemma SplitAtLast(a: string, d: string, b: string, e: string, c: char)
    requires c !in d && c !in e && a + [c] + d == b + [c] + e
    ensures a == b && d == e
  {
    LastIn(a, d, c);
    LastIn(b, e, c);
    var s := a + [c] + d;
    assert a == s[..|a|] && b == (b + [c] + e)[..|b|];
    assert d == s[|a| + 1..] && e == (b + [c] + e)[|b| + 1..];
  }

  /** What stands before the trial number. */
  function Stem(c: Case, sep: char): string {
    match c
    case PathCase(path, _) => "path" + [sep] + Decimal(path) + [sep]
    case CurveCase(backend, n, _) => "curve" + [sep] + backend + [sep] + "n" + Padded(Decimal(n), 3) + [sep]
  }

  lemma IdFromStem(c: Case, sep: char)
    ensures IdWith(c, sep) == Stem(c, sep) + ['r'] + Decimal(c.trial)
  {}

  lemma StemInjective(c: Case, d: Case, sep: char)
    requires Stem(c, sep) == Stem(d, sep)
    ensures c.PathCase? == d.PathCase?
    ensures c.PathCase? && d.PathCase? ==> c.path == d.path
    ensures c.CurveCase? && d.CurveCase? ==> c.backend == d.backend && c.n == d.n
  {
    var s := Stem(c, sep);
    assert s[0] == (if c.PathCase? then 'p' else 'c') && s[0] == (if d.PathCase? then 'p' else 'c');
    if c.PathCase? {
      assert s[5..|s| - 1] == Decimal(c.path) && s[5..|s| - 1] == Decimal(d.path);
      DecimalInjective(c.path, d.path);
    } else {
      var a, b := "curve" + [sep] + c.backend + [sep], "curve" + [sep] + d.backend + [sep];
      var x, y := Padded(Decimal(c.n), 3), Padded(Decimal(d.n), 3);
      assert s[..|s| - 1] == a + ['n'] + x && s[..|s| - 1] == b + ['n'] + y;
      PaddedNumber(c.n);
      PaddedNumber(d.n);
      SplitAtLast(a, x, b, y, 'n');
      assert a[6..|a| - 1] == c.backend && b[6..|b| - 1] == d.backend;
    }
  }

  lemma PaddedNumber(n: nat)
    ensures Value(Padded(Decimal(n), 3)) == n && 'n' !in Padded(Decimal(n), 3)
  {
    DecimalDigits(n);
    DecimalValue(n);
    PaddedValue(Decimal(n), 3);
    NoDash(Padded(Decimal(n), 3));
  }

  /** Names of different cases differ, with either separator, whatever the backends are called. */
  lemma IdInjective(c: Case, d: Case, sep: char)
    requires IdWith(c, sep) == IdWith(d, sep)
    ensures c == d
  {
    IdFromStem(c, sep);
    IdFromStem(d, sep);
    DecimalDigits(c.trial);
    DecimalDigits(d.trial);
    NoDash(Decimal(c.trial));
    NoDash(Decimal(d.trial));
    SplitAtLast(Stem(c, sep), Decimal(c.trial), Stem(d, sep), Decimal(d.trial), 'r');
    DecimalInjective(c.trial, d.trial);
    hide Stem;
    StemInjective(c, d, sep);
  }

  lemma NamesStayDistinct(c: Case, d: Case)
    requires c != d
    ensures Id(c) != Id(d)
    ensures PlainBackend(c) && PlainBackend(d) ==> Rewritten(Id(c)) != Rewritten(Id(d))
  {
    hide IdWith;
    if Id(c) == Id(d) { IdInjective(c, d, '-'); }
    if PlainBackend(c) && PlainBackend(d) {
      DatabaseName(c);
      DatabaseName(d);
      if IdWith(c, '_') == IdWith(d, '_') { IdInjective(c, d, '_'); }
    }
  }

  // ---------------------------------------------------------------- the plan

  datatype Selection = Everything | OnlyPaths | OnlyCurves

  const PATHS := 3

  predicate Planned(c: Case, part: Selection, trials: nat, counts: seq<nat>, backends: seq<string>) {
    match c
    case PathCase(path, trial) => part != OnlyCurves && path < PATHS && trial < trials
    case CurveCase(backend, n, trial) => part != OnlyPaths && backend in backends && n in counts && trial < trials
  }

  lemma DistinctPush(cases: seq<Case>, c: Case)
    requires Distinct(cases) && c !in cases
    ensures Distinct(cases + [c])
  {}

  lemma {:induction false} DistinctPrefix<T>(s: seq<T>, k: nat)
    requires Distinct(s) && k < |s|
    ensures s[k] !in s[..k]
  {}

  method PathTrial(trial: nat) returns (cases: seq<Case>)
    ensures Distinct(cases) && forall c :: c in cases <==> c.PathCase? && c.path < PATHS && c.trial == trial
  {
    cases := [];
    var p := 0;
    while p < PATHS
      invariant 0 <= p <= PATHS
      invariant Distinct(cases) && forall c :: c in cases <==> c.PathCase? && c.path < p && c.trial == trial
    {
      DistinctPush(cases, PathCase(p, trial));
      cases := cases + [PathCase(p, trial)];
      p := p + 1;
    }
  }

  method CurveRow(trial: nat, n: nat, order: seq<string>) returns (cases: seq<Case>)
    requires Distinct(order)
    ensures Distinct(cases) && forall c :: c in cases <==> c.CurveCase? && c.backend in order && c.n == n && c.trial == trial
    ensures |cases| == |order| && forall i :: 0 <= i < |order| ==> cases[i] == CurveCase(order[i], n, trial)
  {
    cases := [];
    var i := 0;
    while i < |order|
      invariant 0 <= i <= |order| && |cases| == i
      invariant forall k :: 0 <= k < i ==> cases[k] == CurveCase(order[k], n, trial)
      invariant Distinct(cases) && forall c :: c in cases <==> c.CurveCase? && c.backend in order[..i] && c.n == n && c.trial == trial
    {
      DistinctPrefix(order, i);
      DistinctPush(cases, CurveCase(order[i], n, trial));
      assert order[..i + 1] == order[..i] + [order[i]];
      cases := cases + [CurveCase(order[i], n, trial)];
      i := i + 1;
    }
    assert order[..i] == order;
  }

  method CurveTrial(trial: nat, counts: seq<nat>, order: seq<string>) returns (cases: seq<Case>)
    requires Distinct(order) && Distinct(counts)
    ensures Distinct(cases) && forall c :: c in cases <==> c.CurveCase? && c.backend in order && c.n in counts && c.trial == trial
  {
    cases := [];
    var i := 0;
    while i < |counts|
      invariant 0 <= i <= |counts|
      invariant Distinct(cases)
      invariant forall c :: c in cases <==> c.CurveCase? && c.backend in order && c.n in counts[..i] && c.trial == trial
    {
      var row := CurveRow(trial, counts[i], order);
      DistinctPrefix(counts, i);
      DistinctConcat(cases, row);
      assert counts[..i + 1] == counts[..i] + [counts[i]];
      cases := cases + row;
      i := i + 1;
    }
    assert counts[..i] == counts;
  }

  lemma OrderDistinct(backends: seq<string>, trial: nat)
    requires backends != [] && Distinct(backends)
    ensures Distinct(Order(backends, trial)) && forall b :: b in Order(backends, trial) <==> b in backends
  {
    var m := trial % |backends|;
    assert backends == backends[..m] + backends[m..];
    forall b | b in backends[m..] ensures b !in backends[..m] { DistinctSplit(backends[..m], backends[m..], b); }
    DistinctConcat(backends[m..], backends[..m]);
  }

  /** The loops run every planned case once, and no two under the same name or the same database name. */
  method Measure(part: Selection, trials: nat, counts: seq<nat>, backends: seq<string>) returns (cases: seq<Case>)
    requires backends != [] && Distinct(backends) && Distinct(counts)
    requires forall b :: b in backends ==> '-' !in b
    ensures forall c :: c in cases <==> Planned(c, part, trials, counts, backends)
    ensures forall i, j :: 0 <= i < j < |cases| ==>
              Id(cases[i]) != Id(cases[j]) && Rewritten(Id(cases[i])) != Rewritten(Id(cases[j]))
  {
    hide Id, Rewritten, Order;
    cases := [];
    var trial := 0;
    if part != OnlyCurves {
      while trial < trials
        invariant 0 <= trial <= trials && Distinct(cases)
        invariant forall c :: c in cases <==> c.PathCase? && c.path < PATHS && c.trial < trial
      {
        var more := PathTrial(trial);
        DistinctConcat(cases, more);
        cases := cases + more;
        trial := trial + 1;
      }
    }
    ghost var paths := cases;
    if part != OnlyPaths {
      trial := 0;
      while trial < trials
        invariant 0 <= trial <= trials && Distinct(cases)
        invariant forall c :: c in cases <==>
                    c in paths || (c.CurveCase? && c.backend in backends && c.n in counts && c.trial < trial)
      {
        OrderDistinct(backends, trial);
        var more := CurveTrial(trial, counts, Order(backends, trial));
        DistinctConcat(cases, more);
        cases := cases + more;
        trial := trial + 1;
      }
    }
    forall i, j | 0 <= i < j < |cases|
      ensures Id(cases[i]) != Id(cases[j]) && Rewritten(Id(cases[i])) != Rewritten(Id(cases[j]))
    {
      assert cases[i] in cases && cases[j] in cases;
      NamesStayDistinct(cases[i], cases[j]);
    }
  }
}
