/**
 Listen addresses: split, joined and split again. A host with colons is written in brackets
 (section 3.2.2 of RFC 3986, section 6 of RFC 5952).
 */
module Address {
  import opened Prelude
  import opened Text

  datatype Parts = Parts(host: string, port: string) | Malformed

  /** The first place of a character, or -1. */
  function First(s: string, c: char): (i: int)
    ensures -1 <= i < |s|
    ensures i < 0 ==> c !in s
    ensures i >= 0 ==> s[i] == c && c !in s[..i]
  {
    if s == "" then -1
    else if s[0] == c then 0
    else
      var i := First(s[1..], c);
      if i < 0 then -1 else
        assert s[..i + 1] == [s[0]] + s[1..][..i];
        i + 1
  }

  /** The last place of a character, or -1. */
  function Last(s: string, c: char): (i: int)
    ensures -1 <= i < |s|
    ensures i < 0 ==> c !in s
    ensures i >= 0 ==> s[i] == c && c !in s[i + 1..]
  {
    if s == "" then -1
    else
      var front, last := s[..|s| - 1], s[|s| - 1];
      assert s == front + [last];
      if last == c then |front|
      else
        var i := Last(front, c);
        if i < 0 then -1 else
          assert s[i + 1..] == front[i + 1..] + [last];
          i
  }

  /** net.SplitHostPort */
  function SplitHostPort(a: string): Parts {
    var i := Last(a, ':');
    if i < 0 then Malformed
    else if a[0] == '[' then
      var end := First(a, ']');
      if end < 0 || end + 1 != i then Malformed
      else if '[' in a[1..] || ']' in a[end + 1..] then Malformed
      else Parts(a[1..end], a[i + 1..])
    else if ':' in a[..i] then Malformed
    else if '[' in a || ']' in a then Malformed
    else Parts(a[..i], a[i + 1..])
  }

  /** net.JoinHostPort */
  function JoinHostPort(host: string, port: string): string {
    if ':' in host then "[" + host + "]:" + port else host + ":" + port
  }

  function SplitTrimmed(a: string): Parts {
    if a == "" then Parts("", "")
    else
      var r := SplitHostPort(a);
      if r.Parts? then r
      else if a[0] == ':' then Parts("", a[1..])
      else if ':' !in a then Parts(a, "")
      else Malformed
  }

  function SplitAddress(a: string): Parts { SplitTrimmed(Trim(a, Go)) }

  function JoinAddress(host: string, port: string): string {
    if port == "" then host else if host == "" then ":" + port else JoinHostPort(host, port)
  }

  function HostOf(a: string): string { var r := SplitAddress(a); if r.Parts? then r.host else "" }

  function PortOf(a: string, otherwise: string): string {
    var r := SplitAddress(a);
    if r.Malformed? || r.port == "" then otherwise else r.port
  }

  // ---------------------------------------------------------------- when a join can be split again

  predicate NoBrackets(s: string) { '[' !in s && ']' !in s }

  /** A port that can stand after any host. */
  predicate CleanPort(p: string) { NoBrackets(p) && ':' !in p && (p != "" ==> !IsSpace(p[|p| - 1], Go)) }

  predicate CleanHost(h: string) { NoBrackets(h) && (h != "" && ':' !in h ==> !IsSpace(h[0], Go)) }

  /** What a host and a non-empty port have to be for their join to split into them again. */
  predicate Splittable(h: string, p: string) {
    p != "" && !IsSpace(p[|p| - 1], Go) && (h != "" ==> CleanHost(h) && NoBrackets(p) && ':' !in p)
  }

  /** A non-space first character stops the trimming on the left. */
  lemma TrimTail(head: string, p: string)
    requires head != "" && !IsSpace(head[0], Go) && !IsSpace(head[|head| - 1], Go)
    ensures Trim(head + p, Go) == head + TrimRight(p, Go)
  {
    TrimRightTail(head, p);
  }

  lemma {:induction false} TrimRightTail(head: string, p: string)
    requires head != "" && !IsSpace(head[|head| - 1], Go)
    ensures TrimRight(head + p, Go) == head + TrimRight(p, Go)
  {
    var s := head + p;
    if p == "" {
      assert s == head;
    } else if IsSpace(p[|p| - 1], Go) {
      assert s[..|s| - 1] == head + p[..|p| - 1];
      TrimRightTail(head, p[..|p| - 1]);
    }
  }

  lemma {:induction false} TrimRightShorter(p: string)
    ensures |TrimRight(p, Go)| <= |p|
    ensures TrimRight(p, Go) == p <==> p == "" || !IsSpace(p[|p| - 1], Go)
    ensures forall c :: c in TrimRight(p, Go) ==> c in p
  {
    if p != "" && IsSpace(p[|p| - 1], Go) { TrimRightShorter(p[..|p| - 1]); }
  }

  lemma LastIn(a: string, b: string, c: char)
    requires c !in b
    ensures Last(a + [c] + b, c) == |a|
  {
    hide Last;
    var s := a + [c] + b;
    var i := Last(s, c);
    assert s[|a|] == c;
    forall m | |a| < m < |s| ensures s[m] != c { assert s[m] == b[m - |a| - 1]; }
    forall m | i < m < |s| ensures s[m] != c { assert s[m] == s[i + 1..][m - i - 1]; }
  }

  lemma FirstIn(a: string, b: string, c: char)
    requires c !in a
    ensures First(a + [c] + b, c) == |a|
  {
    hide First;
    var s := a + [c] + b;
    var i := First(s, c);
    assert s[|a|] == c;
    forall m | 0 <= m < |a| ensures s[m] != c { assert s[m] == a[m]; }
    forall m | 0 <= m < i ensures s[m] != c { assert s[m] == s[..i][m]; }
  }

  /** No host: whatever the port, only its trailing space is lost. */
  lemma SplitNoHost(p: string)
    requires p != ""
    ensures SplitAddress(JoinAddress("", p)) == Parts("", TrimRight(p, Go))
  {
    TrimTail(":", p);
    var a := ":" + TrimRight(p, Go);
    var i := Last(a, ':');
    assert a[0] == ':';
    assert i == 0 ==> a[..i] == "" && a[i + 1..] == TrimRight(p, Go);
    assert i > 0 ==> a[..i][0] == ':';
  }

  /** A split never yields more text than it was given, and keeps all of it only without brackets. */
  lemma SplitLength(a: string)
    ensures var r := SplitTrimmed(a);
            r.Parts? && r.host != "" && r.port != "" ==>
              && |r.host| + |r.port| + 1 <= |a|
              && (|r.host| + |r.port| + 1 == |a| ==> a == r.host + ":" + r.port && NoBrackets(a) && ':' !in r.host && ':' !in r.port)
  {
    var i := Last(a, ':');
    if i >= 0 && a[0] != '[' { assert a == a[..i] + ":" + a[i + 1..]; }
  }

  lemma PlainSplit(h: string, p: string)
    requires h != "" && ':' !in h && p != "" && Splittable(h, p)
    ensures SplitAddress(h + ":" + p) == Parts(h, p)
  {
    var a := h + ":" + p;
    assert a[0] == h[0] && a[|a| - 1] == p[|p| - 1];
    TrimTrims(a, Go);
    hide Trim, IsSpace, Last;
    LastIn(h, p, ':');
    assert a == h + [':'] + p;
    assert a[..|h|] == h && a[|h| + 1..] == p;
    assert forall c :: c in a ==> c in h || c == ':' || c in p;
  }

  lemma PlainUnsplit(h: string, p: string)
    requires h != "" && ':' !in h && p != ""
    requires SplitAddress(h + ":" + p) == Parts(h, p)
    ensures Splittable(h, p)
  {
    hide Trim, IsSpace, Last, SplitTrimmed;
    var a := h + ":" + p;
    TrimTrims(a, Go);
    SplitLength(Trim(a, Go));
    assert a[0] == h[0] && a[|a| - 1] == p[|p| - 1];
    assert forall c :: c in h || c in p ==> c in a;
  }

  lemma PlainJoin(h: string, p: string)
    requires h != "" && ':' !in h && p != ""
    ensures SplitAddress(JoinAddress(h, p)) == Parts(h, p) <==> Splittable(h, p)
  {
    hide SplitAddress, Splittable;
    if Splittable(h, p) { PlainSplit(h, p); }
    if SplitAddress(h + ":" + p) == Parts(h, p) { PlainUnsplit(h, p); }
  }

  lemma InnerBracket(h: string, p: string)
    requires ']' in h
    ensures var r := SplitTrimmed("[" + h + "]:" + p); r.Parts? ==> r.host != h
  {
    hide Last;
    var a := "[" + h + "]:" + p;
    var end := First(a, ']');
    var k :| 0 <= k < |h| && h[k] == ']';
    assert a[k + 1] == ']';
    forall m | 0 <= m < end ensures a[m] != ']' { assert a[m] == a[..end][m]; }
    assert 0 <= end <= k + 1;
    assert a[0] == '[' && a[|h| + 2] == ':';
    assert end > 0 && |a[1..end]| < |h|;
  }

  lemma ManyColons(h: string, p: string)
    requires ']' !in h && ':' in p
    ensures SplitTrimmed("[" + h + "]:" + p).Malformed?
  {
    hide First, Last;
    var a := "[" + h + "]:" + p;
    var i := Last(a, ':');
    FirstIn("[" + h, ":" + p, ']');
    assert a == "[" + h + [']'] + (":" + p);
    assert a[0] == '[' && a[|h| + 2] == ':';
    var k :| 0 <= k < |p| && p[k] == ':';
    assert a[|h| + 3 + k] == ':';
    forall m | i < m < |a| ensures a[m] != ':' { assert a[m] == a[i + 1..][m - i - 1]; }
  }

  lemma OneColon(h: string, p: string)
    requires ']' !in h && ':' !in p
    ensures var r := SplitTrimmed("[" + h + "]:" + p);
            if '[' !in h && NoBrackets(p) then r == Parts(h, p) else r.Malformed?
  {
    hide First, Last;
    var a := "[" + h + "]:" + p;
    FirstIn("[" + h, ":" + p, ']');
    assert a == "[" + h + [']'] + (":" + p);
    LastIn("[" + h + "]", p, ':');
    assert a == "[" + h + "]" + [':'] + p;
    assert a[1..|h| + 1] == h && a[|h| + 2..] == ":" + p && a[|h| + 3..] == p;
    assert a[1..] == h + ("]:" + p);
    assert a[0] == '[' && a[|h| + 2] == ':';
  }

  /** In brackets: host and port come back when neither holds a bracket nor the port a colon, else not this host. */
  lemma BracketSplit(h: string, p: string)
    requires h != ""
    ensures var r := SplitTrimmed("[" + h + "]:" + p);
            if NoBrackets(h) && NoBrackets(p) && ':' !in p then r == Parts(h, p)
            else r.Parts? ==> r.host != h
  {
    hide SplitTrimmed;
    if ']' in h { InnerBracket(h, p); }
    else if ':' in p { ManyColons(h, p); }
    else { OneColon(h, p); }
  }

  lemma BracketJoin(h: string, p: string)
    requires ':' in h && p != ""
    ensures SplitAddress(JoinAddress(h, p)) == Parts(h, p) <==> Splittable(h, p)
  {
    var head := "[" + h + "]:";
    TrimTail(head, p);
    TrimRightShorter(p);
    BracketSplit(h, TrimRight(p, Go));
  }

  /** Splitting the join of a host and a non-empty port returns them exactly when they are Splittable. */
  lemma SplitJoin(h: string, p: string)
    requires p != ""
    ensures SplitAddress(JoinAddress(h, p)) == Parts(h, p) <==> Splittable(h, p)
  {
    if h == "" {
      SplitNoHost(p);
      TrimRightShorter(p);
    } else if ':' in h {
      BracketJoin(h, p);
    } else {
      PlainJoin(h, p);
    }
  }

  /** What comes out of a well-formed address can be joined again, but for a bracketed host that needs no brackets. */
  lemma SplitPartsAreClean(a: string)
    requires SplitHostPort(Trim(a, Go)).Parts?
    ensures var r := SplitAddress(a);
            CleanPort(r.port) && NoBrackets(r.host) && (Trim(a, Go)[0] != '[' || ':' in r.host ==> CleanHost(r.host))
  {
    var t := Trim(a, Go);
    TrimTrims(a, Go);
    var i := Last(t, ':');
    assert t[i + 1..] != "" ==> t[i + 1..][|t| - i - 2] == t[|t| - 1];
    assert i > 0 ==> t[..i][0] == t[0];
    if t[0] == '[' {
      var end := First(t, ']');
      assert forall c :: c in t[1..end] ==> c in t[1..] && c in t[..end];
      assert forall c :: c in t[i + 1..] ==> c in t[1..] && c in t[end + 1..];
    }
  }

  // ---------------------------------------------------------------- a chain of overrides

  /** The choice of a host or port: an override, or what was there. */
  function Else(a: string, b: string): string { if a != "" then a else b }

  /** One override of an address by a host, a port or both. */
  function Override(a: string, host: string, port: string, default: string): string {
    if host == "" && port == "" then a
    else JoinAddress(Else(host, HostOf(a)), Else(port, PortOf(a, default)))
  }

  /** An override leaves an address that splits into its own host and port, else what they were, if and only if those two are Splittable. */
  lemma OverrideResolves(a: string, host: string, port: string, default: string)
    requires default != ""
    ensures var r, h, p := Override(a, host, port, default), Else(host, HostOf(a)), Else(port, PortOf(a, default));
            if host == "" && port == "" then r == a && HostOf(r) == h && PortOf(r, default) == p
            else (SplitAddress(r) == Parts(h, p) <==> Splittable(h, p))
                 && (Splittable(h, p) ==> HostOf(r) == h && PortOf(r, default) == p)
  {
    hide SplitAddress, JoinAddress, Splittable;
    if host != "" || port != "" {
      SplitJoin(Else(host, HostOf(a)), Else(port, PortOf(a, default)));
      SplittablePort(Else(host, HostOf(a)), Else(port, PortOf(a, default)));
    }
  }

  lemma SplittablePort(h: string, p: string)
    ensures Splittable(h, p) ==> p != ""
    ensures CleanHost(h) && CleanPort(p) && p != "" ==> Splittable(h, p)
  {}

  // ---------------------------------------------------------------- what an address says

  /** host:port, or [host]:port when the host has colons; brackets nowhere else, and no colon in the port. */
  predicate Says(a: string, h: string, p: string) {
    && NoBrackets(h) && NoBrackets(p) && ':' !in p
    && ((a == h + ":" + p && ':' !in h) || a == "[" + h + "]:" + p)
  }

  lemma PlainSays(h: string, p: string)
    requires NoBrackets(h) && NoBrackets(p) && ':' !in p && ':' !in h
    ensures SplitHostPort(h + ":" + p) == Parts(h, p)
  {
    hide First, Last;
    var a := h + ":" + p;
    LastIn(h, p, ':');
    assert a == h + [':'] + p;
    assert a[..|h|] == h && a[|h| + 1..] == p;
    assert forall c :: c in a ==> c in h || c == ':' || c in p;
  }

  lemma BracketSays(h: string, p: string)
    requires NoBrackets(h) && NoBrackets(p) && ':' !in p
    ensures SplitHostPort("[" + h + "]:" + p) == Parts(h, p)
  {
    hide First, Last;
    var a := "[" + h + "]:" + p;
    FirstIn("[" + h, ":" + p, ']');
    assert a == "[" + h + [']'] + (":" + p);
    LastIn("[" + h + "]", p, ':');
    assert a == "[" + h + "]" + [':'] + p;
    assert a[1..|h| + 1] == h && a[|h| + 2..] == ":" + p && a[|h| + 3..] == p && a[1..] == h + ("]:" + p);
  }

  lemma SplitSays(a: string)
    requires SplitHostPort(a).Parts?
    ensures Says(a, SplitHostPort(a).host, SplitHostPort(a).port)
  {
    hide First, Last;
    var i := Last(a, ':');
    if a[0] == '[' {
      BracketedSays(a, First(a, ']'));
    } else {
      assert a == a[..i] + ":" + a[i + 1..];
    }
  }

  lemma BracketedSays(a: string, end: nat)
    requires 0 < end < |a| - 1 && a[0] == '[' && a[end] == ']' && a[end + 1] == ':'
    requires ']' !in a[..end] && '[' !in a[1..] && ']' !in a[end + 1..] && ':' !in a[end + 2..]
    ensures Says(a, a[1..end], a[end + 2..])
  {
    var h, p := a[1..end], a[end + 2..];
    forall c | c in h ensures c in a[1..] && c in a[..end] {
      var k :| 0 <= k < |h| && h[k] == c;
      assert a[1..][k] == c && a[..end][k + 1] == c;
    }
    forall c | c in p ensures c in a[1..] && c in a[end + 1..] {
      var k :| 0 <= k < |p| && p[k] == c;
      assert a[1..][end + 1 + k] == c && a[end + 1..][k + 1] == c;
    }
    assert a == "[" + h + "]:" + p;
  }

  /** An address is split into exactly the host and the port it says, and refused when it says none. */
  lemma SplitIff(a: string, h: string, p: string)
    ensures SplitHostPort(a) == Parts(h, p) <==> Says(a, h, p)
  {
    hide SplitHostPort;
    if SplitHostPort(a).Parts? { SplitSays(a); }
    if Says(a, h, p) {
      if a == h + ":" + p && ':' !in h { PlainSays(h, p); } else { BracketSays(h, p); }
    }
  }

  /** With the exceptions the program allows: a bare port behind a colon, a bare host, and nothing at all. */
  lemma SplitAddressIs(a: string, h: string, p: string)
    ensures var t := Trim(a, Go);
            && (Says(t, h, p) ==> SplitAddress(a) == Parts(h, p))
            && ((forall g, q :: !Says(t, g, q)) ==>
                  SplitAddress(a) == if t == "" then Parts("", "")
                                     else if t[0] == ':' then Parts("", t[1..])
                                     else if ':' !in t then Parts(t, "") else Malformed)
  {
    hide SplitHostPort, Trim;
    var t := Trim(a, Go);
    SplitIff(t, h, p);
    if forall g, q :: !Says(t, g, q) {
      var r := SplitHostPort(t);
      if r.Parts? { SplitIff(t, r.host, r.port); }
    }
    if Says(t, h, p) { assert t != ""; }
  }

  // ---------------------------------------------------------------- what is left of a host or port in between

  lemma {:induction false} TrimPlain(h: string, p: string)
    ensures Trim(h + ":" + p, Go) == TrimLeft(h, Go) + ":" + TrimRight(p, Go)
  {
    var s := h + ":" + p;
    if h != "" && IsSpace(h[0], Go) {
      assert s[1..] == h[1..] + ":" + p;
      TrimPlain(h[1..], p);
    } else {
      var head := h + ":";
      assert s == head + p && head[0] == s[0];
      TrimTail(head, p);
    }
  }

  /** Splitting at a colon behind a text without one, and without brackets. */
  lemma PlainParts(g: string, p: string)
    requires ':' !in g && NoBrackets(g)
    ensures SplitTrimmed(g + ":" + p) ==
            if g == "" || (NoBrackets(p) && ':' !in p) then Parts(g, p) else Malformed
  {
    hide First, Last;
    var t := g + ":" + p;
    var i := Last(t, ':');
    assert t[|g|] == ':' && t[..|g|] == g && t[|g| + 1..] == p;
    assert t == g + [':'] + p;
    if ':' !in p { LastIn(g, p, ':'); } else { LaterColon(g, p); }
    assert forall c :: c in t <==> c in g || c == ':' || c in p;
  }

  lemma LaterColon(g: string, p: string)
    requires ':' in p
    ensures var t := g + ":" + p; var i := Last(t, ':'); i > |g| && ':' in t[..i]
  {
    hide Last;
    var t := g + ":" + p;
    var i := Last(t, ':');
    var k :| 0 <= k < |p| && p[k] == ':';
    assert t[|g| + 1 + k] == ':' && t[|g|] == ':';
    forall m | i < m < |t| ensures t[m] != ':' { assert t[m] == t[i + 1..][m - i - 1]; }
    assert t[..i][|g|] == ':';
  }

  /** What a host without brackets is after one join and split, unless it is gone. */
  function Stripped(h: string): string { if ':' in h then h else TrimLeft(h, Go) }

  lemma StrippedShorter(h: string)
    ensures |Stripped(h)| <= |h| && (forall c :: c in Stripped(h) ==> c in h)
    ensures |Stripped(h)| == |h| ==> Stripped(h) == h
  {
    TrimLeftEnds(h, Go);
    if h != "" && IsSpace(h[0], Go) { TrimLeftEnds(h[1..], Go); }
  }

  /** A host without brackets comes through as it is, but for leading space, or not at all. */
  lemma BareHost(h: string, p: string)
    requires NoBrackets(h) && p != ""
    ensures var r := SplitAddress(JoinAddress(h, p)); var q := TrimRight(p, Go);
            r == if Stripped(h) == "" || (NoBrackets(q) && ':' !in q) then Parts(Stripped(h), q) else Malformed
  {
    hide SplitTrimmed;
    if h == "" {
      SplitNoHost(p);
    } else if ':' in h {
      TrimTail("[" + h + "]:", p);
      var q := TrimRight(p, Go);
      if ':' in q { ManyColons(h, q); } else { OneColon(h, q); }
    } else {
      TrimPlain(h, p);
      StrippedShorter(h);
      PlainParts(Stripped(h), TrimRight(p, Go));
    }
  }

  /** No bracket is left in the host of a joined address. */
  lemma HostsAreBare(h: string, p: string)
    requires p != ""
    ensures NoBrackets(HostOf(JoinAddress(h, p)))
  {
    hide First, Last, Trim, JoinHostPort;
    var a := JoinAddress(h, p);
    var t := Trim(a, Go);
    ColonStays(h, p);
    if SplitHostPort(t).Parts? { SplitPartsAreClean(a); }
  }

  lemma ColonStays(h: string, p: string)
    requires p != ""
    ensures ':' in Trim(JoinAddress(h, p), Go)
  {
    if ':' in h {
      TrimTail("[" + h + "]:", p);
      assert ("[" + h + "]:" + TrimRight(p, Go))[|h| + 2] == ':';
    } else if h == "" {
      TrimTail(":", p);
      assert (":" + TrimRight(p, Go))[0] == ':';
    } else {
      TrimPlain(h, p);
      assert (TrimLeft(h, Go) + ":" + TrimRight(p, Go))[|TrimLeft(h, Go)|] == ':';
    }
  }

  /** The last character of a port that was split off is not a space. */
  predicate Ends(p: string) { p != "" && !IsSpace(p[|p| - 1], Go) }

  lemma PortEnds(a: string, default: string)
    requires Ends(default)
    ensures Ends(PortOf(a, default))
  {
    hide First, Last;
    var t := Trim(a, Go);
    TrimTrims(a, Go);
    var r := SplitTrimmed(t);
    if r.Parts? && r.port != "" {
      assert r.port[|r.port| - 1] == t[|t| - 1];
    }
  }

  /** The host comes back from a join exactly when host and port do. */
  lemma HostKept(h: string, p: string)
    requires h != "" && Ends(p)
    ensures HostOf(JoinAddress(h, p)) == h <==> Splittable(h, p)
  {
    hide JoinAddress, SplitTrimmed;
    SplitJoin(h, p);
    TrimRightShorter(p);
    if HostOf(JoinAddress(h, p)) == h {
      HostsAreBare(h, p);
      BareHost(h, p);
    }
  }

  /** A variable's host under a port of its own: what the join in between has to keep. */
  lemma HostThenPort(h: string, q: string, p: string)
    requires h != "" && Ends(q) && p != ""
    ensures SplitAddress(JoinAddress(HostOf(JoinAddress(h, q)), p)) == Parts(h, p) <==> Splittable(h, q) && Splittable(h, p)
  {
    hide SplitAddress, JoinAddress, Splittable, HostOf;
    var h1 := HostOf(JoinAddress(h, q));
    HostKept(h, q);
    SplitJoin(h, p);
    if SplitAddress(JoinAddress(h1, p)) == Parts(h, p) { HostUnchanged(h, q, p); }
  }

  lemma HostUnchanged(h: string, q: string, p: string)
    requires h != "" && q != "" && p != ""
    requires SplitAddress(JoinAddress(HostOf(JoinAddress(h, q)), p)) == Parts(h, p)
    ensures HostOf(JoinAddress(h, q)) == h
  {
    hide JoinAddress, SplitTrimmed, Stripped;
    var h1 := HostOf(JoinAddress(h, q));
    HostsAreBare(h, q);
    HostsAreBare(h1, p);
    BareHost(h1, p);
    BareHost(h, q);
    StrippedShorter(h);
    StrippedShorter(h1);
  }

  // ---------------------------------------------------------------- a flag's host over a variable's port

  /** A text in one pair of brackets. */
  predicate Wrapped(h: string) { |h| >= 2 && h[0] == '[' && h[|h| - 1] == ']' && NoBrackets(h[1..|h| - 1]) }

  /** What the file's host has to be for a variable's port to come through beside it. */
  predicate CarriesPort(h: string, p: string, default: string) { p == default || NoBrackets(h) || Wrapped(h) }

  /** Brackets in the host of an address: it is the whole text, trimmed and without a colon. */
  lemma BracketsOfFile(a: string)
    ensures var h := HostOf(a); !NoBrackets(h) ==> ':' !in h && Trimmed(h, Go)
  {
    hide First, Last;
    TrimTrims(a, Go);
    if SplitHostPort(Trim(a, Go)).Parts? { SplitPartsAreClean(a); }
  }

  /** A host with brackets but no colon: only one that is Wrapped leaves something to split. */
  lemma BracketParts(h: string, p: string)
    requires ':' !in h && !NoBrackets(h) && ':' !in p && NoBrackets(p)
    ensures SplitTrimmed(h + ":" + p) == if Wrapped(h) then Parts(h[1..|h| - 1], p) else Malformed
  {
    hide First, Last;
    var t := h + ":" + p;
    LastIn(h, p, ':');
    assert t == h + [':'] + p;
    assert t[0] == h[0] && t[|h| + 1..] == p && t[..|h|] == h;
    assert forall c :: c in h ==> c in t;
    if h[0] == '[' {
      if Wrapped(h) { WrappedEnd(h, p); } else { UnwrappedEnd(h, p); }
    }
  }

  lemma WrappedEnd(h: string, p: string)
    requires Wrapped(h) && NoBrackets(p)
    ensures var t := h + ":" + p;
            First(t, ']') == |h| - 1 && '[' !in t[1..] && ']' !in t[|h|..] && t[1..|h| - 1] == h[1..|h| - 1]
  {
    var x := h[1..|h| - 1];
    var t := h + ":" + p;
    FirstIn("[" + x, ":" + p, ']');
    assert t == "[" + x + [']'] + (":" + p);
    assert t[1..] == x + ("]:" + p) && t[|h|..] == ":" + p;
  }

  lemma UnwrappedEnd(h: string, p: string)
    requires h != "" && h[0] == '[' && !Wrapped(h)
    ensures var t := h + ":" + p; var end := First(t, ']'); end + 1 != |h| || '[' in t[1..]
  {
    hide First;
    var t := h + ":" + p;
    var end := First(t, ']');
    if end + 1 == |h| {
      assert t[..end][0] == '[';
      assert h[end] == ']' && h[1..|h| - 1] == t[..end][1..];
      assert ']' !in h[1..|h| - 1];
      var k :| 0 <= k < |h| - 2 && h[1..|h| - 1][k] == '[';
      assert t[1..][k] == '[';
    }
  }

  lemma PortCarried(a: string, p: string, default: string)
    requires CleanPort(p) && p != "" && default != ""
    ensures PortOf(JoinAddress(HostOf(a), p), default) == p <==> CarriesPort(HostOf(a), p, default)
  {
    hide SplitTrimmed, Trim;
    var h := HostOf(a);
    TrimRightShorter(p);
    if NoBrackets(h) {
      BareHost(h, p);
    } else {
      BracketsOfFile(a);
      var t := h + ":" + p;
      assert t[0] == h[0] && t[|t| - 1] == p[|p| - 1];
      TrimTrims(t, Go);
      BracketParts(h, p);
    }
  }

  lemma PortThenHost(a: string, h: string, p: string, default: string)
    requires h != "" && p != "" && Ends(default)
    ensures SplitAddress(JoinAddress(h, PortOf(JoinAddress(HostOf(a), p), default))) == Parts(h, p)
            <==> Splittable(h, p) && CarriesPort(HostOf(a), p, default)
  {
    hide SplitAddress, JoinAddress, HostOf, PortOf, CarriesPort;
    var p1 := PortOf(JoinAddress(HostOf(a), p), default);
    PortEnds(JoinAddress(HostOf(a), p), default);
    SplitJoin(h, p1);
    HostKept(h, p1);
    HostOfParts(JoinAddress(h, p1), h, p);
    if Splittable(h, p) { PortCarried(a, p, default); }
  }

  lemma HostOfParts(a: string, h: string, p: string)
    ensures SplitAddress(a) == Parts(h, p) ==> HostOf(a) == h
  {}

  // ---------------------------------------------------------------- the whole chain

  /** Host variable, port variable, then both flags, each over what the ones before have left. */
  function Chain(file: string, varHost: string, varPort: string, host: string, port: string, default: string): string {
    Override(Override(Override(file, varHost, "", default), "", varPort, default), host, port, default)
  }

  /**
   * What a caller has to give for the chain to end with their host and port: the final pair is Splittable; so is a
   * variable's host with the file's port, if another port follows; and a variable's port comes through beside the
   * file's host, if a flag's host follows.
   */
  predicate Fits(file: string, varHost: string, varPort: string, host: string, port: string, default: string) {
    && Splittable(Else(host, Else(varHost, HostOf(file))), Else(port, Else(varPort, PortOf(file, default))))
    && (varHost != "" && (varPort != "" || port != "") ==> Splittable(varHost, PortOf(file, default)))
    && (host != "" && varPort != "" ==> CarriesPort(HostOf(file), varPort, default))
  }

  /** Without a flag's host over a variable's port, which comes last. */
  lemma ChainByHost(file: string, varHost: string, varPort: string, host: string, port: string, default: string)
    requires Ends(default) && (host != "" ==> varHost == "") && (port != "" ==> varPort == "")
    requires !(host != "" && varPort != "")
    ensures (varHost != "" || varPort != "" || host != "" || port != "") ==>
              (SplitAddress(Chain(file, varHost, varPort, host, port, default))
                 == Parts(Else(host, Else(varHost, HostOf(file))), Else(port, Else(varPort, PortOf(file, default))))
               <==> Fits(file, varHost, varPort, host, port, default))
  {
    hide SplitAddress, JoinAddress, HostOf, PortOf, Splittable;
    var p := PortOf(file, default);
    PortEnds(file, default);
    if varHost != "" && (varPort != "" || port != "") {
      HostThenPort(varHost, p, Else(port, varPort));
    } else {
      SplitJoin(Else(host, Else(varHost, HostOf(file))), Else(port, Else(varPort, p)));
    }
  }

  /** The chain ends with the host and port it should, exactly when they fit; what nothing overrides stays as it is. */
  lemma ChainResolves(file: string, varHost: string, varPort: string, host: string, port: string, default: string)
    requires Ends(default) && (host != "" ==> varHost == "") && (port != "" ==> varPort == "")
    ensures var r := Chain(file, varHost, varPort, host, port, default);
            if varHost == "" && varPort == "" && host == "" && port == "" then r == file
            else SplitAddress(r) == Parts(Else(host, Else(varHost, HostOf(file))), Else(port, Else(varPort, PortOf(file, default))))
                 <==> Fits(file, varHost, varPort, host, port, default)
  {
    hide SplitAddress, JoinAddress, HostOf, PortOf, Splittable;
    if host != "" && varPort != "" {
      PortThenHost(file, host, varPort, default);
    } else {
      ChainByHost(file, varHost, varPort, host, port, default);
    }
  }
}
