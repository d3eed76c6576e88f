/** Strings as the editor handles them: trimming, splitting at commas, joining, decimal numbers. */
module Text {
  import opened Prelude

  /** Whose notion of white space applies: String.prototype.trim or strings.TrimSpace. */
  datatype Space = JavaScript | Go

  predicate IsSpace(c: char, sp: Space) {
    || c == ' ' || '\t' <= c <= '\r' || c == '\U{A0}' || c == '\U{1680}' || '\U{2000}' <= c <= '\U{200A}'
    || c == '\U{2028}' || c == '\U{2029}' || c == '\U{202F}' || c == '\U{205F}' || c == '\U{3000}'
    || c == (if sp == Go then '\U{85}' else '\U{FEFF}')
  }

  function TrimLeft(s: string, sp: Space): string {
    if s != "" && IsSpace(s[0], sp) then TrimLeft(s[1..], sp) else s
  }

  function TrimRight(s: string, sp: Space): string {
    if s != "" && IsSpace(s[|s| - 1], sp) then TrimRight(s[..|s| - 1], sp) else s
  }

  function Trim(s: string, sp: Space := JavaScript): string { TrimRight(TrimLeft(s, sp), sp) }

  /** Nothing to trim. */
  predicate Trimmed(s: string, sp: Space := JavaScript) { s == "" || (!IsSpace(s[0], sp) && !IsSpace(s[|s| - 1], sp)) }

  lemma {:induction false} TrimLeftEnds(s: string, sp: Space)
    ensures var t := TrimLeft(s, sp); (t == "" || !IsSpace(t[0], sp)) && |t| <= |s| && forall c :: c in t ==> c in s
  {
    if s != "" && IsSpace(s[0], sp) { TrimLeftEnds(s[1..], sp); }
  }

  lemma {:induction false} TrimRightEnds(s: string, sp: Space)
    requires s == "" || !IsSpace(s[0], sp)
    ensures var t := TrimRight(s, sp); Trimmed(t, sp) && |t| <= |s| && forall c :: c in t ==> c in s
  {
    if s != "" && IsSpace(s[|s| - 1], sp) { TrimRightEnds(s[..|s| - 1], sp); }
  }

  lemma TrimTrims(s: string, sp: Space := JavaScript)
    ensures var t := Trim(s, sp);
            Trimmed(t, sp) && |t| <= |s| && (forall c :: c in t ==> c in s) && (t == s <==> Trimmed(s, sp))
  {
    TrimLeftEnds(s, sp);
    TrimRightEnds(TrimLeft(s, sp), sp);
  }

  /** The pieces between separators, at least one. */
  function Split(s: string, sep: char): (parts: seq<string>)
    ensures parts != []
  {
    if s == "" then [""]
    else
      var rest := Split(s[1..], sep);
      if s[0] == sep then [""] + rest else [[s[0]] + rest[0]] + rest[1..]
  }

  /** split, trim each, drop the empty ones. */
  function Tags(text: string): seq<string> { NonBlank(Split(text, ',')) }

  function NonBlank(parts: seq<string>): seq<string> {
    if parts == [] then []
    else (if Trim(parts[0]) != "" then [Trim(parts[0])] else []) + NonBlank(parts[1..])
  }

  function Join(parts: seq<string>): string {
    if parts == [] then "" else if |parts| == 1 then parts[0] else parts[0] + ", " + Join(parts[1..])
  }

  /** What Tags yields: non-empty, trimmed, without a comma. */
  predicate IsTag(t: string) { t != "" && Trimmed(t) && ',' !in t }

  predicate AreTags(ts: seq<string>) { forall k :: 0 <= k < |ts| ==> IsTag(ts[k]) }

  lemma {:induction false} SplitParts(s: string, sep: char)
    ensures forall k :: 0 <= k < |Split(s, sep)| ==> sep !in Split(s, sep)[k]
  {
    if s != "" { SplitParts(s[1..], sep); }
  }

  lemma {:induction false} NonBlankAreTags(parts: seq<string>)
    requires forall k :: 0 <= k < |parts| ==> ',' !in parts[k]
    ensures AreTags(NonBlank(parts))
  {
    if parts != [] {
      NonBlankAreTags(parts[1..]);
      TrimTrims(parts[0]);
      assert ',' !in parts[0];
    }
  }

  lemma TagsAreTags(text: string)
    ensures AreTags(Tags(text))
  {
    SplitParts(text, ',');
    NonBlankAreTags(Split(text, ','));
  }

  /** A separator-free beginning stays in the first piece. */
  lemma {:induction false} SplitFirst(t: string, rest: string, sep: char)
    requires sep !in t
    ensures Split(t + [sep] + rest, sep) == [t] + Split(rest, sep)
  {
    var s := t + [sep] + rest;
    if t == "" {
      assert s[1..] == rest;
    } else {
      assert s[1..] == t[1..] + [sep] + rest;
      SplitFirst(t[1..], rest, sep);
      assert [t[0]] + t[1..] == t;
    }
  }

  lemma {:induction false} SplitWhole(t: string, sep: char)
    requires sep !in t
    ensures Split(t, sep) == [t]
  {
    if t != "" { SplitWhole(t[1..], sep); assert [t[0]] + t[1..] == t; }
  }

  lemma {:induction false} SplitSpace(s: string)
    ensures Split(" " + s, ',') == [" " + Split(s, ',')[0]] + Split(s, ',')[1..]
  {
    assert (" " + s)[1..] == s;
  }

  lemma TrimSpaced(t: string)
    ensures Trim(" " + t) == Trim(t)
  {
    assert (" " + t)[1..] == t;
  }

  /** Joining tags and reading them back gives the same tags. */
  lemma {:induction false} JoinedTagsReadBack(ts: seq<string>)
    requires AreTags(ts)
    ensures Tags(Join(ts)) == ts
  {
    if |ts| == 0 {
      SplitWhole("", ',');
      assert NonBlank([""]) == NonBlank([]) == [];
    } else if |ts| == 1 {
      SplitWhole(ts[0], ',');
      TrimTrims(ts[0]);
      assert NonBlank([ts[0]]) == [ts[0]] + NonBlank([]);
    } else {
      var t, rest := ts[0], ts[1..];
      var tail := Join(rest);
      assert Join(ts) == t + [','] + (" " + tail);
      SplitFirst(t, " " + tail, ',');
      SplitSpace(tail);
      TrimSpaced(Split(tail, ',')[0]);
      TrimTrims(t);
      JoinedTagsReadBack(rest);
      assert NonBlank(Split(" " + tail, ',')) == NonBlank(Split(tail, ','));
    }
  }

  // ---------------------------------------------------------------- decimal numbers

  const DIGITS := "0123456789"

  function Decimal(n: nat): (s: string)
    ensures s != ""
  {
    if n < 10 then [DIGITS[n]] else Decimal(n / 10) + [DIGITS[n % 10]]
  }

  lemma {:induction false} DecimalInjective(m: nat, n: nat)
    requires Decimal(m) == Decimal(n)
    ensures m == n
  {
    var a, b := Decimal(m), Decimal(n);
    assert a[|a| - 1] == DIGITS[m % 10] && b[|b| - 1] == DIGITS[n % 10];
    DigitInjective(m % 10, n % 10);
    if m >= 10 && n >= 10 {
      assert a[..|a| - 1] == Decimal(m / 10) && b[..|b| - 1] == Decimal(n / 10);
      DecimalInjective(m / 10, n / 10);
    }
  }

  lemma DigitInjective(i: nat, j: nat)
    requires i < 10 && j < 10 && DIGITS[i] == DIGITS[j]
    ensures i == j
  {}

  predicate Digits(s: string) { forall k :: 0 <= k < |s| ==> '0' <= s[k] <= '9' }

  lemma {:induction false} DecimalDigits(n: nat)
    ensures Digits(Decimal(n))
  {
    if n >= 10 { DecimalDigits(n / 10); }
  }

  /** The number a string of digits denotes. */
  function Value(s: string): int {
    if s == "" then 0 else Value(s[..|s| - 1]) * 10 + (s[|s| - 1] as int - '0' as int)
  }

  lemma {:induction false} DecimalValue(n: nat)
    ensures Value(Decimal(n)) == n
  {
    assert DIGITS[n % 10] as int == '0' as int + n % 10;
    if n >= 10 {
      DecimalValue(n / 10);
      assert Decimal(n)[..|Decimal(n)| - 1] == Decimal(n / 10);
    } else {
      assert Decimal(n)[..0] == "";
    }
  }

  lemma {:induction false} LeadingZero(s: string)
    ensures Value("0" + s) == Value(s)
  {
    var t := "0" + s;
    if s == "" {
      assert t[..0] == "";
    } else {
      assert t[..|t| - 1] == "0" + s[..|s| - 1];
      LeadingZero(s[..|s| - 1]);
    }
  }

  /** At least the given number of digits. */
  function Padded(s: string, width: nat): string
    decreases width - |s|
  {
    if |s| >= width then s else Padded("0" + s, width)
  }

  lemma {:induction false} PaddedValue(s: string, width: nat)
    ensures Value(Padded(s, width)) == Value(s) && (Digits(s) ==> Digits(Padded(s, width)))
    decreases width - |s|
  {
    if |s| < width {
      LeadingZero(s);
      PaddedValue("0" + s, width);
    }
  }
}
