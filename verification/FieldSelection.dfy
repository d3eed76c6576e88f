/** The short form of a plugin's settings: required fields and a few empty optional ones, in schema order. */
module FieldSelection {
  import opened Prelude
  import opened Text
  import opened Json

  datatype Field = Field(name: string, required: bool, default: Option<Json>, example: Option<Json>)

  // ---------------------------------------------------------------- what a field is

  predicate Blank(v: Json) { v.Null? || (v.Str? && Trim(v.text) == "") || (v.Array? && v.items == []) }

  predicate IsEmptyOptional(f: Field, config: Config) { !f.required && (f.name in config ==> Blank(config[f.name])) }

  function Lower(s: string): string {
    seq(|s|, i requires 0 <= i < |s| => if 'A' <= s[i] <= 'Z' then (s[i] as int + 32) as char else s[i])
  }

  predicate EndsWith(s: string, suffix: string) { |suffix| <= |s| && s[|s| - |suffix|..] == suffix }

  /** Fields that say which object is meant. */
  predicate Preferred(f: Field) {
    || Lower(f.name) in ["table", "tables", "topic", "topics", "database", "db", "bucket", "path", "prefix", "query", "object", "index"]
    || EndsWith(f.name, "_table") || EndsWith(f.name, "_topic")
  }

  function Required(s: seq<Field>): seq<Field> {
    if s == [] then [] else Required(s[..|s| - 1]) + (if s[|s| - 1].required then [s[|s| - 1]] else [])
  }

  function EmptyOptional(s: seq<Field>, config: Config): seq<Field> {
    if s == [] then []
    else EmptyOptional(s[..|s| - 1], config) + (if IsEmptyOptional(s[|s| - 1], config) then [s[|s| - 1]] else [])
  }

  /** The preferred ones of a list, or the others. */
  function Which(s: seq<Field>, preferred: bool): seq<Field> {
    if s == [] then [] else Which(s[..|s| - 1], preferred) + (if Preferred(s[|s| - 1]) == preferred then [s[|s| - 1]] else [])
  }

  predicate NamesDistinct(s: seq<Field>) { forall i, j :: 0 <= i < j < |s| ==> s[i].name != s[j].name }

  // ---------------------------------------------------------------- what is selected

  /** Empty optional fields, preferred ones first. */
  function Ranked(fields: seq<Field>, config: Config): seq<Field> {
    var optional := EmptyOptional(fields, config);
    Which(optional, true) + Which(optional, false)
  }

  function Room(fields: seq<Field>, config: Config, cap: int): nat { Min(Max(0, cap), |Ranked(fields, config)|) }

  /** The required fields and as many of the ranked ones as there is room for. */
  function Chosen(fields: seq<Field>, config: Config, cap: int): seq<Field> {
    Required(fields) + Ranked(fields, config)[..Room(fields, config, cap)]
  }

  /** The fields of the schema that were picked, in schema order. */
  function InOrder(fields: seq<Field>, picked: seq<Field>): seq<Field> {
    if fields == [] then []
    else InOrder(fields[..|fields| - 1], picked) + (if fields[|fields| - 1] in picked then [fields[|fields| - 1]] else [])
  }

  // ---------------------------------------------------------------- facts about the lists

  lemma {:induction false} RequiredMembers(s: seq<Field>, f: Field)
    ensures f in Required(s) <==> f in s && f.required
  {
    if s != [] {
      assert s == s[..|s| - 1] + [s[|s| - 1]];
      RequiredMembers(s[..|s| - 1], f);
    }
  }

  lemma {:induction false} EmptyMembers(s: seq<Field>, config: Config, f: Field)
    ensures f in EmptyOptional(s, config) <==> f in s && IsEmptyOptional(f, config)
  {
    if s != [] {
      assert s == s[..|s| - 1] + [s[|s| - 1]];
      EmptyMembers(s[..|s| - 1], config, f);
    }
  }

  lemma {:induction false} WhichMembers(s: seq<Field>, preferred: bool, f: Field)
    ensures f in Which(s, preferred) <==> f in s && Preferred(f) == preferred
  {
    hide Preferred;
    if s != [] {
      assert s == s[..|s| - 1] + [s[|s| - 1]];
      WhichMembers(s[..|s| - 1], preferred, f);
    }
  }

  lemma {:induction false} WhichCounts(s: seq<Field>)
    ensures |Which(s, true)| + |Which(s, false)| == |s|
  {
    hide Preferred;
    if s != [] { WhichCounts(s[..|s| - 1]); }
  }

  predicate SubNames(s: seq<Field>, t: seq<Field>) { NamesDistinct(s) && forall f :: f in s ==> f in t }

  lemma NamesSnoc(s: seq<Field>, t: seq<Field>, x: Field)
    requires SubNames(s, t) && NamesDistinct(t + [x])
    ensures SubNames(s + [x], t + [x]) && SubNames(s, t + [x])
  {
    var u := t + [x];
    forall i | 0 <= i < |s| ensures s[i].name != x.name {
      assert s[i] in t;
      var k :| 0 <= k < |t| && t[k] == s[i];
      assert u[k] == t[k] && u[|t|] == x;
    }
  }

  lemma NamesFront(s: seq<Field>)
    requires s != [] && NamesDistinct(s)
    ensures NamesDistinct(s[..|s| - 1]) && s == s[..|s| - 1] + [s[|s| - 1]]
  {}

  lemma {:induction false} RequiredNames(s: seq<Field>)
    requires NamesDistinct(s)
    ensures SubNames(Required(s), s)
  {
    if s != [] {
      NamesFront(s);
      RequiredNames(s[..|s| - 1]);
      hide NamesDistinct;
      NamesSnoc(Required(s[..|s| - 1]), s[..|s| - 1], s[|s| - 1]);
    }
  }

  lemma {:induction false} EmptyNames(s: seq<Field>, config: Config)
    requires NamesDistinct(s)
    ensures SubNames(EmptyOptional(s, config), s)
  {
    if s != [] {
      NamesFront(s);
      EmptyNames(s[..|s| - 1], config);
      hide NamesDistinct;
      NamesSnoc(EmptyOptional(s[..|s| - 1], config), s[..|s| - 1], s[|s| - 1]);
    }
  }

  lemma {:induction false} WhichNames(s: seq<Field>, preferred: bool)
    requires NamesDistinct(s)
    ensures SubNames(Which(s, preferred), s)
  {
    hide Preferred;
    if s != [] {
      NamesFront(s);
      WhichNames(s[..|s| - 1], preferred);
      hide NamesDistinct;
      NamesSnoc(Which(s[..|s| - 1], preferred), s[..|s| - 1], s[|s| - 1]);
    }
  }

  /** Two fields of one schema with the same name are the same field. */
  lemma SameName(t: seq<Field>, f: Field, g: Field)
    requires NamesDistinct(t) && f in t && g in t && f.name == g.name
    ensures f == g
  {
    var i :| 0 <= i < |t| && t[i] == f;
    var j :| 0 <= j < |t| && t[j] == g;
  }

  lemma JoinNames(a: seq<Field>, b: seq<Field>, t: seq<Field>)
    requires NamesDistinct(t) && SubNames(a, t) && SubNames(b, t) && forall f :: f in a ==> f !in b
    ensures SubNames(a + b, t)
  {
    var u := a + b;
    forall i, j | 0 <= i < j < |u| ensures u[i].name != u[j].name {
      if i < |a| <= j {
        assert u[i] in a && u[j] in b;
        if u[i].name == u[j].name { SameName(t, u[i], u[j]); }
      }
    }
  }

  lemma RankedNames(fields: seq<Field>, config: Config)
    requires NamesDistinct(fields)
    ensures SubNames(Ranked(fields, config), fields)
  {
    var optional := EmptyOptional(fields, config);
    EmptyNames(fields, config);
    WhichNames(optional, true);
    WhichNames(optional, false);
    forall f | f in Which(optional, true) ensures f !in Which(optional, false) {
      WhichMembers(optional, true, f);
      WhichMembers(optional, false, f);
    }
    hide EmptyOptional, Which, NamesDistinct;
    JoinNames(Which(optional, true), Which(optional, false), fields);
  }

  lemma RankedMembers(fields: seq<Field>, config: Config, f: Field)
    ensures f in Ranked(fields, config) <==> f in fields && IsEmptyOptional(f, config)
  {
    hide Preferred, IsEmptyOptional;
    EmptyMembers(fields, config, f);
    WhichMembers(EmptyOptional(fields, config), true, f);
    WhichMembers(EmptyOptional(fields, config), false, f);
  }

  lemma ChosenNames(fields: seq<Field>, config: Config, cap: int)
    requires NamesDistinct(fields)
    ensures SubNames(Chosen(fields, config, cap), fields)
  {
    RequiredNames(fields);
    RankedNames(fields, config);
    var some := Ranked(fields, config)[..Room(fields, config, cap)];
    assert SubNames(some, fields);
    forall f | f in Required(fields) ensures f !in some {
      RequiredMembers(fields, f);
      RankedMembers(fields, config, f);
    }
    hide Required, Ranked, Room;
    JoinNames(Required(fields), some, fields);
  }

  // ---------------------------------------------------------------- schema order

  lemma {:induction false} InOrderMembers(fields: seq<Field>, picked: seq<Field>, f: Field)
    ensures f in InOrder(fields, picked) <==> f in fields && f in picked
  {
    if fields != [] {
      assert fields == fields[..|fields| - 1] + [fields[|fields| - 1]];
      InOrderMembers(fields[..|fields| - 1], picked, f);
    }
  }

  lemma {:induction false} InOrderNames(fields: seq<Field>, picked: seq<Field>)
    requires NamesDistinct(fields)
    ensures SubNames(InOrder(fields, picked), fields)
  {
    if fields != [] {
      NamesFront(fields);
      InOrderNames(fields[..|fields| - 1], picked);
      hide NamesDistinct;
      NamesSnoc(InOrder(fields[..|fields| - 1], picked), fields[..|fields| - 1], fields[|fields| - 1]);
    }
  }

  lemma NamesMeanDistinct(s: seq<Field>)
    requires NamesDistinct(s)
    ensures Distinct(s)
  {}

  /** Putting the picked fields in schema order neither loses nor repeats one. */
  lemma InOrderLength(fields: seq<Field>, picked: seq<Field>)
    requires NamesDistinct(fields) && SubNames(picked, fields)
    ensures |InOrder(fields, picked)| == |picked|
  {
    var r := InOrder(fields, picked);
    InOrderNames(fields, picked);
    NamesMeanDistinct(r);
    NamesMeanDistinct(picked);
    DistinctCardinality(r);
    DistinctCardinality(picked);
    forall f ensures f in r <==> f in picked { InOrderMembers(fields, picked, f); }
    assert (set f | f in r) == (set f | f in picked);
  }

  // ---------------------------------------------------------------- what the form shows

  /** Every required field and no filled optional one; as many empty ones as the cap allows; preferred ones first. */
  lemma FormIsRight(fields: seq<Field>, config: Config, cap: int)
    requires NamesDistinct(fields)
    ensures var r := InOrder(fields, Chosen(fields, config, cap));
            && NamesDistinct(r)
            && (forall f :: f in r ==> f in fields && (f.required || IsEmptyOptional(f, config)))
            && (forall f :: f in fields && f.required ==> f in r)
            && |r| == |Required(fields)| + Min(Max(0, cap), |EmptyOptional(fields, config)|)
            && (forall f, g :: (f in r && !f.required && !Preferred(f)
                                && g in fields && IsEmptyOptional(g, config) && Preferred(g)) ==> g in r)
  {
    var chosen := Chosen(fields, config, cap);
    ChosenNames(fields, config, cap);
    InOrderNames(fields, chosen);
    InOrderLength(fields, chosen);
    WhichCounts(EmptyOptional(fields, config));
    FormMembers(fields, config, cap);
    forall f, g | f in InOrder(fields, chosen) && !f.required && !Preferred(f)
                  && g in fields && IsEmptyOptional(g, config) && Preferred(g)
      ensures g in InOrder(fields, chosen)
    {
      PreferredFirst(fields, config, cap, f, g);
    }
  }

  lemma FormMembers(fields: seq<Field>, config: Config, cap: int)
    ensures var r := InOrder(fields, Chosen(fields, config, cap));
            && (forall f :: f in r ==> f in fields && (f.required || IsEmptyOptional(f, config)))
            && (forall f :: f in fields && f.required ==> f in r)
  {
    var chosen := Chosen(fields, config, cap);
    forall f ensures f in InOrder(fields, chosen) <==> f in fields && f in chosen { InOrderMembers(fields, chosen, f); }
    forall f ensures f in chosen ==> f.required || IsEmptyOptional(f, config) {
      RequiredMembers(fields, f);
      RankedMembers(fields, config, f);
    }
    forall f ensures f in fields && f.required ==> f in chosen { RequiredMembers(fields, f); }
  }

  lemma PreferredFirst(fields: seq<Field>, config: Config, cap: int, f: Field, g: Field)
    requires f in InOrder(fields, Chosen(fields, config, cap)) && !f.required && !Preferred(f)
    requires g in fields && IsEmptyOptional(g, config) && Preferred(g)
    ensures g in InOrder(fields, Chosen(fields, config, cap))
  {
    hide Preferred, IsEmptyOptional, InOrder, EmptyOptional, Which, Required;
    var chosen, optional := Chosen(fields, config, cap), EmptyOptional(fields, config);
    InOrderMembers(fields, chosen, f);
    InOrderMembers(fields, chosen, g);
    RequiredMembers(fields, f);
    EmptyMembers(fields, config, g);
    WhichMembers(optional, true, f);
    WhichMembers(optional, true, g);
    var ranked, room, first := Ranked(fields, config), Room(fields, config, cap), Which(optional, true);
    assert f in ranked[..room];
    assert ranked[..|first|] == first;
    assert room > |first|;
    assert g in first;
    assert forall k :: 0 <= k < |first| ==> ranked[..room][k] == first[k];
  }

  // ---------------------------------------------------------------- the sort

  /** The place of a field in the schema. */
  function Place(fields: seq<Field>, f: Field): nat {
    if fields == [] then 0
    else if fields[|fields| - 1].name == f.name then |fields| - 1
    else Place(fields[..|fields| - 1], f)
  }

  predicate Ascending(s: seq<Field>, fields: seq<Field>) {
    forall i, j :: 0 <= i < j < |s| ==> Place(fields, s[i]) < Place(fields, s[j])
  }

  lemma {:induction false} PlaceIs(fields: seq<Field>, k: nat)
    requires NamesDistinct(fields) && k < |fields|
    ensures Place(fields, fields[k]) == k
  {
    if k < |fields| - 1 { PlaceIs(fields[..|fields| - 1], k); }
  }

  lemma PlaceInjective(fields: seq<Field>, f: Field, g: Field)
    requires NamesDistinct(fields) && f in fields && g in fields && Place(fields, f) == Place(fields, g)
    ensures f == g
  {
    var i :| 0 <= i < |fields| && fields[i] == f;
    var j :| 0 <= j < |fields| && fields[j] == g;
    PlaceIs(fields, i);
    PlaceIs(fields, j);
  }

  lemma {:induction false} InOrderAscends(fields: seq<Field>, n: nat, picked: seq<Field>)
    requires NamesDistinct(fields) && n <= |fields|
    ensures Ascending(InOrder(fields[..n], picked), fields)
    ensures forall f :: f in InOrder(fields[..n], picked) ==> Place(fields, f) < n
  {
    hide Place;
    if n > 0 {
      InOrderAscends(fields, n - 1, picked);
      assert fields[..n][..n - 1] == fields[..n - 1];
      PlaceIs(fields, n - 1);
      var front := InOrder(fields[..n - 1], picked);
      assert forall i :: 0 <= i < |front| ==> front[i] in front;
    }
  }

  lemma {:induction false} AscendingUnique(a: seq<Field>, b: seq<Field>, fields: seq<Field>)
    requires NamesDistinct(fields) && Ascending(a, fields) && Ascending(b, fields)
    requires (forall f :: f in a <==> f in b) && (forall f :: f in a ==> f in fields)
    ensures a == b
  {
    hide Place;
    BothEmpty(a, b);
    if a != [] {
      var x := a[|a| - 1];
      assert x in b;
      var y := b[|b| - 1];
      assert y in a;
      LastIsGreatest(a, fields, y);
      LastIsGreatest(b, fields, x);
      PlaceInjective(fields, x, y);
      var a', b' := a[..|a| - 1], b[..|b| - 1];
      FrontMembers(a, a', fields);
      FrontMembers(b, b', fields);
      AscendingUnique(a', b', fields);
      assert a == a[..|a| - 1] + [x] && b == b[..|b| - 1] + [y];
    }
  }

  lemma BothEmpty(a: seq<Field>, b: seq<Field>)
    requires forall f :: f in a <==> f in b
    ensures a == [] <==> b == []
  {
    assert |a| > 0 ==> a[0] in b;
    assert |b| > 0 ==> b[0] in a;
  }

  lemma LastIsGreatest(s: seq<Field>, fields: seq<Field>, f: Field)
    requires Ascending(s, fields) && f in s
    ensures Place(fields, f) <= Place(fields, s[|s| - 1])
  {
    var k :| 0 <= k < |s| && s[k] == f;
  }

  lemma FrontMembers(s: seq<Field>, front: seq<Field>, fields: seq<Field>)
    requires Ascending(s, fields) && s != [] && front == s[..|s| - 1]
    ensures Ascending(front, fields)
    ensures forall f :: f in front <==> f in s && f != s[|s| - 1]
  {
    hide Place;
    assert s == front + [s[|s| - 1]];
    forall k | 0 <= k < |s| - 1 ensures s[k] != s[|s| - 1] { assert Place(fields, s[k]) < Place(fields, s[|s| - 1]); }
  }

  /** One field put in its place. */
  method Insert(r: seq<Field>, f: Field, fields: seq<Field>) returns (s: seq<Field>)
    requires NamesDistinct(fields) && Ascending(r, fields) && f in fields && f !in r && forall g :: g in r ==> g in fields
    ensures Ascending(s, fields) && multiset(s) == multiset(r) + multiset{f}
  {
    hide Place;
    var k := 0;
    while k < |r| && Place(fields, r[k]) <= Place(fields, f)
      invariant 0 <= k <= |r|
      invariant forall i :: 0 <= i < k ==> Place(fields, r[i]) < Place(fields, f)
    {
      assert r[k] in r;
      assert Place(fields, r[k]) != Place(fields, f) by {
        if Place(fields, r[k]) == Place(fields, f) { PlaceInjective(fields, r[k], f); }
      }
      k := k + 1;
    }
    assert k < |r| ==> Place(fields, f) < Place(fields, r[k]);
    InsertedAscends(r, f, fields, k);
    assert r == r[..k] + r[k..];
    s := r[..k] + [f] + r[k..];
  }

  lemma InsertedAscends(r: seq<Field>, f: Field, fields: seq<Field>, k: nat)
    requires Ascending(r, fields) && k <= |r|
    requires forall i :: 0 <= i < k ==> Place(fields, r[i]) < Place(fields, f)
    requires k < |r| ==> Place(fields, f) < Place(fields, r[k])
    ensures Ascending(r[..k] + [f] + r[k..], fields)
  {
    hide Place;
    var s := r[..k] + [f] + r[k..];
    forall i, j | 0 <= i < j < |s| ensures Place(fields, s[i]) < Place(fields, s[j]) {
      assert i < k ==> s[i] == r[i];
      assert j < k ==> s[j] == r[j];
      assert i > k ==> s[i] == r[i - 1];
      assert j > k ==> s[j] == r[j - 1];
    }
  }

  /** Sorting the picked fields by their place in the schema. */
  method SortBySchema(picked: seq<Field>, fields: seq<Field>) returns (r: seq<Field>)
    requires NamesDistinct(fields) && SubNames(picked, fields)
    ensures r == InOrder(fields, picked)
  {
    r := [];
    var i := 0;
    while i < |picked|
      invariant 0 <= i <= |picked|
      invariant Ascending(r, fields) && multiset(r) == multiset(picked[..i])
    {
      Unpicked(r, picked, i, fields);
      r := Insert(r, picked[i], fields);
      assert picked[..i + 1] == picked[..i] + [picked[i]];
      i := i + 1;
    }
    assert picked[..i] == picked;
    forall f ensures (f in r <==> f in InOrder(fields, picked)) && (f in r ==> f in fields) {
      assert f in r <==> f in multiset(r);
      InOrderMembers(fields, picked, f);
    }
    InOrderAscends(fields, |fields|, picked);
    assert fields[..|fields|] == fields;
    AscendingUnique(r, InOrder(fields, picked), fields);
  }

  lemma Unpicked(r: seq<Field>, picked: seq<Field>, i: nat, fields: seq<Field>)
    requires SubNames(picked, fields) && i < |picked| && multiset(r) == multiset(picked[..i])
    ensures picked[i] in fields && picked[i] !in r && forall g :: g in r ==> g in fields
  {
    forall g | g in r ensures g in fields && g != picked[i] {
      assert g in multiset(r);
      assert g in picked[..i];
      var k :| 0 <= k < i && picked[k] == g;
    }
  }

  // ---------------------------------------------------------------- the two passes

  /** First pass: preferred fields, until the cap. */
  method PickPreferred(required: seq<Field>, optional: seq<Field>, cap: int) returns (picked: seq<Field>)
    ensures var first := Which(optional, true);
            picked == required + first[..Min(Max(0, cap), |first|)]
  {
    hide Preferred;
    picked := required;
    var i := 0;
    while i < |optional|
      invariant 0 <= i <= |optional|
      invariant picked == required + Which(optional[..i], true) && |picked| <= |required| + Max(0, cap)
    {
      if |picked| >= |required| + cap { break; }
      assert optional[..i + 1][..i] == optional[..i];
      if Preferred(optional[i]) { picked := picked + [optional[i]]; }
      i := i + 1;
    }
    WhichPrefix(optional, i, true);
    assert i == |optional| ==> optional[..i] == optional;
  }

  lemma {:induction false} WhichPrefix(s: seq<Field>, i: nat, preferred: bool)
    requires i <= |s|
    ensures Which(s[..i], preferred) <= Which(s, preferred)
  {
    hide Preferred;
    if i == |s| {
      assert s[..i] == s;
    } else {
      WhichPrefix(s[..|s| - 1], i, preferred);
      assert s[..|s| - 1][..i] == s[..i];
    }
  }

  predicate HasName(picked: seq<Field>, name: string) { exists k :: 0 <= k < |picked| && picked[k].name == name }

  /** Second pass: the remaining empty fields, until the cap. */
  method PickRemaining(start: seq<Field>, required: seq<Field>, optional: seq<Field>, fields: seq<Field>, cap: int)
      returns (picked: seq<Field>)
    requires NamesDistinct(fields) && SubNames(optional, fields) && SubNames(start, fields)
    requires var first := Which(optional, true); start == required + first[..Min(Max(0, cap), |first|)]
    requires forall f :: f in required ==> f !in optional
    ensures var ranked := Which(optional, true) + Which(optional, false);
            picked == required + ranked[..Min(Max(0, cap), |ranked|)]
  {
    hide Preferred, NamesDistinct;
    picked := start;
    var i := 0;
    ghost var first := Which(optional, true);
    while i < |optional|
      invariant 0 <= i <= |optional|
      invariant |picked| <= |required| + Max(0, cap)
      invariant if Max(0, cap) < |first| then picked == start else picked == required + first + Which(optional[..i], false)
    {
      assert optional[..i + 1][..i] == optional[..i];
      NameTaken(picked, start, first, required, optional, fields, i, cap);
      if HasName(picked, optional[i].name) { i := i + 1; continue; }
      if |picked| >= |required| + cap { break; }
      picked := picked + [optional[i]];
      i := i + 1;
    }
    WhichPrefix(optional, i, false);
    assert i == |optional| ==> optional[..i] == optional;
    RankedPrefix(first, Which(optional, false), Which(optional[..i], false), required, cap);
  }

  lemma RankedPrefix(first: seq<Field>, rest: seq<Field>, some: seq<Field>, required: seq<Field>, cap: int)
    requires some <= rest
    ensures Max(0, cap) < |first| ==> (first + rest)[..Min(Max(0, cap), |first + rest|)] == first[..Min(Max(0, cap), |first|)]
    ensures (Max(0, cap) >= |first| && (some == rest || |first| + |some| >= cap) && |first| + |some| <= Max(0, cap))
            ==> (first + rest)[..Min(Max(0, cap), |first + rest|)] == first + some
  {}

  /** A field is skipped exactly when it is preferred and there was room for all preferred ones, or it is picked already. */
  lemma NameTaken(picked: seq<Field>, start: seq<Field>, first: seq<Field>, required: seq<Field>, optional: seq<Field>,
                  fields: seq<Field>, i: nat, cap: int)
    requires NamesDistinct(fields) && SubNames(optional, fields) && SubNames(start, fields) && i < |optional|
    requires first == Which(optional, true) && start == required + first[..Min(Max(0, cap), |first|)]
    requires forall f :: f in required ==> f !in optional
    requires if Max(0, cap) < |first| then picked == start else picked == required + first + Which(optional[..i], false)
    ensures Max(0, cap) >= |first| ==> (HasName(picked, optional[i].name) <==> Preferred(optional[i]))
  {
    if Max(0, cap) >= |first| {
      hide Preferred, NamesDistinct, SubNames, HasName, Which;
      var f := optional[i];
      assert first[..Min(Max(0, cap), |first|)] == first;
      WhichMembers(optional, true, f);
      if Preferred(f) {
        PickedHasName(picked, required + first, Which(optional[..i], false), f);
      } else {
        NotYetPicked(picked, first, required, optional, fields, i);
      }
    }
  }

  lemma PickedHasName(picked: seq<Field>, head: seq<Field>, tail: seq<Field>, f: Field)
    requires picked == head + tail && f in head
    ensures HasName(picked, f.name)
  {
    var k :| 0 <= k < |head| && head[k] == f;
    assert picked[k] == f;
  }

  lemma NotYetPicked(picked: seq<Field>, first: seq<Field>, required: seq<Field>, optional: seq<Field>, fields: seq<Field>, i: nat)
    requires NamesDistinct(fields) && SubNames(optional, fields) && i < |optional| && !Preferred(optional[i])
    requires SubNames(required + first, fields) && first == Which(optional, true)
    requires forall f :: f in required ==> f !in optional
    requires picked == required + first + Which(optional[..i], false)
    ensures !HasName(picked, optional[i].name)
  {
    hide Preferred;
    var f := optional[i];
    forall g | g in picked ensures g.name != f.name {
      if g in required + first {
        WhichMembers(optional, true, g);
        assert g != f;
        assert g in fields && f in fields;
        if g.name == f.name { SameName(fields, g, f); }
      } else {
        WhichMembers(optional[..i], false, g);
        var k :| 0 <= k < i && optional[k] == g;
      }
    }
    assert forall k :: 0 <= k < |picked| ==> picked[k] in picked;
  }

  /** The form: both passes, then schema order. */
  method EssentialFields(fields: seq<Field>, config: Config, cap: int) returns (r: seq<Field>)
    requires NamesDistinct(fields)
    ensures r == InOrder(fields, Chosen(fields, config, cap))
  {
    hide Preferred, Which, Required, EmptyOptional, InOrder, NamesDistinct;
    var required, optional := Required(fields), EmptyOptional(fields, config);
    RequiredNames(fields);
    EmptyNames(fields, config);
    forall f | f in required ensures f !in optional {
      RequiredMembers(fields, f);
      EmptyMembers(fields, config, f);
    }
    var some := PickPreferred(required, optional, cap);
    StartNames(fields, config, cap);
    var picked := PickRemaining(some, required, optional, fields, cap);
    ChosenNames(fields, config, cap);
    r := SortBySchema(picked, fields);
  }

  lemma StartNames(fields: seq<Field>, config: Config, cap: int)
    requires NamesDistinct(fields)
    ensures var first := Which(EmptyOptional(fields, config), true);
            SubNames(Required(fields) + first[..Min(Max(0, cap), |first|)], fields)
  {
    var optional := EmptyOptional(fields, config);
    var first := Which(optional, true);
    var some := first[..Min(Max(0, cap), |first|)];
    RequiredNames(fields);
    EmptyNames(fields, config);
    WhichNames(optional, true);
    assert SubNames(some, fields);
    forall f | f in Required(fields) ensures f !in some {
      RequiredMembers(fields, f);
      EmptyMembers(fields, config, f);
      WhichMembers(optional, true, f);
    }
    hide Required, EmptyOptional, Which, NamesDistinct;
    JoinNames(Required(fields), some, fields);
  }

  // ---------------------------------------------------------------- defaults

  /** What a new configuration starts with: the default, else an example where a value is required. */
  function Seed(f: Field): Option<Json> { if f.default.Some? then f.default else if f.required then f.example else None }

  function Defaults(fields: seq<Field>): Config {
    if fields == [] then map[]
    else
      var front, last := Defaults(fields[..|fields| - 1]), fields[|fields| - 1];
      if Seed(last).Some? then front[last.name := Seed(last).value] else front
  }

  method BuildDefaultConfig(fields: seq<Field>) returns (next: Config)
    ensures next == Defaults(fields)
  {
    next := map[];
    var i := 0;
    while i < |fields|
      invariant 0 <= i <= |fields| && next == Defaults(fields[..i])
    {
      assert fields[..i + 1][..i] == fields[..i];
      if Seed(fields[i]).Some? { next := next[fields[i].name := Seed(fields[i]).value]; }
      i := i + 1;
    }
    assert fields[..i] == fields;
  }

  /** For a required field an empty object is missing too. */
  predicate Lacking(v: Json) { Blank(v) || (v.Object? && v.fields == map[]) }

  function MissingRequired(fields: seq<Field>, config: Config): seq<string> {
    if fields == [] then []
    else
      var f := fields[|fields| - 1];
      MissingRequired(fields[..|fields| - 1], config)
      + (if f.required && (f.name in config ==> Lacking(config[f.name])) then [f.name] else [])
  }

  lemma {:induction false} DefaultsAt(fields: seq<Field>, f: Field)
    requires NamesDistinct(fields) && f in fields
    ensures if Seed(f).Some? then f.name in Defaults(fields) && Defaults(fields)[f.name] == Seed(f).value
            else f.name !in Defaults(fields)
  {
    var front, last := fields[..|fields| - 1], fields[|fields| - 1];
    NamesFront(fields);
    if f != last {
      DefaultsAt(front, f);
      if f.name == last.name { SameName(fields, f, last); }
    } else {
      DefaultsOnlyOwn(front, f.name);
    }
  }

  lemma {:induction false} DefaultsOnlyOwn(fields: seq<Field>, name: string)
    requires forall k :: 0 <= k < |fields| ==> fields[k].name != name
    ensures name !in Defaults(fields)
  {
    if fields != [] { DefaultsOnlyOwn(fields[..|fields| - 1], name); }
  }

  lemma {:induction false} MissingMembers(fields: seq<Field>, config: Config, name: string)
    ensures name in MissingRequired(fields, config) <==>
            exists k :: 0 <= k < |fields| && fields[k].name == name && fields[k].required && (name in config ==> Lacking(config[name]))
  {
    hide Lacking;
    if fields != [] {
      var front := fields[..|fields| - 1];
      MissingMembers(front, config, name);
      assert forall k :: 0 <= k < |front| ==> front[k] == fields[k];
    }
  }

  /** A freshly seeded configuration misses exactly the required fields that have no usable default or example. */
  lemma SeededMisses(fields: seq<Field>, f: Field)
    requires NamesDistinct(fields) && f in fields
    ensures f.name in MissingRequired(fields, Defaults(fields)) <==>
            f.required && (Seed(f).None? || Lacking(Seed(f).value))
  {
    var config := Defaults(fields);
    DefaultsAt(fields, f);
    MissingMembers(fields, config, f.name);
    hide Defaults, MissingRequired, Lacking, Seed;
    var i :| 0 <= i < |fields| && fields[i] == f;
    forall k | 0 <= k < |fields| && fields[k].name == f.name ensures k == i {}
  }

  /** It holds the default of each field that has one, else the example of a required field, and nothing else. */
  lemma SeededWith(fields: seq<Field>, f: Field, name: string)
    requires NamesDistinct(fields) && f in fields
    ensures var config := Defaults(fields);
            && (f.default.Some? ==> f.name in config && config[f.name] == f.default.value)
            && (f.default.None? && f.required && f.example.Some? ==> f.name in config && config[f.name] == f.example.value)
            && (f.default.None? && (!f.required || f.example.None?) ==> f.name !in config)
            && ((forall k :: 0 <= k < |fields| ==> fields[k].name != name) ==> name !in config)
  {
    DefaultsAt(fields, f);
    if forall k :: 0 <= k < |fields| ==> fields[k].name != name { DefaultsOnlyOwn(fields, name); }
  }
}
