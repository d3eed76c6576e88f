/** Which schedules the sources on the canvas allow, and the effect that keeps the schedule among them. */
module SchedulePolicy {
  import opened Prelude
  import opened Json
  import opened Editor

  datatype Descriptor = Descriptor(kind: string, plugin: string, supported: Option<seq<string>>, default: string)

  datatype Policy = Policy(supported: seq<string>, default: string)

  const ALL := ["streaming", "cron", "periodic", "once", "dependency"]

  function Find(ds: seq<Descriptor>, plugin: string): Option<Descriptor> {
    if ds == [] then None
    else if ds[0].kind == "source" && ds[0].plugin == plugin then Some(ds[0])
    else Find(ds[1..], plugin)
  }

  /** The descriptors found, in the order of the sources. */
  function Found(plugins: seq<string>, ds: seq<Descriptor>): (r: seq<Descriptor>)
    ensures |r| <= |plugins|
  {
    if plugins == [] then []
    else
      var d := Find(ds, plugins[0]);
      (if d.Some? then [d.value] else []) + Found(plugins[1..], ds)
  }

  function Allowed(d: Descriptor): seq<string> { if d.supported.Some? then d.supported.value else ALL }

  function Intersect(acc: seq<string>, current: seq<string>): seq<string> {
    if acc == [] then [] else (if acc[0] in current then [acc[0]] else []) + Intersect(acc[1..], current)
  }

  function Reduce(ds: seq<Descriptor>, acc: seq<string>): seq<string> {
    if ds == [] then acc else Reduce(ds[1..], Intersect(acc, Allowed(ds[0])))
  }

  function First(s: seq<string>): string { if s == [] then "" else s[0] }

  function PolicyFor(plugins: seq<string>, ds: seq<Descriptor>): Policy {
    var found := Found(plugins, ds);
    if plugins == [] || |found| != |plugins| then Policy(ALL, "streaming")
    else
      var supported := Reduce(found, ALL);
      var first := OrText(OrText(found[0].default, First(supported)), "streaming");
      Policy(supported, if first in supported then first else OrText(First(supported), first))
  }

  /** The effect that runs whenever schedule or policy change. */
  function Normalise(s: Schedule, p: Policy): Schedule {
    if p.supported == [] || s.kind in p.supported then s else Schedule(p.default, map[])
  }

  // ---------------------------------------------------------------- what the policy is

  predicate Described(plugins: seq<string>, ds: seq<Descriptor>) {
    forall i :: 0 <= i < |plugins| ==> Find(ds, plugins[i]).Some?
  }

  /** Allowed by every source. */
  predicate AllowedByAll(plugins: seq<string>, ds: seq<Descriptor>, t: string)
    requires Described(plugins, ds)
  {
    forall i :: 0 <= i < |plugins| ==> t in Allowed(Find(ds, plugins[i]).value)
  }

  /** The members of a list that every source allows, in the list's order. */
  function Common(plugins: seq<string>, ds: seq<Descriptor>, types: seq<string>): seq<string>
    requires Described(plugins, ds)
  {
    if types == [] then []
    else (if AllowedByAll(plugins, ds, types[0]) then [types[0]] else []) + Common(plugins, ds, types[1..])
  }

  lemma {:induction false} FoundAll(plugins: seq<string>, ds: seq<Descriptor>)
    ensures |Found(plugins, ds)| == |plugins| <==> Described(plugins, ds)
    ensures Described(plugins, ds) ==>
              forall i :: 0 <= i < |plugins| ==> Found(plugins, ds)[i] == Find(ds, plugins[i]).value
  {
    if plugins != [] {
      FoundAll(plugins[1..], ds);
      assert Described(plugins, ds) <==> Find(ds, plugins[0]).Some? && Described(plugins[1..], ds);
      hide Find;
    }
  }

  lemma {:induction false} IntersectCommon(first: string, rest: seq<string>, ds: seq<Descriptor>, acc: seq<string>)
    requires Described([first] + rest, ds) && Described(rest, ds) && Find(ds, first).Some?
    ensures Common(rest, ds, Intersect(acc, Allowed(Find(ds, first).value))) == Common([first] + rest, ds, acc)
  {
    if acc != [] {
      var current := Allowed(Find(ds, first).value);
      IntersectCommon(first, rest, ds, acc[1..]);
      AllowedHead(first, rest, ds, acc[0]);
      hide Find, AllowedByAll;
      var left := Intersect(acc[1..], current);
      if acc[0] in current {
        assert Intersect(acc, current) == [acc[0]] + left;
        assert ([acc[0]] + left)[1..] == left;
      } else {
        assert Intersect(acc, current) == left;
      }
    }
  }

  lemma AllowedHead(first: string, rest: seq<string>, ds: seq<Descriptor>, t: string)
    requires Described([first] + rest, ds) && Described(rest, ds) && Find(ds, first).Some?
    ensures AllowedByAll([first] + rest, ds, t) <==> t in Allowed(Find(ds, first).value) && AllowedByAll(rest, ds, t)
  {
    hide Find, Allowed;
    var all := [first] + rest;
    assert all[0] == first && forall i :: 0 <= i < |rest| ==> all[i + 1] == rest[i];
  }

  lemma {:induction false} ReduceCommon(plugins: seq<string>, ds: seq<Descriptor>, acc: seq<string>)
    requires Described(plugins, ds)
    ensures Reduce(Found(plugins, ds), acc) == Common(plugins, ds, acc)
  {
    if plugins == [] {
      CommonOfNone(ds, acc);
    } else {
      var first, rest := plugins[0], plugins[1..];
      assert plugins == [first] + rest;
      assert Described(rest, ds) && Find(ds, first).Some?;
      ReduceCommon(rest, ds, Intersect(acc, Allowed(Find(ds, first).value)));
      IntersectCommon(first, rest, ds, acc);
      assert Found(plugins, ds) == [Find(ds, first).value] + Found(rest, ds);
      assert Found(plugins, ds)[1..] == Found(rest, ds);
    }
  }

  lemma {:induction false} CommonOfNone(ds: seq<Descriptor>, acc: seq<string>)
    ensures Common([], ds, acc) == acc
  {
    if acc != [] { CommonOfNone(ds, acc[1..]); }
  }

  lemma {:induction false} CommonMembers(plugins: seq<string>, ds: seq<Descriptor>, types: seq<string>, t: string)
    requires Described(plugins, ds)
    ensures t in Common(plugins, ds, types) <==> t in types && AllowedByAll(plugins, ds, t)
  {
    if types != [] { CommonMembers(plugins, ds, types[1..], t); }
  }

  /** The supported list is the fixed list cut down to what every source allows. */
  lemma SupportedIsCommon(plugins: seq<string>, ds: seq<Descriptor>, t: string)
    requires plugins != [] && Described(plugins, ds)
    ensures PolicyFor(plugins, ds).supported == Common(plugins, ds, ALL)
    ensures t in PolicyFor(plugins, ds).supported <==> t in ALL && AllowedByAll(plugins, ds, t)
  {
    FoundAll(plugins, ds);
    ReduceCommon(plugins, ds, ALL);
    CommonMembers(plugins, ds, ALL, t);
  }

  lemma {:induction false} CommonSame(a: seq<string>, b: seq<string>, ds: seq<Descriptor>, types: seq<string>)
    requires Described(a, ds) && Described(b, ds)
    requires forall p :: p in a <==> p in b
    ensures Common(a, ds, types) == Common(b, ds, types)
  {
    if types != [] {
      CommonSame(a, b, ds, types[1..]);
      if AllowedByAll(a, ds, types[0]) { AllowedSame(a, b, ds, types[0]); }
      if AllowedByAll(b, ds, types[0]) { AllowedSame(b, a, ds, types[0]); }
    }
  }

  lemma AllowedSame(a: seq<string>, b: seq<string>, ds: seq<Descriptor>, t: string)
    requires Described(a, ds) && Described(b, ds) && AllowedByAll(a, ds, t)
    requires forall p :: p in b ==> p in a
    ensures AllowedByAll(b, ds, t)
  {
    forall i | 0 <= i < |b| ensures t in Allowed(Find(ds, b[i]).value) {
      assert b[i] in a;
    }
  }

  /** It does not depend on the order of the sources, nor on how often one is used. */
  lemma OrderIrrelevant(a: seq<string>, b: seq<string>, ds: seq<Descriptor>)
    requires a != [] && b != [] && Described(a, ds) && Described(b, ds)
    requires forall p :: p in a <==> p in b
    ensures PolicyFor(a, ds).supported == PolicyFor(b, ds).supported
  {
    SupportedIsCommon(a, ds, "");
    SupportedIsCommon(b, ds, "");
    CommonSame(a, b, ds, ALL);
  }

  /** Whatever the sources: the default is supported when anything is, so one run of the effect settles the schedule. */
  lemma NormaliseSettles(s: Schedule, plugins: seq<string>, ds: seq<Descriptor>)
    ensures var p := PolicyFor(plugins, ds);
            && (p.supported != [] ==> p.default in p.supported && Normalise(s, p).kind in p.supported)
            && Normalise(Normalise(s, p), p) == Normalise(s, p)
            && (Normalise(s, p) == s <==> p.supported == [] || s.kind in p.supported)
  {
    var p := PolicyFor(plugins, ds);
    SupportedFromAll(plugins, ds);
    if p.supported != [] { assert p.supported[0] in p.supported; }
  }

  lemma SupportedFromAll(plugins: seq<string>, ds: seq<Descriptor>)
    ensures forall t :: t in PolicyFor(plugins, ds).supported ==> t in ALL && t != ""
  {
    FoundAll(plugins, ds);
    if plugins != [] && Described(plugins, ds) {
      forall t | t in PolicyFor(plugins, ds).supported ensures t in ALL { SupportedIsCommon(plugins, ds, t); }
    }
    assert "" !in ALL;
  }

  // ---------------------------------------------------------------- which schedule is offered first

  predicate Describes(d: Descriptor, plugin: string) { d.kind == "source" && d.plugin == plugin }

  /** The first descriptor of a source with that plugin. */
  lemma {:induction false} FindsFirst(ds: seq<Descriptor>, plugin: string)
    ensures Find(ds, plugin).None? <==> forall i :: 0 <= i < |ds| ==> !Describes(ds[i], plugin)
    ensures forall i :: 0 <= i < |ds| && Describes(ds[i], plugin) && (forall j :: 0 <= j < i ==> !Describes(ds[j], plugin))
              ==> Find(ds, plugin) == Some(ds[i])
  {
    if ds != [] && !Describes(ds[0], plugin) {
      var rest := ds[1..];
      FindsFirst(rest, plugin);
      assert forall i :: 0 <= i < |rest| ==> rest[i] == ds[i + 1];
      forall i | 0 <= i < |ds| && Describes(ds[i], plugin) && (forall j :: 0 <= j < i ==> !Describes(ds[j], plugin))
        ensures Find(rest, plugin) == Some(ds[i])
      {
        assert Describes(rest[i - 1], plugin);
        forall j | 0 <= j < i - 1 ensures !Describes(rest[j], plugin) { assert rest[j] == ds[j + 1]; }
      }
      assert Find(ds, plugin).None? ==> forall i :: 0 <= i < |ds| ==> !Describes(ds[i], plugin) by {
        if Find(ds, plugin).None? {
          forall i | 0 <= i < |ds| ensures !Describes(ds[i], plugin) { if i > 0 { assert !Describes(rest[i - 1], plugin); } }
        }
      }
      assert (forall i :: 0 <= i < |ds| ==> !Describes(ds[i], plugin)) ==> Find(ds, plugin).None? by {
        if forall i :: 0 <= i < |ds| ==> !Describes(ds[i], plugin) {
          forall i | 0 <= i < |rest| ensures !Describes(rest[i], plugin) { assert rest[i] == ds[i + 1]; }
        }
      }
    }
  }

  /** Without sources, or with one nobody describes, every schedule is offered and streaming is the default. */
  lemma UndescribedIsOpen(plugins: seq<string>, ds: seq<Descriptor>)
    requires plugins == [] || exists i :: 0 <= i < |plugins| && forall j :: 0 <= j < |ds| ==> !Describes(ds[j], plugins[i])
    ensures PolicyFor(plugins, ds) == Policy(["streaming", "cron", "periodic", "once", "dependency"], "streaming")
  {
    FoundAll(plugins, ds);
    if plugins != [] {
      var i :| 0 <= i < |plugins| && forall j :: 0 <= j < |ds| ==> !Describes(ds[j], plugins[i]);
      FindsFirst(ds, plugins[i]);
      assert !Described(plugins, ds);
    }
  }

  /** Otherwise the default is the first source's own, if every source allows it; else the first that all allow; else,
      when there is none, the first source's own again, or streaming. */
  lemma DefaultIsFirstSources(plugins: seq<string>, ds: seq<Descriptor>)
    requires plugins != [] && Described(plugins, ds)
    ensures var p, own := PolicyFor(plugins, ds), Find(ds, plugins[0]).value.default;
            p.default ==
            if own != "" && own in ALL && AllowedByAll(plugins, ds, own) then own
            else if p.supported != [] then p.supported[0]
            else if own != "" then own else "streaming"
  {
    var own := Find(ds, plugins[0]).value.default;
    FoundAll(plugins, ds);
    SupportedIsCommon(plugins, ds, own);
    SupportedFromAll(plugins, ds);
    hide Find, AllowedByAll, Reduce, Found;
    var p := PolicyFor(plugins, ds);
    if p.supported != [] { assert p.supported[0] in p.supported; }
  }
}
