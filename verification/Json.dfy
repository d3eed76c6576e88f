/** Plugin configuration: nested JSON objects and the dotted-path write of the connection recommendations. */
module Json {
  import opened Prelude
  import opened Text

  datatype Json = Null | Bool(flag: bool) | Number(number: real) | Str(text: string)
                | Array(items: seq<Json>) | Object(fields: map<string, Json>)

  type Config = map<string, Json>

  /** The parts of a dotted path; empty parts are dropped. */
  function Parts(path: string): seq<string> { NonEmpty(Split(path, '.')) }

  function NonEmpty(parts: seq<string>): seq<string> {
    if parts == [] then [] else (if parts[0] != "" then [parts[0]] else []) + NonEmpty(parts[1..])
  }

  /** The object stored under a key; anything but an object counts as none, so that it is replaced. */
  function Child(c: Config, key: string): Config {
    if key in c && c[key].Object? then c[key].fields else map[]
  }

  /** Writes value at the path, making the objects on the way. */
  function SetAt(c: Config, path: seq<string>, value: Json): Config
    decreases |path|
  {
    if path == [] then c
    else if |path| == 1 then c[path[0] := value]
    else c[path[0] := Object(SetAt(Child(c, path[0]), path[1..], value))]
  }

  /** The value at the path; arrays and scalars have nothing below them. */
  function GetAt(c: Config, path: seq<string>): Option<Json>
    decreases |path|
  {
    if path == [] then Some(Object(c))
    else if path[0] !in c then None
    else if |path| == 1 then Some(c[path[0]])
    else if c[path[0]].Object? then GetAt(c[path[0]].fields, path[1..])
    else None
  }

  /** Two paths that part before either ends. */
  predicate Diverge(p: seq<string>, q: seq<string>)
    decreases |p|
  {
    p != [] && q != [] && (p[0] != q[0] || Diverge(p[1..], q[1..]))
  }

  lemma {:induction false} ReadsWhatItWrote(c: Config, p: seq<string>, v: Json)
    requires p != []
    ensures GetAt(SetAt(c, p, v), p) == Some(v)
    decreases |p|
  {
    if |p| > 1 { ReadsWhatItWrote(Child(c, p[0]), p[1..], v); }
  }

  lemma {:induction false} ReadsBelowWhatItWrote(c: Config, p: seq<string>, q: seq<string>, v: Json)
    requires p != [] && q != []
    ensures GetAt(SetAt(c, p, v), p + q) == if v.Object? then GetAt(v.fields, q) else None
    decreases |p|
  {
    assert (p + q)[1..] == p[1..] + q;
    if |p| == 1 {
      assert p[1..] + q == q;
    } else {
      ReadsBelowWhatItWrote(Child(c, p[0]), p[1..], q, v);
    }
  }

  lemma {:induction false} LeavesTheRest(c: Config, p: seq<string>, v: Json, q: seq<string>)
    requires Diverge(p, q)
    ensures GetAt(SetAt(c, p, v), q) == GetAt(c, q)
    decreases |p|
  {
    if p[0] == q[0] {
      LeavesTheRest(Child(c, p[0]), p[1..], v, q[1..]);
      if p[0] !in c || !c[p[0]].Object? { NothingInNothing(q[1..]); }
    }
  }

  lemma NothingInNothing(q: seq<string>)
    requires q != []
    ensures GetAt(map[], q) == None
  {}

  lemma {:induction false} LastWriteWins(c: Config, p: seq<string>, v: Json, w: Json)
    ensures SetAt(SetAt(c, p, v), p, w) == SetAt(c, p, w)
    decreases |p|
  {
    if |p| > 1 {
      LastWriteWins(Child(c, p[0]), p[1..], v, w);
      assert Child(SetAt(c, p, v), p[0]) == SetAt(Child(c, p[0]), p[1..], v);
    }
  }

  lemma {:induction false} WritingBackChangesNothing(c: Config, p: seq<string>)
    requires p != [] && GetAt(c, p).Some?
    ensures SetAt(c, p, GetAt(c, p).value) == c
    decreases |p|
  {
    if |p| > 1 { WritingBackChangesNothing(Child(c, p[0]), p[1..]); }
  }

  /** A write below a key changes only what is stored under that key. */
  lemma WriteBelow(c: Config, p: seq<string>, v: Json)
    requires |p| > 1
    ensures SetAt(c, p, v) == c[p[0] := Object(SetAt(Child(c, p[0]), p[1..], v))]
    ensures Child(SetAt(c, p, v), p[0]) == SetAt(Child(c, p[0]), p[1..], v)
  {}

  /** A write touches no key but the first of its path, and its effect there depends on that key alone. */
  lemma WriteIsLocal(c: Config, p: seq<string>, v: Json, key: string, x: Json)
    requires p != [] && key != p[0]
    ensures SetAt(c[key := x], p, v) == SetAt(c, p, v)[key := x]
  {
    assert Child(c[key := x], p[0]) == Child(c, p[0]);
  }

  /** What a write leaves under the first key of its path. */
  function Slot(c: Config, p: seq<string>, v: Json): Json
    requires p != []
  {
    SetAt(c, p, v)[p[0]]
  }

  lemma SetIsSlot(c: Config, p: seq<string>, v: Json)
    requires p != []
    ensures SetAt(c, p, v) == c[p[0] := Slot(c, p, v)]
  {}

  lemma {:induction false} DivergingWritesCommute(c: Config, p: seq<string>, v: Json, q: seq<string>, w: Json)
    requires Diverge(p, q)
    ensures SetAt(SetAt(c, p, v), q, w) == SetAt(SetAt(c, q, w), p, v)
    decreases |p|
  {
    hide SetAt;
    if p[0] == q[0] {
      var d, p', q' := Child(c, p[0]), p[1..], q[1..];
      DivergingWritesCommute(d, p', v, q', w);
      WriteBelow(c, p, v);
      WriteBelow(SetAt(c, p, v), q, w);
      WriteBelow(c, q, w);
      WriteBelow(SetAt(c, q, w), p, v);
    } else {
      SetIsSlot(c, p, v);
      SetIsSlot(c, q, w);
      WriteIsLocal(c, q, w, p[0], Slot(c, p, v));
      WriteIsLocal(c, p, v, q[0], Slot(c, q, w));
      assert c[p[0] := Slot(c, p, v)][q[0] := Slot(c, q, w)] == c[q[0] := Slot(c, q, w)][p[0] := Slot(c, p, v)];
    }
  }
}
