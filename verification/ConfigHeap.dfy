/** The dotted-path write as it happens: a cursor walking nested objects that are changed in place. */
module ConfigHeap {
  import opened Prelude
  import opened Json

  type Ref = nat

  /** What an object holds under a key: a scalar or array, or a reference to another object. */
  datatype Slot = Leaf(value: Json) | Link(ref: Ref)

  type Store = map<Ref, map<string, Slot>>

  /** The objects, and the first reference not handed out. */
  datatype Heap = Heap(store: Store, next: Ref)

  predicate Fits(h: Heap) { forall r :: r in h.store ==> r < h.next }

  function Fields(s: Store, r: Ref): map<string, Slot> { if r in s then s[r] else map[] }

  /** Moves into the object under a key, making one where there is none. */
  function Entered(h: Heap, cursor: Ref, key: string): Heap {
    var o := Fields(h.store, cursor);
    if key in o && o[key].Link? then h
    else Heap(h.store[h.next := map[]][cursor := o[key := Link(h.next)]], h.next + 1)
  }

  function Below(h: Heap, cursor: Ref, key: string): Ref {
    var o := Fields(h.store, cursor);
    if key in o && o[key].Link? then o[key].ref else h.next
  }

  /** The whole walk. */
  function Walk(h: Heap, cursor: Ref, path: seq<string>, value: Json): Heap
    decreases |path|
  {
    if path == [] then h
    else if |path| == 1 then h.(store := h.store[cursor := Fields(h.store, cursor)[path[0] := Leaf(value)]])
    else Walk(Entered(h, cursor, path[0]), Below(h, cursor, path[0]), path[1..], value)
  }

  class Objects {
    var store: Store
    var next: Ref

    function View(): Heap
      reads this
    {
      Heap(store, next)
    }

    method SetValueAtPath(target: Ref, path: string, value: Json)
      modifies this
      ensures View() == Walk(old(View()), target, Parts(path), value)
    {
      hide Walk, Parts;
      var parts := Parts(path);
      assert parts[0..] == parts;
      var cursor, index := target, 0;
      while index < |parts|
        invariant 0 <= index <= |parts|
        invariant Walk(View(), cursor, parts[index..], value) == Walk(old(View()), target, parts, value)
      {
        var part, rest := parts[index], parts[index..];
        assert rest[0] == part && rest[1..] == parts[index + 1..];
        WalkStep(View(), cursor, rest, value);
        if index == |parts| - 1 {
          store := store[cursor := Fields(store, cursor)[part := Leaf(value)]];
          assert parts[index + 1..] == [];
          WalkStep(View(), cursor, [], value);
        } else {
          var o := Fields(store, cursor);
          if part in o && o[part].Link? {
            cursor := o[part].ref;
          } else {
            store := store[next := map[]][cursor := o[part := Link(next)]];
            cursor := next;
            next := next + 1;
          }
        }
        index := index + 1;
      }
      assert parts[index..] == [];
      WalkStep(View(), cursor, [], value);
    }
  }

  lemma WalkStep(h: Heap, cursor: Ref, path: seq<string>, value: Json)
    ensures path == [] ==> Walk(h, cursor, path, value) == h
    ensures |path| == 1 ==>
              Walk(h, cursor, path, value) == h.(store := h.store[cursor := Fields(h.store, cursor)[path[0] := Leaf(value)]])
    ensures |path| > 1 ==>
              Walk(h, cursor, path, value) == Walk(Entered(h, cursor, path[0]), Below(h, cursor, path[0]), path[1..], value)
  {}

  // ---------------------------------------------------------------- what the objects stand for

  /** The object at r and those below it hold the given configuration. */
  predicate Holds(s: Store, r: Ref, j: Json)
    requires j.Object?
    decreases j, 0
  {
    r in s && s[r].Keys == j.fields.Keys && forall k :: k in j.fields ==> HoldsAt(s, s[r][k], j.fields[k])
  }

  predicate HoldsAt(s: Store, slot: Slot, j: Json)
    decreases j, 1
  {
    if j.Object? then slot.Link? && Holds(s, slot.ref, j) else slot == Leaf(j)
  }

  /** x is the object at r or one below it. */
  ghost predicate Within(s: Store, r: Ref, j: Json, x: Ref)
    requires j.Object?
    decreases j, 0
  {
    x == r || exists k :: k in j.fields && k in Fields(s, r) && WithinAt(s, Fields(s, r)[k], j.fields[k], x)
  }

  ghost predicate WithinAt(s: Store, slot: Slot, j: Json, x: Ref)
    decreases j, 1
  {
    j.Object? && slot.Link? && Within(s, slot.ref, j, x)
  }

  /** No object is reached along two ways. */
  ghost predicate Tree(s: Store, r: Ref, j: Json)
    requires j.Object?
    decreases j, 0
  {
    && (forall k :: k in j.fields && k in Fields(s, r) ==> TreeAt(s, Fields(s, r)[k], j.fields[k]))
    && (forall k :: k in j.fields && k in Fields(s, r) ==> !WithinAt(s, Fields(s, r)[k], j.fields[k], r))
    && (forall k, l :: k in j.fields && l in j.fields && k != l && k in Fields(s, r) && l in Fields(s, r) ==>
          Apart(s, Fields(s, r)[k], j.fields[k], Fields(s, r)[l], j.fields[l]))
  }

  ghost predicate Apart(s: Store, a: Slot, j: Json, b: Slot, k: Json) {
    forall x :: WithinAt(s, a, j, x) ==> !WithinAt(s, b, k, x)
  }

  ghost predicate TreeAt(s: Store, slot: Slot, j: Json)
    decreases j, 1
  {
    j.Object? && slot.Link? ==> Tree(s, slot.ref, j)
  }

  /** The two stores have the same objects at r and below. */
  ghost predicate Same(s: Store, t: Store, r: Ref, j: Json)
    requires j.Object?
  {
    forall x :: Within(s, r, j, x) ==> x in s && x in t && s[x] == t[x]
  }

  ghost predicate SameWithin(s: Store, t: Store, a: Slot, b: Slot, j: Json) {
    forall x :: WithinAt(s, a, j, x) <==> WithinAt(t, b, j, x)
  }

  /** What is held depends on the objects it is held in and on nothing else. */
  lemma {:induction false} Framed(s: Store, t: Store, r: Ref, j: Json)
    requires j.Object? && Holds(s, r, j) && Same(s, t, r, j)
    ensures Holds(t, r, j) && (forall x :: Within(t, r, j, x) <==> Within(s, r, j, x)) && (Tree(s, r, j) ==> Tree(t, r, j))
    decreases j
  {
    assert Within(s, r, j, r);
    forall k | k in j.fields
      ensures HoldsAt(t, s[r][k], j.fields[k]) && SameWithin(s, t, s[r][k], s[r][k], j.fields[k])
      ensures TreeAt(s, s[r][k], j.fields[k]) ==> TreeAt(t, s[r][k], j.fields[k])
    {
      FramedChild(s, t, r, j, k);
    }
    FramedTree(s, t, r, j);
    forall x ensures Within(t, r, j, x) <==> Within(s, r, j, x) {
      assert forall k :: k in j.fields ==> SameWithin(s, t, s[r][k], s[r][k], j.fields[k]);
    }
  }

  lemma {:induction false} FramedChild(s: Store, t: Store, r: Ref, j: Json, k: string)
    requires j.Object? && Holds(s, r, j) && Same(s, t, r, j) && k in j.fields
    ensures HoldsAt(t, s[r][k], j.fields[k]) && SameWithin(s, t, s[r][k], s[r][k], j.fields[k])
    ensures TreeAt(s, s[r][k], j.fields[k]) ==> TreeAt(t, s[r][k], j.fields[k])
    decreases j, 0
  {
    assert HoldsAt(s, s[r][k], j.fields[k]);
    if j.fields[k].Object? {
      forall x | Within(s, s[r][k].ref, j.fields[k], x) ensures x in s && x in t && s[x] == t[x] {
        assert WithinAt(s, Fields(s, r)[k], j.fields[k], x);
        assert Within(s, r, j, x);
      }
      Framed(s, t, s[r][k].ref, j.fields[k]);
    }
  }

  lemma FramedTree(s: Store, t: Store, r: Ref, j: Json)
    requires j.Object? && Holds(s, r, j) && r in t && s[r] == t[r]
    requires forall k :: k in j.fields ==> SameWithin(s, t, s[r][k], s[r][k], j.fields[k])
    requires forall k :: k in j.fields && TreeAt(s, s[r][k], j.fields[k]) ==> TreeAt(t, s[r][k], j.fields[k])
    ensures Tree(s, r, j) ==> Tree(t, r, j)
  {
    hide TreeAt, WithinAt;
    if Tree(s, r, j) {
      forall k, l | k in j.fields && l in j.fields && k != l
        ensures Apart(t, s[r][k], j.fields[k], s[r][l], j.fields[l])
      {
        assert Apart(s, Fields(s, r)[k], j.fields[k], Fields(s, r)[l], j.fields[l]);
        assert SameWithin(s, t, s[r][k], s[r][k], j.fields[k]) && SameWithin(s, t, s[r][l], s[r][l], j.fields[l]);
      }
      forall k | k in j.fields ensures !WithinAt(t, s[r][k], j.fields[k], r) && TreeAt(t, s[r][k], j.fields[k]) {
        assert SameWithin(s, t, s[r][k], s[r][k], j.fields[k]);
        assert !WithinAt(s, Fields(s, r)[k], j.fields[k], r) && TreeAt(s, Fields(s, r)[k], j.fields[k]);
      }
    }
  }

  // ---------------------------------------------------------------- one key rewritten

  /** The children under other keys than k, as s has them, are the same in t and apart from the new child. */
  ghost predicate OthersKept(s: Store, t: Store, r: Ref, j: Json, k: string, slot: Slot, entry: Json)
    requires j.Object?
  {
    forall l, x :: l in j.fields && l != k && l in Fields(s, r) && WithinAt(s, Fields(s, r)[l], j.fields[l], x) ==>
      x in s && x in t && s[x] == t[x] && !WithinAt(t, slot, entry, x)
  }

  lemma OtherChild(s: Store, t: Store, r: Ref, j: Json, k: string, slot: Slot, entry: Json, l: string)
    requires j.Object? && Holds(s, r, j) && OthersKept(s, t, r, j, k, slot, entry) && l in j.fields && l != k
    ensures HoldsAt(t, s[r][l], j.fields[l]) && SameWithin(s, t, s[r][l], s[r][l], j.fields[l])
    ensures TreeAt(s, s[r][l], j.fields[l]) ==> TreeAt(t, s[r][l], j.fields[l])
  {
    assert HoldsAt(s, s[r][l], j.fields[l]);
    if j.fields[l].Object? {
      forall x | Within(s, s[r][l].ref, j.fields[l], x) ensures x in s && x in t && s[x] == t[x] {
        assert WithinAt(s, Fields(s, r)[l], j.fields[l], x);
      }
      Framed(s, t, s[r][l].ref, j.fields[l]);
    }
  }

  lemma Rebuilt(s: Store, t: Store, r: Ref, j: Json, k: string, slot: Slot, entry: Json)
    requires j.Object? && Holds(s, r, j) && Tree(s, r, j) && r in t && t[r] == s[r][k := slot]
    requires HoldsAt(t, slot, entry) && TreeAt(t, slot, entry) && !WithinAt(t, slot, entry, r)
    requires OthersKept(s, t, r, j, k, slot, entry)
    ensures var j' := Object(j.fields[k := entry]);
            && Holds(t, r, j') && Tree(t, r, j')
            && forall x :: Within(t, r, j', x) ==> Within(s, r, j, x) || WithinAt(t, slot, entry, x)
  {
    var j' := Object(j.fields[k := entry]);
    forall l | l in j.fields && l != k
      ensures HoldsAt(t, s[r][l], j.fields[l]) && SameWithin(s, t, s[r][l], s[r][l], j.fields[l])
      ensures TreeAt(t, s[r][l], j.fields[l]) && !WithinAt(t, s[r][l], j.fields[l], r)
    {
      OtherChild(s, t, r, j, k, slot, entry, l);
      assert TreeAt(s, Fields(s, r)[l], j.fields[l]) && !WithinAt(s, Fields(s, r)[l], j.fields[l], r);
    }
    hide HoldsAt, WithinAt, TreeAt;
    forall a, b | a in j'.fields && b in j'.fields && a != b
      ensures Apart(t, t[r][a], j'.fields[a], t[r][b], j'.fields[b])
    {
      if a != k && b != k {
        assert Apart(s, Fields(s, r)[a], j.fields[a], Fields(s, r)[b], j.fields[b]);
        assert SameWithin(s, t, s[r][a], s[r][a], j.fields[a]) && SameWithin(s, t, s[r][b], s[r][b], j.fields[b]);
      } else {
        var l := if a == k then b else a;
        assert SameWithin(s, t, s[r][l], s[r][l], j.fields[l]);
      }
    }
    forall x | Within(t, r, j', x) ensures Within(s, r, j, x) || WithinAt(t, slot, entry, x) {
      if x != r {
        var l :| l in j'.fields && l in Fields(t, r) && WithinAt(t, Fields(t, r)[l], j'.fields[l], x);
        if l != k {
          assert SameWithin(s, t, s[r][l], s[r][l], j.fields[l]);
          assert WithinAt(s, Fields(s, r)[l], j.fields[l], x);
        }
      }
    }
  }

  // ---------------------------------------------------------------- the walk

  /** The first step of the path leads into an object that was there. */
  predicate Shared(j: Json, path: seq<string>)
    requires j.Object?
  {
    |path| > 1 && path[0] in j.fields && j.fields[path[0]].Object?
  }

  ghost predicate Untouched(h: Heap, h': Heap, r: Ref, j: Json, path: seq<string>)
    requires j.Object?
  {
    && (forall x :: x in h.store && !Within(h.store, r, j, x) ==> x in h'.store && h'.store[x] == h.store[x])
    && (Shared(j, path) ==> r in h.store && r in h'.store && h'.store[r] == h.store[r])
    && (!Shared(j, path) ==> forall x :: x in h.store && x != r ==> x in h'.store && h'.store[x] == h.store[x])
    && h.next <= h'.next && Fits(h')
  }

  /** New objects only come from beyond the old ones. */
  ghost predicate Grows(h: Heap, h': Heap, r: Ref, j: Json, j': Json)
    requires j.Object? && j'.Object?
  {
    forall x: Ref :: Within(h'.store, r, j', x) ==> Within(h.store, r, j, x) || x >= h.next
  }

  ghost predicate Refined(h: Heap, r: Ref, j: Json, path: seq<string>, value: Json)
    requires j.Object?
  {
    var h', j' := Walk(h, r, path, value), Object(SetAt(j.fields, path, value));
    Holds(h'.store, r, j') && Tree(h'.store, r, j') && Untouched(h, h', r, j, path) && Grows(h, h', r, j, j')
  }

  lemma {:induction false} WithinStore(s: Store, r: Ref, j: Json, x: Ref)
    requires j.Object? && Holds(s, r, j) && Within(s, r, j, x)
    ensures x in s
    decreases j
  {
    if x != r {
      var k :| k in j.fields && k in Fields(s, r) && WithinAt(s, Fields(s, r)[k], j.fields[k], x);
      assert HoldsAt(s, s[r][k], j.fields[k]);
      WithinStore(s, s[r][k].ref, j.fields[k], x);
    }
  }

  lemma ChildWithin(s: Store, r: Ref, j: Json, k: string, x: Ref)
    requires j.Object? && Holds(s, r, j) && k in j.fields && WithinAt(s, Fields(s, r)[k], j.fields[k], x)
    ensures Within(s, r, j, x) && x in s
  {
    WithinStore(s, r, j, x);
  }

  lemma WriteLast(h: Heap, r: Ref, j: Json, key: string, value: Json)
    requires j.Object? && Fits(h) && Holds(h.store, r, j) && Tree(h.store, r, j) && !value.Object?
    ensures Refined(h, r, j, [key], value)
  {
    var s, t := h.store, Walk(h, r, [key], value).store;
    forall l, x | l in j.fields && l != key && l in Fields(s, r) && WithinAt(s, Fields(s, r)[l], j.fields[l], x)
      ensures x in s && x in t && s[x] == t[x] && !WithinAt(t, Leaf(value), value, x)
    {
      ChildWithin(s, r, j, l, x);
      assert !WithinAt(s, Fields(s, r)[l], j.fields[l], r);
    }
    Rebuilt(s, t, r, j, key, Leaf(value), value);
    assert Within(s, r, j, r);
    assert SetAt(j.fields, [key], value) == j.fields[key := value];
  }

  lemma WalkOnExisting(h: Heap, r: Ref, j: Json, path: seq<string>, value: Json)
    requires j.Object? && Fits(h) && Holds(h.store, r, j) && Tree(h.store, r, j) && !value.Object? && Shared(j, path)
    requires Fields(h.store, r)[path[0]].Link? && Refined(h, Fields(h.store, r)[path[0]].ref, j.fields[path[0]], path[1..], value)
    ensures Refined(h, r, j, path, value)
  {
    var k := path[0];
    var slot := Fields(h.store, r)[k];
    var m, sub := slot.ref, j.fields[k];
    var h' := Walk(h, m, path[1..], value);
    var s, t, sub' := h.store, h'.store, Object(SetAt(sub.fields, path[1..], value));
    assert Walk(h, r, path, value) == h';
    assert !WithinAt(s, Fields(s, r)[k], sub, r);
    assert t[r] == s[r] && s[r] == s[r][k := slot];
    assert TreeAt(s, Fields(s, r)[k], sub);
    forall l, x | l in j.fields && l != k && l in Fields(s, r) && WithinAt(s, Fields(s, r)[l], j.fields[l], x)
      ensures x in s && x in t && s[x] == t[x] && !WithinAt(t, slot, sub', x)
    {
      ChildWithin(s, r, j, l, x);
      assert Apart(s, Fields(s, r)[l], j.fields[l], Fields(s, r)[k], sub);
      assert !Within(s, m, sub, x);
    }
    Rebuilt(s, t, r, j, k, slot, sub');
    assert SetAt(j.fields, path, value) == j.fields[k := sub'];
    forall x | Within(t, m, sub', x) && Within(s, m, sub, x) ensures Within(s, r, j, x) {
      assert WithinAt(s, Fields(s, r)[k], sub, x);
    }
    forall x | x in s && !Within(s, r, j, x) ensures x in t && t[x] == s[x] {
      assert !WithinAt(s, Fields(s, r)[k], sub, x);
    }
  }

  lemma EnteredNew(h: Heap, r: Ref, j: Json, path: seq<string>)
    requires j.Object? && Fits(h) && Holds(h.store, r, j) && |path| > 1 && !Shared(j, path)
    ensures Below(h, r, path[0]) == h.next
    ensures Entered(h, r, path[0]) == Heap(h.store[h.next := map[]][r := h.store[r][path[0] := Link(h.next)]], h.next + 1)
    ensures Fits(Entered(h, r, path[0])) && r < h.next
  {
    assert path[0] in j.fields ==> HoldsAt(h.store, h.store[r][path[0]], j.fields[path[0]]);
  }

  /** Walking on from a new, empty object changes nothing that was there, and reaches only what is new. */
  lemma NewReaches(h: Heap, h1: Heap, h': Heap, r: Ref, k: string, rest: seq<string>, sub: Json)
    requires Fits(h) && r in h.store && h1 == Heap(h.store[h.next := map[]][r := h.store[r][k := Link(h.next)]], h.next + 1)
    requires sub.Object? && Untouched(h1, h', h.next, Object(map[]), rest) && Grows(h1, h', h.next, Object(map[]), sub)
    ensures forall x :: x in h.store && x != r ==> x in h'.store && h'.store[x] == h.store[x]
    ensures r in h'.store && h'.store[r] == h.store[r][k := Link(h.next)] && h.next <= h'.next && Fits(h')
    ensures forall x: Ref :: Within(h'.store, h.next, sub, x) ==> x >= h.next
  {
    assert forall x :: Within(h1.store, h.next, Object(map[]), x) ==> x == h.next;
    hide Within;
  }

  lemma WalkSteps(h: Heap, r: Ref, j: Json, path: seq<string>, value: Json)
    requires j.Object? && Fits(h) && Holds(h.store, r, j) && |path| > 1 && !Shared(j, path)
    ensures Walk(h, r, path, value) == Walk(Entered(h, r, path[0]), h.next, path[1..], value)
    ensures SetAt(j.fields, path, value) == j.fields[path[0] := Object(SetAt(map[], path[1..], value))]
  {
    EnteredNew(h, r, j, path);
  }

  lemma WalkOnNew(h: Heap, r: Ref, j: Json, path: seq<string>, value: Json)
    requires j.Object? && Fits(h) && Holds(h.store, r, j) && Tree(h.store, r, j) && !value.Object?
    requires |path| > 1 && !Shared(j, path)
    requires Refined(Entered(h, r, path[0]), h.next, Object(map[]), path[1..], value)
    ensures Refined(h, r, j, path, value)
  {
    hide Walk, SetAt, Entered, Within, Tree, Holds, Shared;
    var k, n, h1 := path[0], h.next, Entered(h, r, path[0]);
    EnteredNew(h, r, j, path);
    WalkSteps(h, r, j, path, value);
    var h' := Walk(h1, n, path[1..], value);
    var s, t, sub' := h.store, h'.store, Object(SetAt(map[], path[1..], value));
    HoldsRoot(s, r, j);
    NewReaches(h, h1, h', r, k, path[1..], sub');
    NewChild(s, t, r, j, k, n, sub');
    Root(s, r, j);
  }

  lemma HoldsRoot(s: Store, r: Ref, j: Json)
    requires j.Object? && Holds(s, r, j)
    ensures r in s
  {}

  lemma Root(s: Store, r: Ref, j: Json)
    requires j.Object?
    ensures Within(s, r, j, r)
  {}

  lemma NewChild(s: Store, t: Store, r: Ref, j: Json, k: string, n: Ref, sub: Json)
    requires j.Object? && sub.Object? && Holds(s, r, j) && Tree(s, r, j) && Holds(t, n, sub) && Tree(t, n, sub)
    requires forall x :: x in s ==> x < n
    requires forall x :: x in s && x != r ==> x in t && t[x] == s[x]
    requires r in t && t[r] == s[r][k := Link(n)]
    requires forall x: Ref :: Within(t, n, sub, x) ==> x >= n
    ensures var j' := Object(j.fields[k := sub]);
            Holds(t, r, j') && Tree(t, r, j') && forall x: Ref :: Within(t, r, j', x) ==> Within(s, r, j, x) || x >= n
  {
    forall l, x | l in j.fields && l != k && l in Fields(s, r) && WithinAt(s, Fields(s, r)[l], j.fields[l], x)
      ensures x in s && x in t && s[x] == t[x] && !WithinAt(t, Link(n), sub, x)
    {
      ChildWithin(s, r, j, l, x);
      assert !WithinAt(s, Fields(s, r)[l], j.fields[l], r);
    }
    Rebuilt(s, t, r, j, k, Link(n), sub);
    var j' := Object(j.fields[k := sub]);
    forall x: Ref | Within(t, r, j', x) ensures Within(s, r, j, x) || x >= n {
      assert Within(s, r, j, x) || WithinAt(t, Link(n), sub, x);
    }
  }

  /** The walk in place does to the objects what SetAt does to the value they hold, and leaves every other object alone. */
  lemma {:induction false} WalkRefines(h: Heap, r: Ref, j: Json, path: seq<string>, value: Json)
    requires j.Object? && Fits(h) && Holds(h.store, r, j) && Tree(h.store, r, j) && !value.Object? && path != []
    ensures Refined(h, r, j, path, value)
    decreases |path|
  {
    var k := path[0];
    if |path| == 1 {
      WriteLast(h, r, j, k, value);
      assert path == [k];
    } else if Shared(j, path) {
      assert HoldsAt(h.store, h.store[r][k], j.fields[k]);
      assert TreeAt(h.store, Fields(h.store, r)[k], j.fields[k]);
      WalkRefines(h, h.store[r][k].ref, j.fields[k], path[1..], value);
      WalkOnExisting(h, r, j, path, value);
    } else {
      assert k in j.fields ==> HoldsAt(h.store, h.store[r][k], j.fields[k]);
      var h1 := Entered(h, r, k);
      WalkRefines(h1, h.next, Object(map[]), path[1..], value);
      WalkOnNew(h, r, j, path, value);
    }
  }

  // ---------------------------------------------------------------- applying a recommendation

  /** A shallow copy: a new object with the same entries, so that nested objects are shared with the original. */
  function Copied(h: Heap, r: Ref): Heap { Heap(h.store[h.next := Fields(h.store, r)], h.next + 1) }

  lemma CopyHolds(h: Heap, r: Ref, j: Json)
    requires j.Object? && Fits(h) && Holds(h.store, r, j) && Tree(h.store, r, j)
    ensures var c := Copied(h, r);
            && Fits(c) && Holds(c.store, h.next, j) && Tree(c.store, h.next, j)
            && Holds(c.store, r, j) && !Within(c.store, h.next, j, r)
  {
    var s, t, n := h.store, Copied(h, r).store, h.next;
    forall x: Ref | Within(s, r, j, x) ensures x in s && x in t && s[x] == t[x] { WithinStore(s, r, j, x); }
    Framed(s, t, r, j);
    forall k | k in j.fields
      ensures HoldsAt(t, s[r][k], j.fields[k]) && TreeAt(t, s[r][k], j.fields[k])
      ensures !WithinAt(t, s[r][k], j.fields[k], n) && !WithinAt(t, s[r][k], j.fields[k], r)
    {
      assert HoldsAt(t, t[r][k], j.fields[k]) && TreeAt(t, Fields(t, r)[k], j.fields[k]);
      assert !WithinAt(t, Fields(t, r)[k], j.fields[k], r);
      if WithinAt(t, Fields(t, r)[k], j.fields[k], n) {
        assert Within(t, r, j, n);
        WithinStore(s, r, j, n);
        assert false;
      }
    }
    forall k, l | k in j.fields && l in j.fields && k != l
      ensures Apart(t, t[n][k], j.fields[k], t[n][l], j.fields[l])
    {
      assert Apart(t, Fields(t, r)[k], j.fields[k], Fields(t, r)[l], j.fields[l]);
    }
  }

  lemma {:induction false} HoldsOne(s: Store, r: Ref, a: Json, b: Json)
    requires a.Object? && b.Object? && Holds(s, r, a) && Holds(s, r, b)
    ensures a == b
    decreases a
  {
    forall k | k in a.fields ensures a.fields[k] == b.fields[k] {
      assert HoldsAt(s, s[r][k], a.fields[k]) && HoldsAt(s, s[r][k], b.fields[k]);
      if a.fields[k].Object? { HoldsOne(s, s[r][k].ref, a.fields[k], b.fields[k]); }
    }
    assert a.fields == b.fields;
  }

  /**
   * Applying a recommendation to a shallow copy: the copy holds the written configuration. The configuration it was
   * copied from changes with it exactly when the path enters an object that was there and the write alters it.
   */
  lemma RecommendationApplied(h: Heap, r: Ref, j: Json, path: seq<string>, value: Json)
    requires j.Object? && Fits(h) && Holds(h.store, r, j) && Tree(h.store, r, j) && !value.Object? && path != []
    ensures var after, written := Walk(Copied(h, r), h.next, path, value).store, Object(SetAt(j.fields, path, value));
            && Holds(after, h.next, written)
            && Holds(after, r, if Shared(j, path) then written else j)
            && (Holds(after, r, j) <==> !Shared(j, path) || written == j)
  {
    var c := Copied(h, r);
    var after, written := Walk(c, h.next, path, value).store, Object(SetAt(j.fields, path, value));
    CopyHolds(h, r, j);
    WalkRefines(c, h.next, j, path, value);
    hide Walk, SetAt;
    if Shared(j, path) {
      assert after[r] == after[h.next];
      assert Holds(after, r, written);
      if Holds(after, r, j) { HoldsOne(after, r, j, written); }
    } else {
      forall x: Ref | Within(c.store, r, j, x) ensures x in c.store && x in after && c.store[x] == after[x] {
        WithinStore(c.store, r, j, x);
        if x == h.next { NotBelow(h, c, r, j); }
      }
      Framed(c.store, after, r, j);
    }
  }

  lemma NotBelow(h: Heap, c: Heap, r: Ref, j: Json)
    requires j.Object? && Fits(h) && Holds(h.store, r, j) && c == Copied(h, r)
    ensures !Within(c.store, r, j, h.next)
  {
    forall x: Ref | Within(h.store, r, j, x) ensures x in h.store && x in c.store && h.store[x] == c.store[x] {
      WithinStore(h.store, r, j, x);
    }
    Framed(h.store, c.store, r, j);
    if Within(h.store, r, j, h.next) { WithinStore(h.store, r, j, h.next); }
  }
}
