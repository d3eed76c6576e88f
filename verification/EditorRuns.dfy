/** What every run of canvas edits keeps. */
module EditorRuns {
  import opened Prelude
  import opened Text
  import opened Json
  import opened Editor
  import G = DagGraph

  // ---------------------------------------------------------------- fresh ids

  lemma NumberedInjective(kind: string, i: nat, j: nat)
    requires Numbered(kind, i) == Numbered(kind, j)
    ensures i == j
  {
    var p := kind + "-";
    assert Numbered(kind, i)[|p|..] == Decimal(i) && Numbered(kind, j)[|p|..] == Decimal(j);
    DecimalInjective(i, j);
  }

  function Numbers(kind: string, n: nat): seq<string> { seq(n, i requires 0 <= i < n => Numbered(kind, i + 1)) }

  /** Every number up to n taken means at least n ids are in use. */
  lemma TakenBound(kind: string, used: seq<string>, n: nat)
    requires forall i :: 1 <= i <= n ==> Numbered(kind, i) in used
    ensures n <= |used|
  {
    var names := Numbers(kind, n);
    forall i, j | 0 <= i < j < |names| ensures names[i] != names[j] {
      if names[i] == names[j] { NumberedInjective(kind, i + 1, j + 1); }
    }
    var all := set x | x in used;
    forall x | x in names ensures x in all {
      var i :| 0 <= i < |names| && names[i] == x;
      assert Numbered(kind, i + 1) in used;
    }
    DistinctWithin(names, all);
    ElementsBound(used);
  }

  lemma {:induction false} ElementsBound(s: seq<string>)
    ensures |(set x | x in s)| <= |s|
  {
    if s != [] {
      ElementsBound(s[1..]);
      assert (set x | x in s) == {s[0]} + (set x | x in s[1..]);
    }
  }

  /** The probing loop: it stops within one probe more than there are ids, at the least free number. */
  method NextNodeId(kind: string, used: seq<string>) returns (id: string, ghost n: nat)
    ensures id == Numbered(kind, n) && id !in used
    ensures 1 <= n <= |used| + 1 && forall i :: 1 <= i < n ==> Numbered(kind, i) in used
    ensures id == NextId(kind, used)
  {
    var m: nat := 1;
    TakenBound(kind, used, 0);
    while Numbered(kind, m) in used
      invariant 1 <= m <= |used| + 1
      invariant forall i :: 1 <= i < m ==> Numbered(kind, i) in used
      decreases |used| + 1 - m
    {
      TakenBound(kind, used, m);
      m := m + 1;
    }
    id, n := Numbered(kind, m), m;
    LeastFree(kind, used, 1, m);
  }

  lemma {:induction false} LeastFree(kind: string, used: seq<string>, from: nat, n: nat)
    requires from <= n <= |used| + 1 && Numbered(kind, n) !in used
    requires forall i :: from <= i < n ==> Numbered(kind, i) in used
    ensures FreeFrom(kind, used, from) == n
    decreases n - from
  {
    if from < n { LeastFree(kind, used, from + 1, n); }
  }

  lemma {:induction false} FreeFromIsFree(kind: string, used: seq<string>, n: nat)
    requires 1 <= n <= |used| + 1
    requires forall i :: 1 <= i < n ==> Numbered(kind, i) in used
    ensures Numbered(kind, FreeFrom(kind, used, n)) !in used
    decreases |used| + 1 - n
  {
    if Numbered(kind, n) in used {
      TakenBound(kind, used, n);
      FreeFromIsFree(kind, used, n + 1);
    }
  }

  // ---------------------------------------------------------------- the graph

  predicate EndsIn(es: seq<Edge>, ids: seq<string>) {
    forall i :: 0 <= i < |es| ==> es[i].source in ids && es[i].target in ids
  }

  /** Unique ids, edges between nodes on the canvas, a selection that exists. */
  predicate Sound(e: Editor) {
    && Distinct(Ids(e.nodes))
    && EndsIn(e.edges, Ids(e.nodes))
    && (e.selected.Some? ==> e.selected.value in Ids(e.nodes))
  }

  lemma AddKeeps(e: Editor, kind: string, plugin: string)
    requires Sound(e)
    ensures Sound(Step(e, Add(kind, plugin)))
  {
    var ids := Ids(e.nodes);
    var n := NewNode(e.nodes, kind, plugin);
    FreeFromIsFree(kind, ids, 1);
    assert Ids(e.nodes + [n]) == ids + [n.id];
  }

  lemma {:induction false} WithoutIds(ns: seq<Node>, id: string)
    requires Distinct(Ids(ns))
    ensures Distinct(Ids(Without(ns, id)))
    ensures forall x :: x in Ids(Without(ns, id)) <==> x in Ids(ns) && x != id
  {
    if ns != [] {
      var rest := ns[1..];
      assert Ids(ns) == [ns[0].id] + Ids(rest);
      DistinctTail(ns[0].id, Ids(rest));
      WithoutIds(rest, id);
      if ns[0].id != id {
        assert Ids([ns[0]] + Without(rest, id)) == [ns[0].id] + Ids(Without(rest, id));
        hide Without;
        DistinctCons(ns[0].id, Ids(Without(rest, id)));
      } else {
        assert [] + Without(rest, id) == Without(rest, id);
      }
    }
  }

  lemma {:induction false} DetachedEnds(es: seq<Edge>, id: string, ids: seq<string>, left: seq<string>)
    requires EndsIn(es, ids)
    requires forall x :: x in ids && x != id ==> x in left
    ensures EndsIn(Detached(es, id), left)
  {
    if es != [] { DetachedEnds(es[1..], id, ids, left); }
  }

  lemma DeleteKeeps(e: Editor)
    requires Sound(e)
    ensures Sound(Step(e, Delete))
  {
    if Chosen(e) {
      WithoutIds(e.nodes, e.selected.value);
      DetachedEnds(e.edges, e.selected.value, Ids(e.nodes), Ids(Without(e.nodes, e.selected.value)));
    }
  }

  lemma StepKeepsSound(e: Editor, edit: Edit)
    requires Sound(e) && Enabled(e, edit)
    ensures Sound(Step(e, edit))
  {
    match edit
    case Add(kind, plugin) => AddKeeps(e, kind, plugin);
    case Delete => DeleteKeeps(e);
    case Connect(_, _, _) =>
    case Select(_) =>
    case Deselect =>
    case SetLogical(_) =>
    case SetActive(_) =>
    case SuggestShards(_) =>
    case _ =>
      if Chosen(e) { assert Ids(MapSelected(e.nodes, e.selected.value, edit)) == Ids(e.nodes); }
  }

  lemma {:induction false} RunKeepsSound(e: Editor, edits: seq<Edit>)
    requires Sound(e) && IsRun(e, edits)
    ensures Sound(After(e, edits))
    decreases |edits|
  {
    hide Sound, Step, Enabled;
    if edits != [] {
      StepKeepsSound(e, edits[0]);
      RunKeepsSound(Step(e, edits[0]), edits[1..]);
    }
  }

  // ---------------------------------------------------------------- loading

  predicate Starts(ids: seq<string>, prefix: string) {
    forall i :: 0 <= i < |ids| ==> prefix <= ids[i]
  }

  lemma StartsApart(a: seq<string>, b: seq<string>, p: string, q: string, k: nat)
    requires Starts(a, p) && Starts(b, q) && k < |p| && k < |q| && p[k] != q[k]
    ensures forall x :: x in a ==> x !in b
  {
    forall x, y | x in a && y in b ensures x != y {
      assert p <= x && q <= y;
      assert x[k] == p[k] && y[k] == q[k];
    }
  }

  lemma TransformIds(ts: seq<Part>)
    ensures Distinct(Ids(LoadTransforms(ts))) && Starts(Ids(LoadTransforms(ts)), "transform-")
  {
    var b := Ids(LoadTransforms(ts));
    assert forall i :: 0 <= i < |b| ==> b[i] == Numbered("transform", i + 1);
    forall i, j | 0 <= i < j < |b| ensures b[i] != b[j] {
      if b[i] == b[j] { NumberedInjective("transform", i + 1, j + 1); }
    }
  }

  lemma LinearIdsDistinct(spec: Spec)
    ensures Distinct(Ids(LoadLinearNodes(spec)))
  {
    var a, b, c := Ids(LoadSource(spec)), Ids(LoadTransforms(spec.transforms)), Ids(LoadSink(spec));
    assert Ids(LoadLinearNodes(spec)) == a + b + c;
    assert Distinct(a) && Starts(a, "so") && Distinct(c) && Starts(c, "si");
    TransformIds(spec.transforms);
    hide LoadTransforms, LoadSource, LoadSink, Starts;
    StartsApart(a, b, "so", "transform-", 0);
    StartsApart(a, c, "so", "si", 1);
    StartsApart(b, c, "transform-", "si", 0);
    DistinctConcat(a, b);
    DistinctConcat(a + b, c);
  }

  /** A linear spec always loads to a sound canvas; a DAG spec does exactly when its own graph is. */
  lemma LoadSound(e: Editor, spec: Spec)
    ensures Sound(Load(e, spec)) <==>
            (spec.dag.Some? ==>
               var ids := Ids(LoadDagNodes(spec.dag.value.nodes));
               Distinct(ids) && EndsIn(LoadDagEdges(spec.dag.value.edges, 0), ids))
  {
    var ns := LoadNodes(spec);
    assert FirstId(ns).Some? ==> Ids(ns)[0] == FirstId(ns).value;
    if spec.dag.None? {
      LinearIdsDistinct(spec);
      forall i | 0 <= i < |Chain(ns)| ensures Chain(ns)[i].source in Ids(ns) && Chain(ns)[i].target in Ids(ns) {
        assert Ids(ns)[i] == Chain(ns)[i].source && Ids(ns)[i + 1] == Chain(ns)[i].target;
      }
    }
  }

  // ---------------------------------------------------------------- shards

  predicate ShardBounds(e: Editor) { 1 <= e.shards.active <= e.shards.logical }

  lemma LoadBounds(e: Editor, spec: Spec)
    ensures ShardBounds(Load(e, spec))
  {}

  /** Load establishes the bounds whatever the spec says, every edit keeps them, and Build's clamp is then idle. */
  lemma {:induction false} ShardBoundsHold(e: Editor, spec: Spec, edits: seq<Edit>)
    requires IsRun(Load(e, spec), edits)
    ensures var r := After(Load(e, spec), edits);
            ShardBounds(r) && Min(r.shards.active, r.shards.logical) == r.shards.active
  {
    RunKeepsBounds(Load(e, spec), edits);
  }

  lemma {:induction false} RunKeepsBounds(e: Editor, edits: seq<Edit>)
    requires ShardBounds(e) && IsRun(e, edits)
    ensures ShardBounds(After(e, edits))
    decreases |edits|
  {
    if edits != [] { RunKeepsBounds(Step(e, edits[0]), edits[1..]); }
  }

  // ---------------------------------------------------------------- what the server makes of it

  /** The graph the server reads from a spec in DAG form. */
  function Graph(d: Dag): G.Dag {
    G.Dag(seq(|d.nodes|, i requires 0 <= i < |d.nodes| => G.Node(d.nodes[i].id, d.nodes[i].kind, d.nodes[i].plugin)),
          seq(|d.edges|, i requires 0 <= i < |d.edges| => G.Edge(d.edges[i].from, d.edges[i].to)))
  }

  predicate Known(ns: seq<Node>) { forall i :: 0 <= i < |ns| ==> ns[i].id != "" && ns[i].kind in G.KINDS }

  /** The palette offers the kinds the server knows. */
  predicate FromPalette(edits: seq<Edit>) {
    forall i :: 0 <= i < |edits| && edits[i].Add? ==> edits[i].kind in G.KINDS
  }

  lemma {:induction false} WithoutKnown(ns: seq<Node>, id: string)
    requires Known(ns)
    ensures Known(Without(ns, id))
  {
    if ns != [] { WithoutKnown(ns[1..], id); }
  }

  lemma StepKeepsKnown(e: Editor, edit: Edit)
    requires Known(e.nodes) && (edit.Add? ==> edit.kind in G.KINDS)
    ensures Known(Step(e, edit).nodes)
  {
    if edit.Delete? && Chosen(e) { WithoutKnown(e.nodes, e.selected.value); }
  }

  lemma {:induction false} RunKeepsKnown(e: Editor, edits: seq<Edit>)
    requires Known(e.nodes) && FromPalette(edits)
    ensures Known(After(e, edits).nodes)
    decreases |edits|
  {
    if edits != [] {
      StepKeepsKnown(e, edits[0]);
      assert FromPalette(edits[1..]);
      hide Known, Step;
      RunKeepsKnown(Step(e, edits[0]), edits[1..]);
    }
  }

  /** Whatever is drawn, the server refuses the graph only for a missing source, a missing sink or a cycle. */
  lemma DrawnGraphIsWellFormed(e: Editor, edits: seq<Edit>)
    requires Sound(e) && Known(e.nodes) && IsRun(e, edits) && FromPalette(edits) && AsDag(After(e, edits))
    ensures var g := Graph(Export(After(e, edits)).dag.value);
            G.ValidDag(g) <==>
            G.OfKind(g.nodes, "source") != [] && G.OfKind(g.nodes, "sink") != [] && !G.HasCycle(g)
  {
    RunKeepsSound(e, edits);
    RunKeepsKnown(e, edits);
    SoundMeansJoined(After(e, edits));
  }

  lemma NodesWellFormed(r: Editor, g: G.Dag)
    requires Known(r.nodes) && g == Graph(Dag(BuildDagNodes(r.nodes), BuildDagEdges(r.edges)))
    ensures G.Ids(g) == Ids(r.nodes)
    ensures forall k :: 0 <= k < |g.nodes| ==> G.NodeOk(g.nodes[k])
  {
    assert "" !in G.KINDS;
    forall k | 0 <= k < |g.nodes| ensures G.NodeOk(g.nodes[k]) {
      var n := r.nodes[k];
      assert n.id != "" && n.kind in G.KINDS;
      assert g.nodes[k] == G.Node(n.id, n.kind, OrText(n.plugin, n.kind));
    }
  }

  lemma EdgesJoined(r: Editor, g: G.Dag)
    requires EndsIn(r.edges, Ids(r.nodes)) && g == Graph(Dag(BuildDagNodes(r.nodes), BuildDagEdges(r.edges)))
    ensures forall e :: e in g.edges ==> e.from in Ids(r.nodes) && e.to in Ids(r.nodes)
  {
    forall e | e in g.edges ensures e.from in Ids(r.nodes) && e.to in Ids(r.nodes) {
      var i :| 0 <= i < |g.edges| && g.edges[i] == e;
      assert e == G.Edge(r.edges[i].source, r.edges[i].target);
    }
  }

  lemma SoundMeansJoined(r: Editor)
    requires Sound(r) && Known(r.nodes) && AsDag(r)
    ensures var g := Graph(Export(r).dag.value);
            G.WellJoined(g) && forall k :: 0 <= k < |g.nodes| ==> G.NodeOk(g.nodes[k])
  {
    var g := Graph(Export(r).dag.value);
    NodesWellFormed(r, g);
    EdgesJoined(r, g);
  }
}
