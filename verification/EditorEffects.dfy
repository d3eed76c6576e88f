/** What one edit of the canvas changes in what is written of it, and what it leaves. */
module EditorEffects {
  import opened Prelude
  import opened Text
  import opened Json
  import opened Editor
  import opened EditorReload
  import opened EditorRuns

  // ---------------------------------------------------------------- edits of the selected node

  predicate Reworks(edit: Edit) { edit.SetPlugin? || edit.SetConfig? || edit.SetLabel? || edit.SetConnection? }

  /** What such an edit makes of the node as it is written. */
  predicate Rewritten(n: DagNode, edit: Edit, m: DagNode) {
    && m.id == n.id && m.kind == n.kind && m.connectionRef == n.connectionRef && m.x == n.x && m.y == n.y
    && match edit
       // another plugin starts over, without connection and configuration
       case SetPlugin(p) => m.plugin == (if p != "" then p else n.kind) && m.connection == "" && m.config == map[]
       case SetConfig(c) => m.plugin == n.plugin && m.connection == n.connection && m.config == c
       // a connection brings its plugin and replaces the configuration; giving it up keeps both
       case SetConnection(c, found) =>
         && m.connection == c && m.plugin == (if found != "" then found else n.plugin)
         && m.config == (if c != "" then map[] else n.config)
       case _ => m == n
  }

  /** In DAG form: the selected node is rewritten, and everything else that is written stays. */
  lemma EditComesOut(e: Editor, edit: Edit, i: nat)
    requires AsDag(e) && Sound(e) && Reworks(edit) && i < |e.nodes|
    ensures AsDag(Step(e, edit))
    ensures var s, out := Export(e), Export(Step(e, edit));
            && out == s.(dag := out.dag) && s.dag.Some? && out.dag.Some? && out.dag.value.edges == s.dag.value.edges
            && |out.dag.value.nodes| == |s.dag.value.nodes| == |e.nodes|
            && if Chosen(e) && e.selected.value == e.nodes[i].id
               then Rewritten(s.dag.value.nodes[i], edit, out.dag.value.nodes[i])
               else out.dag.value.nodes[i] == s.dag.value.nodes[i]
  {
    hide BuildDagEdges, BuildTags, BuildSchedule, BuildSelector, BuildHooks, BuildRuntime, ExportName, Sound;
    EditKeepsForm(e, edit);
    hide AsDag;
  }

  lemma EditKeepsForm(e: Editor, edit: Edit)
    requires AsDag(e) && Reworks(edit)
    ensures AsDag(Step(e, edit))
  {
    var e' := Step(e, edit);
    forall i | 0 <= i < |e.nodes| ensures e'.nodes[i].kind == e.nodes[i].kind {}
    SameKinds(e.nodes, e'.nodes, "source");
    SameKinds(e.nodes, e'.nodes, "sink");
    if HasAdvanced(e.nodes) {
      var n :| n in e.nodes && n.kind in ADVANCED;
      var i :| 0 <= i < |e.nodes| && e.nodes[i] == n;
      assert e'.nodes[i] in e'.nodes && e'.nodes[i].kind in ADVANCED;
    }
  }

  lemma {:induction false} SameKinds(ns: seq<Node>, ms: seq<Node>, kind: string)
    requires |ms| == |ns| && forall i :: 0 <= i < |ns| ==> ms[i].kind == ns[i].kind
    ensures |OfKind(ms, kind)| == |OfKind(ns, kind)|
  {
    if ns != [] { SameKinds(ns[1..], ms[1..], kind); }
  }

  /** The label is the one thing an edit can change that is not written. */
  lemma LabelShown(e: Editor, text: string, i: nat)
    requires i < |e.nodes|
    ensures var e' := Step(e, SetLabel(text));
            |e'.nodes| == |e.nodes| && e'.nodes[i] ==
            if Chosen(e) && e.selected.value == e.nodes[i].id then e.nodes[i].(caption := text) else e.nodes[i]
  {}

  // ---------------------------------------------------------------- adding

  /** A new node comes last, with the first number of its kind that is free, below the others of its kind. */
  lemma NewNodeShown(e: Editor, kind: string, plugin: string)
    ensures var e' := Step(e, Add(kind, plugin));
            && |e'.nodes| == |e.nodes| + 1 && e'.nodes[..|e.nodes|] == e.nodes && e'.edges == e.edges
            && (e'.dagFormat <==> e.dagFormat || kind in ["fanout", "router", "tap", "rate_limiter", "enricher", "lookup"])
    ensures var n := Step(e, Add(kind, plugin)).nodes[|e.nodes|];
            && n.kind == kind && n.plugin == plugin && n.connection == "" && n.config == map[] && n.caption == n.id
            && Step(e, Add(kind, plugin)).selected == Some(n.id) && n.id !in Ids(e.nodes)
            && (exists m: nat :: m >= 1 && n.id == kind + "-" + Decimal(m)
                  && forall l: nat :: 1 <= l < m ==> kind + "-" + Decimal(l) in Ids(e.nodes))
            && n.x == 200.0 + 30.0 * |e.nodes| as real
            && n.y == 90.0 * |OfKind(e.nodes, kind)| as real
                      + (if kind == "source" then 50.0 else if kind == "sink" then 500.0
                         else if kind == "rate_limiter" || kind == "enricher" || kind == "lookup" then 350.0
                         else if kind == "transform" || kind == "fanout" || kind == "router" || kind == "tap" then 200.0 else 250.0)
  {
    hide OfKind;
    FreeNumber(kind, Ids(e.nodes));
  }

  lemma FreeNumber(kind: string, used: seq<string>)
    ensures var m := FreeFrom(kind, used, 1);
            && kind + "-" + Decimal(m) !in used
            && forall l: nat :: 1 <= l < m ==> kind + "-" + Decimal(l) in used
  {
    FreeFromIsFree(kind, used, 1);
    BelowFree(kind, used, 1);
  }

  lemma {:induction false} BelowFree(kind: string, used: seq<string>, n: nat)
    requires n <= |used| + 1
    ensures forall l: nat :: n <= l < FreeFrom(kind, used, n) ==> kind + "-" + Decimal(l) in used
    decreases |used| + 1 - n
  {
    if n <= |used| && Numbered(kind, n) in used { BelowFree(kind, used, n + 1); }
  }

  // ---------------------------------------------------------------- sharding

  /** The number of shards is the one asked for, at least one; the active ones are the former as far as they fit. */
  lemma ShardsAsked(e: Editor, n: int)
    requires e.shards.active >= 1
    ensures var s := Step(e, SetLogical(n)).shards;
            && s.logical == (if n >= 1 then n else 1)
            && s.active == (if e.shards.active <= s.logical then e.shards.active else s.logical)
            && s == e.shards.(logical := s.logical, active := s.active)
    ensures e.shards.logical >= 1 ==>
              var s := Step(e, SetActive(n)).shards;
              && s.active == (if n < 1 then 1 else if n <= e.shards.logical then n else e.shards.logical)
              && s == e.shards.(active := s.active)
    ensures n >= 1 ==>
              var s := Step(e, SuggestShards(n)).shards;
              && s.logical == n && s.strategy == "partition"
              && s.active == (if e.shards.active <= n then e.shards.active else n)
              && s == e.shards.(logical := n, active := s.active, strategy := "partition")
  {}

  // ---------------------------------------------------------------- recommendations

  /** A recommendation belongs to a path of the configuration exactly when it names it, in full or, for a source, by
      itself, and has something to say. */
  lemma RecommendedIff(kind: string, field: string, value: Json, path: string)
    requires path != ""
    ensures RecommendedPath(kind, field, value) == path <==>
              && (kind == "source" || kind == "sink") && value != Str("review") && value != Str("")
              && (|| field == kind + ".config." + path
                  || (&& kind == "source" && field == path && !(kind + ".config." <= field)
                      && '.' !in field && field != "batch_size" && field != "checkpoint_interval_sec"))
  {
    var prefix := kind + ".config.";
    if prefix <= field { assert field == prefix + field[|prefix|..]; }
    assert (prefix + path)[|prefix|..] == path;
  }
}
