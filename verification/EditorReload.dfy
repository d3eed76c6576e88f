/** Export, load back, export again: exactly when the spec survives. */
module EditorReload {
  import opened Prelude
  import opened Text
  import opened Json
  import opened Editor

  // ---------------------------------------------------------------- the condition

  predicate KeepsNodes(ns: seq<Node>) {
    forall i :: 0 <= i < |ns| ==> ns[i].id != "" && ns[i].kind != "" && ns[i].x != 0.0 && ns[i].y != 0.0
  }

  predicate KeepsEdges(es: seq<Edge>) {
    forall i :: 0 <= i < |es| ==> es[i].id != "" && es[i].source != "" && es[i].target != ""
  }

  predicate KeepsTuning(t: Tuning) { t.batch > 0 && t.flush > 0 && t.checkpoint > 0 && t.buffer > 0 }

  predicate KeepsShards(s: Shards) { s.logical > 1 ==> s.strategy != "" && s.active >= 1 }

  /** A state whose canvas and settings a reload reproduces. */
  predicate Keepable(e: Editor) {
    && e.name != ""
    && KeepsTuning(e.tuning)
    && (if AsDag(e) then KeepsNodes(e.nodes) && KeepsEdges(e.edges) else KeepsShards(e.shards))
  }

  /** What a spec leaves to the editor it is loaded into: hooks, worker labels, a schedule that is not written. */
  predicate Agrees(e: Editor, other: Editor) {
    && BuildHooks(e.hooks, HOOKS) == BuildHooks(other.hooks, HOOKS)
    && BuildSelector(Split(e.labels, ','), map[]) == BuildSelector(Split(other.labels, ','), map[])
    && ((e.schedule.kind != "streaming" && e.schedule.kind != "") || BuildSchedule(e.schedule) == BuildSchedule(other.schedule))
  }

  function Reloaded(e: Editor, other: Editor): Editor { Load(other, Export(e)) }

  // ---------------------------------------------------------------- setting by setting

  lemma NameKept(name: string)
    ensures ExportName(OrText(ExportName(name), "my-pipeline")) == ExportName(name) <==> name != ""
  {
    TrimTrims(name);
    TrimTrims(Trim(name));
    assert name == "" ==> ExportName("my-pipeline") != "";
  }

  lemma TagsKept(text: string)
    ensures BuildTags(if BuildTags(text).Some? then Join(BuildTags(text).value) else "") == BuildTags(text)
  {
    TagsAreTags(text);
    JoinedTagsReadBack(Tags(text));
    JoinedTagsReadBack([]);
  }

  lemma ShardsKept(s: Shards)
    ensures BuildParallelism(LoadShards(BuildParallelism(s))) == BuildParallelism(s) <==> KeepsShards(s)
  {}

  lemma TuningKept(t: Tuning, spec: Spec)
    requires spec.execution == Some(BuildRuntime(t)) || (spec.execution.None? && spec.top == BuildRuntime(t))
    ensures BuildRuntime(LoadTuning(spec)) == BuildRuntime(t) <==> KeepsTuning(t)
  {}

  lemma ScheduleKept(mine: Schedule, theirs: Schedule)
    ensures var s := BuildSchedule(mine);
            BuildSchedule(if s.Some? && s.value.kind != "" then s.value else theirs) == s
            <==> ((mine.kind != "streaming" && mine.kind != "") || s == BuildSchedule(theirs))
  {}

  // ---------------------------------------------------------------- the DAG form

  lemma NodeKept(n: Node, i: nat)
    ensures BuildDagNode(LoadDagNode(BuildDagNode(n), i)) == BuildDagNode(n)
            <==> n.id != "" && n.kind != "" && n.x != 0.0 && n.y != 0.0
  {}

  lemma NodesKept(ns: seq<Node>)
    ensures BuildDagNodes(LoadDagNodes(BuildDagNodes(ns))) == BuildDagNodes(ns) <==> KeepsNodes(ns)
  {
    var built := BuildDagNodes(ns);
    var again := BuildDagNodes(LoadDagNodes(built));
    forall i | 0 <= i < |ns|
      ensures again[i] == built[i] <==> ns[i].id != "" && ns[i].kind != "" && ns[i].x != 0.0 && ns[i].y != 0.0
    {
      NodeKept(ns[i], i);
    }
  }

  predicate Ended(e: DagEdge) { OrText(e.from, e.source) != "" && OrText(e.to, e.target) != "" }

  predicate AllEnded(es: seq<DagEdge>, i: nat) { forall k :: i <= k < |es| ==> Ended(es[k]) }

  lemma {:induction false} EdgesCounted(es: seq<DagEdge>, i: nat)
    requires i <= |es|
    ensures |LoadDagEdges(es, i)| <= |es| - i
    ensures |LoadDagEdges(es, i)| == |es| - i <==> AllEnded(es, i)
    decreases |es| - i
  {
    if i < |es| {
      EdgesCounted(es, i + 1);
      assert AllEnded(es, i) <==> Ended(es[i]) && AllEnded(es, i + 1);
    }
  }

  lemma {:induction false} EdgeLoaded(es: seq<DagEdge>, i: nat, k: nat)
    requires i <= k < |es| && AllEnded(es, i)
    ensures |LoadDagEdges(es, i)| == |es| - i
    ensures LoadDagEdges(es, i)[k - i] == LoadDagEdge(es[k], k)
    decreases k - i
  {
    hide LoadDagEdges, LoadDagEdge, Ended;
    EdgesCounted(es, i);
    assert Ended(es[i]);
    EdgesHead(es, i);
    if i < k { EdgeLoaded(es, i + 1, k); }
  }

  lemma EdgesHead(es: seq<DagEdge>, i: nat)
    requires i < |es| && Ended(es[i])
    ensures LoadDagEdges(es, i) == [LoadDagEdge(es[i], i)] + LoadDagEdges(es, i + 1)
  {}

  lemma EdgesKept(es: seq<Edge>)
    ensures BuildDagEdges(LoadDagEdges(BuildDagEdges(es), 0)) == BuildDagEdges(es) <==> KeepsEdges(es)
  {
    hide LoadDagEdges;
    var built := BuildDagEdges(es);
    var loaded := LoadDagEdges(built, 0);
    var again := BuildDagEdges(loaded);
    EdgesCounted(built, 0);
    assert |again| == |loaded|;
    forall k | 0 <= k < |es|
      ensures Ended(built[k]) <==> es[k].source != "" && es[k].target != ""
      ensures |loaded| == |es| ==> (again[k] == built[k] <==> es[k].id != "")
    {
      if |loaded| == |es| { EdgeLoaded(built, 0, k); assert Ended(built[k]); }
    }
  }

  // ---------------------------------------------------------------- the linear form

  lemma {:induction false} OfKindConcat(a: seq<Node>, b: seq<Node>, kind: string)
    ensures OfKind(a + b, kind) == OfKind(a, kind) + OfKind(b, kind)
  {
    if a == [] {
      assert a + b == b;
    } else {
      var head := if a[0].kind == kind then [a[0]] else [];
      OfKindConcat(a[1..], b, kind);
      OfKindHead(a, kind);
      OfKindHead(a + b, kind);
      hide OfKind;
      assert (a + b)[1..] == a[1..] + b;
      assert OfKind(a + b, kind) == head + (OfKind(a[1..], kind) + OfKind(b, kind));
    }
  }

  lemma OfKindHead(ns: seq<Node>, kind: string)
    requires ns != []
    ensures OfKind(ns, kind) == (if ns[0].kind == kind then [ns[0]] else []) + OfKind(ns[1..], kind)
  {}

  lemma {:induction false} OfKindAll(ns: seq<Node>, kind: string, of: string)
    requires forall i :: 0 <= i < |ns| ==> ns[i].kind == of
    ensures OfKind(ns, kind) == if kind == of then ns else []
  {
    if ns != [] { OfKindAll(ns[1..], kind, of); }
  }

  lemma LaneOf(spec: Spec, kind: string)
    ensures OfKind(LoadLinearNodes(spec), kind) ==
            if kind == "source" then LoadSource(spec)
            else if kind == "transform" then LoadTransforms(spec.transforms)
            else if kind == "sink" then LoadSink(spec) else []
  {
    hide OfKind;
    var a, b, c := LoadSource(spec), LoadTransforms(spec.transforms), LoadSink(spec);
    OfKindAll(a, kind, "source");
    OfKindAll(b, kind, "transform");
    OfKindAll(c, kind, "sink");
    hide LoadSource, LoadTransforms, LoadSink;
    OfKindConcat(a + b, c, kind);
    OfKindConcat(a, b, kind);
  }

  lemma PlainKinds()
    ensures "source" !in ADVANCED && "transform" !in ADVANCED && "sink" !in ADVANCED
  {}

  predicate AllOf(ns: seq<Node>, kind: string) { forall i :: 0 <= i < |ns| ==> ns[i].kind == kind }

  lemma NothingAdvanced(spec: Spec)
    ensures !HasAdvanced(LoadLinearNodes(spec))
  {
    var a, b, c := LoadSource(spec), LoadTransforms(spec.transforms), LoadSink(spec);
    assert AllOf(a, "source") && AllOf(b, "transform") && AllOf(c, "sink");
    hide LoadSource, LoadTransforms, LoadSink, ADVANCED;
    PlainKinds();
    var ns := LoadLinearNodes(spec);
    forall i | 0 <= i < |ns| ensures ns[i].kind !in ADVANCED {
      if i < |a| { assert ns[i] == a[i]; }
      else if i < |a| + |b| { assert ns[i] == b[i - |a|]; }
      else { assert ns[i] == c[i - |a| - |b|]; }
    }
  }

  /** The canvas of a linear spec: one lane per kind, in pipeline order. */
  lemma LinearLanes(spec: Spec)
    ensures var ns := LoadLinearNodes(spec);
            && OfKind(ns, "source") == LoadSource(spec)
            && OfKind(ns, "transform") == LoadTransforms(spec.transforms)
            && OfKind(ns, "sink") == LoadSink(spec)
            && !HasAdvanced(ns)
  {
    hide *;
    LaneOf(spec, "source");
    LaneOf(spec, "transform");
    LaneOf(spec, "sink");
    NothingAdvanced(spec);
  }

  /** What Build writes of a linear canvas, a load and a second Build give back. */
  lemma LinearPartsKept(e: Editor, spec: Spec)
    requires spec.source == BuildFirst(OfKind(e.nodes, "source"), "file")
    requires spec.transforms == BuildTransforms(OfKind(e.nodes, "transform"))
    requires spec.sink == BuildFirst(OfKind(e.nodes, "sink"), "file_sink")
    ensures var ns := LoadLinearNodes(spec);
            && BuildFirst(OfKind(ns, "source"), "file") == spec.source
            && BuildTransforms(OfKind(ns, "transform")) == spec.transforms
            && BuildFirst(OfKind(ns, "sink"), "file_sink") == spec.sink
            && |OfKind(ns, "source")| <= 1 && |OfKind(ns, "sink")| <= 1 && !HasAdvanced(ns)
  {
    hide OfKind, HasAdvanced;
    LinearLanes(spec);
    var ts := LoadTransforms(spec.transforms);
    assert BuildTransforms(ts) == spec.transforms;
  }

  // ---------------------------------------------------------------- the theorem

  lemma FormKept(e: Editor, other: Editor)
    ensures AsDag(Reloaded(e, other)) == AsDag(e)
  {
    if !AsDag(e) { LinearPartsKept(e, Export(e)); }
  }

  lemma DagKept(e: Editor, other: Editor)
    requires AsDag(e)
    ensures Export(Reloaded(e, other)).dag == Export(e).dag <==> KeepsNodes(e.nodes) && KeepsEdges(e.edges)
  {
    hide KeepsNodes, KeepsEdges, BuildDagNodes, BuildDagEdges, LoadDagNodes, LoadDagEdges;
    NodesKept(e.nodes);
    EdgesKept(e.edges);
    FormKept(e, other);
  }

  lemma LinearKept(e: Editor, other: Editor)
    requires !AsDag(e)
    ensures var s, again := Export(e), Export(Reloaded(e, other));
            && again.dag == s.dag && again.source == s.source && again.transforms == s.transforms && again.sink == s.sink
            && (again.parallelism == s.parallelism <==> KeepsShards(e.shards))
  {
    FormKept(e, other);
    hide AsDag, KeepsShards, BuildParallelism, LoadShards, BuildTransforms, LoadLinearNodes, OfKind, BuildFirst;
    LinearPartsKept(e, Export(e));
    ShardsKept(e.shards);
  }

  lemma CommonKept(e: Editor, other: Editor)
    ensures var s, again := Export(e), Export(Reloaded(e, other));
            && (again.name == s.name <==> e.name != "")
            && again.tags == s.tags
            && (again.schedule == s.schedule && again.selector == s.selector && again.hooks == s.hooks <==> Agrees(e, other))
            && (again.execution == s.execution && again.top == s.top <==> KeepsTuning(e.tuning))
            && again.retry == s.retry
  {
    FormKept(e, other);
    hide AsDag, KeepsTuning, LoadTuning, BuildRuntime, BuildSelector, BuildHooks, BuildSchedule, BuildTags, ExportName;
    NameKept(e.name);
    TagsKept(e.tags);
    ScheduleKept(e.schedule, other.schedule);
    TuningKept(e.tuning, Export(e));
  }

  /**
   * Exporting, loading into an editor and exporting again yields the identical spec
   * if and only if the state is Keepable and the two editors agree on what a spec does not carry.
   */
  lemma ReloadKeepsSpec(e: Editor, other: Editor)
    ensures Export(Reloaded(e, other)) == Export(e) <==> Keepable(e) && Agrees(e, other)
  {
    FormKept(e, other);
    CommonKept(e, other);
    if AsDag(e) { DagKept(e, other); } else { LinearKept(e, other); }
    hide AsDag, KeepsTuning, KeepsShards, KeepsNodes, KeepsEdges, Agrees, BuildCommon, Load, BuildRuntime, BuildParallelism;
  }

  /** Back into the same editor nothing but the state itself matters. */
  lemma ReloadIsStable(e: Editor)
    ensures Export(Reloaded(e, e)) == Export(e) <==> Keepable(e)
  {
    hide Export, Reloaded, Keepable, BuildSelector, BuildHooks, BuildSchedule;
    ReloadKeepsSpec(e, e);
  }

  // ---------------------------------------------------------------- the state itself

  const DEFAULT_SHARDS := Shards(1, 1, 1, 0, "round_robin", "")

  /** Sharding settings come back exactly when they are in bounds, or when there is one shard and all else is at its default. */
  lemma ShardsRestored(s: Shards)
    ensures LoadShards(BuildParallelism(s)) == s <==>
            if s.logical > 1 then s.strategy != "" && 1 <= s.active <= s.logical && s.workers >= 1 && s.sinks >= 0
            else s == DEFAULT_SHARDS
  {}

  predicate NodeComes(n: Node) {
    n.id != "" && n.kind != "" && n.plugin != "" && n.caption == n.id && n.x != 0.0 && n.y != 0.0
  }

  lemma NodesRestored(ns: seq<Node>)
    ensures LoadDagNodes(BuildDagNodes(ns)) == ns <==> forall i :: 0 <= i < |ns| ==> NodeComes(ns[i])
  {
    var again := LoadDagNodes(BuildDagNodes(ns));
    forall i | 0 <= i < |ns| ensures again[i] == ns[i] <==> NodeComes(ns[i]) {
      assert again[i] == LoadDagNode(BuildDagNode(ns[i]), i);
      NumberedNotEmpty(OrText(ns[i].kind, "node"), i + 1);
    }
  }

  lemma NumberedNotEmpty(kind: string, n: nat)
    ensures Numbered(kind, n) != ""
  {}

  lemma EdgesRestored(es: seq<Edge>)
    ensures LoadDagEdges(BuildDagEdges(es), 0) == es <==> KeepsEdges(es)
  {
    hide LoadDagEdges;
    var built := BuildDagEdges(es);
    var loaded := LoadDagEdges(built, 0);
    EdgesCounted(built, 0);
    forall k | 0 <= k < |es|
      ensures Ended(built[k]) <==> es[k].source != "" && es[k].target != ""
      ensures |loaded| == |es| ==> (loaded[k] == es[k] <==> es[k].id != "")
    {
      if |loaded| == |es| { EdgeLoaded(built, 0, k); assert Ended(built[k]); }
    }
  }

  /** A DAG canvas that a reload puts back as it was, to the last setting. */
  predicate Restorable(e: Editor) {
    && e.dagFormat && e.shards == DEFAULT_SHARDS && KeepsTuning(e.tuning)
    && e.name != "" && (Trim(e.name) == "" || Trimmed(e.name))
    && Join(Tags(e.tags)) == e.tags
    && (forall i :: 0 <= i < |e.nodes| ==> NodeComes(e.nodes[i])) && KeepsEdges(e.edges)
    && e.selected == FirstId(e.nodes)
  }

  lemma NameRestored(name: string)
    ensures OrText(ExportName(name), "my-pipeline") == name <==> name != "" && (Trim(name) == "" || Trimmed(name))
  {
    TrimTrims(name);
  }

  /** In DAG form, loading what was exported gives back the very state, if and only if it is Restorable. */
  lemma DagStateRestored(e: Editor)
    requires AsDag(e)
    ensures Reloaded(e, e) == e <==> Restorable(e)
  {
    NameRestored(e.name);
    NodesRestored(e.nodes);
    EdgesRestored(e.edges);
    assert LoadShards(None) == DEFAULT_SHARDS;
    TuningRestored(e.tuning, Export(e));
    hide AsDag, ExportName, Trim, Tags, Join, KeepsTuning, KeepsEdges, NodeComes, LoadShards, LoadTuning, LoadDagNodes,
      LoadDagEdges, BuildDagNodes, BuildDagEdges, BuildRuntime, BuildSelector, BuildHooks, FirstId;
    assert Join([]) == "" by { EmptyJoin(); }
  }

  lemma EmptyJoin()
    ensures Join([]) == ""
  {}

  lemma TuningRestored(t: Tuning, spec: Spec)
    requires spec.execution == Some(BuildRuntime(t)) || (spec.execution.None? && spec.top == BuildRuntime(t))
    ensures LoadTuning(spec) == t <==> KeepsTuning(t)
  {}
}
