/** What any spec, however it was written, becomes on the canvas and comes out as again. */
module EditorLoad {
  import opened Prelude
  import opened Text
  import opened Json
  import opened Editor
  import opened EditorReload

  // ---------------------------------------------------------------- choices

  /** The first text that is not empty, else the last resort. */
  ghost predicate FirstText(t: string, texts: seq<string>, otherwise: string) {
    if forall k :: 0 <= k < |texts| ==> texts[k] == "" then t == otherwise
    else t != "" && exists k :: 0 <= k < |texts| && texts[k] == t && forall j :: 0 <= j < k ==> texts[j] == ""
  }

  predicate NoNumber(n: Option<int>) { n.None? || n.value == 0 }

  /** The first number that is there and not zero, else the last resort. */
  ghost predicate FirstNumber(n: int, numbers: seq<Option<int>>, otherwise: int) {
    if forall k :: 0 <= k < |numbers| ==> NoNumber(numbers[k]) then n == otherwise
    else exists k :: 0 <= k < |numbers| && numbers[k] == Some(n) && n != 0 && forall j :: 0 <= j < k ==> NoNumber(numbers[j])
  }

  /** The first of two numbers that is there, if it is positive, else the default. */
  predicate RuntimeNumber(n: Option<int>, inner: Option<int>, outer: Option<int>, default: int) {
    n == Some(if inner.Some? && inner.value > 0 then inner.value
              else if inner.None? && outer.Some? && outer.value > 0 then outer.value
              else default)
  }

  lemma OneText(a: string, b: string, otherwise: string)
    ensures FirstText(OrText(OrText(a, b), otherwise), [a, b], otherwise)
    ensures FirstText(OrText(a, b), [a], b)
  {
    assert [a, b][0] == a && [a, b][1] == b && [a][0] == a;
  }

  lemma OneNumber(a: Option<int>, b: Option<int>, c: Option<int>, otherwise: int)
    ensures FirstNumber(OrInt(OrNumber(OrNumber(a, b), c), otherwise), [a, b, c], otherwise)
    ensures FirstNumber(OrInt(OrNumber(a, b), otherwise), [a, b], otherwise)
    ensures FirstNumber(OrInt(a, otherwise), [a], otherwise)
  {
    assert [a, b, c][0] == a && [a, b, c][1] == b && [a, b, c][2] == c;
    assert [a, b][0] == a && [a, b][1] == b && [a][0] == a;
  }

  // ---------------------------------------------------------------- the linear form

  /** A part with the same plugin and configuration, and the connection it names in either way. */
  ghost predicate SamePart(p: Part, q: Part) {
    q.kind == p.kind && q.config == p.config && q.connectionRef == "" && FirstText(q.connection, [p.connection], p.connectionRef)
  }

  /** The first or last part of a linear spec: absent when it has no kind. */
  ghost predicate SameEnd(p: Option<Part>, q: Option<Part>) {
    if p.None? || p.value.kind == "" then q.None? else q.Some? && SamePart(p.value, q.value)
  }

  lemma PartBack(kind: string, id: string, p: Part, y: real, otherwise: string)
    requires p.kind != "" || otherwise == ""
    ensures SamePart(p, BuildPart(LoadPart(kind, id, p, y), otherwise))
  {
    OneText(p.connection, p.connectionRef, "");
  }

  lemma LinearForm(e: Editor, spec: Spec)
    requires spec.dag.None?
    ensures !AsDag(Load(e, spec))
    ensures var out := Export(Load(e, spec));
            && out.dag.None? && out.execution.None? && !out.retry
            && out.source == BuildFirst(LoadSource(spec), "file")
            && out.transforms == BuildTransforms(LoadTransforms(spec.transforms))
            && out.sink == BuildFirst(LoadSink(spec), "file_sink")
  {
    LinearLanes(spec);
    hide OfKind, HasAdvanced, LoadLinearNodes, LoadShards, LoadTuning, LoadTransforms, BuildTransforms, LoadPart, BuildPart;
    hide BuildTags, BuildSchedule, BuildSelector, BuildHooks, BuildParallelism, BuildRuntime, Join;
  }

  /** Every linear spec: each part comes out at its place, with its plugin, its configuration and its connection. */
  lemma LinearPartsComeOut(e: Editor, spec: Spec)
    requires spec.dag.None?
    ensures var out := Export(Load(e, spec));
            && out.dag.None?
            && SameEnd(spec.source, out.source) && SameEnd(spec.sink, out.sink)
            && |out.transforms| == |spec.transforms|
            && forall i :: 0 <= i < |spec.transforms| ==> SamePart(spec.transforms[i], out.transforms[i])
  {
    hide Load, Export, SamePart, BuildTransforms, LoadTransforms, BuildFirst, LoadSource, LoadSink;
    LinearForm(e, spec);
    SourceBack(spec);
    SinkBack(spec);
    TransformsBack(spec.transforms);
  }

  lemma SourceBack(spec: Spec)
    ensures SameEnd(spec.source, BuildFirst(LoadSource(spec), "file"))
  {
    hide SamePart, BuildPart, LoadPart;
    if spec.source.Some? && spec.source.value.kind != "" { PartBack("source", "source-1", spec.source.value, 50.0, "file"); }
  }

  lemma SinkBack(spec: Spec)
    ensures SameEnd(spec.sink, BuildFirst(LoadSink(spec), "file_sink"))
  {
    hide SamePart, BuildPart, LoadPart;
    if spec.sink.Some? && spec.sink.value.kind != "" {
      PartBack("sink", "sink-1", spec.sink.value, 150.0 + |spec.transforms| as real * 100.0, "file_sink");
    }
  }

  lemma TransformsBack(ts: seq<Part>)
    ensures var out := BuildTransforms(LoadTransforms(ts));
            |out| == |ts| && forall i :: 0 <= i < |ts| ==> SamePart(ts[i], out[i])
  {
    hide SamePart, BuildPart, LoadPart;
    var out := BuildTransforms(LoadTransforms(ts));
    forall i | 0 <= i < |ts| ensures SamePart(ts[i], out[i]) {
      PartBack("transform", Numbered("transform", i + 1), ts[i], 150.0 + i as real * 100.0, "");
    }
  }

  // ---------------------------------------------------------------- the DAG form

  /** The i-th node of a DAG spec, as it comes out. */
  ghost predicate SameNode(n: DagNode, i: nat, m: DagNode) {
    && m.id == (if n.id != "" then n.id else if n.kind != "" then n.kind + "-" + Decimal(i + 1) else "node-" + Decimal(i + 1))
    && FirstText(m.kind, [n.kind], "transform")
    && FirstText(m.plugin, [n.plugin, n.kind], "identity")
    && FirstText(m.connection, [n.connection], n.connectionRef) && m.connectionRef == ""
    && m.config == n.config
    && m.x == Some(if n.x.Some? && n.x.value != 0.0 then n.x.value else 220.0 + i as real * 40.0)
    && m.y == Some(if n.y.Some? && n.y.value != 0.0 then n.y.value else 80.0 + i as real * 100.0)
  }

  lemma NodeBack(n: DagNode, i: nat)
    ensures SameNode(n, i, BuildDagNode(LoadDagNode(n, i)))
  {
    OneText(n.plugin, n.kind, "identity");
    OneText(n.kind, "transform", "");
    OneText(n.connection, n.connectionRef, "");
  }

  /** An edge with both its ends, each named in either of two ways. */
  predicate HasEnds(e: DagEdge) { (e.from != "" || e.source != "") && (e.to != "" || e.target != "") }

  /** How many of the first n edges have both ends. */
  function CountEnds(es: seq<DagEdge>, n: nat): nat
    requires n <= |es|
  {
    if n == 0 then 0 else CountEnds(es, n - 1) + (if HasEnds(es[n - 1]) then 1 else 0)
  }

  ghost predicate SameEdge(e: DagEdge, i: nat, f: DagEdge) {
    && f.id == (if e.id != "" then e.id else "e-" + Decimal(i))
    && FirstText(f.from, [e.from], e.source) && FirstText(f.to, [e.to], e.target) && f.source == "" && f.target == ""
  }

  lemma CountGrows(es: seq<DagEdge>, m: nat, n: nat)
    requires m <= n <= |es|
    ensures CountEnds(es, m) <= CountEnds(es, n)
    decreases n - m
  {
    if m < n { CountGrows(es, m, n - 1); }
  }

  lemma {:induction false} EdgesFrom(es: seq<DagEdge>, i: nat)
    requires i <= |es|
    ensures |LoadDagEdges(es, i)| == CountEnds(es, |es|) - CountEnds(es, i)
    decreases |es| - i
  {
    if i < |es| { EdgesFrom(es, i + 1); }
  }

  lemma CountAround(es: seq<DagEdge>, i: nat, k: nat)
    requires i <= k < |es| && HasEnds(es[k])
    ensures CountEnds(es, i) <= CountEnds(es, k) < CountEnds(es, |es|)
  {
    CountGrows(es, i, k);
    CountGrows(es, k + 1, |es|);
  }

  /** Where an edge with both ends stands among those loaded. */
  ghost predicate StandsAt(es: seq<DagEdge>, i: nat, k: nat)
    requires i <= k < |es|
  {
    var at := CountEnds(es, k) - CountEnds(es, i);
    0 <= at < |LoadDagEdges(es, i)| && LoadDagEdges(es, i)[at] == LoadDagEdge(es[k], k)
  }

  lemma StandsFirst(es: seq<DagEdge>, k: nat)
    requires k < |es| && HasEnds(es[k])
    ensures StandsAt(es, k, k)
  {
    EdgesStep(es, k);
    hide LoadDagEdge, LoadDagEdges, CountEnds;
  }

  lemma StandsLater(es: seq<DagEdge>, i: nat, k: nat)
    requires i < k < |es| && StandsAt(es, i + 1, k)
    ensures StandsAt(es, i, k)
  {
    EdgesStep(es, i);
    CountStep(es, i);
    hide LoadDagEdge, LoadDagEdges, CountEnds, HasEnds;
    var head := if HasEnds(es[i]) then [LoadDagEdge(es[i], i)] else [];
    var at, rest := CountEnds(es, k) - CountEnds(es, i + 1), LoadDagEdges(es, i + 1);
    assert (head + rest)[|head| + at] == rest[at];
  }

  lemma {:induction false} EdgeAt(es: seq<DagEdge>, i: nat, k: nat)
    requires i <= k < |es| && HasEnds(es[k])
    ensures StandsAt(es, i, k)
    decreases k - i
  {
    hide StandsAt;
    if i < k {
      EdgeAt(es, i + 1, k);
      StandsLater(es, i, k);
    } else {
      StandsFirst(es, k);
    }
  }

  lemma CountStep(es: seq<DagEdge>, n: nat)
    requires n < |es|
    ensures CountEnds(es, n + 1) == CountEnds(es, n) + (if HasEnds(es[n]) then 1 else 0)
  {}

  lemma EdgesStep(es: seq<DagEdge>, i: nat)
    requires i < |es|
    ensures LoadDagEdges(es, i) == (if HasEnds(es[i]) then [LoadDagEdge(es[i], i)] else []) + LoadDagEdges(es, i + 1)
  {}

  lemma EdgeBack(e: DagEdge, i: nat)
    ensures var l := LoadDagEdge(e, i); SameEdge(e, i, DagEdge(l.id, l.source, l.target, "", ""))
  {
    OneText(e.from, e.source, "");
    OneText(e.to, e.target, "");
  }

  lemma DagForm(e: Editor, spec: Spec)
    requires spec.dag.Some?
    ensures AsDag(Load(e, spec))
    ensures var out := Export(Load(e, spec));
            && out.dag == Some(Dag(BuildDagNodes(LoadDagNodes(spec.dag.value.nodes)), BuildDagEdges(LoadDagEdges(spec.dag.value.edges, 0))))
            && out.source.None? && out.transforms == [] && out.sink.None? && out.parallelism.None? && out.retry
  {
    hide OfKind, HasAdvanced, LoadDagNodes, LoadDagEdges, LoadShards, LoadTuning, BuildDagNodes, BuildDagEdges;
    hide BuildTags, BuildSchedule, BuildSelector, BuildHooks;
  }

  /** Every DAG spec: each node comes out at its place, and each edge that has both ends, in order. */
  lemma DagPartsComeOut(e: Editor, spec: Spec)
    requires spec.dag.Some?
    ensures var dag, out := spec.dag.value, Export(Load(e, spec));
            && out.dag.Some?
            && |out.dag.value.nodes| == |dag.nodes|
            && (forall i :: 0 <= i < |dag.nodes| ==> SameNode(dag.nodes[i], i, out.dag.value.nodes[i]))
            && |out.dag.value.edges| == CountEnds(dag.edges, |dag.edges|)
            && (forall k :: 0 <= k < |dag.edges| && HasEnds(dag.edges[k]) ==>
                  CountEnds(dag.edges, k) < |out.dag.value.edges|
                  && SameEdge(dag.edges[k], k, out.dag.value.edges[CountEnds(dag.edges, k)]))
  {
    hide Load, Export, SameNode, SameEdge, BuildDagNodes, LoadDagNodes, BuildDagEdges, LoadDagEdges, CountEnds;
    DagForm(e, spec);
    NodesBack(spec.dag.value.nodes);
    EdgesBack(spec.dag.value.edges);
  }

  lemma NodesBack(ns: seq<DagNode>)
    ensures var out := BuildDagNodes(LoadDagNodes(ns));
            |out| == |ns| && forall i :: 0 <= i < |ns| ==> SameNode(ns[i], i, out[i])
  {
    hide SameNode, BuildDagNode, LoadDagNode;
    var out := BuildDagNodes(LoadDagNodes(ns));
    forall i | 0 <= i < |ns| ensures SameNode(ns[i], i, out[i]) { NodeBack(ns[i], i); }
  }

  lemma EdgesBack(es: seq<DagEdge>)
    ensures var out := BuildDagEdges(LoadDagEdges(es, 0));
            && |out| == CountEnds(es, |es|)
            && forall k :: 0 <= k < |es| && HasEnds(es[k]) ==>
                 CountEnds(es, k) < |out| && SameEdge(es[k], k, out[CountEnds(es, k)])
  {
    hide SameEdge, LoadDagEdge, LoadDagEdges, HasEnds;
    var out := BuildDagEdges(LoadDagEdges(es, 0));
    EdgesFrom(es, 0);
    forall k | 0 <= k < |es| && HasEnds(es[k])
      ensures CountEnds(es, k) < |out| && SameEdge(es[k], k, out[CountEnds(es, k)])
    {
      CountAround(es, 0, k);
      EdgeAt(es, 0, k);
      EdgeBack(es[k], k);
    }
  }

  // ---------------------------------------------------------------- settings

  const NO_SHARDING := Sharding("", "", None)
  const NO_EXECUTION := Execution(None, None, None)
  const NO_PARALLELISM := Parallelism(None, None, None, None, "", "")

  function Get<T>(o: Option<T>, otherwise: T): T { if o.Some? then o.value else otherwise }

  /** The sharding settings a spec stands for, in the new fields or the old. */
  ghost predicate ShardsOf(p: Option<Parallelism>, s: Shards) {
    var par := Get(p, NO_PARALLELISM);
    var sh, ex := Get(par.sharding, NO_SHARDING), Get(par.execution, NO_EXECUTION);
    && (exists n :: FirstNumber(n, [sh.logical, par.total, par.count], 1) && s.logical == Max(1, n))
    && (exists n :: FirstNumber(n, [ex.active, par.count], s.logical) && s.active == Min(Max(1, n), s.logical))
    && (exists n :: FirstNumber(n, [ex.workers], 1) && s.workers == Max(1, n))
    && (exists n :: FirstNumber(n, [ex.sinks], 0) && s.sinks == Max(0, n))
    && FirstText(s.strategy, [sh.strategy, par.strategy], "round_robin") && FirstText(s.key, [sh.key], par.key)
  }

  lemma ShardsRead(p: Option<Parallelism>)
    ensures ShardsOf(p, LoadShards(p))
  {
    var par := Get(p, NO_PARALLELISM);
    var sh, ex := Get(par.sharding, NO_SHARDING), Get(par.execution, NO_EXECUTION);
    var s := LoadShards(p);
    OneNumber(sh.logical, par.total, par.count, 1);
    OneNumber(ex.active, par.count, None, s.logical);
    OneNumber(ex.workers, None, None, 1);
    OneNumber(ex.sinks, None, None, 0);
    OneText(sh.strategy, par.strategy, "round_robin");
    OneText(sh.key, par.key, "");
    hide FirstNumber, FirstText;
    assert OrInt(OrNumber(OrNumber(ex.active, par.count), Some(s.logical)), s.logical) == OrInt(OrNumber(ex.active, par.count), s.logical);
  }

  /** The numbers of a run, from the place the form puts them in. */
  predicate RuntimeOf(spec: Spec, t: Runtime) {
    var e := Get(spec.execution, NO_RUNTIME);
    && RuntimeNumber(t.batch, e.batch, spec.top.batch, 1000) && RuntimeNumber(t.flush, e.flush, spec.top.flush, 1000)
    && RuntimeNumber(t.checkpoint, e.checkpoint, spec.top.checkpoint, 30) && RuntimeNumber(t.buffer, e.buffer, spec.top.buffer, 100)
  }

  lemma RuntimeRead(spec: Spec)
    ensures RuntimeOf(spec, BuildRuntime(LoadTuning(spec)))
  {}

  /** What is written of sharding settings: nothing for a single shard. */
  predicate WritesShards(s: Shards, p: Option<Parallelism>) {
    if s.logical <= 1 then p.None?
    else
      && p.Some? && p.value.sharding == Some(Sharding(s.strategy, s.key, Some(s.logical)))
      && p.value.execution.Some? && p.value.execution.value.active == Some(s.active)
      && p.value.execution.value.workers == (if s.workers == 1 then None else Some(s.workers))
      && p.value.execution.value.sinks == (if s.sinks == 0 then None else Some(s.sinks))
      && p.value.total.None? && p.value.count.None? && p.value.strategy == "" && p.value.key == ""
  }

  lemma ShardsWritten(p: Option<Parallelism>)
    ensures WritesShards(LoadShards(p), BuildParallelism(LoadShards(p)))
  {}

  /** Every spec, in either form: the numbers of its run come out, with the defaults for those absent or not positive; in
      linear form so does the sharding, from the new fields or the old. */
  lemma SettingsComeOut(e: Editor, spec: Spec)
    ensures var out := Export(Load(e, spec));
            if spec.dag.Some? then out.execution.Some? && RuntimeOf(spec, out.execution.value) && out.top == NO_RUNTIME
            else
              && RuntimeOf(spec, out.top) && out.execution.None?
              && exists s :: ShardsOf(spec.parallelism, s) && WritesShards(s, out.parallelism)
  {
    if spec.dag.Some? { DagForm(e, spec); } else { LinearForm(e, spec); }
    hide AsDag, LoadShards, LoadTuning, LoadNodes, LoadEdges, BuildTags, BuildSchedule, BuildSelector, BuildHooks, BuildParallelism;
    hide BuildDagNodes, BuildDagEdges, BuildFirst, BuildTransforms, BuildRuntime, OfKind, ShardsOf, WritesShards, RuntimeOf, Join;
    RuntimeRead(spec);
    ShardsRead(spec.parallelism);
    ShardsWritten(spec.parallelism);
  }

  /** Name, tags and schedule: an empty name and an absent schedule leave the editor's own. */
  lemma CommonComesOut(e: Editor, spec: Spec)
    ensures var out := Export(Load(e, spec));
            && (spec.name == "" ==> out.name == "my-pipeline") && (spec.name != "" && Trimmed(spec.name) ==> out.name == spec.name)
            && (spec.tags.Some? && AreTags(spec.tags.value) ==> out.tags == if spec.tags.value == [] then None else spec.tags)
            && (spec.tags.None? ==> out.tags.None?)
            && var s := if spec.schedule.Some? && spec.schedule.value.kind != "" then spec.schedule.value else e.schedule;
               out.schedule == (if s.kind == "streaming" then None else Some(s))
  {
    hide AsDag, LoadShards, LoadTuning, LoadNodes, LoadEdges, BuildSelector, BuildHooks, BuildParallelism;
    hide BuildDagNodes, BuildDagEdges, BuildFirst, BuildTransforms, BuildRuntime, OfKind, Join, Tags, Trim;
    NamesTrim(spec.name);
    if spec.tags.Some? && AreTags(spec.tags.value) { JoinedTagsReadBack(spec.tags.value); }
    NoTags();
  }

  lemma NoTags()
    ensures Tags("") == []
  {
    JoinedTagsReadBack([]);
  }

  lemma NamesTrim(name: string)
    ensures Trimmed(name) ==> Trim(name) == name
    ensures Trim("my-pipeline") == "my-pipeline"
  {
    TrimTrims(name);
    TrimTrims("my-pipeline");
  }

  // ---------------------------------------------------------------- hooks and worker labels

  /** A hook is written when it is switched on and has code or a name, and only then. */
  lemma {:induction false} HooksWritten(hooks: map<string, Hook>, keys: seq<(string, string)>, key: string, h: Hook)
    ensures (key, h) in BuildHooks(hooks, keys) <==>
              exists j :: 0 <= j < |keys| && keys[j].0 == key && keys[j].1 in hooks && hooks[keys[j].1] == h
                          && h.enabled && (h.code != "" || h.name != "")
  {
    if keys != [] {
      HooksWritten(hooks, keys[1..], key, h);
      var rest := BuildHooks(hooks, keys[1..]);
      assert forall j :: 0 < j < |keys| ==> keys[j] == keys[1..][j - 1];
      if exists j :: 0 <= j < |keys| && keys[j].0 == key && keys[j].1 in hooks && hooks[keys[j].1] == h
                     && h.enabled && (h.code != "" || h.name != "") {
        var j :| 0 <= j < |keys| && keys[j].0 == key && keys[j].1 in hooks && hooks[keys[j].1] == h
                 && h.enabled && (h.code != "" || h.name != "");
        if j > 0 { assert keys[1..][j - 1].0 == key; }
      }
    }
  }

  /** The hooks of an export, by the names they have there and in the designer. */
  lemma HooksComeOut(e: Editor, key: string, h: Hook)
    ensures (key, h) in Export(e).hooks <==>
              exists name :: name in e.hooks && e.hooks[name] == h && h.enabled && (h.code != "" || h.name != "")
                && (key, name) in [("on_init", "OnInit"), ("on_pre_batch", "OnPreBatch"), ("on_post_batch", "OnPostBatch"),
                                   ("on_error", "OnError"), ("on_checkpoint", "OnCheckpoint"), ("on_shutdown", "OnShutdown")]
  {
    HooksWritten(e.hooks, HOOKS, key, h);
    hide AsDag, BuildTags, BuildSchedule, BuildSelector, BuildHooks, BuildDagNodes, BuildDagEdges, BuildFirst, BuildTransforms, ExportName;
    assert Export(e).hooks == BuildHooks(e.hooks, HOOKS);
    assert forall name :: (key, name) in HOOKS <==> exists j :: 0 <= j < |HOOKS| && HOOKS[j].0 == key && HOOKS[j].1 == name by {
      forall name | (key, name) in HOOKS ensures exists j :: 0 <= j < |HOOKS| && HOOKS[j].0 == key && HOOKS[j].1 == name {
        var j :| 0 <= j < |HOOKS| && HOOKS[j] == (key, name);
      }
    }
  }

  /** A text k=v, with blanks around it and its two sides, and perhaps more = after them. */
  ghost predicate Label(text: string, k: string, v: string) {
    exists a, b, tail :: Sides(Trim(text), a, b, tail) && k == Trim(a) && v == Trim(b)
  }

  predicate Sides(t: string, a: string, b: string, tail: string) {
    t == a + "=" + b + tail && '=' !in a && '=' !in b && (tail == "" || tail[0] == '=') && a != "" && b != ""
  }

  lemma SidesSplit(t: string, a: string, b: string, tail: string)
    requires Sides(t, a, b, tail)
    ensures |Split(t, '=')| > 1 && Split(t, '=')[0] == a && Split(t, '=')[1] == b
  {
    assert t == a + ['='] + (b + tail);
    SplitFirst(a, b + tail, '=');
    if tail == "" {
      assert b + tail == b;
      SplitWhole(b, '=');
    } else {
      assert b + tail == b + ['='] + tail[1..];
      SplitFirst(b, tail[1..], '=');
    }
  }

  /** The first piece, and what is behind it. */
  lemma {:induction false} SplitHead(t: string)
    ensures var kv := Split(t, '=');
            && '=' !in kv[0]
            && (|kv| == 1 ==> t == kv[0])
            && (|kv| > 1 ==> exists rest :: t == kv[0] + "=" + rest && Split(rest, '=') == kv[1..])
  {
    var kv := Split(t, '=');
    if t != "" {
      if t[0] == '=' {
        assert t == "" + "=" + t[1..] && Split(t[1..], '=') == kv[1..];
      } else {
        SplitHead(t[1..]);
        var sub := Split(t[1..], '=');
        assert t == [t[0]] + t[1..];
        if |sub| > 1 {
          var rest :| t[1..] == sub[0] + "=" + rest && Split(rest, '=') == sub[1..];
          assert t == kv[0] + "=" + rest && Split(rest, '=') == kv[1..];
        }
      }
    }
  }

  lemma SplitSides(t: string)
    requires |Split(t, '=')| > 1 && Split(t, '=')[0] != "" && Split(t, '=')[1] != ""
    ensures exists tail :: Sides(t, Split(t, '=')[0], Split(t, '=')[1], tail)
  {
    hide Split;
    var kv := Split(t, '=');
    SplitHead(t);
    var rest :| t == kv[0] + "=" + rest && Split(rest, '=') == kv[1..];
    SplitHead(rest);
    if |kv| == 2 {
      assert Sides(t, kv[0], kv[1], "");
    } else {
      var more :| rest == kv[1] + "=" + more && Split(more, '=') == kv[1..][1..];
      assert t == kv[0] + "=" + kv[1] + ("=" + more);
      assert Sides(t, kv[0], kv[1], "=" + more);
    }
  }

  /** One pair of the label text is read exactly as it says. */
  lemma LabelRead(text: string, k: string, v: string)
    ensures var kv := Split(Trim(text), '=');
            Label(text, k, v) <==> |kv| > 1 && kv[0] != "" && kv[1] != "" && k == Trim(kv[0]) && v == Trim(kv[1])
  {
    hide Trim, Split, Sides;
    var t := Trim(text);
    var kv := Split(t, '=');
    if Label(text, k, v) {
      var a, b, tail :| Sides(t, a, b, tail) && k == Trim(a) && v == Trim(b);
      SidesSplit(t, a, b, tail);
      SidesFilled(t, a, b, tail);
    }
    if |kv| > 1 && kv[0] != "" && kv[1] != "" { SplitSides(t); }
  }

  lemma SidesFilled(t: string, a: string, b: string, tail: string)
    requires Sides(t, a, b, tail)
    ensures a != "" && b != ""
  {}

  /** The last pair from n on that gives the key. */
  ghost predicate LastLabel(pairs: seq<string>, k: string, v: string) {
    exists j :: 0 <= j < |pairs| && Label(pairs[j], k, v) && forall l, w :: j < l < |pairs| ==> !Label(pairs[l], k, w)
  }

  ghost predicate NoLabel(pairs: seq<string>, k: string) { forall l, w :: 0 <= l < |pairs| ==> !Label(pairs[l], k, w) }

  lemma {:induction false} SelectorWritten(pairs: seq<string>, found: map<string, string>, k: string, v: string)
    ensures var r := BuildSelector(pairs, found);
            k in r && r[k] == v <==> LastLabel(pairs, k, v) || (NoLabel(pairs, k) && k in found && found[k] == v)
    decreases |pairs|
  {
    hide Label, Split, Trim;
    if pairs != [] {
      var kv := Split(Trim(pairs[0]), '=');
      var next := if |kv| > 1 && kv[0] != "" && kv[1] != "" then found[Trim(kv[0]) := Trim(kv[1])] else found;
      SelectorWritten(pairs[1..], next, k, v);
      forall w ensures Label(pairs[0], k, w) <==> |kv| > 1 && kv[0] != "" && kv[1] != "" && k == Trim(kv[0]) && w == Trim(kv[1]) {
        LabelRead(pairs[0], k, w);
      }
      FirstLabel(pairs, k, v);
      if |kv| > 1 { LabelRead(pairs[0], k, Trim(kv[1])); }
      assert k in next && next[k] == v <==> Label(pairs[0], k, v) || ((forall w :: !Label(pairs[0], k, w)) && k in found && found[k] == v);
    }
  }

  lemma FirstLabel(pairs: seq<string>, k: string, v: string)
    requires pairs != []
    ensures LastLabel(pairs, k, v) <==> LastLabel(pairs[1..], k, v) || (Label(pairs[0], k, v) && NoLabel(pairs[1..], k))
    ensures NoLabel(pairs, k) <==> (forall w :: !Label(pairs[0], k, w)) && NoLabel(pairs[1..], k)
  {
    hide Label;
    var rest := pairs[1..];
    assert forall l :: 0 <= l < |rest| ==> rest[l] == pairs[l + 1];
    if LastLabel(pairs, k, v) {
      var j :| 0 <= j < |pairs| && Label(pairs[j], k, v) && forall l, w :: j < l < |pairs| ==> !Label(pairs[l], k, w);
      if j > 0 { assert Label(rest[j - 1], k, v); }
    }
    if LastLabel(rest, k, v) {
      var j :| 0 <= j < |rest| && Label(rest[j], k, v) && forall l, w :: j < l < |rest| ==> !Label(rest[l], k, w);
      forall l, w | j + 1 < l < |pairs| ensures !Label(pairs[l], k, w) { assert pairs[l] == rest[l - 1]; }
      assert Label(pairs[j + 1], k, v);
    }
    if Label(pairs[0], k, v) && NoLabel(rest, k) {
      forall l, w | 0 < l < |pairs| ensures !Label(pairs[l], k, w) { assert pairs[l] == rest[l - 1]; }
    }
    if (forall w :: !Label(pairs[0], k, w)) && NoLabel(rest, k) {
      forall l, w | 0 <= l < |pairs| ensures !Label(pairs[l], k, w) { if l > 0 { assert pairs[l] == rest[l - 1]; } }
    }
  }

  /** The worker labels of an export: each key with the value of the last pair that names it. */
  lemma LabelsComeOut(e: Editor, k: string, v: string)
    ensures var r := Export(e).selector; k in r && r[k] == v <==> LastLabel(Split(e.labels, ','), k, v)
  {
    hide AsDag, BuildTags, BuildSchedule, BuildHooks, BuildDagNodes, BuildDagEdges, BuildFirst, BuildTransforms, ExportName, LastLabel;
    hide BuildSelector, Split;
    SelectorWritten(Split(e.labels, ','), map[], k, v);
  }
}
