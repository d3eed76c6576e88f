/** The pipeline designer: canvas, settings, the spec it loads and the spec it builds. */
module Editor {
  import opened Prelude
  import opened Text
  import opened Json

  // ---------------------------------------------------------------- the canvas

  datatype Node = Node(id: string, kind: string, plugin: string, connection: string, config: Config,
                       caption: string, x: real, y: real)
  datatype Edge = Edge(id: string, source: string, target: string)
  datatype Schedule = Schedule(kind: string, details: map<string, Json>)
  datatype Hook = Hook(kind: string, code: string, name: string, enabled: bool)

  datatype Shards = Shards(logical: int, active: int, workers: int, sinks: int, strategy: string, key: string)
  datatype Tuning = Tuning(batch: int, flush: int, checkpoint: int, buffer: int)

  datatype Editor = Editor(nodes: seq<Node>, edges: seq<Edge>, selected: Option<string>, dagFormat: bool,
                           name: string, tags: string, labels: string, schedule: Schedule,
                           shards: Shards, tuning: Tuning, hooks: map<string, Hook>)

  // ---------------------------------------------------------------- the spec
  // A text that is absent is the empty text: the two are treated alike wherever a spec is read.

  datatype Part = Part(kind: string, connection: string, connectionRef: string, config: Config)
  datatype DagNode = DagNode(id: string, kind: string, plugin: string, connection: string, connectionRef: string,
                             config: Config, x: Option<real>, y: Option<real>)
  datatype DagEdge = DagEdge(id: string, from: string, to: string, source: string, target: string)
  datatype Dag = Dag(nodes: seq<DagNode>, edges: seq<DagEdge>)
  datatype Sharding = Sharding(strategy: string, key: string, logical: Option<int>)
  datatype Execution = Execution(active: Option<int>, workers: Option<int>, sinks: Option<int>)
  datatype Parallelism = Parallelism(sharding: Option<Sharding>, execution: Option<Execution>,
                                     total: Option<int>, count: Option<int>, strategy: string, key: string)
  datatype Runtime = Runtime(batch: Option<int>, flush: Option<int>, checkpoint: Option<int>, buffer: Option<int>)

  datatype Spec = Spec(name: string, tags: Option<seq<string>>, schedule: Option<Schedule>,
                       parallelism: Option<Parallelism>, execution: Option<Runtime>, top: Runtime,
                       dag: Option<Dag>, source: Option<Part>, transforms: seq<Part>, sink: Option<Part>,
                       selector: map<string, string>, hooks: seq<(string, Hook)>, retry: bool)

  const NO_RUNTIME := Runtime(None, None, None, None)

  // ---------------------------------------------------------------- reading values the way || does

  function OrText(a: string, b: string): string { if a != "" then a else b }

  function OrNumber(a: Option<int>, b: Option<int>): Option<int> {
    if a.Some? && a.value != 0 then a else b
  }

  function OrInt(a: Option<int>, b: int): int { if a.Some? && a.value != 0 then a.value else b }

  function OrReal(a: Option<real>, b: real): real { if a.Some? && a.value != 0.0 then a.value else b }

  /** ?? : only an absent value falls through. */
  function OrAbsent(a: Option<int>, b: Option<int>): Option<int> { if a.Some? then a else b }

  function Positive(a: Option<int>, otherwise: int): int { if a.Some? && a.value > 0 then a.value else otherwise }

  // ---------------------------------------------------------------- loading a spec

  function LoadShards(p: Option<Parallelism>): Shards {
    var par := if p.Some? then p.value else Parallelism(None, None, None, None, "", "");
    var sh := if par.sharding.Some? then par.sharding.value else Sharding("", "", None);
    var ex := if par.execution.Some? then par.execution.value else Execution(None, None, None);
    var logical := Max(1, OrInt(OrNumber(OrNumber(sh.logical, par.total), par.count), 1));
    var active := Max(1, OrInt(OrNumber(OrNumber(ex.active, par.count), Some(logical)), logical));
    Shards(logical, Min(active, logical), Max(1, OrInt(ex.workers, 1)), Max(0, OrInt(ex.sinks, 0)),
           OrText(OrText(sh.strategy, par.strategy), "round_robin"), OrText(sh.key, par.key))
  }

  function LoadTuning(spec: Spec): Tuning {
    var e := if spec.execution.Some? then spec.execution.value else NO_RUNTIME;
    Tuning(Positive(OrAbsent(e.batch, spec.top.batch), 1000), Positive(OrAbsent(e.flush, spec.top.flush), 1000),
           Positive(OrAbsent(e.checkpoint, spec.top.checkpoint), 30), Positive(OrAbsent(e.buffer, spec.top.buffer), 100))
  }

  function Numbered(kind: string, n: nat): string { kind + "-" + Decimal(n) }

  function LoadDagNode(n: DagNode, i: nat): Node {
    var id := OrText(n.id, Numbered(OrText(n.kind, "node"), i + 1));
    Node(id, OrText(n.kind, "transform"), OrText(OrText(n.plugin, n.kind), "identity"),
         OrText(n.connection, n.connectionRef), n.config, id,
         OrReal(n.x, 220.0 + i as real * 40.0), OrReal(n.y, 80.0 + i as real * 100.0))
  }

  function LoadDagNodes(ns: seq<DagNode>): seq<Node> {
    seq(|ns|, i requires 0 <= i < |ns| => LoadDagNode(ns[i], i))
  }

  function LoadDagEdge(e: DagEdge, i: nat): Edge {
    Edge(OrText(e.id, "e-" + Decimal(i)), OrText(e.from, e.source), OrText(e.to, e.target))
  }

  /** Edges i, i+1, ... of the spec; one without both ends is dropped. */
  function LoadDagEdges(es: seq<DagEdge>, i: nat): seq<Edge>
    requires i <= |es|
    decreases |es| - i
  {
    if i == |es| then []
    else
      var e := LoadDagEdge(es[i], i);
      (if e.source != "" && e.target != "" then [e] else []) + LoadDagEdges(es, i + 1)
  }

  function LoadPart(kind: string, id: string, p: Part, y: real): Node {
    Node(id, kind, p.kind, OrText(p.connection, p.connectionRef), p.config, id, 250.0, y)
  }

  function LoadTransforms(ts: seq<Part>): seq<Node> {
    seq(|ts|, i requires 0 <= i < |ts| =>
      LoadPart("transform", Numbered("transform", i + 1), ts[i], 150.0 + i as real * 100.0))
  }

  function LoadSource(spec: Spec): seq<Node> {
    if spec.source.Some? && spec.source.value.kind != "" then [LoadPart("source", "source-1", spec.source.value, 50.0)] else []
  }

  function LoadSink(spec: Spec): seq<Node> {
    if spec.sink.Some? && spec.sink.value.kind != ""
    then [LoadPart("sink", "sink-1", spec.sink.value, 150.0 + |spec.transforms| as real * 100.0)] else []
  }

  function LoadLinearNodes(spec: Spec): seq<Node> {
    LoadSource(spec) + LoadTransforms(spec.transforms) + LoadSink(spec)
  }

  /** One edge between every two neighbours. */
  function Chain(ns: seq<Node>): seq<Edge> {
    seq(Max(0, |ns| - 1), i requires 0 <= i < |ns| - 1 => Edge("e-" + Decimal(i), ns[i].id, ns[i + 1].id))
  }

  function FirstId(ns: seq<Node>): Option<string> {
    if ns != [] && ns[0].id != "" then Some(ns[0].id) else None
  }

  function LoadNodes(spec: Spec): seq<Node> {
    if spec.dag.Some? then LoadDagNodes(spec.dag.value.nodes) else LoadLinearNodes(spec)
  }

  function LoadEdges(spec: Spec): seq<Edge> {
    if spec.dag.Some? then LoadDagEdges(spec.dag.value.edges, 0) else Chain(LoadLinearNodes(spec))
  }

  function Load(e: Editor, spec: Spec): Editor {
    e.(name := OrText(spec.name, "my-pipeline"),
       tags := if spec.tags.Some? then Join(spec.tags.value) else "",
       schedule := if spec.schedule.Some? && spec.schedule.value.kind != "" then spec.schedule.value else e.schedule,
       shards := LoadShards(spec.parallelism),
       tuning := LoadTuning(spec),
       dagFormat := spec.dag.Some?,
       nodes := LoadNodes(spec),
       edges := LoadEdges(spec),
       selected := FirstId(LoadNodes(spec)))
  }

  // ---------------------------------------------------------------- building a spec

  const ADVANCED := ["fanout", "router", "tap", "rate_limiter", "enricher", "lookup"]

  function OfKind(ns: seq<Node>, kind: string): seq<Node> {
    if ns == [] then [] else (if ns[0].kind == kind then [ns[0]] else []) + OfKind(ns[1..], kind)
  }

  predicate HasAdvanced(ns: seq<Node>) { exists n :: n in ns && n.kind in ADVANCED }

  /** Whether the canvas needs the DAG form. */
  predicate AsDag(e: Editor) {
    e.dagFormat || HasAdvanced(e.nodes) || |OfKind(e.nodes, "source")| > 1 || |OfKind(e.nodes, "sink")| > 1
  }

  function BuildDagNode(n: Node): DagNode {
    DagNode(n.id, n.kind, OrText(n.plugin, n.kind), n.connection, "", n.config, Some(n.x), Some(n.y))
  }

  function BuildDagNodes(ns: seq<Node>): seq<DagNode> {
    seq(|ns|, i requires 0 <= i < |ns| => BuildDagNode(ns[i]))
  }

  function BuildDagEdges(es: seq<Edge>): seq<DagEdge> {
    seq(|es|, i requires 0 <= i < |es| => DagEdge(es[i].id, es[i].source, es[i].target, "", ""))
  }

  function BuildPart(n: Node, otherwise: string): Part {
    Part(OrText(n.plugin, otherwise), n.connection, "", n.config)
  }

  function BuildFirst(ns: seq<Node>, otherwise: string): Option<Part> {
    if ns == [] then None else Some(BuildPart(ns[0], otherwise))
  }

  function BuildTransforms(ns: seq<Node>): seq<Part> {
    seq(|ns|, i requires 0 <= i < |ns| => BuildPart(ns[i], ""))
  }

  function BuildParallelism(s: Shards): Option<Parallelism> {
    if s.logical <= 1 then None
    else Some(Parallelism(
      Some(Sharding(s.strategy, s.key, Some(s.logical))),
      Some(Execution(Some(Min(s.active, s.logical)),
                     if s.workers > 1 then Some(s.workers) else None,
                     if s.sinks > 0 then Some(s.sinks) else None)),
      None, None, "", ""))
  }

  function BuildRuntime(t: Tuning): Runtime { Runtime(Some(t.batch), Some(t.flush), Some(t.checkpoint), Some(t.buffer)) }

  function BuildTags(text: string): Option<seq<string>> { if Tags(text) == [] then None else Some(Tags(text)) }

  function BuildSchedule(s: Schedule): Option<Schedule> { if s.kind != "streaming" then Some(s) else None }

  /** Worker labels: pairs k=v between commas; a later pair replaces an earlier one. */
  function BuildSelector(pairs: seq<string>, found: map<string, string>): map<string, string> {
    if pairs == [] then found
    else
      var kv := Split(Trim(pairs[0]), '=');
      BuildSelector(pairs[1..], if |kv| > 1 && kv[0] != "" && kv[1] != "" then found[Trim(kv[0]) := Trim(kv[1])] else found)
  }

  const HOOKS := [("on_init", "OnInit"), ("on_pre_batch", "OnPreBatch"), ("on_post_batch", "OnPostBatch"),
                  ("on_error", "OnError"), ("on_checkpoint", "OnCheckpoint"), ("on_shutdown", "OnShutdown")]

  function BuildHooks(hooks: map<string, Hook>, keys: seq<(string, string)>): seq<(string, Hook)> {
    if keys == [] then []
    else
      var k := keys[0].1;
      (if k in hooks && hooks[k].enabled && (hooks[k].code != "" || hooks[k].name != "") then [(keys[0].0, hooks[k])] else [])
      + BuildHooks(hooks, keys[1..])
  }

  /** The settings every spec carries, in whichever form. */
  function BuildCommon(e: Editor): Spec {
    Spec(e.name, BuildTags(e.tags), BuildSchedule(e.schedule), None, None, NO_RUNTIME, None, None, [], None,
         BuildSelector(Split(e.labels, ','), map[]), BuildHooks(e.hooks, HOOKS), false)
  }

  function Build(e: Editor): Spec {
    if AsDag(e) then
      BuildCommon(e).(dag := Some(Dag(BuildDagNodes(e.nodes), BuildDagEdges(e.edges))),
                      execution := Some(BuildRuntime(e.tuning)), retry := true)
    else
      BuildCommon(e).(source := BuildFirst(OfKind(e.nodes, "source"), "file"),
                      transforms := BuildTransforms(OfKind(e.nodes, "transform")),
                      sink := BuildFirst(OfKind(e.nodes, "sink"), "file_sink"),
                      parallelism := BuildParallelism(e.shards),
                      top := BuildRuntime(e.tuning))
  }

  function ExportName(name: string): string { OrText(Trim(name), name) }

  function Export(e: Editor): Spec { Build(e).(name := ExportName(e.name)) }

  // ---------------------------------------------------------------- edits

  datatype Edit =
    | Add(kind: string, plugin: string)
    | Delete
    | Connect(id: string, source: string, target: string)
    | Select(id: string)
    | Deselect
    | SetPlugin(plugin: string)
    | SetConfig(config: Config)
    | SetLabel(caption: string)
    | SetConnection(connection: string, found: string)
    | SetLogical(n: int)
    | SetActive(n: int)
    | SuggestShards(partitions: int)

  function Ids(ns: seq<Node>): seq<string> { seq(|ns|, i requires 0 <= i < |ns| => ns[i].id) }

  /** The first free number from n on. */
  function FreeFrom(kind: string, used: seq<string>, n: nat): (m: nat)
    requires n <= |used| + 1
    ensures n <= m <= |used| + 1
    decreases |used| + 1 - n
  {
    if n <= |used| && Numbered(kind, n) in used then FreeFrom(kind, used, n + 1) else n
  }

  function NextId(kind: string, used: seq<string>): string { Numbered(kind, FreeFrom(kind, used, 1)) }

  function Lane(kind: string): real {
    if kind == "source" then 50.0 else if kind == "sink" then 500.0
    else if kind in ["transform", "fanout", "router", "tap"] then 200.0
    else if kind in ["rate_limiter", "enricher", "lookup"] then 350.0
    else 250.0
  }

  function NewNode(ns: seq<Node>, kind: string, plugin: string): Node {
    var id := NextId(kind, Ids(ns));
    Node(id, kind, plugin, "", map[], id, 200.0 + |ns| as real * 30.0, Lane(kind) + |OfKind(ns, kind)| as real * 90.0)
  }

  function Without(ns: seq<Node>, id: string): seq<Node> {
    if ns == [] then [] else (if ns[0].id != id then [ns[0]] else []) + Without(ns[1..], id)
  }

  function Detached(es: seq<Edge>, id: string): seq<Edge> {
    if es == [] then []
    else (if es[0].source != id && es[0].target != id then [es[0]] else []) + Detached(es[1..], id)
  }

  /** What an edit of the selected node makes of a node. */
  function Edited(n: Node, edit: Edit): Node {
    match edit
    case SetPlugin(p) => n.(plugin := p, connection := "", config := map[])
    case SetConfig(c) => n.(config := c)
    case SetLabel(l) => n.(caption := l)
    case SetConnection(c, found) =>
      n.(connection := c, plugin := OrText(found, n.plugin), config := if c != "" then map[] else n.config)
    case _ => n
  }

  function MapSelected(ns: seq<Node>, id: string, edit: Edit): seq<Node> {
    seq(|ns|, i requires 0 <= i < |ns| => if ns[i].id == id then Edited(ns[i], edit) else ns[i])
  }

  /** Where a connection's recommendation belongs in a node's configuration; "" when it does not. */
  function RecommendedPath(kind: string, field: string, value: Json): string {
    var prefix := kind + ".config.";
    if kind != "source" && kind != "sink" then ""
    else if value == Str("review") || value == Str("") then ""
    else if prefix <= field then field[|prefix|..]
    else if kind == "source" && '.' !in field && field != "batch_size" && field != "checkpoint_interval_sec" then field
    else ""
  }

  /** An empty id counts as no selection. */
  predicate Chosen(e: Editor) { e.selected.Some? && e.selected.value != "" }

  function Step(e: Editor, edit: Edit): Editor {
    match edit
    case Add(kind, plugin) =>
      var n := NewNode(e.nodes, kind, plugin);
      e.(dagFormat := e.dagFormat || kind in ADVANCED, nodes := e.nodes + [n], selected := Some(n.id))
    case Delete =>
      if !Chosen(e) then e
      else e.(nodes := Without(e.nodes, e.selected.value), edges := Detached(e.edges, e.selected.value), selected := None)
    case Connect(id, s, t) => e.(edges := e.edges + [Edge(id, s, t)])
    case Select(id) => e.(selected := Some(id))
    case Deselect => e.(selected := None)
    case SetLogical(n) =>
      var next := Max(1, if n != 0 then n else 1);
      e.(shards := e.shards.(logical := next, active := Min(Max(1, e.shards.active), next)))
    case SetActive(n) => e.(shards := e.shards.(active := Min(e.shards.logical, Max(1, if n != 0 then n else 1))))
    case SuggestShards(p) =>
      e.(shards := e.shards.(logical := p, active := Min(Max(1, e.shards.active), p), strategy := "partition"))
    case _ => if !Chosen(e) then e else e.(nodes := MapSelected(e.nodes, e.selected.value, edit))
  }

  /** What the canvas offers: connections and clicks between nodes that are there, a suggestion of at least one shard. */
  predicate Enabled(e: Editor, edit: Edit) {
    match edit
    case Connect(_, s, t) => s in Ids(e.nodes) && t in Ids(e.nodes)
    case Select(id) => id in Ids(e.nodes)
    case SuggestShards(p) => p > 0
    case _ => true
  }

  predicate IsRun(e: Editor, edits: seq<Edit>)
    decreases |edits|
  {
    edits != [] ==> Enabled(e, edits[0]) && IsRun(Step(e, edits[0]), edits[1..])
  }

  function After(e: Editor, edits: seq<Edit>): Editor
    decreases |edits|
  {
    if edits == [] then e else After(Step(e, edits[0]), edits[1..])
  }

  const BLANK := Editor([], [], None, false, "my-pipeline", "", "", Schedule("streaming", map[]),
                        Shards(1, 1, 1, 0, "round_robin", ""), Tuning(1000, 1000, 30, 100), map[])
}
