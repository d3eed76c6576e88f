/** From the canvas to delivery: what is drawn, exported, checked and executed. */
module DesignerToEngine {
  import opened Prelude
  import E = Editor
  import opened EditorRuns
  import opened EditorSimulation
  import opened EditorReload
  import G = DagGraph
  import L = DagExecutorLimits
  import R = DagRouting
  import U = DagExecutorGivingUp
  import X = DagExecutor

  /** How often the executor tries a write when a spec says nothing about it, and what the export writes. */
  const ATTEMPTS := 3

  /** The executor's settings from an exported DAG: the batch size written there, three attempts in the retry block, and
      one worker, since none are written; what readers and transforms do depends on the plugins drawn. */
  function Settings(spec: E.Spec, ahead: set<string>, marks: set<string>, misses: set<string>): X.Config {
    var batch := if spec.execution.Some? && spec.execution.value.batch.Some? then spec.execution.value.batch.value else 0;
    X.Config(map[], batch, false, ATTEMPTS, ahead, marks, misses)
  }

  /**
   * Whatever is drawn: with a source, one sink and no cycle, the exported graph passes the production check, writes are
   * tried, and over any records its checkpoints are safe exactly when nothing goes anywhere, or no reader that answers
   * with its own position has two records to deliver and no transform can drop a record for what it remembers, or no
   * longer does, with another of its source to follow; over the runs that give up a batch as well exactly when, besides,
   * the settings are not Exposed.
   */
  lemma DrawnPipelinesAreSafe(e: E.Editor, edits: seq<E.Edit>, order: seq<string>, records: map<string, seq<R.Journey>>,
                              ahead: set<string>, marks: set<string>, misses: set<string>)
    requires Sound(e) && Known(e.nodes) && E.IsRun(e, edits) && FromPalette(edits) && E.AsDag(E.After(e, edits))
    requires var g := Graph(E.Export(E.After(e, edits)).dag.value);
             && G.OfKind(g.nodes, "source") != [] && |G.OfKind(g.nodes, "sink")| == 1 && !G.HasCycle(g)
             && G.WellJoined(g) && G.IsTopological(g, order) && (forall s :: s in records ==> s in order)
    ensures var spec := E.Export(E.After(e, edits));
            var g := Graph(spec.dag.value);
            && G.ValidDag(g)
            && var cfg := R.Routing(g, order, records, Settings(spec, ahead, marks, misses));
               && (var batch := E.After(e, edits).tuning.batch; X.BatchSize(cfg) == if batch > 0 then batch else 1000)
               && (L.Keeps(cfg) <==> X.Idling(cfg) || (X.NotAhead(cfg) && X.Mindful(cfg)))
               && (U.AlwaysSafe(cfg) <==> L.Keeps(cfg) && !U.Exposed(cfg))
  {
    var spec := E.Export(E.After(e, edits));
    var g := Graph(spec.dag.value);
    assert G.ValidDag(g) by { DrawnGraphIsWellFormed(e, edits); }
    var settings := Settings(spec, ahead, marks, misses);
    var cfg := R.Routing(g, order, records, settings);
    assert cfg.attempts == ATTEMPTS > 0 && cfg.batchSize == settings.batchSize;
    ExportedBatch(E.After(e, edits), ahead, marks, misses);
    BatchFollows(cfg, settings);
    hide *;
    R.ProductionGraphsAreSafe(g, order, records, settings);
  }

  lemma BatchFollows(cfg: X.Config, settings: X.Config)
    requires cfg.batchSize == settings.batchSize
    ensures X.BatchSize(cfg) == X.BatchSize(settings)
  {}

  lemma ExportedBatch(e: E.Editor, ahead: set<string>, marks: set<string>, misses: set<string>)
    requires E.AsDag(e)
    ensures X.BatchSize(Settings(E.Export(e), ahead, marks, misses)) == if e.tuning.batch > 0 then e.tuning.batch else 1000
  {}

  /** A reloaded linear canvas, written in DAG form, is a chain the server accepts as soon as it has both ends. */
  lemma ReloadedChainIsValid(e: E.Editor, other: E.Editor)
    requires !E.AsDag(e)
    ensures var r := Reloaded(e, other);
            var g := Graph(E.Dag(E.BuildDagNodes(r.nodes), E.BuildDagEdges(r.edges)));
            G.ValidDag(g) <==> G.OfKind(g.nodes, "source") != [] && G.OfKind(g.nodes, "sink") != []
  {
    hide *;
    var r := Reloaded(e, other);
    var g := Graph(E.Dag(E.BuildDagNodes(r.nodes), E.BuildDagEdges(r.edges)));
    ReloadIsPath(e, other);
    PathIsAcyclic(r.nodes, r.edges);
    ReloadedSound(e, other);
    SoundGraph(r, g);
    ValidFromParts(g);
  }

  lemma ReloadedSound(e: E.Editor, other: E.Editor)
    requires !E.AsDag(e)
    ensures Sound(Reloaded(e, other)) && Known(Reloaded(e, other).nodes)
  {
    hide E.AsDag, Sound, Known, E.LoadLinearNodes;
    LoadSound(other, E.Export(e));
    LinearKnown(E.Export(e));
    ReloadedCanvas(e, other);
  }

  lemma SoundGraph(r: E.Editor, g: G.Dag)
    requires Sound(r) && Known(r.nodes) && g == Graph(E.Dag(E.BuildDagNodes(r.nodes), E.BuildDagEdges(r.edges)))
    ensures G.WellJoined(g) && forall k :: 0 <= k < |g.nodes| ==> G.NodeOk(g.nodes[k])
  {
    hide Graph, Known;
    NodesWellFormed(r, g);
    EdgesJoined(r, g);
  }

  lemma ValidFromParts(g: G.Dag)
    requires G.WellJoined(g) && !G.HasCycle(g) && forall k :: 0 <= k < |g.nodes| ==> G.NodeOk(g.nodes[k])
    ensures G.ValidDag(g) <==> G.OfKind(g.nodes, "source") != [] && G.OfKind(g.nodes, "sink") != []
  {}

  lemma LinearKnown(spec: E.Spec)
    ensures Known(E.LoadLinearNodes(spec))
  {
    var a, b, c := E.LoadSource(spec), E.LoadTransforms(spec.transforms), E.LoadSink(spec);
    assert Known(a) && Known(c);
    assert Known(b);
    hide Known, E.LoadSource, E.LoadTransforms, E.LoadSink;
    KnownConcat(a, b);
    KnownConcat(a + b, c);
  }

  lemma KnownConcat(a: seq<E.Node>, b: seq<E.Node>)
    requires Known(a) && Known(b)
    ensures Known(a + b)
  {}
}
