/** The designer as it runs: state fields updated action by action. */
module EditorObject {
  import opened Prelude
  import opened Text
  import opened Json
  import opened Editor
  import opened EditorRuns

  class Designer {
    var nodes: seq<Node>
    var edges: seq<Edge>
    var selected: Option<string>
    var dagFormat: bool
    var name: string
    var tags: string
    var labels: string
    var schedule: Schedule
    var shards: Shards
    var tuning: Tuning
    var hooks: map<string, Hook>

    function View(): Editor
      reads this
    {
      Editor(nodes, edges, selected, dagFormat, name, tags, labels, schedule, shards, tuning, hooks)
    }

    constructor ()
      ensures View() == BLANK && Sound(View()) && ShardBounds(View())
    {
      nodes, edges, selected, dagFormat := [], [], None, false;
      name, tags, labels, schedule := "my-pipeline", "", "", Schedule("streaming", map[]);
      shards, tuning, hooks := Shards(1, 1, 1, 0, "round_robin", ""), Tuning(1000, 1000, 30, 100), map[];
    }

    method LoadSpecIntoCanvas(spec: Spec)
      modifies this
      ensures View() == Load(old(View()), spec)
      ensures ShardBounds(View())
      ensures spec.dag.None? ==> Sound(View())
    {
      hide LoadShards, LoadTuning, LoadLinearNodes, LoadDagNodes, LoadDagEdges, Chain, Sound, ShardBounds, FirstId, Join;
      LoadSound(View(), spec);
      LoadBounds(View(), spec);
      name := OrText(spec.name, "my-pipeline");
      tags := if spec.tags.Some? then Join(spec.tags.value) else "";
      if spec.schedule.Some? && spec.schedule.value.kind != "" { schedule := spec.schedule.value; }
      shards := LoadShards(spec.parallelism);
      tuning := LoadTuning(spec);
      if spec.dag.Some? {
        dagFormat := true;
        nodes := LoadDagNodes(spec.dag.value.nodes);
        edges := LoadDagEdges(spec.dag.value.edges, 0);
        selected := FirstId(nodes);
        return;
      }
      dagFormat := false;
      var nextNodes := LinearNodes(spec);
      var nextEdges := LinearEdges(nextNodes);
      nodes, edges, selected := nextNodes, nextEdges, FirstId(nextNodes);
    }

    method AddNode(kind: string, plugin: string)
      requires Sound(View())
      modifies this
      ensures View() == Step(old(View()), Add(kind, plugin)) && Sound(View())
    {
      AddKeeps(View(), kind, plugin);
      if kind in ADVANCED { dagFormat := true; }
      var id, _ := NextNodeId(kind, Ids(nodes));
      var n := Node(id, kind, plugin, "", map[], id, 200.0 + |nodes| as real * 30.0,
                    Lane(kind) + |OfKind(nodes, kind)| as real * 90.0);
      nodes := nodes + [n];
      selected := Some(id);
    }

    method DeleteSelected()
      requires Sound(View())
      modifies this`nodes, this`edges, this`selected
      ensures View() == Step(old(View()), Delete) && Sound(View())
    {
      DeleteKeeps(View());
      if selected.None? || selected.value == "" { return; }
      nodes := Without(nodes, selected.value);
      edges := Detached(edges, selected.value);
      selected := None;
    }

    method OnConnect(id: string, source: string, target: string)
      requires Sound(View()) && source in Ids(nodes) && target in Ids(nodes)
      modifies this`edges
      ensures View() == Step(old(View()), Connect(id, source, target)) && Sound(View())
    {
      edges := edges + [Edge(id, source, target)];
    }

    method UpdateNode(edit: Edit)
      requires Sound(View()) && (edit.SetPlugin? || edit.SetConfig? || edit.SetLabel? || edit.SetConnection?)
      modifies this`nodes
      ensures View() == Step(old(View()), edit) && Sound(View())
    {
      StepKeepsSound(View(), edit);
      if selected.None? || selected.value == "" { return; }
      nodes := MapSelected(nodes, selected.value, edit);
    }

    /** A recommendation writes one dotted path of the selected node's configuration. */
    method ApplyRecommendation(field: string, value: Json)
      requires Sound(View())
      modifies this`nodes
      ensures Sound(View())
      ensures forall k :: 0 <= k < |old(nodes)| && Chosen(old(View())) && old(nodes)[k].id == old(selected).value ==>
                var n := old(nodes)[k];
                var path := RecommendedPath(n.kind, field, value);
                View() == if path == "" then old(View()) else Step(old(View()), SetConfig(SetAt(n.config, Parts(path), value)))
      ensures !Chosen(old(View())) ==> View() == old(View())
    {
      if selected.None? || selected.value == "" { return; }
      var i := 0;
      while i < |nodes| && nodes[i].id != selected.value
        invariant 0 <= i <= |nodes|
        invariant forall k :: 0 <= k < i ==> nodes[k].id != selected.value
      {
        i := i + 1;
      }
      if i == |nodes| { return; }
      UniqueId(nodes, i);
      var path := RecommendedPath(nodes[i].kind, field, value);
      if path == "" { return; }
      UpdateNode(SetConfig(SetAt(nodes[i].config, Parts(path), value)));
    }

    method SetLogicalShards(n: int)
      requires ShardBounds(View())
      modifies this`shards
      ensures View() == Step(old(View()), SetLogical(n)) && ShardBounds(View())
    {
      var next := Max(1, if n != 0 then n else 1);
      shards := shards.(logical := next);
      shards := shards.(active := Min(Max(1, shards.active), next));
    }

    method SetActiveShards(n: int)
      requires ShardBounds(View())
      modifies this`shards
      ensures View() == Step(old(View()), SetActive(n)) && ShardBounds(View())
    {
      shards := shards.(active := Min(shards.logical, Max(1, if n != 0 then n else 1)));
    }
  }

  lemma UniqueId(ns: seq<Node>, i: nat)
    requires Distinct(Ids(ns)) && i < |ns|
    ensures forall k :: 0 <= k < |ns| && ns[k].id == ns[i].id ==> k == i
  {
    forall k | 0 <= k < |ns| && ns[k].id == ns[i].id ensures k == i {
      assert Ids(ns)[k] == Ids(ns)[i];
    }
  }

  /** Source, transforms and sink pushed one after the other. */
  method LinearNodes(spec: Spec) returns (ns: seq<Node>)
    ensures ns == LoadLinearNodes(spec)
  {
    ns := [];
    if spec.source.Some? && spec.source.value.kind != "" {
      ns := ns + [LoadPart("source", "source-1", spec.source.value, 50.0)];
    }
    var i := 0;
    while i < |spec.transforms|
      invariant 0 <= i <= |spec.transforms|
      invariant ns == LoadSource(spec) + LoadTransforms(spec.transforms)[..i]
    {
      ns := ns + [LoadPart("transform", Numbered("transform", i + 1), spec.transforms[i], 150.0 + i as real * 100.0)];
      i := i + 1;
    }
    if spec.sink.Some? && spec.sink.value.kind != "" {
      ns := ns + [LoadPart("sink", "sink-1", spec.sink.value, 150.0 + |spec.transforms| as real * 100.0)];
    }
  }

  /** An edge from every node to the next. */
  method LinearEdges(ns: seq<Node>) returns (es: seq<Edge>)
    ensures es == Chain(ns)
  {
    es := [];
    var i := 0;
    while i < |ns| - 1
      invariant 0 <= i <= Max(0, |ns| - 1)
      invariant es == Chain(ns)[..i]
    {
      es := es + [Edge("e-" + Decimal(i), ns[i].id, ns[i + 1].id)];
      i := i + 1;
    }
  }
}
