/** In linear form, editing the canvas is editing a pipeline: source, list of transforms, sink. */
module EditorSimulation {
  import opened Prelude
  import opened Text
  import opened Json
  import opened Editor
  import opened EditorReload
  import opened EditorRuns
  import G = DagGraph

  // ---------------------------------------------------------------- the pipeline

  /** A place in the pipeline: the lane of a kind and a position in it. */
  datatype Place = Place(kind: string, index: nat)

  datatype Pipeline = Pipeline(source: seq<Part>, transforms: seq<Part>, sink: seq<Part>, chosen: Option<Place>)

  datatype Change =
    | Append(kind: string, plugin: string)
    | Remove
    | Rework(edit: Edit)
    | Choose(place: Option<Place>)
    | Leave

  /** The plugin name written for a part that has none. */
  function Default(kind: string): string {
    if kind == "source" then "file" else if kind == "sink" then "file_sink" else ""
  }

  function Lane(p: Pipeline, kind: string): seq<Part> {
    if kind == "source" then p.source else if kind == "sink" then p.sink else p.transforms
  }

  function WithLane(p: Pipeline, kind: string, parts: seq<Part>): Pipeline {
    if kind == "source" then p.(source := parts) else if kind == "sink" then p.(sink := parts) else p.(transforms := parts)
  }

  predicate InLane(p: Pipeline, place: Place) { place.index < |Lane(p, place.kind)| }

  function RemoveAt<T>(s: seq<T>, k: nat): seq<T>
    requires k < |s|
  {
    s[..k] + s[k + 1..]
  }

  /** The effect of an edit on one part. */
  function Reworked(part: Part, edit: Edit, kind: string): Part {
    match edit
    case SetPlugin(p) => Part(OrText(p, Default(kind)), "", "", map[])
    case SetConfig(c) => part.(config := c)
    case SetConnection(c, found) =>
      part.(connection := c, kind := OrText(found, part.kind), config := if c != "" then map[] else part.config)
    case _ => part
  }

  function Changed(p: Pipeline, c: Change): Pipeline
    requires p.chosen.Some? ==> InLane(p, p.chosen.value)
  {
    match c
    case Append(kind, plugin) =>
      var lane := Lane(p, kind);
      WithLane(p, kind, lane + [Part(OrText(plugin, Default(kind)), "", "", map[])]).(chosen := Some(Place(kind, |lane|)))
    case Remove =>
      if p.chosen.None? then p
      else
        var at := p.chosen.value;
        WithLane(p, at.kind, RemoveAt(Lane(p, at.kind), at.index)).(chosen := None)
    case Rework(edit) =>
      if p.chosen.None? then p
      else
        var at := p.chosen.value;
        var lane := Lane(p, at.kind);
        WithLane(p, at.kind, lane[at.index := Reworked(lane[at.index], edit, at.kind)])
    case Choose(place) => p.(chosen := place)
    case Leave => p
  }

  // ---------------------------------------------------------------- what a canvas stands for

  const PLAIN := ["source", "transform", "sink"]

  predicate Plain(ns: seq<Node>) { forall i :: 0 <= i < |ns| ==> ns[i].id != "" && ns[i].kind in PLAIN }

  /** A canvas in linear form. */
  predicate Linear(e: Editor) { !AsDag(e) && Sound(e) && Plain(e.nodes) }

  function PartsOf(ns: seq<Node>, kind: string): seq<Part> {
    seq(|ns|, i requires 0 <= i < |ns| => BuildPart(ns[i], Default(kind)))
  }

  function LaneParts(ns: seq<Node>, kind: string): seq<Part> { PartsOf(OfKind(ns, kind), kind) }

  function PlaceOf(ns: seq<Node>, id: string): Option<Place> {
    if ns == [] then None
    else if ns[0].id == id then Some(Place(ns[0].kind, 0))
    else
      var p := PlaceOf(ns[1..], id);
      if p.Some? && p.value.kind == ns[0].kind then Some(Place(p.value.kind, p.value.index + 1)) else p
  }

  function Abstract(e: Editor): Pipeline {
    Pipeline(LaneParts(e.nodes, "source"), LaneParts(e.nodes, "transform"), LaneParts(e.nodes, "sink"),
             if Chosen(e) then PlaceOf(e.nodes, e.selected.value) else None)
  }

  /** What an edit means for the pipeline. */
  function Meaning(e: Editor, edit: Edit): Change {
    match edit
    case Add(kind, plugin) => Append(kind, plugin)
    case Delete => Remove
    case SetPlugin(_) => Rework(edit)
    case SetConfig(_) => Rework(edit)
    case SetConnection(_, _) => Rework(edit)
    case Select(id) => Choose(PlaceOf(e.nodes, id))
    case Deselect => Choose(None)
    case _ => Leave
  }

  /** The built spec holds the pipeline. */
  lemma BuildHoldsPipeline(e: Editor)
    requires !AsDag(e)
    ensures var s, p := Build(e), Abstract(e);
            && s.transforms == p.transforms
            && |p.source| <= 1 && s.source == (if p.source == [] then None else Some(p.source[0]))
            && |p.sink| <= 1 && s.sink == (if p.sink == [] then None else Some(p.sink[0]))
  {
    assert BuildTransforms(OfKind(e.nodes, "transform")) == LaneParts(e.nodes, "transform");
  }

  // ---------------------------------------------------------------- lanes under the edits

  lemma {:induction false} PlaceInLane(ns: seq<Node>, id: string)
    ensures id in Ids(ns) <==> PlaceOf(ns, id).Some?
    ensures PlaceOf(ns, id).Some? ==>
              var at := PlaceOf(ns, id).value;
              at.index < |OfKind(ns, at.kind)| && OfKind(ns, at.kind)[at.index].id == id
    ensures PlaceOf(ns, id).Some? && Plain(ns) ==> PlaceOf(ns, id).value.kind in PLAIN
  {
    if ns != [] {
      assert Ids(ns) == [ns[0].id] + Ids(ns[1..]);
      PlaceInLane(ns[1..], id);
    }
  }

  lemma {:induction false} PlaceOfNew(ns: seq<Node>, n: Node)
    requires n.id !in Ids(ns)
    ensures PlaceOf(ns + [n], n.id) == Some(Place(n.kind, |OfKind(ns, n.kind)|))
  {
    if ns == [] {
      assert ns + [n] == [n];
    } else {
      assert Ids(ns) == [ns[0].id] + Ids(ns[1..]);
      assert (ns + [n])[1..] == ns[1..] + [n];
      PlaceOfNew(ns[1..], n);
    }
  }

  /** The part of a place that lies in the given lane. */
  predicate At(place: Option<Place>, kind: string) { place.Some? && place.value.kind == kind }

  lemma {:induction false} WithoutAbsent(ns: seq<Node>, id: string)
    requires id !in Ids(ns)
    ensures Without(ns, id) == ns
  {
    if ns != [] {
      assert Ids(ns) == [ns[0].id] + Ids(ns[1..]);
      WithoutAbsent(ns[1..], id);
    }
  }

  lemma {:induction false} LaneWithout(ns: seq<Node>, id: string, kind: string)
    requires Distinct(Ids(ns))
    ensures var at := PlaceOf(ns, id);
            if At(at, kind) then at.value.index < |OfKind(ns, kind)|
                                 && OfKind(Without(ns, id), kind) == RemoveAt(OfKind(ns, kind), at.value.index)
            else OfKind(Without(ns, id), kind) == OfKind(ns, kind)
  {
    if ns != [] {
      var rest := ns[1..];
      assert Ids(ns) == [ns[0].id] + Ids(rest);
      DistinctTail(ns[0].id, Ids(rest));
      if ns[0].id == id {
        WithoutAbsent(rest, id);
        assert Without(ns, id) == rest;
      } else {
        LaneWithout(rest, id, kind);
        LaneWithoutStep(ns, id, kind);
      }
    }
  }

  lemma LaneWithoutStep(ns: seq<Node>, id: string, kind: string)
    requires ns != [] && ns[0].id != id
    requires var at := PlaceOf(ns[1..], id);
             if At(at, kind) then at.value.index < |OfKind(ns[1..], kind)|
                                  && OfKind(Without(ns[1..], id), kind) == RemoveAt(OfKind(ns[1..], kind), at.value.index)
             else OfKind(Without(ns[1..], id), kind) == OfKind(ns[1..], kind)
    ensures var at := PlaceOf(ns, id);
            if At(at, kind) then at.value.index < |OfKind(ns, kind)|
                                 && OfKind(Without(ns, id), kind) == RemoveAt(OfKind(ns, kind), at.value.index)
            else OfKind(Without(ns, id), kind) == OfKind(ns, kind)
  {
    hide OfKind;
    var left := Without(ns, id);
    assert left == [ns[0]] + Without(ns[1..], id);
    assert left[1..] == Without(ns[1..], id);
    OfKindHead(left, kind);
    OfKindHead(ns, kind);
    var head, at := if ns[0].kind == kind then [ns[0]] else [], PlaceOf(ns[1..], id);
    if At(at, kind) {
      RemoveAtShift(head, OfKind(ns[1..], kind), at.value.index);
      assert PlaceOf(ns, id) == Some(Place(kind, |head| + at.value.index));
    } else {
      assert !At(PlaceOf(ns, id), kind);
    }
  }

  lemma RemoveAtShift<T>(head: seq<T>, lane: seq<T>, k: nat)
    requires k < |lane|
    ensures RemoveAt(head + lane, |head| + k) == head + RemoveAt(lane, k)
  {}

  /** The lane after the edit: the entry at the place edited, every other entry as it was. */
  predicate MappedLane(lane: seq<Node>, mapped: seq<Node>, at: Option<Place>, kind: string, edit: Edit) {
    if At(at, kind) then at.value.index < |lane| && mapped == lane[at.value.index := Edited(lane[at.value.index], edit)]
    else mapped == lane
  }

  lemma {:induction false} LaneMapped(ns: seq<Node>, id: string, edit: Edit, kind: string)
    requires Distinct(Ids(ns))
    ensures MappedLane(OfKind(ns, kind), OfKind(MapSelected(ns, id, edit), kind), PlaceOf(ns, id), kind, edit)
  {
    if ns != [] {
      var rest := ns[1..];
      assert Ids(ns) == [ns[0].id] + Ids(rest);
      DistinctTail(ns[0].id, Ids(rest));
      if ns[0].id == id { MapAbsent(rest, id, edit); } else { LaneMapped(rest, id, edit, kind); }
      LaneMappedStep(ns, id, edit, kind);
    }
  }

  lemma LaneMappedStep(ns: seq<Node>, id: string, edit: Edit, kind: string)
    requires ns != []
    requires if ns[0].id == id then MapSelected(ns[1..], id, edit) == ns[1..]
             else MappedLane(OfKind(ns[1..], kind), OfKind(MapSelected(ns[1..], id, edit), kind), PlaceOf(ns[1..], id), kind, edit)
    ensures MappedLane(OfKind(ns, kind), OfKind(MapSelected(ns, id, edit), kind), PlaceOf(ns, id), kind, edit)
  {
    hide OfKind, Edited;
    var mapped, at := MapSelected(ns, id, edit), PlaceOf(ns[1..], id);
    MapTail(ns, id, edit);
    KindKept(ns[0], edit);
    OfKindHead(ns, kind);
    OfKindHead(mapped, kind);
    var head := if ns[0].kind == kind then [ns[0]] else [];
    if ns[0].id == id {
      assert PlaceOf(ns, id) == Some(Place(ns[0].kind, 0));
    } else if At(at, kind) {
      assert PlaceOf(ns, id) == Some(Place(kind, |head| + at.value.index));
      UpdateShift(head, OfKind(ns[1..], kind), at.value.index, Edited(OfKind(ns[1..], kind)[at.value.index], edit));
    }
  }

  lemma KindKept(n: Node, edit: Edit)
    ensures Edited(n, edit).kind == n.kind && Edited(n, edit).id == n.id
  {}

  lemma UpdateShift<T>(head: seq<T>, lane: seq<T>, k: nat, x: T)
    requires k < |lane|
    ensures (head + lane)[|head| + k := x] == head + lane[k := x]
  {}

  lemma MapTail(ns: seq<Node>, id: string, edit: Edit)
    requires ns != []
    ensures MapSelected(ns, id, edit)[1..] == MapSelected(ns[1..], id, edit)
  {
    var mapped, tail := MapSelected(ns, id, edit)[1..], MapSelected(ns[1..], id, edit);
    forall i | 0 <= i < |tail| ensures mapped[i] == tail[i] { assert ns[1..][i] == ns[i + 1]; }
  }

  lemma MapAbsent(ns: seq<Node>, id: string, edit: Edit)
    requires id !in Ids(ns)
    ensures MapSelected(ns, id, edit) == ns
  {
    forall i | 0 <= i < |ns| ensures ns[i].id != id { assert Ids(ns)[i] == ns[i].id; }
  }

  lemma {:induction false} PlaceMapped(ns: seq<Node>, id: string, edit: Edit, x: string)
    ensures PlaceOf(MapSelected(ns, id, edit), x) == PlaceOf(ns, x)
  {
    if ns != [] {
      MapTail(ns, id, edit);
      PlaceMapped(ns[1..], id, edit, x);
    }
  }

  lemma PartReworked(n: Node, edit: Edit, kind: string)
    ensures BuildPart(Edited(n, edit), Default(kind)) == Reworked(BuildPart(n, Default(kind)), edit, kind)
  {}

  // ---------------------------------------------------------------- one edit

  lemma AbstractInLane(e: Editor)
    requires Plain(e.nodes)
    ensures var p := Abstract(e);
            p.chosen.Some? ==> InLane(p, p.chosen.value) && p.chosen.value.kind in PLAIN
    ensures Sound(e) && Chosen(e) ==> Abstract(e).chosen.Some?
  {
    hide OfKind, PlaceOf;
    if Chosen(e) { PlaceInLane(e.nodes, e.selected.value); }
  }

  lemma AddSimulates(e: Editor, kind: string, plugin: string)
    requires Sound(e) && kind in PLAIN
    ensures Abstract(Step(e, Add(kind, plugin))) == Changed(Abstract(e).(chosen := None), Append(kind, plugin))
  {
    hide OfKind, PlaceOf, FreeFrom;
    var n := NewNode(e.nodes, kind, plugin);
    FreeFromIsFree(kind, Ids(e.nodes), 1);
    PlaceOfNew(e.nodes, n);
    AddedLane(e.nodes, n, "source");
    AddedLane(e.nodes, n, "transform");
    AddedLane(e.nodes, n, "sink");
  }

  lemma AddedLane(ns: seq<Node>, n: Node, kind: string)
    ensures LaneParts(ns + [n], kind) ==
            LaneParts(ns, kind) + (if n.kind == kind then [BuildPart(n, Default(kind))] else [])
  {
    OfKindConcat(ns, [n], kind);
    assert OfKind([n], kind) == if n.kind == kind then [n] else [];
  }

  lemma LanePartsWithout(ns: seq<Node>, id: string, kind: string)
    requires Distinct(Ids(ns))
    ensures var at := PlaceOf(ns, id);
            if At(at, kind) then at.value.index < |LaneParts(ns, kind)|
                                 && LaneParts(Without(ns, id), kind) == RemoveAt(LaneParts(ns, kind), at.value.index)
            else LaneParts(Without(ns, id), kind) == LaneParts(ns, kind)
  {
    hide OfKind, PlaceOf;
    LaneWithout(ns, id, kind);
  }

  lemma LanePartsMapped(ns: seq<Node>, id: string, edit: Edit, kind: string)
    requires Distinct(Ids(ns))
    ensures var at := PlaceOf(ns, id);
            var lane, mapped := LaneParts(ns, kind), LaneParts(MapSelected(ns, id, edit), kind);
            if At(at, kind) then at.value.index < |lane| && mapped == lane[at.value.index := Reworked(lane[at.value.index], edit, kind)]
            else mapped == lane
  {
    hide OfKind, PlaceOf, MapSelected, Edited, Reworked;
    LaneMapped(ns, id, edit, kind);
    var at := PlaceOf(ns, id);
    if At(at, kind) { PartReworked(OfKind(ns, kind)[at.value.index], edit, kind); }
  }

  lemma DeleteSimulates(e: Editor)
    requires Sound(e) && Plain(e.nodes)
    requires var p := Abstract(e); p.chosen.Some? ==> InLane(p, p.chosen.value) && p.chosen.value.kind in PLAIN
    ensures Abstract(Step(e, Delete)) == Changed(Abstract(e), Remove)
  {
    if Chosen(e) {
      hide LaneParts, PlaceOf;
      var id := e.selected.value;
      PlaceInLane(e.nodes, id);
      LanePartsWithout(e.nodes, id, "source");
      LanePartsWithout(e.nodes, id, "transform");
      LanePartsWithout(e.nodes, id, "sink");
    }
  }

  predicate IsRework(edit: Edit) { edit.SetPlugin? || edit.SetConfig? || edit.SetConnection? || edit.SetLabel? }

  lemma ReworkSimulates(e: Editor, edit: Edit)
    requires Sound(e) && Plain(e.nodes) && IsRework(edit)
    requires var p := Abstract(e); p.chosen.Some? ==> InLane(p, p.chosen.value) && p.chosen.value.kind in PLAIN
    ensures Abstract(Step(e, edit)) == Changed(Abstract(e), Rework(edit))
  {
    if Chosen(e) {
      hide LaneParts, PlaceOf, MapSelected, Reworked;
      var id := e.selected.value;
      PlaceInLane(e.nodes, id);
      PlaceMapped(e.nodes, id, edit, id);
      LanePartsMapped(e.nodes, id, edit, "source");
      LanePartsMapped(e.nodes, id, edit, "transform");
      LanePartsMapped(e.nodes, id, edit, "sink");
    }
  }

  /** A run that never leaves linear form and draws only from the palette. */
  predicate StaysLinear(e: Editor, edits: seq<Edit>)
    decreases |edits|
  {
    !AsDag(e) && (edits != [] ==> StaysLinear(Step(e, edits[0]), edits[1..]))
  }

  lemma PaletteIsPlain(e: Editor, edit: Edit)
    requires edit.Add? && edit.kind in G.KINDS && !AsDag(Step(e, edit))
    ensures edit.kind in PLAIN
  {
    assert edit.kind !in ADVANCED;
  }

  lemma {:induction false} WithoutPlain(ns: seq<Node>, id: string)
    requires Plain(ns)
    ensures Plain(Without(ns, id))
  {
    if ns != [] { WithoutPlain(ns[1..], id); }
  }

  lemma StepKeepsPlain(e: Editor, edit: Edit)
    requires Plain(e.nodes) && (edit.Add? ==> edit.kind in PLAIN)
    ensures Plain(Step(e, edit).nodes)
  {
    hide PLAIN;
    if edit.Delete? && Chosen(e) { WithoutPlain(e.nodes, e.selected.value); }
  }

  lemma AppendForgetsChoice(p: Pipeline, kind: string, plugin: string)
    requires p.chosen.Some? ==> InLane(p, p.chosen.value)
    ensures Changed(p, Append(kind, plugin)) == Changed(p.(chosen := None), Append(kind, plugin))
  {}

  /** The spec apart from its pipeline. */
  function Rest(s: Spec): Spec { s.(source := None, transforms := [], sink := None) }

  predicate IsShardEdit(edit: Edit) { edit.SetLogical? || edit.SetActive? || edit.SuggestShards? }

  /** One edit on the canvas does to the pipeline what it means, and nothing else in the spec moves. */
  lemma StepSimulates(e: Editor, edit: Edit)
    requires Linear(e) && Enabled(e, edit) && !AsDag(Step(e, edit)) && (edit.Add? ==> edit.kind in G.KINDS)
    ensures Linear(Step(e, edit))
    ensures Abstract(e).chosen.Some? ==> InLane(Abstract(e), Abstract(e).chosen.value)
    ensures Abstract(Step(e, edit)) == Changed(Abstract(e), Meaning(e, edit))
    ensures IsShardEdit(edit) ==> Rest(Build(Step(e, edit))) == Rest(Build(e)).(parallelism := BuildParallelism(Step(e, edit).shards))
    ensures !IsShardEdit(edit) ==> Rest(Build(Step(e, edit))) == Rest(Build(e))
  {
    if edit.Add? { PaletteIsPlain(e, edit); }
    StepKeepsPlain(e, edit);
    StepKeepsSound(e, edit);
    RestKept(e, edit);
    AbstractInLane(e);
    ChoiceSimulates(e, edit);
  }

  lemma RestKept(e: Editor, edit: Edit)
    requires !AsDag(e) && !AsDag(Step(e, edit))
    ensures IsShardEdit(edit) ==> Rest(Build(Step(e, edit))) == Rest(Build(e)).(parallelism := BuildParallelism(Step(e, edit).shards))
    ensures !IsShardEdit(edit) ==> Rest(Build(Step(e, edit))) == Rest(Build(e))
  {
    hide AsDag, BuildSelector, BuildHooks, BuildSchedule, BuildTags, BuildParallelism, BuildRuntime, OfKind;
  }

  lemma ChoiceSimulates(e: Editor, edit: Edit)
    requires Sound(e) && Plain(e.nodes) && Enabled(e, edit) && (edit.Add? ==> edit.kind in PLAIN)
    requires var p := Abstract(e); p.chosen.Some? ==> InLane(p, p.chosen.value) && p.chosen.value.kind in PLAIN
    ensures Abstract(Step(e, edit)) == Changed(Abstract(e), Meaning(e, edit))
  {
    if edit.Add? {
      AddSimulates(e, edit.kind, edit.plugin);
      hide *;
      AppendForgetsChoice(Abstract(e), edit.kind, edit.plugin);
    } else if edit.Delete? {
      DeleteSimulates(e);
    } else if IsRework(edit) {
      ReworkSimulates(e, edit);
    } else if edit.Select? {
      assert Ids(e.nodes)[..] == Ids(e.nodes);
    }
  }

  function Meanings(e: Editor, edits: seq<Edit>): seq<Change>
    decreases |edits|
  {
    if edits == [] then [] else [Meaning(e, edits[0])] + Meanings(Step(e, edits[0]), edits[1..])
  }

  /** Pipelines a sequence of changes can lead to; a choice always lies in its lane. */
  predicate Leads(p: Pipeline, changes: seq<Change>, q: Pipeline)
    decreases |changes|
  {
    if changes == [] then p == q
    else (p.chosen.Some? ==> InLane(p, p.chosen.value)) && Leads(Changed(p, changes[0]), changes[1..], q)
  }

  /** Over every run in linear form the canvas and the pipeline move together. */
  lemma {:induction false} RunSimulates(e: Editor, edits: seq<Edit>)
    requires Linear(e) && IsRun(e, edits) && StaysLinear(e, edits) && FromPalette(edits)
    ensures Linear(After(e, edits))
    ensures Leads(Abstract(e), Meanings(e, edits), Abstract(After(e, edits)))
    decreases |edits|
  {
    hide Linear, Abstract, Meaning, Changed, Step, Enabled, AsDag, Rest, IsShardEdit;
    if edits != [] {
      var next := Step(e, edits[0]);
      assert StaysLinear(next, edits[1..]) && !AsDag(next);
      StepSimulates(e, edits[0]);
      assert FromPalette(edits[1..]);
      RunSimulates(next, edits[1..]);
      assert Meanings(e, edits)[1..] == Meanings(next, edits[1..]);
    }
  }

  // ---------------------------------------------------------------- saving and reloading

  /** Nodes joined one after the other, and by nothing else. */
  predicate IsPath(ns: seq<Node>, es: seq<Edge>) {
    |es| == Max(0, |ns| - 1) && forall i :: 0 <= i < |es| ==> Joins(es[i], ns, i)
  }

  predicate Joins(edge: Edge, ns: seq<Node>, i: nat) {
    i + 1 < |ns| && edge.source == ns[i].id && edge.target == ns[i + 1].id
  }

  lemma LinearLoadIsPath(spec: Spec)
    ensures var ns := LoadLinearNodes(spec);
            && IsPath(ns, Chain(ns)) && Distinct(Ids(ns))
            && ns == OfKind(ns, "source") + OfKind(ns, "transform") + OfKind(ns, "sink")
  {
    ChainIsPath(LoadLinearNodes(spec));
    hide OfKind, LoadSource, LoadTransforms, LoadSink, Chain, IsPath, Ids;
    LinearLanes(spec);
    LinearIdsDistinct(spec);
  }

  lemma ChainIsPath(ns: seq<Node>)
    ensures IsPath(ns, Chain(ns))
  {}

  lemma ReloadedCanvas(e: Editor, other: Editor)
    requires !AsDag(e)
    ensures var r, ns := Reloaded(e, other), LoadLinearNodes(Export(e));
            r.nodes == ns && r.edges == Chain(ns)
  {
    hide AsDag, LoadLinearNodes, Chain;
  }

  /** The lanes of a pipeline can be read off the spec that holds it. */
  lemma SamePartsSameLanes(a: Editor, b: Editor)
    requires !AsDag(a) && !AsDag(b)
    requires Build(a).source == Build(b).source && Build(a).transforms == Build(b).transforms && Build(a).sink == Build(b).sink
    ensures Abstract(a).(chosen := None) == Abstract(b).(chosen := None)
  {
    BuildHoldsPipeline(a);
    BuildHoldsPipeline(b);
    hide AsDag, Build, Abstract;
    SingletonLane(Abstract(a).source, Abstract(b).source);
    SingletonLane(Abstract(a).sink, Abstract(b).sink);
  }

  lemma SingletonLane(a: seq<Part>, b: seq<Part>)
    requires |a| <= 1 && |b| <= 1
    ensures (a == [] <==> b == []) && (a != [] && b != [] ==> a[0] == b[0]) ==> a == b
  {}

  lemma ExportBuilds(e: Editor)
    ensures var s, b := Export(e), Build(e); s.source == b.source && s.transforms == b.transforms && s.sink == b.sink
  {}

  /** A saved linear canvas comes back as one path: source, the transforms in order, sink, each part unchanged. */
  lemma ReloadIsPath(e: Editor, other: Editor)
    requires !AsDag(e)
    ensures var r := Reloaded(e, other);
            && IsPath(r.nodes, r.edges) && Distinct(Ids(r.nodes)) && !AsDag(r)
            && r.nodes == OfKind(r.nodes, "source") + OfKind(r.nodes, "transform") + OfKind(r.nodes, "sink")
            && Abstract(r).(chosen := None) == Abstract(e).(chosen := None)
  {
    hide *;
    FormKept(e, other);
    ReloadedCanvas(e, other);
    LinearLoadIsPath(Export(e));
    LinearKept(e, other);
    ExportBuilds(e);
    ExportBuilds(Reloaded(e, other));
    SamePartsSameLanes(Reloaded(e, other), e);
  }

  /** Such a path has its own order as topological order, so the server finds no cycle in it. */
  lemma PathIsAcyclic(ns: seq<Node>, es: seq<Edge>)
    requires IsPath(ns, es) && Distinct(Ids(ns))
    ensures var g := Graph(Dag(BuildDagNodes(ns), BuildDagEdges(es)));
            G.IsTopological(g, Ids(ns)) && !G.HasCycle(g)
  {
    var g := Graph(Dag(BuildDagNodes(ns), BuildDagEdges(es)));
    var order := Ids(ns);
    assert G.Ids(g) == order;
    forall e | e in g.edges ensures PathEdge(order, e) {
      var i :| 0 <= i < |g.edges| && g.edges[i] == e;
      assert Joins(es[i], ns, i);
      assert e == G.Edge(order[i], order[i + 1]);
      assert Follows(order, i, e);
    }
    forall a, b | 0 <= a < |order| && 0 <= b < |order| && G.Edge(order[a], order[b]) in g.edges ensures a < b {
      assert PathEdge(order, G.Edge(order[a], order[b]));
      var i :| 0 <= i < |order| - 1 && Follows(order, i, G.Edge(order[a], order[b]));
      assert order[a] == order[i] && order[b] == order[i + 1];
    }
    G.TopologicalMeansAcyclic(g, order);
  }

  predicate Follows(order: seq<string>, i: int, e: G.Edge) {
    0 <= i < |order| - 1 && e.from == order[i] && e.to == order[i + 1]
  }

  ghost predicate PathEdge(order: seq<string>, e: G.Edge) {
    exists i :: 0 <= i < |order| - 1 && Follows(order, i, e)
  }
}
