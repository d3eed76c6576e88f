/**
 The pipeline graph and its checks (internal/etl/orchestrator/dag.go).
 */
module DagGraph {
  import opened Prelude

  type Id = string

  datatype Node = Node(id: Id, kind: string, plugin: string)
  datatype Edge = Edge(from: Id, to: Id)
  datatype Dag = Dag(nodes: seq<Node>, edges: seq<Edge>)

  const KINDS := {"source", "transform", "sink", "fanout", "router", "tap", "rate_limiter", "enricher", "lookup"}

  function Ids(d: Dag): seq<Id> { seq(|d.nodes|, k requires 0 <= k < |d.nodes| => d.nodes[k].id) }

  /** Ids are unique and every edge joins two of them: what Validate has checked before it looks for cycles. */
  predicate WellJoined(d: Dag) {
    && Distinct(Ids(d))
    && forall e :: e in d.edges ==> e.from in Ids(d) && e.to in Ids(d)
  }

  // ---------------------------------------------------------------- walks

  predicate Linked(edges: seq<Edge>, p: seq<Id>, k: int)
    requires 0 <= k < |p| - 1
  {
    Edge(p[k], p[k + 1]) in edges
  }

  predicate IsWalk(edges: seq<Edge>, p: seq<Id>) {
    forall k :: 0 <= k < |p| - 1 ==> Linked(edges, p, k)
  }

  predicate IsCycle(d: Dag, p: seq<Id>) { |p| >= 2 && p[0] == p[|p| - 1] && IsWalk(d.edges, p) }

  ghost predicate HasCycle(d: Dag) { exists p :: IsCycle(d, p) }

  /** Each node once, and every edge from an earlier to a later place. */
  ghost predicate IsTopological(d: Dag, order: seq<Id>) {
    && Distinct(order)
    && (forall v :: v in order <==> v in Ids(d))
    && forall a, b :: 0 <= a < |order| && 0 <= b < |order| && Edge(order[a], order[b]) in d.edges ==> a < b
  }

  /** A walk moves strictly forward in a topological order. */
  lemma {:induction false} WalkMovesForward(d: Dag, order: seq<Id>, p: seq<Id>) returns (first: nat, last: nat)
    requires WellJoined(d) && IsTopological(d, order) && |p| >= 2 && IsWalk(d.edges, p)
    ensures first < last < |order| && order[first] == p[0] && order[last] == p[|p| - 1]
  {
    assert Linked(d.edges, p, 0);
    assert Edge(p[0], p[1]) in d.edges;
    first :| 0 <= first < |order| && order[first] == p[0];
    if |p| == 2 {
      last :| 0 <= last < |order| && order[last] == p[1];
    } else {
      var tail := p[1..];
      forall k | 0 <= k < |tail| - 1 ensures Linked(d.edges, tail, k) { assert Linked(d.edges, p, k + 1); }
      var next;
      next, last := WalkMovesForward(d, order, tail);
    }
  }

  lemma TopologicalMeansAcyclic(d: Dag, order: seq<Id>)
    requires WellJoined(d) && IsTopological(d, order)
    ensures !HasCycle(d)
  {
    if HasCycle(d) {
      var p :| IsCycle(d, p);
      var first, last := WalkMovesForward(d, order, p);
      assert false;
    }
  }

  ghost predicate HasPredecessor(edges: seq<Edge>, within: set<Id>, v: Id) {
    exists u :: u in within && Edge(u, v) in edges
  }

  /** If every node of a non-empty set has a predecessor in the set, one can walk backwards forever in it. */
  lemma {:induction false} BackwardWalk(edges: seq<Edge>, within: set<Id>, n: nat) returns (p: seq<Id>)
    requires within != {}
    requires forall v :: v in within ==> HasPredecessor(edges, within, v)
    ensures |p| == n + 1 && IsWalk(edges, p) && forall v :: v in p ==> v in within
  {
    if n == 0 {
      var v :| v in within;
      p := [v];
    } else {
      var q := BackwardWalk(edges, within, n - 1);
      assert q[0] in q;
      assert HasPredecessor(edges, within, q[0]);
      var u :| u in within && Edge(u, q[0]) in edges;
      p := [u] + q;
      forall k | 0 <= k < |p| - 1 ensures Linked(edges, p, k) {
        if k > 0 { assert Linked(edges, q, k - 1); }
      }
    }
  }

  lemma NoStartMeansCycle(d: Dag, within: set<Id>)
    requires within != {}
    requires forall v :: v in within ==> HasPredecessor(d.edges, within, v)
    ensures HasCycle(d)
  {
    hide HasPredecessor;
    var p := BackwardWalk(d.edges, within, |within|);
    RepeatMeansCycle(d, p, within);
  }

  lemma RepeatMeansCycle(d: Dag, p: seq<Id>, within: set<Id>)
    requires |p| == |within| + 1 && IsWalk(d.edges, p) && forall v :: v in p ==> v in within
    ensures HasCycle(d)
  {
    hide HasCycle, IsWalk;
    if Distinct(p) {
      DistinctWithin(p, within);
    }
    var i, j :| 0 <= i < j < |p| && p[i] == p[j];
    LoopMeansCycle(d, p, i, j);
  }

  lemma LoopMeansCycle(d: Dag, p: seq<Id>, i: nat, j: nat)
    requires IsWalk(d.edges, p) && i < j < |p| && p[i] == p[j]
    ensures HasCycle(d)
  {
    var c := p[i..j + 1];
    forall k | 0 <= k < |c| - 1 ensures Linked(d.edges, c, k) { assert Linked(d.edges, p, i + k); }
    assert IsCycle(d, c);
  }

  // ---------------------------------------------------------------- Kahn's algorithm

  /** Edges into v from nodes outside `gone`, counted with repetition. */
  function InDegree(edges: seq<Edge>, v: Id, gone: set<Id>): nat {
    if edges == [] then 0
    else
      var e := edges[|edges| - 1];
      InDegree(edges[..|edges| - 1], v, gone) + if e.to == v && e.from !in gone then 1 else 0
  }

  function Successors(edges: seq<Edge>, u: Id): seq<Id> {
    if edges == [] then []
    else
      var e := edges[|edges| - 1];
      Successors(edges[..|edges| - 1], u) + if e.from == u then [e.to] else []
  }

  function Occurrences(s: seq<Id>, v: Id): nat { multiset(s)[v] }

  /** Removing u takes away as many edges into v as v occurs among u's successors. */
  lemma {:induction false} RemoveNode(edges: seq<Edge>, u: Id, v: Id, gone: set<Id>)
    requires u !in gone
    ensures InDegree(edges, v, gone) == InDegree(edges, v, gone + {u}) + Occurrences(Successors(edges, u), v)
  {
    if edges != [] { RemoveNode(edges[..|edges| - 1], u, v, gone); }
  }

  lemma {:induction false} DegreeZero(edges: seq<Edge>, v: Id, gone: set<Id>)
    ensures InDegree(edges, v, gone) == 0 <==> forall e :: e in edges && e.to == v ==> e.from in gone
  {
    if edges != [] {
      var init, last := edges[..|edges| - 1], edges[|edges| - 1];
      DegreeZero(init, v, gone);
      assert forall e :: e in edges <==> e in init || e == last;
    }
  }

  lemma {:induction false} SuccessorsKnown(edges: seq<Edge>, u: Id)
    ensures forall v :: v in Successors(edges, u) ==> Edge(u, v) in edges
  {
    if edges != [] { SuccessorsKnown(edges[..|edges| - 1], u); }
  }

  method Tabulate(d: Dag) returns (deg: map<Id, nat>, adj: map<Id, seq<Id>>)
    requires WellJoined(d)
    ensures forall v :: v in Ids(d) <==> v in deg
    ensures forall v :: v in Ids(d) ==> deg[v] == InDegree(d.edges, v, {})
    ensures Lists(adj, d.edges)
  {
    hide InDegree, Successors, Lists;
    deg, adj := map[], map[];
    ListsNothing();
    for k := 0 to |d.nodes|
      invariant forall v :: v in deg <==> v in Ids(d)[..k]
      invariant forall v :: v in deg ==> deg[v] == 0
    {
      deg := deg[d.nodes[k].id := 0];
      assert Ids(d)[..k + 1] == Ids(d)[..k] + [d.nodes[k].id];
    }
    assert Ids(d)[..|d.nodes|] == Ids(d);
    for k := 0 to |d.edges|
      invariant forall v :: v in deg <==> v in Ids(d)
      invariant forall v :: v in deg ==> deg[v] == InDegree(d.edges[..k], v, {})
      invariant Lists(adj, d.edges[..k])
    {
      var e := d.edges[k];
      assert d.edges[..k + 1] == d.edges[..k] + [e];
      assert e in d.edges;
      forall v ensures InDegree(d.edges[..k + 1], v, {}) == InDegree(d.edges[..k], v, {}) + if e.to == v then 1 else 0 {
        DegreeSnoc(d.edges[..k], e, v);
      }
      ListsSnoc(adj, d.edges[..k], e);
      deg := deg[e.to := deg[e.to] + 1];
      adj := adj[e.from := (if e.from in adj then adj[e.from] else []) + [e.to]];
    }
    assert d.edges[..|d.edges|] == d.edges;
  }

  /** The table holds each node's successors; a missing entry means none. */
  ghost predicate Lists(adj: map<Id, seq<Id>>, edges: seq<Edge>) {
    forall u :: (if u in adj then adj[u] else []) == Successors(edges, u)
  }

  lemma ListsNothing()
    ensures Lists(map[], []) && forall v :: InDegree([], v, {}) == 0
  {}

  lemma DegreeSnoc(edges: seq<Edge>, e: Edge, v: Id)
    ensures InDegree(edges + [e], v, {}) == InDegree(edges, v, {}) + if e.to == v then 1 else 0
  {
    assert (edges + [e])[..|edges|] == edges;
  }

  lemma ListsSnoc(adj: map<Id, seq<Id>>, edges: seq<Edge>, e: Edge)
    requires Lists(adj, edges)
    ensures Lists(adj[e.from := (if e.from in adj then adj[e.from] else []) + [e.to]], edges + [e])
  {
    assert (edges + [e])[..|edges|] == edges;
    forall u ensures Successors(edges + [e], u) == Successors(edges, u) + if e.from == u then [e.to] else [] { }
  }

  /** The state of the algorithm between two rounds. */
  ghost predicate Settling(d: Dag, deg: map<Id, nat>, done: seq<Id>, queue: seq<Id>) {
    && Distinct(done + queue)
    && (forall v :: v in deg <==> v in Ids(d))
    && (forall v :: v in Ids(d) ==> deg[v] == InDegree(d.edges, v, set u | u in done))
    && (forall v :: v in done + queue <==> v in Ids(d) && deg[v] == 0)
    && (forall b, u :: 0 <= b < |done| && Edge(u, done[b]) in d.edges ==> u in done[..b])
  }

  /** Part-way through a round: the successors still to come have not lost their edge yet. */
  ghost predicate Releasing(d: Dag, deg: map<Id, nat>, gone: set<Id>, left: seq<Id>, out: seq<Id>) {
    && Distinct(out)
    && (forall v :: v in deg <==> v in Ids(d))
    && (forall v :: v in Ids(d) ==> deg[v] == InDegree(d.edges, v, gone) + Occurrences(left, v))
    && (forall v :: v in out <==> v in Ids(d) && deg[v] == 0)
  }

  method Release(d: Dag, next: seq<Id>, deg0: map<Id, nat>, queue0: seq<Id>, ghost done: seq<Id>, ghost gone: set<Id>)
    returns (deg: map<Id, nat>, queue: seq<Id>)
    requires forall v :: v in next ==> v in Ids(d)
    requires Releasing(d, deg0, gone, next, done + queue0)
    ensures Releasing(d, deg, gone, [], done + queue)
  {
    hide InDegree;
    deg, queue := deg0, queue0;
    assert next[0..] == next;
    for k := 0 to |next|
      invariant Releasing(d, deg, gone, next[k..], done + queue)
    {
      var v := next[k];
      assert next[k..] == [v] + next[k + 1..];
      assert v in next;
      assert deg[v] > 0 && v !in done + queue;
      deg := deg[v := deg[v] - 1];
      if deg[v] == 0 {
        assert done + (queue + [v]) == (done + queue) + [v];
        queue := queue + [v];
      }
    }
    assert next[|next|..] == [];
  }

  lemma Arrived(d: Dag, deg: map<Id, nat>, done: seq<Id>, queue: seq<Id>)
    requires queue != [] && Settling(d, deg, done, queue)
    ensures forall u :: Edge(u, queue[0]) in d.edges ==> u in done
  {
    assert queue[0] in done + queue;
    DegreeZero(d.edges, queue[0], set u | u in done);
    forall u | Edge(u, queue[0]) in d.edges ensures u in done { assert Edge(u, queue[0]).from in (set x | x in done); }
  }

  lemma RoundStarts(d: Dag, deg: map<Id, nat>, done: seq<Id>, queue: seq<Id>)
    requires WellJoined(d) && queue != [] && Settling(d, deg, done, queue)
    ensures var node := queue[0];
            Releasing(d, deg, (set u | u in done) + {node}, Successors(d.edges, node), done + [node] + queue[1..])
    ensures forall v :: v in Successors(d.edges, queue[0]) ==> v in Ids(d)
  {
    hide InDegree, Successors;
    var node, gone := queue[0], set u | u in done;
    assert done + [node] + queue[1..] == done + queue;
    DistinctSplit(done, queue, node);
    SuccessorsKnown(d.edges, node);
    forall v | v in Ids(d)
      ensures deg[v] == InDegree(d.edges, v, gone + {node}) + Occurrences(Successors(d.edges, node), v)
    {
      RemoveNode(d.edges, node, v, gone);
    }
    forall v | v in Successors(d.edges, node) ensures v in Ids(d) { assert Edge(node, v) in d.edges; }
  }

  lemma RoundEnds(d: Dag, deg0: map<Id, nat>, done: seq<Id>, queue0: seq<Id>, deg: map<Id, nat>, queue: seq<Id>)
    requires queue0 != [] && Settling(d, deg0, done, queue0)
    requires Releasing(d, deg, (set u | u in done) + {queue0[0]}, [], done + [queue0[0]] + queue)
    ensures Settling(d, deg, done + [queue0[0]], queue)
  {
    hide InDegree;
    var done' := done + [queue0[0]];
    Arrived(d, deg0, done, queue0);
    forall b, u | 0 <= b < |done'| && Edge(u, done'[b]) in d.edges ensures u in done'[..b] {
      if b == |done| { assert done'[..b] == done; } else { assert done'[..b] == done[..b] && done'[b] == done[b]; }
    }
    assert (set u | u in done') == (set u | u in done) + {queue0[0]};
  }

  /** One round: the node leaves the queue and its successors lose an edge each. */
  method Visit(d: Dag, adj: map<Id, seq<Id>>, deg0: map<Id, nat>, ghost done: seq<Id>, queue0: seq<Id>)
    returns (deg: map<Id, nat>, queue: seq<Id>)
    requires WellJoined(d) && queue0 != [] && Settling(d, deg0, done, queue0)
    requires Lists(adj, d.edges)
    ensures Settling(d, deg, done + [queue0[0]], queue)
  {
    hide Settling, Releasing, Successors, WellJoined;
    var node := queue0[0];
    var next := if node in adj then adj[node] else [];
    assert next == Successors(d.edges, node);
    RoundStarts(d, deg0, done, queue0);
    deg, queue := Release(d, next, deg0, queue0[1..], done + [node], (set u | u in done) + {node});
    RoundEnds(d, deg0, done, queue0, deg, queue);
  }

  /** Visits nodes in order until none without incoming edges is left. */
  method Kahn(d: Dag, start: seq<Id>) returns (done: seq<Id>)
    requires WellJoined(d) && Distinct(start)
    requires forall v :: v in start <==> v in Ids(d) && InDegree(d.edges, v, {}) == 0
    ensures Distinct(done) && forall v :: v in done ==> v in Ids(d)
    ensures |done| <= |d.nodes|
    ensures |done| == |d.nodes| ==> IsTopological(d, done)
    ensures |done| != |d.nodes| ==> HasCycle(d)
  {
    var deg, adj := Tabulate(d);
    var queue := start;
    done := [];
    assert (set u | u in done) == {} && done + queue == start;
    while queue != []
      invariant Settling(d, deg, done, queue)
      decreases |d.nodes| - |done|, |queue|
    {
      CountDone(d, deg, done, queue);
      var node := queue[0];
      deg, queue := Visit(d, adj, deg, done, queue);
      done := done + [node];
    }
    assert done + queue == done;
    CountDone(d, deg, done, queue);
    Finish(d, deg, done);
  }

  lemma CountDone(d: Dag, deg: map<Id, nat>, done: seq<Id>, queue: seq<Id>)
    requires WellJoined(d) && Settling(d, deg, done, queue)
    ensures |done| + |queue| <= |d.nodes|
  {
    var ids := set v | v in Ids(d);
    DistinctCardinality(Ids(d));
    DistinctWithin(done + queue, ids);
  }

  lemma Finish(d: Dag, deg: map<Id, nat>, done: seq<Id>)
    requires WellJoined(d) && Settling(d, deg, done, [])
    ensures Distinct(done) && forall v :: v in done ==> v in Ids(d)
    ensures |done| == |d.nodes| ==> IsTopological(d, done)
    ensures |done| != |d.nodes| ==> HasCycle(d)
  {
    assert done + [] == done;
    var ids, gone := set v | v in Ids(d), set u | u in done;
    DistinctCardinality(Ids(d));
    DistinctCardinality(done);
    assert gone <= ids;
    assert |ids - gone| == |d.nodes| - |done|;
    if |done| == |d.nodes| {
      assert ids - gone == {};
      forall v | v in Ids(d) ensures v in done { assert v in ids; assert v !in ids - gone; }
      FinishAll(d, deg, done);
    } else {
      FinishShort(d, deg, done, ids - gone);
    }
  }

  lemma FinishAll(d: Dag, deg: map<Id, nat>, done: seq<Id>)
    requires Settling(d, deg, done, []) && done + [] == done
    requires forall v :: v in Ids(d) ==> v in done
    ensures IsTopological(d, done)
  {
    forall a, b | 0 <= a < |done| && 0 <= b < |done| && Edge(done[a], done[b]) in d.edges ensures a < b {
      assert done[a] in done[..b];
    }
  }

  lemma FinishShort(d: Dag, deg: map<Id, nat>, done: seq<Id>, rest: set<Id>)
    requires WellJoined(d) && Settling(d, deg, done, []) && done + [] == done
    requires rest != {} && forall v :: v in rest <==> v in Ids(d) && v !in done
    ensures HasCycle(d)
  {
    var gone := set u | u in done;
    forall v | v in rest ensures HasPredecessor(d.edges, rest, v) {
      assert deg[v] != 0;
      DegreeZero(d.edges, v, gone);
      var e :| e in d.edges && e.to == v && e.from !in gone;
      assert e == Edge(e.from, v) && e.from in rest;
    }
    NoStartMeansCycle(d, rest);
  }

  // ---------------------------------------------------------------- the checks

  /** detectCycle: the start nodes come in whatever order the map yields them. */
  method DetectCycle(d: Dag) returns (cyclic: bool)
    requires WellJoined(d)
    ensures cyclic <==> HasCycle(d)
  {
    var deg, _ := Tabulate(d);
    var start: seq<Id> := [];
    var left := deg.Keys;
    while left != {}
      invariant Distinct(start) && left <= deg.Keys
      invariant forall v :: v in start <==> v in deg && v !in left && deg[v] == 0
    {
      var v :| v in left;
      left := left - {v};
      if deg[v] == 0 { start := start + [v]; }
    }
    var done := Kahn(d, start);
    cyclic := |done| != |d.nodes|;
    if !cyclic { TopologicalMeansAcyclic(d, done); }
  }

  /** TopoSort: fails exactly on a cycle; otherwise every node once and every edge forward. */
  method TopoSort(d: Dag) returns (order: Option<seq<Id>>)
    requires WellJoined(d)
    ensures order.None? <==> HasCycle(d)
    ensures order.Some? ==> IsTopological(d, order.value)
  {
    var cyclic := DetectCycle(d);
    if cyclic { return None; }
    var deg, _ := Tabulate(d);
    var start: seq<Id> := [];
    for k := 0 to |d.nodes|
      invariant Distinct(start)
      invariant forall v :: v in start <==> v in Ids(d)[..k] && deg[v] == 0
    {
      var v := d.nodes[k].id;
      assert Ids(d)[k] == v && Ids(d)[..k + 1] == Ids(d)[..k] + [v];
      assert v !in Ids(d)[..k];
      if deg[v] == 0 { start := start + [v]; }
    }
    assert Ids(d)[..|d.nodes|] == Ids(d);
    var done := Kahn(d, start);
    order := Some(done);
  }

  datatype Fault = NoNodes | NoId | DuplicateId | NoPlugin | BadKind | UnknownFrom | UnknownTo
                 | NoSource | NoSink | Cycle | ManySinks

  function OfKind(nodes: seq<Node>, kind: string): seq<Node> {
    if nodes == [] then []
    else (if nodes[0].kind == kind then [nodes[0]] else []) + OfKind(nodes[1..], kind)
  }

  predicate NodeOk(n: Node) { n.id != "" && n.plugin != "" && n.kind in KINDS }

  /** What a pipeline graph has to be. */
  ghost predicate ValidDag(d: Dag) {
    && d.nodes != [] && (forall k :: 0 <= k < |d.nodes| ==> NodeOk(d.nodes[k]))
    && WellJoined(d)
    && OfKind(d.nodes, "source") != [] && OfKind(d.nodes, "sink") != []
    && !HasCycle(d)
  }

  /** Validate accepts exactly the graphs that are what they should be. */
  method Validate(d: Dag) returns (fault: Option<Fault>)
    ensures fault.None? <==> ValidDag(d)
  {
    if d.nodes == [] { return Some(NoNodes); }
    var seen: set<Id> := {};
    for k := 0 to |d.nodes|
      invariant forall v :: v in seen <==> v in Ids(d)[..k]
      invariant forall j :: 0 <= j < k ==> NodeOk(d.nodes[j])
      invariant Distinct(Ids(d)[..k])
    {
      var n := d.nodes[k];
      assert Ids(d)[k] == n.id && Ids(d)[..k + 1] == Ids(d)[..k] + [n.id];
      if n.id == "" { return Some(NoId); }
      if n.id in seen {
        RepeatSeen(Ids(d), k);
        return Some(DuplicateId);
      }
      seen := seen + {n.id};
      if n.plugin == "" { return Some(NoPlugin); }
      if n.kind !in KINDS { return Some(BadKind); }
    }
    assert Ids(d)[..|d.nodes|] == Ids(d);
    for k := 0 to |d.edges|
      invariant forall j :: 0 <= j < k ==> d.edges[j].from in Ids(d) && d.edges[j].to in Ids(d)
    {
      var e := d.edges[k];
      assert e in d.edges;
      if e.from !in seen { return Some(UnknownFrom); }
      if e.to !in seen { return Some(UnknownTo); }
    }
    if OfKind(d.nodes, "source") == [] { return Some(NoSource); }
    if OfKind(d.nodes, "sink") == [] { return Some(NoSink); }
    var cyclic := DetectCycle(d);
    if cyclic { return Some(Cycle); }
    return None;
  }

  lemma RepeatSeen(ids: seq<Id>, k: nat)
    requires k < |ids| && ids[k] in ids[..k]
    ensures !Distinct(ids)
  {
    var j :| 0 <= j < k && ids[j] == ids[k];
  }

  /** ValidateProduction: besides, at most one sink unless the pipeline opted out. */
  method ValidateProduction(d: Dag, allowUnsafe: bool) returns (fault: Option<Fault>)
    ensures fault.None? <==> ValidDag(d) && (allowUnsafe || |OfKind(d.nodes, "sink")| <= 1)
  {
    fault := Validate(d);
    if fault.None? && !allowUnsafe && |OfKind(d.nodes, "sink")| > 1 { fault := Some(ManySinks); }
  }
}
