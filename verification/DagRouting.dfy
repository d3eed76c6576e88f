/**
 How a record travels through the graph (route in internal/etl/orchestrator/executor.go), and what the production
 check on graphs (ValidateProduction in dag.go) does and does not secure for the delivery promise of the executor.
 */
module DagRouting {
  import opened Prelude
  import opened DagGraph
  import U = DagExecutorGivingUp
  import L = DagExecutorLimits
  import X = DagExecutor

  /** What one record meets: the edges whose condition it satisfies (an edge without one lets everything
      pass), and the transforms that filter it out. */
  datatype Journey = Journey(passes: set<nat>, filteredBy: set<Id>)

  predicate HasKind(d: Dag, v: Id, kind: string) { KindFrom(d, v, kind, 0) }

  predicate KindFrom(d: Dag, v: Id, kind: string, from: nat)
    decreases |d.nodes| - from
  {
    from < |d.nodes| && (if d.nodes[from].id == v then d.nodes[from].kind == kind else KindFrom(d, v, kind, from + 1))
  }

  predicate Stops(d: Dag, j: Journey, v: Id) { HasKind(d, v, "transform") && v in j.filteredBy }

  predicate Goes(d: Dag, j: Journey, u: Id, v: Id) {
    exists n :: 0 <= n < |d.edges| && d.edges[n] == Edge(u, v) && n in j.passes
  }

  ghost function Place(order: seq<Id>, v: Id): (k: nat)
    requires v in order
    ensures k < |order| && order[k] == v
  {
    var k :| 0 <= k < |order| && order[k] == v; k
  }

  ghost predicate Sorted(d: Dag, order: seq<Id>) { WellJoined(d) && IsTopological(d, order) }

  /** The sinks the record reaches from v. The recursion ends because edges go forward in the order. */
  ghost function Route(d: Dag, order: seq<Id>, j: Journey, v: Id): set<Id>
    requires Sorted(d, order) && v in order
    decreases |order| - Place(order, v), 1, 0
  {
    if Stops(d, j, v) then {}
    else if HasKind(d, v, "sink") then {v}
    else RouteEdges(d, order, j, v, 0)
  }

  ghost function RouteEdges(d: Dag, order: seq<Id>, j: Journey, v: Id, n: nat): set<Id>
    requires Sorted(d, order) && v in order && n <= |d.edges|
    decreases |order| - Place(order, v), 0, |d.edges| - n
  {
    if n == |d.edges| then {}
    else if d.edges[n].from == v && n in j.passes then
      assert d.edges[n] in d.edges;
      assert Edge(order[Place(order, v)], order[Place(order, d.edges[n].to)]) == d.edges[n];
      Route(d, order, j, d.edges[n].to) + RouteEdges(d, order, j, v, n + 1)
    else RouteEdges(d, order, j, v, n + 1)
  }

  /** A path the record can take: along edges it passes, through no filtering transform, to its first sink. */
  ghost predicate IsPath(d: Dag, j: Journey, p: seq<Id>)
    decreases |p|
  {
    && p != [] && !Stops(d, j, p[0])
    && if |p| == 1 then HasKind(d, p[0], "sink")
       else !HasKind(d, p[0], "sink") && Goes(d, j, p[0], p[1]) && IsPath(d, j, p[1..])
  }

  lemma {:induction false} PathIsRouted(d: Dag, order: seq<Id>, j: Journey, p: seq<Id>)
    requires Sorted(d, order) && IsPath(d, j, p) && p[0] in order
    ensures p[|p| - 1] in Route(d, order, j, p[0])
    decreases |p|
  {
    if |p| > 1 {
      var n :| 0 <= n < |d.edges| && d.edges[n] == Edge(p[0], p[1]) && n in j.passes;
      assert d.edges[n] in d.edges && p[1] in order;
      PathIsRouted(d, order, j, p[1..]);
      EdgeIsRouted(d, order, j, p[0], 0, n, p[|p| - 1]);
    }
  }

  lemma {:induction false} EdgeIsRouted(d: Dag, order: seq<Id>, j: Journey, v: Id, from: nat, n: nat, k: Id)
    requires Sorted(d, order) && v in order && from <= n < |d.edges|
    requires d.edges[n].from == v && n in j.passes
    requires d.edges[n].to in order && k in Route(d, order, j, d.edges[n].to)
    ensures k in RouteEdges(d, order, j, v, from)
    decreases n - from
  {
    if from < n { EdgeIsRouted(d, order, j, v, from + 1, n, k); }
  }

  lemma {:induction false} RoutedHasPath(d: Dag, order: seq<Id>, j: Journey, v: Id, k: Id) returns (p: seq<Id>)
    requires Sorted(d, order) && v in order && k in Route(d, order, j, v)
    ensures IsPath(d, j, p) && p[0] == v && p[|p| - 1] == k
    decreases |order| - Place(order, v), 1, 0
  {
    if HasKind(d, v, "sink") {
      p := [v];
    } else {
      p := EdgesHavePath(d, order, j, v, 0, k);
    }
  }

  lemma {:induction false} EdgesHavePath(d: Dag, order: seq<Id>, j: Journey, v: Id, n: nat, k: Id)
    returns (p: seq<Id>)
    requires Sorted(d, order) && v in order && n <= |d.edges|
    requires !Stops(d, j, v) && !HasKind(d, v, "sink") && k in RouteEdges(d, order, j, v, n)
    ensures IsPath(d, j, p) && p[0] == v && p[|p| - 1] == k
    decreases |order| - Place(order, v), 0, |d.edges| - n
  {
    var e := d.edges[n];
    if e.from == v && n in j.passes {
      assert e in d.edges && e.to in order;
      assert Edge(order[Place(order, v)], order[Place(order, e.to)]) == e;
      if k in Route(d, order, j, e.to) {
        var q := RoutedHasPath(d, order, j, e.to, k);
        p := [v] + q;
        assert p[1..] == q && Goes(d, j, v, q[0]);
        return;
      }
    }
    p := EdgesHavePath(d, order, j, v, n + 1, k);
  }

  /** The router delivers to exactly the sinks that can be reached. */
  lemma RouteIsReachability(d: Dag, order: seq<Id>, j: Journey, v: Id, k: Id)
    requires Sorted(d, order) && v in order
    ensures k in Route(d, order, j, v) <==> exists p :: IsPath(d, j, p) && p[0] == v && p[|p| - 1] == k
  {
    if k in Route(d, order, j, v) {
      var p := RoutedHasPath(d, order, j, v, k);
    }
    if p :| IsPath(d, j, p) && p[0] == v && p[|p| - 1] == k {
      PathIsRouted(d, order, j, p);
    }
  }

  // ---------------------------------------------------------------- the production check

  /** The executor's view of a graph and of the records each of its sources will read; the other settings as given. */
  ghost function Routing(d: Dag, order: seq<Id>, records: map<Id, seq<Journey>>, settings: X.Config): X.Config
    requires Sorted(d, order) && forall s :: s in records ==> s in order
  {
    settings.(routes := map s | s in records ::
                          seq(|records[s]|, i requires 0 <= i < |records[s]| => Route(d, order, records[s][i], s)))
  }

  lemma {:induction false} PathEndsInSink(d: Dag, j: Journey, p: seq<Id>)
    requires IsPath(d, j, p)
    ensures HasKind(d, p[|p| - 1], "sink")
    decreases |p|
  {
    if |p| > 1 { PathEndsInSink(d, j, p[1..]); }
  }

  lemma {:induction false} KindIsListed(d: Dag, v: Id, kind: string, from: nat)
    requires from <= |d.nodes| && KindFrom(d, v, kind, from)
    ensures exists n :: n in OfKind(d.nodes[from..], kind) && n.id == v
    decreases |d.nodes| - from
  {
    var rest := d.nodes[from..];
    assert rest[0] == d.nodes[from] && rest[1..] == d.nodes[from + 1..];
    if d.nodes[from].id == v {
      assert d.nodes[from] in OfKind(rest, kind);
    } else {
      KindIsListed(d, v, kind, from + 1);
    }
  }

  lemma OneSinkNode(d: Dag, v: Id, w: Id)
    requires |OfKind(d.nodes, "sink")| <= 1 && HasKind(d, v, "sink") && HasKind(d, w, "sink")
    ensures v == w
  {
    assert d.nodes[0..] == d.nodes;
    KindIsListed(d, v, "sink", 0);
    KindIsListed(d, w, "sink", 0);
  }

  /**
   * A graph that passes the production check without opting out, whatever its records. As long as no batch is given up,
   * no checkpoint is saved past a record that has not reached its sink or the dead-letter queue, exactly when nothing
   * goes anywhere, or writes are tried, no reader that answers with its own position has two records to deliver, and no
   * transform can drop a record for what it remembers, or no longer does, with another of its source to follow.
   * Over all runs it takes, besides, that no record can be given up while a later one of its source is still to be saved.
   */
  lemma ProductionGraphsAreSafe(d: Dag, order: seq<Id>, records: map<Id, seq<Journey>>, settings: X.Config)
    requires ValidDag(d) && |OfKind(d.nodes, "sink")| <= 1
    requires IsTopological(d, order) && forall s :: s in records ==> s in order
    ensures var cfg := Routing(d, order, records, settings);
            && (L.Keeps(cfg) <==> X.Idling(cfg) || (cfg.attempts > 0 && X.NotAhead(cfg) && X.Mindful(cfg)))
            && (U.AlwaysSafe(cfg) <==> L.Keeps(cfg) && !U.Exposed(cfg))
  {
    var cfg := Routing(d, order, records, settings);
    ProductionGraphsFeedOneSink(d, order, records, settings);
    hide *;
    L.SafeIffSound(cfg);
    U.AlwaysSafeIff(cfg);
    OneSinkSound(cfg);
  }

  lemma OneSinkSound(cfg: X.Config)
    requires X.OneSinkPerSource(cfg)
    ensures X.Sound(cfg) <==> X.Idling(cfg) || (cfg.attempts > 0 && X.NotAhead(cfg) && X.Mindful(cfg))
  {}

  lemma ProductionGraphsFeedOneSink(d: Dag, order: seq<Id>, records: map<Id, seq<Journey>>, settings: X.Config)
    requires ValidDag(d) && |OfKind(d.nodes, "sink")| <= 1
    requires IsTopological(d, order) && forall s :: s in records ==> s in order
    ensures WellJoined(d) && X.OneSinkPerSource(Routing(d, order, records, settings))
  {
    var cfg := Routing(d, order, records, settings);
    forall m: X.Msg, n: X.Msg, j, k | m.src == n.src && j in X.Targets(cfg, m) && k in X.Targets(cfg, n)
      ensures j == k
    {
      TargetIsSink(d, order, records, settings, m, j);
      TargetIsSink(d, order, records, settings, n, k);
      OneSinkNode(d, j, k);
    }
  }

  lemma TargetIsSink(d: Dag, order: seq<Id>, records: map<Id, seq<Journey>>, settings: X.Config, m: X.Msg, k: Id)
    requires Sorted(d, order) && forall s :: s in records ==> s in order
    requires k in X.Targets(Routing(d, order, records, settings), m)
    ensures HasKind(d, k, "sink")
  {
    var p := RoutedHasPath(d, order, records[m.src][m.i], m.src, k);
    PathEndsInSink(d, records[m.src][m.i], p);
  }
}
