/**
 Exactly when every run of the DAG executor is safe, those included in which a full batch is given up because the run
 has been cancelled while the sink's breaker is open.
 */
module DagExecutorGivingUp {
  import opened CircuitBreaker
  import opened Prelude
  import opened DagExecutor
  import opened DagExecutorSafety
  import opened DagExecutorReach
  import opened DagExecutorLimits
  import opened DagExecutorBreakers

  /** The records for the sink that can be taken before m. */
  ghost function Ahead(cfg: Config, m: Msg, k: Id): set<Msg> {
    set c | c in Copies(cfg, k) && (c.src == m.src ==> c.i < m.i)
  }

  /** How many of them are left over when the batch that m completes is full. */
  ghost function Spare(cfg: Config, m: Msg, k: Id): int { |Ahead(cfg, m, k)| - (BatchSize(cfg) - 1) }

  /** A full batch can separate m from a later record of its source, and the records written before it are enough to
      open the breaker: one of m's own source can fail once, one of another source twice, and five failures are needed. */
  ghost predicate Separable(cfg: Config, m: Msg, n: Msg, k: Id) {
    && m.src == n.src && m.i < n.i && k in Targets(cfg, m) && Targets(cfg, n) != {}
    && Spare(cfg, m, k) + Min(Spare(cfg, m, k), |Foreign(Copies(cfg, k), m.src)|) >= 5
  }

  ghost predicate Exposed(cfg: Config) { exists m, n, k :: Separable(cfg, m, n, k) }

  // ---------------------------------------------------------------- not exposed: nothing is lost

  lemma {:induction false} LastInBatch(batch: seq<Msg>, s: Id) returns (m: Msg)
    requires exists n :: n in batch && n.src == s
    requires forall a, b :: 0 <= a < b < |batch| && batch[a].src == batch[b].src ==> batch[a].i < batch[b].i
    ensures m in batch && m.src == s && forall n :: n in batch && n.src == s ==> n == m || n.i < m.i
  {
    var last := batch[|batch| - 1];
    if last.src == s { m := last; } else { m := LastInBatch(batch[..|batch| - 1], s); }
  }

  /** What was written before and what waits with m all went ahead of m. */
  lemma AheadHolds(x: Exec, cfg: Config, k: Id, m: Msg)
    requires Tidy(x, cfg) && m in Buffer(x, k) && forall n :: n in Buffer(x, k) && n.src == m.src ==> n == m || n.i < m.i
    ensures |Ahead(cfg, m, k)| >= |Spent(x, cfg, k)| + |Buffer(x, k)| - 1
  {
    hide Copies, Tidy, Spent, Ahead, Weight;
    var ms := set n | n in Buffer(x, k);
    var spent := Spent(x, cfg, k);
    BatchWeight(x, cfg, k, "");
    assert |spent + (ms - {m})| == |spent| + |ms| - 1;
    forall c | c in spent ensures c in Ahead(cfg, m, k) { SpentAhead(x, cfg, k, m, c); }
    forall c | c in ms - {m} ensures c in Ahead(cfg, m, k) { WaitingAhead(x, cfg, k, m, c); }
    SubsetCardinality(spent + (ms - {m}), Ahead(cfg, m, k));
  }

  lemma SpentAhead(x: Exec, cfg: Config, k: Id, m: Msg, c: Msg)
    requires c in Spent(x, cfg, k) && m in Buffer(x, k)
    ensures c in Ahead(cfg, m, k)
  {}

  lemma WaitingAhead(x: Exec, cfg: Config, k: Id, m: Msg, c: Msg)
    requires Tidy(x, cfg) && c in Buffer(x, k) && (c.src == m.src ==> c.i < m.i)
    ensures c in Ahead(cfg, m, k)
  {
    TidyDistinct(x, cfg, k);
  }

  /** A full batch given up over a source that has more to deliver makes the settings exposed. */
  lemma GivenUpExposes(x: Exec, cfg: Config, k: Id, a: Answers, m: Msg, n: Msg)
    requires Tidy(x, cfg) && Accounted(x, cfg) && GivesUp(x, k, a) && |Buffer(x, k)| >= BatchSize(cfg)
    requires m in Buffer(x, k) && m.src !in x.blocked && (forall o :: o in Buffer(x, k) && o.src == m.src ==> o == m || o.i < m.i)
    requires n.src == m.src && Routed(x, m.src) <= n.i && Targets(cfg, n) != {}
    ensures Exposed(cfg)
  {
    hide Accounted, Ahead, Spent, Copies, Tidy;
    var spent := Spent(x, cfg, k);
    assert AccountedFor(BreakerOf(x, k), Weight(spent, m.src)) by { SpentWeight(x, cfg, k, m.src); }
    AheadHolds(x, cfg, k, m);
    TidyDistinct(x, cfg, k);
    CopiesAre(cfg, k, m);
    SubsetCardinality(Foreign(spent, m.src), spent);
    SpentCopies(x, cfg, k);
    SubsetCardinality(Foreign(spent, m.src), Foreign(Copies(cfg, k), m.src));
    assert Separable(cfg, m, n, k);
  }

  lemma SpentCopies(x: Exec, cfg: Config, k: Id)
    ensures Spent(x, cfg, k) <= Copies(cfg, k)
  {}

  lemma SpentWeight(x: Exec, cfg: Config, k: Id, s: Id)
    requires Accounted(x, cfg) && s !in x.blocked
    ensures AccountedFor(BreakerOf(x, k), Weight(Spent(x, cfg, k), s))
  {}

  lemma GivesUpHarmless(x: Exec, cfg: Config, k: Id, a: Answers)
    requires !Exposed(cfg) && Inv(x, cfg, true) && Accounted(x, cfg)
    requires GivesUp(x, k, a) && |Buffer(x, k)| >= BatchSize(cfg)
    ensures Harmless(x, cfg, k)
  {
    hide Exposed, Accounted, AllHeld, Safe, GivesUp;
    var y := x.(buffers := x.buffers[k := []]);
    forall m | m in Buffer(x, k) && m.src !in x.blocked ensures Gone(y, cfg, m.src) {
      assert TidyBatch(x, cfg, k, Buffer(x, k));
      forall j, n: Msg | n in Buffer(y, j) ensures n.src != m.src { assert j != k && n in Buffer(x, j); }
      forall n: Msg | n.src == m.src && Routed(y, m.src) <= n.i ensures Targets(cfg, n) == {} {
        if Targets(cfg, n) != {} {
          var last := LastInBatch(Buffer(x, k), m.src);
          GivenUpExposes(x, cfg, k, a, last, n);
          assert false;
        }
      }
    }
  }

  lemma {:induction false} LossIsHarmless(x: Exec, cfg: Config, e: Event)
    requires !Exposed(cfg) && Inv(x, cfg, true) && Accounted(x, cfg) && OnTime(x)
    requires Enabled(x, cfg, e) && Loses(x, e)
    ensures GivesUpHarmlessly(x, cfg, e)
    decreases e
  {
    hide Exposed, Inv, Accounted, Harmless;
    match e
    case Full(k, a) => GivesUpHarmless(x, cfg, k, a);
    case Crash(_, during) => LossIsHarmless(x, cfg, during.value);
    case _ =>
  }

  /** What every run keeps, whatever it gives up or forgets. */
  ghost predicate Kept(x: Exec, cfg: Config) { Inv(x, cfg, true) && Rooted(x, cfg) && Accounted(x, cfg) && OnTime(x) }

  lemma StartKept(cfg: Config)
    ensures Kept(INITIAL, cfg)
  {
    EmptyInv(cfg, true, INITIAL);
    forall k, w: nat ensures AccountedFor(BreakerOf(INITIAL, k), w) { FreshAccounted(INITIAL, k, w); }
  }

  lemma {:induction false} RunKeepsAll(cfg: Config, es: seq<Event>)
    requires cfg.attempts > 0 && Confined(cfg) && NotAhead(cfg) && Mindful(cfg) && !Exposed(cfg) && IsRun(cfg, es)
    ensures Kept(After(cfg, es), cfg)
  {
    hide Step, Enabled, Kept, Confined, NotAhead, Mindful, Exposed;
    if es == [] {
      StartKept(cfg);
    } else {
      RunKeepsAll(cfg, es[..|es| - 1]);
      StepKeepsAll(After(cfg, es[..|es| - 1]), cfg, es[|es| - 1]);
    }
  }

  lemma StepKeepsAll(x: Exec, cfg: Config, e: Event)
    requires cfg.attempts > 0 && Confined(cfg) && NotAhead(cfg) && Mindful(cfg) && !Exposed(cfg)
    requires Enabled(x, cfg, e) && Kept(x, cfg)
    ensures Kept(Step(x, cfg, e), cfg)
  {
    hide Step, Enabled, Loses, Confined, NotAhead, Mindful, Exposed, GivesUpHarmlessly, Accounted, OnTime, AllHeld, Tidy,
      Grouped, Safe, Earned, Traced, Forgets;
    if Loses(x, e) { LossIsHarmless(x, cfg, e); }
    StepKeepsInv(x, cfg, true, e);
    StepRooted(x, cfg, e);
    StepAccounted(x, cfg, e);
    StepOnTime(x, cfg, e);
  }

  // ---------------------------------------------------------------- exposed: a record is lost

  /** Records bound for the sink that are still to be taken before m. */
  ghost function Left(x: Exec, cfg: Config, m: Msg, k: Id): set<Msg> {
    set c | c in Ahead(cfg, m, k) && Routed(x, c.src) <= c.i
  }

  /** The failures counted so far have just opened the breaker, or all happened at this moment. */
  predicate Heated(b: Breaker, now: nat, w: nat) {
    if w >= 5 then b.mode == Open && b.trippedAt == now
    else b.mode == Closed && |b.failures| == w && forall n :: 0 <= n < |b.failures| ==> b.failures[n] == now
  }

  lemma {:induction false} RecentAll(failures: seq<nat>, now: nat)
    requires forall n :: 0 <= n < |failures| ==> failures[n] == now
    ensures Recent(failures, DEFAULTS, now) == failures
  {
    if failures != [] { RecentAll(failures[1..], now); }
  }

  lemma HeatOnce(b: Breaker, now: nat, w: nat)
    requires Heated(b, now, w)
    ensures Heated(RecordFailure(b, DEFAULTS, now), now, w + 1)
  {
    if w < 5 { RecentAll(b.failures, now); }
  }

  /** A refusal, at once while the breaker is closed and after the cooldown once it is open. */
  function Next(x: Exec, w: nat): nat { if w >= 5 then Cool(x) else x.clock }

  lemma HeatNext(x: Exec, k: Id, w: nat, twice: bool)
    requires Heated(BreakerOf(x, k), x.clock, w)
    ensures Ask(x, k, Next(x, w)).1
    ensures Heated(Twice(Ask(x, k, Next(x, w)).0, Next(x, w), twice), Next(x, w), w + if twice then 2 else 1)
  {
    hide Recent;
    var b, now := Ask(x, k, Next(x, w)).0, Next(x, w);
    var b1 := RecordFailure(b, DEFAULTS, now);
    if w < 5 { HeatOnce(b, now, w); }
    if twice { HeatOnce(b1, now, w + 1); }
  }

  /** On the way to giving up m: its source may still save, it is nowhere in the log, only its sink has a batch, and no
      other sink has failed. */
  ghost predicate Heading(x: Exec, cfg: Config, m: Msg, k: Id, w: nat) {
    && Working(x) && m.src !in x.blocked && x.routed.Keys == cfg.routes.Keys && !Resolved(x.log, m, k)
    && (forall j :: j != k ==> Buffer(x, j) == [] && BreakerOf(x, j).mode == Closed)
    && Heated(BreakerOf(x, k), x.clock, w)
  }

  lemma HeadingIdle(x: Exec, cfg: Config, m: Msg, k: Id, w: nat)
    requires Heading(x, cfg, m, k, w) && |Buffer(x, k)| < BatchSize(cfg)
    ensures Idle(x, cfg)
  {
    forall j | j in x.buffers ensures |x.buffers[j]| < BatchSize(cfg) { assert j != k ==> Buffer(x, j) == []; }
  }

  /** Only the log, the routing and the batches changed, the other batches are empty, and m is still nowhere. */
  lemma HeadingKept(x: Exec, y: Exec, cfg: Config, m: Msg, k: Id, w: nat)
    requires Heading(x, cfg, m, k, w) && y == x.(routed := y.routed, buffers := y.buffers, log := y.log)
    requires y.routed.Keys == x.routed.Keys && (forall j :: j != k ==> Buffer(y, j) == []) && !Resolved(y.log, m, k)
    ensures Heading(y, cfg, m, k, w)
  {
    forall j ensures BreakerOf(y, j) == BreakerOf(x, j) {}
  }

  predicate NoneFor(cfg: Config, s: Id, i: nat, j: nat, k: Id) {
    forall n: nat :: i <= n < j ==> k !in Targets(cfg, Msg(s, n))
  }

  /** The next record of the source that is bound for the sink. */
  lemma {:induction false} NextFor(cfg: Config, m: Msg, from: nat, k: Id) returns (f: Msg)
    requires k in Targets(cfg, m) && from <= m.i
    ensures f.src == m.src && from <= f.i <= m.i && k in Targets(cfg, f) && NoneFor(cfg, f.src, from, f.i, k)
    decreases m.i
  {
    if n: nat :| from <= n < m.i && k in Targets(cfg, Msg(m.src, n)) { f := NextFor(cfg, Msg(m.src, n), from, k); } else { f := m; }
  }

  /** A source that feeds another sink besides: then batches hold one record, and the record goes nowhere else. */
  lemma Elsewhere(cfg: Config, c: Msg, o: Msg, k: Id) returns (j: Id)
    requires Confined(cfg) && c.src == o.src && k in Targets(cfg, c) && k !in Targets(cfg, o) && Targets(cfg, o) != {}
    ensures j != k && Targets(cfg, o) == {j} && BatchSize(cfg) == 1
  {
    j :| j in Targets(cfg, o);
    assert !OneSinkPerSource(cfg);
    assert forall i :: i in Targets(cfg, o) ==> i == j;
  }

  // ---------------------------------------------------------------- records for other sinks

  /** The write succeeds, but state versions cannot be collected: nothing is saved. */
  function Passing(now: nat, o: Msg): Answers { Answers(now, 0, true, {}, false, true, [o.src], map[], map[]) }

  function AfterPassing(x: Exec, j: Id, o: Msg): Exec {
    x.(log := x.log + [Delivered(o, j)], buffers := x.buffers[j := []],
       breakers := x.breakers[j := RecordFailure(RecordSuccess(BreakerOf(x, j)), DEFAULTS, x.clock)])
  }

  lemma PassedOne(x: Exec, cfg: Config, j: Id, o: Msg)
    requires cfg.attempts > 0 && Buffer(x, j) == [o] && BreakerOf(x, j).mode == Closed
    ensures !GivesUp(x, j, Passing(x.clock, o)) && Flush(x, cfg, j, Passing(x.clock, o)) == AfterPassing(x, j, o)
  {
    hide RecordFailure;
    var a := Passing(x.clock, o);
    assert Deliveries([o], j) == [Delivered(o, j)];
    var y := Landed(Asked(x, j, a), cfg, j, [o]);
    assert BreakerOf(y, j) == RecordSuccess(BreakerOf(x, j));
    assert Fail(y, j).breakers == AfterPassing(x, j, o).breakers;
  }

  lemma PassingHeading(x: Exec, cfg: Config, m: Msg, k: Id, w: nat, j: Id, o: Msg)
    requires Heading(x.(buffers := x.buffers[j := []]), cfg, m, k, w) && j != k
    ensures Heading(AfterPassing(x, j, o), cfg, m, k, w)
  {
    var x0, y := x.(buffers := x.buffers[j := []]), AfterPassing(x, j, o);
    assert Recent([], DEFAULTS, x.clock) == [];
    forall i | i != j ensures BreakerOf(y, i) == BreakerOf(x0, i) {}
    assert BreakerOf(x0, j).mode == Closed && BreakerOf(y, j).trippedAt == BreakerOf(x0, j).trippedAt;
    forall i ensures Buffer(y, i) == Buffer(x0, i) {}
    assert !Resolved(y.log, m, k);
  }

  /** A record bound for another sink is taken and written, in no time. */
  lemma ReachPassed(cfg: Config, x: Exec, m: Msg, k: Id, w: nat, o: Msg, j: Id) returns (y: Exec)
    requires cfg.attempts > 0 && BatchSize(cfg) == 1 && Targets(cfg, o) == {j} && j != k && Routed(x, o.src) == o.i
    requires Reachable(cfg, x, false) && Heading(x, cfg, m, k, w) && Buffer(x, k) == [] && !x.cancelled
    ensures Reachable(cfg, y, false) && Heading(y, cfg, m, k, w) && Buffer(y, k) == [] && !y.cancelled
    ensures Routed(y, o.src) == o.i + 1 && forall t :: t != o.src ==> Routed(y, t) == Routed(x, t)
  {
    hide Reachable, Append, Idle, Noted, Heated, RecordFailure, Working;
    HeadingIdle(x, cfg, m, k, w);
    ReachTake(cfg, x, false, o);
    var x1 := Taken(x, cfg, o);
    assert Buffer(x, j) == [] && Buffer(x1, j) == [o] && BreakerOf(x1, j) == BreakerOf(x, j);
    PassedOne(x1, cfg, j, o);
    ListsOne(o);
    WorkingIdle(x);
    ReachStep(cfg, x1, false, Full(j, Passing(x1.clock, o)));
    y := AfterPassing(x1, j, o);
    var x0 := x1.(buffers := x1.buffers[j := []]);
    NotedResolves(cfg, x.log, o, Targets(cfg, o), m, k);
    forall i | i != k ensures Buffer(x0, i) == [] { assert Buffer(x1, i) == Buffer(x, i) + if i in Targets(cfg, o) then [o] else []; }
    HeadingKept(x, x0, cfg, m, k, w);
    PassingHeading(x1, cfg, m, k, w, j, o);
  }

  lemma WorkingIdle(x: Exec)
    requires Working(x)
    ensures x.up && x.flushing.None?
  {}

  /** The source moves on to record i, which no record for the sink precedes. */
  lemma {:induction false} ReachOnward(cfg: Config, x: Exec, m: Msg, k: Id, w: nat, c: Msg, i: nat) returns (y: Exec)
    requires cfg.attempts > 0 && Confined(cfg) && k in Targets(cfg, c) && Routed(x, c.src) <= i <= c.i
    requires NoneFor(cfg, c.src, Routed(x, c.src), c.i, k)
    requires Reachable(cfg, x, false) && Heading(x, cfg, m, k, w) && |Buffer(x, k)| < BatchSize(cfg) && !x.cancelled
    ensures Reachable(cfg, y, false) && Heading(y, cfg, m, k, w) && Buffer(y, k) == Buffer(x, k) && !y.cancelled
    ensures Routed(y, c.src) == i && forall t :: t != c.src ==> Routed(y, t) == Routed(x, t)
    decreases i
  {
    hide Reachable, Confined, Heading, Idle;
    if i == Routed(x, c.src) { return x; }
    var z := ReachOnward(cfg, x, m, k, w, c, i - 1);
    var o := Msg(c.src, i - 1);
    if Targets(cfg, o) == {} {
      HeadingIdle(z, cfg, m, k, w);
      HeadingKnows(z, cfg, m, k, w, c);
      ReachSkip(cfg, z, false, c.src, i);
      y := Moved(z, c.src, i);
      MovedHeading(z, cfg, m, k, w, c.src, i);
    } else {
      var j := Elsewhere(cfg, c, o, k);
      y := ReachPassed(cfg, z, m, k, w, o, j);
    }
  }

  lemma HeadingKnows(x: Exec, cfg: Config, m: Msg, k: Id, w: nat, c: Msg)
    requires Heading(x, cfg, m, k, w) && k in Targets(cfg, c)
    ensures c.src in x.routed && Known(cfg, c)
  {}

  lemma MovedHeading(x: Exec, cfg: Config, m: Msg, k: Id, w: nat, s: Id, i: nat)
    requires Heading(x, cfg, m, k, w) && s in x.routed
    ensures Heading(Moved(x, s, i), cfg, m, k, w)
  {
    assert forall j :: Buffer(Moved(x, s, i), j) == Buffer(x, j);
    HeadingKept(x, Moved(x, s, i), cfg, m, k, w);
  }

  /** One record for the sink is taken; it waits at the end of the batch. */
  lemma ReachHeading(cfg: Config, x: Exec, m: Msg, k: Id, w: nat, c: Msg) returns (y: Exec)
    requires cfg.attempts > 0 && Confined(cfg) && Reachable(cfg, x, false) && Heading(x, cfg, m, k, w)
    requires |Buffer(x, k)| < BatchSize(cfg) && !x.cancelled
    requires k in Targets(cfg, c) && Routed(x, c.src) <= c.i && NoneFor(cfg, c.src, Routed(x, c.src), c.i, k)
    ensures Reachable(cfg, y, false) && Heading(y, cfg, m, k, w) && Buffer(y, k) == Buffer(x, k) + [c] && !y.cancelled
    ensures Routed(y, c.src) == c.i + 1 && forall t :: t != c.src ==> Routed(y, t) == Routed(x, t)
  {
    hide Reachable, Confined, Append, Idle, Heading, Noted, NoneFor;
    var x1 := ReachOnward(cfg, x, m, k, w, c, c.i);
    HeadingIdle(x1, cfg, m, k, w);
    HeadingKnows(x1, cfg, m, k, w, c);
    ReachTake(cfg, x1, false, c);
    y := Taken(x1, cfg, c);
    TakenHeading(x1, y, cfg, m, k, w, c);
  }

  lemma TakenHeading(x: Exec, y: Exec, cfg: Config, m: Msg, k: Id, w: nat, c: Msg)
    requires Confined(cfg) && Heading(x, cfg, m, k, w) && k in Targets(cfg, c) && c.src in x.routed
    requires y == x.(routed := x.routed[c.src := c.i + 1], buffers := y.buffers, log := x.log + Noted(cfg, c, Targets(cfg, c)))
    requires forall j :: Buffer(y, j) == Buffer(x, j) + if j in Targets(cfg, c) then [c] else []
    ensures Heading(y, cfg, m, k, w)
  {
    hide Confined, Noted;
    NotedResolves(cfg, x.log, c, Targets(cfg, c), m, k);
    forall j | j != k ensures Buffer(y, j) == [] {
      if j in Targets(cfg, c) { ConfinedRecords(cfg, c, j, k); }
    }
    HeadingKept(x, y, cfg, m, k, w);
  }

  /** The first record of a source that is left, given that some record of it is. */
  lemma FirstLeft(cfg: Config, x: Exec, m: Msg, k: Id, c: Msg) returns (f: Msg)
    requires c in Left(x, cfg, m, k)
    ensures f in Left(x, cfg, m, k) && f.src == c.src && k in Targets(cfg, f) && Routed(x, f.src) <= f.i
    ensures NoneFor(cfg, f.src, Routed(x, f.src), f.i, k)
  {
    CopiesAre(cfg, k, c);
    f := NextFor(cfg, c, Routed(x, c.src), k);
    CopiesAre(cfg, k, f);
  }

  lemma LeftLess(cfg: Config, x: Exec, y: Exec, m: Msg, k: Id, c: Msg)
    requires c in Left(x, cfg, m, k) && NoneFor(cfg, c.src, Routed(x, c.src), c.i, k)
    requires Routed(y, c.src) == c.i + 1 && forall t :: t != c.src ==> Routed(y, t) == Routed(x, t)
    ensures Left(y, cfg, m, k) == Left(x, cfg, m, k) - {c}
  {
    hide Copies;
    forall d | d in Left(x, cfg, m, k) ensures d in Left(y, cfg, m, k) || d == c { CopiesAre(cfg, k, d); }
  }

  lemma LeftBefore(cfg: Config, x: Exec, m: Msg, k: Id, c: Msg)
    requires c in Left(x, cfg, m, k)
    ensures c != m && (c.src == m.src ==> c.i < m.i)
  {}

  /** One record is taken and refused. */
  lemma SpendOne(cfg: Config, x: Exec, m: Msg, k: Id, w: nat, c: Msg) returns (y: Exec)
    requires Confined(cfg) && cfg.attempts > 0 && Reachable(cfg, x, false) && Heading(x, cfg, m, k, w)
    requires Buffer(x, k) == [] && !x.cancelled && c in Left(x, cfg, m, k) && Routed(x, m.src) <= m.i
    requires k in Targets(cfg, c) && Routed(x, c.src) <= c.i && NoneFor(cfg, c.src, Routed(x, c.src), c.i, k)
    ensures Reachable(cfg, y, false) && Heading(y, cfg, m, k, w + if c.src != m.src then 2 else 1)
    ensures Buffer(y, k) == [] && !y.cancelled && Left(y, cfg, m, k) == Left(x, cfg, m, k) - {c} && Routed(y, m.src) <= m.i
  {
    hide Reachable, Confined, Left, Heated, Twice, Ask, NoneFor;
    LeftBefore(cfg, x, m, k, c);
    var x1 := ReachHeading(cfg, x, m, k, w, c);
    var down := c.src != m.src;
    HeatNext(x1, k, w, down);
    if BatchSize(cfg) > 1 { HeadingIdle(x1, cfg, m, k, w); }
    ReachRefused(cfg, x1, false, k, c, Next(x1, w), down);
    y := AfterRefusal(x1, k, c, Next(x1, w), down);
    RefusedHeading(x1, cfg, m, k, w, c);
    LeftLess(cfg, x, y, m, k, c);
  }

  lemma RefusedHeading(x: Exec, cfg: Config, m: Msg, k: Id, w: nat, c: Msg)
    requires Heading(x, cfg, m, k, w) && c != m
    requires var y := AfterRefusal(x, k, c, Next(x, w), c.src != m.src); Working(y) && Empty(y)
    ensures Heading(AfterRefusal(x, k, c, Next(x, w), c.src != m.src), cfg, m, k, w + if c.src != m.src then 2 else 1)
  {
    hide Twice, Heated, Ask, Working;
    HeatNext(x, k, w, c.src != m.src);
    var y := AfterRefusal(x, k, c, Next(x, w), c.src != m.src);
    assert forall j :: Buffer(y, j) == [];
    assert forall j :: j != k ==> BreakerOf(y, j) == BreakerOf(x, j);
    assert !Resolved(y.log, m, k);
  }

  /** Enough records are taken and refused, those of other sources first. */
  lemma {:induction false} SpendMany(cfg: Config, x: Exec, m: Msg, k: Id, w: nat, r: nat) returns (y: Exec, v: nat)
    requires Confined(cfg) && cfg.attempts > 0 && Reachable(cfg, x, false) && Heading(x, cfg, m, k, w)
    requires Buffer(x, k) == [] && !x.cancelled && r <= |Left(x, cfg, m, k)| && Routed(x, m.src) <= m.i
    ensures Reachable(cfg, y, false) && Heading(y, cfg, m, k, v) && Buffer(y, k) == [] && !y.cancelled && Routed(y, m.src) <= m.i
    ensures |Left(y, cfg, m, k)| == |Left(x, cfg, m, k)| - r
    ensures v == w + r + Min(r, |Foreign(Left(x, cfg, m, k), m.src)|)
    decreases r
  {
    hide Confined, Reachable, Heading, Left, NoneFor;
    var left := Left(x, cfg, m, k);
    if r == 0 { return x, w; }
    var others := Foreign(left, m.src);
    var c0 :| c0 in (if others != {} then others else left);
    var c := FirstLeft(cfg, x, m, k, c0);
    var x1 := SpendOne(cfg, x, m, k, w, c);
    y, v := SpendMany(cfg, x1, m, k, w + (if c.src != m.src then 2 else 1), r - 1);
    if others != {} { assert Foreign(left - {c}, m.src) == others - {c} && c in others; }
    else { assert Foreign(left - {c}, m.src) == {} && c !in others; }
  }

  /** The records left over wait in the batch. */
  lemma {:induction false} FillBatch(cfg: Config, x: Exec, m: Msg, k: Id, w: nat) returns (y: Exec)
    requires Confined(cfg) && cfg.attempts > 0 && Reachable(cfg, x, false) && Heading(x, cfg, m, k, w) && !x.cancelled
    requires |Buffer(x, k)| + |Left(x, cfg, m, k)| < BatchSize(cfg) && Routed(x, m.src) <= m.i
    ensures Reachable(cfg, y, false) && Heading(y, cfg, m, k, w) && Left(y, cfg, m, k) == {} && !y.cancelled
    ensures |Buffer(y, k)| == |Buffer(x, k)| + |Left(x, cfg, m, k)| && Routed(y, m.src) <= m.i
    decreases |Left(x, cfg, m, k)|
  {
    hide Confined, Reachable, Heading, Left, NoneFor;
    var left := Left(x, cfg, m, k);
    if left == {} { return x; }
    var c0 :| c0 in left;
    var c := FirstLeft(cfg, x, m, k, c0);
    LeftBefore(cfg, x, m, k, c);
    var x1 := ReachHeading(cfg, x, m, k, w, c);
    LeftLess(cfg, x, x1, m, k, c);
    y := FillBatch(cfg, x1, m, k, w);
  }

  // ---------------------------------------------------------------- giving up

  lemma {:induction false} Listed(ids: set<Id>) returns (order: seq<Id>)
    ensures Distinct(order) && (set s | s in order) == ids
  {
    if ids == {} {
      order := [];
    } else {
      var s :| s in ids;
      var rest := Listed(ids - {s});
      DistinctCons(s, rest);
      order := [s] + rest;
      assert (set t | t in order) == (set t | t in rest) + {s};
    }
  }

  /** Cancelled with the breaker just opened: the full batch is gone. */
  lemma ReachGivenUp(cfg: Config, x: Exec, m: Msg, k: Id, w: nat) returns (y: Exec)
    requires Reachable(cfg, x, false) && Heading(x, cfg, m, k, w) && w >= 5 && |Buffer(x, k)| >= BatchSize(cfg)
    ensures Reachable(cfg, y, false) && Heading(y, cfg, m, k, w) && Buffer(y, k) == [] && y.cancelled
    ensures y.routed == x.routed
  {
    hide Reachable, Write;
    var order := Listed(Contributors(Buffer(x, k)));
    var a := Answers(x.clock, 0, true, {}, true, true, order, map[], map[]);
    ReachStep(cfg, x, false, Cancel);
    var x1 := x.(cancelled := true);
    assert forall j :: BreakerOf(x1, j) == BreakerOf(x, j) && Buffer(x1, j) == Buffer(x, j);
    assert GivesUp(x1, k, a);
    ReachStep(cfg, x1, false, Full(k, a));
    y := Step(x1, cfg, Full(k, a));
    assert forall j :: BreakerOf(y, j) == BreakerOf(x, j) && (j != k ==> Buffer(y, j) == Buffer(x, j));
    SameBreakers(x, y);
  }

  /** Five failures, a batch filled up to m, the run cancelled: m is gone. */
  lemma ReachLost(cfg: Config, m: Msg, n: Msg, k: Id) returns (x: Exec)
    requires Confined(cfg) && cfg.attempts > 0 && Separable(cfg, m, n, k)
    ensures Reachable(cfg, x, false) && Working(x) && x.cancelled && m.src !in x.blocked && x.routed.Keys == cfg.routes.Keys
    ensures !Resolved(x.log, m, k) && Routed(x, m.src) == m.i + 1 && forall j :: Buffer(x, j) == []
  {
    hide Confined, Reachable, Left, Ahead, Working, NoneFor;
    var x0 := ReachStarted(cfg, false);
    StartHeading(x0, cfg, m, k);
    var y, v := SpendMany(cfg, x0, m, k, 0, Spare(cfg, m, k));
    var z := FillBatch(cfg, y, m, k, v);
    NothingLeft(cfg, z, m, k);
    var z1 := ReachHeading(cfg, z, m, k, v, m);
    x := ReachGivenUp(cfg, z1, m, k, v);
  }

  lemma StartHeading(x: Exec, cfg: Config, m: Msg, k: Id)
    requires Begun(x, cfg) && x.log == []
    ensures Heading(x, cfg, m, k, 0) && Buffer(x, k) == [] && Left(x, cfg, m, k) == Ahead(cfg, m, k) && Routed(x, m.src) == 0
    ensures Foreign(Left(x, cfg, m, k), m.src) == Foreign(Copies(cfg, k), m.src)
  {
    hide Copies;
    assert forall s :: Routed(x, s) == 0;
  }

  /** With nothing left, no record for the sink comes before m, which nobody has taken yet. */
  lemma NothingLeft(cfg: Config, x: Exec, m: Msg, k: Id)
    requires Left(x, cfg, m, k) == {} && Routed(x, m.src) <= m.i
    ensures NoneFor(cfg, m.src, Routed(x, m.src), m.i, k)
  {
    forall i: nat | Routed(x, m.src) <= i < m.i ensures k !in Targets(cfg, Msg(m.src, i)) {
      var c := Msg(m.src, i);
      if k in Targets(cfg, c) { IsLeft(cfg, x, m, k, c); }
    }
  }

  lemma IsLeft(cfg: Config, x: Exec, m: Msg, k: Id, c: Msg)
    requires k in Targets(cfg, c) && Routed(x, c.src) <= c.i && c.src == m.src && c.i < m.i
    ensures c in Left(x, cfg, m, k)
  {
    CopiesAre(cfg, k, c);
  }

  /** Every run is safe. */
  ghost predicate AlwaysSafe(cfg: Config) { forall es :: IsRun(cfg, es) ==> Safe(cfg, After(cfg, es).log) }

  lemma Refutes(cfg: Config, es: seq<Event>)
    requires IsRun(cfg, es) && !Safe(cfg, After(cfg, es).log)
    ensures !AlwaysSafe(cfg)
  {
    hide Safe;
    assert IsRun(cfg, es);
  }

  /** The next record of the source is saved, past the one given up. */
  lemma ExposedLoses(cfg: Config, m: Msg, n: Msg, k: Id)
    requires Confined(cfg) && cfg.attempts > 0 && Separable(cfg, m, n, k)
    ensures !AlwaysSafe(cfg)
  {
    hide Reachable, Safe, IsRun, After, AlwaysSafe, Position, Confined, Working, Append, Noted;
    var x := ReachLost(cfg, m, n, k);
    var f := NextTargeted(cfg, n, m.i + 1);
    AllIdle(x, cfg);
    ReachSkip(cfg, x, false, f.src, f.i);
    var y := Moved(x, f.src, f.i);
    assert forall j :: Buffer(y, j) == Buffer(x, j) == [];
    SameBreakers(x, y);
    AllIdle(y, cfg);
    ReachTake(cfg, y, false, f);
    var z := Taken(y, cfg, f);
    var j :| j in Targets(cfg, f);
    SameBreakers(x, z);
    if BatchSize(cfg) > 1 { SmallIdle(z, cfg); }
    NotedResolves(cfg, y.log, f, Targets(cfg, f), m, k);
    PositionAbove(z, cfg, f, map[]);
    ReachUnsafe(cfg, z, false, j, f, map[], m, k);
    var es :| IsRun(cfg, es) && !Safe(cfg, After(cfg, es).log);
    Refutes(cfg, es);
  }

  lemma UnsoundLoses(cfg: Config)
    requires !Sound(cfg)
    ensures !AlwaysSafe(cfg)
  {
    UnsoundBreaks(cfg);
    hide Safe, AlwaysSafe, Sound;
    var es :| IsRun(cfg, es) && NeverLoses(cfg, es) && !Safe(cfg, After(cfg, es).log);
    Refutes(cfg, es);
  }

  lemma UnexposedSafe(cfg: Config, es: seq<Event>)
    requires Sound(cfg) && !Exposed(cfg) && IsRun(cfg, es)
    ensures Safe(cfg, After(cfg, es).log)
  {
    hide Exposed, IsRun, After, Safe, NotAhead, Confined, Mindful, Idling, AllHeld, Tidy, Grouped, Rooted, Accounted, OnTime;
    if Idling(cfg) { IdlingSafe(cfg, After(cfg, es).log); } else { RunKeepsAll(cfg, es); }
  }

  /** All runs are safe, those that give up a batch included, exactly when the settings are sound and no record can be
      given up while a later one of its source is still to be saved. */
  lemma AlwaysSafeIff(cfg: Config)
    ensures AlwaysSafe(cfg) <==> Sound(cfg) && !Exposed(cfg)
  {
    hide Safe, IsRun, After, Sound, Separable;
    if !Sound(cfg) {
      UnsoundLoses(cfg);
    } else if Exposed(cfg) {
      var m, n, k :| Separable(cfg, m, n, k);
      SeparableTried(cfg, m, n, k);
      ExposedLoses(cfg, m, n, k);
    } else {
      forall es | IsRun(cfg, es) ensures Safe(cfg, After(cfg, es).log) { UnexposedSafe(cfg, es); }
    }
  }

  lemma SeparableTried(cfg: Config, m: Msg, n: Msg, k: Id)
    requires Sound(cfg) && Separable(cfg, m, n, k)
    ensures cfg.attempts > 0 && Confined(cfg)
  {
    assert !Idling(cfg) by { assert Targets(cfg, m) != {}; }
  }
}
