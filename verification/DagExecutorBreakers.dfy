/**
 The breakers of the DAG executor. A failure needs a record: each record written to a sink accounts for at most one
 failure of a source that goes on saving checkpoints, and for at most two failures of any other source, the write and
 the dead-letter write. And a round of timed writes lasts no longer than a breaker stays open, so it gives up nothing.
 */
module DagExecutorBreakers {
  import opened CircuitBreaker
  import opened Prelude
  import opened DagExecutor
  import opened DagExecutorSafety

  // ---------------------------------------------------------------- failures of one write

  /** At most n failures of sink k were counted, all at the time the clock shows. */
  ghost predicate Heats(x: Exec, y: Exec, k: Id, n: nat) {
    var b, c := BreakerOf(x, k), BreakerOf(y, k);
    && y.clock == x.clock && y.routed == x.routed && y.buffers == x.buffers
    && (forall j :: j != k ==> BreakerOf(y, j) == BreakerOf(x, j))
    && |c.failures| <= |b.failures| + n
    && (c.mode != Closed ==> b.mode != Closed || |b.failures| + n >= 5)
    && (b.trippedAt <= x.clock ==> c.trippedAt <= y.clock)
  }

  lemma {:induction false} RecentShrinks(failures: seq<nat>, now: nat)
    ensures |Recent(failures, DEFAULTS, now)| <= |failures|
  {
    if failures != [] { RecentShrinks(failures[1..], now); }
  }

  lemma FailHeats(x: Exec, k: Id)
    ensures Heats(x, Fail(x, k), k, 1)
  {
    RecentShrinks(BreakerOf(x, k).failures, x.clock);
  }

  lemma HeatsAdd(x: Exec, y: Exec, z: Exec, k: Id, n: nat, m: nat)
    requires Heats(x, y, k, n) && Heats(y, z, k, m)
    ensures Heats(x, z, k, n + m)
  {}

  lemma HeatsMore(x: Exec, y: Exec, k: Id, n: nat, m: nat)
    requires Heats(x, y, k, n) && n <= m
    ensures Heats(x, y, k, m)
  {}

  /** How many records of the batch fail to reach the dead-letter queue. */
  function CountIn(batch: seq<Msg>, down: set<Msg>): (n: nat)
    ensures n <= |batch|
  {
    if batch == [] then 0 else (if batch[0] in down then 1 else 0) + CountIn(batch[1..], down)
  }

  lemma {:induction false} CountNone(batch: seq<Msg>, down: set<Msg>)
    requires forall m :: m in batch ==> m !in down
    ensures CountIn(batch, down) == 0
  {
    if batch != [] { CountNone(batch[1..], down); }
  }

  lemma {:induction false} FailEachHeats(x: Exec, k: Id, batch: seq<Msg>, down: set<Msg>)
    ensures Heats(x, FailEach(x, k, batch, down), k, CountIn(batch, down))
    decreases |batch|
  {
    hide Heats;
    if batch == [] {
      StillHeats(x, x, k);
    } else if batch[0] in down {
      FailHeats(x, k);
      FailEachHeats(Fail(x, k), k, batch[1..], down);
      HeatsAdd(x, Fail(x, k), FailEach(x, k, batch, down), k, 1, CountIn(batch[1..], down));
    } else {
      FailEachHeats(x, k, batch[1..], down);
    }
  }

  lemma StillHeats(x: Exec, y: Exec, k: Id)
    requires y.clock == x.clock && y.routed == x.routed && y.buffers == x.buffers && y.breakers == x.breakers
    ensures Heats(x, y, k, 0)
  {}

  lemma {:induction false} SaveSourcesHeats(x: Exec, cfg: Config, k: Id, a: Answers, batch: seq<Msg>, order: seq<Id>)
    ensures Heats(x, SaveSources(x, cfg, k, a, batch, order), k, |order|)
    decreases |order|
  {
    hide Heats, Fail;
    if order == [] {
      StillHeats(x, x, k);
    } else {
      var s, last, rest, y := order[0], LastOf(batch, order[0]), order[1..], SaveSources(x, cfg, k, a, batch, order);
      FailHeats(x, k);
      if last.None? {
        SaveSourcesHeats(x, cfg, k, a, batch, rest);
        HeatsMore(x, y, k, |rest|, |order|);
      } else if s in x.blocked {
        SaveSourcesHeats(Fail(x, k), cfg, k, a, batch, rest);
        HeatsAdd(x, Fail(x, k), y, k, 1, |rest|);
      } else {
        var saved := x.(log := x.log + [Saved(s, Position(x, cfg, a, s, last.value))]);
        StillHeats(x, saved, k);
        FailHeats(saved, k);
        HeatsAdd(x, saved, Fail(saved, k), k, 0, 1);
        SaveSourcesHeats(saved, cfg, k, a, batch, rest);
        HeatsAdd(x, saved, SaveSources(saved, cfg, k, a, batch, rest), k, 0, |rest|);
        SaveEnds(x, saved, cfg, k, a, batch, order);
      }
    }
  }

  lemma HeatsFrame(x: Exec, y: Exec, z: Exec, k: Id, n: nat)
    requires Heats(x, y, k, n) && z.clock == y.clock && z.routed == y.routed && z.buffers == y.buffers && z.breakers == y.breakers
    ensures Heats(x, z, k, n)
  {
    forall j ensures BreakerOf(z, j) == BreakerOf(y, j) {}
  }

  /** The ways the loop over the sources ends or goes on once a source may save. */
  lemma SaveEnds(x: Exec, saved: Exec, cfg: Config, k: Id, a: Answers, batch: seq<Msg>, order: seq<Id>)
    requires order != [] && LastOf(batch, order[0]).Some? && order[0] !in x.blocked
    requires saved == x.(log := x.log + [Saved(order[0], Position(x, cfg, a, order[0], LastOf(batch, order[0]).value))])
    requires Heats(x, Fail(x, k), k, 1) && Heats(x, Fail(saved, k), k, 1)
    requires Heats(x, SaveSources(saved, cfg, k, a, batch, order[1..]), k, |order| - 1)
    ensures Heats(x, SaveSources(x, cfg, k, a, batch, order), k, |order|)
  {
    hide Fail, Heats;
    var s, y := order[0], SaveSources(x, cfg, k, a, batch, order);
    HeatsMore(x, Fail(x, k), k, 1, |order|);
    HeatsMore(x, Fail(saved, k), k, 1, |order|);
    HeatsMore(x, SaveSources(saved, cfg, k, a, batch, order[1..]), k, |order| - 1, |order|);
    var answer := if s in a.saves then a.saves[s] else Saves;
    if answer == NoPosition || answer == StoreFails {
      HeatsFrame(x, Fail(x, k), y, k, |order|);
    } else if answer == AckFails {
      HeatsFrame(x, Fail(saved, k), y, k, |order|);
    }
  }

  /** How many failures a write of the batch may count against its sink. */
  function Failures(cfg: Config, a: Answers, batch: seq<Msg>): nat {
    if cfg.attempts > 0 && !a.accepts then 1 + CountIn(batch, a.dlqDown) else |batch|
  }

  lemma RefusedHeats(x: Exec, k: Id, a: Answers, batch: seq<Msg>)
    ensures Heats(x, Refused(x, k, a, batch), k, 1 + CountIn(batch, a.dlqDown))
  {
    hide Heats, Fail, FailEach;
    var x0 := x.(log := x.log + DeadEntries(batch, k, a.dlqDown));
    var x1 := Fail(x0, k);
    var x2, y := FailEach(x1, k, batch, a.dlqDown), Refused(x, k, a, batch);
    StillHeats(x, x0, k);
    FailHeats(x0, k);
    HeatsAdd(x, x0, x1, k, 0, 1);
    FailEachHeats(x1, k, batch, a.dlqDown);
    HeatsAdd(x, x1, x2, k, 1, CountIn(batch, a.dlqDown));
    StillHeats(x2, y, k);
    HeatsAdd(x, x2, y, k, 1 + CountIn(batch, a.dlqDown), 0);
  }

  lemma {:induction false} ContributorsBound(batch: seq<Msg>)
    ensures |Contributors(batch)| <= |batch|
  {
    if batch != [] {
      var t := batch[..|batch| - 1];
      ContributorsBound(t);
      assert Contributors(batch) == Contributors(t) + {batch[|batch| - 1].src};
    } else {
      assert Contributors(batch) == {};
    }
  }

  lemma ListsBound(order: seq<Id>, batch: seq<Msg>)
    requires Lists(order, batch)
    ensures |order| <= |batch|
  {
    DistinctCardinality(order);
    ContributorsBound(batch);
  }

  /** A success forgets all failures; what is counted after it is at most one per contributing source. */
  lemma AcceptedHeats(x: Exec, cfg: Config, k: Id, a: Answers, batch: seq<Msg>)
    requires batch != [] && Lists(a.order, batch)
    ensures Heats(x, Accepted(x, cfg, k, a, batch), k, |batch|)
  {
    hide Fail, SaveSources;
    var x1 := Landed(x, cfg, k, batch);
    assert Heats(x, x1, k, 0);
    FailHeats(x1, k);
    ListsBound(a.order, batch);
    SaveSourcesHeats(x1, cfg, k, a, batch, a.order);
    if a.versions && a.metadata {
      HeatsAdd(x, x1, SaveSources(x1, cfg, k, a, batch, a.order), k, 0, |a.order|);
    } else {
      HeatsAdd(x, x1, Fail(x1, k), k, 0, 1);
    }
  }

  /** One write, from the moment the breaker is asked. */
  lemma FlushHeats(x: Exec, cfg: Config, k: Id, a: Answers)
    requires Buffer(x, k) != [] && !GivesUp(x, k, a) && Lists(a.order, Buffer(x, k))
    ensures Heats(Asked(x, k, a), Flush(x, cfg, k, a), k, Failures(cfg, a, Buffer(x, k)))
  {
    hide Heats, Refused, Accepted, Asked;
    RefusedHeats(Asked(x, k, a), k, a, Buffer(x, k));
    AcceptedHeats(Asked(x, k, a), cfg, k, a, Buffer(x, k));
  }

  // ---------------------------------------------------------------- rounds

  /** No breaker tripped in the future, and none whose batch is still to be written since the round began. */
  ghost predicate OnTime(x: Exec) {
    && (forall k :: BreakerOf(x, k).trippedAt <= x.clock)
    && (x.flushing.Some? ==> x.flushing.value <= x.clock
                             && forall k :: Buffer(x, k) != [] ==> BreakerOf(x, k).trippedAt <= x.flushing.value)
  }

  lemma FlushOnTime(x: Exec, cfg: Config, k: Id, a: Answers)
    requires OnTime(x) && x.clock <= a.now && Lists(a.order, Buffer(x, k))
    ensures OnTime(Flush(x, cfg, k, a))
  {
    hide Write, GivesUp;
    var y := Flush(x, cfg, k, a);
    if Buffer(x, k) != [] && !GivesUp(x, k, a) {
      var x0 := Asked(x, k, a);
      FlushHeats(x, cfg, k, a);
      FlushKeepsRound(x, cfg, k, a);
      forall j ensures BreakerOf(y, j).trippedAt <= y.clock {
        assert BreakerOf(x, j).trippedAt <= x.clock;
        if j != k { assert BreakerOf(y, j) == BreakerOf(x0, j) == BreakerOf(x, j); }
      }
      forall j | y.flushing.Some? && Buffer(y, j) != [] ensures BreakerOf(y, j).trippedAt <= y.flushing.value {
        assert j != k && BreakerOf(y, j) == BreakerOf(x0, j) == BreakerOf(x, j) && Buffer(x, j) != [];
      }
    } else {
      forall j ensures BreakerOf(y, j) == BreakerOf(x, j) {}
    }
  }

  lemma FlushKeepsRound(x: Exec, cfg: Config, k: Id, a: Answers)
    requires Buffer(x, k) != [] && !GivesUp(x, k, a)
    ensures Flush(x, cfg, k, a).flushing == x.flushing
  {
    var x0 := Asked(x, k, a);
    if cfg.attempts > 0 {
      WriteHolds(x0, cfg, k, a, Buffer(x, k));
    } else {
      SaveSourcesGrows(Landed(x0, cfg, k, Buffer(x, k)), cfg, k, a, Buffer(x, k), a.order);
    }
  }

  lemma {:induction false} StepOnTime(x: Exec, cfg: Config, e: Event)
    requires OnTime(x) && Enabled(x, cfg, e)
    ensures OnTime(Step(x, cfg, e))
  {
    hide Flush, Append, NoneFull;
    match e
    case Full(k, a) => FlushOnTime(x, cfg, k, a);
    case Timed(k, a) => FlushOnTime(x, cfg, k, a);
    case Round(now) =>
      var y := Step(x, cfg, e);
      forall k ensures BreakerOf(y, k).trippedAt <= now { assert BreakerOf(y, k) == BreakerOf(x, k); }
    case _ =>
      var y := Step(x, cfg, e);
      forall k ensures BreakerOf(y, k) == BreakerOf(x, k) || BreakerOf(y, k) == FRESH_BREAKER {}
  }

  lemma {:induction false} RunOnTime(cfg: Config, es: seq<Event>)
    requires IsRun(cfg, es)
    ensures OnTime(After(cfg, es))
  {
    if es != [] {
      hide Step, Enabled;
      RunOnTime(cfg, es[..|es| - 1]);
      StepOnTime(After(cfg, es[..|es| - 1]), cfg, es[|es| - 1]);
    }
  }

  /** No turn of a round gives up its batch, in any run. */
  lemma RoundsGiveUpNothing(cfg: Config, es: seq<Event>, k: Id, a: Answers)
    requires IsRun(cfg, es) && Enabled(After(cfg, es), cfg, Timed(k, a))
    ensures !GivesUp(After(cfg, es), k, a)
  {
    RunOnTime(cfg, es);
  }

  // ---------------------------------------------------------------- records and failures

  /** The records bound for a sink. */
  function Copies(cfg: Config, k: Id): set<Msg> {
    set s, i | s in cfg.routes && 0 <= i < |cfg.routes[s]| && k in cfg.routes[s][i] :: Msg(s, i)
  }

  lemma CopiesAre(cfg: Config, k: Id, m: Msg)
    ensures m in Copies(cfg, k) <==> k in Targets(cfg, m)
  {}

  /** Routed, and no longer in the batch, nor behind a record of its source that is. */
  ghost predicate Past(x: Exec, k: Id, c: Msg) {
    c.i < Routed(x, c.src) && forall n :: n in Buffer(x, k) && n.src == c.src ==> c.i < n.i
  }

  ghost function Spent(x: Exec, cfg: Config, k: Id): set<Msg> { set c | c in Copies(cfg, k) && Past(x, k, c) }

  ghost function Foreign(ms: set<Msg>, s: Id): set<Msg> { set c | c in ms && c.src != s }

  /** How many failures the records already written to the sink account for, if source s may still save. */
  ghost function Weight(ms: set<Msg>, s: Id): nat { |ms| + |Foreign(ms, s)| }

  lemma WeightGrows(a: set<Msg>, b: set<Msg>, s: Id)
    requires a <= b
    ensures Weight(a, s) <= Weight(b, s)
  {
    SubsetCardinality(a, b);
    SubsetCardinality(Foreign(a, s), Foreign(b, s));
  }

  lemma WeightAdds(a: set<Msg>, b: set<Msg>, s: Id)
    requires a !! b
    ensures Weight(a + b, s) == Weight(a, s) + Weight(b, s)
  {
    assert Foreign(a + b, s) == Foreign(a, s) + Foreign(b, s);
  }

  /** Each failure is accounted for by records already written, and an open breaker by five failures. */
  ghost predicate Accounted(x: Exec, cfg: Config) {
    forall k, s :: s !in x.blocked ==> AccountedFor(BreakerOf(x, k), Weight(Spent(x, cfg, k), s))
  }

  predicate AccountedFor(b: Breaker, w: nat) { |b.failures| <= w && (b.mode != Closed ==> 5 <= w) }

  /** The batch as a set, and what it weighs. */
  lemma BatchWeight(x: Exec, cfg: Config, k: Id, s: Id)
    requires Tidy(x, cfg)
    ensures var ms := set m | m in Buffer(x, k);
            && |ms| == |Buffer(x, k)| && ms !! Spent(x, cfg, k)
            && Spent(x, cfg, k) + ms <= Spent(x.(buffers := x.buffers[k := []]), cfg, k)
            && (s !in Contributors(Buffer(x, k)) ==> Weight(ms, s) == 2 * |ms|)
  {
    var batch, ms := Buffer(x, k), set m | m in Buffer(x, k);
    TidyDistinct(x, cfg, k);
    DistinctCardinality(batch);
    hide Copies, Weight;
    BatchSpent(x, cfg, k);
    if s !in Contributors(batch) { AllForeign(batch, ms, s); }
  }

  lemma TidyDistinct(x: Exec, cfg: Config, k: Id)
    requires Tidy(x, cfg)
    ensures Distinct(Buffer(x, k)) && forall m :: m in Buffer(x, k) ==> m.i < Routed(x, m.src) && m in Copies(cfg, k)
  {
    assert TidyBatch(x, cfg, k, Buffer(x, k));
    forall m | m in Buffer(x, k) ensures m.i < Routed(x, m.src) && m in Copies(cfg, k) { CopiesAre(cfg, k, m); }
  }

  lemma BatchSpent(x: Exec, cfg: Config, k: Id)
    requires forall m :: m in Buffer(x, k) ==> m.i < Routed(x, m.src) && m in Copies(cfg, k)
    ensures var ms := set m | m in Buffer(x, k);
            ms !! Spent(x, cfg, k) && Spent(x, cfg, k) + ms <= Spent(x.(buffers := x.buffers[k := []]), cfg, k)
  {
    hide Copies;
    var y := x.(buffers := x.buffers[k := []]);
    assert Buffer(y, k) == [] && forall s :: Routed(y, s) == Routed(x, s);
  }

  lemma AllForeign(batch: seq<Msg>, ms: set<Msg>, s: Id)
    requires ms == (set m | m in batch) && s !in Contributors(batch)
    ensures Weight(ms, s) == 2 * |ms|
  {
    forall m | m in ms ensures m.src != s { assert m.src in Contributors(batch); }
    assert Foreign(ms, s) == ms;
  }

  lemma FailuresBound(cfg: Config, a: Answers, batch: seq<Msg>, ms: set<Msg>, s: Id)
    requires batch != [] && ms == (set m | m in batch) && |ms| == |batch|
    requires s !in Contributors(batch) ==> Weight(ms, s) == 2 * |ms|
    requires (exists m :: m in batch && m in a.dlqDown) && !a.accepts && cfg.attempts > 0 ==> s !in Contributors(batch)
    ensures Failures(cfg, a, batch) <= Weight(ms, s)
  {
    if !(exists m :: m in batch && m in a.dlqDown) { CountNone(batch, a.dlqDown); }
  }

  lemma SpentSame(x: Exec, y: Exec, cfg: Config, k: Id)
    requires y.routed == x.routed && Buffer(y, k) == Buffer(x, k)
    ensures Spent(y, cfg, k) == Spent(x, cfg, k)
  {
    hide Copies;
    forall c: Msg ensures Past(y, k, c) <==> Past(x, k, c) { assert Routed(y, c.src) == Routed(x, c.src); }
  }

  /** A sink whose breaker and batch are untouched stays accounted for. */
  lemma ElsewhereAccounted(x: Exec, y: Exec, cfg: Config, k: Id, s: Id)
    requires Accounted(x, cfg) && x.blocked <= y.blocked && s !in y.blocked
    requires BreakerOf(y, k) == BreakerOf(x, k) && Spent(x, cfg, k) <= Spent(y, cfg, k)
    ensures AccountedFor(BreakerOf(y, k), Weight(Spent(y, cfg, k), s))
  {
    hide Spent, Weight, BreakerOf;
    assert AccountedFor(BreakerOf(x, k), Weight(Spent(x, cfg, k), s));
    WeightGrows(Spent(x, cfg, k), Spent(y, cfg, k), s);
  }

  lemma DlqBlocks(x: Exec, cfg: Config, k: Id, a: Answers, batch: seq<Msg>, m: Msg)
    requires cfg.attempts > 0 && !a.accepts && m in batch && m in a.dlqDown
    ensures Contributors(batch) <= Write(x, cfg, k, a, batch).blocked
  {}

  lemma WrittenAccounted(x: Exec, cfg: Config, k: Id, a: Answers, s: Id)
    requires Tidy(x, cfg) && Accounted(x, cfg) && Buffer(x, k) != [] && !GivesUp(x, k, a) && Lists(a.order, Buffer(x, k))
    requires x.blocked <= Flush(x, cfg, k, a).blocked && s !in Flush(x, cfg, k, a).blocked
    requires Spent(Flush(x, cfg, k, a), cfg, k) == Spent(x.(buffers := x.buffers[k := []]), cfg, k)
    ensures var y := Flush(x, cfg, k, a); AccountedFor(BreakerOf(y, k), Weight(Spent(y, cfg, k), s))
  {
    hide Spent, Weight, Write, Failures, Tidy, Lists, Over;
    var y, batch, ms := Flush(x, cfg, k, a), Buffer(x, k), set m | m in Buffer(x, k);
    assert AccountedFor(BreakerOf(x, k), Weight(Spent(x, cfg, k), s));
    BatchWeight(x, cfg, k, s);
    if m :| m in batch && m in a.dlqDown && !a.accepts && cfg.attempts > 0 { DlqBlocks(Asked(x, k, a), cfg, k, a, batch, m); }
    FailuresBound(cfg, a, batch, ms, s);
    FlushHeats(x, cfg, k, a);
    WeightAdds(Spent(x, cfg, k), ms, s);
    WeightGrows(Spent(x, cfg, k) + ms, Spent(y, cfg, k), s);
  }

  lemma FlushFrame(x: Exec, cfg: Config, k: Id, a: Answers)
    requires Lists(a.order, Buffer(x, k))
    ensures var y := Flush(x, cfg, k, a);
            && y.routed == x.routed && x.blocked <= y.blocked && Buffer(y, k) == []
            && (forall j :: j != k ==> Buffer(y, j) == Buffer(x, j) && BreakerOf(y, j) == BreakerOf(x, j))
  {
    hide Write, GivesUp, Lists;
    var y, x0 := Flush(x, cfg, k, a), Asked(x, k, a);
    if Buffer(x, k) != [] && !GivesUp(x, k, a) {
      FlushHeats(x, cfg, k, a);
      WriteBlocks(x0, cfg, k, a, Buffer(x, k));
    }
  }

  lemma WriteBlocks(x: Exec, cfg: Config, k: Id, a: Answers, batch: seq<Msg>)
    ensures x.blocked <= Write(x, cfg, k, a, batch).blocked
  {
    RefusedHolds(x, k, a, batch);
    SaveSourcesGrows(Landed(x, cfg, k, batch), cfg, k, a, batch, a.order);
  }

  lemma FlushAccounted(x: Exec, cfg: Config, k: Id, a: Answers)
    requires Tidy(x, cfg) && Accounted(x, cfg) && Lists(a.order, Buffer(x, k))
    ensures Accounted(Flush(x, cfg, k, a), cfg)
  {
    hide Spent, Weight, Write, Tidy, Lists, AccountedFor;
    var y, z := Flush(x, cfg, k, a), x.(buffers := x.buffers[k := []]);
    FlushFrame(x, cfg, k, a);
    SpentSame(z, y, cfg, k);
    BatchWeight(x, cfg, k, "");
    forall j, s | s !in y.blocked ensures AccountedFor(BreakerOf(y, j), Weight(Spent(y, cfg, j), s)) {
      if j != k {
        SpentSame(x, y, cfg, j);
        ElsewhereAccounted(x, y, cfg, j, s);
      } else if Buffer(x, k) != [] && !GivesUp(x, k, a) {
        WrittenAccounted(x, cfg, k, a, s);
      } else {
        ElsewhereAccounted(x, y, cfg, j, s);
      }
    }
  }

  lemma RouteSpends(x: Exec, cfg: Config, s: Id, lost: set<Id>, gone: set<Id>, durable: bool, entries: seq<Entry>, k: Id)
    ensures Spent(x, cfg, k) <= Spent(Route(x, cfg, s, lost, gone, durable, entries), cfg, k)
  {
    hide Copies, Append, Route;
    var y, m := Route(x, cfg, s, lost, gone, durable, entries), Msg(s, Routed(x, s));
    RouteBuffers(x, cfg, s, lost, gone, durable, entries);
    forall c | c in Spent(x, cfg, k) ensures Past(y, k, c) {
      forall n | n in Buffer(y, k) && n.src == c.src ensures c.i < n.i { InBuffer(x, y, cfg, m, lost + gone, k, n); }
    }
  }

  lemma {:induction false} StepAccounted(x: Exec, cfg: Config, e: Event)
    requires Tidy(x, cfg) && Accounted(x, cfg) && Enabled(x, cfg, e)
    ensures Accounted(Step(x, cfg, e), cfg)
  {
    hide Flush, Route, Spent, Weight, Tidy, Idle, AccountedFor;
    var y := Step(x, cfg, e);
    match e
    case Full(k, a) => FlushAccounted(x, cfg, k, a);
    case Timed(k, a) => FlushAccounted(x, cfg, k, a);
    case Take(s, lost, gone, durable, entries) =>
      forall k, t | t !in y.blocked ensures AccountedFor(BreakerOf(y, k), Weight(Spent(y, cfg, k), t)) {
        RouteBuffers(x, cfg, s, lost, gone, durable, entries);
        RouteSpends(x, cfg, s, lost, gone, durable, entries, k);
        ElsewhereAccounted(x, y, cfg, k, t);
      }
    case _ =>
      forall k, t | t !in y.blocked ensures AccountedFor(BreakerOf(y, k), Weight(Spent(y, cfg, k), t)) {
        if e.Start? || e.End? || e.Crash? {
          FreshAccounted(y, k, Weight(Spent(y, cfg, k), t));
        } else {
          SpentSame(x, y, cfg, k);
          ElsewhereAccounted(x, y, cfg, k, t);
        }
      }
  }

  lemma FreshAccounted(y: Exec, k: Id, w: nat)
    requires y.breakers == map[]
    ensures AccountedFor(BreakerOf(y, k), w)
  {}
}
