/**
 What a write of a sink's batch leaves behind, source by source: which checkpoints it saves and which it refuses from
 then on.
 */
module DagExecutorProgress {
  import opened CircuitBreaker
  import opened Prelude
  import opened DagExecutor
  import opened DagExecutorSafety

  /** batch[j] is the last record of source s in the batch. */
  predicate IsLast(batch: seq<Msg>, s: Id, j: nat) {
    j < |batch| && batch[j].src == s && forall l :: j < l < |batch| ==> batch[l].src != s
  }

  function AnswerFor(a: Answers, s: Id): SaveAnswer { if s in a.saves then a.saves[s] else Saves }

  /** Every source before the n-th was blocked already or could be saved, so that the loop comes to the n-th. */
  predicate ComesTo(order: seq<Id>, blocked: set<Id>, a: Answers, n: nat) {
    forall m :: 0 <= m < n < |order| ==> order[m] in blocked || AnswerFor(a, order[m]) == Saves
  }

  lemma {:induction false} LastFound(batch: seq<Msg>, s: Id, j: nat)
    requires IsLast(batch, s, j)
    ensures LastOf(batch, s) == Some(batch[j].i)
  {
    if j < |batch| - 1 { LastFound(batch[..|batch| - 1], s, j); }
  }

  lemma DurableOther(log: seq<Entry>, e: Entry, s: Id)
    requires e.Saved? ==> e.src != s
    ensures Durable(log + [e], s) == Durable(log, s)
  {
    assert (log + [e])[..|log|] == log;
  }

  lemma DurableSaved(log: seq<Entry>, s: Id, p: nat)
    ensures Durable(log + [Saved(s, p)], s) == p
  {}

  /** The checkpoint and the block of one source. */
  predicate SameFor(x: Exec, y: Exec, s: Id) {
    Durable(y.log, s) == Durable(x.log, s) && (s in y.blocked <==> s in x.blocked)
  }

  /** A source the loop does not come to. */
  lemma {:induction false} NotListed(x: Exec, cfg: Config, k: Id, a: Answers, batch: seq<Msg>, order: seq<Id>, s: Id)
    requires s !in order
    ensures SameFor(x, SaveSources(x, cfg, k, a, batch, order), s)
    decreases |order|
  {
    hide RecordFailure, Durable;
    if order != [] {
      var t, last := order[0], LastOf(batch, order[0]);
      if last.None? {
        NotListed(x, cfg, k, a, batch, order[1..], s);
      } else if t in x.blocked {
        NotListed(Fail(x, k), cfg, k, a, batch, order[1..], s);
      } else {
        var e := Saved(t, Position(x, cfg, a, t, last.value));
        DurableOther(x.log, e, s);
        NotListed(x.(log := x.log + [e]), cfg, k, a, batch, order[1..], s);
      }
    }
  }

  /** What the loop makes of one source: nothing if it does not come to it or finds it blocked; else its answer decides. */
  predicate Outcome(x: Exec, y: Exec, cfg: Config, a: Answers, s: Id, last: nat, comes: bool) {
    var answer := AnswerFor(a, s);
    if !comes || s in x.blocked || answer == Unbound then SameFor(x, y, s)
    else
      && Durable(y.log, s) == (if answer == Saves || answer == AckFails then Position(x, cfg, a, s, last) else Durable(x.log, s))
      && (s in y.blocked <==> answer != Saves)
  }

  lemma SamePosition(x: Exec, y: Exec, cfg: Config, a: Answers, s: Id, last: nat)
    requires y.routed == x.routed
    ensures Position(y, cfg, a, s, last) == Position(x, cfg, a, s, last)
  {}

  /** The first source of the loop. */
  lemma FirstSaved(x: Exec, cfg: Config, k: Id, a: Answers, batch: seq<Msg>, order: seq<Id>, last: nat)
    requires order != [] && order[0] !in order[1..] && LastOf(batch, order[0]) == Some(last)
    ensures Outcome(x, SaveSources(x, cfg, k, a, batch, order), cfg, a, order[0], last, true)
  {
    hide RecordFailure, Durable, LastOf, Position;
    var s, rest := order[0], order[1..];
    var e := Saved(s, Position(x, cfg, a, s, last));
    DurableSaved(x.log, s, e.pos);
    NotListed(Fail(x, k), cfg, k, a, batch, rest, s);
    NotListed(x.(log := x.log + [e]), cfg, k, a, batch, rest, s);
  }

  lemma OutcomeOf(x: Exec, x1: Exec, y: Exec, cfg: Config, a: Answers, s: Id, last: nat, comes: bool)
    requires Outcome(x1, y, cfg, a, s, last, comes) && SameFor(x, x1, s) && x1.routed == x.routed
    ensures Outcome(x, y, cfg, a, s, last, comes)
  {
    hide Durable, Position;
    SamePosition(x, x1, cfg, a, s, last);
  }

  lemma {:induction false} SourceSaved(x: Exec, cfg: Config, k: Id, a: Answers, batch: seq<Msg>, order: seq<Id>, n: nat, last: nat)
    requires n < |order| && Distinct(order) && LastOf(batch, order[n]) == Some(last)
    requires forall m :: 0 <= m < |order| ==> LastOf(batch, order[m]).Some?
    ensures Outcome(x, SaveSources(x, cfg, k, a, batch, order), cfg, a, order[n], last, ComesTo(order, x.blocked, a, n))
    decreases |order|
  {
    hide RecordFailure, Durable, LastOf, Position, Outcome, ComesTo;
    var s, t, rest := order[n], order[0], order[1..];
    assert order == [t] + rest;
    DistinctTail(t, rest);
    if n == 0 {
      assert ComesTo(order, x.blocked, a, n) by { ComesToFirst(order, x.blocked, a); }
      FirstSaved(x, cfg, k, a, batch, order, last);
    } else {
      assert rest[n - 1] == s && s != t;
      RestComes(order, x.blocked, a, n);
      LaterSaved(x, cfg, k, a, batch, order, n, last);
    }
  }

  lemma ComesToFirst(order: seq<Id>, blocked: set<Id>, a: Answers)
    ensures ComesTo(order, blocked, a, 0)
  {}

  lemma {:induction false} LaterSaved(x: Exec, cfg: Config, k: Id, a: Answers, batch: seq<Msg>, order: seq<Id>, n: nat, last: nat)
    requires 0 < n < |order| && Distinct(order) && LastOf(batch, order[n]) == Some(last) && order[n] != order[0]
    requires Distinct(order[1..]) && forall m :: 0 <= m < |order| ==> LastOf(batch, order[m]).Some?
    ensures Outcome(x, SaveSources(x, cfg, k, a, batch, order), cfg, a, order[n], last,
                    (order[0] in x.blocked || AnswerFor(a, order[0]) == Saves) && ComesTo(order[1..], x.blocked, a, n - 1))
    decreases |order|, 0
  {
    hide Durable, LastOf, Position, ComesTo, Distinct, SaveSources, Outcome, Fail;
    var s, t, rest := order[n], order[0], order[1..];
    var y := SaveSources(x, cfg, k, a, batch, order);
    assert rest[n - 1] == s && forall m :: 0 <= m < |rest| ==> rest[m] == order[m + 1];
    var e := Saved(t, Position(x, cfg, a, t, LastOf(batch, t).value));
    var saved := x.(log := x.log + [e]);
    DurableOther(x.log, e, s);
    FailSame(x, k, s);
    FirstOfLoop(x, cfg, k, a, batch, order, s);
    if t in x.blocked {
      SourceSaved(Fail(x, k), cfg, k, a, batch, rest, n - 1, last);
      OutcomeOf(x, Fail(x, k), y, cfg, a, s, last, ComesTo(rest, x.blocked, a, n - 1));
    } else if AnswerFor(a, t) == Saves {
      SourceSaved(saved, cfg, k, a, batch, rest, n - 1, last);
      OutcomeOf(x, saved, y, cfg, a, s, last, ComesTo(rest, x.blocked, a, n - 1));
    } else {
      NotReached(x, y, cfg, a, s, last);
    }
  }

  lemma NotReached(x: Exec, y: Exec, cfg: Config, a: Answers, s: Id, last: nat)
    requires SameFor(x, y, s)
    ensures Outcome(x, y, cfg, a, s, last, false)
  {}

  lemma FailSame(x: Exec, k: Id, s: Id)
    ensures SameFor(x, Fail(x, k), s) && Fail(x, k).routed == x.routed && Fail(x, k).blocked == x.blocked
  {
    hide RecordFailure, Durable;
  }

  /** Where the loop goes after its first source, and what that means for another. */
  lemma FirstOfLoop(x: Exec, cfg: Config, k: Id, a: Answers, batch: seq<Msg>, order: seq<Id>, s: Id)
    requires order != [] && LastOf(batch, order[0]).Some? && s != order[0]
    ensures var y, t := SaveSources(x, cfg, k, a, batch, order), order[0];
            var saved := x.(log := x.log + [Saved(t, Position(x, cfg, a, t, LastOf(batch, t).value))]);
            if t in x.blocked then y == SaveSources(Fail(x, k), cfg, k, a, batch, order[1..])
            else if AnswerFor(a, t) == Saves then y == SaveSources(saved, cfg, k, a, batch, order[1..])
            else SameFor(x, y, s)
  {
    hide RecordFailure, Durable, LastOf, Position;
    var t := order[0];
    DurableOther(x.log, Saved(t, Position(x, cfg, a, t, LastOf(batch, t).value)), s);
  }

  lemma RestComes(order: seq<Id>, blocked: set<Id>, a: Answers, n: nat)
    requires 0 < n < |order|
    ensures ComesTo(order, blocked, a, n) <==>
              (order[0] in blocked || AnswerFor(a, order[0]) == Saves) && ComesTo(order[1..], blocked, a, n - 1)
  {
    var rest := order[1..];
    assert forall m :: 0 <= m < |rest| ==> rest[m] == order[m + 1];
    if ComesTo(order, blocked, a, n) {
      forall m | 0 <= m < n - 1 ensures rest[m] in blocked || AnswerFor(a, rest[m]) == Saves { assert rest[m] == order[m + 1]; }
    }
    if (order[0] in blocked || AnswerFor(a, order[0]) == Saves) && ComesTo(rest, blocked, a, n - 1) {
      forall m | 0 <= m < n ensures order[m] in blocked || AnswerFor(a, order[m]) == Saves {
        if m > 0 { assert order[m] == rest[m - 1]; }
      }
    }
  }

  // ---------------------------------------------------------------- one write

  lemma {:induction false} DurableExtend(log: seq<Entry>, more: seq<Entry>, s: Id)
    requires forall n :: 0 <= n < |more| ==> !more[n].Saved?
    ensures Durable(log + more, s) == Durable(log, s)
  {
    if more == [] {
      assert log + more == log;
    } else {
      var front := more[..|more| - 1];
      assert (log + more)[..|log + more| - 1] == log + front;
      assert forall n :: 0 <= n < |front| ==> front[n] == more[n];
      DurableExtend(log, front, s);
    }
  }

  lemma LandedSame(x: Exec, cfg: Config, k: Id, batch: seq<Msg>, s: Id)
    ensures SameFor(x, Landed(x, cfg, k, batch), s)
  {
    hide Durable;
    DurableExtend(x.log, if cfg.attempts > 0 then Deliveries(batch, k) else [], s);
  }

  lemma ListedHasLast(order: seq<Id>, batch: seq<Msg>)
    requires Lists(order, batch)
    ensures forall m :: 0 <= m < |order| ==> LastOf(batch, order[m]).Some?
  {
    hide LastOf;
    forall m | 0 <= m < |order| ensures LastOf(batch, order[m]).Some? {
      assert order[m] in Contributors(batch);
      LastOfIs(batch, order[m]);
    }
  }

  /** The sink takes the batch, or is never asked; versions and metadata can be collected. */
  predicate GoesThrough(cfg: Config, a: Answers) { (cfg.attempts <= 0 || a.accepts) && a.versions && a.metadata }

  /**
   * A write that goes through, for the n-th source of whatever order the executor takes them in: its answer decides,
   * provided each source before it was blocked or could be saved.
   */
  lemma WriteOutcome(x: Exec, cfg: Config, k: Id, a: Answers, batch: seq<Msg>, n: nat, j: nat)
    requires GoesThrough(cfg, a) && Lists(a.order, batch) && n < |a.order| && IsLast(batch, a.order[n], j)
    ensures Outcome(x, Write(x, cfg, k, a, batch), cfg, a, a.order[n], batch[j].i, ComesTo(a.order, x.blocked, a, n))
  {
    hide Durable, LastOf, Position, ComesTo, SaveSources;
    var s, x1 := a.order[n], Landed(x, cfg, k, batch);
    LandedSame(x, cfg, k, batch, s);
    ListedHasLast(a.order, batch);
    LastFound(batch, s, j);
    SourceSaved(x1, cfg, k, a, batch, a.order, n, batch[j].i);
    OutcomeOf(x, x1, Write(x, cfg, k, a, batch), cfg, a, s, batch[j].i, ComesTo(a.order, x.blocked, a, n));
  }

  lemma {:induction false} AllPass(x: Exec, cfg: Config, k: Id, a: Answers, batch: seq<Msg>, order: seq<Id>)
    requires forall m :: 0 <= m < |order| ==> order[m] !in x.blocked && AnswerFor(a, order[m]) == Saves
    ensures var y := SaveSources(x, cfg, k, a, batch, order); y == x.(log := y.log)
    decreases |order|
  {
    if order != [] {
      var s, last := order[0], LastOf(batch, order[0]);
      assert order[0] !in x.blocked && AnswerFor(a, order[0]) == Saves;
      AllPass(x, cfg, k, a, batch, order[1..]);
      if last.Some? {
        AllPass(x.(log := x.log + [Saved(s, Position(x, cfg, a, s, last.value))]), cfg, k, a, batch, order[1..]);
      }
    }
  }

  /** No save goes wrong, and no contributing source is blocked. */
  predicate AllSave(x: Exec, a: Answers, batch: seq<Msg>) {
    forall j :: 0 <= j < |batch| ==> batch[j].src !in x.blocked && AnswerFor(a, batch[j].src) == Saves
  }

  /** A write that goes through with every save: the checkpoint of each contributing source is one past its last record
      in the batch, in whatever order they come, and nothing else is saved or blocked. */
  lemma EverySourceSaved(x: Exec, cfg: Config, k: Id, a: Answers, batch: seq<Msg>, s: Id)
    requires GoesThrough(cfg, a) && Lists(a.order, batch) && AllSave(x, a, batch)
    ensures var y := Write(x, cfg, k, a, batch);
            && (forall j: nat :: IsLast(batch, s, j) && s !in cfg.ahead ==> Durable(y.log, s) == batch[j].i + 1)
            && (s !in Contributors(batch) ==> Durable(y.log, s) == Durable(x.log, s))
            && y.blocked == x.blocked && y.cancelled == x.cancelled
            && (cfg.attempts > 0 ==> forall j :: 0 <= j < |batch| ==> Delivered(batch[j], k) in y.log)
  {
    hide Durable, LastOf, SaveSources, Deliveries, AnswerFor;
    var y, x1 := Write(x, cfg, k, a, batch), Landed(x, cfg, k, batch);
    forall m | 0 <= m < |a.order| ensures a.order[m] !in x.blocked && AnswerFor(a, a.order[m]) == Saves {
      assert a.order[m] in Contributors(batch);
      var j :| 0 <= j < |batch| && batch[j].src == a.order[m];
    }
    AllPass(x1, cfg, k, a, batch, a.order);
    LandedSame(x, cfg, k, batch, s);
    if s !in Contributors(batch) {
      assert s !in a.order;
      NotListed(x1, cfg, k, a, batch, a.order, s);
    }
    forall j: nat | IsLast(batch, s, j) && s !in cfg.ahead ensures Durable(y.log, s) == batch[j].i + 1 {
      assert batch[j] in batch;
      assert s in Contributors(batch);
      assert s in a.order;
      var n :| 0 <= n < |a.order| && a.order[n] == s;
      WriteOutcome(x, cfg, k, a, batch, n, j);
    }
    if cfg.attempts > 0 { AllDelivered(x, cfg, k, a, batch); }
  }

  lemma AllDelivered(x: Exec, cfg: Config, k: Id, a: Answers, batch: seq<Msg>)
    requires GoesThrough(cfg, a) && cfg.attempts > 0
    ensures forall j :: 0 <= j < |batch| ==> Delivered(batch[j], k) in Write(x, cfg, k, a, batch).log
  {
    var x1 := Landed(x, cfg, k, batch);
    SaveSourcesGrows(x1, cfg, k, a, batch, a.order);
    forall j | 0 <= j < |batch| ensures Delivered(batch[j], k) in Write(x, cfg, k, a, batch).log {
      assert x1.log[|x.log| + j] == Delivered(batch[j], k);
    }
  }

  /** A write that does not go through saves nothing, and blocks the contributing sources exactly when a record could not
      be dead-lettered, or the sink had the batch but could not say so. */
  lemma NothingSaved(x: Exec, cfg: Config, k: Id, a: Answers, batch: seq<Msg>, s: Id)
    requires !GoesThrough(cfg, a)
    ensures var y := Write(x, cfg, k, a, batch);
            && Durable(y.log, s) == Durable(x.log, s) && y.cancelled == x.cancelled
            && (s in y.blocked <==>
                  || s in x.blocked
                  || (s in Contributors(batch)
                      && if cfg.attempts > 0 && !a.accepts then exists m :: m in batch && m in a.dlqDown else a.versions))
            && (cfg.attempts > 0 && !a.accepts ==> forall m :: m in batch && m !in a.dlqDown ==> Dead(m, k) in y.log)
  {
    hide Durable, RecordFailure;
    LandedSame(x, cfg, k, batch, s);
    RefusedHolds(x, k, a, batch);
    DeadEntriesOnly(batch, k, a.dlqDown);
    DurableExtend(x.log, DeadEntries(batch, k, a.dlqDown), s);
    FailEachSame(Fail(x.(log := x.log + DeadEntries(batch, k, a.dlqDown)), k), k, batch, a.dlqDown);
    forall m | m in batch && m !in a.dlqDown ensures Dead(m, k) in DeadEntries(batch, k, a.dlqDown) {
      DeadEntriesMember(batch, k, a.dlqDown, m);
    }
  }

  lemma {:induction false} FailEachSame(x: Exec, k: Id, batch: seq<Msg>, down: set<Msg>)
    ensures var y := FailEach(x, k, batch, down); y == x.(breakers := y.breakers)
    decreases |batch|
  {
    hide RecordFailure;
    if batch != [] { FailEachSame(if batch[0] in down then Fail(x, k) else x, k, batch[1..], down); }
  }

  /** In any state, whichever of the two writes a sink's batch, full or in its turn of a round. */
  lemma StepSavesEverySource(x: Exec, cfg: Config, e: Event, s: Id)
    requires (e.Full? || e.Timed?) && Enabled(x, cfg, e) && !Loses(x, e)
    requires GoesThrough(cfg, e.a) && AllSave(x, e.a, Buffer(x, e.sink))
    ensures var y, batch := Step(x, cfg, e), Buffer(x, e.sink);
            && Buffer(y, e.sink) == []
            && (forall j: nat :: IsLast(batch, s, j) && s !in cfg.ahead ==> Durable(y.log, s) == batch[j].i + 1)
            && (s !in Contributors(batch) ==> Durable(y.log, s) == Durable(x.log, s))
            && y.blocked == x.blocked
  {
    hide Durable, Write, Lists, AllSave;
    var batch, k, a := Buffer(x, e.sink), e.sink, e.a;
    if batch != [] {
      var x1 := Asked(x, k, a);
      assert AllSave(x1, a, batch) by { AllSaveSame(x, x1, a, batch); }
      EverySourceSaved(x1, cfg, k, a, batch, s);
      WriteKeepsBuffers(x1, cfg, k, a, batch);
    }
  }

  lemma AllSaveSame(x: Exec, y: Exec, a: Answers, batch: seq<Msg>)
    requires y.blocked == x.blocked && AllSave(x, a, batch)
    ensures AllSave(y, a, batch)
  {}

  lemma WriteKeepsBuffers(x: Exec, cfg: Config, k: Id, a: Answers, batch: seq<Msg>)
    requires GoesThrough(cfg, a)
    ensures Write(x, cfg, k, a, batch).buffers == x.buffers
  {
    SaveSourcesGrows(Landed(x, cfg, k, batch), cfg, k, a, batch, a.order);
  }

  /** A write that finds the breaker of its sink open goes ahead five seconds later, although the cooldown is longer. */
  lemma OpenBreakerPauses(x: Exec, k: Id, a: Answers)
    requires BreakerOf(x, k).mode == Open && a.now - BreakerOf(x, k).trippedAt < 30
    ensures Asked(x, k, a).clock == a.now + 5 + a.took
  {}

  /** The router goes on while every batch is below the configured size, which is 1000 by default. */
  lemma RouterGoesOn(x: Exec, cfg: Config, s: Id)
    requires x.up && x.flushing.None? && Known(cfg, Msg(s, Routed(x, s)))
    requires forall k :: k in x.buffers ==> |x.buffers[k]| < (if cfg.batchSize <= 0 then 1000 else cfg.batchSize)
    ensures Enabled(x, cfg, Take(s, {}, {}, true, []))
  {}

  /** And waits while one has reached it, unless it is parallel and cancelled. */
  lemma RouterWaits(x: Exec, cfg: Config, k: Id, e: Event)
    requires k in x.buffers && |x.buffers[k]| >= (if cfg.batchSize <= 0 then 1000 else cfg.batchSize)
    requires !(cfg.parallel && x.cancelled) && (e.Take? || e.Round?)
    ensures !Enabled(x, cfg, e)
  {}
}
