/**
 At-least-once delivery of the DAG executor over every run that gives up no batch: no checkpoint passes a record that
 has not reached its sinks, provided writes are tried at all, records of one source never wait for two sinks at the
 same time, readers answer with the position of the record they are asked about, and no transform drops a record, for
 what it remembers or no longer does, before others of its source.
 */
module DagExecutorSafety {
  import opened CircuitBreaker
  import opened Prelude
  import opened DagExecutor

  // ---------------------------------------------------------------- facts about logs

  lemma ResolvedGrows(log: seq<Entry>, longer: seq<Entry>, m: Msg, k: Id)
    requires log <= longer && Resolved(log, m, k)
    ensures Resolved(longer, m, k)
  {
    var e :| (e == Delivered(m, k) || e == Dead(m, k)) && e in log;
    var n :| 0 <= n < |log| && log[n] == e;
    assert longer[n] == e;
  }

  lemma SettledBelowGrows(cfg: Config, log: seq<Entry>, longer: seq<Entry>, s: Id, p: nat)
    requires log <= longer && SettledBelow(cfg, log, s, p)
    ensures SettledBelow(cfg, longer, s, p)
  {
    forall i: nat, k | i < p && k in Targets(cfg, Msg(s, i)) ensures Resolved(longer, Msg(s, i), k) {
      assert Settled(cfg, log, Msg(s, i));
      ResolvedGrows(log, longer, Msg(s, i), k);
    }
  }

  lemma SafePrefix(cfg: Config, log: seq<Entry>, n: nat)
    requires Safe(cfg, log) && n <= |log|
    ensures Safe(cfg, log[..n])
  {
    forall k | 0 <= k < n && log[k].Saved? ensures SettledBelow(cfg, log[..n][..k], log[k].src, log[k].pos) {
      assert log[..n][..k] == log[..k];
    }
  }

  lemma SafeExtend(cfg: Config, log: seq<Entry>, more: seq<Entry>)
    requires Safe(cfg, log) && forall n :: 0 <= n < |more| ==> !more[n].Saved?
    ensures Safe(cfg, log + more)
  {
    var longer := log + more;
    forall k | 0 <= k < |longer| && longer[k].Saved?
      ensures SettledBelow(cfg, longer[..k], longer[k].src, longer[k].pos)
    {
      assert longer[..k] == log[..k];
    }
  }

  lemma SafeSave(cfg: Config, log: seq<Entry>, s: Id, p: nat)
    requires Safe(cfg, log) && SettledBelow(cfg, log, s, p)
    ensures Safe(cfg, log + [Saved(s, p)])
  {
    var longer := log + [Saved(s, p)];
    forall k | 0 <= k < |longer| && longer[k].Saved?
      ensures SettledBelow(cfg, longer[..k], longer[k].src, longer[k].pos)
    {
      assert longer[..k] == log[..k];
      assert log[..|log|] == log;
    }
  }

  lemma {:induction false} DurableSettled(cfg: Config, log: seq<Entry>, s: Id)
    requires Safe(cfg, log)
    ensures SettledBelow(cfg, log, s, Durable(log, s))
  {
    if log != [] {
      var n := |log| - 1;
      if log[n].Saved? && log[n].src == s {
        SettledBelowGrows(cfg, log[..n], log, s, log[n].pos);
      } else {
        SafePrefix(cfg, log, n);
        DurableSettled(cfg, log[..n], s);
        SettledBelowGrows(cfg, log[..n], log, s, Durable(log, s));
      }
    }
  }

  // ---------------------------------------------------------------- the invariant

  /** No record of the source is in a batch, and none that goes anywhere is still to come. */
  ghost predicate Gone(x: Exec, cfg: Config, s: Id) {
    && (forall k, m: Msg :: m in Buffer(x, k) ==> m.src != s)
    && (forall m: Msg :: m.src == s && Routed(x, s) <= m.i ==> Targets(cfg, m) == {})
  }

  /** No record from m on is in a batch or still to come, so that no checkpoint will pass m. */
  ghost predicate Beyond(x: Exec, cfg: Config, m: Msg) {
    && (forall k, n: Msg :: n in Buffer(x, k) && n.src == m.src ==> n.i < m.i)
    && (forall n: Msg :: n.src == m.src && Routed(x, m.src) <= n.i ==> Targets(cfg, n) == {})
  }

  /** A copy is resolved, still in its sink's batch, or its source can save no more checkpoints; with `lax` also when
      the source will save none past it. */
  ghost predicate Held(x: Exec, cfg: Config, lax: bool, m: Msg, k: Id) {
    m.src in x.blocked || Resolved(x.log, m, k) || m in Buffer(x, k) || (lax && Beyond(x, cfg, m))
  }

  /** Where a checkpoint was saved, a record that went somewhere lies below it. */
  ghost predicate Earned(cfg: Config, log: seq<Entry>) {
    forall n :: 0 <= n < |log| && log[n].Saved? && log[n].pos > 0 ==> SomeBelow(cfg, log[n].src, log[n].pos)
  }

  ghost predicate SomeBelow(cfg: Config, s: Id, p: nat) { exists m: Msg :: m.src == s && m.i < p && Targets(cfg, m) != {} }

  /** A run that resumed has a record behind it that went somewhere. */
  ghost predicate Traced(x: Exec, cfg: Config) {
    x.resumed ==> exists m: Msg :: m.i < Routed(x, m.src) && Targets(cfg, m) != {}
  }

  ghost predicate AllHeld(x: Exec, cfg: Config, lax: bool) {
    forall m: Msg, k :: m.i < Routed(x, m.src) && k in Targets(cfg, m) ==> Held(x, cfg, lax, m, k)
  }

  /** Batches hold routed records on their way to that sink, each source's in order. */
  ghost predicate Tidy(x: Exec, cfg: Config) {
    forall k :: TidyBatch(x, cfg, k, Buffer(x, k))
  }

  predicate TidyBatch(x: Exec, cfg: Config, k: Id, batch: seq<Msg>) {
    && (forall n :: 0 <= n < |batch| ==> batch[n].i < Routed(x, batch[n].src) && k in Targets(cfg, batch[n]))
    && (forall a, b :: 0 <= a < b < |batch| && batch[a].src == batch[b].src ==> batch[a].i < batch[b].i)
  }

  /** The records of a source that are in memory wait for the same sink. */
  ghost predicate Grouped(x: Exec) {
    forall j, k, m: Msg, n: Msg :: m in Buffer(x, j) && n in Buffer(x, k) && m.src == n.src ==> j == k
  }

  ghost predicate Inv(x: Exec, cfg: Config, lax: bool) {
    Safe(cfg, x.log) && AllHeld(x, cfg, lax) && Tidy(x, cfg) && Grouped(x)
  }

  /** Logs and blocks only grow; what is routed and buffered stays. */
  predicate Grows(x: Exec, x': Exec) {
    x.log <= x'.log && x.blocked <= x'.blocked && x'.routed == x.routed && x'.buffers == x.buffers && x'.up == x.up
    && x'.flushing == x.flushing
  }

  lemma HeldGrows(x: Exec, x': Exec, cfg: Config, lax: bool, m: Msg, k: Id)
    requires Grows(x, x') && Held(x, cfg, lax, m, k)
    ensures Held(x', cfg, lax, m, k)
  {
    if Resolved(x.log, m, k) { ResolvedGrows(x.log, x'.log, m, k); }
    if Beyond(x, cfg, m) { BeyondStays(x, x', cfg, m); }
  }

  lemma BeyondStays(x: Exec, x': Exec, cfg: Config, m: Msg)
    requires Beyond(x, cfg, m) && x'.routed == x.routed && forall k, n: Msg :: n in Buffer(x', k) ==> n in Buffer(x, k)
    ensures Beyond(x', cfg, m)
  {}

  // ---------------------------------------------------------------- one write

  lemma {:induction false} LastOfIs(batch: seq<Msg>, s: Id)
    ensures LastOf(batch, s).None? ==> forall n :: 0 <= n < |batch| ==> batch[n].src != s
    ensures LastOf(batch, s).Some? ==> Msg(s, LastOf(batch, s).value) in batch
  {
    if batch != [] && batch[|batch| - 1].src != s { LastOfIs(batch[..|batch| - 1], s); }
  }

  /** Every source that may save has everything settled up to the position it would save. */
  ghost predicate Ready(x: Exec, cfg: Config, a: Answers, batch: seq<Msg>) {
    forall s :: s !in x.blocked && LastOf(batch, s).Some?
                ==> SettledBelow(cfg, x.log, s, Position(x, cfg, a, s, LastOf(batch, s).value))
  }

  lemma ReadySaves(x: Exec, cfg: Config, a: Answers, batch: seq<Msg>, s: Id, p: nat)
    requires Ready(x, cfg, a, batch)
    ensures Ready(x.(log := x.log + [Saved(s, p)]), cfg, a, batch)
  {
    hide SettledBelow;
    var saved := x.(log := x.log + [Saved(s, p)]);
    forall t | t !in saved.blocked && LastOf(batch, t).Some?
      ensures SettledBelow(cfg, saved.log, t, Position(saved, cfg, a, t, LastOf(batch, t).value))
    {
      SettledBelowGrows(cfg, x.log, saved.log, t, Position(x, cfg, a, t, LastOf(batch, t).value));
    }
  }

  lemma ReadyFails(x: Exec, cfg: Config, a: Answers, batch: seq<Msg>, k: Id)
    requires Ready(x, cfg, a, batch)
    ensures Ready(Fail(x, k), cfg, a, batch)
  {
    forall s, last: nat ensures Position(Fail(x, k), cfg, a, s, last) == Position(x, cfg, a, s, last) {}
  }

  lemma {:induction false} SaveSourcesSafe(x: Exec, cfg: Config, k: Id, a: Answers, batch: seq<Msg>, order: seq<Id>)
    requires Safe(cfg, x.log) && Ready(x, cfg, a, batch)
    ensures Safe(cfg, SaveSources(x, cfg, k, a, batch, order).log)
    decreases |order|
  {
    if order != [] {
      var s, last := order[0], LastOf(batch, order[0]);
      assert last.Some? && s !in x.blocked ==> SettledBelow(cfg, x.log, s, Position(x, cfg, a, s, last.value));
      hide Ready, Safe, SettledBelow, Position;
      if last.None? { SaveSourcesSafe(x, cfg, k, a, batch, order[1..]); }
      else if s in x.blocked {
        ReadyFails(x, cfg, a, batch, k);
        SaveSourcesSafe(Fail(x, k), cfg, k, a, batch, order[1..]);
      } else {
        var p := Position(x, cfg, a, s, last.value);
        SafeSave(cfg, x.log, s, p);
        ReadySaves(x, cfg, a, batch, s, p);
        SaveSourcesSafe(x.(log := x.log + [Saved(s, p)]), cfg, k, a, batch, order[1..]);
      }
    }
  }

  lemma {:induction false} SaveSourcesGrows(x: Exec, cfg: Config, k: Id, a: Answers, batch: seq<Msg>, order: seq<Id>)
    ensures Grows(x, SaveSources(x, cfg, k, a, batch, order))
    decreases |order|
  {
    if order != [] {
      var s, last := order[0], LastOf(batch, order[0]);
      SaveSourcesGrows(x, cfg, k, a, batch, order[1..]);
      SaveSourcesGrows(Fail(x, k), cfg, k, a, batch, order[1..]);
      if last.Some? {
        SaveSourcesGrows(x.(log := x.log + [Saved(s, Position(x, cfg, a, s, last.value))]), cfg, k, a, batch, order[1..]);
      }
    }
  }

  lemma {:induction false} FailEachGrows(x: Exec, k: Id, batch: seq<Msg>, down: set<Msg>)
    ensures Grows(x, FailEach(x, k, batch, down)) && FailEach(x, k, batch, down).log == x.log
    decreases |batch|
  {
    if batch != [] { FailEachGrows(if batch[0] in down then Fail(x, k) else x, k, batch[1..], down); }
  }

  lemma {:induction false} DeadEntriesMember(batch: seq<Msg>, k: Id, down: set<Msg>, m: Msg)
    requires m in batch && m !in down
    ensures Dead(m, k) in DeadEntries(batch, k, down)
  {
    if batch[0] != m { DeadEntriesMember(batch[1..], k, down, m); }
  }

  lemma {:induction false} DeadEntriesOnly(batch: seq<Msg>, k: Id, down: set<Msg>)
    ensures forall n :: 0 <= n < |DeadEntries(batch, k, down)| ==> !DeadEntries(batch, k, down)[n].Saved?
  {
    if batch != [] { DeadEntriesOnly(batch[1..], k, down); }
  }

  lemma RefusedHolds(x: Exec, k: Id, a: Answers, batch: seq<Msg>)
    ensures Grows(x, Refused(x, k, a, batch)) && Refused(x, k, a, batch).log == x.log + DeadEntries(batch, k, a.dlqDown)
    ensures forall m :: m in batch ==>
              var x' := Refused(x, k, a, batch); m.src in x'.blocked || Resolved(x'.log, m, k)
  {
    var x' := Refused(x, k, a, batch);
    var dead := DeadEntries(batch, k, a.dlqDown);
    FailEachGrows(Fail(x.(log := x.log + dead), k), k, batch, a.dlqDown);
    forall m | m in batch ensures m.src in x'.blocked || Resolved(x'.log, m, k) {
      if m !in a.dlqDown { DeadEntriesMember(batch, k, a.dlqDown, m); }
      else { assert m.src in Contributors(batch); }
    }
  }

  lemma AcceptedHolds(x: Exec, cfg: Config, k: Id, a: Answers, batch: seq<Msg>)
    requires cfg.attempts > 0
    ensures Grows(x, Accepted(x, cfg, k, a, batch))
    ensures forall m :: m in batch ==> Resolved(Accepted(x, cfg, k, a, batch).log, m, k)
  {
    var x', x1 := Accepted(x, cfg, k, a, batch), Landed(x, cfg, k, batch);
    SaveSourcesGrows(x1, cfg, k, a, batch, a.order);
    forall m | m in batch ensures Resolved(x'.log, m, k) {
      DeliveredIn(x.log, batch, k, m);
      ResolvedGrows(x1.log, x'.log, m, k);
    }
  }

  lemma DeliveredIn(log: seq<Entry>, batch: seq<Msg>, k: Id, m: Msg)
    requires m in batch
    ensures Resolved(log + Deliveries(batch, k), m, k)
  {
    var n :| 0 <= n < |batch| && batch[n] == m;
    assert (log + Deliveries(batch, k))[|log| + n] == Delivered(m, k);
  }

  /** A written batch is resolved, or its sources are blocked. */
  lemma WriteHolds(x: Exec, cfg: Config, k: Id, a: Answers, batch: seq<Msg>)
    requires cfg.attempts > 0
    ensures Grows(x, Write(x, cfg, k, a, batch))
    ensures forall m :: m in batch ==>
              var x' := Write(x, cfg, k, a, batch); m.src in x'.blocked || Resolved(x'.log, m, k)
  {
    hide Refused, Accepted;
    RefusedHolds(x, k, a, batch);
    AcceptedHolds(x, cfg, k, a, batch);
  }

  lemma ConfinedRecords(cfg: Config, m: Msg, j: Id, k: Id)
    requires Confined(cfg) && j in Targets(cfg, m) && k in Targets(cfg, m)
    ensures j == k
  {}

  /** Once the batch of sink k is in the sink, a contributing source is settled up to what it may save. */
  lemma BatchSettles(x: Exec, cfg: Config, lax: bool, k: Id, a: Answers, log: seq<Entry>, s: Id)
    requires cfg.attempts > 0 && Confined(cfg) && NotAhead(cfg) && Inv(x, cfg, lax)
    requires log == x.log + Deliveries(Buffer(x, k), k) && s !in x.blocked && LastOf(Buffer(x, k), s).Some?
    ensures SettledBelow(cfg, log, s, Position(x, cfg, a, s, LastOf(Buffer(x, k), s).value))
  {
    hide Confined, Safe;
    var batch := Buffer(x, k);
    LastOfIs(batch, s);
    var last := Msg(s, LastOf(batch, s).value);
    assert TidyBatch(x, cfg, k, batch);
    forall i: nat, j | i < Position(x, cfg, a, s, last.i) && j in Targets(cfg, Msg(s, i)) ensures Resolved(log, Msg(s, i), j) {
      var m := Msg(s, i);
      if s in cfg.ahead {
        assert m == last;
        ConfinedRecords(cfg, m, j, k);
        DeliveredIn(x.log, batch, k, m);
      } else {
        assert Held(x, cfg, lax, m, j);
        if m in Buffer(x, j) { DeliveredIn(x.log, batch, k, m); }
        else { ResolvedGrows(x.log, log, m, j); }
      }
    }
  }

  lemma WriteSafe(x: Exec, cfg: Config, lax: bool, k: Id, a: Answers)
    requires cfg.attempts > 0 && Confined(cfg) && NotAhead(cfg) && Inv(x, cfg, lax)
    ensures Safe(cfg, Write(Asked(x, k, a), cfg, k, a, Buffer(x, k)).log)
  {
    hide Confined, NotAhead, Safe;
    var batch, x0 := Buffer(x, k), Asked(x, k, a);
    if !a.accepts {
      RefusedHolds(x0, k, a, batch);
      DeadEntriesOnly(batch, k, a.dlqDown);
      SafeExtend(cfg, x.log, DeadEntries(batch, k, a.dlqDown));
    } else {
      var x1 := Landed(x0, cfg, k, batch);
      SafeExtend(cfg, x.log, Deliveries(batch, k));
      forall s | s !in x1.blocked && LastOf(batch, s).Some?
        ensures SettledBelow(cfg, x1.log, s, Position(x1, cfg, a, s, LastOf(batch, s).value))
      {
        BatchSettles(x, cfg, lax, k, a, x1.log, s);
      }
      SaveSourcesSafe(x1, cfg, k, a, batch, a.order);
    }
  }

  // ---------------------------------------------------------------- every step

  /** Emptying a batch: what was in it must be accounted for, everything else stays as it was. */
  lemma EmptiedKeepsShape(x: Exec, x': Exec, cfg: Config, lax: bool, k: Id)
    requires AllHeld(x, cfg, lax) && Tidy(x, cfg) && Grouped(x)
    requires x.log <= x'.log && x.blocked <= x'.blocked && x'.routed == x.routed && x'.buffers == x.buffers[k := []]
    requires forall m :: m in Buffer(x, k) ==> Held(x', cfg, lax, m, k)
    ensures AllHeld(x', cfg, lax) && Tidy(x', cfg) && Grouped(x')
  {
    hide Held, TidyBatch;
    forall m: Msg, j | m.i < Routed(x', m.src) && j in Targets(cfg, m) ensures Held(x', cfg, lax, m, j) {
      assert Held(x, cfg, lax, m, j);
      if !(m in Buffer(x, k) && j == k) { HeldElsewhere(x, x', cfg, lax, m, j, k); }
    }
    forall j ensures TidyBatch(x', cfg, j, Buffer(x', j)) { EmptiedTidy(x, x', cfg, j, k); }
    EmptiedGrouped(x, x', k);
  }

  lemma EmptiedTidy(x: Exec, x': Exec, cfg: Config, j: Id, k: Id)
    requires Tidy(x, cfg) && x'.routed == x.routed && x'.buffers == x.buffers[k := []]
    ensures TidyBatch(x', cfg, j, Buffer(x', j))
  {
    assert TidyBatch(x, cfg, j, Buffer(x, j));
  }

  lemma EmptiedGrouped(x: Exec, x': Exec, k: Id)
    requires Grouped(x) && x'.buffers == x.buffers[k := []]
    ensures Grouped(x')
  {
    forall i, j, m: Msg, n: Msg | m in Buffer(x', i) && n in Buffer(x', j) && m.src == n.src ensures i == j {
      assert m in Buffer(x, i) && n in Buffer(x, j);
    }
  }

  lemma HeldElsewhere(x: Exec, x': Exec, cfg: Config, lax: bool, m: Msg, j: Id, k: Id)
    requires Held(x, cfg, lax, m, j) && !(m in Buffer(x, k) && j == k)
    requires x.log <= x'.log && x.blocked <= x'.blocked && x'.routed == x.routed && x'.buffers == x.buffers[k := []]
    ensures Held(x', cfg, lax, m, j)
  {
    if Resolved(x.log, m, j) { ResolvedGrows(x.log, x'.log, m, j); }
    forall i, n: Msg | n in Buffer(x', i) ensures n in Buffer(x, i) {}
    if Beyond(x, cfg, m) { BeyondStays(x, x', cfg, m); }
  }

  /** Nobody who lost a record with this batch will save another checkpoint. */
  ghost predicate Harmless(x: Exec, cfg: Config, k: Id) {
    forall m :: m in Buffer(x, k) ==>
      m.src in x.blocked || Gone(x.(buffers := x.buffers[k := []]), cfg, m.src)
  }

  lemma FlushKeepsInv(x: Exec, cfg: Config, lax: bool, k: Id, a: Answers)
    requires cfg.attempts > 0 && Confined(cfg) && NotAhead(cfg) && Inv(x, cfg, lax)
    requires GivesUp(x, k, a) ==> lax && Harmless(x, cfg, k)
    ensures Inv(Flush(x, cfg, k, a), cfg, lax) && x.log <= Flush(x, cfg, k, a).log
  {
    hide Confined, NotAhead, Safe, Write, AllHeld, Tidy, Grouped, Harmless;
    var batch, x' := Buffer(x, k), Flush(x, cfg, k, a);
    if batch == [] {
      ClockKeepsInv(x, x', cfg, lax);
    } else if GivesUp(x, k, a) {
      GivenUp(x, x', cfg, k);
      EmptiedKeepsShape(x, x', cfg, lax, k);
    } else {
      var x0 := Asked(x, k, a);
      WriteSafe(x, cfg, lax, k, a);
      WriteHolds(x0, cfg, k, a, batch);
      EmptiedKeepsShape(x, x', cfg, lax, k);
    }
  }

  lemma GivenUp(x: Exec, x': Exec, cfg: Config, k: Id)
    requires Harmless(x, cfg, k) && x'.buffers == x.buffers[k := []] && x'.blocked == x.blocked && x'.routed == x.routed
    ensures forall m :: m in Buffer(x, k) ==> Held(x', cfg, true, m, k)
  {
    var x0 := x.(buffers := x.buffers[k := []]);
    forall m | m in Buffer(x, k) ensures Held(x', cfg, true, m, k) {
      if m.src !in x.blocked {
        forall j, n: Msg | n in Buffer(x', j) ensures n.src != m.src { assert n in Buffer(x0, j); }
      }
    }
  }

  /** Changing the clock, the cancellation flag or the round changes nothing. */
  lemma ClockKeepsInv(x: Exec, x': Exec, cfg: Config, lax: bool)
    requires Inv(x, cfg, lax) && x'.log == x.log && x'.blocked == x.blocked && x'.routed == x.routed && x'.buffers == x.buffers
    ensures Inv(x', cfg, lax)
  {
    hide Safe, Beyond, TidyBatch;
    forall k ensures Buffer(x', k) == Buffer(x, k) {}
    forall m: Msg, k | m.i < Routed(x', m.src) && k in Targets(cfg, m) ensures Held(x', cfg, lax, m, k) {
      assert Held(x, cfg, lax, m, k);
      if Beyond(x, cfg, m) { BeyondStays(x, x', cfg, m); }
    }
    forall k ensures TidyBatch(x', cfg, k, Buffer(x', k)) {
      assert TidyBatch(x, cfg, k, Buffer(x, k));
      TidyStays(x, x', cfg, k, Buffer(x, k));
    }
  }

  lemma TidyStays(x: Exec, x': Exec, cfg: Config, k: Id, batch: seq<Msg>)
    requires TidyBatch(x, cfg, k, batch) && x'.routed == x.routed
    ensures TidyBatch(x', cfg, k, batch)
  {}

  /** Routing adds the record to the batches of the sinks it gets through to, and to no other. */
  lemma RouteBuffers(x: Exec, cfg: Config, s: Id, lost: set<Id>, gone: set<Id>, durable: bool, entries: seq<Entry>)
    ensures var m := Msg(s, Routed(x, s));
            var x' := Route(x, cfg, s, lost, gone, durable, entries);
            && (forall k :: Buffer(x', k)
                            == Buffer(x, k) + if k in Targets(cfg, m) && k !in lost + gone then [m] else [])
            && Routed(x', s) == m.i + 1 && (forall t :: t != s ==> Routed(x', t) == Routed(x, t))
            && x.blocked <= x'.blocked
            && var log := x.log + Noted(cfg, m, Targets(cfg, m) - lost - gone);
               && (durable ==> x'.log == log + entries && x'.blocked == x.blocked)
               && (!durable ==> x'.log == log && s in x'.blocked)
               && x' == x.(log := x'.log, routed := x'.routed, buffers := x'.buffers, blocked := x'.blocked)
  {}

  lemma RouteTidy(x: Exec, x': Exec, cfg: Config, m: Msg, lost: set<Id>)
    requires Tidy(x, cfg) && m.i == Routed(x, m.src)
    requires forall k :: Buffer(x', k) == Buffer(x, k) + if k in Targets(cfg, m) && k !in lost then [m] else []
    requires Routed(x', m.src) == m.i + 1 && forall t :: t != m.src ==> Routed(x', t) == Routed(x, t)
    ensures Tidy(x', cfg)
  {
    forall k ensures TidyBatch(x', cfg, k, Buffer(x', k)) {
      assert TidyBatch(x, cfg, k, Buffer(x, k));
      var more := if k in Targets(cfg, m) && k !in lost then [m] else [];
      assert Buffer(x', k) == Buffer(x, k) + more;
      TidyAppend(x, x', cfg, m, k, Buffer(x, k), more);
    }
  }

  lemma TidyAppend(x: Exec, x': Exec, cfg: Config, m: Msg, k: Id, batch: seq<Msg>, more: seq<Msg>)
    requires TidyBatch(x, cfg, k, batch) && m.i == Routed(x, m.src)
    requires more == [] || (more == [m] && k in Targets(cfg, m))
    requires Routed(x', m.src) == m.i + 1 && forall t :: t != m.src ==> Routed(x', t) == Routed(x, t)
    ensures TidyBatch(x', cfg, k, batch + more)
  {
    hide Routed, Targets;
    var all := batch + more;
    assert forall n :: 0 <= n < |batch| ==> all[n] == batch[n];
  }

  lemma InBuffer(x: Exec, x': Exec, cfg: Config, m: Msg, lost: set<Id>, k: Id, n: Msg)
    requires Buffer(x', k) == Buffer(x, k) + if k in Targets(cfg, m) && k !in lost then [m] else []
    ensures n in Buffer(x', k) <==> n in Buffer(x, k) || (n == m && k in Targets(cfg, m) && k !in lost)
  {}

  lemma RouteGrouped(x: Exec, x': Exec, cfg: Config, m: Msg, lost: set<Id>)
    requires Confined(cfg) && Tidy(x, cfg) && Grouped(x) && Idle(x, cfg)
    requires forall k :: Buffer(x', k) == Buffer(x, k) + if k in Targets(cfg, m) && k !in lost then [m] else []
    ensures Grouped(x')
  {
    forall i, j, n: Msg, o: Msg | n in Buffer(x', i) && o in Buffer(x', j) && n.src == o.src ensures i == j {
      InBuffer(x, x', cfg, m, lost, i, n);
      InBuffer(x, x', cfg, m, lost, j, o);
      assert TidyBatch(x, cfg, i, Buffer(x, i)) && TidyBatch(x, cfg, j, Buffer(x, j));
      if n in Buffer(x, i) { ConfinedMemory(x, cfg, i, n); }
      else if o in Buffer(x, j) { ConfinedMemory(x, cfg, j, o); }
    }
  }

  /** Unless each source feeds one sink, the router takes a record only when nothing is in memory. */
  lemma ConfinedMemory(x: Exec, cfg: Config, k: Id, m: Msg)
    requires Confined(cfg) && Idle(x, cfg) && m in Buffer(x, k)
    ensures OneSinkPerSource(cfg)
  {
    assert |x.buffers[k]| >= 1;
  }

  lemma RouteHeld(x: Exec, x': Exec, cfg: Config, lax: bool, m: Msg, lost: set<Id>, n: Msg, k: Id)
    requires Held(x, cfg, lax, n, k) && m.i == Routed(x, m.src)
    requires forall j :: Buffer(x', j) == Buffer(x, j) + if j in Targets(cfg, m) && j !in lost then [m] else []
    requires Routed(x', m.src) == m.i + 1 && forall t :: t != m.src ==> Routed(x', t) == Routed(x, t)
    requires x.log <= x'.log && x.blocked <= x'.blocked
    ensures Held(x', cfg, lax, n, k)
  {
    if Resolved(x.log, n, k) { ResolvedGrows(x.log, x'.log, n, k); }
    InBuffer(x, x', cfg, m, lost, k, n);
    if Beyond(x, cfg, n) {
      forall j, o: Msg | o in Buffer(x', j) && o.src == n.src ensures o.i < n.i { InBuffer(x, x', cfg, m, lost, j, o); }
    }
  }

  lemma RouteSafe(x: Exec, cfg: Config, e: Event)
    requires e.Take? && Safe(cfg, x.log) && Enabled(x, cfg, e)
    ensures Safe(cfg, Step(x, cfg, e).log) && x.log <= Step(x, cfg, e).log
  {
    hide Append, Safe, Idle, Forgettable;
    var x', m := Step(x, cfg, e), Msg(e.src, Routed(x, e.src));
    var noted := Noted(cfg, m, Targets(cfg, m) - e.lost - e.gone);
    SafeExtend(cfg, x.log, noted);
    SafeExtend(cfg, x.log + noted, e.entries);
  }

  lemma RouteKeepsInv(x: Exec, cfg: Config, lax: bool, e: Event)
    requires e.Take? && Confined(cfg) && Inv(x, cfg, lax) && Enabled(x, cfg, e)
    requires Forgets(e) ==> lax && Mindful(cfg) && Traced(x, cfg)
    ensures Inv(Step(x, cfg, e), cfg, lax) && x.log <= Step(x, cfg, e).log
  {
    hide Append, TidyBatch, Safe, Route, Confined, Tidy, Grouped, Beyond, Idle, Mindful, Traced, Forgettable, Records;
    var x', m, off := Step(x, cfg, e), Msg(e.src, Routed(x, e.src)), e.lost + e.gone;
    RouteSafe(x, cfg, e);
    RouteBuffers(x, cfg, e.src, e.lost, e.gone, e.durable, e.entries);
    RouteTidy(x, x', cfg, m, off);
    RouteGrouped(x, x', cfg, m, off);
    forall n: Msg, k | n.i < Routed(x', n.src) && k in Targets(cfg, n) ensures Held(x', cfg, lax, n, k) {
      if n != m { RouteHeld(x, x', cfg, lax, m, off, n, k); }
      else if k in e.gone { NewForgotten(x, x', cfg, e, k); }
      else { NewHeld(x, x', cfg, e, k); }
    }
  }

  lemma NewHeld(x: Exec, x': Exec, cfg: Config, e: Event, k: Id)
    requires e.Take? && Enabled(x, cfg, e) && x' == Step(x, cfg, e) && k in Targets(cfg, Msg(e.src, Routed(x, e.src)))
    requires k !in e.gone
    ensures Held(x', cfg, false, Msg(e.src, Routed(x, e.src)), k)
  {
    hide Append, Route, Beyond, Idle, Forgettable;
    var m, off := Msg(e.src, Routed(x, e.src)), e.lost + e.gone;
    RouteBuffers(x, cfg, e.src, e.lost, e.gone, e.durable, e.entries);
    InBuffer(x, x', cfg, m, off, k, m);
    if k in e.lost {
      assert k in Targets(cfg, m) * e.lost;
      if e.durable { assert Dead(m, k) in x'.log; }
    }
  }

  /** A forgotten record is the last of its source that goes anywhere. */
  lemma ForgottenIsLast(x: Exec, cfg: Config, m: Msg, k: Id, o: Msg)
    requires Mindful(cfg) && Traced(x, cfg) && Forgettable(x, cfg, m, k) && k in Targets(cfg, m) && m.i == Routed(x, m.src)
    requires o.src == m.src && m.i < o.i
    ensures Targets(cfg, o) == {}
  {
    hide Targets;
    if x.resumed {
      var f: Msg :| f.i < Routed(x, f.src) && Targets(cfg, f) != {};
      assert Preceded(cfg, m);
    }
  }

  lemma BufferedBefore(x: Exec, x': Exec, cfg: Config, m: Msg, off: set<Id>, k: Id)
    requires Confined(cfg) && Tidy(x, cfg) && m.i == Routed(x, m.src) && k in Targets(cfg, m) && k in off
    requires forall j :: Buffer(x', j) == Buffer(x, j) + if j in Targets(cfg, m) && j !in off then [m] else []
    ensures forall j, n: Msg :: n in Buffer(x', j) && n.src == m.src ==> n.i < m.i
  {
    hide Confined, Targets;
    forall j, n: Msg | n in Buffer(x', j) && n.src == m.src ensures n.i < m.i {
      InBuffer(x, x', cfg, m, off, j, n);
      assert TidyBatch(x, cfg, j, Buffer(x, j));
      if j in Targets(cfg, m) { ConfinedRecords(cfg, m, j, k); }
    }
  }

  lemma NewForgotten(x: Exec, x': Exec, cfg: Config, e: Event, k: Id)
    requires e.Take? && Enabled(x, cfg, e) && x' == Step(x, cfg, e) && k in e.gone
    requires Confined(cfg) && Mindful(cfg) && Traced(x, cfg) && Tidy(x, cfg)
    ensures Beyond(x', cfg, Msg(e.src, Routed(x, e.src)))
  {
    hide Append, Route, Idle, Confined, Records, Mindful, Traced, Forgettable, Tidy, Targets;
    var m, off := Msg(e.src, Routed(x, e.src)), e.lost + e.gone;
    RouteBuffers(x, cfg, e.src, e.lost, e.gone, e.durable, e.entries);
    assert k in Targets(cfg, m) && Forgettable(x, cfg, m, k);
    BufferedBefore(x, x', cfg, m, off, k);
    forall o: Msg | o.src == m.src && Routed(x', m.src) <= o.i ensures Targets(cfg, o) == {} {
      ForgottenIsLast(x, cfg, m, k, o);
    }
  }

  lemma StartKeepsInv(x: Exec, cfg: Config, lax: bool)
    requires Safe(cfg, x.log) && !x.up
    ensures Inv(Step(x, cfg, Start), cfg, lax)
  {
    var x' := Step(x, cfg, Start);
    forall m: Msg, k | m.i < Routed(x', m.src) && k in Targets(cfg, m) ensures Held(x', cfg, lax, m, k) {
      DurableSettled(cfg, x.log, m.src);
      assert Settled(cfg, x.log, m);
    }
  }

  lemma EmptyInv(cfg: Config, lax: bool, x: Exec)
    requires Safe(cfg, x.log) && x.routed == map[] && x.buffers == map[]
    ensures Inv(x, cfg, lax)
  {}

  /** One step, crash or not, keeps the invariant; a batch that is given up must be harmless, and so must a record that
      is forgotten. */
  lemma {:induction false} StepKeepsInv(x: Exec, cfg: Config, lax: bool, e: Event)
    requires cfg.attempts > 0 && Confined(cfg) && NotAhead(cfg) && Inv(x, cfg, lax) && Enabled(x, cfg, e)
    requires Loses(x, e) ==> lax && GivesUpHarmlessly(x, cfg, e)
    requires Forgets(e) ==> lax && Mindful(cfg) && Traced(x, cfg)
    ensures Inv(Step(x, cfg, e), cfg, lax) && (!e.Crash? ==> x.log <= Step(x, cfg, e).log)
    decreases e
  {
    hide Flush, Route, Confined, NotAhead, AllHeld, Tidy, Grouped, GivesUp, Harmless, Mindful, Traced, Durable, Forgettable;
    match e
    case Start => StartKeepsInv(x, cfg, lax);
    case Take(_, _, _, _, _) => RouteKeepsInv(x, cfg, lax, e);
    case Full(k, a) => FlushKeepsInv(x, cfg, lax, k, a);
    case Timed(k, a) => FlushKeepsInv(x, cfg, lax, k, a);
    case End => EmptyInv(cfg, lax, Step(x, cfg, e));
    case Crash(k, during) =>
      if during.Some? { StepKeepsInv(x, cfg, lax, during.value); }
      var full := if during.None? then x.log else Step(x, cfg, during.value).log;
      SafePrefix(cfg, full, Min(|x.log| + k, |full|));
      EmptyInv(cfg, lax, Step(x, cfg, e));
    case _ => ClockKeepsInv(x, Step(x, cfg, e), cfg, lax);
  }

  ghost predicate GivesUpHarmlessly(x: Exec, cfg: Config, e: Event)
    decreases e
  {
    match e
    case Full(k, _) => Harmless(x, cfg, k)
    case Timed(k, _) => Harmless(x, cfg, k)
    case Crash(_, during) => during.Some? ==> GivesUpHarmlessly(x, cfg, during.value)
    case _ => true
  }

  // ---------------------------------------------------------------- where checkpoints come from

  ghost predicate Rooted(x: Exec, cfg: Config) { Earned(cfg, x.log) && Traced(x, cfg) }

  lemma EarnedExtend(cfg: Config, log: seq<Entry>, more: seq<Entry>)
    requires Earned(cfg, log) && forall n :: 0 <= n < |more| ==> !more[n].Saved?
    ensures Earned(cfg, log + more)
  {}

  lemma EarnedSave(cfg: Config, log: seq<Entry>, s: Id, p: nat, m: Msg)
    requires Earned(cfg, log) && m.src == s && m.i < p && Targets(cfg, m) != {}
    ensures Earned(cfg, log + [Saved(s, p)])
  {
    assert SomeBelow(cfg, s, p);
  }

  lemma {:induction false} DurableEarned(cfg: Config, log: seq<Entry>, s: Id)
    requires Earned(cfg, log) && Durable(log, s) > 0
    ensures SomeBelow(cfg, s, Durable(log, s))
  {
    hide SomeBelow;
    var n := |log| - 1;
    if !(log[n].Saved? && log[n].src == s) { DurableEarned(cfg, log[..n], s); }
  }

  lemma {:induction false} SaveSourcesEarned(x: Exec, cfg: Config, k: Id, a: Answers, batch: seq<Msg>, order: seq<Id>)
    requires Earned(cfg, x.log) && forall m :: m in batch ==> k in Targets(cfg, m) && m.i < Routed(x, m.src)
    ensures Earned(cfg, SaveSources(x, cfg, k, a, batch, order).log)
    decreases |order|
  {
    hide Earned;
    if order != [] {
      var s, last := order[0], LastOf(batch, order[0]);
      LastOfIs(batch, s);
      if last.None? { SaveSourcesEarned(x, cfg, k, a, batch, order[1..]); }
      else if s in x.blocked { SaveSourcesEarned(Fail(x, k), cfg, k, a, batch, order[1..]); }
      else {
        EarnedSave(cfg, x.log, s, Position(x, cfg, a, s, last.value), Msg(s, last.value));
        var saved := x.(log := x.log + [Saved(s, Position(x, cfg, a, s, last.value))]);
        SaveSourcesEarned(saved, cfg, k, a, batch, order[1..]);
      }
    }
  }

  lemma WriteEarned(x: Exec, cfg: Config, k: Id, a: Answers, batch: seq<Msg>)
    requires Earned(cfg, x.log) && forall m :: m in batch ==> k in Targets(cfg, m) && m.i < Routed(x, m.src)
    ensures Earned(cfg, Write(x, cfg, k, a, batch).log)
    ensures Write(x, cfg, k, a, batch).resumed == x.resumed && Write(x, cfg, k, a, batch).routed == x.routed
  {
    hide Earned;
    var dead := DeadEntries(batch, k, a.dlqDown);
    DeadEntriesOnly(batch, k, a.dlqDown);
    EarnedExtend(cfg, x.log, dead);
    RefusedHolds(x, k, a, batch);
    FailEachResumed(Fail(x.(log := x.log + dead), k), k, batch, a.dlqDown);
    var x1 := Landed(x, cfg, k, batch);
    EarnedExtend(cfg, x.log, if cfg.attempts > 0 then Deliveries(batch, k) else []);
    SaveSourcesEarned(x1, cfg, k, a, batch, a.order);
    SaveSourcesGrows(x1, cfg, k, a, batch, a.order);
    SaveSourcesResumed(x1, cfg, k, a, batch, a.order);
  }

  lemma {:induction false} FailEachResumed(x: Exec, k: Id, batch: seq<Msg>, down: set<Msg>)
    ensures FailEach(x, k, batch, down).resumed == x.resumed
    decreases |batch|
  {
    if batch != [] { FailEachResumed(if batch[0] in down then Fail(x, k) else x, k, batch[1..], down); }
  }

  lemma {:induction false} SaveSourcesResumed(x: Exec, cfg: Config, k: Id, a: Answers, batch: seq<Msg>, order: seq<Id>)
    ensures SaveSources(x, cfg, k, a, batch, order).resumed == x.resumed
    decreases |order|
  {
    if order != [] {
      var s, last := order[0], LastOf(batch, order[0]);
      SaveSourcesResumed(x, cfg, k, a, batch, order[1..]);
      SaveSourcesResumed(Fail(x, k), cfg, k, a, batch, order[1..]);
      if last.Some? {
        SaveSourcesResumed(x.(log := x.log + [Saved(s, Position(x, cfg, a, s, last.value))]), cfg, k, a, batch, order[1..]);
      }
    }
  }

  lemma FlushRooted(x: Exec, cfg: Config, k: Id, a: Answers)
    requires Tidy(x, cfg) && Rooted(x, cfg)
    ensures Rooted(Flush(x, cfg, k, a), cfg)
  {
    hide Earned, Write, GivesUp, Traced;
    var y, batch := Flush(x, cfg, k, a), Buffer(x, k);
    if batch != [] && !GivesUp(x, k, a) {
      assert TidyBatch(x, cfg, k, batch);
      WriteEarned(Asked(x, k, a), cfg, k, a, batch);
    }
    TracedSame(x, y, cfg);
  }

  lemma TracedSame(x: Exec, y: Exec, cfg: Config)
    requires Traced(x, cfg) && y.resumed == x.resumed && forall s :: Routed(x, s) <= Routed(y, s)
    ensures Traced(y, cfg)
  {}

  lemma StartRooted(x: Exec, cfg: Config)
    requires Earned(cfg, x.log)
    ensures Rooted(Started(x, cfg), cfg)
  {
    hide Earned;
    var y := Started(x, cfg);
    if y.resumed {
      var s :| s in cfg.routes && Durable(x.log, s) > 0;
      DurableEarned(cfg, x.log, s);
      var m: Msg :| m.src == s && m.i < Durable(x.log, s) && Targets(cfg, m) != {};
      assert m.i < Routed(y, m.src);
    }
  }

  lemma RouteRooted(x: Exec, cfg: Config, e: Event)
    requires e.Take? && Rooted(x, cfg) && Enabled(x, cfg, e)
    ensures Rooted(Step(x, cfg, e), cfg)
  {
    hide Earned, Append, Route, Traced, Idle, Forgettable;
    var y, m := Step(x, cfg, e), Msg(e.src, Routed(x, e.src));
    RouteBuffers(x, cfg, e.src, e.lost, e.gone, e.durable, e.entries);
    var noted := Noted(cfg, m, Targets(cfg, m) - e.lost - e.gone);
    EarnedExtend(cfg, x.log, noted);
    EarnedExtend(cfg, x.log + noted, e.entries);
    forall s ensures Routed(x, s) <= Routed(y, s) {}
    TracedSame(x, y, cfg);
  }

  lemma {:induction false} StepRooted(x: Exec, cfg: Config, e: Event)
    requires Tidy(x, cfg) && Rooted(x, cfg) && Enabled(x, cfg, e)
    ensures Rooted(Step(x, cfg, e), cfg)
    decreases e
  {
    hide Flush, Route, Tidy, Earned, Started, Traced, Idle, Forgettable;
    match e
    case Start => StartRooted(x, cfg);
    case Take(_, _, _, _, _) => RouteRooted(x, cfg, e);
    case Full(k, a) => FlushRooted(x, cfg, k, a);
    case Timed(k, a) => FlushRooted(x, cfg, k, a);
    case End => DownTraced(Step(x, cfg, e), cfg);
    case Crash(k, during) =>
      if during.Some? { StepRooted(x, cfg, during.value); }
      var full := if during.None? then x.log else Step(x, cfg, during.value).log;
      EarnedPrefix(cfg, full, Min(|x.log| + k, |full|));
      DownTraced(Step(x, cfg, e), cfg);
    case _ => TracedSame(x, Step(x, cfg, e), cfg);
  }

  lemma DownTraced(x: Exec, cfg: Config)
    requires !x.resumed
    ensures Traced(x, cfg)
  {}

  lemma EarnedPrefix(cfg: Config, log: seq<Entry>, n: nat)
    requires Earned(cfg, log) && n <= |log|
    ensures Earned(cfg, log[..n])
  {}

  // ---------------------------------------------------------------- whole runs

  /** No record of the run was dropped for what a transform remembers, or no longer does. */
  ghost predicate NeverForgets(es: seq<Event>) { forall n :: 0 <= n < |es| ==> !Forgets(es[n]) }

  /** Runs that give up nothing and forget nothing account for every copy. */
  lemma {:induction false} RunKeepsInv(cfg: Config, es: seq<Event>)
    requires cfg.attempts > 0 && Confined(cfg) && NotAhead(cfg) && IsRun(cfg, es) && NeverLoses(cfg, es) && NeverForgets(es)
    ensures Inv(After(cfg, es), cfg, false)
  {
    if es != [] {
      hide Confined, NotAhead, Enabled, Step, Inv, Loses, Forgets;
      RunKeepsInv(cfg, es[..|es| - 1]);
      StepKeepsInv(After(cfg, es[..|es| - 1]), cfg, false, es[|es| - 1]);
    }
  }

  /** Runs that give up nothing keep every checkpoint behind what is unaccounted for. */
  lemma {:induction false} RunKeepsLax(cfg: Config, es: seq<Event>)
    requires cfg.attempts > 0 && Confined(cfg) && NotAhead(cfg) && Mindful(cfg) && IsRun(cfg, es) && NeverLoses(cfg, es)
    ensures Inv(After(cfg, es), cfg, true) && Rooted(After(cfg, es), cfg)
  {
    if es != [] {
      hide Confined, NotAhead, Mindful, Enabled, Step, Loses, Forgets, Safe, AllHeld, Grouped, Tidy, Earned;
      RunKeepsLax(cfg, es[..|es| - 1]);
      StepKeepsInv(After(cfg, es[..|es| - 1]), cfg, true, es[|es| - 1]);
      StepRooted(After(cfg, es[..|es| - 1]), cfg, es[|es| - 1]);
    }
  }

  /** With nothing to deliver there is nothing to lose. */
  lemma IdlingSafe(cfg: Config, log: seq<Entry>)
    requires Idling(cfg)
    ensures Safe(cfg, log)
  {
    forall m ensures Settled(cfg, log, m) {}
  }

  /** Sound settings keep every checkpoint safe over every run that gives up no batch. */
  lemma SoundIsSafe(cfg: Config, es: seq<Event>)
    requires Sound(cfg) && IsRun(cfg, es) && NeverLoses(cfg, es)
    ensures Safe(cfg, After(cfg, es).log)
  {
    hide Confined, NotAhead, Mindful, IsRun, After, NeverLoses;
    if Idling(cfg) { IdlingSafe(cfg, After(cfg, es).log); } else { RunKeepsLax(cfg, es); }
  }

  /** A run that has routed every record of a source, written every batch, forgotten nothing and is not blocked for that
      source has settled all of it. */
  lemma DrainedSourceSettled(cfg: Config, es: seq<Event>, s: Id)
    requires cfg.attempts > 0 && Confined(cfg) && NotAhead(cfg) && IsRun(cfg, es) && NeverLoses(cfg, es) && NeverForgets(es)
    requires s in cfg.routes
    requires var x := After(cfg, es); x.up && Routed(x, s) == |cfg.routes[s]| && s !in x.blocked && Empty(x)
    ensures SettledBelow(cfg, After(cfg, es).log, s, |cfg.routes[s]|)
  {
    hide Confined, NotAhead, IsRun, After, NeverLoses;
    var x := After(cfg, es);
    RunKeepsInv(cfg, es);
    forall i: nat, k | i < |cfg.routes[s]| && k in Targets(cfg, Msg(s, i)) ensures Resolved(x.log, Msg(s, i), k) {
      assert Held(x, cfg, false, Msg(s, i), k);
    }
  }
}
