/**
 At-least-once delivery of the linear runner over every run: reads, full and timed batches, stops,
 completions, and crashes at any point inside a step.
 */
module LinearRunnerSafety {
  import opened CircuitBreaker
  import opened Prelude
  import opened LinearRunner

  // ---------------------------------------------------------------- facts about logs

  lemma SettledGrows(log: seq<Entry>, longer: seq<Entry>, i: nat)
    requires log <= longer && Settled(log, i)
    ensures Settled(longer, i)
  {
    var e :| (e == Delivered(i) || e == Dead(i) || e == Skipped(i)) && e in log;
    var k :| 0 <= k < |log| && log[k] == e;
    assert longer[k] == e;
  }

  lemma SettledBelowGrows(log: seq<Entry>, longer: seq<Entry>, p: nat)
    requires log <= longer && SettledBelow(log, p)
    ensures SettledBelow(longer, p)
  {
    forall i: nat | i < p ensures Settled(longer, i) { SettledGrows(log, longer, i); }
  }

  lemma SafePrefix(log: seq<Entry>, n: nat)
    requires Safe(log) && n <= |log|
    ensures Safe(log[..n])
  {
    forall k | 0 <= k < n && log[k].Saved? ensures SettledBelow(log[..n][..k], log[k].pos) {
      assert log[..n][..k] == log[..k];
    }
  }

  lemma SafeExtend(log: seq<Entry>, longer: seq<Entry>)
    requires Safe(log) && log <= longer
    requires forall k :: |log| <= k < |longer| ==> !longer[k].Saved?
    ensures Safe(longer)
  {
    forall k | 0 <= k < |longer| && longer[k].Saved? ensures SettledBelow(longer[..k], longer[k].pos) {
      assert longer[..k] == log[..k];
    }
  }

  lemma SafeSave(log: seq<Entry>, p: nat)
    requires Safe(log) && SettledBelow(log, p)
    ensures Safe(log + [Saved(p)])
  {
    var longer := log + [Saved(p)];
    forall k | 0 <= k < |longer| && longer[k].Saved? ensures SettledBelow(longer[..k], longer[k].pos) {
      assert longer[..k] == log[..k];
      assert log[..|log|] == log;
    }
  }

  /** Whatever a restart resumes after has been settled. */
  lemma {:induction false} DurableSettled(log: seq<Entry>)
    requires Safe(log)
    ensures SettledBelow(log, Durable(log))
  {
    if log != [] {
      var n := |log| - 1;
      if log[n].Saved? {
        SettledBelowGrows(log[..n], log, log[n].pos);
      } else {
        SafePrefix(log, n);
        DurableSettled(log[..n]);
        SettledBelowGrows(log[..n], log, Durable(log));
      }
    }
  }

  /** A safe log loses nothing, wherever it is cut. */
  lemma SafeLosesNothing(log: seq<Entry>)
    requires Safe(log)
    ensures NothingLost(log)
  {
    forall n | 0 <= n <= |log| ensures KeptBelow(log[..n], Durable(log[..n])) {
      SafePrefix(log, n);
      DurableSettled(log[..n]);
    }
  }

  // ---------------------------------------------------------------- one commit

  /** The reader answers with the position of the record it is asked about, and no transform holds records back. */
  predicate Plain(cfg: Config) { cfg.window == NoWindow && !cfg.ahead }

  /** The breaker did not trip in the future. */
  predicate Timed(r: Runner) { r.breaker.trippedAt <= r.clock }

  /** Settled, or every later checkpoint of this run is off. */
  predicate Covered(r: Runner, i: nat) { r.blocked || Settled(r.log, i) }

  predicate CoveredBelow(r: Runner, p: nat) { forall i: nat :: i < p ==> Covered(r, i) }

  /** Only the log, the block and the breaker may change, and no checkpoint is saved. */
  predicate Grows(r: Runner, r': Runner) {
    && r.log <= r'.log
    && (forall k :: |r.log| <= k < |r'.log| ==> !r'.log[k].Saved?)
    && (r.blocked ==> r'.blocked)
    && (Timed(r) ==> Timed(r'))
    && r' == r.(log := r'.log, blocked := r'.blocked, breaker := r'.breaker)
  }

  /** The same, and the breaker trips only together with the block. */
  predicate Fails(r: Runner, r': Runner) { Grows(r, r') && (r'.blocked || r'.breaker == r.breaker) }

  lemma CoveredGrows(r: Runner, r': Runner, i: nat)
    requires r.log <= r'.log && (r.blocked ==> r'.blocked) && Covered(r, i)
    ensures Covered(r', i)
  {
    if !r.blocked { SettledGrows(r.log, r'.log, i); }
  }

  lemma CoveredBelowGrows(r: Runner, r': Runner, p: nat)
    requires r.log <= r'.log && (r.blocked ==> r'.blocked) && CoveredBelow(r, p)
    ensures CoveredBelow(r', p)
  {
    forall i: nat | i < p ensures Covered(r', i) { CoveredGrows(r, r', i); }
  }

  lemma HandleFailedCovers(r: Runner, cfg: Config, a: Answers, i: nat)
    ensures Fails(r, HandleFailed(r, cfg, a, i)) && Covered(HandleFailed(r, cfg, a, i), i)
  {
    var r' := HandleFailed(r, cfg, a, i);
    if DlqTakes(cfg, a, i) { assert r'.log[|r.log|] == Dead(i); }
  }

  lemma {:induction false} HandleEachCovers(r: Runner, cfg: Config, a: Answers, recs: seq<nat>)
    ensures Fails(r, HandleEach(r, cfg, a, recs))
    ensures forall i :: i in recs ==> Covered(HandleEach(r, cfg, a, recs), i)
    decreases |recs|
  {
    if recs != [] {
      var r1 := HandleFailed(r, cfg, a, recs[0]);
      HandleFailedCovers(r, cfg, a, recs[0]);
      HandleEachCovers(r1, cfg, a, recs[1..]);
      CoveredGrows(r1, HandleEach(r, cfg, a, recs), recs[0]);
    }
  }

  predicate Drop(f: Fate) { f == Filtered || f == Absorbed || f == Broken }

  lemma PassCovers(r: Runner, cfg: Config, a: Answers, i: nat)
    requires cfg.window == NoWindow
    ensures Fails(r, Pass(r, cfg, a, i)) && (Drop(FateOf(a, i)) ==> Covered(Pass(r, cfg, a, i), i))
  {
    HandleFailedCovers(r, cfg, a, i);
    var r' := Pass(r, cfg, a, i);
    if FateOf(a, i) == Filtered || FateOf(a, i) == Absorbed { assert r'.log[|r.log|] == Skipped(i); }
  }

  lemma {:induction false} TransformCovers(r: Runner, cfg: Config, a: Answers, recs: seq<nat>)
    requires cfg.window == NoWindow
    ensures Fails(r, Transform(r, cfg, a, recs))
    ensures forall i :: i in recs && Drop(FateOf(a, i)) ==> Covered(Transform(r, cfg, a, recs), i)
    decreases |recs|
  {
    hide Pass, Covered;
    if recs != [] {
      var r1 := Pass(r, cfg, a, recs[0]);
      PassCovers(r, cfg, a, recs[0]);
      TransformCovers(r1, cfg, a, recs[1..]);
      if Drop(FateOf(a, recs[0])) { CoveredGrows(r1, Transform(r, cfg, a, recs), recs[0]); }
    }
  }

  lemma {:induction false} HavingMember(recs: seq<nat>, a: Answers, w: Which, i: nat)
    ensures i in Having(recs, a, w) <==> i in recs && Picks(w, FateOf(a, i))
  {
    if recs != [] { HavingMember(recs[1..], a, w, i); }
  }

  /** Without a window the transforms work on what the source parser accepted. */
  lemma InputIsAccepted(r: Runner, a: Answers, batch: seq<nat>)
    requires r.held == []
    ensures Input(r, a, batch) == Having(batch, a, NotRejected)
  {
    assert Releasing([], a, true) + Having(batch, a, NotRejected) == Having(batch, a, NotRejected);
  }

  /** Before the sink is asked, every record of the batch that was not forgotten is a survivor or already covered. */
  lemma BeforeSinkCovers(r: Runner, cfg: Config, a: Answers, batch: seq<nat>)
    requires cfg.window == NoWindow && r.held == []
    ensures Fails(r, BeforeSink(r, cfg, a, batch))
    ensures forall i :: i in batch && !Forgotten(FateOf(a, i)) ==>
              || (!ChainFailed(cfg, a, batch) && i in Survivors(cfg, a, Input(r, a, batch)))
              || Covered(BeforeSink(r, cfg, a, batch), i)
  {
    hide HandleEach, Transform, Having, Input, Covered;
    InputIsAccepted(r, a, batch);
    var r' := BeforeSink(r, cfg, a, batch);
    var rejected := Having(batch, a, Only(Rejected));
    var accepted := Having(batch, a, NotRejected);
    var keyless := Having(accepted, a, Only(NoKey));
    var r1 := HandleEach(r, cfg, a, rejected);
    HandleEachCovers(r, cfg, a, rejected);
    HandleEachCovers(r1, cfg, a, accepted);
    var r2 := Transform(r1, cfg, a, accepted);
    TransformCovers(r1, cfg, a, accepted);
    HandleEachCovers(r2, cfg, a, keyless);
    forall i | i in batch && !Forgotten(FateOf(a, i))
      ensures (!ChainFailed(cfg, a, batch) && i in Survivors(cfg, a, accepted)) || Covered(r', i)
    {
      HavingMember(batch, a, Only(Rejected), i);
      HavingMember(batch, a, NotRejected, i);
      HavingMember(accepted, a, Only(NoKey), i);
      HavingMember(accepted, a, Fit(cfg.keyed), i);
      if FateOf(a, i) == Rejected {
        CoveredGrows(r1, r', i);
      } else if !ChainFailed(cfg, a, batch) && Drop(FateOf(a, i)) {
        CoveredGrows(r2, r', i);
      }
    }
  }

  lemma {:induction false} NamedMember(partial: seq<int>, recs: seq<nat>, seen: set<int>, k: int)
    requires forall j :: 0 <= j < |partial| ==> 0 <= partial[j] < |recs|
    requires k in partial && k !in seen
    ensures recs[k] in Named(partial, recs, seen)
  {
    if partial[0] != k { NamedMember(partial[1..], recs, seen + {partial[0]}, k); }
  }

  lemma {:induction false} UnnamedMember(partial: seq<int>, recs: seq<nat>, from: nat, k: nat)
    requires from <= k < |recs| && k !in partial
    ensures recs[k] in Unnamed(partial, recs, from)
    decreases |recs| - from
  {
    if from != k { UnnamedMember(partial, recs, from + 1, k); }
  }

  lemma {:induction false} SplitsMember(recs: seq<nat>, out: set<nat>, i: nat)
    requires i in recs
    ensures i in Splits(recs, out).0 || i in Splits(recs, out).1
  {
    if recs[0] != i { SplitsMember(recs[1..], out, i); }
  }

  /** A refused write loses nobody: each survivor is in the sink or handed on as failed. */
  lemma RefusalSplits(sink: SinkAnswer, recs: seq<nat>, i: nat)
    requires sink.Refuses? && i in recs
    ensures i in AfterRefusal(sink, recs).0 || i in AfterRefusal(sink, recs).1
  {
    if Usable(sink.partial, |recs|) {
      var k :| 0 <= k < |recs| && recs[k] == i;
      if k in sink.partial { NamedMember(sink.partial, recs, {}, k); }
      else { UnnamedMember(sink.partial, recs, 0, k); }
    } else {
      SplitsMember(recs, sink.alone, i);
    }
  }

  lemma DeliveriesSettle(log: seq<Entry>, recs: seq<nat>, i: nat)
    requires i in recs
    ensures Settled(log + Deliveries(recs), i)
  {
    var k :| 0 <= k < |recs| && recs[k] == i;
    assert (log + Deliveries(recs))[|log| + k] == Delivered(i);
  }

  /** Saving keeps the log safe when everything before the saved position is covered. */
  lemma SaveSound(r: Runner, cfg: Config, a: Answers, processed: seq<nat>, f: nat)
    requires Safe(r.log) && CoveredBelow(r, f) && !cfg.ahead && a.at.None?
    requires forall k :: 0 <= k < |processed| ==> processed[k] < f
    ensures var r' := Save(r, cfg, a, processed).0;
            && Safe(r'.log) && CoveredBelow(r', f) && r.log <= r'.log && (Timed(r) ==> Timed(r'))
            && r' == r.(log := r'.log, blocked := r'.blocked, breaker := r'.breaker,
                        lastSave := r'.lastSave, unsaved := r'.unsaved)
  {
    var r' := Save(r, cfg, a, processed).0;
    if processed != [] && !r.blocked {
      var p := processed[|processed| - 1] + 1;
      assert SettledBelow(r.log, p) by {
        forall i: nat | i < p ensures Settled(r.log, i) { assert Covered(r, i); }
      }
      SafeSave(r.log, p);
    }
    CoveredBelowGrows(r, r', f);
  }

  lemma FlushSound(r: Runner, cfg: Config, a: Answers, force: bool, f: nat)
    requires Safe(r.log) && CoveredBelow(r, f) && !cfg.ahead && a.at.None?
    requires forall k :: 0 <= k < |r.pending| ==> r.pending[k] < f
    ensures Sound(r, FlushPending(r, cfg, a, force), f)
    ensures FlushPending(r, cfg, a, force).clock == r.clock
  {
    SaveSound(r, cfg, a, r.pending, f);
    CoveredBelowGrows(r, FlushPending(r, cfg, a, force), f);
  }

  /** This commit gives up on its survivors while waiting for the breaker: they reach neither the sink
      nor the dead-letter queue, and nothing blocks a later checkpoint. */
  predicate Drops(r: Runner, cfg: Config, a: Answers, budget: nat) {
    && r.batch != []
    && !ChainFailed(cfg, a, r.batch)
    && Survivors(cfg, a, Input(r, a, r.batch)) != []
    && Abandons(AtBreaker(r, cfg, a), cfg, a, budget)
    && !AtBreaker(r, cfg, a).blocked
  }

  /** Some record of the batch is dropped because of what a transform remembers, or no longer does. */
  predicate Forgets(r: Runner, a: Answers) { exists i :: i in r.batch && Forgotten(FateOf(a, i)) }

  predicate InFlight(r: Runner, f: nat) {
    && f <= r.next
    && r.batch + r.queue == Range(f, r.next)
    && forall k :: 0 <= k < |r.pending| ==> r.pending[k] < f
  }

  /** Everything below g is covered and so is what waits for a save; nothing else of the runner changed, and the
      clock has not gone back. */
  predicate Sound(r: Runner, r': Runner, g: nat) {
    && Safe(r'.log) && CoveredBelow(r', g) && r.log <= r'.log && r.clock <= r'.clock && (Timed(r) ==> Timed(r'))
    && (forall k :: 0 <= k < |r'.pending| ==> r'.pending[k] < g)
    && r' == r.(log := r'.log, blocked := r'.blocked, breaker := r'.breaker, clock := r'.clock,
                lastSave := r'.lastSave, unsaved := r'.unsaved, pending := r'.pending)
  }

  lemma RefusedSound(r: Runner, cfg: Config, a: Answers, survivors: seq<nat>, f: nat, g: nat)
    requires a.sink.Refuses? && f <= g && Safe(r.log) && CoveredBelow(r, f)
    requires forall i: nat :: f <= i < g ==> i in survivors || Covered(r, i)
    requires forall k :: 0 <= k < |r.pending| ==> r.pending[k] < f
    ensures Sound(r, Refused(r, cfg, a, survivors), g)
  {
    var r' := Refused(r, cfg, a, survivors);
    var (good, bad) := AfterRefusal(a.sink, survivors);
    var r0 := Trip(r, cfg);
    var r1 := r0.(log := r0.log + Deliveries(good));
    SafeExtend(r.log, r1.log);
    HandleEachCovers(r1, cfg, a, bad);
    SafeExtend(r1.log, r'.log);
    forall i: nat | i < g ensures Covered(r', i) {
      if i < f || i !in survivors { CoveredGrows(r, r', i); }
      else {
        RefusalSplits(a.sink, survivors, i);
        if i in good { DeliveriesSettle(r0.log, good, i); CoveredGrows(r1, r', i); }
      }
    }
  }

  lemma AcceptedSound(r: Runner, cfg: Config, a: Answers, batch: seq<nat>, input: seq<nat>, f: nat, g: nat)
    requires f <= g && Safe(r.log) && CoveredBelow(r, f) && !cfg.ahead && a.at.None?
    requires forall i: nat :: f <= i < g ==> i in Survivors(cfg, a, input) || Covered(r, i)
    requires forall k :: 0 <= k < |r.pending| ==> r.pending[k] < f
    requires forall k :: 0 <= k < |batch| ==> batch[k] < g
    ensures Sound(r, Accepted(r, cfg, a, batch, input), g)
  {
    hide FlagSafe, FlushPending, Survivors;
    var survivors := Survivors(cfg, a, input);
    var r1 := Landed(r, cfg, survivors);
    SafeExtend(r.log, r1.log);
    forall i: nat | i < g ensures Covered(r1, i) {
      if i < f || i !in survivors { CoveredGrows(r, r1, i); } else { DeliveriesSettle(r.log, survivors, i); }
    }
    CoveredBelowGrows(r1, BoundaryError(r1, cfg), g);
    var r3 := r1.(unsaved := r1.unsaved + 1, pending := r1.pending + batch);
    CoveredBelowGrows(r1, r3, g);
    FlushSound(r3, cfg, a, true, g);
  }

  /** What a commit has done when it comes to the breaker. */
  lemma AtBreakerCovers(r: Runner, cfg: Config, a: Answers, f: nat)
    requires Plain(cfg) && r.held == [] && Timely(r, a) && Safe(r.log) && CoveredBelow(r, f)
    ensures var r1 := AtBreaker(r, cfg, a);
            && Safe(r1.log) && CoveredBelow(r1, f) && r.log <= r1.log && r.clock <= r1.clock
            && (Timed(r) ==> Timed(r1)) && (r1.blocked || r1.breaker == r.breaker)
            && r1 == r.(log := r1.log, blocked := r1.blocked, breaker := r1.breaker, clock := r1.clock)
    ensures forall i :: i in r.batch && !Forgotten(FateOf(a, i)) ==>
              || (!ChainFailed(cfg, a, r.batch) && i in Survivors(cfg, a, Input(r, a, r.batch)))
              || Covered(AtBreaker(r, cfg, a), i)
  {
    hide BeforeSink, Survivors;
    var r0 := r.(clock := a.now + a.early);
    var r1 := BeforeSink(r0, cfg, a, r.batch);
    BeforeSinkCovers(r0, cfg, a, r.batch);
    SafeExtend(r.log, r1.log);
    CoveredBelowGrows(r, AtBreaker(r, cfg, a), f);
    forall i | i in r.batch && Covered(r1, i) ensures Covered(AtBreaker(r, cfg, a), i) {
      CoveredGrows(r1, AtBreaker(r, cfg, a), i);
    }
  }

  lemma WriteBatchSound(r: Runner, cfg: Config, a: Answers, budget: nat, f: nat, g: nat)
    requires Plain(cfg) && r.held == [] && Timely(r, a) && a.at.None?
    requires f <= g && Safe(r.log) && CoveredBelow(r, f) && r.batch != []
    requires forall i: nat :: f <= i < g ==> i in r.batch
    requires forall k :: 0 <= k < |r.batch| ==> r.batch[k] < g
    requires forall k :: 0 <= k < |r.pending| ==> r.pending[k] < f
    requires !Drops(r, cfg, a, budget) && !Forgets(r, a)
    ensures Sound(r, WriteBatch(r, cfg, a, budget), g)
  {
    hide AtBreaker, Survivors, EmptyMaySave, Refused, Accepted, Save, Input, ChainFailed;
    var r1, input := AtBreaker(r, cfg, a), Input(r, a, r.batch);
    AtBreakerCovers(r, cfg, a, f);
    var survivors := Survivors(cfg, a, input);
    if ChainFailed(cfg, a, r.batch) {
    } else if survivors == [] {
      SaveSound(r1, cfg, a, r.batch, g);
    } else if Abandons(r1, cfg, a, budget) {
      assert r1.blocked;
    } else {
      var r2 := PastBreaker(r1, cfg, a);
      CoveredBelowGrows(r1, r2, f);
      forall i: nat | f <= i < g ensures i in survivors || Covered(r2, i) {
        if i !in survivors { CoveredGrows(r1, r2, i); }
      }
      if a.sink.Refuses? { RefusedSound(r2, cfg, a, survivors, f, g); }
      else { AcceptedSound(r2, cfg, a, r.batch, input, f, g); }
    }
  }

  /** A commit that gives up writes nothing more, and saves nothing. */
  lemma DropSaves(r: Runner, cfg: Config, a: Answers, budget: nat, f: nat)
    requires Plain(cfg) && r.held == [] && Timely(r, a) && Drops(r, cfg, a, budget)
    requires Safe(r.log) && CoveredBelow(r, f) && forall k :: 0 <= k < |r.pending| ==> r.pending[k] < f
    ensures Sound(r, WriteBatch(r, cfg, a, budget), f)
  {
    hide AtBreaker, Survivors, Input, ChainFailed, WriteSink, Save;
    AtBreakerCovers(r, cfg, a, f);
    CoveredBelowGrows(AtBreaker(r, cfg, a), WriteBatch(r, cfg, a, budget), f);
  }

  /** A commit that does not drop its batch covers all of it and keeps the log safe; one that does leaves it behind. */
  lemma CommitSound(r: Runner, cfg: Config, a: Answers, budget: nat, f: nat)
    requires Plain(cfg) && r.held == [] && Timely(r, a) && a.at.None? && !Forgets(r, a)
    requires Safe(r.log) && CoveredBelow(r, f) && InFlight(r, f)
    ensures var r', g := Commit(r, cfg, a, budget), if Drops(r, cfg, a, budget) then f else f + |r.batch|;
            && Safe(r'.log) && CoveredBelow(r', g) && r.log <= r'.log && r.clock <= r'.clock && (Timed(r) ==> Timed(r'))
            && (forall k :: 0 <= k < |r'.pending| ==> r'.pending[k] < g)
            && r'.batch == [] && r'.next == r.next && r'.queue == r.queue == Range(f + |r.batch|, r.next)
            && r'.up == r.up && r'.held == []
  {
    var batch, g := r.batch, f + |r.batch|;
    assert forall k :: 0 <= k < |batch| ==> batch[k] == (r.batch + r.queue)[k] == f + k;
    assert r.queue == Range(f, r.next)[|batch|..] == Range(g, r.next);
    if batch == [] { return; }
    forall i: nat | f <= i < g ensures i in batch { assert batch[i - f] == i; }
    var r1 := WriteBatch(r, cfg, a, budget);
    if Drops(r, cfg, a, budget) {
      DropSaves(r, cfg, a, budget, f);
      CoveredBelowGrows(r1, r1.(batch := []), f);
    } else {
      WriteBatchSound(r, cfg, a, budget, f, g);
      CoveredBelowGrows(r1, r1.(batch := []), g);
    }
  }

  // ---------------------------------------------------------------- the breaker in time

  /** A breaker whose cooldown fits twice into the budget never makes a commit give up. */
  predicate Patient(cfg: Config, budget: nat) { cfg.breaker.Some? ==> 2 * Cooldown(cfg.breaker.value) <= budget }

  lemma PatienceHolds(r: Runner, cfg: Config, a: Answers, budget: nat)
    requires cfg.window == NoWindow && r.held == [] && Timed(r) && Timely(r, a) && Patient(cfg, budget)
    ensures !Drops(r, cfg, a, budget)
  {
    BeforeSinkCovers(r.(clock := a.now + a.early), cfg, a, r.batch);
    hide BeforeSink, Survivors, Input;
  }

  // ---------------------------------------------------------------- whole runs

  /** Some commit of the event forgets a record; or, other than the last one of the run, drops its batch. */
  predicate Loses(r: Runner, cfg: Config, e: Event)
    decreases e
  {
    match e
    case Take(a) =>
      && r.queue != [] && |r.batch| + 1 >= BatchSize(cfg)
      && var r1 := r.(batch := r.batch + [r.queue[0]], queue := r.queue[1..]);
         Drops(r1, cfg, a, COMMIT_TIMEOUT) || Forgets(r1, a)
    case Tick(a, _) => Drops(r, cfg, a, COMMIT_TIMEOUT) || Forgets(r, a)
    case Stop(a, _) => Forgets(r, a)
    case Finish(a, _, _) => Forgets(r, a)
    case Crash(_, during) => during.Some? && Loses(r, cfg, during.value)
    case _ => false
  }

  /** The last commit of the run drops its batch. */
  predicate LeavesBehind(r: Runner, cfg: Config, a: Answers) {
    Drops(r.(unsaved := SAVE_EVERY), cfg, a, SHUTDOWN_TIMEOUT)
  }

  /** The records in flight are consecutive, and everything before them is settled unless checkpoints
      are blocked. */
  ghost predicate Inv(r: Runner) {
    && Safe(r.log) && Timed(r) && r.held == []
    && (r.up ==> exists f: nat :: InFlight(r, f) && CoveredBelow(r, f))
  }

  lemma ShutdownSound(r: Runner, cfg: Config, a: Answers, b: Answers, f: nat)
    requires Plain(cfg) && r.held == [] && Timed(r) && Timely(r, a) && a.at.None? && b.at.None?
    requires Safe(r.log) && CoveredBelow(r, f) && InFlight(r, f) && Timely(LastWrite(r, cfg, a), b) && !Forgets(r, a)
    ensures var r' := Shutdown(r, cfg, a, b);
            && Safe(r'.log) && r.log <= r'.log && Timed(r') && r'.held == []
            && (!LeavesBehind(r, cfg, a) ==> CoveredBelow(r', f + |r.batch|))
  {
    hide Commit, FlushPending, Drops;
    var r0 := if r.batch == [] then r else r.(unsaved := SAVE_EVERY);
    CoveredBelowGrows(r, r0, f);
    CommitSound(r0, cfg, a, SHUTDOWN_TIMEOUT, f);
    if r.batch == [] { NothingToDrop(r, cfg, a, SHUTDOWN_TIMEOUT); }
    var r1 := LastWrite(r, cfg, a);
    var g := if Drops(r0, cfg, a, SHUTDOWN_TIMEOUT) then f else f + |r.batch|;
    var r2 := r1.(clock := b.now);
    CoveredBelowGrows(r1, r2, g);
    FlushSound(r2, cfg, b, true, g);
  }

  lemma NothingToDrop(r: Runner, cfg: Config, a: Answers, budget: nat)
    requires r.batch == []
    ensures !Drops(r, cfg, a, budget)
  {}

  lemma TakeKeepsInv(r: Runner, cfg: Config, e: Event)
    requires e.Take? && Plain(cfg) && Inv(r) && Enabled(r, cfg, e) && !Loses(r, cfg, e)
    ensures Inv(Step(r, cfg, e)) && r.log <= Step(r, cfg, e).log
  {
    var f: nat :| InFlight(r, f) && CoveredBelow(r, f);
    var r1 := r.(batch := r.batch + [r.queue[0]], queue := r.queue[1..]);
    assert r1.batch + r1.queue == r.batch + r.queue;
    CoveredBelowGrows(r, r1, f);
    assert InFlight(r1, f);
    hide Commit, Drops;
    if |r1.batch| >= BatchSize(cfg) {
      CommitSound(r1, cfg, e.a, COMMIT_TIMEOUT, f);
      assert InFlight(Step(r, cfg, e), f + |r1.batch|);
    }
  }

  lemma TickKeepsInv(r: Runner, cfg: Config, e: Event)
    requires e.Tick? && Plain(cfg) && Inv(r) && Enabled(r, cfg, e) && !Loses(r, cfg, e)
    ensures Inv(Step(r, cfg, e)) && r.log <= Step(r, cfg, e).log
  {
    hide Commit, FlushPending, Drops;
    var f: nat :| InFlight(r, f) && CoveredBelow(r, f);
    CommitSound(r, cfg, e.a, COMMIT_TIMEOUT, f);
    var r1 := Commit(r, cfg, e.a, COMMIT_TIMEOUT);
    var r2 := r1.(clock := e.b.now);
    CoveredBelowGrows(r1, r2, f + |r.batch|);
    FlushSound(r2, cfg, e.b, false, f + |r.batch|);
    assert InFlight(Step(r, cfg, e), f + |r.batch|);
  }

  lemma EndKeepsInv(r: Runner, cfg: Config, e: Event)
    requires (e.Stop? || e.Finish?) && Plain(cfg) && Inv(r) && Enabled(r, cfg, e) && !Loses(r, cfg, e)
    ensures Inv(Step(r, cfg, e)) && r.log <= Step(r, cfg, e).log
  {
    hide LastWrite, FlushAt;
    var f: nat :| InFlight(r, f) && CoveredBelow(r, f);
    ShutdownSound(r, cfg, e.a, e.b, f);
  }

  lemma QuietKeepsInv(r: Runner, cfg: Config, e: Event)
    requires (e.Start? || e.Read?) && Plain(cfg) && Inv(r) && Enabled(r, cfg, e)
    ensures Inv(Step(r, cfg, e)) && r.log <= Step(r, cfg, e).log
  {
    var r' := Step(r, cfg, e);
    if e.Start? {
      DurableSettled(r.log);
      assert InFlight(r', Durable(r.log)) && CoveredBelow(r', Durable(r.log));
    } else {
      var f: nat :| InFlight(r, f) && CoveredBelow(r, f);
      assert r'.batch + r'.queue == (r.batch + r.queue) + [r.next] == Range(f, r'.next);
      CoveredBelowGrows(r, r', f);
      assert InFlight(r', f);
    }
  }

  /** A crash keeps a beginning of the log the interrupted step would have written. */
  lemma CrashKeepsInv(r: Runner, cfg: Config, e: Event, s: Runner)
    requires e.Crash? && Inv(r) && Enabled(r, cfg, e) && Safe(s.log)
    requires s == if e.during.None? then r else Step(r, cfg, e.during.value)
    ensures Inv(Step(r, cfg, e))
  {
    hide Commit, LastWrite, Shutdown, FlushAt, Drained;
    SafePrefix(s.log, Min(|r.log| + e.k, |s.log|));
  }

  lemma {:induction false} StepKeepsInv(r: Runner, cfg: Config, e: Event)
    requires Plain(cfg) && Inv(r) && Enabled(r, cfg, e) && !Loses(r, cfg, e)
    ensures Inv(Step(r, cfg, e)) && (!e.Crash? ==> r.log <= Step(r, cfg, e).log)
    decreases e
  {
    if e.Crash? {
      if e.during.Some? { StepKeepsInv(r, cfg, e.during.value); }
      CrashKeepsInv(r, cfg, e, if e.during.None? then r else Step(r, cfg, e.during.value));
    } else {
      hide Step, Enabled, Loses, Inv;
      if e.Take? { TakeKeepsInv(r, cfg, e); }
      else if e.Tick? { TickKeepsInv(r, cfg, e); }
      else if e.Start? || e.Read? { QuietKeepsInv(r, cfg, e); }
      else { EndKeepsInv(r, cfg, e); }
    }
  }

  /** A run from the first start: every event was enabled when it happened. */
  ghost predicate IsRun(cfg: Config, es: seq<Event>)
    decreases |es|, 0
  {
    if es == [] then true
    else IsRun(cfg, es[..|es| - 1]) && Enabled(After(cfg, es[..|es| - 1]), cfg, es[|es| - 1])
  }

  ghost function After(cfg: Config, es: seq<Event>): Runner
    requires IsRun(cfg, es)
    decreases |es|, 1
  {
    if es == [] then INITIAL else Step(After(cfg, es[..|es| - 1]), cfg, es[|es| - 1])
  }

  /** No commit of the run, other than the last before a stop, dropped its batch at the breaker, and none forgot a
      record. */
  ghost predicate NeverLoses(cfg: Config, es: seq<Event>)
    requires IsRun(cfg, es)
  {
    es != [] ==> NeverLoses(cfg, es[..|es| - 1]) && !Loses(After(cfg, es[..|es| - 1]), cfg, es[|es| - 1])
  }

  lemma {:induction false} RunKeepsInv(cfg: Config, es: seq<Event>)
    requires Plain(cfg) && IsRun(cfg, es) && NeverLoses(cfg, es)
    ensures Inv(After(cfg, es))
  {
    if es != [] {
      hide Inv, Loses, Enabled, Step;
      RunKeepsInv(cfg, es[..|es| - 1]);
      StepKeepsInv(After(cfg, es[..|es| - 1]), cfg, es[|es| - 1]);
    } else {
      assert Inv(INITIAL);
    }
  }

  /** At-least-once. However often the runner crashed, stopped and restarted, and whatever the sink, the
      dead-letter queue and the store answered: each saved checkpoint covers only records settled before it,
      and the position the next start resumes from skips nobody. */
  lemma AtLeastOnce(cfg: Config, es: seq<Event>)
    requires Plain(cfg) && IsRun(cfg, es) && NeverLoses(cfg, es)
    ensures Safe(After(cfg, es).log)
    ensures SettledBelow(After(cfg, es).log, Durable(After(cfg, es).log))
  {
    RunKeepsInv(cfg, es);
    hide Step, Enabled, Loses;
    DurableSettled(After(cfg, es).log);
  }

  /** A run that reads its source to the end has settled all of it, unless it announced that it was blocked or its
      last commit gave up at the breaker. */
  lemma FinishedRunSettlesAll(cfg: Config, es: seq<Event>, a: Answers, b: Answers, d: Option<Answers>)
    requires Plain(cfg) && IsRun(cfg, es) && NeverLoses(cfg, es)
    requires Enabled(After(cfg, es), cfg, Finish(a, b, d)) && After(cfg, es).next == cfg.length
    requires !LeavesBehind(After(cfg, es), cfg, a) && !Forgets(After(cfg, es), a)
    ensures var r := Step(After(cfg, es), cfg, Finish(a, b, d));
            r.blocked || SettledBelow(r.log, cfg.length)
  {
    var r := After(cfg, es);
    RunKeepsInv(cfg, es);
    FinishSettles(r, cfg, a, b, d);
  }

  lemma FinishSettles(r: Runner, cfg: Config, a: Answers, b: Answers, d: Option<Answers>)
    requires Plain(cfg) && Inv(r) && Enabled(r, cfg, Finish(a, b, d)) && r.next == cfg.length && !LeavesBehind(r, cfg, a) && !Forgets(r, a)
    ensures var r' := Step(r, cfg, Finish(a, b, d)); r'.blocked || SettledBelow(r'.log, cfg.length)
  {
    hide LastWrite, FlushAt, LeavesBehind;
    var f: nat :| InFlight(r, f) && CoveredBelow(r, f);
    assert |r.batch + r.queue| == cfg.length - f;
    ShutdownSound(r, cfg, a, b, f);
    var r' := Step(r, cfg, Finish(a, b, d));
    var s := Shutdown(r, cfg, a, b);
    if !r'.blocked {
      forall i: nat | i < cfg.length ensures Settled(r'.log, i) { assert Covered(s, i); }
    }
  }
}
