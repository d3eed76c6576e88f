/** Runs of the linear runner built step by step: what a commit of a single record comes to. */
module LinearRunnerReach {
  import opened CircuitBreaker
  import opened Prelude
  import opened LinearRunner
  import opened LinearRunnerSafety

  ghost predicate Reachable(cfg: Config, r: Runner) {
    exists es :: IsRun(cfg, es) && After(cfg, es) == r
  }

  lemma ReachInitial(cfg: Config)
    ensures Reachable(cfg, INITIAL)
  {
    assert IsRun(cfg, []) && After(cfg, []) == INITIAL;
  }

  lemma ReachStep(cfg: Config, r: Runner, e: Event)
    requires Reachable(cfg, r) && Enabled(r, cfg, e)
    ensures Reachable(cfg, Step(r, cfg, e))
  {
    hide Step, Enabled;
    var es :| IsRun(cfg, es) && After(cfg, es) == r;
    var longer := es + [e];
    assert longer[..|longer| - 1] == es;
    assert IsRun(cfg, longer) && After(cfg, longer) == Step(r, cfg, e);
  }

  lemma ReachStarted(cfg: Config)
    ensures Reachable(cfg, INITIAL.(up := true))
  {
    ReachInitial(cfg);
    ReachStep(cfg, INITIAL, Start);
  }

  lemma ReachRead(cfg: Config, r: Runner)
    requires Reachable(cfg, r) && r.up && r.next < cfg.length
    ensures Reachable(cfg, r.(queue := r.queue + [r.next], next := r.next + 1))
  {
    ReachStep(cfg, r, Read);
  }

  /** The first record of the queue as a batch of its own. */
  function Alone(r: Runner): Runner
    requires r.queue != []
  {
    r.(batch := [r.queue[0]], queue := r.queue[1..])
  }

  /** That batch committed, whatever the batch size, and the flush timer after it. */
  function Push(r: Runner, cfg: Config, a: Answers, b: Answers): Runner
    requires r.queue != []
  {
    FlushAt(Commit(Alone(r), cfg, a, COMMIT_TIMEOUT), cfg, b, false)
  }

  predicate Plausible(r: Runner, cfg: Config, a: Answers, b: Answers)
    requires r.queue != []
  {
    && Timely(r, a) && a.at.None? && b.at.None? && Possible(r, cfg, a)
    && Timely(Commit(Alone(r), cfg, a, COMMIT_TIMEOUT), b)
  }

  lemma ReachPush(cfg: Config, r: Runner, a: Answers, b: Answers)
    requires Reachable(cfg, r) && r.up && r.queue != [] && r.batch == [] && Plausible(r, cfg, a, b)
    ensures Reachable(cfg, Push(r, cfg, a, b))
  {
    hide WriteBatch, Reachable, FlushAt;
    var r2 := Alone(r);
    assert r.batch + [r.queue[0]] == [r.queue[0]];
    ReachStep(cfg, r, Take(a));
    CommitKeepsUp(r2, cfg, a, COMMIT_TIMEOUT);
    if 1 >= BatchSize(cfg) {
      var r3 := Commit(r2, cfg, a, COMMIT_TIMEOUT);
      ReachStep(cfg, r3, Tick(a.(now := r3.clock, fates := map[]), b));
    } else {
      ReachStep(cfg, r2, Tick(a, b));
    }
  }

  lemma CommitKeepsUp(r: Runner, cfg: Config, a: Answers, budget: nat)
    requires r.batch != []
    ensures Commit(r, cfg, a, budget).up == r.up && Commit(r, cfg, a, budget).batch == []
  {
    WriteKeepsUp(r, cfg, a, budget);
    hide WriteBatch;
  }

  lemma {:induction false} HandleKeepsUp(r: Runner, cfg: Config, a: Answers, recs: seq<nat>)
    ensures HandleEach(r, cfg, a, recs).up == r.up
    decreases |recs|
  {
    if recs != [] { HandleKeepsUp(HandleFailed(r, cfg, a, recs[0]), cfg, a, recs[1..]); }
  }

  lemma {:induction false} TransformKeepsUp(r: Runner, cfg: Config, a: Answers, recs: seq<nat>)
    ensures Transform(r, cfg, a, recs).up == r.up
    decreases |recs|
  {
    if recs != [] { TransformKeepsUp(Pass(r, cfg, a, recs[0]), cfg, a, recs[1..]); }
  }

  lemma BeforeKeepsUp(r: Runner, cfg: Config, a: Answers, batch: seq<nat>)
    ensures BeforeSink(r, cfg, a, batch).up == r.up
  {
    hide HandleEach, Transform, Having, Input;
    var input := Input(r, a, batch);
    var r1 := HandleEach(r, cfg, a, Having(batch, a, Only(Rejected)));
    HandleKeepsUp(r, cfg, a, Having(batch, a, Only(Rejected)));
    var r2 := Absorb(r1, cfg, a, input);
    HandleKeepsUp(r2, cfg, a, Having(batch, a, NotRejected));
    TransformKeepsUp(r2, cfg, a, input);
    HandleKeepsUp(Transform(r2, cfg, a, input), cfg, a, Having(input, a, Only(NoKey)));
  }

  lemma WriteKeepsUp(r: Runner, cfg: Config, a: Answers, budget: nat)
    ensures WriteBatch(r, cfg, a, budget).up == r.up
  {
    hide BeforeSink, Survivors, EmptyMaySave, HandleEach, FlagSafe, Input, ChainFailed, AfterRefusal;
    BeforeKeepsUp(r.(clock := a.now + a.early), cfg, a, r.batch);
    var r2 := PastBreaker(AtBreaker(r, cfg, a), cfg, a);
    if a.sink.Refuses? {
      var (good, bad) := AfterRefusal(a.sink, Survivors(cfg, a, Input(r, a, r.batch)));
      var r1 := Trip(r2, cfg);
      HandleKeepsUp(r1.(log := r1.log + Deliveries(good)), cfg, a, bad);
    }
  }

  // ---------------------------------------------------------------- one record

  /** Everything goes well, apart from what the sink may say and the fate of the records named. */
  function Fine(now: nat, elapsed: nat, sink: SinkAnswer, fates: map<nat, Fate>, released: set<nat>): Answers {
    Answers(now, 0, elapsed, 0, fates, released, Works, {}, sink, Saves, None)
  }

  lemma {:induction false} ReleasesNone(held: seq<nat>, a: Answers)
    requires a.released == {}
    ensures Releasing(held, a, true) == [] && Releasing(held, a, false) == held
  {
    if held != [] { ReleasesNone(held[1..], a); }
  }

  lemma HavingOne(i: nat, a: Answers, w: Which)
    ensures Having([i], a, w) == if Picks(w, FateOf(a, i)) then [i] else []
    ensures Having([], a, w) == []
  {
    assert [i][1..] == [];
  }

  function Store(cfg: Config, held: seq<nat>): seq<Entry> { if cfg.window == Persisted then [Stored(held)] else [] }

  /** What the transforms write down when one record goes through to the sink. */
  function Notes(cfg: Config, held: seq<nat>, i: nat): seq<Entry> { Store(cfg, held) + Mark(cfg, i) }

  /** One accepted record and no window closing: the transforms work on that record alone. */
  lemma OneInput(r: Runner, cfg: Config, a: Answers, i: nat)
    requires a.released == {} && a.chain == Works && FateOf(a, i) != Rejected
    ensures Having([i], a, NotRejected) == [i] && Having([i], a, Only(Rejected)) == [] && Input(r, a, [i]) == [i]
    ensures Having([i], a, Only(Absorbed)) == (if FateOf(a, i) == Absorbed then [i] else [])
    ensures Having([i], a, Only(NoKey)) == if FateOf(a, i) == NoKey then [i] else []
    ensures Releasing(r.held, a, false) == r.held && !ChainFailed(cfg, a, [i])
  {
    ReleasesNone(r.held, a);
    forall w ensures Having([i], a, w) == if Picks(w, FateOf(a, i)) then [i] else [] { HavingOne(i, a, w); }
    assert Releasing(r.held, a, true) + [i] == [i];
  }

  lemma TransformOne(r: Runner, cfg: Config, a: Answers, i: nat)
    ensures Transform(r, cfg, a, [i]) == Pass(r, cfg, a, i) && HandleEach(r, cfg, a, []) == r
  {
    assert [i][1..] == [];
    assert Transform(Pass(r, cfg, a, i), cfg, a, []) == Pass(r, cfg, a, i);
  }

  /** What happens to that record before the sink. */
  lemma OnePasses(r: Runner, cfg: Config, a: Answers, i: nat)
    requires r.batch == [i] && a.released == {} && a.chain == Works && FateOf(a, i) != Rejected && FateOf(a, i) != NoKey
    ensures AtBreaker(r, cfg, a) ==
            Pass(Absorb(r.(clock := a.now + a.early), cfg, a, [i]), cfg, a, i).(clock := a.now + a.elapsed)
  {
    hide Having, Input, Releasing, ChainFailed, Pass, Absorb;
    var r0 := r.(clock := a.now + a.early);
    OneInput(r0, cfg, a, i);
    TransformOne(r0, cfg, a, i);
    var r1 := Absorb(r0, cfg, a, [i]);
    TransformOne(r1, cfg, a, i);
    TransformOne(Pass(r1, cfg, a, i), cfg, a, i);
  }

  /** One accepted record that nothing goes wrong with, before the sink: only what is remembered changes. */
  lemma OneBefore(r: Runner, cfg: Config, a: Answers, i: nat)
    requires r.batch == [i] && a.released == {} && a.chain == Works && (cfg.window == NoWindow ==> r.held == [])
    requires FateOf(a, i) == Clean || (FateOf(a, i) == Absorbed && cfg.window != NoWindow)
    ensures Input(r, a, [i]) == [i] && !ChainFailed(cfg, a, [i])
    ensures AtBreaker(r, cfg, a) ==
            if FateOf(a, i) == Absorbed
            then r.(clock := a.now + a.elapsed, held := r.held + [i], log := r.log + Store(cfg, r.held + [i]))
            else r.(clock := a.now + a.elapsed, log := r.log + Notes(cfg, r.held, i))
  {
    hide AtBreaker, Having, Input, Releasing, ChainFailed;
    OneInput(r, cfg, a, i);
    OnePasses(r, cfg, a, i);
    assert r.held + [] == r.held && r.log + [] == r.log;
    assert r.log + Store(cfg, r.held) + Mark(cfg, i) == r.log + Notes(cfg, r.held, i);
  }

  /** A clean record that gets its turn is delivered and waits for, or gets, its save. */
  lemma OneDelivered(r: Runner, cfg: Config, a: Answers, i: nat)
    requires r.batch == [i] && a.released == {} && a.chain == Works && (cfg.window == NoWindow ==> r.held == [])
    requires FateOf(a, i) == Clean && a.sink == Accepts
    ensures var r1 := r.(clock := a.now + a.elapsed, log := r.log + Notes(cfg, r.held, i));
            if Abandons(r1, cfg, a, COMMIT_TIMEOUT)
            then Commit(r, cfg, a, COMMIT_TIMEOUT) == r1.(clock := Max(r1.clock, a.now + COMMIT_TIMEOUT), batch := [])
            else Commit(r, cfg, a, COMMIT_TIMEOUT) ==
                 Enqueue(Landed(PastBreaker(r1, cfg, a), cfg, [i]), cfg, a, [i]).(batch := [])
  {
    hide AtBreaker, FlagSafe, Survivors, Enqueue, Landed, Input, EmptyMaySave, ChainFailed, Notes, Abandons, PastBreaker,
      Refused, Save;
    OneBefore(r, cfg, a, i);
    OneFit(cfg, a, i);
  }

  function Reset(r: Runner, cfg: Config): Breaker {
    if cfg.breaker.Some? then RecordSuccess(r.breaker) else r.breaker
  }

  /** The first clean record of a run is delivered and saved at once. */
  lemma OneSaved(r: Runner, cfg: Config, a: Answers, i: nat)
    requires r.batch == [i] && a.released == {} && a.chain == Works && (cfg.window == NoWindow ==> r.held == [])
    requires FateOf(a, i) == Clean && a.sink == Accepts && a.save == Saves && a.at.None? && a.took == 0
    requires r.lastSave.None? && r.pending == [] && !r.blocked && r.breaker.mode == Closed
    ensures var t := a.now + a.elapsed;
            Commit(r, cfg, a, COMMIT_TIMEOUT) ==
            r.(clock := t, lastSave := Some(t), unsaved := 0, breaker := Reset(r, cfg), batch := [],
               log := r.log + Notes(cfg, r.held, i) + [Delivered(i), Saved(if cfg.ahead then r.next else i + 1)])
  {
    hide Commit, Notes, Enqueue, PastBreaker, Abandons;
    OneDelivered(r, cfg, a, i);
    var r1 := r.(clock := a.now + a.elapsed, log := r.log + Notes(cfg, r.held, i));
    ClosedBreaker(r1, cfg, a);
    assert Deliveries([i]) == [Delivered(i)];
    EnqueueSaves(Landed(r1, cfg, [i]), cfg, a, i);
    assert r1.log + [Delivered(i)] + [Saved(if cfg.ahead then r.next else i + 1)]
        == r1.log + [Delivered(i), Saved(if cfg.ahead then r.next else i + 1)];
  }

  lemma ClosedBreaker(r: Runner, cfg: Config, a: Answers)
    requires r.breaker.mode == Closed && a.took == 0
    ensures !Abandons(r, cfg, a, COMMIT_TIMEOUT) && PastBreaker(r, cfg, a) == r
  {}

  lemma EnqueueSaves(r: Runner, cfg: Config, a: Answers, i: nat)
    requires r.lastSave.None? && r.pending == [] && !r.blocked && a.save == Saves && a.at.None?
    ensures Enqueue(r, cfg, a, [i]) ==
            r.(lastSave := Some(r.clock), unsaved := 0, log := r.log + [Saved(if cfg.ahead then r.next else i + 1)])
  {
    assert r.pending + [i] == [i];
  }

  /** The timer has nothing to save. */
  lemma NothingPending(r: Runner, cfg: Config, b: Answers, force: bool)
    requires r.pending == []
    ensures FlushAt(r, cfg, b, force) == r.(clock := b.now)
  {}

  lemma OneFit(cfg: Config, a: Answers, i: nat)
    requires FateOf(a, i) == Clean
    ensures FlagSafe(cfg, a, [i], [i]) && Survivors(cfg, a, [i]) == [i]
  {
    forall w ensures Having([i], a, w) == if Picks(w, Clean) then [i] else [] { HavingOne(i, a, w); }
  }

  lemma NothingToSave(cfg: Config, a: Answers, i: nat)
    requires cfg.window != NoWindow && FateOf(a, i) == Absorbed
    ensures Survivors(cfg, a, [i]) == [] && !EmptyMaySave(cfg, a, [i], [i])
  {
    forall w ensures Having([i], a, w) == if Picks(w, Absorbed) then [i] else [] { HavingOne(i, a, w); }
  }

  /** A record a window absorbs is nowhere else, and its batch saves nothing. */
  lemma OneAbsorbed(r: Runner, cfg: Config, a: Answers, i: nat, budget: nat)
    requires r.batch == [i] && a.released == {} && a.chain == Works && cfg.window != NoWindow && FateOf(a, i) == Absorbed
    ensures var held := r.held + [i];
            Commit(r, cfg, a, budget) == r.(clock := a.now + a.elapsed, held := held, log := r.log + Store(cfg, held), batch := [])
  {
    OneBefore(r, cfg, a, i);
    NothingToSave(cfg, a, i);
    hide AtBreaker, Input, ChainFailed, Store, EmptyMaySave, Survivors, WriteSink, Save, Abandons;
  }

  /** A write the sink refuses as a whole and takes one by one: delivered, counted as a failure, not saved. */
  lemma OneRecovered(r: Runner, cfg: Config, a: Answers, i: nat)
    requires r.batch == [i] && a.released == {} && a.chain == Works && cfg.window == NoWindow && !cfg.marks && r.held == []
    requires FateOf(a, i) == Clean && a.sink == Refuses([], {}) && !Abandons(r.(clock := a.now + a.elapsed), cfg, a, COMMIT_TIMEOUT)
    ensures var r2 := Trip(PastBreaker(r.(clock := a.now + a.elapsed), cfg, a), cfg);
            Commit(r, cfg, a, COMMIT_TIMEOUT) == r2.(log := r2.log + [Delivered(i)], batch := [])
  {
    OneBefore(r, cfg, a, i);
    HavingOne(i, a, Fit(cfg.keyed));
    var r1 := AtBreaker(r, cfg, a);
    assert r1 == r.(clock := a.now + a.elapsed) by { assert r.log + Notes(cfg, r.held, i) == r.log; }
    var r2 := Trip(PastBreaker(r1, cfg, a), cfg);
    assert Splits([i], {}) == ([i], []) by { assert [i][1..] == []; assert Splits([], {}) == ([], []); }
    assert Deliveries([i]) == [Delivered(i)];
    assert HandleEach(r2.(log := r2.log + [Delivered(i)]), cfg, a, []) == r2.(log := r2.log + [Delivered(i)]);
    hide AtBreaker, Input, ChainFailed, Abandons, RecordFailure;
  }

  // ---------------------------------------------------------------- one record forgotten

  /** A record that a transform drops for what it remembers, or does not: its batch of one has no survivor. */
  lemma OneForgotten(r: Runner, cfg: Config, a: Answers, i: nat)
    requires r.batch == [i] && a.released == {} && a.chain == Works && (cfg.window == NoWindow ==> r.held == [])
    requires Forgotten(FateOf(a, i))
    ensures var r1 := r.(clock := a.now + a.elapsed, log := r.log + Store(cfg, r.held));
            Commit(r, cfg, a, COMMIT_TIMEOUT) == (if Batching(cfg) then r1 else Save(r1, cfg, a, [i]).0).(batch := [])
  {
    ForgottenBefore(r, cfg, a, i);
    ForgottenEmpty(cfg, a, i);
    hide AtBreaker, Input, ChainFailed, Store, EmptyMaySave, Survivors, WriteSink, Save, Abandons, Batching;
  }

  lemma ForgottenBefore(r: Runner, cfg: Config, a: Answers, i: nat)
    requires r.batch == [i] && a.released == {} && a.chain == Works && (cfg.window == NoWindow ==> r.held == [])
    requires Forgotten(FateOf(a, i))
    ensures Input(r, a, [i]) == [i] && !ChainFailed(cfg, a, [i])
    ensures AtBreaker(r, cfg, a) == r.(clock := a.now + a.elapsed, log := r.log + Store(cfg, r.held))
  {
    hide AtBreaker, Having, Input, Releasing, ChainFailed;
    OneInput(r, cfg, a, i);
    OnePasses(r, cfg, a, i);
    assert r.held + [] == r.held && r.log + [] == r.log;
  }

  lemma ForgottenEmpty(cfg: Config, a: Answers, i: nat)
    requires Forgotten(FateOf(a, i))
    ensures Survivors(cfg, a, [i]) == [] && (EmptyMaySave(cfg, a, [i], [i]) <==> !Batching(cfg))
  {
    forall w ensures Having([i], a, w) == if Picks(w, FateOf(a, i)) then [i] else [] { HavingOne(i, a, w); }
  }
}
