/**
 Exactly when the linear runner keeps its promise of at-least-once delivery.

 Five things break it. A reader that answers with its own read position lets a checkpoint cover records still in
 the queue. A window holds records back over which checkpoints are saved. A transform that notes in a store which
 records it let through drops a record that is read again, although it never reached the sink. A transform that lets
 records through for the sake of earlier ones, and keeps those in memory, drops them once it has forgotten. And
 waiting for an open circuit breaker can end with the commit deadline instead of the cooldown; the batch is then given
 up without a dead-letter entry and without blocking later checkpoints.
 */
module LinearRunnerLimits {
  import opened CircuitBreaker
  import opened Prelude
  import opened LinearRunner
  import opened LinearRunnerSafety
  import opened LinearRunnerReach

  /** No run over any source loses a record. */
  ghost predicate Delivers(cfg: Config) {
    forall n: nat, es :: IsRun(cfg.(length := n), es) ==> NothingLost(After(cfg.(length := n), es).log)
  }

  lemma Refutes(cfg: Config, n: nat, r: Runner)
    requires Reachable(cfg.(length := n), r) && !NothingLost(r.log)
    ensures !Delivers(cfg)
  {
    hide NothingLost, Step, Enabled;
    var es :| IsRun(cfg.(length := n), es) && After(cfg.(length := n), es) == r;
    assert !NothingLost(After(cfg.(length := n), es).log);
  }

  lemma LostAt(log: seq<Entry>, i: nat)
    requires i < Durable(log) && !Settled(log, i) && i !in InStore(log)
    ensures !NothingLost(log)
  {
    assert log[..|log|] == log;
    assert !KeptBelow(log[..|log|], Durable(log[..|log|]));
  }

  const CALM := Fine(0, 0, Accepts, map[], {})

  /** The reader goes on to the next record. */
  function Fed(r: Runner): Runner { r.(queue := r.queue + [r.next], next := r.next + 1) }

  // ---------------------------------------------------------------- reading ahead

  /** Two records read, one written: the checkpoint covers both. */
  lemma AheadLoses(cfg: Config) returns (r: Runner)
    requires cfg.ahead && cfg.window == NoWindow && !cfg.marks && cfg.length >= 2
    ensures Reachable(cfg, r) && r.log == [Delivered(0), Saved(2)] && !NothingLost(r.log)
    ensures r.up && r.clock == 0
  {
    hide Reachable;
    ReachStarted(cfg);
    var r0 := INITIAL.(up := true);
    ReachRead(cfg, r0);
    ReachRead(cfg, Fed(r0));
    var r1 := Fed(Fed(r0));
    assert r1.queue == [0, 1] && Alone(r1).batch == [0];
    OneSaved(Alone(r1), cfg, CALM, 0);
    hide Commit, FlushAt;
    NothingPending(Commit(Alone(r1), cfg, CALM, COMMIT_TIMEOUT), cfg, CALM, false);
    ReachPush(cfg, r1, CALM, CALM);
    r := Push(r1, cfg, CALM, CALM);
    assert r.log == [Delivered(0), Saved(2)];
    assert InStore(r.log) == [] by { assert r.log[..1] == [Delivered(0)]; assert [Delivered(0)][..0] == []; }
    LostAt(r.log, 1);
  }

  // ---------------------------------------------------------------- windows

  /** Record 0 is held back by a window, record 1 is delivered, and the checkpoint covers both. */
  lemma ReachHeld(cfg: Config) returns (r: Runner)
    requires cfg.window != NoWindow && cfg.length >= 2
    ensures Reachable(cfg, r) && r.up && r.queue == [] && r.batch == [] && r.next == 2 && r.held == [0] && r.clock == 0
    ensures r.pending == [] && !r.blocked && r.breaker.mode == Closed
    ensures r.log == Store(cfg, [0]) + Notes(cfg, [0], 1) + [Delivered(1), Saved(2)]
  {
    hide Reachable;
    var r1 := ReachAbsorbed(cfg);
    ReachRead(cfg, r1);
    var r2 := Fed(r1);
    assert r2.queue == [1] && Alone(r2).batch == [1];
    OneSaved(Alone(r2), cfg, CALM, 1);
    hide Commit, FlushAt, Store, Notes;
    NothingPending(Commit(Alone(r2), cfg, CALM, COMMIT_TIMEOUT), cfg, CALM, false);
    ReachPush(cfg, r2, CALM, CALM);
    r := Push(r2, cfg, CALM, CALM);
  }

  lemma ReachAbsorbed(cfg: Config) returns (r: Runner)
    requires cfg.window != NoWindow && cfg.length >= 1
    ensures Reachable(cfg, r) && r == INITIAL.(up := true, next := 1, held := [0], log := Store(cfg, [0]))
  {
    hide Reachable;
    ReachStarted(cfg);
    var r0 := INITIAL.(up := true);
    ReachRead(cfg, r0);
    var r1, a := Fed(r0), Fine(0, 0, Accepts, map[0 := Absorbed], {});
    assert r1.queue == [0] && Alone(r1).batch == [0];
    OneAbsorbed(Alone(r1), cfg, a, 0, COMMIT_TIMEOUT);
    assert [] + [0] == [0] && [] + Store(cfg, [0]) == Store(cfg, [0]);
    ReachPush(cfg, r1, a, CALM);
    r := Push(r1, cfg, a, CALM);
  }

  /** The window of record 0 closes while record 2 comes in: the state store lets go of 0 before the sink has it. */
  const CLOSING := Fine(0, 0, Accepts, map[2 := Absorbed], {0})

  lemma ClosingInput(r: Runner)
    requires r.held == [0]
    ensures Having([2], CLOSING, NotRejected) == [2] && Having([2], CLOSING, Only(Rejected)) == []
    ensures Releasing([0], CLOSING, false) == [] && Input(r, CLOSING, [2]) == [0, 2]
    ensures Having([0, 2], CLOSING, Only(Absorbed)) == [2] && Having([0, 2], CLOSING, Only(NoKey)) == []
  {
    assert FateOf(CLOSING, 2) == Absorbed && FateOf(CLOSING, 0) == Clean;
    HavingOne(2, CLOSING, NotRejected);
    HavingOne(2, CLOSING, Only(Rejected));
    HavingOne(2, CLOSING, Only(Absorbed));
    HavingOne(2, CLOSING, Only(NoKey));
    assert [0][1..] == [] && [0, 2][1..] == [2];
    assert Releasing([], CLOSING, true) == [] && Releasing([], CLOSING, false) == [];
  }

  lemma ClosingStores(r: Runner, cfg: Config)
    requires cfg.window == Persisted && !cfg.marks && r.batch == [2] && r.held == [0]
    ensures AtBreaker(r, cfg, CLOSING).log == r.log + [Stored([2])]
  {
    var r0 := r.(clock := CLOSING.now + CLOSING.early);
    ClosingInput(r0);
    hide Having, Input, Releasing;
    assert HandleEach(r0, cfg, CLOSING, []) == r0;
    var r1 := Absorb(r0, cfg, CLOSING, [0, 2]);
    assert [] + [2] == [2];
    ClosingPasses(r1, cfg);
    assert HandleEach(r1, cfg, CLOSING, []) == r1;
  }

  lemma ClosingPasses(r: Runner, cfg: Config)
    requires cfg.window == Persisted && !cfg.marks
    ensures Transform(r, cfg, CLOSING, [0, 2]) == r
  {
    assert [0, 2][1..] == [2] && [2][1..] == [] && r.log + [] == r.log;
    assert Transform(r, cfg, CLOSING, [0, 2]) == Transform(r, cfg, CLOSING, [2]) == Transform(r, cfg, CLOSING, []);
  }

  lemma SaveExtends(r: Runner, cfg: Config, a: Answers, processed: seq<nat>)
    ensures r.log <= Save(r, cfg, a, processed).0.log
  {}

  lemma FlushExtends(r: Runner, cfg: Config, a: Answers, force: bool)
    ensures r.log <= FlushPending(r, cfg, a, force).log
  {
    SaveExtends(r, cfg, a, r.pending);
  }

  /** Nothing after the breaker takes entries back. */
  lemma WriteExtends(r: Runner, cfg: Config, a: Answers, budget: nat)
    ensures AtBreaker(r, cfg, a).log <= WriteBatch(r, cfg, a, budget).log
  {
    hide AtBreaker, Survivors, EmptyMaySave, FlagSafe, Input, ChainFailed, AfterRefusal, HandleEach, Save, FlushPending;
    var r1, input := AtBreaker(r, cfg, a), Input(r, a, r.batch);
    SaveExtends(r1, cfg, a, r.batch);
    var r2 := PastBreaker(r1, cfg, a);
    if a.sink.Refuses? {
      var (good, bad) := AfterRefusal(a.sink, Survivors(cfg, a, input));
      var r3 := Trip(r2, cfg);
      HandleEachCovers(r3.(log := r3.log + Deliveries(good)), cfg, a, bad);
    } else {
      var r3 := Landed(r2, cfg, Survivors(cfg, a, input));
      FlushExtends(r3.(unsaved := r3.unsaved + 1, pending := r3.pending + r.batch), cfg, a, true);
    }
  }

  /** A crash in the middle of a commit, in whichever step commits the batch. */
  lemma ReachCut(cfg: Config, r: Runner, a: Answers, cut: seq<Entry>) returns (r': Runner)
    requires Reachable(cfg, r) && r.up && r.batch == [] && |r.queue| == 1 && Timely(r, a) && a.at.None? && Possible(r, cfg, a)
    requires r.log <= cut <= Commit(Alone(r), cfg, a, COMMIT_TIMEOUT).log
    ensures Reachable(cfg, r') && r' == INITIAL.(log := cut, clock := r'.clock)
  {
    hide Reachable, Commit, FlushPending;
    var r2, k := Alone(r), |cut| - |r.log|;
    assert r.batch + [r.queue[0]] == [r.queue[0]];
    if 1 >= BatchSize(cfg) {
      ReachStep(cfg, r, Crash(k, Some(Take(a))));
      r' := Step(r, cfg, Crash(k, Some(Take(a))));
    } else {
      ReachStep(cfg, r, Take(a));
      var b := CALM.(now := Commit(r2, cfg, a, COMMIT_TIMEOUT).clock);
      FlushExtends(Commit(r2, cfg, a, COMMIT_TIMEOUT).(clock := b.now), cfg, b, false);
      ReachStep(cfg, r2, Crash(k, Some(Tick(a, b))));
      r' := Step(r2, cfg, Crash(k, Some(Tick(a, b))));
    }
  }

  lemma MemoryLoses(cfg: Config) returns (r: Runner)
    requires cfg.window == InMemory && !cfg.marks && cfg.length >= 2
    ensures Reachable(cfg, r) && r.log == [Delivered(1), Saved(2)] && !NothingLost(r.log)
  {
    hide Reachable;
    r := ReachHeld(cfg);
    assert r.log == [Delivered(1), Saved(2)];
    assert InStore(r.log) == [] by { assert r.log[..1] == [Delivered(1)]; assert [Delivered(1)][..0] == []; }
    LostAt(r.log, 0);
  }

  lemma PersistedLoses(cfg: Config) returns (r: Runner)
    requires cfg.window == Persisted && !cfg.marks && cfg.length >= 3
    ensures Reachable(cfg, r) && !NothingLost(r.log)
    ensures r.log == [Stored([0]), Stored([0]), Delivered(1), Saved(2), Stored([2])]
  {
    hide Reachable, NothingLost;
    var r0 := ReachHeld(cfg);
    ReachRead(cfg, r0);
    var r1 := Fed(r0);
    assert r1.queue == [2] && Alone(r1).batch == [2];
    ClosingStores(Alone(r1), cfg);
    WriteExtends(Alone(r1), cfg, CLOSING, COMMIT_TIMEOUT);
    hide WriteBatch, AtBreaker;
    r := ReachCut(cfg, r1, CLOSING, r0.log + [Stored([2])]);
    LogLoses(r.log);
  }

  lemma LogLoses(log: seq<Entry>)
    requires log == [Stored([0]), Stored([0]), Delivered(1), Saved(2), Stored([2])]
    ensures !NothingLost(log)
  {
    assert log[..4] == [Stored([0]), Stored([0]), Delivered(1), Saved(2)];
    assert Durable(log) == Durable(log[..4]) == 2;
    LostAt(log, 0);
  }

  /** With a window some run loses a record: at once where it lives in memory, in a crash where it is persisted. */
  lemma WindowLoses(cfg: Config) returns (r: Runner)
    requires cfg.window != NoWindow && !cfg.marks && cfg.length >= 3
    ensures Reachable(cfg, r) && !NothingLost(r.log)
  {
    if cfg.window == InMemory { r := MemoryLoses(cfg); } else { r := PersistedLoses(cfg); }
  }

  // ---------------------------------------------------------------- the breaker

  predicate Zeros(s: seq<nat>) { forall k :: 0 <= k < |s| ==> s[k] == 0 }

  lemma {:induction false} RecentZeros(s: seq<nat>, c: BreakerCfg)
    requires Zeros(s)
    ensures Recent(s, c, 0) == s
  {
    if s != [] { RecentZeros(s[1..], c); }
  }

  /** The first m records were delivered one by one after the sink had refused them, all at time 0. */
  predicate Failing(r: Runner, m: nat) {
    && r == INITIAL.(up := true, next := m, log := Deliveries(Range(0, m)), breaker := r.breaker)
    && |r.breaker.failures| == m && Zeros(r.breaker.failures) && r.breaker.trippedAt == 0 && r.breaker.mode != HalfOpen
  }

  /** One more such record. */
  lemma PushFailing(cfg: Config, r: Runner, m: nat) returns (r': Runner)
    requires Plain(cfg) && !cfg.marks && cfg.breaker.Some? && m < cfg.length
    requires Reachable(cfg, r) && Failing(r, m) && r.breaker.mode == Closed
    ensures Reachable(cfg, r') && Failing(r', m + 1)
    ensures r'.breaker.mode == Open <==> m + 1 >= MaxFailures(cfg.breaker.value)
  {
    hide Reachable;
    ReachRead(cfg, r);
    var r1, a := Fed(r), Fine(0, 0, Refuses([], {}), map[], {});
    assert r1.queue == [m] && Alone(r1).batch == [m];
    var r2 := Alone(r1);
    ClosedBreaker(r2, cfg, a);
    OneRecovered(r2, cfg, a, m);
    RecentZeros(r.breaker.failures, cfg.breaker.value);
    assert Deliveries(Range(0, m)) + [Delivered(m)] == Deliveries(Range(0, m + 1));
    hide Commit, FlushAt, Deliveries;
    NothingPending(Commit(r2, cfg, a, COMMIT_TIMEOUT), cfg, CALM, false);
    ReachPush(cfg, r1, a, CALM);
    r' := Push(r1, cfg, a, CALM);
  }

  lemma {:induction false} ReachOpen(cfg: Config, r: Runner, m: nat) returns (r': Runner)
    requires Plain(cfg) && !cfg.marks && cfg.breaker.Some? && m <= MaxFailures(cfg.breaker.value) <= cfg.length
    requires Reachable(cfg, r) && Failing(r, m) && (r.breaker.mode == Open <==> m == MaxFailures(cfg.breaker.value))
    ensures Reachable(cfg, r') && Failing(r', MaxFailures(cfg.breaker.value)) && r'.breaker.mode == Open
    decreases MaxFailures(cfg.breaker.value) - m
  {
    hide Reachable;
    if r.breaker.mode == Open { return r; }
    var r1 := PushFailing(cfg, r, m);
    r' := ReachOpen(cfg, r1, m + 1);
  }

  lemma ReachTripped(cfg: Config) returns (r: Runner)
    requires Plain(cfg) && !cfg.marks && cfg.breaker.Some? && MaxFailures(cfg.breaker.value) <= cfg.length
    ensures Reachable(cfg, r) && Failing(r, MaxFailures(cfg.breaker.value)) && r.breaker.mode == Open
  {
    hide Reachable;
    ReachStarted(cfg);
    var r0 := INITIAL.(up := true);
    assert Deliveries(Range(0, 0)) == [];
    r := ReachOpen(cfg, r0, 0);
  }

  /** A commit that comes to the breaker a second before its cooldown is over. */
  function Late(c: BreakerCfg): Answers { Fine(0, Cooldown(c) - 1, Accepts, map[], {}) }

  /** The record after them is given up: nobody has it, and nothing is blocked. */
  lemma ReachGivenUp(cfg: Config) returns (r: Runner, m: nat)
    requires Plain(cfg) && !cfg.marks && cfg.breaker.Some? && !Patient(cfg, COMMIT_TIMEOUT) && MaxFailures(cfg.breaker.value) < cfg.length
    ensures Reachable(cfg, r) && m == MaxFailures(cfg.breaker.value)
    ensures r == INITIAL.(up := true, next := m + 1, log := Deliveries(Range(0, m)), breaker := r.breaker, clock := r.clock)
    ensures r.breaker.mode == Open && r.breaker.trippedAt == 0
  {
    hide Reachable;
    m := MaxFailures(cfg.breaker.value);
    var r0 := ReachTripped(cfg);
    ReachRead(cfg, r0);
    var r1, a := Fed(r0), Late(cfg.breaker.value);
    assert r1.queue == [m] && Alone(r1).batch == [m];
    OneDelivered(Alone(r1), cfg, a, m);
    assert Deliveries(Range(0, m)) + Notes(cfg, [], m) == Deliveries(Range(0, m));
    hide Commit, FlushAt, Deliveries;
    var b := CALM.(now := Max(a.elapsed, COMMIT_TIMEOUT));
    NothingPending(Commit(Alone(r1), cfg, a, COMMIT_TIMEOUT), cfg, b, false);
    ReachPush(cfg, r1, a, b);
    r := Push(r1, cfg, a, b);
  }

  lemma MissingFromDeliveries(m: nat, more: seq<Entry>)
    requires Delivered(m) !in more && Dead(m) !in more && Skipped(m) !in more
    ensures !Settled(Deliveries(Range(0, m)) + more, m)
  {
    var log := Deliveries(Range(0, m)) + more;
    forall k | 0 <= k < |log| ensures log[k] != Delivered(m) && log[k] != Dead(m) && log[k] != Skipped(m) {
      if k >= m { assert log[k] == more[k - m]; assert log[k] in more; }
    }
  }

  lemma {:induction false} NothingStored(log: seq<Entry>)
    requires forall k :: 0 <= k < |log| ==> !log[k].Stored?
    ensures InStore(log) == []
  {
    if log != [] { NothingStored(log[..|log| - 1]); }
  }

  /** With a cooldown that does not fit twice into a commit, some run saves a checkpoint past a record that is nowhere. */
  lemma BreakerLoses(cfg: Config) returns (r: Runner, m: nat)
    requires Plain(cfg) && !cfg.marks && cfg.breaker.Some? && !Patient(cfg, COMMIT_TIMEOUT) && MaxFailures(cfg.breaker.value) + 2 <= cfg.length
    ensures Reachable(cfg, r) && r.log == Deliveries(Range(0, m)) + [Delivered(m + 1), Saved(m + 2)] && !NothingLost(r.log)
  {
    hide Reachable;
    var r0;
    r0, m := ReachGivenUp(cfg);
    ReachRead(cfg, r0);
    var r1 := Fed(r0);
    var a := Fine(r1.clock + Cooldown(cfg.breaker.value), 0, Accepts, map[], {});
    assert r1.queue == [m + 1] && Alone(r1).batch == [m + 1];
    ProbeSaves(Alone(r1), cfg, a, m + 1);
    hide Commit, FlushAt, Deliveries;
    NothingPending(Commit(Alone(r1), cfg, a, COMMIT_TIMEOUT), cfg, a, false);
    ReachPush(cfg, r1, a, a);
    r := Push(r1, cfg, a, a);
    MissingFromDeliveries(m, [Delivered(m + 1), Saved(m + 2)]);
    DeliveriesOnly(m, r.log, [Delivered(m + 1), Saved(m + 2)]);
    NothingStored(r.log);
    LostAt(r.log, m);
  }

  lemma DeliveriesOnly(m: nat, log: seq<Entry>, more: seq<Entry>)
    requires log == Deliveries(Range(0, m)) + more
    ensures forall k :: 0 <= k < |log| && !(log[k] in more) ==> log[k].Delivered?
  {}

  /** After the cooldown one write goes through as a probe, closes the breaker and is saved. */
  lemma ProbeSaves(r: Runner, cfg: Config, a: Answers, i: nat)
    requires Plain(cfg) && !cfg.marks && cfg.breaker.Some? && r.batch == [i] && r.held == [] && a.released == {} && a.chain == Works
    requires FateOf(a, i) == Clean && a.sink == Accepts && a.save == Saves && a.at.None? && a.took == 0 && a.elapsed == 0
    requires r.lastSave.None? && r.pending == [] && !r.blocked && r.breaker.mode == Open
    requires a.now - r.breaker.trippedAt >= Cooldown(cfg.breaker.value)
    ensures Commit(r, cfg, a, COMMIT_TIMEOUT) ==
            r.(clock := a.now, lastSave := Some(a.now), unsaved := 0, batch := [], log := r.log + [Delivered(i), Saved(i + 1)],
               breaker := r.breaker.(failures := [], mode := Closed))
  {
    hide Commit, Enqueue, PastBreaker, Abandons;
    OneDelivered(r, cfg, a, i);
    var r1 := r.(clock := a.now);
    assert r.log + Notes(cfg, r.held, i) == r.log;
    CooledBreaker(r1, cfg, a);
    assert Deliveries([i]) == [Delivered(i)];
    EnqueueSaves(Landed(PastBreaker(r1, cfg, a), cfg, [i]), cfg, a, i);
    assert r.log + [Delivered(i)] + [Saved(i + 1)] == r.log + [Delivered(i), Saved(i + 1)];
  }

  lemma CooledBreaker(r: Runner, cfg: Config, a: Answers)
    requires cfg.breaker.Some? && r.breaker.mode == Open && r.clock - r.breaker.trippedAt >= Cooldown(cfg.breaker.value)
    requires a.took == 0
    ensures !Abandons(r, cfg, a, COMMIT_TIMEOUT) && PastBreaker(r, cfg, a) == r.(breaker := r.breaker.(mode := HalfOpen))
  {}

  // ---------------------------------------------------------------- transforms that remember

  /** Nothing in the log accounts for the record, and windows hold nothing. */
  predicate Unknown(log: seq<Entry>, i: nat) {
    !Settled(log, i) && forall k :: 0 <= k < |log| && log[k].Stored? ==> log[k].held == []
  }

  lemma {:induction false} EmptyStore(log: seq<Entry>)
    requires forall k :: 0 <= k < |log| && log[k].Stored? ==> log[k].held == []
    ensures InStore(log) == []
  {
    if log != [] { EmptyStore(log[..|log| - 1]); }
  }

  lemma UnknownGrows(log: seq<Entry>, more: seq<Entry>, i: nat)
    requires Unknown(log, i) && Unknown(more, i)
    ensures Unknown(log + more, i)
  {
    var longer := log + more;
    forall k | 0 <= k < |longer| ensures longer[k] in log || longer[k] in more {}
  }

  lemma OthersUnknown(i: nat, j: nat)
    requires i != j
    ensures Unknown([Delivered(j)], i) && Unknown([Delivered(j), Saved(j + 1)], i)
  {}

  lemma NotesUnknown(cfg: Config, i: nat, j: nat)
    ensures Unknown(Notes(cfg, [], j), i) && Unknown(Store(cfg, []), i)
  {}

  /** A runner that has just started, or has finished what it started with, and knows nothing of record i. */
  predicate Fresh(r: Runner, i: nat) {
    && r == INITIAL.(up := true, log := r.log, next := r.next, base := r.base, clock := r.clock)
    && Unknown(r.log, i)
  }

  lemma ReachRestarted(cfg: Config, r: Runner, i: nat)
    requires Reachable(cfg, r) && r == INITIAL.(log := r.log, clock := r.clock) && Unknown(r.log, i)
    ensures var r' := INITIAL.(up := true, log := r.log, next := Durable(r.log), base := Durable(r.log), clock := r.clock);
            Reachable(cfg, r') && Fresh(r', i)
  {
    ReachStep(cfg, r, Start);
    EmptyStore(r.log);
  }

  /** Record i, read again, is dropped for what a transform remembers or does not. */
  function Dropping(r: Runner, i: nat, fate: Fate): Answers { Fine(r.clock, 0, Accepts, map[i := fate], {}) }

  lemma ForgottenCommit(r: Runner, cfg: Config, a: Answers, i: nat, fate: Fate)
    requires r.batch == [i] && r.held == [] && !r.blocked && r.next == i + 1 && Forgotten(fate) && a == Dropping(r, i, fate)
    ensures var r1 := r.(log := r.log + Store(cfg, []), batch := []);
            Commit(r, cfg, a, COMMIT_TIMEOUT) ==
            if Batching(cfg) then r1 else r1.(log := r1.log + [Saved(i + 1)], lastSave := Some(r.clock), unsaved := 0)
  {
    hide Commit, Store, Batching, Save;
    OneForgotten(r, cfg, a, i);
    SaveOne(r.(log := r.log + Store(cfg, [])), cfg, a, i);
  }

  lemma SaveOne(r: Runner, cfg: Config, a: Answers, i: nat)
    requires !r.blocked && a.save == Saves && a.at.None? && r.next == i + 1
    ensures Save(r, cfg, a, [i]).0 == r.(log := r.log + [Saved(i + 1)], lastSave := Some(r.clock), unsaved := 0)
  {}

  lemma ReachForgotten(cfg: Config, r: Runner, i: nat, fate: Fate) returns (r': Runner)
    requires Reachable(cfg, r) && Fresh(r, i) && r.next == i < cfg.length && Forgotten(fate)
    requires Possible(Fed(r), cfg, Dropping(r, i, fate))
    ensures Reachable(cfg, r') && r'.log == r.log + Store(cfg, []) + (if Batching(cfg) then [] else [Saved(i + 1)])
    ensures Batching(cfg) ==> Fresh(r', i) && r'.next == i + 1
    ensures r'.up && r'.queue == [] && r'.batch == [] && r'.pending == [] && r'.held == [] && !r'.blocked && r'.next == i + 1
  {
    hide Reachable, Unknown, Store, Batching, Forgotten, Commit, FlushAt;
    ReachRead(cfg, r);
    var r1, a, b := Fed(r), Dropping(r, i, fate), CALM.(now := r.clock);
    assert r1.queue == [i] && Alone(r1) == r1.(batch := [i], queue := []);
    ForgottenCommit(Alone(r1), cfg, a, i, fate);
    var r2 := Commit(Alone(r1), cfg, a, COMMIT_TIMEOUT);
    NothingPending(r2, cfg, b, false);
    ReachPush(cfg, r1, a, b);
    r' := Push(r1, cfg, a, b);
    assert r' == r2;
    StoreUnknown(r.log, cfg, i);
    assert r.log + Store(cfg, []) + [] == r.log + Store(cfg, []);
  }

  lemma StoreUnknown(log: seq<Entry>, cfg: Config, i: nat)
    requires Unknown(log, i)
    ensures Unknown(log + Store(cfg, []), i)
  {
    NotesUnknown(cfg, i, i);
    UnknownGrows(log, Store(cfg, []), i);
  }

  /** The next record is delivered and saved, past the one dropped. */
  lemma ReachPast(cfg: Config, r: Runner, i: nat) returns (r': Runner)
    requires Reachable(cfg, r) && Fresh(r, i) && r.next == i + 1 < cfg.length
    ensures Reachable(cfg, r') && r'.log == r.log + Notes(cfg, [], i + 1) + [Delivered(i + 1), Saved(i + 2)]
  {
    hide Reachable;
    ReachRead(cfg, r);
    var r1, a := Fed(r), CALM.(now := r.clock);
    assert r1.queue == [i + 1] && Alone(r1).batch == [i + 1];
    OneSaved(Alone(r1), cfg, a, i + 1);
    hide Commit, FlushAt, Notes;
    NothingPending(Commit(Alone(r1), cfg, a, COMMIT_TIMEOUT), cfg, a, false);
    ReachPush(cfg, r1, a, a);
    r' := Push(r1, cfg, a, a);
  }

  lemma SavedPast(log: seq<Entry>, i: nat, p: nat)
    requires Unknown(log, i) && i < p
    ensures !NothingLost(log + [Saved(p)])
  {
    var longer := log + [Saved(p)];
    UnknownGrows(log, [Saved(p)], i);
    EmptyStore(longer);
    assert Durable(longer) == p;
    LostAt(longer, i);
  }

  /** A record dropped like that is lost: its own batch is saved, or the next one. */
  lemma ForgottenLoses(cfg: Config, r: Runner, i: nat, fate: Fate) returns (r': Runner)
    requires Reachable(cfg, r) && Fresh(r, i) && r.next == i && i + 2 <= cfg.length && Forgotten(fate)
    requires Possible(Fed(r), cfg, Dropping(r, i, fate))
    ensures Reachable(cfg, r') && !NothingLost(r'.log)
  {
    hide Reachable, NothingLost, Unknown;
    var r1 := ReachForgotten(cfg, r, i, fate);
    NotesUnknown(cfg, i, i + 1);
    if Batching(cfg) {
      r' := ReachPast(cfg, r1, i);
      var log := r1.log + Notes(cfg, [], i + 1);
      UnknownGrows(r1.log, Notes(cfg, [], i + 1), i);
      OthersUnknown(i, i + 1);
      UnknownGrows(log, [Delivered(i + 1)], i);
      SavedPast(log + [Delivered(i + 1)], i, i + 2);
      assert r'.log == log + [Delivered(i + 1)] + [Saved(i + 2)];
    } else {
      r' := r1;
      UnknownGrows(r.log, Store(cfg, []), i);
      SavedPast(r.log + Store(cfg, []), i, i + 1);
    }
  }

  /** What the first record of a source leaves in the log when all goes well. */
  function OneRecordLog(cfg: Config): seq<Entry> { Notes(cfg, [], 0) + [Delivered(0), Saved(1)] }

  lemma FirstCommit(cfg: Config)
    ensures var r := Fed(INITIAL.(up := true));
            r.queue == [0] && Commit(Alone(r), cfg, CALM, COMMIT_TIMEOUT).log == OneRecordLog(cfg)
  {
    hide Commit, Notes;
    var r := Fed(INITIAL.(up := true));
    assert r.queue == [0] && Alone(r).batch == [0];
    OneSaved(Alone(r), cfg, CALM, 0);
    assert [] + Notes(cfg, [], 0) + [Delivered(0), Saved(1)] == OneRecordLog(cfg);
  }

  /** The runner crashed somewhere in the commit of record 0. */
  lemma ReachDown(cfg: Config, cut: seq<Entry>) returns (r: Runner)
    requires cfg.length >= 1 && cut <= OneRecordLog(cfg)
    ensures Reachable(cfg, r) && r == INITIAL.(log := cut, clock := r.clock)
  {
    hide Reachable, OneRecordLog, Commit;
    ReachStarted(cfg);
    ReachRead(cfg, INITIAL.(up := true));
    FirstCommit(cfg);
    r := ReachCut(cfg, Fed(INITIAL.(up := true)), CALM, cut);
  }

  /** Record 0 was let through and noted, and the runner crashed before the sink had it. */
  lemma ReachNoted(cfg: Config) returns (r: Runner)
    requires cfg.marks && cfg.length >= 1
    ensures Reachable(cfg, r) && Fresh(r, 0) && r.next == 0 && Seen(0) in r.log
  {
    hide Reachable, Unknown;
    var cut := Notes(cfg, [], 0);
    var r2 := ReachDown(cfg, cut);
    NotesUnknown(cfg, 0, 0);
    ReachRestarted(cfg, r2, 0);
    assert cut[|cut| - 1] == Seen(0);
    NothingSaved(cut);
    r := INITIAL.(up := true, log := cut, next := 0, base := 0, clock := r2.clock);
  }

  lemma {:induction false} NothingSaved(log: seq<Entry>)
    requires forall k :: 0 <= k < |log| ==> !log[k].Saved?
    ensures Durable(log) == 0
  {
    if log != [] { NothingSaved(log[..|log| - 1]); }
  }

  /** A record noted as seen before the sink had it is dropped when it is read again. */
  lemma MarkLoses(cfg: Config) returns (r: Runner)
    requires cfg.marks && cfg.length >= 2
    ensures Reachable(cfg, r) && !NothingLost(r.log)
  {
    hide Reachable, NothingLost, Unknown;
    var r0 := ReachNoted(cfg);
    r := ForgottenLoses(cfg, r0, 0, Repeated);
  }

  lemma OneRecordKnown(cfg: Config)
    ensures Unknown(OneRecordLog(cfg), 1) && Durable(OneRecordLog(cfg)) == 1
  {
    NotesUnknown(cfg, 1, 0);
    OthersUnknown(1, 0);
    hide Unknown, Notes;
    UnknownGrows(Notes(cfg, [], 0), [Delivered(0), Saved(1)], 1);
    assert OneRecordLog(cfg)[|OneRecordLog(cfg)| - 1] == Saved(1);
  }

  /** A run that resumes after record 0. */
  lemma ReachResumed(cfg: Config) returns (r: Runner)
    requires cfg.length >= 1
    ensures Reachable(cfg, r) && Fresh(r, 1) && r.next == 1 && r.base == 1
  {
    hide Reachable, Unknown, OneRecordLog;
    var r2 := ReachDown(cfg, OneRecordLog(cfg));
    OneRecordKnown(cfg);
    ReachRestarted(cfg, r2, 1);
    r := INITIAL.(up := true, log := r2.log, next := 1, base := 1, clock := r2.clock);
  }

  /** A record that is let through only because of one read before the restart is dropped after it. */
  lemma MissLoses(cfg: Config) returns (r: Runner)
    requires cfg.misses && cfg.length >= 3
    ensures Reachable(cfg, r) && !NothingLost(r.log)
  {
    hide Reachable, NothingLost, Unknown;
    var r0 := ReachResumed(cfg);
    r := ForgottenLoses(cfg, r0, 1, Missed);
  }

  // ---------------------------------------------------------------- exactly when

  /** No transform drops a record for what it remembers, or no longer does. */
  predicate Faithful(cfg: Config) { !cfg.marks && !cfg.misses }

  lemma NothingForgotten(r: Runner, cfg: Config, a: Answers)
    requires Faithful(cfg) && Possible(r, cfg, a)
    ensures forall i :: !Forgotten(FateOf(a, i))
  {}

  lemma {:induction false} PatientStep(r: Runner, cfg: Config, e: Event)
    requires Plain(cfg) && Faithful(cfg) && Inv(r) && Enabled(r, cfg, e) && Patient(cfg, COMMIT_TIMEOUT)
    ensures !Loses(r, cfg, e)
    decreases e
  {
    if e.Take? {
      NothingForgotten(r, cfg, e.a);
      PatienceHolds(r.(batch := r.batch + [r.queue[0]], queue := r.queue[1..]), cfg, e.a, COMMIT_TIMEOUT);
      hide Drops;
    } else if e.Tick? {
      NothingForgotten(r, cfg, e.a);
      PatienceHolds(r, cfg, e.a, COMMIT_TIMEOUT);
      hide Drops;
    } else if e.Stop? || e.Finish? {
      NothingForgotten(r, cfg, e.a);
    } else if e.Crash? && e.during.Some? {
      PatientStep(r, cfg, e.during.value);
    }
  }

  lemma {:induction false} PatientRun(cfg: Config, es: seq<Event>)
    requires Plain(cfg) && Faithful(cfg) && Patient(cfg, COMMIT_TIMEOUT) && IsRun(cfg, es)
    ensures NeverLoses(cfg, es) && Inv(After(cfg, es))
  {
    if es != [] {
      hide Step, Enabled, Loses, Inv, Patient;
      PatientRun(cfg, es[..|es| - 1]);
      PatientStep(After(cfg, es[..|es| - 1]), cfg, es[|es| - 1]);
      StepKeepsInv(After(cfg, es[..|es| - 1]), cfg, es[|es| - 1]);
    } else {
      assert Inv(INITIAL);
    }
  }

  lemma PlainDelivers(cfg: Config)
    requires Plain(cfg) && Faithful(cfg) && Patient(cfg, COMMIT_TIMEOUT)
    ensures Delivers(cfg)
  {
    hide Step, Enabled, NothingLost;
    forall n: nat, es | IsRun(cfg.(length := n), es) ensures NothingLost(After(cfg.(length := n), es).log) {
      PatientRun(cfg.(length := n), es);
      SafeLosesNothing(After(cfg.(length := n), es).log);
    }
  }

  /** At-least-once, exactly: no run over any source loses a record if and only if the reader answers with the position
      of the record, no transform holds records back, none drops records for what it remembers or no longer does, and
      the cooldown of the breaker, if there is one, fits twice into the commit timeout. */
  lemma DeliversIff(cfg: Config)
    ensures Delivers(cfg) <==> Plain(cfg) && Faithful(cfg) && Patient(cfg, COMMIT_TIMEOUT)
  {
    hide Delivers, Reachable, NothingLost;
    if Plain(cfg) && Faithful(cfg) && Patient(cfg, COMMIT_TIMEOUT) {
      PlainDelivers(cfg);
    } else if cfg.marks {
      var r := MarkLoses(cfg.(length := 2));
      Refutes(cfg, 2, r);
    } else if cfg.misses {
      var r := MissLoses(cfg.(length := 3));
      Refutes(cfg, 3, r);
    } else if cfg.window != NoWindow {
      var r := WindowLoses(cfg.(length := 3));
      Refutes(cfg, 3, r);
    } else if cfg.ahead {
      var r := AheadLoses(cfg.(length := 2));
      Refutes(cfg, 2, r);
    } else {
      var n := MaxFailures(cfg.breaker.value) + 2;
      var r, m := BreakerLoses(cfg.(length := n));
      Refutes(cfg, n, r);
    }
  }
}
