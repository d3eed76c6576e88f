/** Exactly when a run that reads its source to the end has settled all of it, or says that it is blocked. */
module LinearRunnerCompletion {
  import opened CircuitBreaker
  import opened Prelude
  import opened LinearRunner
  import opened LinearRunnerSafety
  import opened LinearRunnerReach
  import opened LinearRunnerLimits

  /** The last step of a run over n records, taken when the channel is closed and empty and all were read. */
  ghost predicate Ends(cfg: Config, r: Runner, e: Event) {
    e.Finish? && Enabled(r, cfg, e) && r.next == cfg.length
  }

  predicate Done(cfg: Config, r: Runner) { r.blocked || SettledBelow(r.log, cfg.length) }

  /** Every run, over every source, that comes to the end of it. */
  ghost predicate Completes(cfg: Config) {
    forall n: nat, es, e :: IsRun(cfg.(length := n), es) && Ends(cfg.(length := n), After(cfg.(length := n), es), e)
      ==> Done(cfg.(length := n), Step(After(cfg.(length := n), es), cfg.(length := n), e))
  }

  /** The budget the last batch may find: with batches of one record there is none left at the end. */
  function Tightest(cfg: Config): nat { if BatchSize(cfg) >= 2 then SHUTDOWN_TIMEOUT else COMMIT_TIMEOUT }

  lemma Refutes(cfg: Config, n: nat, r: Runner, e: Event)
    requires Reachable(cfg.(length := n), r) && Ends(cfg.(length := n), r, e) && !Done(cfg.(length := n), Step(r, cfg.(length := n), e))
    ensures !Completes(cfg)
  {
    hide Done, Step, Enabled;
    var es :| IsRun(cfg.(length := n), es) && After(cfg.(length := n), es) == r;
    assert !Done(cfg.(length := n), Step(After(cfg.(length := n), es), cfg.(length := n), e));
  }

  // ---------------------------------------------------------------- when it does

  lemma CommitEmpties(r: Runner, cfg: Config, a: Answers, budget: nat)
    ensures Commit(r, cfg, a, budget).batch == []
  {}

  lemma FlushKeepsBatch(r: Runner, cfg: Config, b: Answers, force: bool)
    ensures FlushAt(r, cfg, b, force).batch == r.batch
  {}

  /** With batches of one record nothing is left in a batch between two steps. */
  lemma SmallStep(r: Runner, cfg: Config, e: Event)
    requires BatchSize(cfg) <= 1 && r.batch == [] && Enabled(r, cfg, e)
    ensures Step(r, cfg, e).up ==> Step(r, cfg, e).batch == []
  {
    hide WriteBatch, FlushPending;
    if e.Tick? {
      CommitEmpties(r, cfg, e.a, COMMIT_TIMEOUT);
      FlushKeepsBatch(Commit(r, cfg, e.a, COMMIT_TIMEOUT), cfg, e.b, false);
    }
  }

  lemma {:induction false} SmallBatches(cfg: Config, es: seq<Event>)
    requires BatchSize(cfg) <= 1 && IsRun(cfg, es)
    ensures After(cfg, es).up ==> After(cfg, es).batch == []
  {
    if es != [] {
      var r, e := After(cfg, es[..|es| - 1]), es[|es| - 1];
      SmallBatches(cfg, es[..|es| - 1]);
      hide Step, Enabled;
      if r.up { SmallStep(r, cfg, e); } else { DownSteps(r, cfg, e); }
    }
  }

  lemma DownSteps(r: Runner, cfg: Config, e: Event)
    requires !r.up && Enabled(r, cfg, e)
    ensures Step(r, cfg, e).up ==> Step(r, cfg, e).batch == []
  {
    hide Commit, LastWrite, Shutdown, FlushAt, Drained;
  }

  lemma NothingLeftBehind(cfg: Config, es: seq<Event>, a: Answers)
    requires Plain(cfg) && Patient(cfg, Tightest(cfg)) && IsRun(cfg, es) && Inv(After(cfg, es)) && After(cfg, es).up
    requires Timely(After(cfg, es), a)
    ensures !LeavesBehind(After(cfg, es), cfg, a)
  {
    var r := After(cfg, es);
    if BatchSize(cfg) >= 2 {
      PatienceHolds(r.(unsaved := SAVE_EVERY), cfg, a, SHUTDOWN_TIMEOUT);
    } else {
      SmallBatches(cfg, es);
      NothingToDrop(r.(unsaved := SAVE_EVERY), cfg, a, SHUTDOWN_TIMEOUT);
    }
  }

  lemma PlainCompletes(cfg: Config)
    requires Plain(cfg) && Faithful(cfg) && Patient(cfg, Tightest(cfg))
    ensures Completes(cfg)
  {
    forall n: nat, es, e | IsRun(cfg.(length := n), es) && Ends(cfg.(length := n), After(cfg.(length := n), es), e)
      ensures Done(cfg.(length := n), Step(After(cfg.(length := n), es), cfg.(length := n), e))
    {
      PlainRunCompletes(cfg.(length := n), es, e);
    }
  }

  lemma PlainRunCompletes(cfg: Config, es: seq<Event>, e: Event)
    requires Plain(cfg) && Faithful(cfg) && Patient(cfg, Tightest(cfg)) && IsRun(cfg, es) && Ends(cfg, After(cfg, es), e)
    ensures Done(cfg, Step(After(cfg, es), cfg, e))
  {
    hide LeavesBehind, Commit, LastWrite, Shutdown, FlushAt, Drained, Inv;
    PatientRun(cfg, es);
    NothingLeftBehind(cfg, es, e.a);
    NothingForgotten(After(cfg, es), cfg, e.a);
    FinishedRunSettlesAll(cfg, es, e.a, e.b, e.d);
  }

  // ---------------------------------------------------------------- when it does not

  /** Nothing left to do at the end: the batch is empty and nothing is pending or held. */
  lemma QuietFinish(r: Runner, cfg: Config)
    requires r.up && r.queue == [] && r.batch == [] && r.pending == [] && r.held == []
    ensures var b := CALM.(now := r.clock);
            var e := Finish(b, b, None);
            Enabled(r, cfg, e) && Step(r, cfg, e) == r.(up := false)
  {
    var b := CALM.(now := r.clock);
    NothingPending(r, cfg, b, true);
    hide FlushAt;
  }

  /** After a crash the reader starts behind a record that nobody has. */
  lemma AheadStops(cfg: Config) returns (r: Runner, e: Event)
    requires cfg.ahead && cfg.window == NoWindow && !cfg.marks && cfg.length == 2
    ensures Reachable(cfg, r) && Ends(cfg, r, e) && !Done(cfg, Step(r, cfg, e))
  {
    hide Reachable, NothingLost;
    var r0 := AheadLoses(cfg);
    ReachStep(cfg, r0, Crash(0, None));
    var r1 := INITIAL.(log := r0.log);
    assert Step(r0, cfg, Crash(0, None)) == r1 by { assert r0.log[..|r0.log|] == r0.log; }
    ReachStep(cfg, r1, Start);
    r := Step(r1, cfg, Start);
    assert r.next == 2 && r.log == [Delivered(0), Saved(2)];
    QuietFinish(r, cfg);
    e := Finish(CALM.(now := r.clock), CALM.(now := r.clock), None);
    assert !Settled(r.log, 1);
  }

  /** The answer to a drained aggregate of record 0: the window absorbs it again. */
  const DRAIN := Fine(0, 0, Accepts, map[0 := Absorbed], {}).(at := Some(0))

  lemma DrainAbsorbs(r: Runner, cfg: Config)
    requires cfg.window != NoWindow && r.held == [0]
    ensures Drained(r, cfg, Some(DRAIN)) ==
            r.(unsaved := SAVE_EVERY, batch := [], clock := 0, log := r.log + Store(cfg, []) + Store(cfg, [0]))
  {
    var r1 := r.(held := [], batch := [0], unsaved := SAVE_EVERY, log := r.log + Store(cfg, []));
    OneAbsorbed(r1, cfg, DRAIN, 0, SHUTDOWN_TIMEOUT);
    hide Commit;
    assert [] + [0] == [0];
  }

  /** What a window holds at the end is flushed out of it, sent through the chain, and absorbed again. */
  lemma WindowStops(cfg: Config) returns (r: Runner, e: Event)
    requires cfg.window != NoWindow && cfg.length == 1
    ensures Reachable(cfg, r) && Ends(cfg, r, e) && !Done(cfg, Step(r, cfg, e))
  {
    hide Reachable, Drained, FlushAt;
    r := ReachAbsorbed(cfg);
    e := Finish(CALM, CALM, Some(DRAIN));
    NothingPending(r, cfg, CALM, true);
    DrainAbsorbs(r, cfg);
    var log := Step(r, cfg, e).log;
    assert log == Store(cfg, [0]) + Store(cfg, []) + Store(cfg, [0]);
    assert forall k :: 0 <= k < |log| ==> log[k].Stored?;
    assert !Settled(log, 0);
  }

  /** A record is left in the batch when the source ends, and the breaker is open. */
  lemma ReachLastBatch(cfg: Config) returns (r: Runner)
    requires Plain(cfg) && !cfg.marks && cfg.breaker.Some? && BatchSize(cfg) >= 2 && cfg.length == MaxFailures(cfg.breaker.value) + 1
    ensures var m := cfg.length - 1;
            && Reachable(cfg, r) && r.breaker.mode == Open && r.breaker.trippedAt == 0
            && r == INITIAL.(up := true, next := cfg.length, batch := [m], log := Deliveries(Range(0, m)), breaker := r.breaker)
  {
    hide Reachable;
    var r0 := ReachTripped(cfg);
    ReachRead(cfg, r0);
    var r1 := Fed(r0);
    assert r1.queue == [cfg.length - 1] && r1.batch + [r1.queue[0]] == [cfg.length - 1];
    ReachStep(cfg, r1, Take(CALM));
    r := Alone(r1);
  }

  lemma LastWriteGivesUp(r: Runner, cfg: Config, m: nat)
    requires Plain(cfg) && !cfg.marks && cfg.breaker.Some? && !Patient(cfg, SHUTDOWN_TIMEOUT) && r.batch == [m] && r.held == []
    requires r.breaker.mode == Open && r.breaker.trippedAt == 0
    ensures var a := Late(cfg.breaker.value);
            LastWrite(r, cfg, a) == r.(unsaved := SAVE_EVERY, batch := [], clock := Max(a.elapsed, SHUTDOWN_TIMEOUT))
  {
    var a, r0 := Late(cfg.breaker.value), r.(unsaved := SAVE_EVERY);
    OneBefore(r0, cfg, a, m);
    OneFit(cfg, a, m);
    assert r.log + Notes(cfg, [], m) == r.log;
    hide AtBreaker, Survivors, Input, ChainFailed, WriteSink, Save, EmptyMaySave;
  }

  /** The last batch is given up at the breaker, and the run is over. */
  lemma LastBatchGivenUp(cfg: Config) returns (r: Runner, e: Event)
    requires Plain(cfg) && !cfg.marks && cfg.breaker.Some? && !Patient(cfg, SHUTDOWN_TIMEOUT) && BatchSize(cfg) >= 2
    requires cfg.length == MaxFailures(cfg.breaker.value) + 1
    ensures Reachable(cfg, r) && Ends(cfg, r, e) && !Done(cfg, Step(r, cfg, e))
  {
    hide Reachable;
    var a, m := Late(cfg.breaker.value), cfg.length - 1;
    r := ReachLastBatch(cfg);
    LastWriteGivesUp(r, cfg, m);
    hide LastWrite, FlushAt, Deliveries;
    var b := CALM.(now := Max(a.elapsed, SHUTDOWN_TIMEOUT));
    e := Finish(a, b, None);
    NothingPending(LastWrite(r, cfg, a), cfg, b, true);
    assert Step(r, cfg, e).log == Deliveries(Range(0, m)) + [];
    MissingFromDeliveries(m, []);
  }

  /** A batch given up in the middle, and nothing more to do at the end. */
  lemma MiddleGivenUp(cfg: Config) returns (r: Runner, e: Event)
    requires Plain(cfg) && !cfg.marks && cfg.breaker.Some? && !Patient(cfg, COMMIT_TIMEOUT) && cfg.length == MaxFailures(cfg.breaker.value) + 1
    ensures Reachable(cfg, r) && Ends(cfg, r, e) && !Done(cfg, Step(r, cfg, e))
  {
    hide Reachable;
    var m;
    r, m := ReachGivenUp(cfg);
    QuietFinish(r, cfg);
    e := Finish(CALM.(now := r.clock), CALM.(now := r.clock), None);
    assert Deliveries(Range(0, m)) + [] == Deliveries(Range(0, m));
    MissingFromDeliveries(m, []);
  }

  /** A record that was dropped when it was read again, or once its partner was forgotten, and nothing more to do. */
  lemma ForgottenStops(cfg: Config, r0: Runner, i: nat, fate: Fate) returns (r: Runner, e: Event)
    requires Reachable(cfg, r0) && Fresh(r0, i) && r0.next == i && cfg.length == i + 1 && Forgotten(fate)
    requires Possible(Fed(r0), cfg, Dropping(r0, i, fate))
    ensures Reachable(cfg, r) && Ends(cfg, r, e) && !Done(cfg, Step(r, cfg, e))
  {
    hide Reachable, Store, Batching;
    r := ReachForgotten(cfg, r0, i, fate);
    QuietFinish(r, cfg);
    e := Finish(CALM.(now := r.clock), CALM.(now := r.clock), None);
    NotesUnknown(cfg, i, i);
    UnknownGrows(r0.log, Store(cfg, []), i);
    var more := if Batching(cfg) then [] else [Saved(i + 1)];
    UnknownGrows(r0.log + Store(cfg, []), more, i);
    assert Step(r, cfg, e).log == r.log && !Settled(r.log, i);
  }

  lemma MemoryStops(cfg: Config) returns (n: nat, r: Runner, e: Event)
    requires cfg.marks || cfg.misses
    ensures Reachable(cfg.(length := n), r) && Ends(cfg.(length := n), r, e)
    ensures !Done(cfg.(length := n), Step(r, cfg.(length := n), e))
  {
    hide Reachable, Unknown, Done, Step, Ends;
    if cfg.marks {
      n := 1;
      var r0 := ReachNoted(cfg.(length := n));
      r, e := ForgottenStops(cfg.(length := n), r0, 0, Repeated);
    } else {
      n := 2;
      var r0 := ReachResumed(cfg.(length := n));
      r, e := ForgottenStops(cfg.(length := n), r0, 1, Missed);
    }
  }

  /** Every run that reads its source to the end settles it or says that it is blocked, if and only if the reader answers
      with the position of the record, no transform holds records back, none drops records for what it remembers or no
      longer does, and the cooldown of the breaker fits twice into the shutdown timeout, or into the commit timeout where
      batches hold one record. */
  lemma CompletesIff(cfg: Config)
    ensures Completes(cfg) <==> Plain(cfg) && Faithful(cfg) && Patient(cfg, Tightest(cfg))
  {
    hide Completes, Reachable, Done, Step, Ends;
    if Plain(cfg) && Faithful(cfg) && Patient(cfg, Tightest(cfg)) {
      PlainCompletes(cfg);
    } else if !Faithful(cfg) {
      var n, r, e := MemoryStops(cfg);
      Refutes(cfg, n, r, e);
    } else if cfg.window != NoWindow {
      var r, e := WindowStops(cfg.(length := 1));
      Refutes(cfg, 1, r, e);
    } else if cfg.ahead {
      var r, e := AheadStops(cfg.(length := 2));
      Refutes(cfg, 2, r, e);
    } else {
      var n, r, e := MaxFailures(cfg.breaker.value) + 1, INITIAL, Start;
      if BatchSize(cfg) >= 2 { r, e := LastBatchGivenUp(cfg.(length := n)); } else { r, e := MiddleGivenUp(cfg.(length := n)); }
      Refutes(cfg, n, r, e);
    }
  }
}
