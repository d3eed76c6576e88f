/**
 Exactly when the saved positions of a run can go back: a batch without survivors is saved over older records whose
 own save is still to come, or a drained aggregate is saved at whatever position the reader gives it.
 */
module LinearRunnerPositions {
  import opened CircuitBreaker
  import opened Prelude
  import opened LinearRunner
  import opened LinearRunnerSafety
  import opened LinearRunnerReach
  import opened LinearRunnerLimits

  /** The saved positions never go back. */
  predicate Rising(log: seq<Entry>) {
    forall i, j :: 0 <= i < j < |log| && log[i].Saved? && log[j].Saved? ==> log[i].pos <= log[j].pos
  }

  /** A commit saves a batch without survivors while older records still wait for their save. */
  predicate Overtakes(r: Runner, cfg: Config, a: Answers) {
    && r.batch != [] && r.pending != [] && !ChainFailed(cfg, a, r.batch)
    && Survivors(cfg, a, Input(r, a, r.batch)) == [] && EmptyMaySave(cfg, a, r.batch, Input(r, a, r.batch))
  }

  // ---------------------------------------------------------------- logs

  lemma {:induction false} DurableExtend(log: seq<Entry>, longer: seq<Entry>)
    requires log <= longer
    requires forall k :: |log| <= k < |longer| ==> !longer[k].Saved?
    ensures Durable(longer) == Durable(log)
    decreases |longer|
  {
    if |longer| > |log| {
      var shorter := longer[..|longer| - 1];
      assert forall k :: |log| <= k < |shorter| ==> shorter[k] == longer[k];
      DurableExtend(log, shorter);
    } else {
      assert log == longer;
    }
  }

  lemma DurableSave(log: seq<Entry>, p: nat)
    ensures Durable(log + [Saved(p)]) == p
  {
    assert (log + [Saved(p)])[|log|] == Saved(p);
  }

  /** In a rising log the last saved position is the highest. */
  lemma {:induction false} DurableIsHighest(log: seq<Entry>, k: nat)
    requires Rising(log) && k < |log| && log[k].Saved?
    ensures log[k].pos <= Durable(log)
  {
    var n := |log| - 1;
    if !log[n].Saved? { DurableIsHighest(log[..n], k); }
  }

  lemma RisingExtend(log: seq<Entry>, longer: seq<Entry>)
    requires Rising(log) && log <= longer && forall k :: |log| <= k < |longer| ==> !longer[k].Saved?
    ensures Rising(longer)
  {
    assert forall k :: 0 <= k < |log| ==> longer[k] == log[k];
  }

  lemma RisingSave(log: seq<Entry>, p: nat)
    requires Rising(log) && Durable(log) <= p
    ensures Rising(log + [Saved(p)])
  {
    forall k | 0 <= k < |log| && log[k].Saved? ensures log[k].pos <= p { DurableIsHighest(log, k); }
  }

  lemma RisingPrefix(log: seq<Entry>, n: nat)
    requires Rising(log) && n <= |log|
    ensures Rising(log[..n])
  {}

  // ---------------------------------------------------------------- one commit

  /** What the next save may write: the reader's position, or the one after a record not below the last save. */
  predicate Ordered(r: Runner, cfg: Config, f: nat) {
    && Rising(r.log) && f <= r.next
    && Durable(r.log) <= (if cfg.ahead then r.next else f)
    && (!cfg.ahead ==> Waiting(r, f))
  }

  predicate Waiting(r: Runner, f: nat) {
    && (forall k :: 0 <= k < |r.pending| ==> r.pending[k] < f)
    && (r.pending != [] ==> Durable(r.log) <= r.pending[|r.pending| - 1] + 1)
  }

  /** What was read and not yet committed. */
  predicate Flowing(r: Runner, f: nat) { f <= r.next && r.batch + r.queue == Range(f, r.next) }

  /** The parts of the runner a commit leaves alone, and a log that only grows. */
  predicate Framed(r: Runner, r': Runner) {
    r'.up == r.up && r'.next == r.next && r'.queue == r.queue && r'.batch == r.batch && r.log <= r'.log
  }

  /** Framed, with no checkpoint saved and nothing new waiting for one. */
  predicate Quiet(r: Runner, r': Runner) {
    Framed(r, r') && r'.pending == r.pending && forall k :: |r.log| <= k < |r'.log| ==> !r'.log[k].Saved?
  }

  lemma QuietOrdered(r: Runner, r': Runner, cfg: Config, f: nat, g: nat)
    requires Quiet(r, r') && Ordered(r, cfg, f) && f <= g <= r.next
    ensures Ordered(r', cfg, g)
  {
    hide Durable, Rising;
    RisingExtend(r.log, r'.log);
    DurableExtend(r.log, r'.log);
  }

  lemma PassQuiet(r: Runner, cfg: Config, a: Answers, i: nat)
    ensures Quiet(r, Pass(r, cfg, a, i))
  {
    HandleFailedCovers(r, cfg, a, i);
  }

  lemma {:induction false} TransformQuiet(r: Runner, cfg: Config, a: Answers, recs: seq<nat>)
    ensures Quiet(r, Transform(r, cfg, a, recs))
    decreases |recs|
  {
    hide Pass;
    if recs != [] {
      PassQuiet(r, cfg, a, recs[0]);
      TransformQuiet(Pass(r, cfg, a, recs[0]), cfg, a, recs[1..]);
    }
  }

  lemma BeforeSinkQuiet(r: Runner, cfg: Config, a: Answers, batch: seq<nat>)
    ensures Quiet(r, BeforeSink(r, cfg, a, batch))
  {
    hide HandleEach, Transform, Having, Input, Timed, ChainFailed;
    var accepted, input := Having(batch, a, NotRejected), Input(r, a, batch);
    var r1 := HandleEach(r, cfg, a, Having(batch, a, Only(Rejected)));
    HandleEachCovers(r, cfg, a, Having(batch, a, Only(Rejected)));
    var r2 := Absorb(r1, cfg, a, input);
    HandleEachCovers(r2, cfg, a, accepted);
    var r3 := Transform(r2, cfg, a, input);
    TransformQuiet(r2, cfg, a, input);
    HandleEachCovers(r3, cfg, a, Having(input, a, Only(NoKey)));
  }

  /** The position saved is not below the last one. */
  lemma SaveRises(r: Runner, cfg: Config, a: Answers, processed: seq<nat>, f: nat)
    requires Ordered(r, cfg, f) && (cfg.ahead || a.at.None?)
    requires processed != [] && !cfg.ahead ==> Durable(r.log) <= processed[|processed| - 1] + 1 <= f
    requires !cfg.ahead && r.pending != [] ==> processed == r.pending
    ensures var r' := Save(r, cfg, a, processed).0;
            Ordered(r', cfg, f) && Framed(r, r') && r'.pending == r.pending
  {
    hide Durable, Rising, RecordFailure;
    if processed != [] {
      var p := Position(r, cfg, a, processed);
      RisingSave(r.log, p);
      DurableSave(r.log, p);
    }
  }

  lemma FlushRises(r: Runner, cfg: Config, a: Answers, force: bool, f: nat)
    requires Ordered(r, cfg, f) && (cfg.ahead || a.at.None?)
    ensures var r' := FlushPending(r, cfg, a, force); Ordered(r', cfg, f) && Framed(r, r')
  {
    hide Durable, Rising, Save;
    if r.pending != [] { SaveRises(r, cfg, a, r.pending, f); }
  }

  lemma AcceptedRises(r: Runner, cfg: Config, a: Answers, batch: seq<nat>, input: seq<nat>, f: nat, g: nat)
    requires f <= g <= r.next && Ordered(r, cfg, f) && (cfg.ahead || a.at.None?) && batch != []
    requires cfg.ahead || (batch[|batch| - 1] + 1 == g && forall k :: 0 <= k < |batch| ==> batch[k] < g)
    ensures var r' := Accepted(r, cfg, a, batch, input); Ordered(r', cfg, g) && Framed(r, r')
  {
    hide FlagSafe, FlushPending, Survivors, Durable, Rising, RecordFailure;
    var r2 := Landed(r, cfg, Survivors(cfg, a, input));
    QuietOrdered(r, r2, cfg, f, g);
    var r3 := r2.(unsaved := r2.unsaved + 1, pending := r2.pending + batch);
    assert r3.pending[|r3.pending| - 1] == batch[|batch| - 1];
    FlushRises(r3, cfg, a, true, g);
  }

  lemma RefusedQuiet(r: Runner, cfg: Config, a: Answers, survivors: seq<nat>)
    requires a.sink.Refuses?
    ensures Quiet(r, Refused(r, cfg, a, survivors))
  {
    hide HandleEach, AfterRefusal;
    var (good, bad) := AfterRefusal(a.sink, survivors);
    var r0 := Trip(r, cfg);
    HandleEachCovers(r0.(log := r0.log + Deliveries(good)), cfg, a, bad);
  }

  lemma WriteBatchRises(r: Runner, cfg: Config, a: Answers, budget: nat, f: nat, g: nat)
    requires f <= g <= r.next && Ordered(r, cfg, f) && r.batch != []
    requires cfg.ahead || (r.batch[|r.batch| - 1] + 1 == g && forall k :: 0 <= k < |r.batch| ==> r.batch[k] < g)
    requires cfg.ahead || (a.at.None? && !Overtakes(r, cfg, a))
    ensures var r' := WriteBatch(r, cfg, a, budget); Ordered(r', cfg, g) && Framed(r, r')
  {
    hide BeforeSink, Survivors, EmptyMaySave, Refused, Accepted, Save, Durable, Rising, Input, ChainFailed, Abandons;
    var r1, input := AtBreaker(r, cfg, a), Input(r, a, r.batch);
    BeforeSinkQuiet(r.(clock := a.now + a.early), cfg, a, r.batch);
    QuietOrdered(r, r1, cfg, f, g);
    QuietOrdered(r, r1, cfg, f, f);
    var survivors := Survivors(cfg, a, input);
    if !ChainFailed(cfg, a, r.batch) {
      if survivors == [] {
        if EmptyMaySave(cfg, a, r.batch, input) { SaveRises(r1, cfg, a, r.batch, g); }
      } else if !Abandons(r1, cfg, a, budget) {
        WriteSinkRises(r1, cfg, a, r.batch, input, f, g);
      }
    }
  }

  lemma WriteSinkRises(r: Runner, cfg: Config, a: Answers, batch: seq<nat>, input: seq<nat>, f: nat, g: nat)
    requires f <= g <= r.next && Ordered(r, cfg, f) && (cfg.ahead || a.at.None?) && batch != []
    requires cfg.ahead || (batch[|batch| - 1] + 1 == g && forall k :: 0 <= k < |batch| ==> batch[k] < g)
    ensures var r' := WriteSink(PastBreaker(r, cfg, a), cfg, a, batch, input); Ordered(r', cfg, g) && Framed(r, r')
  {
    hide Survivors, Refused, Accepted, Durable, Rising, RecordFailure;
    var r2 := PastBreaker(r, cfg, a);
    if a.sink.Refuses? {
      RefusedQuiet(r2, cfg, a, Survivors(cfg, a, input));
      QuietOrdered(r, Refused(r2, cfg, a, Survivors(cfg, a, input)), cfg, f, g);
    } else {
      AcceptedRises(r2, cfg, a, batch, input, f, g);
    }
  }

  lemma FlowingSplit(r: Runner, f: nat)
    requires Flowing(r, f)
    ensures forall k :: 0 <= k < |r.batch| ==> r.batch[k] == f + k
    ensures f + |r.batch| <= r.next && [] + r.queue == Range(f + |r.batch|, r.next)
  {
    assert forall k :: 0 <= k < |r.batch| ==> r.batch[k] == (r.batch + r.queue)[k];
    assert r.queue == Range(f, r.next)[|r.batch|..];
  }

  /** Unless it saves a survivor-less batch over pending records, a commit never moves the checkpoint back. */
  lemma CommitRises(r: Runner, cfg: Config, a: Answers, budget: nat, f: nat)
    requires Flowing(r, f) && Ordered(r, cfg, f) && (cfg.ahead || (a.at.None? && !Overtakes(r, cfg, a)))
    ensures var r', g := Commit(r, cfg, a, budget), f + |r.batch|;
            Ordered(r', cfg, g) && Flowing(r', g) && r'.up == r.up && r'.next == r.next && r.log <= r'.log
  {
    hide WriteBatch, Overtakes, Durable, Rising, Range;
    var g := f + |r.batch|;
    FlowingSplit(r, f);
    if r.batch != [] { WriteBatchRises(r, cfg, a, budget, f, g); }
  }

  // ---------------------------------------------------------------- runs

  /** Some save of the event is made over older pending records, or at the position of a drained aggregate. */
  predicate OvertakesIn(r: Runner, cfg: Config, e: Event)
    decreases e
  {
    match e
    case Take(a) =>
      r.queue != [] && |r.batch| + 1 >= BatchSize(cfg) && Overtakes(r.(batch := r.batch + [r.queue[0]], queue := r.queue[1..]), cfg, a)
    case Tick(a, _) => Overtakes(r, cfg, a)
    case Stop(a, _) => Overtakes(r.(unsaved := SAVE_EVERY), cfg, a)
    case Finish(a, b, d) =>
      Overtakes(r.(unsaved := SAVE_EVERY), cfg, a) || (d.Some? && Shutdown(r, cfg, a, b).held != [])
    case Crash(_, during) => during.Some? && OvertakesIn(r, cfg, during.value)
    case _ => false
  }

  ghost predicate NeverOvertakes(cfg: Config, es: seq<Event>)
    requires IsRun(cfg, es)
  {
    es != [] ==> NeverOvertakes(cfg, es[..|es| - 1]) && !OvertakesIn(After(cfg, es[..|es| - 1]), cfg, es[|es| - 1])
  }

  ghost predicate PosInv(r: Runner, cfg: Config) {
    Rising(r.log) && (r.up ==> exists f: nat :: Flowing(r, f) && Ordered(r, cfg, f))
  }

  lemma NotOvertaking(r: Runner, cfg: Config, a: Answers)
    requires r.batch == []
    ensures !Overtakes(r, cfg, a)
  {}

  lemma ShutdownRises(r: Runner, cfg: Config, a: Answers, b: Answers, f: nat)
    requires Flowing(r, f) && Ordered(r, cfg, f)
    requires cfg.ahead || (a.at.None? && b.at.None? && !Overtakes(r.(unsaved := SAVE_EVERY), cfg, a))
    ensures var r' := Shutdown(r, cfg, a, b); Ordered(r', cfg, f + |r.batch|) && r.log <= r'.log && r'.next == r.next
  {
    hide Commit, FlushPending, Overtakes, Durable, Rising;
    if r.batch == [] { NotOvertaking(r, cfg, a); }
    CommitRises(if r.batch == [] then r else r.(unsaved := SAVE_EVERY), cfg, a, SHUTDOWN_TIMEOUT, f);
    FlushRises(LastWrite(r, cfg, a).(clock := b.now), cfg, b, true, f + |r.batch|);
  }

  /** A reader that answers with its own position never goes back, not even for a drained aggregate. */
  lemma DrainRises(r: Runner, cfg: Config, d: Option<Answers>, f: nat)
    requires Ordered(r, cfg, f) && (cfg.ahead || d.None? || r.held == [])
    ensures Rising(Drained(r, cfg, d).log) && r.log <= Drained(r, cfg, d).log
  {
    hide WriteBatch, Durable, Rising;
    if r.held != [] && d.Some? {
      var r1 := r.(held := [], batch := r.held, unsaved := SAVE_EVERY,
                   log := r.log + if cfg.window == Persisted then [Stored([])] else []);
      QuietOrdered(r.(batch := r.held), r1, cfg, f, f);
      WriteBatchRises(r1, cfg, d.value, SHUTDOWN_TIMEOUT, f, f);
    }
  }

  lemma TakeRises(r: Runner, cfg: Config, e: Event, f: nat)
    requires e.Take? && Enabled(r, cfg, e) && (cfg.ahead || !OvertakesIn(r, cfg, e))
    requires Flowing(r, f) && Ordered(r, cfg, f)
    ensures PosInv(Step(r, cfg, e), cfg) && r.log <= Step(r, cfg, e).log
  {
    hide Commit, Overtakes, Durable, Rising;
    var r1 := r.(batch := r.batch + [r.queue[0]], queue := r.queue[1..]);
    assert r1.batch + r1.queue == r.batch + r.queue;
    assert Flowing(r1, f) && Ordered(r1, cfg, f);
    if |r1.batch| >= BatchSize(cfg) {
      CommitRises(r1, cfg, e.a, COMMIT_TIMEOUT, f);
      assert Flowing(Step(r, cfg, e), f + |r1.batch|);
    }
  }

  lemma TickRises(r: Runner, cfg: Config, e: Event, f: nat)
    requires e.Tick? && Enabled(r, cfg, e) && (cfg.ahead || !OvertakesIn(r, cfg, e))
    requires Flowing(r, f) && Ordered(r, cfg, f)
    ensures PosInv(Step(r, cfg, e), cfg) && r.log <= Step(r, cfg, e).log
  {
    hide Commit, FlushPending, Overtakes, Durable, Rising;
    var g := f + |r.batch|;
    CommitRises(r, cfg, e.a, COMMIT_TIMEOUT, f);
    FlushRises(Commit(r, cfg, e.a, COMMIT_TIMEOUT).(clock := e.b.now), cfg, e.b, false, g);
    assert Flowing(Step(r, cfg, e), g);
  }

  lemma StepRises(r: Runner, cfg: Config, e: Event)
    requires PosInv(r, cfg) && Enabled(r, cfg, e) && !e.Crash? && (cfg.ahead || !OvertakesIn(r, cfg, e))
    ensures PosInv(Step(r, cfg, e), cfg) && r.log <= Step(r, cfg, e).log
  {
    hide Commit, FlushPending, Overtakes, Durable, Rising, Shutdown, Drained;
    var r' := Step(r, cfg, e);
    if e.Start? {
      assert Flowing(r', Durable(r.log)) && Ordered(r', cfg, Durable(r.log));
    } else {
      var f: nat :| Flowing(r, f) && Ordered(r, cfg, f);
      if e.Read? {
        assert r'.batch + r'.queue == (r.batch + r.queue) + [r.next] == Range(f, r'.next);
        assert Flowing(r', f) && Ordered(r', cfg, f);
      } else if e.Take? {
        TakeRises(r, cfg, e, f);
      } else if e.Tick? {
        TickRises(r, cfg, e, f);
      } else {
        ShutdownRises(r, cfg, e.a, e.b, f);
        if e.Finish? { DrainRises(Shutdown(r, cfg, e.a, e.b), cfg, e.d, f + |r.batch|); }
      }
    }
  }

  lemma AnyStepRises(r: Runner, cfg: Config, e: Event)
    requires PosInv(r, cfg) && Enabled(r, cfg, e) && (cfg.ahead || !OvertakesIn(r, cfg, e))
    ensures PosInv(Step(r, cfg, e), cfg)
  {
    hide Commit, LastWrite, Shutdown, FlushAt, Drained, Overtakes, Rising, Durable;
    if e.Crash? {
      var s := if e.during.None? then r else Step(r, cfg, e.during.value);
      if e.during.Some? { StepRises(r, cfg, e.during.value); }
      RisingPrefix(s.log, Min(|r.log| + e.k, |s.log|));
    } else {
      StepRises(r, cfg, e);
    }
  }

  /** In every run the saved positions never go back, unless a batch without survivors is saved over records still
      waiting for their save, or a drained aggregate is saved. */
  lemma {:induction false} RunRises(cfg: Config, es: seq<Event>)
    requires IsRun(cfg, es) && (cfg.ahead || NeverOvertakes(cfg, es))
    ensures PosInv(After(cfg, es), cfg) && Rising(After(cfg, es).log)
  {
    if es != [] {
      hide Step, Enabled, OvertakesIn, Rising;
      RunRises(cfg, es[..|es| - 1]);
      AnyStepRises(After(cfg, es[..|es| - 1]), cfg, es[|es| - 1]);
    }
  }

  // ---------------------------------------------------------------- which settings

  /** No run over any source ever saves a position below an earlier one. */
  ghost predicate Forward(cfg: Config) {
    forall n: nat, es :: IsRun(cfg.(length := n), es) ==> Rising(After(cfg.(length := n), es).log)
  }

  lemma Recedes(cfg: Config, n: nat, r: Runner, i: nat, j: nat)
    requires Reachable(cfg.(length := n), r) && i < j < |r.log| && r.log[i].Saved? && r.log[j].Saved?
    requires r.log[i].pos > r.log[j].pos
    ensures !Forward(cfg)
  {
    hide Step, Enabled;
    var es :| IsRun(cfg.(length := n), es) && After(cfg.(length := n), es) == r;
    assert !Rising(After(cfg.(length := n), es).log);
  }

  const UNBOUND := CALM.(save := Unbound)

  function Waited(cfg: Config): seq<Entry> { Mark(cfg, 0) + [Delivered(0)] }

  /** A record whose save could not be completed: it waits for the next one. */
  lemma OneWaits(r: Runner, cfg: Config) returns (r': Runner)
    requires cfg.window == NoWindow && r == Alone(Fed(INITIAL.(up := true)))
    ensures r' == Commit(r, cfg, UNBOUND, COMMIT_TIMEOUT) && r'.clock == 0
    ensures r' == r.(log := Waited(cfg), pending := [0], batch := [], unsaved := 1, breaker := r'.breaker)
  {
    hide Commit, Enqueue, PastBreaker, Abandons, Mark;
    OneDelivered(r, cfg, UNBOUND, 0);
    var r1 := r.(log := Mark(cfg, 0));
    assert r.log + Notes(cfg, r.held, 0) == Mark(cfg, 0);
    ClosedBreaker(r1, cfg, UNBOUND);
    assert Deliveries([0]) == [Delivered(0)];
    Unbounded(Landed(r1, cfg, [0]), cfg);
    r' := Commit(r, cfg, UNBOUND, COMMIT_TIMEOUT);
  }

  lemma Unbounded(r: Runner, cfg: Config)
    requires r.pending == [] && r.unsaved == 0 && !r.blocked && r.lastSave.None?
    ensures var r' := Enqueue(r, cfg, UNBOUND, [0]); r' == r.(pending := [0], unsaved := 1, breaker := r'.breaker)
  {
    hide RecordFailure;
    assert r.pending + [0] == [0];
  }

  lemma ReachWaiting(cfg: Config) returns (r: Runner)
    requires cfg.window == NoWindow && cfg.length >= 2
    ensures Reachable(cfg, r) && r == INITIAL.(up := true, next := 2, queue := [1], log := Waited(cfg),
                                               pending := [0], unsaved := 1, breaker := r.breaker)
  {
    hide Reachable, RecordFailure, Waited;
    ReachStarted(cfg);
    var r0 := Fed(INITIAL.(up := true));
    ReachRead(cfg, INITIAL.(up := true));
    assert r0.queue == [0];
    var r1 := OneWaits(Alone(r0), cfg);
    hide Commit;
    ReachPush(cfg, r0, UNBOUND, UNBOUND);
    var r2 := Push(r0, cfg, UNBOUND, UNBOUND);
    ReachRead(cfg, r2);
    r := Fed(r2);
    assert r.queue == [1];
  }

  /** Record 1 alone leaves nothing for the sink: filtered, or turned away by the source parser. */
  function Nothing(cfg: Config): Answers { Fine(0, 0, Accepts, map[1 := if cfg.batching then Rejected else Filtered], {}) }

  function Ended(cfg: Config): Entry { if cfg.batching then Dead(1) else Skipped(1) }

  lemma NothingLeft(r: Runner, cfg: Config)
    requires cfg.window == NoWindow && (cfg.dlq || !cfg.batching) && r.held == [] && r.batch == [1]
    ensures Survivors(cfg, Nothing(cfg), Input(r, Nothing(cfg), [1])) == [] && !ChainFailed(cfg, Nothing(cfg), [1])
    ensures EmptyMaySave(cfg, Nothing(cfg), [1], Input(r, Nothing(cfg), [1]))
    ensures AtBreaker(r, cfg, Nothing(cfg)) == r.(clock := 0, log := r.log + [Ended(cfg)])
  {
    var a := Nothing(cfg);
    var fate := FateOf(a, 1);
    forall w ensures Having([1], a, w) == (if Picks(w, fate) then [1] else []) && Having([], a, w) == [] { HavingOne(1, a, w); }
    InputIsAccepted(r, a, [1]);
    var r0 := r.(clock := 0);
    var r1 := r0.(log := r.log + [Ended(cfg)]);
    assert [1][1..] == [];
    assert HandleEach(r0, cfg, a, []) == r0 && HandleEach(r1, cfg, a, []) == r1 && Transform(r1, cfg, a, []) == r1;
    if cfg.batching {
      assert HandleEach(r0, cfg, a, [1]) == HandleEach(r1, cfg, a, []);
    } else {
      assert Transform(r0, cfg, a, [1]) == Transform(r1, cfg, a, []);
    }
  }

  lemma OneOvertakes(r: Runner, cfg: Config)
    requires cfg.window == NoWindow && !cfg.ahead && (cfg.dlq || !cfg.batching) && r.held == [] && r.batch == [1] && !r.blocked
    ensures Commit(r, cfg, Nothing(cfg), COMMIT_TIMEOUT) ==
            r.(clock := 0, log := r.log + [Ended(cfg), Saved(2)], lastSave := Some(0), unsaved := 0, batch := [])
  {
    NothingLeft(r, cfg);
    hide AtBreaker, Survivors, Input, ChainFailed, EmptyMaySave, Ended, WriteSink, Abandons;
    assert r.log + [Ended(cfg)] + [Saved(2)] == r.log + [Ended(cfg), Saved(2)];
  }

  /** A delivered record waits for its save; the next one needs no delivery and is saved at once; then the timer
      saves the first. */
  lemma OvertakenGoesBack(cfg: Config) returns (r: Runner)
    requires cfg.window == NoWindow && !cfg.ahead && (cfg.dlq || !cfg.batching) && cfg.length >= 2
    ensures Reachable(cfg, r) && r.log == Waited(cfg) + [Ended(cfg), Saved(2), Saved(1)]
  {
    hide Reachable, Ended, Waited;
    var r1 := ReachWaiting(cfg);
    OneOvertakes(Alone(r1), cfg);
    hide Commit;
    var b := CALM.(now := Interval(cfg));
    ReachPush(cfg, r1, Nothing(cfg), b);
    r := Push(r1, cfg, Nothing(cfg), b);
    assert Waited(cfg) + [Ended(cfg), Saved(2)] + [Saved(1)] == Waited(cfg) + [Ended(cfg), Saved(2), Saved(1)];
  }

  /** The drained aggregate: the reader places it at the start of the source. */
  const AGGREGATE := CALM.(at := Some(0))

  lemma AggregateSaved(r: Runner, cfg: Config)
    requires !cfg.ahead && r.held == [] && r.pending == [] && !r.blocked && r.breaker.mode == Closed
    requires r.batch == [0] && r.unsaved == SAVE_EVERY && cfg.window != NoWindow
    ensures Commit(r, cfg, AGGREGATE, SHUTDOWN_TIMEOUT).log == r.log + Notes(cfg, [], 0) + [Delivered(0), Saved(0)]
  {
    OneBefore(r, cfg, AGGREGATE, 0);
    OneFit(cfg, AGGREGATE, 0);
    hide AtBreaker, Input, ChainFailed, Survivors, FlagSafe, EmptyMaySave, Notes, Enqueue;
    var r1 := r.(clock := 0, log := r.log + Notes(cfg, [], 0));
    assert Deliveries([0]) == [Delivered(0)];
    AggregateEnqueued(Landed(r1, cfg, [0]), cfg);
    assert r1.log + [Delivered(0)] + [Saved(0)] == r1.log + [Delivered(0), Saved(0)];
  }

  lemma AggregateEnqueued(r: Runner, cfg: Config)
    requires !cfg.ahead && r.pending == [] && !r.blocked && r.unsaved == SAVE_EVERY
    ensures Enqueue(r, cfg, AGGREGATE, [0]).log == r.log + [Saved(0)]
  {
    assert r.pending + [0] == [0];
  }

  lemma DrainSaves(r: Runner, cfg: Config)
    requires cfg.window != NoWindow && !cfg.ahead && r.held == [0] && r.pending == [] && !r.blocked && r.breaker.mode == Closed
    ensures exists more :: Drained(r, cfg, Some(AGGREGATE)).log == r.log + more + [Saved(0)]
  {
    hide Commit, Notes;
    var store := if cfg.window == Persisted then [Stored([])] else [];
    var r1 := r.(held := [], batch := [0], unsaved := SAVE_EVERY, log := r.log + store);
    AggregateSaved(r1, cfg);
    var more := store + Notes(cfg, [], 0) + [Delivered(0)];
    assert r.log + more + [Saved(0)] == r1.log + Notes(cfg, [], 0) + [Delivered(0), Saved(0)];
  }

  /** Record 0 is held back, record 1 is saved, and what the drain makes of record 0 is saved at the start. */
  lemma DrainGoesBack(cfg: Config) returns (r: Runner, i: nat, j: nat)
    requires cfg.window != NoWindow && !cfg.ahead && cfg.length >= 2
    ensures Reachable(cfg, r) && i < j < |r.log| && r.log[i] == Saved(2) && r.log[j] == Saved(0)
  {
    hide Reachable, Drained, Store, Notes, FlushAt;
    var r1 := ReachHeld(cfg);
    i := |r1.log| - 1;
    assert r1.log[i] == Saved(2);
    DrainSaves(r1, cfg);
    NothingPending(r1, cfg, CALM, true);
    assert Shutdown(r1, cfg, CALM, CALM) == r1;
    ReachStep(cfg, r1, Finish(CALM, CALM, Some(AGGREGATE)));
    r := Step(r1, cfg, Finish(CALM, CALM, Some(AGGREGATE)));
    var more :| r.log == r1.log + more + [Saved(0)];
    j := |r.log| - 1;
    assert r.log[i] == r1.log[i];
  }

  // ---------------------------------------------------------------- the exact condition

  lemma HavingTaken(cfg: Config, a: Answers, recs: seq<nat>, w: Which)
    requires !cfg.dlq && AllTaken(cfg, a, Having(recs, a, w))
    ensures Having(recs, a, w) == []
  {
    var taken := Having(recs, a, w);
    assert taken != [] ==> DlqTakes(cfg, a, taken[0]);
  }

  /** Without a dead-letter queue a batch transform rules such saves out. */
  lemma StrictNeverOvertakes(r: Runner, cfg: Config, a: Answers)
    requires cfg.batching && !cfg.dlq
    ensures !Overtakes(r, cfg, a)
  {
    hide Having;
    var batch, input := r.batch, Input(r, a, r.batch);
    if FlagSafe(cfg, a, batch, input) {
      HavingTaken(cfg, a, batch, Only(Rejected));
      if cfg.keyed { HavingTaken(cfg, a, input, Only(NoKey)); }
    }
  }

  /** Without a window nothing is held back, so nothing is drained. */
  lemma {:induction false} NothingHeld(cfg: Config, es: seq<Event>)
    requires cfg.window == NoWindow && IsRun(cfg, es)
    ensures After(cfg, es).held == []
  {
    if es != [] {
      hide Step, Enabled;
      NothingHeld(cfg, es[..|es| - 1]);
      StepHoldsNothing(After(cfg, es[..|es| - 1]), cfg, es[|es| - 1]);
    }
  }

  lemma SaveHolds(r: Runner, cfg: Config, a: Answers, processed: seq<nat>)
    ensures Save(r, cfg, a, processed).0.held == r.held
  {}

  lemma AcceptedHolds(r: Runner, cfg: Config, a: Answers, batch: seq<nat>, input: seq<nat>)
    ensures Accepted(r, cfg, a, batch, input).held == r.held
  {
    hide Save, FlagSafe, Survivors, RecordFailure;
    var r1 := Landed(r, cfg, Survivors(cfg, a, input));
    var r2 := r1.(unsaved := r1.unsaved + 1, pending := r1.pending + batch);
    SaveHolds(r2, cfg, a, r2.pending);
  }

  lemma RefusedKeepsHeld(r: Runner, cfg: Config, a: Answers, survivors: seq<nat>)
    requires a.sink.Refuses?
    ensures Refused(r, cfg, a, survivors).held == r.held
  {
    hide HandleEach, AfterRefusal;
    var (good, bad) := AfterRefusal(a.sink, survivors);
    var r1 := Trip(r, cfg);
    HandleEachCovers(r1.(log := r1.log + Deliveries(good)), cfg, a, bad);
  }

  lemma CommitHolds(r: Runner, cfg: Config, a: Answers, budget: nat)
    requires cfg.window == NoWindow && r.held == []
    ensures Commit(r, cfg, a, budget).held == []
  {
    hide BeforeSink, Survivors, EmptyMaySave, Input, ChainFailed, Save, Accepted, Refused, Abandons;
    BeforeSinkCovers(r.(clock := a.now + a.early), cfg, a, r.batch);
    var r1, input := AtBreaker(r, cfg, a), Input(r, a, r.batch);
    SaveHolds(r1, cfg, a, r.batch);
    var r2 := PastBreaker(r1, cfg, a);
    if a.sink.Refuses? { RefusedKeepsHeld(r2, cfg, a, Survivors(cfg, a, input)); } else { AcceptedHolds(r2, cfg, a, r.batch, input); }
  }

  lemma {:induction false} StepHoldsNothing(r: Runner, cfg: Config, e: Event)
    requires cfg.window == NoWindow && r.held == [] && Enabled(r, cfg, e)
    ensures Step(r, cfg, e).held == []
    ensures e.Finish? ==> Shutdown(r, cfg, e.a, e.b).held == []
  {
    hide Commit;
    match e
    case Take(a) => CommitHolds(r.(batch := r.batch + [r.queue[0]], queue := r.queue[1..]), cfg, a, COMMIT_TIMEOUT);
    case Tick(a, _) => CommitHolds(r, cfg, a, COMMIT_TIMEOUT);
    case Stop(a, _) => CommitHolds(if r.batch == [] then r else r.(unsaved := SAVE_EVERY), cfg, a, SHUTDOWN_TIMEOUT);
    case Finish(a, _, _) => CommitHolds(if r.batch == [] then r else r.(unsaved := SAVE_EVERY), cfg, a, SHUTDOWN_TIMEOUT);
    case _ =>
  }

  lemma {:induction false} StrictStep(r: Runner, cfg: Config, e: Event)
    requires cfg.window == NoWindow && cfg.batching && !cfg.dlq && r.held == [] && Enabled(r, cfg, e)
    ensures !OvertakesIn(r, cfg, e)
    decreases e
  {
    hide Overtakes, Commit, FlushPending;
    if e.Crash? {
      if e.during.Some? { StrictStep(r, cfg, e.during.value); }
    } else {
      StepHoldsNothing(r, cfg, e);
      forall r0: Runner, a ensures !Overtakes(r0, cfg, a) { StrictNeverOvertakes(r0, cfg, a); }
    }
  }

  lemma {:induction false} StrictRun(cfg: Config, es: seq<Event>)
    requires cfg.window == NoWindow && cfg.batching && !cfg.dlq && IsRun(cfg, es)
    ensures NeverOvertakes(cfg, es)
  {
    if es != [] {
      hide Step, Enabled, OvertakesIn;
      StrictRun(cfg, es[..|es| - 1]);
      NothingHeld(cfg, es[..|es| - 1]);
      StrictStep(After(cfg, es[..|es| - 1]), cfg, es[|es| - 1]);
    }
  }

  lemma StrictForward(cfg: Config)
    requires cfg.ahead || (cfg.window == NoWindow && cfg.batching && !cfg.dlq)
    ensures Forward(cfg)
  {
    hide IsRun, After, Rising, NeverOvertakes;
    forall n: nat, es | IsRun(cfg.(length := n), es) ensures Rising(After(cfg.(length := n), es).log) {
      if !cfg.ahead { StrictRun(cfg.(length := n), es); }
      RunRises(cfg.(length := n), es);
    }
  }

  /** Saved positions never go back, over every source and every run, exactly when the reader answers with its own
      position, or a batch transform that is no window runs without a dead-letter queue. */
  lemma ForwardIff(cfg: Config)
    ensures Forward(cfg) <==> cfg.ahead || (cfg.window == NoWindow && cfg.batching && !cfg.dlq)
  {
    hide Forward, Reachable;
    var two := cfg.(length := 2);
    if cfg.ahead || (cfg.window == NoWindow && cfg.batching && !cfg.dlq) {
      StrictForward(cfg);
    } else if cfg.window == NoWindow {
      var r := OvertakenGoesBack(two);
      var n := |Waited(two)|;
      Recedes(cfg, 2, r, n + 1, n + 2);
    } else {
      var r, i, j := DrainGoesBack(two);
      Recedes(cfg, 2, r, i, j);
    }
  }
}
