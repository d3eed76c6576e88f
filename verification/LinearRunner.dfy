/**
 The linear pipeline runner (internal/etl/pipeline/pipeline.go) as a state machine.

 A record is named by its position in the source. Everything that survives a crash is
 one append-only log: a record reached the sink, reached the dead-letter queue, was
 dropped on purpose by a transform, a window wrote what it holds back to its state store,
 a transform noted in its store that it let a record through, or a checkpoint was saved. A crash keeps some prefix of the log and nothing else, so a
 property of every prefix is a property of every crash.

 What the outside world answers during one commit (transforms, sink, dead-letter queue,
 checkpoint store, clock) is a parameter of the step. The runner's clock never goes back.
 */
module LinearRunner {
  import opened CircuitBreaker
  import opened Prelude

  // ---------------------------------------------------------------- durable side

  datatype Entry = Delivered(rec: nat) | Dead(rec: nat) | Skipped(rec: nat) | Stored(held: seq<nat>) | Seen(rec: nat) | Saved(pos: nat)

  /** The record reached the sink or the dead-letter queue, or a transform dropped it on purpose. */
  predicate Settled(log: seq<Entry>, i: nat) {
    Delivered(i) in log || Dead(i) in log || Skipped(i) in log
  }

  predicate SettledBelow(log: seq<Entry>, p: nat) {
    forall i: nat :: i < p ==> Settled(log, i)
  }

  /** No checkpoint was ever saved over a record that had not been settled before it. */
  predicate Safe(log: seq<Entry>) {
    forall k :: 0 <= k < |log| && log[k].Saved? ==> SettledBelow(log[..k], log[k].pos)
  }

  /** The position a restart resumes from: the last one saved. */
  function Durable(log: seq<Entry>): nat {
    if log == [] then 0
    else if log[|log| - 1].Saved? then log[|log| - 1].pos
    else Durable(log[..|log| - 1])
  }

  /** What a window finds in its state store after a restart. */
  function InStore(log: seq<Entry>): seq<nat> {
    if log == [] then []
    else if log[|log| - 1].Stored? then log[|log| - 1].held
    else InStore(log[..|log| - 1])
  }

  predicate KeptBelow(log: seq<Entry>, p: nat) {
    forall i: nat :: i < p ==> Settled(log, i) || i in InStore(log)
  }

  /** Wherever a crash cuts the log, a restart skips no record that is neither settled nor in the state store. */
  predicate NothingLost(log: seq<Entry>) {
    forall n :: 0 <= n <= |log| ==> KeptBelow(log[..n], Durable(log[..n]))
  }

  // ---------------------------------------------------------------- the runner

  const COMMIT_TIMEOUT := 30   // seconds one commit may take
  const SHUTDOWN_TIMEOUT := 10 // seconds the final flush may take
  const SAVE_EVERY := 10       // batches after which a save is due whatever the clock says

  /** Whether the transform chain has a window, which holds records back, and where it keeps them. */
  datatype Window = NoWindow | InMemory | Persisted

  /** dlq: a dead-letter writer is wired. keyed: the sink needs complete primary keys. batching: the transform
      chain has a batch transform other than a window. ahead: asked for the position of a record, the reader
      answers with the position it has itself read up to. marks: a transform notes in a store the key of each record
      it lets through, and drops a record whose key is there. misses: a transform lets records through only because
      of earlier ones, which it keeps in memory. */
  datatype Config = Config(length: nat, batchSize: int, interval: nat, dlq: bool, keyed: bool, batching: bool,
                           breaker: Option<BreakerCfg>, window: Window, ahead: bool, marks: bool, misses: bool)

  /** A size of zero stands for the default. */
  function BatchSize(cfg: Config): int { if cfg.batchSize == 0 then 1000 else cfg.batchSize }

  predicate Batching(cfg: Config) { cfg.batching || cfg.window != NoWindow }

  /** held: the records a window holds back. clock: the latest reading of the clock. base: where this run began. */
  datatype Runner = Runner(log: seq<Entry>, up: bool, next: nat, queue: seq<nat>, batch: seq<nat>,
                           pending: seq<nat>, blocked: bool, unsaved: nat, lastSave: Option<nat>,
                           breaker: Breaker, held: seq<nat>, clock: nat, base: nat)

  const INITIAL := Runner([], false, 0, [], [], [], false, 0, None, FRESH_BREAKER, [], 0, 0)

  /** What becomes of one record before the sink: rejected by the source parser; filtered; dropped because its own
      key was noted when it was let through before; dropped because the transform has forgotten the earlier record it
      would have let it through for; swallowed by a batch transform, which is holding it back where the chain has a
      window and dropping it where it has none; failed by a transform; left without a primary key; or fit for the
      sink. */
  datatype Fate = Rejected | Filtered | Repeated | Missed | Absorbed | Broken | NoKey | Clean

  /** partial: indices an error names as failed ([] for a plain error); alone: records that fail when
      written one at a time. */
  datatype SinkAnswer = Accepts | Refuses(partial: seq<int>, alone: set<nat>)

  /** Unsupported: no store, or the reader cannot turn a record into a position. Unbound: state versions,
      sink metadata or envelope could not be collected. */
  datatype SaveAnswer = Saves | Unsupported | NoPosition | Unbound | StoreFails | AckFails

  /** The batch transform chain works, or fails as a whole, before or after a window wrote its state store. */
  datatype Chain = Works | Fails(stored: bool)

  /** now: the clock when the step begins. early, elapsed: seconds later at which failures before the sink are
      handled and the breaker is consulted. took: seconds of the write itself. released: held records whose
      window closes. dlqDown: records whose DLQ write fails. at: the position the reader gives for a drained
      aggregate, which carries none. */
  datatype Answers = Answers(now: nat, early: nat, elapsed: nat, took: nat, fates: map<nat, Fate>, released: set<nat>,
                             chain: Chain, dlqDown: set<nat>, sink: SinkAnswer, save: SaveAnswer, at: Option<nat>)

  function FateOf(a: Answers, i: nat): Fate { if i in a.fates then a.fates[i] else Clean }

  function Trip(r: Runner, cfg: Config): Runner {
    if cfg.breaker.Some? then r.(breaker := RecordFailure(r.breaker, cfg.breaker.value, r.clock)) else r
  }

  predicate DlqTakes(cfg: Config, a: Answers, i: nat) { cfg.dlq && i !in a.dlqDown }

  /** handleFailedRecord: into the dead-letter queue, or block every later checkpoint of this run. */
  function HandleFailed(r: Runner, cfg: Config, a: Answers, i: nat): Runner {
    if DlqTakes(cfg, a, i) then r.(log := r.log + [Dead(i)])
    else (if cfg.dlq then Trip(r, cfg) else r).(blocked := true)
  }

  function HandleEach(r: Runner, cfg: Config, a: Answers, recs: seq<nat>): Runner
    decreases |recs|
  {
    if recs == [] then r else HandleEach(HandleFailed(r, cfg, a, recs[0]), cfg, a, recs[1..])
  }

  predicate AllTaken(cfg: Config, a: Answers, recs: seq<nat>) {
    forall k :: 0 <= k < |recs| ==> DlqTakes(cfg, a, recs[k])
  }

  /** Which records are meant: one fate; all the source parser accepted; all a transform dropped; all the transforms
      passed on; or all fit for the sink, which may need keys. */
  datatype Which = Only(fate: Fate) | NotRejected | Dropped | Passed | Fit(keyed: bool)

  /** A drop that a run without interruption would not have made. */
  predicate Forgotten(f: Fate) { f == Repeated || f == Missed }

  predicate Picks(w: Which, f: Fate) {
    match w
    case Only(g) => f == g
    case NotRejected => f != Rejected
    case Dropped => f == Filtered || Forgotten(f)
    case Passed => f == NoKey || f == Clean
    case Fit(keyed) => f == Clean || (f == NoKey && !keyed)
  }

  /** The records meant, in order. */
  function Having(recs: seq<nat>, a: Answers, w: Which): seq<nat> {
    if recs == [] then []
    else if Picks(w, FateOf(a, recs[0])) then [recs[0]] + Having(recs[1..], a, w)
    else Having(recs[1..], a, w)
  }

  function Deliveries(recs: seq<nat>): seq<Entry> {
    seq(|recs|, k requires 0 <= k < |recs| => Delivered(recs[k]))
  }

  // ---------------------------------------------------------------- the transforms

  /** The held records whose window closes, or the others. */
  function Releasing(held: seq<nat>, a: Answers, out: bool): seq<nat> {
    if held == [] then []
    else (if (held[0] in a.released && FateOf(a, held[0]) != Rejected) == out then [held[0]] else [])
         + Releasing(held[1..], a, out)
  }

  /** What the transforms work on: the accepted records, and what a window lets go; nothing when none is accepted. */
  function Input(r: Runner, a: Answers, batch: seq<nat>): seq<nat> {
    var accepted := Having(batch, a, NotRejected);
    if accepted == [] then [] else Releasing(r.held, a, true) + accepted
  }

  predicate ChainFailed(cfg: Config, a: Answers, batch: seq<nat>) {
    Batching(cfg) && Having(batch, a, NotRejected) != [] && a.chain.Fails?
  }

  /** A window takes in what it absorbs, lets go what it releases, and writes its state store if it has one. */
  function Absorb(r: Runner, cfg: Config, a: Answers, input: seq<nat>): Runner {
    if cfg.window == NoWindow then r
    else
      var held := Releasing(r.held, a, false) + Having(input, a, Only(Absorbed));
      r.(held := held,
         log := r.log + (if cfg.window == Persisted && (a.chain.Works? || a.chain.stored) then [Stored(held)] else []))
  }

  /** What is noted of a record that is let through. */
  function Mark(cfg: Config, i: nat): seq<Entry> { if cfg.marks then [Seen(i)] else [] }

  /** One record through the transforms. */
  function Pass(r: Runner, cfg: Config, a: Answers, i: nat): Runner {
    match FateOf(a, i)
    case Filtered => r.(log := r.log + [Skipped(i)])
    case Absorbed => if cfg.window == NoWindow then r.(log := r.log + [Skipped(i)]) else r
    case Broken => HandleFailed(r, cfg, a, i)
    case NoKey => r.(log := r.log + Mark(cfg, i))
    case Clean => r.(log := r.log + Mark(cfg, i))
    case _ => r
  }

  /** One pass of the transforms: drops and failures take effect in record order. */
  function Transform(r: Runner, cfg: Config, a: Answers, recs: seq<nat>): Runner
    decreases |recs|
  {
    if recs == [] then r else Transform(Pass(r, cfg, a, recs[0]), cfg, a, recs[1..])
  }

  // ---------------------------------------------------------------- checkpoints

  function BoundaryError(r: Runner, cfg: Config): Runner { Trip(r, cfg) }

  function Position(r: Runner, cfg: Config, a: Answers, processed: seq<nat>): nat
    requires processed != []
  {
    if cfg.ahead then r.next else if a.at.Some? then a.at.value else processed[|processed| - 1] + 1
  }

  /** saveCommittedCheckpoint: the position after the last processed record, unless blocked. */
  function Save(r: Runner, cfg: Config, a: Answers, processed: seq<nat>): (Runner, bool) {
    if processed == [] || a.save == Unsupported then (r, false)
    else if r.blocked then (BoundaryError(r, cfg), false)
    else
      var saved := r.log + [Saved(Position(r, cfg, a, processed))];
      if a.save == NoPosition then (BoundaryError(r, cfg).(blocked := true), false)
      else if a.save == Unbound then (BoundaryError(r, cfg), false)
      else if a.save == StoreFails then (Trip(r, cfg).(blocked := true), false)
      else if a.save == AckFails then (BoundaryError(r, cfg).(log := saved, blocked := true), false)
      else (r.(log := saved, lastSave := Some(r.clock), unsaved := 0), true)
  }

  /** Seconds between saves; an interval of zero stands for the default. */
  function Interval(cfg: Config): nat { if cfg.interval == 0 then 30 else cfg.interval }

  predicate SaveDue(r: Runner, cfg: Config) {
    r.lastSave.None? || r.clock - r.lastSave.value >= Interval(cfg) || r.unsaved >= SAVE_EVERY
  }

  /** flushPendingCheckpoint */
  function FlushPending(r: Runner, cfg: Config, a: Answers, force: bool): Runner {
    if r.pending == [] || (!force && !SaveDue(r, cfg)) then r
    else
      var (r1, ok) := Save(r, cfg, a, r.pending);
      if ok then r1.(pending := []) else r1
  }

  // ---------------------------------------------------------------- the sink

  /** The indices of a partial batch error are usable: there is at least one and all are in range. */
  predicate Usable(partial: seq<int>, n: nat) {
    partial != [] && forall k :: 0 <= k < |partial| ==> 0 <= partial[k] < n
  }

  /** The named records, each once, in the order the error names them. */
  function Named(partial: seq<int>, recs: seq<nat>, seen: set<int>): seq<nat>
    requires forall k :: 0 <= k < |partial| ==> 0 <= partial[k] < |recs|
  {
    if partial == [] then []
    else (if partial[0] in seen then [] else [recs[partial[0]]])
         + Named(partial[1..], recs, seen + {partial[0]})
  }

  function Unnamed(partial: seq<int>, recs: seq<nat>, k: nat): seq<nat>
    requires k <= |recs|
    decreases |recs| - k
  {
    if k == |recs| then []
    else (if k in partial then [] else [recs[k]]) + Unnamed(partial, recs, k + 1)
  }

  function Splits(recs: seq<nat>, out: set<nat>): (seq<nat>, seq<nat>) {
    if recs == [] then ([], [])
    else
      var (good, bad) := Splits(recs[1..], out);
      if recs[0] in out then (good, [recs[0]] + bad) else ([recs[0]] + good, bad)
  }

  /** After a refused write: which survivors the sink holds, and which are handed on as failed. */
  function AfterRefusal(sink: SinkAnswer, recs: seq<nat>): (seq<nat>, seq<nat>)
    requires sink.Refuses?
  {
    if Usable(sink.partial, |recs|) then (Unnamed(sink.partial, recs, 0), Named(sink.partial, recs, {}))
    else Splits(recs, sink.alone)
  }

  /** The breaker is open and its cooldown outlasts what is left of the commit budget. */
  predicate Abandons(r: Runner, cfg: Config, a: Answers, budget: nat) {
    && cfg.breaker.Some?
    && !Allow(r.breaker, cfg.breaker.value, r.clock).1
    && a.elapsed + Cooldown(cfg.breaker.value) >= budget
  }

  /** The records that reach the sink write. */
  function Survivors(cfg: Config, a: Answers, input: seq<nat>): seq<nat> {
    Having(input, a, Fit(cfg.keyed))
  }

  /** The runner just before the sink is asked. */
  function BeforeSink(r: Runner, cfg: Config, a: Answers, batch: seq<nat>): Runner {
    var accepted, input := Having(batch, a, NotRejected), Input(r, a, batch);
    var r1 := HandleEach(r, cfg, a, Having(batch, a, Only(Rejected)));
    if accepted == [] then r1
    else
      var r2 := Absorb(r1, cfg, a, input);
      if ChainFailed(cfg, a, batch) then HandleEach(r2, cfg, a, accepted)
      else
        var r3 := Transform(r2, cfg, a, input);
        if cfg.keyed then HandleEach(r3, cfg, a, Having(input, a, Only(NoKey))) else r3
  }

  /** The local checkpointBoundarySafe flag. The record path of the transforms overwrites what the rejected
      records left in it; only the blocked field of the runner still remembers them. */
  predicate FlagSafe(cfg: Config, a: Answers, batch: seq<nat>, input: seq<nat>) {
    var accepted := Having(batch, a, NotRejected);
    && (Batching(cfg) || accepted == [] ==> AllTaken(cfg, a, Having(batch, a, Only(Rejected))))
    && AllTaken(cfg, a, Having(input, a, Only(Broken)))
    && (cfg.keyed ==> AllTaken(cfg, a, Having(input, a, Only(NoKey))))
  }

  /** A batch without survivors may still be checkpointed: every record was rejected, lacked a key or was
      filtered, nothing failed in a transform, and every failure is in the dead-letter queue. */
  predicate EmptyMaySave(cfg: Config, a: Answers, batch: seq<nat>, input: seq<nat>) {
    var accepted := Having(batch, a, NotRejected);
    var rejected := Having(batch, a, Only(Rejected));
    var keyless := if cfg.keyed then Having(input, a, Only(NoKey)) else [];
    var broken := Having(input, a, Only(Broken));
    var batchZero := Batching(cfg) && accepted != [] && Having(input, a, Passed) == [];
    || ((rejected != [] || keyless != []) && broken == [] && FlagSafe(cfg, a, batch, input) && !batchZero)
    || (!Batching(cfg) && |Having(input, a, Dropped)| == |batch| && broken == [])
  }

  /** Seconds spent waiting for an open breaker. */
  function Wait(r: Runner, cfg: Config): nat {
    if cfg.breaker.Some? && !Allow(r.breaker, cfg.breaker.value, r.clock).1 then Cooldown(cfg.breaker.value) else 0
  }

  /** The runner at the breaker: what comes before the sink has been done, and the clock has moved on. */
  function AtBreaker(r: Runner, cfg: Config, a: Answers): Runner {
    BeforeSink(r.(clock := a.now + a.early), cfg, a, r.batch).(clock := a.now + a.elapsed)
  }

  /** writeBatch */
  function WriteBatch(r: Runner, cfg: Config, a: Answers, budget: nat): Runner {
    var batch, input := r.batch, Input(r, a, r.batch);
    var survivors := Survivors(cfg, a, input);
    var r1 := AtBreaker(r, cfg, a);
    if ChainFailed(cfg, a, batch) then r1
    else if survivors == [] then
      if EmptyMaySave(cfg, a, batch, input) then Save(r1, cfg, a, batch).0 else r1
    else if Abandons(r1, cfg, a, budget) then r1.(clock := Max(r1.clock, a.now + budget))
    else WriteSink(PastBreaker(r1, cfg, a), cfg, a, batch, input)
  }

  /** The breaker lets the write go ahead, now or after its cooldown, and the sink has answered. */
  function PastBreaker(r: Runner, cfg: Config, a: Answers): Runner {
    r.(breaker := if cfg.breaker.Some? then Allow(r.breaker, cfg.breaker.value, r.clock).0 else r.breaker,
       clock := r.clock + Wait(r, cfg) + a.took)
  }

  function WriteSink(r: Runner, cfg: Config, a: Answers, batch: seq<nat>, input: seq<nat>): Runner {
    if a.sink.Refuses? then Refused(r, cfg, a, Survivors(cfg, a, input)) else Accepted(r, cfg, a, batch, input)
  }

  function Refused(r: Runner, cfg: Config, a: Answers, survivors: seq<nat>): Runner
    requires a.sink.Refuses?
  {
    var (good, bad) := AfterRefusal(a.sink, survivors);
    var r1 := Trip(r, cfg);
    HandleEach(r1.(log := r1.log + Deliveries(good)), cfg, a, bad)
  }

  function Accepted(r: Runner, cfg: Config, a: Answers, batch: seq<nat>, input: seq<nat>): Runner {
    var r1 := Landed(r, cfg, Survivors(cfg, a, input));
    if FlagSafe(cfg, a, batch, input) then Enqueue(r1, cfg, a, batch) else BoundaryError(r1, cfg)
  }

  /** The survivors are in the sink and the breaker is closed. */
  function Landed(r: Runner, cfg: Config, survivors: seq<nat>): Runner {
    r.(log := r.log + Deliveries(survivors),
       breaker := if cfg.breaker.Some? then RecordSuccess(r.breaker) else r.breaker)
  }

  /** The batch waits for its checkpoint, which is saved at once when one is due. */
  function Enqueue(r: Runner, cfg: Config, a: Answers, batch: seq<nat>): Runner {
    var r1 := r.(unsaved := r.unsaved + 1, pending := r.pending + batch);
    if SaveDue(r1, cfg) then FlushPending(r1, cfg, a, true) else r1
  }

  // ---------------------------------------------------------------- runs

  /** Crash(k, ...) loses everything but the first k entries the interrupted step would have written. */
  datatype Event =
    | Start
    | Read                                  // the reader emits the next record
    | Take(a: Answers)                      // the write loop takes a record, writing a full batch
    | Tick(a: Answers, b: Answers)          // the flush timer: write, then save if due
    | Stop(a: Answers, b: Answers)          // cancelled: last write, then save
    | Finish(a: Answers, b: Answers, d: Option<Answers>) // the channel is closed and empty: write, save, drain windows
    | Crash(k: nat, during: Option<Event>)

  function Commit(r: Runner, cfg: Config, a: Answers, budget: nat): Runner {
    if r.batch == [] then r else WriteBatch(r, cfg, a, budget).(batch := [])
  }

  function FlushAt(r: Runner, cfg: Config, b: Answers, force: bool): Runner {
    FlushPending(r.(clock := b.now), cfg, b, force)
  }

  function LastWrite(r: Runner, cfg: Config, a: Answers): Runner {
    Commit(if r.batch == [] then r else r.(unsaved := SAVE_EVERY), cfg, a, SHUTDOWN_TIMEOUT)
  }

  /** The last write and the save after it. */
  function Shutdown(r: Runner, cfg: Config, a: Answers, b: Answers): Runner {
    FlushAt(LastWrite(r, cfg, a), cfg, b, true)
  }

  /** What windows still hold is flushed out of them and sent through the chain again as one more batch. */
  function Drained(r: Runner, cfg: Config, d: Option<Answers>): Runner {
    if r.held == [] then r
    else if d.None? then r.(held := [])
    else
      var r1 := r.(held := [], batch := r.held, unsaved := SAVE_EVERY,
                   log := r.log + if cfg.window == Persisted then [Stored([])] else []);
      Commit(r1, cfg, d.value, SHUTDOWN_TIMEOUT)
  }

  /** A step begins no earlier than the last reading of the clock. */
  predicate Timely(r: Runner, a: Answers) { r.clock <= a.now && a.early <= a.elapsed }

  /** A record is dropped as a repetition only if it was noted, and as a miss only if this run did not read from the
      start of the source. */
  predicate Possible(r: Runner, cfg: Config, a: Answers) {
    forall i :: i in a.fates ==>
      && (a.fates[i] == Repeated ==> cfg.marks && Seen(i) in r.log)
      && (a.fates[i] == Missed ==> cfg.misses && r.base > 0)
  }

  predicate Enabled(r: Runner, cfg: Config, e: Event)
    decreases e
  {
    match e
    case Start => !r.up
    case Read => r.up && r.next < cfg.length
    case Take(a) => r.up && r.queue != [] && Timely(r, a) && a.at.None? && Possible(r, cfg, a)
    case Tick(a, b) =>
      && r.up && Timely(r, a) && a.at.None? && b.at.None? && Possible(r, cfg, a)
      && Timely(Commit(r, cfg, a, COMMIT_TIMEOUT), b)
    case Stop(a, b) =>
      && r.up && Timely(r, a) && a.at.None? && b.at.None? && Possible(r, cfg, a)
      && Timely(LastWrite(r, cfg, a), b)
    case Finish(a, b, d) =>
      && r.up && r.queue == [] && Timely(r, a) && a.at.None? && b.at.None? && Possible(r, cfg, a)
      && Timely(LastWrite(r, cfg, a), b)
      && (d.Some? ==> && Timely(Shutdown(r, cfg, a, b), d.value) && Possible(Shutdown(r, cfg, a, b), cfg, d.value)
                      && d.value.at.Some? && d.value.at.value <= r.next)
    case Crash(_, during) => during.Some? ==> !during.value.Crash? && Enabled(r, cfg, during.value)
  }

  function Started(r: Runner, cfg: Config): Runner {
    Runner(r.log, true, Durable(r.log), [], [], [], false, 0, None, FRESH_BREAKER,
           if cfg.window == Persisted then InStore(r.log) else [], r.clock, Durable(r.log))
  }

  function Step(r: Runner, cfg: Config, e: Event): Runner
    requires Enabled(r, cfg, e)
    decreases e
  {
    match e
    case Start => Started(r, cfg)
    case Read => r.(queue := r.queue + [r.next], next := r.next + 1)
    case Take(a) =>
      var r1 := r.(batch := r.batch + [r.queue[0]], queue := r.queue[1..]);
      if |r1.batch| >= BatchSize(cfg) then Commit(r1, cfg, a, COMMIT_TIMEOUT) else r1
    case Tick(a, b) => FlushAt(Commit(r, cfg, a, COMMIT_TIMEOUT), cfg, b, false)
    case Stop(a, b) => Shutdown(r, cfg, a, b).(up := false)
    case Finish(a, b, d) => Drained(Shutdown(r, cfg, a, b), cfg, d).(up := false)
    case Crash(k, during) =>
      var s := if during.None? then r else Step(r, cfg, during.value);
      INITIAL.(log := s.log[..Min(|r.log| + k, |s.log|)], clock := s.clock)
  }
}
