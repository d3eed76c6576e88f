/**
 The DAG executor (internal/etl/orchestrator/executor.go): several sources, several sinks, one batch per sink.

 The router hands each record to the sinks its path through the graph ends in. A sink's batch is written when it is
 full, before the next record is taken, and all batches are written when the timer fires and at the end. After a
 write the executor saves, for every source that contributed to that batch, the position after its last record in
 the batch. Each sink has a circuit breaker; a write that finds it open goes ahead after a pause, unless the context
 it runs under is over, in which case the batch is given up.
 */
module DagExecutor {
  import opened CircuitBreaker
  import opened Prelude

  type Id = string

  datatype Msg = Msg(src: Id, i: nat)

  /** A copy of a record reached a sink, or failed on the way to it and is in the dead-letter queue; transforms noted
      in their stores that they let a record through to these sinks; a checkpoint was saved. */
  datatype Entry =
    Delivered(msg: Msg, sink: Id) | Dead(msg: Msg, sink: Id) | Seen(msg: Msg, sinks: set<Id>) | Saved(src: Id, pos: nat)

  /** routes[s][i]: the sinks that record i of source s is bound for; none when it is filtered out. parallel: records
      are routed by several workers. attempts: how often a write is tried. ahead: the sources whose reader, asked for
      the position of a record, answers with the position it has itself read up to. marks: the sinks behind a transform
      that notes in a store the key of each record it lets through, and drops a record whose key is there. misses: the
      sinks behind a transform that lets records through only because of earlier ones, which it keeps in memory. */
  datatype Config = Config(routes: map<Id, seq<set<Id>>>, batchSize: int, parallel: bool, attempts: int, ahead: set<Id>,
                           marks: set<Id>, misses: set<Id>)

  function BatchSize(cfg: Config): (n: nat)
    ensures n > 0
  {
    if cfg.batchSize <= 0 then 1000 else cfg.batchSize
  }

  const FLUSH_TIMEOUT := 30 // seconds one round of timed writes may take
  const PAUSE := 5          // seconds a write waits for an open breaker

  /** Every sink's breaker has the default settings. */
  const DEFAULTS := BreakerCfg(0, 0, 0)

  predicate Known(cfg: Config, m: Msg) { m.src in cfg.routes && m.i < |cfg.routes[m.src]| }

  function Targets(cfg: Config, m: Msg): set<Id> { if Known(cfg, m) then cfg.routes[m.src][m.i] else {} }

  predicate Resolved(log: seq<Entry>, m: Msg, k: Id) { Delivered(m, k) in log || Dead(m, k) in log }

  predicate Settled(cfg: Config, log: seq<Entry>, m: Msg) {
    forall k :: k in Targets(cfg, m) ==> Resolved(log, m, k)
  }

  predicate SettledBelow(cfg: Config, log: seq<Entry>, s: Id, p: nat) {
    forall i: nat :: i < p ==> Settled(cfg, log, Msg(s, i))
  }

  /** No checkpoint of a source was saved over a record one of whose sinks had not got it. */
  predicate Safe(cfg: Config, log: seq<Entry>) {
    forall n :: 0 <= n < |log| && log[n].Saved? ==> SettledBelow(cfg, log[..n], log[n].src, log[n].pos)
  }

  function Durable(log: seq<Entry>, s: Id): nat {
    if log == [] then 0
    else
      var e := log[|log| - 1];
      if e.Saved? && e.src == s then e.pos else Durable(log[..|log| - 1], s)
  }

  // ---------------------------------------------------------------- the executor

  /** routed: how many records of each source the router has taken. flushing: when the round of timed writes in
      progress began. clock: the latest reading of the clock. resumed: some source did not begin at its start. */
  datatype Exec = Exec(log: seq<Entry>, up: bool, cancelled: bool, routed: map<Id, nat>, buffers: map<Id, seq<Msg>>,
                       blocked: set<Id>, breakers: map<Id, Breaker>, flushing: Option<nat>, clock: nat, resumed: bool)

  const INITIAL := Exec([], false, false, map[], map[], {}, map[], None, 0, false)

  function Buffer(x: Exec, k: Id): seq<Msg> { if k in x.buffers then x.buffers[k] else [] }

  function Routed(x: Exec, s: Id): nat { if s in x.routed then x.routed[s] else 0 }

  function BreakerOf(x: Exec, k: Id): Breaker { if k in x.breakers then x.breakers[k] else FRESH_BREAKER }

  /** The last record of source s in the batch, if it contributed. */
  function LastOf(batch: seq<Msg>, s: Id): Option<nat> {
    if batch == [] then None
    else if batch[|batch| - 1].src == s then Some(batch[|batch| - 1].i)
    else LastOf(batch[..|batch| - 1], s)
  }

  function Contributors(batch: seq<Msg>): set<Id> { set m | m in batch :: m.src }

  datatype SaveAnswer = Saves | NoPosition | Unbound | StoreFails | AckFails

  /** now, took: the clock when the write begins, and how long it lasts. dlqDown: messages whose dead-letter write
      fails. order: the contributing sources in the order the executor comes to them. read: how far the readers that
      answer with their own position have read. Versions and commit metadata may fail. */
  datatype Answers = Answers(now: nat, took: nat, accepts: bool, dlqDown: set<Msg>, versions: bool, metadata: bool,
                             order: seq<Id>, saves: map<Id, SaveAnswer>, read: map<Id, nat>)

  predicate Lists(order: seq<Id>, batch: seq<Msg>) {
    Distinct(order) && (set s | s in order) == Contributors(batch)
  }

  function DeadEntries(batch: seq<Msg>, k: Id, down: set<Msg>): seq<Entry> {
    if batch == [] then []
    else (if batch[0] in down then [] else [Dead(batch[0], k)]) + DeadEntries(batch[1..], k, down)
  }

  function Deliveries(batch: seq<Msg>, k: Id): seq<Entry> {
    seq(|batch|, n requires 0 <= n < |batch| => Delivered(batch[n], k))
  }

  function Fail(x: Exec, k: Id): Exec {
    x.(breakers := x.breakers[k := RecordFailure(BreakerOf(x, k), DEFAULTS, x.clock)])
  }

  /** Every dead-letter write that fails counts against the sink. */
  function FailEach(x: Exec, k: Id, batch: seq<Msg>, down: set<Msg>): Exec
    decreases |batch|
  {
    if batch == [] then x
    else FailEach(if batch[0] in down then Fail(x, k) else x, k, batch[1..], down)
  }

  /** The position after the last record, or how far the reader has read. */
  function Position(x: Exec, cfg: Config, a: Answers, s: Id, last: nat): nat {
    if s !in cfg.ahead then last + 1
    else if s in a.read && s in cfg.routes && Routed(x, s) <= a.read[s] <= |cfg.routes[s]| then a.read[s]
    else Max(Routed(x, s), last + 1)
  }

  /** The checkpoints of the contributing sources, one after the other; some failures end the loop. */
  function SaveSources(x: Exec, cfg: Config, k: Id, a: Answers, batch: seq<Msg>, order: seq<Id>): Exec
    decreases |order|
  {
    if order == [] then x
    else
      var s, last := order[0], LastOf(batch, order[0]);
      if last.None? then SaveSources(x, cfg, k, a, batch, order[1..])
      else if s in x.blocked then SaveSources(Fail(x, k), cfg, k, a, batch, order[1..])
      else
        var answer := if s in a.saves then a.saves[s] else Saves;
        var saved := x.(log := x.log + [Saved(s, Position(x, cfg, a, s, last.value))]);
        if answer == Unbound then Fail(x, k)
        else if answer == NoPosition || answer == StoreFails then Fail(x, k).(blocked := x.blocked + {s}, cancelled := true)
        else if answer == AckFails then Fail(saved, k).(blocked := x.blocked + {s}, cancelled := true)
        else SaveSources(saved, cfg, k, a, batch, order[1..])
  }

  /** The sink took the batch, or nobody asked it: a write that is never tried counts as done. */
  function Landed(x: Exec, cfg: Config, k: Id, batch: seq<Msg>): Exec {
    x.(log := x.log + (if cfg.attempts > 0 then Deliveries(batch, k) else []),
       breakers := x.breakers[k := RecordSuccess(BreakerOf(x, k))])
  }

  function Refused(x: Exec, k: Id, a: Answers, batch: seq<Msg>): Exec {
    var x1 := FailEach(Fail(x.(log := x.log + DeadEntries(batch, k, a.dlqDown)), k), k, batch, a.dlqDown);
    if exists m :: m in batch && m in a.dlqDown then x1.(blocked := x1.blocked + Contributors(batch)) else x1
  }

  function Accepted(x: Exec, cfg: Config, k: Id, a: Answers, batch: seq<Msg>): Exec {
    var x1 := Landed(x, cfg, k, batch);
    if !a.versions then Fail(x1, k)
    else if !a.metadata then Fail(x1, k).(blocked := x1.blocked + Contributors(batch))
    else SaveSources(x1, cfg, k, a, batch, a.order)
  }

  /** writeToSink on a batch that is not given up. */
  function Write(x: Exec, cfg: Config, k: Id, a: Answers, batch: seq<Msg>): Exec {
    if cfg.attempts > 0 && !a.accepts then Refused(x, k, a, batch) else Accepted(x, cfg, k, a, batch)
  }

  function Ask(x: Exec, k: Id, now: nat): (Breaker, bool) { Allow(BreakerOf(x, k), DEFAULTS, now) }

  /** The context of the write is over: that of the run for a full batch, that of the round for a timed one. */
  predicate Over(x: Exec, now: nat) {
    if x.flushing.None? then x.cancelled else now - x.flushing.value >= FLUSH_TIMEOUT
  }

  predicate GivesUp(x: Exec, k: Id, a: Answers) { Buffer(x, k) != [] && !Ask(x, k, a.now).1 && Over(x, a.now) }

  /** The sink's batch has been taken over by the writer, and the breaker has been asked. */
  function Asked(x: Exec, k: Id, a: Answers): Exec {
    x.(buffers := x.buffers[k := []], breakers := x.breakers[k := Ask(x, k, a.now).0],
       clock := a.now + (if Ask(x, k, a.now).1 then 0 else PAUSE) + a.took)
  }

  function Flush(x: Exec, cfg: Config, k: Id, a: Answers): Exec {
    if Buffer(x, k) == [] then x.(clock := a.now)
    else if GivesUp(x, k, a) then x.(buffers := x.buffers[k := []], clock := a.now)
    else Write(Asked(x, k, a), cfg, k, a, Buffer(x, k))
  }

  function Append(buffers: map<Id, seq<Msg>>, m: Msg, sinks: set<Id>): map<Id, seq<Msg>> {
    map k | k in buffers.Keys + sinks ::
      (if k in buffers then buffers[k] else []) + (if k in sinks then [m] else [])
  }

  /** What is noted of a record let through to these sinks. */
  function Noted(cfg: Config, m: Msg, sinks: set<Id>): seq<Entry> {
    if sinks * cfg.marks == {} then [] else [Seen(m, sinks * cfg.marks)]
  }

  predicate Remembered(log: seq<Entry>, m: Msg, k: Id) {
    exists n :: 0 <= n < |log| && log[n].Seen? && log[n].msg == m && k in log[n].sinks
  }

  /** The record may be dropped on its way to the sink although a run without interruption would not have dropped it:
      its own key was noted when it was let through before, or the earlier record it would be let through for has been
      forgotten. */
  predicate Forgettable(x: Exec, cfg: Config, m: Msg, k: Id) {
    (k in cfg.marks && Remembered(x.log, m, k)) || (k in cfg.misses && x.resumed)
  }

  /** The next record of a source is routed. On the paths to the sinks in `lost` a transform fails; `durable`
      says that every such failure reached the dead-letter queue. On the paths to those in `gone` it is dropped for
      what a transform remembers, or no longer does. */
  function Route(x: Exec, cfg: Config, s: Id, lost: set<Id>, gone: set<Id>, durable: bool, entries: seq<Entry>): Exec {
    var m := Msg(s, Routed(x, s));
    var sinks := Targets(cfg, m) - lost - gone;
    var x1 := x.(routed := x.routed[s := m.i + 1], buffers := Append(x.buffers, m, sinks), log := x.log + Noted(cfg, m, sinks));
    if durable then x1.(log := x1.log + entries) else x1.(blocked := x1.blocked + {s})
  }

  /** The entries name each lost copy, and nothing else. */
  predicate Records(entries: seq<Entry>, m: Msg, lost: set<Id>) {
    && (forall k :: k in lost ==> Dead(m, k) in entries)
    && (forall n :: 0 <= n < |entries| ==> entries[n].Dead? && entries[n].msg == m && entries[n].sink in lost)
  }

  // ---------------------------------------------------------------- runs

  datatype Event =
    | Start
    | Take(src: Id, lost: set<Id>, gone: set<Id>, durable: bool, entries: seq<Entry>)
    | Full(sink: Id, a: Answers)    // the batch of a sink reached the batch size
    | Round(now: nat)               // the timer fires, or the input has ended: every batch is to be written
    | Timed(sink: Id, a: Answers)   // one sink's turn in the round
    | RoundOver
    | Cancel
    | End                           // the execution is over; nothing but the log remains
    | Crash(k: nat, during: Option<Event>)

  predicate NoneFull(x: Exec, cfg: Config) { forall k :: k in x.buffers ==> |x.buffers[k]| < BatchSize(cfg) }

  /** Full batches are written before anything else happens; the parallel router stops doing so when cancelled. */
  predicate Idle(x: Exec, cfg: Config) {
    x.up && x.flushing.None? && (NoneFull(x, cfg) || (cfg.parallel && x.cancelled))
  }

  predicate Empty(x: Exec) { forall k :: k in x.buffers ==> x.buffers[k] == [] }

  predicate Enabled(x: Exec, cfg: Config, e: Event)
    decreases e
  {
    match e
    case Start => !x.up
    case Take(s, lost, gone, _, entries) =>
      var m := Msg(s, Routed(x, s));
      && Idle(x, cfg) && Known(cfg, m) && Records(entries, m, Targets(cfg, m) * lost)
      && gone <= Targets(cfg, m) - lost && (forall k :: k in gone ==> Forgettable(x, cfg, m, k))
    case Full(k, a) =>
      x.up && x.flushing.None? && |Buffer(x, k)| >= BatchSize(cfg) && x.clock <= a.now && Lists(a.order, Buffer(x, k))
    case Round(now) => Idle(x, cfg) && x.clock <= now
    case Timed(k, a) => x.up && x.flushing.Some? && x.clock <= a.now && Lists(a.order, Buffer(x, k))
    case RoundOver => x.up && x.flushing.Some? && Empty(x)
    case Cancel => x.up
    case End => x.up && x.flushing.None? && Empty(x)
    case Crash(_, during) => during.Some? ==> !during.value.Crash? && Enabled(x, cfg, during.value)
  }

  function Started(x: Exec, cfg: Config): Exec {
    Exec(x.log, true, false, map s | s in cfg.routes :: Durable(x.log, s), map[], {}, map[], None, x.clock,
         exists s :: s in cfg.routes && Durable(x.log, s) > 0)
  }

  function Step(x: Exec, cfg: Config, e: Event): Exec
    requires Enabled(x, cfg, e)
    decreases e
  {
    match e
    case Start => Started(x, cfg)
    case Take(s, lost, gone, durable, entries) => Route(x, cfg, s, lost, gone, durable, entries)
    case Full(k, a) => Flush(x, cfg, k, a)
    case Round(now) => x.(flushing := Some(now), clock := now)
    case Timed(k, a) => Flush(x, cfg, k, a)
    case RoundOver => x.(flushing := None)
    case Cancel => x.(cancelled := true)
    case End => INITIAL.(log := x.log, clock := x.clock)
    case Crash(k, during) =>
      var y := if during.None? then x else Step(x, cfg, during.value);
      INITIAL.(log := y.log[..Min(|x.log| + k, |y.log|)], clock := y.clock)
  }

  /** Some batch is given up. */
  predicate Loses(x: Exec, e: Event)
    decreases e
  {
    match e
    case Full(k, a) => GivesUp(x, k, a)
    case Timed(k, a) => GivesUp(x, k, a)
    case Crash(_, during) => during.Some? && Loses(x, during.value)
    case _ => false
  }

  /** Some copy of a record is dropped for what a transform remembers, or no longer does. */
  predicate Forgets(e: Event)
    decreases e
  {
    match e
    case Take(_, _, gone, _, _) => gone != {}
    case Crash(_, during) => during.Some? && Forgets(during.value)
    case _ => false
  }

  ghost predicate IsRun(cfg: Config, es: seq<Event>)
    decreases |es|, 0
  {
    es == [] || (IsRun(cfg, es[..|es| - 1]) && Enabled(After(cfg, es[..|es| - 1]), cfg, es[|es| - 1]))
  }

  ghost function After(cfg: Config, es: seq<Event>): Exec
    requires IsRun(cfg, es)
    decreases |es|, 1
  {
    if es == [] then INITIAL else Step(After(cfg, es[..|es| - 1]), cfg, es[|es| - 1])
  }

  ghost predicate NeverLoses(cfg: Config, es: seq<Event>)
    requires IsRun(cfg, es)
  {
    es != [] ==> NeverLoses(cfg, es[..|es| - 1]) && !Loses(After(cfg, es[..|es| - 1]), es[|es| - 1])
  }

  // ---------------------------------------------------------------- configurations

  /** All records of a source that go anywhere go to the same sink. */
  ghost predicate OneSinkPerSource(cfg: Config) {
    forall m: Msg, n: Msg, j, k :: m.src == n.src && j in Targets(cfg, m) && k in Targets(cfg, n) ==> j == k
  }

  ghost predicate OneSinkPerRecord(cfg: Config) {
    forall m: Msg, j, k :: j in Targets(cfg, m) && k in Targets(cfg, m) ==> j == k
  }

  /** Records of one source never wait for two sinks at the same time. */
  ghost predicate Confined(cfg: Config) {
    OneSinkPerSource(cfg) || (OneSinkPerRecord(cfg) && BatchSize(cfg) == 1 && !cfg.parallel)
  }

  /** A source whose reader answers with its own position has at most one record that goes anywhere. */
  ghost predicate NotAhead(cfg: Config) {
    forall m: Msg, n: Msg :: m.src in cfg.ahead && m.src == n.src && Targets(cfg, m) != {} && Targets(cfg, n) != {} ==> m == n
  }

  /** Some record other than n, not after it in its source, goes somewhere, so that its checkpoint can be saved first. */
  ghost predicate Preceded(cfg: Config, n: Msg) {
    exists m: Msg :: Targets(cfg, m) != {} && (m.src == n.src ==> m.i < n.i)
  }

  /** A record that a transform may drop for what it remembers, or no longer does, is the last of its source that goes
      anywhere. */
  ghost predicate Mindful(cfg: Config) {
    forall n: Msg, o: Msg, k :: n.src == o.src && n.i < o.i && k in Targets(cfg, n) && Targets(cfg, o) != {}
      ==> k !in cfg.marks && (k in cfg.misses ==> !Preceded(cfg, n))
  }

  ghost predicate Idling(cfg: Config) { forall m: Msg :: Targets(cfg, m) == {} }

  /** What the settings must be for every checkpoint to be safe as long as no batch is given up. */
  ghost predicate Sound(cfg: Config) {
    Idling(cfg) || (cfg.attempts > 0 && Confined(cfg) && NotAhead(cfg) && Mindful(cfg))
  }
}
