/** Runs of the DAG executor built step by step: taking records, writing a batch of one, waiting for a breaker. */
module DagExecutorReach {
  import opened CircuitBreaker
  import opened Prelude
  import opened DagExecutor
  import opened DagExecutorSafety

  /** Some run ends here; a strict one gives up no batch. */
  ghost predicate Reachable(cfg: Config, x: Exec, strict: bool) {
    exists es :: IsRun(cfg, es) && (strict ==> NeverLoses(cfg, es)) && After(cfg, es) == x
  }

  lemma ReachStep(cfg: Config, x: Exec, strict: bool, e: Event)
    requires Reachable(cfg, x, strict) && Enabled(x, cfg, e) && (strict ==> !Loses(x, e))
    ensures Reachable(cfg, Step(x, cfg, e), strict)
  {
    hide Step, Enabled, Loses;
    var es :| IsRun(cfg, es) && (strict ==> NeverLoses(cfg, es)) && After(cfg, es) == x;
    var longer := es + [e];
    assert longer[..|longer| - 1] == es;
    assert IsRun(cfg, longer) && After(cfg, longer) == Step(x, cfg, e);
  }

  /** A strict run is a run. */
  lemma Relax(cfg: Config, x: Exec)
    requires Reachable(cfg, x, true)
    ensures Reachable(cfg, x, false)
  {
    var es :| IsRun(cfg, es) && NeverLoses(cfg, es) && After(cfg, es) == x;
  }

  /** The executor at work, with no round in progress and no breaker tripped in the future. */
  ghost predicate Working(x: Exec) {
    x.up && x.flushing.None? && forall k :: BreakerOf(x, k).trippedAt <= x.clock
  }

  /** An execution that has just begun. */
  ghost predicate Begun(x: Exec, cfg: Config) {
    && Working(x) && Empty(x) && !x.cancelled && x.blocked == {} && x.breakers == map[] && x.routed.Keys == cfg.routes.Keys
    && (forall s :: Routed(x, s) == if s in cfg.routes then Durable(x.log, s) else 0)
    && (x.resumed <==> exists s :: s in cfg.routes && Durable(x.log, s) > 0)
  }

  lemma ReachStarted(cfg: Config, strict: bool) returns (x: Exec)
    ensures Reachable(cfg, x, strict) && Begun(x, cfg) && x.log == []
  {
    assert IsRun(cfg, []) && NeverLoses(cfg, []) && After(cfg, []) == INITIAL;
    ReachStep(cfg, INITIAL, strict, Start);
    x := Step(INITIAL, cfg, Start);
  }

  /** A crash and a new start: only the log is left. */
  lemma ReachRestarted(cfg: Config, x: Exec, strict: bool) returns (y: Exec)
    requires Reachable(cfg, x, strict)
    ensures Reachable(cfg, y, strict) && Begun(y, cfg) && y.log == x.log
  {
    hide Reachable;
    ReachStep(cfg, x, strict, Crash(0, None));
    var down := INITIAL.(log := x.log, clock := x.clock);
    assert Step(x, cfg, Crash(0, None)) == down by { assert x.log[..|x.log|] == x.log; }
    ReachStep(cfg, down, strict, Start);
    y := Started(down, cfg);
  }

  // ---------------------------------------------------------------- taking records

  /** The source has moved on to record i; nothing else has changed. */
  function Moved(x: Exec, s: Id, i: nat): Exec { x.(routed := x.routed[s := i]) }

  lemma AppendNone(buffers: map<Id, seq<Msg>>, m: Msg)
    ensures Append(buffers, m, {}) == buffers
  {
    assert buffers.Keys + {} == buffers.Keys;
    forall k | k in buffers ensures Append(buffers, m, {})[k] == buffers[k] { assert buffers[k] + [] == buffers[k]; }
  }

  predicate NoTargets(cfg: Config, s: Id, i: nat, j: nat) {
    forall n: nat :: i <= n < j ==> Targets(cfg, Msg(s, n)) == {}
  }

  /** Records that go nowhere are passed over. */
  lemma {:induction false} ReachSkip(cfg: Config, x: Exec, strict: bool, s: Id, i: nat)
    requires Reachable(cfg, x, strict) && Idle(x, cfg) && s in x.routed && s in cfg.routes
    requires Routed(x, s) <= i <= |cfg.routes[s]| && NoTargets(cfg, s, Routed(x, s), i)
    ensures Reachable(cfg, Moved(x, s, i), strict)
    decreases i
  {
    hide Reachable;
    if i == Routed(x, s) {
      assert x.routed[s := i] == x.routed;
    } else {
      var y := Moved(x, s, i - 1);
      ReachSkip(cfg, x, strict, s, i - 1);
      var m := Msg(s, i - 1);
      var none := Targets(cfg, m);
      assert none == {} && none * {} == none && none - {} - {} == none && none * cfg.marks == none;
      AppendNone(y.buffers, m);
      ReachStep(cfg, y, strict, Take(s, {}, {}, true, []));
      assert y.log + [] == y.log && y.routed[s := i] == x.routed[s := i];
    }
  }

  /** One record is taken and waits in the batches of all its sinks. */
  function Taken(x: Exec, cfg: Config, m: Msg): Exec { Route(x, cfg, m.src, {}, {}, true, []) }

  lemma ReachTake(cfg: Config, x: Exec, strict: bool, m: Msg)
    requires Reachable(cfg, x, strict) && Idle(x, cfg) && Known(cfg, m) && Routed(x, m.src) == m.i
    ensures Reachable(cfg, Taken(x, cfg, m), strict)
    ensures var y := Taken(x, cfg, m);
            && (forall k :: Buffer(y, k) == Buffer(x, k) + if k in Targets(cfg, m) then [m] else [])
            && y == x.(routed := x.routed[m.src := m.i + 1], buffers := y.buffers, log := x.log + Noted(cfg, m, Targets(cfg, m)))
  {
    hide Reachable, Append, Noted;
    assert Targets(cfg, m) * {} == {} && {} <= Targets(cfg, m) - {} && Targets(cfg, m) - {} - {} == Targets(cfg, m);
    ReachStep(cfg, x, strict, Take(m.src, {}, {}, true, []));
    RouteBuffers(x, cfg, m.src, {}, {}, true, []);
    var log := x.log + Noted(cfg, m, Targets(cfg, m));
    assert log + [] == log;
  }

  /** Notes resolve nothing. */
  lemma NotedResolves(cfg: Config, log: seq<Entry>, n: Msg, ks: set<Id>, m: Msg, k: Id)
    ensures Resolved(log + Noted(cfg, n, ks), m, k) <==> Resolved(log, m, k)
  {}

  /** One record bound for a single sink is taken and dropped on the way. */
  lemma ReachDropped(cfg: Config, x: Exec, strict: bool, m: Msg, k: Id)
    requires Reachable(cfg, x, strict) && Idle(x, cfg) && Known(cfg, m) && Routed(x, m.src) == m.i
    requires Targets(cfg, m) == {k} && Forgettable(x, cfg, m, k)
    ensures Reachable(cfg, Moved(x, m.src, m.i + 1), strict)
  {
    hide Reachable, Idle, Forgettable;
    var none := Targets(cfg, m) - {} - {k};
    assert none == {} && Targets(cfg, m) * {} == {} && {k} <= Targets(cfg, m) - {} && none * cfg.marks == {};
    AppendNone(x.buffers, m);
    ReachStep(cfg, x, strict, Take(m.src, {}, {k}, true, []));
    assert x.log + [] + [] == x.log;
  }

  // ---------------------------------------------------------------- writing one record

  /** Late enough for any breaker to let the write through. */
  function Cool(x: Exec): nat { x.clock + 30 }

  lemma CoolAllows(x: Exec, k: Id, now: nat)
    requires BreakerOf(x, k).trippedAt <= x.clock && Cool(x) <= now
    ensures Ask(x, k, now).1
  {}

  function Accepting(now: nat, s: Id, read: map<Id, nat>): Answers { Answers(now, 0, true, {}, true, true, [s], map[], read) }

  function Refusing(now: nat, m: Msg, down: set<Msg>): Answers {
    Answers(now, 0, false, down, true, true, [m.src], map[], map[])
  }

  lemma ListsOne(m: Msg)
    ensures Lists([m.src], [m])
  {
    assert Contributors([m]) == {m.src};
  }

  /** What the log says once a batch of one has been accepted. */
  function AfterAccept(x: Exec, cfg: Config, k: Id, m: Msg, read: map<Id, nat>): seq<Entry> {
    x.log + (if cfg.attempts > 0 then [Delivered(m, k)] else [])
          + [Saved(m.src, Position(x, cfg, Accepting(0, m.src, read), m.src, m.i))]
  }

  lemma AcceptedOne(x: Exec, cfg: Config, k: Id, m: Msg, a: Answers)
    requires Buffer(x, k) == [m] && m.src !in x.blocked && a == Accepting(a.now, m.src, a.read) && Ask(x, k, a.now).1
    ensures Flush(x, cfg, k, a).log == AfterAccept(x, cfg, k, m, a.read)
  {
    var y := Landed(Asked(x, k, a), cfg, k, [m]);
    assert LastOf([m], m.src) == Some(m.i) && [m.src][1..] == [];
    assert Deliveries([m], k) == [Delivered(m, k)];
    var z := y.(log := y.log + [Saved(m.src, Position(y, cfg, a, m.src, m.i))]);
    assert SaveSources(z, cfg, k, a, [m], []) == z;
  }

  /** A batch of one can be written now, as a full batch or in a round. */
  predicate Writable(x: Exec, cfg: Config, k: Id) { Idle(x, cfg) || |Buffer(x, k)| >= BatchSize(cfg) }

  lemma ReachAccepted(cfg: Config, x: Exec, strict: bool, k: Id, m: Msg, read: map<Id, nat>) returns (y: Exec)
    requires Reachable(cfg, x, strict) && Working(x) && Buffer(x, k) == [m] && m.src !in x.blocked && Writable(x, cfg, k)
    ensures Reachable(cfg, y, strict) && y.log == AfterAccept(x, cfg, k, m, read)
  {
    hide Reachable, Flush, AfterAccept;
    var a := Accepting(Cool(x), m.src, read);
    ListsOne(m);
    CoolAllows(x, k, a.now);
    AcceptedOne(x, cfg, k, m, a);
    if Idle(x, cfg) {
      ReachStep(cfg, x, strict, Round(a.now));
      var x1 := x.(flushing := Some(a.now), clock := a.now);
      AcceptedOne(x1, cfg, k, m, a);
      ReachStep(cfg, x1, strict, Timed(k, a));
      y := Step(x1, cfg, Timed(k, a));
      SameAccept(x, x1, cfg, k, m, read);
    } else {
      ReachStep(cfg, x, strict, Full(k, a));
      y := Step(x, cfg, Full(k, a));
    }
  }

  lemma SameAccept(x: Exec, y: Exec, cfg: Config, k: Id, m: Msg, read: map<Id, nat>)
    requires x.log == y.log && x.routed == y.routed
    ensures AfterAccept(x, cfg, k, m, read) == AfterAccept(y, cfg, k, m, read)
  {}

  /** A saved position above a record that one of its sinks has not got. */
  lemma Unsafe(cfg: Config, log: seq<Entry>, s: Id, p: nat, m: Msg, j: Id)
    requires m.src == s && m.i < p && j in Targets(cfg, m) && !Resolved(log, m, j)
    ensures !Safe(cfg, log + [Saved(s, p)])
  {
    var longer := log + [Saved(s, p)];
    assert longer[|log|] == Saved(s, p) && longer[..|log|] == log;
    assert !Settled(cfg, log, Msg(s, m.i));
  }

  /** The accepted record is saved over one that is still missing somewhere. */
  lemma AcceptUnsafe(x: Exec, cfg: Config, k: Id, o: Msg, read: map<Id, nat>, m: Msg, j: Id)
    requires m.src == o.src && m.i < Position(x, cfg, Accepting(0, o.src, read), o.src, o.i) && j in Targets(cfg, m)
    requires !Resolved(x.log, m, j) && (m != o || j != k || cfg.attempts <= 0)
    ensures !Safe(cfg, AfterAccept(x, cfg, k, o, read))
  {
    var log := x.log + (if cfg.attempts > 0 then [Delivered(o, k)] else []);
    assert !Resolved(log, m, j);
    Unsafe(cfg, log, o.src, Position(x, cfg, Accepting(0, o.src, read), o.src, o.i), m, j);
  }

  lemma ReachUnsafe(cfg: Config, x: Exec, strict: bool, k: Id, o: Msg, read: map<Id, nat>, m: Msg, j: Id)
    requires Reachable(cfg, x, strict) && Working(x) && Buffer(x, k) == [o] && o.src !in x.blocked && Writable(x, cfg, k)
    requires m.src == o.src && m.i < Position(x, cfg, Accepting(0, o.src, read), o.src, o.i) && j in Targets(cfg, m)
    requires !Resolved(x.log, m, j) && (m != o || j != k || cfg.attempts <= 0)
    ensures exists es :: IsRun(cfg, es) && (strict ==> NeverLoses(cfg, es)) && !Safe(cfg, After(cfg, es).log)
  {
    hide AfterAccept, Safe, Position;
    var y := ReachAccepted(cfg, x, strict, k, o, read);
    AcceptUnsafe(x, cfg, k, o, read, m, j);
    var es :| IsRun(cfg, es) && (strict ==> NeverLoses(cfg, es)) && After(cfg, es) == y;
  }

  // ---------------------------------------------------------------- refusing one record

  function Twice(b: Breaker, now: nat, twice: bool): Breaker {
    var b1 := RecordFailure(b, DEFAULTS, now);
    if twice then RecordFailure(b1, DEFAULTS, now) else b1
  }

  /** The executor once a batch of one has been refused: the record is in the dead-letter queue, or its source is
      blocked and the failed dead-letter write has counted as well. */
  function AfterRefusal(x: Exec, k: Id, m: Msg, now: nat, down: bool): Exec {
    x.(log := x.log + (if down then [] else [Dead(m, k)]), buffers := x.buffers[k := []],
       blocked := x.blocked + (if down then {m.src} else {}),
       breakers := x.breakers[k := Twice(Ask(x, k, now).0, now, down)], clock := now)
  }

  function DownSet(m: Msg, down: bool): set<Msg> { if down then {m} else {} }

  lemma RefusedOne(x: Exec, cfg: Config, k: Id, m: Msg, now: nat, down: bool)
    requires cfg.attempts > 0 && Buffer(x, k) == [m] && Ask(x, k, now).1
    ensures Flush(x, cfg, k, Refusing(now, m, DownSet(m, down))) == AfterRefusal(x, k, m, now, down)
  {
    hide RecordFailure;
    var a := Refusing(now, m, DownSet(m, down));
    var x0 := Asked(x, k, a);
    assert [m][1..] == [] && Contributors([m]) == {m.src};
    assert DeadEntries([m][1..], k, a.dlqDown) == [];
    var dead := DeadEntries([m], k, a.dlqDown);
    assert dead == if down then [] else [Dead(m, k)];
    var x1 := Fail(x0.(log := x0.log + dead), k);
    var x2 := if down then Fail(x1, k) else x1;
    assert FailEach(x1, k, [m], a.dlqDown) == FailEach(x2, k, [], a.dlqDown) == x2;
    assert x.blocked + {} == x.blocked;
    assert down ==> m in [m] && m in a.dlqDown;
    assert x2.breakers == x.breakers[k := Twice(Ask(x, k, now).0, now, down)];
  }

  lemma ReachRefused(cfg: Config, x: Exec, strict: bool, k: Id, m: Msg, now: nat, down: bool)
    requires Reachable(cfg, x, strict) && Working(x) && cfg.attempts > 0 && Writable(x, cfg, k)
    requires Buffer(x, k) == [m] && (forall j :: j != k ==> Buffer(x, j) == []) && x.clock <= now && Ask(x, k, now).1
    ensures var y := AfterRefusal(x, k, m, now, down);
            Reachable(cfg, y, strict) && Working(y) && Empty(y)
  {
    hide Reachable, Flush, Twice, RecordFailure;
    var a, y := Refusing(now, m, DownSet(m, down)), AfterRefusal(x, k, m, now, down);
    ListsOne(m);
    RefusedOne(x, cfg, k, m, now, down);
    RefusalWorks(x, k, m, now, down);
    if |Buffer(x, k)| >= BatchSize(cfg) {
      ReachStep(cfg, x, strict, Full(k, a));
    } else {
      ReachStep(cfg, x, strict, Round(now));
      var x1 := x.(flushing := Some(now), clock := now);
      RefusedOne(x1, cfg, k, m, now, down);
      ReachStep(cfg, x1, strict, Timed(k, a));
      var y1 := AfterRefusal(x1, k, m, now, down);
      ReachStep(cfg, y1, strict, RoundOver);
      assert y1.(flushing := None) == y;
    }
  }

  lemma RefusalWorks(x: Exec, k: Id, m: Msg, now: nat, down: bool)
    requires Working(x) && (forall j :: j != k ==> Buffer(x, j) == []) && x.clock <= now
    ensures Working(AfterRefusal(x, k, m, now, down)) && Empty(AfterRefusal(x, k, m, now, down))
  {
    hide Recent;
    var y := AfterRefusal(x, k, m, now, down);
    forall j ensures BreakerOf(y, j).trippedAt <= y.clock { assert BreakerOf(x, j).trippedAt <= x.clock; }
    forall j | j in y.buffers ensures y.buffers[j] == [] { assert j != k ==> Buffer(x, j) == []; }
  }
}
