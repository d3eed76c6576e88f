/**
 Exactly which settings of the DAG executor keep every checkpoint safe, over every run that gives up no batch. Each
 way of breaking the condition has a run that saves a checkpoint past a record one of its sinks never got.
 */
module DagExecutorLimits {
  import opened CircuitBreaker
  import opened Prelude
  import opened DagExecutor
  import opened DagExecutorSafety
  import opened DagExecutorReach

  /** Every run that gives up no batch saves checkpoints over settled records only. */
  ghost predicate Keeps(cfg: Config) {
    forall es :: IsRun(cfg, es) && NeverLoses(cfg, es) ==> Safe(cfg, After(cfg, es).log)
  }

  /** Some run that gives up no batch saves a checkpoint past a record that is not settled. */
  ghost predicate Breaks(cfg: Config) {
    exists es :: IsRun(cfg, es) && NeverLoses(cfg, es) && !Safe(cfg, After(cfg, es).log)
  }

  lemma BreaksRefutes(cfg: Config)
    requires Breaks(cfg)
    ensures !Keeps(cfg)
  {
    hide Safe;
    var es :| IsRun(cfg, es) && NeverLoses(cfg, es) && !Safe(cfg, After(cfg, es).log);
    assert IsRun(cfg, es) && NeverLoses(cfg, es);
  }

  /** At record i of the source, with nothing in memory, and record m nowhere in the log. */
  ghost predicate Resting(x: Exec, s: Id, i: nat, m: Msg) {
    && Working(x) && Empty(x) && !x.cancelled && x.blocked == {} && s in x.routed && Routed(x, s) == i
    && forall k :: !Resolved(x.log, m, k)
  }

  lemma RestingIdle(x: Exec, cfg: Config, s: Id, i: nat, m: Msg)
    requires Resting(x, s, i, m)
    ensures Idle(x, cfg) && forall k :: Buffer(x, k) == []
  {}

  /** The log has grown, and no checkpoint was saved. */
  predicate Quieter(log: seq<Entry>, longer: seq<Entry>) {
    log <= longer && forall n :: |log| <= n < |longer| ==> !longer[n].Saved?
  }

  /** One record, bound for one sink, is taken and refused. */
  lemma ReachCleared(cfg: Config, x: Exec, o: Msg, k: Id, m: Msg) returns (y: Exec)
    requires Reachable(cfg, x, true) && cfg.attempts > 0 && Targets(cfg, o) == {k} && Resting(x, o.src, o.i, m) && o != m
    ensures Reachable(cfg, y, true) && Resting(y, o.src, o.i + 1, m) && y.resumed == x.resumed && Quieter(x.log, y.log)
  {
    hide Reachable, Twice, Ask, Working, Noted;
    RestingIdle(x, cfg, o.src, o.i, m);
    ReachTake(cfg, x, true, o);
    var x1 := Taken(x, cfg, o);
    TakenFromRest(x, cfg, o, k, m);
    CoolAllows1(x1, k);
    ReachRefused(cfg, x1, true, k, o, Cool(x1), false);
    y := AfterRefusal(x1, k, o, Cool(x1), false);
    assert x.blocked + {} == {};
    forall j ensures !Resolved(y.log, m, j) {
      NotedResolves(cfg, x.log, o, Targets(cfg, o), m, j);
      assert !Resolved(x1.log, m, j);
    }
    NotedQuiet(cfg, x.log, o, Targets(cfg, o));
  }

  lemma NotedQuiet(cfg: Config, log: seq<Entry>, o: Msg, ks: set<Id>)
    ensures Quieter(log, log + Noted(cfg, o, ks))
  {}

  lemma CoolAllows1(x: Exec, k: Id)
    requires Working(x)
    ensures Ask(x, k, Cool(x)).1
  {
    CoolAllows(x, k, Cool(x));
  }

  /** After one record is taken from rest its batches hold it alone, and it can be written. */
  lemma TakenFromRest(x: Exec, cfg: Config, o: Msg, k: Id, m: Msg)
    requires Resting(x, o.src, o.i, m) && k in Targets(cfg, o)
    ensures var y := Taken(x, cfg, o);
            && Working(y) && Buffer(y, k) == [o] && (forall j :: j !in Targets(cfg, o) ==> Buffer(y, j) == [])
            && Writable(y, cfg, k) && !y.cancelled && y.blocked == {} && y.log == x.log + Noted(cfg, o, Targets(cfg, o))
            && o.src in y.routed && Routed(y, o.src) == o.i + 1
  {
    hide Append, Noted;
    RestingIdle(x, cfg, o.src, o.i, m);
    RouteBuffers(x, cfg, o.src, {}, {}, true, []);
    var y := Taken(x, cfg, o);
    assert Targets(cfg, o) - {} - {} == Targets(cfg, o);
    var log := x.log + Noted(cfg, o, Targets(cfg, o));
    assert log + [] == log;
    forall j ensures BreakerOf(y, j) == BreakerOf(x, j) {}
    if BatchSize(cfg) > 1 {
      forall j | j in y.buffers ensures |y.buffers[j]| < BatchSize(cfg) { assert |Buffer(y, j)| <= 1; }
    }
  }

  /** Records bound for at most one sink are cleared one after the other. */
  lemma {:induction false} ReachRest(cfg: Config, x: Exec, s: Id, i: nat, m: Msg) returns (y: Exec)
    requires Reachable(cfg, x, true) && Resting(x, s, Routed(x, s), m) && s in cfg.routes && m.src == s
    requires Routed(x, s) <= i <= m.i && i <= |cfg.routes[s]| && (cfg.attempts > 0 || NoTargets(cfg, s, 0, i))
    requires forall n: nat :: n < i ==> |Targets(cfg, Msg(s, n))| <= 1
    ensures Reachable(cfg, y, true) && Resting(y, s, i, m) && y.resumed == x.resumed && Quieter(x.log, y.log)
    decreases i
  {
    hide Reachable, Working;
    if i == Routed(x, s) { return x; }
    var z := ReachRest(cfg, x, s, i - 1, m);
    var o := Msg(s, i - 1);
    if Targets(cfg, o) == {} {
      RestingIdle(z, cfg, s, i - 1, m);
      ReachSkip(cfg, z, true, s, i);
      y := Moved(z, s, i);
      SameBreakers(z, y);
    } else {
      var k :| k in Targets(cfg, o);
      SingleTarget(Targets(cfg, o), k);
      y := ReachCleared(cfg, z, o, k, m);
    }
  }

  lemma BegunRests(x: Exec, cfg: Config, s: Id, m: Msg)
    requires Begun(x, cfg) && s in cfg.routes && forall k :: !Resolved(x.log, m, k)
    ensures Resting(x, s, Durable(x.log, s), m) && Routed(x, s) == Durable(x.log, s)
  {}

  /** From the start to record i, with record m still nowhere. */
  lemma ReachFromStart(cfg: Config, s: Id, i: nat, m: Msg) returns (y: Exec)
    requires s in cfg.routes && m.src == s && i <= m.i && i <= |cfg.routes[s]| && (cfg.attempts > 0 || NoTargets(cfg, s, 0, i))
    requires forall n: nat :: n < i ==> |Targets(cfg, Msg(s, n))| <= 1
    ensures Reachable(cfg, y, true) && Resting(y, s, i, m) && forall n :: 0 <= n < |y.log| ==> !y.log[n].Saved?
  {
    hide Reachable, Resting;
    var x := ReachStarted(cfg, true);
    BegunRests(x, cfg, s, m);
    y := ReachRest(cfg, x, s, i, m);
  }

  lemma SingleTarget(ks: set<Id>, k: Id)
    requires k in ks && |ks| <= 1
    ensures ks == {k}
  {
    SubsetCardinality({k}, ks);
    if j :| j in ks && j != k { SubsetCardinality({j, k}, ks); }
  }

  // ---------------------------------------------------------------- the ways to break it

  /** The first record of the source that goes anywhere. */
  lemma {:induction false} FirstTargeted(cfg: Config, m: Msg) returns (f: Msg)
    requires Targets(cfg, m) != {}
    ensures f.src == m.src && f.i <= m.i && Targets(cfg, f) != {} && NoTargets(cfg, f.src, 0, f.i)
    decreases m.i
  {
    if n: nat :| n < m.i && Targets(cfg, Msg(m.src, n)) != {} { f := FirstTargeted(cfg, Msg(m.src, n)); } else { f := m; }
  }

  /** The first record of the source that goes anywhere has just been taken. */
  lemma ReachFirst(cfg: Config, m: Msg) returns (x: Exec, f: Msg, k: Id)
    requires Targets(cfg, m) != {}
    ensures f.src == m.src && f.i <= m.i && k in Targets(cfg, f)
    ensures Reachable(cfg, x, true) && Working(x) && Buffer(x, k) == [f] && x.blocked == {} && Writable(x, cfg, k)
    ensures (forall n, j :: !Resolved(x.log, n, j)) && Routed(x, f.src) == f.i + 1
    ensures forall n :: 0 <= n < |x.log| ==> x.log[n].Seen?
  {
    hide Reachable, Working, Append, Noted;
    f := FirstTargeted(cfg, m);
    k :| k in Targets(cfg, f);
    var r := ReachStarted(cfg, true);
    AllIdle(r, cfg);
    ReachSkip(cfg, r, true, f.src, f.i);
    var y := Moved(r, f.src, f.i);
    SameBreakers(r, y);
    assert forall j :: Buffer(y, j) == Buffer(r, j);
    AllIdle(y, cfg);
    ReachTake(cfg, y, true, f);
    assert Resting(y, f.src, f.i, f);
    TakenFromRest(y, cfg, f, k, f);
    x := Taken(y, cfg, f);
    OnlyNotes(cfg, f, Targets(cfg, f));
    assert [] + Noted(cfg, f, Targets(cfg, f)) == Noted(cfg, f, Targets(cfg, f));
  }

  lemma OnlyNotes(cfg: Config, f: Msg, ks: set<Id>)
    ensures forall n, j :: !Resolved(Noted(cfg, f, ks), n, j)
    ensures forall n :: 0 <= n < |Noted(cfg, f, ks)| ==> Noted(cfg, f, ks)[n].Seen?
  {}

  lemma AllIdle(x: Exec, cfg: Config)
    requires Working(x) && forall j :: Buffer(x, j) == []
    ensures x.up && x.flushing.None? && Idle(x, cfg)
  {
    forall j | j in x.buffers ensures |x.buffers[j]| < BatchSize(cfg) { assert Buffer(x, j) == []; }
  }

  /** Writes that are never tried count as done. */
  lemma UntriedBreaks(cfg: Config, m: Msg)
    requires cfg.attempts <= 0 && Targets(cfg, m) != {}
    ensures Breaks(cfg)
  {
    hide Reachable, Safe, IsRun, After, NeverLoses, Position, Targets;
    var x, f, k := ReachFirst(cfg, m);
    PositionAbove(x, cfg, f, map[]);
    ReachUnsafe(cfg, x, true, k, f, map[], f, k);
  }

  lemma PositionAbove(x: Exec, cfg: Config, m: Msg, read: map<Id, nat>)
    requires Routed(x, m.src) == m.i + 1
    ensures m.i < Position(x, cfg, Accepting(0, m.src, read), m.src, m.i)
  {}

  /** A reader that answers with its own position: the checkpoint covers a record it has read and not handed on. */
  lemma AheadBreaks(cfg: Config, m: Msg, n: Msg)
    requires m.src in cfg.ahead && m.src == n.src && m.i < n.i && Targets(cfg, m) != {} && Targets(cfg, n) != {}
    ensures Breaks(cfg)
  {
    hide Reachable, Safe, IsRun, After, NeverLoses, Position, Working, Idle;
    var j :| j in Targets(cfg, n);
    var x, f, k := ReachFirst(cfg, m);
    PositionAhead(x, cfg, f, n.i + 1);
    ReachUnsafe(cfg, x, true, k, f, map[f.src := n.i + 1], n, j);
  }

  lemma PositionAhead(x: Exec, cfg: Config, m: Msg, p: nat)
    requires m.src in cfg.ahead && m.src in cfg.routes && Routed(x, m.src) <= p <= |cfg.routes[m.src]|
    ensures Position(x, cfg, Accepting(0, m.src, map[m.src := p]), m.src, m.i) == p
  {}

  lemma {:induction false} FirstWide(cfg: Config, m: Msg) returns (f: Msg)
    requires |Targets(cfg, m)| > 1
    ensures f.src == m.src && |Targets(cfg, f)| > 1 && forall n: nat :: n < f.i ==> |Targets(cfg, Msg(f.src, n))| <= 1
    decreases m.i
  {
    if n: nat :| n < m.i && |Targets(cfg, Msg(m.src, n))| > 1 { f := FirstWide(cfg, Msg(m.src, n)); } else { f := m; }
  }

  /** A record bound for two sinks: the checkpoint saved after one write passes the other copy. */
  lemma WideBreaks(cfg: Config, m: Msg)
    requires cfg.attempts > 0 && |Targets(cfg, m)| > 1
    ensures Breaks(cfg)
  {
    hide Reachable, Safe, IsRun, After, NeverLoses, Position, Noted;
    var f := FirstWide(cfg, m);
    var j :| j in Targets(cfg, f);
    assert Targets(cfg, f) != {j};
    var k :| k in Targets(cfg, f) && k != j;
    var x := ReachFromStart(cfg, f.src, f.i, f);
    RestingIdle(x, cfg, f.src, f.i, f);
    ReachTake(cfg, x, true, f);
    TakenFromRest(x, cfg, f, k, f);
    NotedResolves(cfg, x.log, f, Targets(cfg, f), f, j);
    PositionAbove(Taken(x, cfg, f), cfg, f, map[]);
    ReachUnsafe(cfg, Taken(x, cfg, f), true, k, f, map[], f, j);
  }

  /** Two records of a source for different sinks, with none between them that goes anywhere. */
  lemma {:induction false} Neighbours(cfg: Config, m: Msg, n: Msg, j: Id, k: Id) returns (m': Msg, n': Msg, j': Id, k': Id)
    requires m.src == n.src && m.i < n.i && j in Targets(cfg, m) && k in Targets(cfg, n) && j != k
    ensures m'.src == n'.src == m.src && m'.i < n'.i && j' in Targets(cfg, m') && k' in Targets(cfg, n') && j' != k'
    ensures NoTargets(cfg, m.src, m'.i + 1, n'.i)
    decreases n.i - m.i
  {
    if i: nat :| m.i + 1 <= i < n.i && Targets(cfg, Msg(m.src, i)) != {} {
      var o := Msg(m.src, i);
      var l :| l in Targets(cfg, o);
      if l != j { m', n', j', k' := Neighbours(cfg, m, o, j, l); } else { m', n', j', k' := Neighbours(cfg, o, n, l, k); }
    } else {
      m', n', j', k' := m, n, j, k;
    }
  }

  /** The executor with a record of each of two sinks in memory. */
  lemma ReachMixed(cfg: Config, m: Msg, n: Msg, j: Id, k: Id) returns (x: Exec)
    requires cfg.attempts > 0 && OneSinkPerRecord(cfg) && (BatchSize(cfg) > 1 || cfg.parallel)
    requires m.src == n.src && m.i < n.i && j in Targets(cfg, m) && k in Targets(cfg, n) && j != k
    requires NoTargets(cfg, m.src, m.i + 1, n.i)
    ensures Reachable(cfg, x, true) && Working(x) && Idle(x, cfg) && Buffer(x, k) == [n] && x.blocked == {}
    ensures !Resolved(x.log, m, j) && Routed(x, n.src) == n.i + 1
  {
    hide Reachable, Working, Append, Noted;
    Narrow(cfg);
    var r := ReachFromStart(cfg, m.src, m.i, m);
    RestingIdle(r, cfg, m.src, m.i, m);
    ReachStep(cfg, r, true, Cancel);
    var x0 := if BatchSize(cfg) > 1 then r else r.(cancelled := true);
    ReachTake(cfg, x0, true, m);
    var x1 := Taken(x0, cfg, m);
    SmallIdle(x1, cfg);
    ReachSkip(cfg, x1, true, m.src, n.i);
    var x2 := Moved(x1, m.src, n.i);
    ReachTake(cfg, x2, true, n);
    x := Taken(x2, cfg, n);
    assert forall i :: Buffer(x2, i) == Buffer(x1, i);
    SmallIdle(x, cfg);
    SameBreakers(r, x);
    NotedResolves(cfg, r.log, m, Targets(cfg, m), m, j);
    NotedResolves(cfg, x1.log, n, Targets(cfg, n), m, j);
  }

  lemma Narrow(cfg: Config)
    requires OneSinkPerRecord(cfg)
    ensures forall m: Msg :: |Targets(cfg, m)| <= 1
  {
    forall m: Msg ensures |Targets(cfg, m)| <= 1 {
      if k :| k in Targets(cfg, m) { assert Targets(cfg, m) == {k}; }
    }
  }

  /** Batches of one leave the router free when the batch size is larger, or when it no longer minds. */
  lemma SmallIdle(x: Exec, cfg: Config)
    requires x.up && x.flushing.None? && (BatchSize(cfg) > 1 || (cfg.parallel && x.cancelled))
    requires forall k :: |Buffer(x, k)| <= 1
    ensures Idle(x, cfg)
  {
    forall k | k in x.buffers && BatchSize(cfg) > 1 ensures |x.buffers[k]| < BatchSize(cfg) { assert |Buffer(x, k)| <= 1; }
  }

  lemma SameBreakers(x: Exec, y: Exec)
    requires Working(x) && y.up && y.flushing.None? && y.breakers == x.breakers && y.clock == x.clock
    ensures Working(y)
  {
    forall k ensures BreakerOf(y, k) == BreakerOf(x, k) {}
  }

  /** A source that feeds two sinks: a record waiting for one is passed by the checkpoint of the other. */
  lemma MixedBreaks(cfg: Config, m: Msg, n: Msg, j: Id, k: Id)
    requires cfg.attempts > 0 && OneSinkPerRecord(cfg) && (BatchSize(cfg) > 1 || cfg.parallel)
    requires m.src == n.src && m.i < n.i && j in Targets(cfg, m) && k in Targets(cfg, n) && j != k
    ensures Breaks(cfg)
  {
    hide Reachable, Safe, IsRun, After, NeverLoses, Position, OneSinkPerRecord;
    var m1, n1, j1, k1 := Neighbours(cfg, m, n, j, k);
    var x := ReachMixed(cfg, m1, n1, j1, k1);
    PositionAbove(x, cfg, n1, map[]);
    ReachUnsafe(cfg, x, true, k1, n1, map[], m1, j1);
  }

  lemma UnconfinedBreaks(cfg: Config)
    requires cfg.attempts > 0 && !Confined(cfg)
    ensures Breaks(cfg)
  {
    hide Breaks, Targets;
    if !OneSinkPerRecord(cfg) {
      var m: Msg, j, k :| j in Targets(cfg, m) && k in Targets(cfg, m) && j != k;
      SubsetCardinality({j, k}, Targets(cfg, m));
      WideBreaks(cfg, m);
    } else {
      var m: Msg, n: Msg, j, k :| m.src == n.src && j in Targets(cfg, m) && k in Targets(cfg, n) && j != k;
      if m.i < n.i { MixedBreaks(cfg, m, n, j, k); } else { assert m.i != n.i; MixedBreaks(cfg, n, m, k, j); }
    }
  }

  // ---------------------------------------------------------------- transforms that remember

  /** Record n, about to be taken, is dropped for what a transform remembers or does not, and the next record of its source
      is saved. */
  lemma DroppedBreaks(cfg: Config, x: Exec, n: Msg, o: Msg, k: Id)
    requires Reachable(cfg, x, true) && Resting(x, n.src, n.i, n) && Forgettable(x, cfg, n, k)
    requires OneSinkPerRecord(cfg) && n.src == o.src && n.i < o.i && k in Targets(cfg, n) && Targets(cfg, o) != {}
    ensures Breaks(cfg)
  {
    hide Reachable, Safe, IsRun, After, NeverLoses, Position, Working, Noted, Forgettable, Append;
    Narrow(cfg);
    SingleTarget(Targets(cfg, n), k);
    RestingIdle(x, cfg, n.src, n.i, n);
    ReachDropped(cfg, x, true, n, k);
    var y := Moved(x, n.src, n.i + 1);
    var f := NextTargeted(cfg, o, n.i + 1);
    assert forall j :: Buffer(y, j) == Buffer(x, j) == [];
    SameBreakers(x, y);
    AllIdle(y, cfg);
    ReachSkip(cfg, y, true, f.src, f.i);
    var z := Moved(y, f.src, f.i);
    SameBreakers(x, z);
    assert Resting(z, f.src, f.i, n) by { assert forall j :: Buffer(z, j) == Buffer(y, j); }
    RestingIdle(z, cfg, f.src, f.i, n);
    ReachTake(cfg, z, true, f);
    var j :| j in Targets(cfg, f);
    TakenFromRest(z, cfg, f, j, n);
    NotedResolves(cfg, z.log, f, Targets(cfg, f), n, k);
    PositionAbove(Taken(z, cfg, f), cfg, f, map[]);
    ReachUnsafe(cfg, Taken(z, cfg, f), true, j, f, map[], n, k);
  }

  /** The next record of the source that goes anywhere. */
  lemma {:induction false} NextTargeted(cfg: Config, m: Msg, from: nat) returns (f: Msg)
    requires Targets(cfg, m) != {} && from <= m.i
    ensures f.src == m.src && from <= f.i <= m.i && Targets(cfg, f) != {} && NoTargets(cfg, f.src, from, f.i)
    decreases m.i
  {
    if n: nat :| from <= n < m.i && Targets(cfg, Msg(m.src, n)) != {} { f := NextTargeted(cfg, Msg(m.src, n), from); } else { f := m; }
  }

  /** A record noted as seen before its sink had it: after a crash it is dropped, and the next one saved. */
  lemma MarkBreaks(cfg: Config, n: Msg, o: Msg, k: Id)
    requires cfg.attempts > 0 && OneSinkPerRecord(cfg) && k in cfg.marks
    requires n.src == o.src && n.i < o.i && k in Targets(cfg, n) && Targets(cfg, o) != {}
    ensures Breaks(cfg)
  {
    hide Reachable, Breaks, Working, Noted, Append, Resting, OneSinkPerRecord;
    assert OneSinkPerRecord(cfg);
    Narrow(cfg);
    var x := ReachNoted(cfg, n, k);
    var y := ReachRestarted(cfg, x, true);
    NothingDurable(x.log, n.src);
    BegunRests(y, cfg, n.src, n);
    var z := ReachRest(cfg, y, n.src, n.i, n);
    RememberedStays(y.log, z.log, n, k);
    DroppedBreaks(cfg, z, n, o, k);
  }

  /** Record n has just been taken and noted. */
  lemma ReachNoted(cfg: Config, n: Msg, k: Id) returns (x: Exec)
    requires cfg.attempts > 0 && OneSinkPerRecord(cfg) && k in cfg.marks && k in Targets(cfg, n)
    ensures Reachable(cfg, x, true) && Remembered(x.log, n, k) && (forall j :: !Resolved(x.log, n, j))
    ensures forall i :: 0 <= i < |x.log| ==> !x.log[i].Saved?
  {
    hide Reachable, Working, Append;
    Narrow(cfg);
    var r := ReachFromStart(cfg, n.src, n.i, n);
    RestingIdle(r, cfg, n.src, n.i, n);
    ReachTake(cfg, r, true, n);
    x := Taken(r, cfg, n);
    assert k in Targets(cfg, n) * cfg.marks;
    assert x.log[|r.log|] == Seen(n, Targets(cfg, n) * cfg.marks);
    forall j ensures !Resolved(x.log, n, j) { NotedResolves(cfg, r.log, n, Targets(cfg, n), n, j); }
  }

  lemma RememberedStays(log: seq<Entry>, longer: seq<Entry>, m: Msg, k: Id)
    requires Remembered(log, m, k) && log <= longer
    ensures Remembered(longer, m, k)
  {
    var n :| 0 <= n < |log| && log[n].Seen? && log[n].msg == m && k in log[n].sinks;
    assert longer[n] == log[n];
  }

  lemma {:induction false} NothingDurable(log: seq<Entry>, s: Id)
    requires forall n :: 0 <= n < |log| ==> !log[n].Saved?
    ensures Durable(log, s) == 0
  {
    if log != [] { NothingDurable(log[..|log| - 1], s); }
  }

  /** A record that is let through only for one that was read before the restart: it is dropped, and the next one saved. */
  lemma MissBreaks(cfg: Config, m: Msg, n: Msg, o: Msg, k: Id)
    requires cfg.attempts > 0 && OneSinkPerRecord(cfg) && NotAhead(cfg) && k in cfg.misses
    requires Targets(cfg, m) != {} && (m.src == n.src ==> m.i < n.i)
    requires n.src == o.src && n.i < o.i && k in Targets(cfg, n) && Targets(cfg, o) != {}
    ensures Breaks(cfg)
  {
    hide Reachable, Breaks, Working, Noted, Append, Resting, NotAhead;
    Narrow(cfg);
    var x, f := ReachSaved(cfg, m, n);
    var y := ReachRestarted(cfg, x, true);
    BegunRests(y, cfg, n.src, n);
    assert f.src in cfg.routes && Durable(y.log, f.src) > 0;
    var z := ReachRest(cfg, y, n.src, n.i, n);
    DroppedBreaks(cfg, z, n, o, k);
  }

  /** The first record of its source that goes anywhere has been delivered and saved, and n is nowhere. */
  lemma ReachSaved(cfg: Config, m: Msg, n: Msg) returns (x: Exec, f: Msg)
    requires cfg.attempts > 0 && NotAhead(cfg) && Targets(cfg, m) != {} && (m.src == n.src ==> m.i < n.i)
    ensures Reachable(cfg, x, true) && Known(cfg, f) && Durable(x.log, f.src) > 0 && (forall j :: !Resolved(x.log, n, j))
    ensures Durable(x.log, n.src) <= n.i
  {
    hide Reachable, Working, Idle, Safe, NotAhead;
    var y, g, k := ReachFirst(cfg, m);
    f := g;
    x := ReachAccepted(cfg, y, true, k, f, map[]);
    var p := Position(y, cfg, Accepting(0, f.src, map[]), f.src, f.i);
    assert p == f.i + 1;
    SavedDurable(y.log, f, k, p, n.src);
    forall j ensures !Resolved(x.log, n, j) { assert f != n; assert !Resolved(y.log, n, j); }
  }

  lemma SavedDurable(log: seq<Entry>, f: Msg, k: Id, p: nat, s: Id)
    requires forall n :: 0 <= n < |log| ==> !log[n].Saved?
    ensures var longer := log + [Delivered(f, k)] + [Saved(f.src, p)];
            Durable(longer, f.src) == p && (s != f.src ==> Durable(longer, s) == 0)
  {
    var longer := log + [Delivered(f, k)] + [Saved(f.src, p)];
    var front := log + [Delivered(f, k)];
    assert longer[|longer| - 1] == Saved(f.src, p) && longer[..|longer| - 1] == front;
    NothingDurable(front, s);
  }

  lemma UnmindfulBreaks(cfg: Config)
    requires cfg.attempts > 0 && OneSinkPerRecord(cfg) && NotAhead(cfg) && !Mindful(cfg)
    ensures Breaks(cfg)
  {
    hide Breaks, Targets, OneSinkPerRecord, NotAhead;
    var n: Msg, o: Msg, k :| n.src == o.src && n.i < o.i && k in Targets(cfg, n) && Targets(cfg, o) != {}
                             && !(k !in cfg.marks && (k in cfg.misses ==> !Preceded(cfg, n)));
    if k in cfg.marks {
      MarkBreaks(cfg, n, o, k);
    } else {
      var m: Msg :| Targets(cfg, m) != {} && (m.src == n.src ==> m.i < n.i);
      MissBreaks(cfg, m, n, o, k);
    }
  }

  lemma ConfinedNarrow(cfg: Config)
    requires Confined(cfg)
    ensures OneSinkPerRecord(cfg)
  {}

  lemma UnsoundBreaks(cfg: Config)
    requires !Sound(cfg)
    ensures Breaks(cfg)
  {
    hide Breaks, Targets, Confined, Mindful;
    var m: Msg :| Targets(cfg, m) != {};
    if cfg.attempts <= 0 {
      UntriedBreaks(cfg, m);
    } else if !Confined(cfg) {
      UnconfinedBreaks(cfg);
    } else if !NotAhead(cfg) {
      var m1: Msg, n1: Msg :| m1.src in cfg.ahead && m1.src == n1.src && Targets(cfg, m1) != {} && Targets(cfg, n1) != {} && m1 != n1;
      if m1.i < n1.i { AheadBreaks(cfg, m1, n1); } else { assert m1.i != n1.i; AheadBreaks(cfg, n1, m1); }
    } else {
      ConfinedNarrow(cfg);
      UnmindfulBreaks(cfg);
    }
  }

  /** Exactly when every checkpoint of every run that gives up no batch is safe: nothing goes anywhere; or writes are
      tried, the records of a source never wait for two sinks at once, no reader that answers with its own position has
      two records to deliver, and no transform can drop a record, for what it remembers or no longer does, with another
      of its source to follow. */
  lemma SafeIffSound(cfg: Config)
    ensures Keeps(cfg) <==> Sound(cfg)
  {
    if Sound(cfg) {
      SoundKeeps(cfg);
    } else {
      hide *;
      UnsoundBreaks(cfg);
      BreaksRefutes(cfg);
    }
  }

  lemma SoundKeeps(cfg: Config)
    requires Sound(cfg)
    ensures Keeps(cfg)
  {
    hide Safe, Sound, IsRun, NeverLoses, After;
    forall es | IsRun(cfg, es) && NeverLoses(cfg, es) ensures Safe(cfg, After(cfg, es).log) { SoundIsSafe(cfg, es); }
  }
}
