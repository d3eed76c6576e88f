/**
 The runner as the object it is: fields updated in place, loops over the batch, a local safety flag. Each
 method is proved to do to the fields what the step functions of LinearRunner say, so that the theorems about
 those functions are theorems about the object.
 */
module LinearRunnerObject {
  import opened CircuitBreaker
  import opened Prelude
  import opened LinearRunner

  class RunnerObject {
    const cfg: Config
    var log: seq<Entry>
    var up: bool
    var next: nat
    var queue: seq<nat>
    var batch: seq<nat>
    var pending: seq<nat>
    var blocked: bool
    var unsaved: nat
    var lastSave: Option<nat>
    var breaker: Breaker
    var held: seq<nat>
    var clock: nat
    var base: nat

    ghost function View(): Runner
      reads this
    {
      Runner(log, up, next, queue, batch, pending, blocked, unsaved, lastSave, breaker, held, clock, base)
    }

    constructor (cfg: Config)
      ensures this.cfg == cfg && View() == INITIAL
    {
      this.cfg := cfg;
      log, up, next, queue, batch, pending := [], false, 0, [], [], [];
      blocked, unsaved, lastSave, breaker := false, 0, None, FRESH_BREAKER;
      held, clock, base := [], 0, 0;
    }

    method TripBreaker()
      modifies this`breaker
      ensures View() == Trip(old(View()), cfg)
    {
      if cfg.breaker.Some? { breaker := RecordFailure(breaker, cfg.breaker.value, clock); }
    }

    method HandleFailedRecord(a: Answers, i: nat) returns (durable: bool)
      modifies this`log, this`blocked, this`breaker
      ensures View() == HandleFailed(old(View()), cfg, a, i)
      ensures durable == DlqTakes(cfg, a, i)
    {
      if cfg.dlq {
        if i in a.dlqDown {
          TripBreaker();
          blocked := true;
          durable := false;
        } else {
          log := log + [Dead(i)];
          durable := true;
        }
      } else {
        blocked := true;
        durable := false;
      }
    }

    method HandleFailedRecords(a: Answers, recs: seq<nat>) returns (durable: bool)
      modifies this`log, this`blocked, this`breaker
      ensures View() == HandleEach(old(View()), cfg, a, recs)
      ensures durable == AllTaken(cfg, a, recs)
    {
      durable := true;
      for k := 0 to |recs|
        invariant HandleEach(View(), cfg, a, recs[k..]) == HandleEach(old(View()), cfg, a, recs)
        invariant durable == AllTaken(cfg, a, recs[..k])
      {
        var ok := HandleFailedRecord(a, recs[k]);
        assert recs[k..][1..] == recs[k + 1..] && recs[..k + 1] == recs[..k] + [recs[k]];
        if !ok { durable := false; }
      }
      assert recs[..|recs|] == recs;
    }

    /** The source's rejections go to the dead-letter queue; the rest is accepted. */
    method SplitRejected(a: Answers) returns (accepted: seq<nat>, rejected: nat, durable: bool)
      modifies this`log, this`blocked, this`breaker
      ensures View() == HandleEach(old(View()), cfg, a, Having(batch, a, Only(Rejected)))
      ensures accepted == Having(batch, a, NotRejected)
      ensures rejected == |Having(batch, a, Only(Rejected))|
      ensures durable == AllTaken(cfg, a, Having(batch, a, Only(Rejected)))
    {
      accepted, rejected, durable := [], 0, true;
      ghost var all := Having(batch, a, Only(Rejected));
      for k := 0 to |batch|
        invariant accepted + Having(batch[k..], a, NotRejected) == Having(batch, a, NotRejected)
        invariant rejected + |Having(batch[k..], a, Only(Rejected))| == |all|
        invariant HandleEach(View(), cfg, a, Having(batch[k..], a, Only(Rejected))) == HandleEach(old(View()), cfg, a, all)
        invariant (durable && AllTaken(cfg, a, Having(batch[k..], a, Only(Rejected)))) == AllTaken(cfg, a, all)
      {
        hide DlqTakes, RecordFailure;
        var i := batch[k];
        ghost var rest := Having(batch[k + 1..], a, Only(Rejected));
        assert batch[k..][1..] == batch[k + 1..];
        if FateOf(a, i) == Rejected {
          TakenCons(cfg, a, i, rest);
          assert ([i] + rest)[1..] == rest;
          rejected := rejected + 1;
          var ok := HandleFailedRecord(a, i);
          if !ok { durable := false; }
        } else {
          accepted := accepted + [i];
        }
      }
    }

    /** The held records whose window closes join the accepted ones; the others stay. */
    method CloseWindows(a: Answers, accepted: seq<nat>) returns (input: seq<nat>, kept: seq<nat>)
      ensures input == Releasing(held, a, true) + accepted && kept == Releasing(held, a, false)
    {
      input, kept := [], [];
      for k := 0 to |held|
        invariant input + Releasing(held[k..], a, true) == Releasing(held, a, true)
        invariant kept + Releasing(held[k..], a, false) == Releasing(held, a, false)
      {
        hide Releasing;
        ReleasingFirst(held, a, k, true);
        ReleasingFirst(held, a, k, false);
        if held[k] in a.released && FateOf(a, held[k]) != Rejected { input := input + [held[k]]; }
        else { kept := kept + [held[k]]; }
      }
      assert held[|held|..] == [];
      input := input + accepted;
    }

    method ApplyWindow(a: Answers, input: seq<nat>, kept: seq<nat>)
      requires kept == Releasing(held, a, false)
      modifies this`held, this`log
      ensures View() == Absorb(old(View()), cfg, a, input)
    {
      if cfg.window == NoWindow { return; }
      held := kept + Having(input, a, Only(Absorbed));
      if cfg.window == Persisted && (a.chain.Works? || a.chain.stored) { log := log + [Stored(held)]; }
      else { assert log + [] == log; }
    }

    /** A transform that remembers notes the key in its store before the record goes on. */
    method NoteSeen(i: nat)
      modifies this`log
      ensures View() == old(View()).(log := old(log) + Mark(cfg, i))
    {
      if cfg.marks { log := log + [Seen(i)]; } else { assert log + [] == log; }
    }

    method TransformRecord(a: Answers, i: nat) returns (ok: bool)
      modifies this`log, this`blocked, this`breaker
      ensures View() == Pass(old(View()), cfg, a, i)
      ensures ok == (FateOf(a, i) == Broken ==> DlqTakes(cfg, a, i))
    {
      ok := true;
      match FateOf(a, i)
      case Filtered => log := log + [Skipped(i)];
      case Absorbed => if cfg.window == NoWindow { log := log + [Skipped(i)]; }
      case Broken => ok := HandleFailedRecord(a, i);
      case NoKey => NoteSeen(i);
      case Clean => NoteSeen(i);
      case _ =>
    }

    /** One record at a time through the transforms: passed on, dropped on purpose, held back, or failed. */
    method ApplyTransforms(a: Answers, input: seq<nat>)
      returns (passed: seq<nat>, filtered: nat, failed: nat, durable: bool)
      requires forall k :: 0 <= k < |input| ==> FateOf(a, input[k]) != Rejected
      modifies this`log, this`blocked, this`breaker
      ensures View() == Transform(old(View()), cfg, a, input)
      ensures passed == Having(input, a, Passed)
      ensures filtered == |Having(input, a, Dropped)|
      ensures failed == |Having(input, a, Only(Broken))|
      ensures durable == AllTaken(cfg, a, Having(input, a, Only(Broken)))
    {
      passed, filtered, failed, durable := [], 0, 0, true;
      ghost var bad: seq<nat> := [];
      TallyStarts(a, input);
      for k := 0 to |input|
        invariant Tallied(a, input, k, passed, filtered, bad) && failed == |bad|
        invariant Transform(View(), cfg, a, input[k..]) == Transform(old(View()), cfg, a, input)
        invariant durable == AllTaken(cfg, a, bad)
      {
        hide AllTaken, DlqTakes, Transform, Having, Pass, Tallied;
        var i := input[k];
        TransformFirst(View(), cfg, a, input, k);
        TallyGoesOn(a, input, k, passed, filtered, bad);
        var ok := TransformRecord(a, i);
        if FateOf(a, i) == Broken {
          failed := failed + 1;
          durable := durable && ok;
          TakenSnoc(cfg, a, bad, i);
          bad := bad + [i];
        } else if FateOf(a, i) == Filtered || Forgotten(FateOf(a, i)) {
          filtered := filtered + 1;
        } else if FateOf(a, i) == NoKey || FateOf(a, i) == Clean {
          passed := passed + [i];
        }
      }
      TallyEnds(a, input, passed, filtered, bad);
    }

    method SaveCommittedCheckpoint(a: Answers, processed: seq<nat>) returns (ok: bool)
      modifies this
      ensures (View(), ok) == Save(old(View()), cfg, a, processed)
    {
      if processed == [] || a.save == Unsupported { return false; }
      if blocked { TripBreaker(); return false; }
      if a.save == NoPosition || a.save == StoreFails {
        blocked := true;
        TripBreaker();
        return false;
      }
      if a.save == Unbound { TripBreaker(); return false; }
      var position := if cfg.ahead then next else if a.at.Some? then a.at.value else processed[|processed| - 1] + 1;
      log := log + [Saved(position)];
      if a.save == AckFails {
        blocked := true;
        TripBreaker();
        return false;
      }
      lastSave := Some(clock);
      unsaved := 0;
      return true;
    }

    method FlushPendingCheckpoint(a: Answers, force: bool)
      modifies this
      ensures View() == FlushPending(old(View()), cfg, a, force)
    {
      if pending == [] { return; }
      if !force && lastSave.Some? && clock - lastSave.value < Interval(cfg) && unsaved < SAVE_EVERY { return; }
      var ok := SaveCommittedCheckpoint(a, pending);
      if ok { pending := []; }
    }

    /** After a refused write, survivors are told apart by the error's indices or one by one. */
    method Isolate(sink: SinkAnswer, recs: seq<nat>) returns (good: seq<nat>, bad: seq<nat>)
      requires sink.Refuses?
      ensures (good, bad) == AfterRefusal(sink, recs)
    {
      var usable := sink.partial != [];
      for k := 0 to |sink.partial|
        invariant usable == (sink.partial != [] && forall j :: 0 <= j < k ==> 0 <= sink.partial[j] < |recs|)
      {
        if sink.partial[k] < 0 || sink.partial[k] >= |recs| { usable := false; }
      }
      if usable {
        good, bad := Unnamed(sink.partial, recs, 0), Named(sink.partial, recs, {});
        return;
      }
      good, bad := [], [];
      for k := 0 to |recs|
        invariant good + Splits(recs[k..], sink.alone).0 == Splits(recs, sink.alone).0
        invariant bad + Splits(recs[k..], sink.alone).1 == Splits(recs, sink.alone).1
      {
        assert recs[k..][1..] == recs[k + 1..];
        if recs[k] in sink.alone { bad := bad + [recs[k]]; } else { good := good + [recs[k]]; }
      }
      assert good == Splits(recs, sink.alone).0 && bad == Splits(recs, sink.alone).1;
      assert !Usable(sink.partial, |recs|);
    }

    /** The transforms over the accepted records; stops when the chain fails as a whole. */
    method TransformAccepted(a: Answers, accepted: seq<nat>, durableSoFar: bool)
      returns (stop: bool, passed: seq<nat>, filtered: nat, failed: nat, durable: bool)
      requires accepted == Having(batch, a, NotRejected)
      modifies this`log, this`blocked, this`breaker, this`held
      ensures stop == ChainFailed(cfg, a, batch)
      ensures View() == Transformed(old(View()), cfg, a, batch)
      ensures !stop ==>
                var input := Input(old(View()), a, batch);
                && passed == Having(input, a, Passed)
                && filtered == |Having(input, a, Dropped)|
                && failed == |Having(input, a, Only(Broken))|
                && durable == ((Batching(cfg) || accepted == [] ==> durableSoFar)
                               && AllTaken(cfg, a, Having(input, a, Only(Broken))))
    {
      assert AllTaken(cfg, a, []);
      hide Having, AllTaken, Transform, HandleEach, Releasing, Absorb;
      stop, passed, filtered, failed, durable := false, [], 0, 0, durableSoFar;
      HavingNone(a);
      if accepted == [] { return; }
      ReleasedFit(held, a);
      AcceptedFit(batch, a);
      var input, kept := CloseWindows(a, accepted);
      ApplyWindow(a, input, kept);
      if Batching(cfg) && a.chain.Fails? {
        durable := HandleFailedRecords(a, accepted);
        stop := true;
        return;
      }
      var ok;
      passed, filtered, failed, ok := ApplyTransforms(a, input);
      durable := if Batching(cfg) then durable && ok else ok;
    }

    /** Everything writeBatch does before it asks the sink: what survives, whether the batch may be checkpointed if
        nothing does, and whether every failure is in the dead-letter queue. */
    method PrepareBatch(a: Answers) returns (stop: bool, survivors: seq<nat>, skippable: bool, durable: bool)
      modifies this`log, this`blocked, this`breaker, this`held, this`clock
      ensures View() == AtBreaker(old(View()), cfg, a)
      ensures stop == ChainFailed(cfg, a, batch)
      ensures !stop ==>
                var input := Input(old(View()), a, batch);
                && survivors == Survivors(cfg, a, input)
                && durable == FlagSafe(cfg, a, batch, input)
                && skippable == EmptyMaySave(cfg, a, batch, input)
    {
      hide HandleEach, AllTaken, Having, FateOf, ChainFailed, Input, BeforeSink, Transformed, Survivors;
      ghost var input := Input(View(), a, batch);
      InputClock(View(), a, batch, a.now + a.early);
      clock := a.now + a.early;
      BeforeSinkSplits(View(), cfg, a, batch);
      var accepted, rejected, passed, filtered, failed;
      accepted, rejected, durable := SplitRejected(a);
      stop, passed, filtered, failed, durable := TransformAccepted(a, accepted, durable);
      survivors, skippable := [], false;
      if !stop {
        var keyless, ok;
        survivors, keyless, ok := DropKeyless(a, input, passed);
        durable := durable && ok;
        skippable := ((rejected > 0 || keyless > 0) && failed == 0 && durable && !(Batching(cfg) && accepted != [] && passed == []))
          || (!Batching(cfg) && filtered == |batch| && failed == 0);
      }
      clock := a.now + a.elapsed;
    }

    /** A sink that needs complete keys sees no record without one. */
    method DropKeyless(a: Answers, ghost input: seq<nat>, passed: seq<nat>) returns (survivors: seq<nat>, keyless: nat, ok: bool)
      requires passed == Having(input, a, Passed)
      modifies this`log, this`blocked, this`breaker
      ensures View() == if cfg.keyed then HandleEach(old(View()), cfg, a, Having(input, a, Only(NoKey))) else old(View())
      ensures survivors == Survivors(cfg, a, input)
      ensures keyless == |if cfg.keyed then Having(input, a, Only(NoKey)) else []|
      ensures ok == (cfg.keyed ==> AllTaken(cfg, a, Having(input, a, Only(NoKey))))
    {
      hide HandleEach, AllTaken, Having;
      HavingTwice(input, a);
      survivors, keyless, ok := passed, 0, true;
      if cfg.keyed {
        var bad := Having(passed, a, Only(NoKey));
        keyless := |bad|;
        ok := HandleFailedRecords(a, bad);
        survivors := Having(passed, a, Fit(true));
      }
    }

    /** writeBatch, on the batch the write loop has collected. */
    method CommitBatch(a: Answers, budget: nat)
      modifies this
      ensures View() == WriteBatch(old(View()), cfg, a, budget)
    {
      hide AtBreaker, Save, WriteSink, Abandons, ChainFailed, Input, PastBreaker, FlagSafe, EmptyMaySave, Survivors;
      ghost var input := Input(View(), a, batch);
      var stop, survivors, skippable, durable := PrepareBatch(a);
      if stop { return; }
      if survivors == [] {
        if skippable { var _ := SaveCommittedCheckpoint(a, batch); }
        return;
      }
      CommitSurvivors(a, budget, input, survivors, durable);
    }

    /** Waits for an open breaker or gives up; then writes, and acts on what the sink says. */
    method CommitSurvivors(a: Answers, budget: nat, ghost input: seq<nat>, survivors: seq<nat>, durable: bool)
      requires durable == FlagSafe(cfg, a, batch, input) && survivors == Survivors(cfg, a, input)
      modifies this
      ensures View() == if Abandons(old(View()), cfg, a, budget)
                        then old(View()).(clock := Max(old(clock), a.now + budget))
                        else WriteSink(PastBreaker(old(View()), cfg, a), cfg, a, old(batch), input)
    {
      hide FlagSafe, Refused, Accepted, Survivors;
      if cfg.breaker.Some? {
        var (b, allowed) := Allow(breaker, cfg.breaker.value, clock);
        if !allowed {
          if a.elapsed + Cooldown(cfg.breaker.value) >= budget {
            clock := Max(clock, a.now + budget);
            return;
          }
          clock := clock + Cooldown(cfg.breaker.value);
        }
        breaker := b;
      }
      clock := clock + a.took;
      if a.sink.Refuses? { SinkRefused(a, survivors); } else { SinkAccepted(a, input, survivors, durable); }
    }

    method SinkRefused(a: Answers, survivors: seq<nat>)
      requires a.sink.Refuses?
      modifies this
      ensures View() == Refused(old(View()), cfg, a, survivors)
    {
      hide HandleEach, AfterRefusal;
      TripBreaker();
      var good, bad := Isolate(a.sink, survivors);
      log := log + Deliveries(good);
      var _ := HandleFailedRecords(a, bad);
    }

    method SinkAccepted(a: Answers, ghost input: seq<nat>, survivors: seq<nat>, durable: bool)
      requires durable == FlagSafe(cfg, a, batch, input) && survivors == Survivors(cfg, a, input)
      modifies this
      ensures View() == Accepted(old(View()), cfg, a, old(batch), input)
    {
      hide FlagSafe, FlushPending, Survivors;
      log := log + Deliveries(survivors);
      if cfg.breaker.Some? { breaker := RecordSuccess(breaker); }
      if !durable {
        TripBreaker();
        return;
      }
      unsaved := unsaved + 1;
      pending := pending + batch;
      if lastSave.None? || clock - lastSave.value >= Interval(cfg) || unsaved >= SAVE_EVERY {
        FlushPendingCheckpoint(a, true);
      }
    }

    // -------------------------------------------------------------- the reader and the write loop

    /** What an earlier run left in the runner is forgotten. */
    method Reset()
      modifies this`queue, this`batch, this`pending, this`blocked, this`unsaved, this`lastSave, this`breaker
      ensures View() == old(View()).(queue := [], batch := [], pending := [], blocked := false, unsaved := 0,
                                     lastSave := None, breaker := FRESH_BREAKER)
    {
      queue, batch, pending := [], [], [];
      blocked, unsaved, lastSave, breaker := false, 0, None, FRESH_BREAKER;
    }

    method Start()
      requires !up
      modifies this
      ensures View() == Started(old(View()), cfg)
    {
      hide Durable, InStore;
      Reset();
      next := Durable(log);
      base := next;
      held := if cfg.window == Persisted then InStore(log) else [];
      up := true;
    }

    method Emit()
      requires up && next < cfg.length
      modifies this`queue, this`next
      ensures View() == Step(old(View()), cfg, Read)
    {
      queue, next := queue + [next], next + 1;
    }

    /** The write loop's flush. */
    method Flush(a: Answers, budget: nat)
      modifies this
      ensures View() == Commit(old(View()), cfg, a, budget)
    {
      hide WriteBatch;
      if batch == [] { return; }
      CommitBatch(a, budget);
      batch := [];
    }

    method OnRecord(a: Answers)
      requires Enabled(View(), cfg, Take(a))
      modifies this
      ensures View() == Step(old(View()), cfg, Take(a))
    {
      hide Commit;
      batch, queue := batch + [queue[0]], queue[1..];
      if |batch| >= BatchSize(cfg) { Flush(a, COMMIT_TIMEOUT); }
    }

    method OnTick(a: Answers, b: Answers)
      requires Enabled(View(), cfg, Tick(a, b))
      modifies this
      ensures View() == Step(old(View()), cfg, Tick(a, b))
    {
      hide Commit, FlushPending;
      Flush(a, COMMIT_TIMEOUT);
      clock := b.now;
      FlushPendingCheckpoint(b, false);
    }

    /** The last write of a run, and the save after it. */
    method ForceFlush(a: Answers, b: Answers)
      modifies this
      ensures View() == Shutdown(old(View()), cfg, a, b)
    {
      hide Commit, FlushPending;
      if batch != [] { unsaved := SAVE_EVERY; }
      Flush(a, SHUTDOWN_TIMEOUT);
      clock := b.now;
      FlushPendingCheckpoint(b, true);
    }

    method OnDone(a: Answers, b: Answers)
      requires Enabled(View(), cfg, Stop(a, b))
      modifies this
      ensures View() == Step(old(View()), cfg, Stop(a, b))
    {
      hide Shutdown, LastWrite;
      ForceFlush(a, b);
      up := false;
    }

    /** The channel is closed: what windows still hold is written as one more batch. */
    method OnClosed(a: Answers, b: Answers, d: Option<Answers>)
      requires Enabled(View(), cfg, Finish(a, b, d))
      modifies this
      ensures View() == Step(old(View()), cfg, Finish(a, b, d))
    {
      hide Shutdown, LastWrite, Commit;
      ForceFlush(a, b);
      if held != [] {
        if d.Some? {
          batch, unsaved := held, SAVE_EVERY;
          if cfg.window == Persisted { log := log + [Stored([])]; } else { assert log + [] == log; }
        }
        held := [];
        if d.Some? { Flush(d.value, SHUTDOWN_TIMEOUT); }
      }
      up := false;
    }
  }

  lemma TakenCons(cfg: Config, a: Answers, i: nat, recs: seq<nat>)
    ensures AllTaken(cfg, a, [i] + recs) <==> DlqTakes(cfg, a, i) && AllTaken(cfg, a, recs)
  {
    var all := [i] + recs;
    assert all[0] == i;
    forall k | 0 <= k < |recs| ensures AllTaken(cfg, a, all) ==> DlqTakes(cfg, a, recs[k]) {
      assert all[k + 1] == recs[k];
    }
  }

  lemma TakenSnoc(cfg: Config, a: Answers, recs: seq<nat>, i: nat)
    ensures AllTaken(cfg, a, recs + [i]) <==> AllTaken(cfg, a, recs) && DlqTakes(cfg, a, i)
  {
    assert (recs + [i])[|recs|] == i;
    assert forall k :: 0 <= k < |recs| ==> (recs + [i])[k] == recs[k];
  }

  lemma TransformFirst(r: Runner, cfg: Config, a: Answers, recs: seq<nat>, k: nat)
    requires k < |recs|
    ensures Transform(r, cfg, a, recs[k..]) == Transform(Pass(r, cfg, a, recs[k]), cfg, a, recs[k + 1..])
  {
    assert recs[k..][1..] == recs[k + 1..];
  }

  /** What the loop has counted up to k, and what is left for it to count. */
  ghost predicate Tallied(a: Answers, input: seq<nat>, k: nat, passed: seq<nat>, filtered: nat, bad: seq<nat>)
    requires k <= |input|
  {
    && passed + Having(input[k..], a, Passed) == Having(input, a, Passed)
    && filtered + |Having(input[k..], a, Dropped)| == |Having(input, a, Dropped)|
    && bad + Having(input[k..], a, Only(Broken)) == Having(input, a, Only(Broken))
  }

  lemma TallyStarts(a: Answers, input: seq<nat>)
    ensures Tallied(a, input, 0, [], 0, [])
  {
    assert input[0..] == input;
  }

  lemma TallyGoesOn(a: Answers, input: seq<nat>, k: nat, passed: seq<nat>, filtered: nat, bad: seq<nat>)
    requires k < |input| && Tallied(a, input, k, passed, filtered, bad) && FateOf(a, input[k]) != Rejected
    ensures var i, fate := input[k], FateOf(a, input[k]);
            Tallied(a, input, k + 1, passed + (if fate == NoKey || fate == Clean then [i] else []),
                    filtered + (if fate == Filtered || Forgotten(fate) then 1 else 0), bad + if fate == Broken then [i] else [])
            && passed + [] == passed && bad + [] == bad
  {
    hide Having;
    HavingFirst(a, input, k, Passed);
    HavingFirst(a, input, k, Dropped);
    HavingFirst(a, input, k, Only(Broken));
  }

  lemma TallyEnds(a: Answers, input: seq<nat>, passed: seq<nat>, filtered: nat, bad: seq<nat>)
    requires Tallied(a, input, |input|, passed, filtered, bad)
    ensures passed == Having(input, a, Passed) && filtered == |Having(input, a, Dropped)| && bad == Having(input, a, Only(Broken))
  {
    assert input[|input|..] == [];
  }

  lemma ReleasingFirst(held: seq<nat>, a: Answers, k: nat, out: bool)
    requires k < |held|
    ensures Releasing(held[k..], a, out) ==
            (if (held[k] in a.released && FateOf(a, held[k]) != Rejected) == out then [held[k]] else [])
            + Releasing(held[k + 1..], a, out)
  {
    assert held[k..][1..] == held[k + 1..];
  }

  lemma HavingFirst(a: Answers, recs: seq<nat>, k: nat, w: Which)
    requires k < |recs|
    ensures Having(recs[k..], a, w) ==
            (if Picks(w, FateOf(a, recs[k])) then [recs[k]] else []) + Having(recs[k + 1..], a, w)
  {
    assert recs[k..][1..] == recs[k + 1..];
  }

  /** The runner after the transforms, the rejected records having been dealt with. */
  ghost function Transformed(r: Runner, cfg: Config, a: Answers, batch: seq<nat>): Runner {
    var accepted, input := Having(batch, a, NotRejected), Input(r, a, batch);
    if accepted == [] then r
    else
      var r1 := Absorb(r, cfg, a, input);
      if ChainFailed(cfg, a, batch) then HandleEach(r1, cfg, a, accepted) else Transform(r1, cfg, a, input)
  }

  lemma {:induction false} HandleKeepsHeld(r: Runner, cfg: Config, a: Answers, recs: seq<nat>)
    ensures HandleEach(r, cfg, a, recs).held == r.held
    decreases |recs|
  {
    if recs != [] { HandleKeepsHeld(HandleFailed(r, cfg, a, recs[0]), cfg, a, recs[1..]); }
  }

  /** What happens before the sink, in the order of the code. */
  lemma BeforeSinkSplits(r: Runner, cfg: Config, a: Answers, batch: seq<nat>)
    ensures var r1, input := HandleEach(r, cfg, a, Having(batch, a, Only(Rejected))), Input(r, a, batch);
            var r2 := Transformed(r1, cfg, a, batch);
            && Input(r1, a, batch) == input
            && BeforeSink(r, cfg, a, batch) ==
               if cfg.keyed && !ChainFailed(cfg, a, batch) then HandleEach(r2, cfg, a, Having(input, a, Only(NoKey))) else r2
  {
    hide Having, Releasing, Absorb, Transform;
    var r1 := HandleEach(r, cfg, a, Having(batch, a, Only(Rejected)));
    HandleKeepsHeld(r, cfg, a, Having(batch, a, Only(Rejected)));
    HavingNone(a);
    assert HandleEach(r1, cfg, a, []) == r1;
  }

  lemma InputClock(r: Runner, a: Answers, batch: seq<nat>, t: nat)
    ensures Input(r.(clock := t), a, batch) == Input(r, a, batch)
  {}

  lemma HavingNone(a: Answers)
    ensures forall w :: Having([], a, w) == []
  {}

  lemma {:induction false} ReleasedFit(held: seq<nat>, a: Answers)
    ensures forall k :: 0 <= k < |Releasing(held, a, true)| ==> FateOf(a, Releasing(held, a, true)[k]) != Rejected
  {
    if held != [] { ReleasedFit(held[1..], a); }
  }

  lemma {:induction false} AcceptedFit(recs: seq<nat>, a: Answers)
    ensures forall k :: 0 <= k < |Having(recs, a, NotRejected)| ==> FateOf(a, Having(recs, a, NotRejected)[k]) != Rejected
  {
    if recs != [] { AcceptedFit(recs[1..], a); }
  }

  /** Choosing among what the transforms passed on is choosing among what they were given. */
  lemma {:induction false} HavingTwice(recs: seq<nat>, a: Answers)
    ensures Having(Having(recs, a, Passed), a, Only(NoKey)) == Having(recs, a, Only(NoKey))
    ensures Having(Having(recs, a, Passed), a, Fit(true)) == Having(recs, a, Fit(true))
    ensures Having(recs, a, Passed) == Having(recs, a, Fit(false))
  {
    if recs != [] { HavingTwice(recs[1..], a); }
  }
}
