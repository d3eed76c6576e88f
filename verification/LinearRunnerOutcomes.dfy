/**
 What the failures of a commit lead to: which records are handed on, what stops the checkpoints of a run for good, and
 how long a write waits for the breaker.
 */
module LinearRunnerOutcomes {
  import opened CircuitBreaker
  import opened Prelude
  import opened LinearRunner
  import opened LinearRunnerSafety
  import opened LinearRunnerPositions
  import opened LinearRunnerProgress
  import opened LinearRunnerLimits

  // ---------------------------------------------------------------- a refused write

  /** The write named these of the survivors as failed: it gave at least one index, and all in range. */
  predicate Names(sink: SinkAnswer, n: nat) {
    sink.Refuses? && sink.partial != [] && forall k :: 0 <= k < |sink.partial| ==> 0 <= sink.partial[k] < n
  }

  lemma {:induction false} NamedOnly(partial: seq<int>, recs: seq<nat>, seen: set<int>)
    requires forall j :: 0 <= j < |partial| ==> 0 <= partial[j] < |recs|
    requires Distinct(recs)
    ensures var named := Named(partial, recs, seen);
            && (forall k :: 0 <= k < |recs| && recs[k] in named ==> k in partial && k !in seen)
            && Distinct(named)
  {
    if partial != [] {
      var first, rest := partial[0], partial[1..];
      var more := Named(rest, recs, seen + {first});
      NamedOnly(rest, recs, seen + {first});
      var named := Named(partial, recs, seen);
      assert partial == [first] + rest;
      if first in seen {
        assert named == more;
      } else {
        assert recs[first] !in more;
        assert named == [recs[first]] + more;
        DistinctCons(recs[first], more);
      }
    }
  }

  lemma {:induction false} UnnamedOnly(partial: seq<int>, recs: seq<nat>, from: nat)
    requires from <= |recs| && Distinct(recs)
    ensures forall k :: 0 <= k < |recs| && recs[k] in Unnamed(partial, recs, from) ==> k !in partial && k >= from
    ensures Distinct(Unnamed(partial, recs, from))
    decreases |recs| - from
  {
    if from < |recs| {
      UnnamedOnly(partial, recs, from + 1);
      var more := Unnamed(partial, recs, from + 1);
      assert recs[from] !in more;
      if from !in partial {
        assert Unnamed(partial, recs, from) == [recs[from]] + more;
        DistinctCons(recs[from], more);
      } else {
        assert Unnamed(partial, recs, from) == more;
      }
    }
  }

  lemma {:induction false} SplitsOnly(recs: seq<nat>, alone: set<nat>)
    requires Distinct(recs)
    ensures var (good, bad) := Splits(recs, alone);
            && Distinct(good) && Distinct(bad)
            && (forall i :: i in good <==> i in recs && i !in alone) && (forall i :: i in bad <==> i in recs && i in alone)
  {
    if recs != [] {
      var first, rest := recs[0], recs[1..];
      assert recs == [first] + rest;
      DistinctTail(first, rest);
      SplitsOnly(rest, alone);
      var (good, bad) := Splits(rest, alone);
      if first in alone { DistinctCons(first, bad); } else { DistinctCons(first, good); }
    }
  }

  /** After a refused write each survivor is in the sink or is handed on, never both and each once: by the indices the
      write named, or, when it named none that can be used, by what fails when written alone. */
  lemma RefusalIsExact(sink: SinkAnswer, recs: seq<nat>, k: nat)
    requires sink.Refuses? && Distinct(recs) && k < |recs|
    ensures var (good, bad) := AfterRefusal(sink, recs);
            var failed := if Names(sink, |recs|) then k in sink.partial else recs[k] in sink.alone;
            (recs[k] in bad <==> failed) && (recs[k] in good <==> !failed) && Distinct(good) && Distinct(bad)
  {
    if Usable(sink.partial, |recs|) {
      NamedOnly(sink.partial, recs, {});
      UnnamedOnly(sink.partial, recs, 0);
      if k in sink.partial { NamedMember(sink.partial, recs, {}, k); } else { UnnamedMember(sink.partial, recs, 0, k); }
    } else {
      SplitsOnly(recs, sink.alone);
    }
  }

  // ---------------------------------------------------------------- checkpoints that are stopped

  /** A flush that comes to its save: a position that cannot be had, a store that fails and an acknowledgement that fails
      stop the checkpoints of this run; state that cannot be collected leaves the records waiting for the next flush. */
  lemma FailedSaveStops(r: Runner, cfg: Config, a: Answers)
    requires r.pending != [] && !r.blocked
    ensures var s := FlushPending(r, cfg, a, true);
            && (s.blocked <==> a.save == NoPosition || a.save == StoreFails || a.save == AckFails)
            && (s.pending == if a.save == Saves then [] else r.pending)
            && (SavesFrom(s.log, |r.log|) <==> a.save == Saves || a.save == AckFails)
  {
    hide RecordFailure;
    var p := Position(r, cfg, a, r.pending);
    assert (r.log + [Saved(p)])[|r.log|].Saved?;
  }

  lemma BlockedFlush(r: Runner, cfg: Config, a: Answers, force: bool)
    requires r.blocked
    ensures var s := FlushPending(r, cfg, a, force); s == r.(breaker := s.breaker)
  {
    hide Save;
    BlockedSave(r, cfg, a, r.pending);
  }

  lemma BlockedAccepted(r: Runner, cfg: Config, a: Answers, batch: seq<nat>, input: seq<nat>)
    requires r.blocked
    ensures var s := Accepted(r, cfg, a, batch, input); s.blocked && r.log <= s.log && !SavesFrom(s.log, |r.log|)
  {
    hide FlagSafe, Survivors, RecordFailure, FlushPending;
    var r1 := Landed(r, cfg, Survivors(cfg, a, input));
    BlockedFlush(r1.(unsaved := r1.unsaved + 1, pending := r1.pending + batch), cfg, a, true);
  }

  lemma BlockedCommit(r: Runner, cfg: Config, a: Answers, budget: nat)
    requires r.blocked
    ensures var s := Commit(r, cfg, a, budget); s.blocked && r.log <= s.log && !SavesFrom(s.log, |r.log|)
  {
    hide AtBreaker, Survivors, EmptyMaySave, Save, Input, ChainFailed, FlagSafe, Abandons, Accepted, Refused, SavesFrom, DeliversFrom;
    var r1, input := AtBreaker(r, cfg, a), Input(r, a, r.batch);
    AtBreakerAside(r, cfg, a);
    BlockedSave(r1, cfg, a, r.batch);
    var r2 := PastBreaker(r1, cfg, a);
    BlockedAccepted(r2, cfg, a, r.batch, input);
    if a.sink.Refuses? { RefusedAside(r2, cfg, a, Survivors(cfg, a, input)); }
    NothingFrom(r1.log);
    NothingFrom(r.log);
    if r.batch != [] { FromLater(r.log, r1.log, Commit(r, cfg, a, budget).log); }
  }

  lemma NothingFrom(log: seq<Entry>)
    ensures !SavesFrom(log, |log|)
  {}

  lemma BlockedShutdown(r: Runner, cfg: Config, a: Answers, b: Answers)
    requires r.blocked
    ensures var s := Shutdown(r, cfg, a, b); s.blocked && r.log <= s.log && !SavesFrom(s.log, |r.log|)
  {
    hide Commit, FlushPending, SavesFrom;
    var r0 := if r.batch == [] then r else r.(unsaved := SAVE_EVERY);
    BlockedCommit(r0, cfg, a, SHUTDOWN_TIMEOUT);
    BlockedFlush(LastWrite(r, cfg, a).(clock := b.now), cfg, b, true);
  }

  lemma BlockedDrain(r: Runner, cfg: Config, d: Option<Answers>)
    requires r.blocked
    ensures var s := Drained(r, cfg, d); s.blocked && r.log <= s.log && !SavesFrom(s.log, |r.log|)
  {
    hide Commit;
    NothingFrom(r.log);
    if r.held != [] && d.Some? {
      var r1 := r.(held := [], batch := r.held, unsaved := SAVE_EVERY,
                   log := r.log + if cfg.window == Persisted then [Stored([])] else []);
      assert !SavesFrom(r1.log, |r.log|);
      BlockedCommit(r1, cfg, d.value, SHUTDOWN_TIMEOUT);
      FromLater(r.log, r1.log, Drained(r, cfg, d).log);
    }
  }

  /** Once stopped, no checkpoint is saved until the next start, whatever happens and whatever the store answers. */
  lemma BlockedSavesNothing(r: Runner, cfg: Config, e: Event)
    requires r.blocked && r.up && Enabled(r, cfg, e) && !e.Crash?
    ensures var s := Step(r, cfg, e); s.blocked && !SavesFrom(s.log, |r.log|) && Durable(s.log) == Durable(r.log)
  {
    hide Commit, FlushPending, Shutdown, Drained, SavesFrom, Durable;
    NothingFrom(r.log);
    match e {
      case Take(a) => BlockedCommit(Taken(r), cfg, a, COMMIT_TIMEOUT);
      case Tick(a, b) =>
        BlockedCommit(r, cfg, a, COMMIT_TIMEOUT);
        BlockedFlush(Commit(r, cfg, a, COMMIT_TIMEOUT).(clock := b.now), cfg, b, false);
      case Stop(a, b) => BlockedShutdown(r, cfg, a, b);
      case Finish(a, b, d) =>
        BlockedShutdown(r, cfg, a, b);
        BlockedDrain(Shutdown(r, cfg, a, b), cfg, d);
        FromLater(r.log, Shutdown(r, cfg, a, b).log, Drained(Shutdown(r, cfg, a, b), cfg, d).log);
      case _ =>
    }
    NoSaves(Step(r, cfg, e).log, |r.log|);
    DurableExtend(r.log, Step(r, cfg, e).log);
  }

  /** A batch transform that swallows all it was given saves nothing for the batch, although nothing failed. */
  lemma SwallowedBatchWaits(cfg: Config, a: Answers, batch: seq<nat>, input: seq<nat>)
    requires Batching(cfg) && (exists i :: i in batch && FateOf(a, i) != Rejected)
    requires forall i :: i in input ==> FateOf(a, i) != NoKey && FateOf(a, i) != Clean
    ensures !EmptyMaySave(cfg, a, batch, input)
  {
    hide FlagSafe;
    var i :| i in batch && FateOf(a, i) != Rejected;
    HavingMember(batch, a, NotRejected, i);
    var passed := Having(input, a, Passed);
    if passed != [] { HavingMember(input, a, Passed, passed[0]); }
  }

  // ---------------------------------------------------------------- the breaker

  /** Handing a record on counts against the sink exactly when there is a dead-letter queue and it fails. */
  lemma HandingOnCounts(r: Runner, cfg: Config, a: Answers, i: nat)
    requires cfg.breaker.Some?
    ensures HandleFailed(r, cfg, a, i).breaker ==
            if cfg.dlq && i in a.dlqDown then RecordFailure(r.breaker, cfg.breaker.value, r.clock) else r.breaker
  {
    hide RecordFailure;
  }

  /** Of the ways a save can fail only an unsupported one does not count against the sink. */
  lemma FailedSaveCounts(r: Runner, cfg: Config, a: Answers)
    requires cfg.breaker.Some? && r.pending != []
    ensures FlushPending(r, cfg, a, true).breaker ==
            if a.save == Unsupported || (a.save == Saves && !r.blocked) then r.breaker
            else RecordFailure(r.breaker, cfg.breaker.value, r.clock)
  {
    hide RecordFailure;
  }

  /** A write that finds the breaker open is made no earlier than the cooldown later, which is 30 s by default. */
  lemma OpenBreakerWaits(r: Runner, cfg: Config, a: Answers)
    requires cfg.breaker.Some? && r.breaker.mode == Open
    requires var c := cfg.breaker.value.cooldownSec; r.clock - r.breaker.trippedAt < (if c <= 0 then 30 else c)
    ensures var c := cfg.breaker.value.cooldownSec; PastBreaker(r, cfg, a).clock >= r.clock + (if c <= 0 then 30 else c)
  {}

  // ---------------------------------------------------------------- the numbers

  /** Fifteen seconds of cooldown are the most that delivery allows; the default is 30. */
  lemma CooldownsThatDeliver(cfg: Config, c: BreakerCfg)
    requires Plain(cfg) && Faithful(cfg) && cfg.breaker == Some(c)
    ensures Delivers(cfg) <==> 1 <= c.cooldownSec <= 15
  {
    hide Delivers;
    DeliversIff(cfg);
  }

  /** A batch is written when it has the configured size, which is 1000 by default, and not before. */
  lemma BatchesFill(r: Runner, cfg: Config, a: Answers)
    requires Enabled(r, cfg, Take(a)) && |r.batch| + 1 < (if cfg.batchSize == 0 then 1000 else cfg.batchSize)
    ensures Step(r, cfg, Take(a)) == r.(batch := r.batch + [r.queue[0]], queue := r.queue[1..])
  {}

  lemma FullBatchesGo(r: Runner, cfg: Config, a: Answers)
    requires Enabled(r, cfg, Take(a)) && |r.batch| + 1 >= (if cfg.batchSize == 0 then 1000 else cfg.batchSize)
    ensures Step(r, cfg, Take(a)).batch == []
  {
    hide WriteBatch;
  }
}
