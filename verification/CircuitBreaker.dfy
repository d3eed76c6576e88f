/**
 The circuit breaker (internal/etl/pipeline/circuit_breaker.go): enough failures within a span of time open it, a
 cooldown later one write is let through, and a success closes it.
 */
module CircuitBreaker {
  datatype Mode = Closed | Open | HalfOpen
  datatype BreakerCfg = BreakerCfg(maxFailures: int, windowSec: int, cooldownSec: int)
  datatype Breaker = Breaker(failures: seq<nat>, mode: Mode, trippedAt: nat)

  const FRESH_BREAKER := Breaker([], Closed, 0)

  function MaxFailures(c: BreakerCfg): (n: int)
    ensures n > 0
  {
    if c.maxFailures <= 0 then 5 else c.maxFailures
  }

  function Span(c: BreakerCfg): (n: int)
    ensures n > 0
  {
    if c.windowSec <= 0 then 60 else c.windowSec
  }

  function Cooldown(c: BreakerCfg): (n: int)
    ensures n > 0
  {
    if c.cooldownSec <= 0 then 30 else c.cooldownSec
  }

  /** Whether a write may go ahead now; an open breaker turns half-open once its cooldown is over. */
  function Allow(b: Breaker, c: BreakerCfg, now: nat): (Breaker, bool) {
    if b.mode != Open then (b, true)
    else if now - b.trippedAt >= Cooldown(c) then (b.(mode := HalfOpen), true)
    else (b, false)
  }

  function Recent(failures: seq<nat>, c: BreakerCfg, now: nat): seq<nat> {
    if failures == [] then []
    else (if now - failures[0] < Span(c) then [failures[0]] else []) + Recent(failures[1..], c, now)
  }

  function RecordFailure(b: Breaker, c: BreakerCfg, now: nat): Breaker {
    var recent := Recent(b.failures, c, now) + [now];
    if b.mode == HalfOpen || |recent| >= MaxFailures(c)
    then Breaker(recent, Open, now)
    else b.(failures := recent)
  }

  function RecordSuccess(b: Breaker): Breaker { b.(failures := [], mode := Closed) }

  // ---------------------------------------------------------------- when it opens

  /** The failures that still count at a moment: those less than the span ago, which is 60 s by default. */
  function Counting(failures: seq<nat>, c: BreakerCfg, now: nat): set<int> {
    set k | 0 <= k < |failures| && now - failures[k] < (if c.windowSec <= 0 then 60 else c.windowSec)
  }

  lemma {:induction false} RecentSnoc(times: seq<nat>, t: nat, c: BreakerCfg, now: nat)
    ensures Recent(times + [t], c, now) == Recent(times, c, now) + (if now - t < Span(c) then [t] else [])
  {
    if times == [] {
      assert times + [t] == [t] && [t][1..] == [];
    } else {
      assert (times + [t])[1..] == times[1..] + [t];
      RecentSnoc(times[1..], t, c, now);
    }
  }

  lemma {:induction false} RecentCounts(failures: seq<nat>, c: BreakerCfg, now: nat)
    ensures |Recent(failures, c, now)| == |Counting(failures, c, now)|
  {
    var all := Counting(failures, c, now);
    if failures == [] {
      assert all == {};
    } else {
      var n := |failures| - 1;
      var front := failures[..n];
      assert failures == front + [failures[n]];
      RecentSnoc(front, failures[n], c, now);
      RecentCounts(front, c, now);
      hide Recent;
      assert all == Counting(front, c, now) + (if now - failures[n] < Span(c) then {n} else {});
    }
  }

  /** A failure opens a closed breaker exactly when, with it, enough failures still count, five by default; it opens a
      half-open one in any case. */
  lemma OpensIff(b: Breaker, c: BreakerCfg, now: nat)
    requires b.mode != Open
    ensures var b' := RecordFailure(b, c, now);
            && (b'.mode == Open <==>
                  b.mode == HalfOpen || |Counting(b.failures, c, now)| + 1 >= (if c.maxFailures <= 0 then 5 else c.maxFailures))
            && (b'.mode == Open ==> b'.trippedAt == now)
            && (b'.mode != Open ==> b'.mode == b.mode && b'.trippedAt == b.trippedAt)
  {
    RecentCounts(b.failures, c, now);
  }

  /** A breaker after failures at these times, from fresh and without a success. */
  function Failing(times: seq<nat>, c: BreakerCfg): Breaker {
    if times == [] then FRESH_BREAKER
    else RecordFailure(Failing(times[..|times| - 1], c), c, times[|times| - 1])
  }

  predicate InOrder(times: seq<nat>) { forall i, j :: 0 <= i <= j < |times| ==> times[i] <= times[j] }

  lemma {:induction false} RecentOfRecent(times: seq<nat>, c: BreakerCfg, before: nat, now: nat)
    requires before <= now
    ensures Recent(Recent(times, c, before), c, now) == Recent(times, c, now)
  {
    if times != [] {
      RecentOfRecent(times[1..], c, before, now);
      var rest := Recent(times[1..], c, before);
      if before - times[0] < Span(c) { assert ([times[0]] + rest)[1..] == rest; } else { assert [] + rest == rest; }
    }
  }

  /** Forgetting old failures loses nothing: what is kept is what counts of the whole history. */
  lemma {:induction false} KeepsWhatCounts(times: seq<nat>, c: BreakerCfg, now: nat)
    requires InOrder(times + [now])
    ensures Recent(Failing(times, c).failures, c, now) == Recent(times, c, now)
    decreases |times|
  {
    if times != [] {
      var front, t := times[..|times| - 1], times[|times| - 1];
      assert times == front + [t];
      assert (times + [now])[|times| - 1] == t && (times + [now])[|times|] == now;
      assert InOrder(front + [t]) by {
        forall i, j | 0 <= i <= j < |times| ensures times[i] <= times[j] {
          assert (times + [now])[i] == times[i] && (times + [now])[j] == times[j];
        }
      }
      KeepsWhatCounts(front, c, t);
      var kept := Recent(front, c, t);
      assert Failing(times, c).failures == kept + [t];
      RecentSnoc(kept, t, c, now);
      RecentSnoc(front, t, c, now);
      RecentOfRecent(front, c, t, now);
    }
  }

  /** Over any history of failures: the breaker is open exactly when some failure came with enough others, itself
      included, less than the span before it. */
  lemma {:induction false} OpensOnBurst(times: seq<nat>, c: BreakerCfg)
    requires InOrder(times)
    ensures Failing(times, c).mode != HalfOpen
    ensures Failing(times, c).mode == Open <==> Burst(times, c)
    decreases |times|
  {
    if times != [] {
      var front, t := times[..|times| - 1], times[|times| - 1];
      assert times == front + [t];
      OpensOnBurst(front, c);
      KeepsWhatCounts(front, c, t);
      RecentCounts(front, c, t);
      RecentCounts(Failing(front, c).failures, c, t);
      StaysOpen(Failing(front, c), c, t);
      if Failing(front, c).mode != Open { OpensIff(Failing(front, c), c, t); }
      hide RecordFailure, Recent, Counting;
      assert Failing(times, c) == RecordFailure(Failing(front, c), c, t);
      BurstNext(front, t, c);
    }
  }

  ghost predicate Burst(times: seq<nat>, c: BreakerCfg) {
    exists n :: 0 <= n < |times|
                && |Counting(times[..n], c, times[n])| + 1 >= (if c.maxFailures <= 0 then 5 else c.maxFailures)
  }

  lemma BurstNext(front: seq<nat>, t: nat, c: BreakerCfg)
    ensures Burst(front + [t], c) <==>
              Burst(front, c) || |Counting(front, c, t)| + 1 >= (if c.maxFailures <= 0 then 5 else c.maxFailures)
  {
    hide Counting;
    var times := front + [t];
    assert forall n :: 0 <= n < |front| ==> times[..n] == front[..n] && times[n] == front[n];
    assert times[..|front|] == front && times[|front|] == t;
    if Burst(front, c) {
      var n :| 0 <= n < |front| && |Counting(front[..n], c, front[n])| + 1 >= (if c.maxFailures <= 0 then 5 else c.maxFailures);
      assert |Counting(times[..n], c, times[n])| + 1 >= (if c.maxFailures <= 0 then 5 else c.maxFailures);
    }
    if |Counting(front, c, t)| + 1 >= (if c.maxFailures <= 0 then 5 else c.maxFailures) {
      assert |Counting(times[..|front|], c, times[|front|])| + 1 >= (if c.maxFailures <= 0 then 5 else c.maxFailures);
    }
  }

  lemma StaysOpen(b: Breaker, c: BreakerCfg, now: nat)
    ensures b.mode == Open ==> RecordFailure(b, c, now).mode == Open
  {}
}
