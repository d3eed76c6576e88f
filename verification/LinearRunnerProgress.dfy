/**
 Checkpoints keep up with the sink. What an observer of one run of the process sees (when a checkpoint was last saved,
 which batches the sink has accepted, how many of them since) bounds what a restart reads again.
 */
module LinearRunnerProgress {
  import opened CircuitBreaker
  import opened Prelude
  import opened LinearRunner
  import opened LinearRunnerSafety
  import opened LinearRunnerPositions

  // ---------------------------------------------------------------- what an observer sees

  predicate SavesFrom(log: seq<Entry>, n: nat) { exists k :: n <= k < |log| && log[k].Saved? }

  predicate DeliversFrom(log: seq<Entry>, n: nat) { exists k :: n <= k < |log| && log[k].Delivered? }

  /** Since the process started: when a checkpoint was last saved, how many batches the sink has accepted since, and
      the records of all the batches it has accepted. */
  datatype History = History(lastSave: Option<nat>, batches: nat, accepted: seq<nat>)

  const NOTHING_SEEN := History(None, 0, [])

  predicate AcceptedBetween(r: Runner, s: Runner, a: Answers) { a.sink.Accepts? && DeliversFrom(s.log, |r.log|) }

  function SeeSave(h: History, r: Runner, s: Runner): History {
    if SavesFrom(s.log, |r.log|) then h.(lastSave := Some(s.clock), batches := 0) else h
  }

  /** A commit that takes the runner from r to s. */
  function SeeCommit(h: History, r: Runner, s: Runner, a: Answers): History {
    SeeSave(if AcceptedBetween(r, s, a) then h.(batches := h.batches + 1, accepted := h.accepted + r.batch) else h, r, s)
  }

  function Taken(r: Runner): Runner
    requires r.queue != []
  {
    r.(batch := r.batch + [r.queue[0]], queue := r.queue[1..])
  }

  function SeeStep(h: History, r: Runner, cfg: Config, e: Event): History
    requires Enabled(r, cfg, e)
  {
    match e
    case Read => h
    case Take(a) =>
      if |r.batch| + 1 >= BatchSize(cfg) then SeeCommit(h, Taken(r), Commit(Taken(r), cfg, a, COMMIT_TIMEOUT), a) else h
    case Tick(a, b) =>
      var s := Commit(r, cfg, a, COMMIT_TIMEOUT);
      SeeSave(SeeCommit(h, r, s, a), s, FlushAt(s, cfg, b, false))
    case Stop(a, b) => SeeEnd(h, r, cfg, a, b)
    case Finish(a, b, _) => SeeEnd(h, r, cfg, a, b)
    case _ => NOTHING_SEEN
  }

  /** The last write and the save after it. */
  function SeeEnd(h: History, r: Runner, cfg: Config, a: Answers, b: Answers): History {
    var s := LastWrite(r, cfg, a);
    SeeSave(SeeCommit(h, r, s, a), s, FlushAt(s, cfg, b, true))
  }

  ghost function Observed(cfg: Config, es: seq<Event>): History
    requires IsRun(cfg, es)
  {
    if es == [] then NOTHING_SEEN
    else SeeStep(Observed(cfg, es[..|es| - 1]), After(cfg, es[..|es| - 1]), cfg, es[|es| - 1])
  }

  /** No record the sink has accepted is read again after a restart. */
  predicate CaughtUp(r: Runner, h: History) {
    r.pending == [] && forall k :: 0 <= k < |h.accepted| ==> h.accepted[k] < Durable(r.log)
  }

  /** The last save is less than the interval ago, which is 30 s by default, and fewer than ten batches have come since. */
  predicate JustSaved(r: Runner, h: History, cfg: Config) {
    && h.lastSave.Some? && h.batches < 10
    && r.clock - h.lastSave.value < (if cfg.interval == 0 then 30 else cfg.interval)
  }

  // ---------------------------------------------------------------- the runner's own records agree

  predicate Ascending(s: seq<nat>) { forall i, j :: 0 <= i < j < |s| ==> s[i] < s[j] }

  /** What waits for a save is the end of what was accepted; the rest is below the saved position. */
  predicate Accounted(r: Runner, accepted: seq<nat>) {
    && |r.pending| <= |accepted| && accepted[|accepted| - |r.pending|..] == r.pending
    && forall k :: 0 <= k < |accepted| - |r.pending| ==> accepted[k] < Durable(r.log)
  }

  predicate Below(s: seq<nat>, f: nat) { Ascending(s) && forall k :: 0 <= k < |s| ==> s[k] < f }

  predicate Watched(r: Runner, h: History, f: nat) {
    && Below(h.accepted, f)
    && (!r.blocked ==> r.lastSave == h.lastSave && r.unsaved == h.batches && Accounted(r, h.accepted))
  }

  /** No delivery, no save, and nothing touched but log, block, breaker, what a window holds and the clock. */
  predicate Aside(r: Runner, s: Runner) {
    && r.log <= s.log && !SavesFrom(s.log, |r.log|) && !DeliversFrom(s.log, |r.log|) && (r.blocked ==> s.blocked)
    && s == r.(log := s.log, blocked := s.blocked, breaker := s.breaker, held := s.held, clock := s.clock)
  }

  lemma AsideTwice(r: Runner, s: Runner, t: Runner)
    requires Aside(r, s) && Aside(s, t)
    ensures Aside(r, t)
  {
    assert forall k :: |r.log| <= k < |s.log| ==> t.log[k] == s.log[k];
  }

  lemma {:induction false} EachAside(r: Runner, cfg: Config, a: Answers, recs: seq<nat>)
    ensures Aside(r, HandleEach(r, cfg, a, recs))
    ensures !HandleEach(r, cfg, a, recs).blocked ==> AllTaken(cfg, a, recs)
    decreases |recs|
  {
    hide RecordFailure;
    if recs != [] {
      var r1 := HandleFailed(r, cfg, a, recs[0]);
      EachAside(r1, cfg, a, recs[1..]);
      AsideTwice(r, r1, HandleEach(r, cfg, a, recs));
      if !HandleEach(r, cfg, a, recs).blocked {
        forall k | 0 <= k < |recs| ensures DlqTakes(cfg, a, recs[k]) {
          if k > 0 { assert recs[k] == recs[1..][k - 1]; }
        }
      }
    }
  }

  lemma PassAside(r: Runner, cfg: Config, a: Answers, i: nat)
    ensures Aside(r, Pass(r, cfg, a, i))
    ensures !Pass(r, cfg, a, i).blocked && FateOf(a, i) == Broken ==> DlqTakes(cfg, a, i)
  {
    hide RecordFailure;
  }

  lemma {:induction false} TransformAside(r: Runner, cfg: Config, a: Answers, recs: seq<nat>)
    ensures Aside(r, Transform(r, cfg, a, recs))
    ensures !Transform(r, cfg, a, recs).blocked ==> AllTaken(cfg, a, Having(recs, a, Only(Broken)))
    decreases |recs|
  {
    hide Pass;
    if recs != [] {
      var r1 := Pass(r, cfg, a, recs[0]);
      PassAside(r, cfg, a, recs[0]);
      TransformAside(r1, cfg, a, recs[1..]);
      AsideTwice(r, r1, Transform(r, cfg, a, recs));
    }
  }

  lemma BeforeSinkAside(r: Runner, cfg: Config, a: Answers, batch: seq<nat>)
    ensures Aside(r, BeforeSink(r, cfg, a, batch))
    ensures !BeforeSink(r, cfg, a, batch).blocked && Having(batch, a, NotRejected) != [] && !ChainFailed(cfg, a, batch) ==>
              FlagSafe(cfg, a, batch, Input(r, a, batch))
  {
    hide HandleEach, Transform, Having, Input, ChainFailed, AllTaken;
    var accepted, input := Having(batch, a, NotRejected), Input(r, a, batch);
    var r1 := HandleEach(r, cfg, a, Having(batch, a, Only(Rejected)));
    EachAside(r, cfg, a, Having(batch, a, Only(Rejected)));
    var r2 := Absorb(r1, cfg, a, input);
    assert Aside(r1, r2);
    AsideTwice(r, r1, r2);
    EachAside(r2, cfg, a, accepted);
    AsideTwice(r, r2, HandleEach(r2, cfg, a, accepted));
    var r3 := Transform(r2, cfg, a, input);
    TransformAside(r2, cfg, a, input);
    AsideTwice(r, r2, r3);
    EachAside(r3, cfg, a, Having(input, a, Only(NoKey)));
    AsideTwice(r, r3, HandleEach(r3, cfg, a, Having(input, a, Only(NoKey))));
  }

  lemma AsideWatched(r: Runner, s: Runner, h: History, f: nat)
    requires Aside(r, s) && Watched(r, h, f)
    ensures Watched(s, h, f)
  {
    hide Durable;
    DurableExtend(r.log, s.log);
  }

  lemma AtBreakerAside(r: Runner, cfg: Config, a: Answers)
    ensures var s := AtBreaker(r, cfg, a);
            && Aside(r, s)
            && (!s.blocked && Having(r.batch, a, NotRejected) != [] && !ChainFailed(cfg, a, r.batch) ==>
                  FlagSafe(cfg, a, r.batch, Input(r, a, r.batch)))
  {
    hide BeforeSink, Having, ChainFailed, FlagSafe, SavesFrom, DeliversFrom;
    var r0 := r.(clock := a.now + a.early);
    BeforeSinkAside(r0, cfg, a, r.batch);
    assert Input(r0, a, r.batch) == Input(r, a, r.batch);
  }

  // ---------------------------------------------------------------- saves

  /** A save of records that end with the last one accepted, or lie beyond all of them, counts for all of them. */
  lemma SaveWatched(r: Runner, cfg: Config, a: Answers, processed: seq<nat>, h: History, f: nat)
    requires Watched(r, h, f) && a.at.None? && f <= r.next && processed != []
    requires forall k :: 0 <= k < |h.accepted| ==> h.accepted[k] <= processed[|processed| - 1]
    ensures var (s, ok) := Save(r, cfg, a, processed);
            && r.log <= s.log && !DeliversFrom(s.log, |r.log|)
            && Watched(s, SeeSave(h, r, s), f) && s.pending == r.pending
            && (ok ==> !s.blocked && forall k :: 0 <= k < |h.accepted| ==> h.accepted[k] < Durable(s.log))
            && (a.save == Saves && !s.blocked ==> ok)
            && s == r.(log := s.log, blocked := s.blocked, breaker := s.breaker, lastSave := s.lastSave, unsaved := s.unsaved)
  {
    hide Durable, RecordFailure, Ascending;
    var p := Position(r, cfg, a, processed);
    DurableSave(r.log, p);
    assert (r.log + [Saved(p)])[|r.log|].Saved?;
  }

  lemma LastIsHighest(accepted: seq<nat>, pending: seq<nat>)
    requires Ascending(accepted) && pending != [] && |pending| <= |accepted| && accepted[|accepted| - |pending|..] == pending
    ensures forall k :: 0 <= k < |accepted| ==> accepted[k] <= pending[|pending| - 1]
  {
    assert pending[|pending| - 1] == accepted[|accepted| - 1];
  }

  /** After a save that was asked for and worked, or was not due, the checkpoint has caught up or was just saved. */
  predicate KeptUp(r: Runner, h: History, cfg: Config) { CaughtUp(r, h) || JustSaved(r, h, cfg) }

  /** The step from r to s saves or does not, delivers nothing, and leaves what was read alone. */
  predicate OnlySaves(r: Runner, s: Runner) {
    && r.log <= s.log && !DeliversFrom(s.log, |r.log|) && (r.blocked ==> s.blocked)
    && s == r.(log := s.log, blocked := s.blocked, breaker := s.breaker, lastSave := s.lastSave, unsaved := s.unsaved,
               pending := s.pending)
  }

  lemma FlushWatched(r: Runner, cfg: Config, a: Answers, force: bool, h: History, f: nat)
    requires Watched(r, h, f) && a.at.None? && f <= r.next
    ensures var s := FlushPending(r, cfg, a, force);
            && OnlySaves(r, s) && Watched(s, SeeSave(h, r, s), f)
            && (a.save == Saves && !s.blocked ==> CaughtUp(s, h) || (!force && JustSaved(s, SeeSave(h, r, s), cfg)))
  {
    hide Durable, Save, Ascending;
    var s := FlushPending(r, cfg, a, force);
    if r.pending != [] && !r.blocked && (force || SaveDue(r, cfg)) {
      LastIsHighest(h.accepted, r.pending);
      SaveWatched(r, cfg, a, r.pending, h, f);
    } else if r.pending != [] && r.blocked && (force || SaveDue(r, cfg)) {
      BlockedSave(r, cfg, a, r.pending);
    } else {
      assert s == r && !SavesFrom(s.log, |r.log|);
    }
  }

  lemma BlockedSave(r: Runner, cfg: Config, a: Answers, processed: seq<nat>)
    requires r.blocked
    ensures var (s, ok) := Save(r, cfg, a, processed); !ok && s == r.(breaker := s.breaker)
  {
    hide RecordFailure;
  }

  // ---------------------------------------------------------------- one commit

  lemma Joined(accepted: seq<nat>, batch: seq<nat>, f: nat)
    requires Below(accepted, f) && forall k :: 0 <= k < |batch| ==> batch[k] == f + k
    ensures Below(accepted + batch, f + |batch|)
  {}

  /** The batch is in the sink and waits for its save. */
  lemma QueuedWatched(r: Runner, h: History, batch: seq<nat>, f: nat)
    requires Watched(r, h, f) && forall k :: 0 <= k < |batch| ==> batch[k] == f + k
    ensures Watched(r.(unsaved := r.unsaved + 1, pending := r.pending + batch),
                    h.(batches := h.batches + 1, accepted := h.accepted + batch), f + |batch|)
  {
    hide Durable, Below;
    Joined(h.accepted, batch, f);
    assert !r.blocked ==> (h.accepted + batch)[|h.accepted + batch| - |r.pending + batch|..] == r.pending + batch;
  }

  lemma EnqueueWatched(r: Runner, cfg: Config, a: Answers, batch: seq<nat>, h: History, f: nat)
    requires Watched(r, h, f) && a.at.None? && f + |batch| <= r.next && forall k :: 0 <= k < |batch| ==> batch[k] == f + k
    ensures var s, h1 := Enqueue(r, cfg, a, batch), h.(batches := h.batches + 1, accepted := h.accepted + batch);
            && OnlySaves(r, s) && Watched(s, SeeSave(h1, r, s), f + |batch|)
            && (a.save == Saves && !s.blocked ==> KeptUp(s, SeeSave(h1, r, s), cfg))
  {
    hide Durable, FlushPending, Below, Accounted;
    var h1 := h.(batches := h.batches + 1, accepted := h.accepted + batch);
    var r1 := r.(unsaved := r.unsaved + 1, pending := r.pending + batch);
    QueuedWatched(r, h, batch, f);
    FlushWatched(r1, cfg, a, true, h1, f + |batch|);
  }

  lemma FromLater(log: seq<Entry>, mid: seq<Entry>, end: seq<Entry>)
    requires log <= mid <= end
    ensures !SavesFrom(mid, |log|) ==> (SavesFrom(end, |log|) <==> SavesFrom(end, |mid|))
    ensures !DeliversFrom(mid, |log|) ==> (DeliversFrom(end, |log|) <==> DeliversFrom(end, |mid|))
    ensures DeliversFrom(mid, |log|) ==> DeliversFrom(end, |log|)
  {
    assert forall k :: |log| <= k < |mid| ==> end[k] == mid[k];
  }

  lemma LandedFrom(r: Runner, cfg: Config, survivors: seq<nat>)
    requires survivors != []
    ensures var s := Landed(r, cfg, survivors); r.log <= s.log && !SavesFrom(s.log, |r.log|) && DeliversFrom(s.log, |r.log|)
  {
    var s := Landed(r, cfg, survivors);
    assert s.log[|r.log|] == Delivered(survivors[0]);
  }

  lemma LandedWatched(r: Runner, cfg: Config, survivors: seq<nat>, h: History, f: nat)
    requires Watched(r, h, f)
    ensures Watched(Landed(r, cfg, survivors), h, f)
  {
    hide Durable;
    DurableExtend(r.log, Landed(r, cfg, survivors).log);
  }

  /** What a commit leaves alone. */
  predicate Commits(r: Runner, s: Runner) {
    r.log <= s.log && s.up == r.up && s.next == r.next && s.queue == r.queue && (r.blocked ==> s.blocked)
  }

  lemma AcceptedWatched(r: Runner, cfg: Config, a: Answers, input: seq<nat>, h: History, f: nat)
    requires Watched(r, h, f) && a.at.None? && a.sink.Accepts? && Survivors(cfg, a, input) != []
    requires r.blocked || FlagSafe(cfg, a, r.batch, input)
    requires f + |r.batch| <= r.next && forall k :: 0 <= k < |r.batch| ==> r.batch[k] == f + k
    ensures var s := Accepted(r, cfg, a, r.batch, input);
            && Commits(r, s) && AcceptedBetween(r, s, a) && Watched(s, SeeCommit(h, r, s, a), f + |r.batch|)
            && (a.save == Saves && !s.blocked ==> KeptUp(s, SeeCommit(h, r, s, a), cfg))
  {
    hide Durable, Survivors, FlagSafe, Enqueue, Below, Accounted, SavesFrom, DeliversFrom, CaughtUp;
    var survivors := Survivors(cfg, a, input);
    var r1 := Landed(r, cfg, survivors);
    LandedFrom(r, cfg, survivors);
    LandedWatched(r, cfg, survivors, h, f);
    var s := Accepted(r, cfg, a, r.batch, input);
    EnqueueWatched(r1, cfg, a, r.batch, h, f);
    FromLater(r.log, r1.log, s.log);
    Joined(h.accepted, r.batch, f);
  }

  lemma RefusedAside(r: Runner, cfg: Config, a: Answers, survivors: seq<nat>)
    requires a.sink.Refuses?
    ensures var s := Refused(r, cfg, a, survivors);
            && Commits(r, s) && !SavesFrom(s.log, |r.log|)
            && s == r.(log := s.log, blocked := s.blocked, breaker := s.breaker)
  {
    hide HandleEach, AfterRefusal;
    var (good, bad) := AfterRefusal(a.sink, survivors);
    var r0 := Trip(r, cfg);
    HandleEachCovers(r0.(log := r0.log + Deliveries(good)), cfg, a, bad);
  }

  lemma RefusedWatched(r: Runner, cfg: Config, a: Answers, survivors: seq<nat>, h: History, f: nat)
    requires Watched(r, h, f) && a.sink.Refuses?
    ensures var s := Refused(r, cfg, a, survivors); Commits(r, s) && Watched(s, SeeCommit(h, r, s, a), f)
  {
    hide Durable, Refused, SavesFrom;
    RefusedAside(r, cfg, a, survivors);
    assert forall k :: |r.log| <= k < |Refused(r, cfg, a, survivors).log| ==> !Refused(r, cfg, a, survivors).log[k].Saved? by {
      NoSaves(Refused(r, cfg, a, survivors).log, |r.log|);
    }
    DurableExtend(r.log, Refused(r, cfg, a, survivors).log);
  }

  lemma NoSaves(log: seq<Entry>, n: nat)
    requires !SavesFrom(log, n)
    ensures forall k :: n <= k < |log| ==> !log[k].Saved?
  {}

  lemma Higher(h: History, f: nat, g: nat)
    requires Below(h.accepted, f) && f <= g
    ensures Below(h.accepted, g)
  {}

  lemma SinkWatched(r: Runner, cfg: Config, a: Answers, input: seq<nat>, h: History, f: nat)
    requires Watched(r, h, f) && a.at.None? && Survivors(cfg, a, input) != []
    requires r.blocked || FlagSafe(cfg, a, r.batch, input)
    requires f + |r.batch| <= r.next && forall k :: 0 <= k < |r.batch| ==> r.batch[k] == f + k
    ensures var s := WriteSink(PastBreaker(r, cfg, a), cfg, a, r.batch, input);
            && Commits(r, s) && Watched(s, SeeCommit(h, r, s, a), f + |r.batch|)
            && (AcceptedBetween(r, s, a) && a.save == Saves && !s.blocked ==> KeptUp(s, SeeCommit(h, r, s, a), cfg))
  {
    hide Durable, Survivors, FlagSafe, Accepted, Refused, Below, Accounted, SavesFrom, DeliversFrom, CaughtUp, JustSaved;
    var r1 := PastBreaker(r, cfg, a);
    assert Watched(r1, h, f) by { assert Accounted(r, h.accepted) ==> Accounted(r1, h.accepted) by { SameAccount(r, r1, h.accepted); } }
    if a.sink.Refuses? {
      RefusedWatched(r1, cfg, a, Survivors(cfg, a, input), h, f);
      Higher(h, f, f + |r.batch|);
    } else {
      AcceptedWatched(r1, cfg, a, input, h, f);
    }
  }

  lemma SameAccount(r: Runner, s: Runner, accepted: seq<nat>)
    requires s.pending == r.pending && s.log == r.log
    ensures Accounted(r, accepted) ==> Accounted(s, accepted)
  {}

  /** The history of a commit seen from where it began, or from just before the sink was asked. */
  lemma SeenFromBreaker(h: History, r: Runner, r1: Runner, s: Runner, a: Answers)
    requires Aside(r, r1) && r1.log <= s.log
    ensures SeeCommit(h, r, s, a) == SeeCommit(h, r1, s, a) && (AcceptedBetween(r, s, a) <==> AcceptedBetween(r1, s, a))
  {
    hide SavesFrom, DeliversFrom;
    FromLater(r.log, r1.log, s.log);
  }

  lemma SurvivorsAccepted(r: Runner, cfg: Config, a: Answers, batch: seq<nat>)
    requires Survivors(cfg, a, Input(r, a, batch)) != []
    ensures Having(batch, a, NotRejected) != []
  {}

  lemma WriteBatchWatched(r: Runner, cfg: Config, a: Answers, budget: nat, h: History, f: nat)
    requires Watched(r, h, f) && a.at.None? && r.batch != []
    requires f + |r.batch| <= r.next && forall k :: 0 <= k < |r.batch| ==> r.batch[k] == f + k
    ensures var s := WriteBatch(r, cfg, a, budget);
            && Commits(r, s) && Watched(s, SeeCommit(h, r, s, a), f + |r.batch|)
            && (AcceptedBetween(r, s, a) && a.save == Saves && !s.blocked ==> KeptUp(s, SeeCommit(h, r, s, a), cfg))
  {
    hide AtBreaker, Survivors, EmptyMaySave, Save, Input, ChainFailed, FlagSafe, WriteSink, PastBreaker, Abandons, Having;
    hide Durable, Below, Accounted, KeptUp, SavesFrom, DeliversFrom;
    var r1, input, g := AtBreaker(r, cfg, a), Input(r, a, r.batch), f + |r.batch|;
    var s := WriteBatch(r, cfg, a, budget);
    AtBreakerAside(r, cfg, a);
    AsideWatched(r, r1, h, f);
    if ChainFailed(cfg, a, r.batch) {
      Untouched(r1, s, a, h, f, g);
    } else if Survivors(cfg, a, input) == [] {
      if EmptyMaySave(cfg, a, r.batch, input) { EmptySaved(r1, cfg, a, h, f, g); } else { Untouched(r1, s, a, h, f, g); }
    } else if Abandons(r1, cfg, a, budget) {
      Untouched(r1, s, a, h, f, g);
    } else {
      SurvivorsAccepted(r, cfg, a, r.batch);
      SinkWatched(r1, cfg, a, input, h, f);
    }
    SeenFromBreaker(h, r, r1, s, a);
  }

  lemma Untouched(r: Runner, s: Runner, a: Answers, h: History, f: nat, g: nat)
    requires Watched(r, h, f) && s == r.(clock := s.clock) && f <= g
    ensures Commits(r, s) && Watched(s, SeeCommit(h, r, s, a), g) && !AcceptedBetween(r, s, a)
  {
    hide Durable, Below;
    Higher(h, f, g);
  }

  lemma EmptySaved(r: Runner, cfg: Config, a: Answers, h: History, f: nat, g: nat)
    requires Watched(r, h, f) && a.at.None? && r.batch != [] && g == f + |r.batch| <= r.next
    requires forall k :: 0 <= k < |r.batch| ==> r.batch[k] == f + k
    ensures var s := Save(r, cfg, a, r.batch).0;
            Commits(r, s) && Watched(s, SeeCommit(h, r, s, a), g) && !AcceptedBetween(r, s, a)
  {
    hide Durable, Save, Accounted, SavesFrom;
    if r.blocked { BlockedSave(r, cfg, a, r.batch); }
    SaveWatched(r, cfg, a, r.batch, h, f);
    Higher(h, f, g);
  }

  lemma CommitWatched(r: Runner, cfg: Config, a: Answers, budget: nat, h: History, f: nat)
    requires Watched(r, h, f) && Flowing(r, f) && a.at.None?
    ensures var s, g := Commit(r, cfg, a, budget), f + |r.batch|;
            && Commits(r, s) && s.batch == [] && Flowing(s, g) && Watched(s, SeeCommit(h, r, s, a), g)
            && (AcceptedBetween(r, s, a) && a.save == Saves && !s.blocked ==> KeptUp(s, SeeCommit(h, r, s, a), cfg))
  {
    hide WriteBatch, Range, Durable, Below, SavesFrom, DeliversFrom;
    FlowingSplit(r, f);
    if r.batch == [] {
      assert Watched(r, SeeCommit(h, r, r, a), f) && !AcceptedBetween(r, r, a) by { Untouched(r, r, a, h, f, f); }
    } else {
      WriteBatchWatched(r, cfg, a, budget, h, f);
    }
  }

  // ---------------------------------------------------------------- runs

  /** The run so far, observed from outside, agrees with what the runner keeps. */
  ghost predicate Followed(r: Runner, h: History) {
    r.up ==> exists f: nat :: Flowing(r, f) && Watched(r, h, f)
  }

  lemma TakeFollowed(r: Runner, cfg: Config, a: Answers, h: History)
    requires Enabled(r, cfg, Take(a)) && Followed(r, h)
    ensures var s, h' := Step(r, cfg, Take(a)), SeeStep(h, r, cfg, Take(a));
            && Followed(s, h')
            && (h'.accepted != h.accepted && a.save == Saves && !s.blocked ==> KeptUp(s, h', cfg))
  {
    hide Commit, Durable, Below, KeptUp, AcceptedBetween, Accounted, SavesFrom;
    var f: nat :| Flowing(r, f) && Watched(r, h, f);
    var r1 := Taken(r);
    assert r1.batch + r1.queue == r.batch + r.queue;
    assert Flowing(r1, f);
    assert Watched(r1, h, f) by { SameAccount(r, r1, h.accepted); }
    if |r1.batch| >= BatchSize(cfg) {
      CommitWatched(r1, cfg, a, COMMIT_TIMEOUT, h, f);
      assert Flowing(Step(r, cfg, Take(a)), f + |r1.batch|);
    }
  }

  lemma TickFollowed(r: Runner, cfg: Config, a: Answers, b: Answers, h: History)
    requires Enabled(r, cfg, Tick(a, b)) && Followed(r, h)
    ensures var s, h' := Step(r, cfg, Tick(a, b)), SeeStep(h, r, cfg, Tick(a, b));
            Followed(s, h') && (b.save == Saves && !s.blocked ==> KeptUp(s, h', cfg))
  {
    hide Commit, FlushPending, Durable, Below, Accounted, SavesFrom, DeliversFrom, CaughtUp, JustSaved;
    var f: nat :| Flowing(r, f) && Watched(r, h, f);
    var s, g := Commit(r, cfg, a, COMMIT_TIMEOUT), f + |r.batch|;
    CommitWatched(r, cfg, a, COMMIT_TIMEOUT, h, f);
    var h1, s1 := SeeCommit(h, r, s, a), s.(clock := b.now);
    assert Watched(s1, h1, g) by { SameAccount(s, s1, h1.accepted); }
    FlushWatched(s1, cfg, b, false, h1, g);
    var t := FlushPending(s1, cfg, b, false);
    assert SeeSave(h1, s, t) == SeeSave(h1, s1, t);
    SameAccepted(h1, s1, t);
    assert Flowing(t, g);
  }

  lemma SameAccepted(h: History, r: Runner, s: Runner)
    ensures CaughtUp(s, h) ==> CaughtUp(s, SeeSave(h, r, s))
  {}

  /** The last save leaves nothing behind: what the sink has accepted is not read again. */
  lemma EndCaughtUp(r: Runner, cfg: Config, a: Answers, b: Answers, h: History)
    requires r.up && a.at.None? && b.at.None? && Followed(r, h) && b.save == Saves && !Shutdown(r, cfg, a, b).blocked
    ensures CaughtUp(Shutdown(r, cfg, a, b), SeeEnd(h, r, cfg, a, b))
  {
    hide Commit, FlushPending, Durable, Below, Accounted, SavesFrom, DeliversFrom, JustSaved;
    var f: nat :| Flowing(r, f) && Watched(r, h, f);
    var r0 := if r.batch == [] then r else r.(unsaved := SAVE_EVERY);
    var h0 := h.(batches := r0.unsaved);
    assert Watched(r0, h0, f) by { SameAccount(r, r0, h.accepted); }
    CommitWatched(r0, cfg, a, SHUTDOWN_TIMEOUT, h0, f);
    var s, g := LastWrite(r, cfg, a), f + |r.batch|;
    var h1, s1 := SeeCommit(h0, r0, s, a), s.(clock := b.now);
    assert Watched(s1, h1, g) by { SameAccount(s, s1, h1.accepted); }
    FlushWatched(s1, cfg, b, true, h1, g);
    assert SeeEnd(h, r, cfg, a, b).accepted == h1.accepted;
  }

  lemma {:induction false} RunFollowed(cfg: Config, es: seq<Event>)
    requires IsRun(cfg, es)
    ensures Followed(After(cfg, es), Observed(cfg, es))
  {
    if es != [] {
      var shorter := es[..|es| - 1];
      RunFollowed(cfg, shorter);
      StepFollowed(After(cfg, shorter), cfg, es[|es| - 1], Observed(cfg, shorter));
    }
  }

  lemma StepFollowed(r: Runner, cfg: Config, e: Event, h: History)
    requires Enabled(r, cfg, e) && Followed(r, h)
    ensures Followed(Step(r, cfg, e), SeeStep(h, r, cfg, e))
  {
    var s := Step(r, cfg, e);
    if e.Take? { TakeFollowed(r, cfg, e.a, h); }
    else if e.Tick? { TickFollowed(r, cfg, e.a, e.b, h); }
    else if e.Start? { assert Flowing(s, Durable(r.log)) && Watched(s, NOTHING_SEEN, Durable(r.log)); }
    else if e.Read? {
      hide Durable;
      var f: nat :| Flowing(r, f) && Watched(r, h, f);
      assert s.batch + s.queue == (r.batch + r.queue) + [r.next] == Range(f, s.next);
      assert Flowing(s, f) && Watched(s, h, f);
    }
  }

  /**
   * In every run, while checkpoints are not blocked and the store takes them: after each accepted batch and each tick
   * of the timer, either a restart would read nothing again that the sink has accepted, or the last save is less than
   * the interval ago with fewer than ten batches accepted since; and after a stop or the end of the source it would
   * read nothing again.
   */
  lemma CheckpointsKeepUp(cfg: Config, es: seq<Event>, e: Event)
    requires IsRun(cfg, es) && Enabled(After(cfg, es), cfg, e) && !Step(After(cfg, es), cfg, e).blocked
    ensures var r, h := After(cfg, es), Observed(cfg, es);
            var s, h' := Step(r, cfg, e), SeeStep(h, r, cfg, e);
            && (e.Take? && h'.accepted != h.accepted && e.a.save == Saves ==> CaughtUp(s, h') || JustSaved(s, h', cfg))
            && (e.Tick? && e.b.save == Saves ==> CaughtUp(s, h') || JustSaved(s, h', cfg))
            && ((e.Stop? || (e.Finish? && cfg.window == NoWindow)) && e.b.save == Saves ==> CaughtUp(s, h'))
  {
    var r, h := After(cfg, es), Observed(cfg, es);
    RunFollowed(cfg, es);
    if e.Finish? && cfg.window == NoWindow { NothingHeld(cfg, es); StepHoldsNothing(r, cfg, e); }
    hide Followed, CaughtUp, JustSaved, SeeEnd, LastWrite, Commit, FlushAt, IsRun;
    if e.Take? { TakeFollowed(r, cfg, e.a, h); }
    else if e.Tick? { TickFollowed(r, cfg, e.a, e.b, h); }
    else if (e.Stop? || (e.Finish? && cfg.window == NoWindow)) && e.b.save == Saves {
      EndCaughtUp(r, cfg, e.a, e.b, h);
      EndSame(r, cfg, e, SeeEnd(h, r, cfg, e.a, e.b));
    }
  }

  lemma EndSame(r: Runner, cfg: Config, e: Event, h: History)
    requires Enabled(r, cfg, e) && (e.Stop? || (e.Finish? && Shutdown(r, cfg, e.a, e.b).held == []))
    ensures Step(r, cfg, e).blocked == Shutdown(r, cfg, e.a, e.b).blocked
    ensures CaughtUp(Shutdown(r, cfg, e.a, e.b), h) ==> CaughtUp(Step(r, cfg, e), h)
  {
    hide Shutdown, Durable;
  }
}
