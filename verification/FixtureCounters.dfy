/** The enrichment fixture: handler threads sharing an in-flight counter, its peak and call counts, under two locks. */
module FixtureCounters {
  import opened Prelude

  datatype Kind = Users | Throttle | Fail500 | Mixed | Missing | Slow | Unknown

  /** Where a handler stands; a plain increment is a read and a write. */
  datatype Phase =
    | Waiting           // before taking the in-flight lock
    | Entering          // holds it
    | Loaded(n: int)    // has read the counter
    | Stored            // has written it back raised
    | Entered           // has brought the peak up to date
    | Handling          // released the lock
    | Recording         // holds the call-count lock
    | Counted(c: nat)   // has read the count of its key
    | Recorded          // has written it back raised
    | Answering         // released the lock, or never took it
    | Leaving           // holds the in-flight lock again
    | Lowering(m: int)  // has read the counter
    | Lowered           // has written it back lowered
    | Gone

  datatype Thread = Thread(kind: Kind, key: string, phase: Phase)
  datatype Call = Call(kind: Kind, key: string, number: nat)

  datatype State = State(threads: map<nat, Thread>, inflight: int, peak: int, counts: map<string, nat>,
                         lock: Option<nat>, countLock: Option<nat>, calls: seq<Call>)

  const START := State(map[], 0, 0, map[], None, None, [])

  datatype Event = Arrive(t: nat, kind: Kind, key: string) | Move(t: nat) | Raise(t: nat)

  predicate Records(kind: Kind) { kind != Unknown }

  function Count(s: State, key: string): nat { if key in s.counts then s.counts[key] else 0 }

  /** Arrivals are new threads, a lock is taken only when free, and an exception can break off the handling. */
  predicate Enabled(s: State, e: Event) {
    match e
    case Arrive(t, _, _) => t !in s.threads
    case Raise(t) => t in s.threads && s.threads[t].phase.Handling?
    case Move(t) =>
      t in s.threads && !s.threads[t].phase.Gone?
      && (s.threads[t].phase.Waiting? || s.threads[t].phase.Answering? ==> s.lock.None?)
      && (s.threads[t].phase.Handling? && Records(s.threads[t].kind) ==> s.countLock.None?)
  }

  function At(s: State, t: nat, p: Phase): State
    requires t in s.threads
  {
    s.(threads := s.threads[t := s.threads[t].(phase := p)])
  }

  function Step(s: State, e: Event): State
    requires Enabled(s, e)
  {
    match e
    case Arrive(t, kind, key) => s.(threads := s.threads[t := Thread(kind, key, Waiting)])
    case Raise(t) => At(s, t, Answering)
    case Move(t) =>
      var th := s.threads[t];
      match th.phase
      case Waiting => At(s, t, Entering).(lock := Some(t))
      case Entering => At(s, t, Loaded(s.inflight))
      case Loaded(n) => At(s, t, Stored).(inflight := n + 1)
      case Stored => At(s, t, Entered).(peak := if s.inflight > s.peak then s.inflight else s.peak)
      case Entered => At(s, t, Handling).(lock := None)
      case Handling =>
        if Records(th.kind) then At(s, t, Recording).(countLock := Some(t)) else At(s, t, Answering)
      case Recording => At(s, t, Counted(Count(s, th.key)))
      case Counted(c) => At(s, t, Recorded).(counts := s.counts[th.key := c + 1])
      case Recorded =>
        At(s, t, Answering).(countLock := None, calls := s.calls + [Call(th.kind, th.key, Count(s, th.key))])
      case Answering => At(s, t, Leaving).(lock := Some(t))
      case Leaving => At(s, t, Lowering(s.inflight))
      case Lowering(m) => At(s, t, Lowered).(inflight := m - 1)
      case Lowered => At(s, t, Gone).(lock := None)
      case Gone => s
  }

  predicate IsRun(events: seq<Event>)
    decreases |events|, 0
  {
    events != [] ==>
      var front := events[..|events| - 1];
      IsRun(front) && Enabled(After(front), events[|events| - 1])
  }

  function After(events: seq<Event>): State
    requires IsRun(events)
    decreases |events|, 1
  {
    if events == [] then START else Step(After(events[..|events| - 1]), events[|events| - 1])
  }

  // ---------------------------------------------------------------- who is in flight

  /** Between the increment and the decrement. */
  predicate InFlight(p: Phase) {
    p.Stored? || p.Entered? || p.Handling? || p.Recording? || p.Counted? || p.Recorded? || p.Answering? || p.Leaving? || p.Lowering?
  }

  function Flying(s: State): set<nat> { set t | t in s.threads && InFlight(s.threads[t].phase) }

  /** The largest number in flight at once, over the whole history. */
  function Most(events: seq<Event>): nat
    requires IsRun(events)
  {
    var now := |Flying(After(events))|;
    if events == [] then now else Max(Most(events[..|events| - 1]), now)
  }

  predicate Locks(p: Phase) {
    p.Entering? || p.Loaded? || p.Stored? || p.Entered? || p.Leaving? || p.Lowering? || p.Lowered?
  }

  predicate CountLocks(p: Phase) { p.Recording? || p.Counted? || p.Recorded? }

  /** Each lock has the one owner that stands inside it. */
  predicate Owned(s: State) {
    && (forall t :: t in s.threads ==> (Locks(s.threads[t].phase) <==> s.lock == Some(t)))
    && (forall t :: t in s.threads ==> (CountLocks(s.threads[t].phase) <==> s.countLock == Some(t)))
    && (s.lock.Some? ==> s.lock.value in s.threads) && (s.countLock.Some? ==> s.countLock.value in s.threads)
  }

  /** What the owner of the in-flight lock has read is still the counter. */
  predicate Fresh(s: State) {
    && (forall t :: t in s.threads && s.threads[t].phase.Loaded? ==> s.threads[t].phase.n == s.inflight)
    && (forall t :: t in s.threads && s.threads[t].phase.Lowering? ==> s.threads[t].phase.m == s.inflight)
  }

  predicate Tallied(s: State) { s.inflight == |Flying(s)| }

  /** Some handler has raised the counter and not yet compared it with the peak. */
  predicate Behind(s: State) { s.lock.Some? && s.lock.value in s.threads && s.threads[s.lock.value].phase.Stored? }

  /** A step moves one thread and leaves every other where it is. */
  lemma StepMovesOne(s: State, e: Event)
    requires Enabled(s, e)
    ensures var s' := Step(s, e);
            e.t in s'.threads && s'.threads.Keys == s.threads.Keys + {e.t}
            && forall u :: u in s.threads && u != e.t ==> s'.threads[u] == s.threads[u]
  {}

  function PhaseOf(s: State, t: nat): Phase { if t in s.threads then s.threads[t].phase else Gone }

  /** How a step can change a lock: not at all, take it when free, give it back. */
  predicate LockMove(was: Option<nat>, now: Option<nat>, t: nat, inside: bool, stays: bool) {
    || (now == was && inside == stays)
    || (was.None? && now == Some(t) && stays)
    || (was == Some(t) && now.None? && !stays)
  }

  lemma StepLocks(s: State, e: Event)
    requires Owned(s) && Enabled(s, e)
    ensures LockMove(s.lock, Step(s, e).lock, e.t, Locks(PhaseOf(s, e.t)), Locks(Step(s, e).threads[e.t].phase))
    ensures LockMove(s.countLock, Step(s, e).countLock, e.t, CountLocks(PhaseOf(s, e.t)), CountLocks(Step(s, e).threads[e.t].phase))
  {}

  lemma StepKeepsOwned(s: State, e: Event)
    requires Owned(s) && Enabled(s, e)
    ensures Owned(Step(s, e))
  {
    StepMovesOne(s, e);
    StepLocks(s, e);
    hide Step, Enabled, Locks, CountLocks;
    assert PhaseOf(s, e.t).Gone? ==> !Locks(Gone) && !CountLocks(Gone) by { GoneLocksNothing(); }
  }

  lemma GoneLocksNothing()
    ensures !Locks(Gone) && !CountLocks(Gone)
  {}

  lemma StepFlight(s: State, e: Event)
    requires Enabled(s, e)
    ensures var p := PhaseOf(s, e.t);
            InFlight(Step(s, e).threads[e.t].phase) ==
            if e.Move? && p.Loaded? then true else if e.Move? && p.Lowering? then false else InFlight(p)
  {}

  /** Moving one thread into flight, out of it, or neither. */
  lemma FlyingMoves(s: State, s': State, t: nat)
    requires t in s'.threads && s'.threads.Keys == s.threads.Keys + {t}
    requires forall u :: u in s.threads && u != t ==> s'.threads[u] == s.threads[u]
    ensures var was, now := InFlight(PhaseOf(s, t)), InFlight(s'.threads[t].phase);
            |Flying(s')| == |Flying(s)| + (if now && !was then 1 else if was && !now then -1 else 0)
  {
    assert !InFlight(Gone);
    hide InFlight;
    assert t in Flying(s) <==> InFlight(PhaseOf(s, t));
    assert t in Flying(s') <==> InFlight(s'.threads[t].phase);
    SameOthers(s, s', t);
    hide Flying;
    Without(Flying(s), t);
    Without(Flying(s'), t);
  }

  lemma SameOthers(s: State, s': State, t: nat)
    requires t in s'.threads && s'.threads.Keys == s.threads.Keys + {t}
    requires forall u :: u in s.threads && u != t ==> s'.threads[u] == s.threads[u]
    ensures Flying(s') - {t} == Flying(s) - {t}
  {
    hide InFlight;
    forall u | u != t ensures u in Flying(s') <==> u in Flying(s) { assert u in s'.threads.Keys <==> u in s.threads.Keys; }
  }

  lemma Without(ts: set<nat>, t: nat)
    ensures |ts| == |ts - {t}| + if t in ts then 1 else 0
  {
    if t in ts { assert ts == (ts - {t}) + {t}; } else { assert ts == ts - {t}; }
  }

  /** The number in flight moves by one where the counter does, and nowhere else. */
  lemma FlyingStep(s: State, e: Event)
    requires Enabled(s, e)
    ensures var p := if e.Move? then PhaseOf(s, e.t) else Gone;
            |Flying(Step(s, e))| == |Flying(s)| + (if p.Loaded? then 1 else if p.Lowering? then -1 else 0)
  {
    StepMovesOne(s, e);
    StepFlight(s, e);
    hide Step, Enabled, Flying;
    FlyingMoves(s, Step(s, e), e.t);
  }

  lemma StepKeepsTally(s: State, e: Event)
    requires Owned(s) && Fresh(s) && Tallied(s) && Enabled(s, e)
    ensures Tallied(Step(s, e)) && Fresh(Step(s, e))
  {
    FlyingStep(s, e);
    hide Flying;
  }

  /** The peak against the history: exact, unless a handler is between its increment and its comparison. */
  predicate PeakKept(s: State, most: nat) {
    if Behind(s) then most == Max(s.peak, s.inflight) else most == s.peak
  }

  lemma StepKeepsPeak(s: State, e: Event, most: nat)
    requires Owned(s) && Fresh(s) && Tallied(s) && Enabled(s, e) && PeakKept(s, most) && s.inflight <= most
    ensures PeakKept(Step(s, e), Max(most, |Flying(Step(s, e))|))
  {
    FlyingStep(s, e);
    StepKeepsTally(s, e);
    hide Flying;
  }

  lemma {:induction false} RunTally(events: seq<Event>)
    requires IsRun(events)
    ensures var s := After(events);
            Owned(s) && Fresh(s) && Tallied(s) && PeakKept(s, Most(events)) && s.inflight <= Most(events)
  {
    if events == [] {
      assert Flying(START) == {};
    } else {
      var front, e := events[..|events| - 1], events[|events| - 1];
      RunTally(front);
      hide Owned, Fresh, PeakKept, Flying, Step, Enabled;
      StepKeepsOwned(After(front), e);
      StepKeepsTally(After(front), e);
      StepKeepsPeak(After(front), e, Most(front));
    }
  }

  /** In every interleaving: the counter is the number in flight, and the peak at most one comparison behind its maximum. */
  lemma CountersAreExact(events: seq<Event>)
    requires IsRun(events)
    ensures var s := After(events);
            && s.inflight == |Flying(s)|
            && s.peak <= Most(events) <= s.peak + 1
            && (s.peak == Most(events) <==> !(Behind(s) && s.inflight > s.peak))
            && ((forall t :: t in s.threads ==> s.threads[t].phase.Gone?) ==> s.inflight == 0 && s.peak == Most(events))
  {
    RunTally(events);
    var s := After(events);
    if forall t :: t in s.threads ==> s.threads[t].phase.Gone? { assert Flying(s) == {}; }
    PeakLagsByOne(events);
  }

  lemma Extended(events: seq<Event>, e: Event)
    requires IsRun(events) && Enabled(After(events), e)
    ensures IsRun(events + [e]) && After(events + [e]) == Step(After(events), e)
  {
    hide Enabled, Step;
    assert (events + [e])[..|events|] == events;
  }

  /** And it does fall behind: whenever the lock is free and nobody has left since the peak, the next handler to arrive
      raises the counter past a peak that a reader still sees unraised. */
  lemma PeakFallsBehind(events: seq<Event>, t: nat, kind: Kind, key: string)
    requires IsRun(events) && t !in After(events).threads
    requires After(events).lock.None? && After(events).inflight == After(events).peak
    ensures var longer := events + [Arrive(t, kind, key)] + [Move(t)] + [Move(t)] + [Move(t)];
            && IsRun(longer) && After(longer).peak == After(events).peak && Most(longer) == After(longer).peak + 1
  {
    hide IsRun, After, Most;
    var s := After(events);
    Extended(events, Arrive(t, kind, key));
    var a := events + [Arrive(t, kind, key)];
    Extended(a, Move(t));
    var b := a + [Move(t)];
    Extended(b, Move(t));
    var c := b + [Move(t)];
    Extended(c, Move(t));
    var d := c + [Move(t)];
    assert Behind(After(d)) && After(d).inflight == s.inflight + 1 && After(d).peak == s.peak;
    CountersAreExact(d);
  }

  lemma StepLagsByOne(s: State, e: Event, most: nat)
    requires Owned(s) && Fresh(s) && Enabled(s, e) && PeakKept(s, most) && s.inflight <= most
    requires Behind(s) ==> s.inflight <= s.peak + 1
    ensures Behind(Step(s, e)) ==> Step(s, e).inflight <= Step(s, e).peak + 1
  {
    hide Count;
  }

  lemma {:induction false} PeakLagsByOne(events: seq<Event>)
    requires IsRun(events)
    ensures Behind(After(events)) ==> After(events).inflight <= After(events).peak + 1
    decreases |events|
  {
    if events != [] {
      var front := events[..|events| - 1];
      PeakLagsByOne(front);
      RunTally(front);
      hide Owned, Fresh, PeakKept, Behind, Flying, Most, Step, Enabled;
      StepLagsByOne(After(front), events[|events| - 1], Most(front));
    }
  }

  // ---------------------------------------------------------------- call numbers

  /** The numbers handed out for a key, in the order they were. */
  function Numbers(calls: seq<Call>, key: string): seq<nat> {
    if calls == [] then []
    else
      var last := calls[|calls| - 1];
      Numbers(calls[..|calls| - 1], key) + (if last.key == key then [last.number] else [])
  }

  /** The count of a key has been raised and its number not yet handed out. */
  predicate Pending(s: State, key: string) {
    s.countLock.Some? && s.countLock.value in s.threads
    && s.threads[s.countLock.value].phase.Recorded? && s.threads[s.countLock.value].key == key
  }

  predicate CountFresh(s: State) {
    && (forall t :: t in s.threads && s.threads[t].phase.Counted? ==> s.threads[t].phase.c == Count(s, s.threads[t].key))
    && (forall t :: t in s.threads && s.threads[t].phase.Recorded? ==> Count(s, s.threads[t].key) >= 1)
  }

  predicate Numbered(s: State, key: string) {
    var n := Count(s, key);
    if Pending(s, key) then n >= 1 && Numbers(s.calls, key) == Range(1, n) else Numbers(s.calls, key) == Range(1, n + 1)
  }

  lemma NumbersSnoc(calls: seq<Call>, c: Call, key: string)
    ensures Numbers(calls + [c], key) == Numbers(calls, key) + (if c.key == key then [c.number] else [])
  {
    assert (calls + [c])[..|calls|] == calls;
  }

  lemma StepKeepsCountFresh(s: State, e: Event)
    requires Owned(s) && CountFresh(s) && Enabled(s, e)
    ensures CountFresh(Step(s, e))
  {
    StepMovesOne(s, e);
    CountsMove(s, e);
    var s' := Step(s, e);
    MoverFresh(s, e);
    hide Step, Enabled, Count;
    forall u | u in s'.threads && u != e.t && CountLocks(s'.threads[u].phase)
      ensures forall k :: Count(s', k) == Count(s, k)
    {
      assert s.countLock == Some(u);
    }
  }

  /** Only the owner of the call-count lock changes a count. */
  lemma CountsMove(s: State, e: Event)
    requires Owned(s) && Enabled(s, e)
    ensures s.countLock == Some(e.t) || forall k :: Count(Step(s, e), k) == Count(s, k)
  {}

  lemma MoverFresh(s: State, e: Event)
    requires CountFresh(s) && Enabled(s, e)
    ensures var th, s' := Step(s, e).threads[e.t], Step(s, e);
            (th.phase.Counted? ==> th.phase.c == Count(s', th.key)) && (th.phase.Recorded? ==> Count(s', th.key) >= 1)
  {}

  lemma StepKeepsNumbers(s: State, e: Event, key: string)
    requires Owned(s) && CountFresh(s) && Numbered(s, key) && Enabled(s, e)
    ensures Numbered(Step(s, e), key)
  {
    hide Numbers;
    var s' := Step(s, e);
    if e.Move? && s.threads[e.t].phase.Recorded? {
      var th := s.threads[e.t];
      assert s.countLock == Some(e.t) && !Pending(s', key);
      NumbersSnoc(s.calls, Call(th.kind, th.key, Count(s, th.key)), key);
      if th.key == key { assert Range(1, Count(s, key)) + [Count(s, key)] == Range(1, Count(s, key) + 1); }
    } else if e.Move? && s.threads[e.t].phase.Counted? {
      assert s.countLock == Some(e.t) && !Pending(s, key);
      assert Pending(s', key) <==> s.threads[e.t].key == key;
    } else {
      PendingKept(s, e, key);
    }
  }

  lemma PendingKept(s: State, e: Event, key: string)
    requires Owned(s) && Enabled(s, e) && !(e.Move? && (PhaseOf(s, e.t).Recorded? || PhaseOf(s, e.t).Counted?))
    ensures Pending(Step(s, e), key) == Pending(s, key)
    ensures Step(s, e).counts == s.counts && Step(s, e).calls == s.calls
  {
    StepKeepsOwned(s, e);
  }

  lemma {:induction false} RunNumbers(events: seq<Event>, key: string)
    requires IsRun(events)
    ensures Owned(After(events)) && CountFresh(After(events)) && Numbered(After(events), key)
  {
    if events != [] {
      var front, e := events[..|events| - 1], events[|events| - 1];
      RunNumbers(front, key);
      hide Owned, CountFresh, Numbered, Step, Enabled;
      StepKeepsOwned(After(front), e);
      StepKeepsCountFresh(After(front), e);
      StepKeepsNumbers(After(front), e, key);
    }
  }

  /** In every interleaving the numbers of a key, over all kinds of endpoint, are 1, 2, 3 and so on, each once. */
  lemma CallNumbersHaveNoGaps(events: seq<Event>, key: string)
    requires IsRun(events)
    ensures var ns := Numbers(After(events).calls, key);
            ns == Range(1, |ns| + 1)
            && Count(After(events), key) == |ns| + (if Pending(After(events), key) then 1 else 0)
  {
    RunNumbers(events, key);
  }

  /** A throttled call is refused with 429 when its number is odd. */
  predicate Refused(c: Call) { c.kind == Throttle && c.number % 2 == 1 }

  function RefusedFor(calls: seq<Call>, key: string): nat {
    if calls == [] then 0
    else
      var last := calls[|calls| - 1];
      RefusedFor(calls[..|calls| - 1], key) + (if last.key == key && Refused(last) then 1 else 0)
  }

  predicate OnlyThrottled(calls: seq<Call>, key: string) {
    forall k :: 0 <= k < |calls| && calls[k].key == key ==> calls[k].kind == Throttle
  }

  lemma {:induction false} RefusedHalf(calls: seq<Call>, key: string)
    requires OnlyThrottled(calls, key) && Numbers(calls, key) == Range(1, |Numbers(calls, key)| + 1)
    ensures RefusedFor(calls, key) == (|Numbers(calls, key)| + 1) / 2
  {
    if calls != [] {
      var front, last := calls[..|calls| - 1], calls[|calls| - 1];
      var ns := Numbers(calls, key);
      assert calls == front + [last];
      if last.key == key {
        assert Numbers(front, key) == ns[..|ns| - 1];
        assert last.number == ns[|ns| - 1];
      }
      RefusedHalf(front, key);
    }
  }

  /** Of n calls on a key that only throttled requests use, the half rounded up is refused. */
  lemma HalfAreRefused(events: seq<Event>, key: string)
    requires IsRun(events) && OnlyThrottled(After(events).calls, key)
    ensures var calls := After(events).calls;
            RefusedFor(calls, key) == (|Numbers(calls, key)| + 1) / 2
  {
    CallNumbersHaveNoGaps(events, key);
    RefusedHalf(After(events).calls, key);
  }

  // ---------------------------------------------------------------- every handler records its call

  /** Behind the point where a handler of a known kind has recorded its call. */
  predicate Past(p: Phase) { p.Answering? || p.Leaving? || p.Lowering? || p.Lowered? || p.Gone? }

  /** The handlers of that kind and key that are past it, and were not broken off before. */
  function Finished(s: State, events: seq<Event>, kind: Kind, key: string): set<nat> {
    set t | t in s.threads && s.threads[t].kind == kind && s.threads[t].key == key && Past(s.threads[t].phase)
            && Raise(t) !in events
  }

  function Made(calls: seq<Call>, kind: Kind, key: string): nat {
    if calls == [] then 0
    else
      var last := calls[|calls| - 1];
      Made(calls[..|calls| - 1], kind, key) + (if last.kind == kind && last.key == key then 1 else 0)
  }

  lemma MadeNext(calls: seq<Call>, c: Call, kind: Kind, key: string)
    ensures Made(calls + [c], kind, key) == Made(calls, kind, key) + (if c.kind == kind && c.key == key then 1 else 0)
  {
    assert (calls + [c])[..|calls|] == calls;
  }

  /** A handler that was broken off is past recording. */
  ghost predicate Broken(s: State, events: seq<Event>) {
    forall t :: Raise(t) in events ==> t in s.threads && Past(s.threads[t].phase)
  }

  lemma StepKeepsBroken(s: State, events: seq<Event>, e: Event)
    requires Enabled(s, e) && Broken(s, events)
    ensures Broken(Step(s, e), events + [e])
  {}

  /** The one step that records also finishes, and no other does, for a known kind. */
  lemma StepFinishes(s: State, events: seq<Event>, e: Event, kind: Kind, key: string)
    requires Enabled(s, e) && Broken(s, events) && kind != Unknown
    ensures var now, was := Finished(Step(s, e), events + [e], kind, key), Finished(s, events, kind, key);
            if e.Move? && s.threads[e.t].phase.Recorded? && s.threads[e.t].kind == kind && s.threads[e.t].key == key
            then e.t !in was && now == was + {e.t} else now == was
  {
    StepMovesOne(s, e);
    MoverFinishes(s, e);
    var s' := Step(s, e);
    var now, was := Finished(s', events + [e], kind, key), Finished(s, events, kind, key);
    hide Step, Enabled;
    forall u | u != e.t ensures u in now <==> u in was {
      assert u in s'.threads.Keys <==> u in s.threads.Keys;
      assert Raise(u) in events + [e] <==> Raise(u) in events;
    }
    assert e.Raise? ==> e.t !in now && e.t !in was;
    assert !e.Raise? ==> (Raise(e.t) in events + [e] <==> Raise(e.t) in events);
  }

  lemma MoverFinishes(s: State, e: Event)
    requires Enabled(s, e)
    ensures var th := Step(s, e).threads[e.t];
            && (e.t in s.threads ==> th.kind == s.threads[e.t].kind && th.key == s.threads[e.t].key)
            && (e.t !in s.threads ==> !Past(th.phase))
            && (e.Move? && th.kind != Unknown ==> (Past(th.phase) <==> Past(s.threads[e.t].phase) || s.threads[e.t].phase.Recorded?))
            && (e.Move? ==> !(s.threads[e.t].phase.Recorded? && Past(s.threads[e.t].phase)))
            && (e.Raise? ==> !Past(s.threads[e.t].phase))
  {
    hide Count;
    if e.Move? { MovePasses(s, e.t); }
  }

  lemma MovePasses(s: State, t: nat)
    requires Enabled(s, Move(t))
    ensures var was, now := s.threads[t], Step(s, Move(t)).threads[t];
            && now.kind == was.kind && now.key == was.key
            && (was.kind != Unknown ==> (Past(now.phase) <==> Past(was.phase) || was.phase.Recorded?))
  {
    hide Count;
  }

  lemma StepMakes(s: State, e: Event, kind: Kind, key: string)
    requires Enabled(s, e)
    ensures Made(Step(s, e).calls, kind, key) == Made(s.calls, kind, key)
            + (if e.Move? && s.threads[e.t].phase.Recorded? && s.threads[e.t].kind == kind && s.threads[e.t].key == key then 1 else 0)
  {
    if e.Move? && s.threads[e.t].phase.Recorded? {
      var th := s.threads[e.t];
      MadeNext(s.calls, Call(th.kind, th.key, Count(s, th.key)), kind, key);
    }
  }

  /** In every interleaving each handler of a known kind records its call once: as many calls were made for a kind and a
      key as handlers for them are past that point, not counting those that were broken off before it. */
  lemma {:induction false} EveryHandlerRecords(events: seq<Event>, kind: Kind, key: string)
    requires IsRun(events) && kind != Unknown
    ensures Made(After(events).calls, kind, key) == |Finished(After(events), events, kind, key)|
    ensures Broken(After(events), events)
  {
    if events == [] {
      assert Finished(START, [], kind, key) == {};
    } else {
      var front, e := events[..|events| - 1], events[|events| - 1];
      assert events == front + [e];
      EveryHandlerRecords(front, kind, key);
      hide Finished, Made, Broken, Step, Enabled;
      StepKeepsBroken(After(front), front, e);
      StepFinishes(After(front), front, e, kind, key);
      StepMakes(After(front), e, kind, key);
    }
  }
}
