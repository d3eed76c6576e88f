/** The measured window: acknowledged input, committed output, backlog. Ratios are exact. */
module CapacityWindow {
  import opened Prelude

  // ---------------------------------------------------------------- positions

  datatype Offset = Number(n: int) | Other

  /** A checkpoint: nothing yet, or committed offsets by partition. */
  datatype Position = NoPosition | Committed(offsets: map<string, Offset>)

  /** How many rows a checkpoint covers; None where it is refused. */
  function KafkaPrefix(p: Position): (r: Option<nat>)
    ensures r.Some? <==> p.NoPosition? || exists n: nat :: p.offsets == map["0" := Number(n)]
    ensures p.NoPosition? ==> r == Some(0)
    ensures forall n: nat :: p == Position.Committed(map["0" := Number(n)]) ==> r == Some(n + 1)
  {
    if p.NoPosition? then Some(0)
    else if p.offsets.Keys == {"0"} && p.offsets["0"].Number? && p.offsets["0"].n >= 0 then
      assert p.offsets == map["0" := Number(p.offsets["0"].n)];
      Some(p.offsets["0"].n + 1)
    else None
  }

  // ---------------------------------------------------------------- acknowledged input

  datatype Ack = Ack(time: int, rows: nat)

  predicate InTime(acks: seq<Ack>) { forall i, j :: 0 <= i < j < |acks| ==> acks[i].time <= acks[j].time }
  predicate Growing(acks: seq<Ack>) { forall i, j :: 0 <= i < j < |acks| ==> acks[i].rows <= acks[j].rows }

  /** The rows of the last acknowledgement up to a moment, found by looking at every one. */
  function Scan(acks: seq<Ack>, at: int): nat {
    if acks == [] then 0
    else if acks[|acks| - 1].time <= at then acks[|acks| - 1].rows
    else Scan(acks[..|acks| - 1], at)
  }

  /** bisect_right over the times. */
  method BisectRight(acks: seq<Ack>, at: int) returns (index: nat)
    requires InTime(acks)
    ensures index <= |acks|
    ensures forall i :: 0 <= i < index ==> acks[i].time <= at
    ensures forall i :: index <= i < |acks| ==> at < acks[i].time
  {
    var lo, hi := 0, |acks|;
    while lo < hi
      invariant 0 <= lo <= hi <= |acks|
      invariant forall i :: 0 <= i < lo ==> acks[i].time <= at
      invariant forall i :: hi <= i < |acks| ==> at < acks[i].time
    {
      var mid := (lo + hi) / 2;
      if at < acks[mid].time { hi := mid; } else { lo := mid + 1; }
    }
    index := lo;
  }

  lemma {:induction false} ScanAt(acks: seq<Ack>, at: int, index: nat)
    requires index <= |acks|
    requires forall i :: 0 <= i < index ==> acks[i].time <= at
    requires forall i :: index <= i < |acks| ==> at < acks[i].time
    ensures Scan(acks, at) == if index == 0 then 0 else acks[index - 1].rows
  {
    if index < |acks| { ScanAt(acks[..|acks| - 1], at, index); }
  }

  method AcknowledgedAt(acks: seq<Ack>, at: int) returns (rows: nat)
    requires InTime(acks)
    ensures rows == Scan(acks, at)
  {
    var index := BisectRight(acks, at);
    ScanAt(acks, at, index);
    rows := if index > 0 then acks[index - 1].rows else 0;
  }

  /** Later moments see no fewer rows. */
  lemma {:induction false} ScanGrows(acks: seq<Ack>, at: int, later: int)
    requires InTime(acks) && Growing(acks) && at <= later
    ensures Scan(acks, at) <= Scan(acks, later)
    ensures acks != [] ==> Scan(acks, later) <= acks[|acks| - 1].rows
  {
    if acks != [] { ScanGrows(acks[..|acks| - 1], at, later); }
  }

  // ---------------------------------------------------------------- backlog

  type Rows = map<string, nat>

  /** A sum over the pipelines of a list, an entry counting as often as it is listed. */
  function Listed(ids: seq<string>, rows: Rows): nat
    requires forall p :: p in ids ==> p in rows
  {
    if ids == [] then 0 else Listed(ids[..|ids| - 1], rows) + rows[ids[|ids| - 1]]
  }

  /** The list without repetitions: the keys of a dictionary filled from it. */
  function Keys(ids: seq<string>): (ks: seq<string>)
    ensures forall p :: p in ks <==> p in ids
  {
    if ids == [] then []
    else
      var ks, last := Keys(ids[..|ids| - 1]), ids[|ids| - 1];
      assert ids == ids[..|ids| - 1] + [last];
      if last in ks then ks else ks + [last]
  }

  /** The sum of a dictionary's values. */
  function Values(ids: seq<string>, rows: Rows): nat
    requires forall p :: p in ids ==> p in rows
  {
    Listed(Keys(ids), rows)
  }

  datatype Window = Window(ids: seq<string>, start: Rows, end: Rows, emittedStart: nat, emittedEnd: nat)

  /** What is required of a window before it is summarised: every pipeline and the publisher made progress. */
  predicate Accepted(w: Window) {
    && (forall p :: p in w.ids ==> p in w.start && p in w.end && w.end[p] > w.start[p])
    && w.emittedEnd > w.emittedStart && w.ids != []
  }

  function Committed(w: Window): int
    requires Accepted(w)
  {
    Listed(w.ids, w.end) - Listed(w.ids, w.start)
  }

  function Offered(w: Window): int { (w.emittedEnd - w.emittedStart) * |w.ids| }

  function BacklogStart(w: Window): int
    requires Accepted(w)
  {
    w.emittedStart * |w.ids| - Values(w.ids, w.start)
  }

  function BacklogEnd(w: Window): int
    requires Accepted(w)
  {
    w.emittedEnd * |w.ids| - Values(w.ids, w.end)
  }

  /** The loop that adds up what each listed pipeline committed. */
  method CommittedRows(w: Window) returns (sum: int)
    requires Accepted(w)
    ensures sum == Committed(w)
  {
    sum := 0;
    var i := 0;
    while i < |w.ids|
      invariant 0 <= i <= |w.ids|
      invariant sum == Listed(w.ids[..i], w.end) - Listed(w.ids[..i], w.start)
    {
      assert w.ids[..i + 1][..i] == w.ids[..i];
      sum := sum + (w.end[w.ids[i]] - w.start[w.ids[i]]);
      i := i + 1;
    }
    assert w.ids[..i] == w.ids;
  }

  predicate Progress(ids: seq<string>, start: Rows, end: Rows) {
    forall p :: p in ids ==> p in start && p in end && end[p] > start[p]
  }

  /** Counting repeated pipelines again only adds, and adds something where there is a repetition. */
  lemma {:induction false} RepetitionsAdd(ids: seq<string>, start: Rows, end: Rows)
    requires Progress(ids, start, end)
    ensures Listed(ids, end) - Listed(ids, start) >= Values(ids, end) - Values(ids, start)
    ensures Listed(ids, end) - Listed(ids, start) == Values(ids, end) - Values(ids, start) <==> Distinct(ids)
  {
    if ids != [] {
      var front, last := ids[..|ids| - 1], ids[|ids| - 1];
      assert ids == front + [last];
      RepetitionsAdd(front, start, end);
      DistinctSnoc(front, last);
      if last !in Keys(front) {
        var ks := Keys(front) + [last];
        assert ks[..|ks| - 1] == Keys(front);
      }
    }
  }

  lemma DistinctSnoc(s: seq<string>, x: string)
    ensures Distinct(s + [x]) <==> Distinct(s) && x !in s
  {
    var t := s + [x];
    assert forall i :: 0 <= i < |s| ==> t[i] == s[i];
    if Distinct(t) {
      forall i | 0 <= i < |s| ensures s[i] != x { assert t[i] != t[|s|]; }
    }
  }

  /** Backlog grows by what was offered and not committed, if and only if no pipeline is listed twice. */
  lemma BacklogConserved(w: Window)
    requires Accepted(w)
    ensures BacklogEnd(w) - BacklogStart(w) == Offered(w) - Committed(w) <==> Distinct(w.ids)
  {
    hide Listed, Values, Distinct;
    RepetitionsAdd(w.ids, w.start, w.end);
    Distributes(w.emittedEnd, w.emittedStart, |w.ids|);
  }

  lemma Distributes(a: int, b: int, n: int)
    ensures (a - b) * n == a * n - b * n
  {}

  /** With exact ratios the 95% progress test and the 5% backlog test are the same test. */
  lemma TestsAgree(w: Window)
    requires Accepted(w) && Distinct(w.ids)
    ensures Offered(w) > 0
    ensures Committed(w) as real / Offered(w) as real >= 0.95 <==>
            (BacklogEnd(w) - BacklogStart(w)) as real <= Offered(w) as real * 0.05
  {
    BacklogConserved(w);
    OfferedPositive(w.emittedEnd - w.emittedStart, |w.ids|);
    hide BacklogEnd, BacklogStart, Committed, Offered;
    RatioTest(Committed(w) as real, Offered(w) as real);
  }

  lemma OfferedPositive(a: int, n: int)
    requires a > 0 && n > 0
    ensures a * n > 0
  {}

  lemma RatioTest(c: real, o: real)
    requires o > 0.0
    ensures c / o >= 0.95 <==> o - c <= o * 0.05
  {
    assert c == (c / o) * o;
    if c / o >= 0.95 { assert (c / o) * o >= 0.95 * o; }
    if c / o < 0.95 { assert (c / o) * o < 0.95 * o; }
  }
}
