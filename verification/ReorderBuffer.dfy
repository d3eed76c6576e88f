/**
 The parallel router of the DAG executor (routeAndWriteParallel in internal/etl/orchestrator/executor.go)
 routes records on several workers and applies the results in source order again. One such buffer exists per
 source; results are numbered as they are read.
 */
module ReorderBuffer {
  import opened Prelude

  /** What has been applied is the unbroken beginning of what has arrived; the rest is kept back. */
  ghost predicate InOrder<T>(arrived: map<nat, T>, pending: map<nat, T>, next: nat, applied: seq<T>) {
    && |applied| == next
    && (forall i: nat :: i < next ==> i in arrived && arrived[i] == applied[i])
    && next !in arrived
    && (forall i: nat :: i in pending <==> i in arrived && next <= i)
    && (forall i: nat :: i in pending ==> pending[i] == arrived[i])
  }

  /** The same, but the next number may be waiting among the pending ones. */
  ghost predicate Draining<T>(arrived: map<nat, T>, pending: map<nat, T>, next: nat, applied: seq<T>) {
    && |applied| == next
    && (forall i: nat :: i < next ==> i in arrived && arrived[i] == applied[i])
    && (forall i: nat :: i in pending <==> i in arrived && next <= i)
    && (forall i: nat :: i in pending ==> pending[i] == arrived[i])
  }

  lemma DrainOne<T>(arrived: map<nat, T>, pending: map<nat, T>, next: nat, applied: seq<T>)
    requires Draining(arrived, pending, next, applied) && next in pending
    ensures Draining(arrived, pending - {next}, next + 1, applied + [pending[next]])
    ensures |pending - {next}| < |pending|
  {
    var rest := pending - {next};
    assert rest.Keys == pending.Keys - {next};
    assert |rest.Keys| == |pending.Keys| - 1;
  }

  class Reorder<T> {
    var pending: map<nat, T>
    var next: nat
    var applied: seq<T>
    ghost var arrived: map<nat, T>

    ghost predicate Valid()
      reads this
    {
      InOrder(arrived, pending, next, applied)
    }

    constructor ()
      ensures Valid() && arrived == map[]
    {
      pending, next, applied, arrived := map[], 0, [], map[];
    }

    /** A result arrives; it and every waiting successor are applied as far as the numbering is unbroken. */
    method Arrive(k: nat, result: T)
      requires Valid() && k !in arrived
      modifies this
      ensures Valid() && arrived == old(arrived)[k := result] && old(applied) <= applied
    {
      arrived := arrived[k := result];
      pending := pending[k := result];
      while next in pending
        invariant old(applied) <= applied && arrived == old(arrived)[k := result]
        invariant Draining(arrived, pending, next, applied)
        decreases |pending|
      {
        DrainOne(arrived, pending, next, applied);
        applied, pending, next := applied + [pending[next]], pending - {next}, next + 1;
      }
    }
  }

  /** The order of arrival leaves no trace: the same arrivals give the same applied sequence. */
  lemma ArrivalOrderIrrelevant<T>(arrived: map<nat, T>, p1: map<nat, T>, n1: nat, a1: seq<T>,
                                  p2: map<nat, T>, n2: nat, a2: seq<T>)
    requires InOrder(arrived, p1, n1, a1) && InOrder(arrived, p2, n2, a2)
    ensures n1 == n2 && a1 == a2 && p1 == p2
  {
    assert !(n1 < n2) && !(n2 < n1);
    assert p1.Keys == p2.Keys;
  }

  /** Once all of n results have arrived, all are applied, in source order, and none is kept back. */
  lemma AllArrived<T>(arrived: map<nat, T>, pending: map<nat, T>, next: nat, applied: seq<T>, n: nat)
    requires InOrder(arrived, pending, next, applied)
    requires forall i: nat :: i in arrived <==> i < n
    ensures |applied| == n && pending == map[] && forall i :: 0 <= i < n ==> applied[i] == arrived[i]
  {
    assert n !in arrived && next !in arrived;
    assert next == n;
    assert pending.Keys == {};
  }
}
