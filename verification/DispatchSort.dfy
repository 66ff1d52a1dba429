/** `elv_dispatch_sort`: requests handed over by a scheduler go into the dispatch queue in sweep
    order from a boundary sector, but never in front of a barrier, of a request already started
    or of one of another kind.
 */
module DispatchSort {

  /** `stop`: a soft or hard barrier, or already started. */
  datatype Rq = Rq(id: nat, pos: nat, write: bool, discard: bool, stop: bool)

  /** Sweep order: from the boundary up first, then what lies below it, each upwards. */
  predicate Before(boundary: nat, a: nat, b: nat) {
    if (a >= boundary) != (b >= boundary) then a >= boundary else a <= b
  }

  /** `e` is not to be overtaken by `rq`. */
  predicate Blocks(e: Rq, rq: Rq) {
    e.discard != rq.discard || e.write != rq.write || e.stop
  }

  /** Where the backward scan stops: behind a request that blocks or comes first. */
  predicate StopsAt(boundary: nat, e: Rq, rq: Rq) {
    Blocks(e, rq) || Before(boundary, e.pos, rq.pos)
  }

  function Place(boundary: nat, q: seq<Rq>, rq: Rq): (k: nat)
    ensures k <= |q| && (forall j :: k <= j < |q| ==> !StopsAt(boundary, q[j], rq))
    ensures k > 0 ==> StopsAt(boundary, q[k-1], rq)
  {
    if q == [] then 0
    else if StopsAt(boundary, q[|q|-1], rq) then |q|
    else
      var k := Place(boundary, q[..|q|-1], rq);
      k
  }

  function Sort(boundary: nat, q: seq<Rq>, rq: Rq): seq<Rq> {
    var k := Place(boundary, q, rq);
    q[..k] + [rq] + q[k..]
  }

  // ----- sweep order

  /** Two requests with nothing but requests of their kind from one to the other. */
  ghost predicate SameRun(q: seq<Rq>, i: nat, j: nat) {
    i < j < |q| && forall m :: i <= m <= j ==> !Blocks(q[m], q[i])
  }

  /** Every run is in sweep order. */
  ghost predicate Swept(boundary: nat, q: seq<Rq>) {
    forall i: nat, j: nat :: SameRun(q, i, j) ==> Before(boundary, q[i].pos, q[j].pos)
  }

  ghost predicate SweptNext(boundary: nat, q: seq<Rq>) {
    forall i {:trigger q[i]} :: 0 < i < |q| && !Blocks(q[i-1], q[i]) && !q[i].stop ==> Before(boundary, q[i-1].pos, q[i].pos)
  }

  /** In sweep order: what starts at the boundary or above comes before what starts below it, and
      each part is in sector order. */
  lemma SweepOrder(boundary: nat, q: seq<Rq>, i: nat, j: nat)
    requires Swept(boundary, q) && SameRun(q, i, j)
    ensures q[i].pos < boundary ==> q[j].pos < boundary
    ensures q[i].pos > q[j].pos ==> q[i].pos >= boundary > q[j].pos
  {
  }

  lemma {:induction false} RunSwept(boundary: nat, q: seq<Rq>, i: nat, j: nat)
    requires SweptNext(boundary, q) && SameRun(q, i, j)
    ensures Before(boundary, q[i].pos, q[j].pos)
    decreases j
  {
    assert !Blocks(q[j-1], q[j]) && !Blocks(q[j], q[j-1]);
    if i < j - 1 {
      RunSwept(boundary, q, i, j - 1);
    }
  }

  lemma SweptIff(boundary: nat, q: seq<Rq>)
    ensures Swept(boundary, q) <==> SweptNext(boundary, q)
  {
    hide Before;
    if SweptNext(boundary, q) {
      forall i: nat, j: nat | SameRun(q, i, j) ensures Before(boundary, q[i].pos, q[j].pos) { RunSwept(boundary, q, i, j); }
    }
    if Swept(boundary, q) {
      forall i {:trigger q[i]} | 0 < i < |q| && !Blocks(q[i-1], q[i]) && !q[i].stop
        ensures Before(boundary, q[i-1].pos, q[i].pos)
      {
        assert SameRun(q, i - 1, i);
      }
    }
  }

  lemma SortNext(boundary: nat, q: seq<Rq>, rq: Rq)
    requires SweptNext(boundary, q)
    ensures SweptNext(boundary, Sort(boundary, q, rq))
  {
    hide Blocks, Before, Place;
    var k, r := Place(boundary, q, rq), Sort(boundary, q, rq);
    assert |r| == |q| + 1 && forall i {:trigger r[i]} :: 0 <= i < |r| ==> r[i] == if i < k then q[i] else if i == k then rq else q[i-1];
    forall i {:trigger r[i]} | 0 < i < |r| && !Blocks(r[i-1], r[i]) && !r[i].stop
      ensures Before(boundary, r[i-1].pos, r[i].pos)
    {
      if i < k {
        assert r[i-1] == q[i-1] && r[i] == q[i];
      } else if i == k {
        assert r[i-1] == q[k-1] && r[i] == rq;
      } else if i == k + 1 {
        assert r[i-1] == rq && r[i] == q[k] && !StopsAt(boundary, q[k], rq);
        BeforeTotal(boundary, rq.pos, q[k].pos);
      } else {
        assert r[i-1] == q[i-2] && r[i] == q[i-1];
      }
    }
  }

  lemma BeforeTotal(boundary: nat, a: nat, b: nat)
    ensures Before(boundary, a, b) || Before(boundary, b, a)
  {
  }

  /** One insertion keeps the order of all others, passes nothing that blocks, and keeps every
      run in sweep order. */
  lemma SortOk(boundary: nat, q: seq<Rq>, rq: Rq)
    requires Swept(boundary, q)
    ensures Swept(boundary, Sort(boundary, q, rq))
    ensures exists k: nat :: k <= |q| && Sort(boundary, q, rq) == q[..k] + [rq] + q[k..]
                        && forall j :: k <= j < |q| ==> !Blocks(q[j], rq)
  {
    hide Swept, SweptNext, Before;
    SweptIff(boundary, q);
    SortNext(boundary, q, rq);
    SweptIff(boundary, Sort(boundary, q, rq));
    var k := Place(boundary, q, rq);
    assert forall j :: k <= j < |q| ==> !StopsAt(boundary, q[j], rq);
  }

  function SortAll(boundary: nat, q: seq<Rq>, rqs: seq<Rq>): seq<Rq> {
    if rqs == [] then q else Sort(boundary, SortAll(boundary, q, rqs[..|rqs|-1]), rqs[|rqs|-1])
  }

  lemma {:induction false} SortAllOk(boundary: nat, q: seq<Rq>, rqs: seq<Rq>)
    requires Swept(boundary, q)
    ensures Swept(boundary, SortAll(boundary, q, rqs))
    decreases |rqs|
  {
    hide Swept, Sort;
    if rqs != [] {
      SortAllOk(boundary, q, rqs[..|rqs|-1]);
      SortOk(boundary, SortAll(boundary, q, rqs[..|rqs|-1]), rqs[|rqs|-1]);
    }
  }

  // ----- a sort

  /** All of one kind, none of them blocking. */
  ghost predicate OneKind(rqs: seq<Rq>, write: bool, discard: bool) {
    forall i :: 0 <= i < |rqs| ==> rqs[i].write == write && rqs[i].discard == discard && !rqs[i].stop
  }

  ghost predicate InOrder(boundary: nat, rqs: seq<Rq>) {
    forall i, j :: 0 <= i < j < |rqs| ==> Before(boundary, rqs[i].pos, rqs[j].pos)
  }

  /** Behind a request that blocks them, requests of one kind end up sorted, whatever order they
      come in, and nothing else moves. */
  lemma {:induction false} SortAllSorts(boundary: nat, q: seq<Rq>, rqs: seq<Rq>, write: bool, discard: bool)
      returns (t: seq<Rq>)
    requires OneKind(rqs, write, discard)
    requires q == [] || Blocks(q[|q|-1], Rq(0, 0, write, discard, false))
    ensures SortAll(boundary, q, rqs) == q + t && multiset(t) == multiset(rqs)
    ensures OneKind(t, write, discard) && InOrder(boundary, t)
    decreases |rqs|
  {
    hide Before, Sort;
    if rqs == [] {
      t := [];
    } else {
      var front, rq := rqs[..|rqs|-1], rqs[|rqs|-1];
      assert rqs == front + [rq];
      var u := SortAllSorts(boundary, q, front, write, discard);
      t := SortTail(boundary, q, u, rq);
    }
  }

  lemma SortTail(boundary: nat, q: seq<Rq>, u: seq<Rq>, rq: Rq) returns (t: seq<Rq>)
    requires OneKind(u, rq.write, rq.discard) && !rq.stop && InOrder(boundary, u)
    requires q == [] || Blocks(q[|q|-1], rq)
    ensures Sort(boundary, q + u, rq) == q + t && multiset(t) == multiset(u) + multiset{rq}
    ensures OneKind(t, rq.write, rq.discard) && InOrder(boundary, t)
  {
    hide Before, Place, InOrder, Blocks, StopsAt, OneKind;
    PlaceBehind(boundary, q, u, rq);
    var n := Place(boundary, q + u, rq) - |q|;
    t := u[..n] + [rq] + u[n..];
    InsertSplit(q, u, rq, n);
    InsertBag(u, rq, n);
    InsertKind(u, rq, n);
    TailInOrder(boundary, q, u, rq, n);
  }

  lemma InsertSplit(q: seq<Rq>, u: seq<Rq>, rq: Rq, n: nat)
    requires n <= |u|
    ensures (q + u)[..|q| + n] + [rq] + (q + u)[|q| + n..] == q + (u[..n] + [rq] + u[n..])
  {
    assert (q + u)[..|q| + n] == q + u[..n] && (q + u)[|q| + n..] == u[n..];
  }

  lemma InsertKind(u: seq<Rq>, rq: Rq, n: nat)
    requires n <= |u| && OneKind(u, rq.write, rq.discard) && !rq.stop
    ensures OneKind(u[..n] + [rq] + u[n..], rq.write, rq.discard)
  {
  }

  lemma InsertBag(u: seq<Rq>, rq: Rq, n: nat)
    requires n <= |u|
    ensures multiset(u[..n] + [rq] + u[n..]) == multiset(u) + multiset{rq}
  {
    assert u == u[..n] + u[n..];
  }

  lemma PlaceBehind(boundary: nat, q: seq<Rq>, u: seq<Rq>, rq: Rq)
    requires q == [] || Blocks(q[|q|-1], rq)
    ensures Place(boundary, q + u, rq) >= |q|
  {
    hide Place, Blocks;
    if q != [] {
      assert (q + u)[|q|-1] == q[|q|-1];
      assert StopsAt(boundary, (q + u)[|q|-1], rq);
    }
  }

  lemma TailInOrder(boundary: nat, q: seq<Rq>, u: seq<Rq>, rq: Rq, n: nat)
    requires OneKind(u, rq.write, rq.discard) && InOrder(boundary, u)
    requires n <= |u| && |q| + n == Place(boundary, q + u, rq)
    ensures InOrder(boundary, u[..n] + [rq] + u[n..])
  {
    hide Place, InOrder, Before;
    var all := q + u;
    assert n > 0 ==> all[|q| + n - 1] == u[n - 1] && StopsAt(boundary, all[|q| + n - 1], rq);
    assert n < |u| ==> all[|q| + n] == u[n] && !StopsAt(boundary, all[|q| + n], rq);
    if n < |u| { BeforeOrder(boundary, rq.pos, u[n].pos, u[n].pos); }
    InsertInOrder(boundary, u, rq, n);
  }

  lemma BeforeOrder(boundary: nat, a: nat, b: nat, c: nat)
    ensures Before(boundary, a, b) || Before(boundary, b, a)
    ensures Before(boundary, a, b) && Before(boundary, b, c) ==> Before(boundary, a, c)
  {
  }

  lemma InsertInOrder(boundary: nat, u: seq<Rq>, rq: Rq, n: nat)
    requires InOrder(boundary, u) && n <= |u|
    requires n > 0 ==> Before(boundary, u[n-1].pos, rq.pos)
    requires n < |u| ==> Before(boundary, rq.pos, u[n].pos)
    ensures InOrder(boundary, u[..n] + [rq] + u[n..])
  {
    hide Before;
    var t := u[..n] + [rq] + u[n..];
    forall i, j | 0 <= i < j < |t| ensures Before(boundary, t[i].pos, t[j].pos) {
      if i < n {
        assert t[i] == u[i];
        BeforeOrder(boundary, u[i].pos, u[n-1].pos, rq.pos);
      }
      if j > n {
        assert t[j] == u[j-1];
        BeforeOrder(boundary, rq.pos, u[n].pos, u[j-1].pos);
      }
      assert j < n ==> t[j] == u[j];
      assert i > n ==> t[i] == u[i-1];
    }
  }

  // ----- the queue

  /** The parts of the queue that the two ways of dispatching update. */
  class Queue {
    var queue: seq<Rq>
    var endSector: nat
    var nrSorted: int

    constructor ()
      ensures queue == [] && nrSorted == 0
    {
      queue, endSector, nrSorted := [], 0, 0;
    }

    /** `elv_dispatch_sort`. */
    method AddSorted(rq: Rq)
      modifies `queue, `nrSorted
      ensures queue == Sort(endSector, old(queue), rq) && nrSorted == old(nrSorted) - 1
    {
      var k: nat := |queue|;
      nrSorted := nrSorted - 1;
      while k > 0
        invariant queue == old(queue) && nrSorted == old(nrSorted) - 1
        invariant k <= |queue| && forall j :: k <= j < |queue| ==> !StopsAt(endSector, queue[j], rq)
      {
        var e := queue[k-1];
        if rq.discard != e.discard || rq.write != e.write || e.stop {
          break;
        }
        if rq.pos >= endSector {
          if e.pos >= endSector && rq.pos >= e.pos { break; }
        } else {
          if e.pos >= endSector || rq.pos >= e.pos { break; }
        }
        k := k - 1;
      }
      PlaceUnique(endSector, queue, rq, k);
      queue := queue[..k] + [rq] + queue[k..];
    }

    /** `elv_dispatch_add_tail`. */
    method AddTail(rq: Rq, len: nat)
      modifies this
      ensures queue == old(queue) + [rq] && endSector == rq.pos + len && nrSorted == old(nrSorted) - 1
    {
      nrSorted, endSector, queue := nrSorted - 1, rq.pos + len, queue + [rq];
    }
  }

  lemma {:induction false} PlaceUnique(boundary: nat, q: seq<Rq>, rq: Rq, k: nat)
    requires k <= |q| && (forall j :: k <= j < |q| ==> !StopsAt(boundary, q[j], rq))
    requires k > 0 ==> StopsAt(boundary, q[k-1], rq)
    ensures Place(boundary, q, rq) == k
    decreases |q|
  {
    hide StopsAt;
    if q != [] && !StopsAt(boundary, q[|q|-1], rq) {
      PlaceUnique(boundary, q[..|q|-1], rq, k);
    }
  }
}
