/** The CFQ scheduler's bookkeeping: every queue keeps its requests in a sorted tree, a FIFO and
    a cached next request; queues with requests are on a service tree with a cached leftmost
    node.  All of it must agree, so that a forced dispatch empties everything.
 */
module Cfq {
  import opened Lists

  /** A queued request, with the queue it belongs to. */
  datatype Rq = Rq(q: nat, pos: nat, sync: bool, meta: bool)

  /** A queue: sort tree, FIFO, next request, and whether it is on the round-robin tree. */
  datatype Cfqq = Cfqq(tree: seq<nat>, fifo: seq<nat>, next: Option<nat>, onRr: bool)

  /** The head position and the tunables of the choice. */
  datatype Head = Head(last: nat, backMax: nat, backPenalty: nat)

  // ----- choosing the next request

  function Distance(h: Head, s: nat): nat {
    if s >= h.last then s - h.last else (h.last - s) * h.backPenalty
  }

  predicate Wraps(h: Head, s: nat) { s < h.last && s + h.backMax * 2 < h.last }

  /** Whether `cfq_choose_req` takes the first of two different requests. */
  predicate Prefers(h: Head, a: Rq, b: Rq) {
    if a.sync != b.sync then a.sync
    else if a.meta != b.meta then a.meta
    else if Wraps(h, a.pos) && Wraps(h, b.pos) then a.pos <= b.pos
    else if Wraps(h, a.pos) || Wraps(h, b.pos) then Wraps(h, b.pos)
    else
      var d1, d2 := Distance(h, a.pos), Distance(h, b.pos);
      d1 < d2 || (d1 == d2 && a.pos >= b.pos)
  }

  /** `cfq_choose_req`. */
  function Choose(h: Head, rqs: map<nat, Rq>, a: Option<nat>, b: Option<nat>): (r: Option<nat>)
    ensures (r == a || r == b) && (r.None? <==> a.None? && b.None?)
  {
    if a.None? || a == b then b
    else if b.None? then a
    else if a.value in rqs && b.value in rqs && Prefers(h, rqs[a.value], rqs[b.value]) then a
    else b
  }

  /** The choice takes the better of two, in a transitive order. */
  lemma ChooseBest(h: Head, rqs: map<nat, Rq>, a: nat, b: nat, c: nat)
    requires a in rqs && b in rqs && c in rqs
    ensures var r := Choose(h, rqs, Some(a), Some(b)).value;
            (r == a || Prefers(h, rqs[r], rqs[a])) && (r == b || Prefers(h, rqs[r], rqs[b]))
    ensures Prefers(h, rqs[a], rqs[b]) && Prefers(h, rqs[b], rqs[c]) ==> Prefers(h, rqs[a], rqs[c])
  {
    hide Distance;
  }

  /** Of two requests: a synchronous one goes before an asynchronous one, then one for metadata
      before others.  Then one that lies ahead of the head, or not further behind than
      `backMax` KiB, goes before one that lies further behind; of two of the former the one
      with the shorter way, sectors behind counting `backPenalty` times, and the one further up
      if it is as long; of two of the latter the lower one. */
  lemma ChoosePriority(h: Head, rqs: map<nat, Rq>, a: nat, b: nat, x: nat)
    requires a in rqs && b in rqs && (x == a || x == b)
    ensures var r := Choose(h, rqs, Some(a), Some(b)).value;
            && (r == a || r == b)
            && var c, o := rqs[r], rqs[x];
               && (o.sync ==> c.sync)
               && (o.sync == c.sync && o.meta ==> c.meta)
               && (o.sync == c.sync && o.meta == c.meta ==>
                     && (o.pos + 2 * h.backMax >= h.last ==>
                           && c.pos + 2 * h.backMax >= h.last
                           && Way(h, c.pos) <= Way(h, o.pos)
                           && (Way(h, c.pos) == Way(h, o.pos) ==> c.pos >= o.pos))
                     && (c.pos + 2 * h.backMax < h.last ==> c.pos <= o.pos))
  {
  }

  /** The way of the head to a sector, with a penalty for going back. */
  function Way(h: Head, s: nat): int {
    if s >= h.last then s - h.last else (h.last - s) * h.backPenalty
  }

  function IndexOf(tree: seq<nat>, id: nat): (i: nat)
    requires id in tree
    ensures i < |tree| && tree[i] == id
  {
    if tree[0] == id then 0 else 1 + IndexOf(tree[1..], id)
  }

  /** `cfq_find_next_rq`: one of the neighbours, with a wrap to the first. */
  function FindNext(h: Head, rqs: map<nat, Rq>, tree: seq<nat>, id: nat): Option<nat>
    requires id in tree
  {
    var k := IndexOf(tree, id);
    var prev := if k > 0 then Some(tree[k-1]) else None;
    var next := if k + 1 < |tree| then Some(tree[k+1]) else if tree[0] != id then Some(tree[0]) else None;
    Choose(h, rqs, next, prev)
  }

  lemma FindNextOk(h: Head, rqs: map<nat, Rq>, tree: seq<nat>, id: nat)
    requires NoDup(tree) && id in tree
    ensures var r := FindNext(h, rqs, tree, id);
            (r.None? <==> Remove(tree, id) == []) && (r.Some? ==> r.value in tree && r.value != id)
  {
    hide Remove;
    RemoveFacts(tree, id);
  }

  // ----- the agreement

  function PosOf(rqs: map<nat, Rq>, id: nat): nat { if id in rqs then rqs[id].pos else 0 }

  /** The tree is in sector order, and no two requests start at the same sector. */
  ghost predicate BySector(tree: seq<nat>, rqs: map<nat, Rq>) {
    forall i, j :: 0 <= i < j < |tree| ==> PosOf(rqs, tree[i]) < PosOf(rqs, tree[j])
  }

  /** The nearest request of a tree above a sector, and the nearest below. */
  ghost predicate IsAbove(rqs: map<nat, Rq>, tree: seq<nat>, pos: nat, r: Option<nat>) {
    && (r.Some? ==> r.value in tree && PosOf(rqs, r.value) > pos)
    && (forall x :: x in tree && PosOf(rqs, x) > pos ==> r.Some? && PosOf(rqs, r.value) <= PosOf(rqs, x))
  }

  ghost predicate IsBelow(rqs: map<nat, Rq>, tree: seq<nat>, pos: nat, r: Option<nat>) {
    && (r.Some? ==> r.value in tree && PosOf(rqs, r.value) < pos)
    && (forall x :: x in tree && PosOf(rqs, x) < pos ==> r.Some? && PosOf(rqs, r.value) >= PosOf(rqs, x))
  }

  /** The choice is between the nearest request above, or the lowest of all if there is none, and
      the nearest below. */
  lemma FindNextBetween(h: Head, rqs: map<nat, Rq>, tree: seq<nat>, id: nat) returns (above: Option<nat>, below: Option<nat>)
    requires BySector(tree, rqs) && id in tree
    ensures IsAbove(rqs, tree, PosOf(rqs, id), above) && IsBelow(rqs, tree, PosOf(rqs, id), below)
    ensures above.Some? || below.None? ==> FindNext(h, rqs, tree, id) == Choose(h, rqs, above, below)
    ensures above.None? && below.Some? ==>
              && (forall x :: x in tree ==> PosOf(rqs, tree[0]) <= PosOf(rqs, x))
              && FindNext(h, rqs, tree, id) == Choose(h, rqs, Some(tree[0]), below)
  {
    hide PosOf;
    var k := IndexOf(tree, id);
    above := if k + 1 < |tree| then Some(tree[k+1]) else None;
    below := if k > 0 then Some(tree[k-1]) else None;
    forall x | x in tree
      ensures PosOf(rqs, x) > PosOf(rqs, id) ==> above.Some? && PosOf(rqs, above.value) <= PosOf(rqs, x)
      ensures PosOf(rqs, x) < PosOf(rqs, id) ==> below.Some? && PosOf(rqs, below.value) >= PosOf(rqs, x)
      ensures PosOf(rqs, tree[0]) <= PosOf(rqs, x)
    {
      var i :| 0 <= i < |tree| && tree[i] == x;
    }
  }

  lemma SamePlaces(tree: seq<nat>, rqs: map<nat, Rq>, rqs': map<nat, Rq>)
    requires BySector(tree, rqs) && forall x :: x in tree ==> PosOf(rqs', x) == PosOf(rqs, x)
    ensures BySector(tree, rqs')
  {
    hide PosOf;
    forall i, j | 0 <= i < j < |tree| ensures PosOf(rqs', tree[i]) < PosOf(rqs', tree[j]) {
      assert tree[i] in tree && tree[j] in tree;
    }
  }

  lemma {:induction false} RemovedSorted(tree: seq<nat>, rqs: map<nat, Rq>, id: nat)
    requires BySector(tree, rqs)
    ensures BySector(Remove(tree, id), rqs) && forall x :: x in Remove(tree, id) ==> x in tree
    decreases |tree|
  {
    hide PosOf;
    if tree != [] && tree[0] != id {
      var rest := Remove(tree[1..], id);
      RemovedSorted(tree[1..], rqs, id);
      forall j | 0 <= j < |rest| ensures PosOf(rqs, tree[0]) < PosOf(rqs, rest[j]) {
        assert rest[j] in tree[1..];
      }
    }
  }

  lemma InsertedSorted(tree: seq<nat>, rqs: map<nat, Rq>, id: nat, k: nat)
    requires BySector(tree, rqs) && k <= |tree|
    requires forall i :: 0 <= i < k ==> PosOf(rqs, tree[i]) < PosOf(rqs, id)
    requires forall i :: k <= i < |tree| ==> PosOf(rqs, id) < PosOf(rqs, tree[i])
    ensures BySector(tree[..k] + [id] + tree[k..], rqs)
  {
    hide PosOf;
  }

  /** A queue's structures, with `out` not in the tree, and possibly not in the FIFO either. */
  ghost predicate QueueOk(rqs: map<nat, Rq>, q: nat, c: Cfqq, out: Option<nat>) {
    && NoDup(c.tree) && NoDup(c.fifo) && BySector(c.tree, rqs)
    && (forall id :: id in c.fifo ==> id in rqs && rqs[id].q == q)
    && (forall id :: id in rqs && rqs[id].q == q ==> id in c.fifo || out == Some(id))
    && (forall id :: id in c.tree <==> id in c.fifo && out != Some(id))
    && (c.next.Some? ==> c.next.value in c.tree || (out == c.next && out.value in c.fifo))
    && (c.tree != [] ==> c.onRr && c.next.Some?)
    && (c.tree == [] && (out.None? || out.value !in c.fifo) ==> !c.onRr && c.next.None?)
  }

  ghost predicate QueuesOk(rqs: map<nat, Rq>, qs: map<nat, Cfqq>, out: Option<nat>) {
    && (forall id :: id in rqs ==> rqs[id].q in qs)
    && (forall q :: q in qs ==> QueueOk(rqs, q, qs[q], out))
  }

  /** The service tree holds the queues on round robin, `busy` counts them, and the cached
      leftmost node is unknown or right. */
  ghost predicate ServiceOk(qs: map<nat, Cfqq>, service: seq<nat>, left: Option<nat>, busy: int) {
    && NoDup(service) && busy == |service|
    && (forall q :: q in service <==> q in qs && qs[q].onRr)
    && (left.Some? ==> service != [] && left.value == service[0])
  }

  /** For every queue: a next request, tree, FIFO and place on the service tree all or none. */
  lemma AllOrNone(rqs: map<nat, Rq>, qs: map<nat, Cfqq>, service: seq<nat>, left: Option<nat>, busy: int, q: nat)
    requires QueuesOk(rqs, qs, None) && ServiceOk(qs, service, left, busy) && q in qs
    ensures qs[q].next.None? <==> qs[q].tree == []
    ensures qs[q].tree == [] <==> qs[q].fifo == []
    ensures qs[q].tree == [] <==> q !in service
    ensures busy == 0 ==> rqs == map[]
  {
    hide NoDup;
    var c := qs[q];
    assert QueueOk(rqs, q, c, None);
    assert c.tree != [] ==> c.tree[0] in c.fifo;
    assert c.fifo != [] ==> c.fifo[0] in c.tree;
    forall id | id in rqs ensures rqs[id].q in service {
      assert QueueOk(rqs, rqs[id].q, qs[rqs[id].q], None);
      assert id in qs[rqs[id].q].tree;
    }
  }

  /** A request leaves its queue. */
  function Left(c: Cfqq, id: nat, next: Option<nat>): Cfqq {
    var tree := Remove(c.tree, id);
    Cfqq(tree, Remove(c.fifo, id), next, c.onRr && tree != [])
  }

  /** What may be a queue's next request once `id` is gone. */
  ghost predicate NextOk(c: Cfqq, id: nat, next: Option<nat>, out: Option<nat>) {
    && (next.Some? ==> next.value != id && (next.value in c.tree || (out == next && next.value in c.fifo)))
    && (Remove(c.tree, id) != [] ==> next.Some?)
    && (Remove(c.tree, id) == [] && (out.None? || out.value !in c.fifo) ==> next.None?)
  }

  lemma LeftOk(rqs: map<nat, Rq>, qs: map<nat, Cfqq>, q: nat, id: nat, next: Option<nat>, out: Option<nat>)
    requires QueuesOk(rqs, qs, out) && q in qs && id in qs[q].tree && out != Some(id) && NextOk(qs[q], id, next, out)
    ensures id in rqs && rqs[id].q == q && QueuesOk(rqs - {id}, qs[q := Left(qs[q], id, next)], out)
  {
    hide QueueOk, NextOk, Left;
    assert QueueOk(rqs, q, qs[q], out);
    LeftQueue(rqs, q, qs[q], id, next, out);
    var qs' := qs[q := Left(qs[q], id, next)];
    forall p | p in qs' ensures QueueOk(rqs - {id}, p, qs'[p], out) {
      if p != q { OtherQueue(rqs, p, qs[p], id, out); }
    }
  }

  lemma LeftQueue(rqs: map<nat, Rq>, q: nat, c: Cfqq, id: nat, next: Option<nat>, out: Option<nat>)
    requires QueueOk(rqs, q, c, out) && id in c.tree && out != Some(id) && NextOk(c, id, next, out)
    ensures id in rqs && rqs[id].q == q && QueueOk(rqs - {id}, q, Left(c, id, next), out)
  {
    hide NoDup, Remove, BySector;
    RemoveFacts(c.tree, id);
    RemoveFacts(c.fifo, id);
    RemovedSorted(c.tree, rqs, id);
    SamePlaces(Remove(c.tree, id), rqs, rqs - {id});
  }

  lemma OtherQueue(rqs: map<nat, Rq>, p: nat, c: Cfqq, id: nat, out: Option<nat>)
    requires QueueOk(rqs, p, c, out) && id in rqs && rqs[id].q != p
    ensures QueueOk(rqs - {id}, p, c, out)
  {
    hide NoDup, BySector;
    SamePlaces(c.tree, rqs, rqs - {id});
  }

  /** A request in the FIFO, at the end if it is new. */
  function Filed(c: Cfqq, id: nat): Cfqq {
    if id in c.fifo then c else c.(fifo := c.fifo + [id])
  }

  /** A request enters the tree. */
  function Entered(c: Cfqq, id: nat, k: nat, next: Option<nat>): Cfqq
    requires k <= |c.tree|
  {
    Cfqq(c.tree[..k] + [id] + c.tree[k..], c.fifo, next, true)
  }

  lemma EnteredOk(rqs: map<nat, Rq>, qs: map<nat, Cfqq>, q: nat, id: nat, k: nat, next: Option<nat>)
    requires QueuesOk(rqs, qs, Some(id)) && q in qs && id in rqs && rqs[id].q == q && k <= |qs[q].tree|
    requires next.Some? && (next.value == id || next == qs[q].next) && PlaceFor(qs[q].tree, rqs, id, k)
    ensures QueuesOk(rqs, qs[q := Filed(Entered(qs[q], id, k, next), id)], None)
  {
    hide QueueOk, Entered, Filed;
    assert QueueOk(rqs, q, qs[q], Some(id));
    EnteredQueue(rqs, q, qs[q], id, k, next);
    var qs' := qs[q := Filed(Entered(qs[q], id, k, next), id)];
    forall p | p in qs' ensures QueueOk(rqs, p, qs'[p], None) {
      if p != q { AwayQueue(rqs, p, qs[p], id); }
    }
  }

  lemma EnteredQueue(rqs: map<nat, Rq>, q: nat, c: Cfqq, id: nat, k: nat, next: Option<nat>)
    requires QueueOk(rqs, q, c, Some(id)) && id in rqs && rqs[id].q == q && k <= |c.tree|
    requires next.Some? && (next.value == id || next == c.next) && PlaceFor(c.tree, rqs, id, k)
    ensures QueueOk(rqs, q, Filed(Entered(c, id, k, next), id), None)
  {
    hide NoDup, BySector, PosOf;
    InsertFacts(c.tree, k, id);
    InsertedSorted(c.tree, rqs, id, k);
    if id !in c.fifo {
      InsertFacts(c.fifo, |c.fifo|, id);
      assert c.fifo[..|c.fifo|] + [id] + c.fifo[|c.fifo|..] == c.fifo + [id];
    }
  }

  /** Where `id` belongs in a tree without a request at its sector. */
  ghost predicate PlaceFor(tree: seq<nat>, rqs: map<nat, Rq>, id: nat, k: nat) {
    && k <= |tree|
    && (forall i :: 0 <= i < k ==> PosOf(rqs, tree[i]) < PosOf(rqs, id))
    && (forall i :: k <= i < |tree| ==> PosOf(rqs, id) < PosOf(rqs, tree[i]))
  }

  /** What is out of another queue's tree does not matter here. */
  lemma AwayQueue(rqs: map<nat, Rq>, p: nat, c: Cfqq, id: nat)
    requires id in rqs && rqs[id].q != p
    ensures QueueOk(rqs, p, c, Some(id)) <==> QueueOk(rqs, p, c, None)
  {
    hide NoDup, BySector;
  }

  /** A new request, neither in the FIFO nor in the tree yet. */
  lemma ArrivedOk(rqs: map<nat, Rq>, qs: map<nat, Cfqq>, id: nat, rq: Rq)
    requires QueuesOk(rqs, qs, None) && id !in rqs && rq.q in qs
    ensures QueuesOk(rqs[id := rq], qs, Some(id)) && id !in qs[rq.q].fifo
  {
    hide QueueOk;
    forall p | p in qs ensures QueueOk(rqs[id := rq], p, qs[p], Some(id)) && id !in qs[p].fifo {
      assert QueueOk(rqs, p, qs[p], None);
      ArrivedQueue(rqs, p, qs[p], id, rq);
    }
  }

  lemma ArrivedQueue(rqs: map<nat, Rq>, q: nat, c: Cfqq, id: nat, rq: Rq)
    requires QueueOk(rqs, q, c, None) && id !in rqs
    ensures QueueOk(rqs[id := rq], q, c, Some(id)) && id !in c.fifo
  {
    hide NoDup, BySector;
    SamePlaces(c.tree, rqs, rqs[id := rq]);
  }

  /** A request off its tree, to be put back at another position. */
  lemma LiftedOk(rqs: map<nat, Rq>, qs: map<nat, Cfqq>, id: nat, pos: nat)
    requires QueuesOk(rqs, qs, None) && id in rqs
    ensures var c := qs[rqs[id].q];
            QueuesOk(rqs[id := rqs[id].(pos := pos)], qs[rqs[id].q := c.(tree := Remove(c.tree, id))], Some(id))
  {
    hide QueueOk, Remove;
    var q := rqs[id].q;
    var rqs', qs' := rqs[id := rqs[id].(pos := pos)], qs[q := qs[q].(tree := Remove(qs[q].tree, id))];
    forall p | p in qs' ensures QueueOk(rqs', p, qs'[p], Some(id)) {
      assert QueueOk(rqs, p, qs[p], None);
      LiftedQueue(rqs, p, qs[p], id, pos);
    }
  }

  lemma LiftedQueue(rqs: map<nat, Rq>, p: nat, c: Cfqq, id: nat, pos: nat)
    requires QueueOk(rqs, p, c, None) && id in rqs
    ensures QueueOk(rqs[id := rqs[id].(pos := pos)], p,
                    if p == rqs[id].q then c.(tree := Remove(c.tree, id)) else c, Some(id))
  {
    hide QueueOk;
    if p == rqs[id].q {
      LiftedOwn(rqs, p, c, id, pos);
    } else {
      LiftedOther(rqs, p, c, id, pos);
    }
  }

  lemma LiftedOwn(rqs: map<nat, Rq>, p: nat, c: Cfqq, id: nat, pos: nat)
    requires QueueOk(rqs, p, c, None) && id in rqs && p == rqs[id].q
    ensures QueueOk(rqs[id := rqs[id].(pos := pos)], p, c.(tree := Remove(c.tree, id)), Some(id))
  {
    hide NoDup, Remove, BySector;
    RemoveFacts(c.tree, id);
    RemovedSorted(c.tree, rqs, id);
    SamePlaces(Remove(c.tree, id), rqs, rqs[id := rqs[id].(pos := pos)]);
  }

  lemma LiftedOther(rqs: map<nat, Rq>, p: nat, c: Cfqq, id: nat, pos: nat)
    requires QueueOk(rqs, p, c, None) && id in rqs && p != rqs[id].q
    ensures QueueOk(rqs[id := rqs[id].(pos := pos)], p, c, Some(id))
  {
    hide NoDup, BySector;
    SamePlaces(c.tree, rqs, rqs[id := rqs[id].(pos := pos)]);
  }

  /** A FIFO rearranged. */
  lemma ReorderedQueue(rqs: map<nat, Rq>, q: nat, c: Cfqq, fifo: seq<nat>)
    requires QueueOk(rqs, q, c, None) && NoDup(fifo) && forall x :: x in fifo <==> x in c.fifo
    ensures QueueOk(rqs, q, c.(fifo := fifo), None)
  {
    hide NoDup, BySector;
  }

  lemma ReorderedOk(rqs: map<nat, Rq>, qs: map<nat, Cfqq>, q: nat, fifo: seq<nat>)
    requires QueuesOk(rqs, qs, None) && q in qs && NoDup(fifo) && forall x :: x in fifo <==> x in qs[q].fifo
    ensures QueuesOk(rqs, qs[q := qs[q].(fifo := fifo)], None)
  {
    hide NoDup, BySector, QueueOk;
    var qs' := qs[q := qs[q].(fifo := fifo)];
    assert QueueOk(rqs, q, qs[q], None);
    ReorderedQueue(rqs, q, qs[q], fifo);
    forall p | p in qs' ensures QueueOk(rqs, p, qs'[p], None) {
      assert QueueOk(rqs, p, qs[p], None);
    }
  }

  /** The FIFO with `id` in the place of `next`. */
  function InPlaceOf(fifo: seq<nat>, next: nat, id: nat): seq<nat> {
    if fifo == [] then [] else if fifo[0] == next then [id] + fifo[1..] else [fifo[0]] + InPlaceOf(fifo[1..], next, id)
  }

  /** Put behind `next`, which then goes, is put in its place. */
  lemma {:induction false} PutInPlace(fifo: seq<nat>, next: nat, id: nat)
    requires next in fifo && id != next
    ensures var k := IndexOf(fifo, next) + 1; Remove(fifo[..k] + [id] + fifo[k..], next) == InPlaceOf(fifo, next, id)
    decreases |fifo|
  {
    var k := IndexOf(fifo, next) + 1;
    var q := fifo[..k] + [id] + fifo[k..];
    if fifo[0] == next {
      assert q == [next] + ([id] + fifo[1..]);
    } else {
      InTail(fifo, next);
      var rest := fifo[1..];
      PutInPlace(rest, next, id);
      assert q == [fifo[0]] + (rest[..k-1] + [id] + rest[k-1..]);
    }
  }

  class CfqData {
    const backMax: nat
    const backPenalty: nat
    var last: nat
    var rqs: map<nat, Rq>
    var qs: map<nat, Cfqq>
    var service: seq<nat>
    var left: Option<nat>
    var busy: int
    var rqQueued: int
    var dispatched: seq<nat>

    ghost predicate Shape(out: Option<nat>)
      reads this
    {
      QueuesOk(rqs, qs, out) && ServiceOk(qs, service, left, busy)
    }

    ghost predicate Valid()
      reads this
    {
      Shape(None) && rqQueued == |rqs|
    }

    constructor (backMax: nat, backPenalty: nat, queues: set<nat>)
      ensures Valid() && rqs == map[] && qs.Keys == queues && dispatched == []
    {
      this.backMax, this.backPenalty, last := backMax, backPenalty, 0;
      rqs, qs := map[], map q | q in queues :: Cfqq([], [], None, false);
      service, left, busy, rqQueued, dispatched := [], None, 0, 0, [];
    }

    function Where(): Head
      reads `last
    {
      Head(last, backMax, backPenalty)
    }

    /** `cfq_rb_first`: the first of the service tree, cached. */
    method First() returns (q: Option<nat>)
      requires ServiceOk(qs, service, left, busy)
      modifies `left
      ensures ServiceOk(qs, service, left, busy)
      ensures q == if service == [] then None else Some(service[0])
    {
      if left.None? && service != [] {
        left := Some(service[0]);
      }
      q := left;
    }

    /** `cfq_rb_erase`. */
    method Erase(q: nat)
      modifies `service, `left
      ensures service == Remove(old(service), q) && left == if old(left) == Some(q) then None else old(left)
    {
      if left == Some(q) {
        left := None;
      }
      service := Remove(service, q);
    }

    /** `cfq_service_tree_add`, for whatever place the key gives: erased from its old place, and
        cached as leftmost if it went left all the way. */
    method ServiceTreeAdd(q: nat, place: nat, samePlace: bool)
      requires ServiceButFor(qs, service, left, q) && q in qs && qs[q].onRr
      modifies `service, `left
      ensures ServiceOk(qs, service, left, |service|) && |service| == |old(service)| + if q in old(service) then 0 else 1
    {
      hide NoDup, Remove;
      if q in service {
        if samePlace {
          return;
        }
        RemoveFacts(service, q);
        EraseFirst(service, q);
        Erase(q);
      }
      var k := if place <= |service| then place else |service|;
      InsertFacts(service, k, q);
      if k == 0 {
        left := Some(q);
      }
      service := service[..k] + [q] + service[k..];
    }

    /** `cfq_resort_rr_list`, as when a slice expires. */
    method Resort(q: nat, place: nat, samePlace: bool)
      requires Valid() && q in qs
      modifies `service, `left
      ensures Valid()
    {
      hide QueuesOk;
      AddAgain(qs, service, left, busy, q);
      if qs[q].onRr {
        ServiceTreeAdd(q, place, samePlace);
      }
    }

    /** `cfq_remove_request`, once the queue's next request is settled: off the FIFO and the tree,
        and the queue off the service tree if that was its last request. */
    method Detach(id: nat, next: Option<nat>, out: Option<nat>)
      requires Shape(out) && id in rqs && out != Some(id) && NextOk(qs[rqs[id].q], id, next, out)
      modifies `rqs, `qs, `service, `left, `busy, `rqQueued
      ensures Shape(out) && rqs == old(rqs) - {id} && |rqs| == |old(rqs)| - 1 && rqQueued == old(rqQueued) - 1
      ensures qs == old(qs)[old(rqs)[id].q := Left(old(qs)[old(rqs)[id].q], id, next)]
    {
      hide QueuesOk, ServiceOk;
      var q := rqs[id].q;
      InTree(rqs, qs, id, out);
      var c := qs[q];
      LeftOk(rqs, qs, q, id, next, out);
      LeftService(qs, q, Left(c, id, next), service, left, busy);
      qs := qs[q := Left(c, id, next)];
      if c.onRr && !qs[q].onRr {
        assert busy > 0;
        Erase(q);
        busy := busy - 1;
      }
      assert rqs.Keys == (rqs - {id}).Keys + {id};
      rqs := rqs - {id};
      rqQueued := rqQueued - 1;
    }

    /** `cfq_dispatch_insert`. */
    method DispatchInsert(id: nat, out: Option<nat>)
      requires Shape(out) && id in rqs && out != Some(id)
      modifies `rqs, `qs, `service, `left, `busy, `rqQueued, `dispatched
      ensures Shape(out) && rqs == old(rqs) - {id} && |rqs| == |old(rqs)| - 1 && rqQueued == old(rqQueued) - 1
      ensures dispatched == old(dispatched) + [id] && qs.Keys == old(qs).Keys
      ensures forall q, x :: q in qs && x != id ==> (x in qs[q].fifo <==> x in old(qs)[q].fifo)
      ensures forall q :: q in qs && q != old(rqs)[id].q ==> qs[q] == old(qs)[q]
      ensures var q := old(rqs)[id].q;
              q in qs && id in old(qs)[q].tree && qs[q].next == FindNext(Where(), old(rqs), old(qs)[q].tree, id)
    {
      hide QueuesOk, ServiceOk, Remove;
      InTree(rqs, qs, id, out);
      var c := qs[rqs[id].q];
      RemoveFacts(c.fifo, id);
      var next := FindNext(Where(), rqs, c.tree, id);
      FindNextOk(Where(), rqs, c.tree, id);
      Detach(id, next, out);
      dispatched := dispatched + [id];
    }

    /** The removal of a request merged into another. */
    method RemoveRequest(id: nat)
      requires Valid() && id in rqs
      modifies `rqs, `qs, `service, `left, `busy, `rqQueued
      ensures Valid() && rqs == old(rqs) - {id}
      ensures forall q :: q in qs && q != old(rqs)[id].q ==> q in old(qs) && qs[q] == old(qs)[q]
      ensures var q := old(rqs)[id].q;
              && q in qs && id in old(qs)[q].tree
              && qs[q].fifo == Remove(old(qs)[q].fifo, id)
              && qs[q].next == if old(qs)[q].next == Some(id) then FindNext(Where(), old(rqs), old(qs)[q].tree, id)
                               else old(qs)[q].next
    {
      hide QueuesOk, ServiceOk;
      InTree(rqs, qs, id, None);
      var c := qs[rqs[id].q];
      var next := c.next;
      FindNextOk(Where(), rqs, c.tree, id);
      KeptNext(rqs, qs, id);
      if next == Some(id) {
        next := FindNext(Where(), rqs, c.tree, id);
      }
      Detach(id, next, None);
    }

    /** A request of the tree that starts where `id` does. */
    method FindAlias(tree: seq<nat>, id: nat) returns (alias: Option<nat>)
      requires id in rqs && forall x :: x in tree ==> x in rqs
      ensures alias.Some? ==> alias.value in tree && rqs[alias.value].pos == rqs[id].pos
      ensures alias.None? ==> forall x :: x in tree ==> rqs[x].pos != rqs[id].pos
    {
      for i := 0 to |tree|
        invariant forall x :: x in tree[..i] ==> rqs[x].pos != rqs[id].pos
      {
        if rqs[tree[i]].pos == rqs[id].pos {
          return Some(tree[i]);
        }
        assert tree[..i+1] == tree[..i] + [tree[i]];
      }
      assert tree[..|tree|] == tree;
      alias := None;
    }

    /** `cfq_add_rq_rb`: requests in the way go to the dispatch queue, the queue goes on the
        service tree if it is not there, and the new request may be the better next one. */
    method AddRqRb(id: nat, place: nat) returns (ghost gone: seq<nat>)
      requires Shape(Some(id)) && id in rqs && rqs[id].q in qs
      modifies `rqs, `qs, `service, `left, `busy, `rqQueued, `dispatched
      ensures ButFiled(id) && dispatched == old(dispatched) + gone && Gone(old(rqs), rqs, gone)
      ensures forall x :: x in gone ==> old(rqs)[x].pos == old(rqs)[id].pos && old(rqs)[x].q == old(rqs)[id].q
      ensures rqs[id] == old(rqs)[id] && (id in qs[rqs[id].q].fifo <==> id in old(qs)[rqs[id].q].fifo)
      ensures rqQueued - |rqs| == old(rqQueued) - |old(rqs)|
      ensures gone == [] ==> qs[rqs[id].q].next == Choose(Where(), rqs, old(qs)[rqs[id].q].next, Some(id))
      ensures gone != [] ==> qs[rqs[id].q].next == Some(id) ||
                             (qs[rqs[id].q].next.Some? && qs[rqs[id].q].next.value in rqs &&
                              Prefers(Where(), rqs[qs[rqs[id].q].next.value], rqs[id]))
    {
      hide QueuesOk, ServiceOk, Gone;
      var q := rqs[id].q;
      gone := [];
      GoneNone(rqs);
      TreeQueued(rqs, qs, id);
      var alias := FindAlias(qs[q].tree, id);
      while alias.Some?
        invariant Shape(Some(id)) && id in rqs && rqs[id] == old(rqs)[id] && q in qs && q in old(qs)
        invariant rqQueued - |rqs| == old(rqQueued) - |old(rqs)| && (id in qs[q].fifo <==> id in old(qs)[q].fifo)
        invariant dispatched == old(dispatched) + gone && Gone(old(rqs), rqs, gone)
        invariant gone == [] ==> qs == old(qs) && rqs == old(rqs)
        invariant forall x :: x in gone ==> x in old(rqs) && old(rqs)[x].pos == old(rqs)[id].pos && old(rqs)[x].q == q
        invariant alias.Some? ==> alias.value in qs[q].tree && alias.value in rqs && rqs[alias.value].pos == rqs[id].pos
        invariant alias.None? ==> forall x :: x in qs[q].tree && x in rqs ==> rqs[x].pos != rqs[id].pos
        decreases |rqs|
      {
        TreeQueued(rqs, qs, id);
        GoneOne(old(rqs), rqs, gone, alias.value);
        assert old(dispatched) + gone + [alias.value] == old(dispatched) + (gone + [alias.value]);
        gone := gone + [alias.value];
        DispatchInsert(alias.value, Some(id));
        TreeQueued(rqs, qs, id);
        alias := FindAlias(qs[q].tree, id);
      }
      Enter(id, place);
    }

    /** Into the tree at its sector, and on with the rest of `cfq_add_rq_rb`. */
    method Enter(id: nat, place: nat)
      requires Shape(Some(id)) && id in rqs && rqs[id].q in qs
      requires forall x :: x in qs[rqs[id].q].tree && x in rqs ==> rqs[x].pos != rqs[id].pos
      modifies `qs, `service, `left, `busy
      ensures ButFiled(id) && qs[rqs[id].q].fifo == old(qs)[rqs[id].q].fifo
      ensures qs[rqs[id].q].next == Choose(Where(), rqs, old(qs)[rqs[id].q].next, Some(id))
      ensures forall q :: q in qs && q != rqs[id].q ==> q in old(qs) && qs[q] == old(qs)[q]
    {
      hide QueuesOk;
      var q := rqs[id].q;
      TreeQueued(rqs, qs, id);
      var c, k := qs[q], 0;
      while k < |c.tree| && rqs[c.tree[k]].pos < rqs[id].pos
        invariant k <= |c.tree| && forall i :: 0 <= i < k ==> PosOf(rqs, c.tree[i]) < PosOf(rqs, id)
      {
        k := k + 1;
      }
      AllAbove(rqs, qs, id, k);
      var next := Choose(Where(), rqs, c.next, Some(id));
      EnteredOk(rqs, qs, q, id, k, next);
      qs := qs[q := Entered(c, id, k, next)];
      assert qs[q := Filed(qs[q], id)] == old(qs)[q := Filed(Entered(c, id, k, next), id)];
      if !c.onRr {
        ServiceTreeAdd(q, place, false);
        busy := busy + 1;
      }
    }

    /** All is well once `id` is in the FIFO. */
    ghost predicate ButFiled(id: nat)
      reads this
    {
      && id in rqs && rqs[id].q in qs && ServiceOk(qs, service, left, busy)
      && QueuesOk(rqs, qs[rqs[id].q := Filed(qs[rqs[id].q], id)], None)
    }

    /** `cfq_insert_request`. */
    method InsertRequest(id: nat, rq: Rq, place: nat) returns (ghost gone: seq<nat>)
      requires Valid() && id !in rqs && rq.q in qs
      modifies `rqs, `qs, `service, `left, `busy, `rqQueued, `dispatched
      ensures Valid() && dispatched == old(dispatched) + gone && Gone(old(rqs)[id := rq], rqs, gone) && id in rqs
      ensures rq.q in qs && (gone == [] ==> qs[rq.q].next == Choose(Where(), rqs, old(qs)[rq.q].next, Some(id)))
    {
      hide QueuesOk, Gone;
      ArrivedOk(rqs, qs, id, rq);
      assert rqs[id := rq].Keys == rqs.Keys + {id};
      rqs := rqs[id := rq];
      gone := AddRqRb(id, place);
      var c := qs[rq.q];
      qs := qs[rq.q := c.(fifo := c.fifo + [id])];
      rqQueued := rqQueued + 1;
    }

    /** `cfq_merged_request` after a front merge: `cfq_reposition_rq_rb`. */
    method FrontMerged(id: nat, pos: nat, place: nat) returns (ghost gone: seq<nat>)
      requires Valid() && id in rqs
      modifies `rqs, `qs, `service, `left, `busy, `rqQueued, `dispatched
      ensures Valid() && dispatched == old(dispatched) + gone && id in rqs
      ensures Gone(old(rqs)[id := old(rqs)[id].(pos := pos)], rqs, gone)
    {
      hide QueuesOk, Gone, Remove;
      LiftedOk(rqs, qs, id, pos);
      InTree(rqs, qs, id, None);
      InFifo(rqs, qs, id);
      var q := rqs[id].q;
      var c := qs[q];
      qs := qs[q := c.(tree := Remove(c.tree, id))];
      assert rqs[id := rqs[id].(pos := pos)].Keys == rqs.Keys;
      rqs := rqs[id := rqs[id].(pos := pos)];
      gone := AddRqRb(id, place);
      assert qs[q := qs[q]] == qs;
    }

    /** `cfq_merged_requests`: `next`, a neighbour in the same tree, goes into `id`, which takes
        its place in the FIFO if that is the older one. */
    method MergedRequests(id: nat, next: nat, older: bool)
      requires Valid() && id in rqs && next in rqs && id != next && rqs[id].q == rqs[next].q
      modifies `rqs, `qs, `service, `left, `busy, `rqQueued
      ensures Valid() && rqs == old(rqs) - {next}
      ensures var q := old(rqs)[id].q; var fifo := old(qs)[q].fifo;
              q in qs && qs[q].fifo == if older then InPlaceOf(Remove(fifo, id), next, id) else Remove(fifo, next)
    {
      hide QueuesOk, NoDup, Remove, InPlaceOf;
      if older {
        var q := rqs[id].q;
        InFifo(rqs, qs, id);
        InFifo(rqs, qs, next);
        var fifo := qs[q].fifo;
        RemoveFacts(fifo, id);
        var rest := Remove(fifo, id);
        var k := IndexOf(rest, next) + 1;
        InsertFacts(rest, k, id);
        PutInPlace(rest, next, id);
        ReorderedOk(rqs, qs, q, rest[..k] + [id] + rest[k..]);
        qs := qs[q := qs[q].(fifo := rest[..k] + [id] + rest[k..])];
      }
      RemoveRequest(next);
    }

    /** `__cfq_forced_dispatch_cfqq`. */
    method ForcedDispatchQueue(q: nat) returns (ghost gone: seq<nat>, n: nat)
      requires Valid() && q in qs
      modifies `rqs, `qs, `service, `left, `busy, `rqQueued, `dispatched
      ensures Valid() && q in qs && qs[q].tree == [] && qs[q].fifo == [] && q !in service
      ensures dispatched == old(dispatched) + gone && Gone(old(rqs), rqs, gone) && n == |gone| && |rqs| == |old(rqs)| - n
      ensures qs.Keys == old(qs).Keys && (old(qs)[q].next.Some? ==> n > 0)
    {
      hide QueuesOk, ServiceOk, Gone;
      gone, n := [], 0;
      GoneNone(rqs);
      while qs[q].next.Some?
        invariant Valid() && q in qs && qs.Keys == old(qs).Keys && (n == 0 ==> qs == old(qs))
        invariant dispatched == old(dispatched) + gone && Gone(old(rqs), rqs, gone) && n == |gone| && |rqs| == |old(rqs)| - n
        decreases |rqs|
      {
        var id := qs[q].next.value;
        NextQueued(rqs, qs, q);
        GoneOne(old(rqs), rqs, gone, id);
        assert old(dispatched) + gone + [id] == old(dispatched) + (gone + [id]);
        gone, n := gone + [id], n + 1;
        DispatchInsert(id, None);
      }
      AllOrNone(rqs, qs, service, left, busy, q);
      assert qs[q].fifo == [];
    }

    /** `cfq_forced_dispatch`: everything is dispatched, each request once. */
    method ForcedDispatch() returns (ghost gone: seq<nat>, n: nat)
      requires Valid()
      modifies `rqs, `qs, `service, `left, `busy, `rqQueued, `dispatched
      ensures Valid() && rqs == map[] && busy == 0 && rqQueued == 0 && service == []
      ensures dispatched == old(dispatched) + gone && n == |gone| == |old(rqs)|
      ensures NoDup(gone) && forall id :: id in gone <==> id in old(rqs)
    {
      hide QueuesOk, ServiceOk, Gone;
      gone, n := [], 0;
      GoneNone(rqs);
      var first := First();
      while first.Some?
        invariant Valid() && first == if service == [] then None else Some(service[0])
        invariant dispatched == old(dispatched) + gone && Gone(old(rqs), rqs, gone) && n == |gone| && |rqs| == |old(rqs)| - n
        decreases |rqs|
      {
        FirstBusy(rqs, qs, service, left, busy);
        ghost var more;
        var m;
        ghost var before := rqs;
        more, m := ForcedDispatchQueue(first.value);
        GoneMore(old(rqs), before, rqs, gone, more);
        assert old(dispatched) + gone + more == old(dispatched) + (gone + more);
        gone, n := gone + more, n + m;
        first := First();
      }
      ServedAll(rqs, qs, service, left, busy);
      GoneAll(old(rqs), rqs, gone);
      assert busy == 0;
    }
  }

  /** Requests that have gone from `before`, in order, each once. */
  ghost predicate Gone(before: map<nat, Rq>, after: map<nat, Rq>, gone: seq<nat>) {
    && NoDup(gone)
    && (forall id :: id in before <==> id in after || id in gone)
    && (forall id :: id in after ==> id !in gone && after[id] == before[id])
  }

  lemma GoneNone(rqs: map<nat, Rq>)
    ensures Gone(rqs, rqs, [])
  {
  }

  lemma GoneOne(before: map<nat, Rq>, after: map<nat, Rq>, gone: seq<nat>, id: nat)
    requires Gone(before, after, gone) && id in after
    ensures Gone(before, after - {id}, gone + [id]) && id in before && before[id] == after[id]
  {
  }

  lemma GoneMore(before: map<nat, Rq>, mid: map<nat, Rq>, after: map<nat, Rq>, gone: seq<nat>, more: seq<nat>)
    requires Gone(before, mid, gone) && Gone(mid, after, more)
    ensures Gone(before, after, gone + more)
  {
    var all := gone + more;
    forall i, j | 0 <= i < j < |all| ensures all[i] != all[j] {
      if i < |gone| <= j {
        assert all[i] in gone && all[j] in more;
      }
    }
  }

  lemma GoneAll(before: map<nat, Rq>, after: map<nat, Rq>, gone: seq<nat>)
    requires Gone(before, after, gone) && after == map[]
    ensures NoDup(gone) && forall id :: id in gone <==> id in before
  {
  }

  lemma TreeQueued(rqs: map<nat, Rq>, qs: map<nat, Cfqq>, id: nat)
    requires QueuesOk(rqs, qs, Some(id)) && id in rqs
    ensures rqs[id].q in qs && forall x :: x in qs[rqs[id].q].tree ==> x in rqs && rqs[x].q == rqs[id].q && x != id
  {
    assert QueueOk(rqs, rqs[id].q, qs[rqs[id].q], Some(id));
  }

  /** In a sorted tree one comparison places a request. */
  lemma AllAbove(rqs: map<nat, Rq>, qs: map<nat, Cfqq>, id: nat, k: nat)
    requires QueuesOk(rqs, qs, Some(id)) && id in rqs && rqs[id].q in qs && k <= |qs[rqs[id].q].tree|
    requires var tree := qs[rqs[id].q].tree;
             && (forall x :: x in tree && x in rqs ==> rqs[x].pos != rqs[id].pos)
             && (forall i :: 0 <= i < k ==> PosOf(rqs, tree[i]) < PosOf(rqs, id))
             && (k < |tree| ==> PosOf(rqs, tree[k]) >= PosOf(rqs, id))
    ensures PlaceFor(qs[rqs[id].q].tree, rqs, id, k)
  {
    hide NoDup;
    var tree := qs[rqs[id].q].tree;
    assert QueueOk(rqs, rqs[id].q, qs[rqs[id].q], Some(id));
    assert k < |tree| ==> tree[k] in tree;
  }

  lemma NextQueued(rqs: map<nat, Rq>, qs: map<nat, Cfqq>, q: nat)
    requires QueuesOk(rqs, qs, None) && q in qs && qs[q].next.Some?
    ensures qs[q].next.value in rqs
  {
    assert QueueOk(rqs, q, qs[q], None);
  }

  /** The first queue of the service tree has something to dispatch. */
  lemma FirstBusy(rqs: map<nat, Rq>, qs: map<nat, Cfqq>, service: seq<nat>, left: Option<nat>, busy: int)
    requires QueuesOk(rqs, qs, None) && ServiceOk(qs, service, left, busy) && service != []
    ensures service[0] in qs && qs[service[0]].next.Some?
  {
    assert service[0] in service;
    assert QueueOk(rqs, service[0], qs[service[0]], None);
  }

  lemma ServedAll(rqs: map<nat, Rq>, qs: map<nat, Cfqq>, service: seq<nat>, left: Option<nat>, busy: int)
    requires QueuesOk(rqs, qs, None) && ServiceOk(qs, service, left, busy)
    ensures service == [] ==> busy == 0 && rqs == map[]
  {
    hide NoDup;
    forall id | id in rqs ensures rqs[id].q in service {
      assert QueueOk(rqs, rqs[id].q, qs[rqs[id].q], None);
      assert id in qs[rqs[id].q].tree;
    }
  }

  lemma InTree(rqs: map<nat, Rq>, qs: map<nat, Cfqq>, id: nat, out: Option<nat>)
    requires QueuesOk(rqs, qs, out) && id in rqs && out != Some(id)
    ensures rqs[id].q in qs && id in qs[rqs[id].q].tree && NoDup(qs[rqs[id].q].tree) && NoDup(qs[rqs[id].q].fifo)
  {
    assert QueueOk(rqs, rqs[id].q, qs[rqs[id].q], out);
  }

  lemma InFifo(rqs: map<nat, Rq>, qs: map<nat, Cfqq>, id: nat)
    requires QueuesOk(rqs, qs, None) && id in rqs
    ensures rqs[id].q in qs && id in qs[rqs[id].q].fifo && NoDup(qs[rqs[id].q].fifo)
  {
    assert QueueOk(rqs, rqs[id].q, qs[rqs[id].q], None);
  }

  /** A next request other than the one that goes can stay. */
  lemma KeptNext(rqs: map<nat, Rq>, qs: map<nat, Cfqq>, id: nat)
    requires QueuesOk(rqs, qs, None) && id in rqs
    ensures var c := qs[rqs[id].q]; c.next != Some(id) ==> NextOk(c, id, c.next, None)
  {
    hide NoDup, Remove;
    var c := qs[rqs[id].q];
    assert QueueOk(rqs, rqs[id].q, c, None);
    RemoveFacts(c.tree, id);
    assert id in c.tree;
  }

  lemma LeftService(qs: map<nat, Cfqq>, q: nat, c: Cfqq, service: seq<nat>, left: Option<nat>, busy: int)
    requires ServiceOk(qs, service, left, busy) && q in qs && (c.onRr ==> qs[q].onRr)
    ensures c.onRr == qs[q].onRr ==> ServiceOk(qs[q := c], service, left, busy)
    ensures qs[q].onRr && !c.onRr ==> busy > 0
    ensures qs[q].onRr && !c.onRr ==> ServiceOk(qs[q := c], Remove(service, q), if left == Some(q) then None else left, busy - 1)
  {
    hide NoDup, Remove;
    RemoveFacts(service, q);
    if q in service {
      EraseFirst(service, q);
    }
  }

  /** The service tree is right but for `q`, which may be missing. */
  ghost predicate ServiceButFor(qs: map<nat, Cfqq>, service: seq<nat>, left: Option<nat>, q: nat) {
    && NoDup(service)
    && (forall p :: p != q ==> (p in service <==> p in qs && qs[p].onRr))
    && (left.Some? ==> service != [] && left.value == service[0])
  }

  lemma AddAgain(qs: map<nat, Cfqq>, service: seq<nat>, left: Option<nat>, busy: int, q: nat)
    requires ServiceOk(qs, service, left, busy) && q in qs
    ensures ServiceButFor(qs, service, left, q) && busy == |service| && (qs[q].onRr ==> q in service)
  {
  }

  lemma EraseFirst(service: seq<nat>, q: nat)
    requires q in service
    ensures service[0] != q ==> Remove(service, q) != [] && Remove(service, q)[0] == service[0]
  {
  }
}
