/** Runs of the deadline scheduler: the structures agree in every reachable state, writes
    are starved by a bounded number of reads only, and draining dispatches everything.
 */
module DeadlineRuns {
  import opened Lists
  import opened Deadline
  import opened DeadlineInv

  // ----- dispatching

  /** What is selected is queued, and the counters stay within their bounds. */
  lemma SelectOk(s: State)
    requires Inv(s)
    ensures var c := Select(s);
            && (c.Nothing? <==> s.r.fifo == [] && s.w.fifo == [])
            && (c.Selected? ==>
                  && c.id in s.rqs && c.id in s.At(s.rqs[c.id].dir).fifo
                  && 1 <= c.batching <= Batch(s.tun) && c.starved <= s.tun.writesStarved)
  {
    hide BySector, ByAge, NoDup;
    assert SideOk(s, Read, None) && SideOk(s, Write, None);
    assert s.r.fifo != [] ==> s.r.fifo[0] in s.r.fifo;
    assert s.w.fifo != [] ==> s.w.fifo[0] in s.w.fifo;
  }

  lemma CountersOk(s: State, batching: nat, starved: nat)
    requires Inv(s) && batching <= Batch(s.tun) && starved <= s.tun.writesStarved
    ensures Inv(s.(batching := batching, starved := starved))
  {
    hide BySector, ByAge, NoDup;
    assert SideOk(s, Read, None) && SideOk(s, Write, None);
  }

  /** Dispatching takes one request off both structures, unless there is none. */
  lemma DispatchOneOk(s: State)
    requires Inv(s)
    ensures var s' := DispatchOne(s); var c := Select(s);
            && Inv(s')
            && (c.Nothing? ==> s' == s)
            && (c.Selected? ==>
                  && s'.rqs == s.rqs - {c.id} && s'.dispatched == s.dispatched + [c.id]
                  && s'.nrSorted == s.nrSorted - 1 && s'.lastSector == s.rqs[c.id].pos + s.rqs[c.id].len
                  && s'.batching == c.batching && s'.starved == c.starved && s'.tun == s.tun)
  {
    hide InvBut, SideOk, MoveRequest, Select, NoDup;
    SelectOk(s);
    var c := Select(s);
    if c.Selected? {
      CountersOk(s, c.batching, c.starved);
      var t := s.(batching := c.batching, starved := c.starved);
      MoveRequestOk(t, c.id, None);
      FifoNoDup(t, s.rqs[c.id].dir);
      MoveShape(t, c.id);
    }
  }

  /** A batch goes on with the nearest request above the one just dispatched, if there is one. */
  lemma {:induction false} LatterIsNearest(tree: seq<nat>, rqs: map<nat, Rq>, id: nat)
    requires BySector(tree, rqs) && id in tree
    ensures var n := Latter(tree, id);
            && (n.Some? ==> n.value in tree && PosOf(rqs, n.value) > PosOf(rqs, id))
            && (forall x :: x in tree && PosOf(rqs, x) > PosOf(rqs, id) ==>
                  n.Some? && PosOf(rqs, n.value) <= PosOf(rqs, x))
    decreases |tree|
  {
    hide PosOf;
    if tree[0] == id {
      forall x | x in tree && PosOf(rqs, x) > PosOf(rqs, id)
        ensures |tree| >= 2 && PosOf(rqs, tree[1]) <= PosOf(rqs, x)
      {
        var i :| 0 <= i < |tree| && tree[i] == x;
      }
    } else {
      var rest := tree[1..];
      InTail(tree, id);
      assert BySector(rest, rqs);
      LatterIsNearest(rest, rqs, id);
      FirstLowest(tree, rqs, id);
    }
  }

  lemma FirstLowest(tree: seq<nat>, rqs: map<nat, Rq>, id: nat)
    requires BySector(tree, rqs) && id in tree && tree[0] != id
    ensures PosOf(rqs, tree[0]) < PosOf(rqs, id) && forall x :: x in tree ==> x == tree[0] || x in tree[1..]
  {
    hide PosOf;
    var i :| 0 <= i < |tree| && tree[i] == id;
    assert tree == [tree[0]] + tree[1..];
  }

  lemma BatchGoesOn(s: State)
    requires Inv(s) && Select(s).Selected?
    ensures var id, s' := Select(s).id, DispatchOne(s);
            && id in s.rqs
            && var d, next := s.rqs[id].dir, s'.At(s.rqs[id].dir).next;
            && (next.Some? ==> next.value in s'.rqs && s'.rqs[next.value].dir == d && s'.rqs[next.value].pos > s.rqs[id].pos)
            && (forall x :: x in s'.rqs && s'.rqs[x].dir == d && s'.rqs[x].pos > s.rqs[id].pos ==>
                  next.Some? && s'.rqs[next.value].pos <= s'.rqs[x].pos)
  {
    hide Select, NoDup, ByAge, Remove;
    SelectOk(s);
    DispatchOneOk(s);
    var id := Select(s).id;
    var d := s.rqs[id].dir;
    assert SideOk(s, d, None);
    LatterIsNearest(s.At(d).tree, s.rqs, id);
    assert DispatchOne(s).At(d).next == Latter(s.At(d).tree, id);
  }

  /** A new batch that cannot go on from the last one starts with the request that is due
      first in its direction. */
  lemma FreshBatchOldest(s: State, x: nat)
    requires Inv(s) && Select(s).Selected? && Select(s).batching == 1
    requires Select(s).id in s.rqs && x in s.rqs && s.rqs[x].dir == s.rqs[Select(s).id].dir
    requires s.At(s.rqs[x].dir).next.None?
    ensures s.rqs[Select(s).id].expire <= s.rqs[x].expire
  {
    hide SideOk;
    HeadOldest(s, s.rqs[x].dir, x);
    SelectOk(s);
    HeadQueued(s, Read);
    HeadQueued(s, Write);
  }

  lemma HeadOldest(s: State, d: Dir, x: nat)
    requires Inv(s) && x in s.rqs && s.rqs[x].dir == d
    ensures s.At(d).fifo != [] && s.At(d).fifo[0] in s.rqs && s.rqs[s.At(d).fifo[0]].expire <= s.rqs[x].expire
  {
    hide NoDup, BySector;
    assert SideOk(s, d, None);
    var i :| 0 <= i < |s.At(d).fifo| && s.At(d).fifo[i] == x;
    assert s.At(d).fifo[0] in s.At(d).fifo;
  }

  lemma HeadQueued(s: State, d: Dir)
    requires Inv(s)
    ensures s.At(d).fifo != [] ==> s.At(d).fifo[0] in s.rqs && s.rqs[s.At(d).fifo[0]].dir == d
    ensures s.At(d).next.Some? ==> s.At(d).next.value in s.rqs && s.rqs[s.At(d).next.value].dir == d
  {
    hide NoDup, BySector, ByAge;
    assert SideOk(s, d, None);
    assert s.At(d).fifo != [] ==> s.At(d).fifo[0] in s.At(d).fifo;
  }

  /** An added request gets its deadline, and displaces at most one at its own sector. */
  lemma AddRequestKeeps(s: State, id: nat, d: Dir, pos: nat, len: nat, x: nat)
    requires Inv(s) && id !in s.rqs && x in s.rqs
    ensures var s' := AddRequest(s, id, d, pos, len);
            && id in s'.rqs && s'.rqs[id] == Rq(d, pos, len, s.now + s.tun.Expire(d))
            && (x in s'.rqs ==> s'.rqs[x] == s.rqs[x])
            && (x !in s'.rqs ==> s.rqs[x].dir == d && s.rqs[x].pos == pos && s'.dispatched == s.dispatched + [x])
  {
    hide AddRqRb, NoDup, BySector, ByAge;
    assert SideOk(s, d, None);
    var rq := Rq(d, pos, len, s.now + s.tun.Expire(d));
    AddRqRbKeeps(s.(rqs := s.rqs[id := rq], nrSorted := s.nrSorted + 1), id, x);
  }

  /** A request grown at the front keeps its deadline; it, too, displaces at most one. */
  lemma FrontMergedKeeps(s: State, id: nat, pos: nat, len: nat, x: nat)
    requires Inv(s) && id in s.rqs && x in s.rqs && x != id
    ensures var s' := FrontMerged(s, id, pos, len);
            && id in s'.rqs && s'.rqs[id] == Rq(s.rqs[id].dir, pos, s.rqs[id].len + len, s.rqs[id].expire)
            && (x in s'.rqs ==> s'.rqs[x] == s.rqs[x])
            && (x !in s'.rqs ==> s.rqs[x].dir == s.rqs[id].dir && s.rqs[x].pos == pos && s'.dispatched == s.dispatched + [x])
  {
    hide AddRqRb, NoDup, BySector, ByAge, Remove;
    var d := s.rqs[id].dir;
    assert SideOk(s, d, None);
    TreeOnce(s, d);
    RemoveFacts(s.At(d).tree, id);
    var s1 := s.(rqs := s.rqs[id := s.rqs[id].(pos := pos, len := s.rqs[id].len + len)]);
    AddRqRbKeeps(s1.With(d, s1.At(d).(tree := Remove(s1.At(d).tree, id))), id, x);
  }

  lemma TreeOnce(s: State, d: Dir)
    requires Inv(s)
    ensures NoDup(s.At(d).tree)
  {
    assert SideOk(s, d, None);
    SectorNoDup(s.At(d).tree, s.rqs);
  }

  lemma AddRqRbKeeps(s: State, id: nat, x: nat)
    requires id in s.rqs && x in s.rqs && x != id && forall y :: y in s.At(s.rqs[id].dir).tree ==> y in s.rqs && s.rqs[y].dir == s.rqs[id].dir
    ensures var s' := AddRqRb(s, id);
            && id in s'.rqs && s'.rqs[id] == s.rqs[id] && (x in s'.rqs ==> s'.rqs[x] == s.rqs[x])
            && (x !in s'.rqs ==> s.rqs[x].dir == s.rqs[id].dir && s.rqs[x].pos == s.rqs[id].pos && s'.dispatched == s.dispatched + [x])
  {
    hide InsertSorted, Remove, Latter;
  }

  lemma FifoNoDup(s: State, d: Dir)
    requires InvBut(s, None)
    ensures NoDup(s.At(d).fifo)
  {
    assert SideOk(s, d, None);
  }

  // ----- events and runs

  datatype Event =
    | Add(id: nat, dir: Dir, pos: nat, len: nat)
    | MergeBack(id: nat, len: nat)
    | MergeFront(id: nat, pos: nat, len: nat)
    | Merge(id: nat, next: nat)
    | Dispatch
    | Tick(time: nat)

  predicate Mergeable(s: State, id: nat, next: nat) {
    id in s.rqs && next in s.rqs && s.rqs[id].dir == s.rqs[next].dir && id != next
  }

  function Apply(s: State, e: Event): State {
    match e
    case Add(id, d, pos, len) => if id in s.rqs then s else AddRequest(s, id, d, pos, len)
    case MergeBack(id, len) => if id in s.rqs then BackMerged(s, id, len) else s
    case MergeFront(id, pos, len) => if id in s.rqs then FrontMerged(s, id, pos, len) else s
    case Merge(id, next) => if Mergeable(s, id, next) then MergedRequests(s, id, next) else s
    case Dispatch => DispatchOne(s)
    case Tick(time) => s.(now := s.now + time)
  }

  lemma TickOk(s: State, time: nat)
    requires Inv(s)
    ensures Inv(s.(now := s.now + time))
  {
    hide BySector, ByAge, NoDup;
    assert SideOk(s, Read, None) && SideOk(s, Write, None);
  }

  lemma ApplyOk(s: State, e: Event)
    requires Inv(s)
    ensures Inv(Apply(s, e))
  {
    hide Inv, AddRequest, BackMerged, FrontMerged, MergedRequests, DispatchOne;
    match e
    case Add(id, d, pos, len) => if id !in s.rqs { AddRequestOk(s, id, d, pos, len); }
    case MergeBack(id, len) => if id in s.rqs { BackMergedOk(s, id, len); }
    case MergeFront(id, pos, len) => if id in s.rqs { FrontMergedOk(s, id, pos, len); }
    case Merge(id, next) => if Mergeable(s, id, next) { MergedRequestsOk(s, id, next); }
    case Dispatch => DispatchOneOk(s);
    case Tick(time) => TickOk(s, time);
  }

  function Exec(s: State, es: seq<Event>): State
    decreases |es|
  {
    if es == [] then s else Exec(Apply(s, es[0]), es[1..])
  }

  lemma {:induction false} ExecOk(s: State, es: seq<Event>)
    requires Inv(s)
    ensures Inv(Exec(s, es))
    decreases |es|
  {
    hide Inv, Apply;
    if es != [] {
      ApplyOk(s, es[0]);
      ExecOk(Apply(s, es[0]), es[1..]);
    }
  }

  /** Structure agreement in every reachable state. */
  lemma EveryRunAgrees(tun: Tunables, es: seq<Event>)
    ensures Inv(Exec(Init(tun), es))
  {
    InitOk(tun);
    ExecOk(Init(tun), es);
  }

  // ----- starvation

  /** How many reads may still be selected before a waiting write must be. */
  function Budget(s: State): int {
    (s.tun.writesStarved - s.starved) * Batch(s.tun) + (Batch(s.tun) - s.batching)
  }

  predicate Selects(s: State, e: Event, d: Dir) {
    e.Dispatch? && Select(s).Selected? && Select(s).id in s.rqs && s.rqs[Select(s).id].dir == d
  }

  /** Selecting a read while a write waits uses up budget. */
  lemma ReadCosts(s: State)
    requires Inv(s) && s.w.fifo != [] && Selects(s, Dispatch, Read)
    ensures 0 <= Budget(DispatchOne(s)) < Budget(s)
  {
    hide BySector, ByAge, NoDup, MoveRequest;
    DispatchOneOk(s);
    SelectOk(s);
    assert SideOk(s, Read, None) && SideOk(s, Write, None);
    assert s.w.fifo[0] in s.w.fifo;
    var c := Select(s);
    var b, ws := Batch(s.tun), s.tun.writesStarved;
    assert c.batching <= b;
    if c.starved == s.starved {
      BudgetStep(ws - s.starved, b, s.batching, c.batching);
    } else {
      BudgetDrop(ws - s.starved, b, s.batching, c.batching);
    }
  }

  lemma BudgetStep(k: int, b: nat, x: int, y: int)
    requires 0 <= k && x < y <= b
    ensures 0 <= k * b + (b - y) < k * b + (b - x)
  {
  }

  lemma BudgetDrop(k: int, b: nat, x: int, y: int)
    requires 1 <= k && x <= b && 1 <= y <= b
    ensures 0 <= (k - 1) * b + (b - y) < k * b + (b - x)
  {
    assert k * b == (k - 1) * b + b;
  }

  lemma SameCounters(s: State, e: Event)
    requires Inv(s) && !e.Dispatch?
    ensures var s' := Apply(s, e); s'.batching == s.batching && s'.starved == s.starved && s'.tun == s.tun
  {
    hide InsertSorted, Remove, Replace, Latter, FindPos, Inv, AddRqRb, RemoveRequest;
    match e
    case Add(id, d, pos, len) =>
      if id !in s.rqs {
        var rq := Rq(d, pos, len, s.now + s.tun.Expire(d));
        PlacedCounters(s.(rqs := s.rqs[id := rq], nrSorted := s.nrSorted + 1), id);
      }
    case MergeBack(id, len) =>
    case MergeFront(id, pos, len) =>
      if id in s.rqs {
        var d := s.rqs[id].dir;
        PlacedCounters(s.(rqs := s.rqs[id := s.rqs[id].(pos := pos, len := s.rqs[id].len + len)])
                        .With(d, s.At(d).(tree := Remove(s.At(d).tree, id))), id);
      }
    case Merge(id, next) => MergedCounters(s, id, next);
    case Tick(time) =>
  }

  lemma PlacedCounters(s: State, id: nat)
    requires id in s.rqs
    ensures var s' := AddRqRb(s, id); s'.batching == s.batching && s'.starved == s.starved && s'.tun == s.tun
  {
    hide InsertSorted, Remove, Latter, FindPos;
  }

  lemma MergedCounters(s: State, id: nat, next: nat)
    ensures Mergeable(s, id, next) ==>
              var s' := MergedRequests(s, id, next); s'.batching == s.batching && s'.starved == s.starved && s'.tun == s.tun
  {
    hide Remove, Replace, Latter;
  }

  /** Reads selected over a run. */
  function ReadsSelected(s: State, es: seq<Event>): nat
    decreases |es|
  {
    if es == [] then 0
    else (if Selects(s, es[0], Read) then 1 else 0) + ReadsSelected(Apply(s, es[0]), es[1..])
  }

  /** Some write waits throughout the run, and none is selected. */
  predicate WriteStarves(s: State, es: seq<Event>)
    decreases |es|
  {
    s.w.fifo != [] && (es != [] ==> !Selects(s, es[0], Write) && WriteStarves(Apply(s, es[0]), es[1..]))
  }

  lemma {:induction false} ReadsWithinBudget(s: State, es: seq<Event>)
    requires Inv(s) && WriteStarves(s, es)
    ensures ReadsSelected(s, es) <= Budget(s)
    decreases |es|
  {
    hide InvBut, Select, DispatchOne, AddRequest, BackMerged, FrontMerged, MergedRequests;
    BudgetNonneg(s);
    if es != [] {
      var e, s' := es[0], Apply(s, es[0]);
      ApplyOk(s, e);
      ReadsWithinBudget(s', es[1..]);
      if e.Dispatch? {
        DispatchIsRead(s);
        ReadCosts(s);
      } else {
        SameCounters(s, e);
      }
    }
  }

  lemma BudgetNonneg(s: State)
    requires Inv(s)
    ensures 0 <= Budget(s) <= (s.tun.writesStarved + 1) * Batch(s.tun)
  {
    hide SideOk;
    var b, ws, st := Batch(s.tun), s.tun.writesStarved, s.starved;
    assert (ws - st) * b >= 0;
    assert (ws + 1) * b == (ws - st) * b + (st * b + b);
    assert st * b >= 0;
  }

  lemma DispatchIsRead(s: State)
    requires Inv(s) && s.w.fifo != [] && !Selects(s, Dispatch, Write)
    ensures Selects(s, Dispatch, Read)
  {
    hide InvBut, Select;
    SelectOk(s);
  }

  /** While writes wait, at most (writes_starved + 1) * max(1, fifo_batch) reads are selected
      before a write is, whatever is added, merged or expires in between. */
  lemma WritesNotStarved(tun: Tunables, past: seq<Event>, es: seq<Event>)
    requires WriteStarves(Exec(Init(tun), past), es)
    ensures ReadsSelected(Exec(Init(tun), past), es) <= (tun.writesStarved + 1) * Batch(tun)
  {
    hide InvBut, Apply;
    EveryRunAgrees(tun, past);
    var s := Exec(Init(tun), past);
    ReadsWithinBudget(s, es);
    BudgetNonneg(s);
    InitOk(tun);
    TunablesFixed(Init(tun), past);
  }

  lemma {:induction false} TunablesFixed(s: State, es: seq<Event>)
    requires Inv(s)
    ensures Exec(s, es).tun == s.tun
    decreases |es|
  {
    hide InvBut, Apply;
    if es != [] {
      ApplyOk(s, es[0]);
      TunablesFixed(Apply(s, es[0]), es[1..]);
      ApplyTunables(s, es[0]);
    }
  }

  lemma ApplyTunables(s: State, e: Event)
    requires Inv(s)
    ensures Apply(s, e).tun == s.tun
  {
    hide InvBut, DispatchOne;
    if e.Dispatch? { DispatchOneOk(s); } else { SameCounters(s, e); }
  }

  // ----- draining

  /** Draining so far: `order` has gone from `s` to the dispatch queue, leaving `s'`. */
  ghost predicate Drained(s: State, s': State, order: seq<nat>) {
    && s'.dispatched == s.dispatched + order && NoDup(order)
    && (forall id :: id in s.rqs <==> id in s'.rqs || id in order)
    && (forall id :: id in order ==> id !in s'.rqs)
    && s'.nrSorted == s.nrSorted - |order|
  }

  lemma DrainStart(s: State)
    ensures Drained(s, s, [])
  {
    assert s.dispatched + [] == s.dispatched;
  }

  lemma DrainStep(s: State, t: State, order: seq<nat>, id: nat, t': State)
    requires Drained(s, t, order) && id in t.rqs
    requires t'.rqs == t.rqs - {id} && t'.dispatched == t.dispatched + [id] && t'.nrSorted == t.nrSorted - 1
    ensures Drained(s, t', order + [id]) && |t'.rqs| < |t.rqs|
  {
    assert s.dispatched + order + [id] == s.dispatched + (order + [id]);
    assert t.rqs.Keys == t'.rqs.Keys + {id};
    var r := order + [id];
    forall i, j | 0 <= i < j < |r| ensures r[i] != r[j] {
      assert r[i] in order;
    }
  }

  lemma DrainEnd(s: State, t: State, order: seq<nat>)
    requires Inv(t) && Drained(s, t, order) && t.r.fifo == [] && t.w.fifo == []
    ensures t.rqs == map[] && t.nrSorted == 0 && |t.dispatched| == |s.dispatched| + s.nrSorted
    ensures t.dispatched[..|s.dispatched|] == s.dispatched && t.dispatched[|s.dispatched|..] == order
    ensures NoDup(order) && forall id :: id in s.rqs <==> id in order
  {
    hide InvBut;
    QueuedSomewhere(t);
  }

  lemma QueuedSomewhere(s: State)
    requires Inv(s)
    ensures forall id :: id in s.rqs ==> id in s.r.fifo || id in s.w.fifo
    ensures s.nrSorted == |s.r.fifo| + |s.w.fifo|
  {
    hide BySector, ByAge, NoDup;
    forall id | id in s.rqs ensures id in s.r.fifo || id in s.w.fifo {
      QueuedOnFifo(s, id);
    }
  }
}
