/** The deadline scheduler as the object the kernel updates, each method tied to the function
    in Deadline that specifies it and keeping the invariant of DeadlineInv.
 */
module DeadlineObject {
  import opened Lists
  import opened Deadline
  import opened DeadlineInv
  import opened DeadlineRuns

  class DeadlineData {
    const tun: Tunables
    var now: nat
    var rqs: map<nat, Rq>
    var r: Side
    var w: Side
    var batching: nat
    var starved: nat
    var lastSector: nat
    var nrSorted: int
    var dispatched: seq<nat>

    function View(): State
      reads this
    {
      State(tun, now, rqs, r, w, batching, starved, lastSector, nrSorted, dispatched)
    }

    constructor (tunables: Tunables)
      ensures View() == Init(tunables) && Inv(View())
    {
      tun, now, rqs := tunables, 0, map[];
      r, w := Side([], [], None), Side([], [], None);
      batching, starved, lastSector, nrSorted, dispatched := 0, 0, 0, 0, [];
      new;
      InitOk(tun);
    }

    /** `deadline_remove_request`. */
    method RemoveRequest(id: nat)
      requires id in rqs
      modifies `r, `w
      ensures View() == Deadline.RemoveRequest(old(View()), id)
    {
      var d := rqs[id].dir;
      var side := View().At(d);
      var next := side.next;
      if next == Some(id) {
        next := Latter(side.tree, id);
      }
      side := Side(Remove(side.tree, id), Remove(side.fifo, id), next);
      if d.Read? { r := side; } else { w := side; }
    }

    /** `deadline_move_request` and `elv_dispatch_add_tail`. */
    method MoveRequest(id: nat)
      requires id in rqs
      modifies `r, `w, `lastSector, `nrSorted, `dispatched, `rqs
      ensures View() == Deadline.MoveRequest(old(View()), id)
    {
      hide Deadline.RemoveRequest;
      var rq := rqs[id];
      var later := Latter(View().At(rq.dir).tree, id);
      r, w := r.(next := if rq.dir.Read? then later else None), w.(next := if rq.dir.Read? then None else later);
      lastSector := rq.pos + rq.len;
      RemoveRequest(id);
      nrSorted, dispatched, rqs := nrSorted - 1, dispatched + [id], rqs - {id};
    }

    /** Whether the loop of `deadline_add_rq_rb` finds its tree fit to insert into. */
    ghost predicate Unplaced(id: nat)
      reads this
    {
      && id in rqs
      && var tree := View().At(rqs[id].dir).tree;
      && BySector(tree, rqs) && id !in tree
      && (forall x :: x in tree ==> x in rqs && rqs[x].dir == rqs[id].dir)
    }

    /** `deadline_add_rq_rb`: whatever is in the way is moved to the dispatch queue; the loop
        goes round at most once. */
    method AddRqRb(id: nat)
      requires Unplaced(id)
      modifies `r, `w, `lastSector, `nrSorted, `dispatched, `rqs
      ensures View() == Deadline.AddRqRb(old(View()), id)
    {
      hide Deadline.MoveRequest, BySector, InsertSorted, PosOf;
      var d := rqs[id].dir;
      var alias := FindPos(View().At(d).tree, rqs, PosOf(rqs, id));
      PosIs(View(), id);
      while alias.Some?
        invariant id in rqs && rqs[id].dir == d && alias == FindPos(View().At(d).tree, rqs, PosOf(rqs, id))
        invariant alias.Some? ==> View() == old(View()) && Unplaced(id)
        invariant alias.None? && old(FindPos(View().At(d).tree, rqs, PosOf(rqs, id))).None? ==> View() == old(View())
        invariant alias.None? && old(FindPos(View().At(d).tree, rqs, PosOf(rqs, id))).Some?
                  ==> View() == Deadline.MoveRequest(old(View()), old(FindPos(View().At(d).tree, rqs, PosOf(rqs, id))).value)
        decreases alias.Some?
      {
        OneAlias(View(), id, alias.value);
        MoveRequest(alias.value);
        alias := FindPos(View().At(d).tree, rqs, PosOf(rqs, id));
      }
      var side := View().At(d);
      side := side.(tree := InsertSorted(side.tree, rqs, id));
      if d.Read? { r := side; } else { w := side; }
    }

    /** `elv_insert` with ELEVATOR_INSERT_SORT and `deadline_add_request`. */
    method AddRequest(id: nat, d: Dir, pos: nat, len: nat)
      requires Inv(View()) && id !in rqs
      modifies `r, `w, `lastSector, `nrSorted, `dispatched, `rqs
      ensures View() == Deadline.AddRequest(old(View()), id, d, pos, len) && Inv(View())
    {
      hide Deadline.AddRqRb, InvBut, BySector;
      AddRequestOk(View(), id, d, pos, len);
      ArrivingUnplaced(View(), id, d, Rq(d, pos, len, now + tun.Expire(d)));
      nrSorted, rqs := nrSorted + 1, rqs[id := Rq(d, pos, len, now + tun.Expire(d))];
      AddRqRb(id);
      var side := View().At(d);
      side := side.(fifo := side.fifo + [id]);
      if d.Read? { r := side; } else { w := side; }
    }

    /** `deadline_merged_request` after a front merge. */
    method FrontMergedRequest(id: nat, pos: nat, len: nat)
      requires Inv(View()) && id in rqs
      modifies `r, `w, `lastSector, `nrSorted, `dispatched, `rqs
      ensures View() == FrontMerged(old(View()), id, pos, len) && Inv(View())
    {
      hide Deadline.AddRqRb, InvBut, BySector, Remove;
      FrontMergedOk(View(), id, pos, len);
      RemovedUnplaced(View(), id, pos, len);
      var d := rqs[id].dir;
      rqs := rqs[id := rqs[id].(pos := pos, len := rqs[id].len + len)];
      if d.Read? { r := r.(tree := Remove(r.tree, id)); } else { w := w.(tree := Remove(w.tree, id)); }
      AddRqRb(id);
    }

    /** `deadline_merged_requests` and the end of `elv_merge_requests`. */
    method MergeRequests(id: nat, next: nat)
      requires Inv(View()) && Mergeable(View(), id, next)
      modifies `r, `w, `rqs, `nrSorted
      ensures View() == MergedRequests(old(View()), id, next) && Inv(View())
    {
      hide InvBut, Remove, Replace, Latter;
      MergedRequestsOk(View(), id, next);
      var rq, gone := rqs[id], rqs[next];
      if gone.expire < rq.expire {
        var side := View().At(rq.dir);
        side := side.(fifo := Replace(Remove(side.fifo, id), next, id));
        rqs := rqs[id := rq.(expire := gone.expire)];
        if rq.dir.Read? { r := side; } else { w := side; }
      }
      RemoveRequest(next);
      rqs := rqs[id := rqs[id].(len := rq.len + gone.len)] - {next};
      nrSorted := nrSorted - 1;
    }

    /** `deadline_dispatch_requests`. */
    method DispatchRequests() returns (some: bool)
      requires Inv(View())
      modifies `r, `w, `lastSector, `nrSorted, `dispatched, `rqs, `batching, `starved
      ensures View() == DispatchOne(old(View())) && Inv(View())
      ensures some <==> old(r.fifo != [] || w.fifo != [])
      ensures some ==> |rqs| < old(|rqs|)
    {
      hide InvBut, Deadline.MoveRequest;
      DispatchOneOk(View());
      SelectOk(View());
      if r.fifo != [] || w.fifo != [] { FewerLeft(View()); }
      ghost var c := Select(View());
      var hasReads, hasWrites := r.fifo != [], w.fifo != [];
      var next := if w.next.Some? then w.next else r.next;
      var id: nat;
      if next.Some? && batching < tun.fifoBatch {
        id, batching := next.value, batching + 1;
      } else {
        var d := Read;
        if hasReads {
          if hasWrites {
            starved := starved + 1;
            if starved > tun.writesStarved { d, starved := Write, 0; }
          }
        } else if hasWrites {
          d, starved := Write, 0;
        } else {
          return false;
        }
        id, batching := FindRequest(View(), d, starved).id, 1;
      }
      assert c == Selected(id, batching, starved);
      MoveRequest(id);
      some := true;
    }

    /** `elv_drain_elevator`. */
    method Drain()
      requires Inv(View())
      modifies `r, `w, `lastSector, `nrSorted, `dispatched, `rqs, `batching, `starved
      ensures Inv(View()) && nrSorted == 0 && r.fifo == [] && w.fifo == [] && rqs == map[]
      ensures |dispatched| == |old(dispatched)| + old(nrSorted) && old(dispatched) <= dispatched
      ensures NoDup(dispatched[|old(dispatched)|..])
      ensures forall id :: id in old(rqs) <==> id in dispatched[|old(dispatched)|..]
    {
      hide InvBut, Select, DispatchOne, NoDup;
      ghost var s := View();
      ghost var order: seq<nat> := [];
      DrainStart(s);
      var more := true;
      while more
        invariant Inv(View()) && Drained(s, View(), order)
        invariant !more ==> r.fifo == [] && w.fifo == []
        decreases |rqs|, more
      {
        ghost var t := View();
        more := DispatchRequests();
        DispatchOneOk(t);
        SelectOk(t);
        if more {
          DrainStep(s, t, order, Select(t).id, View());
          order := order + [Select(t).id];
        }
      }
      DrainEnd(s, View(), order);
    }
  }

  lemma PosIs(s: State, id: nat)
    requires id in s.rqs
    ensures PosOf(s.rqs, id) == s.rqs[id].pos
  {
  }

  /** Once the one request at that sector has moved, the tree takes the new one. */
  lemma OneAlias(s: State, id: nat, a: nat)
    requires id in s.rqs
    requires var tree := s.At(s.rqs[id].dir).tree;
             && BySector(tree, s.rqs) && id !in tree && a in tree && PosOf(s.rqs, a) == PosOf(s.rqs, id)
             && (forall x :: x in tree ==> x in s.rqs && s.rqs[x].dir == s.rqs[id].dir)
    ensures var s' := Deadline.MoveRequest(s, a);
            && id in s'.rqs && s'.rqs[id] == s.rqs[id] && a != id
            && FindPos(s'.At(s.rqs[id].dir).tree, s'.rqs, PosOf(s'.rqs, id)).None?
  {
    hide BySector, Deadline.MoveRequest, PosOf;
    var d := s.rqs[id].dir;
    MoveKeeps(s, a);
    OnlyAlias(s.At(d).tree, s.rqs, a, id);
  }

  lemma ArrivingUnplaced(s: State, id: nat, d: Dir, rq: Rq)
    requires Inv(s) && id !in s.rqs && rq.dir == d
    ensures var rqs := s.rqs[id := rq]; var tree := s.At(d).tree;
            && BySector(tree, rqs) && id !in tree && forall x :: x in tree ==> x in rqs && rqs[x].dir == d
  {
    hide ByAge, NoDup;
    assert SideOk(s, d, None);
    SameSector(s.At(d).tree, s.rqs, s.rqs[id := rq]);
  }

  lemma RemovedUnplaced(s: State, id: nat, pos: nat, len: nat)
    requires Inv(s) && id in s.rqs
    ensures var u := DeadlineInv.Unplaced(s, id, pos, len); var d := s.rqs[id].dir;
            && BySector(u.At(d).tree, u.rqs) && id !in u.At(d).tree
            && forall x :: x in u.At(d).tree ==> x in u.rqs && u.rqs[x].dir == d
  {
    hide ByAge, NoDup, BySector, Remove;
    UnplacedSide(s, id, pos, len, s.rqs[id].dir);
    assert SideOk(DeadlineInv.Unplaced(s, id, pos, len), s.rqs[id].dir, Some(id));
  }

  lemma FewerLeft(s: State)
    requires Inv(s) && (s.r.fifo != [] || s.w.fifo != [])
    ensures |DispatchOne(s).rqs| < |s.rqs|
  {
    hide InvBut, Select, Deadline.MoveRequest;
    DispatchOneOk(s);
    SelectOk(s);
    assert s.rqs.Keys == DispatchOne(s).rqs.Keys + {Select(s).id};
  }
}
