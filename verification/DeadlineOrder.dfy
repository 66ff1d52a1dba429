/** The order in which the deadline scheduler takes requests: on in sector order within a
    direction, back to the oldest where that is due or nothing lies ahead, and reads before
    writes until writes have been passed over often enough.
 */
module DeadlineOrder {
  import opened Lists
  import opened Deadline
  import opened DeadlineInv
  import opened DeadlineRuns

  // ----- within a direction

  /** A queued request of direction `d` that starts above `pos`. */
  ghost predicate Above(s: State, d: Dir, pos: nat, x: nat) {
    x in s.rqs && s.rqs[x].dir == d && s.rqs[x].pos > pos
  }

  ghost predicate NearestAbove(s: State, d: Dir, pos: nat, x: nat) {
    Above(s, d, pos, x) && forall y :: Above(s, d, pos, y) ==> s.rqs[x].pos <= s.rqs[y].pos
  }

  /** The oldest request of direction `d`, at the head of its FIFO. */
  ghost predicate Oldest(s: State, d: Dir, x: nat) {
    && x in s.rqs && s.rqs[x].dir == d && s.At(d).fifo != [] && x == s.At(d).fifo[0]
    && forall y :: y in s.rqs && s.rqs[y].dir == d ==> s.rqs[x].expire <= s.rqs[y].expire
  }

  /** What may happen between two dispatches without moving or adding a request. */
  predicate Quiet(e: Event) { e.Tick? || e.MergeBack? || e.Merge? }

  /** Of two dispatches in one direction, with time passing, bios appended and requests merged in
      between, the second takes the nearest request above the first, if there is one, unless the
      oldest is overdue and the batch is used up; and the oldest in all other cases. */
  lemma SecondDispatch(tun: Tunables, past: seq<Event>, between: seq<Event>, d: Dir)
    requires forall i :: 0 <= i < |between| ==> Quiet(between[i])
    requires var s := Exec(Init(tun), past);
             Selects(s, Dispatch, d) && Selects(Exec(DispatchOne(s), between), Dispatch, d)
    ensures var s := Exec(Init(tun), past);
            var t := Exec(DispatchOne(s), between);
            var pos, x := s.rqs[Select(s).id].pos, Select(t).id;
            && t.At(d).fifo != [] && t.At(d).fifo[0] in t.rqs
            && var overdue := t.now > t.rqs[t.At(d).fifo[0]].expire;
            && if (exists y :: Above(t, d, pos, y)) && (t.batching < tun.fifoBatch || !overdue)
               then NearestAbove(t, d, pos, x)
               else Oldest(t, d, x)
  {
    hide Exec, Apply, Inv, Select, DispatchOne, NearestAbove, Oldest, Above, Onward, Quiet;
    EveryRunAgrees(tun, past);
    InitOk(tun);
    TunablesFixed(Init(tun), past);
    var s := Exec(Init(tun), past);
    DispatchOneOk(s);
    TunablesFixed(DispatchOne(s), between);
    OnwardFrom(s, d);
    OnwardAfter(DispatchOne(s), between, d, s.rqs[Select(s).id].pos);
    SelectOnward(Exec(DispatchOne(s), between), d, s.rqs[Select(s).id].pos);
  }

  lemma {:induction false} OnwardAfter(s: State, es: seq<Event>, d: Dir, pos: nat)
    requires Inv(s) && Onward(s, d, pos) && forall i :: 0 <= i < |es| ==> Quiet(es[i])
    ensures Inv(Exec(s, es)) && Onward(Exec(s, es), d, pos)
    decreases |es|
  {
    hide Inv, Apply, Onward, Quiet;
    if es != [] {
      ApplyOk(s, es[0]);
      OnwardQuiet(s, es[0], d, pos);
      OnwardAfter(Apply(s, es[0]), es[1..], d, pos);
    }
  }

  lemma OnwardQuiet(s: State, e: Event, d: Dir, pos: nat)
    requires Inv(s) && Onward(s, d, pos) && Quiet(e)
    ensures Onward(Apply(s, e), d, pos)
  {
    hide Inv, Onward, MergedRequests;
    match e
    case MergeBack(id, len) => OnwardGrown(s, id, len, d, pos);
    case Merge(id, next) =>
      if Mergeable(s, id, next) {
        OnwardMerged(s, id, next, d, pos);
      }
    case Tick(time) => OnwardTick(s, time, d, pos);
    case _ =>
  }

  lemma OnwardTick(s: State, time: nat, d: Dir, pos: nat)
    requires Onward(s, d, pos)
    ensures Onward(s.(now := s.now + time), d, pos)
  {
    OnwardSame(s, s.(now := s.now + time), d, pos);
  }

  lemma OnwardGrown(s: State, id: nat, len: nat, d: Dir, pos: nat)
    requires Onward(s, d, pos)
    ensures id in s.rqs ==> Onward(BackMerged(s, id, len), d, pos)
  {
    if id in s.rqs {
      OnwardSame(s, BackMerged(s, id, len), d, pos);
    }
  }

  lemma OnwardSame(s: State, s': State, d: Dir, pos: nat)
    requires Onward(s, d, pos) && s'.r.next == s.r.next && s'.w.next == s.w.next && s'.rqs.Keys == s.rqs.Keys
    requires forall x :: x in s.rqs ==> s'.rqs[x].dir == s.rqs[x].dir && s'.rqs[x].pos == s.rqs[x].pos
    ensures Onward(s', d, pos)
  {
    assert forall x :: Above(s', d, pos, x) <==> Above(s, d, pos, x);
  }

  /** If the request to go on with is merged away, the one behind it is the nearest now. */
  lemma OnwardMerged(s: State, id: nat, next: nat, d: Dir, pos: nat)
    requires Inv(s) && Onward(s, d, pos) && Mergeable(s, id, next)
    ensures Onward(MergedRequests(s, id, next), d, pos)
  {
    hide Inv, MergedRequests, NearestAbove, Remove, Latter, FifoAfter;
    MergedShape(s, id, next);
    MergedAbove(s, id, next, d, pos);
    var s', e := MergedRequests(s, id, next), s.rqs[id].dir;
    if s.At(d).next.Some? {
      NearestIsAbove(s, d, pos, s.At(d).next.value);
      NearestMerged(s, s', d, pos, next, s.At(d).next.value);
    }
    if s.At(e).next == Some(next) {
      assert e == d;
      LatterOnward(s, d, pos, next);
      if s'.At(d).next.Some? {
        NearestMerged(s, s', d, pos, next, s'.At(d).next.value);
      }
    }
  }

  lemma MergedAbove(s: State, id: nat, next: nat, d: Dir, pos: nat)
    requires Mergeable(s, id, next)
    ensures var s' := MergedRequests(s, id, next);
            && (forall x :: Above(s', d, pos, x) <==> Above(s, d, pos, x) && x != next)
            && (forall x :: x in s'.rqs ==> x in s.rqs && s'.rqs[x].pos == s.rqs[x].pos)
  {
    hide MergedRequests, Remove, Latter, FifoAfter;
    MergedShape(s, id, next);
  }

  /** `x` is the nearest of all but `gone`. */
  ghost predicate NearestBut(s: State, d: Dir, pos: nat, gone: nat, x: nat) {
    Above(s, d, pos, x) && forall y :: Above(s, d, pos, y) && y != gone ==> s.rqs[x].pos <= s.rqs[y].pos
  }

  lemma NearestMerged(s: State, s': State, d: Dir, pos: nat, gone: nat, x: nat)
    requires forall y :: Above(s', d, pos, y) <==> Above(s, d, pos, y) && y != gone
    requires forall y :: y in s'.rqs ==> y in s.rqs && s'.rqs[y].pos == s.rqs[y].pos
    ensures NearestAbove(s, d, pos, x) && x != gone ==> NearestAbove(s', d, pos, x)
    ensures NearestBut(s, d, pos, gone, x) && x != gone ==> NearestAbove(s', d, pos, x)
  {
    assert Above(s', d, pos, x) ==> x in s'.rqs;
    assert forall y :: Above(s', d, pos, y) ==> y in s'.rqs;
  }

  /** What follows the nearest in the tree is the nearest but for it. */
  lemma LatterOnward(s: State, d: Dir, pos: nat, gone: nat)
    requires Inv(s) && NearestAbove(s, d, pos, gone)
    ensures var n := Latter(s.At(d).tree, gone);
            && (n.Some? ==> n.value != gone && NearestBut(s, d, pos, gone, n.value))
            && (n.None? ==> forall y :: Above(s, d, pos, y) ==> y == gone)
  {
    hide NoDup, ByAge, Latter;
    assert SideOk(s, d, None);
    var tree := s.At(d).tree;
    LatterIsNearest(tree, s.rqs, gone);
    forall y | Above(s, d, pos, y) && y != gone ensures y in tree && PosOf(s.rqs, y) > PosOf(s.rqs, gone) {
      OneAtSector(tree, s.rqs, gone, y);
    }
  }

  lemma OneAtSector(tree: seq<nat>, rqs: map<nat, Rq>, a: nat, b: nat)
    requires BySector(tree, rqs) && a in tree && b in tree && a != b
    ensures PosOf(rqs, a) != PosOf(rqs, b)
  {
    hide PosOf;
    var i :| 0 <= i < |tree| && tree[i] == a;
    var j :| 0 <= j < |tree| && tree[j] == b;
  }

  /** What `next` is right after a dispatch at `pos` in direction `d`. */
  ghost predicate Onward(s: State, d: Dir, pos: nat) {
    && (if d.Read? then s.w.next.None? else s.r.next.None?)
    && (s.At(d).next.Some? ==> NearestAbove(s, d, pos, s.At(d).next.value))
    && (s.At(d).next.None? ==> forall y :: !Above(s, d, pos, y))
  }

  lemma OnwardFrom(s: State, d: Dir)
    requires Inv(s) && Selects(s, Dispatch, d)
    ensures Onward(DispatchOne(s), d, s.rqs[Select(s).id].pos)
  {
    hide Inv, Select, DispatchOne;
    BatchGoesOn(s);
    DispatchOneOk(s);
    OtherForgotten(s, d);
  }

  /** A dispatch forgets where the other direction would have gone on. */
  lemma OtherForgotten(s: State, d: Dir)
    requires Selects(s, Dispatch, d)
    ensures var s' := DispatchOne(s); if d.Read? then s'.w.next.None? else s'.r.next.None?
  {
    hide Select, Latter, Remove;
  }

  lemma SelectOnward(t: State, d: Dir, pos: nat)
    requires Inv(t) && Onward(t, d, pos) && Selects(t, Dispatch, d)
    ensures t.At(d).fifo != [] && t.At(d).fifo[0] in t.rqs
    ensures var overdue := t.now > t.rqs[t.At(d).fifo[0]].expire; var x := Select(t).id;
            if (exists y :: Above(t, d, pos, y)) && (t.batching < t.tun.fifoBatch || !overdue)
            then NearestAbove(t, d, pos, x)
            else Oldest(t, d, x)
  {
    hide Inv, Select, NearestAbove, Oldest;
    var x := Select(t).id;
    HeadIsOldest(t, d, x);
    SelectedWithin(t, d);
    if t.At(d).next.Some? {
      NearestIsAbove(t, d, pos, t.At(d).next.value);
    }
  }

  lemma NearestIsAbove(s: State, d: Dir, pos: nat, x: nat)
    requires NearestAbove(s, d, pos, x)
    ensures Above(s, d, pos, x)
  {
  }

  lemma HeadIsOldest(t: State, d: Dir, x: nat)
    requires Inv(t) && x in t.rqs && t.rqs[x].dir == d
    ensures t.At(d).fifo != [] && t.At(d).fifo[0] in t.rqs && Oldest(t, d, t.At(d).fifo[0])
  {
    hide Inv;
    HeadOldest(t, d, x);
    HeadQueued(t, d);
    forall y | y in t.rqs && t.rqs[y].dir == d ensures t.rqs[t.At(d).fifo[0]].expire <= t.rqs[y].expire {
      HeadOldest(t, d, y);
    }
  }

  /** Which of the two the selection takes, with `next` set in direction `d` only. */
  lemma SelectedWithin(t: State, d: Dir)
    requires Inv(t) && Selects(t, Dispatch, d) && (if d.Read? then t.w.next.None? else t.r.next.None?)
    requires t.At(d).fifo != [] && t.At(d).fifo[0] in t.rqs
    ensures var overdue := t.now > t.rqs[t.At(d).fifo[0]].expire;
            Select(t).id == if t.At(d).next.Some? && (t.batching < t.tun.fifoBatch || !overdue)
                            then t.At(d).next.value else t.At(d).fifo[0]
  {
    hide Inv;
    HeadQueued(t, Read);
    HeadQueued(t, Write);
  }

  // ----- between directions

  /** A dispatch that begins a batch, in direction `d`: there is nothing to go on with, or the
      last batch is used up. */
  predicate Begins(s: State, e: Event, d: Dir) {
    Selects(s, e, d) && ((s.r.next.None? && s.w.next.None?) || s.batching >= s.tun.fifoBatch)
  }

  /** Read batches begun while writes waited, since a write batch was begun last. */
  function PassedOver(s: State, es: seq<Event>, n: nat): nat
    decreases |es|
  {
    if es == [] then n
    else
      var n' := if Begins(s, es[0], Write) then 0
                else if Begins(s, es[0], Read) && s.w.fifo != [] then n + 1
                else n;
      PassedOver(Apply(s, es[0]), es[1..], n')
  }

  /** While reads and writes both wait, a batch that begins is one of writes exactly if
      writes_starved read batches have passed the waiting writes over since the last one. */
  lemma WritesTurnIff(tun: Tunables, past: seq<Event>, d: Dir)
    requires Begins(Exec(Init(tun), past), Dispatch, d)
    ensures var s := Exec(Init(tun), past);
            && (s.r.fifo != [] && s.w.fifo != [] ==>
                  (d == Write <==> PassedOver(Init(tun), past, 0) == tun.writesStarved))
            && PassedOver(Init(tun), past, 0) <= tun.writesStarved
  {
    hide Inv, Apply, Select;
    EveryRunAgrees(tun, past);
    InitOk(tun);
    TunablesFixed(Init(tun), past);
    StarvedCounts(Init(tun), past);
    BeginsWith(Exec(Init(tun), past), d);
    StarvedBounded(Exec(Init(tun), past));
  }

  lemma StarvedBounded(s: State)
    requires Inv(s)
    ensures s.starved <= s.tun.writesStarved
  {
    hide SideOk;
  }

  lemma {:induction false} StarvedCounts(s: State, es: seq<Event>)
    requires Inv(s)
    ensures Exec(s, es).starved == PassedOver(s, es, s.starved)
    decreases |es|
  {
    hide Inv, Apply, Begins;
    if es != [] {
      var e := es[0];
      ApplyOk(s, e);
      StarvedStep(s, e);
      StarvedCounts(Apply(s, e), es[1..]);
    }
  }

  lemma StarvedStep(s: State, e: Event)
    requires Inv(s)
    ensures Apply(s, e).starved ==
            if Begins(s, e, Write) then 0
            else if Begins(s, e, Read) && s.w.fifo != [] then s.starved + 1
            else s.starved
  {
    hide Inv, DispatchOne, Select;
    if e.Dispatch? {
      DispatchOneOk(s);
      SelectOk(s);
      if Begins(s, e, Read) {
        BeginsWith(s, Read);
      } else if Begins(s, e, Write) {
        BeginsWith(s, Write);
      } else if Select(s).Selected? {
        assert s.rqs[Select(s).id].dir == Read || s.rqs[Select(s).id].dir == Write;
        GoesOnWith(s);
      }
    } else {
      SameCounters(s, e);
    }
  }

  lemma GoesOnWith(s: State)
    requires Select(s).Selected? && (s.r.next.Some? || s.w.next.Some?) && s.batching < s.tun.fifoBatch
    ensures Select(s).starved == s.starved
  {
  }

  lemma BeginsWith(s: State, d: Dir)
    requires Inv(s) && Begins(s, Dispatch, d)
    ensures d == Write <==> s.w.fifo != [] && (s.r.fifo == [] || s.starved >= s.tun.writesStarved)
    ensures d == Write ==> Select(s).starved == 0
    ensures d == Read ==> Select(s).starved == s.starved + if s.w.fifo != [] then 1 else 0
  {
    hide Inv;
    HeadQueued(s, Read);
    HeadQueued(s, Write);
  }
}
