/** How long an expired request at the head of its FIFO waits under the deadline scheduler:
    writes a bounded number of dispatches, reads too exactly if `writes_starved` is not 0.
 */
module DeadlineWaits {
  import opened Lists
  import opened Deadline
  import opened DeadlineInv
  import opened DeadlineRuns

  /** `h` is the oldest request of its direction and its time has come. */
  predicate Due(s: State, d: Dir, h: nat) {
    && s.At(d).fifo != [] && s.At(d).fifo[0] == h
    && h in s.rqs && s.now > s.rqs[h].expire
  }

  predicate Takes(s: State, e: Event, h: nat) {
    e.Dispatch? && Select(s).Selected? && Select(s).id == h
  }

  /** `h` is due throughout the run and never selected. */
  predicate Waits(s: State, es: seq<Event>, d: Dir, h: nat)
    decreases |es|
  {
    Due(s, d, h) && (es != [] ==> !Takes(s, es[0], h) && Waits(Apply(s, es[0]), es[1..], d, h))
  }

  function Dispatches(es: seq<Event>): nat {
    if es == [] then 0 else (if es[0].Dispatch? then 1 else 0) + Dispatches(es[1..])
  }

  /** Dispatches before a due request of direction `d`. */
  function Slack(s: State, d: Dir): int {
    if d.Write? then Budget(s)
    else (if s.starved >= s.tun.writesStarved then 2 * Batch(s.tun) else Batch(s.tun)) - s.batching
  }

  function Limit(t: Tunables, d: Dir): nat {
    if d.Write? then (t.writesStarved + 1) * Batch(t) else 2 * Batch(t)
  }

  lemma SlackBounds(s: State, d: Dir)
    requires Inv(s)
    ensures 0 <= Slack(s, d) <= Limit(s.tun, d)
  {
    hide SideOk;
    BudgetNonneg(s);
  }

  lemma WriteSlack(s: State, h: nat)
    requires Inv(s) && Due(s, Write, h) && !Takes(s, Dispatch, h)
    ensures Budget(DispatchOne(s)) < Budget(s)
  {
    hide BySector, ByAge, NoDup, MoveRequest;
    DispatchOneOk(s);
    SelectOk(s);
    var c := Select(s);
    var b, ws := Batch(s.tun), s.tun.writesStarved;
    if c.starved == s.starved {
      assert s.batching < c.batching;
      BudgetStep(ws - s.starved, b, s.batching, c.batching);
    } else {
      BudgetDrop(ws - s.starved, b, s.batching, c.batching);
    }
  }

  lemma ReadSlack(s: State, h: nat)
    requires Inv(s) && Due(s, Read, h) && !Takes(s, Dispatch, h) && s.tun.writesStarved > 0
    ensures Slack(DispatchOne(s), Read) < Slack(s, Read)
  {
    hide BySector, ByAge, NoDup, MoveRequest;
    DispatchOneOk(s);
    SelectOk(s);
  }

  lemma {:induction false} DispatchesWithinSlack(s: State, es: seq<Event>, d: Dir, h: nat)
    requires Inv(s) && Waits(s, es, d, h) && (d.Read? ==> s.tun.writesStarved > 0)
    ensures Dispatches(es) <= Slack(s, d)
    decreases |es|
  {
    hide InvBut, Select, DispatchOne, AddRequest, BackMerged, FrontMerged, MergedRequests, Budget;
    SlackBounds(s, d);
    if es != [] {
      var e, s' := es[0], Apply(s, es[0]);
      ApplyOk(s, e);
      ApplyTunables(s, e);
      DispatchesWithinSlack(s', es[1..], d, h);
      if e.Dispatch? {
        if d.Read? { ReadSlack(s, h); } else { WriteSlack(s, h); }
      } else {
        SlackSame(s, e, d);
      }
    }
  }

  lemma SlackSame(s: State, e: Event, d: Dir)
    requires Inv(s) && !e.Dispatch?
    ensures Slack(Apply(s, e), d) == Slack(s, d)
  {
    hide Inv, Apply;
    SameCounters(s, e);
  }

  /** No run whatever makes a due request of direction `d` wait for more than `n` dispatches. */
  ghost predicate Bounded(t: Tunables, d: Dir, n: nat) {
    forall past: seq<Event>, es: seq<Event>, h: nat ::
      Waits(Exec(Init(t), past), es, d, h) ==> Dispatches(es) <= n
  }

  lemma DueWritesServed(t: Tunables)
    ensures Bounded(t, Write, (t.writesStarved + 1) * Batch(t))
  {
    hide InvBut, Waits, Dispatches, Exec;
    forall past: seq<Event>, es: seq<Event>, h: nat | Waits(Exec(Init(t), past), es, Write, h)
      ensures Dispatches(es) <= (t.writesStarved + 1) * Batch(t)
    {
      WithinLimit(t, past, es, Write, h);
    }
  }

  lemma DueReadsServed(t: Tunables)
    requires t.writesStarved > 0
    ensures Bounded(t, Read, 2 * Batch(t))
  {
    hide InvBut, Waits, Dispatches, Exec;
    forall past: seq<Event>, es: seq<Event>, h: nat | Waits(Exec(Init(t), past), es, Read, h)
      ensures Dispatches(es) <= 2 * Batch(t)
    {
      WithinLimit(t, past, es, Read, h);
    }
  }

  lemma WithinLimit(t: Tunables, past: seq<Event>, es: seq<Event>, d: Dir, h: nat)
    requires Waits(Exec(Init(t), past), es, d, h) && (d.Read? ==> t.writesStarved > 0)
    ensures Dispatches(es) <= Limit(t, d)
  {
    hide InvBut, Waits, Dispatches, Apply;
    var s := Exec(Init(t), past);
    EveryRunAgrees(t, past);
    InitOk(t);
    TunablesFixed(Init(t), past);
    DispatchesWithinSlack(s, es, d, h);
    SlackBounds(s, d);
  }

  // ----- with writes_starved at 0, writes alone are served

  /** A read is due and no read batch is under way; ids from `k` on are free. */
  ghost predicate Flooded(s: State, h: nat, k: nat) {
    && Inv(s) && s.tun.writesStarved == 0 && Due(s, Read, h) && s.r.next.None?
    && forall id :: id in s.rqs ==> id < k
  }

  /** A new write before every dispatch. */
  function Flood(n: nat, k: nat): seq<Event> {
    if n == 0 then [] else [Add(k, Write, k, 1), Dispatch] + Flood(n - 1, k + 1)
  }

  lemma Directions(s: State, d: Dir)
    requires Inv(s)
    ensures forall x :: x in s.At(d).tree || x in s.At(d).fifo ==> x in s.rqs && s.rqs[x].dir == d
  {
    hide NoDup, BySector, ByAge;
    assert SideOk(s, d, None);
  }

  lemma FloodAdd(s: State, h: nat, k: nat)
    requires Flooded(s, h, k)
    ensures var s' := Apply(s, Add(k, Write, k, 1));
            Flooded(s', h, k + 1) && s'.w.fifo != []
  {
    hide InvBut, AddRqRb;
    AddRequestOk(s, k, Write, k, 1);
    Directions(s, Read);
    Directions(s, Write);
    var t := s.(rqs := s.rqs[k := Rq(Write, k, 1, s.now + s.tun.writeExpire)], nrSorted := s.nrSorted + 1);
    assert t.rqs[h].dir == Read;
    assert t.w.tree == s.At(Write).tree;
    WriteAdded(t, k, h);
  }

  lemma WriteAdded(s: State, id: nat, h: nat)
    requires id in s.rqs && s.rqs[id].dir == Write && s.r.next.None? && h in s.rqs && s.rqs[h].dir == Read
    requires forall x :: x in s.w.tree ==> x in s.rqs && s.rqs[x].dir == Write
    ensures var s' := AddRqRb(s, id);
            && s'.r == s.r && s'.tun == s.tun && s'.now == s.now
            && s'.rqs.Keys <= s.rqs.Keys && h in s'.rqs && s'.rqs[h] == s.rqs[h]
  {
    hide Latter, Remove, InsertSorted;
  }

  lemma FloodDispatch(s: State, h: nat, k: nat)
    requires Flooded(s, h, k) && s.w.fifo != []
    ensures !Takes(s, Dispatch, h) && Flooded(DispatchOne(s), h, k)
  {
    hide InvBut, Latter, Remove;
    DispatchOneOk(s);
    SelectOk(s);
    Directions(s, Read);
    Directions(s, Write);
    NextQueued(s);
    assert s.w.fifo[0] in s.At(Write).fifo && h in s.At(Read).fifo;
  }

  lemma NextQueued(s: State)
    requires Inv(s)
    ensures s.w.next.Some? ==> s.w.next.value in s.At(Write).fifo
  {
    hide NoDup, BySector, ByAge;
    assert SideOk(s, Write, None);
  }

  lemma {:induction false} FloodRun(s: State, h: nat, k: nat, n: nat)
    requires Flooded(s, h, k)
    ensures Waits(s, Flood(n, k), Read, h) && Dispatches(Flood(n, k)) == n
    decreases n
  {
    hide InvBut, AddRequest, DispatchOne, Select;
    if n > 0 {
      var es, rest := Flood(n, k), Flood(n - 1, k + 1);
      var s1 := Apply(s, es[0]);
      FloodAdd(s, h, k);
      FloodDispatch(s1, h, k + 1);
      var s2 := Apply(s1, Dispatch);
      FloodRun(s2, h, k + 1, n - 1);
      assert es[1..] == [Dispatch] + rest && es[1..][1..] == rest;
      assert Waits(s1, es[1..], Read, h);
    }
  }

  /** One read, left until it is due. */
  lemma FloodStart(t: Tunables)
    requires t.writesStarved == 0
    ensures Flooded(Exec(Init(t), [Add(0, Read, 0, 1), Tick(t.readExpire + 1)]), 0, 1)
  {
    hide InvBut;
    var es := [Add(0, Read, 0, 1), Tick(t.readExpire + 1)];
    EveryRunAgrees(t, es);
    var s1 := Apply(Init(t), es[0]);
    assert es[1..] == [Tick(t.readExpire + 1)] && es[1..][1..] == [];
    var s2 := Apply(s1, es[1]);
    assert Exec(s1, es[1..]) == Exec(s2, []) == s2;
    assert s1.r.fifo == [0] && s1.rqs == map[0 := Rq(Read, 0, 1, t.readExpire)];
  }

  /** However many dispatches, some run leaves a due read waiting for longer. */
  lemma ReadsStarve(t: Tunables, n: nat)
    requires t.writesStarved == 0
    ensures !Bounded(t, Read, n)
  {
    hide Flooded, Waits, Dispatches, Exec;
    FloodStart(t);
    var past := [Add(0, Read, 0, 1), Tick(t.readExpire + 1)];
    FloodRun(Exec(Init(t), past), 0, 1, n + 1);
  }

  /** Due reads wait a bounded number of dispatches exactly if `writes_starved` is not 0. */
  lemma DueReadsServedIff(t: Tunables)
    ensures (exists n: nat :: Bounded(t, Read, n)) <==> t.writesStarved > 0
  {
    hide Bounded;
    if t.writesStarved > 0 {
      DueReadsServed(t);
    } else {
      forall n: nat ensures !Bounded(t, Read, n) { ReadsStarve(t, n); }
    }
  }
}
