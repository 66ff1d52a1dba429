/** Ordering by draining: in every run, a file-system request is at the driver only between
    the end of the last barrier added before it and the start of the next one, and the
    barrier itself (and each flush) is handed out only when everything before it has
    completed.
 */
module BarrierOrder {
  import opened Lists
  import opened Barrier
  import opened BarrierSequence

  predicate DrainMode(m: Mode) { m == DRAIN || m == DRAIN_FLUSH || m == DRAIN_FUA }

  // ----- the shape of the dispatch queue

  /** May `a` stand somewhere before `b` while barrier number `done` is the next to end?
      Requests stand in order of their epochs with the barrier of an epoch last; while a
      sequence runs its proxies stand in step order between the requests of the epoch it
      closes and all later ones. */
  predicate Before(done: nat, a: Rq, b: Rq) {
    && (a.kind.Fs? && b.kind.Fs? ==> a.epoch < b.epoch || (a.epoch == b.epoch && !a.barrier))
    && (a.kind.Fs? && IsProxy(b.kind) ==> a.epoch == done)
    && (IsProxy(a.kind) && b.kind.Fs? ==> b.epoch > done)
    && (IsProxy(a.kind) && IsProxy(b.kind) ==> StepOf(a.kind) < StepOf(b.kind))
  }

  ghost predicate Sorted(done: nat, q: seq<Rq>) {
    forall i, j :: 0 <= i < j < |q| ==> Before(done, q[i], q[j])
  }

  lemma SortedInsert(done: nat, q: seq<Rq>, p: nat, rq: Rq)
    requires Sorted(done, q) && p <= |q|
    requires forall i :: 0 <= i < p ==> Before(done, q[i], rq)
    requires forall i :: p <= i < |q| ==> Before(done, rq, q[i])
    ensures Sorted(done, q[..p] + [rq] + q[p..])
  {
    hide Before;
    var r := q[..p] + [rq] + q[p..];
    forall i, j | 0 <= i < j < |r| ensures Before(done, r[i], r[j]) {
      var i', j' := if i < p then i else i - 1, if j < p then j else j - 1;
      assert r[i] == if i == p then rq else q[i'];
      assert r[j] == if j == p then rq else q[j'];
    }
  }

  lemma SortedConcat(done: nat, a: seq<Rq>, b: seq<Rq>)
    requires Sorted(done, a) && Sorted(done, b)
    requires forall i, j :: 0 <= i < |a| && 0 <= j < |b| ==> Before(done, a[i], b[j])
    ensures Sorted(done, a + b)
  {
    hide Before;
    var r := a + b;
    forall i, j | 0 <= i < j < |r| ensures Before(done, r[i], r[j]) {
      assert r[i] == if i < |a| then a[i] else b[i - |a|];
      assert r[j] == if j < |a| then a[j] else b[j - |a|];
    }
  }

  lemma SortedTail(done: nat, q: seq<Rq>)
    requires Sorted(done, q) && q != []
    ensures Sorted(done, q[1..])
    ensures forall j :: 0 <= j < |q[1..]| ==> Before(done, q[0], q[1..][j])
  {
    hide Before;
    forall i, j | 0 <= i < j < |q[1..]| ensures Before(done, q[1..][i], q[1..][j]) {
      assert q[1..][i] == q[i+1] && q[1..][j] == q[j+1];
    }
  }

  /** Replacing a request by one that differs only in flags. */
  lemma SortedReplace(done: nat, q: seq<Rq>, rq: Rq)
    requires Sorted(done, q) && q != []
    requires rq.kind == q[0].kind && rq.epoch == q[0].epoch && rq.barrier == q[0].barrier
    ensures Sorted(done, [rq] + q[1..])
  {
    var r := [rq] + q[1..];
    forall i, j | 0 <= i < j < |r| ensures Before(done, r[i], r[j]) {
      assert Before(done, q[i], q[j]);
    }
  }

  // ----- the invariant

  /** The colour of the requests of epoch `e`. */
  predicate Color(s: State, e: nat) { e < |s.colors| && s.colors[e] }

  predicate SameColor(s: State, e: nat) { Color(s, e) == Color(s, e + 1) }

  ghost predicate QueueOk(s: State, r: Rq) {
    && (r.kind.Fs? ==>
          && r.color == Color(s, r.epoch) && s.done <= r.epoch <= s.added
          && (r.barrier ==> r.epoch < s.added && !r.started)
          && (s.orig.Some? && r.epoch == s.done ==> !r.barrier && r.soft && SEQ_DRAIN !in s.ordseq))
    && (IsProxy(r.kind) ==> r.soft)
  }

  ghost predicate SchedOk(s: State, r: Rq) {
    r.kind.Fs? && !r.barrier && !r.started && r.epoch == s.added && r.color == Color(s, r.epoch)
  }

  /** What the driver may have: requests of the current epoch, and while a sequence runs only
      as long as it drains; after that only the proxy of the current step. */
  ghost predicate DriverOk(s: State, r: Rq) {
    && (r.kind.Fs? ==>
          && r.epoch == s.done && !r.barrier && r.started && r.color == Color(s, r.epoch)
          && (s.orig.Some? ==> SEQ_DRAIN !in s.ordseq))
    && (IsProxy(r.kind) ==> s.orig.Some? && StepOf(r.kind) == CurSeq(s.ordseq) && (r.kind.Bar? ==> r.started))
  }

  predicate ClosesEpoch(r: Rq, e: nat) { r.kind.Fs? && r.barrier && r.epoch == e }

  /** The barrier of every epoch that is not over, but for the running one, is on the queue. */
  ghost predicate OpenEpochs(s: State) {
    forall e {:trigger Waiting(s.queue, e)} ::
      s.done + (if s.orig.Some? then 1 else 0) <= e < s.added ==> Waiting(s.queue, e)
  }

  ghost predicate Waiting(q: seq<Rq>, e: nat) {
    exists i :: 0 <= i < |q| && ClosesEpoch(q[i], e)
  }

  function Flight(d: seq<Rq>): nat {
    if d == [] then 0 else Flight(d[..|d|-1]) + if d[|d|-1].Accounted() then 1 else 0
  }

  ghost predicate OrderCore(s: State) {
    && DrainMode(s.next)
    && (s.orig.Some? ==> s.ordered.byDrain && !s.ordered.byTag)
    && (s.orig.Some? ==> s.orig.value.epoch == s.done < s.added && s.orig.value.color == Color(s, s.done))
    && s.done <= s.added
    && |s.colors| == s.added + 1 && s.ordcolor == Color(s, s.added)
    && s.inFlight == Flight(s.driver)
    && Sorted(s.done, s.queue)
    && (forall i :: 0 <= i < |s.queue| ==> QueueOk(s, s.queue[i]))
    && (forall i :: 0 <= i < |s.sched| ==> SchedOk(s, s.sched[i]))
    && (forall i :: 0 <= i < |s.driver| ==> DriverOk(s, s.driver[i]))
    && OpenEpochs(s)
  }

  /** Is nothing of epoch `e` left but, perhaps, an empty barrier that will end as soon as it
      gets to the head of the queue? */
  ghost predicate Passing(s: State, e: nat) {
    && s.next == DRAIN
    && (s.orig.Some? ==> e != s.done)
    && (forall i :: 0 <= i < |s.queue| ==> PassingRq(s.queue[i], e))
    && (forall i :: 0 <= i < |s.driver| && s.driver[i].kind.Fs? ==> s.driver[i].epoch != e)
  }

  predicate PassingRq(r: Rq, e: nat) { r.kind.Fs? && r.epoch == e ==> r.barrier && r.empty }

  /** Each open epoch is told by its colour from the next one, unless it is just passing. */
  ghost predicate Contrast(s: State) {
    forall e :: s.done <= e < s.added && SameColor(s, e) ==> Passing(s, e)
  }

  ghost predicate OrderInv(s: State) {
    OrderCore(s) && Contrast(s)
  }

  lemma {:induction false} FlightConcat(a: seq<Rq>, b: seq<Rq>)
    ensures Flight(a + b) == Flight(a) + Flight(b)
    decreases |b|
  {
    if b == [] {
      assert a + b == a;
    } else {
      assert (a + b)[..|a + b|-1] == a + b[..|b|-1];
      FlightConcat(a, b[..|b|-1]);
    }
  }

  lemma FlightOne(rq: Rq)
    ensures Flight([rq]) == if rq.Accounted() then 1 else 0
  {
    assert [rq][..0] == [];
  }

  lemma FlightRemove(d: seq<Rq>, i: nat)
    requires i < |d|
    ensures Flight(d) == Flight(d[..i] + d[i+1..]) + if d[i].Accounted() then 1 else 0
  {
    hide Flight;
    assert d == d[..i] + ([d[i]] + d[i+1..]);
    FlightConcat(d[..i], [d[i]] + d[i+1..]);
    FlightConcat([d[i]], d[i+1..]);
    FlightOne(d[i]);
    FlightConcat(d[..i], d[i+1..]);
  }

  /** Nothing in flight, nothing accounted at the driver. */
  lemma {:induction false} FlightZero(d: seq<Rq>)
    requires Flight(d) == 0
    ensures forall i :: 0 <= i < |d| ==> !d[i].Accounted()
    decreases |d|
  {
    if d != [] {
      FlightZero(d[..|d|-1]);
    }
  }

  lemma WaitingInsert(q: seq<Rq>, p: nat, rq: Rq, e: nat)
    requires p <= |q| && Waiting(q, e)
    ensures Waiting(q[..p] + [rq] + q[p..], e)
  {
    var i :| 0 <= i < |q| && ClosesEpoch(q[i], e);
    var r := q[..p] + [rq] + q[p..];
    assert ClosesEpoch(r[if i < p then i else i + 1], e);
  }

  // ----- adding and dispatching

  lemma InitOrder(mode: Mode)
    requires DrainMode(mode)
    ensures OrderInv(Init(mode))
  {
  }

  /** A new request of the newest epoch may stand behind anything on the queue. */
  lemma NewestLast(s: State, a: Rq, b: Rq)
    requires QueueOk(s, a) && b.kind.Fs? && b.epoch == s.added && (s.orig.Some? ==> s.done < s.added)
    requires IsProxy(a.kind) ==> s.orig.Some?
    ensures Before(s.done, a, b)
  {
  }

  lemma {:induction false} TagsMember(q: seq<Rq>, i: nat)
    requires i < |q|
    ensures TagOf(q[i]) in Tags(q)
  {
    TagsRemove(q, i);
  }

  /** A proxy on the queue belongs to the running sequence and its step is still to come. */
  lemma QueueProxies(s: State)
    requires SeqInv(s)
    ensures forall i :: 0 <= i < |s.queue| && IsProxy(s.queue[i].kind) ==>
              s.orig.Some? && StepOf(s.queue[i].kind) !in s.ordseq
  {
    hide Tags, FirstError, EndedIds, CurSeq;
    forall i | 0 <= i < |s.queue| && IsProxy(s.queue[i].kind)
      ensures s.orig.Some? && StepOf(s.queue[i].kind) !in s.ordseq
    {
      var rq := s.queue[i];
      TagsMember(s.queue, i);
      assert Held(s)[(rq.kind, rq.id)] == Expected(s, rq.kind, rq.id);
    }
  }

  lemma DriverProxies(s: State)
    requires SeqInv(s)
    ensures forall i :: 0 <= i < |s.driver| && IsProxy(s.driver[i].kind) ==>
              s.orig.Some? && StepOf(s.driver[i].kind) !in s.ordseq
  {
    hide Tags, FirstError, EndedIds, CurSeq;
    forall i | 0 <= i < |s.driver| && IsProxy(s.driver[i].kind)
      ensures s.orig.Some? && StepOf(s.driver[i].kind) !in s.ordseq
    {
      var rq := s.driver[i];
      TagsMember(s.driver, i);
      assert Held(s)[(rq.kind, rq.id)] == Expected(s, rq.kind, rq.id);
    }
  }

  /** The scheduler's requests behind the queue. */
  lemma DrainSorted(s: State)
    requires SeqInv(s) && OrderCore(s)
    ensures Sorted(s.done, s.queue + s.sched)
  {
    hide SeqInv, DriverOk, Flight, OpenEpochs;
    QueueProxies(s);
    assert Sorted(s.done, s.sched) by {
      forall i, j | 0 <= i < j < |s.sched| ensures Before(s.done, s.sched[i], s.sched[j]) {
        assert SchedOk(s, s.sched[i]) && SchedOk(s, s.sched[j]);
      }
    }
    forall i, j | 0 <= i < |s.queue| && 0 <= j < |s.sched| ensures Before(s.done, s.queue[i], s.sched[j]) {
      assert QueueOk(s, s.queue[i]) && SchedOk(s, s.sched[j]);
      NewestLast(s, s.queue[i], s.sched[j]);
    }
    SortedConcat(s.done, s.queue, s.sched);
  }

  /** `elv_drain_elevator` and insertion at the back: order, members and waiting barriers. */
  lemma InsertBackOrder(s: State, rq: Rq)
    requires SeqInv(s) && OrderCore(s)
    requires rq.kind.Special? || (rq.kind.Fs? && rq.epoch == s.added && !rq.started && rq.color == Color(s, rq.epoch))
    ensures var q := InsertBack(s, rq).queue;
            && Sorted(s.done, q) && |q| == |s.queue| + |s.sched| + 1 && q[|q|-1] == rq.(soft := true)
            && (forall i :: 0 <= i < |q| - 1 ==> QueueOk(s, q[i]))
            && (forall e :: Waiting(s.queue, e) ==> Waiting(q, e))
  {
    hide SeqInv, DriverOk, Flight, OpenEpochs, Waiting;
    DrainSorted(s);
    QueueProxies(s);
    var a, r := s.queue + s.sched, rq.(soft := true);
    var q := a + [r];
    forall i | 0 <= i < |a| ensures QueueOk(s, a[i]) && Before(s.done, a[i], r) {
      if i < |s.queue| {
        assert QueueOk(s, s.queue[i]);
      } else {
        assert SchedOk(s, s.sched[i - |s.queue|]);
      }
      if rq.kind.Fs? { NewestLast(s, a[i], r); }
    }
    SortedConcat(s.done, a, [r]);
    forall e | Waiting(s.queue, e) ensures Waiting(q, e) {
      WaitingPrefix(s.queue, s.sched + [r], e);
      assert s.queue + (s.sched + [r]) == q;
    }
  }

  lemma WaitingPrefix(a: seq<Rq>, b: seq<Rq>, e: nat)
    requires Waiting(a, e)
    ensures Waiting(a + b, e)
  {
    var i :| 0 <= i < |a| && ClosesEpoch(a[i], e);
    assert ClosesEpoch((a + b)[i], e);
  }

  lemma AddFsOrder(s: State, id: nat, barrier: bool, empty: bool, back: bool)
    requires SeqInv(s) && OrderCore(s)
    ensures OrderCore(AddFs(s, id, barrier, empty, back))
  {
    hide SeqInv, Flight, Waiting, Sorted;
    var rq := Rq(id, Fs, barrier, empty, s.ordcolor, s.added, false, false);
    var s' := AddFs(s, id, barrier, empty, back);
    if barrier || back {
      InsertBackOrder(s, rq);
      var q := s'.queue;
      assert q == InsertBack(s, rq).queue;
      forall i | 0 <= i < |q| ensures QueueOk(s', q[i]) {
        assert i < |q| - 1 ==> QueueOk(s, q[i]);
      }
      if barrier {
        assert ClosesEpoch(q[|q|-1], s.added);
        NewBarrierWaits(q, s.added);
      }
      forall e {:trigger Waiting(q, e)} | s'.done + (if s'.orig.Some? then 1 else 0) <= e < s'.added
        ensures Waiting(q, e)
      {
        assert e < s.added ==> Waiting(s.queue, e);
      }
      forall i | 0 <= i < |s'.driver| ensures DriverOk(s', s'.driver[i]) {
        assert DriverOk(s, s.driver[i]);
      }
    } else {
      PlainAdd(s, rq, s');
    }
  }

  lemma NewBarrierWaits(q: seq<Rq>, e: nat)
    requires q != [] && ClosesEpoch(q[|q|-1], e)
    ensures Waiting(q, e)
  {
  }

  lemma PlainAdd(s: State, rq: Rq, s': State)
    requires OrderCore(s) && SchedOk(s, rq)
    requires s' == s.(sched := s.sched + [rq], accepted := s'.accepted, epochOf := s'.epochOf)
    ensures OrderCore(s')
  {
    hide Flight, Sorted, Waiting;
    forall i | 0 <= i < |s'.queue| ensures QueueOk(s', s'.queue[i]) { assert QueueOk(s, s.queue[i]); }
    forall i | 0 <= i < |s'.driver| ensures DriverOk(s', s'.driver[i]) { assert DriverOk(s, s.driver[i]); }
    forall i | 0 <= i < |s'.sched| ensures SchedOk(s', s'.sched[i]) {
      assert i < |s.sched| ==> SchedOk(s, s.sched[i]);
    }
  }

  /** The state with other colours to give. */
  function Dyed(s: State, ordcolor: bool, colors: seq<bool>): State {
    s.(ordcolor := ordcolor, colors := colors)
  }

  /** A special request comes in: but for the colours, nothing is disturbed. */
  lemma SpecialComesIn(s: State, id: nat, front: bool, hard: bool)
    requires SeqInv(s) && OrderCore(s)
    ensures OrderCore(Dyed(AddSpecial(s, id, front, hard), s.ordcolor, s.colors))
  {
    hide SeqInv, OrderCore, Waiting, Sorted, QueueOk;
    SpecialQueued(s, Rq(id, Special, hard, false, s.ordcolor, s.added, true, false), front);
    QueueRebuilt(s, Dyed(AddSpecial(s, id, front, hard), s.ordcolor, s.colors));
  }

  /** Only the queue has changed, and perhaps the scheduler was drained into it. */
  lemma QueueRebuilt(s: State, s': State)
    requires OrderCore(s) && s' == s.(queue := s'.queue, sched := s'.sched) && (s'.sched == s.sched || s'.sched == [])
    requires Sorted(s.done, s'.queue) && (forall i :: 0 <= i < |s'.queue| ==> QueueOk(s, s'.queue[i]))
    requires forall e :: Waiting(s.queue, e) ==> Waiting(s'.queue, e)
    ensures OrderCore(s')
  {
    hide Flight, Waiting, Sorted;
    forall i | 0 <= i < |s'.queue| ensures QueueOk(s', s'.queue[i]) { assert QueueOk(s, s'.queue[i]); }
    forall i | 0 <= i < |s'.driver| ensures DriverOk(s', s'.driver[i]) { assert DriverOk(s, s.driver[i]); }
    forall i | 0 <= i < |s'.sched| ensures SchedOk(s', s'.sched[i]) { assert SchedOk(s, s.sched[i]); }
    forall e {:trigger Waiting(s'.queue, e)} | s'.done + (if s'.orig.Some? then 1 else 0) <= e < s'.added
      ensures Waiting(s'.queue, e)
    {
      assert Waiting(s.queue, e);
    }
  }

  lemma SpecialQueued(s: State, rq: Rq, front: bool)
    requires SeqInv(s) && OrderCore(s) && rq.kind.Special?
    ensures var q := if front then [rq] + s.queue else s.queue + s.sched + [rq.(soft := true)];
            && Sorted(s.done, q) && (forall i :: 0 <= i < |q| ==> QueueOk(s, q[i]))
            && (forall e :: Waiting(s.queue, e) ==> Waiting(q, e))
  {
    hide SeqInv, Flight, Waiting, Sorted, OpenEpochs, DriverOk, SchedOk;
    if front {
      var q := [rq] + s.queue;
      assert q == s.queue[..0] + [rq] + s.queue[0..];
      SortedInsert(s.done, s.queue, 0, rq);
      forall e | Waiting(s.queue, e) ensures Waiting(q, e) { WaitingInsert(s.queue, 0, rq, e); }
      forall i | 0 <= i < |q| ensures QueueOk(s, q[i]) { assert i > 0 ==> QueueOk(s, s.queue[i-1]); }
    } else {
      InsertBackOrder(s, rq);
      var q := InsertBack(s, rq).queue;
      forall i | 0 <= i < |q| ensures QueueOk(s, q[i]) { assert i < |q| - 1 ==> QueueOk(s, q[i]); }
    }
  }

  ghost predicate NoneIn(q: seq<Rq>, e: nat) {
    forall i :: 0 <= i < |q| && q[i].kind.Fs? ==> q[i].epoch != e
  }

  /** No file-system request of epoch `e` is held anywhere. */
  ghost predicate NoneOf(s: State, e: nat) {
    NoneIn(s.queue, e) && NoneIn(s.sched, e) && NoneIn(s.driver, e)
  }

  lemma RecoloredAt(s: State, s': State, e: nat)
    requires |s.colors| == s.added + 1 && s'.colors == Recolored(s.colors, !s.ordcolor) && e <= s.added
    ensures Color(s', e) == if e < s.added then Color(s, e) else !s.ordcolor
  {
  }

  /** While nothing of the newest epoch is held, its colour may change. */
  lemma RecolorOrder(s: State)
    requires OrderCore(s) && NoneOf(s, s.added)
    ensures OrderCore(Dyed(s, !s.ordcolor, Recolored(s.colors, !s.ordcolor)))
  {
    hide Flight, Waiting, Sorted, Color;
    var s' := Dyed(s, !s.ordcolor, Recolored(s.colors, !s.ordcolor));
    RecoloredAt(s, s', s.added);
    if s.orig.Some? { RecoloredAt(s, s', s.done); }
    forall i | 0 <= i < |s.queue| ensures QueueOk(s', s.queue[i]) {
      assert QueueOk(s, s.queue[i]);
      if s.queue[i].kind.Fs? { RecoloredAt(s, s', s.queue[i].epoch); }
    }
    forall i | 0 <= i < |s.driver| ensures DriverOk(s', s.driver[i]) {
      assert DriverOk(s, s.driver[i]);
      if s.driver[i].kind.Fs? { RecoloredAt(s, s', s.driver[i].epoch); }
    }
    NoneScheduled(s);
  }

  lemma NewestScheduled(s: State, i: nat)
    requires OrderCore(s) && i < |s.sched|
    ensures s.sched[i].kind.Fs? && s.sched[i].epoch == s.added
  {
    assert SchedOk(s, s.sched[i]);
  }

  lemma NoneScheduled(s: State)
    requires OrderCore(s) && NoneIn(s.sched, s.added)
    ensures s.sched == []
  {
    hide OrderCore;
    if s.sched != [] { NewestScheduled(s, 0); }
  }

  /** Behind a dispatch point only requests of the newest epoch stand. */
  lemma BehindPoint(s: State, p: nat, i: nat)
    requires SeqInv(s) && OrderCore(s) && DispatchPoint(s.queue, p) && p <= i < |s.queue|
    ensures !IsProxy(s.queue[i].kind)
    ensures s.queue[i].kind.Fs? ==> s.queue[i].epoch == s.added
  {
    hide SeqInv, Flight;
    var r := s.queue[i];
    assert QueueOk(s, r);
    if r.kind.Fs? {
      forall j | 0 <= j < |s.queue| ensures !ClosesEpoch(s.queue[j], r.epoch) {
        if j < i { assert Before(s.done, s.queue[j], r); }
      }
      assert !Waiting(s.queue, r.epoch);
    }
  }

  lemma DispatchOrder(s: State, i: nat, p: nat)
    requires SeqInv(s) && OrderCore(s)
    ensures OrderCore(Dispatch(s, i, p))
  {
    hide SeqInv, Flight, Waiting, Sorted;
    if i < |s.sched| && DispatchPoint(s.queue, p) {
      var rq := s.sched[i];
      assert SchedOk(s, rq);
      QueueProxies(s);
      forall j | 0 <= j < p ensures Before(s.done, s.queue[j], rq) {
        assert QueueOk(s, s.queue[j]);
        NewestLast(s, s.queue[j], rq);
      }
      forall j | p <= j < |s.queue| ensures Before(s.done, rq, s.queue[j]) {
        BehindPoint(s, p, j);
      }
      SortedInsert(s.done, s.queue, p, rq);
      var s' := Dispatch(s, i, p);
      forall e | Waiting(s.queue, e) ensures Waiting(s'.queue, e) { WaitingInsert(s.queue, p, rq, e); }
      Moved(s, s', p, rq);
    }
  }

  /** The members of the three places after one request moved to position `p` of the queue. */
  lemma Moved(s: State, s': State, p: nat, rq: Rq)
    requires OrderCore(s) && p <= |s.queue| && QueueOk(s', rq)
    requires s'.queue == s.queue[..p] + [rq] + s.queue[p..]
    requires Sorted(s'.done, s'.queue) && (forall e :: Waiting(s.queue, e) ==> Waiting(s'.queue, e))
    requires s' == s.(queue := s'.queue, sched := s'.sched, driver := s'.driver, inFlight := s'.inFlight)
    requires s'.inFlight == Flight(s'.driver)
    requires forall i :: 0 <= i < |s'.sched| ==> s'.sched[i] in s.sched
    requires forall i :: 0 <= i < |s'.driver| ==> s'.driver[i] in s.driver
    ensures OrderCore(s')
  {
    hide Flight, Waiting, Sorted;
    forall i | 0 <= i < |s'.queue| ensures QueueOk(s', s'.queue[i]) {
      if i != p {
        var j := if i < p then i else i - 1;
        assert s'.queue[i] == s.queue[j] && QueueOk(s, s.queue[j]);
      }
    }
    forall i | 0 <= i < |s'.driver| ensures DriverOk(s', s'.driver[i]) {
      assert s'.driver[i] in s.driver;
      var j :| 0 <= j < |s.driver| && s.driver[j] == s'.driver[i];
      assert DriverOk(s, s.driver[j]);
    }
    forall i | 0 <= i < |s'.sched| ensures SchedOk(s', s'.sched[i]) {
      assert s'.sched[i] in s.sched;
      var j :| 0 <= j < |s.sched| && s.sched[j] == s'.sched[i];
      assert SchedOk(s, s.sched[j]);
    }
  }

  // ----- requeueing

  /** A request that goes back is in front of everything it must be in front of. */
  lemma {:induction false} RequeuePointFacts(s: State, q: seq<Rq>, rq: Rq)
    requires s.orig.Some?
    ensures var p := RequeuePoint(s, q, rq);
            && (forall i :: 0 <= i < p ==> ReqSeq(s, q[i]) < ReqSeq(s, rq))
            && (p < |q| ==> ReqSeq(s, rq) <= ReqSeq(s, q[p]))
    decreases |q|
  {
    hide ReqSeq;
    if q != [] && ReqSeq(s, rq) > ReqSeq(s, q[0]) {
      RequeuePointFacts(s, q[1..], rq);
      var p := RequeuePoint(s, q[1..], rq);
      forall i | 0 <= i < p + 1 ensures ReqSeq(s, q[i]) < ReqSeq(s, rq) {
        assert i > 0 ==> q[i] == q[1..][i-1];
      }
    }
  }

  /** The first file-system request on the queue is of the current epoch or the one after. */
  lemma FirstFs(s: State, i: nat)
    requires OrderCore(s) && i < |s.queue|
    requires forall j :: 0 <= j < i ==> !s.queue[j].kind.Fs?
    ensures s.queue[i].kind.Fs? ==> s.queue[i].epoch <= s.done + (if s.orig.Some? then 1 else 0)
  {
    hide Flight;
    var e := s.done + (if s.orig.Some? then 1 else 0);
    var r := s.queue[i];
    assert QueueOk(s, r);
    forall j | 0 <= j < |s.queue| ensures r.kind.Fs? && e < r.epoch ==> !ClosesEpoch(s.queue[j], e) {
      if i < j { assert Before(s.done, r, s.queue[j]); }
    }
    assert r.kind.Fs? && e < r.epoch ==> !Waiting(s.queue, e);
  }

  lemma RequeueFront(s: State, rq: Rq)
    requires OrderCore(s) && rq.kind.Fs? && rq.epoch == s.done && !rq.barrier
    ensures forall i :: 0 <= i < |s.queue| ==> Before(s.done, rq, s.queue[i])
  {
    hide Flight, Sorted, OpenEpochs;
    forall i | 0 <= i < |s.queue| ensures Before(s.done, rq, s.queue[i]) {
      assert QueueOk(s, s.queue[i]);
    }
  }

  /** A proxy that goes back lands behind the special requests, in front of later proxies and
      of every file-system request. */
  lemma RequeueProxy(s: State, rq: Rq)
    requires SeqInv(s) && OrderCore(s) && IsProxy(rq.kind) && s.orig.Some? && SEQ_DRAIN in s.ordseq
    requires !SameColor(s, s.done)
    requires forall i :: 0 <= i < |s.queue| ==> s.queue[i].kind != rq.kind
    ensures var p := RequeuePoint(s, s.queue, rq);
            && p <= |s.queue|
            && (forall i :: 0 <= i < p ==> Before(s.done, s.queue[i], rq))
            && (forall i :: p <= i < |s.queue| ==> Before(s.done, rq, s.queue[i]))
  {
    hide SeqInv, Flight, RequeuePoint, OpenEpochs;
    RequeuePointFacts(s, s.queue, rq);
    var p := RequeuePoint(s, s.queue, rq);
    var q := s.queue;
    forall i | 0 <= i < p ensures !q[i].kind.Fs? {
      NoFsBefore(s, p, rq, i);
    }
    forall i | p <= i < |q| ensures Before(s.done, rq, q[i]) {
      assert QueueOk(s, q[i]);
      if IsProxy(q[i].kind) && i > p {
        ProxyBehind(s, p, i, rq);
      }
    }
  }

  /** Scanning for the place of a proxy never passes a file-system request. */
  lemma {:induction false} NoFsBefore(s: State, p: nat, rq: Rq, i: nat)
    requires OrderCore(s) && IsProxy(rq.kind) && s.orig.Some? && SEQ_DRAIN in s.ordseq && !SameColor(s, s.done)
    requires i < p <= |s.queue| && (forall j :: 0 <= j < p ==> ReqSeq(s, s.queue[j]) < ReqSeq(s, rq))
    ensures !s.queue[i].kind.Fs?
    decreases i
  {
    hide Flight, Sorted, OpenEpochs;
    forall j | 0 <= j < i ensures !s.queue[j].kind.Fs? {
      NoFsBefore(s, p, rq, j);
    }
    FirstFs(s, i);
    assert QueueOk(s, s.queue[i]);
    assert ReqSeq(s, s.queue[i]) < ReqSeq(s, rq);
  }

  lemma ProxyBehind(s: State, p: nat, i: nat, rq: Rq)
    requires OrderCore(s) && IsProxy(rq.kind) && s.orig.Some? && SEQ_DRAIN in s.ordseq
    requires p < i < |s.queue| && IsProxy(s.queue[i].kind) && s.queue[i].kind != rq.kind
    requires ReqSeq(s, rq) <= ReqSeq(s, s.queue[p])
    ensures StepOf(rq.kind) < StepOf(s.queue[i].kind)
  {
    hide Flight, OpenEpochs;
    assert Before(s.done, s.queue[p], s.queue[i]);
    assert QueueOk(s, s.queue[p]);
  }

  /** No other copy of a proxy that is at the driver. */
  lemma ProxyOnce(s: State, i: nat)
    requires SeqInv(s) && i < |s.driver| && IsProxy(s.driver[i].kind)
    ensures s.orig.Some? && StepOf(s.driver[i].kind) !in s.ordseq
    ensures forall j :: 0 <= j < |s.queue| ==> s.queue[j].kind != s.driver[i].kind
    ensures forall j :: 0 <= j < |s.driver| && j != i ==> s.driver[j].kind != s.driver[i].kind
  {
    hide Tags, FirstError, EndedIds, CurSeq;
    var rq := s.driver[i];
    var rest := s.driver[..i] + s.driver[i+1..];
    TagsRemove(s.driver, i);
    assert Held(s)[(rq.kind, rq.id)] == Expected(s, rq.kind, rq.id);
    forall j | 0 <= j < |s.queue| ensures s.queue[j].kind != rq.kind {
      TagsMember(s.queue, j);
      assert s.queue[j].kind == rq.kind ==> Held(s)[(rq.kind, s.queue[j].id)] == Expected(s, rq.kind, s.queue[j].id);
    }
    forall j | 0 <= j < |s.driver| && j != i ensures s.driver[j].kind != rq.kind {
      var k := if j < i then j else j - 1;
      assert rest[k] == s.driver[j];
      TagsMember(rest, k);
      assert s.driver[j].kind == rq.kind ==> Held(s)[(rq.kind, s.driver[j].id)] == Expected(s, rq.kind, s.driver[j].id);
    }
  }

  lemma RequeueOrder(s: State, i: nat)
    requires SeqInv(s) && OrderCore(s) && (s.orig.Some? ==> !SameColor(s, s.done))
    ensures OrderCore(Requeue(s, i))
  {
    hide SeqInv, Flight, Waiting, Sorted, RequeuePoint, OpenEpochs;
    if i < |s.driver| {
      var rq := s.driver[i];
      assert DriverOk(s, rq);
      var rq' := rq.(started := false, soft := true);
      var p := if s.ordseq == {} || s.orig.None? then 0 else RequeuePoint(s, s.queue, rq');
      RequeuePlace(s, i, rq', p);
      SortedInsert(s.done, s.queue, p, rq');
      var s' := Requeue(s, i);
      FlightRemove(s.driver, i);
      forall e | Waiting(s.queue, e) ensures Waiting(s'.queue, e) { WaitingInsert(s.queue, p, rq', e); }
      Moved(s, s', p, rq');
    }
  }

  lemma RequeuePlace(s: State, i: nat, rq: Rq, p: nat)
    requires SeqInv(s) && OrderCore(s) && i < |s.driver| && DriverOk(s, s.driver[i])
    requires s.orig.Some? ==> !SameColor(s, s.done)
    requires rq == s.driver[i].(started := false, soft := true)
    requires p == if s.ordseq == {} || s.orig.None? then 0 else RequeuePoint(s, s.queue, rq)
    ensures p <= |s.queue|
    ensures forall j :: 0 <= j < p ==> Before(s.done, s.queue[j], rq)
    ensures forall j :: p <= j < |s.queue| ==> Before(s.done, rq, s.queue[j])
  {
    hide SeqOk, ConsOk, Flight, Waiting, Sorted, OpenEpochs, RequeuePoint;
    if IsProxy(rq.kind) {
      ProxyOnce(s, i);
      Idle(s, Held(s));
      RequeueProxy(s, rq);
    } else {
      if rq.kind.Fs? { RequeueFront(s, rq); }
      if s.ordseq != {} && s.orig.Some? {
        RequeuePointFacts(s, s.queue, rq);
      }
    }
  }

  // ----- completing a step

  /** No request of the epoch the running barrier closes is on the queue or at the driver. */
  ghost predicate Drained(s: State) {
    && (forall i :: 0 <= i < |s.queue| && s.queue[i].kind.Fs? ==> s.queue[i].epoch != s.done)
    && (forall i :: 0 <= i < |s.driver| && s.driver[i].kind.Fs? ==> s.driver[i].epoch != s.done)
  }

  ghost predicate NoProxyOut(s: State) {
    forall i :: 0 <= i < |s.driver| ==> !IsProxy(s.driver[i].kind)
  }

  lemma StepOrder(s: State, steps: set<nat>, error: int)
    requires OrderCore(s) && s.orig.Some? && NoProxyOut(s)
    requires SeqInv(CompleteSeq(s, steps, error))
    requires SEQ_DRAIN in s.ordseq + steps ==> Drained(s)
    ensures OrderCore(CompleteSeq(s, steps, error))
  {
    hide SeqInv, Flight, Waiting, Sorted;
    var s' := CompleteSeq(s, steps, error);
    QueueProxies(s');
    StepSorted(s, s');
    forall i | 0 <= i < |s'.queue| ensures QueueOk(s', s'.queue[i]) { assert QueueOk(s, s.queue[i]); }
    forall i | 0 <= i < |s'.driver| ensures DriverOk(s', s'.driver[i]) { assert DriverOk(s, s.driver[i]); }
    forall i | 0 <= i < |s'.sched| ensures SchedOk(s', s'.sched[i]) { assert SchedOk(s, s.sched[i]); }
  }

  lemma StepSorted(s: State, s': State)
    requires Sorted(s.done, s.queue) && s'.queue == s.queue
    requires s'.done == s.done || (forall i :: 0 <= i < |s.queue| ==> !IsProxy(s.queue[i].kind))
    ensures Sorted(s'.done, s'.queue)
  {
    forall i, j | 0 <= i < j < |s.queue| ensures Before(s'.done, s.queue[i], s.queue[j]) {
      assert Before(s.done, s.queue[i], s.queue[j]);
    }
  }

  /** Taking request `i` off the driver. */
  lemma OffDriver(s: State, i: nat, ended: seq<(nat, int)>)
    requires OrderCore(s) && i < |s.driver|
    ensures var rq := s.driver[i];
            OrderCore(s.(driver := s.driver[..i] + s.driver[i+1..], ended := ended,
                        inFlight := if rq.Accounted() then s.inFlight - 1 else s.inFlight))
  {
    hide Flight, Waiting, Sorted;
    var rq := s.driver[i];
    var s' := s.(driver := s.driver[..i] + s.driver[i+1..], ended := ended,
                 inFlight := if rq.Accounted() then s.inFlight - 1 else s.inFlight);
    FlightRemove(s.driver, i);
    forall j | 0 <= j < |s'.driver| ensures DriverOk(s', s'.driver[j]) {
      var k := if j < i then j else j + 1;
      assert s'.driver[j] == s.driver[k] && DriverOk(s, s.driver[k]);
    }
    forall j | 0 <= j < |s'.queue| ensures QueueOk(s', s'.queue[j]) { assert QueueOk(s, s.queue[j]); }
    forall j | 0 <= j < |s'.sched| ensures SchedOk(s', s'.sched[j]) { assert SchedOk(s, s.sched[j]); }
  }

  /** When nothing is in flight while the current step is DRAIN and the head of the queue is
      past it, the epoch is over. */
  lemma NowDrained(s: State)
    requires OrderCore(s) && s.orig.Some? && s.inFlight == 0 && CurSeq(s.ordseq) == SEQ_DRAIN
    requires s.queue == [] || ReqSeq(s, s.queue[0]) > SEQ_DRAIN
    ensures Drained(s) && NoProxyOut(s)
  {
    hide Flight, OpenEpochs;
    FlightZero(s.driver);
    forall i | 0 <= i < |s.driver| ensures !s.driver[i].kind.Fs? && !IsProxy(s.driver[i].kind) {
      assert DriverOk(s, s.driver[i]);
    }
    forall i | 0 <= i < |s.queue| && s.queue[i].kind.Fs? ensures s.queue[i].epoch != s.done {
      assert QueueOk(s, s.queue[i]) && QueueOk(s, s.queue[0]);
      if i > 0 { assert Before(s.done, s.queue[0], s.queue[i]); }
    }
  }

  lemma CompletedOrder(s: State, s0: State, rq: Rq)
    requires OrderCore(s)
    requires s == s0.(inFlight := if rq.Accounted() then s0.inFlight - 1 else s0.inFlight)
    requires SeqInv(Completed(s0, rq))
    ensures OrderCore(Completed(s0, rq))
  {
    hide SeqInv, OrderCore, CompleteSeq, ReqSeq;
    if Completed(s0, rq) != s {
      NowDrained(s);
      StepOrder(s, {SEQ_DRAIN}, 0);
    }
  }

  lemma CompleteOrder(s: State, i: nat, error: int)
    requires SeqInv(s) && OrderCore(s)
    ensures OrderCore(Complete(s, i, error))
  {
    hide SeqInv, OrderCore, CompleteSeq, Completed;
    if i < |s.driver| {
      CompleteSeqInv(s, i, error);
      var rq := s.driver[i];
      var ended := if rq.kind.Fs? then s.ended + [(rq.id, error)] else s.ended;
      var s0 := s.(driver := s.driver[..i] + s.driver[i+1..], ended := ended);
      var s1 := s0.(inFlight := if rq.Accounted() then s.inFlight - 1 else s.inFlight);
      OffDriver(s, i, ended);
      if IsProxy(rq.kind) {
        ProxyAlone(s, i, s1);
        CompletedKeeps(s0, rq, s1);
        StepOrder(s1, {StepOf(rq.kind)}, error);
      } else {
        CompletedOrder(s1, s0, rq);
      }
    }
  }

  lemma CompletedKeeps(s0: State, rq: Rq, s1: State)
    requires s1 == s0.(inFlight := if rq.Accounted() then s0.inFlight - 1 else s0.inFlight)
    requires SEQ_DRAIN in s0.ordseq
    ensures Completed(s0, rq) == s1
  {
  }

  /** A proxy at the driver is the only one there, and the queue has drained. */
  lemma ProxyAlone(s: State, i: nat, s': State)
    requires SeqInv(s) && OrderCore(s) && i < |s.driver| && IsProxy(s.driver[i].kind)
    requires s'.queue == s.queue && s'.driver == s.driver[..i] + s.driver[i+1..] && s'.done == s.done
    ensures s.orig.Some? && SEQ_DRAIN in s.ordseq
    ensures Drained(s') && NoProxyOut(s')
  {
    hide SeqInv, Flight, OpenEpochs, Sorted;
    ProxyOnce(s, i);
    assert DriverOk(s, s.driver[i]);
    forall j | 0 <= j < |s'.driver| ensures !IsProxy(s'.driver[j].kind) && (s'.driver[j].kind.Fs? ==> s'.driver[j].epoch != s.done) {
      var k := if j < i then j else j + 1;
      assert s'.driver[j] == s.driver[k] && DriverOk(s, s.driver[k]);
    }
    forall j | 0 <= j < |s.queue| && s.queue[j].kind.Fs? ensures s.queue[j].epoch != s.done {
      assert QueueOk(s, s.queue[j]);
    }
  }

  // ----- starting a sequence

  lemma ProxyShape(rq: Rq, mode: Mode, i: nat)
    requires i < |Proxies(rq, mode)|
    ensures var p := Proxies(rq, mode)[i]; IsProxy(p.kind) && p.soft
  {
  }

  /** The queue of a sequence that begins: proxies, then requests of later epochs only. */
  lemma BeginSorted(s: State)
    requires SeqInv(s) && OrderCore(s) && s.orig.None? && s.queue != []
    requires s.queue[0].kind.Fs? && s.queue[0].barrier && s.queue[0].epoch == s.done
    ensures Sorted(s.done, Begin(s).queue)
    ensures forall j :: 0 <= j < |s.queue[1..]| ==>
              !IsProxy(s.queue[1..][j].kind) && (s.queue[1..][j].kind.Fs? ==> s.queue[1..][j].epoch > s.done)
  {
    hide SeqInv, Flight, OpenEpochs, Proxies, SequenceMode;
    QueueProxies(s);
    SortedTail(s.done, s.queue);
    var ps, rest := Proxies(s.queue[0], Begin(s).ordered), s.queue[1..];
    ProxiesInOrder(s.queue[0], Begin(s).ordered);
    forall i | 0 <= i < |ps| ensures IsProxy(ps[i].kind) { ProxyShape(s.queue[0], Begin(s).ordered, i); }
    forall j | 0 <= j < |rest| ensures !IsProxy(rest[j].kind) && (rest[j].kind.Fs? ==> rest[j].epoch > s.done) {
      assert rest[j] == s.queue[j + 1];
      assert Before(s.done, s.queue[0], rest[j]);
    }
    assert Sorted(s.done, ps);
    SortedConcat(s.done, ps, rest);
  }

  lemma BeginOrder(s: State)
    requires SeqInv(s) && OrderCore(s) && s.orig.None? && s.ordseq == {} && s.queue != []
    requires s.queue[0].kind.Fs? && s.queue[0].barrier
    ensures OrderCore(Begin(s)) && s.queue[0].epoch == s.done
    ensures NoProxyOut(Begin(s))
    ensures forall i :: 0 <= i < |Begin(s).queue| && Begin(s).queue[i].kind.Fs? ==> Begin(s).queue[i].epoch != s.done
  {
    hide SeqInv, Flight, Sorted, Proxies, OpenEpochs;
    var s', rq := Begin(s), s.queue[0];
    assert QueueOk(s, rq);
    FirstFs(s, 0);
    BeginSorted(s);
    DriverProxies(s);
    var ps, rest := Proxies(rq, s'.ordered), s.queue[1..];
    forall i | 0 <= i < |s'.queue|
      ensures QueueOk(s', s'.queue[i]) && (s'.queue[i].kind.Fs? ==> s'.queue[i].epoch != s.done)
    {
      if i < |ps| {
        ProxyShape(rq, s'.ordered, i);
        assert s'.queue[i] == ps[i];
      } else {
        var j := i - |ps|;
        assert s'.queue[i] == rest[j] && rest[j] == s.queue[j + 1] && QueueOk(s, s.queue[j + 1]);
      }
    }
    forall i | 0 <= i < |s'.driver| ensures DriverOk(s', s'.driver[i]) { assert DriverOk(s, s.driver[i]); }
    forall i | 0 <= i < |s'.sched| ensures SchedOk(s', s'.sched[i]) { assert SchedOk(s, s.sched[i]); }
    BeginEpochs(s, ps);
  }

  lemma BeginEpochs(s: State, ps: seq<Rq>)
    requires OrderCore(s) && s.orig.None? && s.queue != [] && s.queue[0].epoch == s.done && ClosesEpoch(s.queue[0], s.done)
    requires Begin(s).queue == ps + s.queue[1..] && s.done < s.added
    ensures OpenEpochs(Begin(s))
  {
    hide Flight, Sorted, Proxies;
    var q := Begin(s).queue;
    forall e {:trigger Waiting(q, e)} | s.done + 1 <= e < s.added ensures Waiting(q, e) {
      assert Waiting(s.queue, e);
      var i :| 0 <= i < |s.queue| && ClosesEpoch(s.queue[i], e);
      assert q[|ps| + i - 1] == s.queue[i];
    }
  }

  /** What may be handed out: a special request; a request of the current epoch, unless a
      running sequence has drained; or the proxy of the current step. */
  ghost predicate MayTake(s: State, r: Rq) {
    && (r.kind.Fs? ==> r.epoch == s.done && !r.barrier && r.color == Color(s, r.epoch) && (s.orig.Some? ==> SEQ_DRAIN !in s.ordseq))
    && (IsProxy(r.kind) ==> s.orig.Some? && StepOf(r.kind) == CurSeq(s.ordseq))
  }

  lemma StartOrderedOrder(s: State)
    requires SeqInv(s) && OrderCore(s) && s.orig.None? && s.ordseq == {} && s.queue != []
    requires s.queue[0].kind.Fs? && s.queue[0].barrier
    ensures var s' := StartOrdered(s);
            OrderCore(s') && (AfterStart(s').Take? && s'.queue != [] ==> MayTake(s', s'.queue[0]))
  {
    hide SeqInv, OrderCore, Proxies, SequenceMode, Flight;
    var s1 := Begin(s);
    var skip := Skipped(s1.ordered, s1.inFlight != 0);
    BeginOrder(s);
    StartOrderedSeq(s);
    BusyOrDrained(s1);
    StepOrder(s1, skip, 0);
    var s' := StartOrdered(s);
    if AfterStart(s').Take? {
      FirstStep(s.queue[0], s1.ordered, s1.inFlight != 0, s.queue[1..]);
    }
  }

  lemma BusyOrDrained(s: State)
    requires OrderCore(s) && s.orig.Some?
    requires forall i :: 0 <= i < |s.queue| && s.queue[i].kind.Fs? ==> s.queue[i].epoch != s.done
    ensures SEQ_DRAIN in Skipped(s.ordered, s.inFlight != 0) ==> Drained(s)
  {
    hide OpenEpochs, Sorted;
    if s.inFlight == 0 {
      FlightZero(s.driver);
      forall i | 0 <= i < |s.driver| ensures !s.driver[i].kind.Fs? {
        assert DriverOk(s, s.driver[i]);
      }
    }
  }

  /** Of the steps left, the first queued proxy is the current one. */
  lemma FirstStep(rq: Rq, mode: Mode, busy: bool, rest: seq<Rq>)
    requires CurSeq({STARTED} + Skipped(mode, busy)) != SEQ_DONE && SEQ_DRAIN in Skipped(mode, busy)
    ensures var q := Proxies(rq, mode) + rest;
            q != [] && IsProxy(q[0].kind) && StepOf(q[0].kind) == CurSeq({STARTED} + Skipped(mode, busy))
  {
  }

  lemma DoOrderedOrder(s: State)
    requires SeqInv(s) && OrderCore(s) && s.queue != [] && (s.orig.Some? ==> !SameColor(s, s.done))
    ensures OrderCore(DoOrdered(s).1)
    ensures DoOrdered(s).0.Take? && DoOrdered(s).1.queue != [] ==> MayTake(DoOrdered(s).1, DoOrdered(s).1.queue[0])
  {
    hide SeqOk, ConsOk, Flight, Sorted, OpenEpochs, StartOrdered;
    var rq := s.queue[0];
    QueueProxies(s);
    Idle(s, Held(s));
    FirstFs(s, 0);
    assert QueueOk(s, rq);
    if s.ordseq == {} && (rq.kind.Fs? || rq.kind.Bar?) && rq.barrier {
      StartOrderedOrder(s);
    } else if s.ordseq != {} {
      NotDone(s, Held(s));
      if IsProxy(rq.kind) { NextStep(s.ordseq, StepOf(rq.kind)); }
    }
  }

  lemma NotDone(s: State, held: multiset<Tag>)
    requires SeqOk(s, held)
    ensures s.orig.Some? ==> CurSeq(s.ordseq) != SEQ_DONE
  {
  }

  /** A clear bit not above the lowest clear bit is the lowest clear bit. */
  lemma NextStep(b: set<nat>, step: nat)
    requires SEQ_PREFLUSH <= step <= SEQ_POSTFLUSH && step !in b
    ensures step <= CurSeq(b) ==> step == CurSeq(b)
  {
  }

  // ----- telling epochs apart

  /** The running sequence can tell its epoch from the next. */
  lemma OrigContrast(s: State)
    requires Contrast(s) && (s.orig.Some? ==> s.done < s.added)
    ensures s.orig.Some? ==> !SameColor(s, s.done)
  {
  }

  lemma AddFsContrast(s: State, id: nat, barrier: bool, empty: bool, back: bool)
    requires OrderInv(s)
    ensures Contrast(AddFs(s, id, barrier, empty, back))
  {
    hide Flight, Waiting, Sorted, OpenEpochs;
    var s' := AddFs(s, id, barrier, empty, back);
    forall e | s'.done <= e < s'.added && SameColor(s', e) ensures Passing(s', e) {
      assert SameColor(s, e) && Passing(s, e);
      forall i | 0 <= i < |s'.queue| ensures PassingRq(s'.queue[i], e) {
        if i < |s.queue| {
          assert PassingRq(s.queue[i], e);
        } else if i < |s.queue| + |s.sched| {
          assert SchedOk(s, s.sched[i - |s.queue|]);
        }
      }
    }
  }

  /** May the newest epoch change its colour?  Nothing of it may be held, and the epoch before,
      if that is not over and would then have the same colour, may only be passing. */
  ghost predicate Harmless(s: State) {
    && NoneOf(s, s.added)
    && (s.done < s.added && !SameColor(s, s.added - 1) ==> Passing(s, s.added - 1))
  }

  lemma SpecialPasses(s: State, id: nat, front: bool, hard: bool, e: nat)
    requires OrderCore(s) && Passing(s, e) && e < s.added
    ensures Passing(AddSpecial(s, id, front, hard), e)
  {
    hide Flight, Waiting, Sorted, OpenEpochs;
    var s' := AddSpecial(s, id, front, hard);
    forall i | 0 <= i < |s'.queue| ensures PassingRq(s'.queue[i], e) {
      if front {
        assert i > 0 ==> PassingRq(s.queue[i - 1], e);
      } else if i < |s.queue| {
        assert PassingRq(s.queue[i], e);
      } else if i < |s.queue| + |s.sched| {
        assert SchedOk(s, s.sched[i - |s.queue|]);
      }
    }
  }

  lemma AddSpecialOrder(s: State, id: nat, front: bool, hard: bool)
    requires SeqInv(s) && OrderInv(s) && (hard ==> Harmless(s))
    ensures OrderInv(AddSpecial(s, id, front, hard))
  {
    hide SeqInv, OrderCore, Passing, Color, SameColor;
    var s' := AddSpecial(s, id, front, hard);
    var s0 := Dyed(s', s.ordcolor, s.colors);
    SpecialComesIn(s, id, front, hard);
    if hard {
      SpecialNone(s, id, front, hard);
      RecolorOrder(s0);
      assert s' == Dyed(s0, !s.ordcolor, Recolored(s.colors, !s.ordcolor));
    } else {
      assert s' == s0;
    }
    forall e | s'.done <= e < s'.added && SameColor(s', e) ensures Passing(s', e) {
      SpecialColors(s, s', hard, e);
      SpecialPasses(s, id, front, hard, e);
    }
  }

  lemma SpecialNone(s: State, id: nat, front: bool, hard: bool)
    requires NoneOf(s, s.added)
    ensures NoneOf(Dyed(AddSpecial(s, id, front, hard), s.ordcolor, s.colors), s.added)
  {
    var q := AddSpecial(s, id, front, hard).queue;
    forall i | 0 <= i < |q| && q[i].kind.Fs? ensures q[i].epoch != s.added {
      if front {
        assert q[i] == s.queue[i - 1];
      } else if i < |s.queue| {
        assert q[i] == s.queue[i];
      } else {
        assert q[i] == s.sched[i - |s.queue|];
      }
    }
  }

  lemma SpecialColors(s: State, s': State, hard: bool, e: nat)
    requires OrderInv(s) && (hard ==> Harmless(s)) && s.done <= e < s.added && SameColor(s', e)
    requires s'.colors == if hard then Recolored(s.colors, !s.ordcolor) else s.colors
    ensures Passing(s, e)
  {
    hide Flight, Waiting, Sorted, OpenEpochs, QueueOk, DriverOk, SchedOk, Passing;
    if hard {
      RecoloredAt(s, s', e);
      RecoloredAt(s, s', e + 1);
    }
    assert SameColor(s, e) ==> Passing(s, e);
  }

  /** What leaves the queue alone, or only moves requests of the newest epoch, disturbs no
      passing epoch. */
  lemma DispatchContrast(s: State, i: nat, p: nat)
    requires OrderInv(s)
    ensures Contrast(Dispatch(s, i, p))
  {
    hide Flight, Waiting, Sorted, OpenEpochs;
    if i < |s.sched| && DispatchPoint(s.queue, p) {
      var s' := Dispatch(s, i, p);
      assert SchedOk(s, s.sched[i]);
      forall e | s'.done <= e < s'.added && SameColor(s', e) ensures Passing(s', e) {
        assert SameColor(s, e) && Passing(s, e);
        InsertPasses(s.queue, p, s.sched[i], e);
      }
    }
  }

  lemma InsertPasses(q: seq<Rq>, p: nat, rq: Rq, e: nat)
    requires p <= |q| && PassingRq(rq, e) && (forall i :: 0 <= i < |q| ==> PassingRq(q[i], e))
    ensures var r := q[..p] + [rq] + q[p..]; forall i :: 0 <= i < |r| ==> PassingRq(r[i], e)
  {
    hide PassingRq;
    var r := q[..p] + [rq] + q[p..];
    forall i | 0 <= i < |r| ensures PassingRq(r[i], e) {
      assert r[i] == if i < p then q[i] else if i == p then rq else q[i - 1];
    }
  }

  lemma RequeueContrast(s: State, i: nat)
    requires OrderInv(s)
    ensures Contrast(Requeue(s, i))
  {
    hide Flight, Waiting, Sorted, OpenEpochs, RequeuePoint, QueueOk, SchedOk;
    if i < |s.driver| {
      var s' := Requeue(s, i);
      var rq := s.driver[i].(started := false, soft := true);
      assert DriverOk(s, s.driver[i]);
      var p := if s.ordseq == {} || s.orig.None? then 0 else RequeuePoint(s, s.queue, rq);
      forall e | s'.done <= e < s'.added && SameColor(s', e) ensures Passing(s', e) {
        assert SameColor(s, e) && Passing(s, e);
        InsertPasses(s.queue, p, rq, e);
        RemovePasses(s.driver, i, e);
      }
    }
  }

  lemma RemovePasses(d: seq<Rq>, i: nat, e: nat)
    requires i < |d| && NoneIn(d, e)
    ensures NoneIn(d[..i] + d[i+1..], e)
  {
    var r := d[..i] + d[i+1..];
    forall j | 0 <= j < |r| && r[j].kind.Fs? ensures r[j].epoch != e {
      assert r[j] == d[if j < i then j else j + 1];
    }
  }

  lemma StepContrast(s: State, steps: set<nat>, error: int)
    requires Contrast(s)
    ensures Contrast(CompleteSeq(s, steps, error))
  {
    hide CurSeq;
    var s' := CompleteSeq(s, steps, error);
    forall e | s'.done <= e < s'.added && SameColor(s', e) ensures Passing(s', e) {
      assert SameColor(s, e) && Passing(s, e);
    }
  }

  lemma CompletedContrast(s: State, rq: Rq)
    requires Contrast(s)
    ensures Contrast(Completed(s, rq))
  {
    hide CompleteSeq, ReqSeq, CurSeq;
    var s1 := s.(inFlight := if rq.Accounted() then s.inFlight - 1 else s.inFlight);
    forall e | s1.done <= e < s1.added && SameColor(s1, e) ensures Passing(s1, e) {
      assert SameColor(s, e) && Passing(s, e);
    }
    StepContrast(s1, {SEQ_DRAIN}, 0);
  }

  lemma CompleteContrast(s: State, i: nat, error: int)
    requires Contrast(s)
    ensures Contrast(Complete(s, i, error))
  {
    hide CompleteSeq, Completed;
    if i < |s.driver| {
      var rq := s.driver[i];
      var s0 := s.(driver := s.driver[..i] + s.driver[i+1..],
                   ended := if rq.kind.Fs? then s.ended + [(rq.id, error)] else s.ended);
      forall e | s0.done <= e < s0.added && SameColor(s0, e) ensures Passing(s0, e) {
        assert SameColor(s, e) && Passing(s, e);
        RemovePasses(s.driver, i, e);
      }
      CompletedContrast(s0, rq);
      if IsProxy(rq.kind) {
        StepContrast(Completed(s0, rq), {StepOf(rq.kind)}, error);
      }
    }
  }

  lemma {:induction false} FlightNone(d: seq<Rq>)
    requires forall i :: 0 <= i < |d| ==> !d[i].Accounted()
    ensures Flight(d) == 0
    decreases |d|
  {
    if d != [] {
      FlightNone(d[..|d|-1]);
    }
  }

  /** The empty barrier of a passing epoch ends as soon as it gets to the head of the queue. */
  lemma PassesAtOnce(s: State)
    requires SeqInv(s) && OrderCore(s) && s.orig.None? && s.ordseq == {} && s.queue != [] && Passing(s, s.done)
    requires s.queue[0].kind.Fs? && s.queue[0].barrier && s.queue[0].epoch == s.done
    ensures var s' := StartOrdered(s);
            s'.orig.None? && s'.ordseq == {} && s'.done == s.done + 1 && s'.queue == s.queue[1..] && s'.driver == s.driver
  {
    hide SeqInv, Waiting, Sorted, OpenEpochs, SchedOk;
    var rq := s.queue[0];
    assert PassingRq(rq, s.done) && QueueOk(s, rq);
    DriverProxies(s);
    forall i | 0 <= i < |s.driver| ensures !s.driver[i].Accounted() {
      assert DriverOk(s, s.driver[i]);
    }
    FlightNone(s.driver);
    var s1 := Begin(s);
    assert s1.inFlight == 0;
    assert s1.queue == [] + s.queue[1..];
    AllSkipped(s1.ordered);
  }

  lemma AllSkipped(mode: Mode)
    requires !mode.doPre && !mode.doBar && !mode.doPost
    ensures Skipped(mode, false) == {SEQ_DRAIN, SEQ_PREFLUSH, SEQ_BAR, SEQ_POSTFLUSH}
  {
  }

  lemma StartContrast(s: State)
    requires SeqInv(s) && OrderInv(s) && s.orig.None? && s.ordseq == {} && s.queue != []
    requires s.queue[0].kind.Fs? && s.queue[0].barrier && s.queue[0].epoch == s.done
    ensures Contrast(StartOrdered(s))
  {
    hide SeqInv, OrderCore, Skipped, SequenceMode, Proxies, Flight;
    var s' := StartOrdered(s);
    if s.done < s.added && SameColor(s, s.done) {
      PassesAtOnce(s);
    }
    forall e | s'.done <= e < s'.added && SameColor(s', e) ensures Passing(s', e) {
      assert SameColor(s, e) && Passing(s, e);
      var ps := Proxies(s.queue[0], SequenceMode(s.next, s.queue[0].empty));
      forall i | 0 <= i < |s'.queue| ensures PassingRq(s'.queue[i], e) {
        if i < |ps| {
          ProxyShape(s.queue[0], SequenceMode(s.next, s.queue[0].empty), i);
        } else {
          assert PassingRq(s.queue[i - |ps| + 1], e);
        }
      }
    }
  }

  lemma DoOrderedContrast(s: State)
    requires SeqInv(s) && OrderInv(s) && s.queue != []
    ensures Contrast(DoOrdered(s).1)
  {
    hide SeqOk, ConsOk, Flight, Sorted, OpenEpochs, StartOrdered, ReqSeq, CurSeq, Contrast;
    var rq := s.queue[0];
    QueueProxies(s);
    Idle(s, Held(s));
    FirstFs(s, 0);
    assert QueueOk(s, rq);
    if s.ordseq == {} && (rq.kind.Fs? || rq.kind.Bar?) && rq.barrier {
      StartContrast(s);
    }
  }

  lemma {:induction false} NextRequestOrder(s: State)
    requires SeqInv(s) && OrderInv(s)
    ensures var (ok, s') := NextRequest(s);
            OrderInv(s') && SeqInv(s') && (ok ==> s'.queue != [] && MayTake(s', s'.queue[0]))
    decreases |s.queue|
  {
    hide SeqInv, OrderCore, Contrast, DoOrdered, MayTake;
    if s.queue != [] {
      CoreDone(s);
      OrigContrast(s);
      DoOrderedSeq(s);
      DoOrderedOrder(s);
      DoOrderedContrast(s);
      if DoOrdered(s).0.Again? {
        AgainShrinks(s);
        NextRequestOrder(DoOrdered(s).1);
      }
    }
  }

  lemma CoreDone(s: State)
    requires OrderCore(s)
    ensures s.orig.Some? ==> s.done < s.added
  {
  }

  /** Marking the head of the queue as started. */
  lemma MarkHead(s: State)
    requires OrderCore(s) && s.queue != [] && MayTake(s, s.queue[0])
    ensures OrderCore(s.(queue := [s.queue[0].(started := true)] + s.queue[1..]))
  {
    hide Flight, Waiting, Sorted;
    var rq := s.queue[0].(started := true);
    var s' := s.(queue := [rq] + s.queue[1..]);
    SortedReplace(s.done, s.queue, rq);
    forall i | 0 <= i < |s'.queue| ensures QueueOk(s', s'.queue[i]) { assert QueueOk(s, s.queue[i]); }
    forall i | 0 <= i < |s'.driver| ensures DriverOk(s', s'.driver[i]) { assert DriverOk(s, s.driver[i]); }
    forall i | 0 <= i < |s'.sched| ensures SchedOk(s', s'.sched[i]) { assert SchedOk(s, s.sched[i]); }
    forall e {:trigger Waiting(s'.queue, e)} | s'.done + (if s'.orig.Some? then 1 else 0) <= e < s'.added
      ensures Waiting(s'.queue, e)
    {
      assert Waiting(s.queue, e);
      WaitingKept(s.queue, rq, e);
    }
  }

  lemma WaitingKept(q: seq<Rq>, rq: Rq, e: nat)
    requires q != [] && Waiting(q, e) && rq.kind == q[0].kind && rq.barrier == q[0].barrier && rq.epoch == q[0].epoch
    ensures Waiting([rq] + q[1..], e)
  {
    var i :| 0 <= i < |q| && ClosesEpoch(q[i], e);
    assert ClosesEpoch(([rq] + q[1..])[i], e);
  }

  /** Handing the head of the queue to the driver. */
  lemma HandOut(s: State)
    requires OrderCore(s) && s.queue != [] && MayTake(s, s.queue[0])
    ensures var rq := s.queue[0].(started := true);
            OrderCore(s.(queue := s.queue[1..], driver := s.driver + [rq],
                        inFlight := if rq.Accounted() then s.inFlight + 1 else s.inFlight))
  {
    hide Flight, Waiting, Sorted;
    var rq := s.queue[0].(started := true);
    var s' := s.(queue := s.queue[1..], driver := s.driver + [rq],
                 inFlight := if rq.Accounted() then s.inFlight + 1 else s.inFlight);
    FlightConcat(s.driver, [rq]);
    FlightOne(rq);
    SortedTail(s.done, s.queue);
    forall i | 0 <= i < |s'.queue| ensures QueueOk(s', s'.queue[i]) { assert QueueOk(s, s.queue[i + 1]); }
    forall i | 0 <= i < |s'.driver| ensures DriverOk(s', s'.driver[i]) {
      assert i < |s.driver| ==> DriverOk(s, s.driver[i]);
    }
    forall i | 0 <= i < |s'.sched| ensures SchedOk(s', s'.sched[i]) { assert SchedOk(s, s.sched[i]); }
    forall e {:trigger Waiting(s'.queue, e)} | s'.done + (if s'.orig.Some? then 1 else 0) <= e < s'.added
      ensures Waiting(s'.queue, e)
    {
      assert Waiting(s.queue, e);
      WaitingBehind(s.queue, e);
    }
  }

  lemma WaitingBehind(q: seq<Rq>, e: nat)
    requires q != [] && Waiting(q, e) && !(q[0].kind.Fs? && q[0].barrier)
    ensures Waiting(q[1..], e)
  {
    var i :| 0 <= i < |q| && ClosesEpoch(q[i], e);
    assert q[1..][i - 1] == q[i];
  }

  /** Taking the head of the queue disturbs no passing epoch: of such an epoch there is
      nothing to take. */
  lemma TakeContrast(s: State, s': State)
    requires Contrast(s) && s.queue != [] && MayTake(s, s.queue[0])
    requires var rq := s.queue[0].(started := true);
             || s' == s.(queue := [rq] + s.queue[1..])
             || s' == s.(queue := s.queue[1..], driver := s.driver + [rq], inFlight := s'.inFlight)
    ensures Contrast(s')
  {
    hide CurSeq;
    forall e | s'.done <= e < s'.added && SameColor(s', e) ensures Passing(s', e) {
      assert SameColor(s, e) && Passing(s, e);
      assert PassingRq(s.queue[0], e);
      forall i | 0 <= i < |s'.queue| ensures PassingRq(s'.queue[i], e) {
        var j := if |s'.queue| == |s.queue| then i else i + 1;
        assert PassingRq(s.queue[j], e);
      }
    }
  }

  lemma FetchOrder(s: State, start: bool)
    requires SeqInv(s) && OrderInv(s)
    ensures OrderInv(Fetch(s, start))
  {
    hide SeqInv, OrderCore, Contrast, NextRequest, MayTake;
    NextRequestOrder(s);
    var (ok, s') := NextRequest(s);
    if ok && s'.queue != [] {
      MarkHead(s');
      HandOut(s');
      TakeContrast(s', Fetch(s, start));
    }
  }

  lemma BarErrorOrder(s: State, error: int)
    requires OrderCore(s)
    ensures OrderCore(BarError(s, error))
  {
    hide Flight, Waiting, Sorted;
    var s' := BarError(s, error);
    forall i | 0 <= i < |s'.queue| ensures QueueOk(s', s'.queue[i]) { assert QueueOk(s, s.queue[i]); }
    forall i | 0 <= i < |s'.driver| ensures DriverOk(s', s'.driver[i]) { assert DriverOk(s, s.driver[i]); }
    forall i | 0 <= i < |s'.sched| ensures SchedOk(s', s'.sched[i]) { assert SchedOk(s, s.sched[i]); }
  }

  // ----- every run

  /** A run without special requests that carry REQ_HARDBARRIER. */
  ghost predicate NoHardSpecial(es: seq<Event>) {
    forall i :: 0 <= i < |es| && es[i].EAddSpecial? ==> !es[i].hard
  }

  lemma BarErrorContrast(s: State, error: int)
    requires Contrast(s)
    ensures Contrast(BarError(s, error))
  {
    var s' := BarError(s, error);
    forall e | s'.done <= e < s'.added && SameColor(s', e) ensures Passing(s', e) {
      assert SameColor(s, e) && Passing(s, e);
    }
  }

  lemma ApplyOrder(s: State, e: Event)
    requires SeqInv(s) && OrderInv(s) && (e.EAddSpecial? && e.hard ==> Harmless(s))
    ensures OrderInv(Apply(s, e))
  {
    hide SeqInv, OrderCore, Contrast, Harmless, AddFs, AddSpecial, Dispatch, Fetch, Complete, BarError, Requeue;
    match e
    case EAddFs(id, barrier, empty, back) =>
      if id !in s.accepted {
        AddFsOrder(s, id, barrier, empty, back);
        AddFsContrast(s, id, barrier, empty, back);
      }
    case EAddSpecial(id, front, hard) => AddSpecialOrder(s, id, front, hard);
    case EDispatch(i, p) =>
      DispatchOrder(s, i, p);
      DispatchContrast(s, i, p);
    case EFetch(start) => FetchOrder(s, start);
    case EComplete(i, error) =>
      CompleteOrder(s, i, error);
      CompleteContrast(s, i, error);
    case EBarError(error) =>
      BarErrorOrder(s, error);
      BarErrorContrast(s, error);
    case ERequeue(i) =>
      CoreDone(s);
      OrigContrast(s);
      RequeueOrder(s, i);
      RequeueContrast(s, i);
  }

  /** A run in which special requests with REQ_HARDBARRIER are added at harmless moments only. */
  ghost predicate Calm(mode: Mode, es: seq<Event>) {
    if es == [] then true
    else
      var past, e := es[..|es|-1], es[|es|-1];
      Calm(mode, past) && (e.EAddSpecial? && e.hard ==> Harmless(Run(mode, past)))
  }

  lemma {:induction false} NoneIsCalm(mode: Mode, es: seq<Event>)
    requires NoHardSpecial(es)
    ensures Calm(mode, es)
    decreases |es|
  {
    if es != [] {
      NoneIsCalm(mode, es[..|es|-1]);
    }
  }

  lemma {:induction false} EveryRunOrdered(mode: Mode, es: seq<Event>)
    requires DrainMode(mode) && Calm(mode, es)
    ensures OrderInv(Run(mode, es)) && SeqInv(Run(mode, es))
    decreases |es|
  {
    hide SeqInv, OrderInv, Apply, Harmless;
    EveryRunSequenced(mode, es);
    if es == [] {
      InitOrder(mode);
    } else {
      EveryRunOrdered(mode, es[..|es|-1]);
      ApplyOrder(Run(mode, es[..|es|-1]), es[|es|-1]);
    }
  }
}
