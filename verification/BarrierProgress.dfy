/** A draining queue does not stall: in every run, a sequence that waits has something at the
    driver, or at the head of the queue, to wait for; so a driver that has nothing and asks
    is given a request, if there is one.
 */
module BarrierProgress {
  import opened Lists
  import opened Barrier
  import opened BarrierSequence
  import opened BarrierOrder

  ghost predicate SoftSpecials(q: seq<Rq>) {
    forall i :: 0 <= i < |q| && q[i].kind.Special? ==> q[i].soft
  }

  /** While a sequence drains, the driver has a request, or the head of the queue is one that
      may be taken and that nothing is put in front of. */
  ghost predicate Awaits(s: State) {
    s.orig.Some? && SEQ_DRAIN !in s.ordseq ==>
      s.driver != [] || (s.queue != [] && s.queue[0].soft && ReqSeq(s, s.queue[0]) == SEQ_DRAIN)
  }

  ghost predicate Moving(s: State) {
    SoftSpecials(s.queue) && Awaits(s)
  }

  /** A request that the draining sequence waits for is not passed by. */
  lemma DrainsSoft(s: State)
    requires OrderInv(s) && s.orig.Some? && s.queue != [] && SoftSpecials(s.queue)
    requires ReqSeq(s, s.queue[0]) == SEQ_DRAIN
    ensures s.queue[0].soft
  {
    hide Flight, Waiting, Sorted, OpenEpochs, Contrast, OrderCore;
    CoreDone(s);
    OrigContrast(s);
    HeadEpoch(s);
  }

  lemma HeadEpoch(s: State)
    requires OrderCore(s) && s.orig.Some? && s.queue != [] && !SameColor(s, s.done)
    ensures s.queue[0].kind.Fs? ==>
              && (s.queue[0].epoch == s.done || s.queue[0].epoch == s.done + 1)
              && (s.queue[0].epoch == s.done <==> s.queue[0].color == s.orig.value.color)
              && (s.queue[0].epoch == s.done ==> s.queue[0].soft && !s.queue[0].barrier)
  {
    hide Flight, Waiting, Sorted, OpenEpochs;
    FirstFs(s, 0);
    assert QueueOk(s, s.queue[0]);
  }

  // ----- every step keeps it

  lemma AddFsMoves(s: State, id: nat, barrier: bool, empty: bool, back: bool)
    requires Moving(s) && (forall i :: 0 <= i < |s.sched| ==> s.sched[i].kind.Fs?)
    ensures Moving(AddFs(s, id, barrier, empty, back))
  {
    var s' := AddFs(s, id, barrier, empty, back);
    forall i | 0 <= i < |s'.queue| && s'.queue[i].kind.Special? ensures s'.queue[i].soft {
      assert s'.queue[i] == s.queue[i];
    }
  }

  lemma AddSpecialMoves(s: State, id: nat, front: bool, hard: bool)
    requires Moving(s) && (forall i :: 0 <= i < |s.sched| ==> s.sched[i].kind.Fs?)
    ensures Moving(AddSpecial(s, id, front, hard))
  {
    var s' := AddSpecial(s, id, front, hard);
    forall i | 0 <= i < |s'.queue| && s'.queue[i].kind.Special? ensures s'.queue[i].soft {
      if front {
        assert i > 0 ==> s'.queue[i] == s.queue[i - 1];
      } else {
        assert i < |s.queue| ==> s'.queue[i] == s.queue[i];
      }
    }
  }

  lemma DispatchMoves(s: State, i: nat, p: nat)
    requires Moving(s) && (forall i :: 0 <= i < |s.sched| ==> s.sched[i].kind.Fs?)
    ensures Moving(Dispatch(s, i, p))
  {
    if i < |s.sched| && DispatchPoint(s.queue, p) {
      InsertSoft(s.queue, p, s.sched[i]);
      assert p == 0 && s.queue != [] ==> !s.queue[0].soft;
    }
  }

  lemma InsertSoft(q: seq<Rq>, p: nat, rq: Rq)
    requires SoftSpecials(q) && p <= |q| && (rq.kind.Special? ==> rq.soft)
    ensures SoftSpecials(q[..p] + [rq] + q[p..])
  {
    var r := q[..p] + [rq] + q[p..];
    forall i | 0 <= i < |r| && r[i].kind.Special? ensures r[i].soft {
      assert r[i] == if i < p then q[i] else if i == p then rq else q[i - 1];
    }
  }

  lemma RequeueMoves(s: State, i: nat)
    requires SeqInv(s) && OrderInv(s) && Moving(s)
    ensures Moving(Requeue(s, i))
  {
    hide SeqInv, Flight, Waiting, Sorted, OpenEpochs, Contrast;
    if i < |s.driver| {
      var rq := s.driver[i].(started := false, soft := true);
      assert DriverOk(s, s.driver[i]);
      var p := if s.ordseq == {} || s.orig.None? then 0 else RequeuePoint(s, s.queue, rq);
      InsertSoft(s.queue, p, rq);
      if IsProxy(rq.kind) {
        ProxyAlone(s, i, s.(driver := s.driver[..i] + s.driver[i+1..]));
      }
    }
  }

  lemma CompleteMoves(s: State, i: nat, error: int)
    requires SeqInv(s) && OrderInv(s) && Moving(s)
    ensures Moving(Complete(s, i, error))
  {
    hide SeqOk, ConsOk, OrderCore, Contrast, CompleteSeq, CurSeq, ReqSeq, Completed;
    if i < |s.driver| {
      var rq := s.driver[i];
      var s0 := s.(driver := s.driver[..i] + s.driver[i+1..],
                   ended := if rq.kind.Fs? then s.ended + [(rq.id, error)] else s.ended);
      if IsProxy(rq.kind) {
        ProxyAlone(s, i, s0);
        var s1 := s0.(inFlight := if rq.Accounted() then s.inFlight - 1 else s.inFlight);
        CompletedKeeps(s0, rq, s1);
        StepMoves(s1, {StepOf(rq.kind)}, error);
      } else {
        Idle(s, Held(s));
        CompletedMoves(s, i, s0);
      }
    }
  }

  /** Completing steps of a sequence that has drained, or completes the drain. */
  lemma StepMoves(s: State, steps: set<nat>, error: int)
    requires SoftSpecials(s.queue) && SEQ_DRAIN in s.ordseq + steps
    ensures Moving(CompleteSeq(s, steps, error))
  {
    hide CurSeq;
  }

  lemma CompletedMoves(s: State, i: nat, s0: State)
    requires OrderInv(s) && Moving(s) && i < |s.driver| && (s.orig.Some? ==> s.ordseq != {})
    requires s0 == s.(driver := s.driver[..i] + s.driver[i+1..], ended := s0.ended)
    ensures Moving(Completed(s0, s.driver[i]))
  {
    hide OrderInv, CompleteSeq, ReqSeq;
    var rq := s.driver[i];
    var s1 := s0.(inFlight := if rq.Accounted() then s.inFlight - 1 else s.inFlight);
    OffFlight(s, i, s1);
    StepMoves(s1, {SEQ_DRAIN}, 0);
    if s1.orig.Some? && s1.queue != [] {
      HeadSeq(s1);
      if ReqSeq(s1, s1.queue[0]) == SEQ_DRAIN {
        DrainsSoft(s1);
      }
    }
  }

  lemma HeadSeq(s: State)
    requires s.orig.Some? && s.queue != []
    ensures ReqSeq(s, s.queue[0]) >= SEQ_DRAIN
  {
  }

  lemma OffFlight(s: State, i: nat, s1: State)
    requires OrderInv(s) && i < |s.driver|
    requires s1 == s.(driver := s.driver[..i] + s.driver[i+1..], ended := s1.ended,
                      inFlight := if s.driver[i].Accounted() then s.inFlight - 1 else s.inFlight)
    ensures OrderInv(s1) && (s1.driver == [] ==> s1.inFlight == 0)
    ensures s1.orig.Some? ==> s1.ordseq == s.ordseq
  {
    hide OrderCore, Contrast;
    OffDriver(s, i, s1.ended);
    OffDriverContrast(s, i, s1);
    FlightOf(s1);
  }

  lemma FlightOf(s: State)
    requires OrderCore(s)
    ensures s.inFlight == Flight(s.driver)
  {
  }

  lemma OffDriverContrast(s: State, i: nat, s1: State)
    requires Contrast(s) && i < |s.driver|
    requires s1 == s.(driver := s.driver[..i] + s.driver[i+1..], ended := s1.ended, inFlight := s1.inFlight)
    ensures Contrast(s1)
  {
    forall e | s1.done <= e < s1.added && SameColor(s1, e) ensures Passing(s1, e) {
      assert SameColor(s, e) && Passing(s, e);
      RemovePasses(s.driver, i, e);
    }
  }

  lemma StartMoves(s: State)
    requires SeqInv(s) && OrderInv(s) && Moving(s) && s.queue != [] && s.queue[0].kind.Fs? && s.queue[0].barrier
    ensures Moving(StartOrdered(s))
  {
    hide SeqInv, OrderCore, Contrast, CurSeq, SequenceMode, Proxies;
    var s1 := Begin(s);
    var mode := s1.ordered;
    forall i | 0 <= i < |s1.queue| && s1.queue[i].kind.Special? ensures s1.queue[i].soft {
      var ps := Proxies(s.queue[0], mode);
      if i < |ps| {
        ProxyShape(s.queue[0], mode, i);
      } else {
        assert s1.queue[i] == s.queue[i - |ps| + 1];
      }
    }
    HeadUnstarted(s);
    FlightOf(s);
  }

  lemma HeadUnstarted(s: State)
    requires OrderCore(s) && s.queue != []
    ensures s.queue[0].kind.Fs? && s.queue[0].barrier ==> !s.queue[0].Accounted()
  {
    assert QueueOk(s, s.queue[0]);
  }

  lemma DoOrderedMoves(s: State)
    requires SeqInv(s) && OrderInv(s) && Moving(s) && s.queue != []
    ensures Moving(DoOrdered(s).1)
  {
    hide SeqOk, ConsOk, OrderCore, Contrast, StartOrdered, ReqSeq, CurSeq;
    Idle(s, Held(s));
    HeadHeld(s);
    if s.ordseq == {} {
      HeadIsFs(s);
      if s.queue[0].kind.Fs? && s.queue[0].barrier {
        Draining(s);
        StartMoves(s);
      }
    }
  }

  lemma Draining(s: State)
    requires OrderCore(s)
    ensures s.next != NONE
  {
  }

  lemma {:induction false} NextRequestMoves(s: State)
    requires SeqInv(s) && OrderInv(s) && Moving(s)
    ensures Moving(NextRequest(s).1)
    decreases |s.queue|
  {
    hide SeqInv, OrderCore, Contrast, DoOrdered, Moving;
    if s.queue != [] {
      CoreDone(s);
      OrigContrast(s);
      DoOrderedSeq(s);
      DoOrderedOrder(s);
      DoOrderedContrast(s);
      DoOrderedMoves(s);
      if DoOrdered(s).0.Again? {
        AgainShrinks(s);
        NextRequestMoves(DoOrdered(s).1);
      }
    }
  }

  lemma FetchMoves(s: State, start: bool)
    requires SeqInv(s) && OrderInv(s) && Moving(s)
    ensures Moving(Fetch(s, start))
  {
    hide SeqInv, OrderInv, NextRequest;
    NextRequestMoves(s);
    var (ok, s') := NextRequest(s);
    if ok && s'.queue != [] {
      var r := Fetch(s, start);
      forall i | 0 <= i < |r.queue| && r.queue[i].kind.Special? ensures r.queue[i].soft {
        assert r.queue[i].soft == s'.queue[if start then i + 1 else i].soft;
      }
    }
  }

  lemma BarErrorMoves(s: State, error: int)
    requires Moving(s)
    ensures Moving(BarError(s, error))
  {
  }

  lemma ApplyMoves(s: State, e: Event)
    requires SeqInv(s) && OrderInv(s) && Moving(s)
    ensures Moving(Apply(s, e))
  {
    hide SeqOk, ConsOk, OrderInv, Moving, AddFs, AddSpecial, Dispatch, Fetch, Complete, BarError, Requeue;
    match e
    case EAddFs(id, barrier, empty, back) => AddFsMoves(s, id, barrier, empty, back);
    case EAddSpecial(id, front, hard) => AddSpecialMoves(s, id, front, hard);
    case EDispatch(i, p) => DispatchMoves(s, i, p);
    case EFetch(start) => FetchMoves(s, start);
    case EComplete(i, error) => CompleteMoves(s, i, error);
    case EBarError(error) => BarErrorMoves(s, error);
    case ERequeue(i) => RequeueMoves(s, i);
  }

  lemma {:induction false} EveryRunMoves(mode: Mode, es: seq<Event>)
    requires DrainMode(mode) && Calm(mode, es)
    ensures Moving(Run(mode, es))
    decreases |es|
  {
    hide SeqInv, OrderInv, Apply, Harmless, Moving;
    if es == [] {
      InitMoves(mode);
    } else {
      EveryRunOrdered(mode, es[..|es|-1]);
      EveryRunMoves(mode, es[..|es|-1]);
      ApplyMoves(Run(mode, es[..|es|-1]), es[|es|-1]);
    }
  }

  lemma InitMoves(mode: Mode)
    ensures Moving(Init(mode))
  {
  }

  // ----- nothing stalls

  lemma {:induction false} TagsFind(q: seq<Rq>, tag: Tag) returns (i: nat)
    requires tag in Tags(q)
    ensures i < |q| && TagOf(q[i]) == tag
    decreases |q|
  {
    var n := |q| - 1;
    if TagOf(q[n]) == tag {
      return n;
    }
    i := TagsFind(q[..n], tag);
  }

  lemma {:induction false} OnlyFs(q: seq<Rq>, tag: Tag)
    requires (forall i :: 0 <= i < |q| ==> q[i].kind.Fs?) && !tag.0.Fs?
    ensures Tags(q)[tag] == 0
    decreases |q|
  {
    if q != [] {
      OnlyFs(q[..|q|-1], tag);
    }
  }

  /** The proxy of the current step, when the driver has nothing, is on the queue. */
  lemma CurrentQueued(s: State) returns (i: nat)
    requires SeqInv(s) && s.orig.Some? && SEQ_DRAIN in s.ordseq && s.driver == []
    ensures i < |s.queue| && IsProxy(s.queue[i].kind) && StepOf(s.queue[i].kind) == CurSeq(s.ordseq)
  {
    hide Tags, FirstError, EndedIds, ConsOk;
    var cur := CurSeq(s.ordseq);
    var k := if cur == SEQ_PREFLUSH then PreFlush else if cur == SEQ_BAR then Bar else PostFlush;
    var tag := (k, s.orig.value.id);
    assert Held(s)[tag] == Expected(s, k, s.orig.value.id);
    OnlyFs(s.sched, tag);
    TagsNone();
    i := TagsFind(s.queue, tag);
  }

  /** With nothing at the driver, what stands at the head of the queue while a sequence runs
      may be taken. */
  lemma RunningTakes(s: State)
    requires SeqInv(s) && OrderInv(s) && Moving(s) && s.orig.Some? && s.driver == []
    ensures s.queue != [] && DoOrdered(s) == (Take, s) && !(s.queue[0].kind.Fs? && s.queue[0].barrier)
  {
    hide SeqOk, ConsOk, OrderCore, Contrast, CurSeq;
    CoreDone(s);
    OrigContrast(s);
    Idle(s, Held(s));
    ByDrain(s);
    if SEQ_DRAIN !in s.ordseq {
      HeadEpoch(s);
      LowestDrain(s.ordseq);
    } else {
      var i := CurrentQueued(s);
      HeadOfStep(s, i);
    }
  }

  lemma ByDrain(s: State)
    requires OrderCore(s) && s.orig.Some?
    ensures !s.ordered.byTag
  {
  }

  lemma LowestDrain(b: set<nat>)
    ensures CurSeq(b) >= SEQ_DRAIN
  {
  }

  lemma HeadOfStep(s: State, i: nat)
    requires SeqInv(s) && OrderCore(s) && s.orig.Some? && SEQ_DRAIN in s.ordseq
    requires i < |s.queue| && IsProxy(s.queue[i].kind) && StepOf(s.queue[i].kind) == CurSeq(s.ordseq)
    ensures !s.queue[0].kind.Fs? && ReqSeq(s, s.queue[0]) <= CurSeq(s.ordseq)
  {
    hide SeqInv, Flight, OpenEpochs;
    QueueProxies(s);
    assert QueueOk(s, s.queue[0]);
    if i > 0 {
      assert Before(s.done, s.queue[0], s.queue[i]);
    }
  }

  /** Will every request on the queue end at once, without anything for the driver to do? */
  ghost predicate NothingToDo(s: State) {
    s.next == DRAIN && forall i :: 0 <= i < |s.queue| ==> s.queue[i].kind.Fs? && s.queue[i].barrier && s.queue[i].empty
  }

  /** A barrier at the head of an idle queue with nothing at the driver: its first proxy is
      taken, or it has none and ends at once. */
  lemma StartIdle(s: State)
    requires SeqInv(s) && OrderInv(s) && s.orig.None? && s.driver == [] && s.queue != []
    requires s.queue[0].kind.Fs? && s.queue[0].barrier
    ensures var (v, s') := DoOrdered(s);
            if s.next == DRAIN && s.queue[0].empty
            then v == Again && s'.queue == s.queue[1..] && s'.driver == [] && s'.orig.None? && s'.next == s.next
            else v == Take && s'.queue != [] && s'.driver == []
  {
    hide SeqOk, ConsOk, Sorted, OpenEpochs, Contrast;
    Idle(s, Held(s));
    assert QueueOk(s, s.queue[0]);
    var rq := s.queue[0];
    var s1 := Begin(s);
    assert s1.inFlight == 0;
    StartSkips(rq, s.next);
    assert s1.ordseq == {STARTED};
    if s.next == DRAIN && rq.empty {
      assert s1.queue == s.queue[1..];
    }
  }

  lemma StartSkips(rq: Rq, next: Mode)
    requires DrainMode(next)
    ensures var mode := SequenceMode(next, rq.empty); var b := {STARTED} + Skipped(mode, false);
            && SEQ_DRAIN in b
            && (next == DRAIN && rq.empty ==> CurSeq(b) == SEQ_DONE && Proxies(rq, mode) == [])
            && (!(next == DRAIN && rq.empty) ==> CurSeq(b) != SEQ_DONE && Proxies(rq, mode) != [])
  {
  }

  lemma IdleStep(s: State)
    requires SeqInv(s) && OrderInv(s) && s.orig.None? && s.queue != [] && !(s.queue[0].kind.Fs? && s.queue[0].barrier)
    ensures DoOrdered(s) == (Take, s)
  {
    hide SeqOk, ConsOk, OrderCore, Contrast;
    Idle(s, Held(s));
    HeadHeld(s);
    HeadIsFs(s);
  }

  /** A driver that has nothing and asks is given a request, unless there is none or every one
      is a barrier with nothing to do. */
  lemma {:induction false} FetchHandsOut(s: State)
    requires SeqInv(s) && OrderInv(s) && Moving(s) && s.driver == []
    ensures Fetch(s, true).driver == [] <==> NothingToDo(s) || s.queue == []
    decreases |s.queue|
  {
    hide SeqInv, OrderCore, Contrast, DoOrdered, Moving;
    if s.queue != [] {
      if s.orig.Some? {
        RunningTakes(s);
      } else if s.queue[0].kind.Fs? && s.queue[0].barrier {
        StartIdle(s);
        CoreDone(s);
        DoOrderedSeq(s);
        DoOrderedOrder(s);
        DoOrderedContrast(s);
        DoOrderedMoves(s);
        if s.next == DRAIN && s.queue[0].empty {
          var s' := DoOrdered(s).1;
          FetchHandsOut(s');
          assert Fetch(s, true) == Fetch(s', true);
          NothingAfter(s, s');
        }
      } else {
        IdleStep(s);
      }
    }
  }

  lemma NothingAfter(s: State, s': State)
    requires s.queue != [] && s'.queue == s.queue[1..] && s'.next == s.next == DRAIN
    requires s.queue[0].kind.Fs? && s.queue[0].barrier && s.queue[0].empty
    ensures NothingToDo(s) <==> NothingToDo(s')
    ensures s'.queue == [] ==> NothingToDo(s)
  {
    if NothingToDo(s') {
      forall i | 0 <= i < |s.queue| ensures s.queue[i].kind.Fs? && s.queue[i].barrier && s.queue[i].empty {
        assert i > 0 ==> s.queue[i] == s'.queue[i - 1];
      }
    }
    if NothingToDo(s) {
      forall i | 0 <= i < |s'.queue| ensures s'.queue[i].kind.Fs? && s'.queue[i].barrier && s'.queue[i].empty {
        assert s'.queue[i] == s.queue[i + 1];
      }
    }
  }

  /** The same over whole runs. */
  lemma NeverStalls(mode: Mode, es: seq<Event>)
    requires DrainMode(mode) && Calm(mode, es) && Run(mode, es).driver == []
    ensures var s := Run(mode, es);
            Run(mode, es + [EFetch(true)]).driver == [] <==> NothingToDo(s) || s.queue == []
  {
    hide Run, SeqInv, OrderInv, Moving, Fetch, NothingToDo, Calm;
    EveryRunOrdered(mode, es);
    EveryRunMoves(mode, es);
    FetchHandsOut(Run(mode, es));
    RunSteps(mode, es, EFetch(true));
  }

  lemma RunSteps(mode: Mode, es: seq<Event>, e: Event)
    ensures Run(mode, es + [e]) == Apply(Run(mode, es), e)
  {
    assert (es + [e])[..|es|] == es;
  }
}
