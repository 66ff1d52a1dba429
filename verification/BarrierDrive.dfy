/** Driving a queue: from any state of a calm run the driver can go on, fetching while it is
    given something and completing when it is not, until the queue is empty.  Nothing on the
    way depends on the colour new requests will get.
 */
module BarrierDrive {
  import opened Lists
  import opened Barrier
  import opened BarrierSequence
  import opened BarrierOrder
  import opened BarrierProgress
  import opened BarrierSafety

  // ----- going on from a state

  function Play(s: State, es: seq<Event>): State {
    if es == [] then s else Apply(Play(s, es[..|es|-1]), es[|es|-1])
  }

  lemma {:induction false} RunPlay(mode: Mode, a: seq<Event>, b: seq<Event>)
    ensures Run(mode, a + b) == Play(Run(mode, a), b)
    decreases |b|
  {
    hide Apply;
    if b == [] {
      assert a + b == a;
    } else {
      assert (a + b)[..|a + b|-1] == a + b[..|b|-1];
      RunPlay(mode, a, b[..|b|-1]);
    }
  }

  lemma {:induction false} PlayConcat(s: State, a: seq<Event>, b: seq<Event>)
    ensures Play(s, a + b) == Play(Play(s, a), b)
    decreases |b|
  {
    hide Apply;
    if b == [] {
      assert a + b == a;
    } else {
      assert (a + b)[..|a + b|-1] == a + b[..|b|-1];
      PlayConcat(s, a, b[..|b|-1]);
    }
  }

  lemma PlayOne(s: State, e: Event)
    ensures Play(s, [e]) == Apply(s, e)
  {
    assert [e][..0] == [];
  }

  lemma PlayFirst(s: State, e: Event, es: seq<Event>)
    ensures Play(s, [e] + es) == Play(Apply(s, e), es)
  {
    hide Play, Apply;
    PlayConcat(s, [e], es);
    PlayOne(s, e);
  }

  // ----- colour blindness

  /** An event that adds no request. */
  predicate Move(e: Event) { !e.EAddFs? && !e.EAddSpecial? }

  ghost predicate Moves(es: seq<Event>) {
    forall i :: 0 <= i < |es| ==> Move(es[i])
  }

  lemma BlindStep(s: State, steps: set<nat>, error: int, o: bool, c: seq<bool>)
    ensures CompleteSeq(Dyed(s, o, c), steps, error) == Dyed(CompleteSeq(s, steps, error), o, c)
  {
    hide CurSeq;
  }

  lemma BlindDoOrdered(s: State, o: bool, c: seq<bool>)
    requires s.queue != []
    ensures DoOrdered(Dyed(s, o, c)).0 == DoOrdered(s).0
    ensures DoOrdered(Dyed(s, o, c)).1 == Dyed(DoOrdered(s).1, o, c)
  {
    hide CompleteSeq, Skipped, SequenceMode, Proxies, CurSeq;
    var s1 := Begin(s);
    assert Begin(Dyed(s, o, c)) == Dyed(s1, o, c);
    BlindStep(s1, Skipped(s1.ordered, s1.inFlight != 0), 0, o, c);
  }

  lemma {:induction false} BlindNext(s: State, o: bool, c: seq<bool>)
    ensures NextRequest(Dyed(s, o, c)).0 == NextRequest(s).0
    ensures NextRequest(Dyed(s, o, c)).1 == Dyed(NextRequest(s).1, o, c)
    decreases |s.queue|
  {
    hide DoOrdered;
    if s.queue != [] {
      BlindDoOrdered(s, o, c);
      if DoOrdered(s).0.Again? {
        AgainShrinks(s);
        BlindNext(DoOrdered(s).1, o, c);
      }
    }
  }

  lemma BlindCompleted(s: State, rq: Rq, o: bool, c: seq<bool>)
    ensures Completed(Dyed(s, o, c), rq) == Dyed(Completed(s, rq), o, c)
  {
    hide CompleteSeq, CurSeq;
    BlindStep(s.(inFlight := if rq.Accounted() then s.inFlight - 1 else s.inFlight), {SEQ_DRAIN}, 0, o, c);
  }

  lemma BlindComplete(s: State, i: nat, error: int, o: bool, c: seq<bool>)
    ensures Complete(Dyed(s, o, c), i, error) == Dyed(Complete(s, i, error), o, c)
  {
    hide Completed, CompleteSeq;
    if i < |s.driver| {
      var rq := s.driver[i];
      var s0 := s.(driver := s.driver[..i] + s.driver[i+1..],
                   ended := if rq.kind.Fs? then s.ended + [(rq.id, error)] else s.ended);
      BlindCompleted(s0, rq, o, c);
      var s1 := Completed(s0, rq);
      BlindStep(s1, {SEQ_PREFLUSH}, error, o, c);
      BlindStep(s1, {SEQ_BAR}, error, o, c);
      BlindStep(s1, {SEQ_POSTFLUSH}, error, o, c);
    }
  }

  lemma {:induction false} BlindPoint(s: State, q: seq<Rq>, rq: Rq, o: bool, c: seq<bool>)
    requires s.orig.Some?
    ensures RequeuePoint(Dyed(s, o, c), q, rq) == RequeuePoint(s, q, rq)
    decreases |q|
  {
    if q != [] {
      BlindPoint(s, q[1..], rq, o, c);
    }
  }

  /** No event but an addition looks at the colours to give. */
  lemma Blind(s: State, e: Event, o: bool, c: seq<bool>)
    requires Move(e)
    ensures Apply(Dyed(s, o, c), e) == Dyed(Apply(s, e), o, c)
  {
    hide NextRequest, Requeue, Complete;
    match e
    case EDispatch(i, p) =>
    case EFetch(start) => BlindNext(s, o, c);
    case EComplete(i, error) => BlindComplete(s, i, error, o, c);
    case EBarError(error) =>
    case ERequeue(i) => BlindRequeue(s, i, o, c);
  }

  lemma BlindRequeue(s: State, i: nat, o: bool, c: seq<bool>)
    ensures Requeue(Dyed(s, o, c), i) == Dyed(Requeue(s, i), o, c)
  {
    hide RequeuePoint;
    if i < |s.driver| && s.orig.Some? {
      BlindPoint(s, s.queue, s.driver[i].(started := false, soft := true), o, c);
    }
  }

  lemma {:induction false} BlindPlay(s: State, es: seq<Event>, o: bool, c: seq<bool>)
    requires Moves(es)
    ensures Play(Dyed(s, o, c), es) == Dyed(Play(s, es), o, c)
    decreases |es|
  {
    hide Apply, Dyed;
    if es != [] {
      BlindPlay(s, es[..|es|-1], o, c);
      Blind(Play(s, es[..|es|-1]), es[|es|-1], o, c);
    }
  }

  // ----- what stays

  ghost predicate Good(s: State) {
    SeqInv(s) && OrderInv(s) && Known(s) && Moving(s)
  }

  lemma GoodStep(s: State, e: Event)
    requires Good(s) && Move(e)
    ensures Good(Apply(s, e))
  {
    hide SeqInv, OrderInv, Known, Moving, Apply;
    ApplySeq(s, e);
    ApplyOrder(s, e);
    ApplyKnown(s, e);
    ApplyMoves(s, e);
  }

  /** The parts of the state that only additions change. */
  predicate SameLot(s: State, s': State) {
    && s'.next == s.next && s'.added == s.added && s'.accepted == s.accepted && s'.epochOf == s.epochOf
    && s'.ordcolor == s.ordcolor && s'.colors == s.colors
  }

  lemma StepLot(s: State, steps: set<nat>, error: int)
    ensures var s' := CompleteSeq(s, steps, error);
            SameLot(s, s') && s'.sched == s.sched && s'.queue == s.queue && s'.driver == s.driver
  {
    hide CurSeq;
  }

  lemma DoOrderedLot(s: State)
    requires s.queue != []
    ensures SameLot(s, DoOrdered(s).1) && DoOrdered(s).1.driver == s.driver && DoOrdered(s).1.sched == s.sched
  {
    hide CurSeq, ReqSeq, Skipped, Proxies, SequenceMode, CompleteSeq;
    var s1 := Begin(s);
    StepLot(s1, Skipped(s1.ordered, s1.inFlight != 0), 0);
  }

  lemma {:induction false} NextLot(s: State)
    ensures SameLot(s, NextRequest(s).1) && NextRequest(s).1.driver == s.driver && NextRequest(s).1.sched == s.sched
    decreases |s.queue|
  {
    hide DoOrdered;
    if s.queue != [] {
      DoOrderedLot(s);
      if DoOrdered(s).0.Again? {
        AgainShrinks(s);
        NextLot(DoOrdered(s).1);
      }
    }
  }

  lemma FetchLot(s: State)
    ensures SameLot(s, Fetch(s, true)) && Fetch(s, true).sched == s.sched
  {
    hide NextRequest;
    NextLot(s);
  }

  lemma CompletedLot(s: State, rq: Rq)
    ensures var s' := Completed(s, rq);
            SameLot(s, s') && s'.sched == s.sched && s'.queue == s.queue && s'.driver == s.driver
  {
    hide CurSeq, ReqSeq, CompleteSeq;
    StepLot(s.(inFlight := if rq.Accounted() then s.inFlight - 1 else s.inFlight), {SEQ_DRAIN}, 0);
  }

  lemma CompleteLot(s: State, i: nat)
    ensures var s' := Complete(s, i, 0);
            && SameLot(s, s') && s'.sched == s.sched && s'.queue == s.queue
            && s'.driver == if i < |s.driver| then s.driver[..i] + s.driver[i+1..] else s.driver
  {
    hide Completed, CompleteSeq;
    if i < |s.driver| {
      var rq := s.driver[i];
      var s0 := s.(driver := s.driver[..i] + s.driver[i+1..],
                   ended := if rq.kind.Fs? then s.ended + [(rq.id, 0)] else s.ended);
      CompletedLot(s0, rq);
      if IsProxy(rq.kind) {
        StepLot(Completed(s0, rq), {StepOf(rq.kind)}, 0);
      }
    }
  }

  // ----- how much there is to do

  /** A barrier may yet put three proxies on the queue. */
  function Weight(r: Rq): nat { if r.kind.Fs? && r.barrier then 10 else 2 }

  function Weights(q: seq<Rq>): nat { if q == [] then 0 else Weight(q[0]) + Weights(q[1..]) }

  function Load(s: State): nat { 3 * |s.sched| + Weights(s.queue) + |s.driver| }

  lemma {:induction false} WeightsConcat(a: seq<Rq>, b: seq<Rq>)
    ensures Weights(a + b) == Weights(a) + Weights(b)
  {
    if a == [] {
      assert a + b == b;
    } else {
      assert (a + b)[1..] == a[1..] + b;
      WeightsConcat(a[1..], b);
    }
  }

  lemma ProxyWeights(rq: Rq, mode: Mode)
    ensures Weights(Proxies(rq, mode)) <= 6
  {
    var ps := Proxies(rq, mode);
    assert |ps| <= 3 && forall i :: 0 <= i < |ps| ==> !ps[i].kind.Fs?;
    LightWeights(ps);
  }

  lemma {:induction false} LightWeights(q: seq<Rq>)
    requires forall i :: 0 <= i < |q| ==> !q[i].kind.Fs?
    ensures Weights(q) == 2 * |q|
  {
    if q != [] { LightWeights(q[1..]); }
  }

  /** Looking at the head takes weight off the queue, or leaves everything as it is. */
  lemma DoOrderedWeighs(s: State)
    requires SeqInv(s) && OrderInv(s) && s.queue != []
    ensures DoOrdered(s).1 == s || Weights(DoOrdered(s).1.queue) < Weights(s.queue)
    ensures s.orig.None? && s.queue[0].kind.Fs? && s.queue[0].barrier ==>
              Weights(DoOrdered(s).1.queue) < Weights(s.queue)
    ensures !(s.orig.None? && s.queue[0].kind.Fs? && s.queue[0].barrier) ==> DoOrdered(s).1 == s && !DoOrdered(s).0.Again?
  {
    hide SeqOk, ConsOk, OrderCore, Contrast, CurSeq, ReqSeq, Skipped, Proxies, SequenceMode;
    Idle(s, Held(s));
    HeadHeld(s);
    Draining(s);
    if s.ordseq == {} {
      HeadIsFs(s);
      var rq := s.queue[0];
      var ps := Proxies(rq, SequenceMode(s.next, rq.empty));
      ProxyWeights(rq, SequenceMode(s.next, rq.empty));
      WeightsConcat(ps, s.queue[1..]);
    }
  }

  lemma {:induction false} NextWeighs(s: State)
    requires SeqInv(s) && OrderInv(s)
    ensures var (ok, s') := NextRequest(s);
            && Weights(s'.queue) <= Weights(s.queue)
            && (!ok && s.orig.None? && s.queue != [] ==> Weights(s'.queue) < Weights(s.queue))
    decreases |s.queue|
  {
    hide SeqInv, OrderCore, Contrast, DoOrdered, Weights;
    if s.queue != [] {
      CoreDone(s);
      OrigContrast(s);
      DoOrderedSeq(s);
      DoOrderedOrder(s);
      DoOrderedContrast(s);
      DoOrderedWeighs(s);
      if s.orig.None? && !(s.queue[0].kind.Fs? && s.queue[0].barrier) {
        IdleStep(s);
      }
      if DoOrdered(s).0.Again? {
        AgainShrinks(s);
        NextWeighs(DoOrdered(s).1);
      }
    }
  }

  lemma FetchWeighs(s: State)
    requires SeqInv(s) && OrderInv(s) && (NextRequest(s).0 || (s.orig.None? && s.queue != []))
    ensures Load(Fetch(s, true)) < Load(s)
  {
    hide SeqInv, OrderInv, NextRequest, MayTake;
    NextWeighs(s);
    NextLot(s);
    NextRequestOrder(s);
  }

  /** Is the head of the queue not to be taken yet? */
  predicate Held0(s: State) { s.queue == [] || DoOrdered(s).0.Blocked? }

  /** What a driver that wants to go on does next: it asks for a request, or, when a running
      sequence holds back, completes one it has. */
  function Choice(s: State): Event {
    if s.orig.Some? && Held0(s) then EComplete(0, 0) else EFetch(true)
  }

  /** It gets on. */
  lemma ChoiceMoves(s: State)
    requires Good(s) && (s.queue != [] || s.orig.Some?)
    ensures var s' := Apply(s, Choice(s)); Good(s') && SameLot(s, s') && s'.sched == s.sched && Load(s') < Load(s)
    ensures Choice(s).EComplete? ==> s.driver != []
  {
    hide SeqInv, OrderCore, Contrast, Known, Moving, DoOrdered, Complete, Fetch;
    GoodStep(s, Choice(s));
    FetchLot(s);
    CompleteLot(s, 0);
    if s.orig.Some? {
      if s.driver == [] {
        RunningTakes(s);
      }
      if !Held0(s) {
        DoOrderedWeighs(s);
        assert NextRequest(s).0;
        FetchWeighs(s);
      }
    } else {
      FetchWeighs(s);
    }
  }
}
