/** The requests that a barrier is carried out by: in every run of every mode, by the time it is
    ended the driver has completed a pre-flush, a write and a post-flush exactly if the mode asks
    for them and, but for the pre-flush, the barrier has data.
 */
module BarrierSteps {
  import opened Lists
  import opened Barrier
  import opened BarrierSequence
  import opened BarrierOrder
  import opened BarrierProgress
  import opened BarrierTags
  import opened BarrierStatus

  /** What carrying out barrier `b` takes in mode `m`. */
  function Needed(m: Mode, b: Rq): set<Kind> {
    (if m.doPre then {PreFlush} else {})
    + (if m.doBar && !b.empty then {Bar} else {})
    + (if m.doPost && !b.empty then {PostFlush} else {})
  }

  /** The modes by name: a write alone; with a flush before and after; with a flush before, the
      write itself forced to the medium.  Without data only the flush before is left. */
  lemma ModeSteps(b: Rq)
    ensures !b.empty ==> Needed(DRAIN, b) == Needed(TAG, b) == {Bar}
    ensures !b.empty ==> Needed(DRAIN_FLUSH, b) == Needed(TAG_FLUSH, b) == {PreFlush, Bar, PostFlush}
    ensures !b.empty ==> Needed(DRAIN_FUA, b) == Needed(TAG_FUA, b) == {PreFlush, Bar}
    ensures b.empty ==> Needed(DRAIN, b) == Needed(TAG, b) == {}
    ensures b.empty ==> Needed(DRAIN_FLUSH, b) == Needed(TAG_FLUSH, b) == Needed(DRAIN_FUA, b) == Needed(TAG_FUA, b) == {PreFlush}
    ensures DRAIN.byDrain && DRAIN_FLUSH.byDrain && DRAIN_FUA.byDrain && TAG.byTag && TAG_FLUSH.byTag && TAG_FUA.byTag
  {
  }

  /** The requests of the running sequence that the driver has completed. */
  function StepsDone(mode: Mode, es: seq<Event>): set<Kind>
    decreases |es|
  {
    if es == [] then {}
    else
      var past := es[..|es|-1];
      if Run(mode, past).orig.None? then {} else StepsDone(mode, past) + NewStep(Run(mode, past), es[|es|-1])
  }

  function NewStep(s: State, e: Event): set<Kind> {
    if e.EComplete? && e.index < |s.driver| && IsProxy(s.driver[e.index].kind) then {s.driver[e.index].kind} else {}
  }

  /** A barrier is ended when what it needs has been completed, and nothing else has been. */
  lemma SequenceSteps(mode: Mode, es: seq<Event>, e: Event)
    requires Run(mode, es).orig.Some? && Run(mode, es + [e]).orig != Run(mode, es).orig
    ensures StepsDone(mode, es + [e]) == Needed(mode, Run(mode, es).orig.value)
  {
    hide Run, Apply, SeqInv, StepsDone, Bits, NewStep;
    EveryRunSequenced(mode, es);
    EveryRunBits(mode, es);
    RunSteps(mode, es, e);
    StepsDoneOn(mode, es, e);
    var s := Run(mode, es);
    AllDone(s, e, StepsDone(mode, es));
  }

  /** A barrier that is ended as soon as it is looked at, on a queue with ordering, needs nothing. */
  lemma EndedAtOnce(mode: Mode, es: seq<Event>, start: bool)
    requires mode != NONE && Run(mode, es).orig.None?
    ensures var s, s' := Run(mode, es), Run(mode, es + [EFetch(start)]);
            && |s.ended| <= |s'.ended|
            && forall i :: |s.ended| <= i < |s'.ended| ==> WaitsNeedless(s.queue, mode, s'.ended[i].0)
  {
    hide Run, SeqInv, NextRequest, Bits;
    EveryRunSequenced(mode, es);
    EveryRunBits(mode, es);
    RunSteps(mode, es, EFetch(start));
    var s := Run(mode, es);
    NextNeedless(s);
  }

  /** A barrier of the queue with this id needs nothing. */
  ghost predicate WaitsNeedless(q: seq<Rq>, m: Mode, id: nat) {
    exists j :: 0 <= j < |q| && Raw(q[j]) && q[j].id == id && (m == NONE || Needed(m, q[j]) == {})
  }

  /** A step's bit is set exactly if it is done or not needed. */
  ghost predicate Bits(s: State, done: set<Kind>) {
    && done <= {PreFlush, Bar, PostFlush}
    && (s.orig.Some? ==>
          && done <= Needed(s.next, s.orig.value)
          && (forall k :: IsProxy(k) ==> (StepOf(k) in s.ordseq <==> k in done || k !in Needed(s.next, s.orig.value))))
  }

  lemma StepsDoneOn(mode: Mode, es: seq<Event>, e: Event)
    ensures StepsDone(mode, es + [e]) ==
            if Run(mode, es).orig.None? then {} else StepsDone(mode, es) + NewStep(Run(mode, es), e)
  {
    hide Run;
    assert (es + [e])[..|es|] == es;
  }

  lemma {:induction false} EveryRunBits(mode: Mode, es: seq<Event>)
    ensures Run(mode, es).next == mode && Bits(Run(mode, es), if Run(mode, es).orig.Some? then StepsDone(mode, es) else {})
    decreases |es|
  {
    hide SeqInv, Apply, Bits, StepsDone, NewStep;
    if es == [] {
      NoBits(Run(mode, es));
    } else {
      var past, e := es[..|es|-1], es[|es|-1];
      assert past + [e] == es;
      EveryRunBits(mode, past);
      EveryRunSequenced(mode, past);
      StepsDoneOn(mode, past, e);
      var s := Run(mode, past);
      ApplyBits(s, e, if s.orig.Some? then StepsDone(mode, past) else {});
      NoBits(Apply(s, e));
    }
  }

  lemma NoBits(s: State)
    ensures s.orig.None? ==> Bits(s, {})
  {
  }

  lemma ApplyBits(s: State, e: Event, done: set<Kind>)
    requires SeqInv(s) && Bits(s, done)
    ensures var s' := Apply(s, e);
            && s'.next == s.next
            && (s'.orig.Some? ==> Bits(s', if s.orig.None? then {} else done + NewStep(s, e)))
  {
    hide SeqInv, Bits, Fetch, Complete, AddFs, AddSpecial, Dispatch, Requeue, NewStep;
    IdleIff(s);
    NewStepIs(s, e);
    match e
    case EAddFs(id, barrier, empty, back) =>
      AddKeepsError(s, id, barrier, empty, back);
      AddKeepsBits(s, id, barrier, empty, back);
      SameBits(s, Apply(s, e), done);
    case EAddSpecial(id, front, hard) =>
      SpecialKeepsError(s, id, front, hard);
      SpecialKeepsBits(s, id, front, hard);
      SameBits(s, Apply(s, e), done);
    case EDispatch(i, p) =>
      MoveKeepsBits(s, i, p);
      SameBits(s, Apply(s, e), done);
    case EFetch(start) => FetchBits(s, start, done);
    case EComplete(i, error) => CompleteBits(s, i, error, done);
    case EBarError(error) => SameBits(s, Apply(s, e), done);
    case ERequeue(i) =>
      MoveKeepsBits(s, i, 0);
      SameBits(s, Apply(s, e), done);
  }

  lemma NewStepIs(s: State, e: Event)
    ensures !e.EComplete? ==> NewStep(s, e) == {}
  {
  }

  lemma SameBits(s: State, s': State, done: set<Kind>)
    requires Bits(s, done) && s'.orig == s.orig && s'.ordseq == s.ordseq && s'.next == s.next
    ensures s'.orig.Some? ==> Bits(s', if s.orig.None? then {} else done + {})
  {
    assert done + {} == done;
  }

  lemma AddKeepsBits(s: State, id: nat, barrier: bool, empty: bool, back: bool)
    ensures var s' := AddFs(s, id, barrier, empty, back); s'.ordseq == s.ordseq && s'.next == s.next
  {
  }

  lemma SpecialKeepsBits(s: State, id: nat, front: bool, hard: bool)
    ensures var s' := AddSpecial(s, id, front, hard); s'.ordseq == s.ordseq && s'.next == s.next
  {
  }

  lemma MoveKeepsBits(s: State, i: nat, p: nat)
    ensures var s' := Dispatch(s, i, p); s'.ordseq == s.ordseq && s'.next == s.next && s'.orig == s.orig
    ensures var s' := Requeue(s, i); s'.ordseq == s.ordseq && s'.next == s.next && s'.orig == s.orig
  {
    hide RequeuePoint;
  }

  // ----- completions

  lemma SeqStepBits(s: State, steps: set<nat>, error: int)
    ensures var s' := CompleteSeq(s, steps, error);
            && s'.next == s.next
            && (s'.orig.Some? ==> s'.orig == s.orig && s'.ordseq == s.ordseq + steps)
            && (s.orig.Some? && s'.orig.None? ==> CurSeq(s.ordseq + steps) == SEQ_DONE)
  {
    hide CurSeq;
  }

  lemma CompletedBits(s: State, rq: Rq)
    ensures var s' := Completed(s, rq);
            && s'.next == s.next
            && (s'.orig.Some? ==> s'.orig == s.orig && (s'.ordseq == s.ordseq || s'.ordseq == s.ordseq + {SEQ_DRAIN}))
            && (s.orig.Some? && s'.orig.None? ==> CurSeq(s.ordseq + {SEQ_DRAIN}) == SEQ_DONE)
  {
    hide CurSeq, ReqSeq, CompleteSeq;
    SeqStepBits(s.(inFlight := if rq.Accounted() then s.inFlight - 1 else s.inFlight), {SEQ_DRAIN}, 0);
  }

  /** What a completion does to the bits, and when it ends the sequence. */
  lemma CompleteAll(s: State, i: nat, error: int)
    requires SeqInv(s)
    ensures var s' := Complete(s, i, error); var e := EComplete(i, error);
            var bits := s.ordseq + (if NewStep(s, e) == {} then {} else {StepOf(s.driver[i].kind)});
            && s'.next == s.next
            && (s'.orig.Some? ==> s'.orig == s.orig && (s'.ordseq == bits || s'.ordseq == bits + {SEQ_DRAIN}))
            && (s.orig.Some? && s'.orig.None? ==> CurSeq(bits + {SEQ_DRAIN}) == SEQ_DONE)
            && (NewStep(s, e) != {} ==> s.orig.Some? && StepOf(s.driver[i].kind) !in s.ordseq)
  {
    hide SeqInv, Completed, CompleteSeq, CurSeq;
    if i < |s.driver| {
      var rq := s.driver[i];
      var s0 := s.(driver := s.driver[..i] + s.driver[i+1..],
                   ended := if rq.kind.Fs? then s.ended + [(rq.id, error)] else s.ended);
      CompletedBits(s0, rq);
      if IsProxy(rq.kind) {
        DriverProxies(s);
        StillRuns(s, i, error);
        SeqStepBits(Completed(s0, rq), {StepOf(rq.kind)}, error);
      }
      DrainToo(s.ordseq, StepOf(rq.kind));
    } else {
      DrainToo(s.ordseq, 0);
    }
  }

  lemma DrainToo(bits: set<nat>, step: nat)
    ensures CurSeq(bits + {step}) == SEQ_DONE ==> CurSeq(bits + {step} + {SEQ_DRAIN}) == SEQ_DONE
    ensures bits + {SEQ_DRAIN} + {step} == bits + {step} + {SEQ_DRAIN}
    ensures bits + {} == bits
  {
  }

  lemma CompleteBits(s: State, i: nat, error: int, done: set<Kind>)
    requires SeqInv(s) && Bits(s, done)
    ensures var s' := Complete(s, i, error); var e := EComplete(i, error);
            && s'.next == s.next
            && (s'.orig.Some? ==> Bits(s', if s.orig.None? then {} else done + NewStep(s, e)))
  {
    hide SeqInv, Complete, CurSeq, Needed;
    CompleteAll(s, i, error);
  }

  /** When the last step completes, all that is needed is done. */
  lemma AllDone(s: State, e: Event, done: set<Kind>)
    requires SeqInv(s) && s.orig.Some? && Bits(s, done) && Apply(s, e).orig != s.orig
    ensures done + NewStep(s, e) == Needed(s.next, s.orig.value)
  {
    hide SeqInv, Complete, Fetch, AddFs, AddSpecial, Dispatch, Requeue;
    IdleIff(s);
    match e
    case EAddFs(id, barrier, empty, back) => AddKeepsError(s, id, barrier, empty, back);
    case EAddSpecial(id, front, hard) => SpecialKeepsError(s, id, front, hard);
    case EDispatch(i, p) => MoveKeepsBits(s, i, p);
    case EFetch(start) => RunningFetch(s, start);
    case EComplete(i, error) =>
      CompleteAll(s, i, error);
      StaysOrig(s, e);
      LastBits(s, i, error, done);
    case EBarError(error) =>
    case ERequeue(i) => MoveKeepsBits(s, i, 0);
  }

  lemma LastBits(s: State, i: nat, error: int, done: set<Kind>)
    requires s.orig.Some? && Bits(s, done)
    requires var e := EComplete(i, error);
             var bits := s.ordseq + (if NewStep(s, e) == {} then {} else {StepOf(s.driver[i].kind)});
             && CurSeq(bits + {SEQ_DRAIN}) == SEQ_DONE
             && (NewStep(s, e) != {} ==> StepOf(s.driver[i].kind) !in s.ordseq)
    ensures done + NewStep(s, EComplete(i, error)) == Needed(s.next, s.orig.value)
  {
    hide Needed;
    var new' := NewStep(s, EComplete(i, error));
    forall k | IsProxy(k) ensures k in done + new' <==> k in Needed(s.next, s.orig.value) {
      assert StepOf(k) in {SEQ_PREFLUSH, SEQ_BAR, SEQ_POSTFLUSH};
    }
    NeededKinds(s.next, s.orig.value);
  }

  lemma NeededKinds(m: Mode, b: Rq)
    ensures forall k :: k in Needed(m, b) ==> IsProxy(k)
  {
  }

  // ----- starting

  lemma StartBits(s: State)
    requires s.queue != [] && s.ordseq == {} && s.orig.None?
    ensures var s' := StartOrdered(s);
            && s'.next == s.next
            && (s'.orig.Some? ==> s'.orig == Some(s.queue[0]) && Bits(s', {}))
            && (s'.orig.None? ==> Needed(s.next, s.queue[0]) == {})
  {
    hide Proxies, CurSeq;
    var s1 := Begin(s);
    var skip := Skipped(s1.ordered, s1.inFlight != 0);
    SeqStepBits(s1, skip, 0);
    assert s1.ordseq + skip == {STARTED} + skip;
    SkippedNeeded(s.next, s.queue[0], s1.inFlight != 0);
    if StartOrdered(s).orig.None? {
      AllSkippedNeeds(s.next, s.queue[0], s1.inFlight != 0);
    }
  }

  /** The steps skipped at the start are those that are not needed. */
  lemma SkippedNeeded(m: Mode, b: Rq, busy: bool)
    ensures var skip := Skipped(SequenceMode(m, b.empty), busy);
            forall k :: IsProxy(k) ==> (StepOf(k) in {STARTED} + skip <==> k !in Needed(m, b))
  {
  }

  lemma AllSkippedNeeds(m: Mode, b: Rq, busy: bool)
    requires CurSeq({STARTED} + Skipped(SequenceMode(m, b.empty), busy)) == SEQ_DONE
    ensures Needed(m, b) == {}
  {
    SkippedNeeded(m, b, busy);
    NeededKinds(m, b);
    assert forall k :: IsProxy(k) ==> k !in Needed(m, b) by {
      assert IsProxy(PreFlush) && IsProxy(Bar) && IsProxy(PostFlush);
    }
  }

  /** What looking at the head does: the sequence that runs has its bits, and one that is over
      needed nothing. */
  lemma HeadBits(s: State)
    requires SeqInv(s) && s.queue != [] && s.orig.None?
    ensures var (v, s') := DoOrdered(s);
            && s'.next == s.next
            && (s'.orig.Some? ==> !v.Again? && Bits(s', {}))
            && (s'.ended == s.ended ||
                (Raw(s.queue[0]) && |s'.ended| == |s.ended| + 1 && s'.ended[..|s.ended|] == s.ended
                 && s'.ended[|s.ended|].0 == s.queue[0].id && (s.next == NONE || Needed(s.next, s.queue[0]) == {})))
  {
    hide SeqInv, StartOrdered, Bits, Needed;
    IdleIff(s);
    HeadKind(s);
    if Raw(s.queue[0]) && s.next != NONE {
      StartBits(s);
      DoOrderedSeq(s);
      IdleIff(DoOrdered(s).1);
      StartEnds(s);
    }
  }

  lemma StartEnds(s: State)
    requires s.queue != [] && s.ordseq == {} && s.orig.None?
    ensures var s' := StartOrdered(s);
            s'.ended == s.ended || (s'.orig.None? && s'.ended == s.ended + [(s.queue[0].id, s'.orderr)])
  {
    hide CurSeq, Skipped, Proxies, SequenceMode;
  }

  ghost predicate Needless(s: State, after: seq<(nat, int)>) {
    && |s.ended| <= |after| && after[..|s.ended|] == s.ended
    && forall i :: |s.ended| <= i < |after| ==> WaitsNeedless(s.queue, s.next, after[i].0)
  }

  lemma {:induction false} NextNeedless(s: State)
    requires SeqInv(s) && s.orig.None?
    ensures var s' := NextRequest(s).1;
            s'.next == s.next && Needless(s, s'.ended) && (s'.orig.Some? ==> Bits(s', {}))
    decreases |s.queue|
  {
    hide SeqInv, DoOrdered, Bits, Needed, Needless;
    if s.queue == [] {
      NeedlessSame(s, s.ended);
    } else {
      var (v, s1) := DoOrdered(s);
      DoOrderedSeq(s);
      HeadBits(s);
      NeedlessHead(s, s1.ended);
      if v.Again? {
        AgainShrinks(s);
        NextNeedless(s1);
        NeedlessOn(s, s1, NextRequest(s1).1.ended);
      }
    }
  }

  lemma NeedlessSame(s: State, after: seq<(nat, int)>)
    requires after == s.ended
    ensures Needless(s, after)
  {
  }

  lemma NeedlessHead(s: State, after: seq<(nat, int)>)
    requires s.queue != []
    requires after == s.ended ||
             (Raw(s.queue[0]) && |after| == |s.ended| + 1 && after[..|s.ended|] == s.ended
              && after[|s.ended|].0 == s.queue[0].id && (s.next == NONE || Needed(s.next, s.queue[0]) == {}))
    ensures Needless(s, after)
  {
    hide Needed;
    assert s.ended[..|s.ended|] == s.ended;
    if after != s.ended {
      assert WaitsNeedless(s.queue, s.next, s.queue[0].id);
    }
  }

  lemma NeedlessOn(s: State, s1: State, after: seq<(nat, int)>)
    requires s.queue != [] && s1.queue == s.queue[1..] && s1.next == s.next
    requires Needless(s, s1.ended) && Needless(s1, after)
    ensures Needless(s, after)
  {
    hide Needed;
    assert after[..|s.ended|] == after[..|s1.ended|][..|s.ended|];
    forall i | |s.ended| <= i < |after| ensures WaitsNeedless(s.queue, s.next, after[i].0) {
      if i < |s1.ended| {
        assert after[i] == s1.ended[i];
      } else {
        var id := after[i].0;
        assert WaitsNeedless(s1.queue, s1.next, id);
        var j :| 0 <= j < |s1.queue| && Raw(s1.queue[j]) && s1.queue[j].id == id
                 && (s1.next == NONE || Needed(s1.next, s1.queue[j]) == {});
        assert s.queue[j+1] == s1.queue[j];
      }
    }
  }

  lemma FetchBits(s: State, start: bool, done: set<Kind>)
    requires SeqInv(s) && Bits(s, done)
    ensures var s' := Fetch(s, start);
            s'.next == s.next && (s'.orig.Some? ==> Bits(s', if s.orig.None? then {} else done + {}))
  {
    hide SeqInv, NextRequest, Needed;
    IdleIff(s);
    if s.orig.None? {
      NextNeedless(s);
    } else {
      RunningNext(s);
      assert done + {} == done;
    }
  }

  lemma RunningNext(s: State)
    requires s.orig.Some? && s.ordseq != {}
    ensures NextRequest(s).1 == s
  {
    hide CurSeq, ReqSeq;
  }
}
