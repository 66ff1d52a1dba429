/** The status with which each request of a barrier queue is ended: an ordinary one with what
    the driver reported for it, a barrier with the first error reported in its sequence, and a
    barrier on a queue without ordering with -EOPNOTSUPP.
 */
module BarrierStatus {
  import opened Lists
  import opened Barrier
  import opened BarrierSequence
  import opened BarrierOrder
  import opened BarrierProgress
  import opened BarrierTags

  /** The errors the driver has reported for the sequence that runs, in order: for each of its
      requests as it completes, and for parts of the barrier before that. */
  function Reported(mode: Mode, es: seq<Event>): seq<int>
    decreases |es|
  {
    if es == [] then []
    else
      var past := es[..|es|-1];
      if Run(mode, past).orig.None? then [] else Reported(mode, past) + NewReport(Run(mode, past), es[|es|-1])
  }

  function NewReport(s: State, e: Event): seq<int> {
    match e
    case EComplete(i, error) => if i < |s.driver| && IsProxy(s.driver[i].kind) then [error] else []
    case EBarError(error) => [error]
    case _ => []
  }

  /** How an entry of `ended` comes about in one step. */
  ghost predicate Explained(s: State, e: Event, barrierStatus: int, x: (nat, int)) {
    || (e.EComplete? && e.index < |s.driver| && s.driver[e.index].kind.Fs? && x == (s.driver[e.index].id, e.error))
    || (e.EComplete? && s.orig.Some? && x == (s.orig.value.id, barrierStatus))
    || (e.EFetch? && x.1 == (if s.next == NONE then -EOPNOTSUPP else 0) && WaitsIn(s.queue, x.0))
  }

  ghost predicate WaitsIn(q: seq<Rq>, id: nat) {
    exists i :: 0 <= i < |q| && Raw(q[i]) && q[i].id == id
  }

  /** `ended` grows by explained entries only. */
  ghost predicate Grows(s: State, e: Event, barrierStatus: int, before: seq<(nat, int)>, after: seq<(nat, int)>) {
    && |before| <= |after| && after[..|before|] == before
    && forall i :: |before| <= i < |after| ==> Explained(s, e, barrierStatus, after[i])
  }

  /** Every request ended, in any run of any mode, has the status it should have: a request
      other than a barrier the error its driver completed it with; a barrier whose sequence ran
      the first error reported in it; a barrier that had nothing to run success; and any
      barrier on a queue without ordering -EOPNOTSUPP. */
  lemma EndedStatus(mode: Mode, es: seq<Event>, e: Event)
    ensures var s, s' := Run(mode, es), Run(mode, es + [e]);
            Grows(s, e, FirstError(Reported(mode, es + [e])), s.ended, s'.ended)
  {
    hide Run, SeqInv, Apply, Grows, FirstError, Reported;
    EveryRunSequenced(mode, es);
    RunSteps(mode, es, e);
    ReportedSteps(mode, es, e);
    ErrorReported(mode, es);
    var s := Run(mode, es);
    StepGrows(s, e);
    if s.orig.Some? {
      ReportedError(Reported(mode, es), s, e);
    } else {
      GrowsIdle(s, e, Apply(s, e).orderr, FirstError(Reported(mode, es + [e])), s.ended, Apply(s, e).ended);
    }
  }

  lemma ReportedSteps(mode: Mode, es: seq<Event>, e: Event)
    ensures Reported(mode, es + [e]) ==
            if Run(mode, es).orig.None? then [] else Reported(mode, es) + NewReport(Run(mode, es), e)
  {
    hide Run;
    assert (es + [e])[..|es|] == es;
  }

  lemma GrowsIdle(s: State, e: Event, x: int, y: int, before: seq<(nat, int)>, after: seq<(nat, int)>)
    requires s.orig.None? && Grows(s, e, x, before, after)
    ensures Grows(s, e, y, before, after)
  {
    hide WaitsIn;
    forall i | |before| <= i < |after| ensures Explained(s, e, y, after[i]) {
      assert Explained(s, e, x, after[i]);
    }
  }

  /** While a sequence runs, its error is the first of those reported. */
  lemma {:induction false} ErrorReported(mode: Mode, es: seq<Event>)
    ensures Run(mode, es).orig.Some? ==> Run(mode, es).orderr == FirstError(Reported(mode, es))
    decreases |es|
  {
    hide SeqInv, Apply, FirstError, Reported;
    if es != [] {
      var past, e := es[..|es|-1], es[|es|-1];
      assert past + [e] == es;
      ErrorReported(mode, past);
      EveryRunSequenced(mode, past);
      ReportedSteps(mode, past, e);
      var s := Run(mode, past);
      if s.orig.Some? {
        ReportedError(Reported(mode, past), s, e);
      } else {
        StartsClean(s, e);
        NoErrors();
      }
    }
  }

  lemma NoErrors()
    ensures FirstError([]) == 0
  {
  }

  lemma ReportedError(reported: seq<int>, s: State, e: Event)
    requires SeqInv(s) && s.orig.Some? && s.orderr == FirstError(reported)
    ensures Apply(s, e).orderr == FirstError(reported + NewReport(s, e))
  {
    hide SeqInv, Apply, FirstError;
    StepError(s, e);
    var news := NewReport(s, e);
    if news == [] {
      assert reported + news == reported;
    } else {
      FirstErrorAppend(reported, news[0]);
    }
  }

  /** The error after a step of a running sequence: kept, or set by the first report. */
  lemma StepError(s: State, e: Event)
    requires SeqInv(s) && s.orig.Some?
    ensures Apply(s, e).orderr ==
            if NewReport(s, e) == [] || s.orderr != 0 then s.orderr else NewReport(s, e)[0]
  {
    hide SeqInv, Fetch, Complete, AddFs, AddSpecial, Dispatch, Requeue;
    IdleIff(s);
    match e
    case EAddFs(id, barrier, empty, back) => AddKeepsError(s, id, barrier, empty, back);
    case EAddSpecial(id, front, hard) => SpecialKeepsError(s, id, front, hard);
    case EDispatch(i, p) => MoveKeepsError(s, i, p);
    case EFetch(start) => RunningFetchKeeps(s, start);
    case EComplete(i, error) => CompleteSteps(s, i, error);
    case EBarError(error) =>
    case ERequeue(i) => MoveKeepsError(s, i, 0);
  }

  lemma AddKeepsError(s: State, id: nat, barrier: bool, empty: bool, back: bool)
    ensures var s' := AddFs(s, id, barrier, empty, back);
            s'.orderr == s.orderr && s'.ended == s.ended && s'.orig == s.orig
  {
  }

  lemma SpecialKeepsError(s: State, id: nat, front: bool, hard: bool)
    ensures var s' := AddSpecial(s, id, front, hard);
            s'.orderr == s.orderr && s'.ended == s.ended && s'.orig == s.orig
  {
  }

  lemma MoveKeepsError(s: State, i: nat, p: nat)
    ensures var s' := Dispatch(s, i, p); s'.orderr == s.orderr && s'.ended == s.ended && s'.orig == s.orig
    ensures var s' := Requeue(s, i); s'.orderr == s.orderr && s'.ended == s.ended && s'.orig == s.orig
  {
    hide RequeuePoint;
  }

  lemma RunningFetchKeeps(s: State, start: bool)
    requires s.orig.Some? && s.ordseq != {}
    ensures Fetch(s, start).orderr == s.orderr && Fetch(s, start).ended == s.ended
  {
    hide CurSeq, ReqSeq;
  }

  // ----- completions

  lemma SeqStep(s: State, steps: set<nat>, error: int)
    requires s.orig.Some?
    ensures var s' := CompleteSeq(s, steps, error);
            && s'.orderr == (if s.orderr != 0 then s.orderr else error)
            && (s'.ended == s.ended || (s'.orig.None? && s'.ended == s.ended + [(s.orig.value.id, s'.orderr)]))
  {
    hide CurSeq;
  }

  lemma CompletedSteps(s: State, rq: Rq)
    ensures var s' := Completed(s, rq);
            && s'.orderr == s.orderr && (s'.orig == s.orig || s'.orig.None?)
            && (s'.ended == s.ended || (s.orig.Some? && s'.ended == s.ended + [(s.orig.value.id, s'.orderr)]))
  {
    hide CurSeq, ReqSeq, CompleteSeq;
    var s1 := s.(inFlight := if rq.Accounted() then s.inFlight - 1 else s.inFlight);
    if s.orig.Some? {
      SeqStep(s1, {SEQ_DRAIN}, 0);
      StepEnds(s1, {SEQ_DRAIN}, 0);
    }
  }

  lemma CompleteSteps(s: State, i: nat, error: int)
    requires SeqInv(s)
    ensures var s' := Complete(s, i, error); var e := EComplete(i, error);
            && (s.orig.Some? ==>
                  s'.orderr == if NewReport(s, e) == [] || s.orderr != 0 then s.orderr else NewReport(s, e)[0])
            && Grows(s, e, s'.orderr, s.ended, s'.ended)
            && (s.orig.None? ==> s'.orig.None?)
  {
    hide SeqInv, Completed, CompleteSeq;
    if i < |s.driver| {
      var rq := s.driver[i];
      var s0 := s.(driver := s.driver[..i] + s.driver[i+1..],
                   ended := if rq.kind.Fs? then s.ended + [(rq.id, error)] else s.ended);
      CompletedSteps(s0, rq);
      if IsProxy(rq.kind) {
        StillRuns(s, i, error);
        var s1 := Completed(s0, rq);
        ProxyEnds(s, i, error);
        SeqStep(s1, {StepOf(rq.kind)}, error);
      }
    }
  }

  /** The drain step does not end a sequence with a request at the driver. */
  lemma ProxyEnds(s: State, i: nat, error: int)
    requires SeqInv(s) && i < |s.driver| && IsProxy(s.driver[i].kind)
    ensures var rq := s.driver[i];
            Completed(s.(driver := s.driver[..i] + s.driver[i+1..], ended := s.ended), rq).ended == s.ended
  {
    hide SeqInv, ReqSeq;
    DriverProxies(s);
  }

  // ----- fetching

  lemma StepGrows(s: State, e: Event)
    requires SeqInv(s)
    ensures Grows(s, e, Apply(s, e).orderr, s.ended, Apply(s, e).ended)
  {
    hide SeqInv, Fetch, Complete, AddFs, AddSpecial, Dispatch, Requeue;
    match e
    case EAddFs(id, barrier, empty, back) => AddKeepsError(s, id, barrier, empty, back);
    case EAddSpecial(id, front, hard) => SpecialKeepsError(s, id, front, hard);
    case EDispatch(i, p) => MoveKeepsError(s, i, p);
    case EFetch(start) => FetchGrows(s, start);
    case EComplete(i, error) => CompleteSteps(s, i, error);
    case EBarError(error) =>
    case ERequeue(i) => MoveKeepsError(s, i, 0);
  }

  /** A sequence starts with no error. */
  lemma StartsClean(s: State, e: Event)
    requires SeqInv(s) && s.orig.None?
    ensures Apply(s, e).orig.Some? ==> e.EFetch? && Apply(s, e).orderr == 0
  {
    hide SeqInv, Fetch, Complete, AddFs, AddSpecial, Dispatch, Requeue;
    match e
    case EAddFs(id, barrier, empty, back) => AddKeepsError(s, id, barrier, empty, back);
    case EAddSpecial(id, front, hard) => SpecialKeepsError(s, id, front, hard);
    case EDispatch(i, p) => MoveKeepsError(s, i, p);
    case EFetch(start) => FetchGrows(s, start);
    case EComplete(i, error) => CompleteSteps(s, i, error);
    case EBarError(error) =>
    case ERequeue(i) => MoveKeepsError(s, i, 0);
  }

  /** What looking at the head does to the record: at most one entry, for that head. */
  lemma HeadEnds(s: State)
    requires SeqInv(s) && s.queue != []
    ensures var s' := DoOrdered(s).1;
            && s'.next == s.next
            && (s.orig.None? && s'.orig.Some? ==> s'.orderr == 0)
            && (s'.ended == s.ended ||
                (Raw(s.queue[0]) && s'.ended == s.ended + [(s.queue[0].id, if s.next == NONE then -EOPNOTSUPP else 0)]))
            && (DoOrdered(s).0.Again? ==> s'.orig.None?)
  {
    hide SeqInv, CurSeq, ReqSeq, Skipped, Proxies, SequenceMode;
    IdleIff(s);
    if s.ordseq == {} {
      HeadKind(s);
    }
  }

  lemma {:induction false} NextGrows(s: State)
    requires SeqInv(s)
    ensures var s' := NextRequest(s).1;
            && Grows(s, EFetch(true), 0, s.ended, s'.ended)
            && (s.orig.None? && s'.orig.Some? ==> s'.orderr == 0)
    decreases |s.queue|
  {
    hide SeqInv, DoOrdered, Grows;
    if s.queue == [] {
      GrowsNone(s);
    } else {
      var s1 := DoOrdered(s).1;
      DoOrderedSeq(s);
      HeadEnds(s);
      HeadGrows(s, s1);
      if DoOrdered(s).0.Again? {
        AgainShrinks(s);
        NextGrows(s1);
        GrowsOn(s, s1, NextRequest(s1).1.ended);
      }
    }
  }

  lemma GrowsNone(s: State)
    ensures Grows(s, EFetch(true), 0, s.ended, s.ended)
  {
  }

  lemma HeadGrows(s: State, s1: State)
    requires s.queue != [] && s1.next == s.next
    requires s1.ended == s.ended ||
             (Raw(s.queue[0]) && s1.ended == s.ended + [(s.queue[0].id, if s.next == NONE then -EOPNOTSUPP else 0)])
    ensures Grows(s, EFetch(true), 0, s.ended, s1.ended)
  {
    if s1.ended != s.ended {
      assert WaitsIn(s.queue, s.queue[0].id);
    }
  }

  lemma GrowsOn(s: State, s1: State, after: seq<(nat, int)>)
    requires s.queue != [] && s1.queue == s.queue[1..] && s1.next == s.next
    requires Grows(s, EFetch(true), 0, s.ended, s1.ended) && Grows(s1, EFetch(true), 0, s1.ended, after)
    ensures Grows(s, EFetch(true), 0, s.ended, after)
  {
    forall i | |s.ended| <= i < |after| ensures Explained(s, EFetch(true), 0, after[i]) {
      if i < |s1.ended| {
        assert after[i] == s1.ended[i];
      } else {
        assert Explained(s1, EFetch(true), 0, after[i]);
        var j :| 0 <= j < |s1.queue| && Raw(s1.queue[j]) && s1.queue[j].id == after[i].0;
        assert s.queue[j+1] == s1.queue[j];
      }
    }
    assert after[..|s.ended|] == after[..|s1.ended|][..|s.ended|];
  }

  lemma FetchGrows(s: State, start: bool)
    requires SeqInv(s)
    ensures var s' := Fetch(s, start);
            && Grows(s, EFetch(start), s'.orderr, s.ended, s'.ended)
            && (s.orig.None? && s'.orig.Some? ==> s'.orderr == 0)
  {
    hide SeqInv, NextRequest, WaitsIn;
    NextGrows(s);
    var s1 := NextRequest(s).1;
    forall i | |s.ended| <= i < |s1.ended| ensures Explained(s, EFetch(start), s1.orderr, s1.ended[i]) {
      assert Explained(s, EFetch(true), 0, s1.ended[i]);
    }
  }
}
