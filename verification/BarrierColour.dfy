/** The colour bit and special requests with REQ_HARDBARRIER.  Such a request toggles the
    colour although no sequence is run for it, so from then on the requests of one epoch may
    have two colours, or two epochs one.  Exactly when that does harm, on a queue ordered by
    draining: when there is a continuation in which the driver is given a request too early.
 */
module BarrierColour {
  import opened Lists
  import opened Barrier
  import opened BarrierSequence
  import opened BarrierOrder
  import opened BarrierProgress
  import opened BarrierSafety
  import opened BarrierDrive

  // ----- a request of the newest epoch outlives the drive

  /** A request of the newest epoch that has not been ended. */
  ghost predicate Pending(s: State, id: nat) {
    id in s.epochOf && s.epochOf[id] == s.added && EndedIds(s.ended)[id] == 0
  }

  lemma StepEnds(s: State, steps: set<nat>, error: int, id: nat)
    requires s.orig.Some? ==> s.orig.value.id != id
    ensures EndedIds(CompleteSeq(s, steps, error).ended)[id] == EndedIds(s.ended)[id]
  {
    hide EndedIds, CurSeq;
    if s.orig.Some? {
      var s' := s.(orderr := if error != 0 && s.orderr == 0 then error else s.orderr);
      EndedAppend(s.ended, (s.orig.value.id, s'.orderr));
    }
  }

  lemma CompletedEnds(s: State, rq: Rq, id: nat)
    requires s.orig.Some? ==> s.orig.value.id != id
    ensures EndedIds(Completed(s, rq).ended)[id] == EndedIds(s.ended)[id]
    ensures Completed(s, rq).orig.Some? ==> Completed(s, rq).orig == s.orig
  {
    hide EndedIds, CurSeq, ReqSeq;
    StepEnds(s.(inFlight := if rq.Accounted() then s.inFlight - 1 else s.inFlight), {SEQ_DRAIN}, 0, id);
  }

  lemma CompleteEnds(s: State, i: nat, id: nat)
    requires i < |s.driver| && (s.orig.Some? ==> s.orig.value.id != id)
    requires s.driver[i].kind.Fs? ==> s.driver[i].id != id
    ensures EndedIds(Complete(s, i, 0).ended)[id] == EndedIds(s.ended)[id]
  {
    hide EndedIds, Completed, CompleteSeq;
    var rq := s.driver[i];
    EndedAppend(s.ended, (rq.id, 0));
    var s0 := s.(driver := s.driver[..i] + s.driver[i+1..],
                 ended := if rq.kind.Fs? then s.ended + [(rq.id, 0)] else s.ended);
    CompletedEnds(s0, rq, id);
    if IsProxy(rq.kind) {
      StepEnds(Completed(s0, rq), {StepOf(rq.kind)}, 0, id);
    }
  }

  /** Requests of older epochs, and running barriers, have other ids. */
  lemma OtherIds(s: State, id: nat)
    requires OrderCore(s) && Known(s) && id in s.epochOf && s.epochOf[id] == s.added
    ensures s.orig.Some? ==> s.orig.value.id != id
    ensures s.orig.Some? && s.driver != [] && s.driver[0].kind.Fs? ==> s.driver[0].id != id
    ensures s.queue != [] && s.queue[0].kind.Fs? && s.queue[0].barrier ==> s.queue[0].id != id
  {
    hide Flight, Waiting, Sorted, OpenEpochs;
    if s.driver != [] { assert DriverOk(s, s.driver[0]) && KnownRq(s.epochOf, s.driver[0]); }
    if s.queue != [] { assert QueueOk(s, s.queue[0]) && KnownRq(s.epochOf, s.queue[0]); }
  }

  lemma DoOrderedEnds(s: State, id: nat)
    requires SeqInv(s) && OrderInv(s) && Known(s) && s.queue != [] && id in s.epochOf && s.epochOf[id] == s.added
    ensures EndedIds(DoOrdered(s).1.ended)[id] == EndedIds(s.ended)[id]
  {
    hide SeqOk, ConsOk, OrderCore, Contrast, Known, CurSeq, ReqSeq, Skipped, Proxies, SequenceMode, CompleteSeq, EndedIds;
    OtherIds(s, id);
    Idle(s, Held(s));
    HeadHeld(s);
    Draining(s);
    if s.ordseq == {} {
      HeadIsFs(s);
      var s1 := Begin(s);
      if s.queue[0].kind.Fs? && s.queue[0].barrier {
        StepEnds(s1, Skipped(s1.ordered, s1.inFlight != 0), 0, id);
      }
    }
  }

  lemma {:induction false} NextEnds(s: State, id: nat)
    requires SeqInv(s) && OrderInv(s) && Known(s) && id in s.epochOf && s.epochOf[id] == s.added
    ensures EndedIds(NextRequest(s).1.ended)[id] == EndedIds(s.ended)[id]
    decreases |s.queue|
  {
    hide SeqInv, OrderCore, Contrast, Known, DoOrdered, EndedIds;
    if s.queue != [] {
      CoreDone(s);
      OrigContrast(s);
      DoOrderedSeq(s);
      DoOrderedOrder(s);
      DoOrderedContrast(s);
      DoOrderedKnown(s);
      DoOrderedEnds(s, id);
      if DoOrdered(s).0.Again? {
        AgainShrinks(s);
        DoOrderedLot(s);
        NextEnds(DoOrdered(s).1, id);
      }
    }
  }

  lemma ChoicePends(s: State, id: nat)
    requires Good(s) && Pending(s, id) && (s.queue != [] || s.orig.Some?)
    ensures Pending(Apply(s, Choice(s)), id)
  {
    hide SeqInv, OrderCore, Contrast, Known, Moving, EndedIds, NextRequest, Complete, Held0;
    ChoiceMoves(s);
    OtherIds(s, id);
    if Choice(s).EFetch? {
      NextEnds(s, id);
    } else {
      CompleteEnds(s, 0, id);
    }
  }

  lemma ScheduledMoves(s: State)
    requires Good(s) && s.sched != [] && s.queue == []
    ensures var s' := Apply(s, EDispatch(0, 0));
            Good(s') && SameLot(s, s') && s'.ended == s.ended && s'.orig == s.orig && Load(s') < Load(s)
  {
    hide SeqInv, OrderInv, Known, Moving;
    GoodStep(s, EDispatch(0, 0));
    ScheduledLight(s);
    assert DispatchPoint(s.queue, 0);
    var rq := s.sched[0];
    assert s.queue[..0] + [rq] + s.queue[0..] == [rq];
    assert [rq][1..] == [];
  }

  lemma ScheduledLight(s: State)
    requires OrderInv(s) && s.sched != []
    ensures Weight(s.sched[0]) == 2
  {
    assert SchedOk(s, s.sched[0]);
  }

  /** Everything but the driver can be emptied while a request of the newest epoch waits. */
  lemma {:induction false} DriveAll(s: State, id: nat) returns (es: seq<Event>)
    requires Good(s) && Pending(s, id)
    ensures Moves(es)
    ensures var v := Play(s, es);
            Good(v) && SameLot(s, v) && Pending(v, id) && v.queue == [] && v.sched == [] && v.orig.None?
    decreases Load(s)
  {
    hide Good, Pending, Apply, Load, Choice;
    if s.queue != [] || s.orig.Some? {
      var e := Choice(s);
      ChoiceMoves(s);
      ChoicePends(s, id);
      ChoiceIsMove(s);
      var rest := DriveAll(Apply(s, e), id);
      PlayFirst(s, e, rest);
      es := [e] + rest;
    } else if s.sched != [] {
      var e := EDispatch(0, 0);
      ScheduledMoves(s);
      StillPends(s, Apply(s, e), id);
      var rest := DriveAll(Apply(s, e), id);
      PlayFirst(s, e, rest);
      es := [e] + rest;
    } else {
      es := [];
    }
  }

  lemma ChoiceIsMove(s: State)
    ensures Move(Choice(s))
  {
  }

  lemma StillPends(s: State, s': State, id: nat)
    requires Pending(s, id) && SameLot(s, s') && s'.ended == s.ended
    ensures Pending(s', id)
  {
  }

  /** Where a pending request is, when only the driver has any. */
  lemma PendingAt(s: State, id: nat) returns (j: nat)
    requires SeqInv(s) && Known(s) && Pending(s, id) && s.queue == [] && s.sched == [] && s.orig.None?
    ensures j < |s.driver| && TagOf(s.driver[j]) == (Fs, id)
    ensures forall k :: 0 <= k < |s.driver| && k != j ==> TagOf(s.driver[k]) != (Fs, id)
  {
    hide Tags, EndedIds, SeqOk;
    TagsNone();
    assert id in multiset(s.accepted);
    assert Held(s)[(Fs, id)] + OrigCount(s, id) + EndedIds(s.ended)[id] == multiset(s.accepted)[id];
    assert (Fs, id) in Tags(s.driver);
    j := TagsFind(s.driver, (Fs, id));
    forall k | 0 <= k < |s.driver| && k != j ensures TagOf(s.driver[k]) != (Fs, id) {
      TagsTwice(s.driver, j, k);
    }
  }

  lemma TagsTwice(q: seq<Rq>, j: nat, k: nat)
    requires j < |q| && k < |q| && j != k
    ensures TagOf(q[k]) == TagOf(q[j]) ==> Tags(q)[TagOf(q[j])] >= 2
  {
    hide Tags, TagOf;
    TagsRemove(q, j);
    var rest := q[..j] + q[j+1..];
    assert rest[if k < j then k else k - 1] == q[k];
    TagsMember(rest, if k < j then k else k - 1);
  }

  /** And the driver can complete everything else. */
  lemma {:induction false} DriveAlone(s: State, id: nat) returns (es: seq<Event>)
    requires Good(s) && Pending(s, id) && s.queue == [] && s.sched == [] && s.orig.None?
    ensures Moves(es)
    ensures var v := Play(s, es);
            && Good(v) && SameLot(s, v) && Pending(v, id) && v.queue == [] && v.sched == [] && v.orig.None?
            && |v.driver| == 1 && TagOf(v.driver[0]) == (Fs, id)
    decreases |s.driver|
  {
    hide SeqInv, OrderInv, Known, Moving, EndedIds, Complete, CompleteSeq;
    var j := PendingAt(s, id);
    if |s.driver| == 1 {
      es := [];
    } else {
      var k := if j == 0 then 1 else 0;
      var e := EComplete(k, 0);
      CompleteEnds(s, k, id);
      CompleteLot(s, k);
      CompleteIdle(s, k);
      GoodStep(s, e);
      var rest := DriveAlone(Apply(s, e), id);
      PlayFirst(s, e, rest);
      es := [e] + rest;
    }
  }

  lemma CompleteIdle(s: State, k: nat)
    requires s.orig.None? && k < |s.driver|
    ensures Complete(s, k, 0).orig.None?
  {
    hide Completed, CompleteSeq;
    var rq := s.driver[k];
    var s0 := s.(driver := s.driver[..k] + s.driver[k+1..],
                 ended := if rq.kind.Fs? then s.ended + [(rq.id, 0)] else s.ended);
    CompletedIdle(s0, rq);
    if IsProxy(rq.kind) {
      StepIdle(Completed(s0, rq), {StepOf(rq.kind)}, 0);
    }
  }

  lemma StepIdle(s: State, steps: set<nat>, error: int)
    requires s.orig.None?
    ensures CompleteSeq(s, steps, error).orig.None?
  {
    hide CurSeq;
  }

  lemma CompletedIdle(s: State, rq: Rq)
    requires s.orig.None?
    ensures Completed(s, rq).orig.None?
  {
    hide CurSeq, ReqSeq, CompleteSeq;
  }

  /** An idle queue with nothing on it has ended every barrier. */
  lemma AllEnded(s: State)
    requires OrderCore(s) && s.queue == [] && s.orig.None?
    ensures s.done == s.added
  {
    hide Flight, Sorted, QueueOk, DriverOk, SchedOk;
    assert s.done < s.added ==> Waiting(s.queue, s.done);
  }

  // ----- the last barrier outlives the drive

  /** The last barrier has not ended, nothing was added behind it, and it will not just pass. */
  ghost predicate Closing(s: State) {
    s.done < s.added && NoneOf(s, s.added) && !Passing(s, s.added - 1)
  }

  /** A barrier with a proxy to queue, or with something to wait for, does not end at once. */
  lemma NotAtOnce(s: State)
    requires SeqInv(s) && OrderCore(s) && s.orig.None? && s.queue != [] && !Passing(s, s.done)
    requires s.queue[0].kind.Fs? && s.queue[0].barrier && s.queue[0].epoch == s.done
    ensures StartOrdered(s).orig.Some? && StartOrdered(s).done == s.done
  {
    hide SeqOk, ConsOk, Waiting, Sorted, OpenEpochs, SchedOk, Proxies, Passing;
    var rq := s.queue[0];
    var s1 := Begin(s);
    Idle(s, Held(s));
    assert QueueOk(s, rq);
    if s.next == DRAIN && rq.empty {
      SomethingOut(s);
    }
    StepsLeft(s.next, rq.empty, s1.inFlight != 0);
  }

  lemma StepsLeft(next: Mode, empty: bool, busy: bool)
    requires DrainMode(next) && (next == DRAIN && empty ==> busy)
    ensures CurSeq({STARTED} + Skipped(SequenceMode(next, empty), busy)) != SEQ_DONE
  {
  }

  lemma SomethingOut(s: State)
    requires OrderCore(s) && s.orig.None? && s.queue != [] && s.next == DRAIN && !Passing(s, s.done)
    requires s.queue[0].kind.Fs? && s.queue[0].barrier && s.queue[0].empty && s.queue[0].epoch == s.done
    ensures s.inFlight != 0
  {
    hide Waiting, OpenEpochs, SchedOk, Flight;
    forall i | 0 <= i < |s.queue| ensures PassingRq(s.queue[i], s.done) {
      if i > 0 { assert Before(s.done, s.queue[0], s.queue[i]); }
    }
    var i :| 0 <= i < |s.driver| && s.driver[i].kind.Fs? && s.driver[i].epoch == s.done;
    assert DriverOk(s, s.driver[i]);
    if Flight(s.driver) == 0 { FlightZero(s.driver); }
  }

  lemma StartCloses(s: State)
    requires SeqInv(s) && OrderInv(s) && Closing(s) && s.orig.None? && s.queue != []
    requires s.queue[0].kind.Fs? && s.queue[0].barrier && s.queue[0].epoch == s.done
    ensures Closing(StartOrdered(s))
  {
    hide SeqInv, OrderCore, Contrast, Skipped, SequenceMode, Proxies, CurSeq;
    var s' := StartOrdered(s);
    var e := s.added - 1;
    var mode := SequenceMode(s.next, s.queue[0].empty);
    var ps := Proxies(s.queue[0], mode);
    forall i | 0 <= i < |s'.queue| && s'.queue[i].kind.Fs? ensures s'.queue[i].epoch != s.added {
      if i < |ps| {
        ProxyShape(s.queue[0], mode, i);
      } else {
        assert s'.queue[i] == s.queue[i - |ps| + 1];
      }
    }
    if s.done == e {
      NotAtOnce(s);
    } else {
      StartPassed(s, s', ps, e);
    }
  }

  /** An epoch that passes when the barrier of an earlier one has started did so before. */
  lemma StartPassed(s: State, s': State, ps: seq<Rq>, e: nat)
    requires s.orig.None? && s.queue != [] && s.queue[0].epoch != e
    requires s'.next == s.next && s'.queue == ps + s.queue[1..] && s'.driver == s.driver
    ensures Passing(s', e) ==> Passing(s, e)
  {
    if Passing(s', e) {
      forall i | 0 <= i < |s.queue| ensures PassingRq(s.queue[i], e) {
        assert i > 0 ==> s'.queue[|ps| + i - 1] == s.queue[i] && PassingRq(s'.queue[|ps| + i - 1], e);
      }
    }
  }

  lemma DoOrderedCloses(s: State)
    requires SeqInv(s) && OrderInv(s) && Closing(s) && s.queue != []
    ensures Closing(DoOrdered(s).1)
  {
    hide SeqOk, ConsOk, OrderCore, Contrast, Closing, StartOrdered, CurSeq, ReqSeq;
    Idle(s, Held(s));
    HeadHeld(s);
    Draining(s);
    if s.ordseq == {} {
      HeadIsFs(s);
      if s.queue[0].kind.Fs? && s.queue[0].barrier {
        HeadNow(s);
        StartCloses(s);
      }
    }
  }

  lemma HeadNow(s: State)
    requires OrderCore(s) && s.orig.None? && s.queue != []
    ensures s.queue[0].kind.Fs? ==> s.queue[0].epoch == s.done
  {
    FirstFs(s, 0);
    assert QueueOk(s, s.queue[0]);
  }

  lemma {:induction false} NextCloses(s: State)
    requires SeqInv(s) && OrderInv(s) && Closing(s)
    ensures Closing(NextRequest(s).1)
    decreases |s.queue|
  {
    hide SeqInv, OrderCore, Contrast, Closing, DoOrdered;
    if s.queue != [] {
      CoreDone(s);
      OrigContrast(s);
      DoOrderedSeq(s);
      DoOrderedOrder(s);
      DoOrderedContrast(s);
      DoOrderedCloses(s);
      if DoOrdered(s).0.Again? {
        AgainShrinks(s);
        NextCloses(DoOrdered(s).1);
      }
    }
  }

  lemma TakeCloses(s: State, s': State)
    requires Closing(s) && s.queue != [] && MayTake(s, s.queue[0])
    requires s' == s.(queue := s.queue[1..], driver := s.driver + [s.queue[0].(started := true)], inFlight := s'.inFlight)
    ensures Closing(s')
  {
    hide CurSeq;
    var e := s.added - 1;
    var rq := s.queue[0].(started := true);
    assert s'.driver[|s.driver|] == rq;
    forall i | 0 <= i < |s'.driver| && s'.driver[i].kind.Fs? ensures s'.driver[i].epoch != s.added {
      assert i < |s.driver| ==> s'.driver[i] == s.driver[i];
    }
    TakePassed(s, s', e);
  }

  lemma TakePassed(s: State, s': State, e: nat)
    requires s.queue != []
    requires s' == s.(queue := s.queue[1..], driver := s.driver + [s.queue[0].(started := true)], inFlight := s'.inFlight)
    ensures Passing(s', e) ==> Passing(s, e)
  {
    var rq := s.queue[0].(started := true);
    assert s'.driver[|s.driver|] == rq;
    if Passing(s', e) {
      forall i | 0 <= i < |s.queue| ensures PassingRq(s.queue[i], e) {
        assert i > 0 ==> PassingRq(s'.queue[i - 1], e);
      }
      forall i | 0 <= i < |s.driver| && s.driver[i].kind.Fs? ensures s.driver[i].epoch != e {
        assert s'.driver[i] == s.driver[i];
      }
    }
  }

  lemma FetchCloses(s: State)
    requires SeqInv(s) && OrderInv(s) && Closing(s)
    ensures Closing(Fetch(s, true))
  {
    hide SeqInv, OrderInv, Closing, NextRequest, MayTake;
    NextCloses(s);
    NextRequestOrder(s);
    var (ok, s') := NextRequest(s);
    if ok && s'.queue != [] {
      TakeCloses(s', Fetch(s, true));
    }
  }

  /** What holds a running sequence back, with nothing of the next epoch there, is a proxy
      whose step is still to come. */
  lemma BlockedHead(s: State)
    requires SeqInv(s) && OrderInv(s) && s.orig.Some? && NoneIn(s.queue, s.done + 1) && s.queue != [] && Held0(s)
    ensures IsProxy(s.queue[0].kind) && StepOf(s.queue[0].kind) > CurSeq(s.ordseq) && StepOf(s.queue[0].kind) !in s.ordseq
  {
    hide SeqOk, ConsOk, OrderCore, Contrast;
    CoreDone(s);
    OrigContrast(s);
    Idle(s, Held(s));
    ByDrain(s);
    HeadEpoch(s);
    QueueProxies(s);
  }

  /** Completing a step while a later one is open does not end the sequence. */
  lemma StepGoesOn(s: State, steps: set<nat>, error: int, open: nat)
    requires SEQ_DRAIN <= open <= SEQ_POSTFLUSH && open !in s.ordseq + steps
    ensures CompleteSeq(s, steps, error).orig == s.orig && CompleteSeq(s, steps, error).done == s.done
  {
  }

  lemma CompletedGoesOn(s: State, rq: Rq, open: nat)
    requires SEQ_DRAIN < open <= SEQ_POSTFLUSH && open !in s.ordseq
    ensures Completed(s, rq).orig == s.orig && Completed(s, rq).done == s.done
    ensures Completed(s, rq).ordseq == s.ordseq || Completed(s, rq).ordseq == s.ordseq + {SEQ_DRAIN}
  {
    hide ReqSeq;
  }

  lemma CompleteGoesOn(s: State)
    requires SeqInv(s) && OrderInv(s) && s.orig.Some? && NoneIn(s.queue, s.done + 1) && s.queue != [] && Held0(s)
    ensures s.driver != [] ==> Complete(s, 0, 0).orig == s.orig && Complete(s, 0, 0).done == s.done
  {
    hide SeqInv, OrderCore, Contrast, Held0, CompleteSeq, Completed, CurSeq;
    if s.driver != [] {
      BlockedHead(s);
      var open := StepOf(s.queue[0].kind);
      var rq := s.driver[0];
      var s0 := s.(driver := s.driver[..0] + s.driver[1..],
                   ended := if rq.kind.Fs? then s.ended + [(rq.id, 0)] else s.ended);
      CompletedGoesOn(s0, rq, open);
      if IsProxy(rq.kind) {
        DriverStep(s);
        StepGoesOn(Completed(s0, rq), {StepOf(rq.kind)}, 0, open);
      }
    }
  }

  lemma DriverStep(s: State)
    requires OrderCore(s) && s.driver != []
    ensures IsProxy(s.driver[0].kind) ==> StepOf(s.driver[0].kind) == CurSeq(s.ordseq)
    ensures s.driver[0].kind.Fs? ==> s.driver[0].epoch == s.done
  {
    assert DriverOk(s, s.driver[0]);
  }

  lemma CompleteDone(s: State)
    requires SeqInv(s) && OrderInv(s)
    ensures s.done <= Complete(s, 0, 0).done <= s.done + 1
  {
    hide SeqOk, ConsOk, OrderCore, Contrast, CurSeq, ReqSeq, Completed, CompleteSeq;
    if s.driver != [] {
      var rq := s.driver[0];
      var s0 := s.(driver := s.driver[..0] + s.driver[1..],
                   ended := if rq.kind.Fs? then s.ended + [(rq.id, 0)] else s.ended);
      if IsProxy(rq.kind) {
        ProxyAlone(s, 0, s0);
        CompletedKeeps(s0, rq, s0.(inFlight := if rq.Accounted() then s.inFlight - 1 else s.inFlight));
        StepDone(Completed(s0, rq), {StepOf(rq.kind)}, 0);
      } else {
        StepDone(s0.(inFlight := if rq.Accounted() then s.inFlight - 1 else s.inFlight), {SEQ_DRAIN}, 0);
        CompletedDone(s0, rq);
      }
    }
  }

  lemma StepDone(s: State, steps: set<nat>, error: int)
    ensures s.done <= CompleteSeq(s, steps, error).done <= s.done + 1
  {
    hide CurSeq;
  }

  lemma CompletedDone(s: State, rq: Rq)
    ensures s.done <= Completed(s, rq).done <= s.done + 1
  {
    hide CurSeq, ReqSeq;
  }

  lemma CompleteCloses(s: State)
    requires SeqInv(s) && OrderInv(s) && Closing(s) && s.orig.Some? && s.queue != [] && Held0(s) && s.driver != []
    ensures Closing(Complete(s, 0, 0))
  {
    hide SeqInv, OrderCore, Contrast, Held0, Complete;
    var s' := Complete(s, 0, 0);
    var e := s.added - 1;
    CompleteLot(s, 0);
    CompleteDone(s);
    DriverStep(s);
    assert s'.driver == s.driver[1..];
    forall i | 0 <= i < |s'.driver| && s'.driver[i].kind.Fs? ensures s'.driver[i].epoch != s.added {
      assert s'.driver[i] == s.driver[i + 1];
    }
    if s.done == e {
      CompleteGoesOn(s);
    } else {
      CompletePassed(s, s', e);
    }
  }

  lemma CompletePassed(s: State, s': State, e: nat)
    requires s.driver != [] && (s.driver[0].kind.Fs? ==> s.driver[0].epoch == s.done) && e != s.done
    requires s'.next == s.next && s'.queue == s.queue && s'.driver == s.driver[1..]
    ensures Passing(s', e) ==> Passing(s, e)
  {
    if Passing(s', e) {
      forall i | 0 <= i < |s.driver| && s.driver[i].kind.Fs? ensures s.driver[i].epoch != e {
        assert i > 0 ==> s'.driver[i - 1] == s.driver[i];
      }
    }
  }

  lemma ChoiceCloses(s: State)
    requires Good(s) && Closing(s) && s.queue != []
    ensures Closing(Apply(s, Choice(s)))
  {
    hide SeqInv, OrderInv, Known, Moving, Held0, Fetch, Complete, Closing;
    ChoiceMoves(s);
    if Choice(s).EFetch? {
      FetchCloses(s);
    } else {
      CompleteCloses(s);
    }
  }

  /** The queue can be emptied while the last barrier's sequence runs. */
  lemma {:induction false} DriveToLast(s: State) returns (es: seq<Event>)
    requires Good(s) && Closing(s)
    ensures Moves(es)
    ensures var v := Play(s, es); Good(v) && SameLot(s, v) && Closing(v) && v.queue == []
    decreases Load(s)
  {
    hide Good, Closing, Apply, Load, Choice;
    if s.queue != [] {
      var e := Choice(s);
      ChoiceMoves(s);
      ChoiceCloses(s);
      ChoiceIsMove(s);
      var rest := DriveToLast(Apply(s, e));
      PlayFirst(s, e, rest);
      es := [e] + rest;
    } else {
      es := [];
    }
  }

  lemma LastRuns(s: State)
    requires OrderCore(s) && Closing(s) && s.queue == []
    ensures s.orig.Some? && s.orig.value.epoch == s.done == s.added - 1 && s.sched == []
  {
    hide Flight, Sorted, QueueOk, DriverOk, SchedOk, Passing;
    NoneScheduled(s);
    var e := s.added - 1;
    assert s.done + (if s.orig.Some? then 1 else 0) <= e ==> Waiting(s.queue, e);
  }

  // ----- ids not used yet

  function Above(ids: seq<nat>): nat {
    if ids == [] then 0 else if ids[0] < Above(ids[1..]) then Above(ids[1..]) else ids[0] + 1
  }

  lemma {:induction false} AboveAll(ids: seq<nat>, n: nat)
    requires n >= Above(ids)
    ensures n !in ids
  {
    if ids != [] {
      AboveAll(ids[1..], n);
    }
  }

  // ----- a request overtakes the last barrier

  /** The running barrier has not been ended. */
  lemma OrigNotEnded(s: State)
    requires SeqInv(s) && s.orig.Some?
    ensures EndedIds(s.ended)[s.orig.value.id] == 0
  {
    hide Held, EndedIds, SeqOk;
    var id := s.orig.value.id;
    assert Held(s)[(Fs, id)] + OrigCount(s, id) + EndedIds(s.ended)[id] == multiset(s.accepted)[id];
    assert multiset(s.accepted)[id] <= 1;
  }

  /** A request that has the colour of the running barrier is taken. */
  lemma FetchSameColour(s: State)
    requires s.orig.Some? && s.ordseq != {} && !s.ordered.byTag && s.queue != []
    requires s.queue[0].kind.Fs? && s.queue[0].color == s.orig.value.color
    ensures var s' := Fetch(s, true);
            && s'.driver == s.driver + [s.queue[0].(started := true)]
            && s'.ended == s.ended && s'.epochOf == s.epochOf
  {
    hide CurSeq;
    LowestDrain(s.ordseq);
    assert NextRequest(s) == (true, s);
  }

  lemma Overtakes(s: State, z: nat, colors: seq<bool>)
    requires Good(s) && s.orig.Some? && s.queue == [] && s.sched == [] && s.orig.value.epoch == s.done == s.added - 1
    requires !SameColor(s, s.added - 1) && z !in s.accepted
    ensures !Safe(Play(Dyed(s, !s.ordcolor, colors), [EAddFs(z, false, false, true), EFetch(true)]))
  {
    hide SeqOk, ConsOk, OrderCore, Contrast, Moving, Fetch, EndedIds, KnownAll, Play;
    var t := Dyed(s, !s.ordcolor, colors);
    var b := s.orig.value;
    OrigNotEnded(s);
    Idle(s, Held(s));
    RunningColours(s);
    var t1 := Apply(t, EAddFs(z, false, false, true));
    FetchSameColour(t1);
    var t2 := Fetch(t1, true);
    assert [EAddFs(z, false, false, true), EFetch(true)] == [EAddFs(z, false, false, true)] + [EFetch(true)];
    PlayFirst(t, EAddFs(z, false, false, true), [EFetch(true)]);
    PlayOne(t1, EFetch(true));
    var i := |s.driver|;
    assert t2.driver[i].kind.Fs? && t2.driver[i].epoch == s.added;
    assert b.id in t2.epochOf && t2.epochOf[b.id] < t2.driver[i].epoch;
    assert !SafeAt(t2, t2.driver[i]);
  }

  lemma RunningColours(s: State)
    requires OrderCore(s) && s.orig.Some? && s.done == s.added - 1
    ensures !s.ordered.byTag && s.orig.value.color == Color(s, s.done) && s.ordcolor == Color(s, s.added)
  {
  }

  // ----- a barrier overtakes a request of the other colour

  lemma FetchPlain(s: State)
    requires s.ordseq == {} && s.queue != [] && s.queue[0].kind.Fs? && !s.queue[0].barrier
    ensures Fetch(s, true) == s.(queue := s.queue[1..], driver := s.driver + [s.queue[0].(started := true)],
                                 inFlight := s.inFlight + 1)
  {
    assert NextRequest(s) == (true, s);
  }

  /** A barrier that gets to the head while something is in flight has to wait. */
  lemma FetchStarts(s: State)
    requires DrainMode(s.next) && s.ordseq == {} && s.inFlight > 0 && s.queue != []
    requires s.queue[0].kind.Fs? && s.queue[0].barrier && !s.queue[0].empty && !s.queue[0].started
    ensures var s' := Fetch(s, true);
            && s'.orig == Some(s.queue[0]) && s'.queue == Proxies(s.queue[0], s.next) + s.queue[1..]
            && s'.ordered == s.next && s'.ordseq == {STARTED} + Skipped(s.next, true)
            && s'.driver == s.driver && s'.inFlight == s.inFlight && s'.ended == s.ended && s'.epochOf == s.epochOf
  {
    hide Proxies, Skipped;
    var s1 := Begin(s);
    assert s1.ordseq == {STARTED};
    FirstSteps(s.queue[0], s.next);
    assert DoOrdered(s).0 == Blocked;
    assert NextRequest(s) == (false, DoOrdered(s).1);
  }

  /** While the queue drains, the first proxy is next. */
  lemma FirstSteps(rq: Rq, mode: Mode)
    requires DrainMode(mode)
    ensures var b, ps := {STARTED} + Skipped(mode, true), Proxies(rq, mode);
            && SEQ_DRAIN !in b && CurSeq(b) == SEQ_DRAIN && ps != [] && IsProxy(ps[0].kind)
            && StepOf(ps[0].kind) !in b && CurSeq(b + {SEQ_DRAIN}) == StepOf(ps[0].kind)
  {
  }

  lemma {:induction false} PointBehind(s: State, q: seq<Rq>, rq: Rq)
    requires s.orig.Some? && ReqSeq(s, rq) == SEQ_DONE && forall i :: 0 <= i < |q| ==> IsProxy(q[i].kind)
    ensures RequeuePoint(s, q, rq) == |q|
    decreases |q|
  {
    if q != [] {
      PointBehind(s, q[1..], rq);
    }
  }

  /** A request that goes back during the drain, in the other colour, goes behind the proxies. */
  lemma RequeueBehind(s: State)
    requires s.orig.Some? && s.ordseq != {} && s.driver != []
    requires s.driver[0].kind.Fs? && s.driver[0].started && s.driver[0].color != s.orig.value.color
    requires forall i :: 0 <= i < |s.queue| ==> IsProxy(s.queue[i].kind)
    ensures Requeue(s, 0) == s.(queue := s.queue + [s.driver[0].(started := false, soft := true)],
                                driver := s.driver[1..], inFlight := s.inFlight - 1)
  {
    var rq := s.driver[0].(started := false, soft := true);
    PointBehind(s, s.queue, rq);
    var p := |s.queue|;
    assert s.queue[..p] + [rq] + s.queue[p..] == s.queue + [rq];
    assert s.driver[..0] + s.driver[1..] == s.driver[1..];
  }

  /** The last request in flight completes, and the drain is over. */
  lemma CompleteDrains(s: State)
    requires s.orig.Some? && |s.driver| == 1 && s.driver[0].kind.Fs? && s.driver[0].started && s.inFlight == 1
    requires CurSeq(s.ordseq) == SEQ_DRAIN && s.ordseq != {}
    requires s.queue != [] && IsProxy(s.queue[0].kind) && StepOf(s.queue[0].kind) !in s.ordseq
    ensures var s' := Complete(s, 0, 0);
            && s'.driver == [] && s'.queue == s.queue && s'.orig == s.orig && s'.ordseq == s.ordseq + {SEQ_DRAIN}
            && s'.ordered == s.ordered && s'.ended == s.ended + [(s.driver[0].id, 0)] && s'.epochOf == s.epochOf
  {
    assert s.driver[..0] + s.driver[1..] == [];
    StepGoesOn(s, {SEQ_DRAIN}, 0, StepOf(s.queue[0].kind));
  }

  lemma FetchProxy(s: State)
    requires s.orig.Some? && s.ordseq != {} && !s.ordered.byTag && s.queue != []
    requires IsProxy(s.queue[0].kind) && StepOf(s.queue[0].kind) <= CurSeq(s.ordseq)
    ensures var s' := Fetch(s, true);
            && s'.driver == s.driver + [s.queue[0].(started := true)]
            && s'.orig == s.orig && s'.ended == s.ended && s'.epochOf == s.epochOf
  {
    hide CurSeq;
    assert NextRequest(s) == (true, s);
  }

  /** Two requests and a barrier come in, the first request is fetched and the barrier starts. */
  lemma BarrierStarts(t: State, w: nat, b: nat)
    requires DrainMode(t.next) && t.queue == [] && t.sched == [] && t.ordseq == {} && t.inFlight == 1 && |t.driver| == 1
    requires w !in t.accepted && b !in t.accepted && w != b
    ensures var bar := Rq(b, Fs, true, false, t.ordcolor, t.added, true, false);
            var s := Play(t, [EAddFs(w, false, false, true), EAddFs(b, true, false, false), EFetch(true), EFetch(true)]);
            && s.orig == Some(bar) && s.queue == Proxies(bar, t.next)
            && s.ordered == t.next && s.ordseq == {STARTED} + Skipped(t.next, true)
            && |s.driver| == 2 && s.driver[0] == t.driver[0] && s.inFlight == 2
            && s.driver[1].kind.Fs? && s.driver[1].started && s.driver[1].id == w
            && s.ended == t.ended && s.epochOf == t.epochOf[w := t.added][b := t.added]
  {
    hide Fetch, Proxies, Skipped, Play;
    var req := Rq(w, Fs, false, false, t.ordcolor, t.added, true, false);
    var bar := Rq(b, Fs, true, false, t.ordcolor, t.added, true, false);
    var e1, e2, e3 := EAddFs(w, false, false, true), EAddFs(b, true, false, false), EFetch(true);
    var t1 := Apply(t, e1);
    var t2 := Apply(t1, e2);
    assert t2.queue == [req, bar];
    var t3 := Fetch(t2, true);
    FetchPlain(t2);
    assert t3.queue == [bar];
    FetchStarts(t3);
    var s := Fetch(t3, true);
    assert s.queue == Proxies(bar, t.next) + [] == Proxies(bar, t.next);
    PlayFour(t, e1, e2, e3, e3);
  }

  lemma PlayFour(s: State, a: Event, b: Event, c: Event, d: Event)
    ensures Play(s, [a, b, c, d]) == Apply(Apply(Apply(Apply(s, a), b), c), d)
  {
    hide Apply, Play;
    assert [a, b, c, d] == [a] + [b, c, d] && [b, c, d] == [b] + [c, d] && [c, d] == [c] + [d];
    PlayFirst(s, a, [b, c, d]);
    PlayFirst(Apply(s, a), b, [c, d]);
    PlayFirst(Apply(Apply(s, a), b), c, [d]);
    PlayOne(Apply(Apply(Apply(s, a), b), c), d);
  }

  /** The older request goes back, the newer one completes, and the first proxy is fetched. */
  lemma BarrierOvertakes(s: State)
    requires s.orig.Some? && DrainMode(s.ordered) && s.queue == Proxies(s.orig.value, s.ordered)
    requires s.ordseq == {STARTED} + Skipped(s.ordered, true)
    requires |s.driver| == 2 && s.inFlight == 2 && s.driver[0].kind.Fs? && s.driver[0].started
    requires s.driver[1].kind.Fs? && s.driver[1].started && s.driver[0].color != s.orig.value.color
    ensures var s' := Fetch(Complete(Requeue(s, 0), 0, 0), true);
            && |s'.driver| == 1 && IsProxy(s'.driver[0].kind) && s'.orig == s.orig
            && s'.ended == s.ended + [(s.driver[1].id, 0)] && s'.epochOf == s.epochOf
  {
    hide Fetch, Complete, Requeue, Proxies, Skipped, CurSeq;
    var bar := s.orig.value;
    FirstSteps(bar, s.ordered);
    forall i | 0 <= i < |s.queue| ensures IsProxy(s.queue[i].kind) { ProxyShape(bar, s.ordered, i); }
    RequeueBehind(s);
    var s1 := Requeue(s, 0);
    assert s1.queue[0] == s.queue[0];
    CompleteDrains(s1);
    var s2 := Complete(s1, 0, 0);
    FetchProxy(s2);
  }

  lemma Overtaken(s: State, id: nat, w: nat, b: nat, colors: seq<bool>)
    requires Good(s) && Pending(s, id) && s.queue == [] && s.sched == [] && s.orig.None?
    requires |s.driver| == 1 && TagOf(s.driver[0]) == (Fs, id)
    requires w !in s.accepted && b !in s.accepted && w != b
    ensures var t := Dyed(s, !s.ordcolor, colors);
            !Safe(Play(t, [EAddFs(w, false, false, true), EAddFs(b, true, false, false), EFetch(true), EFetch(true)]
                          + [ERequeue(0), EComplete(0, 0), EFetch(true)]))
  {
    hide SeqInv, OrderCore, Contrast, Moving, Fetch, Complete, Requeue, EndedIds, KnownAll, Play, Proxies, Skipped;
    var t := Dyed(s, !s.ordcolor, colors);
    var one := [EAddFs(w, false, false, true), EAddFs(b, true, false, false), EFetch(true), EFetch(true)];
    AloneFacts(s);
    BarrierStarts(t, w, b);
    var t4 := Play(t, one);
    BarrierOvertakes(t4);
    var t7 := Fetch(Complete(Requeue(t4, 0), 0, 0), true);
    PlayThree(t4, ERequeue(0), EComplete(0, 0), EFetch(true));
    PlayConcat(t, one, [ERequeue(0), EComplete(0, 0), EFetch(true)]);
    EndedAppend(t4.ended, (w, 0));
    assert id in s.accepted;
    assert id in t7.epochOf && t7.epochOf[id] == s.added;
    assert EndedIds(t7.ended)[id] == 0;
    assert !SafeAt(t7, t7.driver[0]);
  }

  lemma PlayThree(s: State, a: Event, b: Event, c: Event)
    ensures Play(s, [a, b, c]) == Apply(Apply(Apply(s, a), b), c)
  {
    hide Apply, Play;
    assert [a, b, c] == [a] + [b, c] && [b, c] == [b] + [c];
    PlayFirst(s, a, [b, c]);
    PlayFirst(Apply(s, a), b, [c]);
    PlayOne(Apply(Apply(s, a), b), c);
  }

  lemma AloneFacts(s: State)
    requires SeqInv(s) && OrderCore(s) && s.orig.None? && s.queue == [] && |s.driver| == 1 && s.driver[0].kind.Fs?
    ensures s.ordseq == {} && DrainMode(s.next) && s.inFlight == 1
    ensures s.driver[0].started && s.driver[0].color == s.ordcolor
  {
    hide ConsOk, Sorted, SchedOk, QueueOk, Waiting;
    Idle(s, Held(s));
    AllEnded(s);
    assert DriverOk(s, s.driver[0]);
    FlightOne(s.driver[0]);
    assert s.driver == [s.driver[0]];
  }

  // ----- exactly when the request does harm

  /** The invariants say nothing of the colours to give, but for the newest epoch. */
  lemma DyedGood(s: State, id: nat, front: bool)
    requires Good(s)
    ensures Good(Dyed(AddSpecial(s, id, front, true), s.ordcolor, s.colors))
  {
    hide SeqInv, OrderCore, Contrast, KnownAll, Moving;
    var t := AddSpecial(s, id, front, true);
    var u := Dyed(t, s.ordcolor, s.colors);
    AddSpecialSeq(s, id, front, true);
    DyedSeq(t, s.ordcolor, s.colors);
    SpecialComesIn(s, id, front, true);
    DyedContrast(s, id, front);
    AddSpecialKnown(s, id, front, true);
    SchedFs(s);
    AddSpecialMoves(s, id, front, true);
    DyedMoving(t, s.ordcolor, s.colors);
  }

  lemma SchedFs(s: State)
    requires SeqInv(s)
    ensures forall i :: 0 <= i < |s.sched| ==> s.sched[i].kind.Fs?
  {
  }

  lemma DyedSeq(s: State, o: bool, c: seq<bool>)
    requires SeqInv(s)
    ensures SeqInv(Dyed(s, o, c))
  {
    hide SeqOk, ConsOk, Tags;
    OkTransfer(s, Dyed(s, o, c), Held(s));
  }

  lemma DyedMoving(s: State, o: bool, c: seq<bool>)
    requires Moving(s)
    ensures Moving(Dyed(s, o, c))
  {
  }

  lemma DyedContrast(s: State, id: nat, front: bool)
    requires OrderInv(s)
    ensures Contrast(Dyed(AddSpecial(s, id, front, true), s.ordcolor, s.colors))
  {
    hide OrderCore, AddSpecial, Color;
    var t := AddSpecial(s, id, front, true);
    var u := Dyed(t, s.ordcolor, s.colors);
    SpecialLot(s, id, front);
    forall e | u.done <= e < u.added && SameColor(u, e) ensures Passing(u, e) {
      DyedColor(s, u, e);
      assert SameColor(s, e) && Passing(s, e);
      SpecialPasses(s, id, front, true, e);
    }
  }

  lemma DyedColor(s: State, u: State, e: nat)
    requires u.colors == s.colors
    ensures SameColor(u, e) == SameColor(s, e)
  {
  }

  lemma SpecialLot(s: State, id: nat, front: bool)
    ensures var t := AddSpecial(s, id, front, true);
            && t.next == s.next && t.added == s.added && t.done == s.done && t.accepted == s.accepted
            && t.epochOf == s.epochOf && t.ended == s.ended && t.orig == s.orig && t.ordcolor == !s.ordcolor
  {
  }

  /** A request of the newest epoch that is held has not been ended. */
  lemma HeldPending(s: State) returns (id: nat)
    requires Good(s) && !NoneOf(s, s.added)
    ensures Pending(s, id)
  {
    hide SeqOk, Tags, EndedIds, OrderInv, Moving;
    var q := if !NoneIn(s.queue, s.added) then s.queue else if !NoneIn(s.sched, s.added) then s.sched else s.driver;
    var i :| 0 <= i < |q| && q[i].kind.Fs? && q[i].epoch == s.added;
    assert KnownRq(s.epochOf, q[i]);
    id := q[i].id;
    TagsMember(q, i);
    assert (Fs, id) in Tags(q);
    assert Held(s)[(Fs, id)] >= 1;
    assert Held(s)[(Fs, id)] + OrigCount(s, id) + EndedIds(s.ended)[id] == multiset(s.accepted)[id];
    assert multiset(s.accepted)[id] <= 1;
  }

  /** Passing is not undone by taking the special request away again. */
  lemma SpecialPassed(s: State, id: nat, front: bool, e: nat)
    requires Passing(Dyed(AddSpecial(s, id, front, true), s.ordcolor, s.colors), e)
    ensures Passing(s, e)
  {
    var u := Dyed(AddSpecial(s, id, front, true), s.ordcolor, s.colors);
    forall i | 0 <= i < |s.queue| ensures PassingRq(s.queue[i], e) {
      assert PassingRq(u.queue[if front then i + 1 else i], e);
    }
  }

  lemma SpecialCloses(s: State, id: nat, front: bool)
    requires Closing(s)
    ensures Closing(Dyed(AddSpecial(s, id, front, true), s.ordcolor, s.colors))
  {
    hide Passing, NoneOf, AddSpecial;
    SpecialLot(s, id, front);
    SpecialNone(s, id, front, true);
    var u := Dyed(AddSpecial(s, id, front, true), s.ordcolor, s.colors);
    if Passing(u, s.added - 1) {
      SpecialPassed(s, id, front, s.added - 1);
    }
  }

  /** Going on from the state with the toggled colour, first without additions. */
  lemma PlayDyed(s: State, id: nat, front: bool, es: seq<Event>, more: seq<Event>)
    requires Moves(es)
    ensures var t := AddSpecial(s, id, front, true);
            Play(t, es + more) == Play(Dyed(Play(Dyed(t, s.ordcolor, s.colors), es), !s.ordcolor, t.colors), more)
  {
    hide Play, AddSpecial, Apply;
    var t := AddSpecial(s, id, front, true);
    var u := Dyed(t, s.ordcolor, s.colors);
    SpecialLot(s, id, front);
    assert t == Dyed(u, !s.ordcolor, t.colors);
    BlindPlay(u, es, !s.ordcolor, t.colors);
    PlayConcat(t, es, more);
  }

  lemma MovesNotHard(es: seq<Event>, more: seq<Event>)
    requires Moves(es) && forall i :: 0 <= i < |more| ==> !more[i].EAddSpecial?
    ensures NoHardSpecial(es + more)
  {
    forall i | 0 <= i < |es + more| ensures !(es + more)[i].EAddSpecial? {
      assert i < |es| ==> Move(es[i]);
    }
  }

  /** A request of the newest epoch waits: a barrier added after the toggle overtakes it. */
  lemma HarmToRequest(s: State, id: nat, front: bool) returns (more: seq<Event>)
    requires Good(s) && !NoneOf(s, s.added)
    ensures NoHardSpecial(more) && !Safe(Play(AddSpecial(s, id, front, true), more))
  {
    hide Good, Pending, NoneOf, AddSpecial, Play, Safe, Moves, NoHardSpecial;
    var r := HeldPending(s);
    var u := Dyed(AddSpecial(s, id, front, true), s.ordcolor, s.colors);
    DyedGood(s, id, front);
    SpecialLot(s, id, front);
    SpecialPends(s, u, r);
    var es := DriveAll(u, r);
    var v := Play(u, es);
    var fs := DriveAlone(v, r);
    MovesConcat(es, fs);
    PlayConcat(u, es, fs);
    var x := Play(v, fs);
    var w := Above(x.accepted);
    AboveAll(x.accepted, w);
    AboveAll(x.accepted, w + 1);
    var last := [EAddFs(w, false, false, true), EAddFs(w + 1, true, false, false), EFetch(true), EFetch(true)]
                + [ERequeue(0), EComplete(0, 0), EFetch(true)];
    Overtaken(x, r, w, w + 1, AddSpecial(s, id, front, true).colors);
    PlayDyed(s, id, front, es + fs, last);
    MovesNotHard(es + fs, last);
    more := (es + fs) + last;
  }

  lemma SpecialPends(s: State, u: State, id: nat)
    requires Pending(s, id) && u.epochOf == s.epochOf && u.added == s.added && u.ended == s.ended
    ensures Pending(u, id)
  {
  }

  lemma MovesConcat(a: seq<Event>, b: seq<Event>)
    requires Moves(a) && Moves(b)
    ensures Moves(a + b)
  {
  }

  /** The last barrier has not ended: a request added after the toggle overtakes it. */
  lemma HarmToBarrier(s: State, id: nat, front: bool) returns (more: seq<Event>)
    requires Good(s) && Closing(s) && !SameColor(s, s.added - 1)
    ensures NoHardSpecial(more) && !Safe(Play(AddSpecial(s, id, front, true), more))
  {
    hide SeqInv, OrderInv, Known, Moving, Closing, AddSpecial, Play, Safe, Moves, NoHardSpecial, Color;
    var u := Dyed(AddSpecial(s, id, front, true), s.ordcolor, s.colors);
    DyedGood(s, id, front);
    SpecialLot(s, id, front);
    SpecialCloses(s, id, front);
    var es := DriveToLast(u);
    var x := Play(u, es);
    CoreOf(x);
    LastRuns(x);
    ClosingOpen(s);
    DyedColor(s, x, s.added - 1);
    var z := Above(x.accepted);
    AboveAll(x.accepted, z);
    var last := [EAddFs(z, false, false, true), EFetch(true)];
    Overtakes(x, z, AddSpecial(s, id, front, true).colors);
    PlayDyed(s, id, front, es, last);
    MovesNotHard(es, last);
    more := es + last;
  }

  lemma CoreOf(s: State)
    requires OrderInv(s)
    ensures OrderCore(s)
  {
  }

  lemma ClosingOpen(s: State)
    requires Closing(s)
    ensures s.done < s.added
  {
  }

  lemma NotHarmless(s: State)
    requires !Harmless(s)
    ensures !NoneOf(s, s.added) || (Closing(s) && !SameColor(s, s.added - 1))
  {
  }

  lemma Harm(s: State, id: nat, front: bool) returns (more: seq<Event>)
    requires Good(s) && !Harmless(s)
    ensures NoHardSpecial(more) && !Safe(Play(AddSpecial(s, id, front, true), more))
  {
    hide Good, Harmless, Closing, NoneOf, AddSpecial, Play, Safe, NoHardSpecial;
    NotHarmless(s);
    if !NoneOf(s, s.added) {
      more := HarmToRequest(s, id, front);
    } else {
      ClosingOpen(s);
      more := HarmToBarrier(s, id, front);
    }
  }

  /** All ways to go on without another such request are safe. */
  ghost predicate SafeFrom(mode: Mode, es: seq<Event>) {
    forall more :: NoHardSpecial(more) ==> Safe(Run(mode, es + more))
  }

  lemma {:induction false} CalmOn(mode: Mode, es: seq<Event>, more: seq<Event>)
    requires Calm(mode, es) && NoHardSpecial(more)
    ensures Calm(mode, es + more)
    decreases |more|
  {
    hide Harmless, Run;
    if more == [] {
      assert es + more == es;
    } else {
      assert (es + more)[..|es + more|-1] == es + more[..|more|-1];
      CalmOn(mode, es, more[..|more|-1]);
    }
  }

  lemma CalmWith(mode: Mode, es: seq<Event>, e: Event)
    requires Calm(mode, es) && (e.EAddSpecial? && e.hard ==> Harmless(Run(mode, es)))
    ensures Calm(mode, es + [e])
  {
    hide Harmless, Run;
    assert (es + [e])[..|es|] == es;
  }

  /** On a queue ordered by draining, after any run in which such requests came at harmless
      moments only: adding one more is safe, whatever follows, exactly when nothing added
      since the last barrier is held, and that barrier has ended or will end as soon as it
      gets to the head of the queue. */
  lemma HardSpecialSafeIff(mode: Mode, es: seq<Event>, id: nat, front: bool)
    requires DrainMode(mode) && Calm(mode, es)
    ensures SafeFrom(mode, es + [EAddSpecial(id, front, true)]) <==> Harmless(Run(mode, es))
  {
    hide Good, Harmless, Calm, Run, Safe, NoHardSpecial, Play;
    var e := EAddSpecial(id, front, true);
    var s := Run(mode, es);
    if Harmless(s) {
      CalmWith(mode, es, e);
      forall more | NoHardSpecial(more) ensures Safe(Run(mode, es + [e] + more)) {
        CalmOn(mode, es + [e], more);
        CalmRunsSafe(mode, es + [e] + more);
      }
    } else {
      RunsGood(mode, es);
      var more := Harm(s, id, front);
      RunPlay(mode, es + [e], more);
      RunPlay(mode, es, [e]);
      PlayOne(s, e);
      assert !Safe(Run(mode, es + [e] + more));
    }
  }

  lemma RunsGood(mode: Mode, es: seq<Event>)
    requires DrainMode(mode) && Calm(mode, es)
    ensures Good(Run(mode, es))
  {
    hide SeqInv, OrderInv, Known, Moving, Calm, Run;
    EveryRunOrdered(mode, es);
    EveryRunKnown(mode, es);
    EveryRunMoves(mode, es);
  }

  /** A barrier, a special request with REQ_HARDBARRIER behind it, a plain request behind that;
      then the driver fetches three times. */
  const COLOUR_RUN: seq<Event> := [
    EAddFs(1, true, false, false), EAddSpecial(2, false, true), EAddFs(3, false, false, true),
    EFetch(true), EFetch(true), EFetch(true)]

  /** The plain request is at the driver while the barrier before it is still running. */
  lemma ColourRunUnsafe()
    ensures !Safe(Run(DRAIN, COLOUR_RUN))
  {
    hide Play, Fetch, EndedIds, Run;
    var b := Rq(1, Fs, true, false, false, 0, true, false);
    var x := Rq(2, Special, true, false, true, 1, true, false);
    var r := Rq(3, Fs, false, false, false, 1, true, false);
    var s0 := Run(DRAIN, COLOUR_RUN[..3]);
    ColourRunQueued();
    assert COLOUR_RUN == COLOUR_RUN[..3] + [EFetch(true), EFetch(true), EFetch(true)];
    RunPlay(DRAIN, COLOUR_RUN[..3], [EFetch(true), EFetch(true), EFetch(true)]);
    PlayThree(s0, EFetch(true), EFetch(true), EFetch(true));
    FirstFetch(s0);
    var s1 := Fetch(s0, true);
    assert s1.queue == [x, r];
    SpecialFetch(s1);
    var s2 := Fetch(s1, true);
    assert s2.queue == [r];
    FetchSameColour(s2);
    var s3 := Fetch(s2, true);
    NoneEnded(1);
    assert s3.driver[2].kind.Fs? && 1 in s3.epochOf && s3.epochOf[1] < s3.driver[2].epoch;
    assert !SafeAt(s3, s3.driver[2]);
  }

  lemma NoneEnded(id: nat)
    ensures EndedIds([])[id] == 0
  {
  }

  lemma ColourRunQueued()
    ensures var b := Rq(1, Fs, true, false, false, 0, true, false);
            var x := Rq(2, Special, true, false, true, 1, true, false);
            var r := Rq(3, Fs, false, false, false, 1, true, false);
            Run(DRAIN, COLOUR_RUN[..3]) ==
            Init(DRAIN).(queue := [b, x, r], added := 1, colors := [false, false], accepted := [1, 3],
                         epochOf := map[1 := 0, 3 := 1])
  {
    var e1, e2, e3 := COLOUR_RUN[0], COLOUR_RUN[1], COLOUR_RUN[2];
    assert COLOUR_RUN[..3] == [] + [e1] + [e2] + [e3];
    RunSteps(DRAIN, [], e1);
    RunSteps(DRAIN, [] + [e1], e2);
    RunSteps(DRAIN, [] + [e1] + [e2], e3);
  }

  /** The barrier at the head of an idle queue starts its sequence and goes out. */
  lemma FirstFetch(s: State)
    requires s.next == DRAIN && s.ordseq == {} && s.inFlight == 0 && s.queue != []
    requires s.queue[0].kind.Fs? && s.queue[0].barrier && !s.queue[0].empty && !s.queue[0].started
    ensures var s' := Fetch(s, true);
            && s'.queue == s.queue[1..] && s'.orig == Some(s.queue[0]) && s'.ordered == DRAIN && s'.ordseq != {}
            && |s'.driver| == |s.driver| + 1 && s'.ended == s.ended && s'.epochOf == s.epochOf
  {
    var s1 := Begin(s);
    assert s1.ordered == DRAIN && Skipped(DRAIN, false) == {SEQ_DRAIN, SEQ_PREFLUSH, SEQ_POSTFLUSH};
    assert s1.ordseq == {STARTED};
    assert Proxies(s.queue[0], DRAIN) == [Proxy(s.queue[0], Bar)];
    var s2 := StartOrdered(s);
    assert s2.ordseq == {STARTED, SEQ_DRAIN, SEQ_PREFLUSH, SEQ_POSTFLUSH};
    assert s2.queue[1..] == s.queue[1..];
    assert NextRequest(s) == (true, s2);
  }

  lemma SpecialFetch(s: State)
    requires s.ordseq != {} && s.queue != [] && s.queue[0].kind.Special?
    ensures Fetch(s, true) == s.(queue := s.queue[1..], driver := s.driver + [s.queue[0].(started := true)])
  {
    assert NextRequest(s) == (true, s);
  }

  /** What is held does not settle it: an empty barrier on its own does no harm, one that has
      something to write does. */
  lemma OneBarrierHarmlessIff(empty: bool)
    ensures Harmless(Run(DRAIN, [EAddFs(1, true, empty, false)])) <==> empty
    ensures Run(DRAIN, [EAddFs(1, true, empty, false)]).queue != []
  {
    var b := Rq(1, Fs, true, empty, false, 0, true, false);
    RunSteps(DRAIN, [], EAddFs(1, true, empty, false));
    assert [] + [EAddFs(1, true, empty, false)] == [EAddFs(1, true, empty, false)];
    var s := Run(DRAIN, [EAddFs(1, true, empty, false)]);
    assert s.queue == [b] && s.colors == [false, true] && s.added == 1;
    assert !SameColor(s, 0);
    assert PassingRq(s.queue[0], 0) <==> empty;
  }

  /** The condition is one on the requests alone: after such a run, an epoch that has the colour
      of the next is over or just passing. */
  lemma HarmlessPlainly(mode: Mode, es: seq<Event>)
    requires DrainMode(mode) && Calm(mode, es)
    ensures var s := Run(mode, es);
            Harmless(s) <==> NoneOf(s, s.added) && (s.done < s.added ==> Passing(s, s.added - 1))
  {
    hide Run, Calm, NoneOf, Passing, SameColor, OrderCore;
    EveryRunOrdered(mode, es);
  }
}
