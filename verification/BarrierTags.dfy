/** What holds of barriers in every ordered mode, tag modes included: a barrier never reaches
    the driver as such, one sequence runs at a time, and ordering by tag holds nothing back
    but the next barrier.
 */
module BarrierTags {
  import opened Lists
  import opened Barrier
  import opened BarrierSequence
  import opened BarrierOrder
  import opened BarrierProgress

  predicate TagMode(m: Mode) { m == TAG || m == TAG_FLUSH || m == TAG_FUA }

  /** A barrier as it was added, not one of the queue's own requests. */
  predicate Raw(r: Rq) { r.kind.Fs? && r.barrier }

  ghost predicate Clear(q: seq<Rq>) {
    forall i :: 0 <= i < |q| ==> !Raw(q[i])
  }

  /** The barriers of a queue, in order. */
  function Raws(q: seq<Rq>): seq<Rq> {
    if q == [] then [] else (if Raw(q[0]) then [q[0]] else []) + Raws(q[1..])
  }

  lemma {:induction false} RawsConcat(a: seq<Rq>, b: seq<Rq>)
    ensures Raws(a + b) == Raws(a) + Raws(b)
  {
    hide Raw;
    if a == [] {
      assert a + b == b;
    } else {
      var first := if Raw(a[0]) then [a[0]] else [];
      assert (a + b)[1..] == a[1..] + b && (a + b)[0] == a[0];
      RawsConcat(a[1..], b);
      assert first + (Raws(a[1..]) + Raws(b)) == (first + Raws(a[1..])) + Raws(b);
    }
  }

  lemma {:induction false} RawsClear(q: seq<Rq>)
    requires Clear(q)
    ensures Raws(q) == []
  {
    if q != [] {
      assert !Raw(q[0]);
      RawsClear(q[1..]);
    }
  }

  lemma RawsOne(rq: Rq)
    ensures Raws([rq]) == if Raw(rq) then [rq] else []
  {
    assert [rq][1..] == [];
  }

  lemma RawsInsert(q: seq<Rq>, p: nat, rq: Rq)
    requires p <= |q| && !Raw(rq)
    ensures Raws(q[..p] + [rq] + q[p..]) == Raws(q)
  {
    hide Raws;
    RawsConcat(q[..p] + [rq], q[p..]);
    RawsConcat(q[..p], [rq]);
    RawsOne(rq);
    RawsConcat(q[..p], q[p..]);
    assert q[..p] + q[p..] == q;
  }

  /** The first barrier of a queue is the first of its barriers. */
  lemma {:induction false} FirstRaw(q: seq<Rq>, i: nat)
    requires i < |q| && Raw(q[i]) && forall j :: 0 <= j < i ==> !Raw(q[j])
    ensures Raws(q) != [] && Raws(q)[0] == q[i]
    decreases i
  {
    if i > 0 {
      assert !Raw(q[0]);
      FirstRaw(q[1..], i - 1);
    }
  }

  /** The barriers that wait, behind the one that runs. */
  function Line(s: State): seq<Rq> {
    (if s.orig.Some? then [s.orig.value] else []) + Raws(s.queue)
  }

  /** Neighbours differ in colour, and the last from the colour given next. */
  ghost predicate Alternates(line: seq<Rq>, color: bool) {
    && (forall i {:trigger line[i]} :: 0 <= i < |line| - 1 ==> line[i].color != line[i+1].color)
    && (line != [] ==> line[|line|-1].color != color)
  }

  /** No proxy stands behind a waiting barrier. */
  ghost predicate ProxiesFirst(q: seq<Rq>) {
    forall i, j :: 0 <= i < j < |q| && Raw(q[i]) ==> !IsProxy(q[j].kind)
  }

  /** A mode in which every sequence is ordered by tag, or in which there is none. */
  predicate NeverDrains(m: Mode) { m == NONE || (m.byTag && m.doPre) }

  /** The invariant; `calm` if no special request with REQ_HARDBARRIER has been added. */
  ghost predicate RawInv(s: State, calm: bool) {
    && Clear(s.sched) && Clear(s.driver)
    && (s.orig.Some? ==>
          && s.next != NONE && s.ordered == SequenceMode(s.next, s.orig.value.empty)
          && Skipped(s.ordered, true) <= s.ordseq)
    && (calm ==> Alternates(Line(s), s.ordcolor) && ProxiesFirst(s.queue))
  }

  /** The same line, in a queue that changed in other places only. */
  lemma SameLine(s: State, s': State, calm: bool)
    requires RawInv(s, calm) && Raws(s'.queue) == Raws(s.queue) && (calm ==> ProxiesFirst(s'.queue))
    requires s'.orig == s.orig && s'.ordcolor == s.ordcolor && s'.next == s.next
    requires s'.ordered == s.ordered && s.ordseq <= s'.ordseq && Clear(s'.sched) && Clear(s'.driver)
    ensures RawInv(s', calm)
  {
    hide Raws, Alternates, ProxiesFirst, SequenceMode, Skipped;
  }

  lemma ClearWithout(q: seq<Rq>, i: nat)
    requires Clear(q) && i < |q|
    ensures Clear(q[..i] + q[i+1..]) && !Raw(q[i])
  {
  }

  lemma InsertFirst(q: seq<Rq>, p: nat, rq: Rq)
    requires ProxiesFirst(q) && p <= |q| && !Raw(rq)
    requires IsProxy(rq.kind) ==> forall i :: 0 <= i < p ==> !Raw(q[i])
    ensures ProxiesFirst(q[..p] + [rq] + q[p..])
  {
    var r := q[..p] + [rq] + q[p..];
    forall i, j | 0 <= i < j < |r| && Raw(r[i]) ensures !IsProxy(r[j].kind) {
      var a, b := if i < p then i else i - 1, if j < p then j else j - 1;
      assert i != p && r[i] == q[a];
      if j != p {
        assert r[j] == q[b] && Raw(q[a]) && a < b;
      }
    }
  }

  // ----- adding

  lemma AddFsRaw(s: State, id: nat, barrier: bool, empty: bool, back: bool, calm: bool)
    requires SeqInv(s) && RawInv(s, calm)
    ensures RawInv(AddFs(s, id, barrier, empty, back), calm)
  {
    hide Raws, Alternates, ProxiesFirst, SequenceMode, Skipped, SeqOk, ConsOk;
    var s' := AddFs(s, id, barrier, empty, back);
    var rq := Rq(id, Fs, barrier, empty, s.ordcolor, s.added, false, false);
    if !barrier && !back {
      SameLine(s, s', calm);
    } else {
      var r := rq.(soft := true);
      RawsConcat(s.queue + s.sched, [r]);
      RawsConcat(s.queue, s.sched);
      RawsClear(s.sched);
      RawsOne(r);
      if calm {
        BackFirst(s.queue, s.sched, r);
      }
      if barrier {
        if calm {
          AppendAlternates(Line(s), s.ordcolor, r);
          assert Line(s') == Line(s) + [r];
        }
      } else {
        SameLine(s, s', calm);
      }
    }
  }

  lemma BackFirst(q: seq<Rq>, sched: seq<Rq>, rq: Rq)
    requires ProxiesFirst(q) && !IsProxy(rq.kind) && forall i :: 0 <= i < |sched| ==> sched[i].kind.Fs?
    ensures ProxiesFirst(q + sched + [rq])
  {
  }

  lemma AppendAlternates(line: seq<Rq>, color: bool, rq: Rq)
    requires Alternates(line, color) && rq.color == color
    ensures Alternates(line + [rq], !color)
  {
  }

  lemma AddSpecialRaw(s: State, id: nat, front: bool, hard: bool, calm: bool)
    requires SeqInv(s) && RawInv(s, calm) && (calm ==> !hard)
    ensures RawInv(AddSpecial(s, id, front, hard), calm)
  {
    hide Raws, Alternates, ProxiesFirst, SequenceMode, Skipped, SeqOk, ConsOk;
    var rq := Rq(id, Special, hard, false, s.ordcolor, s.added, true, false);
    var s' := AddSpecial(s, id, front, hard);
    RawsOne(rq);
    if front {
      RawsConcat([rq], s.queue);
      if calm {
        InsertFirst(s.queue, 0, rq);
        assert s.queue[..0] + [rq] + s.queue[0..] == [rq] + s.queue;
      }
    } else {
      RawsConcat(s.queue + s.sched, [rq]);
      RawsConcat(s.queue, s.sched);
      RawsClear(s.sched);
      if calm {
        BackFirst(s.queue, s.sched, rq);
      }
    }
    if calm {
      SameLine(s, s', calm);
    }
  }

  lemma DispatchRaw(s: State, i: nat, p: nat, calm: bool)
    requires SeqInv(s) && RawInv(s, calm)
    ensures RawInv(Dispatch(s, i, p), calm)
  {
    hide Raws, Alternates, ProxiesFirst, SequenceMode, Skipped, SeqOk, ConsOk;
    if i < |s.sched| && DispatchPoint(s.queue, p) {
      ClearWithout(s.sched, i);
      RawsInsert(s.queue, p, s.sched[i]);
      if calm {
        InsertFirst(s.queue, p, s.sched[i]);
      }
      SameLine(s, Dispatch(s, i, p), calm);
    }
  }

  // ----- requeueing

  lemma RequeueRaw(s: State, i: nat, calm: bool)
    requires SeqInv(s) && RawInv(s, calm)
    ensures RawInv(Requeue(s, i), calm)
  {
    hide Raws, Alternates, ProxiesFirst, SequenceMode, Skipped, SeqInv, RequeuePoint;
    if i < |s.driver| {
      var rq := s.driver[i].(started := false, soft := true);
      var p := if s.ordseq == {} || s.orig.None? then 0 else RequeuePoint(s, s.queue, rq);
      ClearWithout(s.driver, i);
      RawsInsert(s.queue, p, rq);
      if calm {
        if p > 0 && IsProxy(rq.kind) {
          AheadOfRaws(s, p, rq);
        }
        InsertFirst(s.queue, p, rq);
      }
      SameLine(s, Requeue(s, i), calm);
    }
  }

  /** A proxy goes back ahead of the waiting barriers. */
  lemma AheadOfRaws(s: State, p: nat, rq: Rq)
    requires s.orig.Some? && Alternates(Line(s), s.ordcolor) && IsProxy(rq.kind)
    requires p == RequeuePoint(s, s.queue, rq)
    ensures forall i :: 0 <= i < p ==> !Raw(s.queue[i])
  {
    hide RequeuePoint, Raws;
    RequeuePointFacts(s, s.queue, rq);
    var i := 0;
    while i < p
      invariant 0 <= i <= p && forall j :: 0 <= j < i ==> !Raw(s.queue[j])
    {
      FirstRawLast(s, i);
      i := i + 1;
    }
  }

  /** The first barrier in the queue is to wait for the end of the sequence. */
  lemma FirstRawLast(s: State, i: nat)
    requires s.orig.Some? && Alternates(Line(s), s.ordcolor)
    requires i < |s.queue| && forall j :: 0 <= j < i ==> !Raw(s.queue[j])
    ensures Raw(s.queue[i]) ==> ReqSeq(s, s.queue[i]) == SEQ_DONE
  {
    hide Raws;
    if Raw(s.queue[i]) {
      FirstRaw(s.queue, i);
      assert Line(s)[0] == s.orig.value && Line(s)[1] == s.queue[i];
    }
  }

  // ----- the end of a sequence

  lemma TailAlternates(line: seq<Rq>, color: bool)
    requires Alternates(line, color) && line != []
    ensures Alternates(line[1..], color)
  {
  }

  lemma CompleteSeqRaw(s: State, steps: set<nat>, error: int, calm: bool)
    requires RawInv(s, calm) && s.orig.Some?
    ensures RawInv(CompleteSeq(s, steps, error), calm)
  {
    hide Raws, Alternates, ProxiesFirst, SequenceMode, Skipped;
    var s' := CompleteSeq(s, steps, error);
    if s'.orig.None? {
      if calm {
        TailAlternates(Line(s), s.ordcolor);
        assert Line(s)[1..] == Line(s');
      }
    } else {
      SameLine(s, s', calm);
    }
  }

  lemma CompleteRaw(s: State, i: nat, error: int, calm: bool)
    requires SeqInv(s) && RawInv(s, calm)
    ensures RawInv(Complete(s, i, error), calm)
  {
    hide Raws, Alternates, ProxiesFirst, SequenceMode, Skipped, SeqInv, CompleteSeq, RawInv, ReqSeq, CurSeq;
    if i < |s.driver| {
      var rq := s.driver[i];
      var s0 := s.(driver := s.driver[..i] + s.driver[i+1..],
                   ended := if rq.kind.Fs? then s.ended + [(rq.id, error)] else s.ended);
      var s1 := s0.(inFlight := if rq.Accounted() then s0.inFlight - 1 else s0.inFlight);
      OffDriverRaw(s, s1, i, calm);
      var s2 := Completed(s0, rq);
      assert RawInv(s2, calm) by {
        if s2 != s1 {
          assert s2 == CompleteSeq(s1, {SEQ_DRAIN}, 0);
          CompleteSeqRaw(s1, {SEQ_DRAIN}, 0, calm);
        }
      }
      if IsProxy(rq.kind) {
        DriverProxies(s);
        StillRuns(s, i, error);
        CompleteSeqRaw(s2, {StepOf(rq.kind)}, error, calm);
      }
    }
  }

  lemma OffDriverRaw(s: State, s': State, i: nat, calm: bool)
    requires RawInv(s, calm) && i < |s.driver|
    requires s'.driver == s.driver[..i] + s.driver[i+1..] && s'.sched == s.sched && s'.queue == s.queue
    requires s'.orig == s.orig && s'.ordcolor == s.ordcolor && s'.next == s.next
    requires s'.ordered == s.ordered && s'.ordseq == s.ordseq
    ensures RawInv(s', calm)
  {
    hide Raws, Alternates, ProxiesFirst, SequenceMode, Skipped;
    ClearWithout(s.driver, i);
    SameLine(s, s', calm);
  }

  /** A sequence with a proxy at the driver is not ended by the drain step. */
  lemma StillRuns(s: State, i: nat, error: int)
    requires SeqInv(s) && i < |s.driver| && IsProxy(s.driver[i].kind)
    ensures var rq := s.driver[i];
            var s0 := s.(driver := s.driver[..i] + s.driver[i+1..],
                         ended := if rq.kind.Fs? then s.ended + [(rq.id, error)] else s.ended);
            Completed(s0, rq).orig == s.orig && s.orig.Some?
  {
    hide SeqInv, ReqSeq;
    DriverProxies(s);
  }

  // ----- handing out

  /** Starting a sequence moves the first in line from the queue into the running place. */
  lemma BeginRaw(s: State, calm: bool)
    requires SeqInv(s) && RawInv(s, calm) && s.queue != [] && Raw(s.queue[0]) && s.orig.None?
    ensures var s' := Begin(s); Clear(s'.sched) && Clear(s'.driver)
    ensures var s' := Begin(s); s'.ordered == SequenceMode(s'.next, s'.orig.value.empty)
    ensures var s' := Begin(s); calm ==> Alternates(Line(s'), s'.ordcolor) && ProxiesFirst(s'.queue)
  {
    hide Raws, Alternates, ProxiesFirst, SequenceMode, Skipped, SeqInv, Proxies;
    var rq, rest := s.queue[0], s.queue[1..];
    var mode := SequenceMode(s.next, rq.empty);
    ProxiesInOrder(rq, mode);
    RawsClear(Proxies(rq, mode));
    RawsConcat(Proxies(rq, mode), rest);
    assert s.queue == [rq] + rest;
    RawsConcat([rq], rest);
    RawsOne(rq);
    assert Line(Begin(s)) == Line(s);
    QueueProxies(s);
    NoProxyBehind(Proxies(rq, mode), rest);
  }

  lemma NoProxyBehind(ps: seq<Rq>, rest: seq<Rq>)
    requires Clear(ps) && forall i :: 0 <= i < |rest| ==> !IsProxy(rest[i].kind)
    ensures ProxiesFirst(ps + rest)
  {
  }

  lemma StartRaw(s: State, calm: bool)
    requires SeqInv(s) && RawInv(s, calm) && s.queue != [] && Raw(s.queue[0]) && s.orig.None? && s.ordseq == {} && s.next != NONE
    ensures var s' := StartOrdered(s);
            RawInv(s', calm) && (AfterStart(s').Take? ==> s'.queue != [] && !Raw(s'.queue[0]))
  {
    hide Raws, Alternates, ProxiesFirst, SequenceMode, SeqInv, Proxies, Skipped, CurSeq;
    BeginRaw(s, calm);
    var s1, s' := Begin(s), StartOrdered(s);
    var skip := Skipped(s1.ordered, s1.inFlight != 0);
    SkippedMore(s1.ordered, s1.inFlight != 0);
    StartHead(s);
    if s'.orig.None? {
      if calm {
        TailAlternates(Line(s1), s.ordcolor);
        assert Line(s1)[1..] == Line(s');
      }
    }
  }

  lemma SkippedMore(mode: Mode, busy: bool)
    ensures Skipped(mode, true) <= Skipped(mode, busy)
  {
  }

  /** A sequence that waits for nothing and is not over has a proxy at the head. */
  lemma StartHead(s: State)
    requires s.queue != [] && s.ordseq == {}
    ensures var s' := StartOrdered(s); AfterStart(s').Take? ==> s'.queue != [] && !s'.queue[0].kind.Fs?
  {
  }

  lemma DoOrderedRaw(s: State, calm: bool)
    requires SeqInv(s) && RawInv(s, calm) && (calm || NeverDrains(s.next)) && s.queue != []
    ensures var (v, s') := DoOrdered(s); RawInv(s', calm) && (v.Take? ==> s'.queue != [] && !Raw(s'.queue[0]))
    ensures DoOrdered(s).1.next == s.next
  {
    hide Raws, Alternates, ProxiesFirst, SequenceMode, SeqInv, StartOrdered, AfterStart, Skipped, ReqSeq;
    IdleIff(s);
    StartNext(s);
    if s.ordseq == {} {
      HeadKind(s);
      if Raw(s.queue[0]) {
        if s.next != NONE {
          StartRaw(s, calm);
        } else {
          RefuseRaw(s, DoOrdered(s).1, calm);
        }
      }
    } else if Raw(s.queue[0]) {
      RawBlocked(s, calm);
    }
  }

  lemma StartNext(s: State)
    ensures s.queue != [] ==> StartOrdered(s).next == s.next
  {
  }

  lemma IdleIff(s: State)
    requires SeqInv(s)
    ensures s.ordseq == {} <==> s.orig.None?
  {
    hide CurSeq, FirstError, ConsOk;
  }

  lemma HeadKind(s: State)
    requires SeqInv(s) && s.ordseq == {} && s.queue != []
    ensures s.queue[0].kind.Fs? || s.queue[0].kind.Special?
  {
    hide SeqOk, ConsOk, Held;
    HeadHeld(s);
    HeadIsFs(s);
  }

  /** Without ordering a barrier is taken off the line. */
  lemma RefuseRaw(s: State, s': State, calm: bool)
    requires RawInv(s, calm) && s.queue != [] && Raw(s.queue[0]) && s.orig.None?
    requires s'.queue == s.queue[1..] && s'.orig == s.orig && s'.ordcolor == s.ordcolor
    requires s'.sched == s.sched && s'.driver == s.driver
    ensures RawInv(s', calm)
  {
    hide Alternates, SequenceMode, Skipped;
    if calm {
      TailAlternates(Line(s), s.ordcolor);
      assert Line(s)[1..] == Line(s');
    }
  }

  /** While a sequence runs, a barrier at the head waits. */
  lemma RawBlocked(s: State, calm: bool)
    requires SeqInv(s) && RawInv(s, calm) && (calm || NeverDrains(s.next))
    requires s.queue != [] && Raw(s.queue[0]) && s.orig.Some? && s.ordseq != {}
    ensures DoOrdered(s) == (Blocked, s)
  {
    hide Raws, ProxiesFirst, SeqInv, Skipped, CurSeq;
    BitsOpen(s);
    if !s.ordered.byTag {
      assert calm;
      FirstRawLast(s, 0);
    }
  }

  lemma BitsOpen(s: State)
    requires SeqInv(s) && s.orig.Some?
    ensures CurSeq(s.ordseq) < SEQ_DONE
  {
    hide FirstError, ConsOk;
  }

  lemma {:induction false} NextRequestRaw(s: State, calm: bool)
    requires SeqInv(s) && RawInv(s, calm) && (calm || NeverDrains(s.next))
    ensures var (ok, s') := NextRequest(s); RawInv(s', calm) && (ok ==> s'.queue != [] && !Raw(s'.queue[0]))
    ensures NextRequest(s).1.next == s.next
    decreases |s.queue|
  {
    hide SeqInv, RawInv, DoOrdered;
    if s.queue != [] {
      DoOrderedSeq(s);
      DoOrderedRaw(s, calm);
      if DoOrdered(s).0.Again? {
        AgainShrinks(s);
        NextRequestRaw(DoOrdered(s).1, calm);
      }
    }
  }

  lemma FetchRaw(s: State, start: bool, calm: bool)
    requires SeqInv(s) && RawInv(s, calm) && (calm || NeverDrains(s.next))
    ensures RawInv(Fetch(s, start), calm) && Fetch(s, start).next == s.next
  {
    hide SeqInv, RawInv, NextRequest;
    NextRequestRaw(s, calm);
    var (ok, s') := NextRequest(s);
    if ok && s'.queue != [] {
      HandOutRaw(s', start, Fetch(s, start), calm);
    }
  }

  lemma HandOutRaw(s: State, start: bool, s': State, calm: bool)
    requires RawInv(s, calm) && s.queue != [] && !Raw(s.queue[0])
    requires var rq := s.queue[0].(started := true);
             if start then s'.queue == s.queue[1..] && s'.driver == s.driver + [rq]
             else s'.queue == [rq] + s.queue[1..] && s'.driver == s.driver
    requires s'.orig == s.orig && s'.ordcolor == s.ordcolor && s'.next == s.next
    requires s'.ordered == s.ordered && s'.ordseq == s.ordseq && s'.sched == s.sched
    ensures RawInv(s', calm)
  {
    hide Raws, Alternates, SequenceMode, Skipped;
    var rq, rest := s.queue[0].(started := true), s.queue[1..];
    assert s.queue == [s.queue[0]] + rest;
    RawsConcat([s.queue[0]], rest);
    RawsConcat([rq], rest);
    RawsOne(s.queue[0]);
    RawsOne(rq);
    SameLine(s, s', calm);
  }

  // ----- every run

  lemma ApplyRaw(s: State, e: Event, calm: bool)
    requires SeqInv(s) && RawInv(s, calm) && (calm || NeverDrains(s.next)) && (calm && e.EAddSpecial? ==> !e.hard)
    ensures RawInv(Apply(s, e), calm) && Apply(s, e).next == s.next
  {
    hide SeqInv, RawInv, Fetch, Requeue;
    ApplyNext(s, e);
    match e
    case EAddFs(id, barrier, empty, back) => if id !in s.accepted { AddFsRaw(s, id, barrier, empty, back, calm); }
    case EAddSpecial(id, front, hard) => AddSpecialRaw(s, id, front, hard, calm);
    case EDispatch(i, p) => DispatchRaw(s, i, p, calm);
    case EFetch(start) => FetchRaw(s, start, calm);
    case EComplete(i, error) => CompleteRaw(s, i, error, calm);
    case EBarError(error) => BarErrorRaw(s, error, calm);
    case ERequeue(i) => RequeueRaw(s, i, calm);
  }

  lemma ApplyNext(s: State, e: Event)
    ensures !e.EFetch? ==> Apply(s, e).next == s.next
  {
    hide Complete, AddFs, AddSpecial, Dispatch, Requeue, Fetch;
    match e
    case EAddFs(id, barrier, empty, back) => AddKeepsOrig(s, id, barrier, empty, back);
    case EAddSpecial(id, front, hard) => SpecialKeepsOrig(s, id, front, hard);
    case EDispatch(i, p) => MoveKeepsOrig(s, i, p);
    case EFetch(start) =>
    case EComplete(i, error) => CompleteNext(s, i, error);
    case EBarError(error) =>
    case ERequeue(i) => MoveKeepsOrig(s, i, 0);
  }

  lemma CompleteNext(s: State, i: nat, error: int)
    ensures Complete(s, i, error).next == s.next
  {
    hide ReqSeq, CurSeq, CompleteSeq;
    if i < |s.driver| {
      var rq := s.driver[i];
      var s0 := s.(driver := s.driver[..i] + s.driver[i+1..],
                   ended := if rq.kind.Fs? then s.ended + [(rq.id, error)] else s.ended);
      var s1 := s0.(inFlight := if rq.Accounted() then s0.inFlight - 1 else s0.inFlight);
      StepNext(s1, {SEQ_DRAIN}, 0);
      StepNext(Completed(s0, rq), {StepOf(rq.kind)}, error);
    }
  }

  lemma StepNext(s: State, steps: set<nat>, error: int)
    ensures CompleteSeq(s, steps, error).next == s.next
  {
    hide CurSeq;
  }

  lemma BarErrorRaw(s: State, error: int, calm: bool)
    requires RawInv(s, calm)
    ensures RawInv(BarError(s, error), calm)
  {
    hide Raws, Alternates, ProxiesFirst, SequenceMode, Skipped;
    SameLine(s, BarError(s, error), calm);
  }

  lemma {:induction false} EveryRunRaw(mode: Mode, es: seq<Event>)
    requires NoHardSpecial(es) || NeverDrains(mode)
    ensures SeqInv(Run(mode, es)) && RawInv(Run(mode, es), NoHardSpecial(es)) && Run(mode, es).next == mode
    decreases |es|
  {
    hide SeqInv, Apply, RawInv;
    EveryRunSequenced(mode, es);
    if es == [] {
      InitRaw(mode);
    } else {
      var past, e := es[..|es|-1], es[|es|-1];
      if NoHardSpecial(es) {
        CalmPast(es);
        EveryRunRaw(mode, past);
        ApplyRaw(Run(mode, past), e, true);
      } else {
        EveryRunRaw(mode, past);
        Loosen(Run(mode, past), NoHardSpecial(past));
        ApplyRaw(Run(mode, past), e, false);
      }
    }
  }

  lemma InitRaw(mode: Mode)
    ensures RawInv(Init(mode), true)
  {
  }

  lemma Loosen(s: State, calm: bool)
    requires RawInv(s, calm)
    ensures RawInv(s, false)
  {
  }

  lemma CalmPast(es: seq<Event>)
    requires es != [] && NoHardSpecial(es)
    ensures NoHardSpecial(es[..|es|-1]) && (es[|es|-1].EAddSpecial? ==> !es[|es|-1].hard)
  {
  }

  /** A barrier never reaches the driver as such, only as the requests queued in its place: in
      every mode while no special request carries REQ_HARDBARRIER, and in every run where no
      sequence drains.  Those at the driver all belong to the barrier that runs. */
  lemma NoRawBarrier(mode: Mode, es: seq<Event>, i: nat)
    requires NoHardSpecial(es) || NeverDrains(mode)
    requires i < |Run(mode, es).driver|
    ensures var s := Run(mode, es); var rq := s.driver[i];
            && !(rq.kind.Fs? && rq.barrier)
            && (IsProxy(rq.kind) ==> s.orig.Some? && rq.id == s.orig.value.id)
  {
    hide Run, SeqInv;
    EveryRunRaw(mode, es);
    ProxyOwner(Run(mode, es), i);
  }

  lemma ProxyOwner(s: State, i: nat)
    requires SeqInv(s) && i < |s.driver|
    ensures IsProxy(s.driver[i].kind) ==> s.orig.Some? && s.driver[i].id == s.orig.value.id
  {
    hide Tags, FirstError, EndedIds, CurSeq, ConsOk;
    var rq := s.driver[i];
    TagsMember(s.driver, i);
    assert IsProxy(rq.kind) ==> Held(s)[(rq.kind, rq.id)] == Expected(s, rq.kind, rq.id);
  }

  // ----- one sequence at a time

  /** In every run of every mode: the barrier that runs goes on running until it is ended, and
      no other starts before. */
  lemma OneSequence(mode: Mode, es: seq<Event>, e: Event)
    ensures var s, s' := Run(mode, es), Run(mode, es + [e]);
            s.orig.Some? && s'.orig != s.orig ==>
              s'.orig.None? && s'.ended != [] && s'.ended[|s'.ended|-1].0 == s.orig.value.id
  {
    hide Run, SeqInv, Apply;
    EveryRunSequenced(mode, es);
    RunSteps(mode, es, e);
    if Run(mode, es).orig.Some? {
      StaysOrig(Run(mode, es), e);
    }
  }

  lemma StaysOrig(s: State, e: Event)
    requires SeqInv(s) && s.orig.Some?
    ensures var s' := Apply(s, e);
            s'.orig == s.orig || (s'.orig.None? && s'.ended != [] && s'.ended[|s'.ended|-1].0 == s.orig.value.id)
  {
    hide SeqInv, Fetch, Complete, AddFs, AddSpecial, Dispatch, Requeue;
    IdleIff(s);
    match e
    case EAddFs(id, barrier, empty, back) => AddKeepsOrig(s, id, barrier, empty, back);
    case EAddSpecial(id, front, hard) => SpecialKeepsOrig(s, id, front, hard);
    case EDispatch(i, p) => MoveKeepsOrig(s, i, p);
    case EFetch(start) => RunningFetch(s, start);
    case EComplete(i, error) => CompleteOrig(s, i, error);
    case EBarError(error) =>
    case ERequeue(i) => MoveKeepsOrig(s, i, 0);
  }

  lemma AddKeepsOrig(s: State, id: nat, barrier: bool, empty: bool, back: bool)
    ensures AddFs(s, id, barrier, empty, back).orig == s.orig && AddFs(s, id, barrier, empty, back).next == s.next
  {
  }

  lemma SpecialKeepsOrig(s: State, id: nat, front: bool, hard: bool)
    ensures AddSpecial(s, id, front, hard).orig == s.orig && AddSpecial(s, id, front, hard).next == s.next
  {
  }

  lemma MoveKeepsOrig(s: State, i: nat, p: nat)
    ensures Dispatch(s, i, p).orig == s.orig && Requeue(s, i).orig == s.orig
    ensures Dispatch(s, i, p).next == s.next && Requeue(s, i).next == s.next
  {
    hide RequeuePoint;
  }

  lemma CompleteOrig(s: State, i: nat, error: int)
    requires SeqInv(s) && s.orig.Some?
    ensures var s' := Complete(s, i, error);
            s'.orig == s.orig || (s'.orig.None? && s'.ended != [] && s'.ended[|s'.ended|-1].0 == s.orig.value.id)
  {
    hide SeqInv, Completed, CompleteSeq;
    if i < |s.driver| {
      var rq := s.driver[i];
      var s0 := s.(driver := s.driver[..i] + s.driver[i+1..],
                   ended := if rq.kind.Fs? then s.ended + [(rq.id, error)] else s.ended);
      if IsProxy(rq.kind) {
        StillRuns(s, i, error);
        StepEnds(Completed(s0, rq), {StepOf(rq.kind)}, error);
      } else {
        CompletedEnds(s0, rq);
      }
    }
  }

  lemma StepEnds(s: State, steps: set<nat>, error: int)
    requires s.orig.Some?
    ensures var s' := CompleteSeq(s, steps, error);
            s'.orig == s.orig || (s'.orig.None? && s'.ended != [] && s'.ended[|s'.ended|-1].0 == s.orig.value.id)
  {
    hide CurSeq;
  }

  lemma CompletedEnds(s: State, rq: Rq)
    requires s.orig.Some?
    ensures var s' := Completed(s, rq);
            s'.orig == s.orig || (s'.orig.None? && s'.ended != [] && s'.ended[|s'.ended|-1].0 == s.orig.value.id)
  {
    hide CurSeq, ReqSeq, CompleteSeq;
    var s1 := s.(inFlight := if rq.Accounted() then s.inFlight - 1 else s.inFlight);
    StepEnds(s1, {SEQ_DRAIN}, 0);
  }

  lemma RunningFetch(s: State, start: bool)
    requires s.orig.Some? && s.ordseq != {}
    ensures Fetch(s, start).orig == s.orig
  {
    hide CurSeq, ReqSeq;
  }

  // ----- ordering by tag

  /** In a tag mode, what is not a barrier is handed out as soon as it is at the head of the
      queue, also while a sequence runs.  The one exception is a barrier without data in a mode
      without a pre-flush, for which the queue drains: it holds back the file-system requests
      that came after it, and only those. */
  lemma TagHeadIff(mode: Mode, es: seq<Event>)
    requires TagMode(mode) && (NoHardSpecial(es) || mode.doPre)
    requires Run(mode, es).queue != [] && !Raw(Run(mode, es).queue[0])
    ensures var s := Run(mode, es); var head := s.queue[0];
            var held := s.orig.Some? && s.orig.value.empty && !mode.doPre && head.kind.Fs? && head.color != s.orig.value.color;
            var s' := Run(mode, es + [EFetch(true)]);
            if held then s' == s else s'.driver == s.driver + [head.(started := true)] && s'.queue == s.queue[1..]
  {
    hide Run, SeqInv, RawInv, Fetch, DoOrdered;
    EveryRunRaw(mode, es);
    RunSteps(mode, es, EFetch(true));
    var s := Run(mode, es);
    TagHead(s, NoHardSpecial(es));
    FetchOne(s);
  }

  lemma FetchOne(s: State)
    requires s.queue != [] && DoOrdered(s).1 == s && !DoOrdered(s).0.Again?
    ensures var s' := Fetch(s, true);
            if DoOrdered(s).0.Blocked? then s' == s
            else s'.driver == s.driver + [s.queue[0].(started := true)] && s'.queue == s.queue[1..]
  {
    hide DoOrdered;
  }

  lemma TagHead(s: State, calm: bool)
    requires SeqInv(s) && RawInv(s, calm) && TagMode(s.next) && s.queue != [] && !Raw(s.queue[0])
    ensures var head := s.queue[0];
            var held := s.orig.Some? && s.orig.value.empty && !s.next.doPre && head.kind.Fs? && head.color != s.orig.value.color;
            DoOrdered(s) == (if held then Blocked else Take, s)
  {
    hide SeqInv, Raws, Alternates, ProxiesFirst, CurSeq, StartOrdered;
    IdleIff(s);
    if s.ordseq == {} {
      HeadKind(s);
    } else if !s.ordered.byTag {
      BitsOpen(s);
      DrainsOnly(s.ordseq, s.ordered);
      QueueProxies(s);
    }
  }

  /** A sequence without commands is a drain. */
  lemma DrainsOnly(bits: set<nat>, mode: Mode)
    requires Skipped(mode, true) <= bits && !mode.doPre && !mode.doBar && !mode.doPost && CurSeq(bits) < SEQ_DONE
    ensures CurSeq(bits) == SEQ_DRAIN && {SEQ_PREFLUSH, SEQ_BAR, SEQ_POSTFLUSH} <= bits
  {
    assert {SEQ_PREFLUSH, SEQ_BAR, SEQ_POSTFLUSH} <= Skipped(mode, true);
  }

  /** In a tag mode a barrier with something to do starts at once, whatever the driver has: its
      first request is handed out. */
  lemma TagStartsAtOnce(mode: Mode, es: seq<Event>)
    requires TagMode(mode) && Run(mode, es).orig.None? && (NoHardSpecial(es) || mode.doPre)
    requires var s := Run(mode, es); s.queue != [] && Raw(s.queue[0]) && (!s.queue[0].empty || mode.doPre)
    ensures var s, s' := Run(mode, es), Run(mode, es + [EFetch(true)]);
            var kind := if mode.doPre then PreFlush else Bar;
            && s'.orig == Some(s.queue[0])
            && |s'.driver| == |s.driver| + 1 && s'.driver[..|s.driver|] == s.driver
            && s'.driver[|s.driver|].kind == kind && s'.driver[|s.driver|].id == s.queue[0].id
  {
    hide Run, SeqInv, RawInv, Fetch;
    EveryRunRaw(mode, es);
    RunSteps(mode, es, EFetch(true));
    IdleIff(Run(mode, es));
    TagStart(Run(mode, es));
  }

  lemma TagStart(s: State)
    requires TagMode(s.next) && s.ordseq == {} && s.queue != [] && Raw(s.queue[0]) && (!s.queue[0].empty || s.next.doPre)
    ensures var s' := Fetch(s, true); var kind := if s.next.doPre then PreFlush else Bar;
            && s'.orig == Some(s.queue[0])
            && |s'.driver| == |s.driver| + 1 && s'.driver[..|s.driver|] == s.driver
            && s'.driver[|s.driver|].kind == kind && s'.driver[|s.driver|].id == s.queue[0].id
  {
    hide StartOrdered;
    TagStarted(s);
  }

  lemma TagStarted(s: State)
    requires TagMode(s.next) && s.ordseq == {} && s.queue != [] && Raw(s.queue[0]) && (!s.queue[0].empty || s.next.doPre)
    ensures var s' := StartOrdered(s); var kind := if s.next.doPre then PreFlush else Bar;
            && AfterStart(s').Take? && s'.orig == Some(s.queue[0]) && s'.driver == s.driver
            && s'.queue != [] && s'.queue[0] == Proxy(s.queue[0], kind)
  {
  }

  /** While a sequence ordered by tag runs, an idle driver is always given a request. */
  lemma TagNeverStalls(mode: Mode, es: seq<Event>)
    requires TagMode(mode) && NoHardSpecial(es)
    requires var s := Run(mode, es); s.driver == [] && s.orig.Some? && (mode.doPre || !s.orig.value.empty)
    ensures |Run(mode, es + [EFetch(true)]).driver| == 1
  {
    hide Run, SeqInv, Fetch, DoOrdered, CurSeq, Line, Alternates;
    EveryRunRaw(mode, es);
    RunSteps(mode, es, EFetch(true));
    var s := Run(mode, es);
    TagBits(s.ordered, s.ordseq);
    var i := CurrentQueued(s);
    NotBehind(s.queue, i);
    TagHead(s, true);
    FetchOne(s);
  }

  lemma NotBehind(q: seq<Rq>, i: nat)
    requires ProxiesFirst(q) && i < |q| && IsProxy(q[i].kind)
    ensures !Raw(q[0])
  {
  }

  lemma TagBits(mode: Mode, bits: set<nat>)
    requires Skipped(mode, true) <= bits && !mode.byDrain
    ensures SEQ_DRAIN in bits
  {
    assert SEQ_DRAIN in Skipped(mode, true);
  }
}
