/** What the ordering means for the requests themselves, over whole runs: everything added
    before a barrier has been ended when the barrier is at the driver, everything added
    before the last barrier has been ended when a request is at the driver.
 */
module BarrierSafety {
  import opened Lists
  import opened Barrier
  import opened BarrierSequence
  import opened BarrierOrder

  // ----- requests and the epochs they were added in

  predicate KnownRq(m: map<nat, nat>, r: Rq) {
    r.kind.Fs? ==> r.id in m && m[r.id] == r.epoch
  }

  ghost predicate KnownAll(m: map<nat, nat>, q: seq<Rq>) {
    forall i :: 0 <= i < |q| ==> KnownRq(m, q[i])
  }

  /** Every request carries the epoch it was added in. */
  ghost predicate Known(s: State) {
    && KnownAll(s.epochOf, s.queue) && KnownAll(s.epochOf, s.sched) && KnownAll(s.epochOf, s.driver)
    && (s.orig.Some? ==> s.orig.value.kind.Fs? && KnownRq(s.epochOf, s.orig.value))
    && (forall id :: id in s.accepted <==> id in s.epochOf)
  }

  lemma KnownInsert(m: map<nat, nat>, q: seq<Rq>, p: nat, rq: Rq)
    requires KnownAll(m, q) && KnownRq(m, rq) && p <= |q|
    ensures KnownAll(m, q[..p] + [rq] + q[p..])
  {
    var r := q[..p] + [rq] + q[p..];
    forall i | 0 <= i < |r| ensures KnownRq(m, r[i]) {
      assert r[i] == if i < p then q[i] else if i == p then rq else q[i - 1];
    }
  }

  lemma KnownRemove(m: map<nat, nat>, q: seq<Rq>, i: nat)
    requires KnownAll(m, q) && i < |q|
    ensures KnownAll(m, q[..i] + q[i+1..])
  {
    var r := q[..i] + q[i+1..];
    forall j | 0 <= j < |r| ensures KnownRq(m, r[j]) {
      assert r[j] == if j < i then q[j] else q[j + 1];
    }
  }

  lemma KnownConcat(m: map<nat, nat>, a: seq<Rq>, b: seq<Rq>)
    requires KnownAll(m, a) && KnownAll(m, b)
    ensures KnownAll(m, a + b)
  {
    forall i | 0 <= i < |a + b| ensures KnownRq(m, (a + b)[i]) {
      assert (a + b)[i] == if i < |a| then a[i] else b[i - |a|];
    }
  }

  lemma KnownGrow(m: map<nat, nat>, q: seq<Rq>, id: nat, e: nat)
    requires KnownAll(m, q) && id !in m
    ensures KnownAll(m[id := e], q)
  {
    forall i | 0 <= i < |q| ensures KnownRq(m[id := e], q[i]) {
      assert KnownRq(m, q[i]);
    }
  }

  lemma AddFsKnown(s: State, id: nat, barrier: bool, empty: bool, back: bool)
    requires Known(s) && id !in s.accepted
    ensures Known(AddFs(s, id, barrier, empty, back))
  {
    hide KnownAll;
    var rq := Rq(id, Fs, barrier, empty, s.ordcolor, s.added, false, false);
    var m := s.epochOf[id := s.added];
    KnownGrow(s.epochOf, s.queue, id, s.added);
    KnownGrow(s.epochOf, s.sched, id, s.added);
    KnownGrow(s.epochOf, s.driver, id, s.added);
    KnownOne(m, rq);
    KnownOne(m, rq.(soft := true));
    KnownConcat(m, s.queue, s.sched);
    KnownConcat(m, s.queue + s.sched, [rq.(soft := true)]);
    KnownConcat(m, s.sched, [rq]);
    KnownNone(m);
  }

  lemma KnownOne(m: map<nat, nat>, rq: Rq)
    requires KnownRq(m, rq)
    ensures KnownAll(m, [rq])
  {
  }

  lemma KnownNone(m: map<nat, nat>)
    ensures KnownAll(m, [])
  {
  }

  lemma AddSpecialKnown(s: State, id: nat, front: bool, hard: bool)
    requires Known(s)
    ensures Known(AddSpecial(s, id, front, hard))
  {
    hide KnownAll;
    var rq := Rq(id, Special, hard, false, s.ordcolor, s.added, true, false);
    KnownOne(s.epochOf, rq);
    KnownConcat(s.epochOf, [rq], s.queue);
    KnownConcat(s.epochOf, s.queue, s.sched);
    KnownConcat(s.epochOf, s.queue + s.sched, [rq]);
    KnownNone(s.epochOf);
  }

  lemma DispatchKnown(s: State, i: nat, p: nat)
    requires Known(s)
    ensures Known(Dispatch(s, i, p))
  {
    hide KnownAll;
    if i < |s.sched| && DispatchPoint(s.queue, p) {
      KnownAt(s.epochOf, s.sched, i);
      KnownInsert(s.epochOf, s.queue, p, s.sched[i]);
      KnownRemove(s.epochOf, s.sched, i);
    }
  }

  lemma KnownAt(m: map<nat, nat>, q: seq<Rq>, i: nat)
    requires KnownAll(m, q) && i < |q|
    ensures KnownRq(m, q[i])
  {
  }

  lemma RequeueKnown(s: State, i: nat)
    requires Known(s)
    ensures Known(Requeue(s, i))
  {
    hide KnownAll, RequeuePoint;
    if i < |s.driver| {
      KnownAt(s.epochOf, s.driver, i);
      var rq := s.driver[i].(started := false, soft := true);
      var p := if s.ordseq == {} || s.orig.None? then 0 else RequeuePoint(s, s.queue, rq);
      KnownInsert(s.epochOf, s.queue, p, rq);
      KnownRemove(s.epochOf, s.driver, i);
    }
  }

  lemma CompleteSeqKnown(s: State, steps: set<nat>, error: int)
    requires Known(s)
    ensures Known(CompleteSeq(s, steps, error))
  {
    hide KnownAll, CurSeq;
  }

  lemma CompletedKnown(s: State, rq: Rq)
    requires Known(s)
    ensures Known(Completed(s, rq))
  {
    hide KnownAll, CurSeq, ReqSeq, CompleteSeq;
    var s1 := s.(inFlight := if rq.Accounted() then s.inFlight - 1 else s.inFlight);
    CompleteSeqKnown(s1, {SEQ_DRAIN}, 0);
  }

  lemma CompleteKnown(s: State, i: nat, error: int)
    requires Known(s)
    ensures Known(Complete(s, i, error))
  {
    hide KnownAll, Completed, CompleteSeq;
    if i < |s.driver| {
      var rq := s.driver[i];
      KnownRemove(s.epochOf, s.driver, i);
      var s0 := s.(driver := s.driver[..i] + s.driver[i+1..],
                   ended := if rq.kind.Fs? then s.ended + [(rq.id, error)] else s.ended);
      CompletedKnown(s0, rq);
      if IsProxy(rq.kind) {
        CompleteSeqKnown(Completed(s0, rq), {StepOf(rq.kind)}, error);
      }
    }
  }

  lemma BeginKnown(s: State)
    requires Known(s) && s.queue != [] && s.queue[0].kind.Fs?
    ensures Known(Begin(s)) && Known(s.(queue := s.queue[1..]))
  {
    hide KnownAll, Proxies, SequenceMode;
    var rq := s.queue[0];
    KnownAt(s.epochOf, s.queue, 0);
    KnownRemove(s.epochOf, s.queue, 0);
    assert s.queue[..0] + s.queue[1..] == s.queue[1..];
    var ps := Proxies(rq, SequenceMode(s.next, rq.empty));
    ProxiesKnown(s.epochOf, rq, SequenceMode(s.next, rq.empty));
    KnownConcat(s.epochOf, ps, s.queue[1..]);
  }

  lemma DoOrderedKnown(s: State)
    requires SeqInv(s) && Known(s) && s.queue != []
    ensures Known(DoOrdered(s).1)
  {
    hide SeqOk, ConsOk, KnownAll, CurSeq, ReqSeq, Skipped, Begin, CompleteSeq;
    var rq := s.queue[0];
    HeadHeld(s);
    if s.ordseq == {} {
      HeadIsFs(s);
      if rq.kind.Fs? {
        BeginKnown(s);
        var s1 := Begin(s);
        CompleteSeqKnown(s1, Skipped(s1.ordered, s1.inFlight != 0), 0);
      }
    }
  }

  lemma ProxiesKnown(m: map<nat, nat>, rq: Rq, mode: Mode)
    ensures KnownAll(m, Proxies(rq, mode))
  {
    forall i | 0 <= i < |Proxies(rq, mode)| ensures KnownRq(m, Proxies(rq, mode)[i]) {
      ProxyShape(rq, mode, i);
    }
  }

  lemma {:induction false} NextRequestKnown(s: State)
    requires SeqInv(s) && Known(s)
    ensures Known(NextRequest(s).1)
    decreases |s.queue|
  {
    hide SeqInv, Known, DoOrdered;
    if s.queue != [] {
      DoOrderedSeq(s);
      DoOrderedKnown(s);
      if DoOrdered(s).0.Again? {
        AgainShrinks(s);
        NextRequestKnown(DoOrdered(s).1);
      }
    }
  }

  lemma FetchKnown(s: State, start: bool)
    requires SeqInv(s) && Known(s)
    ensures Known(Fetch(s, start))
  {
    hide SeqInv, KnownAll, KnownRq, NextRequest;
    NextRequestKnown(s);
    var (ok, s') := NextRequest(s);
    if ok && s'.queue != [] {
      KnownHead(s');
    }
  }

  lemma KnownHead(s: State)
    requires KnownAll(s.epochOf, s.queue) && KnownAll(s.epochOf, s.driver) && s.queue != []
    ensures var rq := s.queue[0].(started := true);
            && KnownAll(s.epochOf, [rq] + s.queue[1..]) && KnownAll(s.epochOf, s.queue[1..])
            && KnownAll(s.epochOf, s.driver + [rq])
  {
    hide KnownAll;
    var rq := s.queue[0].(started := true);
    KnownAt(s.epochOf, s.queue, 0);
    KnownRemove(s.epochOf, s.queue, 0);
    assert s.queue[..0] + s.queue[1..] == s.queue[1..];
    assert KnownRq(s.epochOf, rq);
    KnownOne(s.epochOf, rq);
    KnownConcat(s.epochOf, [rq], s.queue[1..]);
    KnownConcat(s.epochOf, s.driver, [rq]);
  }

  lemma ApplyKnown(s: State, e: Event)
    requires SeqInv(s) && Known(s)
    ensures Known(Apply(s, e))
  {
    hide SeqInv, Known, AddFs, AddSpecial, Dispatch, Fetch, Complete, BarError, Requeue;
    match e
    case EAddFs(id, barrier, empty, back) => if id !in s.accepted { AddFsKnown(s, id, barrier, empty, back); }
    case EAddSpecial(id, front, hard) => AddSpecialKnown(s, id, front, hard);
    case EDispatch(i, p) => DispatchKnown(s, i, p);
    case EFetch(start) => FetchKnown(s, start);
    case EComplete(i, error) => CompleteKnown(s, i, error);
    case EBarError(error) => BarErrorKnown(s, error);
    case ERequeue(i) => RequeueKnown(s, i);
  }

  lemma {:induction false} EveryRunKnown(mode: Mode, es: seq<Event>)
    ensures Known(Run(mode, es)) && SeqInv(Run(mode, es))
    decreases |es|
  {
    hide SeqInv, Known, Apply;
    EveryRunSequenced(mode, es);
    if es == [] {
      InitKnown(mode);
    } else {
      EveryRunKnown(mode, es[..|es|-1]);
      ApplyKnown(Run(mode, es[..|es|-1]), es[|es|-1]);
    }
  }

  lemma InitKnown(mode: Mode)
    ensures Known(Init(mode))
  {
  }

  lemma BarErrorKnown(s: State, error: int)
    requires Known(s)
    ensures Known(BarError(s, error))
  {
    hide KnownAll;
  }

  // ----- what is over

  lemma {:induction false} NotHeldIn(q: seq<Rq>, id: nat)
    requires forall i :: 0 <= i < |q| && q[i].kind.Fs? ==> q[i].id != id
    ensures Tags(q)[(Fs, id)] == 0
    decreases |q|
  {
    if q != [] {
      NotHeldIn(q[..|q|-1], id);
    }
  }

  ghost predicate Absent(q: seq<Rq>, id: nat) {
    forall i :: 0 <= i < |q| && q[i].kind.Fs? ==> q[i].id != id
  }

  /** A request that is nowhere any more has been ended, once. */
  lemma GoneIsEnded(s: State, id: nat)
    requires SeqInv(s) && id in s.accepted
    requires Absent(s.queue, id) && Absent(s.sched, id) && Absent(s.driver, id)
    requires s.orig.Some? ==> s.orig.value.id != id
    ensures EndedIds(s.ended)[id] == 1
  {
    hide Tags, EndedIds, SeqOk;
    NotHeldIn(s.queue, id);
    NotHeldIn(s.sched, id);
    NotHeldIn(s.driver, id);
    assert multiset(s.accepted)[id] == 1 by {
      assert id in multiset(s.accepted);
      assert multiset(s.accepted)[id] <= 1;
    }
    assert Held(s)[(Fs, id)] + OrigCount(s, id) + EndedIds(s.ended)[id] == multiset(s.accepted)[id];
  }

  /** Of everything added before the last barrier that ended (that barrier included), nothing
      is left. */
  lemma PastEpochsEnded(s: State, id: nat)
    requires SeqInv(s) && OrderInv(s) && Known(s) && id in s.epochOf && s.epochOf[id] < s.done
    ensures EndedIds(s.ended)[id] == 1
  {
    hide SeqInv, Flight, Sorted, OpenEpochs;
    forall i | 0 <= i < |s.queue| && s.queue[i].kind.Fs? ensures s.queue[i].id != id {
      assert KnownRq(s.epochOf, s.queue[i]) && QueueOk(s, s.queue[i]);
    }
    forall i | 0 <= i < |s.sched| && s.sched[i].kind.Fs? ensures s.sched[i].id != id {
      assert KnownRq(s.epochOf, s.sched[i]) && SchedOk(s, s.sched[i]);
    }
    forall i | 0 <= i < |s.driver| && s.driver[i].kind.Fs? ensures s.driver[i].id != id {
      assert KnownRq(s.epochOf, s.driver[i]) && DriverOk(s, s.driver[i]);
    }
    GoneIsEnded(s, id);
  }

  /** Once the running sequence has drained, everything added before its barrier has ended. */
  lemma DrainedEpochEnded(s: State, id: nat)
    requires SeqInv(s) && OrderInv(s) && Known(s) && s.orig.Some? && SEQ_DRAIN in s.ordseq
    requires id in s.epochOf && s.epochOf[id] <= s.done && id != s.orig.value.id
    ensures EndedIds(s.ended)[id] == 1
  {
    hide SeqInv, Flight, Sorted, OpenEpochs;
    forall i | 0 <= i < |s.queue| && s.queue[i].kind.Fs? ensures s.queue[i].id != id {
      assert KnownRq(s.epochOf, s.queue[i]) && QueueOk(s, s.queue[i]);
    }
    forall i | 0 <= i < |s.sched| && s.sched[i].kind.Fs? ensures s.sched[i].id != id {
      assert KnownRq(s.epochOf, s.sched[i]) && SchedOk(s, s.sched[i]);
    }
    forall i | 0 <= i < |s.driver| ensures !s.driver[i].kind.Fs? {
      assert DriverOk(s, s.driver[i]);
    }
    GoneIsEnded(s, id);
  }

  /** What a request at the driver means.  For a file-system request, every request and
      barrier of an earlier epoch (so every barrier added before it, and all that was added
      before that) has been ended.  For a proxy, everything added before the barrier has. */
  ghost predicate SafeAt(s: State, rq: Rq) {
    && (rq.kind.Fs? ==> forall id :: id in s.epochOf && s.epochOf[id] < rq.epoch ==> EndedIds(s.ended)[id] == 1)
    && (IsProxy(rq.kind) ==>
          && s.orig.Some?
          && forall id :: id in s.epochOf && s.epochOf[id] <= s.orig.value.epoch && id != s.orig.value.id ==>
               EndedIds(s.ended)[id] == 1)
  }

  ghost predicate Safe(s: State) {
    forall i :: 0 <= i < |s.driver| ==> SafeAt(s, s.driver[i])
  }

  /** Ordering by draining, over whole runs in which special requests with REQ_HARDBARRIER
      come at harmless moments only: every request at the driver is safe there, and for a
      proxy every earlier step of the sequence is over: in particular any pre-flush before
      the barrier itself. */
  lemma DriverRespectsBarriers(mode: Mode, es: seq<Event>, i: nat)
    requires DrainMode(mode) && Calm(mode, es) && i < |Run(mode, es).driver|
    ensures var s := Run(mode, es); var rq := s.driver[i];
            && SafeAt(s, rq)
            && (IsProxy(rq.kind) ==> forall step :: STARTED <= step < StepOf(rq.kind) ==> step in s.ordseq)
  {
    hide SeqOk, ConsOk, Run, Calm, EndedIds, Flight, Sorted, OpenEpochs, QueueOk, Contrast;
    EveryRunOrdered(mode, es);
    EveryRunKnown(mode, es);
    var s := Run(mode, es);
    var rq := s.driver[i];
    assert DriverOk(s, rq);
    if rq.kind.Fs? {
      forall id | id in s.epochOf && s.epochOf[id] < rq.epoch ensures EndedIds(s.ended)[id] == 1 {
        PastEpochsEnded(s, id);
      }
    }
    if IsProxy(rq.kind) {
      Running(s, Held(s));
      forall id | id in s.epochOf && s.epochOf[id] <= s.orig.value.epoch && id != s.orig.value.id
        ensures EndedIds(s.ended)[id] == 1
      {
        DrainedEpochEnded(s, id);
      }
    }
  }

  lemma CalmRunsSafe(mode: Mode, es: seq<Event>)
    requires DrainMode(mode) && Calm(mode, es)
    ensures Safe(Run(mode, es))
  {
    hide Run, Calm, SafeAt;
    forall i | 0 <= i < |Run(mode, es).driver| ensures SafeAt(Run(mode, es), Run(mode, es).driver[i]) {
      DriverRespectsBarriers(mode, es, i);
    }
  }

  lemma Running(s: State, held: multiset<Tag>)
    requires SeqOk(s, held) && s.orig.Some?
    ensures STARTED in s.ordseq
  {
  }

  /** In every mode: each file-system request that was added is on the queue, with the
      scheduler or the driver, is the running barrier, or was ended; one of these, once. */
  lemma EachRequestOnce(mode: Mode, es: seq<Event>, id: nat)
    ensures var s := Run(mode, es);
            Held(s)[(Fs, id)] + OrigCount(s, id) + EndedIds(s.ended)[id] == if id in s.accepted then 1 else 0
  {
    hide Run, SeqOk, Held, EndedIds;
    EveryRunSequenced(mode, es);
    var s := Run(mode, es);
    assert multiset(s.accepted)[id] <= 1;
    assert id in s.accepted <==> id in multiset(s.accepted);
  }
}
