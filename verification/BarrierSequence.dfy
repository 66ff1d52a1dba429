/** The ordered sequence, in every mode and every run: the steps that are skipped and the
    steps that are queued make up the sequence, each step completes once, and every barrier
    is ended once, with the first error reported.
 */
module BarrierSequence {
  import opened Lists
  import opened Barrier

  /** What identifies a request wherever it is: proxies carry the id of their barrier. */
  type Tag = (Kind, nat)

  function TagOf(rq: Rq): Tag { (rq.kind, rq.id) }

  function Tags(q: seq<Rq>): multiset<Tag> {
    if q == [] then multiset{} else Tags(q[..|q|-1]) + multiset{TagOf(q[|q|-1])}
  }

  /** Every request on the queue, in the scheduler or at the driver. */
  function Held(s: State): multiset<Tag> {
    Tags(s.queue) + Tags(s.sched) + Tags(s.driver)
  }

  lemma {:induction false} TagsConcat(a: seq<Rq>, b: seq<Rq>)
    ensures Tags(a + b) == Tags(a) + Tags(b)
    decreases |b|
  {
    if b == [] {
      assert a + b == a;
    } else {
      assert (a + b)[..|a + b|-1] == a + b[..|b|-1];
      TagsConcat(a, b[..|b|-1]);
    }
  }

  lemma TagsOne(rq: Rq)
    ensures Tags([rq]) == multiset{TagOf(rq)}
  {
    assert [rq][..0] == [];
  }

  lemma TagsInsert(q: seq<Rq>, p: nat, rq: Rq)
    requires p <= |q|
    ensures Tags(q[..p] + [rq] + q[p..]) == Tags(q) + multiset{TagOf(rq)}
  {
    hide Tags, TagOf;
    TagsConcat(q[..p] + [rq], q[p..]);
    TagsConcat(q[..p], [rq]);
    TagsOne(rq);
    TagsConcat(q[..p], q[p..]);
    assert q[..p] + q[p..] == q;
  }

  lemma TagsRemove(q: seq<Rq>, i: nat)
    requires i < |q|
    ensures Tags(q) == Tags(q[..i] + q[i+1..]) + multiset{TagOf(q[i])}
  {
    hide Tags, TagOf;
    assert q == q[..i] + ([q[i]] + q[i+1..]);
    TagsConcat(q[..i], [q[i]] + q[i+1..]);
    TagsConcat([q[i]], q[i+1..]);
    TagsOne(q[i]);
    TagsConcat(q[..i], q[i+1..]);
  }

  lemma TagsFirst(rq: Rq, q: seq<Rq>)
    ensures Tags([rq] + q) == multiset{TagOf(rq)} + Tags(q)
  {
    hide Tags, TagOf;
    TagsConcat([rq], q);
    TagsOne(rq);
  }

  // ----- the sequence invariant

  function StepOf(k: Kind): nat {
    match k
    case PreFlush => SEQ_PREFLUSH
    case Bar => SEQ_BAR
    case PostFlush => SEQ_POSTFLUSH
    case _ => SEQ_DONE
  }

  predicate IsProxy(k: Kind) { k.PreFlush? || k.Bar? || k.PostFlush? }

  function FirstError(reports: seq<int>): int {
    if reports == [] then 0
    else if reports[0] != 0 then reports[0]
    else FirstError(reports[1..])
  }

  /** `held` is what is still to complete: of each step exactly one proxy, for the running
      barrier, while the step's bit is clear; otherwise none. */
  ghost predicate SeqOk(s: State, held: multiset<Tag>) {
    && !s.bug
    && (s.ordseq == {} <==> s.orig.None?)
    && (s.orig.Some? ==>
          && STARTED in s.ordseq && CurSeq(s.ordseq) != SEQ_DONE
          && s.orderr == FirstError(s.reports))
    && forall k, id :: IsProxy(k) ==> held[(k, id)] == Expected(s, k, id)
  }

  function Expected(s: State, k: Kind, id: nat): nat {
    if s.orig.Some? && id == s.orig.value.id && StepOf(k) !in s.ordseq then 1 else 0
  }

  lemma {:induction false} FirstErrorAppend(reports: seq<int>, e: int)
    ensures FirstError(reports + [e]) == if FirstError(reports) != 0 then FirstError(reports) else e
  {
    if reports == [] {
      assert [e][1..] == [];
    } else {
      assert (reports + [e])[1..] == reports[1..] + [e];
      FirstErrorAppend(reports[1..], e);
    }
  }

  /** Completing steps whose bits are clear: no BUG_ON, and the barrier is ended exactly when
      the last step completes, with the first error reported. */
  lemma CompleteSeqOk(s: State, held: multiset<Tag>, steps: set<nat>, error: int, held': multiset<Tag>)
    requires SeqOk(s, held) && s.orig.Some?
    requires s.ordseq * steps == {}
    requires forall k, id :: IsProxy(k) ==>
               held'[(k, id)] == if StepOf(k) in steps then 0 else held[(k, id)]
    ensures var s' := CompleteSeq(s, steps, error);
            && SeqOk(s', held')
            && (s'.orig.None? ==> s'.ended == s.ended + [(s.orig.value.id, FirstError(s.reports + [error]))])
            && (s'.orig.Some? ==> s'.orig == s.orig && s'.ended == s.ended)
  {
    hide FirstError;
    FirstErrorAppend(s.reports, error);
    var s' := CompleteSeq(s, steps, error);
    forall k, id | IsProxy(k) ensures held'[(k, id)] == Expected(s', k, id) {
      assert held[(k, id)] == Expected(s, k, id);
    }
  }

  // ----- where each file-system request is

  function EndedIds(ended: seq<(nat, int)>): multiset<nat> {
    if ended == [] then multiset{} else EndedIds(ended[..|ended|-1]) + multiset{ended[|ended|-1].0}
  }

  lemma EndedAppend(ended: seq<(nat, int)>, e: (nat, int))
    ensures EndedIds(ended + [e]) == EndedIds(ended) + multiset{e.0}
  {
    assert (ended + [e])[..|ended|] == ended;
  }

  function OrigCount(s: State, id: nat): nat {
    if s.orig.Some? && s.orig.value.id == id then 1 else 0
  }

  /** Every request added is held somewhere, is the running barrier, or was ended: one of
      these, once. */
  ghost predicate ConsOk(s: State, held: multiset<Tag>) {
    && (forall id :: held[(Fs, id)] + OrigCount(s, id) + EndedIds(s.ended)[id] == multiset(s.accepted)[id])
    && (forall id :: multiset(s.accepted)[id] <= 1)
  }

  lemma CompleteSeqCons(s: State, held: multiset<Tag>, steps: set<nat>, error: int, held': multiset<Tag>)
    requires ConsOk(s, held) && s.orig.Some?
    requires forall id :: held'[(Fs, id)] == held[(Fs, id)]
    ensures ConsOk(CompleteSeq(s, steps, error), held')
  {
    var s' := CompleteSeq(s, steps, error);
    if s'.orig.None? {
      EndedAppend(s.ended, (s.orig.value.id, s'.orderr));
    }
    forall id ensures held'[(Fs, id)] + OrigCount(s', id) + EndedIds(s'.ended)[id] == multiset(s'.accepted)[id] {
      assert held[(Fs, id)] + OrigCount(s, id) + EndedIds(s.ended)[id] == multiset(s.accepted)[id];
    }
  }

  /** The invariant of every run, in every mode. */
  ghost predicate SeqInv(s: State) {
    && SeqOk(s, Held(s)) && ConsOk(s, Held(s))
    && (forall i :: 0 <= i < |s.sched| ==> s.sched[i].kind.Fs?)
  }

  /** Both invariants depend only on the sequence and on what is held. */
  lemma OkTransfer(s: State, s': State, held: multiset<Tag>)
    requires SeqOk(s, held) && ConsOk(s, held)
    requires s'.ordseq == s.ordseq && s'.orig == s.orig && s'.bug == s.bug && s'.ended == s.ended
    requires s'.accepted == s.accepted && s'.orderr == s.orderr && s'.reports == s.reports
    ensures SeqOk(s', held) && ConsOk(s', held)
  {
    hide FirstError, EndedIds, CurSeq;
    forall k, id | IsProxy(k) ensures held[(k, id)] == Expected(s', k, id) {
      assert held[(k, id)] == Expected(s, k, id);
    }
    forall id ensures held[(Fs, id)] + OrigCount(s', id) + EndedIds(s'.ended)[id] == multiset(s'.accepted)[id] {
      assert held[(Fs, id)] + OrigCount(s, id) + EndedIds(s.ended)[id] == multiset(s.accepted)[id];
    }
  }

  /** An operation that only moves requests about. */
  lemma Rearranged(s: State, s': State)
    requires SeqInv(s) && Held(s') == Held(s)
    requires s'.ordseq == s.ordseq && s'.orig == s.orig && s'.bug == s.bug && s'.ended == s.ended
    requires s'.accepted == s.accepted && s'.orderr == s.orderr && s'.reports == s.reports
    requires forall i :: 0 <= i < |s'.sched| ==> s'.sched[i].kind.Fs?
    ensures SeqInv(s')
  {
    hide Held, SeqOk, ConsOk;
    OkTransfer(s, s', Held(s));
  }

  lemma DispatchSeq(s: State, i: nat, p: nat)
    requires SeqInv(s)
    ensures SeqInv(Dispatch(s, i, p))
  {
    hide SeqOk, ConsOk, Tags;
    if i < |s.sched| && DispatchPoint(s.queue, p) {
      TagsInsert(s.queue, p, s.sched[i]);
      TagsRemove(s.sched, i);
      Rearranged(s, Dispatch(s, i, p));
    }
  }

  lemma RequeueSeq(s: State, i: nat)
    requires SeqInv(s)
    ensures SeqInv(Requeue(s, i))
  {
    hide SeqOk, ConsOk, Tags;
    if i < |s.driver| {
      var rq := s.driver[i].(started := false, soft := true);
      var p := if s.ordseq == {} || s.orig.None? then 0 else RequeuePoint(s, s.queue, rq);
      TagsInsert(s.queue, p, rq);
      TagsRemove(s.driver, i);
      Rearranged(s, Requeue(s, i));
    }
  }

  lemma InsertBackHeld(s: State, rq: Rq)
    ensures Held(InsertBack(s, rq)) == Held(s) + multiset{TagOf(rq)}
  {
    hide Tags;
    TagsConcat(s.queue + s.sched, [rq.(soft := true)]);
    TagsConcat(s.queue, s.sched);
    TagsOne(rq.(soft := true));
    TagsNone();
  }

  lemma TagsNone()
    ensures Tags([]) == multiset{}
  {
  }

  /** An operation that brings in one request that is not a proxy. */
  lemma Brought(s: State, s': State, tag: Tag)
    requires SeqInv(s) && Held(s') == Held(s) + multiset{tag} && !IsProxy(tag.0)
    requires s'.ordseq == s.ordseq && s'.orig == s.orig && s'.bug == s.bug && s'.ended == s.ended
    requires s'.orderr == s.orderr && s'.reports == s.reports
    requires tag.0.Fs? ==> tag.1 !in s.accepted && s'.accepted == s.accepted + [tag.1]
    requires !tag.0.Fs? ==> s'.accepted == s.accepted
    requires forall i :: 0 <= i < |s'.sched| ==> s'.sched[i].kind.Fs?
    ensures SeqInv(s')
  {
    hide Held, SeqOk, ConsOk;
    BroughtSeq(s, s', Held(s), tag);
    BroughtCons(s, s', Held(s), tag);
  }

  lemma BroughtSeq(s: State, s': State, held: multiset<Tag>, tag: Tag)
    requires SeqOk(s, held) && !IsProxy(tag.0)
    requires s'.ordseq == s.ordseq && s'.orig == s.orig && s'.bug == s.bug
    requires s'.orderr == s.orderr && s'.reports == s.reports
    ensures SeqOk(s', held + multiset{tag})
  {
    hide FirstError, CurSeq;
    var held' := held + multiset{tag};
    forall k, id | IsProxy(k) ensures held'[(k, id)] == Expected(s', k, id) {
      assert held[(k, id)] == Expected(s, k, id);
    }
  }

  lemma BroughtCons(s: State, s': State, held: multiset<Tag>, tag: Tag)
    requires ConsOk(s, held) && s'.orig == s.orig && s'.ended == s.ended
    requires tag.0.Fs? ==> tag.1 !in s.accepted && s'.accepted == s.accepted + [tag.1]
    requires !tag.0.Fs? ==> s'.accepted == s.accepted
    ensures ConsOk(s', held + multiset{tag})
  {
    hide EndedIds;
    var held' := held + multiset{tag};
    if tag.0.Fs? {
      assert multiset(s'.accepted) == multiset(s.accepted) + multiset{tag.1};
    }
    forall id ensures held'[(Fs, id)] + OrigCount(s', id) + EndedIds(s'.ended)[id] == multiset(s'.accepted)[id] {
      assert held[(Fs, id)] + OrigCount(s, id) + EndedIds(s.ended)[id] == multiset(s.accepted)[id];
    }
  }

  lemma AddFsSeq(s: State, id: nat, barrier: bool, empty: bool, back: bool)
    requires SeqInv(s) && id !in s.accepted
    ensures SeqInv(AddFs(s, id, barrier, empty, back))
  {
    hide SeqOk, ConsOk, Tags;
    var rq := Rq(id, Fs, barrier, empty, s.ordcolor, s.added, false, false);
    InsertBackHeld(s.(accepted := s.accepted + [id], epochOf := s.epochOf[id := s.added]), rq);
    TagsConcat(s.sched, [rq]);
    TagsOne(rq);
    Brought(s, AddFs(s, id, barrier, empty, back), (Fs, id));
  }

  lemma AddSpecialSeq(s: State, id: nat, front: bool, hard: bool)
    requires SeqInv(s)
    ensures SeqInv(AddSpecial(s, id, front, hard))
  {
    hide SeqOk, ConsOk, Tags;
    var rq := Rq(id, Special, hard, false, s.ordcolor, s.added, true, false);
    InsertBackHeld(if hard then s.(ordcolor := !s.ordcolor, colors := Recolored(s.colors, !s.ordcolor)) else s, rq);
    TagsFirst(rq, s.queue);
    Brought(s, AddSpecial(s, id, front, hard), (Special, id));
  }

  lemma BarErrorSeq(s: State, error: int)
    requires SeqInv(s)
    ensures SeqInv(BarError(s, error))
  {
    hide FirstError, EndedIds, CurSeq, Tags;
    FirstErrorAppend(s.reports, error);
    var s' := BarError(s, error);
    forall k, id | IsProxy(k) ensures Held(s')[(k, id)] == Expected(s', k, id) {
      assert Held(s)[(k, id)] == Expected(s, k, id);
    }
    forall id ensures Held(s')[(Fs, id)] + OrigCount(s', id) + EndedIds(s'.ended)[id] == multiset(s'.accepted)[id] {
      assert Held(s)[(Fs, id)] + OrigCount(s, id) + EndedIds(s.ended)[id] == multiset(s.accepted)[id];
    }
  }

  // ----- completing

  /** `elv_completed_request` keeps both invariants: it completes DRAIN only when it is the
      current step. */
  lemma CompletedOk(s: State, rq: Rq, held: multiset<Tag>)
    requires SeqOk(s, held) && ConsOk(s, held)
    ensures SeqOk(Completed(s, rq), held) && ConsOk(Completed(s, rq), held)
    ensures Held(Completed(s, rq)) == Held(s) && Completed(s, rq).sched == s.sched
  {
    hide Tags, SeqOk, ConsOk, ReqSeq;
    var s1 := s.(inFlight := if rq.Accounted() then s.inFlight - 1 else s.inFlight);
    OkTransfer(s, s1, held);
    if Completed(s, rq) != s1 {
      SameWithoutSteps(held, {SEQ_DRAIN});
      CompleteSeqOk(s1, held, {SEQ_DRAIN}, 0, held);
      CompleteSeqCons(s1, held, {SEQ_DRAIN}, 0, held);
    }
  }

  lemma SameWithoutSteps(held: multiset<Tag>, steps: set<nat>)
    requires SEQ_PREFLUSH !in steps && SEQ_BAR !in steps && SEQ_POSTFLUSH !in steps
    ensures forall k, id :: IsProxy(k) ==> held[(k, id)] == if StepOf(k) in steps then 0 else held[(k, id)]
  {
  }

  /** Taking off something that is no proxy leaves the sequence as it is. */
  lemma SeqOkWithout(s: State, held: multiset<Tag>, tag: Tag)
    requires SeqOk(s, held + multiset{tag}) && !IsProxy(tag.0)
    ensures SeqOk(s, held)
  {
    hide FirstError, CurSeq;
    forall k, id | IsProxy(k) ensures held[(k, id)] == Expected(s, k, id) {
      assert (held + multiset{tag})[(k, id)] == Expected(s, k, id);
    }
  }

  lemma ConsOkWithout(s: State, held: multiset<Tag>, tag: Tag)
    requires ConsOk(s, held + multiset{tag}) && !tag.0.Fs?
    ensures ConsOk(s, held)
  {
    hide EndedIds;
    forall id ensures held[(Fs, id)] + OrigCount(s, id) + EndedIds(s.ended)[id] == multiset(s.accepted)[id] {
      assert (held + multiset{tag})[(Fs, id)] == held[(Fs, id)];
    }
  }

  /** Ending a request that is held. */
  lemma EndHeld(s: State, s': State, held: multiset<Tag>, id: nat, error: int)
    requires SeqOk(s, held + multiset{(Fs, id)}) && ConsOk(s, held + multiset{(Fs, id)})
    requires s'.ordseq == s.ordseq && s'.orig == s.orig && s'.bug == s.bug
    requires s'.ended == s.ended + [(id, error)]
    requires s'.accepted == s.accepted && s'.orderr == s.orderr && s'.reports == s.reports
    ensures SeqOk(s', held) && ConsOk(s', held)
  {
    hide FirstError, EndedIds, CurSeq;
    var full := held + multiset{(Fs, id)};
    EndedAppend(s.ended, (id, error));
    forall k, n | IsProxy(k) ensures held[(k, n)] == Expected(s', k, n) {
      assert full[(k, n)] == Expected(s, k, n);
    }
    forall n ensures held[(Fs, n)] + OrigCount(s', n) + EndedIds(s'.ended)[n] == multiset(s'.accepted)[n] {
      assert full[(Fs, n)] + OrigCount(s, n) + EndedIds(s.ended)[n] == multiset(s.accepted)[n];
    }
  }

  /** Completing a proxy that was held completes its step, once. */
  lemma ProxyCompletes(s: State, held: multiset<Tag>, tag: Tag, error: int)
    requires SeqOk(s, held + multiset{tag}) && ConsOk(s, held + multiset{tag}) && IsProxy(tag.0)
    ensures var s' := CompleteSeq(s, {StepOf(tag.0)}, error); SeqOk(s', held) && ConsOk(s', held)
    ensures s.orig.Some? && s.orig.value.id == tag.1 && StepOf(tag.0) !in s.ordseq
  {
    hide FirstError, EndedIds, CurSeq;
    var full := held + multiset{tag};
    assert full[(tag.0, tag.1)] == Expected(s, tag.0, tag.1);
    forall k, id | IsProxy(k)
      ensures held[(k, id)] == if StepOf(k) in {StepOf(tag.0)} then 0 else full[(k, id)]
    {
      assert full[(k, id)] == Expected(s, k, id);
    }
    CompleteSeqOk(s, full, {StepOf(tag.0)}, error, held);
    assert forall id :: held[(Fs, id)] == full[(Fs, id)];
    CompleteSeqCons(s, full, {StepOf(tag.0)}, error, held);
  }

  lemma CompleteSeqInv(s: State, i: nat, error: int)
    requires SeqInv(s)
    ensures SeqInv(Complete(s, i, error))
  {
    hide Tags, SeqOk, ConsOk, Completed, CompleteSeq;
    if i < |s.driver| {
      var rq := s.driver[i];
      TagsRemove(s.driver, i);
      var s0 := s.(driver := s.driver[..i] + s.driver[i+1..],
                   ended := if rq.kind.Fs? then s.ended + [(rq.id, error)] else s.ended);
      assert Held(s) == Held(s0) + multiset{TagOf(rq)};
      if rq.kind.Fs? {
        EndHeld(s, s0, Held(s0), rq.id, error);
        CompletedOk(s0, rq, Held(s0));
      } else {
        OkTransfer(s, s0, Held(s));
        CompletedOk(s0, rq, Held(s));
        var s1 := Completed(s0, rq);
        if rq.kind.Special? {
          SeqOkWithout(s1, Held(s0), TagOf(rq));
          ConsOkWithout(s1, Held(s0), TagOf(rq));
        } else {
          ProxyCompletes(s1, Held(s0), TagOf(rq), error);
          CompleteSeqHeld(s1, {StepOf(rq.kind)}, error);
        }
      }
    }
  }

  lemma CompleteSeqHeld(s: State, steps: set<nat>, error: int)
    ensures Held(CompleteSeq(s, steps, error)) == Held(s) && CompleteSeq(s, steps, error).sched == s.sched
  {
  }

  // ----- starting a sequence

  predicate Queued(rq: Rq, mode: Mode, step: nat) {
    exists i :: 0 <= i < |Proxies(rq, mode)| && StepOf(Proxies(rq, mode)[i].kind) == step
  }

  lemma ProxiesInOrder(rq: Rq, mode: Mode)
    ensures var ps := Proxies(rq, mode);
            && (forall i, j :: 0 <= i < j < |ps| ==> StepOf(ps[i].kind) < StepOf(ps[j].kind))
            && (mode.doPre ==> ps != [] && ps[0].kind == PreFlush)
            && (mode.doBar ==> var i := if mode.doPre then 1 else 0; i < |ps| && ps[i].kind == Bar)
            && (mode.doPost ==> ps != [] && ps[|ps|-1].kind == PostFlush)
            && (forall i :: 0 <= i < |ps| ==>
                  (ps[i].kind == PreFlush && mode.doPre) || (ps[i].kind == Bar && mode.doBar) || (ps[i].kind == PostFlush && mode.doPost))
  {
  }

  /** The steps of a sequence: each is skipped, queued as one proxy, or (DRAIN) waited for,
      and only one of these. */
  lemma StepsPartition(rq: Rq, mode: Mode, busy: bool, step: nat)
    requires SEQ_DRAIN <= step <= SEQ_POSTFLUSH
    ensures var skipped, queued := step in Skipped(mode, busy), Queued(rq, mode, step);
            var waited := step == SEQ_DRAIN && mode.byDrain && busy;
            (skipped || queued || waited) && !(skipped && queued) && !(queued && waited) && !(skipped && waited)
  {
    hide Proxies;
    ProxiesInOrder(rq, mode);
    if step == SEQ_BAR && mode.doBar {
      var i := if mode.doPre then 1 else 0;
      assert StepOf(Proxies(rq, mode)[i].kind) == step;
    }
  }

  lemma ProxyTags(rq: Rq, mode: Mode)
    ensures Tags(Proxies(rq, mode)) ==
            (if mode.doPre then multiset{(PreFlush, rq.id)} else multiset{})
            + (if mode.doBar then multiset{(Bar, rq.id)} else multiset{})
            + (if mode.doPost then multiset{(PostFlush, rq.id)} else multiset{})
  {
    hide Tags;
    TagsNone();
    var a := if mode.doPre then [Proxy(rq, PreFlush)] else [];
    var b := if mode.doBar then [Proxy(rq, Bar)] else [];
    var c := if mode.doPost then [Proxy(rq, PostFlush)] else [];
    TagsOne(Proxy(rq, PreFlush));
    TagsOne(Proxy(rq, Bar));
    TagsOne(Proxy(rq, PostFlush));
    TagsConcat(a + b, c);
    TagsConcat(a, b);
  }

  /** What would be held if no step were skipped. */
  function AllProxies(id: nat): multiset<Tag> {
    multiset{(PreFlush, id), (Bar, id), (PostFlush, id)}
  }

  lemma BeginHeld(s: State, rest: multiset<Tag>)
    requires s.queue != [] && Held(s) == rest + multiset{TagOf(s.queue[0])}
    ensures Held(Begin(s)) == rest + Tags(Proxies(s.queue[0], Begin(s).ordered))
  {
    hide Tags, TagOf, Proxies, SequenceMode;
    var rq := s.queue[0];
    assert s.queue == [rq] + s.queue[1..];
    TagsFirst(rq, s.queue[1..]);
    TagsConcat(Proxies(rq, Begin(s).ordered), s.queue[1..]);
    var others := Tags(s.queue[1..]) + Tags(s.sched) + Tags(s.driver);
    SameRest(rest, others, TagOf(rq));
  }

  lemma SameRest(a: multiset<Tag>, b: multiset<Tag>, t: Tag)
    requires a + multiset{t} == b + multiset{t}
    ensures a == b
  {
    forall x ensures a[x] == b[x] {
      assert (a + multiset{t})[x] == (b + multiset{t})[x];
    }
  }

  lemma BeginOk(s: State, rest: multiset<Tag>)
    requires s.queue != [] && s.queue[0].kind.Fs? && s.orig.None?
    requires SeqOk(s, rest + multiset{TagOf(s.queue[0])}) && ConsOk(s, rest + multiset{TagOf(s.queue[0])})
    ensures SeqOk(Begin(s), rest + AllProxies(s.queue[0].id)) && ConsOk(Begin(s), rest)
  {
    hide EndedIds, Proxies, SequenceMode;
    var rq := s.queue[0];
    var full := rest + multiset{TagOf(rq)};
    var held := rest + AllProxies(rq.id);
    forall k, id | IsProxy(k) ensures held[(k, id)] == Expected(Begin(s), k, id) {
      assert full[(k, id)] == Expected(s, k, id);
    }
    forall id ensures rest[(Fs, id)] + OrigCount(Begin(s), id) + EndedIds(s.ended)[id] == multiset(s.accepted)[id] {
      assert full[(Fs, id)] + OrigCount(s, id) + EndedIds(s.ended)[id] == multiset(s.accepted)[id];
    }
  }

  lemma StartOrderedSeq(s: State)
    requires SeqInv(s) && s.queue != [] && s.queue[0].kind.Fs? && s.orig.None?
    ensures SeqInv(StartOrdered(s))
  {
    hide Tags, SeqOk, ConsOk, CompleteSeq, Proxies, SequenceMode, Skipped;
    var rq := s.queue[0];
    var s1 := Begin(s);
    var rest := Held(s) - multiset{TagOf(rq)};
    HeadHeld(s);
    assert rest + multiset{TagOf(rq)} == Held(s);
    BeginOk(s, rest);
    BeginHeld(s, rest);
    var skip := Skipped(s1.ordered, s1.inFlight != 0);
    NoProxies(s, rest, TagOf(rq));
    SkipLeaves(rest, rq, s1.ordered, s1.inFlight != 0);
    Idle(s, Held(s));
    BeginBits(s);
    CompleteSeqOk(s1, rest + AllProxies(rq.id), skip, 0, Held(s1));
    CompleteSeqCons(s1, rest, skip, 0, Held(s1));
    CompleteSeqHeld(s1, skip, 0);
  }

  lemma Idle(s: State, held: multiset<Tag>)
    requires SeqOk(s, held)
    ensures s.ordseq == {} <==> s.orig.None?
  {
  }

  lemma BeginBits(s: State)
    requires s.queue != [] && s.ordseq == {}
    ensures var s1 := Begin(s); s1.ordseq * Skipped(s1.ordered, s1.inFlight != 0) == {}
  {
  }

  lemma HeadHeld(s: State)
    requires s.queue != []
    ensures TagOf(s.queue[0]) in Held(s)
  {
    assert s.queue == [s.queue[0]] + s.queue[1..];
    TagsFirst(s.queue[0], s.queue[1..]);
  }

  lemma NoProxies(s: State, rest: multiset<Tag>, tag: Tag)
    requires SeqOk(s, rest + multiset{tag}) && s.orig.None? && tag.0.Fs?
    ensures forall k, id :: IsProxy(k) ==> rest[(k, id)] == 0
  {
    hide FirstError, CurSeq;
    forall k, id | IsProxy(k) ensures rest[(k, id)] == 0 {
      assert (rest + multiset{tag})[(k, id)] == Expected(s, k, id);
    }
  }

  /** Of the proxies, those of skipped steps are not held and the others are. */
  lemma SkipLeaves(rest: multiset<Tag>, rq: Rq, mode: Mode, busy: bool)
    requires forall k, id :: IsProxy(k) ==> rest[(k, id)] == 0
    ensures var held, full := rest + Tags(Proxies(rq, mode)), rest + AllProxies(rq.id);
            && (forall k, id :: IsProxy(k) ==>
                  held[(k, id)] == if StepOf(k) in Skipped(mode, busy) then 0 else full[(k, id)])
            && (forall id :: held[(Fs, id)] == rest[(Fs, id)])
  {
    hide Tags, Proxies, Skipped;
    var held, full := rest + Tags(Proxies(rq, mode)), rest + AllProxies(rq.id);
    forall k, id | IsProxy(k) ensures held[(k, id)] == if StepOf(k) in Skipped(mode, busy) then 0 else full[(k, id)] {
      ProxyTag(rq, mode, busy, k, id);
      assert rest[(k, id)] == 0;
    }
    forall id ensures held[(Fs, id)] == rest[(Fs, id)] { ProxyTag(rq, mode, busy, Fs, id); }
  }

  lemma ProxyTag(rq: Rq, mode: Mode, busy: bool, k: Kind, id: nat)
    ensures Tags(Proxies(rq, mode))[(k, id)] ==
            if IsProxy(k) && id == rq.id && StepOf(k) !in Skipped(mode, busy) then 1 else 0
    ensures AllProxies(rq.id)[(k, id)] == if IsProxy(k) && id == rq.id then 1 else 0
  {
    hide Tags, Proxies, Skipped;
    ProxyTags(rq, mode);
    SkippedSteps(mode, busy);
    var a := if mode.doPre then multiset{(PreFlush, rq.id)} else multiset{};
    var b := if mode.doBar then multiset{(Bar, rq.id)} else multiset{};
    var c := if mode.doPost then multiset{(PostFlush, rq.id)} else multiset{};
    assert a[(k, id)] == if mode.doPre && k == PreFlush && id == rq.id then 1 else 0;
    assert b[(k, id)] == if mode.doBar && k == Bar && id == rq.id then 1 else 0;
    assert c[(k, id)] == if mode.doPost && k == PostFlush && id == rq.id then 1 else 0;
    assert Tags(Proxies(rq, mode))[(k, id)] == a[(k, id)] + b[(k, id)] + c[(k, id)];
  }

  lemma SkippedSteps(mode: Mode, busy: bool)
    ensures SEQ_PREFLUSH in Skipped(mode, busy) <==> !mode.doPre
    ensures SEQ_BAR in Skipped(mode, busy) <==> !mode.doBar
    ensures SEQ_POSTFLUSH in Skipped(mode, busy) <==> !mode.doPost
  {
  }

  lemma DoOrderedSeq(s: State)
    requires SeqInv(s) && s.queue != []
    ensures SeqInv(DoOrdered(s).1)
  {
    hide Tags, SeqOk, ConsOk, StartOrdered;
    var rq := s.queue[0];
    if s.ordseq == {} && (rq.kind.Fs? || rq.kind.Bar?) && rq.barrier {
      HeadHeld(s);
      HeadIsFs(s);
      if s.next != NONE {
        StartOrderedSeq(s);
      } else {
        var s' := DoOrdered(s).1;
        assert s.queue == [rq] + s.queue[1..];
        TagsFirst(rq, s.queue[1..]);
        assert Held(s) == Held(s') + multiset{TagOf(rq)};
        EndHeld(s, s', Held(s'), rq.id, -EOPNOTSUPP);
      }
    }
  }

  lemma HeadIsFs(s: State)
    requires SeqOk(s, Held(s)) && s.ordseq == {} && s.queue != [] && TagOf(s.queue[0]) in Held(s)
    ensures s.orig.None? && (s.queue[0].kind.Fs? || s.queue[0].kind.Special?)
  {
    hide Held, FirstError, CurSeq;
    var rq := s.queue[0];
    assert IsProxy(rq.kind) ==> Held(s)[(rq.kind, rq.id)] == Expected(s, rq.kind, rq.id);
  }

  lemma {:induction false} NextRequestSeq(s: State)
    requires SeqInv(s)
    ensures SeqInv(NextRequest(s).1)
    decreases |s.queue|
  {
    hide SeqInv, DoOrdered;
    if s.queue != [] {
      DoOrderedSeq(s);
      if DoOrdered(s).0.Again? {
        AgainShrinks(s);
        NextRequestSeq(DoOrdered(s).1);
      }
    }
  }

  lemma FetchSeq(s: State, start: bool)
    requires SeqInv(s)
    ensures SeqInv(Fetch(s, start))
  {
    hide SeqOk, ConsOk, Tags, NextRequest;
    NextRequestSeq(s);
    var (ok, s') := NextRequest(s);
    if ok && s'.queue != [] {
      var rq := s'.queue[0].(started := true);
      assert s'.queue == [s'.queue[0]] + s'.queue[1..];
      TagsFirst(s'.queue[0], s'.queue[1..]);
      TagsFirst(rq, s'.queue[1..]);
      TagsConcat(s'.driver, [rq]);
      TagsOne(rq);
      Rearranged(s', Fetch(s, start));
    }
  }

  // ----- every run

  lemma InitSeq(mode: Mode)
    ensures SeqInv(Init(mode))
  {
  }

  lemma ApplySeq(s: State, e: Event)
    requires SeqInv(s)
    ensures SeqInv(Apply(s, e))
  {
    hide SeqInv, AddFs, AddSpecial, Dispatch, Fetch, Complete, BarError, Requeue;
    match e
    case EAddFs(id, barrier, empty, back) => if id !in s.accepted { AddFsSeq(s, id, barrier, empty, back); }
    case EAddSpecial(id, front, hard) => AddSpecialSeq(s, id, front, hard);
    case EDispatch(i, p) => DispatchSeq(s, i, p);
    case EFetch(start) => FetchSeq(s, start);
    case EComplete(i, error) => CompleteSeqInv(s, i, error);
    case EBarError(error) => BarErrorSeq(s, error);
    case ERequeue(i) => RequeueSeq(s, i);
  }

  /** In every mode and every run the invariant holds: each step of a sequence is held by
      exactly one proxy until it completes, no step completes twice (the BUG_ON in
      `blk_ordered_complete_seq` is never hit), and every request added is held, running or
      ended, once. */
  lemma {:induction false} EveryRunSequenced(mode: Mode, es: seq<Event>)
    ensures SeqInv(Run(mode, es))
    ensures !Run(mode, es).bug
    decreases |es|
  {
    hide SeqOk, ConsOk, Apply;
    if es == [] {
      InitSeq(mode);
    } else {
      EveryRunSequenced(mode, es[..|es|-1]);
      ApplySeq(Run(mode, es[..|es|-1]), es[|es|-1]);
    }
    NoBug(Run(mode, es));
  }

  lemma NoBug(s: State)
    requires SeqInv(s)
    ensures !s.bug
  {
  }
}
