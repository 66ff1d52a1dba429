/** The request queue as an object: the barrier code as it updates the queue's fields, each
    method tied to the function in Barrier that specifies it.  What those functions keep is
    proved in BarrierSequence, BarrierOrder and BarrierSafety.
 */
module BarrierQueue {
  import opened Lists
  import opened Barrier
  import opened BarrierSequence

  class RequestQueue {
    const next: Mode
    var queue: seq<Rq>
    var sched: seq<Rq>
    var driver: seq<Rq>
    var ordcolor: bool
    var ordseq: set<nat>
    var ordered: Mode
    var orig: Option<Rq>
    var orderr: int
    var inFlight: int
    // history; `added` goes into the requests, so it is not ghost
    var added: nat
    ghost var done: nat
    ghost var colors: seq<bool>
    ghost var reports: seq<int>
    ghost var ended: seq<(nat, int)>
    ghost var accepted: seq<nat>
    ghost var epochOf: map<nat, nat>
    ghost var bug: bool

    ghost function View(): State
      reads this
    {
      State(next, queue, sched, driver, ordcolor, ordseq, ordered, orig, orderr, inFlight,
            added, done, colors, reports, ended, accepted, epochOf, bug)
    }

    constructor (mode: Mode)
      ensures View() == Init(mode) && SeqInv(View())
    {
      next := mode;
      queue, sched, driver, ordcolor, ordseq, ordered := [], [], [], false, {}, NONE;
      orig, orderr, inFlight, added, done, colors := None, 0, 0, 0, 0, [false];
      reports, ended, accepted, epochOf, bug := [], [], [], map[], false;
      new;
      InitSeq(mode);
    }

    /** `blk_ordered_complete_seq`. */
    method OrderedCompleteSeq(steps: set<nat>, error: int)
      modifies `orderr, `reports, `bug, `ordseq, `done, `ended, `orig
      ensures View() == CompleteSeq(old(View()), steps, error)
    {
      hide CurSeq;
      NoteSteps(steps, error);
      if CurSeq(ordseq) == SEQ_DONE {
        FinishSequence();
      }
    }

    /** The first error sticks, and the bits of the steps are set. */
    method NoteSteps(steps: set<nat>, error: int)
      modifies `orderr, `reports, `bug, `ordseq
      ensures View() == old(View()).(orderr := if error != 0 && old(orderr) == 0 then error else old(orderr),
                                     reports := old(reports) + [error], bug := old(bug) || old(ordseq) * steps != {},
                                     ordseq := old(ordseq) + steps)
    {
      if error != 0 && orderr == 0 {
        orderr := error;
      }
      reports, bug, ordseq := reports + [error], bug || ordseq * steps != {}, ordseq + steps;
    }

    /** The sequence is complete: end the original request. */
    method FinishSequence()
      modifies `ordseq, `done, `ended, `orig
      ensures View() == old(View()).(ordseq := {}, orig := None, done := old(done) + 1,
                ended := if old(orig).Some? then old(ended) + [(old(orig).value.id, orderr)] else old(ended))
    {
      if orig.Some? {
        ended := ended + [(orig.value.id, orderr)];
      }
      ordseq, done, orig := {}, done + 1, None;
    }

    /** `start_ordered`: stash the barrier away, stack the sequence at the head of the queue in
        reverse order and complete the steps with nothing to wait for. */
    method StartSequence() returns (v: Verdict)
      requires SeqInv(View()) && queue != [] && queue[0].kind.Fs? && orig.None?
      modifies `orderr, `reports, `ordered, `ordseq, `queue, `orig, `inFlight, `bug, `done, `ended
      ensures View() == StartOrdered(old(View())) && v == AfterStart(View()) && SeqInv(View())
    {
      hide SeqInv, CompleteSeq, Proxies, Skipped;
      StartOrderedSeq(View());
      BeginSequence();
      var skip := StackProxies(orig.value);
      assert View() == Begin(old(View()));
      OrderedCompleteSeq(skip, 0);
      v := if ordseq == {} then Again else if SEQ_DRAIN in ordseq then Take else Blocked;
    }

    /** The start of `start_ordered`: the mode of the sequence, and the barrier stashed away. */
    method BeginSequence()
      requires queue != []
      modifies `orderr, `reports, `ordered, `ordseq, `queue, `orig, `inFlight
      ensures orderr == 0 && reports == [] && ordered == SequenceMode(next, old(queue)[0].empty)
      ensures ordseq == old(ordseq) + {STARTED} && queue == old(queue)[1..] && orig == Some(old(queue)[0])
      ensures inFlight == if old(queue)[0].Accounted() then old(inFlight) + 1 else old(inFlight)
    {
      hide SequenceMode;
      var rq := queue[0];
      var mode := EffectiveMode(next, rq.empty);
      var n := if rq.Accounted() then inFlight + 1 else inFlight;
      orderr, reports, ordered, ordseq, queue, orig, inFlight :=
        0, [], mode, ordseq + {STARTED}, queue[1..], Some(rq), n;
    }

    static method EffectiveMode(next: Mode, empty: bool) returns (mode: Mode)
      ensures mode == SequenceMode(next, empty)
    {
      mode := next;
      if empty {
        mode := mode.(doBar := false, doPost := false);
        if mode.byTag && !mode.doPre {
          mode := mode.(byTag := false, byDrain := true);
        }
      }
    }

    /** The middle of `start_ordered`: queue what the mode asks for, last step first, and note
        the steps that need no waiting for. */
    method StackProxies(rq: Rq) returns (skip: set<nat>)
      modifies this`queue
      ensures queue == Proxies(rq, ordered) + old(queue) && skip == Skipped(ordered, inFlight != 0)
    {
      hide Proxy;
      skip := {};
      if ordered.doPost {
        queue := [Proxy(rq, PostFlush)] + queue;
      } else {
        skip := skip + {SEQ_POSTFLUSH};
      }
      if ordered.doBar {
        queue := [Proxy(rq, Bar)] + queue;
      } else {
        skip := skip + {SEQ_BAR};
      }
      if ordered.doPre {
        queue := [Proxy(rq, PreFlush)] + queue;
      } else {
        skip := skip + {SEQ_PREFLUSH};
      }
      if !(ordered.byDrain && inFlight != 0) {
        skip := skip + {SEQ_DRAIN};
      }
    }

    /** `blk_do_ordered` on the head of the queue. */
    method CheckHead() returns (v: Verdict)
      requires SeqInv(View()) && queue != []
      modifies `orderr, `reports, `ordered, `ordseq, `queue, `orig, `inFlight, `bug, `done, `ended
      ensures (v, View()) == DoOrdered(old(View())) && SeqInv(View())
    {
      hide SeqInv, StartOrdered, ReqSeq, CurSeq;
      DoOrderedSeq(View());
      HeadFacts(View());
      var rq := queue[0];
      if ordseq != {} {
        v := CheckRunning(rq);
      } else if !(rq.kind.Fs? && rq.barrier) {
        v := Take;
      } else if next != NONE {
        v := StartSequence();
      } else {
        queue, done, ended := queue[1..], done + 1, ended + [(rq.id, -EOPNOTSUPP)];
        inFlight := if rq.Accounted() then inFlight + 1 else inFlight;
        v := Again;
      }
    }

    /** The part of `blk_do_ordered` for a queue with a running sequence. */
    method CheckRunning(rq: Rq) returns (v: Verdict)
      requires orig.Some? && ordseq != {} && queue != [] && rq == queue[0]
      ensures v == DoOrdered(View()).0 && DoOrdered(View()).1 == View()
    {
      hide CurSeq;
      if rq.kind.Special? {
        return Take;
      }
      if ordered.byTag {
        return if (rq.kind.Fs? || rq.kind.Bar?) && rq.barrier && !rq.kind.Bar? then Blocked else Take;
      }
      return if SeqOf(orig.value, rq) > CurSeq(ordseq) then Blocked else Take;
    }

    /** `__elv_next_request`, on what has been dispatched. */
    method NextRequestLoop() returns (ok: bool)
      requires SeqInv(View())
      modifies this
      ensures (ok, View()) == NextRequest(old(View())) && SeqInv(View())
    {
      hide SeqInv, DoOrdered;
      while queue != []
        invariant SeqInv(View()) && NextRequest(View()) == NextRequest(old(View()))
        decreases |queue|
      {
        if DoOrdered(View()).0.Again? { AgainShrinks(View()); }
        var v := CheckHead();
        if v != Again {
          return v == Take && queue != [];
        }
      }
      return false;
    }

    /** `blk_fetch_request`: peek, mark as started, dequeue. */
    method FetchRequest() returns (rq: Option<Rq>)
      requires SeqInv(View())
      modifies this
      ensures View() == Fetch(old(View()), true) && SeqInv(View())
      ensures rq.Some? ==> driver == old(driver) + [rq.value] && rq.value.started
      ensures rq.None? ==> driver == old(driver)
    {
      hide SeqInv, NextRequest;
      FetchSeq(View(), true);
      NextRequestKeepsDriver(View());
      var ok := NextRequestLoop();
      if !ok || queue == [] {
        return None;
      }
      var r := queue[0].(started := true);
      queue, driver := queue[1..], driver + [r];
      if r.Accounted() {
        inFlight := inFlight + 1;
      }
      return Some(r);
    }

    /** `elv_completed_request`. */
    method CompletedRequest(rq: Rq)
      requires ordseq == {} <==> orig.None?
      modifies `inFlight, `orderr, `reports, `bug, `ordseq, `done, `ended, `orig
      ensures View() == Completed(old(View()), rq)
    {
      if rq.Accounted() {
        inFlight := inFlight - 1;
      }
      if ordseq != {} {
        if inFlight == 0 && CurSeq(ordseq) == SEQ_DRAIN && (queue == [] || SeqOf(orig.value, queue[0]) > SEQ_DRAIN) {
          OrderedCompleteSeq({SEQ_DRAIN}, 0);
        }
      }
    }

    /** The end of request `i` at the driver: `blk_finish_request` and the end_io callbacks. */
    method EndRequest(i: nat, error: int)
      requires SeqInv(View()) && i < |driver|
      modifies this
      ensures View() == Complete(old(View()), i, error) && SeqInv(View())
    {
      hide SeqOk, ConsOk, CompleteSeq, Completed;
      Idle(View(), Held(View()));
      CompleteSeqInv(View(), i, error);
      var rq := driver[i];
      driver := driver[..i] + driver[i+1..];
      if rq.kind.Fs? {
        ended := ended + [(rq.id, error)];
      }
      CompletedRequest(rq);
      match rq.kind {
        case PreFlush => OrderedCompleteSeq({SEQ_PREFLUSH}, error);
        case Bar => OrderedCompleteSeq({SEQ_BAR}, error);
        case PostFlush => OrderedCompleteSeq({SEQ_POSTFLUSH}, error);
        case _ =>
      }
    }

    /** `elv_requeue_request`: back to the front, or in sequence order while one runs. */
    method RequeueRequest(i: nat)
      requires SeqInv(View()) && i < |driver|
      modifies `queue, `driver, `inFlight
      ensures View() == Requeue(old(View()), i) && SeqInv(View())
    {
      hide SeqInv, ReqSeq, RequeuePoint;
      IdleInv(View());
      RequeueSeq(View(), i);
      var pos := 0;
      var rq := driver[i].(started := false, soft := true);
      if ordseq != {} {
        pos := ScanPlace(orig.value, View(), queue, rq);
      }
      var n := if driver[i].Accounted() then inFlight - 1 else inFlight;
      queue, driver, inFlight := queue[..pos] + [rq] + queue[pos..], driver[..i] + driver[i+1..], n;
    }

    /** `__elv_add_request` for a file-system request. */
    method AddFsRequest(id: nat, barrier: bool, empty: bool, back: bool)
      requires SeqInv(View()) && id !in accepted
      modifies `accepted, `epochOf, `ordcolor, `colors, `added, `queue, `sched
      ensures View() == AddFs(old(View()), id, barrier, empty, back) && SeqInv(View())
    {
      hide SeqInv;
      AddFsSeq(View(), id, barrier, empty, back);
      var rq := Rq(id, Fs, barrier, empty, ordcolor, added, false, false);
      accepted, epochOf := accepted + [id], epochOf[id := added];
      if barrier {
        ToggleColor();
      }
      if barrier || back {
        InsertAtBack(rq);
      } else {
        sched := sched + [rq];
      }
    }

    /** `__elv_add_request` for a special request. */
    method AddSpecialRequest(id: nat, front: bool, hard: bool)
      requires SeqInv(View())
      modifies `ordcolor, `colors, `queue, `sched
      ensures View() == AddSpecial(old(View()), id, front, hard) && SeqInv(View())
    {
      hide SeqInv, Recolored;
      AddSpecialSeq(View(), id, front, hard);
      var rq := Rq(id, Special, hard, false, ordcolor, added, true, false);
      if hard {
        colors := Recolored(colors, !ordcolor);
        ordcolor := !ordcolor;
      }
      if front {
        queue := [rq] + queue;
      } else {
        InsertAtBack(rq);
      }
    }

    /** What is added behind a barrier gets the other colour. */
    method ToggleColor()
      modifies `ordcolor, `colors, `added
      ensures View() == old(View()).(ordcolor := !old(ordcolor), added := old(added) + 1,
                                     colors := old(colors) + [!old(ordcolor)])
    {
      colors := colors + [!ordcolor];
      ordcolor, added := !ordcolor, added + 1;
    }

    /** `elv_drain_elevator` and insertion at the back. */
    method InsertAtBack(rq: Rq)
      modifies `queue, `sched
      ensures View() == InsertBack(old(View()), rq)
    {
      queue, sched := queue + sched + [rq.(soft := true)], [];
    }
  }

  /** What stands at the head of an idle queue. */
  lemma HeadFacts(s: State)
    requires SeqInv(s) && s.queue != []
    ensures s.ordseq == {} <==> s.orig.None?
    ensures s.ordseq == {} ==> s.queue[0].kind.Fs? || s.queue[0].kind.Special?
  {
    hide SeqOk, ConsOk, Tags;
    Idle(s, Held(s));
    HeadHeld(s);
    if s.ordseq == {} { HeadIsFs(s); }
  }

  lemma IdleInv(s: State)
    requires SeqInv(s)
    ensures s.ordseq == {} <==> s.orig.None?
  {
  }

  /** The scan of the queue for the place of a requeued request. */
  method ScanPlace(bar: Rq, ghost s: State, q: seq<Rq>, rq: Rq) returns (pos: nat)
    requires s.orig == Some(bar)
    ensures pos == RequeuePoint(s, q, rq)
  {
    hide SeqOf;
    pos := 0;
    while pos < |q| && SeqOf(bar, rq) > SeqOf(bar, q[pos])
      invariant 0 <= pos <= |q|
      invariant RequeuePoint(s, q, rq) == pos + RequeuePoint(s, q[pos..], rq)
    {
      assert q[pos..][1..] == q[pos+1..];
      pos := pos + 1;
    }
  }

  lemma {:induction false} NextRequestKeepsDriver(s: State)
    ensures NextRequest(s).1.driver == s.driver
    decreases |s.queue|
  {
    hide CurSeq, ReqSeq, Proxies, Skipped, SequenceMode;
    if s.queue != [] && DoOrdered(s).0.Again? {
      AgainShrinks(s);
      NextRequestKeepsDriver(DoOrdered(s).1);
    }
  }
}
