/** Barrier requests: the dispatch queue, the ordered sequence (drain, pre-flush, barrier,
    post-flush) and the colour bit that tells requests before a barrier from those after it.
    Every operation made under the queue lock is one function of the queue state; a run is
    any sequence of them.
 */
module Barrier {
  import opened Lists

  /** File-system request, other (special) request, or one of the queue's own three. */
  datatype Kind = Fs | Special | PreFlush | Bar | PostFlush

  /** A request.  `epoch` counts the barriers added before it; the code has only `color`, its
      parity.  `barrier` is REQ_HARDBARRIER, `soft` REQ_SOFTBARRIER, `started` REQ_STARTED. */
  datatype Rq = Rq(id: nat, kind: Kind, barrier: bool, empty: bool, color: bool, epoch: nat, soft: bool, started: bool) {
    /** `blk_account_rq`: counted in flight while the driver has it. */
    predicate Accounted() { started && (kind.Fs? || kind.Bar?) }
  }

  /** The QUEUE_ORDERED_ flags of an ordered mode. */
  datatype Mode = Mode(byDrain: bool, byTag: bool, doPre: bool, doBar: bool, doPost: bool)

  const NONE := Mode(false, false, false, false, false)
  const DRAIN := Mode(true, false, false, true, false)
  const DRAIN_FLUSH := Mode(true, false, true, true, true)
  const DRAIN_FUA := Mode(true, false, true, true, false)
  const TAG := Mode(false, true, false, true, false)
  const TAG_FLUSH := Mode(false, true, true, true, true)
  const TAG_FUA := Mode(false, true, true, true, false)

  /** The bits of `ordseq`, by number. */
  const STARTED: nat := 0
  const SEQ_DRAIN: nat := 1
  const SEQ_PREFLUSH: nat := 2
  const SEQ_BAR: nat := 3
  const SEQ_POSTFLUSH: nat := 4
  const SEQ_DONE: nat := 5

  const EOPNOTSUPP: int := 95

  /** `queue` is the dispatch queue, `sched` what the I/O scheduler holds, `driver` what was
      handed out.  `ordseq` is the set of bits set; it is empty when no sequence runs.  The
      last fields record history: how many barriers were added and ended, the colour given
      to the requests of each epoch (for the newest one, the colour given now), the statuses
      reported in the running sequence, every request ended with its status, every
      file-system request added with its epoch, and whether the BUG_ON in
      `blk_ordered_complete_seq` was hit. */
  datatype State = State(
    next: Mode,
    queue: seq<Rq>,
    sched: seq<Rq>,
    driver: seq<Rq>,
    ordcolor: bool,
    ordseq: set<nat>,
    ordered: Mode,
    orig: Option<Rq>,
    orderr: int,
    inFlight: int,
    added: nat,
    done: nat,
    colors: seq<bool>,
    reports: seq<int>,
    ended: seq<(nat, int)>,
    accepted: seq<nat>,
    epochOf: map<nat, nat>,
    bug: bool)

  function Init(mode: Mode): State {
    State(mode, [], [], [], false, {}, NONE, None, 0, 0, 0, 0, [false], [], [], [], map[], false)
  }

  // ----- sequence bits

  /** `blk_ordered_cur_seq` while a sequence runs: the lowest clear bit. */
  function CurSeq(b: set<nat>): nat {
    if SEQ_DRAIN !in b then SEQ_DRAIN
    else if SEQ_PREFLUSH !in b then SEQ_PREFLUSH
    else if SEQ_BAR !in b then SEQ_BAR
    else if SEQ_POSTFLUSH !in b then SEQ_POSTFLUSH
    else SEQ_DONE
  }

  /** `blk_ordered_req_seq`, for the running barrier `bar`. */
  function SeqOf(bar: Rq, rq: Rq): nat {
    match rq.kind
    case PreFlush => SEQ_PREFLUSH
    case Bar => SEQ_BAR
    case PostFlush => SEQ_POSTFLUSH
    case Special => SEQ_DRAIN
    case Fs => if rq.color == bar.color then SEQ_DRAIN else SEQ_DONE
  }

  function ReqSeq(s: State, rq: Rq): nat
    requires s.orig.Some?
  {
    SeqOf(s.orig.value, rq)
  }

  /** `blk_ordered_complete_seq`. */
  function CompleteSeq(s: State, steps: set<nat>, error: int): State {
    var s' := s.(orderr := if error != 0 && s.orderr == 0 then error else s.orderr,
                 reports := s.reports + [error],
                 bug := s.bug || s.ordseq * steps != {},
                 ordseq := s.ordseq + steps);
    if CurSeq(s'.ordseq) != SEQ_DONE then s'
    else
      s'.(ordseq := {}, orig := None, done := s.done + 1,
          ended := if s.orig.Some? then s.ended + [(s.orig.value.id, s'.orderr)] else s.ended)
  }

  // ----- insertion

  function Proxy(orig: Rq, kind: Kind): Rq {
    orig.(kind := kind, barrier := true, soft := true, started := false)
  }

  /** The mode a barrier runs in.  An empty barrier has nothing to write and nothing to flush
      afterwards; ordered by tag and without a pre-flush it has no command to carry the tag,
      so the queue drains instead. */
  function SequenceMode(next: Mode, empty: bool): Mode {
    if !empty then next
    else if next.byTag && !next.doPre then next.(doBar := false, doPost := false, byTag := false, byDrain := true)
    else next.(doBar := false, doPost := false)
  }

  /** The requests queued for a sequence, in the order they end up at the head of the queue. */
  function Proxies(rq: Rq, mode: Mode): seq<Rq> {
    (if mode.doPre then [Proxy(rq, PreFlush)] else [])
    + (if mode.doBar then [Proxy(rq, Bar)] else [])
    + (if mode.doPost then [Proxy(rq, PostFlush)] else [])
  }

  /** The steps with nothing to wait for. */
  function Skipped(mode: Mode, busy: bool): set<nat> {
    (if mode.doPost then {} else {SEQ_POSTFLUSH})
    + (if mode.doBar then {} else {SEQ_BAR})
    + (if mode.doPre then {} else {SEQ_PREFLUSH})
    + (if mode.byDrain && busy then {} else {SEQ_DRAIN})
  }

  /** The barrier at the head of the queue stashed away and its proxies queued. */
  function Begin(s: State): State
    requires s.queue != []
  {
    var rq := s.queue[0];
    var mode := SequenceMode(s.next, rq.empty);
    s.(orderr := 0, reports := [], ordered := mode, ordseq := s.ordseq + {STARTED}, orig := Some(rq),
       queue := Proxies(rq, mode) + s.queue[1..],
       inFlight := if rq.Accounted() then s.inFlight + 1 else s.inFlight)
  }

  /** `start_ordered`; the sequence may complete at once when it has nothing to do. */
  function StartOrdered(s: State): State
    requires s.queue != []
  {
    var s' := Begin(s);
    CompleteSeq(s', Skipped(s'.ordered, s'.inFlight != 0), 0)
  }

  /** What `blk_do_ordered` says of the head of the queue: try again, nothing now, or take it. */
  datatype Verdict = Again | Blocked | Take

  /** What `start_ordered` hands back: the first proxy at once, unless the queue must drain. */
  function AfterStart(s: State): Verdict {
    if s.ordseq == {} then Again else if SEQ_DRAIN in s.ordseq then Take else Blocked
  }

  /** `blk_do_ordered` on the head of the queue. */
  function DoOrdered(s: State): (Verdict, State)
    requires s.queue != []
  {
    var rq := s.queue[0];
    var isBarrier := (rq.kind.Fs? || rq.kind.Bar?) && rq.barrier;
    if s.ordseq == {} then
      if !isBarrier then (Take, s)
      else if s.next != NONE then
        var s' := StartOrdered(s);
        (AfterStart(s'), s')
      else
        (Again, s.(queue := s.queue[1..], inFlight := if rq.Accounted() then s.inFlight + 1 else s.inFlight,
                   done := s.done + 1, ended := s.ended + [(rq.id, -EOPNOTSUPP)]))
    else if rq.kind.Special? then (Take, s)
    else if s.ordered.byTag then (if isBarrier && !rq.kind.Bar? then Blocked else Take, s)
    else if s.orig.None? then (Take, s)
    else (if ReqSeq(s, rq) > CurSeq(s.ordseq) then Blocked else Take, s)
  }

  /** Trying again means the head is gone and nothing took its place. */
  lemma AgainShrinks(s: State)
    requires s.queue != [] && DoOrdered(s).0.Again?
    ensures DoOrdered(s).1.queue == s.queue[1..]
  {
    if s.ordseq == {} && s.next != NONE {
      assert [] + s.queue[1..] == s.queue[1..];
    }
  }

  /** `__elv_next_request` on the requests already dispatched: whether the head may be taken. */
  function NextRequest(s: State): (bool, State)
    decreases |s.queue|
  {
    if s.queue == [] then (false, s)
    else
      var (v, s') := DoOrdered(s);
      if v.Again? then
        AgainShrinks(s);
        NextRequest(s')
      else (v.Take? && s'.queue != [], s')
  }

  /** `blk_peek_request` and, when `start` is set, `blk_start_request`. */
  function Fetch(s: State, start: bool): State {
    var (ok, s') := NextRequest(s);
    if !ok || s'.queue == [] then s'
    else
      var rq := s'.queue[0].(started := true);
      if !start then s'.(queue := [rq] + s'.queue[1..])
      else s'.(queue := s'.queue[1..], driver := s'.driver + [rq],
               inFlight := if rq.Accounted() then s'.inFlight + 1 else s'.inFlight)
  }

  // ----- adding, dispatching, completing, requeueing

  /** `elv_drain_elevator` followed by an insertion at the back. */
  function InsertBack(s: State, rq: Rq): State {
    s.(queue := s.queue + s.sched + [rq.(soft := true)], sched := [])
  }

  /** `__elv_add_request` for a file-system request; a barrier always goes to the back and
      toggles the colour of what comes after it. */
  function AddFs(s: State, id: nat, barrier: bool, empty: bool, back: bool): State {
    var rq := Rq(id, Fs, barrier, empty, s.ordcolor, s.added, false, false);
    var s' := s.(accepted := s.accepted + [id], epochOf := s.epochOf[id := s.added]);
    if barrier then
      InsertBack(s', rq).(ordcolor := !s.ordcolor, added := s.added + 1, colors := s.colors + [!s.ordcolor])
    else if back then InsertBack(s', rq)
    else s'.(sched := s.sched + [rq])
  }

  /** The newest epoch in another colour. */
  function Recolored(colors: seq<bool>, color: bool): seq<bool> {
    if colors == [] then [color] else colors[..|colors|-1] + [color]
  }

  /** `__elv_add_request` for a special request.  With REQ_HARDBARRIER it, too, toggles the
      colour, although no sequence is run for it. */
  function AddSpecial(s: State, id: nat, front: bool, hard: bool): State {
    var rq := Rq(id, Special, hard, false, s.ordcolor, s.added, true, false);
    var s' := if hard then s.(ordcolor := !s.ordcolor, colors := Recolored(s.colors, !s.ordcolor)) else s;
    if front then s'.(queue := [rq] + s.queue) else InsertBack(s', rq)
  }

  /** May the scheduler put a request at position `p`?  Both `elv_dispatch_sort` and
      `elv_dispatch_add_tail` stay behind every barrier and started request. */
  predicate DispatchPoint(q: seq<Rq>, p: nat) {
    p <= |q| && forall i :: p <= i < |q| ==> !q[i].soft && !q[i].barrier && !q[i].started
  }

  function Dispatch(s: State, i: nat, p: nat): State {
    if i < |s.sched| && DispatchPoint(s.queue, p) then
      s.(queue := s.queue[..p] + [s.sched[i]] + s.queue[p..], sched := s.sched[..i] + s.sched[i+1..])
    else s
  }

  /** `elv_completed_request`. */
  function Completed(s: State, rq: Rq): State {
    var s' := s.(inFlight := if rq.Accounted() then s.inFlight - 1 else s.inFlight);
    if s'.ordseq != {} && s'.orig.Some? && s'.inFlight == 0 && CurSeq(s'.ordseq) == SEQ_DRAIN
       && (s'.queue == [] || ReqSeq(s', s'.queue[0]) > SEQ_DRAIN)
    then CompleteSeq(s', {SEQ_DRAIN}, 0) else s'
  }

  /** The driver is done with request `i` of those it has. */
  function Complete(s: State, i: nat, error: int): State {
    if i >= |s.driver| then s
    else
      var rq := s.driver[i];
      var s' := Completed(s.(driver := s.driver[..i] + s.driver[i+1..],
                             ended := if rq.kind.Fs? then s.ended + [(rq.id, error)] else s.ended), rq);
      match rq.kind
      case Fs => s'
      case Special => s'
      case PreFlush => CompleteSeq(s', {SEQ_PREFLUSH}, error)
      case Bar => CompleteSeq(s', {SEQ_BAR}, error)
      case PostFlush => CompleteSeq(s', {SEQ_POSTFLUSH}, error)
  }

  /** A part of the barrier request fails before it completes (`req_bio_endio`). */
  function BarError(s: State, error: int): State {
    if s.ordseq == {} then s
    else s.(orderr := if error != 0 && s.orderr == 0 then error else s.orderr, reports := s.reports + [error])
  }

  /** Where a request goes back to: the front, or in sequence order while a sequence runs. */
  function RequeuePoint(s: State, q: seq<Rq>, rq: Rq): (p: nat)
    requires s.orig.Some?
    ensures p <= |q|
  {
    if q == [] || ReqSeq(s, rq) <= ReqSeq(s, q[0]) then 0 else 1 + RequeuePoint(s, q[1..], rq)
  }

  /** `elv_requeue_request`. */
  function Requeue(s: State, i: nat): State {
    if i >= |s.driver| then s
    else
      var rq := s.driver[i];
      var s' := s.(driver := s.driver[..i] + s.driver[i+1..],
                   inFlight := if rq.Accounted() then s.inFlight - 1 else s.inFlight);
      var rq' := rq.(started := false, soft := true);
      var p := if s.ordseq == {} || s.orig.None? then 0 else RequeuePoint(s, s.queue, rq');
      s'.(queue := s.queue[..p] + [rq'] + s.queue[p..])
  }

  // ----- runs

  datatype Event =
    | EAddFs(id: nat, barrier: bool, empty: bool, back: bool)
    | EAddSpecial(id: nat, front: bool, hard: bool)
    | EDispatch(index: nat, point: nat)
    | EFetch(start: bool)
    | EComplete(index: nat, error: int)
    | EBarError(error: int)
    | ERequeue(index: nat)

  function Apply(s: State, e: Event): State {
    match e
    case EAddFs(id, barrier, empty, back) => if id in s.accepted then s else AddFs(s, id, barrier, empty, back)
    case EAddSpecial(id, front, hard) => AddSpecial(s, id, front, hard)
    case EDispatch(i, p) => Dispatch(s, i, p)
    case EFetch(start) => Fetch(s, start)
    case EComplete(i, error) => Complete(s, i, error)
    case EBarError(error) => BarError(s, error)
    case ERequeue(i) => Requeue(s, i)
  }

  /** The state after a run. */
  function Run(mode: Mode, es: seq<Event>): State {
    if es == [] then Init(mode) else Apply(Run(mode, es[..|es|-1]), es[|es|-1])
  }
}
