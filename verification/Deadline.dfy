/** The deadline I/O scheduler: two FIFO lists, two sector-sorted trees and a cached next
    request, all over the same requests.
 */
module Deadline {
  import opened Lists

  datatype Dir = Read | Write

  /** A request: direction, start sector, sectors, FIFO expiry time. */
  datatype Rq = Rq(dir: Dir, pos: nat, len: nat, expire: nat)

  /** One direction: requests by sector, requests by age, and the next one to continue with. */
  datatype Side = Side(tree: seq<nat>, fifo: seq<nat>, next: Option<nat>)

  datatype Tunables = Tunables(readExpire: nat, writeExpire: nat, fifoBatch: nat, writesStarved: nat) {
    function Expire(d: Dir): nat { if d.Read? then readExpire else writeExpire }
  }

  /** The scheduler and the parts of the queue it updates; `rqs` are the requests it holds. */
  datatype State = State(
    tun: Tunables,
    now: nat,
    rqs: map<nat, Rq>,
    r: Side,
    w: Side,
    batching: nat,
    starved: nat,
    lastSector: nat,
    nrSorted: int,
    dispatched: seq<nat>)
  {
    function At(d: Dir): Side { if d.Read? then r else w }
    function With(d: Dir, side: Side): State { if d.Read? then this.(r := side) else this.(w := side) }
  }

  function Init(tun: Tunables): State {
    State(tun, 0, map[], Side([], [], None), Side([], [], None), 0, 0, 0, 0, [])
  }

  // ----- the sorted tree

  function PosOf(rqs: map<nat, Rq>, id: nat): nat { if id in rqs then rqs[id].pos else 0 }

  /** The request of a tree at a given start sector, if any. */
  function FindPos(tree: seq<nat>, rqs: map<nat, Rq>, pos: nat): (r: Option<nat>)
    ensures r.Some? ==> r.value in tree && PosOf(rqs, r.value) == pos
    ensures r.None? ==> forall i :: 0 <= i < |tree| ==> PosOf(rqs, tree[i]) != pos
  {
    if tree == [] then None
    else if PosOf(rqs, tree[0]) == pos then Some(tree[0])
    else FindPos(tree[1..], rqs, pos)
  }

  function InsertSorted(tree: seq<nat>, rqs: map<nat, Rq>, id: nat): seq<nat> {
    if tree == [] || PosOf(rqs, id) < PosOf(rqs, tree[0]) then [id] + tree
    else [tree[0]] + InsertSorted(tree[1..], rqs, id)
  }

  /** `deadline_latter_request`: the one after `id` in its tree. */
  function Latter(tree: seq<nat>, id: nat): Option<nat> {
    if |tree| < 2 then None
    else if tree[0] == id then Some(tree[1])
    else Latter(tree[1..], id)
  }

  // ----- the operations

  /** `deadline_remove_request`: off the FIFO and the tree. */
  function RemoveRequest(s: State, id: nat): State
    requires id in s.rqs
  {
    var d := s.rqs[id].dir;
    var side := s.At(d);
    var next := if side.next == Some(id) then Latter(side.tree, id) else side.next;
    s.With(d, Side(Remove(side.tree, id), Remove(side.fifo, id), next))
  }

  /** `deadline_move_request`: to the dispatch queue, remembering where to go on. */
  function MoveRequest(s: State, id: nat): State
    requires id in s.rqs
  {
    var rq := s.rqs[id];
    var s1 := s.(r := s.r.(next := None), w := s.w.(next := None), lastSector := rq.pos + rq.len);
    var s2 := s1.With(rq.dir, s1.At(rq.dir).(next := Latter(s.At(rq.dir).tree, id)));
    var s3 := RemoveRequest(s2, id);
    s3.(nrSorted := s3.nrSorted - 1, dispatched := s3.dispatched + [id], rqs := s3.rqs - {id})
  }

  /** `deadline_add_rq_rb`: a request already at that sector goes to the dispatch queue. */
  function AddRqRb(s: State, id: nat): State
    requires id in s.rqs
  {
    var d := s.rqs[id].dir;
    var alias := FindPos(s.At(d).tree, s.rqs, s.rqs[id].pos);
    var s' := if alias.Some? && alias.value in s.rqs && alias.value != id then MoveRequest(s, alias.value) else s;
    s'.With(d, s'.At(d).(tree := InsertSorted(s'.At(d).tree, s'.rqs, id)))
  }

  /** `elv_insert` with ELEVATOR_INSERT_SORT and `deadline_add_request`. */
  function AddRequest(s: State, id: nat, d: Dir, pos: nat, len: nat): State {
    var rq := Rq(d, pos, len, s.now + s.tun.Expire(d));
    var s' := AddRqRb(s.(rqs := s.rqs[id := rq], nrSorted := s.nrSorted + 1), id);
    s'.With(d, s'.At(d).(fifo := s'.At(d).fifo + [id]))
  }

  /** A back merge only makes a request longer. */
  function BackMerged(s: State, id: nat, len: nat): State
    requires id in s.rqs
  {
    s.(rqs := s.rqs[id := s.rqs[id].(len := s.rqs[id].len + len)])
  }

  /** A front merge moves its start: `deadline_merged_request` repositions it. */
  function FrontMerged(s: State, id: nat, pos: nat, len: nat): State
    requires id in s.rqs
  {
    var d := s.rqs[id].dir;
    var s1 := s.(rqs := s.rqs[id := s.rqs[id].(pos := pos, len := s.rqs[id].len + len)]);
    AddRqRb(s1.With(d, s1.At(d).(tree := Remove(s1.At(d).tree, id))), id)
  }

  /** `deadline_merged_requests` and `elv_merge_requests`: `next` goes away into `id`, which
      takes over its place in the FIFO if that is the earlier one. */
  function MergedRequests(s: State, id: nat, next: nat): State
    requires id in s.rqs && next in s.rqs && s.rqs[id].dir == s.rqs[next].dir
  {
    var rq, gone := s.rqs[id], s.rqs[next];
    var d := rq.dir;
    var side := s.At(d);
    var s1 := if gone.expire < rq.expire
              then s.With(d, side.(fifo := Replace(Remove(side.fifo, id), next, id)))
                    .(rqs := s.rqs[id := rq.(expire := gone.expire)])
              else s;
    var s2 := RemoveRequest(s1, next);
    s2.(rqs := s2.rqs[id := s2.rqs[id].(len := rq.len + gone.len)] - {next}, nrSorted := s2.nrSorted - 1)
  }

  /** `list_move` behind `next`; `next` itself is taken off afterwards. */
  function Replace(q: seq<nat>, next: nat, id: nat): seq<nat> {
    if q == [] then [] else if q[0] == next then [next, id] + q[1..] else [q[0]] + Replace(q[1..], next, id)
  }

  /** What `deadline_dispatch_requests` selects: a request, and the counters after. */
  datatype Choice = Nothing | Selected(id: nat, batching: nat, starved: nat)

  function FindRequest(s: State, d: Dir, starved: nat): Choice
    requires s.At(d).fifo != []
  {
    var side := s.At(d);
    var expired := side.fifo[0] in s.rqs && s.now > s.rqs[side.fifo[0]].expire;
    if expired || side.next.None? then Selected(side.fifo[0], 1, starved)
    else Selected(side.next.value, 1, starved)
  }

  function Select(s: State): Choice {
    var next := if s.w.next.Some? then s.w.next else s.r.next;
    if next.Some? && s.batching < s.tun.fifoBatch then Selected(next.value, s.batching + 1, s.starved)
    else if s.r.fifo != [] then
      if s.w.fifo != [] && s.starved >= s.tun.writesStarved then FindRequest(s, Write, 0)
      else FindRequest(s, Read, if s.w.fifo != [] then s.starved + 1 else s.starved)
    else if s.w.fifo != [] then FindRequest(s, Write, 0)
    else Nothing
  }

  /** `deadline_dispatch_requests`. */
  function DispatchOne(s: State): State {
    var c := Select(s);
    if c.Nothing? || c.id !in s.rqs then s
    else MoveRequest(s.(batching := c.batching, starved := c.starved), c.id)
  }
}
