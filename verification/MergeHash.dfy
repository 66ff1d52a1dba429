/** The elevator's merge hash: queued requests indexed by the sector they end at, so that a bio
    that begins there finds the request to be appended to.  The chains are repaired after back
    merges only; a front merge leaves a request on the chain it is on.
 */
module MergeHash {
  import opened Lists

  /** A queued request: start, sectors, whether it may be merged at all, whether it is a discard,
      and what else it must share with a bio to take it (direction, disk, integrity). */
  datatype Rq = Rq(pos: nat, len: nat, mergeable: bool, discard: bool, attrs: nat) {
    function End(): nat { pos + len }
  }

  datatype Bio = Bio(pos: nat, len: nat, discard: bool, attrs: nat)

  datatype Answer = NoMerge | Back(id: nat) | Front(id: nat) | AskScheduler

  /** ELV_HASH_ENTRIES. */
  const ENTRIES: nat := 64

  /** ELV_HASH_FN, for any hash function `fn`. */
  function Slot(fn: nat -> nat, sector: nat): (b: nat)
    ensures b < ENTRIES
  {
    fn(sector / 8) % ENTRIES
  }

  // ----- the invariant

  /** The chains and the requests' own links agree. */
  ghost predicate ChainsOk(chains: seq<seq<nat>>, on: map<nat, nat>) {
    && |chains| == ENTRIES
    && (forall b :: 0 <= b < ENTRIES ==> NoDup(chains[b]))
    && (forall b, id :: 0 <= b < ENTRIES ==> (id in chains[b] <==> id in on && on[id] == b))
    && (forall id :: id in on ==> on[id] < ENTRIES)
  }

  /** But for `out`, a hashed request is on the chain of its end, and a mergeable one is hashed. */
  ghost predicate Indexed(fn: nat -> nat, rqs: map<nat, Rq>, on: map<nat, nat>, out: Option<nat>) {
    && (forall id :: id in on ==> id in rqs && (out == Some(id) || on[id] == Slot(fn, rqs[id].End())))
    && (forall id :: id in rqs && rqs[id].mergeable && out != Some(id) ==> id in on)
  }

  lemma AddChains(chains: seq<seq<nat>>, on: map<nat, nat>, id: nat, b: nat)
    requires ChainsOk(chains, on) && id !in on && b < ENTRIES
    ensures ChainsOk(chains[b := [id] + chains[b]], on[id := b])
  {
    ConsNoDup(id, chains[b]);
  }

  lemma DelChains(chains: seq<seq<nat>>, on: map<nat, nat>, id: nat)
    requires ChainsOk(chains, on) && id in on
    ensures ChainsOk(chains[on[id] := Remove(chains[on[id]], id)], on - {id})
  {
    hide NoDup, Remove;
    var b := on[id];
    var chains' := chains[b := Remove(chains[b], id)];
    RemoveFacts(chains[b], id);
    forall c, x | 0 <= c < ENTRIES ensures x in chains'[c] <==> x in on - {id} && (on - {id})[x] == c {
      assert x in chains[c] <==> x in on && on[x] == c;
    }
  }

  /** Whether a scheduler neighbour can be joined to the request before it.  Unlike a bio and a
      request, two requests are not compared for being discards. */
  predicate Adjoins(rqs: map<nat, Rq>, id: nat, next: nat) {
    && id in rqs && next in rqs && id != next && rqs[id].mergeable && rqs[next].mergeable
    && rqs[id].End() == rqs[next].pos && rqs[id].attrs == rqs[next].attrs
  }

  function Joined(rqs: map<nat, Rq>, id: nat, next: nat): map<nat, Rq>
    requires Adjoins(rqs, id, next)
  {
    rqs[id := rqs[id].(len := rqs[id].len + rqs[next].len)] - {next}
  }

  lemma LooseIndexed(fn: nat -> nat, rqs: map<nat, Rq>, on: map<nat, nat>, id: nat)
    requires Indexed(fn, rqs, on, None)
    ensures Indexed(fn, rqs, on, Some(id))
  {
  }

  /** A request with a new end is out of place, and nothing else is. */
  lemma GrownIndexed(fn: nat -> nat, rqs: map<nat, Rq>, on: map<nat, nat>, id: nat, rq: Rq)
    requires Indexed(fn, rqs, on, None) || Indexed(fn, rqs, on, Some(id))
    ensures Indexed(fn, rqs[id := rq], on, Some(id))
  {
    hide Slot;
  }

  /** A front merge moves the start only, so the index still holds. */
  lemma SameEndIndexed(fn: nat -> nat, rqs: map<nat, Rq>, on: map<nat, nat>, id: nat, rq: Rq)
    requires Indexed(fn, rqs, on, None) && id in rqs && rq.End() == rqs[id].End() && (rq.mergeable ==> rqs[id].mergeable)
    ensures Indexed(fn, rqs[id := rq], on, None)
  {
    hide Slot;
  }

  lemma GoneIndexed(fn: nat -> nat, rqs: map<nat, Rq>, on: map<nat, nat>, id: nat)
    requires Indexed(fn, rqs, on, Some(id)) && id !in on
    ensures Indexed(fn, rqs - {id}, on, None)
  {
    hide Slot;
  }

  /** A back merge candidate for a bio at `offset`, as a scan of the queue would see it. */
  predicate EndsAt(rqs: map<nat, Rq>, id: nat, offset: nat) {
    id in rqs && rqs[id].mergeable && rqs[id].End() == offset
  }

  /** The candidate that comes first on a chain. */
  function FirstOn(chain: seq<nat>, rqs: map<nat, Rq>, offset: nat): (r: Option<nat>)
    ensures r.Some? ==> r.value in chain && EndsAt(rqs, r.value, offset)
    ensures r.None? ==> forall id :: id in chain ==> !EndsAt(rqs, id, offset)
  {
    if chain == [] then None
    else if EndsAt(rqs, chain[0], offset) then Some(chain[0])
    else FirstOn(chain[1..], rqs, offset)
  }

  /** A chain holds queued requests, among them all the candidates. */
  lemma ChainQueued(fn: nat -> nat, rqs: map<nat, Rq>, on: map<nat, nat>, offset: nat, chain: seq<nat>)
    requires Indexed(fn, rqs, on, None) && forall id :: id in chain <==> id in on && on[id] == Slot(fn, offset)
    ensures forall id :: id in chain ==> id in rqs
    ensures forall id :: EndsAt(rqs, id, offset) ==> id in chain
  {
    hide Slot;
  }

  lemma DroppedIndexed(fn: nat -> nat, rqs: map<nat, Rq>, on: map<nat, nat>, id: nat)
    requires Indexed(fn, rqs, on, Some(id)) && id !in on && id in rqs && !rqs[id].mergeable
    ensures Indexed(fn, rqs, on, None)
  {
    hide Slot;
  }

  class Elevator {
    const fn: nat -> nat
    const allow: (nat, Bio) -> bool
    const nomerges: bool
    const hash: array<seq<nat>>
    var on: map<nat, nat>
    var rqs: map<nat, Rq>
    var last: Option<nat>

    ghost predicate ValidBut(out: Option<nat>)
      reads this, hash
    {
      hash.Length == ENTRIES && ChainsOk(hash[..], on) && Indexed(fn, rqs, on, out)
    }

    ghost predicate Valid()
      reads this, hash
    {
      ValidBut(None) && (last.Some? ==> last.value in rqs)
    }

    constructor (fn: nat -> nat, allow: (nat, Bio) -> bool, nomerges: bool)
      ensures Valid() && rqs == map[] && last.None? && fresh(hash)
      ensures this.fn == fn && this.allow == allow && this.nomerges == nomerges
    {
      this.fn, this.allow, this.nomerges := fn, allow, nomerges;
      hash := new seq<nat>[ENTRIES](i => []);
      on, rqs, last := map[], map[], None;
    }

    /** `elv_rqhash_add`. */
    method HashAdd(id: nat)
      requires ValidBut(Some(id)) && id in rqs && id !in on
      modifies `on, hash
      ensures ValidBut(None)
      ensures var b := Slot(fn, rqs[id].End()); hash[..] == old(hash[..])[b := [id] + old(hash[..])[b]]
    {
      hide ChainsOk;
      var b := Slot(fn, rqs[id].End());
      LengthIs(hash[..], on);
      AddChains(hash[..], on, id, b);
      ghost var before := hash[..];
      hash[b] := [id] + hash[b];
      assert hash[..] == before[b := [id] + before[b]];
      on := on[id := b];
    }

    /** `elv_rqhash_del`. */
    method HashDel(id: nat)
      requires ValidBut(Some(id))
      modifies `on, hash
      ensures ValidBut(Some(id)) && on == old(on) - {id}
    {
      hide ChainsOk;
      LengthIs(hash[..], on);
      if id in on {
        DelChains(hash[..], on, id);
        ghost var before := hash[..];
        hash[on[id]] := Remove(hash[on[id]], id);
        assert hash[..] == before[on[id] := Remove(before[on[id]], id)];
        on := on - {id};
      } else {
        assert on - {id} == on;
      }
    }

    /** `elv_rqhash_reposition`: to the chain of its new end. */
    method HashReposition(id: nat)
      requires ValidBut(Some(id)) && id in rqs
      modifies `on, hash
      ensures ValidBut(None)
    {
      HashDel(id);
      HashAdd(id);
    }

    /** `elv_rqhash_find`: a mergeable request that ends at `offset` is found if there is one
        anywhere in the queue.  Requests that have become unmergeable fall off on the way. */
    method HashFind(offset: nat) returns (r: Option<nat>)
      requires ValidBut(None)
      modifies `on, hash
      ensures ValidBut(None)
      ensures r.Some? ==> EndsAt(rqs, r.value, offset)
      ensures r.None? <==> forall id :: id in rqs ==> !EndsAt(rqs, id, offset)
      ensures hash.Length == ENTRIES && r == FirstOn(old(hash[..])[Slot(fn, offset)], rqs, offset)
      ensures on.Keys <= old(on).Keys
    {
      hide ChainsOk, Indexed, Slot;
      LengthIs(hash[..], on);
      var chain := hash[Slot(fn, offset)];
      OnChain(hash[..], on, Slot(fn, offset));
      ChainQueued(fn, rqs, on, offset, chain);
      for i := 0 to |chain|
        invariant ValidBut(None) && on.Keys <= old(on).Keys
        invariant forall id :: id in chain[..i] ==> !EndsAt(rqs, id, offset)
        invariant FirstOn(chain, rqs, offset) == FirstOn(chain[i..], rqs, offset)
      {
        var id := chain[i];
        assert chain[..i+1] == chain[..i] + [id];
        assert chain[i..][1..] == chain[i+1..];
        if !rqs[id].mergeable {
          LooseIndexed(fn, rqs, on, id);
          HashDel(id);
          DroppedIndexed(fn, rqs, on, id);
        } else if rqs[id].End() == offset {
          return Some(id);
        }
      }
      assert chain[..|chain|] == chain;
      r := None;
    }

    /** `elv_insert` with ELEVATOR_INSERT_SORT. */
    method Insert(id: nat, rq: Rq)
      requires Valid() && id !in rqs
      modifies `on, hash, `rqs, `last
      ensures Valid() && rqs == old(rqs)[id := rq]
      ensures rq.mergeable ==> var b := Slot(fn, rq.End()); hash[..] == old(hash[..])[b := [id] + old(hash[..])[b]]
      ensures last == if rq.mergeable && old(last).None? then Some(id) else old(last)
    {
      rqs := rqs[id := rq];
      if rq.mergeable {
        HashAdd(id);
        if last.None? {
          last := Some(id);
        }
      }
    }

    /** A request grown too far for more: REQ_NOMERGE, and no longer the one-hit cache. */
    method SetNoMerge(id: nat)
      requires Valid() && id in rqs
      modifies `rqs, `last
      ensures Valid() && rqs == old(rqs)[id := old(rqs)[id].(mergeable := false)]
      ensures last == if old(last) == Some(id) then None else old(last)
    {
      hide ChainsOk, Indexed, Slot;
      SameEndIndexed(fn, rqs, on, id, rqs[id].(mergeable := false));
      rqs := rqs[id := rqs[id].(mergeable := false)];
      if last == Some(id) {
        last := None;
      }
    }

    /** `elv_dispatch_add_tail` and `elv_dispatch_sort`: off the hash and out of the scheduler. */
    method Dispatch(id: nat)
      requires Valid() && id in rqs
      modifies `on, hash, `rqs, `last
      ensures Valid() && rqs == old(rqs) - {id}
      ensures last == if old(last) == Some(id) then None else old(last)
    {
      hide ChainsOk, Indexed, Slot;
      if last == Some(id) {
        last := None;
      }
      LooseIndexed(fn, rqs, on, id);
      HashDel(id);
      GoneIndexed(fn, rqs, on, id);
      rqs := rqs - {id};
    }

    /** The back merge of `__make_request` with `attempt_back_merge`: the bio is appended, and
        `next` too if it adjoins and fits. */
    method BackMerge(id: nat, bio: Bio, next: Option<nat>, fits: bool) returns (joined: bool)
      requires Valid() && id in rqs && rqs[id].mergeable && rqs[id].End() == bio.pos
      modifies `on, hash, `rqs, `last
      ensures Valid()
      ensures var grown := old(rqs)[id].(len := old(rqs)[id].len + bio.len);
              && joined == (next.Some? && fits && Adjoins(old(rqs)[id := grown], id, next.value))
              && rqs == if joined then Joined(old(rqs)[id := grown], id, next.value) else old(rqs)[id := grown]
      ensures last == Some(id)
      ensures joined ==> old(rqs)[next.value].pos == bio.pos + bio.len && old(rqs)[next.value].attrs == old(rqs)[id].attrs
    {
      hide ChainsOk, Indexed, Slot;
      GrownIndexed(fn, rqs, on, id, rqs[id].(len := rqs[id].len + bio.len));
      rqs := rqs[id := rqs[id].(len := rqs[id].len + bio.len)];
      joined := next.Some? && fits && Adjoins(rqs, id, next.value);
      if joined {
        MergeRequests(id, next.value);
      } else {
        HashReposition(id);
        last := Some(id);
      }
    }

    /** The front merge with `attempt_front_merge`: nothing is rehashed unless a neighbour
        takes the request over. */
    method FrontMerge(id: nat, bio: Bio, prev: Option<nat>, fits: bool) returns (joined: bool)
      requires Valid() && id in rqs && rqs[id].mergeable && bio.pos + bio.len == rqs[id].pos
      modifies `on, hash, `rqs, `last
      ensures Valid()
      ensures var grown := old(rqs)[id].(pos := bio.pos, len := old(rqs)[id].len + bio.len);
              && joined == (prev.Some? && fits && Adjoins(old(rqs)[id := grown], prev.value, id))
              && rqs == if joined then Joined(old(rqs)[id := grown], prev.value, id) else old(rqs)[id := grown]
      ensures last == if joined then prev else Some(id)
      ensures joined ==> old(rqs)[prev.value].End() == bio.pos && old(rqs)[prev.value].attrs == old(rqs)[id].attrs
    {
      hide ChainsOk, Indexed, Slot;
      SameEndIndexed(fn, rqs, on, id, rqs[id].(pos := bio.pos, len := rqs[id].len + bio.len));
      rqs := rqs[id := rqs[id].(pos := bio.pos, len := rqs[id].len + bio.len)];
      joined := prev.Some? && fits && Adjoins(rqs, prev.value, id);
      if joined {
        LooseIndexed(fn, rqs, on, prev.value);
        MergeRequests(prev.value, id);
      } else {
        last := Some(id);
      }
    }

    /** `attempt_merge` and `elv_merge_requests`: `next` is appended and goes away. */
    method MergeRequests(id: nat, next: nat)
      requires ValidBut(Some(id)) && Adjoins(rqs, id, next)
      modifies `on, hash, `rqs, `last
      ensures Valid() && rqs == Joined(old(rqs), id, next) && last == Some(id)
    {
      hide ChainsOk, Indexed, Slot;
      GrownIndexed(fn, rqs, on, id, rqs[id].(len := rqs[id].len + rqs[next].len));
      rqs := rqs[id := rqs[id].(len := rqs[id].len + rqs[next].len)];
      HashReposition(id);
      LooseIndexed(fn, rqs, on, next);
      HashDel(next);
      GoneIndexed(fn, rqs, on, next);
      rqs := rqs - {next};
      last := Some(id);
    }

    predicate MergeOk(id: nat, bio: Bio)
      reads `rqs
    {
      && id in rqs && rqs[id].mergeable
      && rqs[id].discard == bio.discard && rqs[id].attrs == bio.attrs && allow(id, bio)
    }

    /** The request remembered from the last merge takes the bio. */
    predicate CacheHit(bio: Bio)
      reads `rqs, `last
    {
      && last.Some? && MergeOk(last.value, bio)
      && (rqs[last.value].End() == bio.pos || rqs[last.value].pos == bio.pos + bio.len)
    }

    /** `elv_merge`, up to where the scheduler is asked for a front merge. */
    method Merge(bio: Bio) returns (a: Answer)
      requires Valid()
      modifies `on, hash
      ensures Valid()
      ensures a.Back? ==> MergeOk(a.id, bio) && rqs[a.id].End() == bio.pos
      ensures a.Front? ==> MergeOk(a.id, bio) && bio.pos + bio.len == rqs[a.id].pos
      ensures a.Back? || a.Front? ==> rqs[a.id].mergeable && rqs[a.id].discard == bio.discard && rqs[a.id].attrs == bio.attrs
      ensures CacheHit(bio) ==> (a.Back? || a.Front?) && last == Some(a.id)
      ensures !CacheHit(bio) ==> (a.NoMerge? <==> nomerges) && !a.Front?
      ensures !CacheHit(bio) && !nomerges ==>
                && hash.Length == ENTRIES
                && var first := FirstOn(old(hash[..])[Slot(fn, bio.pos)], rqs, bio.pos);
                   && (a.Back? <==> first.Some? && MergeOk(first.value, bio))
                   && (a.Back? ==> first == Some(a.id))
      ensures a.AskScheduler? && (forall id :: EndsAt(rqs, id, bio.pos) ==> MergeOk(id, bio))
              ==> forall id :: !EndsAt(rqs, id, bio.pos)
    {
      hide ChainsOk, Indexed, Slot;
      if last.Some? && MergeOk(last.value, bio) {
        var rq := rqs[last.value];
        if rq.End() == bio.pos {
          return Back(last.value);
        } else if rq.pos == bio.pos + bio.len {
          return Front(last.value);
        }
      }
      if nomerges {
        return NoMerge;
      }
      var r := HashFind(bio.pos);
      if r.Some? && MergeOk(r.value, bio) {
        return Back(r.value);
      }
      a := AskScheduler;
    }
  }

  /** A fitting request can be missed: behind one on the same chain that ends at the same
      sector but does not take the bio. */
  method HiddenFit(fn: nat -> nat) returns (e: Elevator, bio: Bio, a: Answer)
    ensures a.AskScheduler? && EndsAt(e.rqs, 1, bio.pos) && e.MergeOk(1, bio)
  {
    hide ChainsOk, Indexed, Slot;
    e := new Elevator(fn, (id, b) => true, false);
    bio := Bio(8, 8, false, 0);
    e.Insert(0, Rq(100, 8, true, false, 0));
    e.Insert(1, Rq(0, 8, true, false, 0));
    e.Insert(2, Rq(4, 4, true, false, 1));
    ghost var chain := e.hash[..][Slot(fn, 8)];
    assert chain[0] == 2;
    a := e.Merge(bio);
  }

  lemma OnChain(chains: seq<seq<nat>>, on: map<nat, nat>, b: nat)
    requires ChainsOk(chains, on) && b < ENTRIES
    ensures forall id :: id in chains[b] <==> id in on && on[id] == b
  {
  }

  lemma LengthIs(chains: seq<seq<nat>>, on: map<nat, nat>)
    requires ChainsOk(chains, on)
    ensures |chains| == ENTRIES && forall id :: id in on ==> on[id] < ENTRIES
  {
  }
}
