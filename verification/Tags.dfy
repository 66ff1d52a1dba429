/** Tagged command queueing (blk-tag.c): a bit map of tags in use, an index from tag to request,
    each request's own tag and the list of busy requests, which must agree.
 */
module Tags {
  import opened Lists

  const EBUSY: int := 16

  function Reverse(q: seq<nat>): seq<nat> {
    if q == [] then [] else Reverse(q[1..]) + [q[0]]
  }

  /** Taking one out of the reversed list is the same as reversing what is left. */
  lemma {:induction false} RemoveReverse(q: seq<nat>, rq: nat)
    requires NoDup(q)
    ensures Reverse(Remove(q, rq)) == Remove(Reverse(q), rq)
    decreases |q|
  {
    if q != [] {
      ReverseSame(q[1..], rq);
      ReverseSame(q[1..], q[0]);
      RemoveLast(Reverse(q[1..]), q[0], rq);
      if q[0] != rq {
        RemoveReverse(q[1..], rq);
        assert ([q[0]] + Remove(q[1..], rq))[1..] == Remove(q[1..], rq);
      } else {
        assert rq !in q[1..];
      }
    }
  }

  lemma {:induction false} RemoveLast(q: seq<nat>, x: nat, rq: nat)
    ensures rq in q ==> Remove(q + [x], rq) == Remove(q, rq) + [x]
    ensures rq !in q ==> Remove(q + [x], rq) == if x == rq then q else q + [x]
    ensures rq !in q ==> Remove(q, rq) == q
    decreases |q|
  {
    if q == [] {
      assert q + [x] == [x];
    } else {
      assert q == [q[0]] + q[1..];
      assert (q + [x])[1..] == q[1..] + [x];
      RemoveLast(q[1..], x, rq);
    }
  }

  lemma {:induction false} ReverseSame(q: seq<nat>, x: nat)
    ensures x in Reverse(q) <==> x in q
    decreases |q|
  {
    if q != [] {
      ReverseSame(q[1..], x);
      assert q == [q[0]] + q[1..];
    }
  }

  // ----- the agreement

  ghost predicate Agree(tagMap: seq<bool>, index: seq<Option<nat>>, tags: map<nat, nat>) {
    && |index| == |tagMap|
    && (forall t :: 0 <= t < |tagMap| ==> (tagMap[t] <==> index[t].Some?))
    && (forall t :: 0 <= t < |tagMap| && index[t].Some? ==> index[t].value in tags && tags[index[t].value] == t)
    && (forall rq :: rq in tags ==> tags[rq] < |tagMap| && index[tags[rq]] == Some(rq))
  }

  /** Live tags are distinct. */
  lemma TagsDistinct(tagMap: seq<bool>, index: seq<Option<nat>>, tags: map<nat, nat>, a: nat, b: nat)
    requires Agree(tagMap, index, tags) && a in tags && b in tags && a != b
    ensures tags[a] != tags[b]
  {
    assert index[tags[a]] == Some(a) && index[tags[b]] == Some(b);
  }

  lemma AgreeStart(tagMap: seq<bool>, index: seq<Option<nat>>, tags: map<nat, nat>, rq: nat, t: nat)
    requires Agree(tagMap, index, tags) && t < |tagMap| && !tagMap[t] && rq !in tags
    ensures Agree(tagMap[t := true], index[t := Some(rq)], tags[rq := t])
  {
  }

  lemma AgreeEnd(tagMap: seq<bool>, index: seq<Option<nat>>, tags: map<nat, nat>, rq: nat)
    requires Agree(tagMap, index, tags) && rq in tags
    ensures Agree(tagMap[tags[rq] := false], index[tags[rq] := None], tags - {rq})
  {
    var t := tags[rq];
    forall a | a in tags - {rq} ensures (tags - {rq})[a] == tags[a] && tags[a] != t {
      TagsDistinct(tagMap, index, tags, a, rq);
    }
  }

  lemma AgreeGrow(tagMap: seq<bool>, index: seq<Option<nat>>, tags: map<nat, nat>, tagMap': seq<bool>, index': seq<Option<nat>>)
    requires Agree(tagMap, index, tags) && |tagMap| <= |tagMap'| == |index'|
    requires tagMap'[..|tagMap|] == tagMap && index'[..|tagMap|] == index
    requires forall t :: |tagMap| <= t < |tagMap'| ==> !tagMap'[t] && index'[t].None?
    ensures Agree(tagMap', index', tags)
  {
    forall t | 0 <= t < |tagMap| ensures tagMap'[t] == tagMap[t] && index'[t] == index[t] {
      assert tagMap'[..|tagMap|][t] == tagMap[t] && index'[..|tagMap|][t] == index[t];
    }
  }

  /** How many tags a start may use: two are kept back from asynchronous requests. */
  function Limit(maxDepth: nat, sync: bool): nat {
    if sync || maxDepth <= 1 then maxDepth
    else if maxDepth == 2 then 1 else maxDepth - 2
  }

  class TaggedQueue {
    var tagMap: array<bool>
    var index: array<Option<nat>>
    var maxDepth: nat
    var refcnt: nat
    var nrRequests: nat
    var tags: map<nat, nat>
    var busy: seq<nat>
    var queue: seq<nat>

    ghost predicate Valid()
      reads this, tagMap, index
    {
      && Agree(tagMap[..], index[..], tags) && maxDepth <= tagMap.Length
      && NoDup(busy) && forall rq :: rq in busy <==> rq in tags
    }

    /** The busy requests in the order they were started. */
    ghost function Started(): seq<nat>
      reads `busy
    {
      Reverse(busy)
    }

    /** `init_tag_map`, with the depth it settles for. */
    constructor (depth: nat, nrRequests: nat)
      ensures Valid() && tags == map[] && maxDepth == tagMap.Length == (if depth > nrRequests * 2 then nrRequests * 2 else depth)
      ensures fresh(tagMap) && fresh(index) && queue == [] && refcnt == 1
    {
      var d := if depth > nrRequests * 2 then nrRequests * 2 else depth;
      tagMap, index := new bool[d](i => false), new Option<nat>[d](i => None);
      maxDepth, refcnt, this.nrRequests, tags, busy, queue := d, 1, nrRequests, map[], [], [];
    }

    /** `find_first_zero_bit`. */
    method FirstZero(limit: nat) returns (t: nat)
      requires limit <= tagMap.Length
      ensures t <= limit && (forall j :: 0 <= j < t ==> tagMap[j]) && (t < limit ==> !tagMap[t])
    {
      t := 0;
      while t < limit && tagMap[t]
        invariant t <= limit && forall j :: 0 <= j < t ==> tagMap[j]
      {
        t := t + 1;
      }
    }

    /** `blk_queue_start_tag`: the lowest free tag within the limit, or none. */
    method StartTag(rq: nat, sync: bool, asyncInFlight: nat) returns (full: bool)
      requires Valid() && rq !in tags
      modifies tagMap, index, `tags, `busy
      ensures Valid() && maxDepth == old(maxDepth)
      ensures sync || maxDepth <= 1 ==> (full <==> forall t :: 0 <= t < maxDepth ==> old(tagMap[t]))
      ensures !sync && maxDepth > 1 ==>
                var limit := if maxDepth - 2 > 1 then maxDepth - 2 else 1;
                full <==> asyncInFlight > limit || forall t :: 0 <= t < limit ==> old(tagMap[t])
      ensures full ==> tags == old(tags) && busy == old(busy) && tagMap[..] == old(tagMap[..]) && index[..] == old(index[..])
      ensures !full ==> rq in tags && tags == old(tags)[rq := tags[rq]] && tags[rq] < maxDepth
      ensures !full ==> !old(tagMap[..])[tags[rq]] && (forall t :: 0 <= t < tags[rq] ==> old(tagMap[t]))
      ensures !full && !sync && maxDepth > 2 ==> tags[rq] < maxDepth - 2
      ensures !full ==> Started() == old(Started()) + [rq]
    {
      hide Agree, NoDup;
      var limit := Limit(maxDepth, sync);
      if !sync && maxDepth > 1 && asyncInFlight > limit {
        return true;
      }
      AgreeLength(tagMap[..], index[..], tags);
      var t := FirstZero(limit);
      if t >= limit {
        return true;
      }
      AgreeStart(tagMap[..], index[..], tags, rq, t);
      ConsNoDup(rq, busy);
      ghost var m, x := tagMap[..], index[..];
      tagMap[t] := true;
      index[t] := Some(rq);
      assert tagMap[..] == m[t := true] && index[..] == x[t := Some(rq)];
      tags := tags[rq := t];
      busy := [rq] + busy;
      assert busy[1..] == old(busy);
      full := false;
    }

    /** `blk_queue_end_tag`. */
    method EndTag(rq: nat)
      requires Valid() && rq in tags
      modifies tagMap, index, `tags, `busy
      ensures Valid() && tags == old(tags) - {rq} && busy == Remove(old(busy), rq)
      ensures tagMap[..] == old(tagMap[..])[old(tags)[rq] := false]
      ensures Started() == Remove(old(Started()), rq)
    {
      hide Agree, NoDup;
      var t := tags[rq];
      AgreeLength(tagMap[..], index[..], tags);
      AgreeEnd(tagMap[..], index[..], tags, rq);
      RemoveFacts(busy, rq);
      RemoveReverse(busy, rq);
      ghost var m, x := tagMap[..], index[..];
      busy := Remove(busy, rq);
      tags := tags - {rq};
      index[t] := None;
      tagMap[t] := false;
      assert tagMap[..] == m[t := false] && index[..] == x[t := None];
    }

    /** `blk_queue_invalidate_tags` with `blk_requeue_request`, no barrier being active: every
        tag is free again, and the requests are at the front in the order they were started. */
    method InvalidateTags()
      requires Valid()
      modifies tagMap, index, `tags, `busy, `queue
      ensures Valid() && tags == map[] && busy == [] && (forall t :: 0 <= t < tagMap.Length ==> !tagMap[t])
      ensures queue == old(Started()) + old(queue)
    {
      hide Agree, NoDup;
      ghost var done: seq<nat> := [];
      while busy != []
        invariant Valid() && Started() + done == old(Started()) && queue == done + old(queue)
        decreases |busy|
      {
        var rq := busy[0];
        assert rq in busy;
        RemoveFirst(busy);
        ghost var before := Reverse(busy[1..]);
        EndTag(rq);
        queue := [rq] + queue;
        assert before + [rq] + done == before + ([rq] + done);
        done := [rq] + done;
      }
      NoneTagged(tagMap[..], index[..], tags, busy);
      assert [] + done == done;
    }

    /** `blk_queue_resize_tags`: live tags stay what they are.  The new tables are capped at
        twice nr_requests, so when that has been lowered below half of the present size the
        copy would not fit; exactly then `fits` is false and nothing is copied here. */
    method ResizeTags(depth: nat) returns (err: int, fits: bool)
      requires Valid()
      modifies `tagMap, `index, `maxDepth
      ensures Valid() && err == if depth > old(tagMap.Length) && refcnt != 1 then -EBUSY else 0
      ensures err != 0 || depth <= old(tagMap.Length) || !fits ==> tagMap == old(tagMap) && index == old(index)
      ensures fits <==> depth <= old(tagMap.Length) || refcnt != 1 || old(tagMap.Length) <= 2 * nrRequests
      ensures maxDepth == if err != 0 || !fits then old(maxDepth)
                          else if depth > old(tagMap.Length) && depth > 2 * nrRequests then 2 * nrRequests else depth
    {
      hide Agree, NoDup;
      if depth <= tagMap.Length {
        maxDepth := depth;
        return 0, true;
      }
      if refcnt != 1 {
        return -EBUSY, true;
      }
      AgreeLength(tagMap[..], index[..], tags);
      var d := if depth > nrRequests * 2 then nrRequests * 2 else depth;
      ghost var m, x := tagMap[..], index[..];
      var oldMap, oldIndex, size := tagMap, index, tagMap.Length;
      if size > d {
        return 0, false;
      }
      var newMap, newIndex := new bool[d](i => false), new Option<nat>[d](i => None);
      forall t | 0 <= t < size { newMap[t] := oldMap[t]; }
      forall t | 0 <= t < size { newIndex[t] := oldIndex[t]; }
      assert newMap[..][..size] == m && newIndex[..][..size] == x;
      AgreeGrow(m, x, tags, newMap[..], newIndex[..]);
      tagMap, index, maxDepth := newMap, newIndex, d;
      err, fits := 0, true;
    }
  }

  lemma AgreeLength(tagMap: seq<bool>, index: seq<Option<nat>>, tags: map<nat, nat>)
    requires Agree(tagMap, index, tags)
    ensures |index| == |tagMap| && forall rq :: rq in tags ==> tags[rq] < |tagMap|
  {
  }

  lemma NoneTagged(tagMap: seq<bool>, index: seq<Option<nat>>, tags: map<nat, nat>, busy: seq<nat>)
    requires Agree(tagMap, index, tags) && busy == [] && forall rq :: rq in busy <==> rq in tags
    ensures tags == map[] && forall t :: 0 <= t < |tagMap| ==> !tagMap[t]
  {
  }

  lemma RemoveFirst(q: seq<nat>)
    requires q != []
    ensures Remove(q, q[0]) == q[1..] && Reverse(q) == Reverse(q[1..]) + [q[0]]
  {
  }
}
