/** The anticipatory scheduler's choice of the next request of one direction: a one-way sweep
    that tolerates short, twice as costly, backward seeks.  Requests are known by their start
    sectors, which are distinct within a sort list.
 */
module HeadChoice {
  import opened Lists

  const MAXBACK: nat := 1024 * 1024
  const BACK_PENALTY: nat := 2

  /** Too far behind the head: to be reached by the next sweep only. */
  predicate Wraps(last: nat, s: nat) { s < last && s + MAXBACK < last }

  function Distance(last: nat, s: nat): nat {
    if s >= last then s - last else (last - s) * BACK_PENALTY
  }

  /** Which of two different requests `as_choose_req` returns. */
  predicate Prefers(last: nat, s1: nat, s2: nat) {
    var d1, d2 := Distance(last, s1), Distance(last, s2);
    if Wraps(last, s1) || Wraps(last, s2) then
      if !Wraps(last, s1) then true
      else if !Wraps(last, s2) then false
      else s1 <= s2
    else d1 < d2 || (d1 == d2 && s1 >= s2)
  }

  /** `as_choose_req`. */
  function Choose(last: nat, rq1: Option<nat>, rq2: Option<nat>): Option<nat> {
    if rq1.None? || rq1 == rq2 then rq2
    else if rq2.None? then rq1
    else if Prefers(last, rq1.value, rq2.value) then rq1 else rq2
  }

  /** Of two requests: one ahead of the head, or at most 1024 * 1024 sectors behind it, is chosen
      before one further behind; of two of the former the one with the shorter way, sectors behind
      counting twice, and the one further up if it is as long; of two of the latter the lower. */
  lemma ChooseNearest(last: nat, a: nat, b: nat, x: nat)
    requires x == a || x == b
    ensures var r := Choose(last, Some(a), Some(b)).value;
            && (r == a || r == b)
            && (x + 1024 * 1024 >= last ==>
                  && r + 1024 * 1024 >= last && Way(last, r) <= Way(last, x)
                  && (Way(last, r) == Way(last, x) ==> r >= x))
            && (r + 1024 * 1024 < last ==> r <= x)
  {
  }

  /** The way of the head to a sector, twice as long if it goes back. */
  function Way(last: nat, s: nat): int {
    if s >= last then s - last else 2 * (last - s)
  }

  lemma PrefersOrder(last: nat, a: nat, b: nat, c: nat)
    ensures Prefers(last, a, b) || Prefers(last, b, a)
    ensures Prefers(last, a, b) && Prefers(last, b, a) ==> a == b
    ensures Prefers(last, a, b) && Prefers(last, b, c) ==> Prefers(last, a, c)
  {
  }

  // ----- the best of all

  ghost predicate Sorted(tree: seq<nat>) {
    forall i, j :: 0 <= i < j < |tree| ==> tree[i] < tree[j]
  }

  /** Preferred to every request on the list; none for the empty list. */
  ghost predicate IsBest(last: nat, tree: seq<nat>, c: Option<nat>) {
    if c.None? then tree == [] else c.value in tree && forall x :: x in tree ==> Prefers(last, c.value, x)
  }

  function Without(tree: seq<nat>, k: nat): seq<nat>
    requires k < |tree|
  {
    tree[..k] + tree[k+1..]
  }

  /** `as_find_next_rq`: only the neighbours of request `k` are looked at, with a wrap to the
      first request at the end of the list. */
  function FindNext(last: nat, tree: seq<nat>, k: nat): Option<nat>
    requires k < |tree|
  {
    var prev := if k > 0 then Some(tree[k-1]) else None;
    var next := if k + 1 < |tree| then Some(tree[k+1]) else if k > 0 then Some(tree[0]) else None;
    Choose(last, next, prev)
  }

  /** When the neighbours suffice.  No request starting inside the range just dispatched is
      enough; otherwise the next one, behind the new head, must still beat what follows it. */
  predicate Suffices(last: nat, tree: seq<nat>, k: nat)
    requires k < |tree|
  {
    if k + 1 == |tree| || tree[k+1] >= last then true
    else if Wraps(last, tree[k+1]) then k <= 1 && Wraps(last, tree[|tree|-1])
    else k + 2 == |tree| || BACK_PENALTY * (last - tree[k+1]) < tree[k+2] - last
  }

  lemma InWithout(tree: seq<nat>, k: nat, x: nat)
    requires k < |tree|
    ensures x in Without(tree, k) <==> exists i :: 0 <= i < |tree| && i != k && tree[i] == x
  {
    var r := Without(tree, k);
    assert forall i :: 0 <= i < |r| ==> r[i] == if i < k then tree[i] else tree[i+1];
    if i :| 0 <= i < |tree| && i != k && tree[i] == x {
      assert r[if i < k then i else i - 1] == x;
    }
  }

  /** If the neighbours suffice, the best of the two is the best of all the others. */
  lemma NeighboursBest(tree: seq<nat>, k: nat, last: nat)
    requires Sorted(tree) && k < |tree| && last >= tree[k] && Suffices(last, tree, k)
    ensures IsBest(last, Without(tree, k), FindNext(last, tree, k))
  {
    var c := FindNext(last, tree, k);
    if c.Some? {
      InWithout(tree, k, c.value);
      forall x | x in Without(tree, k) ensures Prefers(last, c.value, x) {
        InWithout(tree, k, x);
        var i :| 0 <= i < |tree| && i != k && tree[i] == x;
        NeighbourBeats(tree, k, last, i);
      }
    }
  }

  lemma NeighbourBeats(tree: seq<nat>, k: nat, last: nat, i: nat)
    requires Sorted(tree) && k < |tree| && last >= tree[k] && Suffices(last, tree, k) && i < |tree| && i != k
    ensures FindNext(last, tree, k).Some? && Prefers(last, FindNext(last, tree, k).value, tree[i])
  {
  }

  /** If they do not, some other request would have been better. */
  lemma NeighboursNotBest(tree: seq<nat>, k: nat, last: nat)
    requires Sorted(tree) && k < |tree| && last >= tree[k] && !Suffices(last, tree, k)
    ensures !IsBest(last, Without(tree, k), FindNext(last, tree, k))
  {
    hide FindNext, Suffices, Prefers;
    var i := BetterOne(tree, k, last);
    InWithout(tree, k, tree[i]);
    assert tree[i] in Without(tree, k);
  }

  lemma BetterOne(tree: seq<nat>, k: nat, last: nat) returns (i: nat)
    requires Sorted(tree) && k < |tree| && last >= tree[k] && !Suffices(last, tree, k)
    ensures i < |tree| && i != k && FindNext(last, tree, k).Some? && !Prefers(last, FindNext(last, tree, k).value, tree[i])
  {
    i := if Wraps(last, tree[k+1]) then if Wraps(last, tree[|tree|-1]) then 0 else |tree| - 1 else k + 2;
  }

  lemma NeighboursBestIff(tree: seq<nat>, k: nat, last: nat)
    requires Sorted(tree) && k < |tree| && last >= tree[k]
    ensures IsBest(last, Without(tree, k), FindNext(last, tree, k)) <==> Suffices(last, tree, k)
  {
    if Suffices(last, tree, k) {
      NeighboursBest(tree, k, last);
    } else {
      NeighboursNotBest(tree, k, last);
    }
  }

  /** When the best request itself goes, its neighbours suffice. */
  lemma BestRemoved(tree: seq<nat>, k: nat, last: nat)
    requires Sorted(tree) && k < |tree| && IsBest(last, tree, Some(tree[k]))
    ensures IsBest(last, Without(tree, k), FindNext(last, tree, k))
  {
    var c := FindNext(last, tree, k);
    if c.Some? {
      InWithout(tree, k, c.value);
      forall x | x in Without(tree, k) ensures Prefers(last, c.value, x) {
        InWithout(tree, k, x);
        var i :| 0 <= i < |tree| && i != k && tree[i] == x;
        BestNeighbourBeats(tree, k, last, i);
      }
    }
  }

  lemma BestNeighbourBeats(tree: seq<nat>, k: nat, last: nat, i: nat)
    requires Sorted(tree) && k < |tree| && IsBest(last, tree, Some(tree[k])) && i < |tree| && i != k
    ensures FindNext(last, tree, k).Some? && Prefers(last, FindNext(last, tree, k).value, tree[i])
  {
    assert tree[0] in tree && tree[|tree|-1] in tree;
    assert k > 0 ==> tree[k-1] in tree;
    assert k + 1 < |tree| ==> tree[k+1] in tree;
  }

  lemma OtherRemoved(tree: seq<nat>, k: nat, last: nat, c: nat)
    requires k < |tree| && IsBest(last, tree, Some(c)) && c != tree[k]
    ensures IsBest(last, Without(tree, k), Some(c))
  {
    InWithout(tree, k, c);
    forall x | x in Without(tree, k) ensures x in tree { InWithout(tree, k, x); }
  }

  lemma WithoutSorted(tree: seq<nat>, k: nat)
    requires Sorted(tree) && k < |tree|
    ensures Sorted(Without(tree, k)) && tree[k] !in Without(tree, k) && forall x :: x in Without(tree, k) ==> x in tree
  {
    forall x | x in Without(tree, k) ensures x in tree && x != tree[k] { InWithout(tree, k, x); }
  }

  /** The best with one more request is the better of the two. */
  lemma BestAdded(last: nat, tree: seq<nat>, tree': seq<nat>, s: nat, c: Option<nat>)
    requires IsBest(last, tree, c) && forall x :: x in tree' <==> x == s || x in tree
    ensures IsBest(last, tree', Choose(last, Some(s), c))
  {
    hide Prefers;
    PrefersOrder(last, s, s, s);
    if c.Some? {
      PrefersOrder(last, s, c.value, s);
      forall x | x in tree ensures Prefers(last, s, c.value) ==> Prefers(last, s, x) {
        PrefersOrder(last, s, c.value, x);
      }
    } else {
      assert forall x :: x in tree' ==> x == s;
    }
  }

  /** A request added where request `k` starts: that one is dispatched, with the head then at
      `last`, and the better of the new one and its neighbours is cached.  It is the best of all
      exactly if the neighbours suffice. */
  lemma AliasBestIff(tree: seq<nat>, tree': seq<nat>, k: nat, last: nat)
    requires Sorted(tree) && k < |tree| && last >= tree[k] && forall x :: x in tree' <==> x in tree
    ensures IsBest(last, tree', Choose(last, Some(tree[k]), FindNext(last, tree, k))) <==> Suffices(last, tree, k)
  {
    hide Without, Prefers, FindNext, Suffices, Choose, IsBest;
    var s, c := tree[k], FindNext(last, tree, k);
    NeighboursBestIff(tree, k, last);
    WithoutAt(tree, k);
    if Suffices(last, tree, k) {
      BestAdded(last, Without(tree, k), tree', s, c);
    } else {
      AliasNotBest(tree, tree', k, last);
    }
  }

  lemma AliasNotBest(tree: seq<nat>, tree': seq<nat>, k: nat, last: nat)
    requires Sorted(tree) && k < |tree| && last >= tree[k] && forall x :: x in tree' <==> x in tree
    requires !Suffices(last, tree, k)
    ensures !IsBest(last, tree', Choose(last, Some(tree[k]), FindNext(last, tree, k)))
  {
    var i := if Wraps(last, tree[k+1]) then if Wraps(last, tree[|tree|-1]) then 0 else |tree| - 1 else k + 2;
    assert tree[i] in tree' && tree[k+1] in tree';
  }

  /** Requests at 0, 1 and 7, the first eight sectors long, and another one added at 0: the head
      is then at 8 and the request at 1 is cached, although the one at 7 is nearer. */
  lemma AliasedAddMisses()
    ensures Sorted([0, 1, 7]) && IsBest(0, [0, 1, 7], Some(0)) && !Suffices(8, [0, 1, 7], 0)
    ensures var next := Choose(8, Some(0), FindNext(8, [0, 1, 7], 0));
            next == Some(1) && !Prefers(8, 1, 7) && !IsBest(8, [0, 1, 7], next)
  {
    assert 7 in [0, 1, 7];
  }

  /** The grown request begins where request `i` of the others starts: that one is dispatched,
      and the better of its neighbours is cached; the grown request itself is not considered. */
  predicate BestUnasked(last: nat, rest: seq<nat>, i: nat)
    requires i < |rest|
  {
    var c := FindNext(last, rest, i);
    Suffices(last, rest, i) && c.Some? && Prefers(last, c.value, rest[i])
  }

  lemma UnaskedBestIff(rest: seq<nat>, tree': seq<nat>, i: nat, last: nat)
    requires Sorted(rest) && i < |rest| && last >= rest[i] && forall x :: x in tree' <==> x in rest
    ensures IsBest(last, tree', FindNext(last, rest, i)) <==> BestUnasked(last, rest, i)
  {
    hide Prefers, Suffices, Without;
    var s, c := rest[i], FindNext(last, rest, i);
    NeighboursBestIff(rest, i, last);
    WithoutAt(rest, i);
    assert s in tree';
    FindNextOther(last, rest, i);
    PrefersOrder(last, s, s, s);
  }

  lemma FindNextOther(last: nat, tree: seq<nat>, k: nat)
    requires Sorted(tree) && k < |tree|
    ensures var c := FindNext(last, tree, k); (c.None? <==> |tree| == 1) && (c.Some? ==> c.value in Without(tree, k))
  {
    hide Prefers;
    if |tree| > 1 {
      var c := FindNext(last, tree, k);
      InWithout(tree, k, c.value);
    }
  }

  /** Is the cached request still the best when request `k` has grown to begin at `s`?  If it
      is the grown one, it must beat the better of its neighbours; if not, the grown one. */
  predicate StillBest(last: nat, tree: seq<nat>, k: nat, s: nat, next: Option<nat>)
    requires k < |tree|
  {
    if next == Some(tree[k]) then
      var rival := FindNext(last, tree, k);
      rival.None? || Prefers(last, s, rival.value)
    else next.Some? && Prefers(last, next.value, s)
  }

  lemma GrownBestIff(last: nat, tree: seq<nat>, tree': seq<nat>, k: nat, s: nat, next: Option<nat>)
    requires Sorted(tree) && k < |tree| && IsBest(last, tree, next)
    requires forall x :: x in tree' <==> x == s || x in Without(tree, k)
    ensures var next' := if next == Some(tree[k]) then Some(s) else next;
            IsBest(last, tree', next') <==> StillBest(last, tree, k, s, next)
  {
    hide Prefers, FindNext, Without;
    PrefersOrder(last, s, s, s);
    if next == Some(tree[k]) {
      BestRemoved(tree, k, last);
      var rival := FindNext(last, tree, k);
      if rival.Some? {
        assert rival.value in tree';
        forall x | x in tree' ensures Prefers(last, s, rival.value) ==> Prefers(last, s, x) {
          PrefersOrder(last, s, rival.value, x);
        }
      }
    } else {
      assert tree[k] in tree;
      OtherRemoved(tree, k, last, next.value);
    }
  }

  /** Requests at 9 and 12 with the head at 8: the first is cached, grows to begin at 5, behind
      the head, and stays cached although the other one is now nearer.  And one that grows onto
      the start of the only other request leaves nothing cached. */
  lemma GrownMisses()
    ensures IsBest(8, [9, 12], Some(9)) && !StillBest(8, [9, 12], 0, 5, Some(9)) && !IsBest(8, [5, 12], Some(5))
    ensures forall s, last :: FindNext(last, [s], 0).None? && !BestUnasked(last, [s], 0) && !IsBest(last, [s], None)
  {
    assert 12 in [5, 12];
  }

  /** One direction of the scheduler: `sort_list`, `last_sector` and `next_rq`. */
  class AsSide {
    var tree: seq<nat>
    var lens: map<nat, nat>
    var last: nat
    var next: Option<nat>

    ghost predicate Valid()
      reads this
    {
      Sorted(tree) && forall s :: s in tree ==> s in lens
    }

    ghost predicate Best()
      reads this
    {
      IsBest(last, tree, next)
    }

    constructor ()
      ensures Valid() && Best() && tree == []
    {
      tree, lens, last, next := [], map[], 0, None;
    }

    /** `as_move_to_dispatch`, of any request: `next` is the best of the rest exactly if the
        neighbours suffice at the new head position. */
    method MoveToDispatch(k: nat)
      requires Valid() && k < |tree|
      modifies this
      ensures Valid() && tree == Without(old(tree), k) && last == old(tree[k] + lens[tree[k]]) && lens == old(lens)
      ensures next == FindNext(last, old(tree), k) && (Best() <==> Suffices(last, old(tree), k))
    {
      hide Suffices, IsBest;
      WithoutSorted(tree, k);
      NeighboursBestIff(tree, k, tree[k] + lens[tree[k]]);
      last := tree[k] + lens[tree[k]];
      next := FindNext(last, tree, k);
      tree := Without(tree, k);
    }

    /** `as_remove_queued_request`, when a request is merged into another. */
    method RemoveQueued(k: nat)
      requires Valid() && k < |tree|
      modifies `tree, `next
      ensures Valid() && tree == Without(old(tree), k) && (old(Best()) ==> Best())
    {
      hide IsBest;
      WithoutSorted(tree, k);
      if next == Some(tree[k]) {
        if Best() { BestRemoved(tree, k, last); }
        next := FindNext(last, tree, k);
      } else if Best() {
        if next.Some? { OtherRemoved(tree, k, last, next.value); } else { NoneBest(last, tree); }
      }
      tree := Without(tree, k);
    }

    /** `as_merged_request` after a front merge: request `k` now begins at `s` and is put in its
        new place.  The cached request stays the one it was, unless another request starts at
        `s`: that one is dispatched, which chooses the next one among its neighbours. */
    method MergedFront(k: nat, s: nat)
      requires Valid() && k < |tree| && s < tree[k]
      modifies this
      ensures Valid() && (forall x :: x in tree <==> x == s || x in Without(old(tree), k))
      ensures s in lens && s + lens[s] == old(tree[k] + lens[tree[k]])
      ensures s !in old(tree) ==> last == old(last) && next == if old(next) == Some(old(tree)[k]) then Some(s) else old(next)
      ensures s !in old(tree) && old(Best()) ==> (Best() <==> StillBest(last, old(tree), k, s, old(next)))
      ensures s in old(tree) ==> last == old(s + lens[s])
      ensures var rest := Without(old(tree), k);
              forall i :: 0 <= i < |rest| && rest[i] == s ==> (Best() <==> BestUnasked(last, rest, i))
    {
      hide IsBest, StillBest, BestUnasked, Without, FindNext, Suffices;
      var start, len := tree[k], lens[tree[k]] + (tree[k] - s);
      var rest := Without(tree, k);
      WithoutSorted(tree, k);
      WithoutAt(tree, k);
      var i := PlaceOf(rest, s);
      if i < |rest| && rest[i] == s {
        UnaskedBestIff(rest, rest, i, s + lens[s]);
        tree := rest;
        MoveToDispatch(i);
        PutBack(rest, i);
      } else {
        InsertedAt(rest, i, s);
        if Best() { GrownBestIff(last, tree, rest[..i] + [s] + rest[i..], k, s, next); }
        tree := rest;
        if next == Some(start) {
          next := Some(s);
        }
      }
      lens := lens[s := len];
      tree := tree[..i] + [s] + tree[i..];
    }

    /** `as_add_request`: a request at the same sector is dispatched first. */
    method AddRequest(s: nat, len: nat)
      requires Valid()
      modifies this
      ensures Valid() && (forall x :: x in tree <==> x == s || x in old(tree)) && lens == old(lens)[s := len]
      ensures s !in old(tree) ==> last == old(last) && (old(Best()) ==> Best())
      ensures s in old(tree) ==> last == old(s + lens[s])
      ensures forall k :: 0 <= k < |old(tree)| && old(tree)[k] == s ==> (Best() <==> Suffices(last, old(tree), k))
    {
      hide Suffices, IsBest, Without, FindNext, Choose;
      var i := PlaceOf(tree, s);
      if i < |tree| && tree[i] == s {
        AliasBestIff(tree, tree, i, s + lens[s]);
        PutBack(tree, i);
        MoveToDispatch(i);
      } else {
        InsertedAt(tree, i, s);
        BestAddedIf(last, tree, tree[..i] + [s] + tree[i..], s, next);
      }
      lens := lens[s := len];
      tree := tree[..i] + [s] + tree[i..];
      next := Choose(last, Some(s), next);
    }
  }

  lemma PutBack(tree: seq<nat>, i: nat)
    requires i < |tree|
    ensures var r := Without(tree, i); i <= |r| && r[..i] + [tree[i]] + r[i..] == tree
  {
  }

  /** The descent of `elv_rb_add`: where a request that starts at `s` belongs. */
  method PlaceOf(tree: seq<nat>, s: nat) returns (i: nat)
    requires Sorted(tree)
    ensures i <= |tree| && (forall j :: 0 <= j < |tree| ==> (j < i <==> tree[j] < s))
    ensures s in tree <==> i < |tree| && tree[i] == s
  {
    i := 0;
    while i < |tree| && tree[i] < s
      invariant i <= |tree| && forall j :: 0 <= j < i ==> tree[j] < s
    {
      i := i + 1;
    }
  }

  lemma NoneBest(last: nat, tree: seq<nat>)
    ensures IsBest(last, tree, None) <==> tree == []
  {
  }

  lemma BestAddedIf(last: nat, tree: seq<nat>, tree': seq<nat>, s: nat, c: Option<nat>)
    requires forall x :: x in tree' <==> x == s || x in tree
    ensures IsBest(last, tree, c) ==> IsBest(last, tree', Choose(last, Some(s), c))
  {
    if IsBest(last, tree, c) { BestAdded(last, tree, tree', s, c); }
  }

  lemma WithoutAt(tree: seq<nat>, k: nat)
    requires Sorted(tree) && k < |tree|
    ensures forall x :: x in tree <==> x == tree[k] || x in Without(tree, k)
    ensures forall j :: 0 <= j < |Without(tree, k)| ==> (j < k <==> Without(tree, k)[j] < tree[k]) && Without(tree, k)[j] != tree[k]
  {
    var r := Without(tree, k);
    assert forall j :: 0 <= j < |r| ==> r[j] == if j < k then tree[j] else tree[j+1];
    forall x ensures x in tree <==> x == tree[k] || x in r { InWithout(tree, k, x); }
  }

  lemma InsertedAt(tree: seq<nat>, i: nat, s: nat)
    requires Sorted(tree) && i <= |tree| && forall j :: 0 <= j < |tree| ==> (j < i <==> tree[j] < s) && tree[j] != s
    ensures Sorted(tree[..i] + [s] + tree[i..])
    ensures forall x :: x in tree[..i] + [s] + tree[i..] <==> x == s || x in tree
  {
    hide Sorted;
    InsertedSorted(tree, i, s);
    var r := tree[..i] + [s] + tree[i..];
    assert tree == tree[..i] + tree[i..];
    forall x ensures x in r <==> x == s || x in tree {
      assert x in tree <==> x in tree[..i] || x in tree[i..];
    }
  }

  lemma InsertedSorted(tree: seq<nat>, i: nat, s: nat)
    requires Sorted(tree) && i <= |tree| && forall j :: 0 <= j < |tree| ==> (j < i <==> tree[j] < s) && tree[j] != s
    ensures Sorted(tree[..i] + [s] + tree[i..])
  {
    var r := tree[..i] + [s] + tree[i..];
    forall a, b | 0 <= a < b < |r| ensures r[a] < r[b] {
      var a', b' := if a < i then a else a - 1, if b < i then b else b - 1;
      assert a != i ==> r[a] == tree[a'];
      assert b != i ==> r[b] == tree[b'];
    }
  }
}
