/** The deadline scheduler's structures agree in every reachable state, and draining it
    dispatches every request once.
 */
module DeadlineInv {
  import opened Lists
  import opened Deadline

  // ----- the request after another

  lemma {:induction false} LatterFacts(tree: seq<nat>, id: nat)
    requires NoDup(tree)
    ensures Latter(tree, id).Some? ==> Latter(tree, id).value in tree && Latter(tree, id).value != id
    decreases |tree|
  {
    if |tree| >= 2 && tree[0] != id {
      LatterFacts(tree[1..], id);
    }
  }

  lemma {:induction false} InsertAt(tree: seq<nat>, rqs: map<nat, Rq>, id: nat) returns (k: nat)
    ensures k <= |tree| && InsertSorted(tree, rqs, id) == tree[..k] + [id] + tree[k..]
    ensures forall i :: 0 <= i < k ==> PosOf(rqs, tree[i]) <= PosOf(rqs, id)
    ensures k < |tree| ==> PosOf(rqs, id) < PosOf(rqs, tree[k])
    decreases |tree|
  {
    hide PosOf, InsertSorted;
    InsertUnfolds(tree, rqs, id);
    if tree == [] || PosOf(rqs, id) < PosOf(rqs, tree[0]) {
      k := 0;
      assert tree[..0] + [id] + tree[0..] == [id] + tree;
    } else {
      var rest := tree[1..];
      var j := InsertAt(rest, rqs, id);
      k := j + 1;
      InsertBehind(tree, j, id);
      forall i | 0 <= i < k ensures PosOf(rqs, tree[i]) <= PosOf(rqs, id) {
        assert i > 0 ==> tree[i] == rest[i-1];
      }
    }
  }

  lemma InsertUnfolds(tree: seq<nat>, rqs: map<nat, Rq>, id: nat)
    ensures InsertSorted(tree, rqs, id) ==
            if tree == [] || PosOf(rqs, id) < PosOf(rqs, tree[0]) then [id] + tree
            else [tree[0]] + InsertSorted(tree[1..], rqs, id)
  {
    hide PosOf;
  }

  lemma InsertBehind(tree: seq<nat>, j: nat, id: nat)
    requires j < |tree|
    ensures [tree[0]] + (tree[1..][..j] + [id] + tree[1..][j..]) == tree[..j+1] + [id] + tree[j+1..]
  {
    assert [tree[0]] + tree[1..][..j] == tree[..j+1] && tree[1..][j..] == tree[j+1..];
    ConcatInTurn([tree[0]], tree[1..][..j], [id], tree[1..][j..]);
  }

  lemma ConcatInTurn(a: seq<nat>, b: seq<nat>, c: seq<nat>, d: seq<nat>)
    ensures a + (b + c + d) == (a + b) + c + d
  {
  }

  // ----- the invariant

  ghost predicate BySector(tree: seq<nat>, rqs: map<nat, Rq>) {
    forall i, j :: 0 <= i < j < |tree| ==> PosOf(rqs, tree[i]) < PosOf(rqs, tree[j])
  }

  function ExpireOf(rqs: map<nat, Rq>, id: nat): nat { if id in rqs then rqs[id].expire else 0 }

  ghost predicate ByAge(fifo: seq<nat>, rqs: map<nat, Rq>) {
    forall i, j :: 0 <= i < j < |fifo| ==> ExpireOf(rqs, fifo[i]) <= ExpireOf(rqs, fifo[j])
  }

  /** One direction, with `out` possibly on the FIFO but not (yet) in the tree. */
  ghost predicate SideOk(s: State, d: Dir, out: Option<nat>) {
    var side := s.At(d);
    && NoDup(side.fifo) && BySector(side.tree, s.rqs) && ByAge(side.fifo, s.rqs)
    && (forall id :: id in side.tree <==> id in side.fifo && out != Some(id))
    && (forall id :: id in side.fifo <==> id in s.rqs && s.rqs[id].dir == d)
    && (forall id :: id in side.fifo ==> s.rqs[id].expire <= s.now + s.tun.Expire(d))
    && (side.next.Some? ==> side.next.value in side.fifo)
  }

  function Batch(t: Tunables): nat { if t.fifoBatch > 1 then t.fifoBatch else 1 }

  /** FIFO and tree of each direction hold the same requests, the tree by sector without
      duplicates, the FIFO by expiry; at most one direction has a next request, and it is
      queued; `nrSorted` counts what is queued. */
  ghost predicate InvBut(s: State, out: Option<nat>) {
    && SideOk(s, Read, out) && SideOk(s, Write, out)
    && !(s.r.next.Some? && s.w.next.Some?)
    && s.nrSorted == |s.r.fifo| + |s.w.fifo|
    && s.batching <= Batch(s.tun) && s.starved <= s.tun.writesStarved
  }

  ghost predicate Inv(s: State) { InvBut(s, None) }

  lemma SectorNoDup(tree: seq<nat>, rqs: map<nat, Rq>)
    requires BySector(tree, rqs)
    ensures NoDup(tree)
  {
  }

  lemma InitOk(tun: Tunables)
    ensures Inv(Init(tun))
  {
  }

  // ----- moving a request to the dispatch queue

  lemma PosKept(rqs: map<nat, Rq>, id: nat, x: nat)
    requires x != id
    ensures PosOf(rqs - {id}, x) == PosOf(rqs, x)
  {
  }

  lemma RemoveSector(q: seq<nat>, rqs: map<nat, Rq>, id: nat)
    requires id in q && BySector(q, rqs)
    ensures BySector(Remove(q, id), rqs - {id})
    ensures forall x :: x in Remove(q, id) ==> PosOf(rqs, x) != PosOf(rqs, id)
  {
    hide PosOf, Remove;
    var i := RemoveAt(q, id);
    var r := q[..i] + q[i+1..];
    forall a | 0 <= a < |r| ensures r[a] == q[if a < i then a else a + 1] && PosOf(rqs, r[a]) != PosOf(rqs, id) {
      var a' := if a < i then a else a + 1;
      assert PosOf(rqs, q[a']) != PosOf(rqs, q[i]);
    }
    forall a, b | 0 <= a < b < |r| ensures PosOf(rqs - {id}, r[a]) < PosOf(rqs - {id}, r[b]) {
      PosKept(rqs, id, r[a]);
      PosKept(rqs, id, r[b]);
    }
  }

  lemma AgeKept(rqs: map<nat, Rq>, id: nat, x: nat)
    requires x != id
    ensures ExpireOf(rqs - {id}, x) == ExpireOf(rqs, x)
  {
  }

  lemma RemoveAge(q: seq<nat>, rqs: map<nat, Rq>, id: nat)
    requires id in q && NoDup(q) && ByAge(q, rqs)
    ensures ByAge(Remove(q, id), rqs - {id})
  {
    hide ExpireOf, Remove;
    var i := RemoveAt(q, id);
    var r := q[..i] + q[i+1..];
    forall a | 0 <= a < |r| ensures r[a] == q[if a < i then a else a + 1] && r[a] != id {
      var a' := if a < i then a else a + 1;
      assert q[a'] != q[i];
    }
    forall a, b | 0 <= a < b < |r| ensures ExpireOf(rqs - {id}, r[a]) <= ExpireOf(rqs - {id}, r[b]) {
      AgeKept(rqs, id, r[a]);
      AgeKept(rqs, id, r[b]);
    }
  }

  /** Taking a queued request away leaves both directions in order. */
  lemma MoveSide(s: State, id: nat, d: Dir, out: Option<nat>)
    requires InvBut(s, out) && id in s.rqs && out != Some(id) && id in s.At(s.rqs[id].dir).fifo
    ensures SideOk(MoveRequest(s, id), d, out)
  {
    hide SideOk, MoveRequest;
    if s.rqs[id].dir == d {
      MoveThisSide(s, id, out);
    } else {
      MoveOtherSide(s, id, d, out);
    }
  }

  lemma MoveThisSide(s: State, id: nat, out: Option<nat>)
    requires id in s.rqs && out != Some(id) && id in s.At(s.rqs[id].dir).fifo && SideOk(s, s.rqs[id].dir, out)
    ensures SideOk(MoveRequest(s, id), s.rqs[id].dir, out)
  {
    hide NoDup, BySector, ByAge, Remove, Latter;
    var side := s.At(s.rqs[id].dir);
    SectorNoDup(side.tree, s.rqs);
    assert id in side.tree;
    RemoveFacts(side.tree, id);
    RemoveFacts(side.fifo, id);
    RemoveSector(side.tree, s.rqs, id);
    RemoveAge(side.fifo, s.rqs, id);
    LatterFacts(side.tree, id);
  }

  lemma MoveOtherSide(s: State, id: nat, d: Dir, out: Option<nat>)
    requires id in s.rqs && s.rqs[id].dir != d && SideOk(s, d, out)
    ensures SideOk(MoveRequest(s, id), d, out)
  {
    hide NoDup, BySector, ByAge, Remove, Latter;
    var side := s.At(d);
    assert id !in side.fifo && id !in side.tree;
    OthersKept(side.tree, s.rqs, id);
    OthersKept(side.fifo, s.rqs, id);
  }

  lemma OthersKept(q: seq<nat>, rqs: map<nat, Rq>, id: nat)
    requires id !in q
    ensures BySector(q, rqs) ==> BySector(q, rqs - {id})
    ensures ByAge(q, rqs) ==> ByAge(q, rqs - {id})
  {
    assert forall i :: 0 <= i < |q| ==> q[i] != id;
  }

  lemma MoveShape(s: State, id: nat)
    requires id in s.rqs && NoDup(s.At(s.rqs[id].dir).fifo) && id in s.At(s.rqs[id].dir).fifo
    ensures var s' := MoveRequest(s, id);
            && s'.rqs == s.rqs - {id} && s'.dispatched == s.dispatched + [id] && s'.nrSorted == s.nrSorted - 1
            && !(s'.r.next.Some? && s'.w.next.Some?) && |s'.r.fifo| + |s'.w.fifo| == |s.r.fifo| + |s.w.fifo| - 1
            && s'.batching == s.batching && s'.starved == s.starved && s'.tun == s.tun && s'.now == s.now
            && s'.lastSector == s.rqs[id].pos + s.rqs[id].len
  {
    hide Latter, Remove;
    RemoveFacts(s.At(s.rqs[id].dir).fifo, id);
  }

  lemma MoveRequestOk(s: State, id: nat, out: Option<nat>)
    requires InvBut(s, out) && id in s.rqs && out != Some(id) && id in s.At(s.rqs[id].dir).fifo
    ensures InvBut(MoveRequest(s, id), out)
    ensures var s' := MoveRequest(s, id);
            s'.rqs == s.rqs - {id} && s'.dispatched == s.dispatched + [id] && s'.nrSorted == s.nrSorted - 1
  {
    hide SideOk, MoveRequest, NoDup;
    MoveSide(s, id, Read, out);
    MoveSide(s, id, Write, out);
    SideNoDup(s, s.rqs[id].dir, out);
    MoveShape(s, id);
  }

  lemma SideNoDup(s: State, d: Dir, out: Option<nat>)
    requires SideOk(s, d, out)
    ensures NoDup(s.At(d).fifo)
  {
  }

  // ----- adding and merging

  lemma InsertSector(tree: seq<nat>, rqs: map<nat, Rq>, id: nat)
    requires BySector(tree, rqs) && forall i :: 0 <= i < |tree| ==> PosOf(rqs, tree[i]) != PosOf(rqs, id)
    ensures BySector(InsertSorted(tree, rqs, id), rqs)
  {
    hide PosOf, InsertSorted;
    var k := InsertAt(tree, rqs, id);
    var r := tree[..k] + [id] + tree[k..];
    forall a, b | 0 <= a < b < |r| ensures PosOf(rqs, r[a]) < PosOf(rqs, r[b]) {
      var a', b' := if a < k then a else a - 1, if b < k then b else b - 1;
      assert r[a] == if a == k then id else tree[a'];
      assert r[b] == if b == k then id else tree[b'];
      if a == k && b' > k { assert PosOf(rqs, tree[k]) < PosOf(rqs, tree[b']); }
    }
  }

  lemma {:induction false} InsertMember(tree: seq<nat>, rqs: map<nat, Rq>, id: nat)
    ensures forall x :: x in InsertSorted(tree, rqs, id) <==> x in tree || x == id
    decreases |tree|
  {
    if tree != [] && PosOf(rqs, tree[0]) <= PosOf(rqs, id) {
      InsertMember(tree[1..], rqs, id);
    }
  }

  /** A request on the FIFO that is not in the tree is put there; one already at its sector
      is dispatched first. */
  lemma AddRqRbOk(s: State, id: nat)
    requires InvBut(s, Some(id)) && id in s.rqs && id in s.At(s.rqs[id].dir).fifo
    ensures Inv(AddRqRb(s, id))
    ensures AddRqRb(s, id).rqs.Keys <= s.rqs.Keys && id in AddRqRb(s, id).rqs
  {
    hide InsertSorted, MoveRequest, BySector, ByAge, NoDup;
    var d := s.rqs[id].dir;
    var alias := FindPos(s.At(d).tree, s.rqs, s.rqs[id].pos);
    assert SideOk(s, d, Some(id));
    if alias.Some? {
      var a := alias.value;
      MoveRequestOk(s, a, Some(id));
      var s1 := MoveRequest(s, a);
      MoveKeeps(s, a);
      OnlyAlias(s.At(d).tree, s.rqs, a, id);
      InsertOk(s1, id);
    } else {
      InsertOk(s, id);
    }
  }

  lemma MoveKeeps(s: State, id: nat)
    requires id in s.rqs
    ensures var s' := MoveRequest(s, id);
            && s'.At(s.rqs[id].dir).tree == Remove(s.At(s.rqs[id].dir).tree, id)
            && s'.At(s.rqs[id].dir).fifo == Remove(s.At(s.rqs[id].dir).fifo, id)
            && s'.rqs == s.rqs - {id}
  {
  }

  /** Sectors are unique, so only one request can be in the way. */
  lemma OnlyAlias(tree: seq<nat>, rqs: map<nat, Rq>, a: nat, id: nat)
    requires a in tree && a != id && BySector(tree, rqs) && PosOf(rqs, a) == PosOf(rqs, id)
    ensures var rest := Remove(tree, a);
            forall i :: 0 <= i < |rest| ==> PosOf(rqs - {a}, rest[i]) != PosOf(rqs - {a}, id)
  {
    hide PosOf, Remove, BySector;
    RemoveSector(tree, rqs, a);
    var rest := Remove(tree, a);
    PosKept(rqs, a, id);
    forall i | 0 <= i < |rest| ensures PosOf(rqs - {a}, rest[i]) != PosOf(rqs - {a}, id) {
      assert rest[i] in rest;
      PosKept(rqs, a, rest[i]);
    }
  }

  lemma InsertOk(s: State, id: nat)
    requires InvBut(s, Some(id)) && id in s.rqs && id in s.At(s.rqs[id].dir).fifo
    requires var tree := s.At(s.rqs[id].dir).tree;
             forall i :: 0 <= i < |tree| ==> PosOf(s.rqs, tree[i]) != PosOf(s.rqs, id)
    ensures var d := s.rqs[id].dir;
            Inv(s.With(d, s.At(d).(tree := InsertSorted(s.At(d).tree, s.rqs, id))))
  {
    hide InsertSorted, SideOk, PosOf;
    var d := s.rqs[id].dir;
    InsertSideOk(s, id, Read);
    InsertSideOk(s, id, Write);
  }

  lemma InsertSideOk(s: State, id: nat, e: Dir)
    requires SideOk(s, Read, Some(id)) && SideOk(s, Write, Some(id)) && id in s.rqs && id in s.At(s.rqs[id].dir).fifo
    requires var tree := s.At(s.rqs[id].dir).tree;
             forall i :: 0 <= i < |tree| ==> PosOf(s.rqs, tree[i]) != PosOf(s.rqs, id)
    ensures var d := s.rqs[id].dir;
            SideOk(s.With(d, s.At(d).(tree := InsertSorted(s.At(d).tree, s.rqs, id))), e, None)
  {
    hide InsertSorted, BySector, ByAge, NoDup, PosOf, SideOk;
    var d := s.rqs[id].dir;
    if e == d {
      InsertThisSide(s, id);
    } else {
      InsertOtherSide(s, id, e);
    }
  }

  lemma InsertThisSide(s: State, id: nat)
    requires id in s.rqs && SideOk(s, s.rqs[id].dir, Some(id)) && id in s.At(s.rqs[id].dir).fifo
    requires var tree := s.At(s.rqs[id].dir).tree;
             forall i :: 0 <= i < |tree| ==> PosOf(s.rqs, tree[i]) != PosOf(s.rqs, id)
    ensures var d := s.rqs[id].dir;
            SideOk(s.With(d, s.At(d).(tree := InsertSorted(s.At(d).tree, s.rqs, id))), d, None)
  {
    hide InsertSorted, BySector, ByAge, NoDup, PosOf;
    var d := s.rqs[id].dir;
    InsertSector(s.At(d).tree, s.rqs, id);
    InsertMember(s.At(d).tree, s.rqs, id);
  }

  lemma InsertOtherSide(s: State, id: nat, e: Dir)
    requires id in s.rqs && SideOk(s, e, Some(id)) && e != s.rqs[id].dir
    ensures var d := s.rqs[id].dir;
            SideOk(s.With(d, s.At(d).(tree := InsertSorted(s.At(d).tree, s.rqs, id))), e, None)
  {
    hide InsertSorted, BySector, ByAge, NoDup;
  }

  function Append(s: State, d: Dir, id: nat): State {
    s.With(d, s.At(d).(fifo := s.At(d).fifo + [id]))
  }

  lemma MoveAppend(s: State, a: nat, id: nat)
    requires a in s.rqs && a in s.At(s.rqs[a].dir).fifo
    ensures MoveRequest(Append(s, s.rqs[a].dir, id), a) == Append(MoveRequest(s, a), s.rqs[a].dir, id)
  {
    hide Latter, Remove;
    RemoveAppend(s.At(s.rqs[a].dir).fifo, a, id);
  }

  /** The FIFO may as well be appended first. */
  lemma AliasQueued(s: State, d: Dir, rqs: map<nat, Rq>, pos: nat)
    requires SideOk(s, d, None)
    ensures var alias := FindPos(s.At(d).tree, rqs, pos);
            alias.Some? ==> alias.value in s.rqs && s.rqs[alias.value].dir == d && alias.value in s.At(d).fifo
  {
    hide BySector, ByAge, NoDup;
  }

  lemma AddOrder(s: State, id: nat, d: Dir, pos: nat, len: nat)
    requires Inv(s) && id !in s.rqs
    ensures AddRequest(s, id, d, pos, len) == AddRqRb(Arrived(s, id, d, pos, len), id)
  {
    hide InsertSorted, SideOk, FindPos, MoveRequest;
    var rq := Rq(d, pos, len, s.now + s.tun.Expire(d));
    var t := s.(rqs := s.rqs[id := rq], nrSorted := s.nrSorted + 1);
    assert SideOk(s, d, None);
    var alias := FindPos(t.At(d).tree, t.rqs, pos);
    AliasQueued(s, d, t.rqs, pos);
    if alias.Some? {
      MoveAppend(t, alias.value, id);
    }
  }

  lemma {:induction false} RemoveAppend(q: seq<nat>, a: nat, id: nat)
    requires a in q
    ensures Remove(q + [id], a) == Remove(q, a) + [id]
    decreases |q|
  {
    assert (q + [id])[1..] == q[1..] + [id];
    if q[0] != a {
      RemoveAppend(q[1..], a, id);
    }
  }

  function Arrived(s: State, id: nat, d: Dir, pos: nat, len: nat): State {
    var rq := Rq(d, pos, len, s.now + s.tun.Expire(d));
    s.(rqs := s.rqs[id := rq], nrSorted := s.nrSorted + 1)
     .With(d, s.At(d).(fifo := s.At(d).fifo + [id]))
  }

  lemma ArrivedSide(s: State, id: nat, d: Dir, pos: nat, len: nat, e: Dir)
    requires Inv(s) && id !in s.rqs
    ensures SideOk(Arrived(s, id, d, pos, len), e, Some(id))
  {
    hide SideOk, Arrived;
    assert SideOk(s, e, None);
    if e == d {
      ArrivedHere(s, id, d, pos, len);
    } else {
      ArrivedThere(s, id, d, pos, len, e);
    }
  }

  lemma ArrivedHere(s: State, id: nat, d: Dir, pos: nat, len: nat)
    requires SideOk(s, d, None) && id !in s.rqs
    ensures SideOk(Arrived(s, id, d, pos, len), d, Some(id))
  {
    hide BySector, ByAge, NoDup;
    var u, side := Arrived(s, id, d, pos, len), s.At(d);
    assert id !in side.fifo && id !in side.tree;
    SameSector(side.tree, s.rqs, u.rqs);
    SameAge(side.fifo, s.rqs, u.rqs);
    AppendAge(side.fifo, u.rqs, id);
    AppendNoDup(side.fifo, id);
  }

  lemma AppendNoDup(fifo: seq<nat>, id: nat)
    requires NoDup(fifo) && id !in fifo
    ensures NoDup(fifo + [id])
  {
  }

  lemma ArrivedThere(s: State, id: nat, d: Dir, pos: nat, len: nat, e: Dir)
    requires SideOk(s, e, None) && id !in s.rqs && e != d
    ensures SideOk(Arrived(s, id, d, pos, len), e, Some(id))
  {
    hide BySector, ByAge, NoDup;
    var u, side := Arrived(s, id, d, pos, len), s.At(e);
    assert id !in side.fifo && id !in side.tree;
    SameSector(side.tree, s.rqs, u.rqs);
    SameAge(side.fifo, s.rqs, u.rqs);
  }

  lemma SameSector(q: seq<nat>, a: map<nat, Rq>, b: map<nat, Rq>)
    requires BySector(q, a) && forall x :: x in q ==> PosOf(a, x) == PosOf(b, x)
    ensures BySector(q, b)
  {
    hide PosOf;
    forall i, j | 0 <= i < j < |q| ensures PosOf(b, q[i]) < PosOf(b, q[j]) {
      assert q[i] in q && q[j] in q;
    }
  }

  lemma SameAge(q: seq<nat>, a: map<nat, Rq>, b: map<nat, Rq>)
    requires ByAge(q, a) && forall x :: x in q ==> ExpireOf(a, x) == ExpireOf(b, x)
    ensures ByAge(q, b)
  {
    hide ExpireOf;
    forall i, j | 0 <= i < j < |q| ensures ExpireOf(b, q[i]) <= ExpireOf(b, q[j]) {
      assert q[i] in q && q[j] in q;
    }
  }

  lemma AppendAge(q: seq<nat>, rqs: map<nat, Rq>, id: nat)
    requires NoDup(q) && ByAge(q, rqs) && id !in q
    requires forall x :: x in q ==> ExpireOf(rqs, x) <= ExpireOf(rqs, id)
    ensures NoDup(q + [id]) && ByAge(q + [id], rqs)
  {
    hide ExpireOf;
    var r := q + [id];
    forall i, j | 0 <= i < j < |r| ensures ExpireOf(rqs, r[i]) <= ExpireOf(rqs, r[j]) && r[i] != r[j] {
      assert r[i] in q;
    }
  }

  lemma AddRequestOk(s: State, id: nat, d: Dir, pos: nat, len: nat)
    requires Inv(s) && id !in s.rqs
    ensures Inv(AddRequest(s, id, d, pos, len))
  {
    hide SideOk, AddRequest, AddRqRb;
    ArrivedSide(s, id, d, pos, len, Read);
    ArrivedSide(s, id, d, pos, len, Write);
    AddOrder(s, id, d, pos, len);
    AddRqRbOk(Arrived(s, id, d, pos, len), id);
  }

  lemma BackMergedOk(s: State, id: nat, len: nat)
    requires Inv(s) && id in s.rqs
    ensures Inv(BackMerged(s, id, len))
    ensures BackMerged(s, id, len).rqs[id] == Rq(s.rqs[id].dir, s.rqs[id].pos, s.rqs[id].len + len, s.rqs[id].expire)
  {
    hide SideOk;
    BackMergedSide(s, id, len, Read);
    BackMergedSide(s, id, len, Write);
  }

  lemma BackMergedSide(s: State, id: nat, len: nat, d: Dir)
    requires SideOk(s, d, None) && id in s.rqs
    ensures SideOk(BackMerged(s, id, len), d, None)
  {
    hide BySector, ByAge, NoDup;
    var s' := BackMerged(s, id, len);
    SameSector(s.At(d).tree, s.rqs, s'.rqs);
    SameAge(s.At(d).fifo, s.rqs, s'.rqs);
  }

  /** The request off its tree, with its new start sector. */
  function Unplaced(s: State, id: nat, pos: nat, len: nat): State
    requires id in s.rqs
  {
    var d := s.rqs[id].dir;
    s.(rqs := s.rqs[id := s.rqs[id].(pos := pos, len := s.rqs[id].len + len)])
     .With(d, s.At(d).(tree := Remove(s.At(d).tree, id)))
  }

  lemma UnplacedSide(s: State, id: nat, pos: nat, len: nat, e: Dir)
    requires Inv(s) && id in s.rqs
    ensures SideOk(Unplaced(s, id, pos, len), e, Some(id))
  {
    hide SideOk, Unplaced;
    assert SideOk(s, e, None);
    if e == s.rqs[id].dir {
      UnplacedHere(s, id, pos, len);
    } else {
      UnplacedThere(s, id, pos, len, e);
    }
  }

  lemma UnplacedHere(s: State, id: nat, pos: nat, len: nat)
    requires id in s.rqs && SideOk(s, s.rqs[id].dir, None)
    ensures SideOk(Unplaced(s, id, pos, len), s.rqs[id].dir, Some(id))
  {
    hide BySector, ByAge, NoDup, Remove;
    var u, side := Unplaced(s, id, pos, len), s.At(s.rqs[id].dir);
    SameAge(side.fifo, s.rqs, u.rqs);
    SectorNoDup(side.tree, s.rqs);
    RemoveFacts(side.tree, id);
    RemoveSector(side.tree, s.rqs, id);
    SameSector(Remove(side.tree, id), s.rqs - {id}, u.rqs);
  }

  lemma UnplacedThere(s: State, id: nat, pos: nat, len: nat, e: Dir)
    requires id in s.rqs && e != s.rqs[id].dir && SideOk(s, e, None)
    ensures SideOk(Unplaced(s, id, pos, len), e, Some(id))
  {
    hide BySector, ByAge, NoDup, Remove;
    var u, side := Unplaced(s, id, pos, len), s.At(e);
    SameAge(side.fifo, s.rqs, u.rqs);
    SameSector(side.tree, s.rqs, u.rqs);
  }

  lemma FrontMergedOk(s: State, id: nat, pos: nat, len: nat)
    requires Inv(s) && id in s.rqs
    ensures Inv(FrontMerged(s, id, pos, len))
  {
    hide SideOk, AddRqRb;
    UnplacedSide(s, id, pos, len, Read);
    UnplacedSide(s, id, pos, len, Write);
    QueuedOnFifo(s, id);
    AddRqRbOk(Unplaced(s, id, pos, len), id);
  }

  lemma QueuedOnFifo(s: State, id: nat)
    requires Inv(s) && id in s.rqs
    ensures id in s.At(s.rqs[id].dir).fifo && id in s.At(s.rqs[id].dir).tree
  {
    assert SideOk(s, s.rqs[id].dir, None);
  }

  // ----- merging two queued requests

  lemma {:induction false} ReplaceAt(q: seq<nat>, next: nat, id: nat) returns (i: nat)
    requires next in q && id !in q && next != id && NoDup(q)
    ensures i < |q| && q[i] == next && Remove(Replace(q, next, id), next) == q[i := id]
    decreases |q|
  {
    if q[0] == next {
      i := 0;
      assert [next, id] + q[1..] == [next] + ([id] + q[1..]);
      assert ([next, id] + q[1..])[1..] == [id] + q[1..];
      assert q[0 := id] == [id] + q[1..];
    } else {
      var k := ReplaceAt(q[1..], next, id);
      i := k + 1;
      var r := Replace(q[1..], next, id);
      assert ([q[0]] + r)[1..] == r;
      assert [q[0]] + q[1..][k := id] == q[i := id];
    }
  }

  /** The FIFO after two of its requests merged: `id` has the earlier of the two places. */
  function FifoAfter(fifo: seq<nat>, id: nat, next: nat, earlier: bool): seq<nat> {
    if earlier then Remove(Replace(Remove(fifo, id), next, id), next) else Remove(fifo, next)
  }

  lemma FifoAfterOk(fifo: seq<nat>, rqs: map<nat, Rq>, id: nat, next: nat, rqs': map<nat, Rq>)
    requires NoDup(fifo) && ByAge(fifo, rqs) && id in fifo && next in fifo && id != next
    requires ExpireOf(rqs', id) == if ExpireOf(rqs, next) < ExpireOf(rqs, id) then ExpireOf(rqs, next) else ExpireOf(rqs, id)
    requires forall x :: x in fifo && x != id && x != next ==> ExpireOf(rqs', x) == ExpireOf(rqs, x)
    ensures var r := FifoAfter(fifo, id, next, ExpireOf(rqs, next) < ExpireOf(rqs, id));
            && NoDup(r) && ByAge(r, rqs') && |r| == |fifo| - 1
            && (forall x :: x in r <==> x in fifo && x != next)
  {
    hide ExpireOf, Remove, Replace;
    if ExpireOf(rqs, next) < ExpireOf(rqs, id) {
      RemoveFacts(fifo, id);
      RemoveAge2(fifo, rqs, id);
      var q := Remove(fifo, id);
      var i := ReplaceAt(q, next, id);
      ReplacedOk(q, rqs, i, id, rqs');
    } else {
      RemoveFacts(fifo, next);
      RemoveAge2(fifo, rqs, next);
      SameAge(Remove(fifo, next), rqs, rqs');
    }
  }

  lemma RemoveAge2(q: seq<nat>, rqs: map<nat, Rq>, id: nat)
    requires id in q && ByAge(q, rqs)
    ensures ByAge(Remove(q, id), rqs)
  {
    hide ExpireOf, Remove;
    var i := RemoveAt(q, id);
    var r := q[..i] + q[i+1..];
    assert forall a :: 0 <= a < |r| ==> r[a] == q[if a < i then a else a + 1];
  }

  lemma ReplacedOk(q: seq<nat>, rqs: map<nat, Rq>, i: nat, id: nat, rqs': map<nat, Rq>)
    requires NoDup(q) && ByAge(q, rqs) && i < |q| && id !in q
    requires ExpireOf(rqs', id) == ExpireOf(rqs, q[i])
    requires forall x :: x in q && x != q[i] ==> ExpireOf(rqs', x) == ExpireOf(rqs, x)
    ensures NoDup(q[i := id]) && ByAge(q[i := id], rqs')
    ensures forall x :: x in q[i := id] <==> (x in q && x != q[i]) || x == id
  {
    hide ExpireOf;
    var r := q[i := id];
    forall a, b | 0 <= a < b < |r| ensures r[a] != r[b] && ExpireOf(rqs', r[a]) <= ExpireOf(rqs', r[b]) {
      assert q[a] in q && q[b] in q && q[a] != q[b];
    }
    forall x ensures x in r <==> (x in q && x != q[i]) || x == id {
      if x in q && x != q[i] {
        var j :| 0 <= j < |q| && q[j] == x;
        assert r[j] == x;
      }
      if x in r && x != id {
        var j :| 0 <= j < |r| && r[j] == x;
        assert q[j] == x && j != i;
      }
      assert r[i] == id;
    }
  }

  /** What `MergedRequests` does to the direction of the two. */
  lemma MergedShape(s: State, id: nat, next: nat)
    requires id in s.rqs && next in s.rqs && s.rqs[id].dir == s.rqs[next].dir && id != next
    ensures var d := s.rqs[id].dir; var side := s.At(d); var s' := MergedRequests(s, id, next);
            && s'.At(d).tree == Remove(side.tree, next)
            && s'.At(d).fifo == FifoAfter(side.fifo, id, next, s.rqs[next].expire < s.rqs[id].expire)
            && s'.At(d).next == (if side.next == Some(next) then Latter(side.tree, next) else side.next)
            && s' == s.With(d, s'.At(d)).(rqs := s'.rqs, nrSorted := s.nrSorted - 1)
            && s'.rqs.Keys == s.rqs.Keys - {next}
            && s'.rqs[id] == s.rqs[id].(len := s.rqs[id].len + s.rqs[next].len,
                                        expire := if s.rqs[next].expire < s.rqs[id].expire then s.rqs[next].expire else s.rqs[id].expire)
            && (forall x :: x in s.rqs && x != id && x != next ==> s'.rqs[x] == s.rqs[x])
  {
    hide Latter, Remove, Replace;
  }

  lemma MergedFifo(s: State, id: nat, next: nat)
    requires Inv(s) && id in s.rqs && next in s.rqs && s.rqs[id].dir == s.rqs[next].dir && id != next
    ensures var s', d := MergedRequests(s, id, next), s.rqs[id].dir;
            && NoDup(s'.At(d).fifo) && ByAge(s'.At(d).fifo, s'.rqs) && |s'.At(d).fifo| == |s.At(d).fifo| - 1
            && (forall x :: x in s'.At(d).fifo <==> x in s.At(d).fifo && x != next)
  {
    hide BySector, ByAge, NoDup, Remove, Replace, Latter, MergedRequests, FifoAfter;
    var d := s.rqs[id].dir;
    assert SideOk(s, d, None);
    MergedShape(s, id, next);
    FifoAfterOk(s.At(d).fifo, s.rqs, id, next, MergedRequests(s, id, next).rqs);
  }

  lemma MergedTree(s: State, id: nat, next: nat)
    requires Inv(s) && id in s.rqs && next in s.rqs && s.rqs[id].dir == s.rqs[next].dir && id != next
    ensures var s', d := MergedRequests(s, id, next), s.rqs[id].dir;
            && BySector(s'.At(d).tree, s'.rqs)
            && (forall x :: x in s'.At(d).tree <==> x in s.At(d).tree && x != next)
            && (s'.At(d).next.Some? ==> s'.At(d).next.value in s.At(d).fifo && s'.At(d).next.value != next)
  {
    hide BySector, ByAge, NoDup, Remove, Replace, Latter, MergedRequests, FifoAfter;
    var side := s.At(s.rqs[id].dir);
    assert SideOk(s, s.rqs[id].dir, None);
    MergedShape(s, id, next);
    var s' := MergedRequests(s, id, next);
    SectorNoDup(side.tree, s.rqs);
    RemoveFacts(side.tree, next);
    RemoveSector(side.tree, s.rqs, next);
    SameSector(Remove(side.tree, next), s.rqs - {next}, s'.rqs);
    LatterFacts(side.tree, next);
  }

  lemma MergedThisSide(s: State, id: nat, next: nat)
    requires Inv(s) && id in s.rqs && next in s.rqs && s.rqs[id].dir == s.rqs[next].dir && id != next
    ensures var s' := MergedRequests(s, id, next);
            SideOk(s', s.rqs[id].dir, None) && |s'.At(s.rqs[id].dir).fifo| == |s.At(s.rqs[id].dir).fifo| - 1
  {
    hide BySector, ByAge, NoDup, Remove, Replace, Latter, MergedRequests, FifoAfter;
    assert SideOk(s, s.rqs[id].dir, None);
    MergedShape(s, id, next);
    MergedFifo(s, id, next);
    MergedTree(s, id, next);
  }

  lemma MergedOtherSide(s: State, id: nat, next: nat, e: Dir)
    requires Inv(s) && id in s.rqs && next in s.rqs && s.rqs[id].dir == s.rqs[next].dir && id != next && e != s.rqs[id].dir
    ensures var s' := MergedRequests(s, id, next); SideOk(s', e, None) && s'.At(e) == s.At(e)
  {
    hide BySector, ByAge, NoDup, Remove, Replace, Latter, MergedRequests, FifoAfter;
    assert SideOk(s, e, None);
    MergedShape(s, id, next);
    var s' := MergedRequests(s, id, next);
    SameSector(s.At(e).tree, s.rqs, s'.rqs);
    SameAge(s.At(e).fifo, s.rqs, s'.rqs);
  }

  lemma MergedRequestsOk(s: State, id: nat, next: nat)
    requires Inv(s) && id in s.rqs && next in s.rqs && s.rqs[id].dir == s.rqs[next].dir && id != next
    ensures Inv(MergedRequests(s, id, next))
  {
    hide SideOk, MergedRequests, FifoAfter, Remove, Latter;
    MergedShape(s, id, next);
    MergedThisSide(s, id, next);
    MergedOtherSide(s, id, next, if s.rqs[id].dir.Read? then Write else Read);
    NextQueued(s, id, next);
  }

  lemma NextQueued(s: State, id: nat, next: nat)
    requires Inv(s) && id in s.rqs && next in s.rqs && s.rqs[id].dir == s.rqs[next].dir && id != next
    ensures var s' := MergedRequests(s, id, next); !(s'.r.next.Some? && s'.w.next.Some?)
  {
    hide SideOk, Remove, Replace, Latter;
  }
}
