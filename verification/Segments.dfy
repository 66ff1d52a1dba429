/** Physical segments of a bvec list: the rule by which neighbouring bvecs may share a
    scatter-gather entry, the counting loop of `__blk_recalc_rq_segments` and the mapping
    loop of `blk_rq_map_sg`, and the relation between the two.

    Both loops are greedy.  `Greedy` is their common specification; the counting loop is
    the `bounce` variant, which also never lets a page above the bounce limit share a
    segment.
 */
module Segments {

  const PAGE_SIZE: nat := 4096

  type pos = n: nat | 0 < n witness 1

  /** One bvec, by physical start address and length in bytes. */
  datatype Bvec = Bvec(addr: nat, len: pos) {
    /** First address after the bvec. */
    function End(): nat { addr + len }
  }

  /** The queue limits that matter for segments.  `window` is the segment boundary mask
      plus one. */
  datatype Limits = Limits(
    cluster: bool,
    maxSegSize: nat,
    window: pos,
    bouncePfn: nat,
    maxPhysSegs: nat,
    maxHwSegs: nat,
    maxSectors: nat)

  predicate High(q: Limits, b: Bvec) {
    b.addr / PAGE_SIZE > q.bouncePfn
  }

  /** BIOVEC_PHYS_MERGEABLE and BIOVEC_SEG_BOUNDARY. */
  predicate Joinable(q: Limits, a: Bvec, b: Bvec) {
    && a.End() == b.addr
    && a.addr / q.window == (b.End() - 1) / q.window
  }

  function Bytes(vs: seq<Bvec>): nat {
    if vs == [] then 0 else Bytes(vs[..|vs|-1]) + vs[|vs|-1].len
  }

  lemma {:induction false} BytesConcat(a: seq<Bvec>, b: seq<Bvec>)
    ensures Bytes(a + b) == Bytes(a) + Bytes(b)
    decreases |b|
  {
    if b == [] {
      assert a + b == a;
    } else {
      assert (a + b)[..|a + b|-1] == a + b[..|b|-1];
      BytesConcat(a, b[..|b|-1]);
    }
  }

  lemma BytesOne(b: Bvec)
    ensures Bytes([b]) == b.len
  {
    assert [b][..0] == [];
  }

  /** The addresses `addr, addr + 1, ...` of `n` bytes. */
  function Range(addr: nat, n: nat): (r: seq<nat>)
    ensures |r| == n
  {
    seq(n, i => addr + i)
  }

  /** Every byte address of a bvec list, in transfer order. */
  function Layout(vs: seq<Bvec>): (r: seq<nat>)
    ensures |r| == Bytes(vs)
  {
    if vs == [] then [] else Layout(vs[..|vs|-1]) + Range(vs[|vs|-1].addr, vs[|vs|-1].len)
  }

  lemma {:induction false} LayoutConcat(a: seq<Bvec>, b: seq<Bvec>)
    ensures Layout(a + b) == Layout(a) + Layout(b)
    decreases |b|
  {
    if b == [] {
      assert a + b == a;
    } else {
      var b', l := b[..|b|-1], b[|b|-1];
      assert (a + b)[..|a + b|-1] == a + b' && (a + b)[|a + b|-1] == l;
      LayoutConcat(a, b');
      assert (Layout(a) + Layout(b')) + Range(l.addr, l.len) == Layout(a) + (Layout(b') + Range(l.addr, l.len));
    }
  }

  lemma LayoutOne(b: Bvec)
    ensures Layout([b]) == Range(b.addr, b.len)
  {
    assert [b][..0] == [];
  }

  lemma RangeConcat(a: nat, n: nat, m: nat)
    ensures Range(a, n) + Range(a + n, m) == Range(a, n + m)
  {
  }

  // ----- legal segments and partitions

  /** What the hardware can take as one entry: a lone bvec, or, on a clustering queue, a
      run of pairwise joinable bvecs within the segment size limit. */
  ghost predicate Legal(q: Limits, p: seq<Bvec>) {
    && p != []
    && (|p| > 1 ==>
          && q.cluster
          && Bytes(p) <= q.maxSegSize
          && forall i {:trigger p[i]} :: 0 <= i < |p| - 1 ==> Joinable(q, p[i], p[i+1]))
  }

  function Flatten(ps: seq<seq<Bvec>>): seq<Bvec> {
    if ps == [] then [] else Flatten(ps[..|ps|-1]) + ps[|ps|-1]
  }

  ghost predicate IsPartition(q: Limits, ps: seq<seq<Bvec>>, vs: seq<Bvec>) {
    && Flatten(ps) == vs
    && forall i :: 0 <= i < |ps| ==> Legal(q, ps[i])
  }

  lemma {:induction false} FlattenConcat(a: seq<seq<Bvec>>, b: seq<seq<Bvec>>)
    ensures Flatten(a + b) == Flatten(a) + Flatten(b)
    decreases |b|
  {
    if b == [] {
      assert a + b == a;
    } else {
      var b', l := b[..|b|-1], b[|b|-1];
      assert (a + b)[..|a + b|-1] == a + b' && (a + b)[|a + b|-1] == l;
      FlattenConcat(a, b');
      assert (Flatten(a) + Flatten(b')) + l == Flatten(a) + (Flatten(b') + l);
    }
  }

  lemma FlattenOne(p: seq<Bvec>)
    ensures Flatten([p]) == p
  {
    assert [p][..0] == [];
  }

  /** A legal segment stays legal when it is cut short at either end. */
  lemma LegalSlice(q: Limits, p: seq<Bvec>, i: nat, j: nat)
    requires Legal(q, p) && i < j <= |p|
    ensures Legal(q, p[i..j])
  {
    hide Joinable;
    var s := p[i..j];
    if |s| > 1 {
      assert p == p[..i] + (s + p[j..]);
      BytesConcat(p[..i], s + p[j..]);
      BytesConcat(s, p[j..]);
      forall k {:trigger s[k]} | 0 <= k < |s| - 1 ensures Joinable(q, s[k], s[k+1]) {
        assert s[k] == p[i+k] && s[k+1] == p[i+k+1];
      }
    }
  }

  lemma Adjacent(q: Limits, p: seq<Bvec>, i: nat)
    requires Legal(q, p) && i < |p| - 1
    ensures p[i].End() == p[i+1].addr
  {
    assert Joinable(q, p[i], p[i+1]);
  }

  /** A legal multi-bvec segment is one contiguous physical range inside one boundary
      window, although the code only ever compares neighbours. */
  lemma {:induction false} LegalIsContiguous(q: Limits, p: seq<Bvec>)
    requires Legal(q, p)
    ensures p[0].addr + Bytes(p) == p[|p|-1].End()
    ensures |p| > 1 ==> p[0].addr / q.window == (p[|p|-1].End() - 1) / q.window
    decreases |p|
  {
    hide Joinable, Legal;
    var n := |p|;
    NotEmpty(q, p);
    if n > 1 {
      var p' := p[..n-1];
      LegalSlice(q, p, 0, n - 1);
      assert p[0..n-1] == p';
      LegalIsContiguous(q, p');
      Neighbours(q, p, n - 2);
      if n > 2 {
        WindowChain(p[0].addr, p[n-2].addr, p[n-2].End() - 1, p[n-1].End() - 1, q.window);
      }
    }
  }

  lemma NotEmpty(q: Limits, p: seq<Bvec>)
    requires Legal(q, p)
    ensures p != []
  {
  }

  lemma Neighbours(q: Limits, p: seq<Bvec>, i: nat)
    requires Legal(q, p) && i < |p| - 1
    ensures p[i].End() == p[i+1].addr && p[i].addr / q.window == (p[i+1].End() - 1) / q.window
  {
    assert Joinable(q, p[i], p[i+1]);
  }

  /** Two overlapping ranges that each stay in one window stay in the same one. */
  lemma WindowChain(a: nat, b: nat, c: nat, d: nat, w: pos)
    requires a <= b <= c <= d && a / w == c / w && b / w == d / w
    ensures a / w == d / w
  {
    DivMonotone(a, b, w);
    DivMonotone(b, c, w);
  }

  lemma DivMonotone(a: nat, b: nat, w: pos)
    requires a <= b
    ensures a / w <= b / w
  {
    var x, y := a / w, b / w;
    assert x >= y + 1 ==> x * w >= (y + 1) * w;
  }

  // ----- the greedy loops

  /** May `b` join the segment `p` being built?  With `bounce`, neither may lie above the
      bounce limit (the first bvec of a segment decides for it, since no high bvec ever
      joins one). */
  predicate Fits(q: Limits, bounce: bool, p: seq<Bvec>, b: Bvec)
    requires p != []
  {
    && (bounce ==> !High(q, b) && !High(q, p[0]))
    && q.cluster
    && Bytes(p) + b.len <= q.maxSegSize
    && Joinable(q, p[|p|-1], b)
  }

  /** The segments a left-to-right greedy pass builds. */
  function Greedy(q: Limits, bounce: bool, vs: seq<Bvec>): (ps: seq<seq<Bvec>>)
    ensures vs != [] ==> ps != [] && ps[|ps|-1] != []
  {
    if vs == [] then []
    else
      var ps, b := Greedy(q, bounce, vs[..|vs|-1]), vs[|vs|-1];
      if ps != [] && ps[|ps|-1] != [] && Fits(q, bounce, ps[|ps|-1], b)
      then ps[..|ps|-1] + [ps[|ps|-1] + [b]]
      else ps + [[b]]
  }

  lemma {:induction false} GreedyIsPartition(q: Limits, bounce: bool, vs: seq<Bvec>)
    ensures IsPartition(q, Greedy(q, bounce, vs), vs)
  {
    hide Joinable, High;
    if vs != [] {
      var vs', b := vs[..|vs|-1], vs[|vs|-1];
      GreedyIsPartition(q, bounce, vs');
      var ps, ps' := Greedy(q, bounce, vs), Greedy(q, bounce, vs');
      assert vs == vs' + [b];
      if ps' != [] && ps'[|ps'|-1] != [] && Fits(q, bounce, ps'[|ps'|-1], b) {
        ExtendLast(q, ps', b);
      } else {
        FlattenConcat(ps', [[b]]);
        FlattenOne([b]);
      }
    }
  }

  lemma ExtendLast(q: Limits, ps: seq<seq<Bvec>>, b: Bvec)
    requires ps != [] && (forall i :: 0 <= i < |ps| ==> Legal(q, ps[i]))
    requires ps[|ps|-1] != [] && Fits(q, false, ps[|ps|-1], b)
    ensures var qs := ps[..|ps|-1] + [ps[|ps|-1] + [b]];
            Flatten(qs) == Flatten(ps) + [b] && forall i :: 0 <= i < |qs| ==> Legal(q, qs[i])
  {
    hide Joinable, High;
    var p := ps[|ps|-1];
    var qs := ps[..|ps|-1] + [p + [b]];
    assert qs[..|qs|-1] == ps[..|ps|-1];
    BytesConcat(p, [b]);
    BytesOne(b);
    var e := p + [b];
    forall i {:trigger e[i]} | 0 <= i < |e| - 1 ensures Joinable(q, e[i], e[i+1]) {
      if i < |p| - 1 { assert Joinable(q, p[i], p[i+1]); }
    }
  }

  /** One more bvec either lengthens greedy's open segment or opens a new one. */
  lemma GreedyStep(q: Limits, bounce: bool, vs: seq<Bvec>, b: Bvec)
    ensures var g, h := Greedy(q, bounce, vs), Greedy(q, bounce, vs + [b]);
            && h != []
            && (if g != [] && g[|g|-1] != [] && Fits(q, bounce, g[|g|-1], b)
                then |h| == |g| && |h[|h|-1]| == |g[|g|-1]| + 1
                else |h| == |g| + 1 && |h[|h|-1]| == 1)
  {
    hide Fits;
    var w := vs + [b];
    assert w != [] && w[..|w|-1] == vs && w[|w|-1] == b;
  }

  /** No bvec above the bounce limit shares a segment. */
  ghost predicate Apart(q: Limits, p: seq<Bvec>) {
    |p| > 1 ==> forall i :: 0 <= i < |p| ==> !High(q, p[i])
  }

  ghost predicate AllApart(q: Limits, ps: seq<seq<Bvec>>) {
    forall i :: 0 <= i < |ps| ==> Apart(q, ps[i])
  }

  /** Greedy is no worse than `ps`: fewer segments, or equally many and the last no longer. */
  ghost predicate StaysAhead(q: Limits, bounce: bool, vs: seq<Bvec>, ps: seq<seq<Bvec>>) {
    var g := Greedy(q, bounce, vs);
    |g| <= |ps| && (|g| == |ps| > 0 ==> |g[|g|-1]| <= |ps[|ps|-1]|)
  }

  /** Greedy stays ahead: no legal partition has fewer segments, and one with equally many
      ends in a segment at least as long.  With `bounce`, this is among those that keep the
      bvecs above the bounce limit apart. */
  lemma {:induction false} GreedyIsOptimal(q: Limits, bounce: bool, ps: seq<seq<Bvec>>, vs: seq<Bvec>)
    requires IsPartition(q, ps, vs) && (bounce ==> AllApart(q, ps))
    ensures StaysAhead(q, bounce, vs, ps)
    decreases |vs|
  {
    hide StaysAhead, Greedy, Legal, Joinable, Apart, IsPartition, AllApart;
    if ps == [] {
      NothingLeft(q, vs);
      AheadOfNothing(q, bounce);
    } else {
      var front, p := ps[..|ps|-1], ps[|ps|-1];
      LastSegment(q, bounce, ps, vs);
      var b, p' := p[|p|-1], p[..|p|-1];
      assert p == p' + [b];
      assert front + [p' + [b]] == ps;
      if |p| == 1 {
        GreedyIsOptimal(q, bounce, front, Flatten(front));
        AheadAfterLone(q, bounce, Flatten(front), front, b);
        assert p == [b];
      } else {
        DropLastBvec(q, ps, vs);
        DropLastApart(q, bounce, ps);
        GreedyIsOptimal(q, bounce, front + [p'], Flatten(front) + p');
        AheadAfterGrown(q, bounce, front, p', b);
        assert Flatten(front) + p' + [b] == Flatten(front) + p;
      }
    }
  }

  lemma NothingLeft(q: Limits, vs: seq<Bvec>)
    requires IsPartition(q, [], vs)
    ensures vs == []
  {
  }

  lemma LastSegment(q: Limits, bounce: bool, ps: seq<seq<Bvec>>, vs: seq<Bvec>)
    requires IsPartition(q, ps, vs) && ps != [] && (bounce ==> AllApart(q, ps))
    ensures var front, p := ps[..|ps|-1], ps[|ps|-1];
            && vs == Flatten(front) + p && p != [] && IsPartition(q, front, Flatten(front))
            && (bounce ==> AllApart(q, front) && Apart(q, p))
  {
    hide Joinable, Apart;
  }

  lemma DropLastApart(q: Limits, bounce: bool, ps: seq<seq<Bvec>>)
    requires ps != [] && |ps[|ps|-1]| > 1 && (bounce ==> AllApart(q, ps))
    ensures bounce ==> AllApart(q, ps[..|ps|-1] + [ps[|ps|-1][..|ps[|ps|-1]|-1]])
  {
    hide High;
    if bounce {
      var p := ps[|ps|-1];
      assert Apart(q, p);
      assert Apart(q, p[..|p|-1]);
    }
  }

  lemma AheadOfNothing(q: Limits, bounce: bool)
    ensures StaysAhead(q, bounce, [], [])
  {
  }

  lemma AheadAfterLone(q: Limits, bounce: bool, vs: seq<Bvec>, ps: seq<seq<Bvec>>, b: Bvec)
    requires StaysAhead(q, bounce, vs, ps)
    ensures StaysAhead(q, bounce, vs + [b], ps + [[b]])
  {
    hide Fits;
    GreedyStep(q, bounce, vs, b);
  }

  lemma AheadAfterGrown(q: Limits, bounce: bool, front: seq<seq<Bvec>>, p: seq<Bvec>, b: Bvec)
    requires p != [] && Legal(q, p + [b]) && (bounce ==> Apart(q, p + [b]))
    requires StaysAhead(q, bounce, Flatten(front) + p, front + [p])
    ensures StaysAhead(q, bounce, Flatten(front) + p + [b], front + [p + [b]])
  {
    hide Fits, Legal, Apart;
    var vs := Flatten(front) + p;
    var g := Greedy(q, bounce, vs);
    GreedyStep(q, bounce, vs, b);
    if |g| == |front| + 1 {
      assert (p + [b])[..|p|] == p;
      OpenSegmentFits(q, bounce, g, vs, p + [b], Flatten(front), b);
    }
  }

  lemma DropLastBvec(q: Limits, ps: seq<seq<Bvec>>, vs: seq<Bvec>)
    requires IsPartition(q, ps, vs) && ps != [] && |ps[|ps|-1]| > 1
    ensures var front, p := ps[..|ps|-1], ps[|ps|-1];
            && IsPartition(q, front + [p[..|p|-1]], Flatten(front) + p[..|p|-1])
            && Legal(q, p[..|p|-1] + [p[|p|-1]])
  {
    hide Joinable;
    var front, p := ps[..|ps|-1], ps[|ps|-1];
    var ps' := front + [p[..|p|-1]];
    assert ps'[..|ps'|-1] == front;
    assert p[..|p|-1] == p[0..|p|-1];
    LegalSlice(q, p, 0, |p| - 1);
    assert p[..|p|-1] + [p[|p|-1]] == p;
  }

  /** If greedy's open segment is a tail of a segment that legally takes `b`, it takes `b`. */
  lemma OpenSegmentFits(q: Limits, bounce: bool, g: seq<seq<Bvec>>, vs: seq<Bvec>, p: seq<Bvec>, front: seq<Bvec>,
                        b: Bvec)
    requires |p| > 1 && Legal(q, p) && (bounce ==> Apart(q, p)) && b == p[|p|-1]
    requires vs == front + p[..|p|-1]
    requires g != [] && g == Greedy(q, bounce, vs) && |g[|g|-1]| <= |p| - 1
    ensures g[|g|-1] != [] && Fits(q, bounce, g[|g|-1], b)
  {
    hide Joinable, Greedy, High;
    GreedyIsPartition(q, bounce, vs);
    var t := g[|g|-1];
    var k := |p| - 1 - |t|;
    assert vs == Flatten(g[..|g|-1]) + t;
    assert t == vs[|vs|-|t|..] == p[k..|p|-1];
    LegalSlice(q, p, k, |p|);
    assert p[k..|p|] == t + [b];
    BytesConcat(t, [b]);
    BytesOne(b);
    assert Joinable(q, p[|p|-2], p[|p|-2+1]);
  }

  /** Mapping never emits more entries than counting counted. */
  lemma MapWithinCount(q: Limits, vs: seq<Bvec>)
    ensures |Greedy(q, false, vs)| <= |Greedy(q, true, vs)|
  {
    GreedyIsPartition(q, true, vs);
    GreedyIsOptimal(q, false, Greedy(q, true, vs), vs);
  }

  lemma {:induction false} CountKeepsApart(q: Limits, vs: seq<Bvec>)
    ensures AllApart(q, Greedy(q, true, vs))
  {
    hide Greedy, Fits, Apart;
    if vs == [] {
      CountNone(q);
    } else {
      var vs', b := vs[..|vs|-1], vs[|vs|-1];
      assert vs' + [b] == vs;
      CountKeepsApart(q, vs');
      GreedyUnfold(q, true, vs', b);
      var ps := Greedy(q, true, vs');
      if ps != [] && ps[|ps|-1] != [] && Fits(q, true, ps[|ps|-1], b) {
        ApartGrown(q, ps[|ps|-1], b);
      } else {
        ApartLone(q, b);
      }
    }
  }

  lemma CountNone(q: Limits)
    ensures Greedy(q, true, []) == []
  {
  }

  lemma ApartGrown(q: Limits, p: seq<Bvec>, b: Bvec)
    requires p != [] && Apart(q, p) && Fits(q, true, p, b)
    ensures Apart(q, p + [b])
  {
    hide High, Joinable, Bytes;
  }

  lemma ApartLone(q: Limits, b: Bvec)
    ensures Apart(q, [b])
  {
  }

  /** `vs` can be transferred as at most `m` legal segments, with each bvec above the bounce
      limit in one of its own. */
  ghost predicate Packs(q: Limits, vs: seq<Bvec>, m: int) {
    exists ps :: PacksAs(q, vs, m, ps)
  }

  ghost predicate PacksAs(q: Limits, vs: seq<Bvec>, m: int, ps: seq<seq<Bvec>>) {
    IsPartition(q, ps, vs) && AllApart(q, ps) && |ps| <= m
  }

  /** The counting loop finds the least number of such segments. */
  lemma CountIsLeast(q: Limits, vs: seq<Bvec>, m: int)
    ensures |Greedy(q, true, vs)| <= m <==> Packs(q, vs, m)
  {
    hide IsPartition, AllApart, Greedy;
    GreedyIsPartition(q, true, vs);
    CountKeepsApart(q, vs);
    if |Greedy(q, true, vs)| <= m {
      assert PacksAs(q, vs, m, Greedy(q, true, vs));
    }
    if Packs(q, vs, m) {
      var ps :| PacksAs(q, vs, m, ps);
      GreedyIsOptimal(q, true, ps, vs);
    }
  }

  /** `ws` is the end of `vs` from somewhere within bvec `k` on. */
  ghost predicate IsTail(ws: seq<Bvec>, vs: seq<Bvec>, k: nat) {
    && k < |vs| && ws != [] && ws[1..] == vs[k+1..]
    && vs[k].addr <= ws[0].addr && ws[0].End() == vs[k].End()
  }

  /** Taking bytes away at the front never needs more segments. */
  lemma {:induction false} TailPartition(q: Limits, ps: seq<seq<Bvec>>, vs: seq<Bvec>, ws: seq<Bvec>, k: nat)
      returns (qs: seq<seq<Bvec>>)
    requires IsPartition(q, ps, vs) && IsTail(ws, vs, k)
    ensures IsPartition(q, qs, ws) && |qs| <= |ps|
    decreases |ps|
  {
    hide Legal, Flatten;
    FlattenNone();
    FlattenHead(ps);
    var p, rest := ps[0], ps[1..];
    if k >= |p| {
      assert vs[|p|..] == Flatten(rest);
      qs := TailPartition(q, rest, Flatten(rest), ws, k - |p|);
    } else {
      var t := [ws[0]] + p[k+1..];
      LegalTail(q, p, k, ws[0]);
      qs := [t] + rest;
      FlattenHead(qs);
      assert vs[k+1..] == p[k+1..] + Flatten(rest);
      assert ws == t + Flatten(rest);
    }
  }

  lemma FlattenNone()
    ensures Flatten([]) == []
  {
  }

  lemma LegalTail(q: Limits, p: seq<Bvec>, k: nat, c: Bvec)
    requires Legal(q, p) && k < |p| && p[k].addr <= c.addr && c.End() == p[k].End()
    ensures Legal(q, [c] + p[k+1..])
  {
    hide Joinable, Bytes;
    var s, t := p[k..|p|], [c] + p[k+1..];
    LegalSlice(q, p, k, |p|);
    if |t| > 1 {
      assert s == [p[k]] + p[k+1..];
      BytesConcat([p[k]], p[k+1..]);
      BytesConcat([c], p[k+1..]);
      BytesOne(p[k]);
      BytesOne(c);
      forall i {:trigger t[i]} | 0 <= i < |t| - 1 ensures Joinable(q, t[i], t[i+1]) {
        assert Joinable(q, s[i], s[i+1]);
        if i == 0 { JoinableTail(q, p[k], c, s[1]); }
      }
    }
  }

  lemma JoinableTail(q: Limits, a: Bvec, c: Bvec, b: Bvec)
    requires Joinable(q, a, b) && a.addr <= c.addr && c.End() == a.End()
    ensures Joinable(q, c, b)
  {
    DivMonotone(a.addr, c.addr, q.window);
    DivMonotone(c.addr, b.End() - 1, q.window);
  }

  // ----- accounting carried by a request

  function Max(a: nat, b: nat): nat { if a < b then b else a }

  /** The claim a segment count makes: some legal partition has exactly `n` segments, and
      its first and last segments fit the recorded front and back sizes. */
  ghost predicate Accounted(q: Limits, vs: seq<Bvec>, n: int, front: nat, back: nat) {
    exists ps :: Witnesses(q, ps, vs, n, front, back)
  }

  ghost predicate Witnesses(q: Limits, ps: seq<seq<Bvec>>, vs: seq<Bvec>, n: int, front: nat, back: nat) {
    && IsPartition(q, ps, vs)
    && |ps| == n
    && (ps != [] ==> Bytes(ps[0]) <= front && Bytes(ps[|ps|-1]) <= back)
  }

  /** What makes the claim worth carrying: the count bounds the mapped entries. */
  lemma AccountedBoundsMap(q: Limits, vs: seq<Bvec>, n: int, front: nat, back: nat)
    requires Accounted(q, vs, n, front, back)
    ensures |Greedy(q, false, vs)| <= n
  {
    hide IsPartition, Greedy;
    var ps :| Witnesses(q, ps, vs, n, front, back);
    GreedyIsOptimal(q, false, ps, vs);
  }

  lemma AccountedGrows(q: Limits, vs: seq<Bvec>, n: int, front: nat, back: nat, front': nat, back': nat)
    requires Accounted(q, vs, n, front, back) && front <= front' && back <= back'
    ensures Accounted(q, vs, n, front', back')
  {
    var ps :| Witnesses(q, ps, vs, n, front, back);
    assert Witnesses(q, ps, vs, n, front', back');
  }

  /** A list accounted as one segment is that segment, so either size may stand for the other. */
  lemma AccountedSingle(q: Limits, vs: seq<Bvec>, front: nat, back: nat, front': nat, back': nat)
    requires Accounted(q, vs, 1, front, back)
    requires (front <= front' || back <= front') && (front <= back' || back <= back')
    ensures Accounted(q, vs, 1, front', back')
  {
    var ps :| Witnesses(q, ps, vs, 1, front, back);
    assert Witnesses(q, ps, vs, 1, front', back');
  }

  /** Appending without joining adds the counts. */
  lemma AccountedConcat(q: Limits, a: seq<Bvec>, na: int, fa: nat, ba: nat,
                        b: seq<Bvec>, nb: int, fb: nat, bb: nat)
    requires a != [] && b != []
    requires Accounted(q, a, na, fa, ba) && Accounted(q, b, nb, fb, bb)
    ensures Accounted(q, a + b, na + nb, fa, bb)
  {
    hide Legal, Joinable;
    var ps :| Witnesses(q, ps, a, na, fa, ba);
    var qs :| Witnesses(q, qs, b, nb, fb, bb);
    FlattenConcat(ps, qs);
    assert ps != [] && qs != [];
    assert Witnesses(q, ps + qs, a + b, na + nb, fa, bb);
  }

  /** Joining the last segment of `a` to the first of `b` saves one; when either list was a
      single segment, the joined segment is also the first or the last of the whole. */
  lemma AccountedJoin(q: Limits, a: seq<Bvec>, na: int, fa: nat, ba: nat,
                      b: seq<Bvec>, nb: int, fb: nat, bb: nat)
    requires a != [] && b != [] && q.cluster
    requires Accounted(q, a, na, fa, ba) && Accounted(q, b, nb, fb, bb)
    requires ba + fb <= q.maxSegSize && Joinable(q, a[|a|-1], b[0])
    ensures Accounted(q, a + b, na + nb - 1, if na == 1 then ba + fb else fa, if nb == 1 then ba + fb else bb)
  {
    hide Legal, Joinable, Bytes;
    var ps :| Witnesses(q, ps, a, na, fa, ba);
    var qs :| Witnesses(q, qs, b, nb, fb, bb);
    assert ps != [] && qs != [];
    var m := ps[|ps|-1] + qs[0];
    var rs := ps[..|ps|-1] + [m] + qs[1..];
    JoinedSegmentLegal(q, ps, a, qs, b);
    BytesConcat(ps[|ps|-1], qs[0]);
    JoinedFlatten(ps, qs);
    assert forall i :: 0 <= i < |rs| ==> Legal(q, rs[i]);
    assert Witnesses(q, rs, a + b, na + nb - 1, if na == 1 then ba + fb else fa, if nb == 1 then ba + fb else bb);
  }

  lemma JoinedSegmentLegal(q: Limits, ps: seq<seq<Bvec>>, a: seq<Bvec>, qs: seq<seq<Bvec>>, b: seq<Bvec>)
    requires IsPartition(q, ps, a) && IsPartition(q, qs, b) && a != [] && b != [] && ps != [] && qs != []
    requires q.cluster && Bytes(ps[|ps|-1]) + Bytes(qs[0]) <= q.maxSegSize && Joinable(q, a[|a|-1], b[0])
    ensures Legal(q, ps[|ps|-1] + qs[0])
  {
    hide Joinable;
    var x, y := ps[|ps|-1], qs[0];
    var m := x + y;
    BytesConcat(x, y);
    assert x[|x|-1] == a[|a|-1];
    assert y[0] == b[0] by {
      assert qs == [y] + qs[1..];
      FlattenConcat([y], qs[1..]);
      FlattenOne(y);
    }
    forall i {:trigger m[i]} | 0 <= i < |m| - 1 ensures Joinable(q, m[i], m[i+1]) {
      if i < |x| - 1 {
        assert Joinable(q, x[i], x[i+1]);
      } else if i >= |x| {
        var j := i - |x|;
        assert Joinable(q, y[j], y[j+1]);
      }
    }
  }

  lemma JoinedFlatten(ps: seq<seq<Bvec>>, qs: seq<seq<Bvec>>)
    requires ps != [] && qs != []
    ensures Flatten(ps[..|ps|-1] + [ps[|ps|-1] + qs[0]] + qs[1..]) == Flatten(ps) + Flatten(qs)
  {
    var front, x, y, rest := ps[..|ps|-1], ps[|ps|-1], qs[0], qs[1..];
    FlattenSplit(front, x + y, rest);
    FlattenHead(qs);
    Regroup(Flatten(front), x, y, Flatten(rest));
  }

  lemma FlattenSplit(front: seq<seq<Bvec>>, p: seq<Bvec>, rest: seq<seq<Bvec>>)
    ensures Flatten(front + [p] + rest) == (Flatten(front) + p) + Flatten(rest)
  {
    hide Flatten;
    FlattenConcat(front + [p], rest);
    FlattenConcat(front, [p]);
    FlattenOne(p);
  }

  lemma FlattenHead(qs: seq<seq<Bvec>>)
    requires qs != []
    ensures Flatten(qs) == qs[0] + Flatten(qs[1..])
  {
    hide Flatten;
    assert qs == [qs[0]] + qs[1..];
    FlattenConcat([qs[0]], qs[1..]);
    FlattenOne(qs[0]);
  }

  lemma Regroup(a: seq<Bvec>, x: seq<Bvec>, y: seq<Bvec>, b: seq<Bvec>)
    ensures (a + (x + y)) + b == (a + x) + (y + b)
  {
  }

  /** A fresh count accounts for itself. */
  lemma CountAccounts(q: Limits, vs: seq<Bvec>, front: nat, back: nat)
    requires var g := Greedy(q, true, vs);
             g != [] ==> Bytes(g[0]) <= front && Bytes(g[|g|-1]) <= back
    ensures Accounted(q, vs, |Greedy(q, true, vs)|, front, back)
  {
    hide IsPartition, Greedy, Bytes;
    GreedyIsPartition(q, true, vs);
    assert Witnesses(q, Greedy(q, true, vs), vs, |Greedy(q, true, vs)|, front, back);
  }

  // ----- blk_rq_map_sg

  /** A scatter-gather entry. */
  datatype Sg = Sg(addr: nat, length: nat)

  function Entry(p: seq<Bvec>): Sg {
    Sg(if p == [] then 0 else p[0].addr, Bytes(p))
  }

  function Entries(ps: seq<seq<Bvec>>): (r: seq<Sg>)
    ensures |r| == |ps|
  {
    seq(|ps|, i requires 0 <= i < |ps| => Entry(ps[i]))
  }

  /** The byte addresses a scatter-gather list covers, in order. */
  function SgLayout(sgs: seq<Sg>): seq<nat> {
    if sgs == [] then [] else SgLayout(sgs[..|sgs|-1]) + Range(sgs[|sgs|-1].addr, sgs[|sgs|-1].length)
  }

  /** What the device requires of an entry. */
  predicate Transferable(q: Limits, sg: Sg) {
    && 0 < sg.length <= q.maxSegSize
    && sg.addr / q.window == (sg.addr + sg.length - 1) / q.window
  }

  /** A legal segment occupies exactly the range its entry names. */
  lemma {:induction false} LegalLayout(q: Limits, p: seq<Bvec>)
    requires Legal(q, p)
    ensures Layout(p) == Range(p[0].addr, Bytes(p))
    decreases |p|
  {
    hide Legal, Joinable, Range;
    NotEmpty(q, p);
    var n := |p|;
    if n == 1 {
      assert p == [p[0]];
      LayoutOne(p[0]);
      BytesOne(p[0]);
    } else {
      var p', b := p[..n-1], p[n-1];
      LegalSlice(q, p, 0, n - 1);
      assert p[0..n-1] == p';
      LegalLayout(q, p');
      LegalIsContiguous(q, p');
      Adjacent(q, p, n - 2);
      RangeConcat(p[0].addr, Bytes(p'), b.len);
    }
  }

  lemma {:induction false} PartitionLayout(q: Limits, ps: seq<seq<Bvec>>, vs: seq<Bvec>)
    requires IsPartition(q, ps, vs)
    ensures SgLayout(Entries(ps)) == Layout(vs)
    decreases |ps|
  {
    hide Legal, Joinable;
    if ps != [] {
      var front, p := ps[..|ps|-1], ps[|ps|-1];
      PartitionLayout(q, front, Flatten(front));
      LayoutConcat(Flatten(front), p);
      LegalLayout(q, p);
      assert Entries(ps)[..|ps|-1] == Entries(front);
    }
  }

  lemma SegmentTransferable(q: Limits, p: seq<Bvec>)
    requires Legal(q, p) && (|p| == 1 ==> Transferable(q, Sg(p[0].addr, p[0].len)))
    ensures Transferable(q, Entry(p))
  {
    if |p| == 1 {
      assert p == [p[0]];
      BytesOne(p[0]);
    } else {
      LegalIsContiguous(q, p);
    }
  }

  /** Provided no single bvec already breaks a limit, every mapped entry is transferable. */
  lemma MapTransferable(q: Limits, vs: seq<Bvec>)
    requires forall b :: b in vs ==> Transferable(q, Sg(b.addr, b.len))
    ensures forall sg :: sg in Entries(Greedy(q, false, vs)) ==> Transferable(q, sg)
  {
    GreedyIsPartition(q, false, vs);
    var g := Greedy(q, false, vs);
    forall i | 0 <= i < |g| ensures Transferable(q, Entry(g[i])) {
      FlattenMember(g, i, g[i][0]);
      assert |g[i]| == 1 ==> Transferable(q, Sg(g[i][0].addr, g[i][0].len));
      SegmentTransferable(q, g[i]);
    }
  }

  lemma {:induction false} FlattenMember(ps: seq<seq<Bvec>>, i: nat, b: Bvec)
    requires i < |ps| && b in ps[i]
    ensures b in Flatten(ps)
    decreases |ps|
  {
    if i < |ps| - 1 { FlattenMember(ps[..|ps|-1], i, b); }
  }

  lemma EntriesExtend(ps: seq<seq<Bvec>>, b: Bvec)
    requires ps != [] && ps[|ps|-1] != []
    ensures var es := Entries(ps); var n := |ps| - 1;
            Entries(ps[..n] + [ps[n] + [b]]) == es[n := es[n].(length := es[n].length + b.len)]
  {
    hide Range;
    var n := |ps| - 1;
    BytesConcat(ps[n], [b]);
    BytesOne(b);
    assert Entry(ps[n] + [b]) == Entry(ps[n]).(length := Entry(ps[n]).length + b.len);
  }

  lemma EntriesAppend(ps: seq<seq<Bvec>>, b: Bvec)
    ensures Entries(ps + [[b]]) == Entries(ps) + [Sg(b.addr, b.len)]
  {
    BytesOne(b);
  }

  lemma GreedyUnfold(q: Limits, bounce: bool, vs: seq<Bvec>, b: Bvec)
    ensures var ps := Greedy(q, bounce, vs);
            Greedy(q, bounce, vs + [b]) ==
            if ps != [] && ps[|ps|-1] != [] && Fits(q, bounce, ps[|ps|-1], b)
            then ps[..|ps|-1] + [ps[|ps|-1] + [b]]
            else ps + [[b]]
  {
    hide Fits;
    var w := vs + [b];
    assert w != [] && w[..|w|-1] == vs && w[|w|-1] == b;
  }

  lemma GreedyEndsInLast(q: Limits, bounce: bool, vs: seq<Bvec>)
    requires vs != []
    ensures var g := Greedy(q, bounce, vs);
            g != [] && g[|g|-1] != [] && g[|g|-1][|g[|g|-1]|-1] == vs[|vs|-1]
  {
  }

  lemma MapNothing(q: Limits)
    ensures Entries(Greedy(q, false, [])) == []
  {
  }

  /** One round of the mapping loop. */
  lemma GreedyNone(q: Limits)
    ensures Greedy(q, false, []) == []
  {
  }

  lemma MapStep(q: Limits, vs: seq<Bvec>, b: Bvec)
    ensures var es := Entries(Greedy(q, false, vs));
            && (vs != [] ==> es != [])
            && Entries(Greedy(q, false, vs + [b])) ==
               if vs != [] && q.cluster && es[|es|-1].length + b.len <= q.maxSegSize && Joinable(q, vs[|vs|-1], b)
               then es[|es|-1 := es[|es|-1].(length := es[|es|-1].length + b.len)]
               else es + [Sg(b.addr, b.len)]
  {
    hide Joinable, High, Greedy;
    var g := Greedy(q, false, vs);
    GreedyUnfold(q, false, vs, b);
    EntriesAppend(g, b);
    if vs == [] {
      GreedyNone(q);
    } else {
      GreedyEndsInLast(q, false, vs);
      EntriesExtend(g, b);
    }
  }

  /** `blk_rq_map_sg`, before any padding or drain entry: the list addresses exactly the
      bytes of the request in order, and no legal list is shorter. */
  method MapSg(q: Limits, vs: seq<Bvec>) returns (sgs: seq<Sg>)
    ensures sgs == Entries(Greedy(q, false, vs))
    ensures SgLayout(sgs) == Layout(vs)
    ensures forall ps :: IsPartition(q, ps, vs) ==> |sgs| <= |ps|
  {
    hide Joinable, SgLayout, Layout, High, Greedy, Entries, IsPartition;
    sgs := [];
    MapNothing(q);
    for k := 0 to |vs|
      invariant sgs == Entries(Greedy(q, false, vs[..k])) && (k > 0 ==> sgs != [])
    {
      var b := vs[k];
      MapStep(q, vs[..k], b);
      assert vs[..k+1] == vs[..k] + [b];
      if k > 0 && q.cluster && sgs[|sgs|-1].length + b.len <= q.maxSegSize && Joinable(q, vs[k-1], b) {
        sgs := sgs[|sgs|-1 := sgs[|sgs|-1].(length := sgs[|sgs|-1].length + b.len)];
      } else {
        sgs := sgs + [Sg(b.addr, b.len)];
      }
    }
    assert vs[..|vs|] == vs;
    GreedyIsPartition(q, false, vs);
    PartitionLayout(q, Greedy(q, false, vs), vs);
    forall ps | IsPartition(q, ps, vs) ensures |sgs| <= |ps| {
      GreedyIsOptimal(q, false, ps, vs);
    }
  }
}
