/** Partial completion of a request (`blk_update_request`), exactly when its loop stays within
    the bvecs, what it leaves and how it composes; and failing up to a failfast boundary
    (`blk_rq_err_bytes`).
 */
module Completion {
  import opened Segments
  import opened Requests

  // ----- removing bytes from the front of a chain

  /** Drop the first `n` bytes of a bvec list, cutting the bvec in which they end. */
  function Cut(vs: seq<Bvec>, n: nat): (r: seq<Bvec>)
    requires n < Bytes(vs)
    decreases |vs|
  {
    BytesFirst(vs);
    if vs[0].len <= n then Cut(vs[1..], n - vs[0].len)
    else [Bvec(vs[0].addr + n, vs[0].len - n)] + vs[1..]
  }

  lemma BytesFirst(vs: seq<Bvec>)
    requires vs != []
    ensures Bytes(vs) == vs[0].len + Bytes(vs[1..])
  {
    assert vs == [vs[0]] + vs[1..];
    BytesConcat([vs[0]], vs[1..]);
    BytesOne(vs[0]);
  }

  lemma LayoutFirst(b: Bvec, vs: seq<Bvec>)
    ensures Layout([b] + vs) == Range(b.addr, b.len) + Layout(vs)
    ensures Bytes([b] + vs) == b.len + Bytes(vs)
  {
    LayoutConcat([b], vs);
    LayoutOne(b);
    BytesConcat([b], vs);
    BytesOne(b);
  }

  lemma RangeCut(addr: nat, len: nat, n: nat)
    requires n <= len
    ensures Range(addr, len)[n..] == Range(addr + n, len - n)
  {
  }

  /** Cutting removes exactly the first `n` bytes. */
  lemma {:induction false} CutLayout(vs: seq<Bvec>, n: nat)
    requires n < Bytes(vs)
    ensures Layout(Cut(vs, n)) == Layout(vs)[n..]
    ensures Cut(vs, n) != [] && Bytes(Cut(vs, n)) == Bytes(vs) - n
    decreases |vs|
  {
    hide Layout, Bytes, Range;
    BytesNone();
    BytesFirst(vs);
    var b, rest := vs[0], vs[1..];
    assert vs == [b] + rest;
    LayoutFirst(b, rest);
    if b.len <= n {
      CutLayout(rest, n - b.len);
      assert Layout(vs)[n..] == Layout(rest)[n - b.len..];
    } else {
      var c := Bvec(b.addr + n, b.len - n);
      LayoutFirst(c, rest);
      RangeCut(b.addr, b.len, n);
      assert Layout(vs)[n..] == Range(b.addr, b.len)[n..] + Layout(rest);
    }
  }

  lemma BytesNone()
    ensures Bytes([]) == 0
  {
  }

  lemma {:induction false} CutCut(vs: seq<Bvec>, x: nat, y: nat)
    requires x + y < Bytes(vs)
    ensures Bytes(Cut(vs, x)) == Bytes(vs) - x && Cut(Cut(vs, x), y) == Cut(vs, x + y)
    decreases |vs|
  {
    hide Bytes;
    CutLayout(vs, x);
    BytesNone();
    BytesFirst(vs);
    if vs[0].len <= x {
      CutCut(vs[1..], x - vs[0].len, y);
    } else {
      var b, rest := vs[0], vs[1..];
      var c := Bvec(b.addr + x, b.len - x);
      assert Cut(vs, x) == [c] + rest;
      assert ([c] + rest)[1..] == rest;
    }
  }

  /** `req_bio_endio` for `n` bytes that do not finish the bio. */
  function Advance(b: Bio, n: nat, err: int): Bio
    requires n < Bytes(b.live) && n < b.size
  {
    if n == 0 then b
    else b.(size := b.size - n, sector := b.sector + n / 512, live := Cut(b.live, n),
            uptodate := b.uptodate && err == 0)
  }

  /** The status a finished bio is ended with: an earlier failure of a part of it sticks. */
  function EndStatus(b: Bio, err: int): int {
    if err != 0 then err else if b.uptodate then 0 else -EIO
  }

  /** What completing bytes does to a chain: the bios left, and those ended with their status. */
  datatype Trimmed = Trimmed(rest: seq<Bio>, ended: seq<(nat, int)>)

  ghost predicate AllWellFormed(bios: seq<Bio>) {
    forall i :: 0 <= i < |bios| ==> WellFormed(bios[i])
  }

  /** Walking `r` bytes into the bvecs of a bio of `size` bytes: no bvec on the way is longer
      than the bio, and a bvec is left to stop in. */
  predicate Within(vs: seq<Bvec>, r: nat, size: nat) {
    && vs != []
    && if vs[0].len > r then vs[0].len <= size
       else if vs[0].len == r then |vs| > 1
       else Within(vs[1..], r - vs[0].len, size)
  }

  /** Completing `n` bytes stops between two bios, or within the bvecs of one. */
  predicate StaysWithin(bios: seq<Bio>, n: nat) {
    || bios == []
    || n == 0
    || if bios[0].size <= n then StaysWithin(bios[1..], n - bios[0].size)
       else Within(bios[0].live, n, bios[0].size)
  }

  lemma {:induction false} WithinBytes(vs: seq<Bvec>, r: nat, size: nat)
    requires Within(vs, r, size)
    ensures r < Bytes(vs)
    decreases |vs|
  {
    BytesFirst(vs);
    if vs[0].len < r {
      WithinBytes(vs[1..], r - vs[0].len, size);
    } else if vs[0].len == r {
      BytesFirst(vs[1..]);
    }
  }

  /** A bio whose bvecs are within its size can be cut at each of their bytes, and nowhere
      else. */
  lemma {:induction false} WithinRoomy(vs: seq<Bvec>, r: nat, size: nat)
    requires Bytes(vs) <= size
    ensures Within(vs, r, size) <==> r < Bytes(vs)
    decreases |vs|
  {
    hide Bytes;
    BytesNone();
    if vs != [] {
      BytesFirst(vs);
      if vs[0].len < r {
        WithinRoomy(vs[1..], r - vs[0].len, size);
      } else if |vs| > 1 {
        BytesFirst(vs[1..]);
      } else {
        assert vs[1..] == [];
      }
    }
  }

  lemma CutBytes(b: Bio, n: nat)
    requires WellFormed(b) && (n == 0 || Within(b.live, n, b.size))
    ensures n < Bytes(b.live)
  {
    BytesFirst(b.live);
    if n != 0 {
      WithinBytes(b.live, n, b.size);
    }
  }

  ghost function Trim(bios: seq<Bio>, n: nat, err: int): Trimmed
    requires AllWellFormed(bios) && StaysWithin(bios, n)
    decreases |bios|
  {
    if bios == [] then Trimmed([], [])
    else if bios[0].size <= n then
      var t := Trim(bios[1..], n - bios[0].size, err);
      Trimmed(t.rest, [(bios[0].id, EndStatus(bios[0], err))] + t.ended)
    else
      assert WellFormed(bios[0]);
      CutBytes(bios[0], n);
      Trimmed([Advance(bios[0], n, err)] + bios[1..], [])
  }

  lemma AdvanceOk(b: Bio, n: nat, err: int)
    requires WellFormed(b) && n < b.size && (n == 0 || Within(b.live, n, b.size))
    ensures n < Bytes(b.live)
    ensures var c := Advance(b, n, err);
            && WellFormed(c) && c.size == b.size - n && c.ff == b.ff && c.id == b.id
            && Layout(c.live) == Layout(b.live)[n..] && Bytes(c.live) == Bytes(b.live) - n
  {
    CutBytes(b, n);
    CutLayout(b.live, n);
    assert n == 0 ==> Layout(b.live)[n..] == Layout(b.live);
  }

  lemma VecsFirst(b: Bio, bios: seq<Bio>)
    ensures Vecs([b] + bios) == b.live + Vecs(bios)
    ensures Sizes([b] + bios) == b.size + Sizes(bios)
  {
    VecsConcat([b], bios);
    VecsOne(b);
    assert ([b] + bios)[1..] == bios;
  }

  function Ids(bios: seq<Bio>): seq<nat> {
    seq(|bios|, i requires 0 <= i < |bios| => bios[i].id)
  }

  function EndedIds(ended: seq<(nat, int)>): seq<nat> {
    seq(|ended|, i requires 0 <= i < |ended| => ended[i].0)
  }

  /** Completing `n` bytes removes exactly the first `n` bytes of the chain, and splits the
      bios, in order, into those ended and those left. */
  lemma {:induction false} TrimExact(bios: seq<Bio>, n: nat, err: int)
    requires AllWellFormed(bios) && StaysWithin(bios, n)
    ensures var t := Trim(bios, n, err);
            && AllWellFormed(t.rest)
            && (t.rest == [] <==> Sizes(bios) <= n)
            && (n <= Sizes(bios) ==> Sizes(t.rest) == Sizes(bios) - n)
            && EndedIds(t.ended) + Ids(t.rest) == Ids(bios)
    decreases |bios|
  {
    hide WellFormed, Advance, EndStatus, Trim, Within;
    if bios == [] {
      TrimNothing(n, err);
    } else {
      var b, rest := bios[0], bios[1..];
      assert WellFormed(b) && bios == [b] + rest;
      if b.size <= n {
        TrimExact(rest, n - b.size, err);
        TrimWhole(bios, n, err);
        FirstEnded(b, rest, EndStatus(b, err), Trim(rest, n - b.size, err));
      } else {
        TrimInside(b, rest, n, err);
      }
    }
  }

  lemma FirstEnded(b: Bio, rest: seq<Bio>, status: int, u: Trimmed)
    requires EndedIds(u.ended) + Ids(u.rest) == Ids(rest)
    ensures EndedIds([(b.id, status)] + u.ended) + Ids(u.rest) == Ids([b] + rest)
  {
    assert EndedIds([(b.id, status)] + u.ended) == [b.id] + EndedIds(u.ended);
    assert Ids([b] + rest) == [b.id] + Ids(rest);
    assert [b.id] + EndedIds(u.ended) + Ids(u.rest) == [b.id] + (EndedIds(u.ended) + Ids(u.rest));
  }

  /** Cutting inside the first bio. */
  lemma TrimInside(b: Bio, rest: seq<Bio>, n: nat, err: int)
    requires WellFormed(b) && AllWellFormed(rest) && n < b.size && StaysWithin([b] + rest, n)
    ensures n < Bytes(b.live) && AllWellFormed([b] + rest)
    ensures var c := Advance(b, n, err);
            && Trim([b] + rest, n, err) == Trimmed([c] + rest, [])
            && AllWellFormed([c] + rest) && c.size == b.size - n
            && Sizes([c] + rest) == Sizes([b] + rest) - n && Ids([c] + rest) == Ids([b] + rest)
  {
    hide Advance, EndStatus, Within;
    assert ([b] + rest)[1..] == rest;
    AdvanceOk(b, n, err);
    var c := Advance(b, n, err);
    assert ([c] + rest)[1..] == rest;
  }

  lemma {:induction false} BytesOfVecs(bios: seq<Bio>)
    requires AllAgree(bios)
    ensures Bytes(Vecs(bios)) == Sizes(bios)
    decreases |bios|
  {
    hide Bytes, Vecs, Sizes;
    if bios == [] {
      VecsNone();
      BytesNone();
      SizesNone();
    } else {
      var b, rest := bios[0], bios[1..];
      assert bios == [b] + rest && Agrees(b);
      VecsFirst(b, rest);
      BytesConcat(b.live, Vecs(rest));
      BytesOfVecs(rest);
    }
  }

  lemma SizesNone()
    ensures Sizes([]) == 0
  {
  }

  ghost predicate AllAgree(bios: seq<Bio>) {
    forall i :: 0 <= i < |bios| ==> Agrees(bios[i])
  }

  ghost predicate AllRoomy(bios: seq<Bio>) {
    forall i :: 0 <= i < |bios| ==> Roomy(bios[i])
  }

  /** Bios whose sizes agree with their bvecs can be completed by any number of bytes. */
  lemma {:induction false} AgreeingStaysWithin(bios: seq<Bio>, n: nat)
    requires AllAgree(bios)
    ensures StaysWithin(bios, n)
    decreases |bios|
  {
    if bios != [] {
      var b := bios[0];
      assert Agrees(b);
      if b.size <= n {
        AgreeingStaysWithin(bios[1..], n - b.size);
      } else {
        WithinRoomy(b.live, n, b.size);
      }
    }
  }

  /** The byte addresses left are the old ones without the first `n`. */
  lemma {:induction false} TrimLayout(bios: seq<Bio>, n: nat, err: int)
    requires AllWellFormed(bios) && AllAgree(bios) && n <= Sizes(bios)
    ensures StaysWithin(bios, n) && Bytes(Vecs(bios)) == Sizes(bios)
    ensures Layout(Vecs(Trim(bios, n, err).rest)) == Layout(Vecs(bios))[n..]
    decreases |bios|
  {
    hide Within, Layout, Vecs, Sizes, Bytes, Advance, EndStatus, Trim;
    AgreeingStaysWithin(bios, n);
    BytesOfVecs(bios);
    if bios == [] {
      SizesNone();
      TrimNothing(n, err);
    } else {
      var b, rest := bios[0], bios[1..];
      assert bios == [b] + rest && WellFormed(b) && Agrees(b);
      VecsFirst(b, rest);
      LayoutConcat(b.live, Vecs(rest));
      if b.size <= n {
        TrimLayout(rest, n - b.size, err);
        TrimWhole(bios, n, err);
        assert Layout(Vecs(bios))[n..] == Layout(Vecs(rest))[n - b.size..];
      } else {
        TrimInside(b, rest, n, err);
        TrimLayoutPartial(b, rest, n, err);
      }
    }
  }

  lemma TrimLayoutPartial(b: Bio, rest: seq<Bio>, n: nat, err: int)
    requires WellFormed(b) && n < b.size && (n == 0 || Within(b.live, n, b.size))
    ensures n < Bytes(b.live) && Bytes(Vecs([b] + rest)) >= n
    ensures Layout(Vecs([Advance(b, n, err)] + rest)) == Layout(Vecs([b] + rest))[n..]
  {
    hide Layout, Vecs, Bytes, Within;
    AdvanceOk(b, n, err);
    var c := Advance(b, n, err);
    VecsFirst(c, rest);
    VecsFirst(b, rest);
    LayoutConcat(c.live, Vecs(rest));
    LayoutConcat(b.live, Vecs(rest));
    BytesConcat(b.live, Vecs(rest));
    assert (Layout(b.live) + Layout(Vecs(rest)))[n..] == Layout(b.live)[n..] + Layout(Vecs(rest));
  }

  // ----- where a chain can be cut

  /** The `n`-th byte of the chain, if inside a bio, is a byte of its bvecs. */
  ghost predicate InPayload(bios: seq<Bio>, n: nat) {
    bios != [] ==> if bios[0].size <= n then InPayload(bios[1..], n - bios[0].size) else n < Bytes(bios[0].live)
  }

  /** With bvecs within the sizes, the loop stays within the bvecs exactly when it does not
      stop behind the payload of a bio. */
  lemma {:induction false} StaysWithinRoomy(bios: seq<Bio>, n: nat)
    requires AllWellFormed(bios) && AllRoomy(bios)
    ensures StaysWithin(bios, n) <==> InPayload(bios, n)
    decreases |bios|
  {
    hide Within, Bytes;
    if bios != [] {
      var b := bios[0];
      assert WellFormed(b) && Roomy(b);
      BytesFirst(b.live);
      WithinRoomy(b.live, n, b.size);
      StaysWithinRoomy(bios[1..], if b.size <= n then n - b.size else 0);
    }
  }

  /** Completing whole bios never enters one, whatever their sizes. */
  lemma {:induction false} WholeBiosStayWithin(bios: seq<Bio>, k: nat)
    requires k <= |bios|
    ensures StaysWithin(bios, Sizes(bios[..k]))
    decreases k
  {
    SizesNone();
    if k > 0 {
      assert bios[..k][1..] == bios[1..][..k-1];
      WholeBiosStayWithin(bios[1..], k - 1);
    }
  }

  lemma {:induction false} TrimRoomy(bios: seq<Bio>, n: nat, err: int)
    requires AllWellFormed(bios) && AllRoomy(bios) && StaysWithin(bios, n)
    ensures AllRoomy(Trim(bios, n, err).rest)
    ensures AllAgree(bios) ==> AllAgree(Trim(bios, n, err).rest)
    decreases |bios|
  {
    hide Within, Bytes, Advance, EndStatus, Trim;
    if bios == [] {
      TrimNothing(n, err);
    } else {
      var b, rest := bios[0], bios[1..];
      assert bios == [b] + rest && WellFormed(b) && Roomy(b);
      if b.size <= n {
        TrimRoomy(rest, n - b.size, err);
        TrimWhole(bios, n, err);
      } else {
        TrimInside(b, rest, n, err);
        AdvanceOk(b, n, err);
      }
    }
  }

  // ----- completing in two steps

  lemma AdvanceTwice(b: Bio, x: nat, y: nat, err: int)
    requires x + y < b.size && x + y < Bytes(b.live) && x % 512 == 0
    ensures y < Advance(b, x, err).size && y < Bytes(Advance(b, x, err).live)
    ensures Advance(Advance(b, x, err), y, err) == Advance(b, x + y, err)
  {
    hide Cut, Bytes;
    CutCut(b.live, x, y);
    CutNothing(b.live);
    if y == 0 { CutCut(b.live, x, 0); }
  }

  lemma CutNothing(vs: seq<Bvec>)
    requires 0 < Bytes(vs)
    ensures Cut(vs, 0) == vs
  {
    BytesNone();
    BytesFirst(vs);
    assert vs == [vs[0]] + vs[1..];
  }

  lemma AdvanceThenEnd(b: Bio, x: nat, err: int)
    requires x < b.size && x < Bytes(b.live)
    ensures EndStatus(Advance(b, x, err), err) == EndStatus(b, err)
  {
  }

  lemma {:induction false} WithinGrows(vs: seq<Bvec>, r: nat, size: nat, size': nat)
    requires Within(vs, r, size) && size <= size'
    ensures Within(vs, r, size')
    decreases |vs|
  {
    if vs[0].len < r {
      WithinGrows(vs[1..], r - vs[0].len, size, size');
    }
  }

  /** Two walks in turn that find their bvecs are one that does. */
  lemma {:induction false} WithinTwice(vs: seq<Bvec>, x: nat, y: nat, left: nat, size: nat)
    requires Within(vs, x, size) && x < Bytes(vs) && Within(Cut(vs, x), y, left) && x + left <= size
    ensures Within(vs, x + y, size)
    decreases |vs|
  {
    hide Bytes;
    BytesNone();
    BytesFirst(vs);
    var b, rest := vs[0], vs[1..];
    if b.len > x {
      var c := Bvec(b.addr + x, b.len - x);
      assert Cut(vs, x) == [c] + rest && ([c] + rest)[1..] == rest;
      if c.len < y {
        WithinGrows(rest, y - c.len, left, size);
      }
    } else if b.len == x {
      CutNothing(rest);
      if y > 0 {
        WithinGrows(rest, y, left, size);
      }
    } else {
      WithinTwice(rest, x - b.len, y, left, size);
    }
  }

  ghost predicate SectorSized(bios: seq<Bio>) {
    forall i :: 0 <= i < |bios| ==> bios[i].size % 512 == 0
  }

  /** Completing `x` and then `y` bytes, where both stay within the bvecs, is completing `x + y`,
      which does too. */
  lemma {:induction false} TrimTwice(bios: seq<Bio>, x: nat, y: nat, err: int)
    requires AllWellFormed(bios) && StaysWithin(bios, x) && StaysWithin(Trim(bios, x, err).rest, y) && x % 512 == 0
    requires SectorSized(bios)
    ensures StaysWithin(bios, x + y)
    ensures var t := Trim(bios, x, err);
            && AllWellFormed(t.rest)
            && var u, w := Trim(t.rest, y, err), Trim(bios, x + y, err);
               u.rest == w.rest && t.ended + u.ended == w.ended
    decreases |bios|
  {
    hide AllWellFormed, WellFormed, EndStatus, Trim, StaysWithin, SectorSized;
    TrimExact(bios, x, err);
    if bios == [] {
      AgreeingStaysWithin([], x + y);
      TrimNothing(x, err);
      TrimNothing(y, err);
      TrimNothing(x + y, err);
    } else {
      var b, rest := bios[0], bios[1..];
      TailWellFormed(bios, x);
      assert bios == [b] + rest;
      if b.size <= x {
        TrimWhole(bios, x, err);
        TrimTwice(rest, x - b.size, y, err);
        StaysWithinAfter(bios, x + y);
        TrimWhole(bios, x + y, err);
        assert x + y - b.size == x - b.size + y;
        var t := Trim(rest, x - b.size, err);
        EndsInTurn([(b.id, EndStatus(b, err))], t.ended, Trim(t.rest, y, err).ended);
      } else {
        TrimTwicePartial(b, rest, x, y, err);
      }
    }
  }

  lemma TailWellFormed(bios: seq<Bio>, x: nat)
    requires AllWellFormed(bios) && bios != [] && SectorSized(bios) && x % 512 == 0
    ensures WellFormed(bios[0]) && bios[0].size > 0 && AllWellFormed(bios[1..]) && SectorSized(bios[1..])
    ensures bios[0].size <= x ==> (x - bios[0].size) % 512 == 0
  {
  }

  lemma StaysWithinAfter(bios: seq<Bio>, n: nat)
    requires bios != [] && 0 < bios[0].size <= n && StaysWithin(bios[1..], n - bios[0].size)
    ensures StaysWithin(bios, n)
  {
  }

  lemma EndsInTurn(a: seq<(nat, int)>, b: seq<(nat, int)>, c: seq<(nat, int)>)
    ensures (a + b) + c == a + (b + c)
  {
  }

  lemma TrimWhole(bios: seq<Bio>, n: nat, err: int)
    requires AllWellFormed(bios) && bios != [] && bios[0].size <= n && StaysWithin(bios, n)
    ensures StaysWithin(bios[1..], n - bios[0].size)
    ensures var t := Trim(bios[1..], n - bios[0].size, err);
            Trim(bios, n, err) == Trimmed(t.rest, [(bios[0].id, EndStatus(bios[0], err))] + t.ended)
  {
  }

  lemma TrimNothing(n: nat, err: int)
    ensures Trim([], n, err) == Trimmed([], [])
  {
  }

  lemma TrimTwicePartial(b: Bio, rest: seq<Bio>, x: nat, y: nat, err: int)
    requires WellFormed(b) && AllWellFormed(rest) && x < b.size && x % 512 == 0
    requires AllWellFormed([b] + rest) && StaysWithin([b] + rest, x) && StaysWithin(Trim([b] + rest, x, err).rest, y)
    ensures StaysWithin([b] + rest, x + y)
    ensures var t := Trim([b] + rest, x, err);
            && AllWellFormed(t.rest)
            && var u, w := Trim(t.rest, y, err), Trim([b] + rest, x + y, err);
               u.rest == w.rest && t.ended + u.ended == w.ended
  {
    hide Trim, EndStatus, Cut, Bytes, Within, Advance, StaysWithin;
    TrimInside(b, rest, x, err);
    var c := Advance(b, x, err);
    TwiceWithin(b, rest, x, y, err);
    AdvanceKeepsId(b, x, err);
    if x + y < b.size {
      TrimInside(b, rest, x + y, err);
      TrimInside(c, rest, y, err);
      AdvanceTwice(b, x, y, err);
    } else {
      AdvanceThenEnd(b, x, err);
      assert ([b] + rest)[1..] == rest && ([c] + rest)[1..] == rest;
      TrimWhole([b] + rest, x + y, err);
      TrimWhole([c] + rest, y, err);
    }
  }

  lemma TwiceWithin(b: Bio, rest: seq<Bio>, x: nat, y: nat, err: int)
    requires WellFormed(b) && x < b.size && StaysWithin([b] + rest, x) && x < Bytes(b.live)
    requires StaysWithin([Advance(b, x, err)] + rest, y)
    ensures StaysWithin([b] + rest, x + y)
  {
    hide Cut, Bytes, Within;
    var c := Advance(b, x, err);
    assert ([b] + rest)[1..] == rest && ([c] + rest)[1..] == rest;
    if x > 0 && y > 0 && x + y < b.size {
      WithinTwice(b.live, x, y, b.size - x, b.size);
    }
  }

  lemma AdvanceKeepsId(b: Bio, x: nat, err: int)
    requires x < b.size && x < Bytes(b.live)
    ensures Advance(b, x, err).id == b.id
  {
  }

  // ----- blk_update_request

  datatype Updated = Updated(more: bool, rq: Request, ended: seq<(nat, int)>)

  /** `blk_update_request`: complete `n` bytes and set the request up for the rest. */
  ghost function Update(q: Limits, rq: Request, n: nat, err: int): Updated
    requires AllWellFormed(rq.bios) && StaysWithin(rq.bios, n)
  {
    if rq.bios == [] then Updated(false, rq, [])
    else
      var t := Trim(rq.bios, n, err);
      if t.rest == [] then Updated(false, rq.(bios := [], dataLen := 0), t.ended)
      else
        TrimExact(rq.bios, n, err);
        assert WellFormed(t.rest[0]);
        var (segs, bios) := Recalc(q, t.rest);
        var left, cur := rq.dataLen - n, t.rest[0].live[0].len;
        Updated(true,
                rq.(bios := bios,
                    dataLen := LengthLeft(left, cur),
                    sector := rq.sector + n / 512,
                    ff := if rq.mixed then t.rest[0].ff else rq.ff,
                    nrSegs := segs),
                t.ended)
  }

  lemma RecalcOk(q: Limits, bios: seq<Bio>)
    requires bios != [] && AllWellFormed(bios)
    ensures var (n, bs) := Recalc(q, bios);
            && SameLayout(bios, bs) && AllWellFormed(bs)
            && (forall i :: 0 <= i < |bs| ==> bs[i].ff == bios[i].ff && bs[i].id == bios[i].id)
            && Accounted(q, Vecs(bs), n, bs[0].front, bs[|bs|-1].back)
  {
    hide WellFormed, Vecs, Greedy, Accounted, Bytes;
    var (n, bs) := Recalc(q, bios);
    SameLayoutVecs(bios, bs);
    SameLayoutWellFormed(bios, bs);
    CountAccounts(q, Vecs(bs), bs[0].front, bs[|bs|-1].back);
  }

  /** The length of the first bvec left when `n` bytes are done (`blk_rq_cur_bytes`). */
  ghost function FirstLeft(bios: seq<Bio>, n: nat): nat
    requires AllWellFormed(bios) && StaysWithin(bios, n)
    decreases |bios|
  {
    if bios == [] then 0
    else if bios[0].size <= n then FirstLeft(bios[1..], n - bios[0].size)
    else
      assert WellFormed(bios[0]);
      CutBytes(bios[0], n);
      CutLayout(bios[0].live, n);
      Cut(bios[0].live, n)[0].len
  }

  /** The first bvec left is no longer than all that is left. */
  ghost predicate HeadFits(bios: seq<Bio>, n: nat)
    requires AllWellFormed(bios) && StaysWithin(bios, n)
  {
    n < Sizes(bios) ==> FirstLeft(bios, n) <= Sizes(bios) - n
  }

  lemma {:induction false} TrimFirst(bios: seq<Bio>, n: nat, err: int)
    requires AllWellFormed(bios) && StaysWithin(bios, n)
    ensures var rest := Trim(bios, n, err).rest;
            rest != [] ==> WellFormed(rest[0]) && rest[0].live[0].len == FirstLeft(bios, n)
    decreases |bios|
  {
    hide Within, Bytes, EndStatus, Trim;
    if bios == [] {
      TrimNothing(n, err);
    } else {
      var b, rest := bios[0], bios[1..];
      assert bios == [b] + rest && WellFormed(b);
      if b.size <= n {
        TrimFirst(rest, n - b.size, err);
        TrimWhole(bios, n, err);
      } else {
        TrimInside(b, rest, n, err);
        CutLayout(b.live, n);
        BytesFirst(b.live);
      }
    }
  }

  lemma RoomyHeadFits(bios: seq<Bio>, n: nat)
    requires AllWellFormed(bios) && AllRoomy(bios) && StaysWithin(bios, n)
    ensures HeadFits(bios, n)
  {
    hide Trim, Bytes, FirstLeft, StaysWithin;
    TrimExact(bios, n, 0);
    TrimRoomy(bios, n, 0);
    TrimFirst(bios, n, 0);
    var rest := Trim(bios, n, 0).rest;
    if rest != [] {
      assert Roomy(rest[0]) && WellFormed(rest[0]);
      BytesFirst(rest[0].live);
    }
  }

  lemma {:induction false} TrimKeepsFailFast(bios: seq<Bio>, n: nat, err: int, ff: FailFast)
    requires AllWellFormed(bios) && StaysWithin(bios, n) && forall i :: 0 <= i < |bios| ==> ff.Covers(bios[i].ff)
    ensures var rest := Trim(bios, n, err).rest;
            forall i :: 0 <= i < |rest| ==> ff.Covers(rest[i].ff)
    decreases |bios|
  {
    hide EndStatus, Bytes, Cut, Trim, Within, Advance;
    if bios == [] {
      TrimNothing(n, err);
    } else {
      var b, rest := bios[0], bios[1..];
      assert bios == [b] + rest && WellFormed(b);
      if b.size <= n {
        TrimKeepsFailFast(rest, n - b.size, err, ff);
        TrimWhole(bios, n, err);
      } else {
        TrimInside(b, rest, n, err);
        AdvanceOk(b, n, err);
      }
    }
  }

  /** The data length after a completion: what is left by subtraction, raised to the length of
      the first bvec left. */
  function LengthLeft(left: int, cur: nat): int { if left < cur then cur else left }

  /** Completing keeps the invariant.  The data length stays that of the bios exactly when the
      first bvec left is no longer than all that is left; otherwise the "request botched"
      correction sets it to the length of that bvec. */
  lemma UpdateOk(q: Limits, rq: Request, n: nat, err: int)
    requires Inv(q, rq) && StaysWithin(rq.bios, n)
    ensures var u := Update(q, rq, n, err);
            && Inv(q, u.rq)
            && (u.more <==> n < Sizes(rq.bios)) && (u.more <==> u.rq.bios != [])
            && (u.more ==> u.rq.dataLen == LengthLeft(rq.dataLen - n, FirstLeft(rq.bios, n)))
            && (Measured(rq) ==>
                  && (Measured(u.rq) <==> HeadFits(rq.bios, n))
                  && u.rq.dataLen == (if !u.more then 0 else if HeadFits(rq.bios, n) then rq.dataLen - n
                                      else FirstLeft(rq.bios, n)))
  {
    hide WellFormed, Vecs, Sizes, Accounted, Recalc, Trim, FirstLeft, StaysWithin;
    SizesNone();
    if rq.bios != [] {
      TrimExact(rq.bios, n, err);
      TrimFirst(rq.bios, n, err);
      var t := Trim(rq.bios, n, err);
      if t.rest != [] {
        RecalcOk(q, t.rest);
        var (segs, bios) := Recalc(q, t.rest);
        SameLayoutSizes(t.rest, bios);
        if !rq.mixed {
          TrimKeepsFailFast(rq.bios, n, err, rq.ff);
        }
      }
    }
  }

  /** A chain without its size hints. */
  function Unhinted(bios: seq<Bio>): seq<Bio> {
    seq(|bios|, i requires 0 <= i < |bios| => bios[i].(front := 0, back := 0, phys := 0, segValid := false))
  }

  lemma {:induction false} TrimIgnoresHints(a: seq<Bio>, b: seq<Bio>, n: nat, err: int)
    requires AllWellFormed(a) && AllWellFormed(b) && Unhinted(a) == Unhinted(b) && StaysWithin(a, n)
    ensures StaysWithin(b, n)
    ensures var t, u := Trim(a, n, err), Trim(b, n, err);
            Unhinted(t.rest) == Unhinted(u.rest) && t.ended == u.ended
    decreases |a|
  {
    hide Bytes, Cut, Trim, Within, Advance, EndStatus;
    assert |Unhinted(a)| == |a| && |Unhinted(b)| == |b|;
    if a == [] {
      TrimNothing(n, err);
    } else {
      assert Unhinted(a)[0] == Unhinted(b)[0];
      assert WellFormed(a[0]) && WellFormed(b[0]);
      assert Unhinted(a[1..]) == Unhinted(a)[1..] && Unhinted(b[1..]) == Unhinted(b)[1..];
      assert a == [a[0]] + a[1..] && b == [b[0]] + b[1..];
      if a[0].size <= n {
        TrimIgnoresHints(a[1..], b[1..], n - a[0].size, err);
        TrimWhole(a, n, err);
        TrimWhole(b, n, err);
        EndIgnoresHints(a[0], b[0], err);
      } else {
        TrimInside(a[0], a[1..], n, err);
        TrimInside(b[0], b[1..], n, err);
        AdvanceIgnoresHints(a[0], b[0], n, err);
        UnhintedFirst(Advance(a[0], n, err), a[1..]);
        UnhintedFirst(Advance(b[0], n, err), b[1..]);
      }
    }
  }

  lemma UnhintedFirst(b: Bio, bios: seq<Bio>)
    ensures Unhinted([b] + bios) == Unhinted([b]) + Unhinted(bios)
  {
  }

  lemma AdvanceIgnoresHints(a: Bio, b: Bio, n: nat, err: int)
    requires n < a.size && n < Bytes(a.live)
    requires a.(front := 0, back := 0, phys := 0, segValid := false) == b.(front := 0, back := 0, phys := 0, segValid := false)
    ensures n < b.size && a.live == b.live
    ensures Unhinted([Advance(a, n, err)]) == Unhinted([Advance(b, n, err)])
  {
  }

  lemma EndIgnoresHints(a: Bio, b: Bio, err: int)
    requires a.(front := 0, back := 0, phys := 0, segValid := false) == b.(front := 0, back := 0, phys := 0, segValid := false)
    ensures EndStatus(a, err) == EndStatus(b, err) && a.id == b.id
  {
  }

  lemma RecalcUnhinted(q: Limits, bios: seq<Bio>)
    ensures Unhinted(Recalc(q, bios).1) == Unhinted(bios)
  {
    hide Greedy, Vecs, Bytes;
  }

  lemma UnhintedLayout(a: seq<Bio>, b: seq<Bio>)
    requires Unhinted(a) == Unhinted(b)
    ensures SameLayout(a, b) && Vecs(a) == Vecs(b) && (forall i :: 0 <= i < |a| ==> a[i].ff == b[i].ff)
  {
    hide Vecs;
    assert |Unhinted(a)| == |a| && |Unhinted(b)| == |b|;
    forall i | 0 <= i < |a| ensures SameBio(a[i], b[i]) && a[i].ff == b[i].ff {
      assert Unhinted(a)[i] == Unhinted(b)[i];
    }
    SameLayoutVecs(a, b);
  }

  lemma RecalcCount(q: Limits, a: seq<Bio>, b: seq<Bio>)
    requires Vecs(a) == Vecs(b)
    ensures Recalc(q, a).0 == Recalc(q, b).0
  {
  }

  /** The chain after two completions, and what was ended, as if done at once. */
  lemma UpdateTwiceChain(q: Limits, rq: Request, x: nat, y: nat, err: int)
    requires AllWellFormed(rq.bios) && x % 512 == 0
    requires StaysWithin(rq.bios, x) && StaysWithin(Update(q, rq, x, err).rq.bios, y)
    requires SectorSized(rq.bios)
    ensures StaysWithin(rq.bios, x + y)
    ensures var u := Update(q, rq, x, err);
            && AllWellFormed(u.rq.bios)
            && var t, w := Trim(u.rq.bios, y, err), Trim(rq.bios, x + y, err);
               Unhinted(t.rest) == Unhinted(w.rest) && u.ended + t.ended == w.ended
  {
    hide Trim, Update, Unhinted, StaysWithin, WellFormed;
    UpdateChain(q, rq, x, err);
    TrimExact(rq.bios, x, err);
    var t, bios := Trim(rq.bios, x, err), Update(q, rq, x, err).rq.bios;
    TrimIgnoresHints(bios, t.rest, y, err);
    TrimTwice(rq.bios, x, y, err);
  }

  /** The chain a completion leaves is what was not completed, but for the hints. */
  lemma UpdateChain(q: Limits, rq: Request, n: nat, err: int)
    requires AllWellFormed(rq.bios) && StaysWithin(rq.bios, n)
    ensures var t, u := Trim(rq.bios, n, err), Update(q, rq, n, err);
            && Unhinted(u.rq.bios) == Unhinted(t.rest) && u.ended == t.ended && AllWellFormed(u.rq.bios)
            && u.rq.mixed == rq.mixed
  {
    hide Trim, Recalc, Unhinted, StaysWithin, WellFormed;
    if rq.bios == [] {
      TrimNothing(n, err);
    } else {
      TrimExact(rq.bios, n, err);
      var t := Trim(rq.bios, n, err);
      if t.rest != [] {
        RecalcUnhinted(q, t.rest);
        RecalcOk(q, t.rest);
      }
    }
  }

  lemma InvWellFormed(q: Limits, rq: Request)
    requires Inv(q, rq)
    ensures AllWellFormed(rq.bios)
  {
  }

  /** Completing `x` bytes (whole sectors) and then `y` leaves the same bytes and ended bios as
      completing `x + y`, and while data remains also the same sector, segment count and
      failfast bits.  The length is then the same exactly if the first step was not botched, or
      what it was raised to, less `y`, is no more than the first bvec left in the end. */
  lemma UpdateTwice(q: Limits, rq: Request, x: nat, y: nat, err: int)
    requires Inv(q, rq) && x % 512 == 0
    requires AllWellFormed(rq.bios) && StaysWithin(rq.bios, x) && StaysWithin(Update(q, rq, x, err).rq.bios, y)
    requires SectorSized(rq.bios)
    ensures StaysWithin(rq.bios, x + y)
    ensures var u := Update(q, rq, x, err);
            && AllWellFormed(u.rq.bios)
            && var v, w := Update(q, u.rq, y, err), Update(q, rq, x + y, err);
               && v.more == w.more && u.ended + v.ended == w.ended
               && Unhinted(v.rq.bios) == Unhinted(w.rq.bios)
               && (w.more ==> v.rq.sector == w.rq.sector && v.rq.nrSegs == w.rq.nrSegs && v.rq.ff == w.rq.ff)
               && (v.rq.dataLen == w.rq.dataLen <==> !w.more || SameLength(rq, x, y))
  {
    hide Inv, Update, Trim, Unhinted, StaysWithin, SameLength, AllWellFormed, Shaped;
    UpdateTwiceChain(q, rq, x, y, err);
    var u := Update(q, rq, x, err);
    var t, t1, t2 := Trim(rq.bios, x, err), Trim(u.rq.bios, y, err), Trim(rq.bios, x + y, err);
    UpdateShape(q, rq, x, err);
    UpdateShape(q, u.rq, y, err);
    UpdateShape(q, rq, x + y, err);
    ShapesTwice(q, rq, x, y, t, u, t1, Update(q, u.rq, y, err), t2, Update(q, rq, x + y, err));
    ShapesLength(q, rq, x, y, t, u, t1, Update(q, u.rq, y, err), t2, Update(q, rq, x + y, err));
    LengthInTurn(rq, x, y, err);
  }

  /** What a completion of `n` bytes leaves, in terms of the chain left. */
  ghost predicate Shaped(q: Limits, rq: Request, n: nat, t: Trimmed, u: Updated) {
    && u.ended == t.ended && (u.more <==> t.rest != []) && (rq.bios == [] ==> t.rest == [])
    && (!u.more ==> u.rq.bios == [] && u.rq.dataLen == if rq.bios == [] then rq.dataLen else 0)
    && (u.more ==>
          && u.rq.bios == Recalc(q, t.rest).1 && u.rq.nrSegs == Recalc(q, t.rest).0
          && u.rq.sector == rq.sector + n / 512 && u.rq.mixed == rq.mixed
          && u.rq.ff == (if rq.mixed then t.rest[0].ff else rq.ff)
          && t.rest[0].live != [] && u.rq.dataLen == LengthLeft(rq.dataLen - n, t.rest[0].live[0].len))
  }

  lemma UpdateShape(q: Limits, rq: Request, n: nat, err: int)
    requires AllWellFormed(rq.bios) && StaysWithin(rq.bios, n)
    ensures Shaped(q, rq, n, Trim(rq.bios, n, err), Update(q, rq, n, err))
  {
    hide Trim, Recalc, StaysWithin, LengthLeft;
    TrimNothing(n, err);
    TrimExact(rq.bios, n, err);
    assert Trim(rq.bios, n, err).rest != [] ==> WellFormed(Trim(rq.bios, n, err).rest[0]);
  }

  lemma ShapesTwice(q: Limits, rq: Request, x: nat, y: nat, t: Trimmed, u: Updated, t1: Trimmed, v: Updated,
                    t2: Trimmed, w: Updated)
    requires Shaped(q, rq, x, t, u) && Shaped(q, u.rq, y, t1, v) && Shaped(q, rq, x + y, t2, w) && x % 512 == 0
    requires Unhinted(t1.rest) == Unhinted(t2.rest) && u.ended + t1.ended == t2.ended
    ensures v.more == w.more && u.ended + v.ended == w.ended && Unhinted(v.rq.bios) == Unhinted(w.rq.bios)
    ensures w.more ==> v.rq.sector == w.rq.sector && v.rq.nrSegs == w.rq.nrSegs && v.rq.ff == w.rq.ff
  {
    hide Recalc, Unhinted, LengthLeft;
    UnhintedLayout(t1.rest, t2.rest);
    if w.more {
      RecalcCount(q, t1.rest, t2.rest);
      RecalcUnhinted(q, t1.rest);
      RecalcUnhinted(q, t2.rest);
      SectorsInTurn(rq.sector, x, y);
    }
  }

  lemma SectorsInTurn(sector: nat, x: nat, y: nat)
    requires x % 512 == 0
    ensures sector + x / 512 + y / 512 == sector + (x + y) / 512
  {
  }

  lemma ShapesLength(q: Limits, rq: Request, x: nat, y: nat, t: Trimmed, u: Updated, t1: Trimmed, v: Updated,
                     t2: Trimmed, w: Updated)
    requires Shaped(q, rq, x, t, u) && Shaped(q, u.rq, y, t1, v) && Shaped(q, rq, x + y, t2, w)
    requires Unhinted(t1.rest) == Unhinted(t2.rest)
    ensures w.more ==>
              && t.rest != [] && t2.rest != [] && t.rest[0].live != [] && t2.rest[0].live != []
              && var f, g := t.rest[0].live[0].len, t2.rest[0].live[0].len;
                 (v.rq.dataLen == w.rq.dataLen <==> f <= rq.dataLen - x || f - y <= g)
    ensures !w.more ==> v.rq.dataLen == w.rq.dataLen
  {
    hide Recalc, Unhinted, LengthLeft;
    UnhintedLayout(t1.rest, t2.rest);
    if w.more {
      assert SameBio(t1.rest[0], t2.rest[0]);
      LengthTwice(rq.dataLen, x, y, t.rest[0].live[0].len, t2.rest[0].live[0].len);
    }
  }

  /** The condition on the lengths, in terms of the chains left. */
  lemma LengthInTurn(rq: Request, x: nat, y: nat, err: int)
    requires AllWellFormed(rq.bios) && StaysWithin(rq.bios, x) && StaysWithin(rq.bios, x + y)
    ensures var t, t2 := Trim(rq.bios, x, err), Trim(rq.bios, x + y, err);
            t.rest != [] && t2.rest != [] && t.rest[0].live != [] && t2.rest[0].live != [] ==>
              (SameLength(rq, x, y) <==>
                 var f, g := t.rest[0].live[0].len, t2.rest[0].live[0].len; f <= rq.dataLen - x || f - y <= g)
  {
    hide Trim, StaysWithin, FirstLeft, AllWellFormed, WellFormed;
    TrimFirst(rq.bios, x, err);
    TrimFirst(rq.bios, x + y, err);
  }

  ghost predicate SameLength(rq: Request, x: nat, y: nat)
    requires AllWellFormed(rq.bios) && StaysWithin(rq.bios, x) && StaysWithin(rq.bios, x + y)
  {
    FirstLeft(rq.bios, x) <= rq.dataLen - x || FirstLeft(rq.bios, x) - y <= FirstLeft(rq.bios, x + y)
  }

  lemma LengthTwice(len: int, x: nat, y: nat, f: nat, g: nat)
    ensures LengthLeft(LengthLeft(len - x, f) - y, g) == LengthLeft(len - (x + y), g) <==> f <= len - x || f - y <= g
  {
  }

  /** With bvecs within the sizes, two steps that stop in payloads both stay within, and the
      length composes as well. */
  lemma UpdateTwiceRoomy(q: Limits, rq: Request, x: nat, y: nat, err: int)
    requires Inv(q, rq) && Measured(rq) && AllRoomy(rq.bios) && InPayload(rq.bios, x) && InPayload(rq.bios, x + y)
    ensures AllWellFormed(rq.bios) && StaysWithin(rq.bios, x) && StaysWithin(rq.bios, x + y)
    ensures StaysWithin(Update(q, rq, x, err).rq.bios, y)
    ensures x < Sizes(rq.bios) ==> SameLength(rq, x, y)
  {
    hide Inv, Trim, Update, Unhinted, StaysWithin, InPayload, AllRoomy, FirstLeft;
    InvWellFormed(q, rq);
    StaysWithinRoomy(rq.bios, x);
    StaysWithinRoomy(rq.bios, x + y);
    RoomyHeadFits(rq.bios, x);
    PayloadTwice(rq.bios, x, y, err);
    TrimExact(rq.bios, x, err);
    TrimRoomy(rq.bios, x, err);
    UpdateChain(q, rq, x, err);
    var t := Trim(rq.bios, x, err);
    StaysWithinRoomy(t.rest, y);
    TrimIgnoresHints(t.rest, Update(q, rq, x, err).rq.bios, y, err);
  }

  lemma {:induction false} PayloadTwice(bios: seq<Bio>, x: nat, y: nat, err: int)
    requires AllWellFormed(bios) && StaysWithin(bios, x) && InPayload(bios, x + y)
    ensures InPayload(Trim(bios, x, err).rest, y)
    decreases |bios|
  {
    hide Trim, Bytes, Within, Advance;
    if bios == [] {
      TrimNothing(x, err);
    } else {
      var b, rest := bios[0], bios[1..];
      assert bios == [b] + rest && WellFormed(b);
      if b.size <= x {
        TrimWhole(bios, x, err);
        PayloadTwice(rest, x - b.size, y, err);
      } else {
        TrimInside(b, rest, x, err);
        AdvanceOk(b, x, err);
        assert ([Advance(b, x, err)] + rest)[1..] == rest;
      }
    }
  }

  lemma NoSizes(bios: seq<Bio>)
    requires AllWellFormed(bios)
    ensures bios == [] <==> Sizes(bios) == 0
  {
    if bios != [] {
      assert WellFormed(bios[0]);
    }
  }

  // ----- failing up to a failfast boundary

  /** Number of leading bios that have all the bits of `ff`. */
  function EagerPrefix(bios: seq<Bio>, ff: FailFast): (k: nat)
    ensures k <= |bios|
    ensures forall i :: 0 <= i < k ==> bios[i].ff.Covers(ff)
    ensures k < |bios| ==> !bios[k].ff.Covers(ff)
  {
    if bios == [] || !bios[0].ff.Covers(ff) then 0 else 1 + EagerPrefix(bios[1..], ff)
  }

  /** `blk_rq_err_bytes`. */
  function ErrBytes(rq: Request): int {
    if rq.mixed then Sizes(rq.bios[..EagerPrefix(rq.bios, rq.ff)]) else rq.dataLen
  }

  /** The loop of `blk_rq_err_bytes`; the BUG_ON after it cannot fire. */
  method RqErrBytes(q: Limits, rq: Request) returns (bytes: int)
    requires Inv(q, rq) && Measured(rq)
    ensures bytes == ErrBytes(rq)
    ensures rq.dataLen != 0 ==> bytes > 0
  {
    hide Inv;
    ErrBytesPositive(q, rq);
    if !rq.mixed {
      return rq.dataLen;
    }
    bytes := 0;
    var i := 0;
    SizesNone();
    while i < |rq.bios| && rq.bios[i].ff.Covers(rq.ff)
      invariant 0 <= i <= EagerPrefix(rq.bios, rq.ff)
      invariant bytes == Sizes(rq.bios[..i])
    {
      SizesLast(rq.bios, i);
      bytes := bytes + rq.bios[i].size;
      i := i + 1;
    }
  }

  lemma SizesLast(bios: seq<Bio>, i: nat)
    requires i < |bios|
    ensures Sizes(bios[..i+1]) == Sizes(bios[..i]) + bios[i].size
  {
    assert bios[..i+1] == bios[..i] + [bios[i]];
    SizesConcat(bios[..i], [bios[i]]);
    assert [bios[i]][1..] == [];
  }

  /** How many bios fail together. */
  function FailCount(rq: Request): (k: nat)
    ensures k <= |rq.bios|
  {
    if rq.mixed then EagerPrefix(rq.bios, rq.ff) else |rq.bios|
  }

  lemma ErrBytesPositive(q: Limits, rq: Request)
    requires Inv(q, rq) && (rq.mixed || Measured(rq))
    ensures ErrBytes(rq) == Sizes(rq.bios[..FailCount(rq)])
    ensures rq.bios != [] ==> FailCount(rq) > 0 && ErrBytes(rq) > 0
    ensures Measured(rq) && rq.dataLen != 0 ==> ErrBytes(rq) > 0
  {
    hide Accounted;
    assert rq.bios[..|rq.bios|] == rq.bios;
    if rq.bios != [] {
      assert WellFormed(rq.bios[0]);
      assert rq.mixed ==> rq.bios[0].ff.Covers(rq.ff);
      assert FailCount(rq) > 0;
      assert rq.bios[..FailCount(rq)][0] == rq.bios[0];
    }
  }

  /** Completing exactly the first `k` bios ends those and leaves the others untouched. */
  lemma {:induction false} TrimPrefix(bios: seq<Bio>, k: nat, err: int)
    requires AllWellFormed(bios) && k <= |bios|
    ensures StaysWithin(bios, Sizes(bios[..k]))
    ensures var t := Trim(bios, Sizes(bios[..k]), err);
            t.rest == bios[k..] && EndedIds(t.ended) == Ids(bios)[..k]
    decreases k
  {
    hide WellFormed, EndStatus, StaysWithin, Trim, EndedIds, Ids;
    WholeBiosStayWithin(bios, k);
    SizesNone();
    if k == 0 {
      assert bios[..0] == [];
      TrimZero(bios, err);
      NoEnds(bios);
    } else {
      WholeBiosStayWithin(bios[1..], k - 1);
      var n := Sizes(bios[..k]);
      assert bios[..k][1..] == bios[1..][..k-1];
      TrimPrefix(bios[1..], k - 1, err);
      TrimWhole(bios, n, err);
      var u := Trim(bios[1..], n - bios[0].size, err);
      PrefixIds(bios, k, EndStatus(bios[0], err), u.ended);
    }
  }

  lemma PrefixIds(bios: seq<Bio>, k: nat, status: int, ended: seq<(nat, int)>)
    requires 0 < k <= |bios| && EndedIds(ended) == Ids(bios[1..])[..k-1]
    ensures EndedIds([(bios[0].id, status)] + ended) == Ids(bios)[..k]
  {
    assert EndedIds([(bios[0].id, status)] + ended) == [bios[0].id] + EndedIds(ended);
    assert Ids(bios)[..k] == [bios[0].id] + Ids(bios[1..])[..k-1];
  }

  lemma NoEnds(bios: seq<Bio>)
    ensures EndedIds([]) == Ids(bios)[..0]
  {
  }

  lemma TrimZero(bios: seq<Bio>, err: int)
    requires AllWellFormed(bios)
    ensures Trim(bios, 0, err) == Trimmed(bios, [])
  {
    if bios != [] {
      assert WellFormed(bios[0]);
      assert [bios[0]] + bios[1..] == bios;
    }
  }

  /** Failing a request up to its boundary ends at least one bio and only bios at least as
      eager to fail as the request, and leaves the bios behind the boundary as they were. */
  lemma FailToBoundary(q: Limits, rq: Request, err: int)
    requires Inv(q, rq) && rq.bios != [] && (rq.mixed || Measured(rq))
    ensures var k := FailCount(rq);
            && 0 < k && 0 < ErrBytes(rq) <= Sizes(rq.bios)
            && (forall i :: 0 <= i < k && rq.mixed ==> rq.bios[i].ff.Covers(rq.ff))
            && (k < |rq.bios| ==> !rq.bios[k].ff.Covers(rq.ff))
            && StaysWithin(rq.bios, ErrBytes(rq))
            && var u := Update(q, rq, ErrBytes(rq), err);
               && Inv(q, u.rq) && |u.rq.bios| == |rq.bios| - k && u.rq.mixed == rq.mixed
               && Unhinted(u.rq.bios) == Unhinted(rq.bios)[k..]
               && EndedIds(u.ended) == Ids(rq.bios)[..k]
  {
    hide Inv, Trim, Update, AllWellFormed, EagerPrefix, StaysWithin, HeadFits, FirstLeft, EndedIds, Ids;
    var k := FailCount(rq);
    InvWellFormed(q, rq);
    ErrBytesPositive(q, rq);
    TrimPrefix(rq.bios, k, err);
    SizesConcat(rq.bios[..k], rq.bios[k..]);
    assert rq.bios[..k] + rq.bios[k..] == rq.bios;
    UpdateOk(q, rq, ErrBytes(rq), err);
    UpdateChain(q, rq, ErrBytes(rq), err);
    UnhintedTail(rq.bios, k, Update(q, rq, ErrBytes(rq), err).rq.bios);
  }

  lemma UnhintedTail(bios: seq<Bio>, k: nat, left: seq<Bio>)
    requires k <= |bios| && Unhinted(left) == Unhinted(bios[k..])
    ensures |Unhinted(bios)| == |bios| && Unhinted(left) == Unhinted(bios)[k..] && |left| == |bios| - k
  {
    assert |Unhinted(left)| == |left|;
    assert Unhinted(bios[k..]) == Unhinted(bios)[k..];
  }

  /** Failing repeatedly until nothing is left: how often it was called, and what it ended. */
  ghost function FailAll(q: Limits, rq: Request, err: int): (r: (nat, seq<(nat, int)>))
    requires Inv(q, rq) && (rq.mixed || Measured(rq))
    ensures r.0 <= |rq.bios|
    ensures EndedIds(r.1) == Ids(rq.bios)
    decreases |rq.bios|
  {
    if rq.bios == [] then (0, [])
    else
      FailToBoundary(q, rq, err);
      InvWellFormed(q, rq);
      var u := Update(q, rq, ErrBytes(rq), err);
      UpdateOk(q, rq, ErrBytes(rq), err);
      assert !rq.mixed ==> u.rq.bios == [];
      var r := FailAll(q, u.rq, err);
      FailAllIds(rq, u, r.1);
      (1 + r.0, u.ended + r.1)
  }

  lemma FailAllIds(rq: Request, u: Updated, ended: seq<(nat, int)>)
    requires var k := FailCount(rq);
             && Unhinted(u.rq.bios) == Unhinted(rq.bios)[k..]
             && EndedIds(u.ended) == Ids(rq.bios)[..k] && EndedIds(ended) == Ids(u.rq.bios)
    ensures EndedIds(u.ended + ended) == Ids(rq.bios)
  {
    hide EagerPrefix;
    var k := FailCount(rq);
    assert |Unhinted(rq.bios)| == |rq.bios| && |Unhinted(u.rq.bios)| == |u.rq.bios|;
    assert |u.rq.bios| == |rq.bios| - k;
    forall i | 0 <= i < |u.rq.bios| ensures u.rq.bios[i].id == rq.bios[k + i].id {
      assert Unhinted(u.rq.bios)[i] == Unhinted(rq.bios)[k + i];
    }
    assert Ids(u.rq.bios) == Ids(rq.bios)[k..];
    assert EndedIds(u.ended + ended) == EndedIds(u.ended) + EndedIds(ended);
  }

  // ----- the completion loop

  /** Cutting at byte `r` of bvec `k`. */
  lemma {:induction false} CutAt(vs: seq<Bvec>, k: nat, r: nat)
    requires k < |vs| && r < vs[k].len
    ensures Bytes(vs[..k]) + r < Bytes(vs)
    ensures Cut(vs, Bytes(vs[..k]) + r) == [Bvec(vs[k].addr + r, vs[k].len - r)] + vs[k+1..]
    decreases k
  {
    hide Bytes;
    BytesFirst(vs);
    if k == 0 {
      assert vs[..0] == [];
      BytesNone();
    } else {
      BytesFirst(vs[..k]);
      assert vs[..k][1..] == vs[1..][..k-1];
      CutAt(vs[1..], k - 1, r);
    }
  }

  /** The loop completes `n` bytes without running out of bvecs and without finding one that
      is longer than its bio; it looks at the first bvec even to complete nothing. */
  ghost predicate Completes(bios: seq<Bio>, n: nat)
    requires AllWellFormed(bios)
  {
    assert bios != [] ==> WellFormed(bios[0]);
    StaysWithin(bios, n) && (n == 0 && bios != [] ==> bios[0].live[0].len <= bios[0].size)
  }

  /** What the loop variables mean: `chain` is still to be looked at, `nextIdx` bvecs of its
      first bio, `bioBytes` in all, are done, and `nr` bytes are still to be completed. */
  ghost predicate Completing(bios: seq<Bio>, n: nat, err: int, chain: seq<Bio>, ended: seq<(nat, int)>,
                             nr: nat, bioBytes: nat, nextIdx: nat)
  {
    && AllWellFormed(bios) && AllWellFormed(chain)
    && (StaysWithin(bios, n) <==> StaysWithin(chain, nr + bioBytes))
    && (StaysWithin(bios, n) ==>
          Trim(bios, n, err) ==
          Trimmed(Trim(chain, nr + bioBytes, err).rest, ended + Trim(chain, nr + bioBytes, err).ended))
    && (chain == [] ==> nextIdx == 0)
    && (chain != [] ==> Inside(chain[0], nr, bioBytes, nextIdx))
  }

  /** Where in the bvecs of a bio the loop is. */
  ghost predicate Inside(b: Bio, nr: nat, bioBytes: nat, nextIdx: nat) {
    && nextIdx <= |b.live| && bioBytes == Bytes(b.live[..nextIdx])
    && (nextIdx > 0 ==> nr + bioBytes < b.size)
    && (nr > 0 ==> (Within(b.live, nr + bioBytes, b.size) <==> Within(b.live[nextIdx..], nr, b.size)))
  }

  lemma InsideStart(b: Bio, nr: nat)
    ensures Inside(b, nr, 0, 0)
  {
    assert b.live[..0] == [] && b.live[0..] == b.live;
    BytesNone();
  }

  lemma CompletingStart(bios: seq<Bio>, n: nat, err: int)
    requires AllWellFormed(bios)
    ensures Completing(bios, n, err, bios, [], n, 0, 0)
  {
    hide Trim, StaysWithin, Inside;
    if StaysWithin(bios, n) {
      assert [] + Trim(bios, n, err).ended == Trim(bios, n, err).ended;
    }
    if bios != [] {
      InsideStart(bios[0], n);
    }
  }

  lemma CompletingWholeBio(bios: seq<Bio>, n: nat, err: int, chain: seq<Bio>, ended: seq<(nat, int)>,
                           nr: nat, bioBytes: nat, nextIdx: nat)
    requires Completing(bios, n, err, chain, ended, nr, bioBytes, nextIdx) && chain != [] && chain[0].size <= nr
    ensures Completing(bios, n, err, chain[1..], ended + [(chain[0].id, EndStatus(chain[0], err))],
                       nr - chain[0].size, 0, 0)
  {
    hide Trim, EndStatus, Within;
    BytesNone();
    assert chain[0].live[..0] == [] && WellFormed(chain[0]);
    var e := [(chain[0].id, EndStatus(chain[0], err))];
    if StaysWithin(chain, nr) {
      TrimWhole(chain, nr, err);
      var t := Trim(chain[1..], nr - chain[0].size, err);
      assert ended + (e + t.ended) == (ended + e) + t.ended;
    }
    if |chain| > 1 {
      InsideStart(chain[1..][0], nr - chain[0].size);
    }
  }

  lemma InsideBvec(b: Bio, nr: nat, bioBytes: nat, nextIdx: nat)
    requires Inside(b, nr, bioBytes, nextIdx) && nr < b.size
    ensures nr + bioBytes < b.size
    ensures nextIdx < |b.live| && b.live[nextIdx].len <= nr ==>
              Inside(b, nr - b.live[nextIdx].len, bioBytes + b.live[nextIdx].len, nextIdx + 1)
  {
    hide Bytes;
    var live := b.live;
    BytesNone();
    assert live[..0] == [];
    if nextIdx < |live| {
      assert live[..nextIdx+1] == live[..nextIdx] + [live[nextIdx]];
      BytesConcat(live[..nextIdx], [live[nextIdx]]);
      BytesOne(live[nextIdx]);
      assert live[nextIdx..][1..] == live[nextIdx+1..];
    }
  }

  lemma CompletingBvec(bios: seq<Bio>, n: nat, err: int, chain: seq<Bio>, ended: seq<(nat, int)>,
                       nr: nat, bioBytes: nat, nextIdx: nat)
    requires Completing(bios, n, err, chain, ended, nr, bioBytes, nextIdx) && chain != [] && nr < chain[0].size
    ensures nr + bioBytes < chain[0].size
    ensures nextIdx < |chain[0].live| && chain[0].live[nextIdx].len <= nr ==>
              Completing(bios, n, err, chain, ended, nr - chain[0].live[nextIdx].len,
                         bioBytes + chain[0].live[nextIdx].len, nextIdx + 1)
  {
    hide Trim, Inside, StaysWithin;
    InsideBvec(chain[0], nr, bioBytes, nextIdx);
  }

  /** Whether the loop goes wrong at this bvec, or may stop in front of it. */
  lemma CompletingLooks(bios: seq<Bio>, n: nat, err: int, chain: seq<Bio>, ended: seq<(nat, int)>,
                        nr: nat, bioBytes: nat, nextIdx: nat)
    requires Completing(bios, n, err, chain, ended, nr, bioBytes, nextIdx) && chain != [] && nr < chain[0].size
    requires 0 < nr <= n || (n == 0 && chain == bios && nextIdx == 0)
    ensures var live := chain[0].live;
            && (nextIdx == |live| ==> !Completes(bios, n))
            && (nextIdx < |live| && live[nextIdx].len > chain[0].size ==> !Completes(bios, n))
            && (nextIdx < |live| && nr < live[nextIdx].len <= chain[0].size ==> Completes(bios, n))
            && (nextIdx < |live| && nr == live[nextIdx].len ==> (Completes(bios, n) <==> nextIdx + 1 < |live|))
  {
    hide Trim, Bytes;
    InsideBvec(chain[0], nr, bioBytes, nextIdx);
    assert WellFormed(chain[0]);
    if nr > 0 {
      var live := chain[0].live;
      assert StaysWithin(chain, nr + bioBytes) <==> Within(live[nextIdx..], nr, chain[0].size);
      assert nextIdx < |live| ==> live[nextIdx..][0] == live[nextIdx];
    }
  }

  lemma CompletingBetween(bios: seq<Bio>, n: nat, err: int, chain: seq<Bio>, ended: seq<(nat, int)>)
    requires Completing(bios, n, err, chain, ended, 0, 0, 0) && n > 0
    ensures Completes(bios, n)
  {
    hide Trim, Inside;
  }

  /** The loop of `blk_update_request` over bios and bvecs: `ok` says that it neither runs out
      of bvecs nor finds one longer than its bio. */
  method CompleteLoop(bios: seq<Bio>, n: nat, err: int)
    returns (ok: bool, chain: seq<Bio>, ended: seq<(nat, int)>, total: nat, nr: nat, bioBytes: nat, nextIdx: nat)
    requires AllWellFormed(bios)
    ensures ok <==> Completes(bios, n)
    ensures ok ==> ended == Trim(bios, n, err).ended
    ensures ok ==> (chain == [] <==> Trim(bios, n, err).rest == [])
    ensures ok && chain != [] ==>
              && AllWellFormed(chain) && total == n && bioBytes < chain[0].size && bioBytes < Bytes(chain[0].live)
              && Trim(bios, n, err).rest == [Advance(chain[0], bioBytes, err)] + chain[1..]
              && nextIdx < |chain[0].live| && nr < chain[0].live[nextIdx].len
              && bioBytes == Bytes(chain[0].live[..nextIdx]) + nr
  {
    hide Trim, Completing, Advance, EndStatus, Cut, StaysWithin, Bytes;
    ok, chain, ended, total, nr, bioBytes, nextIdx := true, bios, [], 0, n, 0, 0;
    CompletingStart(bios, n, err);
    while chain != []
      invariant Completing(bios, n, err, chain, ended, nr, bioBytes, nextIdx)
      invariant total + nr == n && ok
      invariant chain != [] ==> nr > 0 || (n == 0 && chain == bios && nextIdx == 0 && bioBytes == 0)
      invariant chain == [] ==> n > 0 || bios == []
      decreases |chain|, if chain == [] then 0 else |chain[0].live| - nextIdx
    {
      var bio := chain[0];
      var nbytes: nat;
      CompletingAt(bios, n, err, chain, ended, nr, bioBytes, nextIdx);
      if bio.size <= nr {
        CompletingWholeBio(bios, n, err, chain, ended, nr, bioBytes, nextIdx);
        chain := chain[1..];
        nbytes := bio.size;
        ended := ended + [(bio.id, EndStatus(bio, err))];
        nextIdx, bioBytes := 0, 0;
      } else {
        CompletingLooks(bios, n, err, chain, ended, nr, bioBytes, nextIdx);
        if nextIdx >= |bio.live| || bio.live[nextIdx].len > bio.size {
          ok := false;
          return;
        }
        CompletingBvec(bios, n, err, chain, ended, nr, bioBytes, nextIdx);
        nbytes := bio.live[nextIdx].len;
        if nbytes > nr {
          CompletingStop(bios, n, err, chain, ended, nr, bioBytes, nextIdx);
          bioBytes := bioBytes + nr;
          total := total + nr;
          return;
        }
        nextIdx := nextIdx + 1;
        bioBytes := bioBytes + nbytes;
      }
      total := total + nbytes;
      nr := nr - nbytes;
      if chain != [] && nr == 0 {
        if nextIdx == 0 {
          CompletingBetween(bios, n, err, chain, ended);
        }
        CompletingAt(bios, n, err, chain, ended, nr, bioBytes, nextIdx);
        if nextIdx >= |chain[0].live| {
          ok := false;
          return;
        }
        CompletingStop(bios, n, err, chain, ended, nr, bioBytes, nextIdx);
        return;
      }
    }
    CompletingDone(bios, n, err, ended, nr, bioBytes, nextIdx);
  }

  lemma CompletingAt(bios: seq<Bio>, n: nat, err: int, chain: seq<Bio>, ended: seq<(nat, int)>,
                     nr: nat, bioBytes: nat, nextIdx: nat)
    requires Completing(bios, n, err, chain, ended, nr, bioBytes, nextIdx) && chain != []
    ensures AllWellFormed(chain) && WellFormed(chain[0]) && nextIdx <= |chain[0].live|
    ensures nextIdx > 0 || nr + bioBytes == 0 ==> nr + bioBytes < chain[0].size
  {
    hide Trim, StaysWithin;
  }

  lemma CompletingStop(bios: seq<Bio>, n: nat, err: int, chain: seq<Bio>, ended: seq<(nat, int)>,
                       nr: nat, bioBytes: nat, nextIdx: nat)
    requires Completing(bios, n, err, chain, ended, nr, bioBytes, nextIdx) && chain != []
    requires nr + bioBytes < chain[0].size && StaysWithin(bios, n)
    ensures AllWellFormed(bios) && AllWellFormed(chain) && nextIdx <= |chain[0].live|
    ensures bioBytes == Bytes(chain[0].live[..nextIdx]) && nr + bioBytes < Bytes(chain[0].live)
    ensures Trim(bios, n, err) == Trimmed([Advance(chain[0], bioBytes + nr, err)] + chain[1..], ended)
  {
    hide Advance, Cut, EndStatus, Trim, Within, StaysWithin, Bytes;
    var b, rest := chain[0], chain[1..];
    assert WellFormed(b) && chain == [b] + rest;
    TrimInside(b, rest, bioBytes + nr, err);
    assert ended + [] == ended;
  }

  lemma CompletingDone(bios: seq<Bio>, n: nat, err: int, ended: seq<(nat, int)>,
                       nr: nat, bioBytes: nat, nextIdx: nat)
    requires Completing(bios, n, err, [], ended, nr, bioBytes, nextIdx) && (n > 0 || bios == [])
    ensures AllWellFormed(bios) && Completes(bios, n) && Trim(bios, n, err) == Trimmed([], ended)
  {
    hide Trim;
    TrimNothing(nr + bioBytes, err);
    assert ended + [] == ended;
  }
}
