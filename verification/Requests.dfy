/** A file-system request as a chain of bios: creation, back and front merges, request to
    request merges and partial completion, with the bookkeeping each of them updates
    (segment count and size hints, failfast bits, sector, length).
 */
module Requests {
  import opened Segments

  /** The bits REQ_FAILFAST_DEV, REQ_FAILFAST_TRANSPORT and REQ_FAILFAST_DRIVER. */
  datatype FailFast = FailFast(dev: bool, transport: bool, driver: bool) {
    function Or(f: FailFast): FailFast {
      FailFast(dev || f.dev, transport || f.transport, driver || f.driver)
    }

    /** All bits of `f` are set here. */
    predicate Covers(f: FailFast) {
      (f.dev ==> dev) && (f.transport ==> transport) && (f.driver ==> driver)
    }
  }

  const FAILFAST_MASK := FailFast(true, true, true)

  const EIO: int := 5

  /** `live` is what is left to transfer, the bvecs from bi_idx on; `front`, `back`, `phys` and
      `segValid` are bi_seg_front_size, bi_seg_back_size, bi_phys_segments and BIO_SEG_VALID. */
  datatype Bio = Bio(
    id: nat,
    sector: nat,
    size: nat,
    live: seq<Bvec>,
    ff: FailFast,
    ahead: bool,
    uptodate: bool,
    front: nat,
    back: nat,
    phys: nat,
    segValid: bool)

  /** A bio that carries data.  Its size need not agree with its bvecs: a discard carries one
      payload bvec, and its size is the length of the area to discard. */
  ghost predicate WellFormed(b: Bio) {
    b.live != [] && b.size > 0
  }

  /** A bio for reading or writing: its size is that of its bvecs. */
  ghost predicate Agrees(b: Bio) {
    b.size == Bytes(b.live)
  }

  /** A bio whose bvecs are within its size: all but a discard of less than a logical block. */
  ghost predicate Roomy(b: Bio) {
    Bytes(b.live) <= b.size
  }

  /** A bio as it may be submitted: if its segment count is flagged valid, it is. */
  ghost predicate Submittable(q: Limits, b: Bio) {
    && WellFormed(b)
    && (b.segValid ==> Accounted(q, b.live, b.phys, b.front, b.back))
  }

  datatype Request = Request(
    bios: seq<Bio>,
    sector: nat,
    dataLen: int,
    nrSegs: int,
    ff: FailFast,
    mixed: bool,
    noMerge: bool)

  function Vecs(bios: seq<Bio>): seq<Bvec> {
    if bios == [] then [] else Vecs(bios[..|bios|-1]) + bios[|bios|-1].live
  }

  function Sizes(bios: seq<Bio>): nat {
    if bios == [] then 0 else bios[0].size + Sizes(bios[1..])
  }

  lemma {:induction false} VecsConcat(a: seq<Bio>, b: seq<Bio>)
    ensures Vecs(a + b) == Vecs(a) + Vecs(b)
    decreases |b|
  {
    if b == [] {
      assert a + b == a;
    } else {
      var b', l := b[..|b|-1], b[|b|-1];
      assert (a + b)[..|a + b|-1] == a + b' && (a + b)[|a + b|-1] == l;
      VecsConcat(a, b');
      assert (Vecs(a) + Vecs(b')) + l.live == Vecs(a) + (Vecs(b') + l.live);
    }
  }

  lemma VecsOne(b: Bio)
    ensures Vecs([b]) == b.live
  {
    assert [b][..0] == [];
  }

  lemma {:induction false} SizesConcat(a: seq<Bio>, b: seq<Bio>)
    ensures Sizes(a + b) == Sizes(a) + Sizes(b)
  {
    if a == [] {
      assert a + b == b;
    } else {
      assert (a + b)[1..] == a[1..] + b;
      SizesConcat(a[1..], b);
    }
  }

  // ----- segment counting

  /** `__blk_recalc_rq_segments` as a function: the count, and the chain with its size
      hints raised where the count found larger segments. */
  function Recalc(q: Limits, bios: seq<Bio>): (r: (nat, seq<Bio>))
    ensures |r.1| == |bios|
  {
    var g := Greedy(q, true, Vecs(bios));
    if g == [] || bios == [] then (|g|, bios)
    else
      var m := |bios| - 1;
      var bios1 := bios[0 := bios[0].(front := Max(bios[0].front, Bytes(g[0])))];
      (|g|, bios1[m := bios1[m].(back := Max(bios1[m].back, Bytes(g[|g|-1])))])
  }

  /** `__blk_recalc_rq_segments`. */
  method RecalcSegments(q: Limits, bios: seq<Bio>) returns (n: nat, bios': seq<Bio>)
    ensures (n, bios') == Recalc(q, bios)
  {
    hide Greedy, Vecs, Bytes;
    if bios == [] {
      VecsNone();
      CountingStart(q, Bvec(0, 1), 0);
      CountingEnd(q, [], 0, 0, true, Bvec(0, 1), 0, 0);
      return 0, bios;
    }
    var segSize, front;
    n, segSize, front := CountSegments(q, bios);
    bios' := bios[0 := bios[0].(front := front)];
    var m := |bios| - 1;
    assert bios'[m := bios'[m]] == bios';
    if segSize > bios'[m].back {
      bios' := bios'[m := bios'[m].(back := segSize)];
    }
    assert n == 0 ==> bios' == bios;
  }

  lemma VecsNone()
    ensures Vecs([]) == []
  {
  }

  /** Its counting loop, over bios and their bvecs. */
  method CountSegments(q: Limits, bios: seq<Bio>) returns (n: nat, segSize: nat, front: nat)
    requires bios != []
    ensures var g := Greedy(q, true, Vecs(bios));
            && n == |g|
            && (n == 0 ==> segSize == 0 && front == bios[0].front)
            && (n > 0 ==> segSize == Bytes(g[n-1]) && front == Max(bios[0].front, Bytes(g[0])))
  {
    hide Counting, Joinable, High, Greedy, Bytes;
    var highPrv, prev := true, Bvec(0, 1);
    n, segSize, front := 0, 0, bios[0].front;
    ghost var done: seq<Bvec> := [];
    CountingStart(q, prev, front);
    for i := 0 to |bios|
      invariant done == Vecs(bios[..i])
      invariant Counting(q, done, n, segSize, highPrv, prev, bios[0].front, front)
    {
      var live := bios[i].live;
      for j := 0 to |live|
        invariant done == Vecs(bios[..i]) + live[..j]
        invariant Counting(q, done, n, segSize, highPrv, prev, bios[0].front, front)
      {
        var bv := live[j];
        var high := High(q, bv);
        CountingStep(q, done, bv, n, segSize, highPrv, prev, bios[0].front, front);
        if !high && !highPrv && q.cluster && segSize + bv.len <= q.maxSegSize && Joinable(q, prev, bv) {
          segSize := segSize + bv.len;
        } else {
          if n == 1 && segSize > front {
            front := segSize;
          }
          n, segSize, highPrv := n + 1, bv.len, high;
        }
        prev := bv;
        done := done + [bv];
        assert live[..j+1] == live[..j] + [bv];
      }
      assert live[..|live|] == live;
      assert bios[..i+1][..i] == bios[..i];
    }
    assert bios[..|bios|] == bios;
    CountingEnd(q, done, n, segSize, highPrv, prev, bios[0].front, front);
    if n == 1 && segSize > front {
      front := segSize;
    }
  }

  /** What the loop variables mean after the bvecs `done`. */
  ghost predicate Counting(q: Limits, done: seq<Bvec>, n: nat, segSize: nat, highPrv: bool, prev: Bvec,
                           front0: nat, front: nat)
  {
    var g := Greedy(q, true, done);
    && n == |g|
    && (n == 0 ==> segSize == 0 && highPrv)
    && (n > 0 ==>
          && g[|g|-1] != []
          && segSize == Bytes(g[|g|-1])
          && highPrv == High(q, g[|g|-1][0])
          && prev == g[|g|-1][|g[|g|-1]|-1])
    && front == if n > 1 then Max(front0, Bytes(g[0])) else front0
  }

  lemma CountingStart(q: Limits, prev: Bvec, front: nat)
    ensures Counting(q, [], 0, 0, true, prev, front, front)
  {
  }

  lemma CountingEnd(q: Limits, done: seq<Bvec>, n: nat, segSize: nat, highPrv: bool, prev: Bvec,
                    front0: nat, front: nat)
    requires Counting(q, done, n, segSize, highPrv, prev, front0, front)
    ensures var g := Greedy(q, true, done);
            && n == |g|
            && (n == 0 ==> segSize == 0 && front == front0)
            && (n > 0 ==> segSize == Bytes(g[n-1]) &&
                          (if n == 1 && segSize > front then segSize else front) == Max(front0, Bytes(g[0])))
  {
  }

  lemma CountingStep(q: Limits, done: seq<Bvec>, bv: Bvec, n: nat, segSize: nat, highPrv: bool, prev: Bvec,
                     front0: nat, front: nat)
    requires Counting(q, done, n, segSize, highPrv, prev, front0, front)
    ensures var high := High(q, bv);
            if !high && !highPrv && q.cluster && segSize + bv.len <= q.maxSegSize && Joinable(q, prev, bv)
            then Counting(q, done + [bv], n, segSize + bv.len, highPrv, bv, front0, front)
            else Counting(q, done + [bv], n + 1, bv.len, high, bv, front0,
                          if n == 1 && segSize > front then segSize else front)
  {
    var g, h := Greedy(q, true, done), Greedy(q, true, done + [bv]);
    GreedyUnfold(q, true, done, bv);
    BytesOne(bv);
    if n > 0 && Fits(q, true, g[|g|-1], bv) {
      BytesConcat(g[|g|-1], [bv]);
      assert h[|h|-1] == g[|g|-1] + [bv];
      assert n > 1 ==> h[0] == g[0];
    } else {
      assert h == g + [[bv]];
    }
  }

  /** `blk_recount_segments` on one bio. */
  function Recount(q: Limits, b: Bio): Bio {
    var (n, bs) := Recalc(q, [b]);
    bs[0].(phys := n, segValid := true)
  }

  function Recounted(q: Limits, b: Bio): Bio {
    if b.segValid then b else Recount(q, b)
  }

  // ----- creation and merging

  function Sectors(bytes: int): int
    requires bytes >= 0
  {
    bytes / 512
  }

  /** `init_request_from_bio`: the parts that concern data. */
  function NewRequest(q: Limits, b: Bio): Request {
    var b' := Recounted(q, b);
    Request([b'], b.sector, b.size, b'.phys, if b.ahead then FAILFAST_MASK else b.ff, false, false)
  }

  /** `blk_rq_set_mixed_merge`. */
  function SetMixed(rq: Request): Request {
    if rq.mixed then rq
    else rq.(bios := seq(|rq.bios|, i requires 0 <= i < |rq.bios| => rq.bios[i].(ff := rq.bios[i].ff.Or(rq.ff))),
             mixed := true)
  }

  predicate TooManySegs(q: Limits, n: int) {
    n > q.maxHwSegs || n > q.maxPhysSegs
  }

  /** May the bio be considered for a back merge at all (`rq_mergeable`, `elv_try_merge`)? */
  predicate BackCandidate(rq: Request, b: Bio) {
    rq.bios != [] && !rq.noMerge && rq.dataLen >= 0 && rq.sector + Sectors(rq.dataLen) == b.sector
  }

  predicate FrontCandidate(rq: Request, b: Bio) {
    rq.bios != [] && !rq.noMerge && rq.dataLen >= 0 && b.sector + Sectors(b.size) == rq.sector
  }

  /** Back merge case of `__make_request` with `ll_back_merge_fn`. */
  function BackMerge(q: Limits, rq: Request, b: Bio): Request {
    if !BackCandidate(rq, b) then rq
    else if Sectors(rq.dataLen) + Sectors(b.size) > q.maxSectors then rq.(noMerge := true)
    else
      var m, b' := |rq.bios| - 1, Recounted(q, b);
      var rq' := rq.(bios := rq.bios[m := Recounted(q, rq.bios[m])]);
      if TooManySegs(q, rq'.nrSegs + b'.phys) then rq'.(noMerge := true)
      else
        var rq2 := if rq'.ff != b.ff then SetMixed(rq') else rq';
        rq2.(bios := rq2.bios + [b'], dataLen := rq2.dataLen + b.size, nrSegs := rq2.nrSegs + b'.phys)
  }

  /** Front merge case of `__make_request` with `ll_front_merge_fn`. */
  function FrontMerge(q: Limits, rq: Request, b: Bio): Request {
    if !FrontCandidate(rq, b) then rq
    else if Sectors(rq.dataLen) + Sectors(b.size) > q.maxSectors then rq.(noMerge := true)
    else
      var b' := Recounted(q, b);
      var rq' := rq.(bios := rq.bios[0 := Recounted(q, rq.bios[0])]);
      if TooManySegs(q, rq'.nrSegs + b'.phys) then rq'.(noMerge := true)
      else
        var rq2 := if rq'.ff != b.ff then SetMixed(rq').(ff := b.ff) else rq';
        rq2.(bios := [b'] + rq2.bios, sector := b.sector, dataLen := rq2.dataLen + b.size,
             nrSegs := rq2.nrSegs + b'.phys)
  }

  /** `blk_phys_contig_segment`. */
  predicate PhysContig(q: Limits, b: Bio, nxt: Bio) {
    && q.cluster
    && b.back + nxt.front <= q.maxSegSize
    && (b.live != [] ==> nxt.live != [] && Joinable(q, b.live[|b.live|-1], nxt.live[0]))
  }

  /** The size hints `ll_merge_requests_fn` rewrites when the two requests touch. */
  function JoinHints(rq: Request, next: Request): (Request, Request)
    requires rq.bios != [] && next.bios != []
  {
    var m := |next.bios| - 1;
    var seg := rq.bios[|rq.bios|-1].back + next.bios[0].front;
    (if rq.nrSegs == 1 then rq.(bios := rq.bios[0 := rq.bios[0].(front := seg)]) else rq,
     if next.nrSegs == 1 then next.(bios := next.bios[m := next.bios[m].(back := seg)]) else next)
  }

  predicate MergeCandidates(q: Limits, rq: Request, next: Request) {
    && rq.bios != [] && next.bios != [] && !rq.noMerge && !next.noMerge
    && rq.dataLen >= 0 && next.dataLen >= 0
    && rq.sector + Sectors(rq.dataLen) == next.sector
    && Sectors(rq.dataLen) + Sectors(next.dataLen) <= q.maxSectors
  }

  /** Mark both as mixed when their failfast settings may differ from bio to bio. */
  function MixForMerge(a: Request, b: Request): (Request, Request) {
    if a.mixed || b.mixed || a.ff != b.ff then (SetMixed(a), SetMixed(b)) else (a, b)
  }

  /** `attempt_merge`: whether it merged, and both requests afterwards.  The size hints may
      have been rewritten even when the merge is refused. */
  function Absorb(q: Limits, rq: Request, next: Request): (bool, Request, Request) {
    if !MergeCandidates(q, rq, next) then (false, rq, next)
    else
      var contig := PhysContig(q, rq.bios[|rq.bios|-1], next.bios[0]);
      var (a, b) := if contig then JoinHints(rq, next) else (rq, next);
      var total := a.nrSegs + b.nrSegs - if contig then 1 else 0;
      if TooManySegs(q, total) then (false, a, b)
      else
        var (a', b') := MixForMerge(a, b);
        (true,
         a'.(bios := a'.bios + b'.bios, dataLen := a'.dataLen + b'.dataLen, nrSegs := total),
         b'.(bios := []))
  }

  // ----- what every operation keeps

  ghost predicate FailFastOk(rq: Request)
    requires rq.bios != []
  {
    if rq.mixed then rq.ff == rq.bios[0].ff
    else forall i :: 0 <= i < |rq.bios| ==> rq.ff.Covers(rq.bios[i].ff)
  }

  ghost predicate SegsOk(q: Limits, rq: Request)
    requires rq.bios != []
  {
    Accounted(q, Vecs(rq.bios), rq.nrSegs, rq.bios[0].front, rq.bios[|rq.bios|-1].back)
  }

  ghost predicate Inv(q: Limits, rq: Request) {
    && (forall i :: 0 <= i < |rq.bios| ==> WellFormed(rq.bios[i]))
    && (rq.bios != [] ==> SegsOk(q, rq) && FailFastOk(rq))
  }

  /** The data length is that of the bios. */
  ghost predicate Measured(rq: Request) {
    rq.dataLen == Sizes(rq.bios)
  }

  /** The chain covers whole sectors, in order and without gaps. */
  ghost predicate GapFree(bios: seq<Bio>) {
    && (forall i :: 0 <= i < |bios| ==> bios[i].size % 512 == 0)
    && (forall i {:trigger bios[i]} :: 0 <= i < |bios| - 1 ==>
          bios[i].sector + bios[i].size / 512 == bios[i+1].sector)
  }

  /** The request starts where its first bio does and covers `[sector, sector + dataLen / 512)`. */
  ghost predicate Placed(rq: Request) {
    GapFree(rq.bios) && (rq.bios != [] ==> rq.sector == rq.bios[0].sector)
  }

  /** Two bios that differ at most in size hints and failfast bits. */
  predicate SameBio(a: Bio, b: Bio) {
    a.id == b.id && a.live == b.live && a.size == b.size && a.sector == b.sector && a.uptodate == b.uptodate
  }

  ghost predicate SameLayout(a: seq<Bio>, b: seq<Bio>) {
    |a| == |b| && forall i :: 0 <= i < |a| ==> SameBio(a[i], b[i])
  }

  lemma {:induction false} SameLayoutVecs(a: seq<Bio>, b: seq<Bio>)
    requires SameLayout(a, b)
    ensures Vecs(a) == Vecs(b)
    decreases |a|
  {
    if a != [] {
      SameLayoutVecs(a[..|a|-1], b[..|b|-1]);
    }
  }

  lemma {:induction false} SameLayoutSizes(a: seq<Bio>, b: seq<Bio>)
    requires SameLayout(a, b)
    ensures Sizes(a) == Sizes(b)
    decreases |a|
  {
    if a != [] {
      SameLayoutSizes(a[1..], b[1..]);
    }
  }

  lemma RecountFacts(q: Limits, b: Bio)
    ensures var g := Greedy(q, true, b.live);
            Recount(q, b) ==
            if g == [] then b.(phys := 0, segValid := true)
            else b.(phys := |g|, segValid := true,
                    front := Max(b.front, Bytes(g[0])), back := Max(b.back, Bytes(g[|g|-1])))
  {
    VecsOne(b);
  }

  lemma RecountedKeeps(q: Limits, b: Bio)
    ensures var r := Recounted(q, b);
            && SameBio(b, r) && r.ff == b.ff && r.id == b.id
            && b.front <= r.front && b.back <= r.back
  {
    RecountFacts(q, b);
  }

  lemma RecountedAccounts(q: Limits, b: Bio)
    requires Submittable(q, b)
    ensures var r := Recounted(q, b);
            Accounted(q, r.live, r.phys, r.front, r.back) && WellFormed(r)
  {
    RecountedKeeps(q, b);
    if !b.segValid {
      RecountFacts(q, b);
      var r := Recount(q, b);
      CountAccounts(q, b.live, r.front, r.back);
    }
  }

  lemma SingleBioOk(q: Limits, b: Bio, ff: FailFast)
    requires WellFormed(b) && Accounted(q, b.live, b.phys, b.front, b.back) && ff.Covers(b.ff)
    ensures Inv(q, Request([b], b.sector, b.size, b.phys, ff, false, false))
  {
    VecsOne(b);
  }

  lemma NewRequestOk(q: Limits, b: Bio)
    requires Submittable(q, b)
    ensures Inv(q, NewRequest(q, b)) && Measured(NewRequest(q, b))
    ensures b.size % 512 == 0 ==> Placed(NewRequest(q, b))
    ensures var ff := NewRequest(q, b).ff;
            && (ff.dev <==> b.ahead || b.ff.dev) && (ff.transport <==> b.ahead || b.ff.transport)
            && (ff.driver <==> b.ahead || b.ff.driver)
  {
    RecountedAccounts(q, b);
    RecountedKeeps(q, b);
    var b' := Recounted(q, b);
    var ff := if b.ahead then FAILFAST_MASK else b.ff;
    SingleBioOk(q, b', ff);
    assert Sizes([b']) == b.size by { assert [b'][1..] == []; }
  }

  lemma SameLayoutWellFormed(a: seq<Bio>, b: seq<Bio>)
    requires SameLayout(a, b) && forall i :: 0 <= i < |a| ==> WellFormed(a[i])
    ensures forall i :: 0 <= i < |b| ==> WellFormed(b[i])
  {
    forall i | 0 <= i < |b| ensures WellFormed(b[i]) {
      assert SameBio(a[i], b[i]) && WellFormed(a[i]);
    }
  }

  /** Raising hints or copying the failfast bits down loses nothing. */
  lemma HintsKeep(q: Limits, rq: Request, bios: seq<Bio>)
    requires Inv(q, rq) && rq.bios != [] && SameLayout(rq.bios, bios)
    requires rq.bios[0].front <= bios[0].front && rq.bios[|bios|-1].back <= bios[|bios|-1].back
    ensures (forall i :: 0 <= i < |bios| ==> WellFormed(bios[i]))
    ensures SegsOk(q, rq.(bios := bios)) && Vecs(bios) == Vecs(rq.bios)
  {
    hide Accounted, FailFastOk, WellFormed, Vecs, Sizes, SameLayout;
    SameLayoutVecs(rq.bios, bios);
    SameLayoutWellFormed(rq.bios, bios);
    SameLayoutLen(rq.bios, bios);
    AccountedGrows(q, Vecs(rq.bios), rq.nrSegs, rq.bios[0].front, rq.bios[|bios|-1].back,
                   bios[0].front, bios[|bios|-1].back);
  }

  lemma SetMixedOk(q: Limits, rq: Request)
    requires Inv(q, rq) && rq.bios != []
    ensures Inv(q, SetMixed(rq)) && SameLayout(rq.bios, SetMixed(rq).bios)
    ensures SetMixed(rq).bios[0].front == rq.bios[0].front
    ensures SetMixed(rq).bios[|rq.bios|-1].back == rq.bios[|rq.bios|-1].back
  {
    hide Accounted, WellFormed, Vecs, Sizes;
    HintsKeep(q, rq, SetMixed(rq).bios);
  }

  /** Chaining two requests end to end, with `n` segments accounted for the whole. */
  lemma ChainOk(q: Limits, a: Request, b: Request, n: int)
    requires Inv(q, a) && Inv(q, b) && a.bios != [] && b.bios != []
    requires a.mixed || (!b.mixed && a.ff == b.ff)
    requires Accounted(q, Vecs(a.bios) + Vecs(b.bios), n, a.bios[0].front, b.bios[|b.bios|-1].back)
    ensures Inv(q, a.(bios := a.bios + b.bios, dataLen := a.dataLen + b.dataLen, nrSegs := n))
  {
    hide Accounted, WellFormed, Vecs, Sizes, FailFastOk;
    var bios := a.bios + b.bios;
    VecsConcat(a.bios, b.bios);
    assert bios[0] == a.bios[0] && bios[|bios|-1] == b.bios[|b.bios|-1];
    ChainFailFast(a, b, n);
  }

  lemma ChainFailFast(a: Request, b: Request, n: int)
    requires a.bios != [] && b.bios != [] && FailFastOk(a) && FailFastOk(b)
    requires a.mixed || (!b.mixed && a.ff == b.ff)
    ensures FailFastOk(a.(bios := a.bios + b.bios, dataLen := a.dataLen + b.dataLen, nrSegs := n))
  {
  }

  lemma NoMergeOk(q: Limits, rq: Request)
    requires Inv(q, rq)
    ensures Inv(q, rq.(noMerge := true))
  {
    hide Accounted, WellFormed;
  }

  lemma VecsNonempty(q: Limits, rq: Request)
    requires Inv(q, rq) && rq.bios != []
    ensures Vecs(rq.bios) != []
  {
    assert WellFormed(rq.bios[|rq.bios|-1]);
  }

  /** Replacing one bio by its recounted self. */
  lemma RecountInPlace(q: Limits, rq: Request, m: nat)
    requires Inv(q, rq) && m < |rq.bios|
    ensures Inv(q, rq.(bios := rq.bios[m := Recounted(q, rq.bios[m])]))
    ensures SameLayout(rq.bios, rq.bios[m := Recounted(q, rq.bios[m])])
  {
    RecountedKeeps(q, rq.bios[m]);
    RaiseOk(q, rq, m, Recounted(q, rq.bios[m]));
  }

  lemma RaiseOk(q: Limits, rq: Request, m: nat, b: Bio)
    requires Inv(q, rq) && m < |rq.bios|
    requires SameBio(rq.bios[m], b) && b.ff == rq.bios[m].ff
    requires rq.bios[m].front <= b.front && rq.bios[m].back <= b.back
    ensures Inv(q, rq.(bios := rq.bios[m := b])) && SameLayout(rq.bios, rq.bios[m := b])
  {
    hide Accounted, WellFormed, Vecs, Sizes;
    var bios := rq.bios[m := b];
    assert SameLayout(rq.bios, bios);
    HintsKeep(q, rq, bios);
    assert forall i :: 0 <= i < |bios| ==> bios[i].ff == rq.bios[i].ff;
  }

  lemma BackMergeOk(q: Limits, rq: Request, b: Bio)
    requires Inv(q, rq) && Submittable(q, b)
    ensures Inv(q, BackMerge(q, rq, b))
  {
    hide Accounted, Recounted, Inv, Submittable;
    if BackCandidate(rq, b) && Sectors(rq.dataLen) + Sectors(b.size) <= q.maxSectors {
      var m, b' := |rq.bios| - 1, Recounted(q, b);
      RecountInPlace(q, rq, m);
      var rq' := rq.(bios := rq.bios[m := Recounted(q, rq.bios[m])]);
      RecountedAccounts(q, b);
      RecountedKeeps(q, b);
      var rq2 := if rq'.ff != b.ff then SetMixed(rq') else rq';
      SetMixedOk(q, rq');
      var one := Request([b'], b.sector, b.size, b'.phys, b.ff, false, false);
      SingleBioOk(q, b', b.ff);
      AppendOk(q, rq2, one);
      NoMergeOk(q, rq');
    }
    NoMergeOk(q, rq);
  }

  lemma AppendOk(q: Limits, a: Request, b: Request)
    requires Inv(q, a) && Inv(q, b) && a.bios != [] && b.bios != []
    requires a.mixed || (!b.mixed && a.ff == b.ff)
    ensures Inv(q, a.(bios := a.bios + b.bios, dataLen := a.dataLen + b.dataLen, nrSegs := a.nrSegs + b.nrSegs))
  {
    hide Inv, Accounted;
    ApartCount(q, a, b);
    ChainOk(q, a, b, a.nrSegs + b.nrSegs);
  }

  lemma FrontMergeOk(q: Limits, rq: Request, b: Bio)
    requires Inv(q, rq) && Submittable(q, b)
    ensures Inv(q, FrontMerge(q, rq, b))
  {
    hide Accounted, Recounted, Inv, Submittable;
    if FrontCandidate(rq, b) && Sectors(rq.dataLen) + Sectors(b.size) <= q.maxSectors {
      var b' := Recounted(q, b);
      RecountInPlace(q, rq, 0);
      var rq' := rq.(bios := rq.bios[0 := Recounted(q, rq.bios[0])]);
      RecountedAccounts(q, b);
      RecountedKeeps(q, b);
      SetMixedOk(q, rq');
      var rq2 := if rq'.ff != b.ff then SetMixed(rq') else rq';
      var one := Request([b'], b.sector, b.size, b'.phys, b.ff, false, false);
      SingleBioOk(q, b', b.ff);
      PrependOk(q, one, rq2);
      NoMergeOk(q, rq');
    }
    NoMergeOk(q, rq);
  }

  lemma PrependOk(q: Limits, one: Request, rq: Request)
    requires Inv(q, one) && Inv(q, rq) && rq.bios != [] && |one.bios| == 1 && one.bios[0].ff == one.ff
    requires rq.mixed || one.ff == rq.ff
    ensures Inv(q, rq.(bios := one.bios + rq.bios, sector := one.sector, ff := one.ff,
                       dataLen := rq.dataLen + one.dataLen, nrSegs := rq.nrSegs + one.nrSegs))
  {
    hide Accounted, WellFormed, Vecs;
    var a := one.(mixed := rq.mixed);
    AppendOk(q, one.(mixed := true), rq);
    var bios := one.bios + rq.bios;
    if !rq.mixed {
      assert forall i :: 0 < i < |bios| ==> bios[i] == rq.bios[i-1];
    }
  }

  lemma HintsOk(q: Limits, rq: Request, bios: seq<Bio>)
    requires Inv(q, rq) && rq.bios != [] && SameLayout(rq.bios, bios)
    requires forall i :: 0 <= i < |bios| ==> bios[i].ff == rq.bios[i].ff
    requires Accounted(q, Vecs(rq.bios), rq.nrSegs, bios[0].front, bios[|bios|-1].back)
    ensures Inv(q, rq.(bios := bios))
  {
    hide Accounted, WellFormed, Vecs, Sizes;
    SameLayoutVecs(rq.bios, bios);
    SameLayoutWellFormed(rq.bios, bios);
  }

  lemma FrontHintOk(q: Limits, rq: Request, seg: nat)
    requires Inv(q, rq) && rq.bios != [] && rq.nrSegs == 1 && rq.bios[|rq.bios|-1].back <= seg
    ensures var bios := rq.bios[0 := rq.bios[0].(front := seg)];
            Inv(q, rq.(bios := bios)) && SameLayout(rq.bios, bios)
  {
    hide Accounted, WellFormed, FailFastOk, Vecs, Sizes;
    var bios := rq.bios[0 := rq.bios[0].(front := seg)];
    AccountedSingle(q, Vecs(rq.bios), rq.bios[0].front, rq.bios[|bios|-1].back, seg, rq.bios[|bios|-1].back);
    HintsOk(q, rq, bios);
  }

  lemma BackHintOk(q: Limits, rq: Request, seg: nat)
    requires Inv(q, rq) && rq.bios != [] && rq.nrSegs == 1 && rq.bios[0].front <= seg
    ensures var m := |rq.bios| - 1; var bios := rq.bios[m := rq.bios[m].(back := seg)];
            Inv(q, rq.(bios := bios)) && SameLayout(rq.bios, bios)
  {
    hide Accounted, WellFormed, FailFastOk, Vecs, Sizes;
    var m := |rq.bios| - 1;
    var bios := rq.bios[m := rq.bios[m].(back := seg)];
    AccountedSingle(q, Vecs(rq.bios), rq.bios[0].front, rq.bios[m].back, rq.bios[0].front, seg);
    HintsOk(q, rq, bios);
  }

  lemma JoinHintsOk(q: Limits, rq: Request, next: Request)
    requires Inv(q, rq) && Inv(q, next) && rq.bios != [] && next.bios != []
    ensures var (a, b) := JoinHints(rq, next);
            && Inv(q, a) && Inv(q, b)
            && SameLayout(rq.bios, a.bios) && SameLayout(next.bios, b.bios)
  {
    hide Inv;
    var seg := rq.bios[|rq.bios|-1].back + next.bios[0].front;
    if rq.nrSegs == 1 { FrontHintOk(q, rq, seg); }
    if next.nrSegs == 1 { BackHintOk(q, next, seg); }
  }

  /** The segment count of two requests that are to be chained. */
  lemma JoinedCount(q: Limits, rq: Request, next: Request)
    requires Inv(q, rq) && Inv(q, next) && rq.bios != [] && next.bios != []
    requires PhysContig(q, rq.bios[|rq.bios|-1], next.bios[0])
    ensures var (a, b) := JoinHints(rq, next);
            Accounted(q, Vecs(rq.bios) + Vecs(next.bios), rq.nrSegs + next.nrSegs - 1,
                      a.bios[0].front, b.bios[|b.bios|-1].back)
  {
    hide Accounted, FailFastOk, Joinable, Vecs, Sizes, Bytes, JoinHints, WellFormed;
    var tail, head := rq.bios[|rq.bios|-1], next.bios[0];
    TouchingVecs(q, rq.bios, next.bios);
    JoinHintsSizes(rq, next);
    AccountedJoin(q, Vecs(rq.bios), rq.nrSegs, rq.bios[0].front, tail.back,
                  Vecs(next.bios), next.nrSegs, head.front, next.bios[|next.bios|-1].back);
  }

  lemma ApartCount(q: Limits, rq: Request, next: Request)
    requires Inv(q, rq) && Inv(q, next) && rq.bios != [] && next.bios != []
    ensures Accounted(q, Vecs(rq.bios) + Vecs(next.bios), rq.nrSegs + next.nrSegs,
                      rq.bios[0].front, next.bios[|next.bios|-1].back)
  {
    hide Accounted, FailFastOk, Vecs, Sizes, WellFormed;
    VecsNonempty(q, rq);
    VecsNonempty(q, next);
    AccountedConcat(q, Vecs(rq.bios), rq.nrSegs, rq.bios[0].front, rq.bios[|rq.bios|-1].back,
                    Vecs(next.bios), next.nrSegs, next.bios[0].front, next.bios[|next.bios|-1].back);
  }

  lemma TouchingVecs(q: Limits, x: seq<Bio>, y: seq<Bio>)
    requires x != [] && y != [] && WellFormed(x[|x|-1]) && WellFormed(y[0])
    requires PhysContig(q, x[|x|-1], y[0])
    ensures var v, w := Vecs(x), Vecs(y);
            v != [] && w != [] && Joinable(q, v[|v|-1], w[0])
  {
    LastVec(x);
    FirstVec(y);
  }

  lemma LastVec(bios: seq<Bio>)
    requires bios != [] && WellFormed(bios[|bios|-1])
    ensures var v, b := Vecs(bios), bios[|bios|-1];
            v != [] && v[|v|-1] == b.live[|b.live|-1]
  {
  }

  lemma FirstVec(bios: seq<Bio>)
    requires bios != [] && WellFormed(bios[0])
    ensures Vecs(bios) != [] && Vecs(bios)[0] == bios[0].live[0]
  {
    assert bios == [bios[0]] + bios[1..];
    VecsConcat([bios[0]], bios[1..]);
    VecsOne(bios[0]);
  }

  lemma MixForMergeOk(q: Limits, a: Request, b: Request)
    requires Inv(q, a) && Inv(q, b) && a.bios != [] && b.bios != []
    ensures var (x, y) := MixForMerge(a, b);
            && Inv(q, x) && Inv(q, y) && SameLayout(a.bios, x.bios) && SameLayout(b.bios, y.bios)
            && (x.mixed || (!y.mixed && x.ff == y.ff)) && x.dataLen == a.dataLen && y.dataLen == b.dataLen
            && x.bios[0].front == a.bios[0].front
            && y.bios[|b.bios|-1].back == b.bios[|b.bios|-1].back
  {
    hide Inv;
    SetMixedOk(q, a);
    SetMixedOk(q, b);
  }

  lemma ChainMixed(q: Limits, a: Request, b: Request, n: int)
    requires Inv(q, a) && Inv(q, b) && a.bios != [] && b.bios != []
    requires Accounted(q, Vecs(a.bios) + Vecs(b.bios), n, a.bios[0].front, b.bios[|b.bios|-1].back)
    ensures var (a', b') := MixForMerge(a, b);
            Inv(q, a'.(bios := a'.bios + b'.bios, dataLen := a'.dataLen + b'.dataLen, nrSegs := n))
  {
    hide Accounted, Inv, MixForMerge, SameLayout;
    var (a', b') := MixForMerge(a, b);
    MixForMergeOk(q, a, b);
    SameLayoutLen(a.bios, a'.bios);
    SameLayoutLen(b.bios, b'.bios);
    SameLayoutVecs(a.bios, a'.bios);
    SameLayoutVecs(b.bios, b'.bios);
    ChainOk(q, a', b', n);
  }

  lemma AbsorbParts(q: Limits, rq: Request, next: Request)
    requires Inv(q, rq) && Inv(q, next) && rq.bios != [] && next.bios != []
    ensures var contig := PhysContig(q, rq.bios[|rq.bios|-1], next.bios[0]);
            var (a, b) := if contig then JoinHints(rq, next) else (rq, next);
            var (a', b') := MixForMerge(a, b);
            && Inv(q, a) && Inv(q, b)
            && Inv(q, a'.(bios := a'.bios + b'.bios, dataLen := a'.dataLen + b'.dataLen,
                          nrSegs := rq.nrSegs + next.nrSegs - if contig then 1 else 0))
  {
    hide Accounted, Inv, PhysContig, MixForMerge, JoinHints, SameLayout, Vecs;
    if PhysContig(q, rq.bios[|rq.bios|-1], next.bios[0]) {
      JoinedCount(q, rq, next);
      var (a, b) := JoinHints(rq, next);
      JoinHintsOk(q, rq, next);
      JoinHintsSizes(rq, next);
      SameLayoutVecs(rq.bios, a.bios);
      SameLayoutVecs(next.bios, b.bios);
      ChainMixed(q, a, b, rq.nrSegs + next.nrSegs - 1);
    } else {
      ApartCount(q, rq, next);
      ChainMixed(q, rq, next, rq.nrSegs + next.nrSegs);
    }
  }

  lemma AbsorbOk(q: Limits, rq: Request, next: Request)
    requires Inv(q, rq) && Inv(q, next)
    ensures var (ok, rq', next') := Absorb(q, rq, next); Inv(q, rq') && (!ok ==> Inv(q, next'))
  {
    hide Inv, PhysContig, MixForMerge, JoinHints;
    if MergeCandidates(q, rq, next) {
      AbsorbParts(q, rq, next);
      JoinHintsSizes(rq, next);
    }
  }

  lemma JoinHintsSizes(rq: Request, next: Request)
    requires rq.bios != [] && next.bios != []
    ensures var (a, b) := JoinHints(rq, next);
            var n, m := |rq.bios| - 1, |next.bios| - 1;
            && a.nrSegs == rq.nrSegs && b.nrSegs == next.nrSegs && |a.bios| == n + 1 && |b.bios| == m + 1
            && a.bios[0].front == (if rq.nrSegs == 1 then rq.bios[n].back + next.bios[0].front else rq.bios[0].front)
            && b.bios[m].back == (if next.nrSegs == 1 then rq.bios[n].back + next.bios[0].front else next.bios[m].back)
  {
  }

  lemma SameLayoutLen(a: seq<Bio>, b: seq<Bio>)
    requires SameLayout(a, b)
    ensures |a| == |b|
  {
  }
}
