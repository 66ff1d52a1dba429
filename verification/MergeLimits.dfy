/** When a merge is made and when it is refused (`ll_back_merge_fn`, `ll_front_merge_fn`,
    `ll_merge_requests_fn`), and the segment limits of the queue over whole histories.
 */
module MergeLimits {
  import opened Segments
  import opened Requests
  import opened Completion
  import opened Histories

  /** The segments of a bio: the count it carries if that is flagged valid, or a fresh one. */
  function SegmentsOf(q: Limits, b: Bio): nat {
    if b.segValid then b.phys else |Greedy(q, true, b.live)|
  }

  lemma RecountedSegments(q: Limits, b: Bio)
    ensures Recounted(q, b).phys == SegmentsOf(q, b)
  {
    hide Greedy;
    if !b.segValid {
      RecountFacts(q, b);
    }
  }

  /** A bio is merged at the back if and only if it is adjacent, the request may be merged, and
      the sum stays within the sector limit and both segment limits.  A refusal for one of the
      limits, and only that, marks the request as no longer mergeable. */
  lemma BackMergeIff(q: Limits, rq: Request, b: Bio)
    ensures var r := BackMerge(q, rq, b);
            var segs := rq.nrSegs + SegmentsOf(q, b);
            var adjacent := rq.bios != [] && rq.dataLen >= 0 && rq.sector + rq.dataLen / 512 == b.sector;
            var fits := && rq.dataLen >= 0 && rq.dataLen / 512 + b.size / 512 <= q.maxSectors
                        && segs <= q.maxHwSegs && segs <= q.maxPhysSegs;
            && (|r.bios| == |rq.bios| + 1 <==> adjacent && !rq.noMerge && fits)
            && (r.noMerge <==> rq.noMerge || (adjacent && !fits))
            && |r.bios| - |rq.bios| in {0, 1}
            && r.nrSegs == (if |r.bios| == |rq.bios| then rq.nrSegs else segs)
  {
    hide Recounted, SetMixed, SegmentsOf;
    RecountedSegments(q, b);
    if rq.bios != [] {
      var m := |rq.bios| - 1;
      MixedLimits(rq.(bios := rq.bios[m := Recounted(q, rq.bios[m])]));
    }
  }

  lemma MixedLimits(rq: Request)
    ensures var r := SetMixed(rq); |r.bios| == |rq.bios| && r.nrSegs == rq.nrSegs && r.noMerge == rq.noMerge
  {
  }

  /** The same at the front. */
  lemma FrontMergeIff(q: Limits, rq: Request, b: Bio)
    ensures var r := FrontMerge(q, rq, b);
            var segs := rq.nrSegs + SegmentsOf(q, b);
            var adjacent := rq.bios != [] && rq.dataLen >= 0 && b.sector + b.size / 512 == rq.sector;
            var fits := && rq.dataLen >= 0 && rq.dataLen / 512 + b.size / 512 <= q.maxSectors
                        && segs <= q.maxHwSegs && segs <= q.maxPhysSegs;
            && (|r.bios| == |rq.bios| + 1 <==> adjacent && !rq.noMerge && fits)
            && (r.noMerge <==> rq.noMerge || (adjacent && !fits))
            && |r.bios| - |rq.bios| in {0, 1}
            && r.nrSegs == (if |r.bios| == |rq.bios| then rq.nrSegs else segs)
  {
    hide Recounted, SetMixed, SegmentsOf;
    RecountedSegments(q, b);
    if rq.bios != [] {
      MixedLimits(rq.(bios := rq.bios[0 := Recounted(q, rq.bios[0])]));
    }
  }

  /** The last segment of one request and the first of the next can be one. */
  predicate Touch(q: Limits, rq: Request, next: Request)
    requires rq.bios != [] && next.bios != [] && rq.bios[|rq.bios|-1].live != [] && next.bios[0].live != []
  {
    var tail, head := rq.bios[|rq.bios|-1], next.bios[0];
    q.cluster && tail.back + head.front <= q.maxSegSize && Joinable(q, tail.live[|tail.live|-1], head.live[0])
  }

  /** Two requests are merged if and only if they are adjacent, both may be merged, and the sum
      stays within the sector limit and, less one where they touch, both segment limits.  A
      refusal marks neither. */
  lemma AbsorbIff(q: Limits, rq: Request, next: Request)
    requires Inv(q, rq) && Inv(q, next) && rq.bios != [] && next.bios != []
    ensures rq.bios[|rq.bios|-1].live != [] && next.bios[0].live != []
    ensures var (ok, r, next') := Absorb(q, rq, next);
            var segs := rq.nrSegs + next.nrSegs - if Touch(q, rq, next) then 1 else 0;
            && (ok <==>
                  && !rq.noMerge && !next.noMerge && rq.dataLen >= 0 && next.dataLen >= 0
                  && rq.sector + rq.dataLen / 512 == next.sector
                  && rq.dataLen / 512 + next.dataLen / 512 <= q.maxSectors
                  && segs <= q.maxHwSegs && segs <= q.maxPhysSegs)
            && r.noMerge == rq.noMerge && next'.noMerge == next.noMerge
            && r.nrSegs == (if ok then segs else rq.nrSegs)
            && |r.bios| == |rq.bios| + (if ok then |next.bios| else 0)
  {
    hide Joinable, SegsOk, FailFastOk, SetMixed, JoinHints;
    assert WellFormed(rq.bios[|rq.bios|-1]) && WellFormed(next.bios[0]);
    JoinLimits(rq, next);
    var (a, b) := if Touch(q, rq, next) then JoinHints(rq, next) else (rq, next);
    MixedLimits(a);
    MixedLimits(b);
  }

  lemma JoinLimits(rq: Request, next: Request)
    requires rq.bios != [] && next.bios != []
    ensures var (a, b) := JoinHints(rq, next);
            && |a.bios| == |rq.bios| && a.nrSegs == rq.nrSegs && a.noMerge == rq.noMerge
            && |b.bios| == |next.bios| && b.nrSegs == next.nrSegs && b.noMerge == next.noMerge
  {
  }

  // ----- over histories

  predicate Allowed(q: Limits, n: int) {
    n <= q.maxHwSegs && n <= q.maxPhysSegs
  }

  /** Every completion leaves bvecs that fit both limits even with those above the bounce limit
      kept apart. */
  ghost predicate NeverOver(q: Limits, h: History)
    requires Feasible(q, h)
  {
    match h
    case Submit(b) => true
    case Back(p, b) => NeverOver(q, p)
    case Front(p, b) => NeverOver(q, p)
    case Merge(p, n) => NeverOver(q, p) && NeverOver(q, n)
    case Complete(p, n, err) =>
      NeverOver(q, p) && Packs(q, Left(q, p, n, err), q.maxHwSegs) && Packs(q, Left(q, p, n, err), q.maxPhysSegs)
  }

  /** The bvecs that a completion leaves. */
  ghost function Left(q: Limits, p: History, n: nat, err: int): seq<Bvec>
    requires Feasible(q, p) && Completes(Run(q, p).bios, n)
  {
    InvWellFormed(q, Run(q, p));
    Vecs(Trim(Run(q, p).bios, n, err).rest)
  }

  /** Bios within the segment limits make requests within them, and scatter-gather lists that
      fit a table of that many entries, unless the recount of a completion goes over. */
  lemma AlwaysAllowed(q: Limits, h: History)
    requires Feasible(q, h) && NeverOver(q, h)
    requires forall b :: b in Brought(h) ==> Allowed(q, SegmentsOf(q, b))
    ensures Allowed(q, Run(q, h).nrSegs)
    ensures Run(q, h).bios != [] ==> Allowed(q, |Greedy(q, false, Vecs(Run(q, h).bios))|)
  {
    hide Feasible, Run, NeverOver, Inv, Greedy, Vecs, SegmentsOf;
    CountAllowed(q, h);
    if Run(q, h).bios != [] {
      CountNeverTooSmall(q, h);
    }
  }

  lemma {:induction false} CountAllowed(q: Limits, h: History)
    requires Feasible(q, h) && NeverOver(q, h)
    requires forall b :: b in Brought(h) ==> Allowed(q, SegmentsOf(q, b))
    ensures Allowed(q, Run(q, h).nrSegs)
  {
    hide Inv, Submittable, BackMerge, FrontMerge, Absorb, Update, Packs, SegmentsOf, Left, StaysWithin, Completes,
         Recounted;
    match h
    case Submit(b) => RecountedSegments(q, b);
    case Back(p, b) =>
      CountAllowed(q, p);
      BackMergeIff(q, Run(q, p), b);
    case Front(p, b) =>
      CountAllowed(q, p);
      FrontMergeIff(q, Run(q, p), b);
    case Merge(p, n) =>
      CountAllowed(q, p);
      AbsorbAllowed(q, Run(q, p), Run(q, n));
    case Complete(p, n, err) =>
      CountAllowed(q, p);
      RecountOverIff(q, p, n, err, q.maxHwSegs);
      RecountOverIff(q, p, n, err, q.maxPhysSegs);
  }

  lemma AbsorbAllowed(q: Limits, rq: Request, next: Request)
    requires Inv(q, rq) && Inv(q, next) && Allowed(q, rq.nrSegs)
    ensures Allowed(q, Absorb(q, rq, next).1.nrSegs)
  {
    hide Inv, SetMixed, JoinHints, PhysContig;
    if rq.bios != [] && next.bios != [] {
      AbsorbIff(q, rq, next);
    }
  }

  /** The count after a completion is within `m` if and only if what is left can be transferred
      as at most `m` segments with the bvecs above the bounce limit kept apart. */
  lemma RecountOverIff(q: Limits, p: History, n: nat, err: int, m: int)
    requires Feasible(q, Complete(p, n, err))
    ensures var r := Run(q, Complete(p, n, err));
            if r.bios != [] then r.nrSegs <= m <==> Packs(q, Left(q, p, n, err), m)
            else r.nrSegs == Run(q, p).nrSegs
  {
    hide Inv, Trim, Greedy, Vecs, Packs, StaysWithin, Bytes;
    var rq := Run(q, p);
    InvWellFormed(q, rq);
    TrimExact(rq.bios, n, err);
    CountIsLeast(q, Left(q, p, n, err), m);
  }

  // ----- queues whose bvecs are all within the bounce limit

  /** No page of the bvec is above the bounce limit. */
  predicate Low(q: Limits, v: Bvec) {
    (v.End() - 1) / PAGE_SIZE <= q.bouncePfn
  }

  predicate AllLow(q: Limits, vs: seq<Bvec>) {
    forall i :: 0 <= i < |vs| ==> Low(q, vs[i])
  }

  /** Without bvecs above the bounce limit no recount goes over. */
  lemma {:induction false} LowNeverOver(q: Limits, h: History)
    requires Feasible(q, h)
    requires forall b :: b in Brought(h) ==> Allowed(q, SegmentsOf(q, b)) && AllLow(q, b.live)
    ensures NeverOver(q, h) && AllLow(q, Vecs(Run(q, h).bios))
  {
    hide Inv, Submittable, BackMerge, FrontMerge, Absorb, Update, Packs, SegmentsOf, Left, StaysWithin, Recounted,
         AllLow, Vecs, Allowed;
    match h
    case Submit(b) =>
      VecsOne(Recounted(q, b));
      RecountedBio(q, b);
    case Back(p, b) =>
      LowNeverOver(q, p);
      BackMergeIds(q, Run(q, p), b);
      LowConcat(q, Vecs(Run(q, p).bios), b.live);
    case Front(p, b) =>
      LowNeverOver(q, p);
      FrontMergeIds(q, Run(q, p), b);
      LowConcat(q, b.live, Vecs(Run(q, p).bios));
    case Merge(p, n) =>
      LowNeverOver(q, p);
      LowNeverOver(q, n);
      AbsorbIds(q, Run(q, p), Run(q, n));
      LowConcat(q, Vecs(Run(q, p).bios), Vecs(Run(q, n).bios));
    case Complete(p, n, err) =>
      LowNeverOver(q, p);
      CountAllowed(q, p);
      LowComplete(q, p, n, err);
  }

  lemma LowConcat(q: Limits, a: seq<Bvec>, b: seq<Bvec>)
    requires AllLow(q, a) && AllLow(q, b)
    ensures AllLow(q, a + b)
  {
  }

  lemma LowComplete(q: Limits, p: History, n: nat, err: int)
    requires Feasible(q, Complete(p, n, err)) && Allowed(q, Run(q, p).nrSegs) && AllLow(q, Vecs(Run(q, p).bios))
    ensures Packs(q, Left(q, p, n, err), q.maxHwSegs) && Packs(q, Left(q, p, n, err), q.maxPhysSegs)
    ensures AllLow(q, Vecs(Run(q, Complete(p, n, err)).bios))
  {
    hide Inv, Trim, Vecs, Packs, StaysWithin, AllLow, Recalc;
    var rq := Run(q, p);
    InvWellFormed(q, rq);
    TrimExact(rq.bios, n, err);
    var t := Trim(rq.bios, n, err);
    if t.rest == [] {
      VecsNone();
      PacksNothing(q, q.maxHwSegs);
      PacksNothing(q, q.maxPhysSegs);
      NothingLow(q);
    } else {
      var k := TrimTail(rq.bios, n, err);
      RecalcOk(q, t.rest);
      SameLayoutVecs(t.rest, Recalc(q, t.rest).1);
      LowTail(q, Vecs(rq.bios), Vecs(t.rest), k);
      ChainAccounted(q, rq);
      TailPacks(q, Vecs(rq.bios), Vecs(t.rest), k, rq.nrSegs, rq.bios[0].front, rq.bios[|rq.bios|-1].back, q.maxHwSegs);
      TailPacks(q, Vecs(rq.bios), Vecs(t.rest), k, rq.nrSegs, rq.bios[0].front, rq.bios[|rq.bios|-1].back,
                q.maxPhysSegs);
    }
  }

  lemma NothingLow(q: Limits)
    ensures AllLow(q, [])
  {
  }

  lemma PacksNothing(q: Limits, m: nat)
    ensures Packs(q, [], m)
  {
    assert PacksAs(q, [], m, []);
  }

  lemma ChainAccounted(q: Limits, rq: Request)
    requires Inv(q, rq) && rq.bios != []
    ensures Accounted(q, Vecs(rq.bios), rq.nrSegs, rq.bios[0].front, rq.bios[|rq.bios|-1].back)
  {
    hide Accounted, Vecs, FailFastOk, WellFormed;
  }

  lemma LowTail(q: Limits, vs: seq<Bvec>, ws: seq<Bvec>, k: nat)
    requires AllLow(q, vs) && IsTail(ws, vs, k)
    ensures AllLow(q, ws)
  {
    forall i | 0 <= i < |ws| ensures Low(q, ws[i]) {
      assert i > 0 ==> ws[i] == ws[1..][i-1] == vs[k+1..][i-1];
      assert Low(q, vs[k + i]);
    }
  }

  /** A count that covers bvecs within the bounce limit covers every tail of them. */
  lemma TailPacks(q: Limits, vs: seq<Bvec>, ws: seq<Bvec>, k: nat, n: int, front: nat, back: nat, m: int)
    requires Accounted(q, vs, n, front, back) && n <= m && IsTail(ws, vs, k) && AllLow(q, ws)
    ensures Packs(q, ws, m)
  {
    hide IsPartition, AllLow, IsTail;
    var ps :| Witnesses(q, ps, vs, n, front, back);
    var qs := TailPartition(q, ps, vs, ws, k);
    forall i | 0 <= i < |qs| ensures Apart(q, qs[i]) {
      LowApart(q, qs, ws, i);
    }
    assert PacksAs(q, ws, m, qs);
  }

  lemma LowApart(q: Limits, qs: seq<seq<Bvec>>, ws: seq<Bvec>, i: nat)
    requires IsPartition(q, qs, ws) && AllLow(q, ws) && i < |qs|
    ensures Apart(q, qs[i])
  {
    hide Legal;
    var p := qs[i];
    forall j | 0 <= j < |p| ensures !High(q, p[j]) {
      FlattenMember(qs, i, p[j]);
      assert p[j] in ws;
      LowNotHigh(q, p[j]);
    }
  }

  lemma LowNotHigh(q: Limits, v: Bvec)
    requires Low(q, v)
    ensures !High(q, v)
  {
    DivMonotone(v.addr, v.End() - 1, PAGE_SIZE);
  }

  /** What a completion leaves of the bvecs is a tail of them. */
  lemma {:induction false} TrimTail(bios: seq<Bio>, n: nat, err: int) returns (k: nat)
    requires AllWellFormed(bios) && StaysWithin(bios, n) && Trim(bios, n, err).rest != []
    ensures IsTail(Vecs(Trim(bios, n, err).rest), Vecs(bios), k)
    decreases |bios|
  {
    hide Trim, Within, Vecs, IsTail, Bytes, Sizes, Advance;
    TrimNothing(n, err);
    var b, rest := bios[0], bios[1..];
    assert WellFormed(b) && bios == [b] + rest;
    VecsFirst(b, rest);
    if b.size <= n {
      TrimWhole(bios, n, err);
      k := TrimTail(rest, n - b.size, err);
      LaterTail(b.live, Vecs(rest), Vecs(Trim(rest, n - b.size, err).rest), k);
      k := |b.live| + k;
    } else {
      TrimInside(b, rest, n, err);
      k := AdvanceTail(b, n, err);
      VecsFirst(Advance(b, n, err), rest);
      LongerTail(b.live, Advance(b, n, err).live, k, Vecs(rest));
    }
  }

  lemma LaterTail(a: seq<Bvec>, vs: seq<Bvec>, ws: seq<Bvec>, k: nat)
    requires IsTail(ws, vs, k)
    ensures IsTail(ws, a + vs, |a| + k)
  {
    assert (a + vs)[|a| + k + 1..] == vs[k+1..];
  }

  lemma LongerTail(vs: seq<Bvec>, ws: seq<Bvec>, k: nat, c: seq<Bvec>)
    requires IsTail(ws, vs, k)
    ensures IsTail(ws + c, vs + c, k)
  {
    assert (vs + c)[k+1..] == vs[k+1..] + c;
    assert (ws + c)[1..] == ws[1..] + c;
  }

  lemma AdvanceTail(b: Bio, n: nat, err: int) returns (k: nat)
    requires WellFormed(b) && n < b.size && n < Bytes(b.live)
    ensures IsTail(Advance(b, n, err).live, b.live, k)
  {
    if n == 0 {
      k := 0;
    } else {
      k := CutTail(b.live, n);
    }
  }

  lemma {:induction false} CutTail(vs: seq<Bvec>, n: nat) returns (k: nat)
    requires n < Bytes(vs)
    ensures IsTail(Cut(vs, n), vs, k)
    decreases |vs|
  {
    hide Bytes, IsTail;
    BytesNone();
    BytesFirst(vs);
    if vs[0].len <= n {
      k := CutTail(vs[1..], n - vs[0].len);
      LaterTail([vs[0]], vs[1..], Cut(vs, n), k);
      assert vs == [vs[0]] + vs[1..];
      k := k + 1;
    } else {
      k := 0;
      CutFirstTail(vs, n);
    }
  }

  lemma CutFirstTail(vs: seq<Bvec>, n: nat)
    requires vs != [] && n < vs[0].len
    ensures IsTail([Bvec(vs[0].addr + n, vs[0].len - n)] + vs[1..], vs, 0)
  {
  }

  // ----- and one where they are not

  function HighBio(id: nat, sector: nat, size: pos, addr: nat): Bio {
    Bio(id, sector, size, [Bvec(addr, size)], FailFast(false, false, false), false, true, size, size, 1, true)
  }

  /** Two adjacent bios above the bounce limit of a queue that takes one segment: merged as
      requests they count as one, and completing a sector of the first makes them two. */
  lemma HighGoesOver(q: Limits)
    requires q == Limits(true, 65536, 65536, 0, 1, 1, 1024)
    ensures var a, b := HighBio(0, 0, 1024, 4096), HighBio(1, 2, 512, 5120);
            var p := Merge(Submit(a), Submit(b));
            && Allowed(q, SegmentsOf(q, a)) && Allowed(q, SegmentsOf(q, b))
            && Feasible(q, Complete(p, 512, 0))
            && Allowed(q, Run(q, p).nrSegs) && !Allowed(q, Run(q, Complete(p, 512, 0)).nrSegs)
  {
    hide Run, Feasible, Absorb, Update;
    var a, b := HighBio(0, 0, 1024, 4096), HighBio(1, 2, 512, 5120);
    RunFrom(q, a);
    RunFrom(q, b);
    RunJoined(q, Submit(a), Submit(b));
    HighMerged(q, a, b);
    var p := Merge(Submit(a), Submit(b));
    HighCompleted(q, Run(q, p));
    RunOn(q, p, 512);
  }

  lemma HighMerged(q: Limits, a: Bio, b: Bio)
    requires q == Limits(true, 65536, 65536, 0, 1, 1, 1024)
    requires a == HighBio(0, 0, 1024, 4096) && b == HighBio(1, 2, 512, 5120)
    ensures Absorb(q, Request([a], 0, 1024, 1, a.ff, false, false), Request([b], 2, 512, 1, b.ff, false, false)).1 ==
            Request([a.(front := 1536), b.(back := 1536)], 0, 1536, 1, a.ff, false, false)
  {
  }

  lemma HighCompleted(q: Limits, rq: Request)
    requires q == Limits(true, 65536, 65536, 0, 1, 1, 1024)
    requires |rq.bios| == 2 && rq.bios[0].size == 1024 && rq.bios[1].size > 0
    requires rq.bios[0].live == [Bvec(4096, 1024)] && rq.bios[1].live == [Bvec(5120, 512)]
    ensures AllWellFormed(rq.bios) && Completes(rq.bios, 512) && Update(q, rq, 512, 0).rq.nrSegs == 2
  {
    hide Trim, Greedy, Bytes, Vecs, Advance;
    var b, rest := rq.bios[0], rq.bios[1..];
    assert rq.bios == [b] + rest && rest == [rq.bios[1]];
    TrimInside(b, rest, 512, 0);
    BytesOne(b.live[0]);
    HighCut(b);
    VecsFirst(Advance(b, 512, 0), rest);
    VecsOne(rq.bios[1]);
    HighApart(q, Bvec(4608, 512), Bvec(5120, 512));
  }

  lemma HighCut(b: Bio)
    requires b.live == [Bvec(4096, 1024)] && b.size == 1024 && Bytes(b.live) == 1024
    ensures Advance(b, 512, 0).live == [Bvec(4608, 512)]
  {
    hide Bytes;
    assert b.live[1..] == [];
  }

  lemma HighApart(q: Limits, x: Bvec, y: Bvec)
    requires High(q, y)
    ensures |Greedy(q, true, [x] + [y])| == 2
  {
    hide Greedy, High, Joinable;
    GreedyUnfold(q, true, [x], y);
    GreedyUnfold(q, true, [], x);
    CountNone(q);
    assert [] + [x] == [x];
  }
}
