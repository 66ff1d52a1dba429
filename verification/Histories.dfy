/** Every way a request can come about: submitted from a bio, grown by back and front
    merges, merged with a request that has a history of its own, and partly completed.
    What holds of all of them holds of every request the driver sees.
 */
module Histories {
  import opened Segments
  import opened Requests
  import opened Completion

  datatype History =
    | Submit(bio: Bio)
    | Back(past: History, bio: Bio)
    | Front(past: History, bio: Bio)
    | Merge(past: History, next: History)
    | Complete(past: History, bytes: nat, err: int)

  /** Only bios that carry data and whose segment count, if flagged valid, is; and only
      completions that the completion loop gets through. */
  ghost predicate Feasible(q: Limits, h: History)
    decreases h, 0
  {
    match h
    case Submit(b) => Submittable(q, b)
    case Back(p, b) => Feasible(q, p) && Submittable(q, b)
    case Front(p, b) => Feasible(q, p) && Submittable(q, b)
    case Merge(p, n) => Feasible(q, p) && Feasible(q, n)
    case Complete(p, n, _) => Feasible(q, p) && Completes(Run(q, p).bios, n)
  }

  /** The request a history leads to; merges the queue would refuse leave it as it was. */
  ghost function Run(q: Limits, h: History): (rq: Request)
    requires Feasible(q, h)
    ensures Inv(q, rq)
    decreases h, 1
  {
    match h
    case Submit(b) =>
      NewRequestOk(q, b);
      NewRequest(q, b)
    case Back(p, b) =>
      BackMergeOk(q, Run(q, p), b);
      BackMerge(q, Run(q, p), b)
    case Front(p, b) =>
      FrontMergeOk(q, Run(q, p), b);
      FrontMerge(q, Run(q, p), b)
    case Merge(p, n) =>
      AbsorbOk(q, Run(q, p), Run(q, n));
      Absorb(q, Run(q, p), Run(q, n)).1
    case Complete(p, n, err) =>
      UpdateOk(q, Run(q, p), n, err);
      Update(q, Run(q, p), n, err).rq
  }

  /** However a request came about, its segment count is enough for the scatter-gather list
      that mapping it produces. */
  lemma CountNeverTooSmall(q: Limits, h: History)
    requires Feasible(q, h) && Run(q, h).bios != []
    ensures |Greedy(q, false, Vecs(Run(q, h).bios))| <= Run(q, h).nrSegs
  {
    hide Run, Feasible, Accounted, Greedy, Vecs;
    var rq := Run(q, h);
    AccountedBoundsMap(q, Vecs(rq.bios), rq.nrSegs, rq.bios[0].front, rq.bios[|rq.bios|-1].back);
  }

  // ----- the bios a history brings in

  ghost function Brought(h: History): set<Bio> {
    match h
    case Submit(b) => {b}
    case Back(p, b) => Brought(p) + {b}
    case Front(p, b) => Brought(p) + {b}
    case Merge(p, n) => Brought(p) + Brought(n)
    case Complete(p, _, _) => Brought(p)
  }

  /** A back merge leaves the chain alone, or with the bio behind it, but for hints and
      failfast bits. */
  lemma BackMergeLayout(q: Limits, rq: Request, b: Bio)
    ensures var r := BackMerge(q, rq, b); var grown := |r.bios| > |rq.bios|;
            && SameLayout(if grown then rq.bios + [b] else rq.bios, r.bios)
            && r.dataLen == rq.dataLen + (if grown then b.size else 0)
  {
    hide Recounted, SameLayout, SetMixed;
    LayoutRefl(rq.bios);
    if BackCandidate(rq, b) {
      var m, b' := |rq.bios| - 1, Recounted(q, b);
      var rq' := rq.(bios := rq.bios[m := Recounted(q, rq.bios[m])]);
      RecountedBio(q, b);
      ReworkedLayout(q, rq, m);
      OneBioLayout(b, b');
      SameLayoutConcat(rq.bios, rq'.bios, [b], [b']);
      SameLayoutConcat(rq.bios, SetMixed(rq').bios, [b], [b']);
      SameLayoutLen(rq.bios, SetMixed(rq').bios);
    }
  }

  lemma FrontMergeLayout(q: Limits, rq: Request, b: Bio)
    ensures var r := FrontMerge(q, rq, b); var grown := |r.bios| > |rq.bios|;
            && SameLayout(if grown then [b] + rq.bios else rq.bios, r.bios)
            && r.dataLen == rq.dataLen + (if grown then b.size else 0)
  {
    hide Recounted, SameLayout, SetMixed;
    LayoutRefl(rq.bios);
    if FrontCandidate(rq, b) {
      var b' := Recounted(q, b);
      var rq' := rq.(bios := rq.bios[0 := Recounted(q, rq.bios[0])]);
      RecountedBio(q, b);
      ReworkedLayout(q, rq, 0);
      OneBioLayout(b, b');
      SameLayoutConcat([b], [b'], rq.bios, rq'.bios);
      SameLayoutConcat([b], [b'], rq.bios, SetMixed(rq').bios);
      SameLayoutLen(rq.bios, SetMixed(rq').bios);
    }
  }

  lemma OneBioLayout(b: Bio, b': Bio)
    requires SameBio(b, b')
    ensures SameLayout([b], [b'])
  {
  }

  /** What a bio's size has to do with its bvecs is a matter of layout. */
  lemma LayoutSizes(a: seq<Bio>, b: seq<Bio>)
    requires SameLayout(a, b)
    ensures AllRoomy(a) ==> AllRoomy(b)
    ensures AllAgree(a) ==> AllAgree(b)
  {
    forall i | 0 <= i < |b| ensures (Roomy(a[i]) ==> Roomy(b[i])) && (Agrees(a[i]) ==> Agrees(b[i])) {
      assert SameBio(a[i], b[i]);
    }
  }

  /** With bvecs within the sizes of all bios brought in, they are in every request. */
  lemma {:induction false} AlwaysRoomy(q: Limits, h: History)
    requires Feasible(q, h) && forall b :: b in Brought(h) ==> Roomy(b)
    ensures AllRoomy(Run(q, h).bios)
    ensures (forall b :: b in Brought(h) ==> Agrees(b)) ==> AllAgree(Run(q, h).bios)
  {
    hide Inv, Submittable, Roomy, Agrees, BackMerge, FrontMerge, Absorb, Update, SameLayout, Recounted, StaysWithin;
    match h
    case Submit(b) =>
      RecountedBio(q, b);
      OneBioLayout(b, Recounted(q, b));
      LayoutSizes([b], [Recounted(q, b)]);
    case Back(p, b) =>
      AlwaysRoomy(q, p);
      var rq := Run(q, p);
      BackMergeLayout(q, rq, b);
      var r := BackMerge(q, rq, b);
      LayoutSizes(if |r.bios| > |rq.bios| then rq.bios + [b] else rq.bios, r.bios);
    case Front(p, b) =>
      AlwaysRoomy(q, p);
      var rq := Run(q, p);
      FrontMergeLayout(q, rq, b);
      var r := FrontMerge(q, rq, b);
      LayoutSizes(if |r.bios| > |rq.bios| then [b] + rq.bios else rq.bios, r.bios);
    case Merge(p, n) =>
      AlwaysRoomy(q, p);
      AlwaysRoomy(q, n);
      var rq, next := Run(q, p), Run(q, n);
      AbsorbLayout(q, rq, next);
      LayoutSizes(if Absorb(q, rq, next).0 then rq.bios + next.bios else rq.bios, Absorb(q, rq, next).1.bios);
    case Complete(p, n, err) =>
      AlwaysRoomy(q, p);
      InvWellFormed(q, Run(q, p));
      UpdateRoomy(q, Run(q, p), n, err);
  }

  lemma UpdateRoomy(q: Limits, rq: Request, n: nat, err: int)
    requires AllWellFormed(rq.bios) && AllRoomy(rq.bios) && StaysWithin(rq.bios, n)
    ensures AllRoomy(Update(q, rq, n, err).rq.bios)
    ensures AllAgree(rq.bios) ==> AllAgree(Update(q, rq, n, err).rq.bios)
  {
    hide Recalc, Trim, Roomy, Agrees, SameLayout, StaysWithin;
    TrimRoomy(rq.bios, n, err);
    TrimExact(rq.bios, n, err);
    var rest := Trim(rq.bios, n, err).rest;
    if rest != [] {
      RecalcOk(q, rest);
      LayoutSizes(rest, Recalc(q, rest).1);
    }
  }

  /** Bios whose sizes agree with their bvecs: every completion of every history is one the
      loop gets through. */
  lemma {:induction false} AgreeingFeasible(q: Limits, h: History)
    requires forall b :: b in Brought(h) ==> Submittable(q, b) && Agrees(b)
    ensures Feasible(q, h)
  {
    hide Submittable, Agrees, Run, Completes;
    match h
    case Submit(b) =>
    case Back(p, b) => AgreeingFeasible(q, p);
    case Front(p, b) => AgreeingFeasible(q, p);
    case Merge(p, n) =>
      AgreeingFeasible(q, p);
      AgreeingFeasible(q, n);
    case Complete(p, n, err) =>
      AgreeingFeasible(q, p);
      forall b | b in Brought(p) ensures Roomy(b) { AgreeingRoomy(b); }
      AlwaysRoomy(q, p);
      InvWellFormed(q, Run(q, p));
      CompletesRoomy(Run(q, p).bios, n);
      AgreeingStaysWithin(Run(q, p).bios, n);
  }

  lemma AgreeingRoomy(b: Bio)
    requires Agrees(b)
    ensures Roomy(b)
  {
  }

  /** With bvecs within the sizes: the loop gets through exactly when it does not stop behind
      the payload of a bio. */
  lemma CompletesRoomy(bios: seq<Bio>, n: nat)
    requires AllWellFormed(bios) && AllRoomy(bios)
    ensures Completes(bios, n) <==> InPayload(bios, n)
    ensures Completes(bios, n) <==> StaysWithin(bios, n)
  {
    hide StaysWithin, InPayload;
    StaysWithinRoomy(bios, n);
    if bios != [] {
      assert WellFormed(bios[0]) && Roomy(bios[0]);
      BytesFirst(bios[0].live);
    }
  }

  /** Whatever the sizes, the loop gets through whole bios. */
  lemma CompletesWhole(bios: seq<Bio>, k: nat)
    requires AllWellFormed(bios) && 0 < k <= |bios|
    ensures Completes(bios, Sizes(bios[..k]))
  {
    hide StaysWithin;
    WholeBiosStayWithin(bios, k);
    assert bios[..k][0] == bios[0] && WellFormed(bios[0]);
  }

  /** A discard of more bytes than its payload, alone in its request, can be completed up to
      the end of the payload or whole, and not in between. */
  lemma CompletesDiscard(b: Bio, n: nat)
    requires WellFormed(b) && Roomy(b)
    ensures AllWellFormed([b]) && (Completes([b], n) <==> n < Bytes(b.live) || b.size <= n)
  {
    CompletesRoomy([b], n);
  }

  // ----- the data length

  /** No completion finds a first bvec that is longer than all that is left. */
  ghost predicate NeverBotched(q: Limits, h: History)
    requires Feasible(q, h)
  {
    match h
    case Submit(b) => true
    case Back(p, b) => NeverBotched(q, p)
    case Front(p, b) => NeverBotched(q, p)
    case Merge(p, n) => NeverBotched(q, p) && NeverBotched(q, n)
    case Complete(p, n, _) => NeverBotched(q, p) && HeadFits(Run(q, p).bios, n)
  }

  /** The data length of every request is that of its bios, unless a completion was botched. */
  lemma {:induction false} AlwaysMeasured(q: Limits, h: History)
    requires Feasible(q, h) && NeverBotched(q, h)
    ensures Measured(Run(q, h))
  {
    hide Inv, Submittable, Measured, BackMerge, FrontMerge, Absorb, Update, NewRequest, HeadFits, FirstLeft, StaysWithin;
    match h
    case Submit(b) =>
      NewRequestOk(q, b);
    case Back(p, b) =>
      AlwaysMeasured(q, p);
      BackMergeMeasured(q, Run(q, p), b);
    case Front(p, b) =>
      AlwaysMeasured(q, p);
      FrontMergeMeasured(q, Run(q, p), b);
    case Merge(p, n) =>
      AlwaysMeasured(q, p);
      AlwaysMeasured(q, n);
      AbsorbMeasured(q, Run(q, p), Run(q, n));
    case Complete(p, n, err) =>
      AlwaysMeasured(q, p);
      UpdateOk(q, Run(q, p), n, err);
  }

  lemma BackMergeMeasured(q: Limits, rq: Request, b: Bio)
    requires Measured(rq)
    ensures Measured(BackMerge(q, rq, b))
  {
    hide BackMerge, SameLayout;
    var r := BackMerge(q, rq, b);
    BackMergeLayout(q, rq, b);
    SameLayoutSizes(if |r.bios| > |rq.bios| then rq.bios + [b] else rq.bios, r.bios);
    SizesConcat(rq.bios, [b]);
    assert [b][1..] == [];
  }

  lemma FrontMergeMeasured(q: Limits, rq: Request, b: Bio)
    requires Measured(rq)
    ensures Measured(FrontMerge(q, rq, b))
  {
    hide FrontMerge, SameLayout;
    var r := FrontMerge(q, rq, b);
    FrontMergeLayout(q, rq, b);
    SameLayoutSizes(if |r.bios| > |rq.bios| then [b] + rq.bios else rq.bios, r.bios);
    SizesConcat([b], rq.bios);
    assert [b][1..] == [];
  }

  lemma AbsorbMeasured(q: Limits, rq: Request, next: Request)
    requires Measured(rq) && Measured(next)
    ensures Measured(Absorb(q, rq, next).1)
  {
    hide Absorb, SameLayout, Sizes;
    var (ok, r, _) := Absorb(q, rq, next);
    AbsorbLayout(q, rq, next);
    SameLayoutSizes(if ok then rq.bios + next.bios else rq.bios, r.bios);
    SizesConcat(rq.bios, next.bios);
  }

  /** With bvecs within the sizes no completion is botched. */
  lemma {:induction false} RoomyNeverBotched(q: Limits, h: History)
    requires Feasible(q, h) && forall b :: b in Brought(h) ==> Roomy(b)
    ensures NeverBotched(q, h)
  {
    hide Submittable, Roomy, Run, HeadFits, StaysWithin;
    match h
    case Submit(b) =>
    case Back(p, b) => RoomyNeverBotched(q, p);
    case Front(p, b) => RoomyNeverBotched(q, p);
    case Merge(p, n) =>
      RoomyNeverBotched(q, p);
      RoomyNeverBotched(q, n);
    case Complete(p, n, err) =>
      RoomyNeverBotched(q, p);
      AlwaysRoomy(q, p);
      InvWellFormed(q, Run(q, p));
      RoomyHeadFits(Run(q, p).bios, n);
  }

  /** Two adjacent discards of one sector each, with a payload of a 4096-byte logical block:
      completing the first leaves the request with the length of the second one's payload. */
  lemma ShortDiscardsBotched(q: Limits)
    requires q == Limits(true, 65536, 65536, 1000, 128, 128, 1024)
    ensures var a, b := ShortDiscard(0, 0), ShortDiscard(1, 1);
            var h := Complete(Back(Submit(a), b), 512, 0);
            && Feasible(q, h) && !NeverBotched(q, h)
            && Run(q, h).dataLen == 4096 && Sizes(Run(q, h).bios) == 512
  {
    hide Inv, Greedy, SegsOk, Update, HeadFits, FirstLeft, StaysWithin;
    var a, b := ShortDiscard(0, 0), ShortDiscard(1, 1);
    OneBvec(q, a.live[0]);
    OneBvec(q, b.live[0]);
    var p := Back(Submit(a), b);
    assert Run(q, p) == Request([a, b], 0, 1024, 2, a.ff, false, false);
    ShortDiscardLeft(a, b);
    ShortDiscardUpdate(q, Run(q, p), a, b);
  }

  /** A write, such a discard and another write, of one sector each, merged as requests:
      completed one after the other, the first two leave a length that the last one does not
      have; completed together they leave the right one. */
  lemma TwoStepsBotched(q: Limits)
    requires q == Limits(true, 65536, 65536, 1000, 128, 128, 1024)
    ensures var a, b, c := OneSector(0, 0), ShortDiscard(1, 1), OneSector(2, 2);
            var h := Merge(Merge(Submit(a), Submit(b)), Submit(c));
            && Feasible(q, Complete(Complete(h, 512, 0), 512, 0)) && Feasible(q, Complete(h, 1024, 0))
            && Run(q, Complete(Complete(h, 512, 0), 512, 0)).dataLen == 3584
            && Run(q, Complete(h, 1024, 0)).dataLen == 512
  {
    hide Run, Feasible, Inv, Update, FirstLeft, StaysWithin, Completes, AllWellFormed, Trim, Sizes;
    var a, b, c := OneSector(0, 0), ShortDiscard(1, 1), OneSector(2, 2);
    var h := Merge(Merge(Submit(a), Submit(b)), Submit(c));
    ThreeMerged(q, a, b, c);
    ThreeSectors(a, b, c);
    ThreeCompleted(q, Run(q, h), a, b, c);
    RunOn(q, h, 512);
    RunOn(q, Complete(h, 512, 0), 512);
    RunOn(q, h, 1024);
  }

  lemma RunOn(q: Limits, p: History, n: nat)
    requires Feasible(q, p) && AllWellFormed(Run(q, p).bios) && Completes(Run(q, p).bios, n)
    ensures Feasible(q, Complete(p, n, 0)) && Run(q, Complete(p, n, 0)) == Update(q, Run(q, p), n, 0).rq
  {
    hide Inv, StaysWithin, Update;
  }

  lemma ThreeMerged(q: Limits, a: Bio, b: Bio, c: Bio)
    requires q == Limits(true, 65536, 65536, 1000, 128, 128, 1024)
    requires a == OneSector(0, 0) && b == ShortDiscard(1, 1) && c == OneSector(2, 2)
    ensures var h := Merge(Merge(Submit(a), Submit(b)), Submit(c));
            Feasible(q, h) && Run(q, h) == Request([a, b, c], 0, 1536, 3, a.ff, false, false)
  {
    hide Run, Feasible, Absorb;
    var ff := a.ff;
    RunFrom(q, a);
    RunFrom(q, b);
    RunFrom(q, c);
    RunJoined(q, Submit(a), Submit(b));
    JoinApart(q, Request([a], 0, 512, 1, ff, false, false), Request([b], 1, 512, 1, ff, false, false));
    assert [a] + [b] == [a, b];
    RunJoined(q, Merge(Submit(a), Submit(b)), Submit(c));
    JoinApart(q, Request([a, b], 0, 1024, 2, ff, false, false), Request([c], 2, 512, 1, ff, false, false));
    assert [a, b] + [c] == [a, b, c];
  }

  lemma RunFrom(q: Limits, b: Bio)
    requires |b.live| == 1 && b.live[0].len <= q.maxSegSize && b.segValid && b.phys == 1 && !b.ahead
    requires b.front == b.back == b.live[0].len && b.size > 0
    ensures Feasible(q, Submit(b)) && Run(q, Submit(b)) == Request([b], b.sector, b.size, 1, b.ff, false, false)
  {
    hide Inv, Accounted;
    OneBvec(q, b.live[0]);
    assert b.live == [b.live[0]];
  }

  lemma RunJoined(q: Limits, p: History, n: History)
    requires Feasible(q, p) && Feasible(q, n)
    ensures Feasible(q, Merge(p, n)) && Run(q, Merge(p, n)) == Absorb(q, Run(q, p), Run(q, n)).1
  {
    hide Inv, Absorb;
  }

  /** Two requests whose data do not touch, with the same failfast bits throughout. */
  lemma JoinApart(q: Limits, rq: Request, next: Request)
    requires MergeCandidates(q, rq, next) && !rq.mixed && !next.mixed && rq.ff == next.ff
    requires !PhysContig(q, rq.bios[|rq.bios|-1], next.bios[0]) && !TooManySegs(q, rq.nrSegs + next.nrSegs)
    ensures Absorb(q, rq, next).1 ==
            rq.(bios := rq.bios + next.bios, dataLen := rq.dataLen + next.dataLen, nrSegs := rq.nrSegs + next.nrSegs)
  {
    hide PhysContig, TooManySegs, MergeCandidates;
  }

  lemma ThreeCompleted(q: Limits, rq: Request, a: Bio, b: Bio, c: Bio)
    requires Inv(q, rq) && rq.bios == [a, b, c] && rq.dataLen == 1536 && AllWellFormed(rq.bios) && Sizes(rq.bios) == 1536
    requires b.size == 512 && |c.live| == 1 && c.live[0].len == 512 && c.size == 512
    requires Completes(rq.bios, 512) && Completes(rq.bios, 1024) && Trim(rq.bios, 512, 0).rest == [b, c]
    requires FirstLeft(rq.bios, 512) == 4096 && FirstLeft(rq.bios, 1024) == 512
    ensures var u := Update(q, rq, 512, 0).rq;
            && AllWellFormed(u.bios) && Completes(u.bios, 512)
            && Update(q, u, 512, 0).rq.dataLen == 3584 && Update(q, rq, 1024, 0).rq.dataLen == 512
  {
    hide Inv, Trim, Update, HeadFits, FirstLeft, StaysWithin, Unhinted, Sizes;
    UpdateOk(q, rq, 512, 0);
    UpdateOk(q, rq, 1024, 0);
    var u := Update(q, rq, 512, 0).rq;
    UpdateChain(q, rq, 512, 0);
    UnhintedLayout([b, c], u.bios);
    TwoLeft(u.bios, b, c);
    UpdateOk(q, u, 512, 0);
  }

  lemma TwoLeft(bios: seq<Bio>, b: Bio, c: Bio)
    requires |bios| == 2 && SameBio(b, bios[0]) && SameBio(c, bios[1]) && AllWellFormed(bios)
    requires b.size == 512 && |c.live| == 1 && c.live[0].len == 512 && c.size == 512
    ensures Completes(bios, 512) && FirstLeft(bios, 512) == 512 && Sizes(bios) == 1024
  {
    var d := bios[1];
    assert bios[1..] == [d] && [d][1..] == [];
    assert StaysWithin([d], 0);
    BytesOne(d.live[0]);
    assert d.live == [d.live[0]];
    assert Cut(d.live, 0)[0].len == 512;
    assert FirstLeft([d], 0) == 512;
    assert Sizes([d]) == 512;
  }

  function OneSector(id: nat, sector: nat): Bio {
    Bio(id, sector, 512, [Bvec(8192 * id, 512)], FailFast(false, false, false), false, true, 512, 512, 1, true)
  }

  lemma OneBvec(q: Limits, v: Bvec)
    requires q.maxSegSize >= v.len
    ensures Accounted(q, [v], 1, v.len, v.len)
  {
    BytesOne(v);
    FlattenOne([v]);
    assert Witnesses(q, [[v]], [v], 1, v.len, v.len);
  }

  lemma ThreeSectors(a: Bio, b: Bio, c: Bio)
    requires a.size == b.size == c.size == 512 && |a.live| == |b.live| == |c.live| == 1
    requires c.live[0].len == 512 && b.live[0].len == 4096
    ensures AllWellFormed([a, b, c]) && Completes([a, b, c], 512) && Completes([a, b, c], 1024) && Sizes([a, b, c]) == 1536
    ensures FirstLeft([a, b, c], 512) == 4096 && FirstLeft([a, b, c], 1024) == 512 && Trim([a, b, c], 512, 0).rest == [b, c]
  {
    hide Cut, Bytes, Within, EndStatus;
    var bios, rest := [a, b, c], [b, c];
    assert bios[1..] == rest && AllWellFormed(rest) && AllWellFormed(bios);
    TwoLeft(rest, b, c);
    FirstBvecLeft(b, [c]);
    assert [b] + [c] == rest;
    assert StaysWithin(rest, 0) && StaysWithin(rest, 512);
    TrimZero(rest, 0);
  }

  lemma FirstBvecLeft(b: Bio, rest: seq<Bio>)
    requires WellFormed(b) && AllWellFormed([b] + rest)
    ensures StaysWithin([b] + rest, 0) && FirstLeft([b] + rest, 0) == b.live[0].len
  {
    BytesFirst(b.live);
    CutNothing(b.live);
  }

  function ShortDiscard(id: nat, sector: nat): Bio {
    Bio(id, sector, 512, [Bvec(8192 * id, 4096)], FailFast(false, false, false), false, true, 4096, 4096, 1, true)
  }

  lemma ShortDiscardLeft(a: Bio, b: Bio)
    requires a.size == 512 && b.size == 512 && |a.live| == |b.live| == 1 && b.live[0].len == 4096
    ensures AllWellFormed([a, b]) && Completes([a, b], 512)
    ensures FirstLeft([a, b], 512) == 4096 && Sizes([a, b]) == 1024 && !HeadFits([a, b], 512)
  {
    assert [a, b][1..] == [b] && [b][1..] == [];
    assert Sizes([b]) == 512;
    assert StaysWithin([b], 0);
    BytesOne(b.live[0]);
    assert b.live == [b.live[0]];
    assert Cut(b.live, 0)[0].len == 4096;
    assert FirstLeft([b], 0) == 4096;
  }

  lemma ShortDiscardUpdate(q: Limits, rq: Request, a: Bio, b: Bio)
    requires Inv(q, rq) && Measured(rq) && rq.bios == [a, b] && Sizes(rq.bios) == 1024
    requires Completes(rq.bios, 512) && !HeadFits(rq.bios, 512) && FirstLeft(rq.bios, 512) == 4096
    ensures var r := Update(q, rq, 512, 0).rq; r.dataLen == 4096 && Sizes(r.bios) == 512
  {
    hide Inv, Trim, Recalc, SameLayout, FirstLeft, HeadFits, StaysWithin;
    UpdateOk(q, rq, 512, 0);
    InvWellFormed(q, rq);
    TrimExact(rq.bios, 512, 0);
    var rest := Trim(rq.bios, 512, 0).rest;
    RecalcOk(q, rest);
    SameLayoutSizes(rest, Recalc(q, rest).1);
  }

  // ----- sectors

  ghost predicate WholeSectors(h: History) {
    match h
    case Submit(b) => b.size % 512 == 0
    case Back(p, b) => WholeSectors(p) && b.size % 512 == 0
    case Front(p, b) => WholeSectors(p) && b.size % 512 == 0
    case Merge(p, n) => WholeSectors(p) && WholeSectors(n)
    case Complete(p, n, _) => WholeSectors(p) && n % 512 == 0
  }

  lemma SameLayoutGapFree(a: seq<Bio>, b: seq<Bio>)
    requires SameLayout(a, b) && GapFree(a)
    ensures GapFree(b)
  {
    forall i {:trigger b[i]} | 0 <= i < |b| - 1 ensures b[i].sector + b[i].size / 512 == b[i+1].sector {
      assert SameBio(a[i], b[i]) && SameBio(a[i+1], b[i+1]);
    }
    forall i | 0 <= i < |b| ensures b[i].size % 512 == 0 {
      assert SameBio(a[i], b[i]);
    }
  }

  lemma GapFreeTail(bios: seq<Bio>)
    requires GapFree(bios) && bios != []
    ensures GapFree(bios[1..]) && GapFree([bios[0]]) && bios[0].size % 512 == 0
    ensures |bios| > 1 ==> bios[0].sector + bios[0].size / 512 == bios[1].sector
  {
    var rest := bios[1..];
    forall i {:trigger rest[i]} | 0 <= i < |rest| - 1
      ensures rest[i].sector + rest[i].size / 512 == rest[i+1].sector
    {
      assert rest[i] == bios[i+1] && rest[i+1] == bios[i+1+1];
    }
    assert |bios| > 1 ==> bios[0].sector + bios[0].size / 512 == bios[0+1].sector;
  }

  /** A gap-free chain ends as many sectors after its start as it has. */
  lemma {:induction false} ChainEnd(bios: seq<Bio>)
    requires bios != [] && GapFree(bios)
    ensures Sizes(bios) % 512 == 0
    ensures bios[0].sector + Sizes(bios) / 512 == bios[|bios|-1].sector + bios[|bios|-1].size / 512
    decreases |bios|
  {
    hide GapFree, Sizes;
    GapFreeTail(bios);
    SizesFirst(bios);
    var b, rest := bios[0], bios[1..];
    if |bios| > 1 {
      ChainEnd(rest);
      assert rest[0] == bios[1] && rest[|rest|-1] == bios[|bios|-1];
      SectorsAdd(b.size, Sizes(rest));
    } else {
      assert rest == [];
      SizesNone();
    }
  }

  lemma SizesFirst(bios: seq<Bio>)
    requires bios != []
    ensures Sizes(bios) == bios[0].size + Sizes(bios[1..])
  {
  }

  lemma SectorsAdd(a: nat, b: nat)
    requires a % 512 == 0 && b % 512 == 0
    ensures (a + b) % 512 == 0 && (a + b) / 512 == a / 512 + b / 512
  {
  }

  lemma GapFreeOne(b: Bio)
    requires b.size % 512 == 0
    ensures GapFree([b])
  {
  }

  lemma GapFreeConcat(a: seq<Bio>, b: seq<Bio>)
    requires GapFree(a) && GapFree(b)
    requires a != [] && b != [] ==> a[|a|-1].sector + a[|a|-1].size / 512 == b[0].sector
    ensures GapFree(a + b)
  {
    var c := a + b;
    forall i {:trigger c[i]} | 0 <= i < |c| - 1 ensures c[i].sector + c[i].size / 512 == c[i+1].sector {
      NoGapAt(a, b, i);
    }
  }

  lemma NoGapAt(a: seq<Bio>, b: seq<Bio>, i: nat)
    requires GapFree(a) && GapFree(b) && i < |a| + |b| - 1
    requires a != [] && b != [] ==> a[|a|-1].sector + a[|a|-1].size / 512 == b[0].sector
    ensures (a + b)[i].sector + (a + b)[i].size / 512 == (a + b)[i+1].sector
  {
    hide GapFree;
    if i < |a| - 1 {
      GapFreeAt(a, i);
    } else if i >= |a| {
      GapFreeAt(b, i - |a|);
    }
  }

  lemma GapFreeAt(bios: seq<Bio>, i: nat)
    requires GapFree(bios) && i < |bios| - 1
    ensures bios[i].sector + bios[i].size / 512 == bios[i+1].sector
  {
  }

  lemma NextSector(rq: Request)
    requires Measured(rq) && Placed(rq) && rq.bios != []
    ensures var l := rq.bios[|rq.bios|-1];
            rq.dataLen >= 0 && rq.sector + Sectors(rq.dataLen) == l.sector + l.size / 512
  {
    ChainEnd(rq.bios);
  }

  lemma RecountedBio(q: Limits, b: Bio)
    ensures SameBio(b, Recounted(q, b))
  {
    RecountedKeeps(q, b);
  }

  lemma {:induction false} TrimPlaced(bios: seq<Bio>, n: nat, err: int)
    requires AllWellFormed(bios) && StaysWithin(bios, n) && GapFree(bios) && n % 512 == 0 && n < Sizes(bios)
    ensures var rest := Trim(bios, n, err).rest;
            rest != [] && GapFree(rest) && rest[0].sector == bios[0].sector + n / 512
    decreases |bios|
  {
    hide WellFormed, EndStatus, GapFree, Trim, Within;
    TrimExact(bios, n, err);
    SizesNone();
    var b, rest := bios[0], bios[1..];
    assert bios == [b] + rest;
    assert WellFormed(b);
    GapFreeTail(bios);
    if b.size <= n {
      TrimPlaced(rest, n - b.size, err);
      TrimWhole(bios, n, err);
    } else {
      TrimPlacedPartial(b, rest, n, err);
    }
  }

  lemma TrimPlacedPartial(b: Bio, rest: seq<Bio>, n: nat, err: int)
    requires AllWellFormed([b] + rest) && StaysWithin([b] + rest, n)
    requires GapFree([b] + rest) && n % 512 == 0 && n < b.size
    ensures var r := Trim([b] + rest, n, err).rest;
            r != [] && GapFree(r) && r[0].sector == b.sector + n / 512
  {
    hide Cut, Bytes, GapFree, Trim, StaysWithin, Within;
    var bios := [b] + rest;
    assert WellFormed(bios[0]) && bios[1..] == rest;
    GapFreeTail(bios);
    TrimInside(b, rest, n, err);
    var c := Advance(b, n, err);
    assert c.size % 512 == 0 && c.sector + c.size / 512 == b.sector + b.size / 512;
    GapFreeOne(c);
    GapFreeConcat([c], rest);
  }

  lemma BackMergePlaced(q: Limits, rq: Request, b: Bio)
    requires Measured(rq) && Placed(rq) && b.size % 512 == 0
    ensures Placed(BackMerge(q, rq, b))
  {
    hide GapFree, Recounted, SameLayout, SetMixed;
    if BackCandidate(rq, b) {
      NextSector(rq);
      RecountedBio(q, b);
      var m := |rq.bios| - 1;
      var rq' := rq.(bios := rq.bios[m := Recounted(q, rq.bios[m])]);
      ReworkedLayout(q, rq, m);
      AppendPlaced(rq.bios, rq'.bios, Recounted(q, b));
      AppendPlaced(rq.bios, SetMixed(rq').bios, Recounted(q, b));
    }
  }

  /** A recounted bio, and marking the request as mixed, leave the layout alone. */
  lemma ReworkedLayout(q: Limits, rq: Request, m: nat)
    requires m < |rq.bios|
    ensures var rq' := rq.(bios := rq.bios[m := Recounted(q, rq.bios[m])]);
            && SameLayout(rq.bios, rq'.bios) && SameLayout(rq.bios, SetMixed(rq').bios)
            && SetMixed(rq').sector == rq.sector && SetMixed(rq').dataLen == rq.dataLen
  {
    hide SameLayout, SetMixed, Recounted;
    var r := Recounted(q, rq.bios[m]);
    RecountedBio(q, rq.bios[m]);
    var rq' := rq.(bios := rq.bios[m := r]);
    ReplacedLayout(rq.bios, m, r);
    SetMixedLayout(rq');
    SameLayoutTrans(rq.bios, rq'.bios, SetMixed(rq').bios);
  }

  lemma AppendPlaced(a: seq<Bio>, a': seq<Bio>, b: Bio)
    requires SameLayout(a, a') && GapFree(a) && a != [] && b.size % 512 == 0
    requires a[|a|-1].sector + a[|a|-1].size / 512 == b.sector
    ensures GapFree(a') && GapFree(a' + [b]) && a' != [] && a'[0].sector == a[0].sector && (a' + [b])[0] == a'[0]
  {
    hide GapFree, SameLayout;
    SameLayoutGapFree(a, a');
    LayoutAt(a, a', 0);
    LayoutAt(a, a', |a| - 1);
    GapFreeOne(b);
    GapFreeConcat(a', [b]);
  }

  lemma PrependPlaced(a: seq<Bio>, a': seq<Bio>, b: Bio)
    requires SameLayout(a, a') && GapFree(a) && a != [] && b.size % 512 == 0
    requires b.sector + b.size / 512 == a[0].sector
    ensures GapFree(a') && GapFree([b] + a') && a' != [] && a'[0].sector == a[0].sector
  {
    hide GapFree, SameLayout;
    SameLayoutGapFree(a, a');
    LayoutAt(a, a', 0);
    GapFreeOne(b);
    GapFreeConcat([b], a');
  }

  lemma LayoutAt(a: seq<Bio>, b: seq<Bio>, i: nat)
    requires SameLayout(a, b) && i < |a|
    ensures |b| == |a| && SameBio(a[i], b[i])
  {
  }

  lemma ReplacedLayout(bios: seq<Bio>, m: nat, b: Bio)
    requires m < |bios| && SameBio(bios[m], b)
    ensures SameLayout(bios, bios[m := b])
  {
  }

  lemma SetMixedLayout(rq: Request)
    ensures SameLayout(rq.bios, SetMixed(rq).bios) && SetMixed(rq).sector == rq.sector && SetMixed(rq).dataLen == rq.dataLen
  {
  }

  lemma SameLayoutTrans(a: seq<Bio>, b: seq<Bio>, c: seq<Bio>)
    requires SameLayout(a, b) && SameLayout(b, c)
    ensures SameLayout(a, c)
  {
    forall i | 0 <= i < |a| ensures SameBio(a[i], c[i]) {
      assert SameBio(a[i], b[i]) && SameBio(b[i], c[i]);
    }
  }

  lemma FrontMergePlaced(q: Limits, rq: Request, b: Bio)
    requires Placed(rq) && b.size % 512 == 0
    ensures Placed(FrontMerge(q, rq, b))
  {
    hide GapFree, Recounted, SameLayout, SetMixed;
    if FrontCandidate(rq, b) {
      RecountedBio(q, b);
      var rq' := rq.(bios := rq.bios[0 := Recounted(q, rq.bios[0])]);
      ReworkedLayout(q, rq, 0);
      PrependPlaced(rq.bios, rq'.bios, Recounted(q, b));
      PrependPlaced(rq.bios, SetMixed(rq').bios, Recounted(q, b));
    }
  }

  lemma AbsorbLayout(q: Limits, rq: Request, next: Request)
    ensures var (ok, r, _) := Absorb(q, rq, next);
            && r.sector == rq.sector && (ok ==> MergeCandidates(q, rq, next))
            && r.dataLen == rq.dataLen + (if ok then next.dataLen else 0)
            && SameLayout(if ok then rq.bios + next.bios else rq.bios, r.bios)
  {
    hide PhysContig, TooManySegs, JoinHints, MixForMerge, SameLayout;
    LayoutRefl(rq.bios);
    LayoutRefl(next.bios);
    if MergeCandidates(q, rq, next) {
      var contig := PhysContig(q, rq.bios[|rq.bios|-1], next.bios[0]);
      var (a, b) := if contig then JoinHints(rq, next) else (rq, next);
      var (a', b') := MixForMerge(a, b);
      JoinHintsLayout(rq, next);
      MixLayout(a, b);
      SameLayoutTrans(rq.bios, a.bios, a'.bios);
      SameLayoutTrans(next.bios, b.bios, b'.bios);
      SameLayoutConcat(rq.bios, a'.bios, next.bios, b'.bios);
    }
  }

  lemma LayoutRefl(a: seq<Bio>)
    ensures SameLayout(a, a)
  {
  }

  lemma JoinHintsLayout(rq: Request, next: Request)
    requires rq.bios != [] && next.bios != []
    ensures var (a, b) := JoinHints(rq, next);
            && SameLayout(rq.bios, a.bios) && SameLayout(next.bios, b.bios) && a.sector == rq.sector
            && a.dataLen == rq.dataLen && b.dataLen == next.dataLen
  {
  }

  lemma MixLayout(a: Request, b: Request)
    ensures var (x, y) := MixForMerge(a, b);
            && SameLayout(a.bios, x.bios) && SameLayout(b.bios, y.bios) && x.sector == a.sector
            && x.dataLen == a.dataLen && y.dataLen == b.dataLen
  {
    SetMixedLayout(a);
    SetMixedLayout(b);
  }

  lemma SameLayoutConcat(a: seq<Bio>, a': seq<Bio>, b: seq<Bio>, b': seq<Bio>)
    requires SameLayout(a, a') && SameLayout(b, b')
    ensures SameLayout(a + b, a' + b')
  {
    forall i | 0 <= i < |a + b| ensures SameBio((a + b)[i], (a' + b')[i]) {
      if i < |a| {
        assert SameBio(a[i], a'[i]);
      } else {
        assert SameBio(b[i - |a|], b'[i - |a|]);
      }
    }
  }

  lemma AbsorbPlaced(q: Limits, rq: Request, next: Request)
    requires Measured(rq) && Placed(rq) && Placed(next)
    ensures Placed(Absorb(q, rq, next).1)
  {
    hide Measured, GapFree, PhysContig, MixForMerge, JoinHints, Absorb, SameLayout;
    var (ok, r, _) := Absorb(q, rq, next);
    AbsorbLayout(q, rq, next);
    if ok {
      NextSector(rq);
      GapFreeConcat(rq.bios, next.bios);
      SameLayoutGapFree(rq.bios + next.bios, r.bios);
      SameStart(rq.bios + next.bios, r.bios);
    } else {
      SameLayoutGapFree(rq.bios, r.bios);
      SameStart(rq.bios, r.bios);
    }
  }

  lemma SameStart(a: seq<Bio>, b: seq<Bio>)
    requires SameLayout(a, b)
    ensures (a == [] <==> b == []) && (a != [] ==> a[0].sector == b[0].sector)
  {
    assert a != [] ==> SameBio(a[0], b[0]);
  }

  lemma UpdatePlaced(q: Limits, rq: Request, n: nat, err: int)
    requires Inv(q, rq) && Placed(rq) && n % 512 == 0 && AllWellFormed(rq.bios) && StaysWithin(rq.bios, n)
    ensures Placed(Update(q, rq, n, err).rq)
  {
    hide Inv, GapFree, Recalc, Trim, Sizes, HeadFits, FirstLeft, StaysWithin;
    NoSizes(rq.bios);
    UpdateOk(q, rq, n, err);
    if n < Sizes(rq.bios) {
      TrimPlaced(rq.bios, n, err);
      var rest := Trim(rq.bios, n, err).rest;
      TrimExact(rq.bios, n, err);
      RecalcOk(q, rest);
      SameLayoutGapFree(rest, Recalc(q, rest).1);
      SameStart(rest, Recalc(q, rest).1);
    } else {
      GapFreeNone();
      TrimExact(rq.bios, n, err);
    }
  }

  lemma GapFreeNone()
    ensures GapFree([])
  {
  }

  /** With whole-sector bios and completions, every request is a gap-free ordered chain of
      bios that starts at its sector. */
  lemma {:induction false} AlwaysPlaced(q: Limits, h: History)
    requires Feasible(q, h) && NeverBotched(q, h) && WholeSectors(h)
    ensures Placed(Run(q, h)) && Measured(Run(q, h))
  {
    hide Placed, Inv, NewRequest, BackMerge, FrontMerge, Absorb, Update, Submittable, Measured, HeadFits, StaysWithin;
    AlwaysMeasured(q, h);
    match h
    case Submit(b) =>
      NewRequestOk(q, b);
    case Back(p, b) =>
      AlwaysPlaced(q, p);
      BackMergePlaced(q, Run(q, p), b);
    case Front(p, b) =>
      AlwaysPlaced(q, p);
      FrontMergePlaced(q, Run(q, p), b);
    case Merge(p, n) =>
      AlwaysPlaced(q, p);
      AlwaysPlaced(q, n);
      AbsorbPlaced(q, Run(q, p), Run(q, n));
    case Complete(p, n, err) =>
      AlwaysPlaced(q, p);
      InvWellFormed(q, Run(q, p));
      UpdatePlaced(q, Run(q, p), n, err);
  }

  /** The sectors a request covers, `[sector, sector + dataLen / 512)`, are those of its bios. */
  lemma CoversItsSectors(q: Limits, h: History)
    requires Feasible(q, h) && NeverBotched(q, h) && WholeSectors(h) && Run(q, h).bios != []
    ensures var rq := Run(q, h); var l := rq.bios[|rq.bios|-1];
            && GapFree(rq.bios) && rq.sector == rq.bios[0].sector && rq.dataLen >= 0
            && rq.sector + Sectors(rq.dataLen) == l.sector + l.size / 512
  {
    hide Run, Inv, GapFree, Feasible, NeverBotched;
    AlwaysPlaced(q, h);
    NextSector(Run(q, h));
  }

  // ----- no bio is lost or doubled

  lemma SameLayoutIds(a: seq<Bio>, b: seq<Bio>)
    requires SameLayout(a, b)
    ensures Ids(a) == Ids(b) && |a| == |b|
  {
    forall i | 0 <= i < |a| ensures Ids(a)[i] == Ids(b)[i] { assert SameBio(a[i], b[i]); }
  }

  lemma IdsConcat(a: seq<Bio>, b: seq<Bio>)
    ensures Ids(a + b) == Ids(a) + Ids(b)
  {
  }

  /** A back merge appends the bio or leaves the chain alone. */
  lemma BackMergeIds(q: Limits, rq: Request, b: Bio)
    ensures var r := BackMerge(q, rq, b);
            && (|r.bios| == |rq.bios| || |r.bios| == |rq.bios| + 1)
            && Ids(r.bios) == (if |r.bios| > |rq.bios| then Ids(rq.bios) + [b.id] else Ids(rq.bios))
            && Vecs(r.bios) == (if |r.bios| > |rq.bios| then Vecs(rq.bios) + b.live else Vecs(rq.bios))
  {
    hide BackMerge, SameLayout, Vecs, Ids;
    BackMergeLayout(q, rq, b);
    var r := BackMerge(q, rq, b);
    var chain := if |r.bios| > |rq.bios| then rq.bios + [b] else rq.bios;
    SameLayoutIds(chain, r.bios);
    SameLayoutVecs(chain, r.bios);
    IdsConcat(rq.bios, [b]);
    OneId(b);
    VecsConcat(rq.bios, [b]);
    VecsOne(b);
  }

  /** A front merge prepends the bio or leaves the chain alone. */
  lemma FrontMergeIds(q: Limits, rq: Request, b: Bio)
    ensures var r := FrontMerge(q, rq, b);
            && (|r.bios| == |rq.bios| || |r.bios| == |rq.bios| + 1)
            && Ids(r.bios) == (if |r.bios| > |rq.bios| then [b.id] + Ids(rq.bios) else Ids(rq.bios))
            && Vecs(r.bios) == (if |r.bios| > |rq.bios| then b.live + Vecs(rq.bios) else Vecs(rq.bios))
  {
    hide FrontMerge, SameLayout, Vecs, Ids;
    FrontMergeLayout(q, rq, b);
    var r := FrontMerge(q, rq, b);
    var chain := if |r.bios| > |rq.bios| then [b] + rq.bios else rq.bios;
    SameLayoutIds(chain, r.bios);
    SameLayoutVecs(chain, r.bios);
    IdsConcat([b], rq.bios);
    OneId(b);
    VecsConcat([b], rq.bios);
    VecsOne(b);
  }

  /** Merging requests joins the chains or leaves the first alone. */
  lemma AbsorbIds(q: Limits, rq: Request, next: Request)
    ensures var (ok, r, _) := Absorb(q, rq, next);
            && Ids(r.bios) == (if ok then Ids(rq.bios) + Ids(next.bios) else Ids(rq.bios))
            && Vecs(r.bios) == (if ok then Vecs(rq.bios) + Vecs(next.bios) else Vecs(rq.bios))
  {
    hide Absorb, SameLayout, Vecs, Ids;
    var (ok, r, _) := Absorb(q, rq, next);
    AbsorbLayout(q, rq, next);
    SameLayoutIds(if ok then rq.bios + next.bios else rq.bios, r.bios);
    SameLayoutVecs(if ok then rq.bios + next.bios else rq.bios, r.bios);
    IdsConcat(rq.bios, next.bios);
    VecsConcat(rq.bios, next.bios);
  }

  lemma UpdateIds(q: Limits, rq: Request, n: nat, err: int)
    requires AllWellFormed(rq.bios) && StaysWithin(rq.bios, n)
    ensures var u := Update(q, rq, n, err); EndedIds(u.ended) + Ids(u.rq.bios) == Ids(rq.bios)
  {
    hide Recalc, Trim, Sizes, SameLayout, Ids, EndedIds, StaysWithin;
    TrimExact(rq.bios, n, err);
    var rest := Trim(rq.bios, n, err).rest;
    if rq.bios == [] {
      NoIds();
    } else if rest != [] {
      RecalcOk(q, rest);
      SameLayoutIds(rest, Recalc(q, rest).1);
    }
  }

  lemma NoIds()
    ensures Ids([]) == [] && EndedIds([]) == []
  {
  }

  /** The bios a history has brought into its request: all but those whose merge was refused. */
  ghost function Taken(q: Limits, h: History): multiset<nat>
    requires Feasible(q, h)
  {
    match h
    case Submit(b) => multiset{b.id}
    case Back(p, b) => Taken(q, p) + if |Run(q, h).bios| > |Run(q, p).bios| then multiset{b.id} else multiset{}
    case Front(p, b) => Taken(q, p) + if |Run(q, h).bios| > |Run(q, p).bios| then multiset{b.id} else multiset{}
    case Merge(p, n) => Taken(q, p) + if Absorb(q, Run(q, p), Run(q, n)).0 then Taken(q, n) else multiset{}
    case Complete(p, _, _) => Taken(q, p)
  }

  /** The bios that have been ended on the way. */
  ghost function Finished(q: Limits, h: History): multiset<nat>
    requires Feasible(q, h)
  {
    match h
    case Submit(b) => multiset{}
    case Back(p, b) => Finished(q, p)
    case Front(p, b) => Finished(q, p)
    case Merge(p, n) => Finished(q, p) + if Absorb(q, Run(q, p), Run(q, n)).0 then Finished(q, n) else multiset{}
    case Complete(p, n, err) =>
      InvWellFormed(q, Run(q, p));
      Finished(q, p) + multiset(EndedIds(Update(q, Run(q, p), n, err).ended))
  }

  ghost predicate Conserved(q: Limits, h: History)
    requires Feasible(q, h)
  {
    multiset(Ids(Run(q, h).bios)) + Finished(q, h) == Taken(q, h)
  }

  /** Every bio that went into a request is still in its chain or has been ended, once. */
  lemma {:induction false} EveryBioOnce(q: Limits, h: History)
    requires Feasible(q, h)
    ensures Conserved(q, h)
  {
    hide Run, Taken, Finished, Conserved;
    match h
    case Submit(b) => SubmitOnce(q, b);
    case Back(p, b) => {
      EveryBioOnce(q, p);
      BackOnce(q, p, b);
    }
    case Front(p, b) => {
      EveryBioOnce(q, p);
      FrontOnce(q, p, b);
    }
    case Merge(p, n) => {
      EveryBioOnce(q, p);
      EveryBioOnce(q, n);
      MergeOnce(q, p, n);
    }
    case Complete(p, n, err) => {
      EveryBioOnce(q, p);
      CompleteOnce(q, p, n, err);
    }
  }

  lemma SubmitOnce(q: Limits, b: Bio)
    requires Submittable(q, b)
    ensures Conserved(q, Submit(b))
  {
    hide Inv, Ids, Recounted;
    RecountedBio(q, b);
    OneId(Recounted(q, b));
  }

  lemma BackOnce(q: Limits, p: History, b: Bio)
    requires Feasible(q, p) && Submittable(q, b) && Conserved(q, p)
    ensures Conserved(q, Back(p, b))
  {
    hide Inv, Ids, Vecs, BackMerge;
    BackMergeIds(q, Run(q, p), b);
  }

  lemma FrontOnce(q: Limits, p: History, b: Bio)
    requires Feasible(q, p) && Submittable(q, b) && Conserved(q, p)
    ensures Conserved(q, Front(p, b))
  {
    hide Inv, Ids, Vecs, FrontMerge;
    FrontMergeIds(q, Run(q, p), b);
  }

  lemma MergeOnce(q: Limits, p: History, n: History)
    requires Feasible(q, p) && Feasible(q, n) && Conserved(q, p) && Conserved(q, n)
    ensures Conserved(q, Merge(p, n))
  {
    hide Inv, Ids, Vecs, Absorb;
    AbsorbIds(q, Run(q, p), Run(q, n));
    BagConcat(Ids(Run(q, p).bios), Ids(Run(q, n).bios));
  }

  lemma CompleteOnce(q: Limits, p: History, n: nat, err: int)
    requires Feasible(q, Complete(p, n, err)) && Conserved(q, p)
    ensures Conserved(q, Complete(p, n, err))
  {
    hide Inv, Ids, EndedIds, Update, StaysWithin;
    InvWellFormed(q, Run(q, p));
    UpdateIds(q, Run(q, p), n, err);
    var u := Update(q, Run(q, p), n, err);
    BagConcat(EndedIds(u.ended), Ids(u.rq.bios));
  }

  lemma BagConcat(a: seq<nat>, b: seq<nat>)
    ensures multiset(a + b) == multiset(a) + multiset(b)
  {
  }

  lemma OneId(b: Bio)
    ensures Ids([b]) == [b.id]
  {
  }
}
