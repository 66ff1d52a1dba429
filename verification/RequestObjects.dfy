/** The request as the block layer holds it: an object whose fields the merge and
    completion paths rewrite.  Each method is tied to the function of the old value that
    specifies it; what those functions keep is proved in Requests, Completion and
    Histories.
 */
module RequestObjects {
  import opened Segments
  import opened Requests
  import opened Completion

  class BlkRequest {
    const q: Limits
    var bios: seq<Bio>
    var sector: nat
    var dataLen: int
    var nrSegs: int
    var ff: FailFast
    var mixed: bool
    var noMerge: bool

    function View(): Request
      reads this
    {
      Request(bios, sector, dataLen, nrSegs, ff, mixed, noMerge)
    }

    /** `init_request_from_bio`. */
    constructor (q: Limits, b: Bio)
      requires Submittable(q, b)
      ensures this.q == q && View() == NewRequest(q, b) && Inv(q, View())
    {
      var b' := b;
      if !b.segValid {
        var n, bs := RecalcSegments(q, [b]);
        b' := bs[0].(phys := n, segValid := true);
      }
      this.q, bios, sector, dataLen, nrSegs := q, [b'], b.sector, b.size, b'.phys;
      ff, mixed, noMerge := if b.ahead then FAILFAST_MASK else b.ff, false, false;
      new;
      NewRequestOk(q, b);
    }

    /** `blk_rq_set_mixed_merge`. */
    method SetMixedMerge()
      modifies this
      ensures View() == SetMixed(old(View()))
    {
      if mixed {
        return;
      }
      ghost var was := bios;
      var i := 0;
      while i < |bios|
        invariant 0 <= i <= |bios| == |was|
        invariant forall j :: 0 <= j < i ==> bios[j] == was[j].(ff := was[j].ff.Or(ff))
        invariant forall j :: i <= j < |bios| ==> bios[j] == was[j]
        invariant View() == old(View()).(bios := bios)
      {
        bios := bios[i := bios[i].(ff := bios[i].ff.Or(ff))];
        i := i + 1;
      }
      mixed := true;
      assert bios == SetMixed(old(View())).bios;
    }

    method RecountAt(i: nat)
      requires i < |bios|
      modifies this`bios
      ensures bios == old(bios)[i := Recounted(q, old(bios)[i])]
    {
      if !bios[i].segValid {
        var n, bs := RecalcSegments(q, [bios[i]]);
        bios := bios[i := bs[0].(phys := n, segValid := true)];
      } else {
        assert bios[i := bios[i]] == bios;
      }
    }

    method RecountOne(b: Bio) returns (b': Bio)
      ensures b' == Recounted(q, b)
    {
      if b.segValid {
        return b;
      }
      var n, bs := RecalcSegments(q, [b]);
      return bs[0].(phys := n, segValid := true);
    }

    /** Back merge of a bio: `ll_back_merge_fn` and the rest of its case in `__make_request`. */
    method MergeBack(b: Bio) returns (merged: bool)
      requires Inv(q, View()) && Submittable(q, b)
      modifies this
      ensures View() == BackMerge(q, old(View()), b) && Inv(q, View())
      ensures merged ==> |bios| == |old(bios)| + 1 && dataLen == old(dataLen) + b.size
      ensures !merged ==> |bios| == |old(bios)| && dataLen == old(dataLen)
    {
      hide Inv, Recounted, Submittable, SetMixed;
      BackMergeOk(q, View(), b);
      if !BackCandidate(View(), b) {
        return false;
      }
      if Sectors(dataLen) + Sectors(b.size) > q.maxSectors {
        noMerge := true;
        return false;
      }
      RecountAt(|bios| - 1);
      var b' := RecountOne(b);
      if TooManySegs(q, nrSegs + b'.phys) {
        noMerge := true;
        return false;
      }
      SetMixedKeeps(View());
      if ff != b.ff {
        SetMixedMerge();
      }
      bios, dataLen, nrSegs := bios + [b'], dataLen + b.size, nrSegs + b'.phys;
      return true;
    }

    /** Front merge of a bio. */
    method MergeFront(b: Bio) returns (merged: bool)
      requires Inv(q, View()) && Submittable(q, b)
      modifies this
      ensures View() == FrontMerge(q, old(View()), b) && Inv(q, View())
      ensures merged ==> |bios| == |old(bios)| + 1 && dataLen == old(dataLen) + b.size && sector == b.sector
      ensures !merged ==> |bios| == |old(bios)| && dataLen == old(dataLen)
    {
      hide Inv, Recounted, Submittable, SetMixed;
      FrontMergeOk(q, View(), b);
      if !FrontCandidate(View(), b) {
        return false;
      }
      if Sectors(dataLen) + Sectors(b.size) > q.maxSectors {
        noMerge := true;
        return false;
      }
      var b' := RecountOne(b);
      RecountAt(0);
      if TooManySegs(q, nrSegs + b'.phys) {
        noMerge := true;
        return false;
      }
      SetMixedKeeps(View());
      if ff != b.ff {
        SetMixedMerge();
        ff := b.ff;
      }
      bios, sector, dataLen, nrSegs := [b'] + bios, b.sector, dataLen + b.size, nrSegs + b'.phys;
      return true;
    }

    /** `attempt_merge`: take over the bios of the request that follows. */
    method AttemptMerge(next: BlkRequest) returns (merged: bool)
      requires next != this && next.q == q && Inv(q, View()) && Inv(q, next.View())
      modifies this, next
      ensures (merged, View(), next.View()) == Absorb(q, old(View()), old(next.View()))
      ensures Inv(q, View()) && (!merged ==> Inv(q, next.View()))
    {
      hide Inv, PhysContig, MixForMerge;
      AbsorbOk(q, View(), next.View());
      if !MergeCandidates(q, View(), next.View()) {
        return false;
      }
      var n, m := |bios| - 1, |next.bios| - 1;
      var segSize, total := bios[n].back + next.bios[0].front, nrSegs + next.nrSegs;
      if PhysContig(q, bios[n], next.bios[0]) {
        if nrSegs == 1 {
          bios := bios[0 := bios[0].(front := segSize)];
        }
        if next.nrSegs == 1 {
          next.bios := next.bios[m := next.bios[m].(back := segSize)];
        }
        total := total - 1;
      }
      if TooManySegs(q, total) {
        return false;
      }
      TakeOver(next, total);
      return true;
    }

    /** The end of `attempt_merge`: the chains are joined, with failfast bits copied down where
        they may differ. */
    method TakeOver(next: BlkRequest, total: int)
      requires next != this
      modifies this, next
      ensures var (a, b) := MixForMerge(old(View()), old(next.View()));
              && View() == a.(bios := a.bios + b.bios, dataLen := a.dataLen + b.dataLen, nrSegs := total)
              && next.View() == b.(bios := [])
    {
      hide SetMixed;
      if mixed || next.mixed || ff != next.ff {
        SetMixedMerge();
        next.SetMixedMerge();
      }
      bios, dataLen, nrSegs := bios + next.bios, dataLen + next.dataLen, total;
      next.bios := [];
    }

    /** `blk_update_request`: complete `nrBytes` bytes with status `err`.  When it is not `ok`
        the loop has run out of bvecs, or found one longer than its bio. */
    method UpdateRequest(err: int, nrBytes: nat) returns (ok: bool, more: bool, ended: seq<(nat, int)>)
      requires Inv(q, View())
      modifies this
      ensures AllWellFormed(old(bios)) && (ok <==> Completes(old(bios), nrBytes))
      ensures ok ==> Updated(more, View(), ended) == Update(q, old(View()), nrBytes, err) && Inv(q, View())
      ensures ok && Measured(old(View())) && AllRoomy(old(bios)) ==>
                Measured(View()) && dataLen == if more then old(dataLen) - nrBytes else 0
    {
      hide Inv, Trim, Recalc, Cut, EndStatus, Advance, Sizes, Bytes, WellFormed, StaysWithin, HeadFits, FirstLeft;
      InvWellFormed(q, View());
      if bios == [] {
        UpdateNothing(q, View(), nrBytes, err);
        return true, false, [];
      }
      var total, nr, bioBytes, nextIdx;
      ok, bios, ended, total, nr, bioBytes, nextIdx := CompleteLoop(bios, nrBytes, err);
      if !ok {
        more := true;
        return;
      }
      UpdateOk(q, old(View()), nrBytes, err);
      RoomyFits(old(bios), nrBytes);
      if bios == [] {
        dataLen := 0;
        return true, false, ended;
      }
      bios := CutFirst(bios, err, nr, bioBytes, nextIdx);
      dataLen, sector := dataLen - total, sector + total / 512;
      if mixed {
        ff := bios[0].ff;
      }
      TrimExact(old(bios), nrBytes, err);
      HeadLive(bios);
      if dataLen < bios[0].live[0].len {
        dataLen := bios[0].live[0].len;
      }
      nrSegs, bios := RecalcSegments(q, bios);
      more := true;
    }
  }

  lemma SetMixedKeeps(rq: Request)
    ensures var r := SetMixed(rq);
            |r.bios| == |rq.bios| && r.dataLen == rq.dataLen && r.nrSegs == rq.nrSegs && r.sector == rq.sector
  {
  }

  lemma UpdateNothing(q: Limits, rq: Request, n: nat, err: int)
    requires rq.bios == [] && Inv(q, rq)
    ensures Completes(rq.bios, n) && Update(q, rq, n, err) == Updated(false, rq, [])
    ensures Measured(rq) ==> rq.dataLen == 0
  {
  }

  lemma HeadLive(bios: seq<Bio>)
    requires bios != [] && AllWellFormed(bios)
    ensures bios[0].live != []
  {
    assert WellFormed(bios[0]);
  }

  lemma RoomyFits(bios: seq<Bio>, n: nat)
    requires AllWellFormed(bios) && StaysWithin(bios, n)
    ensures AllRoomy(bios) ==> HeadFits(bios, n)
  {
    hide AllRoomy, HeadFits;
    if AllRoomy(bios) { RoomyHeadFits(bios, n); }
  }

  /** Set the first bio up for the bytes that are left of it. */
  method CutFirst(chain: seq<Bio>, err: int, nr: nat, bioBytes: nat, nextIdx: nat) returns (rest: seq<Bio>)
    requires AllWellFormed(chain) && chain != [] && bioBytes < chain[0].size && bioBytes < Bytes(chain[0].live)
    requires nextIdx < |chain[0].live| && nr < chain[0].live[nextIdx].len
    requires bioBytes == Bytes(chain[0].live[..nextIdx]) + nr
    ensures rest == [Advance(chain[0], bioBytes, err)] + chain[1..]
  {
    hide Bytes, Cut;
    AdvanceZero(chain, err);
    if bioBytes == 0 {
      return chain;
    }
    var b := chain[0];
    CutAt(b.live, nextIdx, nr);
    var cut := Bvec(b.live[nextIdx].addr + nr, b.live[nextIdx].len - nr);
    rest := [b.(size := b.size - bioBytes, sector := b.sector + bioBytes / 512,
                live := [cut] + b.live[nextIdx + 1..], uptodate := b.uptodate && err == 0)] + chain[1..];
  }

  lemma AdvanceZero(bios: seq<Bio>, err: int)
    requires AllWellFormed(bios) && bios != []
    ensures bios[0].size > 0 && 0 < Bytes(bios[0].live) && [Advance(bios[0], 0, err)] + bios[1..] == bios
  {
    assert WellFormed(bios[0]);
    BytesFirst(bios[0].live);
  }
}
