/** The status each bio of a request is ended with (`req_bio_endio`): what one completion
    reports, and what the status of a bio says about all completions of its bytes.
 */
module CompletionStatus {
  import opened Segments
  import opened Requests
  import opened Completion
  import opened Histories

  // ----- one completion

  /** What completing `n` bytes with `err` makes of each bio of a chain: those that end within
      the `n` bytes are ended, with the error, or, when there is none now, with success exactly
      if no part of them failed before; the others are left, marked as failed if some of their
      bytes are among the `n` and there is an error. */
  ghost predicate Fates(bios: seq<Bio>, n: nat, err: int, ended: seq<(nat, int)>, left: seq<Bio>) {
    && |ended| + |left| == |bios|
    && (forall i :: 0 <= i < |ended| ==> EndsAs(bios, n, err, i, ended[i]))
    && (forall i :: 0 <= i < |left| ==> StaysAs(bios, n, err, |ended| + i, left[i]))
  }

  ghost predicate EndsAs(bios: seq<Bio>, n: nat, err: int, i: nat, e: (nat, int))
    requires i < |bios|
  {
    && Sizes(bios[..i+1]) <= n
    && e.0 == bios[i].id
    && (err != 0 ==> e.1 == err)
    && (err == 0 && bios[i].uptodate ==> e.1 == 0)
    && (err == 0 && !bios[i].uptodate ==> e.1 == -EIO)
  }

  ghost predicate StaysAs(bios: seq<Bio>, n: nat, err: int, i: nat, b: Bio)
    requires i < |bios|
  {
    && n < Sizes(bios[..i+1])
    && b.id == bios[i].id
    && (b.uptodate <==> bios[i].uptodate && (err == 0 || n <= Sizes(bios[..i])))
  }

  lemma {:induction false} TrimFates(bios: seq<Bio>, n: nat, err: int)
    requires AllWellFormed(bios) && StaysWithin(bios, n)
    ensures Fates(bios, n, err, Trim(bios, n, err).ended, Trim(bios, n, err).rest)
    decreases |bios|
  {
    hide Trim, WellFormed, Within, Sizes, Fates;
    if bios == [] {
      TrimNothing(n, err);
      NoFates(n, err);
    } else {
      var b, rest := bios[0], bios[1..];
      assert WellFormed(b) && bios == [b] + rest;
      if b.size <= n {
        TrimFates(rest, n - b.size, err);
        TrimWhole(bios, n, err);
        FatesWhole(b, rest, n, err, Trim(rest, n - b.size, err));
      } else {
        TrimInside(b, rest, n, err);
        FatesInside(b, rest, n, err);
      }
    }
  }

  lemma NoFates(n: nat, err: int)
    ensures Fates([], n, err, [], [])
  {
  }

  lemma SizesStart(b: Bio, rest: seq<Bio>, i: nat)
    requires i <= |rest|
    ensures Sizes(([b] + rest)[..i+1]) == b.size + Sizes(rest[..i])
  {
    assert ([b] + rest)[..i+1] == [b] + rest[..i];
    assert ([b] + rest[..i])[1..] == rest[..i];
  }

  lemma FatesWhole(b: Bio, rest: seq<Bio>, n: nat, err: int, t: Trimmed)
    requires b.size <= n && Fates(rest, n - b.size, err, t.ended, t.rest)
    ensures Fates([b] + rest, n, err, [(b.id, EndStatus(b, err))] + t.ended, t.rest)
  {
    hide EndsAs, StaysAs, EndStatus;
    var e := (b.id, EndStatus(b, err));
    var bios, ended := [b] + rest, [e] + t.ended;
    FirstEnds(b, rest, n, err);
    forall i | 1 <= i < |ended| ensures EndsAs(bios, n, err, i, ended[i]) {
      LaterEnds(b, rest, n, err, i - 1, t.ended[i-1]);
    }
    forall i | 0 <= i < |t.rest| ensures StaysAs(bios, n, err, |ended| + i, t.rest[i]) {
      LaterStays(b, rest, n, err, |t.ended| + i, t.rest[i]);
    }
  }

  lemma FirstEnds(b: Bio, rest: seq<Bio>, n: nat, err: int)
    requires b.size <= n
    ensures EndsAs([b] + rest, n, err, 0, (b.id, EndStatus(b, err)))
  {
    hide Sizes;
    SizesNone();
    SizesStart(b, rest, 0);
    assert rest[..0] == [];
  }

  lemma LaterEnds(b: Bio, rest: seq<Bio>, n: nat, err: int, i: nat, e: (nat, int))
    requires b.size <= n && i < |rest| && EndsAs(rest, n - b.size, err, i, e)
    ensures EndsAs([b] + rest, n, err, i + 1, e)
  {
    hide Sizes;
    SizesStart(b, rest, i + 1);
  }

  lemma LaterStays(b: Bio, rest: seq<Bio>, n: nat, err: int, i: nat, l: Bio)
    requires b.size <= n && i < |rest| && StaysAs(rest, n - b.size, err, i, l)
    ensures StaysAs([b] + rest, n, err, i + 1, l)
  {
    hide Sizes;
    SizesStart(b, rest, i);
    SizesStart(b, rest, i + 1);
  }

  lemma FatesInside(b: Bio, rest: seq<Bio>, n: nat, err: int)
    requires n < b.size && n < Bytes(b.live)
    ensures Fates([b] + rest, n, err, [], [Advance(b, n, err)] + rest)
  {
    hide Sizes, Bytes, Cut;
    var bios, left := [b] + rest, [Advance(b, n, err)] + rest;
    SizesNone();
    assert bios[..0] == [];
    forall i | 0 <= i < |left| ensures StaysAs(bios, n, err, i, left[i]) {
      SizesStart(b, rest, i);
      if i > 0 {
        SizesStart(b, rest, i - 1);
      }
    }
  }

  /** The same of `blk_update_request`. */
  lemma UpdateFates(q: Limits, rq: Request, n: nat, err: int)
    requires AllWellFormed(rq.bios) && StaysWithin(rq.bios, n)
    ensures var u := Update(q, rq, n, err); Fates(rq.bios, n, err, u.ended, u.rq.bios)
  {
    hide Recalc, Trim, StaysWithin, Fates;
    TrimFates(rq.bios, n, err);
    TrimExact(rq.bios, n, err);
    if rq.bios == [] {
      NoFates(n, err);
    } else {
      var t := Trim(rq.bios, n, err);
      if t.rest != [] {
        RecalcOk(q, t.rest);
        FatesHinted(rq.bios, n, err, t.ended, t.rest, Recalc(q, t.rest).1);
      }
    }
  }

  lemma FatesHinted(bios: seq<Bio>, n: nat, err: int, ended: seq<(nat, int)>, left: seq<Bio>, left': seq<Bio>)
    requires Fates(bios, n, err, ended, left) && SameLayout(left, left')
    ensures Fates(bios, n, err, ended, left')
  {
    hide Sizes;
    forall i | 0 <= i < |left'| ensures StaysAs(bios, n, err, |ended| + i, left'[i]) {
      assert SameBio(left[i], left'[i]) && StaysAs(bios, n, err, |ended| + i, left[i]);
    }
  }

  /** A request that fails up to its boundary, however often, ends every bio with the error. */
  lemma {:induction false} FailAllStatus(q: Limits, rq: Request, err: int)
    requires Inv(q, rq) && (rq.mixed || Measured(rq)) && err != 0
    ensures forall i :: 0 <= i < |FailAll(q, rq, err).1| ==> FailAll(q, rq, err).1[i].1 == err
    decreases |rq.bios|
  {
    hide Inv, Update, StaysWithin, FirstLeft, EagerPrefix, EndedIds, Ids;
    if rq.bios != [] {
      FailToBoundary(q, rq, err);
      InvWellFormed(q, rq);
      UpdateOk(q, rq, ErrBytes(rq), err);
      UpdateFates(q, rq, ErrBytes(rq), err);
      var u := Update(q, rq, ErrBytes(rq), err);
      FailAllStatus(q, u.rq, err);
    }
  }

  // ----- all completions of a bio's bytes

  /** Some of the first `n` bytes of the chain belong to bio `x`. */
  ghost predicate Touched(bios: seq<Bio>, n: nat, x: nat) {
    exists i :: TouchedAt(bios, n, x, i)
  }

  ghost predicate TouchedAt(bios: seq<Bio>, n: nat, x: nat, i: nat) {
    i < |bios| && bios[i].id == x && Sizes(bios[..i]) < n
  }

  /** The statuses of the completions that covered some byte of bio `x`. */
  ghost function Reports(q: Limits, h: History, x: nat): set<int>
    requires Feasible(q, h)
  {
    match h
    case Submit(b) => {}
    case Back(p, b) => Reports(q, p, x)
    case Front(p, b) => Reports(q, p, x)
    case Merge(p, n) => Reports(q, p, x) + if Absorb(q, Run(q, p), Run(q, n)).0 then Reports(q, n, x) else {}
    case Complete(p, n, err) => Reports(q, p, x) + if Touched(Run(q, p).bios, n, x) then {err} else {}
  }

  /** The bios that have been ended on the way, each with its status. */
  ghost function Ends(q: Limits, h: History): set<(nat, int)>
    requires Feasible(q, h)
  {
    match h
    case Submit(b) => {}
    case Back(p, b) => Ends(q, p)
    case Front(p, b) => Ends(q, p)
    case Merge(p, n) => Ends(q, p) + if Absorb(q, Run(q, p), Run(q, n)).0 then Ends(q, n) else {}
    case Complete(p, n, err) =>
      InvWellFormed(q, Run(q, p));
      Ends(q, p) + (set e | e in Update(q, Run(q, p), n, err).ended)
  }

  /** The id of `b` names it alone among the bios of the history. */
  ghost predicate Named(h: History, b: Bio) {
    forall c :: c in Brought(h) && c.id == b.id ==> c == b
  }

  ghost predicate Clean(b: Bio, reports: set<int>) {
    b.uptodate && forall e :: e in reports ==> e == 0
  }

  /** What the chain and the ends of a history say about bio `b`. */
  ghost predicate Told(b: Bio, bios: seq<Bio>, ends: set<(nat, int)>, reports: set<int>) {
    && (forall i :: 0 <= i < |bios| && bios[i].id == b.id ==> (bios[i].uptodate <==> Clean(b, reports)))
    && (forall s :: (b.id, s) in ends ==> ToldBy(b, s, reports))
  }

  ghost predicate ToldBy(b: Bio, s: int, reports: set<int>) {
    (s == 0 <==> Clean(b, reports)) && (s in reports || s == -EIO)
  }

  /** A bio is ended with success if and only if it was up to date when it was submitted and
      no completion of any of its bytes had an error. */
  lemma SuccessIff(q: Limits, h: History, b: Bio, status: int)
    requires Feasible(q, h) && Named(h, b) && Taken(q, h)[b.id] <= 1
    requires (b.id, status) in Ends(q, h)
    ensures status == 0 <==> b.uptodate && forall e :: e in Reports(q, h, b.id) ==> e == 0
    ensures status in Reports(q, h, b.id) || status == -EIO
  {
    hide Feasible, Run, Taken, Ends, Reports, Named, Inv;
    AlwaysTold(q, h, b);
  }

  lemma {:induction false} AlwaysTold(q: Limits, h: History, b: Bio)
    requires Feasible(q, h) && Named(h, b) && Taken(q, h)[b.id] <= 1
    ensures Told(b, Run(q, h).bios, Ends(q, h), Reports(q, h, b.id))
  {
    hide Told, Run, Inv, Submittable;
    match h
    case Submit(c) => ToldSubmit(q, c, b);
    case Back(p, c) =>
      AlwaysTold(q, p, b);
      ToldBack(q, p, c, b);
    case Front(p, c) =>
      AlwaysTold(q, p, b);
      ToldFront(q, p, c, b);
    case Merge(p, n) =>
      AlwaysTold(q, p, b);
      if Absorb(q, Run(q, p), Run(q, n)).0 {
        AlwaysTold(q, n, b);
      }
      ToldMerge(q, p, n, b);
    case Complete(p, n, err) =>
      AlwaysTold(q, p, b);
      ToldComplete(q, p, n, err, b);
  }

  lemma ToldSubmit(q: Limits, c: Bio, b: Bio)
    requires Submittable(q, c) && Named(Submit(c), b)
    ensures Told(b, Run(q, Submit(c)).bios, {}, {})
  {
    hide Inv, Recounted;
    assert c in Brought(Submit(c));
    RecountedBio(q, c);
  }

  /** A bio that is not in the request has not been reported on. */
  lemma {:induction false} NotTaken(q: Limits, h: History, x: nat)
    requires Feasible(q, h) && Taken(q, h)[x] == 0
    ensures Reports(q, h, x) == {} && (forall s :: (x, s) !in Ends(q, h))
    ensures forall i :: 0 <= i < |Run(q, h).bios| ==> Run(q, h).bios[i].id != x
  {
    hide Run, Inv, Submittable, Update, BackMerge, FrontMerge, Absorb, Sizes, StaysWithin;
    EveryBioOnce(q, h);
    NotInChain(Run(q, h).bios, x, Taken(q, h), Finished(q, h));
    match h
    case Submit(b) =>
    case Back(p, b) => NotTaken(q, p, x);
    case Front(p, b) => NotTaken(q, p, x);
    case Merge(p, n) =>
      NotTaken(q, p, x);
      if Absorb(q, Run(q, p), Run(q, n)).0 {
        NotTaken(q, n, x);
      }
    case Complete(p, n, err) =>
      NotTaken(q, p, x);
      InvWellFormed(q, Run(q, p));
      UpdateFates(q, Run(q, p), n, err);
  }

  lemma NotInChain(bios: seq<Bio>, x: nat, taken: multiset<nat>, finished: multiset<nat>)
    requires multiset(Ids(bios)) + finished == taken && taken[x] == 0
    ensures forall i :: 0 <= i < |bios| ==> bios[i].id != x
  {
    forall i | 0 <= i < |bios| ensures bios[i].id != x {
      assert Ids(bios)[i] in multiset(Ids(bios));
    }
  }

  lemma ToldAbsent(b: Bio, bios: seq<Bio>, ends: set<(nat, int)>, reports: set<int>, more: seq<Bio>)
    requires Told(b, bios, ends, reports) && forall i :: 0 <= i < |more| ==> more[i].id != b.id
    ensures Told(b, bios + more, ends, reports) && Told(b, more + bios, ends, reports)
  {
    hide Clean, ToldBy;
    var x, y := bios + more, more + bios;
    forall i | 0 <= i < |x| && x[i].id == b.id ensures x[i].uptodate <==> Clean(b, reports) { }
    forall i | 0 <= i < |y| && y[i].id == b.id ensures y[i].uptodate <==> Clean(b, reports) { }
  }

  lemma ToldHinted(b: Bio, bios: seq<Bio>, bios': seq<Bio>, ends: set<(nat, int)>, reports: set<int>)
    requires Told(b, bios, ends, reports) && SameLayout(bios, bios')
    ensures Told(b, bios', ends, reports)
  {
    hide Clean, ToldBy;
    forall i | 0 <= i < |bios'| && bios'[i].id == b.id ensures bios'[i].uptodate <==> Clean(b, reports) {
      assert SameBio(bios[i], bios'[i]);
    }
  }

  lemma ToldFresh(q: Limits, p: History, c: Bio, b: Bio)
    requires Feasible(q, p) && Told(b, Run(q, p).bios, Ends(q, p), Reports(q, p, b.id))
    requires c.id == b.id ==> c == b && Taken(q, p)[b.id] == 0
    ensures Told(b, Run(q, p).bios + [c], Ends(q, p), Reports(q, p, b.id))
    ensures Told(b, [c] + Run(q, p).bios, Ends(q, p), Reports(q, p, b.id))
  {
    hide Run, Feasible, Taken, Ends, Reports, Inv;
    if c.id == b.id {
      NotTaken(q, p, b.id);
    } else {
      ToldAbsent(b, Run(q, p).bios, Ends(q, p), Reports(q, p, b.id), [c]);
    }
  }

  lemma ToldBack(q: Limits, p: History, c: Bio, b: Bio)
    requires var h := Back(p, c); Feasible(q, h) && Named(h, b) && Taken(q, h)[b.id] <= 1
    requires Told(b, Run(q, p).bios, Ends(q, p), Reports(q, p, b.id))
    ensures Told(b, Run(q, Back(p, c)).bios, Ends(q, p), Reports(q, p, b.id))
  {
    hide Inv, Submittable, BackMerge, SameLayout, Told;
    var rq := Run(q, p);
    var r := BackMerge(q, rq, c);
    BackMergeLayout(q, rq, c);
    assert c in Brought(Back(p, c));
    if |r.bios| > |rq.bios| {
      ToldFresh(q, p, c, b);
    }
    ToldHinted(b, if |r.bios| > |rq.bios| then rq.bios + [c] else rq.bios, r.bios, Ends(q, p), Reports(q, p, b.id));
  }

  lemma ToldFront(q: Limits, p: History, c: Bio, b: Bio)
    requires var h := Front(p, c); Feasible(q, h) && Named(h, b) && Taken(q, h)[b.id] <= 1
    requires Told(b, Run(q, p).bios, Ends(q, p), Reports(q, p, b.id))
    ensures Told(b, Run(q, Front(p, c)).bios, Ends(q, p), Reports(q, p, b.id))
  {
    hide Inv, Submittable, FrontMerge, SameLayout, Told;
    var rq := Run(q, p);
    var r := FrontMerge(q, rq, c);
    FrontMergeLayout(q, rq, c);
    assert c in Brought(Front(p, c));
    if |r.bios| > |rq.bios| {
      ToldFresh(q, p, c, b);
    }
    ToldHinted(b, if |r.bios| > |rq.bios| then [c] + rq.bios else rq.bios, r.bios, Ends(q, p), Reports(q, p, b.id));
  }

  lemma ToldMerge(q: Limits, p: History, n: History, b: Bio)
    requires var h := Merge(p, n); Feasible(q, h) && Taken(q, h)[b.id] <= 1
    requires Told(b, Run(q, p).bios, Ends(q, p), Reports(q, p, b.id))
    requires Absorb(q, Run(q, p), Run(q, n)).0 ==> Told(b, Run(q, n).bios, Ends(q, n), Reports(q, n, b.id))
    ensures var h := Merge(p, n); Told(b, Run(q, h).bios, Ends(q, h), Reports(q, h, b.id))
  {
    hide Inv, Run, Feasible, Taken, Ends, Reports, Absorb, SameLayout, Told;
    MergeUnfolds(q, p, n, b.id);
    var h, rq, next := Merge(p, n), Run(q, p), Run(q, n);
    AbsorbLayout(q, rq, next);
    var (ok, r, _) := Absorb(q, rq, next);
    if !ok {
      ToldSame(b, rq.bios, Ends(q, p), Ends(q, h), Reports(q, p, b.id), Reports(q, h, b.id));
    } else if Taken(q, n)[b.id] == 0 {
      NotTaken(q, n, b.id);
      ToldAbsent(b, rq.bios, Ends(q, p), Reports(q, p, b.id), next.bios);
      ToldSame(b, rq.bios + next.bios, Ends(q, p), Ends(q, h), Reports(q, p, b.id), Reports(q, h, b.id));
    } else {
      NotTaken(q, p, b.id);
      ToldAbsent(b, next.bios, Ends(q, n), Reports(q, n, b.id), rq.bios);
      ToldSame(b, rq.bios + next.bios, Ends(q, n), Ends(q, h), Reports(q, n, b.id), Reports(q, h, b.id));
    }
    ToldHinted(b, if ok then rq.bios + next.bios else rq.bios, r.bios, Ends(q, h), Reports(q, h, b.id));
  }

  lemma MergeUnfolds(q: Limits, p: History, n: History, x: nat)
    requires Feasible(q, Merge(p, n))
    ensures Feasible(q, p) && Feasible(q, n)
    ensures var h := Merge(p, n); var ok := Absorb(q, Run(q, p), Run(q, n)).0;
            && Run(q, h) == Absorb(q, Run(q, p), Run(q, n)).1
            && Taken(q, h)[x] == Taken(q, p)[x] + (if ok then Taken(q, n)[x] else 0)
            && Ends(q, h) == Ends(q, p) + (if ok then Ends(q, n) else {})
            && Reports(q, h, x) == Reports(q, p, x) + (if ok then Reports(q, n, x) else {})
  {
    hide Inv, Absorb, Run, Taken;
    MergeRuns(q, p, n);
    MergeTakes(q, p, n, x);
  }

  lemma MergeRuns(q: Limits, p: History, n: History)
    requires Feasible(q, Merge(p, n))
    ensures Run(q, Merge(p, n)) == Absorb(q, Run(q, p), Run(q, n)).1
  {
    hide Inv, Absorb;
  }

  lemma MergeTakes(q: Limits, p: History, n: History, x: nat)
    requires Feasible(q, Merge(p, n))
    ensures Taken(q, Merge(p, n))[x] ==
            Taken(q, p)[x] + if Absorb(q, Run(q, p), Run(q, n)).0 then Taken(q, n)[x] else 0
  {
    hide Inv, Absorb, Run;
  }

  lemma ToldSame(b: Bio, bios: seq<Bio>, ends: set<(nat, int)>, ends': set<(nat, int)>,
                 reports: set<int>, reports': set<int>)
    requires Told(b, bios, ends, reports) && reports == reports'
    requires forall s :: (b.id, s) in ends' ==> (b.id, s) in ends
    ensures Told(b, bios, ends', reports')
  {
    hide Clean, ToldBy;
  }

  lemma ToldComplete(q: Limits, p: History, n: nat, err: int, b: Bio)
    requires var h := Complete(p, n, err); Feasible(q, h) && Taken(q, p)[b.id] <= 1
    requires Told(b, Run(q, p).bios, Ends(q, p), Reports(q, p, b.id))
    ensures var h := Complete(p, n, err); Told(b, Run(q, h).bios, Ends(q, h), Reports(q, h, b.id))
  {
    hide Inv, Update, StaysWithin, Told, Fates, Touched;
    var rq := Run(q, p);
    InvWellFormed(q, rq);
    UpdateFates(q, rq, n, err);
    EveryBioOnce(q, p);
    AtMostOne(rq.bios, b.id, Taken(q, p), Finished(q, p));
    if i :| 0 <= i < |rq.bios| && rq.bios[i].id == b.id {
      InChain(rq.bios, i, Taken(q, p), Finished(q, p));
      EndsFinished(q, p, b.id);
    }
    var u := Update(q, rq, n, err);
    ToldStep(b, rq.bios, n, err, u.ended, u.rq.bios, Ends(q, p), Reports(q, p, b.id));
  }

  lemma AtMostOne(bios: seq<Bio>, x: nat, taken: multiset<nat>, finished: multiset<nat>)
    requires multiset(Ids(bios)) + finished == taken && taken[x] <= 1
    ensures forall i, j :: 0 <= i < j < |bios| ==> !(bios[i].id == x && bios[j].id == x)
  {
    forall i, j | 0 <= i < j < |bios| ensures !(bios[i].id == x && bios[j].id == x) {
      var ids := Ids(bios);
      assert ids == ids[..j] + ids[j..];
      assert multiset(ids) == multiset(ids[..j]) + multiset(ids[j..]);
      assert ids[..j][i] in multiset(ids[..j]) && ids[j..][0] in multiset(ids[j..]);
    }
  }

  lemma InChain(bios: seq<Bio>, i: nat, taken: multiset<nat>, finished: multiset<nat>)
    requires i < |bios| && multiset(Ids(bios)) + finished == taken && taken[bios[i].id] <= 1
    ensures finished[bios[i].id] == 0
  {
    assert Ids(bios)[i] in multiset(Ids(bios));
  }

  lemma {:induction false} EndsFinished(q: Limits, h: History, x: nat)
    requires Feasible(q, h) && Finished(q, h)[x] == 0
    ensures forall s :: (x, s) !in Ends(q, h)
  {
    hide Run, Inv, Submittable, Absorb, Update;
    match h
    case Submit(b) =>
    case Back(p, b) => EndsFinished(q, p, x);
    case Front(p, b) => EndsFinished(q, p, x);
    case Merge(p, n) =>
      EndsFinished(q, p, x);
      if Absorb(q, Run(q, p), Run(q, n)).0 {
        EndsFinished(q, n, x);
      }
    case Complete(p, n, err) =>
      EndsFinished(q, p, x);
      InvWellFormed(q, Run(q, p));
      var ended := Update(q, Run(q, p), n, err).ended;
      forall i | 0 <= i < |ended| ensures ended[i].0 != x {
        assert EndedIds(ended)[i] in multiset(EndedIds(ended));
      }
  }

  /** One completion, of a chain that holds the bio once, or not at all. */
  lemma ToldStep(b: Bio, bios: seq<Bio>, n: nat, err: int, ended: seq<(nat, int)>, left: seq<Bio>,
                 ends: set<(nat, int)>, reports: set<int>)
    requires AllWellFormed(bios) && Fates(bios, n, err, ended, left) && Told(b, bios, ends, reports)
    requires forall i, j :: 0 <= i < j < |bios| ==> !(bios[i].id == b.id && bios[j].id == b.id)
    requires (exists i :: 0 <= i < |bios| && bios[i].id == b.id) ==> forall s :: (b.id, s) !in ends
    ensures Told(b, left, ends + (set e | e in ended), reports + if Touched(bios, n, b.id) then {err} else {})
  {
    hide Sizes, Clean, Touched;
    var more := if Touched(bios, n, b.id) then {err} else {};
    forall i | 0 <= i < |left| && left[i].id == b.id ensures left[i].uptodate <==> Clean(b, reports + more) {
      var j := |ended| + i;
      assert StaysAs(bios, n, err, j, left[i]);
      LeftTold(b, bios, n, err, j, left[i], reports);
    }
    forall s | (b.id, s) in ends + (set e | e in ended) ensures ToldBy(b, s, reports + more) {
      if (b.id, s) in ended {
        var i :| 0 <= i < |ended| && ended[i] == (b.id, s);
        assert EndsAs(bios, n, err, i, ended[i]);
        assert WellFormed(bios[i]);
        EndedTold(b, bios, n, err, i, s, reports);
      } else {
        NotTouched(b, bios, n);
        assert reports + more == reports;
      }
    }
  }

  lemma NotTouched(b: Bio, bios: seq<Bio>, n: nat)
    requires !exists i :: 0 <= i < |bios| && bios[i].id == b.id
    ensures !Touched(bios, n, b.id)
  {
  }

  lemma TouchedOnce(bios: seq<Bio>, n: nat, x: nat, j: nat)
    requires j < |bios| && bios[j].id == x
    requires forall i, k :: 0 <= i < k < |bios| ==> !(bios[i].id == x && bios[k].id == x)
    ensures Touched(bios, n, x) <==> Sizes(bios[..j]) < n
  {
    hide Sizes;
    assert TouchedAt(bios, n, x, j) <==> Sizes(bios[..j]) < n;
    if i :| TouchedAt(bios, n, x, i) {
      assert i == j;
    }
  }

  lemma LeftTold(b: Bio, bios: seq<Bio>, n: nat, err: int, j: nat, l: Bio, reports: set<int>)
    requires j < |bios| && StaysAs(bios, n, err, j, l) && bios[j].id == b.id
    requires bios[j].uptodate <==> Clean(b, reports)
    requires forall i, k :: 0 <= i < k < |bios| ==> !(bios[i].id == b.id && bios[k].id == b.id)
    ensures l.uptodate <==> Clean(b, reports + if Touched(bios, n, b.id) then {err} else {})
  {
    hide Sizes, Touched;
    TouchedOnce(bios, n, b.id, j);
  }

  lemma EndedTold(b: Bio, bios: seq<Bio>, n: nat, err: int, j: nat, s: int, reports: set<int>)
    requires j < |bios| && EndsAs(bios, n, err, j, (b.id, s)) && bios[j].size > 0
    requires bios[j].uptodate <==> Clean(b, reports)
    requires forall i, k :: 0 <= i < k < |bios| ==> !(bios[i].id == b.id && bios[k].id == b.id)
    ensures ToldBy(b, s, reports + if Touched(bios, n, b.id) then {err} else {})
  {
    hide Sizes, Touched;
    SizesLast(bios, j);
    TouchedOnce(bios, n, b.id, j);
  }
}
