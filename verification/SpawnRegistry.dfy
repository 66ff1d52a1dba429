/** The registered algorithms and instances as the removal code updates them: the walk of Spawns
    on the real user lists, and the instances that die of it.
 */
module SpawnRegistry {
  import opened Lists
  import opened Spawns

  /** The bit of CRYPTO_ALG_DEAD. */
  const DEAD: nat := 5
  const DYING: nat := 6
  const ENOENT: int := 2
  const EAGAIN: int := 11

  function FlagsOf(flags: map<nat, set<nat>>, a: nat): set<nat> { if a in flags then flags[a] else {} }

  /** From flags `f0` and registered instances `h0`, those `doomed` have died, and the registered
      ones among them that were alive and can be held are collected, once. */
  ghost predicate Reaping(f0: map<nat, set<nat>>, f: map<nat, set<nat>>, h0: set<nat>, h: set<nat>, getable: set<nat>,
                          doomed: set<nat>, reaped: seq<nat>)
  {
    && (forall x: nat :: x !in doomed ==> FlagsOf(f, x) == FlagsOf(f0, x))
    && (forall x :: x in doomed ==> DEAD in FlagsOf(f, x))
    && NoDup(reaped) && h == h0 - (set x | x in reaped)
    && (forall x :: x in reaped <==> x in doomed && DEAD !in FlagsOf(f0, x) && x in h0 && x in getable)
  }

  lemma ReapingNone(f: map<nat, set<nat>>, h: set<nat>, getable: set<nat>)
    ensures Reaping(f, f, h, h, getable, {}, [])
  {
  }

  lemma ReapingDone(f0: map<nat, set<nat>>, f: map<nat, set<nat>>, h0: set<nat>, h: set<nat>, getable: set<nat>,
                    doomed: set<nat>, reaped: seq<nat>)
    requires Reaping(f0, f, h0, h, getable, doomed, reaped)
    ensures forall x: nat :: x !in doomed ==> FlagsOf(f, x) == FlagsOf(f0, x)
    ensures forall x :: x in doomed ==> DEAD in FlagsOf(f, x)
    ensures NoDup(reaped) && forall x :: x in reaped <==> DEAD !in FlagsOf(f0, x) && x in h0 && x in getable && x in doomed
  {
  }

  lemma ReapingOne(f0: map<nat, set<nat>>, f: map<nat, set<nat>>, f': map<nat, set<nat>>, h0: set<nat>, h: set<nat>,
                   h': set<nat>, getable: set<nat>, doomed: set<nat>, reaped: seq<nat>, x: nat)
    requires Reaping(f0, f, h0, h, getable, doomed, reaped)
    requires DEAD in FlagsOf(f', x) && forall y: nat :: y != x ==> FlagsOf(f', y) == FlagsOf(f, y)
    requires var goes := DEAD !in FlagsOf(f, x) && x in h && x in getable; h' == if goes then h - {x} else h
    ensures var goes := DEAD !in FlagsOf(f, x) && x in h && x in getable;
            Reaping(f0, f', h0, h', getable, doomed + {x}, if goes then [x] + reaped else reaped)
  {
    hide NoDup, FlagsOf;
    if DEAD !in FlagsOf(f, x) && x in h && x in getable {
      ConsNoDup(x, reaped);
    }
  }

  /** From the lists of `v`, the spawns of `q` that have an algorithm have gone back on its list. */
  ghost predicate Returned(v: Graph, used: map<nat, Option<nat>>, q: seq<nat>, w: Graph) {
    && (forall a: nat :: NoDup(w.Users(a)))
    && (forall a: nat, sp {:trigger sp in w.Users(a)} ::
          sp in w.Users(a) <==> sp in v.Users(a) || (sp in q && sp in used && used[sp] == Some(a)))
  }

  lemma ReturnedNone(v: Graph, used: map<nat, Option<nat>>)
    requires forall a: nat :: NoDup(v.Users(a))
    ensures Returned(v, used, [], v)
  {
  }

  lemma ReturnedOne(v: Graph, used: map<nat, Option<nat>>, q: seq<nat>, w: Graph, sp: nat, w': Graph)
    requires Returned(v, used, q, w) && sp in used && sp !in q && forall a: nat :: sp !in v.Users(a)
    requires used[sp].None? ==> w' == w
    requires used[sp].Some? ==> w' == Graph(w.spawns, w.users[used[sp].value := [sp] + w.Users(used[sp].value)])
    ensures Returned(v, used, q + [sp], w')
  {
    hide NoDup;
    if used[sp].Some? {
      var b := used[sp].value;
      assert sp !in w.Users(b);
      ConsNoDup(sp, w.Users(b));
      assert forall a: nat :: w'.Users(a) == if a == b then [sp] + w.Users(b) else w.Users(a);
      forall a: nat ensures NoDup(w'.Users(a)) {
        assert a != b ==> w'.Users(a) == w.Users(a);
      }
      forall a: nat, x {:trigger x in w'.Users(a)}
        ensures x in w'.Users(a) <==> x in v.Users(a) || (x in q + [sp] && x in used && used[x] == Some(a))
      {
        assert x in w'.Users(a) <==> x in w.Users(a) || (a == b && x == sp);
      }
    }
  }

  lemma FirstTime(q: seq<nat>, i: nat)
    requires NoDup(q) && i < |q|
    ensures q[i] !in q[..i]
  {
  }

  /** No instance behind a spawn of `q` without an algorithm is used, by `v` or by another of `q`. */
  ghost predicate NoneUsed(v: Graph, used: map<nat, Option<nat>>, q: seq<nat>) {
    forall sp :: sp in q && sp in used && used[sp].None? ==>
      v.Users(v.Inst(sp)) == [] && forall t :: t in q && t in used ==> used[t] != Some(v.Inst(sp))
  }

  lemma StillUnused(v: Graph, used: map<nat, Option<nat>>, q: seq<nat>, i: nat, w: Graph)
    requires i < |q| && Returned(v, used, q[..i], w)
    ensures NoneUsed(v, used, q) && q[i] in used && used[q[i]].None? ==> w.Users(v.Inst(q[i])) == []
  {
    var x := v.Inst(q[i]);
    if NoneUsed(v, used, q) && q[i] in used && used[q[i]].None? {
      forall sp ensures sp !in w.Users(x) {
        assert sp in q[..i] ==> sp in q;
        assert sp in w.Users(x) <==> sp in v.Users(x) || (sp in q[..i] && sp in used && used[sp] == Some(x));
      }
      NoneLeft(w.Users(x));
    }
  }

  /** Where the walk ends, the real lists have lost exactly the spawns that were met. */
  ghost predicate Lost(g: Graph, q: seq<nat>, v: Graph) {
    && (forall a: nat :: NoDup(v.Users(a)))
    && forall a: nat, sp {:trigger sp in v.Users(a)} :: sp in v.Users(a) <==> sp in g.Users(a) && sp !in q
  }

  lemma ListsLost(g: Graph, k: Walk, used: map<nat, Option<nat>>, used0: map<nat, Option<nat>>, nalg: Option<nat>, v: Graph)
    requires Walking(k) && Tracked(k, used, used0, nalg) && k.top == [] && k.stack == [] && GraphOk(g)
    requires v.spawns == g.spawns && k.users == Hidden(v.users, k.alg, nalg)
    requires forall a: nat :: a != k.alg ==> k.g.Users(a) == if nalg == Some(a) then [] else g.Users(a)
    requires Within(k.g, g)
    requires NoDup(v.Users(k.alg)) && forall sp :: sp in v.Users(k.alg) <==> sp in g.Users(k.alg) && sp !in k.g.Users(k.alg)
    requires nalg.Some? && nalg.value != k.alg ==> v.Users(nalg.value) == g.Users(nalg.value)
    ensures Lost(g, k.secondary, v)
  {
    hide NoDup, Met, Reached, UsedOk, NotBack, StackOk, StopsAt, Supported, Single, Passed;
    assert forall sp :: k.Seen(sp) <==> sp in k.secondary;
    forall a: nat ensures NoDup(v.Users(a)) {
      assert a != k.alg && nalg != Some(a) ==> v.Users(a) == k.Now(a);
    }
    forall a: nat, sp {:trigger sp in v.Users(a)} ensures sp in v.Users(a) <==> sp in g.Users(a) && sp !in k.secondary {
      if sp in k.secondary {
        MetOnList(g, k, nalg, sp, a);
      }
      if a == k.alg {
        assert sp in k.g.Users(k.alg) ==> sp in k.Now(k.alg) || k.Seen(sp);
      } else if nalg != Some(a) {
        assert v.Users(a) == k.Now(a);
        assert sp in k.g.Users(a) ==> sp in k.Now(a) || k.Seen(sp);
      }
    }
  }

  /** A spawn that was met is on one of the lists that are followed. */
  lemma MetOnList(g: Graph, k: Walk, nalg: Option<nat>, sp: nat, a: nat)
    requires GraphOk(g) && k.Seen(sp) && Comes(k, sp)
    requires forall a: nat :: a != k.alg ==> k.g.Users(a) == if nalg == Some(a) then [] else g.Users(a)
    requires Within(k.g, g)
    ensures sp in g.Users(a) ==> sp in k.g.Users(a)
  {
    hide NoDup;
    var b :| sp in k.g.Users(b);
    assert sp in g.Users(b);
  }

  /** In the end every list holds those of its spawns that have their algorithm. */
  lemma ListsEnd(g: Graph, k: Walk, used: map<nat, Option<nat>>, used0: map<nat, Option<nat>>, nalg: Option<nat>,
                 v: Graph, w: Graph)
    requires Walking(k) && UsedOk(k, used, used0, nalg) && k.stack == [] && GraphOk(g) && UsersUsed(g, used0)
    requires w.spawns == g.spawns == k.g.spawns && Lost(g, k.secondary, v) && Returned(v, used, k.secondary, w)
    requires forall sp :: sp in k.secondary ==> exists a: nat :: sp in g.Users(a)
    ensures forall a: nat, sp {:trigger sp in w.Users(a)} ::
              sp in w.Users(a) <==> sp in g.Users(a) && sp in used && used[sp] == Some(a)
    ensures GraphOk(w) && UsersUsed(w, used)
  {
    hide NoDup, Met, Reached, Covered, Serves;
    forall a: nat, sp {:trigger sp in w.Users(a)}
      ensures sp in w.Users(a) <==> sp in g.Users(a) && sp in used && used[sp] == Some(a)
    {
      assert k.Seen(sp) <==> sp in k.secondary;
      if sp in k.secondary {
        var b: nat :| sp in g.Users(b);
        assert used0[sp] == Some(b);
      }
      assert sp in v.Users(a) <==> sp in g.Users(a) && sp !in k.secondary;
    }
  }

  /** What a removal that follows `h` from `alg` makes of the lists of `g`: each spawn is on the
      list of the algorithm it has, once, and on no other; none has come to have another
      algorithm; and those not followed have the one they had. */
  ghost predicate Settled(g: Graph, h: Graph, alg: nat, used0: map<nat, Option<nat>>, used: map<nat, Option<nat>>, w: Graph) {
    && GraphOk(w) && UsersUsed(w, used)
    && (forall a: nat, sp {:trigger sp in w.Users(a)} ::
          sp in w.Users(a) <==> sp in g.Users(a) && sp in used && used[sp] == Some(a))
    && (forall sp :: sp in g.spawns && sp in used0 && !Listed(h, alg, sp) ==> sp in used && used[sp] == used0[sp])
  }

  /** The lists followed are among the real ones. */
  ghost predicate Within(h: Graph, g: Graph) {
    h.spawns == g.spawns && forall a: nat, sp {:trigger sp in h.Users(a)} :: sp in h.Users(a) ==> sp in g.Users(a)
  }

  lemma AfterReap(g: Graph, k: Walk, used: map<nat, Option<nat>>, used0: map<nat, Option<nat>>, nalg: Option<nat>,
                  v: Graph, w: Graph)
    requires Walking(k) && Tracked(k, used, used0, nalg) && k.top == [] && k.stack == [] && GraphOk(g)
    requires UsersUsed(g, used0) && Within(k.g, g) && w.spawns == g.spawns
    requires Lost(g, k.secondary, v) && Returned(v, used, k.secondary, w)
    ensures Settled(g, k.g, k.alg, used0, used, w)
    ensures forall a: nat, sp {:trigger sp in g.Users(a)} ::
              sp in g.Users(a) && sp !in w.Users(a) ==> k.g.Inst(sp) in Doomed(g.spawns, used, k.secondary)
    ensures forall n: nat :: nalg == Some(n) && Reached(k.g, k.alg, n) ==> Reached(w, k.alg, n)
  {
    hide Met, Covered, Reached, NotBack, Finished, StackOk, StopsAt, Supported, Single, Passed, Lost, Returned, Serves,
         Listed, Doomed, NoDup;
    assert forall sp :: k.Seen(sp) <==> sp in k.secondary;
    forall sp | sp in k.secondary ensures exists a: nat :: sp in g.Users(a) {
      assert Comes(k, sp);
      var b :| sp in k.g.Users(b);
      assert sp in g.Users(b);
    }
    ListsEnd(g, k, used, used0, nalg, v, w);
    forall sp | sp in g.spawns && sp in used0 && !Listed(k.g, k.alg, sp) ensures sp in used && used[sp] == used0[sp] {
      if k.Seen(sp) {
        SeenListed(k, sp);
      }
    }
    forall a: nat, sp {:trigger sp in g.Users(a)} | sp in g.Users(a) && sp !in w.Users(a)
      ensures k.g.Inst(sp) in Doomed(g.spawns, used, k.secondary)
    {
      assert used0[sp] == Some(a);
      DoomedSpawn(g.spawns, used, k.secondary, sp);
    }
    forall n: nat | nalg == Some(n) && Reached(k.g, k.alg, n) ensures Reached(w, k.alg, n) {
      RetainsEnd(g, k, used, used0, nalg, w);
      ReplacementReached(k, used, used0, n, w);
    }
  }

  lemma DoomedSpawn(spawns: map<nat, Spawn>, used: map<nat, Option<nat>>, q: seq<nat>, sp: nat)
    requires sp in q && sp in used && used[sp].None?
    ensures Graph(spawns, map[]).Inst(sp) in Doomed(spawns, used, q)
  {
  }

  lemma RetainsEnd(g: Graph, k: Walk, used: map<nat, Option<nat>>, used0: map<nat, Option<nat>>, nalg: Option<nat>, w: Graph)
    requires UsedOk(k, used, used0, nalg) && ListsOk(k) && UsersUsed(g, used0) && Within(k.g, g) && w.spawns == g.spawns
    requires GraphOk(g)
    requires forall a: nat, sp {:trigger sp in w.Users(a)} ::
               sp in w.Users(a) <==> sp in g.Users(a) && sp in used && used[sp] == Some(a)
    ensures Retains(k.g, used, w)
  {
    hide NoDup, Serves;
    forall a: nat, sp {:trigger sp in w.Users(a)} | sp in k.g.Users(a) && HasAlg(used, sp) ensures sp in w.Users(a) {
      assert sp in g.Users(a) && used0[sp] == Some(a);
      assert k.Seen(sp) || sp in k.open;
    }
  }

  lemma LostApart(g: Graph, q: seq<nat>, v: Graph)
    requires Lost(g, q, v)
    ensures forall a: nat :: NoDup(v.Users(a))
    ensures forall a: nat, sp {:trigger sp in v.Users(a)} :: sp in v.Users(a) ==> sp !in q
  {
    hide NoDup;
  }

  lemma SecondaryOnce(k: Walk, used: map<nat, Option<nat>>, used0: map<nat, Option<nat>>, nalg: Option<nat>)
    requires Tracked(k, used, used0, nalg)
    ensures NoDup(k.secondary)
  {
    hide NoDup, UsedOk, NotBack, Finished, StopsAt, Supported, Single, Passed, Comes;
  }

  lemma SettledOk(g: Graph, h: Graph, alg: nat, used0: map<nat, Option<nat>>, used: map<nat, Option<nat>>, w: Graph)
    requires Settled(g, h, alg, used0, used, w)
    ensures GraphOk(w) && UsersUsed(w, used)
  {
    hide GraphOk, UsersUsed, Listed;
  }

  /** The checks of the last loop hold when no two of the spawns met are of one instance. */
  lemma NoneUsedEnd(g: Graph, k: Walk, used: map<nat, Option<nat>>, used0: map<nat, Option<nat>>, nalg: Option<nat>, v: Graph)
    requires Walking(k) && Tracked(k, used, used0, nalg) && k.top == [] && k.stack == []
    requires UsersUsed(g, used0) && Within(k.g, g) && v.spawns == g.spawns && k.users == Hidden(v.users, k.alg, nalg)
    requires Single(k.g, k.alg, nalg) || nalg.None?
    ensures NoneUsed(v, used, k.secondary)
  {
    hide Walking, Reached, StackOk, StopsAt, Supported, Single, Passed, Serves;
    forall sp | sp in k.secondary && sp in used && used[sp].None?
      ensures v.Users(v.Inst(sp)) == [] && forall t :: t in k.secondary && t in used ==> used[t] != Some(v.Inst(sp))
    {
      var x := v.Inst(sp);
      assert k.Seen(sp) && x == k.g.Inst(sp);
      assert k.Now(x) == [] && v.Users(x) == k.Now(x);
      NotServing(k, used, used0, nalg, sp);
      forall t | t in k.secondary && t in used ensures used[t] != Some(x) {
        assert k.Seen(t) && Comes(k, t);
        if used[t] == Some(x) {
          var b :| t in k.g.Users(b);
          assert t in g.Users(b);
          ServesOn(k.g, x, t, nalg);
        }
      }
    }
  }

  lemma NotServing(k: Walk, used: map<nat, Option<nat>>, used0: map<nat, Option<nat>>, nalg: Option<nat>, sp: nat)
    requires Walking(k) && Tracked(k, used, used0, nalg) && k.top == [] && k.stack == []
    requires Single(k.g, k.alg, nalg) || nalg.None?
    requires sp in k.secondary && sp in used && used[sp].None?
    ensures !Serves(k.g, k.g.Inst(sp), nalg)
  {
    hide Walking, Tracked, Reached, Single;
    if nalg.Some? {
      NotServed(k, used, used0, nalg, sp);
    }
  }

  /** Those of a list that are in a set, in order. */
  function Picked(q: seq<nat>, m: set<nat>): seq<nat> {
    if q == [] then [] else Picked(q[..|q|-1], m) + if q[|q|-1] in m then [q[|q|-1]] else []
  }

  function Reversed(q: seq<nat>): seq<nat> {
    if q == [] then [] else [q[|q|-1]] + Reversed(q[..|q|-1])
  }

  lemma PickedNext(q: seq<nat>, x: nat, m: set<nat>)
    ensures Picked(q + [x], m) == Picked(q, m) + (if x in m then [x] else [])
    ensures Reversed(Picked(q + [x], m)) == (if x in m then [x] else []) + Reversed(Picked(q, m))
  {
    assert (q + [x])[..|q|] == q;
    assert (Picked(q, m) + [x])[..|Picked(q, m)|] == Picked(q, m);
    assert x !in m ==> Picked(q, m) + [] == Picked(q, m);
  }

  lemma PickedNone(m: set<nat>)
    ensures Picked([], m) == [] && Reversed([]) == []
  {
  }

  lemma {:induction false} PickedFacts(q: seq<nat>, m: set<nat>)
    requires NoDup(q)
    ensures NoDup(Picked(q, m)) && forall x :: x in Picked(q, m) <==> x in q && x in m
    decreases |q|
  {
    if q != [] {
      var n := |q| - 1;
      PickedFacts(q[..n], m);
      assert q == q[..n] + [q[n]] && q[n] !in q[..n];
      NoDupSnoc(Picked(q[..n], m), q[n]);
    }
  }

  lemma {:induction false} ReversedFacts(q: seq<nat>)
    requires NoDup(q)
    ensures NoDup(Reversed(q)) && forall x :: x in Reversed(q) <==> x in q
    decreases |q|
  {
    if q != [] {
      var n := |q| - 1;
      ReversedFacts(q[..n]);
      assert q == q[..n] + [q[n]] && q[n] !in q[..n];
      ConsNoDup(q[n], Reversed(q[..n]));
    }
  }

  /** The walk leaves the lists of the algorithm and of the replacement alone. */
  predicate Untouched(u0: map<nat, seq<nat>>, u: map<nat, seq<nat>>, alg: nat, nalg: Option<nat>) {
    var g0, g := Graph(map[], u0), Graph(map[], u);
    g.Users(alg) == g0.Users(alg) && (nalg.Some? ==> g.Users(nalg.value) == g0.Users(nalg.value))
  }

  lemma UntouchedAt(u: map<nat, seq<nat>>, alg: nat, nalg: Option<nat>)
    ensures Untouched(u, u, alg, nalg)
  {
  }

  lemma UntouchedOn(u0: map<nat, seq<nat>>, u: map<nat, seq<nat>>, alg: nat, nalg: Option<nat>, x: nat, list: seq<nat>)
    requires Untouched(u0, u, alg, nalg) && x != alg && nalg != Some(x)
    ensures Untouched(u0, u[x := list], alg, nalg)
  {
  }

  lemma UntouchedThen(u0: map<nat, seq<nat>>, u1: map<nat, seq<nat>>, u: map<nat, seq<nat>>, alg: nat, nalg: Option<nat>)
    requires Untouched(u0, u1, alg, nalg) && Untouched(u1, u, alg, nalg)
    ensures Untouched(u0, u, alg, nalg)
  {
  }

  /** The algorithms and instances with everything the removal code updates: user lists,
      `spawn->alg`, flags, the list of registered ones, the templates' lists of instances. */
  class Registry {
    const spawns: map<nat, Spawn>
    var users: map<nat, seq<nat>>
    var used: map<nat, Option<nat>>
    var flags: map<nat, set<nat>>
    var listed: set<nat>
    var hashed: set<nat>
    var getable: set<nat>
    var removed: seq<nat>
    var bug: bool

    constructor (spawns: map<nat, Spawn>)
      ensures this.spawns == spawns && users == map[] && !bug && Valid()
    {
      this.spawns, users, used, flags := spawns, map[], map[], map[];
      listed, hashed, getable, removed, bug := {}, {}, {}, [], false;
    }

    function View(): Graph
      reads `users
    {
      Graph(spawns, users)
    }

    function Flags(a: nat): set<nat>
      reads `flags
    {
      FlagsOf(flags, a)
    }

    predicate Dead(a: nat)
      reads `flags
    {
      DEAD in Flags(a)
    }

    /** `spawn->alg` says on whose list a spawn hangs. */
    ghost predicate Valid()
      reads this
    {
      GraphOk(View()) && UsersUsed(View(), used)
    }

    /** `crypto_init_spawn`: a spawn not in use yet goes on the list of a living algorithm. */
    method InitSpawn(sp: nat, alg: nat) returns (err: int)
      requires Valid() && sp in spawns && forall a: nat :: sp !in View().Users(a)
      modifies `users, `used
      ensures Valid() && err == if DEAD in Flags(alg) || DYING in Flags(alg) then -EAGAIN else 0
      ensures err != 0 ==> users == old(users) && used == old(used)
      ensures err == 0 ==> used == old(used)[sp := Some(alg)]
      ensures err == 0 ==> users == old(users)[alg := [sp] + old(View()).Users(alg)]
    {
      if DEAD in Flags(alg) || DYING in Flags(alg) {
        return -EAGAIN;
      }
      SpawnAdded(View(), used, sp, alg);
      users, used := users[alg := [sp] + View().Users(alg)], used[sp := Some(alg)];
      err := 0;
    }

    /** `crypto_remove_spawn`: the instance dies; a registered one goes on the list `removed`. */
    method RemoveSpawn(sp: nat)
      requires sp in spawns
      modifies `flags, `hashed, `removed, `bug
      ensures var x := spawns[sp].inst;
              && Dead(x) && (forall y: nat :: y != x ==> FlagsOf(flags, y) == FlagsOf(old(flags), y))
              && var goes := !old(Dead(x)) && x in old(hashed) && x in getable;
              && removed == (if goes then [x] else []) + old(removed)
              && hashed == (if goes then old(hashed) - {x} else old(hashed))
              && bug == (old(bug) || (goes && View().Users(x) != []))
    {
      var x := spawns[sp].inst;
      if Dead(x) {
        return;
      }
      flags := flags[x := Flags(x) + {DEAD}];
      if x !in hashed {
        return;
      }
      if x !in getable {
        return;
      }
      removed, hashed := [x] + removed, hashed - {x};
      if View().Users(x) != [] {
        bug := true;
      }
    }

    /** Whether a spawn insists on nothing in which its algorithm differs from the new type. */
    predicate Matches(sp: nat, newType: set<nat>)
      reads `used, `flags
    {
      && sp in spawns && sp in used && used[sp].Some?
      && var now := Flags(used[sp].value);
      ((now - newType) + (newType - now)) * spawns[sp].mask == {}
    }

    /** The first loop of `crypto_remove_spawns`: matching users of `alg` go on a list of their own. */
    method SplitUsers(alg: nat, newType: set<nat>) returns (top: seq<nat>)
      requires Valid()
      modifies `users
      ensures (forall a: nat :: a != alg ==> View().Users(a) == old(View()).Users(a))
      ensures NoDup(top) && NoDup(View().Users(alg))
      ensures forall sp :: sp in top <==> sp in old(View()).Users(alg) && Matches(sp, newType)
      ensures forall sp :: sp in View().Users(alg) <==> sp in old(View()).Users(alg) && !Matches(sp, newType)
      ensures var all := old(View()).Users(alg); var matching := set sp | sp in all && Matches(sp, newType);
              top == Reversed(Picked(all, matching)) && View().Users(alg) == Picked(all, (set sp | sp in all) - matching)
    {
      hide Matches, NoDup, Picked, Reversed;
      var all := View().Users(alg);
      assert NoDup(all);
      var kept := [];
      top := [];
      ghost var matching := set sp | sp in all && Matches(sp, newType);
      ghost var others := (set sp | sp in all) - matching;
      PickedNone(matching);
      PickedNone(others);
      for i := 0 to |all|
        invariant users == old(users) && used == old(used) && flags == old(flags)
        invariant top == Reversed(Picked(all[..i], matching)) && kept == Picked(all[..i], others)
      {
        assert all[i] in all && all[..i+1] == all[..i] + [all[i]];
        PickedNext(all[..i], all[i], matching);
        PickedNext(all[..i], all[i], others);
        if Matches(all[i], newType) {
          top := [all[i]] + top;
        } else {
          kept := kept + [all[i]];
        }
      }
      assert all[..|all|] == all;
      PickedFacts(all, matching);
      PickedFacts(all, others);
      ReversedFacts(Picked(all, matching));
      users := users[alg := kept];
      assert matching == set sp | sp in all && Matches(sp, newType);
    }

    /** `crypto_more_spawns`: the top of the stack is finished.  If it is to stay, so is the one
        below it, which takes back the algorithm it uses. */
    method MoreSpawns(alg: nat, stack: seq<nat>, secondary: seq<nat>)
      returns (more: bool, rest: seq<nat>, done: seq<nat>)
      requires forall sp :: sp in stack ==> sp in spawns && sp in used
      modifies `used
      ensures more <==> stack != []
      ensures more ==> rest == stack[1..] && done == [stack[0]] + secondary
      ensures !more ==> rest == stack && done == secondary
      ensures used == if |stack| > 1 && old(used)[stack[0]].Some? && old(used)[stack[1]].None?
                      then old(used)[stack[1] := Some(if |stack| == 2 then alg else spawns[stack[2]].inst)]
                      else old(used)
      ensures used.Keys == old(used).Keys
      ensures forall sp :: sp in used && used[sp] != old(used)[sp] ==> sp in stack && used[sp].Some?
      ensures (forall sp :: sp in stack ==> old(used)[sp].None?) ==> used == old(used)
    {
      more, rest, done := stack != [], stack, secondary;
      if stack == [] {
        return;
      }
      if used[stack[0]].Some? && |stack| > 1 && used[stack[1]].None? {
        used := used[stack[1] := Some(if |stack| == 2 then alg else spawns[stack[2]].inst)];
      }
      rest, done := stack[1..], [stack[0]] + secondary;
    }

    /** The walk of `crypto_remove_spawns`, depth first with a stack of its own. */
    method WalkUsers(alg: nat, nalg: Option<nat>, top0: seq<nat>, ghost h: Graph, ghost k0: Walk)
      returns (secondary: seq<nat>, ghost k: Walk)
      requires h.spawns == spawns && !bug && k0 == Walk(h, alg, Hidden(users, alg, nalg), top0, spawns.Keys, [], [])
      requires Walking(k0) && Used(h, used) && UsersUsed(h, used) && StopsAt(k0, nalg)
      modifies `users, `used, `bug
      ensures bug ==> Reached(h, alg, alg)
      ensures !bug ==> k == Walk(h, alg, Hidden(users, alg, nalg), [], k.open, [], secondary) && Walking(k)
      ensures !bug ==> Tracked(k, used, old(used), nalg) && (k, used) == Walked(k0, old(used), nalg)
      ensures !bug ==> Untouched(old(users), users, alg, nalg)
    {
      hide Walking, Tracked, Used, UsersUsed, Reached, Walked, StopsAt, GivenBack, Hidden, Untouched;
      var top, stack := top0, [];
      UntouchedAt(users, alg, nalg);
      secondary := [];
      k := k0;
      HiddenOwn(users, alg, nalg);
      WalkStart(k, used, nalg);
      var more := true;
      while more
        invariant !bug && k == Walk(h, alg, Hidden(users, alg, nalg), top, k.open, stack, secondary) && Walking(k)
        invariant Tracked(k, used, old(used), nalg) && Walked(k, used, nalg) == Walked(k0, old(used), nalg)
        invariant Untouched(old(users), users, alg, nalg) && (stack != [] ==> nalg != Some(Inst(stack[0])))
        invariant !more ==> top == [] && stack == []
        decreases 2 * |k.open| + |stack|, more
      {
        ghost var users1 := users;
        top, stack, k := Descend(alg, nalg, top, stack, old(used), k);
        if bug {
          return;
        }
        UntouchedThen(old(users), users1, users, alg, nalg);
        StackKnown(k, used, old(used), nalg);
        if stack != [] {
          PopOk(k);
          PopTracked(k, used, old(used), nalg);
          WalkedUp(k, used, nalg);
        }
        ghost var used1 := used;
        more, stack, secondary := MoreSpawns(alg, stack, secondary);
        if more {
          assert used == GivenBack(k, used1) by { GivenIs(k, used1, used); }
          k := Pop(k);
        }
      }
      WalkedOut(k, used, nalg);
    }

    /** The inner loop: down the first users, clearing `spawn->alg` on the way. */
    method Descend(alg: nat, nalg: Option<nat>, top0: seq<nat>, stack0: seq<nat>,
                   ghost used0: map<nat, Option<nat>>, ghost k0: Walk)
      returns (top: seq<nat>, stack: seq<nat>, ghost k: Walk)
      requires !bug && k0.g.spawns == spawns && k0.alg == alg && k0.users == Hidden(users, alg, nalg)
      requires k0.top == top0 && k0.stack == stack0 && (stack0 != [] ==> nalg != Some(Inst(stack0[0])))
      requires Walking(k0) && Tracked(k0, used, used0, nalg) && Used(k0.g, used0)
      modifies `users, `used, `bug
      ensures bug ==> Reached(k0.g, alg, alg)
      ensures !bug ==> k == Walk(k0.g, alg, Hidden(users, alg, nalg), top, k.open, stack, k0.secondary) && Walking(k)
      ensures !bug ==> Tracked(k, used, used0, nalg) && Walked(k, used, nalg) == Walked(k0, old(used), nalg)
      ensures !bug ==> 2 * |k.open| + |stack| <= 2 * |k0.open| + |stack0|
      ensures !bug ==> k.Current() == [] && Untouched(old(users), users, alg, nalg)
    {
      hide Walking, Tracked, Used, Reached, Walked, Hidden, Push, Untouched;
      top, stack, k := top0, stack0, k0;
      UntouchedAt(users, alg, nalg);
      var go := true;
      while go && (if stack == [] then top else View().Users(Inst(stack[0]))) != []
        invariant !bug && k == Walk(k0.g, alg, Hidden(users, alg, nalg), top, k.open, stack, k0.secondary) && Walking(k)
        invariant Tracked(k, used, used0, nalg) && Walked(k, used, nalg) == Walked(k0, old(used), nalg)
        invariant 2 * |k.open| + |stack| <= 2 * |k0.open| + |stack0| && Untouched(old(users), users, alg, nalg)
        invariant stack != [] ==> (go <==> nalg != Some(Inst(stack[0])))
        invariant stack == [] ==> go
        decreases 2 * |k.open| + |stack|
      {
        var list := if stack == [] then top else View().Users(Inst(stack[0]));
        CurrentIs(k, users, alg, nalg, used, used0);
        assert list == k.Current();
        var sp := list[0];
        BackReached(k, used, used0, nalg);
        if Inst(sp) == alg {
          bug := true;
          return;
        }
        DownStep(k, users, alg, nalg, used, used0);
        if stack == [] {
          top := list[1..];
        } else {
          UntouchedOn(old(users), users, alg, nalg, Inst(stack[0]), list[1..]);
          users := users[Inst(stack[0]) := list[1..]];
        }
        stack := [sp] + stack;
        if nalg == Some(Inst(sp)) {
          go := false;
        } else {
          used := used[sp := None];
        }
        k := Push(k);
      }
      CurrentIs(k, users, alg, nalg, used, used0);
    }

    function Inst(sp: nat): nat { if sp in spawns then spawns[sp].inst else 0 }

    /** Whether an instance goes on the list `removed` when it dies. */
    predicate Goes(x: nat)
      reads `flags, `hashed, `getable
    {
      !Dead(x) && x in hashed && x in getable
    }

    /** One round of the last loop of `crypto_remove_spawns`. */
    method ReapOne(sp: nat, ghost f0: map<nat, set<nat>>, ghost h0: set<nat>, ghost doomed: set<nat>, ghost reaped0: seq<nat>)
      returns (ghost reaped: seq<nat>)
      requires sp in spawns && sp in used && Reaping(f0, flags, h0, hashed, getable, doomed, reaped0)
      modifies `users, `flags, `hashed, `removed, `bug
      ensures Reaping(f0, flags, h0, hashed, getable, if used[sp].None? then doomed + {Inst(sp)} else doomed, reaped)
      ensures forall r :: old(removed) == reaped0 + r ==> removed == reaped + r
      ensures used[sp].None? ==> users == old(users)
      ensures used[sp].Some? ==> users == old(users)[used[sp].value := [sp] + old(View()).Users(used[sp].value)]
      ensures used[sp].Some? || View().Users(Inst(sp)) == [] ==> bug == old(bug)
    {
      hide Reaping;
      reaped := reaped0;
      if used[sp].Some? {
        var a := used[sp].value;
        users := users[a := [sp] + View().Users(a)];
      } else {
        ghost var f, h, x := flags, hashed, Inst(sp);
        RemoveSpawn(sp);
        ReapingOne(f0, f, flags, h0, h, hashed, getable, doomed, reaped, x);
        reaped := if DEAD !in FlagsOf(f, x) && x in h && x in getable then [x] + reaped else reaped;
      }
    }

    /** The last loop of `crypto_remove_spawns`: spawns with an algorithm go back on its user
        list, the instances of the others die. */
    method Reap(secondary: seq<nat>) returns (ghost reaped: seq<nat>)
      requires forall sp :: sp in secondary ==> sp in spawns && sp in used
      requires NoDup(secondary) && forall a: nat :: NoDup(View().Users(a))
      requires forall a: nat, sp {:trigger sp in View().Users(a)} :: sp in View().Users(a) ==> sp !in secondary
      modifies `users, `flags, `hashed, `removed, `bug
      ensures forall x: nat :: x !in Doomed(spawns, used, secondary) ==> Flags(x) == old(Flags(x))
      ensures forall x :: x in Doomed(spawns, used, secondary) ==> Dead(x)
      ensures removed == reaped + old(removed) && NoDup(reaped)
      ensures forall x :: x in reaped <==> old(Goes(x)) && x in Doomed(spawns, used, secondary)
      ensures Returned(old(View()), used, secondary, View())
      ensures (forall sp :: sp in secondary ==> used[sp].None?) ==> users == old(users)
      ensures NoneUsed(old(View()), used, secondary) ==> bug == old(bug)
    {
      hide NoDup, Doomed, Reaping, Returned, NoneUsed;
      reaped := [];
      ReturnedNone(View(), used);
      ghost var doomed: set<nat> := {};
      DoomedNone(spawns, used);
      ReapingNone(flags, hashed, getable);
      for i := 0 to |secondary|
        invariant doomed == Doomed(spawns, used, secondary[..i]) && removed == reaped + old(removed)
        invariant Reaping(old(flags), flags, old(hashed), hashed, getable, doomed, reaped)
        invariant Returned(old(View()), used, secondary[..i], View())
        invariant (forall sp :: sp in secondary ==> used[sp].None?) ==> users == old(users)
        invariant NoneUsed(old(View()), used, secondary) ==> bug == old(bug)
      {
        var sp := secondary[i];
        assert secondary[..i+1] == secondary[..i] + [sp];
        FirstTime(secondary, i);
        StillUnused(old(View()), used, secondary, i, View());
        ghost var w := View();
        DoomedOne(spawns, used, secondary[..i], sp);
        reaped := ReapOne(sp, old(flags), old(hashed), doomed, reaped);
        doomed := if used[sp].None? then doomed + {Inst(sp)} else doomed;
        ReturnedOne(old(View()), used, secondary[..i], w, sp, View());
      }
      assert secondary[..|secondary|] == secondary;
      ReapingDone(old(flags), flags, old(hashed), hashed, getable, doomed, reaped);
    }

    /** The lists that are followed: of `alg` the spawns that match the type of the replacement,
        last one first, and nothing beyond the replacement itself. */
    ghost predicate Follows(g: Graph, alg: nat, nalg: Option<nat>, h: Graph)
      reads `used, `flags
    {
      && h.spawns == g.spawns
      && (forall a: nat :: a != alg ==> h.Users(a) == if nalg == Some(a) then [] else g.Users(a))
      && h.Users(alg) == Reversed(Picked(g.Users(alg), Agreeing(g, alg, if nalg.Some? then nalg.value else alg)))
    }

    /** The users of `alg` that insist on no flag in which it and `other` differ. */
    ghost function Agreeing(g: Graph, alg: nat, other: nat): set<nat>
      reads `flags
    {
      set sp | sp in g.Users(alg) && sp in g.spawns
               && forall f :: f in g.spawns[sp].mask ==> (f in Flags(alg) <==> f in Flags(other))
    }

    /** `crypto_remove_spawns`.  `h` is what is followed.  Of the instances that depend on `alg`
        there, those die that the replacement neither is nor depends on; and if no two of the
        spawns met are of one instance, only those.  The registered ones among the dead are
        collected once each, the other spawns are back on their lists, and the replacement
        depends on `alg` if it did.  Without a replacement those that die are all that depend
        on `alg`, and no check on the way fails unless `alg` depends on itself. */
    method RemoveSpawns(alg: nat, nalg: Option<nat>) returns (ghost reaped: seq<nat>, ghost h: Graph)
      requires Valid() && !bug
      modifies `users, `used, `flags, `hashed, `removed, `bug
      ensures old(Follows(View(), alg, nalg, h))
      ensures forall x: nat :: Dead(x) ==> old(Dead(x)) || (Reached(h, alg, x) && nalg != Some(x))
      ensures forall x: nat :: old(Dead(x)) ==> Dead(x)
      ensures !Reached(h, alg, alg) ==> forall x: nat :: Reached(h, alg, x) && !Serves(h, x, nalg) ==> Dead(x)
      ensures !Reached(h, alg, alg) && Single(h, alg, nalg) ==>
                forall x: nat :: Dead(x) <==> old(Dead(x)) || (Reached(h, alg, x) && !Serves(h, x, nalg))
      ensures !Reached(h, alg, alg) ==> removed == reaped + old(removed) && NoDup(reaped)
      ensures !Reached(h, alg, alg) ==> forall x: nat :: x in reaped <==> old(Goes(x)) && Dead(x)
      ensures !Reached(h, alg, alg) ==> Valid() && Settled(old(View()), h, alg, old(used), used, View())
      ensures !Reached(h, alg, alg) ==>
                forall a: nat, sp {:trigger sp in old(View()).Users(a)} ::
                  sp in old(View()).Users(a) && sp !in View().Users(a) ==> Dead(Inst(sp))
      ensures Reached(h, alg, alg) ==> bug
      ensures !Reached(h, alg, alg) && (Single(h, alg, nalg) || nalg.None?) ==> !bug
      ensures !Reached(h, alg, alg) && nalg.Some? && Reached(h, alg, nalg.value) ==> Reached(View(), alg, nalg.value)
      ensures forall x: nat :: Reached(h, alg, x) ==> Reached(old(View()), alg, x)
      ensures nalg.None? ==> forall x: nat :: Reached(old(View()), alg, x) ==> Reached(h, alg, x)
      ensures nalg.None? ==> (bug <==> Reached(old(View()), alg, alg))
      ensures nalg.None? && !bug ==> forall x: nat :: Reached(old(View()), alg, x) ==> View().Users(x) == []
      ensures nalg.None? && !bug ==> Valid() && View().Users(alg) == [] && Kept(old(View()), alg, View())
      ensures nalg.Some? ==> Flags(nalg.value) == old(Flags(nalg.value))
    {
      hide Walking, Tracked, Used, Reached, GraphOk, Kept, Doomed, Serves, Single, Walked, Hidden, UsersUsed, Follows, StopsAt,
           Settled, Within, Lost, Returned, NoneUsed, NoDup;
      ghost var g, used0 := View(), used;
      reaped := [];
      var top;
      top, h := StartWalk(alg, nalg);
      var secondary;
      ghost var k;
      secondary, k := WalkUsers(alg, nalg, top, h, Walk(h, alg, Hidden(users, alg, nalg), top, spawns.Keys, [], []));
      if bug {
        return;
      }
      EndDoomed(k, used, used0, nalg);
      ListsLost(g, k, used, used0, nalg, View());
      LostApart(g, secondary, View());
      SecondaryOnce(k, used, used0, nalg);
      if Single(h, alg, nalg) || nalg.None? {
        NoneUsedEnd(g, k, used, used0, nalg, View());
      }
      if nalg.None? {
        WalkDone(k, used, used0);
        HiddenNone(users, alg);
        DoneHere(g, h, alg, k.users, users, used);
      }
      ghost var v := View();
      reaped := Reap(secondary);
      AfterReap(g, k, used, used0, nalg, v, View());
      SettledOk(g, h, alg, used0, used, View());
    }

    /** The split of the user list, and what it leaves to be followed. */
    method StartWalk(alg: nat, nalg: Option<nat>) returns (top: seq<nat>, ghost h: Graph)
      requires Valid()
      modifies `users
      ensures old(Follows(View(), alg, nalg, h)) && h.spawns == spawns && Within(h, old(View()))
      ensures forall a: nat :: a != alg ==> h.Users(a) == if nalg == Some(a) then [] else old(View()).Users(a)
      ensures forall a: nat :: a != alg ==> View().Users(a) == old(View()).Users(a)
      ensures NoDup(View().Users(alg))
      ensures forall sp :: sp in View().Users(alg) <==> sp in old(View()).Users(alg) && sp !in h.Users(alg)
      ensures var k := Walk(h, alg, Hidden(users, alg, nalg), top, spawns.Keys, [], []);
              Walking(k) && Used(h, used) && StopsAt(k, nalg) && UsersUsed(h, used)
      ensures forall x: nat :: Reached(h, alg, x) ==> Reached(old(View()), alg, x)
      ensures nalg.None? ==> forall x: nat :: Reached(old(View()), alg, x) ==> Reached(h, alg, x)
      ensures nalg.None? ==> View().Users(alg) == []
      ensures nalg.None? ==>
                forall a: nat, sp {:trigger sp in h.Users(a)} :: sp in h.Users(a) <==> sp in old(View()).Users(a)
    {
      hide Walking, Used, Reached, GraphOk, Hidden, UsersUsed, Matches, StopsAt, Agreeing, Picked, Reversed;
      ghost var g := View();
      var newType := Flags(if nalg.Some? then nalg.value else alg);
      AllMatch(alg);
      AgreeingIs(alg, if nalg.Some? then nalg.value else alg);
      ghost var agreeing := Agreeing(g, alg, if nalg.Some? then nalg.value else alg);
      top := SplitUsers(alg, newType);
      assert agreeing == set sp | sp in g.Users(alg) && Matches(sp, newType);
      h := Pruned(g, alg, nalg, top);
      SplitWalks(g, alg, nalg, users, top, newType);
      assert forall a: nat, sp {:trigger sp in h.Users(a)} :: sp in h.Users(a) ==> sp in g.Users(a);
      SubReach(g, h, alg);
      if nalg.None? {
        NoneLeft(View().Users(alg));
        assert forall a: nat, sp {:trigger sp in g.Users(a)} :: sp in g.Users(a) ==> sp in h.Users(a);
        SameReach(g, h, alg);
      }
    }

    /** To match is to insist on no flag in which the two differ. */
    lemma MatchesAgree(alg: nat, other: nat, sp: nat)
      requires Valid() && sp in View().Users(alg)
      ensures sp in spawns
      ensures Matches(sp, Flags(other)) <==> forall f :: f in spawns[sp].mask ==> (f in Flags(alg) <==> f in Flags(other))
    {
      var now, newType := Flags(alg), Flags(other);
      var diff := ((now - newType) + (newType - now)) * spawns[sp].mask;
      if diff == {} {
        forall f | f in spawns[sp].mask ensures f in now <==> f in newType {
          assert f !in diff;
        }
      }
    }

    lemma AgreeingIs(alg: nat, other: nat)
      requires Valid()
      ensures (set sp | sp in View().Users(alg) && Matches(sp, Flags(other))) == Agreeing(View(), alg, other)
    {
      hide Matches, Valid;
      forall sp | sp in View().Users(alg)
        ensures Matches(sp, Flags(other)) <==> sp in Agreeing(View(), alg, other)
      {
        MatchesAgree(alg, other, sp);
      }
    }

    /** Every user of `alg` matches the type of `alg` itself. */
    lemma AllMatch(alg: nat)
      requires Valid()
      ensures forall sp :: sp in View().Users(alg) ==> Matches(sp, Flags(alg))
    {
    }

    /** After the split, the walk can begin. */
    lemma SplitWalks(g: Graph, alg: nat, nalg: Option<nat>, users: map<nat, seq<nat>>, top: seq<nat>, newType: set<nat>)
      requires GraphOk(g) && UsersUsed(g, used) && NoDup(top)
      requires var h := Graph(g.spawns, users);
               && (forall a: nat :: a != alg ==> h.Users(a) == g.Users(a))
               && (forall sp :: sp in top <==> sp in g.Users(alg) && Matches(sp, newType))
      ensures var h := Pruned(g, alg, nalg, top);
              var k := Walk(h, alg, Hidden(users, alg, nalg), top, g.spawns.Keys, [], []);
              && Walking(k) && Used(h, used) && StopsAt(k, nalg) && UsersUsed(h, used)
              && h.spawns == g.spawns
              && forall a: nat :: h.Users(a) == if a == alg then top else if nalg == Some(a) then [] else g.Users(a)
    {
      hide Matches, Pruned, Hidden;
      var h := Pruned(g, alg, nalg, top);
      assert h.spawns == g.spawns by { PrunedSpawns(g, alg, nalg, top); }
      forall a: nat ensures h.Users(a) == if a == alg then top else if nalg == Some(a) then [] else g.Users(a) {
        PrunedUsers(g, alg, nalg, top, a);
      }
      StartWalking(g, h, alg, nalg, users, top);
    }

    /** `crypto_remove_alg`: a registered algorithm and all that depends on it. */
    method RemoveAlg(alg: nat) returns (err: int, ghost reaped: seq<nat>)
      requires Valid() && !bug
      modifies `users, `used, `flags, `hashed, `removed, `bug, `listed
      ensures err == if alg in old(listed) then 0 else -ENOENT
      ensures err != 0 ==> unchanged(this)
      ensures err == 0 ==> listed == old(listed) - {alg} && (bug <==> Reached(old(View()), alg, alg))
      ensures err == 0 && !bug ==> Valid() && Kept(old(View()), alg, View())
      ensures err == 0 && !bug ==>
                forall x: nat :: Dead(x) <==> old(Dead(x)) || x == alg || Reached(old(View()), alg, x)
      ensures err == 0 && !bug ==>
                forall x: nat :: x == alg || Reached(old(View()), alg, x) ==> View().Users(x) == []
      ensures err == 0 && !bug ==> removed == reaped + old(removed) && NoDup(reaped)
      ensures err == 0 && !bug ==>
                forall x: nat :: x in reaped <==> old(Goes(x)) && Reached(old(View()), alg, x)
    {
      hide Reached, GraphOk, Kept, UsersUsed, NoDup, Single;
      reaped := [];
      if alg !in listed {
        return -ENOENT, [];
      }
      ghost var g := View();
      flags := flags[alg := Flags(alg) + {DEAD}];
      listed := listed - {alg};
      ghost var h;
      reaped, h := RemoveSpawns(alg, None);
      err := 0;
    }

    /** A replacement that uses the algorithm it replaces, as a wrapper under the same name does,
        survives the replacing and dies when the algorithm is removed after it. */
    method ReplaceThenRemove(alg: nat, n: nat) returns (ghost h: Graph)
      requires Valid() && !bug && alg in listed
      modifies `users, `used, `flags, `hashed, `removed, `bug, `listed
      ensures old(Follows(View(), alg, Some(n), h))
      ensures !bug && Reached(h, alg, n) ==> Dead(n) && Valid()
    {
      hide Reached, GraphOk, Kept, UsersUsed, NoDup, Single, Follows, Settled;
      ghost var reaped;
      reaped, h := RemoveSpawns(alg, Some(n));
      if bug {
        return;
      }
      var err;
      err, reaped := RemoveAlg(alg);
    }
  }
}
