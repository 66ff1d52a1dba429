/** Tearing down the users of a crypto algorithm (`crypto_remove_spawns`).  An instance uses
    other algorithms through its spawns; every spawn hangs on the user list of the algorithm it
    uses.  Removing an algorithm walks those lists depth first; this is what the walk keeps and
    where it ends, with a replacement for the algorithm or without.
 */
module Spawns {
  import opened Lists

  /** The instance that uses the algorithm, and which type flags it insists on. */
  datatype Spawn = Spawn(inst: nat, mask: set<nat>)

  /** Who uses what: the spawns and the user list of every algorithm. */
  datatype Graph = Graph(spawns: map<nat, Spawn>, users: map<nat, seq<nat>>) {
    function Users(a: nat): seq<nat> { if a in users then users[a] else [] }
    function Inst(sp: nat): nat { if sp in spawns then spawns[sp].inst else 0 }
  }

  // ----- reachability

  /** A chain of users: the first spawn uses `alg`, each next one uses the instance before it. */
  ghost predicate Chain(g: Graph, alg: nat, p: seq<nat>) {
    && p != [] && p[0] in g.Users(alg)
    && forall i :: 0 < i < |p| ==> p[i] in g.Users(g.Inst(p[i-1]))
  }

  ghost predicate ReachedBy(g: Graph, alg: nat, x: nat, p: seq<nat>) {
    Chain(g, alg, p) && g.Inst(p[|p|-1]) == x
  }

  /** `x` depends on `alg`, directly or not. */
  ghost predicate Reached(g: Graph, alg: nat, x: nat) {
    exists p :: ReachedBy(g, alg, x, p)
  }

  lemma UserReached(g: Graph, alg: nat, sp: nat)
    requires sp in g.Users(alg)
    ensures Reached(g, alg, g.Inst(sp))
  {
    assert ReachedBy(g, alg, g.Inst(sp), [sp]);
  }

  lemma ReachedOn(g: Graph, alg: nat, x: nat, sp: nat)
    requires Reached(g, alg, x) && sp in g.Users(x)
    ensures Reached(g, alg, g.Inst(sp))
  {
    var p :| ReachedBy(g, alg, x, p);
    var q := p + [sp];
    forall i | 0 < i < |q| ensures q[i] in g.Users(g.Inst(q[i-1])) {
    }
    assert ReachedBy(g, alg, g.Inst(sp), q);
  }

  /** A set with the users of `alg`, and with the users of all its members, has all reached. */
  lemma {:induction false} ClosedHasReached(g: Graph, alg: nat, c: set<nat>, p: seq<nat>)
    requires Chain(g, alg, p)
    requires forall sp :: sp in g.Users(alg) ==> g.Inst(sp) in c
    requires forall x, sp :: x in c && sp in g.Users(x) ==> g.Inst(sp) in c
    ensures g.Inst(p[|p|-1]) in c
    decreases |p|
  {
    if |p| > 1 {
      var q := p[..|p|-1];
      assert Chain(g, alg, q);
      ClosedHasReached(g, alg, c, q);
    }
  }

  // ----- the walk

  /** Every spawn is known and hangs on at most one list, once. */
  ghost predicate GraphOk(g: Graph) {
    && (forall a :: NoDup(g.Users(a)))
    && (forall a, sp {:trigger sp in g.Users(a)} :: sp in g.Users(a) ==> sp in g.spawns)
    && (forall a, b, sp {:trigger sp in g.Users(a), sp in g.Users(b)} :: sp in g.Users(a) && sp in g.Users(b) ==> a == b)
  }

  /** The walk of `g` from `alg`: the lists as they are now, the spawns still to be pushed, and
      the matching users of `alg` itself on the list `top`. */
  datatype Walk = Walk(g: Graph, alg: nat, users: map<nat, seq<nat>>, top: seq<nat>, open: set<nat>,
                       stack: seq<nat>, secondary: seq<nat>)
  {
    function Now(a: nat): seq<nat> { Graph(g.spawns, users).Users(a) }

    ghost predicate Seen(sp: nat) { sp in stack || sp in secondary }

    /** The list being emptied: the users of the instance on top of the stack. */
    function Current(): seq<nat> {
      if stack == [] then top else Now(g.Inst(stack[0]))
    }
  }

  /** The lists hold open spawns only, each where it was, once. */
  ghost predicate ListsOk(k: Walk) {
    && NoDup(k.top) && k.open <= k.g.spawns.Keys
    && (forall sp :: sp in k.top ==> sp in k.open && sp in k.g.Users(k.alg))
    && (forall a :: NoDup(k.Now(a)))
    && (forall a, sp {:trigger sp in k.Now(a)} :: sp in k.Now(a) ==> sp in k.g.Users(a) && sp in k.open && sp !in k.top)
    && (forall sp :: k.Seen(sp) ==> sp in k.g.spawns && sp !in k.open)
    && (forall sp :: sp in k.g.spawns ==> sp in k.open || k.Seen(sp))
  }

  /** No spawn is lost. */
  ghost predicate Covered(k: Walk) {
    forall a, sp {:trigger sp in k.g.Users(a)} :: sp in k.g.Users(a) ==> sp in k.Now(a) || sp in k.top || k.Seen(sp)
  }

  /** Every spawn pushed belongs to an instance that depends on `alg`. */
  ghost predicate Met(k: Walk) {
    forall sp :: k.Seen(sp) ==> Reached(k.g, k.alg, k.g.Inst(sp))
  }

  /** What is finished has no users left, nor has the algorithm itself. */
  ghost predicate Finished(k: Walk) {
    && k.Now(k.alg) == []
    && forall sp :: sp in k.secondary ==> k.Now(k.g.Inst(sp)) == []
  }

  ghost predicate Walking(k: Walk) {
    GraphOk(k.g) && ListsOk(k) && Covered(k) && Met(k)
  }

  /** `list_move` of the first of the current list to the stack. */
  function Push(k: Walk): Walk
    requires k.Current() != []
  {
    var sp := k.Current()[0];
    var k' := if k.stack == [] then k.(top := k.top[1..])
              else k.(users := k.users[k.g.Inst(k.stack[0]) := k.Current()[1..]]);
    k'.(open := k.open - {sp}, stack := [sp] + k.stack)
  }

  /** `list_move` of the top of the stack to the finished ones. */
  function Pop(k: Walk): Walk
    requires k.stack != []
  {
    k.(stack := k.stack[1..], secondary := [k.stack[0]] + k.secondary)
  }

  lemma PushNow(k: Walk, a: nat)
    requires k.Current() != []
    ensures Push(k).Now(a) == if k.stack != [] && a == k.g.Inst(k.stack[0]) then k.Now(a)[1..] else k.Now(a)
  {
  }

  lemma NoDupTail(q: seq<nat>)
    requires NoDup(q) && q != []
    ensures NoDup(q[1..]) && q[0] !in q[1..] && forall x :: x in q <==> x == q[0] || x in q[1..]
  {
    assert q == [q[0]] + q[1..];
  }

  /** Only the pushed spawn leaves the user lists. */
  lemma PushLeaves(k: Walk, a: nat, x: nat)
    requires GraphOk(k.g) && ListsOk(k) && k.Current() != []
    ensures x in Push(k).Now(a) <==> x in k.Now(a) && x != k.Current()[0]
  {
    hide Push, NoDup;
    var sp := k.Current()[0];
    assert sp in k.Current();
    PushNow(k, a);
    if k.stack != [] && a == k.g.Inst(k.stack[0]) {
      NoDupTail(k.Now(a));
    } else if k.stack != [] {
      assert sp in k.g.Users(k.g.Inst(k.stack[0]));
      assert x in k.Now(a) ==> x in k.g.Users(a);
    }
  }

  lemma PushLists(k: Walk)
    requires GraphOk(k.g) && ListsOk(k) && k.Current() != []
    ensures ListsOk(Push(k)) && k.Current()[0] in k.open
  {
    hide Push, GraphOk, NoDup;
    var k', sp := Push(k), k.Current()[0];
    assert NoDup(k.Current()) && sp in k.Current();
    NoDupTail(k.Current());
    PushShape(k);
    assert NoDup(k'.top);
    forall a ensures NoDup(k'.Now(a)) {
      PushNow(k, a);
    }
    forall a, x {:trigger x in k'.Now(a)} | x in k'.Now(a) ensures x in k.g.Users(a) && x in k'.open && x !in k'.top {
      PushLeaves(k, a, x);
    }
  }

  lemma PushShape(k: Walk)
    requires k.Current() != []
    ensures var k', sp := Push(k), k.Current()[0];
            && k'.g == k.g && k'.alg == k.alg && k'.open == k.open - {sp} && k'.secondary == k.secondary
            && k'.top == (if k.stack == [] then k.top[1..] else k.top)
            && k'.stack == [sp] + k.stack && (forall x :: k'.Seen(x) <==> x == sp || k.Seen(x))
  {
  }

  lemma PushCovered(k: Walk)
    requires GraphOk(k.g) && ListsOk(k) && Covered(k) && k.Current() != []
    ensures Covered(Push(k))
  {
    hide Push, ListsOk, GraphOk;
    var k', sp := Push(k), k.Current()[0];
    PushShape(k);
    assert k.Current() == [sp] + k.Current()[1..];
    forall a, x {:trigger x in k.g.Users(a)} | x in k.g.Users(a) ensures x in k'.Now(a) || x in k'.top || k'.Seen(x) {
      PushLeaves(k, a, x);
    }
  }

  lemma PushMet(k: Walk)
    requires ListsOk(k) && Met(k) && k.Current() != []
    ensures Met(Push(k))
  {
    hide Push, Reached;
    var sp := k.Current()[0];
    PushShape(k);
    assert sp in k.Current();
    if k.stack == [] {
      UserReached(k.g, k.alg, sp);
    } else {
      assert k.Seen(k.stack[0]);
      ReachedOn(k.g, k.alg, k.g.Inst(k.stack[0]), sp);
    }
  }

  lemma PushOk(k: Walk)
    requires Walking(k) && k.Current() != []
    ensures Walking(Push(k)) && k.Current()[0] in k.open && |Push(k).open| == |k.open| - 1
    ensures Finished(k) ==> Finished(Push(k))
  {
    hide GraphOk, ListsOk, Covered, Met, Push;
    PushLists(k);
    PushCovered(k);
    PushMet(k);
    PushShape(k);
    if Finished(k) {
      PushNow(k, k.alg);
      forall sp | sp in k.secondary ensures Push(k).Now(k.g.Inst(sp)) == [] { PushNow(k, k.g.Inst(sp)); }
    }
  }

  lemma PopOk(k: Walk)
    requires Walking(k) && k.stack != []
    ensures Walking(Pop(k)) && Pop(k).open == k.open
    ensures Finished(k) && k.Current() == [] ==> Finished(Pop(k))
  {
    hide GraphOk, Reached;
    var k' := Pop(k);
    assert k.stack == [k.stack[0]] + k.stack[1..];
    assert forall sp :: k'.Seen(sp) <==> k.Seen(sp);
    assert forall a :: k'.Now(a) == k.Now(a);
  }

  // ----- what the walk does to `spawn->alg`

  /** The lists without those of `alg` and of its replacement. */
  function Hidden(users: map<nat, seq<nat>>, alg: nat, nalg: Option<nat>): map<nat, seq<nat>> {
    (if nalg.Some? then users[nalg.value := []] else users)[alg := []]
  }

  /** What is walked: from the matching users of `alg`, and not beyond the replacement. */
  function Pruned(g: Graph, alg: nat, nalg: Option<nat>, top: seq<nat>): Graph {
    Graph(g.spawns, Hidden(g.users, alg, nalg)[alg := top])
  }

  lemma PrunedUsers(g: Graph, alg: nat, nalg: Option<nat>, top: seq<nat>, a: nat)
    ensures Pruned(g, alg, nalg, top).Users(a) == if a == alg then top else if nalg == Some(a) then [] else g.Users(a)
  {
  }

  /** The replacement is `x`, or depends on it. */
  ghost predicate Serves(g: Graph, x: nat, nalg: Option<nat>) {
    nalg.Some? && (x == nalg.value || Reached(g, x, nalg.value))
  }

  /** The first of the current list gives up its algorithm, unless it belongs to the replacement. */
  function Cleared(k: Walk, used: map<nat, Option<nat>>, nalg: Option<nat>): map<nat, Option<nat>>
    requires k.Current() != []
  {
    if nalg == Some(k.g.Inst(k.Current()[0])) then used else used[k.Current()[0] := None]
  }

  /** A finished spawn that has its algorithm gives the one below it its own back. */
  function GivenBack(k: Walk, used: map<nat, Option<nat>>): map<nat, Option<nat>> {
    if |k.stack| > 1 && k.stack[0] in used && used[k.stack[0]].Some? && k.stack[1] in used && used[k.stack[1]].None?
    then used[k.stack[1] := Some(if |k.stack| == 2 then k.alg else k.g.Inst(k.stack[2]))]
    else used
  }

  /** Where the walk ends: down the first users as long as there are any, then a step back. */
  ghost function Walked(k: Walk, used: map<nat, Option<nat>>, nalg: Option<nat>): (Walk, map<nat, Option<nat>>)
    requires Walking(k)
    decreases 2 * |k.open| + |k.stack|
  {
    if k.Current() != [] then
      PushOk(k);
      PushShape(k);
      Walked(Push(k), Cleared(k, used, nalg), nalg)
    else if k.stack != [] then
      PopOk(k);
      Walked(Pop(k), GivenBack(k, used), nalg)
    else (k, used)
  }

  lemma WalkedDown(k: Walk, used: map<nat, Option<nat>>, nalg: Option<nat>)
    requires Walking(k) && k.Current() != []
    ensures Walking(Push(k)) && Walked(k, used, nalg) == Walked(Push(k), Cleared(k, used, nalg), nalg)
  {
    PushOk(k);
  }

  lemma WalkedUp(k: Walk, used: map<nat, Option<nat>>, nalg: Option<nat>)
    requires Walking(k) && k.Current() == [] && k.stack != []
    ensures Walking(Pop(k)) && Walked(k, used, nalg) == Walked(Pop(k), GivenBack(k, used), nalg)
  {
    PopOk(k);
  }

  lemma WalkedOut(k: Walk, used: map<nat, Option<nat>>, nalg: Option<nat>)
    requires Walking(k) && k.Current() == [] && k.stack == []
    ensures Walked(k, used, nalg) == (k, used)
  {
  }

  /** Each spawn on the stack uses the instance of the one below it. */
  ghost predicate StackOk(k: Walk) {
    && NoDup(k.stack) && NoDup(k.secondary) && (forall sp :: sp in k.stack ==> sp !in k.secondary)
    && (forall i {:trigger k.stack[i]} :: 0 <= i < |k.stack| ==>
          k.stack[i] in k.g.Users(if i + 1 < |k.stack| then k.g.Inst(k.stack[i+1]) else k.alg))
  }

  /** Where a spawn that was met came from. */
  ghost predicate Comes(k: Walk, sp: nat) {
    sp in k.g.Users(k.alg) || exists r :: k.Seen(r) && sp in k.g.Users(k.g.Inst(r))
  }

  /** A finished spawn has passed on that it has its algorithm. */
  ghost predicate Passed(k: Walk, used: map<nat, Option<nat>>) {
    forall sp, r {:trigger sp in k.g.Users(k.g.Inst(r))} ::
      sp in k.secondary && k.Seen(r) && sp in used && used[sp].Some? && sp in k.g.Users(k.g.Inst(r)) ==>
        r in used && used[r].Some?
  }

  /** A spawn on the list of `alg` or of something that depends on it. */
  ghost predicate Listed(g: Graph, alg: nat, sp: nat) {
    exists a :: sp in g.Users(a) && (a == alg || Reached(g, alg, a))
  }

  /** No two of the spawns to be met, but for those of the replacement, are of one instance. */
  ghost predicate Single(g: Graph, alg: nat, nalg: Option<nat>) {
    forall s, t {:trigger Listed(g, alg, s), Listed(g, alg, t)} ::
      Listed(g, alg, s) && Listed(g, alg, t) && g.Inst(s) == g.Inst(t) && nalg != Some(g.Inst(s)) ==> s == t
  }

  /** The instances behind the spawns that have lost their algorithm. */
  ghost function Doomed(spawns: map<nat, Spawn>, used: map<nat, Option<nat>>, q: seq<nat>): set<nat> {
    set sp | sp in q && sp in used && used[sp].None? :: Graph(spawns, map[]).Inst(sp)
  }

  lemma DoomedNone(spawns: map<nat, Spawn>, used: map<nat, Option<nat>>)
    ensures Doomed(spawns, used, []) == {} && NoDup([])
  {
  }

  lemma DoomedOne(spawns: map<nat, Spawn>, used: map<nat, Option<nat>>, q: seq<nat>, sp: nat)
    requires sp in used
    ensures Doomed(spawns, used, q + [sp])
         == Doomed(spawns, used, q) + if used[sp].None? then {Graph(spawns, map[]).Inst(sp)} else {}
  {
    var d := Doomed(spawns, used, q) + if used[sp].None? then {Graph(spawns, map[]).Inst(sp)} else {};
    forall x ensures x in Doomed(spawns, used, q + [sp]) <==> x in d {
      if x in Doomed(spawns, used, q) {
        var y :| y in q && y in used && used[y].None? && Graph(spawns, map[]).Inst(y) == x;
        assert y in q + [sp];
      }
      assert sp in q + [sp];
    }
  }

  /** ListsOk lose only spawns of instances that depend on `alg`, and gain nothing. */
  ghost predicate Kept(g: Graph, alg: nat, h: Graph) {
    && (forall a: nat, sp {:trigger sp in h.Users(a)} :: sp in h.Users(a) ==> sp in g.Users(a))
    && (forall a: nat, sp {:trigger sp in g.Users(a)} ::
          sp in g.Users(a) ==> sp in h.Users(a) || Reached(g, alg, g.Inst(sp)))
  }

  lemma NoneLeft(q: seq<nat>)
    ensures (forall sp :: sp !in q) ==> q == []
  {
    if q != [] {
      assert q[0] in q;
    }
  }

  lemma MetSpawns(k: Walk, used: map<nat, Option<nat>>, used0: map<nat, Option<nat>>, nalg: Option<nat>)
    requires Walking(k) && UsedOk(k, used, used0, nalg)
    ensures forall sp :: sp in k.secondary ==> sp in k.g.spawns && sp in used
  {
    hide Reached, GraphOk, Covered;
    assert forall sp :: sp in k.secondary ==> k.Seen(sp);
  }

  /** Where the walk ends without a replacement. */
  lemma WalkDone(k: Walk, used: map<nat, Option<nat>>, used0: map<nat, Option<nat>>)
    requires Walking(k) && k.top == [] && k.stack == [] && Tracked(k, used, used0, None)
    requires UsersUsed(k.g, used0)
    ensures forall sp :: sp in k.secondary ==> used[sp].None? && k.Now(k.g.Inst(sp)) == []
    ensures forall x: nat :: Reached(k.g, k.alg, x) ==> k.Now(x) == []
    ensures k.Now(k.alg) == [] && Kept(k.g, k.alg, Graph(k.g.spawns, k.users))
    ensures GraphOk(Graph(k.g.spawns, k.users)) && UsersUsed(Graph(k.g.spawns, k.users), used)
  {
    hide Reached, Met, StackOk, Comes, Single, Passed;
    var h := Graph(k.g.spawns, k.users);
    assert forall sp :: sp in k.secondary ==> k.Seen(sp);
    forall x: nat | Reached(k.g, k.alg, x) ensures k.Now(x) == [] {
      WalkedAll(k, x);
    }
    forall a: nat, sp {:trigger sp in h.Users(a)} | sp in h.Users(a)
      ensures sp in k.g.Users(a) && sp in k.open && sp in used && used[sp] == Some(a)
    {
      assert sp in k.Now(a);
    }
    assert forall a :: h.Users(a) == k.Now(a);
    WalkKept(k);
  }

  /** The algorithm itself has not been reached. */
  lemma EndNotBack(k: Walk, used: map<nat, Option<nat>>, used0: map<nat, Option<nat>>, nalg: Option<nat>)
    requires Walking(k) && k.top == [] && k.stack == [] && Tracked(k, used, used0, nalg)
    ensures !Reached(k.g, k.alg, k.alg) && UsedOk(k, used, used0, nalg)
  {
    hide Walking, Reached, UsedOk, StackOk, Comes, Single, Passed, Finished;
    WalkedAll(k, k.alg);
    assert forall sp :: sp in k.secondary ==> k.Seen(sp);
  }

  /** Who is doomed, and that the last loop can be run. */
  lemma EndDoomed(k: Walk, used: map<nat, Option<nat>>, used0: map<nat, Option<nat>>, nalg: Option<nat>)
    requires Walking(k) && Tracked(k, used, used0, nalg) && k.top == [] && k.stack == []
    ensures !Reached(k.g, k.alg, k.alg) && forall sp :: sp in k.secondary ==> sp in k.g.spawns && sp in used
    ensures var doomed := Doomed(k.g.spawns, used, k.secondary);
            && (forall x: nat :: Reached(k.g, k.alg, x) && !Serves(k.g, x, nalg) ==> x in doomed)
            && (forall x: nat :: x in doomed ==> Reached(k.g, k.alg, x) && nalg != Some(x))
            && (Single(k.g, k.alg, nalg) ==> forall x: nat :: x in doomed ==> !Serves(k.g, x, nalg))
  {
    hide Walking, Tracked, Reached, Doomed, Serves, Single, UsedOk;
    EndNotBack(k, used, used0, nalg);
    MetSpawns(k, used, used0, nalg);
    var doomed := Doomed(k.g.spawns, used, k.secondary);
    forall x: nat
      ensures Reached(k.g, k.alg, x) && !Serves(k.g, x, nalg) ==> x in doomed
      ensures x in doomed ==> Reached(k.g, k.alg, x) && nalg != Some(x)
      ensures Single(k.g, k.alg, nalg) && x in doomed ==> !Serves(k.g, x, nalg)
    {
      DoomedEnd(k, used, used0, nalg, x);
    }
  }

  lemma HiddenOwn(users: map<nat, seq<nat>>, alg: nat, nalg: Option<nat>)
    ensures alg in Hidden(users, alg, nalg) && Hidden(users, alg, nalg)[alg] == []
  {
  }

  lemma HiddenNone(users: map<nat, seq<nat>>, alg: nat)
    ensures Hidden(users, alg, None) == users[alg := []]
  {
  }

  lemma PrunedSpawns(g: Graph, alg: nat, nalg: Option<nat>, top: seq<nat>)
    ensures Pruned(g, alg, nalg, top).spawns == g.spawns
  {
  }

  lemma StartWalking(g: Graph, h: Graph, alg: nat, nalg: Option<nat>, users: map<nat, seq<nat>>, top: seq<nat>)
    requires GraphOk(g) && NoDup(top) && h.spawns == g.spawns && forall sp :: sp in top ==> sp in g.Users(alg)
    requires forall a: nat :: h.Users(a) == if a == alg then top else if nalg == Some(a) then [] else g.Users(a)
    requires forall a: nat :: a != alg ==> Graph(g.spawns, users).Users(a) == g.Users(a)
    ensures Walking(Walk(h, alg, Hidden(users, alg, nalg), top, g.spawns.Keys, [], [])) && GraphOk(h)
  {
    hide NoDup;
    var k := Walk(h, alg, Hidden(users, alg, nalg), top, g.spawns.Keys, [], []);
    NoDupNone();
    forall a: nat ensures k.Now(a) == if a == alg then [] else h.Users(a) {
      assert a != alg ==> Graph(g.spawns, users).Users(a) == g.Users(a);
    }
    forall a: nat, sp {:trigger sp in h.Users(a)} | sp in h.Users(a) ensures sp in g.Users(a) {
    }
    forall a: nat, sp {:trigger sp in k.Now(a)} | sp in k.Now(a) ensures sp in h.Users(a) && sp in k.open && sp !in top {
      assert sp in g.Users(a);
      assert sp in top ==> sp in g.Users(alg);
    }
    forall a ensures NoDup(k.Now(a)) && NoDup(h.Users(a)) {
      assert NoDup(g.Users(a));
    }
    forall a: nat, sp {:trigger sp in h.Users(a)} | sp in h.Users(a) ensures sp in k.Now(a) || sp in top {
    }
  }

  lemma NoDupNone()
    ensures NoDup([])
  {
  }

  /** What depends on `alg` where less is followed depends on it. */
  lemma SubReach(g: Graph, h: Graph, alg: nat)
    requires h.spawns == g.spawns && forall a: nat, sp {:trigger sp in h.Users(a)} :: sp in h.Users(a) ==> sp in g.Users(a)
    ensures forall x: nat :: Reached(h, alg, x) ==> Reached(g, alg, x)
  {
    forall x: nat | Reached(h, alg, x) ensures Reached(g, alg, x) {
      var p :| ReachedBy(h, alg, x, p);
      forall i | 0 < i < |p| ensures p[i] in g.Users(g.Inst(p[i-1])) {
        assert p[i] in h.Users(h.Inst(p[i-1]));
      }
      assert ReachedBy(g, alg, x, p);
    }
  }

  lemma SameReach(g: Graph, h: Graph, alg: nat)
    requires h.spawns == g.spawns && forall a: nat, sp {:trigger sp in g.Users(a)} :: sp in g.Users(a) ==> sp in h.Users(a)
    ensures forall x: nat :: Reached(g, alg, x) ==> Reached(h, alg, x)
  {
    SubReach(h, g, alg);
  }

  /** The list being emptied is the one the code looks at. */
  lemma CurrentIs(k: Walk, users: map<nat, seq<nat>>, alg: nat, nalg: Option<nat>,
                  used: map<nat, Option<nat>>, used0: map<nat, Option<nat>>)
    requires k.users == Hidden(users, alg, nalg) && k.alg == alg && Tracked(k, used, used0, nalg)
    ensures k.stack != [] && nalg != Some(k.g.Inst(k.stack[0])) ==>
              k.g.Inst(k.stack[0]) != alg && k.Current() == Graph(k.g.spawns, users).Users(k.g.Inst(k.stack[0]))
    ensures k.stack != [] && nalg == Some(k.g.Inst(k.stack[0])) ==> k.Current() == []
  {
    hide Finished, StackOk, UsedOk, Comes, Single, Passed;
    if k.stack != [] { assert k.Seen(k.stack[0]); }
  }

  lemma HiddenPush(k: Walk, users: map<nat, seq<nat>>, alg: nat, nalg: Option<nat>,
                   used: map<nat, Option<nat>>, used0: map<nat, Option<nat>>)
    requires k.users == Hidden(users, alg, nalg) && k.alg == alg && Tracked(k, used, used0, nalg) && k.Current() != []
    ensures k.stack == [] ==> Push(k).users == Hidden(users, alg, nalg)
    ensures k.stack != [] ==>
              k.g.Inst(k.stack[0]) != alg && Push(k).users == Hidden(users[k.g.Inst(k.stack[0]) := k.Current()[1..]], alg, nalg)
  {
    hide Finished, StackOk, UsedOk, Comes, Single, Passed;
    if k.stack != [] { assert k.Seen(k.stack[0]); }
  }

  /** One step down. */
  lemma DownStep(k: Walk, users: map<nat, seq<nat>>, alg: nat, nalg: Option<nat>,
                 used: map<nat, Option<nat>>, used0: map<nat, Option<nat>>)
    requires Walking(k) && Tracked(k, used, used0, nalg) && Used(k.g, used0) && k.Current() != []
    requires k.users == Hidden(users, alg, nalg) && k.alg == alg && k.g.Inst(k.Current()[0]) != alg
    ensures var k', sp, x := Push(k), k.Current()[0], if k.stack != [] then k.g.Inst(k.stack[0]) else alg;
            var used' := if nalg == Some(k.g.Inst(sp)) then used else used[sp := None];
            && Walking(k') && Tracked(k', used', used0, nalg) && Walked(k, used, nalg) == Walked(k', used', nalg)
            && k'.g == k.g && k'.alg == alg && k'.stack == [sp] + k.stack && k'.secondary == k.secondary
            && |k'.open| == |k.open| - 1 && k'.top == (if k.stack == [] then k.top[1..] else k.top)
            && k'.users == Hidden(if k.stack == [] then users else users[x := k.Current()[1..]], alg, nalg)
            && (k.stack != [] ==> x != alg)
  {
    hide Walking, Tracked, Used, Walked, Hidden, Push;
    PushOk(k);
    PushShape(k);
    PushTracked(k, used, used0, nalg);
    WalkedDown(k, used, nalg);
    HiddenPush(k, users, alg, nalg, used, used0);
  }

  lemma BackReached(k: Walk, used: map<nat, Option<nat>>, used0: map<nat, Option<nat>>, nalg: Option<nat>)
    requires Walking(k) && Tracked(k, used, used0, nalg) && k.Current() != []
    ensures Reached(k.g, k.alg, k.g.Inst(k.Current()[0]))
  {
    hide Walking, Reached, Finished, StackOk, UsedOk, Comes, Single, Passed;
    PushBack(k);
  }

  /** What a step back needs to know of the stack. */
  lemma StackKnown(k: Walk, used: map<nat, Option<nat>>, used0: map<nat, Option<nat>>, nalg: Option<nat>)
    requires Walking(k) && Tracked(k, used, used0, nalg)
    ensures forall sp :: sp in k.stack ==> sp in k.g.spawns && sp in used
    ensures |k.stack| > 1 ==> nalg != Some(k.g.Inst(k.stack[1]))
  {
    hide Walking, UsedOk, NotBack, Finished, StackOk, Comes, Single, Passed, StopsAt;
    StackUsed(k, used, used0, nalg);
    if |k.stack| > 1 { BelowTop(k, nalg); }
  }

  lemma GivenIs(k: Walk, used: map<nat, Option<nat>>, used': map<nat, Option<nat>>)
    requires forall sp :: sp in k.stack ==> sp in k.g.spawns && sp in used
    requires used' == if |k.stack| > 1 && used[k.stack[0]].Some? && used[k.stack[1]].None?
                      then used[k.stack[1] := Some(if |k.stack| == 2 then k.alg else k.g.spawns[k.stack[2]].inst)]
                      else used
    ensures used' == GivenBack(k, used)
  {
  }

  /** What holds of the lists walked holds of the real ones, without a replacement. */
  lemma DoneHere(g: Graph, h: Graph, alg: nat, walked: map<nat, seq<nat>>, users: map<nat, seq<nat>>,
                 used: map<nat, Option<nat>>)
    requires h.spawns == g.spawns && walked == users[alg := []] && Graph(g.spawns, users).Users(alg) == []
    requires forall a: nat, sp {:trigger sp in h.Users(a)} :: sp in h.Users(a) <==> sp in g.Users(a)
    requires forall x: nat :: Reached(h, alg, x) ==> Reached(g, alg, x)
    requires var w := Graph(h.spawns, walked); GraphOk(w) && UsersUsed(w, used) && Kept(h, alg, w)
    ensures var v := Graph(g.spawns, users);
            && GraphOk(v) && UsersUsed(v, used) && Kept(g, alg, v)
            && forall a: nat :: v.Users(a) == Graph(h.spawns, walked).Users(a)
  {
    hide NoDup, Reached;
    var v, w := Graph(g.spawns, users), Graph(h.spawns, walked);
    forall a: nat ensures v.Users(a) == w.Users(a) {
    }
    forall a: nat, sp {:trigger sp in v.Users(a)} | sp in v.Users(a) ensures sp in w.Users(a) && sp in g.Users(a) {
      assert sp in w.Users(a) && sp in h.Users(a);
    }
    forall a: nat, sp {:trigger sp in g.Users(a)} | sp in g.Users(a)
      ensures sp in v.Users(a) || Reached(g, alg, g.Inst(sp))
    {
      assert sp in h.Users(a);
    }
  }

  lemma WalkKept(k: Walk)
    requires Walking(k) && k.top == [] && k.stack == []
    ensures Kept(k.g, k.alg, Graph(k.g.spawns, k.users))
  {
    hide Reached, GraphOk;
    var h := Graph(k.g.spawns, k.users);
    forall a: nat, sp {:trigger sp in h.Users(a)} | sp in h.Users(a) ensures sp in k.g.Users(a) {
      assert sp in k.Now(a);
    }
    forall a: nat, sp {:trigger sp in k.g.Users(a)} | sp in k.g.Users(a)
      ensures sp in h.Users(a) || Reached(k.g, k.alg, k.g.Inst(sp))
    {
      assert sp in k.Now(a) || k.Seen(sp);
    }
  }

  ghost predicate UsersUsed(g: Graph, used: map<nat, Option<nat>>) {
    forall a: nat, sp {:trigger sp in g.Users(a)} :: sp in g.Users(a) ==> sp in used && used[sp] == Some(a)
  }

  /** A finished walk has met exactly the instances that depend on the algorithm. */
  lemma WalkedAll(k: Walk, x: nat)
    requires Walking(k) && k.top == [] && k.stack == [] && Finished(k)
    ensures Reached(k.g, k.alg, x) <==> exists sp :: sp in k.secondary && k.g.Inst(sp) == x
  {
    hide GraphOk, ListsOk, Reached;
    if Reached(k.g, k.alg, x) {
      var c := set sp | sp in k.secondary :: k.g.Inst(sp);
      forall sp | sp in k.g.Users(k.alg) ensures k.g.Inst(sp) in c {
        assert sp in k.Now(k.alg) || sp in k.top || k.Seen(sp);
      }
      forall y, sp | y in c && sp in k.g.Users(y) ensures k.g.Inst(sp) in c {
        assert sp in k.Now(y) || sp in k.top || k.Seen(sp);
      }
      ReachedIn(k.g, k.alg, c, x);
    } else {
      forall sp | sp in k.secondary ensures k.g.Inst(sp) != x { assert k.Seen(sp); }
    }
  }

  lemma ReachedIn(g: Graph, alg: nat, c: set<nat>, x: nat)
    requires Reached(g, alg, x)
    requires forall sp :: sp in g.Users(alg) ==> g.Inst(sp) in c
    requires forall y, sp :: y in c && sp in g.Users(y) ==> g.Inst(sp) in c
    ensures x in c
  {
    var p :| ReachedBy(g, alg, x, p);
    ClosedHasReached(g, alg, c, p);
  }

  /** Every listed spawn has its algorithm. */
  ghost predicate Used(g: Graph, used: map<nat, Option<nat>>) {
    forall a: nat, sp {:trigger sp in g.Users(a)} :: sp in g.Users(a) ==> sp in used && used[sp].Some?
  }

  /** `spawn->alg` during the walk: untouched before; kept for `nalg`, and given back only to
      what `nalg` depends on, as it was. */
  ghost predicate UsedOk(k: Walk, used: map<nat, Option<nat>>, used0: map<nat, Option<nat>>, nalg: Option<nat>) {
    && used.Keys == used0.Keys
    && (forall sp :: sp in k.open && sp in used ==> used[sp] == used0[sp])
    && (forall sp :: k.Seen(sp) ==> sp in used)
    && (forall sp :: k.Seen(sp) && nalg == Some(k.g.Inst(sp)) ==> used[sp].Some?)
    && (forall sp :: k.Seen(sp) && used[sp].Some? ==> Serves(k.g, k.g.Inst(sp), nalg) && used[sp] == used0[sp])
  }

  /** A finished spawn that has its algorithm uses the one being removed, or is a user of an
      instance with a spawn that has its own and is finished later. */
  ghost predicate Supported(k: Walk, used: map<nat, Option<nat>>) {
    forall i :: 0 <= i < |k.secondary| && HasAlg(used, k.secondary[i]) ==> SupportedAt(k, used, i)
  }

  predicate HasAlg(used: map<nat, Option<nat>>, sp: nat) { sp in used && used[sp].Some? }

  ghost predicate SupportedAt(k: Walk, used: map<nat, Option<nat>>, i: nat)
    requires i < |k.secondary|
  {
    var sp := k.secondary[i];
    sp in k.g.Users(k.alg) || exists r :: Supports(k, used, i, sp, r)
  }

  ghost predicate Supports(k: Walk, used: map<nat, Option<nat>>, i: nat, sp: nat, r: nat)
    requires i <= |k.secondary|
  {
    (r in k.stack || r in k.secondary[..i]) && HasAlg(used, r) && sp in k.g.Users(k.g.Inst(r))
  }

  /** The algorithm being removed has not come up among its users. */
  ghost predicate NotBack(k: Walk) {
    forall sp :: k.Seen(sp) ==> k.g.Inst(sp) != k.alg
  }

  /** Nothing is walked beyond the replacement. */
  ghost predicate StopsAt(k: Walk, nalg: Option<nat>) {
    nalg.Some? ==> nalg.value == k.alg || k.g.Users(nalg.value) == []
  }

  ghost predicate Tracked(k: Walk, used: map<nat, Option<nat>>, used0: map<nat, Option<nat>>, nalg: Option<nat>) {
    && UsedOk(k, used, used0, nalg) && NotBack(k) && Finished(k) && StackOk(k) && StopsAt(k, nalg)
    && Supported(k, used)
    && (forall sp :: k.Seen(sp) ==> Comes(k, sp))
    && (Single(k.g, k.alg, nalg) ==> Passed(k, used))
  }

  lemma WalkStart(k: Walk, used: map<nat, Option<nat>>, nalg: Option<nat>)
    requires k.stack == [] && k.secondary == [] && k.Now(k.alg) == [] && StopsAt(k, nalg)
    ensures Tracked(k, used, used, nalg)
  {
  }

  // ----- going down

  lemma PushUsed(k: Walk, used: map<nat, Option<nat>>, used0: map<nat, Option<nat>>, nalg: Option<nat>)
    requires Walking(k) && UsedOk(k, used, used0, nalg) && Used(k.g, used0) && k.Current() != []
    ensures UsedOk(Push(k), Cleared(k, used, nalg), used0, nalg)
  {
    hide Push, Walking, Serves;
    var sp := k.Current()[0];
    PushShape(k);
    WalkingLists(k);
    CurrentFirst(k);
    NalgServes(k.g, nalg);
  }

  lemma WalkingLists(k: Walk)
    requires Walking(k)
    ensures ListsOk(k)
  {
    hide GraphOk, ListsOk, Covered, Met;
  }

  lemma NalgServes(g: Graph, nalg: Option<nat>)
    ensures nalg.Some? ==> Serves(g, nalg.value, nalg)
  {
  }

  lemma PushBack(k: Walk)
    requires Walking(k) && NotBack(k) && k.Current() != []
    ensures k.g.Inst(k.Current()[0]) != k.alg ==> NotBack(Push(k))
    ensures Reached(k.g, k.alg, k.g.Inst(k.Current()[0]))
  {
    hide Push, ListsOk, Covered, GraphOk, Reached;
    PushShape(k);
    PushOk(k);
    assert Push(k).Seen(k.Current()[0]);
  }

  /** The first of the current list, and whose list it is on. */
  lemma CurrentFirst(k: Walk)
    requires ListsOk(k) && k.Current() != []
    ensures var sp := k.Current()[0];
            && sp in k.open && !k.Seen(sp)
            && sp in k.g.Users(if k.stack != [] then k.g.Inst(k.stack[0]) else k.alg)
  {
    assert k.Current()[0] in k.Current();
  }

  lemma PushStack(k: Walk)
    requires ListsOk(k) && StackOk(k) && k.Current() != []
    ensures StackOk(Push(k))
  {
    hide Push, ListsOk, GraphOk;
    var k', sp := Push(k), k.Current()[0];
    CurrentFirst(k);
    PushShape(k);
    ConsNoDup(sp, k.stack);
    forall i {:trigger k'.stack[i]} | 0 <= i < |k'.stack|
      ensures k'.stack[i] in k.g.Users(if i + 1 < |k'.stack| then k.g.Inst(k'.stack[i+1]) else k.alg)
    {
      assert i > 0 ==> k'.stack[i] == k.stack[i-1];
    }
  }

  lemma PushComes(k: Walk)
    requires ListsOk(k) && k.Current() != [] && forall sp :: k.Seen(sp) ==> Comes(k, sp)
    ensures forall sp :: Push(k).Seen(sp) ==> Comes(Push(k), sp)
  {
    hide Push, ListsOk;
    var k', sp := Push(k), k.Current()[0];
    CurrentFirst(k);
    PushShape(k);
    forall x | k'.Seen(x) ensures Comes(k', x) {
      if x == sp {
        if k.stack != [] { assert k'.Seen(k.stack[0]); }
      } else if x !in k.g.Users(k.alg) {
        assert Comes(k, x);
        var r :| k.Seen(r) && x in k.g.Users(k.g.Inst(r));
        assert k'.Seen(r);
      }
    }
  }

  lemma SeenListed(k: Walk, sp: nat)
    requires Met(k) && k.Seen(sp) && Comes(k, sp)
    ensures Listed(k.g, k.alg, sp)
  {
    hide Reached;
    if sp !in k.g.Users(k.alg) {
      var r :| k.Seen(r) && sp in k.g.Users(k.g.Inst(r));
    }
  }

  /** With one spawn for each instance, a new one finds nothing finished on its own list. */
  lemma PushPassed(k: Walk, used: map<nat, Option<nat>>, used0: map<nat, Option<nat>>, nalg: Option<nat>)
    requires Walking(k) && Tracked(k, used, used0, nalg) && k.Current() != [] && Single(k.g, k.alg, nalg)
    requires Used(k.g, used0) && k.g.Inst(k.Current()[0]) != k.alg
    ensures Passed(Push(k), Cleared(k, used, nalg))
  {
    hide Push, Reached, Covered, GraphOk, Finished, StackOk, Single, Listed;
    var k', sp := Push(k), k.Current()[0];
    CurrentFirst(k);
    PushShape(k);
    PushOk(k);
    PushComes(k);
    PushUsed(k, used, used0, nalg);
    SeenListed(k', sp);
    forall x, r {:trigger x in k.g.Users(k.g.Inst(r))} |
      x in k'.secondary && k'.Seen(r) && x in used && used[x].Some? && x in k.g.Users(k.g.Inst(r))
      ensures r in used && Cleared(k, used, nalg)[r].Some?
    {
      assert k.Seen(x);
      if r == sp {
        OwnListUnmet(k, nalg, sp, x);
      }
    }
  }

  lemma OneList(g: Graph, sp: nat, a: nat, b: nat)
    requires GraphOk(g)
    ensures sp in g.Users(a) && sp in g.Users(b) ==> a == b
  {
  }

  lemma OwnListUnmet(k: Walk, nalg: Option<nat>, sp: nat, x: nat)
    requires GraphOk(k.g) && Met(k) && Single(k.g, k.alg, nalg) && StopsAt(k, nalg) && Listed(k.g, k.alg, sp)
    requires k.Seen(x) && Comes(k, x) && x in k.g.Users(k.g.Inst(sp)) && k.g.Inst(sp) != k.alg && !k.Seen(sp)
    requires forall r :: k.Seen(r) ==> Comes(k, r)
    ensures nalg == Some(k.g.Inst(sp))
  {
    hide Reached, Listed, Met;
    OneList(k.g, x, k.g.Inst(sp), k.alg);
    var r :| k.Seen(r) && x in k.g.Users(k.g.Inst(r));
    OneList(k.g, x, k.g.Inst(sp), k.g.Inst(r));
    SeenListed(k, r);
    assert nalg == Some(k.g.Inst(sp)) || r == sp;
  }

  lemma PushTracked(k: Walk, used: map<nat, Option<nat>>, used0: map<nat, Option<nat>>, nalg: Option<nat>)
    requires Walking(k) && Tracked(k, used, used0, nalg) && k.Current() != [] && Used(k.g, used0)
    requires k.g.Inst(k.Current()[0]) != k.alg
    ensures Tracked(Push(k), Cleared(k, used, nalg), used0, nalg)
  {
    hide Push, GraphOk, ListsOk, Covered, Met, UsedOk, NotBack, Finished, StackOk, Comes, Passed, Single, Cleared,
         Supported;
    PushSupported(k, used);
    PushShape(k);
    PushOk(k);
    PushUsed(k, used, used0, nalg);
    PushBack(k);
    PushStack(k);
    PushComes(k);
    if Single(k.g, k.alg, nalg) {
      PushPassed(k, used, used0, nalg);
    }
  }

  lemma PushSupported(k: Walk, used: map<nat, Option<nat>>)
    requires ListsOk(k) && Supported(k, used) && k.Current() != []
    ensures forall nalg :: Supported(Push(k), Cleared(k, used, nalg))
  {
    hide Push, ListsOk;
    CurrentFirst(k);
    PushShape(k);
    var k' := Push(k);
    forall nalg, i | 0 <= i < |k'.secondary| && HasAlg(Cleared(k, used, nalg), k'.secondary[i])
      ensures SupportedAt(k', Cleared(k, used, nalg), i)
    {
      var sp := k.secondary[i];
      assert sp in k.secondary && SupportedAt(k, used, i);
      if sp !in k.g.Users(k.alg) {
        var r :| Supports(k, used, i, sp, r);
        assert k.Seen(r) by { assert r in k.secondary[..i] ==> r in k.secondary; }
        assert Supports(k', Cleared(k, used, nalg), i, sp, r);
      }
    }
  }

  // ----- going back

  lemma StackUsed(k: Walk, used: map<nat, Option<nat>>, used0: map<nat, Option<nat>>, nalg: Option<nat>)
    requires Walking(k) && UsedOk(k, used, used0, nalg)
    ensures forall sp :: sp in k.stack ==> sp in k.g.spawns && sp in used
  {
    hide Met, Covered, GraphOk, Reached;
    assert forall sp :: sp in k.stack ==> k.Seen(sp);
  }

  lemma PopShape(k: Walk)
    requires k.stack != []
    ensures var k' := Pop(k);
            && k'.g == k.g && k'.alg == k.alg && k'.open == k.open && k'.users == k.users && k'.top == k.top
            && k'.stack == k.stack[1..] && k'.secondary == [k.stack[0]] + k.secondary
            && (forall sp :: k'.Seen(sp) <==> k.Seen(sp))
  {
    assert k.stack == [k.stack[0]] + k.stack[1..];
  }

  /** What is given back goes to what the replacement depends on. */
  lemma PopUsed(k: Walk, used: map<nat, Option<nat>>, used0: map<nat, Option<nat>>, nalg: Option<nat>)
    requires ListsOk(k) && UsedOk(k, used, used0, nalg) && StackOk(k) && k.stack != [] && UsersUsed(k.g, used0)
    ensures UsedOk(Pop(k), GivenBack(k, used), used0, nalg)
  {
    hide Pop, Serves, ListsOk, StackOk;
    PopShape(k);
    assert k.Seen(k.stack[0]);
    if GivenBack(k, used) != used {
      var s1 := k.stack[1];
      assert k.Seen(s1);
      StackTop(k);
      ServesOn(k.g, k.g.Inst(s1), k.stack[0], nalg);
      SeenNotOpen(k, s1);
      GivenOwn(k, used, used0);
      UsedGiven(k, used, used0, nalg, s1, GivenBack(k, used)[s1]);
    }
    UsedSame(k, Pop(k), GivenBack(k, used), used0, nalg);
  }

  lemma SeenNotOpen(k: Walk, sp: nat)
    requires ListsOk(k) && k.Seen(sp)
    ensures sp !in k.open
  {
  }

  /** What is given back is what the spawn had. */
  lemma GivenOwn(k: Walk, used: map<nat, Option<nat>>, used0: map<nat, Option<nat>>)
    requires StackOk(k) && UsersUsed(k.g, used0) && GivenBack(k, used) != used
    ensures k.stack[1] in used0 && GivenBack(k, used)[k.stack[1]] == used0[k.stack[1]]
  {
    var a := if 1 + 1 < |k.stack| then k.g.Inst(k.stack[1+1]) else k.alg;
    assert k.stack[1] in k.g.Users(a);
  }

  lemma UsedGiven(k: Walk, used: map<nat, Option<nat>>, used0: map<nat, Option<nat>>, nalg: Option<nat>, sp: nat, a: Option<nat>)
    requires UsedOk(k, used, used0, nalg) && k.Seen(sp) && sp !in k.open && a.Some? && Serves(k.g, k.g.Inst(sp), nalg)
    requires sp in used0 && a == used0[sp]
    ensures UsedOk(k, used[sp := a], used0, nalg)
  {
    hide Serves;
  }

  lemma UsedSame(k: Walk, k': Walk, used: map<nat, Option<nat>>, used0: map<nat, Option<nat>>, nalg: Option<nat>)
    requires UsedOk(k, used, used0, nalg) && k'.g == k.g && k'.open == k.open && forall sp :: k'.Seen(sp) <==> k.Seen(sp)
    ensures UsedOk(k', used, used0, nalg)
  {
    hide Serves;
  }

  lemma ServesOn(g: Graph, x: nat, sp: nat, nalg: Option<nat>)
    requires sp in g.Users(x) && Serves(g, g.Inst(sp), nalg)
    ensures Serves(g, x, nalg)
  {
    if g.Inst(sp) == nalg.value {
      UserReached(g, x, sp);
    } else {
      var p :| ReachedBy(g, g.Inst(sp), nalg.value, p);
      var q := [sp] + p;
      forall i | 0 < i < |q| ensures q[i] in g.Users(g.Inst(q[i-1])) {
      }
      assert ReachedBy(g, x, nalg.value, q);
    }
  }

  lemma PopStack(k: Walk)
    requires StackOk(k) && k.stack != []
    ensures StackOk(Pop(k))
  {
    hide Pop, NoDup;
    var k' := Pop(k);
    PopShape(k);
    NoDupTail(k.stack);
    ConsNoDup(k.stack[0], k.secondary);
    forall i {:trigger k'.stack[i]} | 0 <= i < |k'.stack|
      ensures k'.stack[i] in k.g.Users(if i + 1 < |k'.stack| then k.g.Inst(k'.stack[i+1]) else k.alg)
    {
      assert k'.stack[i] == k.stack[i+1];
    }
  }

  /** With one spawn for each instance, the only one that a finished spawn has to tell is the one
      below it. */
  lemma PopPassed(k: Walk, used: map<nat, Option<nat>>, used0: map<nat, Option<nat>>, nalg: Option<nat>)
    requires Walking(k) && Tracked(k, used, used0, nalg) && k.stack != [] && Single(k.g, k.alg, nalg)
    ensures Passed(Pop(k), GivenBack(k, used))
  {
    hide Pop, Reached, Covered, GraphOk, ListsOk, Finished, Single, Listed, Comes, Supported, Serves;
    var k', used', s0 := Pop(k), GivenBack(k, used), k.stack[0];
    PopShape(k);
    assert k.Seen(s0) && s0 in k.g.Users(if 0 + 1 < |k.stack| then k.g.Inst(k.stack[0+1]) else k.alg);
    assert |k.stack| > 1 ==> k.Seen(k.stack[1]);
    NoDupTail(k.stack);
    forall x, r {:trigger x in k.g.Users(k.g.Inst(r))} |
      x in k'.secondary && k'.Seen(r) && x in used' && used'[x].Some? && x in k.g.Users(k.g.Inst(r))
      ensures r in used' && used'[r].Some?
    {
      if x == s0 {
        BelowOnly(k, nalg, r);
      } else {
        assert x in k.secondary && used[x].Some?;
      }
    }
  }

  lemma BelowOnly(k: Walk, nalg: Option<nat>, r: nat)
    requires GraphOk(k.g) && Met(k) && Single(k.g, k.alg, nalg) && StopsAt(k, nalg) && StackOk(k) && NotBack(k)
    requires k.stack != [] && k.Seen(r) && k.stack[0] in k.g.Users(k.g.Inst(r))
    requires forall r :: k.Seen(r) ==> Comes(k, r)
    ensures |k.stack| > 1 && r == k.stack[1]
  {
    hide Reached, Listed, Met, GraphOk;
    StackTop(k);
    OneList(k.g, k.stack[0], k.g.Inst(r), k.alg);
    OneList(k.g, k.stack[0], k.g.Inst(r), k.g.Inst(k.stack[1]));
    assert k.Seen(k.stack[1]);
    SeenListed(k, r);
    SeenListed(k, k.stack[1]);
  }

  lemma StackTop(k: Walk)
    requires StackOk(k) && k.stack != []
    ensures |k.stack| == 1 ==> k.stack[0] in k.g.Users(k.alg)
    ensures |k.stack| > 1 ==> k.stack[0] in k.g.Users(k.g.Inst(k.stack[1]))
  {
    assert |k.stack| > 1 ==> k.stack[0] in k.g.Users(k.g.Inst(k.stack[0+1]));
  }

  lemma PopTracked(k: Walk, used: map<nat, Option<nat>>, used0: map<nat, Option<nat>>, nalg: Option<nat>)
    requires Walking(k) && Tracked(k, used, used0, nalg) && k.stack != [] && k.Current() == [] && UsersUsed(k.g, used0)
    ensures Tracked(Pop(k), GivenBack(k, used), used0, nalg)
  {
    hide Pop, GraphOk, ListsOk, Covered, Met, UsedOk, Finished, StackOk, Passed, Single, GivenBack, Supported, UsersUsed;
    PopSupported(k, used, used0, nalg);
    PopShape(k);
    PopOk(k);
    PopUsed(k, used, used0, nalg);
    PopStack(k);
    forall sp | Pop(k).Seen(sp) ensures Comes(Pop(k), sp) {
      assert Comes(k, sp);
      if sp !in k.g.Users(k.alg) {
        var r :| k.Seen(r) && sp in k.g.Users(k.g.Inst(r));
        assert Pop(k).Seen(r);
      }
    }
    if Single(k.g, k.alg, nalg) {
      PopPassed(k, used, used0, nalg);
    }
  }

  /** A spawn that is finished with its algorithm leaves the one below it with its own. */
  lemma PopSupported(k: Walk, used: map<nat, Option<nat>>, used0: map<nat, Option<nat>>, nalg: Option<nat>)
    requires Walking(k) && UsedOk(k, used, used0, nalg) && StackOk(k) && Supported(k, used) && k.stack != []
    ensures Supported(Pop(k), GivenBack(k, used))
  {
    hide Pop, Walking, UsedOk, StackOk, GivenBack;
    var k', used' := Pop(k), GivenBack(k, used);
    PopShape(k);
    GivenGrows(k, used);
    StackTop(k);
    StackUsed(k, used, used0, nalg);
    assert k'.secondary[..0] == [];
    if HasAlg(used', k.stack[0]) && |k.stack| > 1 {
      assert Supports(k', used', 0, k.stack[0], k.stack[1]);
    }
    forall i | 1 <= i < |k'.secondary| && HasAlg(used', k'.secondary[i]) ensures SupportedAt(k', used', i) {
      PopSupportedAt(k, used, i - 1);
    }
  }

  /** Giving back only adds, and only to the one below the top. */
  lemma GivenGrows(k: Walk, used: map<nat, Option<nat>>)
    requires k.stack != [] && StackOk(k)
    ensures var used' := GivenBack(k, used);
            && (forall r :: HasAlg(used, r) ==> HasAlg(used', r))
            && (forall r :: HasAlg(used', r) && r !in k.stack ==> HasAlg(used, r))
            && (HasAlg(used', k.stack[0]) && |k.stack| > 1 && k.stack[1] in used ==> HasAlg(used', k.stack[1]))
  {
    assert |k.stack| > 1 ==> k.stack[0] != k.stack[1];
  }

  lemma PopSupportedAt(k: Walk, used: map<nat, Option<nat>>, i: nat)
    requires k.stack != [] && StackOk(k) && Supported(k, used) && i < |k.secondary|
    requires HasAlg(GivenBack(k, used), k.secondary[i])
    ensures i + 1 < |Pop(k).secondary| && SupportedAt(Pop(k), GivenBack(k, used), i + 1)
  {
    hide GivenBack, HasAlg;
    var k', used', sp := Pop(k), GivenBack(k, used), k.secondary[i];
    GivenGrows(k, used);
    assert sp in k.secondary && SupportedAt(k, used, i);
    if sp !in k.g.Users(k.alg) {
      var r :| Supports(k, used, i, sp, r);
      assert k'.secondary[..i+1] == [k.stack[0]] + k.secondary[..i];
      assert k.stack == [k.stack[0]] + k.stack[1..];
      assert Supports(k', used', i + 1, sp, r);
    }
  }

  /** Only the top of the stack can belong to the replacement. */
  lemma BelowTop(k: Walk, nalg: Option<nat>)
    requires StackOk(k) && StopsAt(k, nalg) && NotBack(k) && |k.stack| > 1
    ensures nalg != Some(k.g.Inst(k.stack[1]))
  {
    assert k.stack[0] in k.g.Users(k.g.Inst(k.stack[0+1]));
    assert k.Seen(k.stack[1]);
  }

  // ----- where it ends

  /** With one spawn for each instance, what the replacement depends on has its algorithm. */
  lemma {:induction false} ServesKept(k: Walk, used: map<nat, Option<nat>>, used0: map<nat, Option<nat>>, nalg: Option<nat>,
                                      sp: nat, p: seq<nat>)
    requires Walking(k) && Tracked(k, used, used0, nalg) && k.top == [] && k.stack == [] && Passed(k, used)
    requires nalg.Some? && sp in k.secondary && ReachedBy(k.g, k.g.Inst(sp), nalg.value, p)
    ensures sp in used && used[sp].Some?
    decreases |p|
  {
    hide GraphOk, Reached, Met, Finished, StackOk, Comes, Single, StopsAt;
    assert k.Seen(sp) && p[0] in k.g.Users(k.g.Inst(sp));
    EndMet(k, sp, p[0]);
    assert k.Seen(p[0]);
    if |p| > 1 {
      ChainTail(k.g, k.g.Inst(sp), nalg.value, p);
      ServesKept(k, used, used0, nalg, p[0], p[1..]);
    }
  }

  lemma EndMet(k: Walk, sp: nat, x: nat)
    requires Covered(k) && Finished(k) && k.top == [] && k.stack == [] && sp in k.secondary && x in k.g.Users(k.g.Inst(sp))
    ensures x in k.secondary
  {
    assert x in k.Now(k.g.Inst(sp)) || x in k.top || k.Seen(x);
  }

  lemma ChainTail(g: Graph, x: nat, y: nat, p: seq<nat>)
    requires ReachedBy(g, x, y, p) && |p| > 1
    ensures ReachedBy(g, g.Inst(p[0]), y, p[1..])
  {
    var q := p[1..];
    forall i | 0 < i < |q| ensures q[i] in g.Users(g.Inst(q[i-1])) {
      assert q[i] == p[i+1] && q[i-1] == p[(i+1)-1];
    }
    assert p[1] in g.Users(g.Inst(p[1-1]));
  }

  /** Who is doomed at the end: of the dependants, those the replacement does not depend on; and
      with one spawn for each instance only those. */
  lemma DoomedEnd(k: Walk, used: map<nat, Option<nat>>, used0: map<nat, Option<nat>>, nalg: Option<nat>, x: nat)
    requires Walking(k) && Tracked(k, used, used0, nalg) && k.top == [] && k.stack == []
    ensures Reached(k.g, k.alg, x) && !Serves(k.g, x, nalg) ==> x in Doomed(k.g.spawns, used, k.secondary)
    ensures x in Doomed(k.g.spawns, used, k.secondary) ==> Reached(k.g, k.alg, x) && nalg != Some(x)
    ensures Single(k.g, k.alg, nalg) && x in Doomed(k.g.spawns, used, k.secondary) ==> !Serves(k.g, x, nalg)
  {
    hide Walking, Reached, Finished, StackOk, Comes, Single, StopsAt, Passed;
    WalkedAll(k, x);
    assert forall sp :: sp in k.secondary ==> k.Seen(sp);
    if Reached(k.g, k.alg, x) && !Serves(k.g, x, nalg) {
      var sp :| sp in k.secondary && k.g.Inst(sp) == x;
      assert used[sp].None?;
      assert Graph(k.g.spawns, map[]).Inst(sp) == x;
    }
    if x in Doomed(k.g.spawns, used, k.secondary) {
      var sp :| sp in k.secondary && sp in used && used[sp].None? && Graph(k.g.spawns, map[]).Inst(sp) == x;
      assert k.g.Inst(sp) == x;
      if Single(k.g, k.alg, nalg) {
        NotServed(k, used, used0, nalg, sp);
      }
    }
  }

  lemma NotServed(k: Walk, used: map<nat, Option<nat>>, used0: map<nat, Option<nat>>, nalg: Option<nat>, sp: nat)
    requires Walking(k) && Tracked(k, used, used0, nalg) && k.top == [] && k.stack == [] && Single(k.g, k.alg, nalg)
    requires sp in k.secondary && sp in used && used[sp].None?
    ensures !Serves(k.g, k.g.Inst(sp), nalg)
  {
    hide Walking, Finished, StackOk, Comes, Single, StopsAt, Passed, Chain;
    assert k.Seen(sp);
    if Serves(k.g, k.g.Inst(sp), nalg) {
      var p :| ReachedBy(k.g, k.g.Inst(sp), nalg.value, p);
      ServesKept(k, used, used0, nalg, sp, p);
      assert false;
    }
  }

  /** The lists with the spawns that have their algorithm, and no others. */
  ghost predicate Retains(g: Graph, used: map<nat, Option<nat>>, w: Graph) {
    && w.spawns == g.spawns
    && forall a: nat, sp {:trigger sp in w.Users(a)} :: sp in g.Users(a) && HasAlg(used, sp) ==> sp in w.Users(a)
  }

  lemma {:induction false} SupportedReach(k: Walk, used: map<nat, Option<nat>>, w: Graph, i: nat)
    requires Supported(k, used) && k.stack == [] && Retains(k.g, used, w)
    requires i < |k.secondary| && HasAlg(used, k.secondary[i])
    ensures Reached(w, k.alg, k.g.Inst(k.secondary[i]))
    decreases i
  {
    hide Reached, HasAlg;
    var sp := k.secondary[i];
    assert SupportedAt(k, used, i);
    if sp in k.g.Users(k.alg) {
      assert sp in w.Users(k.alg);
      UserReached(w, k.alg, sp);
    } else {
      var r :| Supports(k, used, i, sp, r);
      var j :| 0 <= j < i && k.secondary[..i][j] == r;
      SupportedReach(k, used, w, j);
      assert sp in w.Users(k.g.Inst(r));
      ReachedOn(w, k.alg, k.g.Inst(r), sp);
    }
  }

  /** If the replacement depends on the algorithm, it still does by what is retained. */
  lemma ReplacementReached(k: Walk, used: map<nat, Option<nat>>, used0: map<nat, Option<nat>>, n: nat, w: Graph)
    requires Walking(k) && Tracked(k, used, used0, Some(n)) && k.top == [] && k.stack == []
    requires Retains(k.g, used, w) && Reached(k.g, k.alg, n)
    ensures Reached(w, k.alg, n)
  {
    hide Walking, Reached, Finished, StackOk, Comes, Single, StopsAt, Passed, Serves, Supported, Retains;
    WalkedAll(k, n);
    var sp :| sp in k.secondary && k.g.Inst(sp) == n;
    var i :| 0 <= i < |k.secondary| && k.secondary[i] == sp;
    assert k.Seen(sp);
    SupportedReach(k, used, w, i);
  }

  lemma SpawnAdded(g: Graph, used: map<nat, Option<nat>>, sp: nat, alg: nat)
    requires GraphOk(g) && UsersUsed(g, used) && sp in g.spawns && forall a: nat :: sp !in g.Users(a)
    ensures var h := Graph(g.spawns, g.users[alg := [sp] + g.Users(alg)]);
            GraphOk(h) && UsersUsed(h, used[sp := Some(alg)])
  {
    hide NoDup;
    var h := Graph(g.spawns, g.users[alg := [sp] + g.Users(alg)]);
    ConsNoDup(sp, g.Users(alg));
    assert forall a: nat :: h.Users(a) == if a == alg then [sp] + g.Users(alg) else g.Users(a);
    forall a: nat, x {:trigger x in h.Users(a)} | x in h.Users(a) ensures x in g.Users(a) || (a == alg && x == sp) {
    }
    forall a ensures NoDup(h.Users(a)) {
      assert a != alg ==> h.Users(a) == g.Users(a);
    }
  }

  lemma NoDupSnoc(q: seq<nat>, x: nat)
    requires NoDup(q) && x !in q
    ensures NoDup(q + [x])
  {
  }
}
