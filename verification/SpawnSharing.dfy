/** With a replacement, an instance that has two spawns can die although the replacement depends
    on it; and which of two others does depends on the order of a user list.
 */
module SpawnSharing {
  import opened Lists
  import opened Spawns

  /** Instances 1 and 2 use algorithm 0, instance 3 uses both of them, and the replacement, 9,
      uses instance 3. */
  const SHARED: map<nat, Spawn> :=
    map[11 := Spawn(1, {}), 12 := Spawn(2, {}), 13 := Spawn(3, {}), 14 := Spawn(3, {}), 15 := Spawn(9, {})]

  function SharedGraph(top: seq<nat>): Graph {
    Graph(SHARED, map[0 := top, 1 := [13], 2 := [14], 3 := [15], 9 := []])
  }

  const SHARED_USED: map<nat, Option<nat>> :=
    map[11 := Some(0), 12 := Some(0), 13 := Some(1), 14 := Some(2), 15 := Some(3)]

  function SharedWalk(top: seq<nat>): Walk {
    Walk(SharedGraph(top), 0, map[0 := [], 1 := [13], 2 := [14], 3 := [15], 9 := []], top, {11, 12, 13, 14, 15}, [], [])
  }

  lemma SharedWalks(top: seq<nat>)
    requires top == [11, 12] || top == [12, 11]
    ensures Walking(SharedWalk(top))
  {
    var g, k := SharedGraph(top), SharedWalk(top);
    SharedOk(top);
    NoDupPair(top[0], top[1]);
    var users := map[0 := [], 1 := [13], 2 := [14], 3 := [15], 9 := []];
    assert Hidden(users, 0, Some(9)) == users;
    assert SHARED.Keys == {11, 12, 13, 14, 15};
    StartWalking(g, g, 0, Some(9), users, top);
  }

  lemma SharedOk(top: seq<nat>)
    requires top == [11, 12] || top == [12, 11]
    ensures GraphOk(SharedGraph(top))
  {
    var g := SharedGraph(top);
    NoDupPair(top[0], top[1]);
    forall a ensures NoDup(g.Users(a)) {
    }
    forall a, sp {:trigger sp in g.Users(a)} | sp in g.Users(a)
      ensures sp in SHARED && a == if sp <= 12 then 0 else if sp == 13 then 1 else if sp == 14 then 2 else 3
    {
    }
  }

  lemma NoDupPair(x: nat, y: nat)
    requires x != y
    ensures NoDup([x, y])
  {
  }

  /** The replacement depends on all three, but the instance met twice dies, and so does the one
      whose turn is second: which one that is depends on the order of the user list. */
  lemma SharedDies(top: seq<nat>)
    requires top == [11, 12] || top == [12, 11]
    ensures var g, nalg := SharedGraph(top), Some(9);
            && Walking(SharedWalk(top)) && !Single(g, 0, nalg)
            && Serves(g, 1, nalg) && Serves(g, 2, nalg) && Serves(g, 3, nalg)
            && var (k, used) := Walked(SharedWalk(top), SHARED_USED, nalg);
               Doomed(SHARED, used, k.secondary) == {if top[0] == 11 then 2 else 1, 3}
  {
    hide Walking, Walked;
    var g, nalg := SharedGraph(top), Some(9);
    SharedWalks(top);
    UserReached(g, 3, 15);
    ServesOn(g, 3, 15, nalg);
    ServesOn(g, 1, 13, nalg);
    ServesOn(g, 2, 14, nalg);
    SharedTwice(top);
    SharedEnd(top);
  }

  lemma SharedTwice(top: seq<nat>)
    requires top == [11, 12] || top == [12, 11]
    ensures !Single(SharedGraph(top), 0, Some(9))
  {
    var g := SharedGraph(top);
    assert 11 in g.Users(0) && 12 in g.Users(0);
    UserReached(g, 0, 11);
    UserReached(g, 0, 12);
    assert 13 in g.Users(1) && 14 in g.Users(2);
    assert Listed(g, 0, 13) && Listed(g, 0, 14);
  }

  /** Where the walk is: `i` is the instance whose turn is first, `j` the other one. */
  ghost predicate At(k: Walk, i: nat, j: nat, stack: seq<nat>, secondary: seq<nat>, top: seq<nat>,
                     ofI: seq<nat>, ofJ: seq<nat>, of3: seq<nat>)
  {
    && Walking(k) && k.alg == 0 && k.stack == stack && k.secondary == secondary && k.top == top
    && k.Now(i) == ofI && k.Now(j) == ofJ && k.Now(3) == of3 && k.Now(9) == []
  }

  lemma AtDown(k: Walk, i: nat, j: nat, stack: seq<nat>, secondary: seq<nat>, top: seq<nat>,
               ofI: seq<nat>, ofJ: seq<nat>, of3: seq<nat>)
    requires At(k, i, j, stack, secondary, top, ofI, ofJ, of3) && k.Current() != [] && i != j && i != 3 && j != 3
    ensures Walking(k) && k.g == Push(k).g
    ensures var sp := k.Current()[0]; var x := if stack == [] then 0 else k.g.Inst(stack[0]);
            x in {0, i, j, 3} && (stack != [] ==> x != 0) && 0 !in {i, j} ==>
              At(Push(k), i, j, [sp] + stack, secondary, if stack == [] then top[1..] else top,
                 if x == i then ofI[1..] else ofI, if x == j then ofJ[1..] else ofJ, if x == 3 then of3[1..] else of3)
  {
    hide Walking, Push;
    PushOk(k);
    PushShape(k);
    PushNow(k, i);
    PushNow(k, j);
    PushNow(k, 3);
    PushNow(k, 9);
  }

  lemma AtUp(k: Walk, i: nat, j: nat, stack: seq<nat>, secondary: seq<nat>, top: seq<nat>,
             ofI: seq<nat>, ofJ: seq<nat>, of3: seq<nat>)
    requires At(k, i, j, stack, secondary, top, ofI, ofJ, of3) && stack != []
    ensures Walking(k) && k.g == Pop(k).g && At(Pop(k), i, j, stack[1..], [stack[0]] + secondary, top, ofI, ofJ, of3)
  {
    hide Walking;
    PopOk(k);
  }

  /** The first turn: down to the replacement and back, everything given back on the way. */
  lemma FirstTurn(k: Walk, used: map<nat, Option<nat>>, a: nat, b: nat, c: nat, d: nat, i: nat, j: nat) returns (k': Walk)
    requires At(k, i, j, [], [], [a, b], [c], [d], [15]) && i + j == 3 && 1 <= i <= 2
    requires k.g.Inst(a) == i && k.g.Inst(c) == 3 && k.g.Inst(15) == 9 && {a, c, 15} <= used.Keys && a != c && c != 15 && a != 15
    requires used[15].Some?
    ensures k'.g == k.g && At(k', i, j, [], [a, c, 15], [b], [], [d], [])
    ensures Walked(k, used, Some(9)) == Walked(k', used[a := Some(0)][c := Some(i)], Some(9))
  {
    hide Walking, Walked, Push, Pop;
    var n := Some(9);
    AtDown(k, i, j, [], [], [a, b], [c], [d], [15]);
    WalkedDown(k, used, n);
    var k1, u1 := Push(k), used[a := None];
    assert [a] + [] == [a] && [a, b][1..] == [b];
    AtDown(k1, i, j, [a], [], [b], [c], [d], [15]);
    WalkedDown(k1, u1, n);
    var k2, u2 := Push(k1), u1[c := None];
    assert [c] + [a] == [c, a] && [c][1..] == [];
    AtDown(k2, i, j, [c, a], [], [b], [], [d], [15]);
    WalkedDown(k2, u2, n);
    var k3 := Push(k2);
    assert [15] + [c, a] == [15, c, a] && [15][1..] == [];
    AtUp(k3, i, j, [15, c, a], [], [b], [], [d], []);
    WalkedUp(k3, u2, n);
    var k4, u4 := Pop(k3), u2[c := Some(i)];
    assert [15, c, a][1..] == [c, a] && [15] + [] == [15];
    k' := BackUp(k4, u4, a, b, c, d, i, j);
    assert u4[a := Some(0)] == used[a := Some(0)][c := Some(i)];
  }

  lemma BackUp(k: Walk, used: map<nat, Option<nat>>, a: nat, b: nat, c: nat, d: nat, i: nat, j: nat) returns (k': Walk)
    requires At(k, i, j, [c, a], [15], [b], [], [d], []) && {a, c} <= used.Keys && used[c].Some? && used[a].None?
    requires k.g.Inst(a) == i && k.g.Inst(c) == 3
    ensures k'.g == k.g && At(k', i, j, [], [a, c, 15], [b], [], [d], [])
    ensures Walked(k, used, Some(9)) == Walked(k', used[a := Some(0)], Some(9))
  {
    hide Walking, Walked, Push, Pop;
    AtUp(k, i, j, [c, a], [15], [b], [], [d], []);
    WalkedUp(k, used, Some(9));
    var k1, u1 := Pop(k), used[a := Some(0)];
    assert [c, a][1..] == [a] && [c] + [15] == [c, 15];
    AtUp(k1, i, j, [a], [c, 15], [b], [], [d], []);
    WalkedUp(k1, u1, Some(9));
    k' := Pop(k1);
    assert [a][1..] == [] && [a] + [c, 15] == [a, c, 15];
  }

  /** The second turn: the shared instance has no users left, so nothing is given back. */
  lemma SecondTurn(k: Walk, used: map<nat, Option<nat>>, a: nat, b: nat, c: nat, d: nat, i: nat, j: nat) returns (k': Walk)
    requires At(k, i, j, [], [a, c, 15], [b], [], [d], []) && i + j == 3 && 1 <= i <= 2
    requires k.g.Inst(b) == j && k.g.Inst(d) == 3 && {b, d} <= used.Keys && b != d
    ensures k'.secondary == [b, d, a, c, 15]
    ensures Walked(k, used, Some(9)) == (k', used[b := None][d := None])
  {
    hide Walking, Walked, Push, Pop;
    var n := Some(9);
    AtDown(k, i, j, [], [a, c, 15], [b], [], [d], []);
    WalkedDown(k, used, n);
    var k1, u1 := Push(k), used[b := None];
    assert [b] + [] == [b] && [b][1..] == [];
    AtDown(k1, i, j, [b], [a, c, 15], [], [], [d], []);
    WalkedDown(k1, u1, n);
    var k2, u2 := Push(k1), u1[d := None];
    assert [d] + [b] == [d, b] && [d][1..] == [];
    AtUp(k2, i, j, [d, b], [a, c, 15], [], [], [], []);
    WalkedUp(k2, u2, n);
    var k3 := Pop(k2);
    assert [d, b][1..] == [b] && [d] + [a, c, 15] == [d, a, c, 15];
    AtUp(k3, i, j, [b], [d, a, c, 15], [], [], [], []);
    WalkedUp(k3, u2, n);
    k' := Pop(k3);
    assert [b][1..] == [] && [b] + [d, a, c, 15] == [b, d, a, c, 15];
    WalkedOut(k', u2, n);
  }

  lemma SharedEnd(top: seq<nat>)
    requires top == [11, 12] || top == [12, 11]
    requires Walking(SharedWalk(top))
    ensures var (k, used) := Walked(SharedWalk(top), SHARED_USED, Some(9));
            Doomed(SHARED, used, k.secondary) == {if top[0] == 11 then 2 else 1, 3}
  {
    hide Walking, Walked, Doomed;
    var a, b, c, d := top[0], top[1], if top[0] == 11 then 13 else 14, if top[0] == 11 then 14 else 13;
    var i, j := if a == 11 then 1 else 2, if a == 11 then 2 else 1;
    var k := SharedWalk(top);
    var k' := FirstTurn(k, SHARED_USED, a, b, c, d, i, j);
    var used := SHARED_USED[a := Some(0)][c := Some(i)];
    var end := SecondTurn(k', used, a, b, c, d, i, j);
    SharedDoomed(used[b := None][d := None], a, b, c, d, j);
  }

  lemma SharedDoomed(used: map<nat, Option<nat>>, a: nat, b: nat, c: nat, d: nat, j: nat)
    requires {a, b, c, d, 15} <= used.Keys && b in SHARED && SHARED[b].inst == j && d in SHARED && SHARED[d].inst == 3
    requires used[a].Some? && used[c].Some? && used[15].Some? && used[b].None? && used[d].None?
    ensures Doomed(SHARED, used, [b, d, a, c, 15]) == {j, 3}
  {
    var q, doomed := [b, d, a, c, 15], Doomed(SHARED, used, [b, d, a, c, 15]);
    assert b in q && d in q;
    forall x | x in doomed ensures x in {j, 3} {
      var sp :| sp in q && sp in used && used[sp].None? && Graph(SHARED, map[]).Inst(sp) == x;
    }
    assert Graph(SHARED, map[]).Inst(b) == j && Graph(SHARED, map[]).Inst(d) == 3;
  }
}
