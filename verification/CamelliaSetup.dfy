/** `camellia_setup_tail`: absorbing the whitening keys kw2 and kw4 into the round keys,
    moving the key addition behind the F-function and taking the last half of P out of it,
    all in place on the subkey arrays.
 */
module CamelliaSetup {
  import opened Camellia

  /** kw2 as it has passed the FL layers up to the `g`-th six rounds. */
  function Kw2At(s: seq<Half>, g: nat): Half
    requires 8 * g + 1 < |s|
  {
    if g == 0 then s[1] else Diff(Kw2At(s, g - 1), s[8 * g + 1])
  }

  /** kw4 as it has passed the FL layers back to the `g`-th six rounds. */
  function Kw4At(s: seq<Half>, max: nat, g: nat): Half
    requires KeyShape(s, max) && 8 * g + 8 <= max
    decreases max - 8 * g
  {
    if 8 * g + 8 == max then s[max + 1] else Diff(Kw4At(s, max, g + 1), s[8 * g + 8])
  }

  /** The subkeys with kw2 absorbed. */
  function Kw2Absorbed(s: seq<Half>, max: nat, i: nat): Half
    requires KeyShape(s, max) && i < |s|
  {
    if i == max then Xor(s[i], Kw2At(s, max / 8 - 1))
    else if i < max && i % 8 >= 3 && i % 2 == 1 then Xor(s[i], Kw2At(s, i / 8))
    else s[i]
  }

  /** The subkeys with both absorbed. */
  function Absorbed(s: seq<Half>, max: nat, i: nat): Half
    requires KeyShape(s, max) && i < |s|
  {
    if i == 0 then Xor(s[i], Kw4At(s, max, 0))
    else if i < max && i % 8 >= 2 && i % 2 == 0 then Xor(s[i], Kw4At(s, max, i / 8))
    else Kw2Absorbed(s, max, i)
  }

  /** Add `e` to the subkeys at `i`, `i + 2` and `i + 4`. */
  method AddToThree(sub: array<Half>, i: nat, e: Half)
    requires i + 4 < sub.Length
    modifies sub
    ensures forall j :: 0 <= j < sub.Length ==>
              sub[j] == if j == i || j == i + 2 || j == i + 4 then Xor(old(sub[j]), e) else old(sub[j])
  {
    sub[i] := Xor(sub[i], e);
    sub[i + 2] := Xor(sub[i + 2], e);
    sub[i + 4] := Xor(sub[i + 4], e);
  }

  /** Lines "absorb kw2 to other subkeys"; `sub[1]` serves as the running key. */
  method AbsorbKw2(sub: array<Half>, max: nat)
    requires KeyShape(sub[..], max)
    modifies sub
    ensures forall j :: 0 <= j < sub.Length && j != 1 ==> sub[j] == Kw2Absorbed(old(sub[..]), max, j)
  {
    hide Xor, Diff, Kw2At;
    ghost var s := sub[..];
    Kw2Step(s, 0);
    Kw2Step(s, 1);
    Kw2Step(s, 2);
    AddToThree(sub, 3, sub[1]);
    sub[1] := Diff(sub[1], sub[9]);
    AddToThree(sub, 11, sub[1]);
    sub[1] := Diff(sub[1], sub[17]);
    AddToThree(sub, 19, sub[1]);
    if max == 32 {
      Kw2Step(s, 3);
      sub[1] := Diff(sub[1], sub[25]);
      AddToThree(sub, 27, sub[1]);
    }
    sub[max] := Xor(sub[max], sub[1]);
  }

  lemma Kw2Step(s: seq<Half>, g: nat)
    requires 8 * g + 1 < |s|
    ensures Kw2At(s, g) == if g == 0 then s[1] else Diff(Kw2At(s, g - 1), s[8 * g + 1])
  {
  }

  /** Lines "absorb kw4 to other subkeys". */
  method AbsorbKw4(sub: array<Half>, max: nat, ghost s: seq<Half>)
    requires sub.Length == |s| && KeyShape(s, max)
    requires forall j :: 0 <= j < sub.Length && j != 1 ==> sub[j] == Kw2Absorbed(s, max, j)
    modifies sub
    ensures forall j :: 0 <= j < sub.Length && j != 1 ==> sub[j] == Absorbed(s, max, j)
  {
    hide Xor, Diff, Kw4At, Kw2At;
    var kw4 := sub[max + 1];
    if max == 32 {
      Kw4Step(s, max, 3);
      AddToThree(sub, 26, kw4);
      kw4 := Diff(kw4, sub[24]);
    }
    Kw4Step(s, max, 2);
    Kw4Step(s, max, 1);
    Kw4Step(s, max, 0);
    AddToThree(sub, 18, kw4);
    kw4 := Diff(kw4, sub[16]);
    AddToThree(sub, 10, kw4);
    kw4 := Diff(kw4, sub[8]);
    AddToThree(sub, 2, kw4);
    sub[0] := Xor(sub[0], kw4);
  }

  lemma Kw4Step(s: seq<Half>, max: nat, g: nat)
    requires KeyShape(s, max) && 8 * g + 8 <= max
    ensures Kw4At(s, max, g) == if 8 * g + 8 == max then s[max + 1] else Diff(Kw4At(s, max, g + 1), s[8 * g + 8])
  {
  }

  /** Moving the key addition to the end of F: the table in terms of the absorbed subkeys. */
  function Moved(a: seq<Half>, max: nat, i: nat): Half
    requires KeyShape(a, max) && i <= max && i != 1
  {
    if i == 0 then Xor(a[0], a[2])
    else if i == max then Xor(a[max], a[max - 1])
    else if i % 8 < 2 then a[i]
    else if i == 2 then a[3]
    else if i % 8 == 2 then Xor(Diff(a[i - 3], a[i - 1]), a[i + 1])
    else if i == max - 1 then a[i - 1]
    else if i % 8 == 7 then Xor(a[i - 1], Diff(a[i + 3], a[i + 1]))
    else Xor(a[i - 1], a[i + 1])
  }

  /** Four inner rounds and the FL keys of six rounds starting at `i`. */
  method MoveInner(subkey: array<Half>, sub: array<Half>, i: nat)
    requires subkey != sub && i + 7 < subkey.Length && i + 7 < sub.Length
    modifies subkey
    ensures forall j :: 0 <= j < subkey.Length ==>
              subkey[j] == if i + 3 <= j <= i + 6 then Xor(sub[j - 1], sub[j + 1]) else old(subkey[j])
  {
    subkey[i + 3] := Xor(sub[i + 2], sub[i + 4]);
    subkey[i + 4] := Xor(sub[i + 3], sub[i + 5]);
    subkey[i + 5] := Xor(sub[i + 4], sub[i + 6]);
    subkey[i + 6] := Xor(sub[i + 5], sub[i + 7]);
  }

  /** The keys around the FL layer at `i`: round before it, the two FL keys, round after it. */
  method MoveFl(subkey: array<Half>, sub: array<Half>, i: nat)
    requires subkey != sub && 2 <= i && i + 3 < subkey.Length && i + 3 < sub.Length
    modifies subkey
    ensures forall j :: 0 <= j < subkey.Length ==>
              subkey[j] == if j == i - 1 then Xor(sub[i - 2], Diff(sub[i + 2], sub[i]))
                           else if j == i || j == i + 1 then sub[j]
                           else if j == i + 2 then Xor(Diff(sub[i - 1], sub[i + 1]), sub[i + 3])
                           else old(subkey[j])
  {
    subkey[i - 1] := Xor(sub[i - 2], Diff(sub[i + 2], sub[i]));
    subkey[i] := sub[i];
    subkey[i + 1] := sub[i + 1];
    subkey[i + 2] := Xor(Diff(sub[i - 1], sub[i + 1]), sub[i + 3]);
  }

  /** Lines "key XOR is end of F-function". */
  method MoveKeys(subkey: array<Half>, sub: array<Half>, max: nat)
    requires subkey != sub && KeyShape(sub[..], max) && max < subkey.Length
    modifies subkey
    ensures forall j :: 0 <= j <= max && j != 1 ==> subkey[j] == Moved(sub[..], max, j)
  {
    hide Xor, Diff;
    subkey[0] := Xor(sub[0], sub[2]);
    subkey[2] := sub[3];
    MoveInner(subkey, sub, 0);
    assert forall j :: 0 <= j < 7 && j != 1 ==> subkey[j] == Moved(sub[..], max, j);
    MoveSix(subkey, sub, max, 8);
    MoveSix(subkey, sub, max, 16);
    if max == 32 {
      MoveSix(subkey, sub, max, 24);
    }
    subkey[max - 1] := sub[max - 2];
    subkey[max] := Xor(sub[max], sub[max - 1]);
  }

  /** The FL layer at `i` and the rounds after it, up to the next layer. */
  method MoveSix(subkey: array<Half>, sub: array<Half>, max: nat, i: nat)
    requires subkey != sub && KeyShape(sub[..], max) && max < subkey.Length && i % 8 == 0 && 8 <= i < max
    requires forall j :: 0 <= j < i - 1 && j != 1 ==> subkey[j] == Moved(sub[..], max, j)
    modifies subkey
    ensures forall j :: 0 <= j < i + 7 && j != 1 ==> subkey[j] == Moved(sub[..], max, j)
  {
    hide Xor, Diff, Moved;
    MovedAt(sub[..], max, i);
    MoveFl(subkey, sub, i);
    MoveInner(subkey, sub, i);
  }

  lemma MovedAt(a: seq<Half>, max: nat, i: nat)
    requires KeyShape(a, max) && i % 8 == 0 && 8 <= i < max
    ensures Moved(a, max, i - 1) == Xor(a[i - 2], Diff(a[i + 2], a[i]))
    ensures Moved(a, max, i) == a[i] && Moved(a, max, i + 1) == a[i + 1]
    ensures Moved(a, max, i + 2) == Xor(Diff(a[i - 1], a[i + 1]), a[i + 3])
    ensures forall j :: i + 3 <= j <= i + 6 ==> Moved(a, max, j) == Xor(a[j - 1], a[j + 1])
  {
    hide Xor, Diff;
  }

  /** Lines "apply the inverse of the last half of P-function". */
  method UnspreadRounds(subkey: array<Half>, max: nat)
    requires (max == 24 || max == 32) && max < subkey.Length
    modifies subkey
    ensures forall j :: 0 <= j <= max ==>
              subkey[j] == if j % 8 >= 2 then Unspread(old(subkey[j])) else old(subkey[j])
  {
    hide Unspread;
    var i := 2;
    while i < max
      invariant i % 8 == 2 && 2 <= i <= max + 2
      invariant forall j :: 0 <= j <= max ==>
                  subkey[j] == if j < i && j % 8 >= 2 then Unspread(old(subkey[j])) else old(subkey[j])
    {
      for r := 0 to 6
        invariant forall j :: 0 <= j <= max ==>
                    subkey[j] == if j < i + r && j % 8 >= 2 then Unspread(old(subkey[j])) else old(subkey[j])
      {
        subkey[i + r] := Unspread(subkey[i + r]);
      }
      i := i + 8;
    }
  }

  // ----- what the absorbed keys cancel to

  lemma CancelSame(a: Half, b: Half, e: Half)
    ensures Xor(Xor(a, e), Xor(b, e)) == Xor(a, b)
  {
  }

  /** Passing a key and an absorbed one through an FL layer together. */
  lemma CancelThrough(a: Half, b: Half, e: Half, k: Half)
    ensures Xor(Xor(a, Diff(e, k)), Diff(Xor(b, e), k)) == Xor(a, Diff(b, k))
  {
    hide Diff, Xor;
    DiffXor(b, e, k);
    CancelSame(a, Diff(b, k), Diff(e, k));
  }

  lemma CancelThrough2(a: Half, b: Half, e: Half, k: Half)
    ensures Xor(Diff(Xor(b, e), k), Xor(a, Diff(e, k))) == Xor(Diff(b, k), a)
  {
    hide Diff, Xor;
    DiffXor(b, e, k);
    CancelSame(Diff(b, k), a, Diff(e, k));
  }

  /** Every absorbed whitening key cancels in the moved table, except at the ends. */
  lemma MovedIsPlain(s: seq<Half>, a: seq<Half>, max: nat, i: nat)
    requires KeyShape(s, max) && |a| == |s| && i <= max && i != 1
    requires forall j :: 0 <= j < |a| && j != 1 ==> a[j] == Absorbed(s, max, j)
    ensures Moved(a, max, i) == Plain(s, max, i)
  {
    hide Moved, Plain, Absorbed;
    if i == 0 || i == max || i % 8 < 2 {
      MovedEnds(s, a, max, i);
    } else if i % 8 == 2 {
      MovedAfterFl(s, a, max, i / 8);
    } else if i % 8 == 7 {
      MovedBeforeFl(s, a, max, i / 8);
    } else {
      MovedInner(s, a, max, i);
    }
  }

  lemma MovedEnds(s: seq<Half>, a: seq<Half>, max: nat, i: nat)
    requires KeyShape(s, max) && |a| == |s| && i <= max && i != 1 && (i == 0 || i == max || i % 8 < 2)
    requires forall j :: 0 <= j < |a| && j != 1 ==> a[j] == Absorbed(s, max, j)
    ensures Moved(a, max, i) == Plain(s, max, i)
  {
    hide Diff, Xor, Kw2At, Kw4At;
    if i == 0 {
      CancelSame(s[0], s[2], Kw4At(s, max, 0));
    } else if i == max {
      CancelSame(s[max], s[max - 1], Kw2At(s, max / 8 - 1));
    }
  }

  /** Which whitening key a subkey between the ends has absorbed. */
  lemma AbsorbedAt(s: seq<Half>, max: nat, j: nat)
    requires KeyShape(s, max) && 1 < j < max
    ensures j % 8 >= 2 && j % 2 == 0 ==> 8 * (j / 8) + 8 <= max && Absorbed(s, max, j) == Xor(s[j], Kw4At(s, max, j / 8))
    ensures j % 8 >= 3 && j % 2 == 1 ==> Absorbed(s, max, j) == Xor(s[j], Kw2At(s, j / 8))
    ensures j % 8 < 2 ==> Absorbed(s, max, j) == s[j]
  {
    hide Xor, Kw2At, Kw4At;
  }

  lemma MovedInner(s: seq<Half>, a: seq<Half>, max: nat, i: nat)
    requires KeyShape(s, max) && |a| == |s| && 0 < i < max && 3 <= i % 8 <= 6
    requires forall j :: 0 <= j < |a| && j != 1 ==> a[j] == Absorbed(s, max, j)
    ensures Moved(a, max, i) == Plain(s, max, i)
  {
    hide Diff, Xor, Kw2At, Kw4At, Absorbed;
    var g := i / 8;
    AbsorbedAt(s, max, i - 1);
    AbsorbedAt(s, max, i + 1);
    if i % 2 == 0 {
      CancelSame(s[i - 1], s[i + 1], Kw2At(s, g));
    } else {
      CancelSame(s[i - 1], s[i + 1], Kw4At(s, max, g));
    }
  }

  /** The round behind an FL layer, and the first round. */
  lemma MovedAfterFl(s: seq<Half>, a: seq<Half>, max: nat, g: nat)
    requires KeyShape(s, max) && |a| == |s| && 8 * g + 2 < max
    requires forall j :: 0 <= j < |a| && j != 1 ==> a[j] == Absorbed(s, max, j)
    ensures Moved(a, max, 8 * g + 2) == Plain(s, max, 8 * g + 2)
  {
    hide Diff, Xor, Kw2At, Kw4At, Absorbed;
    var i := 8 * g + 2;
    AbsorbedAt(s, max, i + 1);
    Kw2Step(s, g);
    if g == 0 {
      XorLaws(s[3], s[1], s[1]);
    } else {
      AbsorbedAt(s, max, i - 1);
      AbsorbedAt(s, max, i - 3);
      CancelThrough2(s[i + 1], s[i - 3], Kw2At(s, g - 1), s[i - 1]);
    }
  }

  /** The round in front of an FL layer, and the last round. */
  lemma MovedBeforeFl(s: seq<Half>, a: seq<Half>, max: nat, g: nat)
    requires KeyShape(s, max) && |a| == |s| && 8 * g + 7 < max
    requires forall j :: 0 <= j < |a| && j != 1 ==> a[j] == Absorbed(s, max, j)
    ensures Moved(a, max, 8 * g + 7) == Plain(s, max, 8 * g + 7)
  {
    hide Diff, Xor, Kw2At, Kw4At, Absorbed;
    var i := 8 * g + 7;
    AbsorbedAt(s, max, i - 1);
    Kw4Step(s, max, g);
    if i < max - 1 {
      AbsorbedAt(s, max, i + 1);
      AbsorbedAt(s, max, i + 3);
      CancelThrough(s[i - 1], s[i + 3], Kw4At(s, max, g + 1), s[i + 1]);
    }
  }

  /** `camellia_setup_tail`. */
  method SetupTail(subkey: array<Half>, sub: array<Half>, max: nat)
    requires subkey != sub && KeyShape(sub[..], max) && max < subkey.Length
    modifies subkey, sub
    ensures IsSubkeyTable(subkey[..], old(sub[..]), max)
  {
    hide Moved, Plain, Absorbed, Kw2Absorbed, Unspread;
    ghost var s := sub[..];
    AbsorbKw2(sub, max);
    AbsorbKw4(sub, max, s);
    MoveKeys(subkey, sub, max);
    ghost var moved := subkey[..];
    forall i | 0 <= i <= max && i != 1 ensures moved[i] == Plain(s, max, i) {
      MovedIsPlain(s, sub[..], max, i);
    }
    UnspreadRounds(subkey, max);
  }
}
