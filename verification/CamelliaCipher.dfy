/** The block loops of the Camellia cipher in place, and decryption, which undoes encryption and
    the cipher of RFC 3713.
 */
module CamelliaCipher {
  import opened Camellia

  // ----- decryption, for any subkey table

  function DecSix(t: Tables, k: seq<Half>, i: nat, x: Block): Block
    requires i + 7 < |k|
  {
    var b := RoundSm(t, x.d1, k[i + 7], x.d2);
    var a := RoundSm(t, b, k[i + 6], x.d1);
    var b' := RoundSm(t, a, k[i + 5], b);
    var a' := RoundSm(t, b', k[i + 4], a);
    var b'' := RoundSm(t, a', k[i + 3], b');
    var a'' := RoundSm(t, b'', k[i + 2], a');
    Block(a'', b'')
  }

  function DecGroups(t: Tables, k: seq<Half>, g: nat, x: Block): Block
    requires 8 * g + 7 < |k|
    decreases g
  {
    var y := DecSix(t, k, 8 * g, x);
    if g == 0 then y else DecGroups(t, k, g - 1, Fls(y, k[8 * g + 1], k[8 * g]))
  }

  /** `camellia_do_decrypt`, with its halves not yet swapped. */
  function ImplDecrypt(t: Tables, k: seq<Half>, max: nat, c: Block): Block
    requires (max == 24 || max == 32) && max < |k|
  {
    var x := DecGroups(t, k, max / 8 - 1, Block(Xor(c.d1, k[max]), c.d2));
    Block(x.d1, Xor(x.d2, k[0]))
  }

  /** A round is its own inverse. */
  lemma RoundTwice(t: Tables, x: Half, k: Half, y: Half)
    ensures RoundSm(t, x, k, RoundSm(t, x, k, y)) == y
  {
    hide RoundSm, Lookup, Spread, Xor;
    RoundSmSpread(t, x, k, y);
    RoundSmSpread(t, x, k, RoundSm(t, x, k, y));
    var f := Spread(Xor(Lookup(t, x), k));
    XorLaws(y, f, f);
  }

  lemma SixUndone(t: Tables, k: seq<Half>, i: nat, x: Block)
    requires i + 7 < |k|
    ensures DecSix(t, k, i, Swap(ImplSix(t, k, i, x))) == Swap(x)
  {
    hide RoundSm;
    var b := RoundSm(t, x.d1, k[i + 2], x.d2);
    RoundTwice(t, x.d1, k[i + 2], x.d2);
    var a := RoundSm(t, b, k[i + 3], x.d1);
    RoundTwice(t, b, k[i + 3], x.d1);
    var b' := RoundSm(t, a, k[i + 4], b);
    RoundTwice(t, a, k[i + 4], b);
    var a' := RoundSm(t, b', k[i + 5], a);
    RoundTwice(t, b', k[i + 5], a);
    var b'' := RoundSm(t, a', k[i + 6], b');
    RoundTwice(t, a', k[i + 6], b');
    RoundTwice(t, b'', k[i + 7], a');
  }

  lemma {:induction false} GroupsUndone(t: Tables, k: seq<Half>, g: nat, x: Block)
    requires 8 * g + 7 < |k|
    ensures DecGroups(t, k, g, Swap(ImplGroups(t, k, g, x))) == Swap(x)
    decreases g
  {
    hide ImplSix, DecSix, FL, FLInv;
    if g == 0 {
      SixUndone(t, k, 0, x);
    } else {
      var y := ImplGroups(t, k, g - 1, x);
      SixUndone(t, k, 8 * g, Fls(y, k[8 * g], k[8 * g + 1]));
      FLInverse(y.d1, k[8 * g]);
      FLInverse(y.d2, k[8 * g + 1]);
      GroupsUndone(t, k, g - 1, x);
    }
  }

  /** Whatever the tables and subkeys, decrypting what was encrypted gives it back. */
  lemma DecryptUndoesEncrypt(t: Tables, k: seq<Half>, max: nat, m: Block)
    requires (max == 24 || max == 32) && max < |k|
    ensures Swap(ImplDecrypt(t, k, max, Swap(ImplEncrypt(t, k, max, m)))) == m
  {
    hide ImplGroups, DecGroups, Xor;
    var w := Block(Xor(m.d1, k[0]), m.d2);
    var x := ImplGroups(t, k, max / 8 - 1, w);
    XorLaws(x.d2, k[max], k[max]);
    XorLaws(m.d1, k[0], k[0]);
    GroupsUndone(t, k, max / 8 - 1, w);
  }

  /** So decryption inverts the RFC's encryption with the original subkeys. */
  lemma DecryptUndoesReference(t: Tables, s: seq<Half>, max: nat, k: seq<Half>, m: Block)
    requires IsSubkeyTable(k, s, max)
    ensures Swap(ImplDecrypt(t, k, max, RefEncrypt(t, s, max, m))) == m
  {
    hide ImplEncrypt, ImplDecrypt, RefEncrypt;
    EncryptIsReference(t, s, max, k, m);
    DecryptUndoesEncrypt(t, k, max, m);
  }

  // ----- the loops, in place on io[0..4]

  function Halves(io: array<Word>): Block
    requires io.Length == 4
    reads io
  {
    Block(Half(io[0], io[1]), Half(io[2], io[3]))
  }

  /** CAMELLIA_ROUNDSM on `io`, from the half at `a` into the other half. */
  method Round(t: Tables, io: array<Word>, a: nat, k: Half)
    requires io.Length == 4 && (a == 0 || a == 2)
    modifies io
    ensures var x := old(Halves(io));
            Halves(io) == if a == 0 then Block(x.d1, RoundSm(t, x.d1, k, x.d2))
                          else Block(RoundSm(t, x.d2, k, x.d1), x.d2)
  {
    hide XorW, Ror8, Lookup;
    var h := Lookup(t, Half(io[a], io[a + 1]));
    var il := XorW(h.l, k.l);
    var ir := XorW(h.r, XorW(il, k.r));
    var y := 2 - a;
    io[y], io[y + 1] := XorW(io[y], ir), XorW(io[y + 1], XorW(Ror8(il), ir));
  }

  /** CAMELLIA_FLS on `io`. */
  method FlsInPlace(io: array<Word>, kl: Half, kr: Half)
    requires io.Length == 4
    modifies io
    ensures Halves(io) == Fls(old(Halves(io)), kl, kr)
  {
    hide XorW, AndW, OrW, Rol1;
    io[2] := XorW(io[2], OrW(io[3], kr.r));
    io[1] := XorW(io[1], Rol1(AndW(io[0], kl.l)));
    var t3, t1 := AndW(io[2], kr.l), OrW(io[1], kl.r);
    io[0] := XorW(io[0], t1);
    io[3] := XorW(io[3], Rol1(t3));
  }

  method Rounds(t: Tables, k: seq<Half>, io: array<Word>, i: nat)
    requires io.Length == 4 && i + 7 < |k|
    modifies io
    ensures Halves(io) == ImplSix(t, k, i, old(Halves(io)))
  {
    hide RoundSm;
    Round(t, io, 0, k[i + 2]);
    Round(t, io, 2, k[i + 3]);
    Round(t, io, 0, k[i + 4]);
    Round(t, io, 2, k[i + 5]);
    Round(t, io, 0, k[i + 6]);
    Round(t, io, 2, k[i + 7]);
  }

  method RoundsBack(t: Tables, k: seq<Half>, io: array<Word>, i: nat)
    requires io.Length == 4 && i + 7 < |k|
    modifies io
    ensures Halves(io) == DecSix(t, k, i, old(Halves(io)))
  {
    hide RoundSm;
    Round(t, io, 0, k[i + 7]);
    Round(t, io, 2, k[i + 6]);
    Round(t, io, 0, k[i + 5]);
    Round(t, io, 2, k[i + 4]);
    Round(t, io, 0, k[i + 3]);
    Round(t, io, 2, k[i + 2]);
  }

  method WhitenAt(io: array<Word>, a: nat, k: Half)
    requires io.Length == 4 && (a == 0 || a == 2)
    modifies io
    ensures var x := old(Halves(io));
            Halves(io) == if a == 0 then Block(Xor(x.d1, k), x.d2) else Block(x.d1, Xor(x.d2, k))
  {
    hide XorW;
    io[a], io[a + 1] := XorW(io[a], k.l), XorW(io[a + 1], k.r);
  }

  /** `camellia_do_encrypt`: with the rewritten subkeys of `s` it leaves the RFC's
      ciphertext under `s`, halves swapped. */
  method DoEncrypt(t: Tables, k: seq<Half>, io: array<Word>, max: nat, ghost s: seq<Half>)
    requires io.Length == 4 && IsSubkeyTable(k, s, max)
    modifies io
    ensures Swap(Halves(io)) == RefEncrypt(t, s, max, old(Halves(io)))
    ensures Halves(io) == ImplEncrypt(t, k, max, old(Halves(io)))
  {
    hide ImplSix, Fls, Xor, RefEncrypt, Plain, Unspread;
    ghost var m := Halves(io);
    WhitenAt(io, 0, k[0]);
    ghost var w := Halves(io);
    Rounds(t, k, io, 0);
    GroupStep(t, k, 0, w);
    FlsInPlace(io, k[8], k[9]);
    Rounds(t, k, io, 8);
    GroupStep(t, k, 1, w);
    FlsInPlace(io, k[16], k[17]);
    Rounds(t, k, io, 16);
    GroupStep(t, k, 2, w);
    if max == 32 {
      FlsInPlace(io, k[24], k[25]);
      Rounds(t, k, io, 24);
      GroupStep(t, k, 3, w);
    }
    WhitenAt(io, 2, k[max]);
    EncryptIsReference(t, s, max, k, m);
  }

  lemma GroupStep(t: Tables, k: seq<Half>, g: nat, x: Block)
    requires 8 * g + 7 < |k|
    ensures ImplGroups(t, k, g, x) ==
            if g == 0 then ImplSix(t, k, 0, x)
            else ImplSix(t, k, 8 * g, Fls(ImplGroups(t, k, g - 1, x), k[8 * g], k[8 * g + 1]))
  {
  }

  /** `camellia_do_decrypt`. */
  method DoDecrypt(t: Tables, k: seq<Half>, io: array<Word>, max: nat)
    requires io.Length == 4 && (max == 24 || max == 32) && max < |k|
    modifies io
    ensures Halves(io) == ImplDecrypt(t, k, max, old(Halves(io)))
    ensures forall m {:trigger ImplEncrypt(t, k, max, m)} ::
              old(Halves(io)) == Swap(ImplEncrypt(t, k, max, m)) ==> Swap(Halves(io)) == m
  {
    hide DecSix, Fls, Xor, ImplEncrypt;
    ghost var c := Halves(io);
    WhitenAt(io, 0, k[max]);
    if max == 32 {
      RoundsBack(t, k, io, 24);
      FlsInPlace(io, k[25], k[24]);
    }
    ghost var x := Halves(io);
    RoundsBack(t, k, io, 16);
    FlsInPlace(io, k[17], k[16]);
    ghost var y := Halves(io);
    RoundsBack(t, k, io, 8);
    FlsInPlace(io, k[9], k[8]);
    RoundsBack(t, k, io, 0);
    DecStep(t, k, 0, Fls(DecSix(t, k, 8, y), k[9], k[8]));
    DecStep(t, k, 1, y);
    DecStep(t, k, 2, x);
    if max == 32 { DecStep(t, k, 3, Block(Xor(c.d1, k[max]), c.d2)); }
    WhitenAt(io, 2, k[0]);
    forall m {:trigger ImplEncrypt(t, k, max, m)} | c == Swap(ImplEncrypt(t, k, max, m))
      ensures Swap(Halves(io)) == m
    {
      DecryptUndoesEncrypt(t, k, max, m);
    }
  }

  lemma DecStep(t: Tables, k: seq<Half>, g: nat, x: Block)
    requires 8 * g + 7 < |k|
    ensures var y := DecSix(t, k, 8 * g, x);
            DecGroups(t, k, g, x) == if g == 0 then y else DecGroups(t, k, g - 1, Fls(y, k[8 * g + 1], k[8 * g]))
  {
  }
}
