/** The Camellia cipher: the data randomizing part as section 2.3 of RFC 3713 states it, the
    rewritten subkeys that `camellia_setup_tail` computes, and the encryption and decryption
    loops that use them.

    A word is its 32 bits, most significant first.  A 64-bit half block or subkey is a pair
    of words; `subL[i]`, `subR[i]` and `SUBKEY_L(i)`, `SUBKEY_R(i)` are kept as one pair each.
 */
module Camellia {

  type Byte = b: seq<bool> | |b| == 8 witness seq(8, _ => false)
  type Word = w: seq<bool> | |w| == 32 witness seq(32, _ => false)

  function XorW(a: Word, b: Word): Word { seq(32, i requires 0 <= i < 32 => a[i] != b[i]) }
  function AndW(a: Word, b: Word): Word { seq(32, i requires 0 <= i < 32 => a[i] && b[i]) }
  function OrW(a: Word, b: Word): Word { seq(32, i requires 0 <= i < 32 => a[i] || b[i]) }
  function NotW(a: Word): Word { seq(32, i requires 0 <= i < 32 => !a[i]) }
  function Rol1(a: Word): Word { a[1..] + a[..1] }
  function Rol8(a: Word): Word { a[8..] + a[..8] }
  function Ror8(a: Word): Word { a[24..] + a[..24] }

  datatype Half = Half(l: Word, r: Word)

  function Xor(a: Half, b: Half): Half {
    Half(XorW(a.l, b.l), XorW(a.r, b.r))
  }

  lemma XorWSwap(a: Word, b: Word, c: Word)
    ensures XorW(a, b) == XorW(b, a)
    ensures XorW(XorW(a, b), c) == XorW(a, XorW(b, c))
    ensures XorW(XorW(a, b), b) == a
  {
  }

  lemma XorWMix(a: Word, b: Word, c: Word, d: Word)
    ensures XorW(XorW(a, b), XorW(c, d)) == XorW(XorW(a, c), XorW(b, d))
  {
    hide XorW;
    XorWSwap(a, b, XorW(c, d));
    XorWSwap(b, c, d);
    XorWSwap(c, b, d);
    XorWSwap(a, c, XorW(b, d));
  }

  /** Rotation and masking pass through the exclusive or. */
  lemma RotateXorW(a: Word, b: Word)
    ensures Ror8(XorW(a, b)) == XorW(Ror8(a), Ror8(b))
    ensures Rol1(XorW(a, b)) == XorW(Rol1(a), Rol1(b))
  {
  }

  lemma AndXorW(a: Word, b: Word, k: Word)
    ensures AndW(XorW(a, b), k) == XorW(AndW(a, k), AndW(b, k))
  {
  }

  lemma OrXorW(a: Word, b: Word, k: Word)
    ensures OrW(XorW(a, b), k) == XorW(OrW(a, k), AndW(b, NotW(k)))
  {
  }

  /** The laws of the exclusive or of halves. */
  lemma XorLaws(a: Half, b: Half, c: Half)
    ensures Xor(a, b) == Xor(b, a)
    ensures Xor(Xor(a, b), c) == Xor(a, Xor(b, c))
    ensures Xor(Xor(a, b), b) == a
  {
    hide XorW;
    XorWSwap(a.l, b.l, c.l);
    XorWSwap(a.r, b.r, c.r);
  }

  // ----- the F-function

  /** The four lookup tables. */
  datatype Tables = Tables(sp1110: Byte -> Word, sp0222: Byte -> Word, sp3033: Byte -> Word, sp4404: Byte -> Word)

  /** The table lookups of CAMELLIA_ROUNDSM, before any key is added: the S-boxes and the
      first half of P. */
  function Lookup(t: Tables, x: Half): Half {
    Half(XorW(XorW(XorW(t.sp1110(x.l[..8]), t.sp0222(x.l[8..16])), t.sp3033(x.l[16..24])), t.sp4404(x.l[24..])),
         XorW(XorW(XorW(t.sp1110(x.r[24..]), t.sp0222(x.r[..8])), t.sp3033(x.r[8..16])), t.sp4404(x.r[16..24])))
  }

  /** The last half of P. */
  function Spread(h: Half): Half {
    var ir := XorW(h.r, h.l);
    Half(ir, XorW(Ror8(h.l), ir))
  }

  /** Its inverse, as applied to subkeys. */
  function Unspread(k: Half): Half {
    var dw := Rol8(XorW(k.l, k.r));
    Half(dw, XorW(k.l, dw))
  }

  lemma SpreadXor(a: Half, b: Half)
    ensures Spread(Xor(a, b)) == Xor(Spread(a), Spread(b))
  {
    hide XorW, Ror8;
    XorWMix(a.r, b.r, a.l, b.l);
    RotateXorW(a.l, b.l);
    XorWMix(Ror8(a.l), Ror8(b.l), XorW(a.r, a.l), XorW(b.r, b.l));
  }

  lemma SpreadUnspread(k: Half)
    ensures Spread(Unspread(k)) == k
  {
  }

  /** The F-function, through the tables. */
  function F(t: Tables, x: Half, k: Half): Half {
    Spread(Lookup(t, Xor(x, k)))
  }

  /** CAMELLIA_ROUNDSM: what half `y` becomes in a round with input `x` and rewritten subkey `k`. */
  function RoundSm(t: Tables, x: Half, k: Half, y: Half): Half {
    var h := Lookup(t, x);
    var il := XorW(h.l, k.l);
    var ir := XorW(h.r, XorW(il, k.r));
    Half(XorW(y.l, ir), XorW(y.r, XorW(Ror8(il), ir)))
  }

  lemma RoundSmSpread(t: Tables, x: Half, k: Half, y: Half)
    ensures RoundSm(t, x, k, y) == Xor(y, Spread(Xor(Lookup(t, x), k)))
  {
    hide Lookup;
  }

  // ----- FL and its inverse

  function FL(x: Half, k: Half): Half {
    var r := XorW(x.r, Rol1(AndW(x.l, k.l)));
    Half(XorW(x.l, OrW(r, k.r)), r)
  }

  function FLInv(y: Half, k: Half): Half {
    var l := XorW(y.l, OrW(y.r, k.r));
    Half(l, XorW(y.r, Rol1(AndW(l, k.l))))
  }

  /** How a difference passes through FLInv; also how it passes backwards through FL. */
  function Diff(e: Half, k: Half): Half {
    var l := XorW(e.l, AndW(e.r, NotW(k.r)));
    Half(l, XorW(e.r, Rol1(AndW(l, k.l))))
  }

  /** FL and its inverse bit by bit, from section 2.4.2 of RFC 3713; a rotation by one to the
      left brings the next bit to place `i`. */
  lemma FLBits(x: Half, k: Half, i: nat)
    requires i < 32
    ensures var j := if i == 31 then 0 else i + 1; var y, z := FL(x, k), FLInv(x, k);
            && (y.r[i] <==> x.r[i] != (x.l[j] && k.l[j]))
            && (y.l[i] <==> x.l[i] != (y.r[i] || k.r[i]))
            && (z.l[i] <==> x.l[i] != (x.r[i] || k.r[i]))
            && (z.r[i] <==> x.r[i] != (z.l[j] && k.l[j]))
  {
  }

  lemma FLInverse(x: Half, k: Half)
    ensures FLInv(FL(x, k), k) == x && FL(FLInv(x, k), k) == x
  {
  }

  lemma FLInvDiff(x: Half, e: Half, k: Half)
    ensures FLInv(Xor(x, e), k) == Xor(FLInv(x, k), Diff(e, k))
  {
    hide XorW, AndW, OrW, NotW, Rol1;
    var b, c := FLInv(x, k), Diff(e, k);
    OrXorW(x.r, e.r, k.r);
    XorWMix(x.l, e.l, OrW(x.r, k.r), AndW(e.r, NotW(k.r)));
    AndXorW(b.l, c.l, k.l);
    RotateXorW(AndW(b.l, k.l), AndW(c.l, k.l));
    XorWMix(x.r, e.r, Rol1(AndW(b.l, k.l)), Rol1(AndW(c.l, k.l)));
  }

  lemma FLDiff(x: Half, e: Half, k: Half)
    ensures FL(Xor(x, Diff(e, k)), k) == Xor(FL(x, k), e)
  {
    var a, b := FL(Xor(x, Diff(e, k)), k), FL(x, k);
    assert a.r == XorW(b.r, e.r);
    assert a.l == XorW(b.l, e.l);
  }

  lemma DiffXor(a: Half, b: Half, k: Half)
    ensures Diff(Xor(a, b), k) == Xor(Diff(a, k), Diff(b, k))
  {
    hide XorW, AndW, NotW, Rol1;
    var x, y := Diff(a, k), Diff(b, k);
    AndXorW(a.r, b.r, NotW(k.r));
    XorWMix(a.l, b.l, AndW(a.r, NotW(k.r)), AndW(b.r, NotW(k.r)));
    AndXorW(x.l, y.l, k.l);
    RotateXorW(AndW(x.l, k.l), AndW(y.l, k.l));
    XorWMix(a.r, b.r, Rol1(AndW(x.l, k.l)), Rol1(AndW(y.l, k.l)));
  }

  // ----- the structure of RFC 3713, section 2.3

  /** The two 64-bit halves D1 and D2. */
  datatype Block = Block(d1: Half, d2: Half)

  /** The key material of a key length: `max` is 24 for 18 rounds and 32 for 24 rounds, and
      `s` holds kw1, kw2, then per six rounds the round keys preceded (but for the first six)
      by two FL keys, and at last kw3 and kw4. */
  predicate KeyShape(s: seq<Half>, max: nat) {
    (max == 24 || max == 32) && |s| == max + 2
  }

  function RefSix(t: Tables, s: seq<Half>, i: nat, d: Block): Block
    requires i + 7 < |s|
  {
    var b := Xor(d.d2, F(t, d.d1, s[i + 2]));
    var a := Xor(d.d1, F(t, b, s[i + 3]));
    var b' := Xor(b, F(t, a, s[i + 4]));
    var a' := Xor(a, F(t, b', s[i + 5]));
    var b'' := Xor(b', F(t, a', s[i + 6]));
    var a'' := Xor(a', F(t, b'', s[i + 7]));
    Block(a'', b'')
  }

  /** Six rounds, and before all but the first six the FL layer. */
  function RefGroups(t: Tables, s: seq<Half>, g: nat, d: Block): Block
    requires 8 * g + 7 < |s|
  {
    if g == 0 then RefSix(t, s, 0, d)
    else
      var e := RefGroups(t, s, g - 1, d);
      RefSix(t, s, 8 * g, Block(FL(e.d1, s[8 * g]), FLInv(e.d2, s[8 * g + 1])))
  }

  /** Encryption as the RFC states it; the result is C as its left and right half. */
  function RefEncrypt(t: Tables, s: seq<Half>, max: nat, m: Block): Block
    requires KeyShape(s, max)
  {
    var d := RefGroups(t, s, max / 8 - 1, Block(Xor(m.d1, s[0]), Xor(m.d2, s[1])));
    Block(Xor(d.d2, s[max]), Xor(d.d1, s[max + 1]))
  }

  // ----- the kernel's loops, over rewritten subkeys

  function ImplSix(t: Tables, k: seq<Half>, i: nat, x: Block): Block
    requires i + 7 < |k|
  {
    var b := RoundSm(t, x.d1, k[i + 2], x.d2);
    var a := RoundSm(t, b, k[i + 3], x.d1);
    var b' := RoundSm(t, a, k[i + 4], b);
    var a' := RoundSm(t, b', k[i + 5], a);
    var b'' := RoundSm(t, a', k[i + 6], b');
    var a'' := RoundSm(t, b'', k[i + 7], a');
    Block(a'', b'')
  }

  /** CAMELLIA_FLS. */
  function Fls(x: Block, kl: Half, kr: Half): Block {
    Block(FL(x.d1, kl), FLInv(x.d2, kr))
  }

  function ImplGroups(t: Tables, k: seq<Half>, g: nat, x: Block): Block
    requires 8 * g + 7 < |k|
  {
    if g == 0 then ImplSix(t, k, 0, x)
    else ImplSix(t, k, 8 * g, Fls(ImplGroups(t, k, g - 1, x), k[8 * g], k[8 * g + 1]))
  }

  /** `camellia_do_encrypt`, with its halves not yet swapped. */
  function ImplEncrypt(t: Tables, k: seq<Half>, max: nat, m: Block): Block
    requires (max == 24 || max == 32) && max < |k|
  {
    var x := ImplGroups(t, k, max / 8 - 1, Block(Xor(m.d1, k[0]), m.d2));
    Block(x.d1, Xor(x.d2, k[max]))
  }

  function Swap(x: Block): Block { Block(x.d2, x.d1) }

  // ----- the rewritten subkeys in closed form

  /** Difference of the kernel's second half from D2 when six rounds start. */
  function Beta(s: seq<Half>, g: nat): Half
    requires 8 * g + 7 < |s|
  {
    if g == 0 then s[1] else Diff(s[8 * g - 1], s[8 * g + 1])
  }

  /** Difference of the kernel's first half from D1 when six rounds end. */
  function Gamma(s: seq<Half>, max: nat, g: nat): Half
    requires KeyShape(s, max) && 8 * g + 8 <= max
  {
    if 8 * g + 8 == max then s[max + 1] else Diff(s[8 * g + 10], s[8 * g + 8])
  }

  /** What `camellia_setup_tail` amounts to in terms of the original subkeys: every absorbed
      whitening key cancels out except at the two ends. */
  function Plain(s: seq<Half>, max: nat, i: nat): Half
    requires KeyShape(s, max) && i <= max && i != 1
  {
    if i == 0 then Xor(s[0], s[2])
    else if i == max then Xor(s[max], s[max - 1])
    else if i % 8 < 2 then s[i]
    else if i % 8 == 2 then Xor(Beta(s, i / 8), s[i + 1])
    else if i % 8 == 7 then Xor(s[i - 1], Gamma(s, max, i / 8))
    else Xor(s[i - 1], s[i + 1])
  }

  /** The subkey table: round keys have the last half of P taken out. */
  ghost predicate IsSubkeyTable(k: seq<Half>, s: seq<Half>, max: nat) {
    && KeyShape(s, max) && max < |k|
    && forall i {:trigger k[i]} :: 0 <= i <= max && i != 1 ==>
         k[i] == if i % 8 >= 2 then Unspread(Plain(s, max, i)) else Plain(s, max, i)
  }

  // ----- simulation

  /** One round keeps the difference scheme: the input half carries its round key, the other
      half trades difference `b` for `c`. */
  lemma SimRound(t: Tables, d: Half, s: Half, y: Half, b: Half, c: Half)
    ensures RoundSm(t, Xor(d, s), Unspread(Xor(b, c)), Xor(y, b)) == Xor(Xor(y, F(t, d, s)), c)
  {
    hide RoundSm, Lookup, Spread, Unspread, Xor;
    var x, k := Xor(d, s), Unspread(Xor(b, c));
    RoundSmSpread(t, x, k, Xor(y, b));
    SpreadXor(Lookup(t, x), k);
    SpreadUnspread(Xor(b, c));
    Telescope(y, b, F(t, d, s), c);
  }

  lemma Telescope(y: Half, b: Half, f: Half, c: Half)
    ensures Xor(Xor(y, b), Xor(f, Xor(b, c))) == Xor(Xor(y, f), c)
  {
  }

  lemma SimSix(t: Tables, s: seq<Half>, max: nat, k: seq<Half>, g: nat, d: Block, x: Block)
    requires IsSubkeyTable(k, s, max) && 8 * g + 8 <= max
    requires x == Block(Xor(d.d1, s[8 * g + 2]), Xor(d.d2, Beta(s, g)))
    ensures var e, y := RefSix(t, s, 8 * g, d), ImplSix(t, k, 8 * g, x);
            y == Block(Xor(e.d1, Gamma(s, max, g)), Xor(e.d2, s[8 * g + 7]))
  {
    hide RoundSm, F, Unspread, Xor, Beta, Gamma;
    var i := 8 * g;
    SubkeysOfSix(s, max, k, g);
    var b := Xor(d.d2, F(t, d.d1, s[i + 2]));
    SimRound(t, d.d1, s[i + 2], d.d2, Beta(s, g), s[i + 3]);
    var a := Xor(d.d1, F(t, b, s[i + 3]));
    SimRound(t, b, s[i + 3], d.d1, s[i + 2], s[i + 4]);
    var b' := Xor(b, F(t, a, s[i + 4]));
    SimRound(t, a, s[i + 4], b, s[i + 3], s[i + 5]);
    var a' := Xor(a, F(t, b', s[i + 5]));
    SimRound(t, b', s[i + 5], a, s[i + 4], s[i + 6]);
    var b'' := Xor(b', F(t, a', s[i + 6]));
    SimRound(t, a', s[i + 6], b', s[i + 5], s[i + 7]);
    SimRound(t, b'', s[i + 7], a', s[i + 6], Gamma(s, max, g));
  }

  lemma SubkeysOfSix(s: seq<Half>, max: nat, k: seq<Half>, g: nat)
    requires IsSubkeyTable(k, s, max) && 8 * g + 8 <= max
    ensures var i := 8 * g;
            && k[i + 2] == Unspread(Xor(Beta(s, g), s[i + 3]))
            && k[i + 3] == Unspread(Xor(s[i + 2], s[i + 4]))
            && k[i + 4] == Unspread(Xor(s[i + 3], s[i + 5]))
            && k[i + 5] == Unspread(Xor(s[i + 4], s[i + 6]))
            && k[i + 6] == Unspread(Xor(s[i + 5], s[i + 7]))
            && k[i + 7] == Unspread(Xor(s[i + 6], Gamma(s, max, g)))
  {
    hide Unspread, Xor, Beta, Gamma;
    var i := 8 * g;
    assert (i + 2) / 8 == g && (i + 7) / 8 == g;
    assert (i + 2) % 8 == 2 && (i + 3) % 8 == 3 && (i + 4) % 8 == 4;
    assert (i + 5) % 8 == 5 && (i + 6) % 8 == 6 && (i + 7) % 8 == 7;
  }

  /** After each six rounds the kernel's halves differ from the RFC's by known subkeys. */
  lemma {:induction false} SimGroups(t: Tables, s: seq<Half>, max: nat, k: seq<Half>, g: nat, d: Block, x: Block)
    requires IsSubkeyTable(k, s, max) && 8 * g + 8 <= max
    requires x == Block(Xor(d.d1, s[2]), Xor(d.d2, s[1]))
    ensures var e, y := RefGroups(t, s, g, d), ImplGroups(t, k, g, x);
            y == Block(Xor(e.d1, Gamma(s, max, g)), Xor(e.d2, s[8 * g + 7]))
    decreases g
  {
    hide RefSix, ImplSix, Diff, FL, FLInv, Xor, Unspread;
    if g == 0 {
      SimSix(t, s, max, k, 0, d, x);
    } else {
      SimGroups(t, s, max, k, g - 1, d, x);
      var e, y := RefGroups(t, s, g - 1, d), ImplGroups(t, k, g - 1, x);
      var i := 8 * g;
      assert i % 8 == 0 && (i + 1) % 8 == 1;
      assert k[i] == s[i] && k[i + 1] == s[i + 1];
      FLDiff(e.d1, s[i + 2], s[i]);
      FLInvDiff(e.d2, s[i - 1], s[i + 1]);
      SimSix(t, s, max, k, g, Block(FL(e.d1, s[i]), FLInv(e.d2, s[i + 1])), Fls(y, k[i], k[i + 1]));
    }
  }

  /** With the rewritten subkeys, the kernel's encryption is the RFC's. */
  lemma EncryptIsReference(t: Tables, s: seq<Half>, max: nat, k: seq<Half>, m: Block)
    requires IsSubkeyTable(k, s, max)
    ensures Swap(ImplEncrypt(t, k, max, m)) == RefEncrypt(t, s, max, m)
  {
    hide RefGroups, ImplGroups, Xor, Unspread, Diff;
    var g := max / 8 - 1;
    var d := Block(Xor(m.d1, s[0]), Xor(m.d2, s[1]));
    var x := Block(Xor(m.d1, k[0]), m.d2);
    assert k[0] == Xor(s[0], s[2]) && k[max] == Xor(s[max], s[max - 1]);
    XorLaws(m.d1, s[0], s[2]);
    XorLaws(m.d2, s[1], s[1]);
    SimGroups(t, s, max, k, g, d, x);
    var e := RefGroups(t, s, g, d);
    Whiten(e.d2, s[max - 1], s[max]);
  }

  lemma Whiten(d: Half, a: Half, b: Half)
    ensures Xor(Xor(d, a), Xor(b, a)) == Xor(d, b)
  {
  }
}
