/** The key schedule (`camellia_setup128`, `camellia_setup256`) against section 2.2 of
    RFC 3713, and the table form of the F-function against its section 2.4.1.
 */
module CamelliaKeys {
  import opened Camellia
  import opened CamelliaSetup

  // ----- the F-function byte by byte

  function XorB(a: Byte, b: Byte): Byte { seq(8, i requires 0 <= i < 8 => a[i] != b[i]) }

  const ZERO_BYTE: Byte := seq(8, _ => false)

  function Cat(a: Byte, b: Byte, c: Byte, d: Byte): Word { a + b + c + d }

  /** SBOX1 to SBOX4. */
  datatype Sboxes = Sboxes(s1: Byte -> Byte, s2: Byte -> Byte, s3: Byte -> Byte, s4: Byte -> Byte)

  /** The tables the kernel precomputes from the S-boxes: sp1110 holds SBOX1 in its three most
      significant bytes, and so on. */
  ghost predicate TablesOf(t: Tables, s: Sboxes) {
    && (forall x: Byte :: t.sp1110(x) == Cat(s.s1(x), s.s1(x), s.s1(x), ZERO_BYTE))
    && (forall x: Byte :: t.sp0222(x) == Cat(ZERO_BYTE, s.s2(x), s.s2(x), s.s2(x)))
    && (forall x: Byte :: t.sp3033(x) == Cat(s.s3(x), ZERO_BYTE, s.s3(x), s.s3(x)))
    && (forall x: Byte :: t.sp4404(x) == Cat(s.s4(x), s.s4(x), ZERO_BYTE, s.s4(x)))
  }

  function Xor5(a: Byte, b: Byte, c: Byte, d: Byte, e: Byte): Byte {
    XorB(XorB(XorB(XorB(a, b), c), d), e)
  }

  function Xor6(a: Byte, b: Byte, c: Byte, d: Byte, e: Byte, f: Byte): Byte {
    XorB(Xor5(a, b, c, d, e), f)
  }

  /** F as the RFC writes it: eight S-box results t1 to t8, eight sums y1 to y8. */
  function RfcF(s: Sboxes, f: Half, k: Half): Half {
    var x := Xor(f, k);
    var t1, t2, t3, t4 := s.s1(x.l[..8]), s.s2(x.l[8..16]), s.s3(x.l[16..24]), s.s4(x.l[24..]);
    var t5, t6, t7, t8 := s.s2(x.r[..8]), s.s3(x.r[8..16]), s.s4(x.r[16..24]), s.s1(x.r[24..]);
    Half(Cat(Xor6(t1, t3, t4, t6, t7, t8), Xor6(t1, t2, t4, t5, t7, t8),
             Xor6(t1, t2, t3, t5, t6, t8), Xor6(t2, t3, t4, t5, t6, t7)),
         Cat(Xor5(t1, t2, t6, t7, t8), Xor5(t2, t3, t5, t7, t8),
             Xor5(t3, t4, t5, t6, t8), Xor5(t1, t4, t5, t6, t7)))
  }

  lemma XorCat(a: Byte, b: Byte, c: Byte, d: Byte, e: Byte, f: Byte, g: Byte, h: Byte)
    ensures XorW(Cat(a, b, c, d), Cat(e, f, g, h)) == Cat(XorB(a, e), XorB(b, f), XorB(c, g), XorB(d, h))
  {
  }

  lemma RorCat(a: Byte, b: Byte, c: Byte, d: Byte)
    ensures Ror8(Cat(a, b, c, d)) == Cat(d, a, b, c)
  {
  }

  function Xor3(a: Byte, b: Byte, c: Byte): Byte { XorB(XorB(a, b), c) }

  lemma XorZero(a: Byte)
    ensures XorB(a, ZERO_BYTE) == a && XorB(ZERO_BYTE, a) == a
  {
  }

  /** Four table words added up: each byte is the sum of three S-box values. */
  lemma TableSum(a: Byte, b: Byte, c: Byte, d: Byte)
    ensures XorW(XorW(XorW(Cat(a, a, a, ZERO_BYTE), Cat(ZERO_BYTE, b, b, b)), Cat(c, ZERO_BYTE, c, c)),
                 Cat(d, d, ZERO_BYTE, d))
         == Cat(Xor3(a, c, d), Xor3(a, b, d), Xor3(a, b, c), Xor3(b, c, d))
  {
    hide XorW, Cat, XorB;
    var z := ZERO_BYTE;
    XorZero(a);
    XorZero(b);
    XorZero(XorB(a, b));
    XorCat(a, a, a, z, z, b, b, b);
    XorCat(a, XorB(a, b), XorB(a, b), b, c, z, c, c);
    XorZero(Xor3(a, b, c));
    XorCat(XorB(a, c), XorB(a, b), Xor3(a, b, c), XorB(b, c), d, d, z, d);
  }

  /** The sums of the second half of P, byte by byte. */
  lemma ByteSums(t1: Byte, t2: Byte, t3: Byte, t4: Byte, t5: Byte, t6: Byte, t7: Byte, t8: Byte)
    ensures XorB(Xor3(t8, t6, t7), Xor3(t1, t3, t4)) == Xor6(t1, t3, t4, t6, t7, t8)
    ensures XorB(Xor3(t8, t5, t7), Xor3(t1, t2, t4)) == Xor6(t1, t2, t4, t5, t7, t8)
    ensures XorB(Xor3(t8, t5, t6), Xor3(t1, t2, t3)) == Xor6(t1, t2, t3, t5, t6, t8)
    ensures XorB(Xor3(t5, t6, t7), Xor3(t2, t3, t4)) == Xor6(t2, t3, t4, t5, t6, t7)
  {
  }

  lemma ByteSums2(t1: Byte, t2: Byte, t3: Byte, t4: Byte, t5: Byte, t6: Byte, t7: Byte, t8: Byte)
    ensures XorB(Xor3(t2, t3, t4), Xor6(t1, t3, t4, t6, t7, t8)) == Xor5(t1, t2, t6, t7, t8)
    ensures XorB(Xor3(t1, t3, t4), Xor6(t1, t2, t4, t5, t7, t8)) == Xor5(t2, t3, t5, t7, t8)
    ensures XorB(Xor3(t1, t2, t4), Xor6(t1, t2, t3, t5, t6, t8)) == Xor5(t3, t4, t5, t6, t8)
    ensures XorB(Xor3(t1, t2, t3), Xor6(t2, t3, t4, t5, t6, t7)) == Xor5(t1, t4, t5, t6, t7)
  {
  }

  /** Through tables built from the S-boxes, the kernel's F is the RFC's. */
  lemma FIsRfc(t: Tables, s: Sboxes, f: Half, k: Half)
    requires TablesOf(t, s)
    ensures F(t, f, k) == RfcF(s, f, k)
  {
    hide XorW, Cat, XorB, Xor3, Xor5, Xor6, Ror8, Xor;
    var x := Xor(f, k);
    var t1, t2, t3, t4 := s.s1(x.l[..8]), s.s2(x.l[8..16]), s.s3(x.l[16..24]), s.s4(x.l[24..]);
    var t5, t6, t7, t8 := s.s2(x.r[..8]), s.s3(x.r[8..16]), s.s4(x.r[16..24]), s.s1(x.r[24..]);
    TableSum(t1, t2, t3, t4);
    TableSum(t8, t5, t6, t7);
    var a, b, c, d := Xor3(t1, t3, t4), Xor3(t1, t2, t4), Xor3(t1, t2, t3), Xor3(t2, t3, t4);
    XorCat(Xor3(t8, t6, t7), Xor3(t8, t5, t7), Xor3(t8, t5, t6), Xor3(t5, t6, t7), a, b, c, d);
    ByteSums(t1, t2, t3, t4, t5, t6, t7, t8);
    RorCat(a, b, c, d);
    XorCat(d, a, b, c, Xor6(t1, t3, t4, t6, t7, t8), Xor6(t1, t2, t4, t5, t7, t8),
           Xor6(t1, t2, t3, t5, t6, t8), Xor6(t2, t3, t4, t5, t6, t7));
    ByteSums2(t1, t2, t3, t4, t5, t6, t7, t8);
  }

  // ----- the key schedule

  /** A 128-bit quantity, most significant bit first. */
  type Key = k: seq<bool> | |k| == 128 witness seq(128, _ => false)

  function Rot(k: Key, n: nat): Key
    requires n <= 128
  {
    k[n..] + k[..n]
  }

  function LeftHalf(k: Key): Half { Half(k[..32], k[32..64]) }
  function RightHalf(k: Key): Half { Half(k[64..96], k[96..]) }
  function KeyOf(l: Half, r: Half): Key { l.l + l.r + r.l + r.r }

  /** The four words of the variables kll, klr, krl, krr. */
  datatype Quad = Quad(ll: Word, lr: Word, rl: Word, rr: Word) {
    function Bits(): Key { ll + lr + rl + rr }
    function Left(): Half { Half(ll, lr) }
    function Right(): Half { Half(rl, rr) }
  }

  /** ROLDQ. */
  function Roldq(q: Quad, bits: nat): Quad
    requires 0 < bits < 32
  {
    Quad(q.ll[bits..] + q.lr[..bits], q.lr[bits..] + q.rl[..bits],
         q.rl[bits..] + q.rr[..bits], q.rr[bits..] + q.ll[..bits])
  }

  /** ROLDQo32. */
  function RoldqO32(q: Quad, bits: nat): Quad
    requires 32 < bits < 64
  {
    var b := bits - 32;
    Quad(q.lr[b..] + q.rl[..b], q.rl[b..] + q.rr[..b], q.rr[b..] + q.ll[..b], q.ll[b..] + q.lr[..b])
  }

  lemma RoldqRotates(q: Quad, bits: nat)
    requires 0 < bits < 32
    ensures Roldq(q, bits).Bits() == Rot(q.Bits(), bits)
  {
  }

  lemma RoldqO32Rotates(q: Quad, bits: nat)
    requires 32 < bits < 64
    ensures RoldqO32(q, bits).Bits() == Rot(q.Bits(), bits)
  {
  }

  lemma RotRot(k: Key, a: nat, b: nat)
    requires a + b <= 128
    ensures Rot(Rot(k, a), b) == Rot(k, a + b)
  {
  }

  /** The variables hold key `k` rotated by `n`. */
  predicate Holds(q: Quad, k: Key, n: nat) {
    n <= 128 && q.Bits() == Rot(k, n)
  }

  lemma HoldsHalves(q: Quad, k: Key, n: nat)
    requires Holds(q, k, n)
    ensures q.Left() == LeftHalf(Rot(k, n)) && q.Right() == RightHalf(Rot(k, n))
  {
    var x := Rot(k, n);
    assert x[..32] == q.ll && x[32..64] == q.lr && x[64..96] == q.rl && x[96..] == q.rr;
  }

  method RotateBy(q: Quad, bits: nat, ghost k: Key, ghost n: nat) returns (r: Quad)
    requires 0 < bits < 64 && bits != 32 && n + bits <= 128 && Holds(q, k, n)
    ensures Holds(r, k, n + bits)
    ensures r.Left() == LeftHalf(Rot(k, n + bits)) && r.Right() == RightHalf(Rot(k, n + bits))
  {
    hide Roldq, RoldqO32, Rot, LeftHalf, RightHalf;
    RotRot(k, n, bits);
    if bits < 32 {
      r := Roldq(q, bits);
      RoldqRotates(q, bits);
    } else {
      r := RoldqO32(q, bits);
      RoldqO32Rotates(q, bits);
    }
    HoldsHalves(r, k, n + bits);
  }

  /** The constants Sigma1 to Sigma6. */
  type Sigmas = s: seq<Half> | |s| == 6 witness seq(6, _ => Half(seq(32, _ => false), seq(32, _ => false)))

  /** KA, from KL and KR (KR is zero for 128-bit keys). */
  function RfcKA(t: Tables, c: Sigmas, kl: Block, kr: Block): Block {
    var d1, d2 := Xor(kl.d1, kr.d1), Xor(kl.d2, kr.d2);
    var d2' := Xor(d2, F(t, d1, c[0]));
    var d1' := Xor(d1, F(t, d2', c[1]));
    var e1, e2 := Xor(d1', kl.d1), Xor(d2', kl.d2);
    var e2' := Xor(e2, F(t, e1, c[2]));
    var e1' := Xor(e1, F(t, e2', c[3]));
    Block(e1', e2')
  }

  /** KB, from KA and KR. */
  function RfcKB(t: Tables, c: Sigmas, ka: Block, kr: Block): Block {
    var d1, d2 := Xor(ka.d1, kr.d1), Xor(ka.d2, kr.d2);
    var d2' := Xor(d2, F(t, d1, c[4]));
    var d1' := Xor(d1, F(t, d2', c[5]));
    Block(d1', d2')
  }

  const ZERO_HALF := Half(seq(32, _ => false), seq(32, _ => false))

  function KeyOfBlock(b: Block): Key { KeyOf(b.d1, b.d2) }
  function L(k: Key, n: nat): Half requires n <= 128 { LeftHalf(Rot(k, n)) }
  function R(k: Key, n: nat): Half requires n <= 128 { RightHalf(Rot(k, n)) }

  /** The 128-bit schedule, in the order kw1 kw2 k1..k6 ke1 ke2 k7..k12 ke3 ke4 k13..k18 kw3 kw4. */
  function Rfc128(kl: Key, ka: Key): seq<Half> {
    [L(kl, 0), R(kl, 0), L(ka, 0), R(ka, 0), L(kl, 15), R(kl, 15), L(ka, 15), R(ka, 15),
     L(ka, 30), R(ka, 30), L(kl, 45), R(kl, 45), L(ka, 45), R(kl, 60), L(ka, 60), R(ka, 60),
     L(kl, 77), R(kl, 77), L(kl, 94), R(kl, 94), L(ka, 94), R(ka, 94), L(kl, 111), R(kl, 111),
     L(ka, 111), R(ka, 111)]
  }

  /** The schedule for 192 and 256-bit keys. */
  function Rfc256(kl: Key, kr: Key, ka: Key, kb: Key): seq<Half> {
    [L(kl, 0), R(kl, 0), L(kb, 0), R(kb, 0), L(kr, 15), R(kr, 15), L(ka, 15), R(ka, 15),
     L(kr, 30), R(kr, 30), L(kb, 30), R(kb, 30), L(kl, 45), R(kl, 45), L(ka, 45), R(ka, 45),
     L(kl, 60), R(kl, 60), L(kr, 60), R(kr, 60), L(kb, 60), R(kb, 60), L(kl, 77), R(kl, 77),
     L(ka, 77), R(ka, 77), L(kr, 94), R(kr, 94), L(ka, 94), R(ka, 94), L(kl, 111), R(kl, 111),
     L(kb, 111), R(kb, 111)]
  }

  lemma HoldsStart(b: Block)
    ensures var q := Quad(b.d1.l, b.d1.r, b.d2.l, b.d2.r);
            && Holds(q, KeyOfBlock(b), 0)
            && L(KeyOfBlock(b), 0) == b.d1 && R(KeyOfBlock(b), 0) == b.d2
  {
    var q := Quad(b.d1.l, b.d1.r, b.d2.l, b.d2.r);
    assert Holds(q, KeyOfBlock(b), 0);
    HoldsHalves(q, KeyOfBlock(b), 0);
  }

  /** Generating KA for a 128-bit key: the additions of KL are folded into the rounds. */
  method KA128(t: Tables, c: Sigmas, k: Block) returns (ka: Block)
    ensures ka == RfcKA(t, c, k, Block(ZERO_HALF, ZERO_HALF))
  {
    hide F, Xor;
    var w := F(t, k.d1, c[0]);
    var r := Xor(k.d2, w);
    var l := F(t, r, c[1]);
    r := F(t, l, c[2]);
    r := Xor(r, w);
    w := F(t, r, c[3]);
    l := Xor(l, w);
    ka := Block(l, r);
    XorZeroHalf(k.d1);
    XorZeroHalf(k.d2);
    ghost var d2 := Xor(k.d2, F(t, k.d1, c[0]));
    CancelFirst(k.d1, F(t, d2, c[1]));
    CancelFirst(k.d2, F(t, k.d1, c[0]));
    XorLaws(F(t, F(t, d2, c[1]), c[2]), F(t, k.d1, c[0]), k.d1);
  }

  lemma XorZeroHalf(a: Half)
    ensures Xor(a, ZERO_HALF) == a
  {
  }

  lemma CancelFirst(a: Half, b: Half)
    ensures Xor(Xor(a, b), a) == b
  {
  }

  /** Generating KA and KB for longer keys. */
  method KAKB256(t: Tables, c: Sigmas, kl: Block, kr: Block) returns (ka: Block, kb: Block)
    ensures ka == RfcKA(t, c, kl, kr) && kb == RfcKB(t, c, ka, kr)
  {
    hide F, Xor;
    var l, r := Xor(kl.d1, kr.d1), Xor(kl.d2, kr.d2);
    ghost var d1 := l;
    var w := F(t, l, c[0]);
    r := Xor(r, w);
    ghost var d2 := r;
    l := F(t, r, c[1]);
    l := Xor(l, kr.d1);
    FoldOne(kl.d1, kr.d1, F(t, d2, c[1]));
    r := F(t, l, c[2]);
    r := Xor(r, Xor(w, kr.d2));
    FoldTwo(kl.d2, kr.d2, w, F(t, l, c[2]));
    w := F(t, r, c[3]);
    l := Xor(l, w);
    ka := Block(l, r);
    var x, y := Xor(kr.d1, ka.d1), Xor(kr.d2, ka.d2);
    XorLaws(kr.d1, ka.d1, w);
    XorLaws(kr.d2, ka.d2, w);
    w := F(t, x, c[4]);
    y := Xor(y, w);
    w := F(t, y, c[5]);
    x := Xor(x, w);
    kb := Block(x, y);
  }

  lemma FoldOne(a: Half, b: Half, f: Half)
    ensures Xor(f, b) == Xor(Xor(Xor(a, b), f), a)
  {
  }

  lemma FoldTwo(a: Half, b: Half, w: Half, f: Half)
    ensures Xor(f, Xor(w, b)) == Xor(Xor(Xor(Xor(a, b), w), a), f)
  {
  }

  /** `camellia_setup128`: the subkey table of the RFC's 128-bit schedule. */
  method Setup128(t: Tables, c: Sigmas, key: Block, subkey: array<Half>)
    requires subkey.Length > 24
    modifies subkey
    ensures var ka := RfcKA(t, c, key, Block(ZERO_HALF, ZERO_HALF));
            IsSubkeyTable(subkey[..], Rfc128(KeyOfBlock(key), KeyOfBlock(ka)), 24)
  {
    hide RfcKA, IsSubkeyTable, Rfc128, KeyOfBlock;
    var sub := new Half[26](_ => ZERO_HALF);
    Fill128(t, c, key, sub);
    Shape128(sub[..], KeyOfBlock(key), KeyOfBlock(RfcKA(t, c, key, Block(ZERO_HALF, ZERO_HALF))));
    SetupTail(subkey, sub, 24);
  }

  lemma Shape128(s: seq<Half>, k: Key, a: Key)
    requires s == Rfc128(k, a)
    ensures KeyShape(s, 24)
  {
    hide L, R;
  }

  /** The whole table, before `camellia_setup_tail`. */
  method Fill128(t: Tables, c: Sigmas, key: Block, sub: array<Half>)
    requires sub.Length == 26
    modifies sub
    ensures sub[..] == Rfc128(KeyOfBlock(key), KeyOfBlock(RfcKA(t, c, key, Block(ZERO_HALF, ZERO_HALF))))
  {
    hide L, R, KeyOfBlock, RfcKA;
    var ka := KA128(t, c, key);
    Fill128L(sub, key);
    Fill128A(sub, ka);
  }

  /** The subkeys that depend on KL. */
  method Fill128L(sub: array<Half>, key: Block)
    requires sub.Length == 26
    modifies sub
    ensures var k := KeyOfBlock(key);
            && sub[0] == L(k, 0) && sub[1] == R(k, 0) && sub[4] == L(k, 15) && sub[5] == R(k, 15)
            && sub[10] == L(k, 45) && sub[11] == R(k, 45) && sub[13] == R(k, 60)
            && sub[16] == L(k, 77) && sub[17] == R(k, 77) && sub[18] == L(k, 94) && sub[19] == R(k, 94)
            && sub[22] == L(k, 111) && sub[23] == R(k, 111)
  {
    hide Rot, LeftHalf, RightHalf, Holds, KeyOfBlock;
    ghost var k := KeyOfBlock(key);
    HoldsStart(key);
    var q := Quad(key.d1.l, key.d1.r, key.d2.l, key.d2.r);
    sub[0], sub[1] := q.Left(), q.Right();
    q := RotateBy(q, 15, k, 0);
    sub[4], sub[5] := q.Left(), q.Right();
    q := RotateBy(q, 30, k, 15);
    sub[10], sub[11] := q.Left(), q.Right();
    q := RotateBy(q, 15, k, 45);
    sub[13] := q.Right();
    q := RotateBy(q, 17, k, 60);
    sub[16], sub[17] := q.Left(), q.Right();
    q := RotateBy(q, 17, k, 77);
    sub[18], sub[19] := q.Left(), q.Right();
    q := RotateBy(q, 17, k, 94);
    sub[22], sub[23] := q.Left(), q.Right();
  }

  /** The subkeys that depend on KA; the others are left alone. */
  method Fill128A(sub: array<Half>, ka: Block)
    requires sub.Length == 26
    modifies sub
    ensures var k := KeyOfBlock(ka);
            && sub[2] == L(k, 0) && sub[3] == R(k, 0) && sub[6] == L(k, 15) && sub[7] == R(k, 15)
            && sub[8] == L(k, 30) && sub[9] == R(k, 30) && sub[12] == L(k, 45)
            && sub[14] == L(k, 60) && sub[15] == R(k, 60) && sub[20] == L(k, 94) && sub[21] == R(k, 94)
            && sub[24] == L(k, 111) && sub[25] == R(k, 111)
    ensures forall i :: 0 <= i < sub.Length && i !in {2, 3, 6, 7, 8, 9, 12, 14, 15, 20, 21, 24, 25} ==> sub[i] == old(sub[i])
  {
    hide Rot, LeftHalf, RightHalf, Holds, KeyOfBlock;
    ghost var k := KeyOfBlock(ka);
    HoldsStart(ka);
    var q := Quad(ka.d1.l, ka.d1.r, ka.d2.l, ka.d2.r);
    sub[2], sub[3] := q.Left(), q.Right();
    q := RotateBy(q, 15, k, 0);
    sub[6], sub[7] := q.Left(), q.Right();
    q := RotateBy(q, 15, k, 15);
    sub[8], sub[9] := q.Left(), q.Right();
    q := RotateBy(q, 15, k, 30);
    sub[12] := q.Left();
    q := RotateBy(q, 15, k, 45);
    sub[14], sub[15] := q.Left(), q.Right();
    q := RotateBy(q, 34, k, 60);
    sub[20], sub[21] := q.Left(), q.Right();
    q := RotateBy(q, 17, k, 94);
    sub[24], sub[25] := q.Left(), q.Right();
  }

  lemma FullTurn(b: Block)
    ensures L(KeyOfBlock(b), 128) == b.d1 && R(KeyOfBlock(b), 128) == b.d2
  {
    assert Rot(KeyOfBlock(b), 128) == Rot(KeyOfBlock(b), 0);
    HoldsStart(b);
  }

  method Fill256L(sub: array<Half>, key: Block)
    requires sub.Length == 34
    modifies sub
    ensures var k := KeyOfBlock(key);
            && sub[0] == L(k, 0) && sub[1] == R(k, 0) && sub[12] == L(k, 45) && sub[13] == R(k, 45)
            && sub[16] == L(k, 60) && sub[17] == R(k, 60) && sub[22] == L(k, 77) && sub[23] == R(k, 77)
            && sub[30] == L(k, 111) && sub[31] == R(k, 111)
  {
    hide Rot, LeftHalf, RightHalf, Holds, KeyOfBlock;
    ghost var k := KeyOfBlock(key);
    HoldsStart(key);
    var q := Quad(key.d1.l, key.d1.r, key.d2.l, key.d2.r);
    sub[0], sub[1] := q.Left(), q.Right();
    q := RotateBy(q, 45, k, 0);
    sub[12], sub[13] := q.Left(), q.Right();
    q := RotateBy(q, 15, k, 45);
    sub[16], sub[17] := q.Left(), q.Right();
    q := RotateBy(q, 17, k, 60);
    sub[22], sub[23] := q.Left(), q.Right();
    q := RotateBy(q, 34, k, 77);
    sub[30], sub[31] := q.Left(), q.Right();
  }

  /** The subkeys that depend on KR; the variables end where they began, after a full turn. */
  method Fill256R(sub: array<Half>, key: Block) returns (kr: Block)
    requires sub.Length == 34
    modifies sub
    ensures kr == key
    ensures var k := KeyOfBlock(key);
            && sub[4] == L(k, 15) && sub[5] == R(k, 15) && sub[8] == L(k, 30) && sub[9] == R(k, 30)
            && sub[18] == L(k, 60) && sub[19] == R(k, 60) && sub[26] == L(k, 94) && sub[27] == R(k, 94)
    ensures forall i :: 0 <= i < sub.Length && i !in {4, 5, 8, 9, 18, 19, 26, 27} ==> sub[i] == old(sub[i])
  {
    hide Rot, LeftHalf, RightHalf, Holds, KeyOfBlock;
    ghost var k := KeyOfBlock(key);
    HoldsStart(key);
    FullTurn(key);
    var q := Quad(key.d1.l, key.d1.r, key.d2.l, key.d2.r);
    q := RotateBy(q, 15, k, 0);
    sub[4], sub[5] := q.Left(), q.Right();
    q := RotateBy(q, 15, k, 15);
    sub[8], sub[9] := q.Left(), q.Right();
    q := RotateBy(q, 30, k, 30);
    sub[18], sub[19] := q.Left(), q.Right();
    q := RotateBy(q, 34, k, 60);
    sub[26], sub[27] := q.Left(), q.Right();
    q := RotateBy(q, 34, k, 94);
    kr := Block(q.Left(), q.Right());
  }

  lemma TurnWord(q: Quad, k: Key)
    requires Holds(q, k, 45)
    ensures Half(q.lr, q.rl) == L(k, 77) && Half(q.rr, q.ll) == R(k, 77)
  {
    var r := Quad(q.lr, q.rl, q.rr, q.ll);
    RotRot(k, 45, 32);
    assert r.Bits() == Rot(q.Bits(), 32);
    HoldsHalves(r, k, 77);
  }

  /** The subkeys that depend on KA. */
  method Fill256A(sub: array<Half>, ka: Block)
    requires sub.Length == 34
    modifies sub
    ensures var k := KeyOfBlock(ka);
            && sub[6] == L(k, 15) && sub[7] == R(k, 15) && sub[14] == L(k, 45) && sub[15] == R(k, 45)
            && sub[24] == L(k, 77) && sub[25] == R(k, 77) && sub[28] == L(k, 94) && sub[29] == R(k, 94)
    ensures forall i :: 0 <= i < sub.Length && i !in {6, 7, 14, 15, 24, 25, 28, 29} ==> sub[i] == old(sub[i])
  {
    hide Rot, LeftHalf, RightHalf, Holds, KeyOfBlock;
    ghost var k := KeyOfBlock(ka);
    HoldsStart(ka);
    var q := Quad(ka.d1.l, ka.d1.r, ka.d2.l, ka.d2.r);
    q := RotateBy(q, 15, k, 0);
    sub[6], sub[7] := q.Left(), q.Right();
    q := RotateBy(q, 30, k, 15);
    sub[14], sub[15] := q.Left(), q.Right();
    TurnWord(q, k);
    sub[24], sub[25] := Half(q.lr, q.rl), Half(q.rr, q.ll);
    q := RotateBy(q, 49, k, 45);
    sub[28], sub[29] := q.Left(), q.Right();
  }

  /** The subkeys that depend on KB. */
  method Fill256B(sub: array<Half>, kb: Block)
    requires sub.Length == 34
    modifies sub
    ensures var k := KeyOfBlock(kb);
            && sub[2] == L(k, 0) && sub[3] == R(k, 0) && sub[10] == L(k, 30) && sub[11] == R(k, 30)
            && sub[20] == L(k, 60) && sub[21] == R(k, 60) && sub[32] == L(k, 111) && sub[33] == R(k, 111)
    ensures forall i :: 0 <= i < sub.Length && i !in {2, 3, 10, 11, 20, 21, 32, 33} ==> sub[i] == old(sub[i])
  {
    hide Rot, LeftHalf, RightHalf, Holds, KeyOfBlock;
    ghost var k := KeyOfBlock(kb);
    HoldsStart(kb);
    var q := Quad(kb.d1.l, kb.d1.r, kb.d2.l, kb.d2.r);
    sub[2], sub[3] := q.Left(), q.Right();
    q := RotateBy(q, 30, k, 0);
    sub[10], sub[11] := q.Left(), q.Right();
    q := RotateBy(q, 30, k, 30);
    sub[20], sub[21] := q.Left(), q.Right();
    q := RotateBy(q, 51, k, 60);
    sub[32], sub[33] := q.Left(), q.Right();
  }

  /** `camellia_setup256`: the subkey table of the RFC's 256-bit schedule. */
  method Setup256(t: Tables, c: Sigmas, kl: Block, kr: Block, subkey: array<Half>)
    requires subkey.Length > 32
    modifies subkey
    ensures var ka := RfcKA(t, c, kl, kr); var kb := RfcKB(t, c, ka, kr);
            IsSubkeyTable(subkey[..], Rfc256(KeyOfBlock(kl), KeyOfBlock(kr), KeyOfBlock(ka), KeyOfBlock(kb)), 32)
  {
    hide Rfc256, KeyOfBlock, RfcKA, RfcKB, IsSubkeyTable, KeyShape;
    var sub := new Half[34](_ => ZERO_HALF);
    Fill256(t, c, kl, kr, sub);
    Shape256(sub[..]);
    SetupTail(subkey, sub, 32);
  }

  lemma Shape256(s: seq<Half>)
    requires |s| == 34
    ensures KeyShape(s, 32)
  {
  }

  /** All subkeys of the 256-bit schedule. */
  method Fill256(t: Tables, c: Sigmas, kl: Block, kr: Block, sub: array<Half>)
    requires sub.Length == 34
    modifies sub
    ensures var ka := RfcKA(t, c, kl, kr); var kb := RfcKB(t, c, ka, kr);
            sub[..] == Rfc256(KeyOfBlock(kl), KeyOfBlock(kr), KeyOfBlock(ka), KeyOfBlock(kb))
  {
    hide L, R, KeyOfBlock, RfcKA, RfcKB, Rfc256;
    Fill256L(sub, kl);
    var kr' := Fill256R(sub, kr);
    var ka, kb := KAKB256(t, c, kl, kr');
    Fill256A(sub, ka);
    Fill256B(sub, kb);
    Assemble256(sub[..], KeyOfBlock(kl), KeyOfBlock(kr), KeyOfBlock(ka), KeyOfBlock(kb));
  }

  lemma Assemble256(s: seq<Half>, kl: Key, kr: Key, ka: Key, kb: Key)
    requires |s| == 34
    requires s[0] == L(kl, 0) && s[1] == R(kl, 0) && s[12] == L(kl, 45) && s[13] == R(kl, 45)
    requires s[16] == L(kl, 60) && s[17] == R(kl, 60) && s[22] == L(kl, 77) && s[23] == R(kl, 77)
    requires s[30] == L(kl, 111) && s[31] == R(kl, 111)
    requires s[4] == L(kr, 15) && s[5] == R(kr, 15) && s[8] == L(kr, 30) && s[9] == R(kr, 30)
    requires s[18] == L(kr, 60) && s[19] == R(kr, 60) && s[26] == L(kr, 94) && s[27] == R(kr, 94)
    requires s[6] == L(ka, 15) && s[7] == R(ka, 15) && s[14] == L(ka, 45) && s[15] == R(ka, 45)
    requires s[24] == L(ka, 77) && s[25] == R(ka, 77) && s[28] == L(ka, 94) && s[29] == R(ka, 94)
    requires s[2] == L(kb, 0) && s[3] == R(kb, 0) && s[10] == L(kb, 30) && s[11] == R(kb, 30)
    requires s[20] == L(kb, 60) && s[21] == R(kb, 60) && s[32] == L(kb, 111) && s[33] == R(kb, 111)
    ensures s == Rfc256(kl, kr, ka, kb)
  {
    hide L, R;
  }
}
