/** Blowfish, CAST-128 and CAST-256 (blowfish.c, cast5.c, cast6.c): for every key and every
    S-box, decryption undoes encryption.  All three rest on undoing one Feistel step.
 */
module Feistel {

  type Word = bv32

  function Xor(a: Word, b: Word): Word { a ^ b }

  lemma XorTwice(a: Word, b: Word)
    ensures Xor(Xor(a, b), b) == a
  {
  }

  /** The bytes of a word, the most significant one first. */
  function Byte0(x: Word): Word { (x >> 24) & 0xff }
  function Byte1(x: Word): Word { (x >> 16) & 0xff }
  function Byte2(x: Word): Word { (x >> 8) & 0xff }
  function Byte3(x: Word): Word { x & 0xff }

  // ----- Blowfish

  /** The subkeys, and the four S-boxes as functions of a byte. */
  datatype BfKey = BfKey(p: seq<Word>, s0: Word -> Word, s1: Word -> Word, s2: Word -> Word, s3: Word -> Word) {
    predicate Ok() { |p| == 18 }
    function F(x: Word): Word {
      BfMix(s0(Byte0(x)), s1(Byte1(x)), s2(Byte2(x)), s3(Byte3(x)))
    }
  }

  function BfMix(a: Word, b: Word, c: Word, d: Word): Word { ((a + b) ^ c) + d }

  /** A word from its bytes, the most significant one first. */
  function FromBytes(a: Word, b: Word, c: Word, d: Word): Word {
    (a << 24) | (b << 16) | (c << 8) | d
  }

  /** Four words that are bytes. */
  predicate Bytes(a: Word, b: Word, c: Word, d: Word) {
    a <= 0xff && b <= 0xff && c <= 0xff && d <= 0xff
  }

  lemma BytesOf(a: Word, b: Word, c: Word, d: Word)
    requires Bytes(a, b, c, d)
    ensures var x := FromBytes(a, b, c, d); Byte0(x) == a && Byte1(x) == b && Byte2(x) == c && Byte3(x) == d
  {
  }

  /** The round function of Blowfish looks the four bytes of its input up, the most significant
      one in the first S-box. */
  lemma BfFIsSpec(k: BfKey, a: Word, b: Word, c: Word, d: Word)
    requires Bytes(a, b, c, d)
    ensures k.F(FromBytes(a, b, c, d)) == BfMix(k.s0(a), k.s1(b), k.s2(c), k.s3(d))
  {
    hide FromBytes, BfMix, Bytes, Byte0, Byte1, Byte2, Byte3;
    BytesOf(a, b, c, d);
  }

  /** Two S-boxes are added, the third goes in by exclusive or, the fourth is added. */
  lemma BfMixIs(a: Word, b: Word, c: Word, d: Word)
    ensures BfMix(a, b, c, d) == ((a + b) ^ c) + d
  {
  }

  /** One round and the exchange of the halves that the source makes by renaming them. */
  function BfRound(k: BfKey, n: nat, x: (Word, Word)): (Word, Word)
    requires n < |k.p|
  {
    (Xor(x.1, k.F(Xor(x.0, k.p[n]))), Xor(x.0, k.p[n]))
  }

  /** Rounds 0 to n - 1, with the subkeys upwards from 0 or downwards from 17. */
  function BfRounds(k: BfKey, n: nat, x: (Word, Word), down: bool): (Word, Word)
    requires k.Ok() && n <= 16
  {
    if n == 0 then x else BfRound(k, if down then 18 - n else n - 1, BfRounds(k, n - 1, x, down))
  }

  function BfEncrypt(k: BfKey, x: (Word, Word)): (Word, Word)
    requires k.Ok()
  {
    var y := BfRounds(k, 16, x, false);
    (Xor(y.1, k.p[17]), Xor(y.0, k.p[16]))
  }

  function BfDecrypt(k: BfKey, x: (Word, Word)): (Word, Word)
    requires k.Ok()
  {
    var y := BfRounds(k, 16, x, true);
    (Xor(y.1, k.p[0]), Xor(y.0, k.p[1]))
  }

  /** Downward rounds retrace the upward ones, with the halves exchanged. */
  lemma {:induction false} BfRetrace(k: BfKey, n: nat, x: (Word, Word))
    requires k.Ok() && n <= 16
    ensures var y := BfRounds(k, 16 - n, x, false);
            BfRounds(k, n, BfEncrypt(k, x), true) == (Xor(y.1, k.p[17 - n]), Xor(y.0, k.p[16 - n]))
    decreases n
  {
    hide Xor;
    if n > 0 {
      BfRetrace(k, n - 1, x);
      var y := BfRounds(k, 16 - n, x, false);
      var z := BfRounds(k, 17 - n, x, false);
      assert z == BfRound(k, 16 - n, y);
      XorTwice(z.1, k.p[18 - n]);
      XorShuffle(y.1, k.F(z.1), k.p[17 - n]);
    }
  }

  lemma XorShuffle(a: Word, b: Word, c: Word)
    ensures Xor(Xor(Xor(a, b), c), b) == Xor(a, c)
  {
    hide Xor;
    XorLaws(Xor(a, b), c, b);
    XorLaws(c, b, b);
    XorLaws(Xor(a, b), b, c);
    XorTwice(a, b);
  }

  lemma XorLaws(a: Word, b: Word, c: Word)
    ensures Xor(a, b) == Xor(b, a)
    ensures Xor(Xor(a, b), c) == Xor(a, Xor(b, c))
  {
  }

  lemma BfDecryptUndoes(k: BfKey, x: (Word, Word))
    requires k.Ok()
    ensures BfDecrypt(k, BfEncrypt(k, x)) == x
  {
    hide Xor;
    BfRetrace(k, 16, x);
    XorTwice(x.0, k.p[0]);
    XorTwice(x.1, k.p[1]);
  }

  /** `encrypt_block`. */
  method BfEncryptBlock(k: BfKey, dst: array<Word>, src: array<Word>)
    requires k.Ok() && src.Length == 2 && dst.Length == 2
    modifies dst
    ensures (dst[0], dst[1]) == BfEncrypt(k, old((src[0], src[1])))
  {
    hide Xor;
    var yl, yr := src[0], src[1];
    ghost var x := (yl, yr);
    for n := 0 to 8
      invariant (yl, yr) == BfRounds(k, 2 * n, x, false)
    {
      yl := Xor(yl, k.p[2*n]);
      yr := Xor(yr, k.F(yl));
      assert (yr, yl) == BfRounds(k, 2 * n + 1, x, false);
      yr := Xor(yr, k.p[2*n+1]);
      yl := Xor(yl, k.F(yr));
      assert (yl, yr) == BfRounds(k, 2 * n + 2, x, false);
    }
    yl := Xor(yl, k.p[16]);
    yr := Xor(yr, k.p[17]);
    dst[0] := yr;
    dst[1] := yl;
  }

  /** `bf_decrypt`. */
  method BfDecryptBlock(k: BfKey, dst: array<Word>, src: array<Word>)
    requires k.Ok() && src.Length == 2 && dst.Length == 2
    modifies dst
    ensures (dst[0], dst[1]) == BfDecrypt(k, old((src[0], src[1])))
  {
    hide Xor;
    var yl, yr := src[0], src[1];
    ghost var x := (yl, yr);
    for n := 0 to 8
      invariant (yl, yr) == BfRounds(k, 2 * n, x, true)
    {
      yl := Xor(yl, k.p[17-2*n]);
      yr := Xor(yr, k.F(yl));
      assert (yr, yl) == BfRounds(k, 2 * n + 1, x, true);
      yr := Xor(yr, k.p[16-2*n]);
      yl := Xor(yl, k.F(yr));
      assert (yl, yr) == BfRounds(k, 2 * n + 2, x, true);
    }
    yl := Xor(yl, k.p[1]);
    yr := Xor(yr, k.p[0]);
    dst[0] := yr;
    dst[1] := yl;
  }

  // ----- CAST-128

  /** Masking and rotation subkeys, whether the key is short (12 rounds), and the S-boxes. */
  datatype CastKey = CastKey(km: seq<Word>, kr: seq<nat>, short: bool,
                             s1: Word -> Word, s2: Word -> Word, s3: Word -> Word, s4: Word -> Word)
  {
    predicate Ok() { |km| == 16 && |kr| == 16 && forall i :: 0 <= i < 16 ==> kr[i] < 32 }
    function Rounds(): nat { if short then 12 else 16 }

    /** F1, F2 and F3 by type 0, 1 and 2. */
    function F(kind: nat, d: Word, m: Word, r: nat): Word
      requires r < 32
    {
      var i := CastRotated(kind, d, m, r);
      CastMix(kind, s1(Byte0(i)), s2(Byte1(i)), s3(Byte2(i)), s4(Byte3(i)))
    }
  }

  function CastRotated(kind: nat, d: Word, m: Word, r: nat): Word
    requires r < 32
  {
    if kind == 0 then (m + d).RotateLeft(r)
    else if kind == 1 then (m ^ d).RotateLeft(r)
    else (m - d).RotateLeft(r)
  }

  function CastMix(kind: nat, a: Word, b: Word, c: Word, d: Word): Word {
    if kind == 0 then ((a ^ b) - c) + d
    else if kind == 1 then ((a - b) + c) ^ d
    else ((a + b) ^ c) - d
  }

  /** The round functions of section 2.2 of RFC 2144 look the four bytes of the rotated word up,
      the most significant one first. */
  lemma CastFIsRfc(k: CastKey, kind: nat, d: Word, m: Word, r: nat, a: Word, b: Word, c: Word, e: Word)
    requires r < 32 && Bytes(a, b, c, e) && FromBytes(a, b, c, e) == CastRotated(kind, d, m, r)
    ensures k.F(kind, d, m, r) == CastMix(kind, k.s1(a), k.s2(b), k.s3(c), k.s4(e))
  {
    hide FromBytes, CastMix, CastRotated, Bytes, Byte0, Byte1, Byte2, Byte3;
    BytesOf(a, b, c, e);
  }

  /** How each of the three mixes what it has looked up, and what each looks up. */
  lemma CastMixIs(kind: nat, a: Word, b: Word, c: Word, d: Word)
    requires kind < 3
    ensures kind == 0 ==> CastMix(kind, a, b, c, d) == ((a ^ b) - c) + d
    ensures kind == 1 ==> CastMix(kind, a, b, c, d) == ((a - b) + c) ^ d
    ensures kind == 2 ==> CastMix(kind, a, b, c, d) == ((a + b) ^ c) - d
  {
  }

  lemma CastRotatedIs(kind: nat, d: Word, m: Word, r: nat)
    requires kind < 3 && r < 32
    ensures kind == 0 ==> CastRotated(kind, d, m, r) == (m + d).RotateLeft(r)
    ensures kind == 1 ==> CastRotated(kind, d, m, r) == (m ^ d).RotateLeft(r)
    ensures kind == 2 ==> CastRotated(kind, d, m, r) == (m - d).RotateLeft(r)
  {
  }

  function CastRound(k: CastKey, i: nat, x: (Word, Word)): (Word, Word)
    requires k.Ok() && i < 16
  {
    (x.1, Xor(x.0, k.F(i % 3, x.1, k.km[i], k.kr[i])))
  }

  /** The first n rounds, up from round 0 or down from the last. */
  function CastRounds(k: CastKey, n: nat, x: (Word, Word), down: bool): (Word, Word)
    requires k.Ok() && n <= k.Rounds()
  {
    if n == 0 then x
    else CastRound(k, if down then k.Rounds() - n else n - 1, CastRounds(k, n - 1, x, down))
  }

  function Swap(x: (Word, Word)): (Word, Word) { (x.1, x.0) }

  function CastEncrypt(k: CastKey, x: (Word, Word)): (Word, Word)
    requires k.Ok()
  {
    Swap(CastRounds(k, k.Rounds(), x, false))
  }

  function CastDecrypt(k: CastKey, x: (Word, Word)): (Word, Word)
    requires k.Ok()
  {
    Swap(CastRounds(k, k.Rounds(), x, true))
  }

  lemma {:induction false} CastRetrace(k: CastKey, n: nat, x: (Word, Word))
    requires k.Ok() && n <= k.Rounds()
    ensures CastRounds(k, n, CastEncrypt(k, x), true) == Swap(CastRounds(k, k.Rounds() - n, x, false))
    decreases n
  {
    hide Xor, CastKey.F;
    if n > 0 {
      CastRetrace(k, n - 1, x);
      var i := k.Rounds() - n;
      var y := CastRounds(k, i, x, false);
      assert CastRounds(k, i + 1, x, false) == CastRound(k, i, y);
      XorTwice(y.0, k.F(i % 3, y.1, k.km[i], k.kr[i]));
    }
  }

  lemma CastDecryptUndoes(k: CastKey, x: (Word, Word))
    requires k.Ok()
    ensures CastDecrypt(k, CastEncrypt(k, x)) == x
  {
    CastRetrace(k, k.Rounds(), x);
  }

  /** `cast5_encrypt`. */
  method Cast5Encrypt(k: CastKey, dst: array<Word>, src: array<Word>)
    requires k.Ok() && src.Length == 2 && dst.Length == 2
    modifies dst
    ensures (dst[0], dst[1]) == CastEncrypt(k, old((src[0], src[1])))
    ensures k.Rounds() == if k.short then 12 else 16
  {
    hide Xor, CastKey.F;
    var l, r := src[0], src[1];
    ghost var x := (l, r);
    for i := 0 to k.Rounds()
      invariant (l, r) == CastRounds(k, i, x, false)
    {
      var t := l;
      l := r;
      r := Xor(t, k.F(i % 3, r, k.km[i], k.kr[i]));
    }
    dst[0] := r;
    dst[1] := l;
  }

  lemma NoRounds(k: CastKey, x: (Word, Word))
    requires k.Ok()
    ensures CastRounds(k, 0, x, true) == x
  {
  }

  lemma RoundDown(k: CastKey, i: nat, x: (Word, Word))
    requires k.Ok() && i < k.Rounds()
    ensures CastRounds(k, k.Rounds() - i, x, true) == CastRound(k, i, CastRounds(k, k.Rounds() - i - 1, x, true))
  {
    hide CastRound;
  }

  /** `cast5_decrypt`. */
  method Cast5Decrypt(k: CastKey, dst: array<Word>, src: array<Word>)
    requires k.Ok() && src.Length == 2 && dst.Length == 2
    modifies dst
    ensures (dst[0], dst[1]) == CastDecrypt(k, old((src[0], src[1])))
  {
    hide Xor, CastKey.F, CastRounds;
    var l, r := src[0], src[1];
    ghost var x := (l, r);
    NoRounds(k, x);
    for i := k.Rounds() downto 0
      invariant (l, r) == CastRounds(k, k.Rounds() - i, x, true)
    {
      RoundDown(k, i, x);
      var t := l;
      l := r;
      r := Xor(t, k.F(i % 3, r, k.km[i], k.kr[i]));
    }
    dst[0] := r;
    dst[1] := l;
  }

  // ----- CAST-256

  /** Subkeys by quad round, and the same S-boxes and functions as CAST-128. */
  datatype Cast6Key = Cast6Key(km: seq<seq<Word>>, kr: seq<seq<nat>>, f: CastKey) {
    predicate Ok() {
      && |km| == 12 && |kr| == 12
      && forall i :: 0 <= i < 12 ==> |km[i]| == 4 && |kr[i]| == 4 && forall j :: 0 <= j < 4 ==> kr[i][j] < 32
    }
    function F(kind: nat, d: Word, i: nat, j: nat): Word
      requires Ok() && i < 12 && j < 4
    {
      f.F(kind, d, km[i][j], kr[i][j])
    }
  }

  datatype Quad = Quad(a: Word, b: Word, c: Word, d: Word)

  /** `Q`: the forward quad round, each word in terms of those just changed. */
  function Forward(k: Cast6Key, i: nat, x: Quad): Quad
    requires k.Ok() && i < 12
  {
    var c := Xor(x.c, k.F(0, x.d, i, 0));
    var b := Xor(x.b, k.F(1, c, i, 1));
    var a := Xor(x.a, k.F(2, b, i, 2));
    Quad(a, b, c, Xor(x.d, k.F(0, a, i, 3)))
  }

  /** `QBAR`: the reverse quad round. */
  function Backward(k: Cast6Key, i: nat, x: Quad): Quad
    requires k.Ok() && i < 12
  {
    var d := Xor(x.d, k.F(0, x.a, i, 3));
    var a := Xor(x.a, k.F(2, x.b, i, 2));
    var b := Xor(x.b, k.F(1, x.c, i, 1));
    Quad(a, b, Xor(x.c, k.F(0, d, i, 0)), d)
  }

  /** The two kinds of quad round undo each other. */
  lemma QuadsUndo(k: Cast6Key, i: nat, x: Quad)
    requires k.Ok() && i < 12
    ensures Backward(k, i, Forward(k, i, x)) == x
    ensures Forward(k, i, Backward(k, i, x)) == x
  {
    hide Xor;
    var y, z := Forward(k, i, x), Backward(k, i, x);
    XorTwice(x.d, k.F(0, y.a, i, 3));
    XorTwice(x.a, k.F(2, y.b, i, 2));
    XorTwice(x.b, k.F(1, y.c, i, 1));
    XorTwice(x.c, k.F(0, x.d, i, 0));
    XorTwice(x.c, k.F(0, z.d, i, 0));
    XorTwice(x.b, k.F(1, x.c, i, 1));
    XorTwice(x.a, k.F(2, x.b, i, 2));
    XorTwice(x.d, k.F(0, x.a, i, 3));
  }

  /** The first n quad rounds of encryption: six forward, then six backward. */
  function QuadsUp(k: Cast6Key, n: nat, x: Quad): Quad
    requires k.Ok() && n <= 12
  {
    if n == 0 then x
    else if n <= 6 then Forward(k, n - 1, QuadsUp(k, n - 1, x))
    else Backward(k, n - 1, QuadsUp(k, n - 1, x))
  }

  /** The first n quad rounds of decryption, with the subkeys from the last down. */
  function QuadsDown(k: Cast6Key, n: nat, x: Quad): Quad
    requires k.Ok() && n <= 12
  {
    if n == 0 then x
    else if n <= 6 then Forward(k, 12 - n, QuadsDown(k, n - 1, x))
    else Backward(k, 12 - n, QuadsDown(k, n - 1, x))
  }

  lemma {:induction false} QuadsRetrace(k: Cast6Key, n: nat, x: Quad)
    requires k.Ok() && n <= 12
    ensures QuadsDown(k, n, QuadsUp(k, 12, x)) == QuadsUp(k, 12 - n, x)
    decreases n
  {
    hide Forward, Backward;
    if n > 0 {
      QuadsRetrace(k, n - 1, x);
      QuadsUndo(k, 12 - n, QuadsUp(k, 12 - n, x));
    }
  }

  lemma Cast6DecryptUndoes(k: Cast6Key, x: Quad)
    requires k.Ok()
    ensures QuadsDown(k, 12, QuadsUp(k, 12, x)) == x
  {
    QuadsRetrace(k, 12, x);
  }

  function At(block: array<Word>): Quad
    requires block.Length == 4
    reads block
  {
    Quad(block[0], block[1], block[2], block[3])
  }

  /** `Q`, in place. */
  method Q(block: array<Word>, k: Cast6Key, i: nat)
    requires k.Ok() && i < 12 && block.Length == 4
    modifies block
    ensures At(block) == Forward(k, i, old(At(block)))
  {
    hide Xor, Cast6Key.F;
    block[2] := Xor(block[2], k.F(0, block[3], i, 0));
    block[1] := Xor(block[1], k.F(1, block[2], i, 1));
    block[0] := Xor(block[0], k.F(2, block[1], i, 2));
    block[3] := Xor(block[3], k.F(0, block[0], i, 3));
  }

  /** `QBAR`, in place. */
  method QBar(block: array<Word>, k: Cast6Key, i: nat)
    requires k.Ok() && i < 12 && block.Length == 4
    modifies block
    ensures At(block) == Backward(k, i, old(At(block)))
  {
    hide Xor, Cast6Key.F;
    block[3] := Xor(block[3], k.F(0, block[0], i, 3));
    block[0] := Xor(block[0], k.F(2, block[1], i, 2));
    block[1] := Xor(block[1], k.F(1, block[2], i, 1));
    block[2] := Xor(block[2], k.F(0, block[3], i, 0));
  }

  /** `cast6_encrypt`, on the block it copies the input to. */
  method Cast6Encrypt(k: Cast6Key, block: array<Word>)
    requires k.Ok() && block.Length == 4
    modifies block
    ensures At(block) == QuadsUp(k, 12, old(At(block)))
  {
    hide Forward, Backward;
    for n := 0 to 12
      invariant At(block) == QuadsUp(k, n, old(At(block)))
    {
      if n < 6 { Q(block, k, n); } else { QBar(block, k, n); }
    }
  }

  /** `cast6_decrypt`. */
  method Cast6Decrypt(k: Cast6Key, block: array<Word>)
    requires k.Ok() && block.Length == 4
    modifies block
    ensures At(block) == QuadsDown(k, 12, old(At(block)))
  {
    hide Forward, Backward;
    for n := 0 to 12
      invariant At(block) == QuadsDown(k, n, old(At(block)))
    {
      if n < 6 { Q(block, k, 11 - n); } else { QBar(block, k, 11 - n); }
    }
  }
}
