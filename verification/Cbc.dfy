/** Cipher block chaining (cbc.c) over any block cipher: the four loops, in place and between
    buffers, against section 6.2 of NIST SP 800-38A.
 */
module Cbc {

  type Block = seq<bv8>

  function Xor(a: Block, b: Block): (r: Block)
    requires |a| == |b|
    ensures |r| == |a|
  {
    seq(|a|, i requires 0 <= i < |a| => a[i] ^ b[i])
  }

  lemma XorTwice(a: Block, b: Block)
    requires |a| == |b|
    ensures Xor(Xor(a, b), b) == a
  {
    forall i | 0 <= i < |a| ensures Xor(Xor(a, b), b)[i] == a[i] { XorByte(a[i], b[i]); }
  }

  lemma XorByte(x: bv8, y: bv8)
    ensures (x ^ y) ^ y == x
  {
  }

  lemma XorSwap(a: Block, b: Block)
    requires |a| == |b|
    ensures Xor(a, b) == Xor(b, a)
  {
    forall i | 0 <= i < |a| ensures Xor(a, b)[i] == Xor(b, a)[i] { XorSwapByte(a[i], b[i]); }
  }

  lemma XorSwapByte(x: bv8, y: bv8)
    ensures x ^ y == y ^ x
  {
  }

  ghost predicate Sized(bs: nat, q: seq<Block>) {
    forall i :: 0 <= i < |q| ==> |q[i]| == bs
  }

  /** A cipher on blocks of `bs` bytes and its inverse. */
  ghost predicate Keeps(bs: nat, fn: Block -> Block) {
    forall x: Block :: |x| == bs ==> |fn(x)| == bs
  }

  ghost predicate Inverts(bs: nat, enc: Block -> Block, dec: Block -> Block) {
    forall x: Block :: |x| == bs ==> dec(enc(x)) == x
  }

  // ----- section 6.2 of NIST SP 800-38A

  /** The block chained into block `j`. */
  function Chained(iv: Block, c: seq<Block>, j: nat): Block
    requires j <= |c|
  {
    if j == 0 then iv else c[j-1]
  }

  ghost predicate EncStep(enc: Block -> Block, iv: Block, p: seq<Block>, c: seq<Block>, j: nat)
    requires j < |p| && j < |c|
  {
    |p[j]| == |Chained(iv, c, j)| && c[j] == enc(Xor(p[j], Chained(iv, c, j)))
  }

  ghost predicate DecStep(dec: Block -> Block, iv: Block, c: seq<Block>, p: seq<Block>, j: nat)
    requires j < |p| && j < |c|
  {
    |dec(c[j])| == |Chained(iv, c, j)| && p[j] == Xor(dec(c[j]), Chained(iv, c, j))
  }

  ghost predicate IsEncryption(bs: nat, enc: Block -> Block, iv: Block, p: seq<Block>, c: seq<Block>) {
    && |iv| == bs && Sized(bs, p) && Sized(bs, c) && |c| == |p|
    && forall j :: 0 <= j < |p| ==> EncStep(enc, iv, p, c, j)
  }

  ghost predicate IsDecryption(bs: nat, dec: Block -> Block, iv: Block, c: seq<Block>, p: seq<Block>) {
    && |iv| == bs && Sized(bs, p) && Sized(bs, c) && |c| == |p|
    && forall j :: 0 <= j < |p| ==> DecStep(dec, iv, c, p, j)
  }

  /** Decryption undoes encryption, for every cipher with an inverse. */
  lemma DecryptUndoes(bs: nat, enc: Block -> Block, dec: Block -> Block, iv: Block, p: seq<Block>, c: seq<Block>, p': seq<Block>)
    requires Keeps(bs, enc) && Inverts(bs, enc, dec)
    requires IsEncryption(bs, enc, iv, p, c) && IsDecryption(bs, dec, iv, c, p')
    ensures p' == p
  {
    hide Xor, Keeps;
    forall j | 0 <= j < |p| ensures p'[j] == p[j] {
      var x := Chained(iv, c, j);
      assert EncStep(enc, iv, p, c, j) && DecStep(dec, iv, c, p', j);
      XorTwice(p[j], x);
      assert |Xor(p[j], x)| == bs;
    }
  }

  lemma {:induction false} SameAt(bs: nat, enc: Block -> Block, iv: Block, p: seq<Block>, c: seq<Block>, c': seq<Block>, j: nat)
    requires IsEncryption(bs, enc, iv, p, c) && IsEncryption(bs, enc, iv, p, c') && j < |p|
    ensures c[j] == c'[j]
    decreases j
  {
    hide Xor, Sized;
    if j > 0 {
      SameAt(bs, enc, iv, p, c, c', j - 1);
    }
    assert EncStep(enc, iv, p, c, j) && EncStep(enc, iv, p, c', j);
  }

  lemma EncryptionUnique(bs: nat, enc: Block -> Block, iv: Block, p: seq<Block>, c: seq<Block>, c': seq<Block>)
    requires IsEncryption(bs, enc, iv, p, c) && IsEncryption(bs, enc, iv, p, c')
    ensures c == c'
  {
    hide Xor, EncStep, Sized;
    forall j | 0 <= j < |p| ensures c[j] == c'[j] { SameAt(bs, enc, iv, p, c, c', j); }
  }

  function Last(iv: Block, c: seq<Block>): Block { Chained(iv, c, |c|) }

  /** A block is chained to the same one in the whole and in its part. */
  lemma StepSplits(enc: Block -> Block, iv: Block, p1: seq<Block>, p2: seq<Block>, c1: seq<Block>, c2: seq<Block>, j: nat)
    requires |c1| == |p1| && |c2| == |p2| && j < |p1| + |p2|
    ensures EncStep(enc, iv, p1 + p2, c1 + c2, j)
         == if j < |p1| then EncStep(enc, iv, p1, c1, j) else EncStep(enc, Last(iv, c1), p2, c2, j - |p1|)
  {
    hide Xor;
    assert Chained(iv, c1 + c2, j)
        == if j < |p1| then Chained(iv, c1, j) else Chained(Last(iv, c1), c2, j - |p1|);
  }

  lemma SizedSplits(bs: nat, a: seq<Block>, b: seq<Block>)
    ensures Sized(bs, a + b) <==> Sized(bs, a) && Sized(bs, b)
  {
    if Sized(bs, a + b) {
      forall i | 0 <= i < |a| ensures |a[i]| == bs { assert (a + b)[i] == a[i]; }
      forall i | 0 <= i < |b| ensures |b[i]| == bs { assert (a + b)[|a| + i] == b[i]; }
    }
  }

  /** Any block-aligned split, the vector carried over, gives the unsplit result. */
  lemma EncryptionSplits(bs: nat, enc: Block -> Block, iv: Block, p1: seq<Block>, p2: seq<Block>, c1: seq<Block>, c2: seq<Block>)
    requires |c1| == |p1| && |c2| == |p2|
    ensures IsEncryption(bs, enc, iv, p1 + p2, c1 + c2)
      <==> IsEncryption(bs, enc, iv, p1, c1) && IsEncryption(bs, enc, Last(iv, c1), p2, c2)
  {
    hide EncStep, Sized;
    SizedSplits(bs, p1, p2);
    SizedSplits(bs, c1, c2);
    var p, c := p1 + p2, c1 + c2;
    LastSized(bs, iv, c1);
    if IsEncryption(bs, enc, iv, p, c) {
      forall j | 0 <= j < |p1| ensures EncStep(enc, iv, p1, c1, j) { StepSplits(enc, iv, p1, p2, c1, c2, j); }
      forall j | 0 <= j < |p2| ensures EncStep(enc, Last(iv, c1), p2, c2, j) { StepSplits(enc, iv, p1, p2, c1, c2, |p1| + j); }
    }
    if IsEncryption(bs, enc, iv, p1, c1) && IsEncryption(bs, enc, Last(iv, c1), p2, c2) {
      forall j | 0 <= j < |p| ensures EncStep(enc, iv, p, c, j) { StepSplits(enc, iv, p1, p2, c1, c2, j); }
    }
  }

  lemma LastSized(bs: nat, iv: Block, c: seq<Block>)
    ensures |iv| == bs && Sized(bs, c) ==> |Last(iv, c)| == bs
  {
  }

  lemma DecStepSplits(dec: Block -> Block, iv: Block, c1: seq<Block>, c2: seq<Block>, p1: seq<Block>, p2: seq<Block>, j: nat)
    requires |c1| == |p1| && |c2| == |p2| && j < |p1| + |p2|
    ensures DecStep(dec, iv, c1 + c2, p1 + p2, j)
         == if j < |p1| then DecStep(dec, iv, c1, p1, j) else DecStep(dec, Last(iv, c1), c2, p2, j - |p1|)
  {
    hide Xor;
    assert Chained(iv, c1 + c2, j)
        == if j < |p1| then Chained(iv, c1, j) else Chained(Last(iv, c1), c2, j - |p1|);
  }

  lemma DecryptionSplits(bs: nat, dec: Block -> Block, iv: Block, c1: seq<Block>, c2: seq<Block>, p1: seq<Block>, p2: seq<Block>)
    requires |c1| == |p1| && |c2| == |p2|
    ensures IsDecryption(bs, dec, iv, c1 + c2, p1 + p2)
      <==> IsDecryption(bs, dec, iv, c1, p1) && IsDecryption(bs, dec, Last(iv, c1), c2, p2)
  {
    hide DecStep, Sized;
    SizedSplits(bs, p1, p2);
    SizedSplits(bs, c1, c2);
    var p, c := p1 + p2, c1 + c2;
    LastSized(bs, iv, c1);
    if IsDecryption(bs, dec, iv, c, p) {
      forall j | 0 <= j < |p1| ensures DecStep(dec, iv, c1, p1, j) { DecStepSplits(dec, iv, c1, c2, p1, p2, j); }
      forall j | 0 <= j < |p2| ensures DecStep(dec, Last(iv, c1), c2, p2, j) { DecStepSplits(dec, iv, c1, c2, p1, p2, |p1| + j); }
    }
    if IsDecryption(bs, dec, iv, c1, p1) && IsDecryption(bs, dec, Last(iv, c1), c2, p2) {
      forall j | 0 <= j < |p| ensures DecStep(dec, iv, c, p, j) { DecStepSplits(dec, iv, c1, c2, p1, p2, j); }
    }
  }

  // ----- successive walks

  function Flat(qs: seq<seq<Block>>): seq<Block> {
    if qs == [] then [] else qs[0] + Flat(qs[1..])
  }

  /** Chunk after chunk, each starting from the last ciphertext block before it. */
  ghost predicate ChunksEncrypted(bs: nat, enc: Block -> Block, iv: Block, ps: seq<seq<Block>>, cs: seq<seq<Block>>)
    decreases |ps|
  {
    && |ps| == |cs| && |iv| == bs
    && (ps != [] ==> |cs[0]| == |ps[0]| && IsEncryption(bs, enc, iv, ps[0], cs[0])
                     && ChunksEncrypted(bs, enc, Last(iv, cs[0]), ps[1..], cs[1..]))
  }

  ghost predicate ChunksDecrypted(bs: nat, dec: Block -> Block, iv: Block, cs: seq<seq<Block>>, ps: seq<seq<Block>>)
    decreases |ps|
  {
    && |ps| == |cs| && |iv| == bs
    && (ps != [] ==> |cs[0]| == |ps[0]| && IsDecryption(bs, dec, iv, cs[0], ps[0])
                     && ChunksDecrypted(bs, dec, Last(iv, cs[0]), cs[1..], ps[1..]))
  }

  lemma {:induction false} WalksEncrypt(bs: nat, enc: Block -> Block, iv: Block, ps: seq<seq<Block>>, cs: seq<seq<Block>>)
    requires ChunksEncrypted(bs, enc, iv, ps, cs)
    ensures IsEncryption(bs, enc, iv, Flat(ps), Flat(cs))
    decreases |ps|
  {
    hide EncStep;
    if ps != [] {
      WalksEncrypt(bs, enc, Last(iv, cs[0]), ps[1..], cs[1..]);
      EncryptionSplits(bs, enc, iv, ps[0], Flat(ps[1..]), cs[0], Flat(cs[1..]));
    }
  }

  lemma {:induction false} WalksDecrypt(bs: nat, dec: Block -> Block, iv: Block, cs: seq<seq<Block>>, ps: seq<seq<Block>>)
    requires ChunksDecrypted(bs, dec, iv, cs, ps)
    ensures IsDecryption(bs, dec, iv, Flat(cs), Flat(ps))
    decreases |ps|
  {
    hide DecStep;
    if ps != [] {
      WalksDecrypt(bs, dec, Last(iv, cs[0]), cs[1..], ps[1..]);
      DecryptionSplits(bs, dec, iv, cs[0], Flat(cs[1..]), ps[0], Flat(ps[1..]));
    }
  }

  /** Encrypted in one set of chunks and decrypted in any other: the plaintext again. */
  lemma WalksRoundTrip(bs: nat, enc: Block -> Block, dec: Block -> Block, iv: Block,
                       ps: seq<seq<Block>>, cs: seq<seq<Block>>, ds: seq<seq<Block>>, qs: seq<seq<Block>>)
    requires Keeps(bs, enc) && Inverts(bs, enc, dec)
    requires ChunksEncrypted(bs, enc, iv, ps, cs) && ChunksDecrypted(bs, dec, iv, ds, qs) && Flat(ds) == Flat(cs)
    ensures Flat(qs) == Flat(ps)
  {
    hide ChunksEncrypted, ChunksDecrypted, Flat, IsEncryption, IsDecryption, Keeps, Inverts;
    WalksEncrypt(bs, enc, iv, ps, cs);
    WalksDecrypt(bs, dec, iv, ds, qs);
    DecryptUndoes(bs, enc, dec, iv, Flat(ps), Flat(cs), Flat(qs));
  }

  // ----- the loops

  lemma EncExtend(bs: nat, enc: Block -> Block, iv: Block, p: seq<Block>, c: seq<Block>, x: Block)
    requires IsEncryption(bs, enc, iv, p, c) && Keeps(bs, enc) && |x| == bs
    ensures |Last(iv, c)| == bs && |enc(Xor(x, Last(iv, c)))| == bs
    ensures IsEncryption(bs, enc, iv, p + [x], c + [enc(Xor(x, Last(iv, c)))])
  {
    hide Xor;
    LastSized(bs, iv, c);
    var y := enc(Xor(x, Last(iv, c)));
    assert EncStep(enc, Last(iv, c), [x], [y], 0);
    assert IsEncryption(bs, enc, Last(iv, c), [x], [y]);
    EncryptionSplits(bs, enc, iv, p, [x], c, [y]);
  }

  lemma DecExtend(bs: nat, dec: Block -> Block, iv: Block, c: seq<Block>, p: seq<Block>, x: Block)
    requires IsDecryption(bs, dec, iv, c, p) && Keeps(bs, dec) && |x| == bs
    ensures |Last(iv, c)| == bs && |dec(x)| == bs
    ensures IsDecryption(bs, dec, iv, c + [x], p + [Xor(dec(x), Last(iv, c))])
  {
    hide Xor;
    LastSized(bs, iv, c);
    var y := Xor(dec(x), Last(iv, c));
    assert DecStep(dec, Last(iv, c), [x], [y], 0);
    assert IsDecryption(bs, dec, Last(iv, c), [x], [y]);
    DecryptionSplits(bs, dec, iv, c, [x], p, [y]);
  }

  /** `left` bytes are `k` blocks and a tail. */
  ghost predicate Amounts(left: nat, bs: nat, k: nat, tail: nat) {
    left == k * bs + tail && tail < bs
  }

  lemma BlockLess(left: nat, bs: nat, k: nat, tail: nat)
    requires Amounts(left, bs, k, tail)
    ensures left >= bs <==> k >= 1
    ensures k >= 1 ==> Amounts(left - bs, bs, k - 1, tail)
    ensures k == 0 ==> left == tail
  {
    if k > 0 {
      assert k * bs == (k - 1) * bs + bs;
      assert (k - 1) * bs >= 0;
    }
  }

  lemma AllBytes(nbytes: nat, bs: nat)
    requires bs > 0
    ensures Amounts(nbytes, bs, nbytes / bs, nbytes % bs)
  {
  }

  /** One step of a walk: what `blkcipher_walk` presents and the vector it carries. */
  class Walk {
    const bs: nat
    const src: array<Block>
    const dst: array<Block>
    var nbytes: nat
    var iv: Block

    function Blocks(): nat
      requires bs > 0
      reads `nbytes
    {
      nbytes / bs
    }

    ghost predicate Valid()
      reads this, src, dst
    {
      && bs > 0 && nbytes >= bs && nbytes / bs <= src.Length && nbytes / bs <= dst.Length
      && |iv| == bs && Sized(bs, src[..])
    }

    constructor (bs: nat, src: array<Block>, dst: array<Block>, nbytes: nat, iv: Block)
      ensures this.bs == bs && this.src == src && this.dst == dst && this.nbytes == nbytes && this.iv == iv
    {
      this.bs, this.src, this.dst, this.nbytes, this.iv := bs, src, dst, nbytes, iv;
    }

    /** `crypto_cbc_encrypt_segment`. */
    method EncryptSegment(enc: Block -> Block) returns (left: nat)
      requires Valid() && Keeps(bs, enc) && src != dst
      modifies `iv, dst
      ensures left == nbytes % bs && dst[Blocks()..] == old(dst[Blocks()..])
      ensures IsEncryption(bs, enc, old(iv), src[..Blocks()], dst[..Blocks()])
      ensures iv == Last(old(iv), dst[..Blocks()])
    {
      hide IsEncryption, Keeps, Amounts, Xor;
      ghost var n, tail, iv0 := nbytes / bs, nbytes % bs, iv;
      left := nbytes;
      var i := 0;
      var more := true;
      EncNone(bs, enc, iv0);
      AllBytes(nbytes, bs);
      BlockLess(left, bs, n, tail);
      while more
        invariant 0 <= i <= n && Amounts(left, bs, n - i, tail) && (more <==> i < n) && (!more ==> left == tail)
        invariant |iv| == bs && iv == Last(iv0, dst[..i]) && dst[n..] == old(dst[n..])
        invariant IsEncryption(bs, enc, iv0, src[..i], dst[..i])
        decreases n - i
      {
        EncExtend(bs, enc, iv0, src[..i], dst[..i], src[i]);
        XorSwap(src[i], iv);
        assert src[..i+1] == src[..i] + [src[i]];
        ghost var c := dst[..i];
        iv := Xor(iv, src[i]);
        dst[i] := enc(iv);
        assert dst[..i+1] == c + [dst[i]];
        iv := dst[i];
        BlockLess(left, bs, n - i, tail);
        BlockLess(left - bs, bs, n - i - 1, tail);
        left, i := left - bs, i + 1;
        more := left >= bs;
      }
    }

    /** `crypto_cbc_encrypt_inplace`. */
    method EncryptInplace(enc: Block -> Block) returns (left: nat)
      requires Valid() && Keeps(bs, enc)
      modifies `iv, src
      ensures left == nbytes % bs && src[Blocks()..] == old(src[Blocks()..])
      ensures IsEncryption(bs, enc, old(iv), old(src[..Blocks()]), src[..Blocks()])
      ensures iv == Last(old(iv), src[..Blocks()])
    {
      hide IsEncryption, Keeps, Xor, Amounts;
      ghost var n, tail, iv0, p := nbytes / bs, nbytes % bs, iv, src[..];
      left := nbytes;
      var i, prev := 0, iv;
      var more := true;
      EncNone(bs, enc, iv0);
      AllBytes(nbytes, bs);
      BlockLess(left, bs, n, tail);
      while more
        invariant 0 <= i <= n && Amounts(left, bs, n - i, tail) && (more <==> i < n) && (!more ==> left == tail)
        invariant |prev| == bs && prev == Last(iv0, src[..i]) && src[i..] == p[i..] && iv == iv0
        invariant IsEncryption(bs, enc, iv0, p[..i], src[..i])
        decreases n - i
      {
        EncExtend(bs, enc, iv0, p[..i], src[..i], p[i]);
        assert src[i] == src[i..][0] == p[i];
        assert p[..i+1] == p[..i] + [p[i]];
        ghost var c := src[..i];
        src[i] := Xor(src[i], prev);
        src[i] := enc(src[i]);
        assert src[..i+1] == c + [src[i]];
        assert src[i+1..] == p[i+1..];
        prev := src[i];
        BlockLess(left, bs, n - i, tail);
        BlockLess(left - bs, bs, n - i - 1, tail);
        left, i := left - bs, i + 1;
        more := left >= bs;
      }
      iv := prev;
      assert p[..n] == old(src[..n]);
    }

    /** `crypto_cbc_decrypt_segment`. */
    method DecryptSegment(dec: Block -> Block) returns (left: nat)
      requires Valid() && Keeps(bs, dec) && src != dst
      modifies `iv, dst
      ensures left == nbytes % bs && dst[Blocks()..] == old(dst[Blocks()..])
      ensures IsDecryption(bs, dec, old(iv), src[..Blocks()], dst[..Blocks()])
      ensures iv == Last(old(iv), src[..Blocks()])
    {
      hide IsDecryption, Keeps, Xor, Amounts;
      ghost var n, tail, iv0 := nbytes / bs, nbytes % bs, iv;
      left := nbytes;
      var i, prev := 0, iv;
      var more := true;
      EncNone(bs, dec, iv0);
      AllBytes(nbytes, bs);
      BlockLess(left, bs, n, tail);
      while more
        invariant 0 <= i <= n && Amounts(left, bs, n - i, tail) && (more <==> i < n) && (!more ==> left == tail)
        invariant |prev| == bs && prev == Last(iv0, src[..i]) && dst[n..] == old(dst[n..]) && iv == iv0
        invariant IsDecryption(bs, dec, iv0, src[..i], dst[..i])
        decreases n - i
      {
        DecExtend(bs, dec, iv0, src[..i], dst[..i], src[i]);
        assert src[..i+1] == src[..i] + [src[i]];
        ghost var q := dst[..i];
        dst[i] := dec(src[i]);
        dst[i] := Xor(dst[i], prev);
        assert dst[..i+1] == q + [dst[i]];
        prev := src[i];
        BlockLess(left, bs, n - i, tail);
        BlockLess(left - bs, bs, n - i - 1, tail);
        left, i := left - bs, i + 1;
        more := left >= bs;
      }
      iv := prev;
    }

    /** `crypto_cbc_decrypt_inplace`: backwards, so that each block finds the ciphertext before
        it still there. */
    method DecryptInplace(dec: Block -> Block) returns (left: nat)
      requires Valid() && Keeps(bs, dec) && PowerOfTwo(bs)
      modifies `iv, src
      ensures left == nbytes % bs && src[Blocks()..] == old(src[Blocks()..])
      ensures IsDecryption(bs, dec, old(iv), old(src[..Blocks()]), src[..Blocks()])
      ensures iv == Last(old(iv), old(src[..Blocks()]))
    {
      hide IsDecryption, Xor, Keeps, And, PowerOfTwo, Amounts;
      ghost var n, c, iv0 := nbytes / bs, src[..], iv;
      MaskHere(nbytes, bs);
      WholeBlocks(nbytes, bs);
      var start := nbytes - And(nbytes, bs - 1) - bs;
      var lastIv := src[start / bs];
      AllBytes(nbytes, bs);
      left := Backwards(dec, start / bs, nbytes % bs);
      src[0] := Xor(src[0], iv);
      iv := lastIv;
      assert forall j :: 0 <= j < n ==> Chained(iv0, c[..n], j) == if j == 0 then iv0 else c[j-1];
      DecAll(bs, dec, iv0, c[..n], src[..n]);
    }

    /** Its loop, from the last whole block down: all blocks but the first are finished. */
    method Backwards(dec: Block -> Block, last: nat, ghost tail: nat) returns (left: nat)
      requires Keeps(bs, dec) && Amounts(nbytes, bs, last + 1, tail) && last < src.Length
      requires forall j :: 0 <= j <= last ==> |src[j]| == bs
      modifies src
      ensures left == tail && src[last + 1..] == old(src[last + 1..])
      ensures forall j :: 0 <= j <= last ==> |dec(old(src[j]))| == bs
      ensures src[0] == dec(old(src[0])) && forall j :: 0 < j <= last ==> src[j] == Xor(dec(old(src[j])), old(src[j-1]))
    {
      hide Xor, Amounts;
      ghost var c := src[..];
      left := nbytes;
      var i := last;
      while true
        invariant 0 <= i <= last && Amounts(left, bs, i + 1, tail)
        invariant src[last + 1..] == c[last + 1..] && src[..i+1] == c[..i+1]
        invariant forall j :: i < j <= last ==> |dec(c[j])| == bs && src[j] == Xor(dec(c[j]), c[j-1])
        decreases i
      {
        assert src[..i+1][i] == c[i];
        BlockLess(left, bs, i + 1, tail);
        BlockLess(left - bs, bs, i, tail);
        assert |c[i]| == bs;
        src[i] := dec(src[i]);
        left := left - bs;
        if left < bs {
          break;
        }
        assert src[i-1] == c[..i+1][i-1];
        src[i] := Xor(src[i], src[i-1]);
        i := i - 1;
      }
    }
  }

  // ----- the mask

  /** Bitwise and. */
  function And(a: nat, b: nat): nat {
    if a == 0 || b == 0 then 0 else 2 * And(a / 2, b / 2) + (if a % 2 == 1 && b % 2 == 1 then 1 else 0)
  }

  function Pow2(k: nat): (p: nat)
    ensures p >= 1
  {
    if k == 0 then 1 else 2 * Pow2(k - 1)
  }

  /** `is_power_of_2`. */
  ghost predicate PowerOfTwo(n: nat) {
    exists k: nat :: n == Pow2(k)
  }

  /** Masking with a power of two less one leaves the remainder. */
  lemma {:induction false} MaskOf(n: nat, k: nat) returns (q: nat)
    ensures Amounts(n, Pow2(k), q, And(n, Pow2(k) - 1))
    decreases k
  {
    hide Amounts;
    if k == 0 {
      OneByOne(n);
      q := n;
    } else {
      var p, h, bit := Pow2(k - 1), n / 2, n % 2;
      assert n == 2 * h + bit;
      q := MaskOf(h, k - 1);
      var r := And(h, p - 1);
      Doubled(h, p, q, r, bit);
      assert (2 * p - 1) / 2 == p - 1 && (2 * p - 1) % 2 == 1;
      assert And(n, 2 * p - 1) == 2 * r + bit;
    }
  }

  lemma OneByOne(n: nat)
    ensures Amounts(n, 1, n, 0)
  {
  }

  lemma Doubled(h: nat, p: nat, q: nat, r: nat, bit: nat)
    requires Amounts(h, p, q, r) && bit < 2
    ensures Amounts(2 * h + bit, 2 * p, q, 2 * r + bit)
  {
    assert q * (2 * p) == 2 * (q * p);
  }

  /** Quotient and remainder are unique. */
  lemma {:induction false} SameAmounts(n: nat, d: nat, q: nat, r: nat, q': nat, r': nat)
    requires Amounts(n, d, q, r) && Amounts(n, d, q', r')
    ensures q == q' && r == r'
    decreases q
  {
    hide Amounts;
    BlockLess(n, d, q, r);
    BlockLess(n, d, q', r');
    if q > 0 {
      SameAmounts(n - d, d, q - 1, r, q' - 1, r');
    }
  }

  lemma {:induction false} AndSelf(n: nat)
    ensures And(n, n) == n
  {
    if n > 0 { AndSelf(n / 2); }
  }

  lemma {:induction false} MaskedZero(n: nat)
    requires n >= 1 && And(n, n - 1) == 0
    ensures PowerOfTwo(n)
  {
    if n == 1 {
      assert n == Pow2(0);
    } else {
      var m := n / 2;
      if n % 2 == 1 {
        AndSelf(m);
      } else {
        assert (n - 1) / 2 == m - 1;
        MaskedZero(m);
        var k: nat :| m == Pow2(k);
        assert n == Pow2(k + 1);
      }
    }
  }

  lemma MaskRemainder(n: nat, k: nat)
    ensures And(n, Pow2(k) - 1) == n % Pow2(k)
  {
    hide Amounts, And, Pow2;
    var bs := Pow2(k);
    var q := MaskOf(n, k);
    AllBytes(n, bs);
    SameAmounts(n, bs, q, And(n, bs - 1), n / bs, n % bs);
  }

  /** Is masking with `bs - 1` the remainder by `bs`? */
  ghost predicate MaskDivides(bs: nat)
    requires bs >= 1
  {
    forall n: nat :: And(n, bs - 1) == n % bs
  }

  /** What the power-of-two test is for: only then is the mask the remainder. */
  lemma MaskIsRemainder(bs: nat)
    requires bs >= 1
    ensures MaskDivides(bs) <==> PowerOfTwo(bs)
  {
    hide And, Pow2;
    if PowerOfTwo(bs) {
      var k: nat :| bs == Pow2(k);
      forall n: nat ensures And(n, bs - 1) == n % bs { MaskRemainder(n, k); }
    } else if MaskDivides(bs) {
      OwnRemainder(bs);
      MaskedZero(bs);
    }
  }

  lemma MaskHere(n: nat, bs: nat)
    requires bs >= 1 && PowerOfTwo(bs)
    ensures And(n, bs - 1) == n % bs
  {
    hide And;
    MaskIsRemainder(bs);
  }

  lemma OwnRemainder(bs: nat)
    requires bs >= 1 && MaskDivides(bs)
    ensures And(bs, bs - 1) == 0
  {
    hide And;
    assert And(bs, bs - 1) == bs % bs;
  }

  lemma WithoutTail(n: nat, bs: nat, q: nat, r: nat)
    requires Amounts(n, bs, q, r)
    ensures n >= r && Amounts(n - r, bs, q, 0)
  {
  }

  /** The start of the last whole block. */
  lemma WholeBlocks(n: nat, bs: nat)
    requires bs >= 1 && n >= bs
    ensures n - n % bs >= bs && (n - n % bs - bs) / bs == n / bs - 1
  {
    hide Amounts;
    var q, r := n / bs, n % bs;
    AllBytes(n, bs);
    BlockLess(n, bs, q, r);
    BlockLess(n - bs, bs, q - 1, r);
    WithoutTail(n, bs, q, r);
    BlockLess(n - r, bs, q, 0);
    AllBytes(n - r - bs, bs);
    SameAmounts(n - r - bs, bs, q - 1, 0, (n - r - bs) / bs, (n - r - bs) % bs);
  }

  /** Every block decrypted and chained, from the back or from the front. */
  lemma DecAll(bs: nat, dec: Block -> Block, iv: Block, c: seq<Block>, p: seq<Block>)
    requires |iv| == bs && Sized(bs, c) && Keeps(bs, dec) && |c| == |p|
    requires forall j :: 0 <= j < |c| ==> |dec(c[j])| == bs && p[j] == Xor(dec(c[j]), Chained(iv, c, j))
    ensures IsDecryption(bs, dec, iv, c, p)
  {
    hide Xor, Keeps;
    forall j | 0 <= j < |p| ensures DecStep(dec, iv, c, p, j) && |p[j]| == bs {
    }
  }

  lemma EncNone(bs: nat, fn: Block -> Block, iv: Block)
    requires |iv| == bs
    ensures IsEncryption(bs, fn, iv, [], []) && IsDecryption(bs, fn, iv, [], [])
  {
  }
}
