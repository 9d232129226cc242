/** Cipher block chaining, section 6.2 of NIST SP 800-38A: the four loops of the mode over buffers seen
    as blocks, in place and out of place, forwards and backwards, and the word-wise xor of bytes. */
module Cbc {

  type Byte = bv8
  type Block = seq<Byte>

  /** A block cipher with its key; size is the block size, a power of two in the kernel. */
  datatype Cipher = Cipher(size: nat, enc: Block -> Block, dec: Block -> Block)

  /** Blocks go to blocks. */
  ghost predicate Sound(c: Cipher) {
    && c.size > 0
    && (forall x {:trigger c.enc(x)} :: |x| == c.size ==> |c.enc(x)| == c.size)
    && (forall x {:trigger c.dec(x)} :: |x| == c.size ==> |c.dec(x)| == c.size)
  }

  ghost predicate Inverse(c: Cipher) {
    forall x {:trigger c.enc(x)} :: |x| == c.size ==> c.dec(c.enc(x)) == x
  }

  predicate IsBlock(c: Cipher, x: Block) { |x| == c.size }

  predicate AreBlocks(c: Cipher, m: seq<Block>) { forall i :: 0 <= i < |m| ==> IsBlock(c, m[i]) }

  function XorByte(a: Byte, b: Byte): Byte { a ^ b }

  /** The xor of two blocks of the same length. */
  function Xor(a: Block, b: Block): (r: Block)
    ensures |r| == |a|
  {
    seq(|a|, i requires 0 <= i < |a| => if i < |b| then XorByte(a[i], b[i]) else a[i])
  }

  lemma XorTwice(a: Block, b: Block)
    requires |a| == |b|
    ensures Xor(Xor(a, b), a) == b
  {
    hide XorByte;
    forall i | 0 <= i < |a|
      ensures Xor(Xor(a, b), a)[i] == b[i]
    {
      XorByteTwice(a[i], b[i]);
    }
  }

  lemma XorByteTwice(a: Byte, b: Byte)
    ensures XorByte(XorByte(a, b), a) == b
  {
  }

  lemma XorCommutes(a: Block, b: Block)
    requires |a| == |b|
    ensures Xor(a, b) == Xor(b, a)
  {
    hide XorByte;
    forall i | 0 <= i < |a|
      ensures Xor(a, b)[i] == Xor(b, a)[i]
    {
      XorByteCommutes(a[i], b[i]);
    }
  }

  lemma XorByteCommutes(a: Byte, b: Byte)
    ensures XorByte(a, b) == XorByte(b, a)
  {
  }

  // ---- the mode ----

  /** Every block is xored with the ciphertext before it and then encrypted. */
  function Encrypted(c: Cipher, iv: Block, m: seq<Block>): (r: seq<Block>)
    ensures |r| == |m|
    decreases |m|
  {
    if m == [] then []
    else
      var e := c.enc(Xor(iv, m[0]));
      [e] + Encrypted(c, e, m[1..])
  }

  /** Every block is decrypted and then xored with the ciphertext before it. */
  function Decrypted(c: Cipher, iv: Block, m: seq<Block>): (r: seq<Block>)
    ensures |r| == |m|
    decreases |m|
  {
    if m == [] then [] else [Xor(c.dec(m[0]), iv)] + Decrypted(c, m[0], m[1..])
  }

  /** The ciphertext block the next one is chained to. */
  function Chain(iv: Block, x: seq<Block>): Block { if x == [] then iv else x[|x| - 1] }

  lemma {:induction false} EncryptedBlocks(c: Cipher, iv: Block, m: seq<Block>)
    requires Sound(c) && IsBlock(c, iv) && AreBlocks(c, m)
    ensures AreBlocks(c, Encrypted(c, iv, m)) && IsBlock(c, Chain(iv, Encrypted(c, iv, m)))
    decreases |m|
  {
    if m != [] {
      EncryptedBlocks(c, c.enc(Xor(iv, m[0])), m[1..]);
    }
  }

  /** A message in two pieces, the second chained to the first through the iv, is encrypted like one. */
  lemma {:induction false} EncryptedPieces(c: Cipher, iv: Block, a: seq<Block>, b: seq<Block>)
    ensures var x := Encrypted(c, iv, a); Encrypted(c, iv, a + b) == x + Encrypted(c, Chain(iv, x), b)
    decreases |a|
  {
    if a == [] {
      assert a + b == b;
    } else {
      var e := c.enc(Xor(iv, a[0]));
      assert (a + b)[1..] == a[1..] + b;
      EncryptedPieces(c, e, a[1..], b);
    }
  }

  /** And decrypted like one. */
  lemma {:induction false} DecryptedPieces(c: Cipher, iv: Block, a: seq<Block>, b: seq<Block>)
    ensures Decrypted(c, iv, a + b) == Decrypted(c, iv, a) + Decrypted(c, Chain(iv, a), b)
    decreases |a|
  {
    if a == [] {
      assert a + b == b;
    } else {
      assert (a + b)[1..] == a[1..] + b;
      DecryptedPieces(c, a[0], a[1..], b);
    }
  }

  /** Any number of segments, each starting from the iv the one before left. */
  function EncryptedAll(c: Cipher, iv: Block, segments: seq<seq<Block>>): seq<Block>
    decreases |segments|
  {
    if segments == [] then []
    else
      var x := Encrypted(c, iv, segments[0]);
      x + EncryptedAll(c, Chain(iv, x), segments[1..])
  }

  function DecryptedAll(c: Cipher, iv: Block, segments: seq<seq<Block>>): seq<Block>
    decreases |segments|
  {
    if segments == [] then []
    else Decrypted(c, iv, segments[0]) + DecryptedAll(c, Chain(iv, segments[0]), segments[1..])
  }

  function Flat(segments: seq<seq<Block>>): seq<Block> { if segments == [] then [] else segments[0] + Flat(segments[1..]) }

  /** How a message is cut into segments does not matter. */
  lemma {:induction false} SegmentsDoNotMatter(c: Cipher, iv: Block, segments: seq<seq<Block>>)
    ensures EncryptedAll(c, iv, segments) == Encrypted(c, iv, Flat(segments))
    ensures DecryptedAll(c, iv, segments) == Decrypted(c, iv, Flat(segments))
    decreases |segments|
  {
    if segments != [] {
      var x := Encrypted(c, iv, segments[0]);
      SegmentsDoNotMatter(c, Chain(iv, x), segments[1..]);
      SegmentsDoNotMatter(c, Chain(iv, segments[0]), segments[1..]);
      EncryptedPieces(c, iv, segments[0], Flat(segments[1..]));
      DecryptedPieces(c, iv, segments[0], Flat(segments[1..]));
    }
  }

  /** Decryption recovers the plaintext. */
  lemma {:induction false} RoundTrip(c: Cipher, iv: Block, m: seq<Block>)
    requires Sound(c) && Inverse(c) && IsBlock(c, iv) && AreBlocks(c, m)
    ensures Decrypted(c, iv, Encrypted(c, iv, m)) == m
    decreases |m|
  {
    if m != [] {
      var e := c.enc(Xor(iv, m[0]));
      RoundTrip(c, e, m[1..]);
      XorTwice(iv, m[0]);
      assert Encrypted(c, iv, m)[1..] == Encrypted(c, e, m[1..]);
    }
  }

  // ---- crypto_xor ----

  /** s with b at i. */
  function Put(s: seq<Byte>, i: nat, b: seq<Byte>): (r: seq<Byte>)
    requires i + |b| <= |s|
    ensures |r| == |s|
  {
    s[..i] + b + s[i + |b|..]
  }

  /** Four bytes as a word, and the bytes of a word. */
  function Word(b0: Byte, b1: Byte, b2: Byte, b3: Byte): bv32 {
    (b0 as bv32) | (b1 as bv32 << 8) | (b2 as bv32 << 16) | (b3 as bv32 << 24)
  }

  function Byte0(w: bv32): Byte { (w & 0xff) as bv8 }
  function Byte1(w: bv32): Byte { ((w >> 8) & 0xff) as bv8 }
  function Byte2(w: bv32): Byte { ((w >> 16) & 0xff) as bv8 }
  function Byte3(w: bv32): Byte { ((w >> 24) & 0xff) as bv8 }

  lemma WordXor0(a0: Byte, a1: Byte, a2: Byte, a3: Byte, b0: Byte, b1: Byte, b2: Byte, b3: Byte)
    ensures Byte0(Word(a0, a1, a2, a3) ^ Word(b0, b1, b2, b3)) == XorByte(a0, b0)
  {
  }

  lemma WordXor1(a0: Byte, a1: Byte, a2: Byte, a3: Byte, b0: Byte, b1: Byte, b2: Byte, b3: Byte)
    ensures Byte1(Word(a0, a1, a2, a3) ^ Word(b0, b1, b2, b3)) == XorByte(a1, b1)
  {
  }

  lemma WordXor2(a0: Byte, a1: Byte, a2: Byte, a3: Byte, b0: Byte, b1: Byte, b2: Byte, b3: Byte)
    ensures Byte2(Word(a0, a1, a2, a3) ^ Word(b0, b1, b2, b3)) == XorByte(a2, b2)
  {
  }

  lemma WordXor3(a0: Byte, a1: Byte, a2: Byte, a3: Byte, b0: Byte, b1: Byte, b2: Byte, b3: Byte)
    ensures Byte3(Word(a0, a1, a2, a3) ^ Word(b0, b1, b2, b3)) == XorByte(a3, b3)
  {
  }

  /** The bytes of the xor of two words. */
  function XorWord(a0: Byte, a1: Byte, a2: Byte, a3: Byte, b0: Byte, b1: Byte, b2: Byte, b3: Byte): (Byte, Byte, Byte, Byte) {
    var w := Word(a0, a1, a2, a3) ^ Word(b0, b1, b2, b3);
    (Byte0(w), Byte1(w), Byte2(w), Byte3(w))
  }

  /** They are the xors of the bytes. */
  lemma WordXor(a0: Byte, a1: Byte, a2: Byte, a3: Byte, b0: Byte, b1: Byte, b2: Byte, b3: Byte)
    ensures XorWord(a0, a1, a2, a3, b0, b1, b2, b3) == (XorByte(a0, b0), XorByte(a1, b1), XorByte(a2, b2), XorByte(a3, b3))
  {
    hide Word, Byte0, Byte1, Byte2, Byte3, XorByte;
    WordXor0(a0, a1, a2, a3, b0, b1, b2, b3);
    WordXor1(a0, a1, a2, a3, b0, b1, b2, b3);
    WordXor2(a0, a1, a2, a3, b0, b1, b2, b3);
    WordXor3(a0, a1, a2, a3, b0, b1, b2, b3);
  }

  /** *a ^= *b on one word of each buffer. */
  method XorOneWord(a: array<Byte>, i: nat, b: array<Byte>, j: nat)
    requires i + 4 <= a.Length && j + 4 <= b.Length && (a != b || i + 4 <= j || j + 4 <= i)
    modifies a
    ensures forall p :: 0 <= p < a.Length ==> a[p] == if i <= p < i + 4 then XorByte(old(a[p]), old(b[j + (p - i)])) else old(a[p])
  {
    hide XorWord, XorByte;
    WordXor(a[i], a[i + 1], a[i + 2], a[i + 3], b[j], b[j + 1], b[j + 2], b[j + 3]);
    var w := XorWord(a[i], a[i + 1], a[i + 2], a[i + 3], b[j], b[j + 1], b[j + 2], b[j + 3]);
    a[i], a[i + 1], a[i + 2], a[i + 3] := w.0, w.1, w.2, w.3;
  }

  /** crypto_xor: words while there are four bytes left, then bytes. */
  method XorInto(a: array<Byte>, i: nat, b: array<Byte>, j: nat, size: nat)
    requires i + size <= a.Length && j + size <= b.Length && (a != b || i + size <= j || j + size <= i)
    modifies a
    ensures a[..] == Put(old(a[..]), i, Xor(old(a[i..i + size]), old(b[j..j + size])))
  {
    hide XorByte;
    ghost var s, t := a[..], b[..];
    var k := 0;
    while size - k >= 4
      invariant 0 <= k <= size && (a != b ==> b[..] == t)
      invariant forall p :: 0 <= p < a.Length ==> a[p] == if i <= p < i + k then XorByte(s[p], t[j + (p - i)]) else s[p]
    {
      XorOneWord(a, i + k, b, j + k);
      k := k + 4;
    }
    while k < size
      invariant 0 <= k <= size && (a != b ==> b[..] == t)
      invariant forall p :: 0 <= p < a.Length ==> a[p] == if i <= p < i + k then XorByte(s[p], t[j + (p - i)]) else s[p]
    {
      a[i + k] := XorByte(a[i + k], b[j + k]);
      k := k + 1;
    }
    XoredIs(s, i, t, j, size, a[..]);
  }

  lemma XoredIs(s: seq<Byte>, i: nat, t: seq<Byte>, j: nat, size: nat, r: seq<Byte>)
    requires i + size <= |s| == |r| && j + size <= |t|
    requires forall p :: 0 <= p < |r| ==> r[p] == if i <= p < i + size then XorByte(s[p], t[j + (p - i)]) else s[p]
    ensures r == Put(s, i, Xor(s[i..i + size], t[j..j + size]))
  {
    hide XorByte;
  }

  /** crypto_xor on two blocks in memory. */
  method XorBlocks(x: Block, y: Block) returns (r: Block)
    ensures r == Xor(x, y)
  {
    hide XorByte;
    var a, b := new Byte[|x|](i requires 0 <= i < |x| => x[i]), new Byte[|y|](i requires 0 <= i < |y| => y[i]);
    assert a[..] == x && b[..] == y;
    var size := if |x| < |y| then |x| else |y|;
    XorInto(a, 0, b, 0, size);
    r := a[..];
  }

  // ---- the loops ----

  /** Whole blocks in n bytes, and what is left. */
  function Count(n: nat, size: nat): nat
    requires size > 0
  {
    if n < size then 0 else 1 + Count(n - size, size)
  }

  function Tail(n: nat, size: nat): nat
    requires size > 0
  {
    if n < size then n else Tail(n - size, size)
  }

  /** They are the quotient and the remainder. */
  lemma {:induction false} CountsBlocks(n: nat, size: nat)
    requires size > 0
    ensures n == Count(n, size) * size + Tail(n, size) && Tail(n, size) < size
  {
    if n >= size {
      CountsBlocks(n - size, size);
      assert Count(n, size) * size == Count(n - size, size) * size + size;
    }
  }

  /** is_power_of_2, which every cipher under the mode must satisfy. */
  predicate IsPower(size: nat) { size == 1 || (size > 1 && size % 2 == 0 && IsPower(size / 2)) }

  /** a & b, bit by bit. */
  function And(a: nat, b: nat): nat {
    if a == 0 || b == 0 then 0 else (if a % 2 == 1 && b % 2 == 1 then 1 else 0) + 2 * And(a / 2, b / 2)
  }

  lemma {:induction false} TailOfDouble(n: nat, half: nat)
    requires half > 0
    ensures Tail(n, 2 * half) == n % 2 + 2 * Tail(n / 2, half)
  {
    if n >= 2 * half {
      assert (n - 2 * half) / 2 == n / 2 - half && (n - 2 * half) % 2 == n % 2;
      TailOfDouble(n - 2 * half, half);
    }
  }

  /** The mask nbytes & (bsize - 1) is what is left. */
  lemma {:induction false} MaskIsTail(n: nat, size: nat)
    requires IsPower(size)
    ensures size > 0 && And(n, size - 1) == Tail(n, size)
  {
    if size == 1 {
      TailOfOne(n);
    } else {
      var half := size / 2;
      MaskIsTail(n / 2, half);
      TailOfDouble(n, half);
      assert (size - 1) % 2 == 1 && (size - 1) / 2 == half - 1;
      AndUnfold(n, size - 1);
    }
  }

  lemma {:induction false} TailOfOne(n: nat)
    ensures Tail(n, 1) == 0
  {
    if n > 0 {
      TailOfOne(n - 1);
    }
  }

  lemma AndUnfold(a: nat, b: nat)
    requires b % 2 == 1
    ensures And(a, b) == a % 2 + 2 * And(a / 2, b / 2)
  {
  }

  /** nbytes - (nbytes & (bsize - 1)) - bsize is where the last block starts. */
  lemma LastBlock(n: nat, size: nat)
    requires IsPower(size) && n >= size
    ensures size > 0 && n - And(n, size - 1) - size == (Count(n, size) - 1) * size
    ensures n - And(n, size - 1) >= size && Count(n - And(n, size - 1) - size, size) == Count(n, size) - 1
  {
    hide And;
    MaskIsTail(n, size);
    CountsBlocks(n, size);
    var k := Count(n, size);
    assert (k - 1) * size == k * size - size;
    CountOf(k - 1, size);
  }

  lemma {:induction false} CountOf(k: nat, size: nat)
    requires size > 0
    ensures k * size >= 0 && Count(k * size, size) == k
  {
    if k > 0 {
      CountOf(k - 1, size);
      assert k * size == (k - 1) * size + size;
    }
  }

  lemma EncryptedMore(c: Cipher, iv: Block, a: seq<Block>, p: Block)
    ensures var e := c.enc(Xor(Chain(iv, Encrypted(c, iv, a)), p)); Encrypted(c, iv, a + [p]) == Encrypted(c, iv, a) + [e]
  {
    EncryptedPieces(c, iv, a, [p]);
    assert [p][1..] == [];
  }

  lemma DecryptedMore(c: Cipher, iv: Block, a: seq<Block>, e: Block)
    ensures Decrypted(c, iv, a + [e]) == Decrypted(c, iv, a) + [Xor(c.dec(e), Chain(iv, a))]
  {
    DecryptedPieces(c, iv, a, [e]);
    assert [e][1..] == [];
  }

  /** The working state of a walk. */
  class Walk {
    var iv: Block

    constructor (iv: Block)
      ensures this.iv == iv
    {
      this.iv := iv;
    }

    /** crypto_cbc_encrypt_segment: n bytes from src to dst; returns the bytes that make no block. */
    method EncryptSegment(c: Cipher, src: array<Block>, dst: array<Block>, n: nat) returns (left: nat)
      requires 0 < c.size <= n && Count(n, c.size) <= src.Length && Count(n, c.size) <= dst.Length && src != dst
      modifies this, dst
      ensures left == Tail(n, c.size)
      ensures var k := Count(n, c.size);
              && dst[..k] == Encrypted(c, old(iv), src[..k]) && dst[k..] == old(dst[k..])
              && iv == Chain(old(iv), dst[..k])
    {
      hide Encrypted, Xor;
      ghost var v := iv;
      var p := 0;
      left := n;
      EncryptedNone(c, v);
      while left >= c.size
        invariant 0 <= p && p + Count(left, c.size) == Count(n, c.size) && Tail(left, c.size) == Tail(n, c.size)
        invariant dst[..p] == Encrypted(c, v, src[..p]) && iv == Chain(v, dst[..p]) && dst[p..] == old(dst[p..])
      {
        EncryptedMore(c, v, src[..p], src[p]);
        assert src[..p + 1] == src[..p] + [src[p]];
        iv := XorBlocks(iv, src[p]);
        dst[p] := c.enc(iv);
        iv := dst[p];
        p, left := p + 1, left - c.size;
      }
    }

    /** crypto_cbc_encrypt_inplace: the same bytes and the same iv as out of place; the chained block is
        read back from the buffer. */
    method EncryptInPlace(c: Cipher, buf: array<Block>, n: nat) returns (left: nat)
      requires Sound(c) && c.size <= n && Count(n, c.size) <= buf.Length && IsBlock(c, iv) && AreBlocks(c, buf[..])
      modifies this, buf
      ensures left == Tail(n, c.size)
      ensures var k := Count(n, c.size);
              && buf[..k] == Encrypted(c, old(iv), old(buf[..k])) && buf[k..] == old(buf[k..])
              && iv == Chain(old(iv), buf[..k])
    {
      hide Encrypted, Xor;
      ghost var v, s := iv, buf[..];
      var p, chain := 0, iv;
      left := n;
      EncryptedNone(c, v);
      while left >= c.size
        invariant 0 <= p && p + Count(left, c.size) == Count(n, c.size) && Tail(left, c.size) == Tail(n, c.size)
        invariant buf[..p] == Encrypted(c, v, s[..p]) && chain == Chain(v, buf[..p]) && buf[p..] == s[p..] && |chain| == c.size
      {
        EncryptedMore(c, v, s[..p], s[p]);
        assert s[..p + 1] == s[..p] + [s[p]] && buf[p] == buf[p..][0] == s[p];
        assert IsBlock(c, s[p]);
        XorCommutes(buf[p], chain);
        var x := XorBlocks(buf[p], chain);
        buf[p] := c.enc(x);
        chain := buf[p];
        p, left := p + 1, left - c.size;
      }
      iv := chain;
    }

    /** crypto_cbc_decrypt_segment: from src to dst. */
    method DecryptSegment(c: Cipher, src: array<Block>, dst: array<Block>, n: nat) returns (left: nat)
      requires 0 < c.size <= n && Count(n, c.size) <= src.Length && Count(n, c.size) <= dst.Length && src != dst
      modifies this, dst
      ensures left == Tail(n, c.size)
      ensures var k := Count(n, c.size);
              && dst[..k] == Decrypted(c, old(iv), src[..k]) && dst[k..] == old(dst[k..])
              && iv == Chain(old(iv), src[..k])
    {
      hide Decrypted, Xor;
      ghost var v := iv;
      var p, chain := 0, iv;
      left := n;
      EncryptedNone(c, v);
      while left >= c.size
        invariant 0 <= p && p + Count(left, c.size) == Count(n, c.size) && Tail(left, c.size) == Tail(n, c.size)
        invariant dst[..p] == Decrypted(c, v, src[..p]) && chain == Chain(v, src[..p]) && dst[p..] == old(dst[p..])
      {
        DecryptedMore(c, v, src[..p], src[p]);
        assert src[..p + 1] == src[..p] + [src[p]];
        dst[p] := c.dec(src[p]);
        var x := XorBlocks(dst[p], chain);
        dst[p] := x;
        chain := src[p];
        p, left := p + 1, left - c.size;
      }
      iv := chain;
    }

    /** crypto_cbc_decrypt_inplace: from the last block to the first, because every block needs the
        ciphertext before it. */
    method DecryptInPlace(c: Cipher, buf: array<Block>, n: nat) returns (left: nat)
      requires IsPower(c.size) && 0 < c.size <= n && Count(n, c.size) <= buf.Length
      modifies this, buf
      ensures left == Tail(n, c.size)
      ensures var k := Count(n, c.size);
              && buf[..k] == Decrypted(c, old(iv), old(buf[..k])) && buf[k..] == old(buf[k..])
              && iv == Chain(old(iv), old(buf[..k]))
    {
      ghost var v, s, k := iv, buf[..], Count(n, c.size);
      LastBlock(n, c.size);
      var last := Count(n - And(n, c.size - 1) - c.size, c.size);
      var lastIv := buf[last];
      left := DecryptBehind(c, buf, n, last);
      hide Decrypted, Xor, And, IsPower;
      DecryptedFirst(c, v, s, 0, k);
      assert s[..k][k - 1] == s[k - 1];
      assert s[..1][0] == s[0];
      ghost var behind := buf[1..k];
      assert behind == Decrypted(c, s[0], s[1..k]);
      assert buf[0] == c.dec(s[0]);
      var x := XorBlocks(buf[0], iv);
      buf[0] := x;
      assert buf[..k] == [buf[0]] + behind;
      iv := lastIv;
    }

    /** Its loop: every block but the first is done, the first one only decrypted. */
    method DecryptBehind(c: Cipher, buf: array<Block>, n: nat, last: nat) returns (left: nat)
      requires 0 < c.size <= n && Count(n, c.size) <= buf.Length && last == Count(n, c.size) - 1
      modifies buf
      ensures left == Tail(n, c.size)
      ensures var k, s := Count(n, c.size), old(buf[..]);
              k > 0 && buf[0] == c.dec(s[0]) && buf[1..k] == Decrypted(c, s[0], s[1..k]) && buf[k..] == s[k..]
    {
      hide Decrypted, Xor;
      ghost var s, k := buf[..], Count(n, c.size);
      var p := last;
      left := n;
      DecryptedEnd(c, s, k);
      while true
        invariant 0 <= p < k && Count(left, c.size) == p + 1 && Tail(left, c.size) == Tail(n, c.size) && left >= c.size
        invariant (forall j :: 0 <= j <= p ==> buf[j] == s[j]) && buf[k..] == s[k..]
        invariant buf[p + 1..k] == Decrypted(c, s[p], s[p + 1..k])
        decreases p
      {
        ghost var behind := buf[p + 1..k];
        buf[p] := c.dec(buf[p]);
        left := left - c.size;
        if left < c.size {
          break;
        }
        DecryptedFirst(c, s[p - 1], s, p, k);
        var x := XorBlocks(buf[p], buf[p - 1]);
        buf[p] := x;
        assert buf[p..k] == [buf[p]] + behind;
        p := p - 1;
      }
    }
  }

  lemma EncryptedNone(c: Cipher, iv: Block)
    ensures Encrypted(c, iv, []) == [] && Decrypted(c, iv, []) == []
  {
  }

  lemma DecryptedEnd(c: Cipher, s: seq<Block>, k: nat)
    requires 0 < k <= |s|
    ensures s[k..k] == [] && Decrypted(c, s[k - 1], s[k..k]) == []
  {
  }

  lemma DecryptedFirst(c: Cipher, prev: Block, s: seq<Block>, p: nat, k: nat)
    requires p < k <= |s|
    ensures Decrypted(c, prev, s[p..k]) == [Xor(c.dec(s[p]), prev)] + Decrypted(c, s[p], s[p + 1..k])
    ensures s[0..k] == s[..k]
  {
    assert s[p..k][1..] == s[p + 1..k];
  }
}
