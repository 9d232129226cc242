/** The random generator of ANSI X9.31 Appendix A.2.4: the block sequence it is based on, the counter
    DT, and what the byte interface hands out of that sequence. */
module Prng {

  type Byte = bv8

  type Block = s: seq<Byte> | |s| == 16 witness [0, 0, 0, 0, 0, 0, 0, 0, 0, 0, 0, 0, 0, 0, 0, 0]

  /** A block cipher with its key. */
  type Cipher = Block -> Block

  const ZERO: Block := [0, 0, 0, 0, 0, 0, 0, 0, 0, 0, 0, 0, 0, 0, 0, 0]

  /** xor_vectors */
  function Xor(a: Block, b: Block): Block { seq(16, i requires 0 <= i < 16 => a[i] ^ b[i]) }

  // ---- the counter ----

  /** The bytes as a big-endian number. */
  function Value(s: seq<Byte>): nat { if s == [] then 0 else Value(s[..|s| - 1]) * 256 + s[|s| - 1] as nat }

  function Power(n: nat): nat { if n == 0 then 1 else Power(n - 1) * 256 }

  /** Add one, carrying from the last byte towards the first. */
  function Inc(s: seq<Byte>): (r: seq<Byte>)
    ensures |r| == |s|
  {
    if s == [] then []
    else if s[|s| - 1] == 255 then Inc(s[..|s| - 1]) + [0]
    else s[..|s| - 1] + [s[|s| - 1] + 1]
  }

  /** Inc counts modulo 256 to the number of bytes. */
  lemma {:induction false} IncCounts(s: seq<Byte>)
    ensures Value(s) < Power(|s|)
    ensures Value(Inc(s)) == if Value(s) + 1 == Power(|s|) then 0 else Value(s) + 1
  {
    if s != [] {
      var p := s[..|s| - 1];
      IncCounts(p);
      assert Inc(s)[..|s| - 1] == if s[|s| - 1] == 255 then Inc(p) else p;
    }
  }

  // ---- the block sequence ----

  datatype Seed = Seed(enc: Cipher, v: Block, dt: Block)

  datatype Gen = Gen(v: Block, dt: Block)

  /** With I = enc(DT) the block is R = enc(I xor V); then V becomes enc(R xor I) and DT goes up by one. */
  function Output(enc: Cipher, g: Gen): Block { enc(Xor(enc(g.dt), g.v)) }

  function Next(enc: Cipher, g: Gen): Gen { Gen(enc(Xor(Output(enc, g), enc(g.dt))), Inc(g.dt)) }

  /** V and DT after k blocks. */
  function After(seed: Seed, k: nat): Gen { if k == 0 then Gen(seed.v, seed.dt) else Next(seed.enc, After(seed, k - 1)) }

  /** Block k of the sequence, counting from zero. */
  function R(seed: Seed, k: nat): Block { Output(seed.enc, After(seed, k)) }

  /** What block k is compared with. */
  function Previous(seed: Seed, k: nat): Block { if k == 0 then ZERO else R(seed, k - 1) }

  const TWO_TO_128 := 0x1_0000_0000_0000_0000_0000_0000_0000_0000

  /** DT is a 128-bit big-endian counter. */
  lemma {:induction false} CounterAt(seed: Seed, k: nat)
    ensures Value(After(seed, k).dt) == (Value(seed.dt) + k) % TWO_TO_128
  {
    hide Value, Inc, Power;
    PowerIs();
    if k == 0 {
      IncCounts(seed.dt);
    } else {
      CounterAt(seed, k - 1);
      IncCounts(After(seed, k - 1).dt);
    }
  }

  lemma PowerIs()
    ensures Power(16) == TWO_TO_128
  {
    assert Power(4) == 0x1_0000_0000;
    assert Power(8) == 0x1_0000_0000_0000_0000;
    assert Power(12) == 0x1_0000_0000_0000_0000_0000_0000;
  }

  // ---- the byte stream ----

  /** Byte p of the concatenated blocks. */
  function StreamByte(seed: Seed, p: nat): Byte { R(seed, p / 16)[p % 16] }

  function Stream(seed: Seed, p: nat, n: nat): seq<Byte> { seq(n, j requires 0 <= j < n => StreamByte(seed, p + j)) }

  /** Where the next request starts after n bytes were read at p.  When the last bytes of a request
      come out of a block one by one, the cursor stays on the last of them. */
  function NextAt(p: nat, n: nat): nat
    requires n > 0
  {
    if n >= 16 && (p + n) % 16 == 0 then p + n else p + n - 1
  }

  /** The blocks a request of n bytes at p needs are 0 up to this one. */
  function Blocks(p: nat, n: nat): nat { (p + n + 15) / 16 }

  /** Where request i of a series starts, from a fresh context. */
  function StartAt(ns: seq<nat>, i: nat): nat
    requires i <= |ns| && forall j :: 0 <= j < |ns| ==> ns[j] > 0
  {
    if i == 0 then 0 else NextAt(StartAt(ns, i - 1), ns[i - 1])
  }

  function Sum(ns: seq<nat>, i: nat): nat
    requires i <= |ns|
  {
    if i == 0 then 0 else Sum(ns, i - 1) + ns[i - 1]
  }

  /** What the requests of a series return, one after the other. */
  function Returned(seed: Seed, ns: seq<nat>, i: nat): seq<Byte>
    requires i <= |ns| && forall j :: 0 <= j < |ns| ==> ns[j] > 0
  {
    if i == 0 then [] else Returned(seed, ns, i - 1) + Stream(seed, StartAt(ns, i - 1), ns[i - 1])
  }

  /** The first m requests follow each other without a gap or an overlap. */
  predicate Continuous(ns: seq<nat>, m: nat)
    requires m <= |ns| && forall j :: 0 <= j < |ns| ==> ns[j] > 0
  {
    forall i :: 0 <= i < m ==> StartAt(ns, i) == Sum(ns, i)
  }

  /** All of the first m requests but the last ask for whole blocks. */
  predicate WholeBlocks(ns: seq<nat>, m: nat)
    requires m <= |ns|
  {
    forall i :: 0 <= i < m - 1 ==> ns[i] % 16 == 0
  }

  lemma {:induction false} ContinuousIff(ns: seq<nat>, m: nat)
    requires m <= |ns| && forall j :: 0 <= j < |ns| ==> ns[j] > 0
    ensures Continuous(ns, m) <==> WholeBlocks(ns, m)
  {
    hide StartAt, Sum;
    if m > 0 {
      ContinuousIff(ns, m - 1);
      if m == 1 {
        StartsAtZero(ns);
      } else if WholeBlocks(ns, m - 1) {
        SumAligned(ns, m - 2);
        OneRequest(ns, m - 2);
        assert Continuous(ns, m) <==> StartAt(ns, m - 1) == Sum(ns, m - 1);
      } else {
        assert !Continuous(ns, m - 1);
      }
    }
  }

  lemma StartsAtZero(ns: seq<nat>)
    requires forall j :: 0 <= j < |ns| ==> ns[j] > 0
    ensures StartAt(ns, 0) == Sum(ns, 0) == 0
  {
  }

  lemma OneRequest(ns: seq<nat>, i: nat)
    requires i < |ns| && (forall j :: 0 <= j < |ns| ==> ns[j] > 0) && StartAt(ns, i) == Sum(ns, i) && Sum(ns, i) % 16 == 0
    ensures StartAt(ns, i + 1) == Sum(ns, i + 1) <==> ns[i] % 16 == 0
  {
  }

  lemma {:induction false} SumAligned(ns: seq<nat>, i: nat)
    requires i < |ns| && forall j :: 0 <= j < i ==> ns[j] % 16 == 0
    ensures Sum(ns, i) % 16 == 0
  {
    if i > 0 {
      SumAligned(ns, i - 1);
    }
  }

  /** Then what they return is a prefix of the stream. */
  lemma {:induction false} WholeBlocksAreContinuous(seed: Seed, ns: seq<nat>, m: nat)
    requires m <= |ns| && (forall j :: 0 <= j < |ns| ==> ns[j] > 0) && WholeBlocks(ns, m)
    ensures Returned(seed, ns, m) == Stream(seed, 0, Sum(ns, m))
  {
    hide StreamByte;
    if m > 0 {
      WholeBlocksAreContinuous(seed, ns, m - 1);
      ContinuousIff(ns, m);
      assert StartAt(ns, m - 1) == Sum(ns, m - 1);
    }
  }

  /** Otherwise the next request returns the last byte of this one again. */
  lemma LastByteAgain(seed: Seed, p: nat, n: nat, n': nat)
    requires n > 0 && n' > 0 && !(n >= 16 && (p + n) % 16 == 0)
    ensures Stream(seed, NextAt(p, n), n')[0] == Stream(seed, p, n)[n - 1]
  {
  }

  /** So the stream is not continuous: two requests of one byte each, from a cipher that changes
      nothing and a zero V, return the first byte of DT twice. */
  lemma TwoSingleBytes()
    ensures var dt: Block := [1, 2, 3, 4, 5, 6, 7, 8, 9, 10, 11, 12, 13, 14, 15, 16];
            var seed := Seed(Same, ZERO, dt);
            Returned(seed, [1, 1], 2) == [1, 1] && Stream(seed, 0, 2) == [1, 2]
  {
    var dt: Block := [1, 2, 3, 4, 5, 6, 7, 8, 9, 10, 11, 12, 13, 14, 15, 16];
    hide R, Xor, Inc;
    var seed := Seed(Same, ZERO, dt);
    PlainCounter(dt, 0);
    assert R(seed, 0) == dt;
    assert StartAt([1, 1], 0) == 0 && StartAt([1, 1], 1) == 0;
    assert StreamByte(seed, 0) == 1 && StreamByte(seed, 1) == 2;
    assert Returned(seed, [1, 1], 1) == [1];
  }

  /** Blocks k up to m each differ from the one before. */
  ghost predicate NoRepeat(seed: Seed, k: nat, m: nat) { forall j :: k <= j < m ==> R(seed, j) != Previous(seed, j) }

  // ---- a seed that shows a repeated byte ----

  ghost predicate Inverses(enc: Cipher, dec: Cipher) { forall b :: dec(enc(b)) == b && enc(dec(b)) == b }

  /** A block cipher under one key permutes the blocks. */
  ghost predicate Permutation(enc: Cipher) { exists dec: Cipher :: Inverses(enc, dec) }

  function Same(b: Block): Block { b }

  lemma SamePermutes()
    ensures Permutation(Same)
  {
    assert Inverses(Same, Same);
  }

  /** Take one away, borrowing from the last byte towards the first. */
  function Dec(s: seq<Byte>): (r: seq<Byte>)
    ensures |r| == |s|
  {
    if s == [] then []
    else if s[|s| - 1] == 0 then Dec(s[..|s| - 1]) + [255]
    else s[..|s| - 1] + [s[|s| - 1] - 1]
  }

  lemma {:induction false} IncUndoesDec(s: seq<Byte>)
    ensures Inc(Dec(s)) == s
  {
    if s != [] {
      var p, x := s[..|s| - 1], s[|s| - 1];
      assert s == p + [x];
      if x == 0 {
        IncUndoesDec(p);
        assert Dec(s)[..|s| - 1] == Dec(p);
      } else {
        LessIsNotFull(x);
        assert Dec(s)[..|s| - 1] == p;
      }
    }
  }

  lemma LessIsNotFull(x: Byte)
    requires x != 0
    ensures x - 1 != 255 && x - 1 + 1 == x
  {
  }

  lemma OneMoreDiffers(x: Byte)
    ensures x + 1 != x
  {
  }

  lemma IncChanges(b: Block)
    ensures Inc(b) != b
  {
    OneMoreDiffers(b[15]);
    assert Inc(b)[15] != b[15];
  }

  /** The counter k steps before t. */
  function Back(t: Block, k: nat): Block { if k == 0 then t else Dec(Back(t, k - 1)) }

  lemma {:induction false} BackDiffers(t: Block, u: Block, k: nat)
    requires t != u
    ensures Back(t, k) != Back(u, k)
  {
    hide Dec, Inc;
    if k > 0 {
      BackDiffers(t, u, k - 1);
      IncUndoesDec(Back(t, k - 1));
      IncUndoesDec(Back(u, k - 1));
    }
  }

  lemma XorZero(b: Block)
    ensures Xor(b, ZERO) == b && Xor(b, b) == ZERO
  {
    forall i | 0 <= i < 16
      ensures Xor(b, ZERO)[i] == b[i] && Xor(b, b)[i] == 0 && ZERO[i] == 0
    {
      XorZeroByte(b[i]);
    }
  }

  lemma XorZeroByte(x: Byte)
    ensures x ^ 0 == x && x ^ x == 0
  {
  }

  /** With a cipher that changes nothing and V zero the blocks are the values of DT. */
  lemma {:induction false} PlainCounter(dt: Block, k: nat)
    ensures var seed := Seed(Same, ZERO, dt);
            && After(seed, k).v == ZERO && R(seed, k) == After(seed, k).dt
            && (k > 0 ==> R(seed, k) == Inc(R(seed, k - 1)))
  {
    hide Inc, Xor;
    var seed := Seed(Same, ZERO, dt);
    if k > 0 {
      PlainCounter(dt, k - 1);
      var g := After(seed, k - 1);
      XorZero(g.dt);
    }
    XorZero(After(seed, k).dt);
  }

  lemma {:induction false} CountsTo(t: Block, k: nat, j: nat)
    requires j <= k
    ensures After(Seed(Same, ZERO, Back(t, k)), j).dt == Back(t, k - j)
  {
    hide Inc, Dec, Xor;
    if j > 0 {
      CountsTo(t, k, j - 1);
      IncUndoesDec(Back(t, k - j));
    }
  }

  /** Zeros and ones in turn. */
  function Stripes(odd: bool): Block { seq(16, i requires 0 <= i < 16 => if (i % 2 == 1) == odd then 1 else 0) }

  lemma StripesAlternate(odd: bool, i: nat)
    requires 0 < i < 16
    ensures Stripes(odd)[i - 1] != Stripes(odd)[i]
  {
  }

  lemma StripesDiffer()
    ensures Stripes(true) != Stripes(false)
  {
    assert Stripes(true)[0] == 0 && Stripes(false)[0] == 1;
  }

  /** A seed whose block with byte p is striped, and whose first block is not zero. */
  function Showing(p: nat): Seed {
    Seed(Same, ZERO, Back(Stripes(Back(Stripes(true), p / 16) != ZERO), p / 16))
  }

  lemma ShowingBlock(p: nat)
    ensures R(Showing(p), p / 16) == Stripes(Back(Stripes(true), p / 16) != ZERO) && R(Showing(p), 0) != ZERO
  {
    hide Stripes, R, Dec;
    var k := p / 16;
    var t := Stripes(Back(Stripes(true), k) != ZERO);
    PlainCounter(Back(t, k), k);
    PlainCounter(Back(t, k), 0);
    CountsTo(t, k, k);
    CountsTo(t, k, 0);
    StripesDiffer();
    BackDiffers(Stripes(true), Stripes(false), k);
  }

  /** No block repeats. */
  lemma ShowingBlocksDiffer(p: nat, k: nat)
    ensures NoRepeat(Showing(p), 0, k)
  {
    hide R, Back, Inc;
    ShowingBlock(p);
    forall j | 0 <= j < k
      ensures R(Showing(p), j) != Previous(Showing(p), j)
    {
      if j > 0 {
        PlainCounter(Showing(p).dt, j);
        IncChanges(R(Showing(p), j - 1));
      }
    }
  }

  /** Byte p differs from the one before when that is in the same block. */
  lemma ShowingBytesDiffer(p: nat)
    requires p % 16 != 0
    ensures StreamByte(Showing(p), p - 1) != StreamByte(Showing(p), p)
  {
    hide R, Stripes, Back;
    ShowingBlock(p);
    SameBlock(p);
    StripesAlternate(Back(Stripes(true), p / 16) != ZERO, p % 16);
  }

  lemma SameBlock(p: nat)
    requires p % 16 != 0
    ensures p > 0 && (p - 1) / 16 == p / 16 && (p - 1) % 16 == p % 16 - 1
  {
  }

  lemma {:induction false} ReturnedLength(seed: Seed, ns: seq<nat>, m: nat)
    requires m <= |ns| && forall j :: 0 <= j < |ns| ==> ns[j] > 0
    ensures |Returned(seed, ns, m)| == Sum(ns, m)
  {
    if m > 0 {
      ReturnedLength(seed, ns, m - 1);
    }
  }

  /** Later requests only append. */
  lemma {:induction false} ReturnedPrefix(seed: Seed, ns: seq<nat>, i: nat, m: nat)
    requires i <= m <= |ns| && forall j :: 0 <= j < |ns| ==> ns[j] > 0
    ensures Sum(ns, i) <= Sum(ns, m) && Returned(seed, ns, i) <= Returned(seed, ns, m)
  {
    hide Stream;
    if i < m {
      ReturnedPrefix(seed, ns, i, m - 1);
    }
  }

  /** Behind a request that ends inside a block the next one starts a byte too early. */
  lemma StartsEarly(ns: seq<nat>, i: nat)
    requires i < |ns| && (forall j :: 0 <= j < |ns| ==> ns[j] > 0) && WholeBlocks(ns, i + 1) && ns[i] % 16 != 0
    ensures StartAt(ns, i + 1) == Sum(ns, i + 1) - 1 && Sum(ns, i + 1) % 16 != 0
  {
    ContinuousIff(ns, i + 1);
    SumAligned(ns, i);
    assert StartAt(ns, i) == Sum(ns, i);
  }

  /** So the byte returned there is the one before, whatever is asked for later. */
  lemma RepeatedByte(seed: Seed, ns: seq<nat>, m: nat, i: nat)
    requires m <= |ns| && (forall j :: 0 <= j < |ns| ==> ns[j] > 0) && i < m - 1 && StartAt(ns, i + 1) == Sum(ns, i + 1) - 1
    ensures var p := Sum(ns, i + 1); p < |Returned(seed, ns, m)| && Returned(seed, ns, m)[p] == StreamByte(seed, p - 1)
  {
    hide StreamByte, StartAt, Sum;
    var p := Sum(ns, i + 1);
    ReturnedLength(seed, ns, i + 1);
    assert Returned(seed, ns, i + 2) == Returned(seed, ns, i + 1) + Stream(seed, p - 1, ns[i + 1]);
    assert Returned(seed, ns, i + 2)[p] == StreamByte(seed, p - 1);
    ReturnedPrefix(seed, ns, i + 2, m);
  }

  /** A request that is not the last and ends inside a block spoils the bytes. */
  lemma SpoilsBytes(ns: seq<nat>, m: nat, i: nat)
    requires m <= |ns| && (forall j :: 0 <= j < |ns| ==> ns[j] > 0) && i < m - 1
    requires WholeBlocks(ns, i + 1) && ns[i] % 16 != 0
    ensures var seed := Showing(Sum(ns, i + 1)); Returned(seed, ns, m) != Stream(seed, 0, Sum(ns, m))
  {
    hide StreamByte, StartAt, Sum, Returned, Showing;
    var p := Sum(ns, i + 1);
    StartsEarly(ns, i);
    RepeatedByte(Showing(p), ns, m, i);
    ShowingBytesDiffer(p);
    assert p < Sum(ns, m) ==> Stream(Showing(p), 0, Sum(ns, m))[p] == StreamByte(Showing(p), 0 + p);
  }

  lemma {:induction false} FirstPart(ns: seq<nat>, m: nat) returns (i: nat)
    requires m <= |ns| && !WholeBlocks(ns, m)
    ensures i < m - 1 && WholeBlocks(ns, i + 1) && ns[i] % 16 != 0
  {
    if WholeBlocks(ns, m - 1) {
      i := m - 2;
    } else {
      i := FirstPart(ns, m - 1);
    }
  }

  /** A block cipher and a seed with which the first m requests succeed. */
  ghost predicate Usable(seed: Seed, ns: seq<nat>, m: nat)
    requires m <= |ns|
  {
    Permutation(seed.enc) && NoRepeat(seed, 0, Blocks(0, Sum(ns, m)))
  }

  predicate ReturnsPrefix(seed: Seed, ns: seq<nat>, m: nat)
    requires m <= |ns| && forall j :: 0 <= j < |ns| ==> ns[j] > 0
  {
    Returned(seed, ns, m) == Stream(seed, 0, Sum(ns, m))
  }

  /** Whatever the block cipher, the key and the seed with which the requests succeed, the bytes returned
      are the prefix of the stream: that holds if and only if all requests but the last ask for whole
      blocks. */
  lemma BytesContinuousIff(ns: seq<nat>, m: nat)
    requires m <= |ns| && forall j :: 0 <= j < |ns| ==> ns[j] > 0
    ensures (forall seed :: Usable(seed, ns, m) ==> ReturnsPrefix(seed, ns, m)) <==> WholeBlocks(ns, m)
  {
    hide Usable, ReturnsPrefix;
    if WholeBlocks(ns, m) {
      forall seed
        ensures ReturnsPrefix(seed, ns, m)
      {
        WholePrefix(seed, ns, m);
      }
    } else {
      var i := FirstPart(ns, m);
      Spoilt(ns, m, i);
    }
  }

  lemma WholePrefix(seed: Seed, ns: seq<nat>, m: nat)
    requires m <= |ns| && (forall j :: 0 <= j < |ns| ==> ns[j] > 0) && WholeBlocks(ns, m)
    ensures ReturnsPrefix(seed, ns, m)
  {
    hide Returned, Stream;
    WholeBlocksAreContinuous(seed, ns, m);
  }

  lemma Spoilt(ns: seq<nat>, m: nat, i: nat)
    requires m <= |ns| && (forall j :: 0 <= j < |ns| ==> ns[j] > 0) && i < m - 1
    requires WholeBlocks(ns, i + 1) && ns[i] % 16 != 0
    ensures var seed := Showing(Sum(ns, i + 1)); Usable(seed, ns, m) && !ReturnsPrefix(seed, ns, m)
  {
    hide Returned, Stream, NoRepeat, Permutation, Back, Stripes;
    SpoilsBytes(ns, m, i);
    SamePermutes();
    ShowingBlocksDiffer(Sum(ns, i + 1), Blocks(0, Sum(ns, m)));
  }

  // ---- the context ----

  class Context {
    const enc: Cipher
    var randData: Block
    var lastRandData: Block
    const dt: array<Byte>
    var i: Block
    var v: Block
    var valid: nat
    var needReset: bool

    /** k blocks of the sequence of seed have been made, and the cursor is in the last of them. */
    ghost predicate At(seed: Seed, k: nat)
      reads this, dt
    {
      && enc == seed.enc && dt.Length == 16 && dt[..] == After(seed, k).dt && v == After(seed, k).v
      && (k > 0 ==> randData == R(seed, k - 1)) && lastRandData == Previous(seed, k)
      && valid <= 16 && 16 * k + valid >= 16
    }

    /** The byte of the stream the cursor is on. */
    ghost function Cursor(k: nat): nat
      requires 16 * k + valid >= 16
      reads this
    {
      16 * k - 16 + valid
    }

    /** reset_prng_context with a key that is accepted. */
    constructor (enc: Cipher, v: Block, dt: Block)
      ensures At(Seed(enc, v, dt), 0) && Cursor(0) == 0 && !needReset && fresh(this.dt)
    {
      this.enc, this.v := enc, v;
      randData, lastRandData, i, valid, needReset := ZERO, ZERO, ZERO, 16, false;
      this.dt := new Byte[16](j requires 0 <= j < 16 => dt[j]);
      new;
      assert this.dt[..] == dt;
    }

    /** The loop that updates DT. */
    method Increment()
      requires dt.Length == 16
      modifies dt
      ensures dt[..] == Inc(old(dt[..]))
    {
      ghost var s := dt[..];
      var j := 15;
      while j >= 0
        invariant -1 <= j <= 15
        invariant forall m :: 0 <= m <= j ==> dt[m] == s[m]
        invariant forall m :: j < m < 16 ==> s[m] == 255 && dt[m] == 0
      {
        dt[j] := dt[j] + 1;
        if dt[j] != 0 {
          IncIs(s, j, dt[..]);
          return;
        }
        j := j - 1;
      }
      IncIs(s, -1, dt[..]);
    }

    /** _get_more_prng_bytes */
    method More(ghost seed: Seed, ghost k: nat) returns (ok: bool)
      requires At(seed, k)
      modifies this, dt
      ensures ok <==> R(seed, k) != Previous(seed, k)
      ensures ok ==> At(seed, k + 1) && valid == 0 && needReset == old(needReset)
      ensures !ok ==> needReset
    {
      var d: Block := dt[..];
      i := enc(d);
      randData := enc(Xor(i, v));
      if randData == lastRandData {
        needReset := true;
        return false;
      }
      lastRandData := randData;
      v := enc(Xor(randData, i));
      Increment();
      valid := 0;
      return true;
    }

    /** The loop at empty_rbuf: bytes of the current block, one by one.  It stops on the last byte
        asked for without stepping over it. */
    method CopyBytes(buf: array<Byte>, from: nat, want: nat, ghost seed: Seed, ghost k: nat) returns (ptr: nat, count: nat)
      requires At(seed, k) && want > 0 && from + want <= buf.Length && buf != dt
      modifies this`valid, buf
      ensures At(seed, k)
      ensures var m := if want <= 16 - old(valid) then want else 16 - old(valid);
              && ptr == from + m && count == want - m && valid == (if count == 0 then old(valid) + m - 1 else 16)
              && buf[..ptr] == old(buf[..from]) + Stream(seed, old(Cursor(k)), m) && buf[ptr..] == old(buf[ptr..])
    {
      hide After, R, Previous, Stream;
      ptr, count := from, want;
      ghost var a := valid;
      assert randData[a..a] == [];
      while valid < 16
        invariant a <= valid <= 16 && ptr == from + valid - a && count == want - (valid - a) && count > 0
        invariant buf[..ptr] == old(buf[..from]) + randData[a..valid] && buf[ptr..] == old(buf[ptr..])
      {
        ghost var b := buf[..];
        buf[ptr] := randData[valid];
        assert buf[..] == b[ptr := randData[valid]];
        OneMore(b, old(buf[..]), ptr, randData, a, valid);
        ptr := ptr + 1;
        count := count - 1;
        if count == 0 {
          BlockIsStream(seed, k, a, want);
          return;
        }
        valid := valid + 1;
      }
      BlockIsStream(seed, k, a, 16 - a);
    }

    /** One whole block. */
    method CopyBlock(buf: array<Byte>, ptr: nat, ghost seed: Seed, ghost k: nat)
      requires At(seed, k) && k > 0 && valid == 0 && ptr + 16 <= buf.Length && buf != dt
      modifies this`valid, buf
      ensures At(seed, k) && valid == 16
      ensures buf[..ptr + 16] == old(buf[..ptr]) + Stream(seed, 16 * k - 16, 16) && buf[ptr + 16..] == old(buf[ptr + 16..])
    {
      hide After, R, Previous, Stream;
      forall j | ptr <= j < ptr + 16 {
        buf[j] := randData[j - ptr];
      }
      valid := 16;
      BlockIsStream(seed, k, 0, 16);
      assert buf[ptr..ptr + 16] == randData;
      assert buf[..ptr + 16] == buf[..ptr] + buf[ptr..ptr + 16];
    }

    /** memset of the caller's buffer after a failure. */
    method Wipe(buf: array<Byte>, n: nat)
      requires n <= buf.Length
      modifies buf
      ensures forall j :: 0 <= j < n ==> buf[j] == 0
      ensures buf[n..] == old(buf[n..])
    {
      forall j | 0 <= j < n {
        buf[j] := 0;
      }
    }

    /** ptr bytes of the stream from p on are in the buffer, and the cursor is behind them. */
    ghost predicate Reading(seed: Seed, k0: nat, k: nat, p: nat, buf: array<Byte>, ptr: nat)
      reads this, dt, buf
    {
      && At(seed, k) && k0 <= k && NoRepeat(seed, k0, k) && !needReset && buf != dt
      && Cursor(k) == p + ptr && ptr <= buf.Length && buf[..ptr] == Stream(seed, p, ptr)
    }

    /** Get a new block if the current one is used up. */
    method Refill(buf: array<Byte>, ptr: nat, ghost seed: Seed, ghost k0: nat, ghost k: nat, ghost p: nat)
      returns (ok: bool, ghost k': nat)
      requires Reading(seed, k0, k, p, buf, ptr)
      modifies this, dt
      ensures ok ==> Reading(seed, k0, k', p, buf, ptr) && valid == (if old(valid) == 16 then 0 else old(valid))
      ensures !ok ==> needReset && old(valid) == 16 && k' == k && R(seed, k) == Previous(seed, k)
    {
      hide After, R, Previous, Stream;
      ok, k' := true, k;
      if valid == 16 {
        ok := More(seed, k);
        if ok {
          k' := k + 1;
        }
      }
    }

    /** CopyBytes on the way: either the block is used up, or the request is answered and the cursor is
        one byte short. */
    method CopySome(buf: array<Byte>, from: nat, want: nat, ghost seed: Seed, ghost k0: nat, ghost k: nat, ghost p: nat)
      returns (ptr: nat, count: nat)
      requires Reading(seed, k0, k, p, buf, from) && want > 0 && from + want <= buf.Length && valid < 16
      modifies this`valid, buf
      ensures ptr + count == from + want && from < ptr
      ensures count > 0 ==> Reading(seed, k0, k, p, buf, ptr) && valid == 16
      ensures count == 0 ==> At(seed, k) && k0 <= k && NoRepeat(seed, k0, k) && !needReset && buf[..ptr] == Stream(seed, p, ptr)
                             && Cursor(k) == p + ptr - 1 && valid < 16
      ensures want >= 16 && old(valid) > 0 ==> count > 0
      ensures buf[from + want..] == old(buf[from + want..])
    {
      hide After, R, Previous, Stream, NoRepeat;
      ptr, count := CopyBytes(buf, from, want, seed, k);
      StreamGrows(seed, p, from, ptr - from);
    }

    /** The loop that copies whole blocks, after the rest of the current one. */
    method WholeBlocks(buf: array<Byte>, from: nat, want: nat, ghost seed: Seed, ghost k0: nat, ghost k1: nat, ghost p: nat)
      returns (ok: bool, ptr: nat, count: nat, ghost k: nat)
      requires Reading(seed, k0, k1, p, buf, from) && from + want <= buf.Length && (want < 16 ==> valid == 16)
      modifies this, dt, buf
      ensures ok ==> Reading(seed, k0, k, p, buf, ptr) && ptr + count == from + want && count < 16 && valid == 16
      ensures ok && want >= 16 ==> count < want && (count == 0 ==> ptr >= 16)
      ensures ok && want < 16 ==> count == want
      ensures !ok ==> needReset && k0 <= k && R(seed, k) == Previous(seed, k) && 16 * k < p + from + want && NoRepeat(seed, k0, k)
      ensures buf[from + want..] == old(buf[from + want..])
    {
      hide After, R, Previous, Stream, NoRepeat;
      ok, ptr, count, k := true, from, want, k1;
      while count >= 16
        invariant Reading(seed, k0, k, p, buf, ptr) && ptr + count == from + want && count <= want
        invariant count < 16 ==> valid == 16
        invariant want >= 16 && count < 16 ==> count < want && (count == 0 ==> ptr >= 16)
        invariant buf[from + want..] == old(buf[from + want..])
        decreases count
      {
        ok, k := Refill(buf, ptr, seed, k0, k, p);
        if !ok {
          return;
        }
        ghost var at := ptr;
        if valid > 0 {
          ptr, count := CopySome(buf, ptr, count, seed, k0, k, p);
        } else {
          CopyBlock(buf, ptr, seed, k);
          StreamGrows(seed, p, at, 16);
          ptr, count := ptr + 16, count - 16;
        }
      }
    }

    /** From the label remainder to the jump back to it. */
    method Turn(buf: array<Byte>, from: nat, want: nat, ghost seed: Seed, ghost k0: nat, ghost k1: nat, ghost p: nat)
      returns (ok: bool, ptr: nat, count: nat, ghost k: nat)
      requires Reading(seed, k0, k1, p, buf, from) && want > 0 && from + want <= buf.Length && (from == 0 || valid == 16)
      modifies this, dt, buf
      ensures ok && count > 0 ==> Reading(seed, k0, k, p, buf, ptr) && ptr + count == from + want && count < want && valid == 16
      ensures ok && count == 0 ==> At(seed, k) && !needReset && buf[..from + want] == Stream(seed, p, from + want)
                                   && NoRepeat(seed, k0, k) && k == Blocks(p, from + want) && Cursor(k) == NextAt(p, from + want)
      ensures !ok ==> needReset && !NoRepeat(seed, k0, Blocks(p, from + want))
      ensures buf[from + want..] == old(buf[from + want..])
    {
      hide After, R, Previous, Stream, NoRepeat, Blocks, NextAt;
      ptr, count := from, want;
      ok, k := Refill(buf, ptr, seed, k0, k1, p);
      if !ok {
        Repeats(seed, k0, k, p, from + want);
        return;
      }
      if count < 16 {
        ptr, count := CopySome(buf, ptr, count, seed, k0, k, p);
        if count == 0 {
          EndsInside(p, from + want, from, k, valid);
          return;
        }
      }
      ok, ptr, count, k := WholeBlocks(buf, ptr, count, seed, k0, k, p);
      if !ok {
        Repeats(seed, k0, k, p, from + want);
      } else if count == 0 {
        EndsBetween(p, from + want, k);
      }
    }

    /** get_prng_bytes without the fixed-size flag.  It succeeds iff no block it needs repeats the one
        before, and then returns the n bytes of the stream from the cursor on. */
    method GetBytes(buf: array<Byte>, n: nat, ghost seed: Seed, ghost k0: nat) returns (ok: bool, ghost k: nat)
      requires At(seed, k0) && 0 < n <= buf.Length && buf != dt
      modifies this, dt, buf
      ensures old(needReset) ==> !ok && k == k0 && At(seed, k0) && buf[..] == old(buf[..]) && valid == old(valid)
      ensures !old(needReset) ==> (ok <==> NoRepeat(seed, k0, Blocks(old(Cursor(k0)), n)))
      ensures ok ==> At(seed, k) && buf[..n] == Stream(seed, old(Cursor(k0)), n) && Cursor(k) == NextAt(old(Cursor(k0)), n) && !needReset
      ensures !ok ==> needReset && (!old(needReset) ==> forall j :: 0 <= j < n ==> buf[j] == 0)
      ensures buf[n..] == old(buf[n..])
    {
      hide After, R, Previous, Stream, NoRepeat, Blocks, NextAt;
      ok, k := true, k0;
      if needReset {
        return false, k;
      }
      ghost var p := Cursor(k0);
      var ptr, count := 0, n;
      StreamGrows(seed, p, 0, 0);
      NothingRepeats(seed, k0);
      while true
        invariant Reading(seed, k0, k, p, buf, ptr) && count > 0 && ptr + count == n && (ptr == 0 || valid == 16)
        invariant buf[n..] == old(buf[n..])
        decreases count
      {
        ok, ptr, count, k := Turn(buf, ptr, count, seed, k0, k, p);
        if !ok {
          Wipe(buf, n);
          return;
        }
        if count == 0 {
          return;
        }
      }
    }
  }

  lemma NothingRepeats(seed: Seed, k: nat)
    ensures NoRepeat(seed, k, k)
  {
  }

  lemma Repeats(seed: Seed, k0: nat, k: nat, p: nat, n: nat)
    requires k0 <= k && 16 * k < p + n && R(seed, k) == Previous(seed, k)
    ensures !NoRepeat(seed, k0, Blocks(p, n))
  {
    hide R, Previous;
    assert k < Blocks(p, n);
  }

  lemma EndsInside(p: nat, n: nat, at: nat, k: nat, valid: nat)
    requires at < n && n - at < 16 && 16 * k - 16 + valid == p + n - 1 && valid < 16 && (at == 0 || (p + at) % 16 == 0)
    ensures Blocks(p, n) == k && NextAt(p, n) == p + n - 1
  {
  }

  lemma EndsBetween(p: nat, n: nat, k: nat)
    requires n >= 16 && p + n == 16 * k
    ensures Blocks(p, n) == k && NextAt(p, n) == p + n
  {
  }

  lemma StreamGrows(seed: Seed, p: nat, a: nat, b: nat)
    ensures Stream(seed, p, a) + Stream(seed, p + a, b) == Stream(seed, p, a + b)
    ensures Stream(seed, p, 0) == []
  {
    hide StreamByte;
  }

  /** Byte v of the block d written to b at ptr. */
  lemma OneMore(b: seq<Byte>, b0: seq<Byte>, ptr: nat, d: seq<Byte>, a: nat, v: nat)
    requires ptr < |b| == |b0| && a <= v < |d| && b[ptr..] == b0[ptr..]
    ensures b[ptr := d[v]][..ptr + 1] == b[..ptr] + [d[v]] && d[a..v + 1] == d[a..v] + [d[v]]
    ensures b[ptr := d[v]][ptr + 1..] == b0[ptr + 1..]
  {
    assert b[ptr..][1..] == b[ptr + 1..] && b0[ptr..][1..] == b0[ptr + 1..];
  }

  lemma BlockIsStream(seed: Seed, k: nat, a: nat, m: nat)
    requires a + m <= 16 && 16 * k + a >= 16 && (k == 0 ==> m == 0)
    ensures m > 0 ==> R(seed, k - 1)[a..a + m] == Stream(seed, 16 * k - 16 + a, m)
    ensures m == 0 ==> Stream(seed, 16 * k - 16 + a, m) == []
  {
    hide R;
    if m > 0 {
      var p := 16 * k - 16 + a;
      forall j | 0 <= j < m
        ensures R(seed, k - 1)[a..a + m][j] == Stream(seed, p, m)[j]
      {
        InBlock(seed, k, a + j);
        assert Stream(seed, p, m)[j] == StreamByte(seed, p + j);
      }
    }
  }

  lemma InBlock(seed: Seed, k: nat, a: nat)
    requires k > 0 && a < 16
    ensures StreamByte(seed, 16 * k - 16 + a) == R(seed, k - 1)[a]
  {
    hide R;
    var p := 16 * (k - 1) + a;
    assert p / 16 == k - 1 && p % 16 == a;
  }

  /** Trailing 255s become zero and the byte j before them goes up by one; j is -1 if there is none. */
  lemma {:induction false} IncIs(s: seq<Byte>, j: int, r: seq<Byte>)
    requires |r| == |s| && -1 <= j < |s| && (forall m :: j < m < |s| ==> s[m] == 255 && r[m] == 0)
    requires j >= 0 ==> s[j] + 1 != 0 && r[j] == s[j] + 1 && forall m :: 0 <= m < j ==> r[m] == s[m]
    ensures Inc(s) == r
  {
    if s != [] {
      if j == |s| - 1 {
        assert r == s[..|s| - 1] + [s[|s| - 1] + 1];
      } else {
        IncIs(s[..|s| - 1], j, r[..|s| - 1]);
        assert r == r[..|s| - 1] + [0];
      }
    }
  }
}
