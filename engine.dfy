/** The software RIPEMD-160 engine of include/boost/hash2/ripemd.hpp: the
    class `ripemd_160` with its five chaining words, its 64-byte block buffer,
    the buffered count `m_` and the 64-bit total byte count `n_`. */
module Engine {
  import opened Words
  import opened Spec

  /** The block size `N`. */
  const N: nat := 64

  /** The engine invariant on values: `h` is the chaining value folded
      over every complete block of the stream `s`, one transform per block
      (`t` of them), and the first `m` bytes of the buffer `b` are the bytes
      of `s` after its last complete block. */
  ghost predicate Holds(h: seq<word>, b: seq<byte>, m: nat, t: nat, s: seq<byte>)
  {
    && |h| == 5 && |b| == N && m < N
    && m == |s| % N && t == |s| / N
    && h == Absorb(IV, s)
    && b[..m] == s[|s| - m..]
  }

  /** Appending bytes that do not complete the partial block only extends
      the buffered bytes. */
  lemma HoldsWithin(h: seq<word>, b: seq<byte>, m: nat, t: nat, s: seq<byte>, p: seq<byte>, b': seq<byte>)
    requires Holds(h, b, m, t, s)
    requires m + |p| < N && |b'| == N && b'[..m + |p|] == b[..m] + p
    ensures Holds(h, b', m + |p|, t, s + p)
  {
    BlockCount(|s|, |p|);
    AbsorbWithinBlock(IV, s, p);
    assert (s + p)[|s + p| - (m + |p|)..] == s[|s| - m..] + p;
  }

  /** Appending bytes that complete the partial block: the full buffer is
      the next block, and compressing it leaves an empty buffer. */
  lemma HoldsCompleting(h: seq<word>, b: seq<byte>, m: nat, t: nat, s: seq<byte>, p: seq<byte>, b': seq<byte>)
    requires Holds(h, b, m, t, s)
    requires m + |p| == N && b' == b[..m] + p
    ensures Holds(CompressBlock(h, b'), b', 0, t + 1, s + p)
  {
    BlockCount(|s|, |p|);
    AbsorbCompleting(IV, s, p);
  }

  /** Appending a whole block to a stream with an empty buffer compresses
      exactly that block. */
  lemma HoldsBlock(h: seq<word>, b: seq<byte>, t: nat, s: seq<byte>, block: seq<byte>)
    requires Holds(h, b, 0, t, s) && |block| == N
    ensures Holds(CompressBlock(h, block), b, 0, t + 1, s + block)
  {
    BlockCount(|s|, N);
    AbsorbBlock(IV, s, block);
  }

  /** `n` is the 64-bit byte counter of a stream of `len` bytes. */
  ghost predicate Counts(n: nat, len: nat)
  {
    n < TWO64 && n == len % TWO64
  }

  /** The counter and the true length agree modulo the block size. */
  lemma CountsBlock(n: nat, len: nat)
    requires Counts(n, len)
    ensures n % N == len % N
  {
    ModBlock(len);
  }

  /** Feeding `k` more bytes advances the counter modulo 2^64. */
  lemma CountsAdd(n: nat, len: nat, k: nat)
    requires Counts(n, len)
    ensures Counts((n + k) % TWO64, len + k)
    ensures (n + k) % TWO64 == (len + k) % TWO64
  {
    ModAdd(len, k);
  }

  /** The bit count `result` encodes, the counter times 8 wrapped to 64
      bits, is the bit length of the stream. */
  lemma CountsBits(n: nat, len: nat)
    requires Counts(n, len)
    ensures BitLength(n) == BitLength(len)
  {
    ModTimes8(len);
  }

  /** The counter once a non-empty stream of `len` bytes has been padded:
      a multiple of the block size, and not zero unless the padded length
      reaches 2^64. */
  lemma SeedCount(len: nat)
    ensures (len + |PaddingBytes(len)|) % TWO64 % N == 0
    ensures 0 < len < TWO64 - 72 ==> (len + |PaddingBytes(len)|) % TWO64 > 0
  {
    ModBlock(len + |PaddingBytes(len)|);
  }

  /** An eight-byte seed pads to exactly one block. */
  lemma SeedCounter(len: nat)
    requires len < 56
    ensures (len + |PaddingBytes(len)|) % TWO64 == 64
  {
    assert len % 64 == len;
  }

  /** What the two `update` calls of `result` add up to: the padding of
      the stream, counted modulo 2^64, ending on a block boundary. */
  lemma PadFacts(s0: seq<byte>, n0: nat, q: seq<byte>, bits: seq<byte>, s1: seq<byte>, s: seq<byte>, n: nat)
    requires Counts(n0, |s0|) && Counts(n, |s|)
    requires q == PadBlock()[..PadLength(|s0| % 64)] && bits == Encode64LE(BitLength(|s0|))
    requires s1 == s0 + q && s == s1 + bits
    ensures s == s0 + PaddingBytes(|s0|)
    ensures n == (n0 + |PaddingBytes(|s0|)|) % TWO64
    ensures n % N == 0
  {
    PaddingInTwo(s0);
    CountsAdd(n0, |s0|, |PaddingBytes(|s0|)|);
    CountsBlock(n, |s|);
  }

  class Ripemd160 {
    /** `state_`: the chaining value. */
    const state: array<word>
    /** `buffer_`: the bytes of the current partial block. */
    const buffer: array<byte>
    /** `m_`: how many bytes of `buffer` are in use. */
    var m: nat
    /** `n_`: the number of bytes fed so far, modulo 2^64. */
    var n: nat
    /** Every byte fed through `Update` so far, padding included. */
    ghost var stream: seq<byte>
    /** How many times `Transform` has run on this engine. */
    ghost var blocks: nat

    /** The chaining value is the initial value folded over every complete
        block of the stream, one transform per block, and the buffer holds
        the bytes after the last complete block. */
    ghost predicate Absorbed()
      reads this, state, buffer
    {
      state.Length == 5 && Holds(state[..], buffer[..], m, blocks, stream)
    }

    /** The engine invariant: the stream is absorbed, and the byte counter
        is its length modulo 2^64, so the two counters agree. */
    ghost predicate Valid()
      reads this, state, buffer
      ensures Valid() ==> m == n % N
    {
      && Absorbed()
      && Counts(n, |stream|)
      && (CountsBlock(n, |stream|); true)
    }

    /** The default constructor: nothing fed yet, and the chaining value
        is the initial value. */
    constructor()
      ensures Valid() && stream == [] && n == 0 && m == 0
      ensures state[..] == IV
      ensures fresh(state) && fresh(buffer)
    {
      state := new word[5];
      buffer := new byte[N];
      m, n, stream, blocks := 0, 0, [], 0;
      new;
      Init();
    }

    /** The seeded constructor: a zero seed leaves the default engine; any
        other seed is fed as eight little-endian bytes and finished with
        `result`, so the chaining value is the digest of those bytes and
        the counter, never reset, stays at one block. */
    constructor Seeded(seed: bv64)
      ensures Valid()
      ensures seed == 0 ==> stream == [] && n == 0 && state[..] == IV
      ensures seed != 0 ==> stream == Encode64LE(seed) + PaddingBytes(|Encode64LE(seed)|)
      ensures seed != 0 ==> n == 64 && m == 0
      ensures seed != 0 ==> Serialize(state[..]) == Spec.Ripemd160(Encode64LE(seed))
    {
      state := new word[5];
      buffer := new byte[N];
      m, n, stream, blocks := 0, 0, [], 0;
      new;
      Init();
      if seed != 0 {
        var tmp := Encode64LE(seed);
        Finish(tmp);
        SeedCounter(|tmp|);
      }
    }

    /** The byte-seeded constructor: empty bytes leave the default engine;
        otherwise they are fed and finished with `result`, so the chaining
        value is their digest and the counter a multiple of the block
        size. */
    constructor FromBytes(p: seq<byte>)
      ensures Valid()
      ensures |p| == 0 ==> stream == [] && n == 0 && state[..] == IV
      ensures |p| > 0 ==> stream == p + PaddingBytes(|p|) && m == 0 && n % N == 0
      ensures |p| > 0 ==> n == (|p| + |PaddingBytes(|p|)|) % TWO64
      ensures |p| > 0 ==> Serialize(state[..]) == Spec.Ripemd160(p)
      ensures 0 < |p| < TWO64 - 72 ==> n > 0
    {
      state := new word[5];
      buffer := new byte[N];
      m, n, stream, blocks := 0, 0, [], 0;
      new;
      Init();
      if |p| != 0 {
        Finish(p);
        SeedCount(|p|);
      }
    }

    /** What both seeding constructors do with a non-empty seed: `update`
        with it, then `result`, discarding the digest. */
    method Finish(p: seq<byte>)
      requires Valid() && stream == [] && n == 0
      modifies this, buffer, state
      ensures Valid() && m == 0
      ensures stream == p + PaddingBytes(|p|)
      ensures n == (|p| + |PaddingBytes(|p|)|) % TWO64
      ensures Serialize(state[..]) == Spec.Ripemd160(p)
    {
      Update(p);
      assert stream == p;
      var digest := Result();
    }

    /** `init`: load the initial chaining value. */
    method Init()
      requires state.Length == 5
      modifies state
      ensures state[..] == IV
    {
      state[0] := 0x67452301;
      state[1] := 0xefcdab89;
      state[2] := 0x98badcfe;
      state[3] := 0x10325476;
      state[4] := 0xc3d2e1f0;
    }


    /** `R1` updates `a` and `c` in place; read with the roles the next call
        gives them, that is one step of round 1 of the left lane. */
    static method R1(a: word, b: word, c: word, d: word, e: word, x: word, s: Shift) returns (a': word, c': word)
      ensures Regs(e, a', b, c', d) == Step(Regs(a, b, c, d, e), RoundFn(Left, 0), RoundK(Left, 0), x, s)
    {
      a' := a + (F1(b, c, d) + x);
      StepSumGrouped(a, F1(b, c, d), x, KL0, a');
      NewBFromSum(a, F1(b, c, d), x, KL0, s, e, a');
      a' := Rotl(a', s) + e;
      c' := Rotl(c, 10);
    }

    /** `R2` updates `a` and `c` in place; read with the roles the next call
        gives them, that is one step of round 2 of the left lane. */
    static method R2(a: word, b: word, c: word, d: word, e: word, x: word, s: Shift) returns (a': word, c': word)
      ensures Regs(e, a', b, c', d) == Step(Regs(a, b, c, d, e), RoundFn(Left, 1), RoundK(Left, 1), x, s)
    {
      a' := a + (F2(b, c, d) + x + KL1);
      StepSumGrouped(a, F2(b, c, d), x, KL1, a');
      NewBFromSum(a, F2(b, c, d), x, KL1, s, e, a');
      a' := Rotl(a', s) + e;
      c' := Rotl(c, 10);
    }

    /** `R3` updates `a` and `c` in place; read with the roles the next call
        gives them, that is one step of round 3 of the left lane. */
    static method R3(a: word, b: word, c: word, d: word, e: word, x: word, s: Shift) returns (a': word, c': word)
      ensures Regs(e, a', b, c', d) == Step(Regs(a, b, c, d, e), RoundFn(Left, 2), RoundK(Left, 2), x, s)
    {
      a' := a + (F3(b, c, d) + x + KL2);
      StepSumGrouped(a, F3(b, c, d), x, KL2, a');
      NewBFromSum(a, F3(b, c, d), x, KL2, s, e, a');
      a' := Rotl(a', s) + e;
      c' := Rotl(c, 10);
    }

    /** `R4` updates `a` and `c` in place; read with the roles the next call
        gives them, that is one step of round 4 of the left lane. */
    static method R4(a: word, b: word, c: word, d: word, e: word, x: word, s: Shift) returns (a': word, c': word)
      ensures Regs(e, a', b, c', d) == Step(Regs(a, b, c, d, e), RoundFn(Left, 3), RoundK(Left, 3), x, s)
    {
      a' := a + (F4(b, c, d) + x + KL3);
      StepSumGrouped(a, F4(b, c, d), x, KL3, a');
      NewBFromSum(a, F4(b, c, d), x, KL3, s, e, a');
      a' := Rotl(a', s) + e;
      c' := Rotl(c, 10);
    }

    /** `R5` updates `a` and `c` in place; read with the roles the next call
        gives them, that is one step of round 5 of the left lane. */
    static method R5(a: word, b: word, c: word, d: word, e: word, x: word, s: Shift) returns (a': word, c': word)
      ensures Regs(e, a', b, c', d) == Step(Regs(a, b, c, d, e), RoundFn(Left, 4), RoundK(Left, 4), x, s)
    {
      a' := a + (F5(b, c, d) + x + KL4);
      StepSumGrouped(a, F5(b, c, d), x, KL4, a');
      NewBFromSum(a, F5(b, c, d), x, KL4, s, e, a');
      a' := Rotl(a', s) + e;
      c' := Rotl(c, 10);
    }

    /** `RR1` updates `a` and `c` in place; read with the roles the next call
        gives them, that is one step of round 1 of the right lane. */
    static method RR1(a: word, b: word, c: word, d: word, e: word, x: word, s: Shift) returns (a': word, c': word)
      ensures Regs(e, a', b, c', d) == Step(Regs(a, b, c, d, e), RoundFn(Right, 0), RoundK(Right, 0), x, s)
    {
      a' := a + (F5(b, c, d) + x + KR0);
      StepSumGrouped(a, F5(b, c, d), x, KR0, a');
      NewBFromSum(a, F5(b, c, d), x, KR0, s, e, a');
      a' := Rotl(a', s) + e;
      c' := Rotl(c, 10);
    }

    /** `RR2` updates `a` and `c` in place; read with the roles the next call
        gives them, that is one step of round 2 of the right lane. */
    static method RR2(a: word, b: word, c: word, d: word, e: word, x: word, s: Shift) returns (a': word, c': word)
      ensures Regs(e, a', b, c', d) == Step(Regs(a, b, c, d, e), RoundFn(Right, 1), RoundK(Right, 1), x, s)
    {
      a' := a + (F4(b, c, d) + x + KR1);
      StepSumGrouped(a, F4(b, c, d), x, KR1, a');
      NewBFromSum(a, F4(b, c, d), x, KR1, s, e, a');
      a' := Rotl(a', s) + e;
      c' := Rotl(c, 10);
    }

    /** `RR3` updates `a` and `c` in place; read with the roles the next call
        gives them, that is one step of round 3 of the right lane. */
    static method RR3(a: word, b: word, c: word, d: word, e: word, x: word, s: Shift) returns (a': word, c': word)
      ensures Regs(e, a', b, c', d) == Step(Regs(a, b, c, d, e), RoundFn(Right, 2), RoundK(Right, 2), x, s)
    {
      a' := a + (F3(b, c, d) + x + KR2);
      StepSumGrouped(a, F3(b, c, d), x, KR2, a');
      NewBFromSum(a, F3(b, c, d), x, KR2, s, e, a');
      a' := Rotl(a', s) + e;
      c' := Rotl(c, 10);
    }

    /** `RR4` updates `a` and `c` in place; read with the roles the next call
        gives them, that is one step of round 4 of the right lane. */
    static method RR4(a: word, b: word, c: word, d: word, e: word, x: word, s: Shift) returns (a': word, c': word)
      ensures Regs(e, a', b, c', d) == Step(Regs(a, b, c, d, e), RoundFn(Right, 3), RoundK(Right, 3), x, s)
    {
      a' := a + (F2(b, c, d) + x + KR3);
      StepSumGrouped(a, F2(b, c, d), x, KR3, a');
      NewBFromSum(a, F2(b, c, d), x, KR3, s, e, a');
      a' := Rotl(a', s) + e;
      c' := Rotl(c, 10);
    }

    /** `RR5` updates `a` and `c` in place; read with the roles the next call
        gives them, that is one step of round 5 of the right lane. */
    static method RR5(a: word, b: word, c: word, d: word, e: word, x: word, s: Shift) returns (a': word, c': word)
      ensures Regs(e, a', b, c', d) == Step(Regs(a, b, c, d, e), RoundFn(Right, 4), RoundK(Right, 4), x, s)
    {
      a' := a + (F1(b, c, d) + x);
      StepSumGrouped(a, F1(b, c, d), x, KR4, a');
      NewBFromSum(a, F1(b, c, d), x, KR4, s, e, a');
      a' := Rotl(a', s) + e;
      c' := Rotl(c, 10);
    }
    /** Steps 0..7 of round 1 of the left lane: eight of the
        unrolled `R1` calls, in order and with their literal word indices
        and rotations. */
    static method LeftRound1Head(r: Regs, X: seq<word>) returns (r': Regs)
      requires |X| == 16
      ensures Advances(r, r', X, Left, 0, 0, 8)
    {
      var aa, bb, cc, dd, ee := r.a, r.b, r.c, r.d, r.e;
      ghost var q := r;
      aa, cc := R1(aa, bb, cc, dd, ee, X[0], 11);
      StepAdvances(X, Left, 0, 0, 0, 11, q, Regs(ee, aa, bb, cc, dd));
      q := Regs(ee, aa, bb, cc, dd);
      ee, bb := R1(ee, aa, bb, cc, dd, X[1], 14);
      StepAdvances(X, Left, 0, 1, 1, 14, q, Regs(dd, ee, aa, bb, cc));
      q := Regs(dd, ee, aa, bb, cc);
      dd, aa := R1(dd, ee, aa, bb, cc, X[2], 15);
      StepAdvances(X, Left, 0, 2, 2, 15, q, Regs(cc, dd, ee, aa, bb));
      q := Regs(cc, dd, ee, aa, bb);
      cc, ee := R1(cc, dd, ee, aa, bb, X[3], 12);
      StepAdvances(X, Left, 0, 3, 3, 12, q, Regs(bb, cc, dd, ee, aa));
      q := Regs(bb, cc, dd, ee, aa);
      bb, dd := R1(bb, cc, dd, ee, aa, X[4], 5);
      StepAdvances(X, Left, 0, 4, 4, 5, q, Regs(aa, bb, cc, dd, ee));
      q := Regs(aa, bb, cc, dd, ee);
      aa, cc := R1(aa, bb, cc, dd, ee, X[5], 8);
      StepAdvances(X, Left, 0, 5, 5, 8, q, Regs(ee, aa, bb, cc, dd));
      q := Regs(ee, aa, bb, cc, dd);
      ee, bb := R1(ee, aa, bb, cc, dd, X[6], 7);
      StepAdvances(X, Left, 0, 6, 6, 7, q, Regs(dd, ee, aa, bb, cc));
      q := Regs(dd, ee, aa, bb, cc);
      dd, aa := R1(dd, ee, aa, bb, cc, X[7], 9);
      StepAdvances(X, Left, 0, 7, 7, 9, q, Regs(cc, dd, ee, aa, bb));
      r' := Regs(cc, dd, ee, aa, bb);
    }

    /** Steps 8..15 of round 1 of the left lane: eight of the
        unrolled `R1` calls, in order and with their literal word indices
        and rotations. */
    static method LeftRound1Tail(r: Regs, X: seq<word>) returns (r': Regs)
      requires |X| == 16
      ensures Advances(r, r', X, Left, 0, 8, 8)
    {
      var cc, dd, ee, aa, bb := r.a, r.b, r.c, r.d, r.e;
      ghost var q := r;
      cc, ee := R1(cc, dd, ee, aa, bb, X[8], 11);
      StepAdvances(X, Left, 0, 8, 8, 11, q, Regs(bb, cc, dd, ee, aa));
      q := Regs(bb, cc, dd, ee, aa);
      bb, dd := R1(bb, cc, dd, ee, aa, X[9], 13);
      StepAdvances(X, Left, 0, 9, 9, 13, q, Regs(aa, bb, cc, dd, ee));
      q := Regs(aa, bb, cc, dd, ee);
      aa, cc := R1(aa, bb, cc, dd, ee, X[10], 14);
      StepAdvances(X, Left, 0, 10, 10, 14, q, Regs(ee, aa, bb, cc, dd));
      q := Regs(ee, aa, bb, cc, dd);
      ee, bb := R1(ee, aa, bb, cc, dd, X[11], 15);
      StepAdvances(X, Left, 0, 11, 11, 15, q, Regs(dd, ee, aa, bb, cc));
      q := Regs(dd, ee, aa, bb, cc);
      dd, aa := R1(dd, ee, aa, bb, cc, X[12], 6);
      StepAdvances(X, Left, 0, 12, 12, 6, q, Regs(cc, dd, ee, aa, bb));
      q := Regs(cc, dd, ee, aa, bb);
      cc, ee := R1(cc, dd, ee, aa, bb, X[13], 7);
      StepAdvances(X, Left, 0, 13, 13, 7, q, Regs(bb, cc, dd, ee, aa));
      q := Regs(bb, cc, dd, ee, aa);
      bb, dd := R1(bb, cc, dd, ee, aa, X[14], 9);
      StepAdvances(X, Left, 0, 14, 14, 9, q, Regs(aa, bb, cc, dd, ee));
      q := Regs(aa, bb, cc, dd, ee);
      aa, cc := R1(aa, bb, cc, dd, ee, X[15], 8);
      StepAdvances(X, Left, 0, 15, 15, 8, q, Regs(ee, aa, bb, cc, dd));
      r' := Regs(ee, aa, bb, cc, dd);
    }

    /** Round 1 of the left lane: its sixteen unrolled `R1` calls. */
    static method LeftRound1(r: Regs, X: seq<word>) returns (r': Regs)
      requires |X| == 16
      ensures r' == Round(r, X, Left, 0)
    {
      var mid := LeftRound1Head(r, X);
      r' := LeftRound1Tail(mid, X);
      AdvancesTrans(X, Left, 0, 0, 8, 8, r, mid, r');
      RoundAdvances(X, Left, 0, r, r');
    }

    /** Steps 0..7 of round 1 of the right lane: eight of the
        unrolled `RR1` calls, in order and with their literal word indices
        and rotations. */
    static method RightRound1Head(r: Regs, X: seq<word>) returns (r': Regs)
      requires |X| == 16
      ensures Advances(r, r', X, Right, 0, 0, 8)
    {
      var aaa, bbb, ccc, ddd, eee := r.a, r.b, r.c, r.d, r.e;
      ghost var q := r;
      aaa, ccc := RR1(aaa, bbb, ccc, ddd, eee, X[5], 8);
      StepAdvances(X, Right, 0, 0, 5, 8, q, Regs(eee, aaa, bbb, ccc, ddd));
      q := Regs(eee, aaa, bbb, ccc, ddd);
      eee, bbb := RR1(eee, aaa, bbb, ccc, ddd, X[14], 9);
      StepAdvances(X, Right, 0, 1, 14, 9, q, Regs(ddd, eee, aaa, bbb, ccc));
      q := Regs(ddd, eee, aaa, bbb, ccc);
      ddd, aaa := RR1(ddd, eee, aaa, bbb, ccc, X[7], 9);
      StepAdvances(X, Right, 0, 2, 7, 9, q, Regs(ccc, ddd, eee, aaa, bbb));
      q := Regs(ccc, ddd, eee, aaa, bbb);
      ccc, eee := RR1(ccc, ddd, eee, aaa, bbb, X[0], 11);
      StepAdvances(X, Right, 0, 3, 0, 11, q, Regs(bbb, ccc, ddd, eee, aaa));
      q := Regs(bbb, ccc, ddd, eee, aaa);
      bbb, ddd := RR1(bbb, ccc, ddd, eee, aaa, X[9], 13);
      StepAdvances(X, Right, 0, 4, 9, 13, q, Regs(aaa, bbb, ccc, ddd, eee));
      q := Regs(aaa, bbb, ccc, ddd, eee);
      aaa, ccc := RR1(aaa, bbb, ccc, ddd, eee, X[2], 15);
      StepAdvances(X, Right, 0, 5, 2, 15, q, Regs(eee, aaa, bbb, ccc, ddd));
      q := Regs(eee, aaa, bbb, ccc, ddd);
      eee, bbb := RR1(eee, aaa, bbb, ccc, ddd, X[11], 15);
      StepAdvances(X, Right, 0, 6, 11, 15, q, Regs(ddd, eee, aaa, bbb, ccc));
      q := Regs(ddd, eee, aaa, bbb, ccc);
      ddd, aaa := RR1(ddd, eee, aaa, bbb, ccc, X[4], 5);
      StepAdvances(X, Right, 0, 7, 4, 5, q, Regs(ccc, ddd, eee, aaa, bbb));
      r' := Regs(ccc, ddd, eee, aaa, bbb);
    }

    /** Steps 8..15 of round 1 of the right lane: eight of the
        unrolled `RR1` calls, in order and with their literal word indices
        and rotations. */
    static method RightRound1Tail(r: Regs, X: seq<word>) returns (r': Regs)
      requires |X| == 16
      ensures Advances(r, r', X, Right, 0, 8, 8)
    {
      var ccc, ddd, eee, aaa, bbb := r.a, r.b, r.c, r.d, r.e;
      ghost var q := r;
      ccc, eee := RR1(ccc, ddd, eee, aaa, bbb, X[13], 7);
      StepAdvances(X, Right, 0, 8, 13, 7, q, Regs(bbb, ccc, ddd, eee, aaa));
      q := Regs(bbb, ccc, ddd, eee, aaa);
      bbb, ddd := RR1(bbb, ccc, ddd, eee, aaa, X[6], 7);
      StepAdvances(X, Right, 0, 9, 6, 7, q, Regs(aaa, bbb, ccc, ddd, eee));
      q := Regs(aaa, bbb, ccc, ddd, eee);
      aaa, ccc := RR1(aaa, bbb, ccc, ddd, eee, X[15], 8);
      StepAdvances(X, Right, 0, 10, 15, 8, q, Regs(eee, aaa, bbb, ccc, ddd));
      q := Regs(eee, aaa, bbb, ccc, ddd);
      eee, bbb := RR1(eee, aaa, bbb, ccc, ddd, X[8], 11);
      StepAdvances(X, Right, 0, 11, 8, 11, q, Regs(ddd, eee, aaa, bbb, ccc));
      q := Regs(ddd, eee, aaa, bbb, ccc);
      ddd, aaa := RR1(ddd, eee, aaa, bbb, ccc, X[1], 14);
      StepAdvances(X, Right, 0, 12, 1, 14, q, Regs(ccc, ddd, eee, aaa, bbb));
      q := Regs(ccc, ddd, eee, aaa, bbb);
      ccc, eee := RR1(ccc, ddd, eee, aaa, bbb, X[10], 14);
      StepAdvances(X, Right, 0, 13, 10, 14, q, Regs(bbb, ccc, ddd, eee, aaa));
      q := Regs(bbb, ccc, ddd, eee, aaa);
      bbb, ddd := RR1(bbb, ccc, ddd, eee, aaa, X[3], 12);
      StepAdvances(X, Right, 0, 14, 3, 12, q, Regs(aaa, bbb, ccc, ddd, eee));
      q := Regs(aaa, bbb, ccc, ddd, eee);
      aaa, ccc := RR1(aaa, bbb, ccc, ddd, eee, X[12], 6);
      StepAdvances(X, Right, 0, 15, 12, 6, q, Regs(eee, aaa, bbb, ccc, ddd));
      r' := Regs(eee, aaa, bbb, ccc, ddd);
    }

    /** Round 1 of the right lane: its sixteen unrolled `RR1` calls. */
    static method RightRound1(r: Regs, X: seq<word>) returns (r': Regs)
      requires |X| == 16
      ensures r' == Round(r, X, Right, 0)
    {
      var mid := RightRound1Head(r, X);
      r' := RightRound1Tail(mid, X);
      AdvancesTrans(X, Right, 0, 0, 8, 8, r, mid, r');
      RoundAdvances(X, Right, 0, r, r');
    }

    /** Steps 0..7 of round 2 of the left lane: eight of the
        unrolled `R2` calls, in order and with their literal word indices
        and rotations. */
    static method LeftRound2Head(r: Regs, X: seq<word>) returns (r': Regs)
      requires |X| == 16
      ensures Advances(r, r', X, Left, 1, 0, 8)
    {
      var ee, aa, bb, cc, dd := r.a, r.b, r.c, r.d, r.e;
      ghost var q := r;
      ee, bb := R2(ee, aa, bb, cc, dd, X[7], 7);
      StepAdvances(X, Left, 1, 0, 7, 7, q, Regs(dd, ee, aa, bb, cc));
      q := Regs(dd, ee, aa, bb, cc);
      dd, aa := R2(dd, ee, aa, bb, cc, X[4], 6);
      StepAdvances(X, Left, 1, 1, 4, 6, q, Regs(cc, dd, ee, aa, bb));
      q := Regs(cc, dd, ee, aa, bb);
      cc, ee := R2(cc, dd, ee, aa, bb, X[13], 8);
      StepAdvances(X, Left, 1, 2, 13, 8, q, Regs(bb, cc, dd, ee, aa));
      q := Regs(bb, cc, dd, ee, aa);
      bb, dd := R2(bb, cc, dd, ee, aa, X[1], 13);
      StepAdvances(X, Left, 1, 3, 1, 13, q, Regs(aa, bb, cc, dd, ee));
      q := Regs(aa, bb, cc, dd, ee);
      aa, cc := R2(aa, bb, cc, dd, ee, X[10], 11);
      StepAdvances(X, Left, 1, 4, 10, 11, q, Regs(ee, aa, bb, cc, dd));
      q := Regs(ee, aa, bb, cc, dd);
      ee, bb := R2(ee, aa, bb, cc, dd, X[6], 9);
      StepAdvances(X, Left, 1, 5, 6, 9, q, Regs(dd, ee, aa, bb, cc));
      q := Regs(dd, ee, aa, bb, cc);
      dd, aa := R2(dd, ee, aa, bb, cc, X[15], 7);
      StepAdvances(X, Left, 1, 6, 15, 7, q, Regs(cc, dd, ee, aa, bb));
      q := Regs(cc, dd, ee, aa, bb);
      cc, ee := R2(cc, dd, ee, aa, bb, X[3], 15);
      StepAdvances(X, Left, 1, 7, 3, 15, q, Regs(bb, cc, dd, ee, aa));
      r' := Regs(bb, cc, dd, ee, aa);
    }

    /** Steps 8..15 of round 2 of the left lane: eight of the
        unrolled `R2` calls, in order and with their literal word indices
        and rotations. */
    static method LeftRound2Tail(r: Regs, X: seq<word>) returns (r': Regs)
      requires |X| == 16
      ensures Advances(r, r', X, Left, 1, 8, 8)
    {
      var bb, cc, dd, ee, aa := r.a, r.b, r.c, r.d, r.e;
      ghost var q := r;
      bb, dd := R2(bb, cc, dd, ee, aa, X[12], 7);
      StepAdvances(X, Left, 1, 8, 12, 7, q, Regs(aa, bb, cc, dd, ee));
      q := Regs(aa, bb, cc, dd, ee);
      aa, cc := R2(aa, bb, cc, dd, ee, X[0], 12);
      StepAdvances(X, Left, 1, 9, 0, 12, q, Regs(ee, aa, bb, cc, dd));
      q := Regs(ee, aa, bb, cc, dd);
      ee, bb := R2(ee, aa, bb, cc, dd, X[9], 15);
      StepAdvances(X, Left, 1, 10, 9, 15, q, Regs(dd, ee, aa, bb, cc));
      q := Regs(dd, ee, aa, bb, cc);
      dd, aa := R2(dd, ee, aa, bb, cc, X[5], 9);
      StepAdvances(X, Left, 1, 11, 5, 9, q, Regs(cc, dd, ee, aa, bb));
      q := Regs(cc, dd, ee, aa, bb);
      cc, ee := R2(cc, dd, ee, aa, bb, X[2], 11);
      StepAdvances(X, Left, 1, 12, 2, 11, q, Regs(bb, cc, dd, ee, aa));
      q := Regs(bb, cc, dd, ee, aa);
      bb, dd := R2(bb, cc, dd, ee, aa, X[14], 7);
      StepAdvances(X, Left, 1, 13, 14, 7, q, Regs(aa, bb, cc, dd, ee));
      q := Regs(aa, bb, cc, dd, ee);
      aa, cc := R2(aa, bb, cc, dd, ee, X[11], 13);
      StepAdvances(X, Left, 1, 14, 11, 13, q, Regs(ee, aa, bb, cc, dd));
      q := Regs(ee, aa, bb, cc, dd);
      ee, bb := R2(ee, aa, bb, cc, dd, X[8], 12);
      StepAdvances(X, Left, 1, 15, 8, 12, q, Regs(dd, ee, aa, bb, cc));
      r' := Regs(dd, ee, aa, bb, cc);
    }

    /** Round 2 of the left lane: its sixteen unrolled `R2` calls. */
    static method LeftRound2(r: Regs, X: seq<word>) returns (r': Regs)
      requires |X| == 16
      ensures r' == Round(r, X, Left, 1)
    {
      var mid := LeftRound2Head(r, X);
      r' := LeftRound2Tail(mid, X);
      AdvancesTrans(X, Left, 1, 0, 8, 8, r, mid, r');
      RoundAdvances(X, Left, 1, r, r');
    }

    /** Steps 0..7 of round 2 of the right lane: eight of the
        unrolled `RR2` calls, in order and with their literal word indices
        and rotations. */
    static method RightRound2Head(r: Regs, X: seq<word>) returns (r': Regs)
      requires |X| == 16
      ensures Advances(r, r', X, Right, 1, 0, 8)
    {
      var eee, aaa, bbb, ccc, ddd := r.a, r.b, r.c, r.d, r.e;
      ghost var q := r;
      eee, bbb := RR2(eee, aaa, bbb, ccc, ddd, X[6], 9);
      StepAdvances(X, Right, 1, 0, 6, 9, q, Regs(ddd, eee, aaa, bbb, ccc));
      q := Regs(ddd, eee, aaa, bbb, ccc);
      ddd, aaa := RR2(ddd, eee, aaa, bbb, ccc, X[11], 13);
      StepAdvances(X, Right, 1, 1, 11, 13, q, Regs(ccc, ddd, eee, aaa, bbb));
      q := Regs(ccc, ddd, eee, aaa, bbb);
      ccc, eee := RR2(ccc, ddd, eee, aaa, bbb, X[3], 15);
      StepAdvances(X, Right, 1, 2, 3, 15, q, Regs(bbb, ccc, ddd, eee, aaa));
      q := Regs(bbb, ccc, ddd, eee, aaa);
      bbb, ddd := RR2(bbb, ccc, ddd, eee, aaa, X[7], 7);
      StepAdvances(X, Right, 1, 3, 7, 7, q, Regs(aaa, bbb, ccc, ddd, eee));
      q := Regs(aaa, bbb, ccc, ddd, eee);
      aaa, ccc := RR2(aaa, bbb, ccc, ddd, eee, X[0], 12);
      StepAdvances(X, Right, 1, 4, 0, 12, q, Regs(eee, aaa, bbb, ccc, ddd));
      q := Regs(eee, aaa, bbb, ccc, ddd);
      eee, bbb := RR2(eee, aaa, bbb, ccc, ddd, X[13], 8);
      StepAdvances(X, Right, 1, 5, 13, 8, q, Regs(ddd, eee, aaa, bbb, ccc));
      q := Regs(ddd, eee, aaa, bbb, ccc);
      ddd, aaa := RR2(ddd, eee, aaa, bbb, ccc, X[5], 9);
      StepAdvances(X, Right, 1, 6, 5, 9, q, Regs(ccc, ddd, eee, aaa, bbb));
      q := Regs(ccc, ddd, eee, aaa, bbb);
      ccc, eee := RR2(ccc, ddd, eee, aaa, bbb, X[10], 11);
      StepAdvances(X, Right, 1, 7, 10, 11, q, Regs(bbb, ccc, ddd, eee, aaa));
      r' := Regs(bbb, ccc, ddd, eee, aaa);
    }

    /** Steps 8..15 of round 2 of the right lane: eight of the
        unrolled `RR2` calls, in order and with their literal word indices
        and rotations. */
    static method RightRound2Tail(r: Regs, X: seq<word>) returns (r': Regs)
      requires |X| == 16
      ensures Advances(r, r', X, Right, 1, 8, 8)
    {
      var bbb, ccc, ddd, eee, aaa := r.a, r.b, r.c, r.d, r.e;
      ghost var q := r;
      bbb, ddd := RR2(bbb, ccc, ddd, eee, aaa, X[14], 7);
      StepAdvances(X, Right, 1, 8, 14, 7, q, Regs(aaa, bbb, ccc, ddd, eee));
      q := Regs(aaa, bbb, ccc, ddd, eee);
      aaa, ccc := RR2(aaa, bbb, ccc, ddd, eee, X[15], 7);
      StepAdvances(X, Right, 1, 9, 15, 7, q, Regs(eee, aaa, bbb, ccc, ddd));
      q := Regs(eee, aaa, bbb, ccc, ddd);
      eee, bbb := RR2(eee, aaa, bbb, ccc, ddd, X[8], 12);
      StepAdvances(X, Right, 1, 10, 8, 12, q, Regs(ddd, eee, aaa, bbb, ccc));
      q := Regs(ddd, eee, aaa, bbb, ccc);
      ddd, aaa := RR2(ddd, eee, aaa, bbb, ccc, X[12], 7);
      StepAdvances(X, Right, 1, 11, 12, 7, q, Regs(ccc, ddd, eee, aaa, bbb));
      q := Regs(ccc, ddd, eee, aaa, bbb);
      ccc, eee := RR2(ccc, ddd, eee, aaa, bbb, X[4], 6);
      StepAdvances(X, Right, 1, 12, 4, 6, q, Regs(bbb, ccc, ddd, eee, aaa));
      q := Regs(bbb, ccc, ddd, eee, aaa);
      bbb, ddd := RR2(bbb, ccc, ddd, eee, aaa, X[9], 15);
      StepAdvances(X, Right, 1, 13, 9, 15, q, Regs(aaa, bbb, ccc, ddd, eee));
      q := Regs(aaa, bbb, ccc, ddd, eee);
      aaa, ccc := RR2(aaa, bbb, ccc, ddd, eee, X[1], 13);
      StepAdvances(X, Right, 1, 14, 1, 13, q, Regs(eee, aaa, bbb, ccc, ddd));
      q := Regs(eee, aaa, bbb, ccc, ddd);
      eee, bbb := RR2(eee, aaa, bbb, ccc, ddd, X[2], 11);
      StepAdvances(X, Right, 1, 15, 2, 11, q, Regs(ddd, eee, aaa, bbb, ccc));
      r' := Regs(ddd, eee, aaa, bbb, ccc);
    }

    /** Round 2 of the right lane: its sixteen unrolled `RR2` calls. */
    static method RightRound2(r: Regs, X: seq<word>) returns (r': Regs)
      requires |X| == 16
      ensures r' == Round(r, X, Right, 1)
    {
      var mid := RightRound2Head(r, X);
      r' := RightRound2Tail(mid, X);
      AdvancesTrans(X, Right, 1, 0, 8, 8, r, mid, r');
      RoundAdvances(X, Right, 1, r, r');
    }

    /** Steps 0..7 of round 3 of the left lane: eight of the
        unrolled `R3` calls, in order and with their literal word indices
        and rotations. */
    static method LeftRound3Head(r: Regs, X: seq<word>) returns (r': Regs)
      requires |X| == 16
      ensures Advances(r, r', X, Left, 2, 0, 8)
    {
      var dd, ee, aa, bb, cc := r.a, r.b, r.c, r.d, r.e;
      ghost var q := r;
      dd, aa := R3(dd, ee, aa, bb, cc, X[3], 11);
      StepAdvances(X, Left, 2, 0, 3, 11, q, Regs(cc, dd, ee, aa, bb));
      q := Regs(cc, dd, ee, aa, bb);
      cc, ee := R3(cc, dd, ee, aa, bb, X[10], 13);
      StepAdvances(X, Left, 2, 1, 10, 13, q, Regs(bb, cc, dd, ee, aa));
      q := Regs(bb, cc, dd, ee, aa);
      bb, dd := R3(bb, cc, dd, ee, aa, X[14], 6);
      StepAdvances(X, Left, 2, 2, 14, 6, q, Regs(aa, bb, cc, dd, ee));
      q := Regs(aa, bb, cc, dd, ee);
      aa, cc := R3(aa, bb, cc, dd, ee, X[4], 7);
      StepAdvances(X, Left, 2, 3, 4, 7, q, Regs(ee, aa, bb, cc, dd));
      q := Regs(ee, aa, bb, cc, dd);
      ee, bb := R3(ee, aa, bb, cc, dd, X[9], 14);
      StepAdvances(X, Left, 2, 4, 9, 14, q, Regs(dd, ee, aa, bb, cc));
      q := Regs(dd, ee, aa, bb, cc);
      dd, aa := R3(dd, ee, aa, bb, cc, X[15], 9);
      StepAdvances(X, Left, 2, 5, 15, 9, q, Regs(cc, dd, ee, aa, bb));
      q := Regs(cc, dd, ee, aa, bb);
      cc, ee := R3(cc, dd, ee, aa, bb, X[8], 13);
      StepAdvances(X, Left, 2, 6, 8, 13, q, Regs(bb, cc, dd, ee, aa));
      q := Regs(bb, cc, dd, ee, aa);
      bb, dd := R3(bb, cc, dd, ee, aa, X[1], 15);
      StepAdvances(X, Left, 2, 7, 1, 15, q, Regs(aa, bb, cc, dd, ee));
      r' := Regs(aa, bb, cc, dd, ee);
    }

    /** Steps 8..15 of round 3 of the left lane: eight of the
        unrolled `R3` calls, in order and with their literal word indices
        and rotations. */
    static method LeftRound3Tail(r: Regs, X: seq<word>) returns (r': Regs)
      requires |X| == 16
      ensures Advances(r, r', X, Left, 2, 8, 8)
    {
      var aa, bb, cc, dd, ee := r.a, r.b, r.c, r.d, r.e;
      ghost var q := r;
      aa, cc := R3(aa, bb, cc, dd, ee, X[2], 14);
      StepAdvances(X, Left, 2, 8, 2, 14, q, Regs(ee, aa, bb, cc, dd));
      q := Regs(ee, aa, bb, cc, dd);
      ee, bb := R3(ee, aa, bb, cc, dd, X[7], 8);
      StepAdvances(X, Left, 2, 9, 7, 8, q, Regs(dd, ee, aa, bb, cc));
      q := Regs(dd, ee, aa, bb, cc);
      dd, aa := R3(dd, ee, aa, bb, cc, X[0], 13);
      StepAdvances(X, Left, 2, 10, 0, 13, q, Regs(cc, dd, ee, aa, bb));
      q := Regs(cc, dd, ee, aa, bb);
      cc, ee := R3(cc, dd, ee, aa, bb, X[6], 6);
      StepAdvances(X, Left, 2, 11, 6, 6, q, Regs(bb, cc, dd, ee, aa));
      q := Regs(bb, cc, dd, ee, aa);
      bb, dd := R3(bb, cc, dd, ee, aa, X[13], 5);
      StepAdvances(X, Left, 2, 12, 13, 5, q, Regs(aa, bb, cc, dd, ee));
      q := Regs(aa, bb, cc, dd, ee);
      aa, cc := R3(aa, bb, cc, dd, ee, X[11], 12);
      StepAdvances(X, Left, 2, 13, 11, 12, q, Regs(ee, aa, bb, cc, dd));
      q := Regs(ee, aa, bb, cc, dd);
      ee, bb := R3(ee, aa, bb, cc, dd, X[5], 7);
      StepAdvances(X, Left, 2, 14, 5, 7, q, Regs(dd, ee, aa, bb, cc));
      q := Regs(dd, ee, aa, bb, cc);
      dd, aa := R3(dd, ee, aa, bb, cc, X[12], 5);
      StepAdvances(X, Left, 2, 15, 12, 5, q, Regs(cc, dd, ee, aa, bb));
      r' := Regs(cc, dd, ee, aa, bb);
    }

    /** Round 3 of the left lane: its sixteen unrolled `R3` calls. */
    static method LeftRound3(r: Regs, X: seq<word>) returns (r': Regs)
      requires |X| == 16
      ensures r' == Round(r, X, Left, 2)
    {
      var mid := LeftRound3Head(r, X);
      r' := LeftRound3Tail(mid, X);
      AdvancesTrans(X, Left, 2, 0, 8, 8, r, mid, r');
      RoundAdvances(X, Left, 2, r, r');
    }

    /** Steps 0..7 of round 3 of the right lane: eight of the
        unrolled `RR3` calls, in order and with their literal word indices
        and rotations. */
    static method RightRound3Head(r: Regs, X: seq<word>) returns (r': Regs)
      requires |X| == 16
      ensures Advances(r, r', X, Right, 2, 0, 8)
    {
      var ddd, eee, aaa, bbb, ccc := r.a, r.b, r.c, r.d, r.e;
      ghost var q := r;
      ddd, aaa := RR3(ddd, eee, aaa, bbb, ccc, X[15], 9);
      StepAdvances(X, Right, 2, 0, 15, 9, q, Regs(ccc, ddd, eee, aaa, bbb));
      q := Regs(ccc, ddd, eee, aaa, bbb);
      ccc, eee := RR3(ccc, ddd, eee, aaa, bbb, X[5], 7);
      StepAdvances(X, Right, 2, 1, 5, 7, q, Regs(bbb, ccc, ddd, eee, aaa));
      q := Regs(bbb, ccc, ddd, eee, aaa);
      bbb, ddd := RR3(bbb, ccc, ddd, eee, aaa, X[1], 15);
      StepAdvances(X, Right, 2, 2, 1, 15, q, Regs(aaa, bbb, ccc, ddd, eee));
      q := Regs(aaa, bbb, ccc, ddd, eee);
      aaa, ccc := RR3(aaa, bbb, ccc, ddd, eee, X[3], 11);
      StepAdvances(X, Right, 2, 3, 3, 11, q, Regs(eee, aaa, bbb, ccc, ddd));
      q := Regs(eee, aaa, bbb, ccc, ddd);
      eee, bbb := RR3(eee, aaa, bbb, ccc, ddd, X[7], 8);
      StepAdvances(X, Right, 2, 4, 7, 8, q, Regs(ddd, eee, aaa, bbb, ccc));
      q := Regs(ddd, eee, aaa, bbb, ccc);
      ddd, aaa := RR3(ddd, eee, aaa, bbb, ccc, X[14], 6);
      StepAdvances(X, Right, 2, 5, 14, 6, q, Regs(ccc, ddd, eee, aaa, bbb));
      q := Regs(ccc, ddd, eee, aaa, bbb);
      ccc, eee := RR3(ccc, ddd, eee, aaa, bbb, X[6], 6);
      StepAdvances(X, Right, 2, 6, 6, 6, q, Regs(bbb, ccc, ddd, eee, aaa));
      q := Regs(bbb, ccc, ddd, eee, aaa);
      bbb, ddd := RR3(bbb, ccc, ddd, eee, aaa, X[9], 14);
      StepAdvances(X, Right, 2, 7, 9, 14, q, Regs(aaa, bbb, ccc, ddd, eee));
      r' := Regs(aaa, bbb, ccc, ddd, eee);
    }

    /** Steps 8..15 of round 3 of the right lane: eight of the
        unrolled `RR3` calls, in order and with their literal word indices
        and rotations. */
    static method RightRound3Tail(r: Regs, X: seq<word>) returns (r': Regs)
      requires |X| == 16
      ensures Advances(r, r', X, Right, 2, 8, 8)
    {
      var aaa, bbb, ccc, ddd, eee := r.a, r.b, r.c, r.d, r.e;
      ghost var q := r;
      aaa, ccc := RR3(aaa, bbb, ccc, ddd, eee, X[11], 12);
      StepAdvances(X, Right, 2, 8, 11, 12, q, Regs(eee, aaa, bbb, ccc, ddd));
      q := Regs(eee, aaa, bbb, ccc, ddd);
      eee, bbb := RR3(eee, aaa, bbb, ccc, ddd, X[8], 13);
      StepAdvances(X, Right, 2, 9, 8, 13, q, Regs(ddd, eee, aaa, bbb, ccc));
      q := Regs(ddd, eee, aaa, bbb, ccc);
      ddd, aaa := RR3(ddd, eee, aaa, bbb, ccc, X[12], 5);
      StepAdvances(X, Right, 2, 10, 12, 5, q, Regs(ccc, ddd, eee, aaa, bbb));
      q := Regs(ccc, ddd, eee, aaa, bbb);
      ccc, eee := RR3(ccc, ddd, eee, aaa, bbb, X[2], 14);
      StepAdvances(X, Right, 2, 11, 2, 14, q, Regs(bbb, ccc, ddd, eee, aaa));
      q := Regs(bbb, ccc, ddd, eee, aaa);
      bbb, ddd := RR3(bbb, ccc, ddd, eee, aaa, X[10], 13);
      StepAdvances(X, Right, 2, 12, 10, 13, q, Regs(aaa, bbb, ccc, ddd, eee));
      q := Regs(aaa, bbb, ccc, ddd, eee);
      aaa, ccc := RR3(aaa, bbb, ccc, ddd, eee, X[0], 13);
      StepAdvances(X, Right, 2, 13, 0, 13, q, Regs(eee, aaa, bbb, ccc, ddd));
      q := Regs(eee, aaa, bbb, ccc, ddd);
      eee, bbb := RR3(eee, aaa, bbb, ccc, ddd, X[4], 7);
      StepAdvances(X, Right, 2, 14, 4, 7, q, Regs(ddd, eee, aaa, bbb, ccc));
      q := Regs(ddd, eee, aaa, bbb, ccc);
      ddd, aaa := RR3(ddd, eee, aaa, bbb, ccc, X[13], 5);
      StepAdvances(X, Right, 2, 15, 13, 5, q, Regs(ccc, ddd, eee, aaa, bbb));
      r' := Regs(ccc, ddd, eee, aaa, bbb);
    }

    /** Round 3 of the right lane: its sixteen unrolled `RR3` calls. */
    static method RightRound3(r: Regs, X: seq<word>) returns (r': Regs)
      requires |X| == 16
      ensures r' == Round(r, X, Right, 2)
    {
      var mid := RightRound3Head(r, X);
      r' := RightRound3Tail(mid, X);
      AdvancesTrans(X, Right, 2, 0, 8, 8, r, mid, r');
      RoundAdvances(X, Right, 2, r, r');
    }

    /** Steps 0..7 of round 4 of the left lane: eight of the
        unrolled `R4` calls, in order and with their literal word indices
        and rotations. */
    static method LeftRound4Head(r: Regs, X: seq<word>) returns (r': Regs)
      requires |X| == 16
      ensures Advances(r, r', X, Left, 3, 0, 8)
    {
      var cc, dd, ee, aa, bb := r.a, r.b, r.c, r.d, r.e;
      ghost var q := r;
      cc, ee := R4(cc, dd, ee, aa, bb, X[1], 11);
      StepAdvances(X, Left, 3, 0, 1, 11, q, Regs(bb, cc, dd, ee, aa));
      q := Regs(bb, cc, dd, ee, aa);
      bb, dd := R4(bb, cc, dd, ee, aa, X[9], 12);
      StepAdvances(X, Left, 3, 1, 9, 12, q, Regs(aa, bb, cc, dd, ee));
      q := Regs(aa, bb, cc, dd, ee);
      aa, cc := R4(aa, bb, cc, dd, ee, X[11], 14);
      StepAdvances(X, Left, 3, 2, 11, 14, q, Regs(ee, aa, bb, cc, dd));
      q := Regs(ee, aa, bb, cc, dd);
      ee, bb := R4(ee, aa, bb, cc, dd, X[10], 15);
      StepAdvances(X, Left, 3, 3, 10, 15, q, Regs(dd, ee, aa, bb, cc));
      q := Regs(dd, ee, aa, bb, cc);
      dd, aa := R4(dd, ee, aa, bb, cc, X[0], 14);
      StepAdvances(X, Left, 3, 4, 0, 14, q, Regs(cc, dd, ee, aa, bb));
      q := Regs(cc, dd, ee, aa, bb);
      cc, ee := R4(cc, dd, ee, aa, bb, X[8], 15);
      StepAdvances(X, Left, 3, 5, 8, 15, q, Regs(bb, cc, dd, ee, aa));
      q := Regs(bb, cc, dd, ee, aa);
      bb, dd := R4(bb, cc, dd, ee, aa, X[12], 9);
      StepAdvances(X, Left, 3, 6, 12, 9, q, Regs(aa, bb, cc, dd, ee));
      q := Regs(aa, bb, cc, dd, ee);
      aa, cc := R4(aa, bb, cc, dd, ee, X[4], 8);
      StepAdvances(X, Left, 3, 7, 4, 8, q, Regs(ee, aa, bb, cc, dd));
      r' := Regs(ee, aa, bb, cc, dd);
    }

    /** Steps 8..15 of round 4 of the left lane: eight of the
        unrolled `R4` calls, in order and with their literal word indices
        and rotations. */
    static method LeftRound4Tail(r: Regs, X: seq<word>) returns (r': Regs)
      requires |X| == 16
      ensures Advances(r, r', X, Left, 3, 8, 8)
    {
      var ee, aa, bb, cc, dd := r.a, r.b, r.c, r.d, r.e;
      ghost var q := r;
      ee, bb := R4(ee, aa, bb, cc, dd, X[13], 9);
      StepAdvances(X, Left, 3, 8, 13, 9, q, Regs(dd, ee, aa, bb, cc));
      q := Regs(dd, ee, aa, bb, cc);
      dd, aa := R4(dd, ee, aa, bb, cc, X[3], 14);
      StepAdvances(X, Left, 3, 9, 3, 14, q, Regs(cc, dd, ee, aa, bb));
      q := Regs(cc, dd, ee, aa, bb);
      cc, ee := R4(cc, dd, ee, aa, bb, X[7], 5);
      StepAdvances(X, Left, 3, 10, 7, 5, q, Regs(bb, cc, dd, ee, aa));
      q := Regs(bb, cc, dd, ee, aa);
      bb, dd := R4(bb, cc, dd, ee, aa, X[15], 6);
      StepAdvances(X, Left, 3, 11, 15, 6, q, Regs(aa, bb, cc, dd, ee));
      q := Regs(aa, bb, cc, dd, ee);
      aa, cc := R4(aa, bb, cc, dd, ee, X[14], 8);
      StepAdvances(X, Left, 3, 12, 14, 8, q, Regs(ee, aa, bb, cc, dd));
      q := Regs(ee, aa, bb, cc, dd);
      ee, bb := R4(ee, aa, bb, cc, dd, X[5], 6);
      StepAdvances(X, Left, 3, 13, 5, 6, q, Regs(dd, ee, aa, bb, cc));
      q := Regs(dd, ee, aa, bb, cc);
      dd, aa := R4(dd, ee, aa, bb, cc, X[6], 5);
      StepAdvances(X, Left, 3, 14, 6, 5, q, Regs(cc, dd, ee, aa, bb));
      q := Regs(cc, dd, ee, aa, bb);
      cc, ee := R4(cc, dd, ee, aa, bb, X[2], 12);
      StepAdvances(X, Left, 3, 15, 2, 12, q, Regs(bb, cc, dd, ee, aa));
      r' := Regs(bb, cc, dd, ee, aa);
    }

    /** Round 4 of the left lane: its sixteen unrolled `R4` calls. */
    static method LeftRound4(r: Regs, X: seq<word>) returns (r': Regs)
      requires |X| == 16
      ensures r' == Round(r, X, Left, 3)
    {
      var mid := LeftRound4Head(r, X);
      r' := LeftRound4Tail(mid, X);
      AdvancesTrans(X, Left, 3, 0, 8, 8, r, mid, r');
      RoundAdvances(X, Left, 3, r, r');
    }

    /** Steps 0..7 of round 4 of the right lane: eight of the
        unrolled `RR4` calls, in order and with their literal word indices
        and rotations. */
    static method RightRound4Head(r: Regs, X: seq<word>) returns (r': Regs)
      requires |X| == 16
      ensures Advances(r, r', X, Right, 3, 0, 8)
    {
      var ccc, ddd, eee, aaa, bbb := r.a, r.b, r.c, r.d, r.e;
      ghost var q := r;
      ccc, eee := RR4(ccc, ddd, eee, aaa, bbb, X[8], 15);
      StepAdvances(X, Right, 3, 0, 8, 15, q, Regs(bbb, ccc, ddd, eee, aaa));
      q := Regs(bbb, ccc, ddd, eee, aaa);
      bbb, ddd := RR4(bbb, ccc, ddd, eee, aaa, X[6], 5);
      StepAdvances(X, Right, 3, 1, 6, 5, q, Regs(aaa, bbb, ccc, ddd, eee));
      q := Regs(aaa, bbb, ccc, ddd, eee);
      aaa, ccc := RR4(aaa, bbb, ccc, ddd, eee, X[4], 8);
      StepAdvances(X, Right, 3, 2, 4, 8, q, Regs(eee, aaa, bbb, ccc, ddd));
      q := Regs(eee, aaa, bbb, ccc, ddd);
      eee, bbb := RR4(eee, aaa, bbb, ccc, ddd, X[1], 11);
      StepAdvances(X, Right, 3, 3, 1, 11, q, Regs(ddd, eee, aaa, bbb, ccc));
      q := Regs(ddd, eee, aaa, bbb, ccc);
      ddd, aaa := RR4(ddd, eee, aaa, bbb, ccc, X[3], 14);
      StepAdvances(X, Right, 3, 4, 3, 14, q, Regs(ccc, ddd, eee, aaa, bbb));
      q := Regs(ccc, ddd, eee, aaa, bbb);
      ccc, eee := RR4(ccc, ddd, eee, aaa, bbb, X[11], 14);
      StepAdvances(X, Right, 3, 5, 11, 14, q, Regs(bbb, ccc, ddd, eee, aaa));
      q := Regs(bbb, ccc, ddd, eee, aaa);
      bbb, ddd := RR4(bbb, ccc, ddd, eee, aaa, X[15], 6);
      StepAdvances(X, Right, 3, 6, 15, 6, q, Regs(aaa, bbb, ccc, ddd, eee));
      q := Regs(aaa, bbb, ccc, ddd, eee);
      aaa, ccc := RR4(aaa, bbb, ccc, ddd, eee, X[0], 14);
      StepAdvances(X, Right, 3, 7, 0, 14, q, Regs(eee, aaa, bbb, ccc, ddd));
      r' := Regs(eee, aaa, bbb, ccc, ddd);
    }

    /** Steps 8..15 of round 4 of the right lane: eight of the
        unrolled `RR4` calls, in order and with their literal word indices
        and rotations. */
    static method RightRound4Tail(r: Regs, X: seq<word>) returns (r': Regs)
      requires |X| == 16
      ensures Advances(r, r', X, Right, 3, 8, 8)
    {
      var eee, aaa, bbb, ccc, ddd := r.a, r.b, r.c, r.d, r.e;
      ghost var q := r;
      eee, bbb := RR4(eee, aaa, bbb, ccc, ddd, X[5], 6);
      StepAdvances(X, Right, 3, 8, 5, 6, q, Regs(ddd, eee, aaa, bbb, ccc));
      q := Regs(ddd, eee, aaa, bbb, ccc);
      ddd, aaa := RR4(ddd, eee, aaa, bbb, ccc, X[12], 9);
      StepAdvances(X, Right, 3, 9, 12, 9, q, Regs(ccc, ddd, eee, aaa, bbb));
      q := Regs(ccc, ddd, eee, aaa, bbb);
      ccc, eee := RR4(ccc, ddd, eee, aaa, bbb, X[2], 12);
      StepAdvances(X, Right, 3, 10, 2, 12, q, Regs(bbb, ccc, ddd, eee, aaa));
      q := Regs(bbb, ccc, ddd, eee, aaa);
      bbb, ddd := RR4(bbb, ccc, ddd, eee, aaa, X[13], 9);
      StepAdvances(X, Right, 3, 11, 13, 9, q, Regs(aaa, bbb, ccc, ddd, eee));
      q := Regs(aaa, bbb, ccc, ddd, eee);
      aaa, ccc := RR4(aaa, bbb, ccc, ddd, eee, X[9], 12);
      StepAdvances(X, Right, 3, 12, 9, 12, q, Regs(eee, aaa, bbb, ccc, ddd));
      q := Regs(eee, aaa, bbb, ccc, ddd);
      eee, bbb := RR4(eee, aaa, bbb, ccc, ddd, X[7], 5);
      StepAdvances(X, Right, 3, 13, 7, 5, q, Regs(ddd, eee, aaa, bbb, ccc));
      q := Regs(ddd, eee, aaa, bbb, ccc);
      ddd, aaa := RR4(ddd, eee, aaa, bbb, ccc, X[10], 15);
      StepAdvances(X, Right, 3, 14, 10, 15, q, Regs(ccc, ddd, eee, aaa, bbb));
      q := Regs(ccc, ddd, eee, aaa, bbb);
      ccc, eee := RR4(ccc, ddd, eee, aaa, bbb, X[14], 8);
      StepAdvances(X, Right, 3, 15, 14, 8, q, Regs(bbb, ccc, ddd, eee, aaa));
      r' := Regs(bbb, ccc, ddd, eee, aaa);
    }

    /** Round 4 of the right lane: its sixteen unrolled `RR4` calls. */
    static method RightRound4(r: Regs, X: seq<word>) returns (r': Regs)
      requires |X| == 16
      ensures r' == Round(r, X, Right, 3)
    {
      var mid := RightRound4Head(r, X);
      r' := RightRound4Tail(mid, X);
      AdvancesTrans(X, Right, 3, 0, 8, 8, r, mid, r');
      RoundAdvances(X, Right, 3, r, r');
    }

    /** Steps 0..7 of round 5 of the left lane: eight of the
        unrolled `R5` calls, in order and with their literal word indices
        and rotations. */
    static method LeftRound5Head(r: Regs, X: seq<word>) returns (r': Regs)
      requires |X| == 16
      ensures Advances(r, r', X, Left, 4, 0, 8)
    {
      var bb, cc, dd, ee, aa := r.a, r.b, r.c, r.d, r.e;
      ghost var q := r;
      bb, dd := R5(bb, cc, dd, ee, aa, X[4], 9);
      StepAdvances(X, Left, 4, 0, 4, 9, q, Regs(aa, bb, cc, dd, ee));
      q := Regs(aa, bb, cc, dd, ee);
      aa, cc := R5(aa, bb, cc, dd, ee, X[0], 15);
      StepAdvances(X, Left, 4, 1, 0, 15, q, Regs(ee, aa, bb, cc, dd));
      q := Regs(ee, aa, bb, cc, dd);
      ee, bb := R5(ee, aa, bb, cc, dd, X[5], 5);
      StepAdvances(X, Left, 4, 2, 5, 5, q, Regs(dd, ee, aa, bb, cc));
      q := Regs(dd, ee, aa, bb, cc);
      dd, aa := R5(dd, ee, aa, bb, cc, X[9], 11);
      StepAdvances(X, Left, 4, 3, 9, 11, q, Regs(cc, dd, ee, aa, bb));
      q := Regs(cc, dd, ee, aa, bb);
      cc, ee := R5(cc, dd, ee, aa, bb, X[7], 6);
      StepAdvances(X, Left, 4, 4, 7, 6, q, Regs(bb, cc, dd, ee, aa));
      q := Regs(bb, cc, dd, ee, aa);
      bb, dd := R5(bb, cc, dd, ee, aa, X[12], 8);
      StepAdvances(X, Left, 4, 5, 12, 8, q, Regs(aa, bb, cc, dd, ee));
      q := Regs(aa, bb, cc, dd, ee);
      aa, cc := R5(aa, bb, cc, dd, ee, X[2], 13);
      StepAdvances(X, Left, 4, 6, 2, 13, q, Regs(ee, aa, bb, cc, dd));
      q := Regs(ee, aa, bb, cc, dd);
      ee, bb := R5(ee, aa, bb, cc, dd, X[10], 12);
      StepAdvances(X, Left, 4, 7, 10, 12, q, Regs(dd, ee, aa, bb, cc));
      r' := Regs(dd, ee, aa, bb, cc);
    }

    /** Steps 8..15 of round 5 of the left lane: eight of the
        unrolled `R5` calls, in order and with their literal word indices
        and rotations. */
    static method LeftRound5Tail(r: Regs, X: seq<word>) returns (r': Regs)
      requires |X| == 16
      ensures Advances(r, r', X, Left, 4, 8, 8)
    {
      var dd, ee, aa, bb, cc := r.a, r.b, r.c, r.d, r.e;
      ghost var q := r;
      dd, aa := R5(dd, ee, aa, bb, cc, X[14], 5);
      StepAdvances(X, Left, 4, 8, 14, 5, q, Regs(cc, dd, ee, aa, bb));
      q := Regs(cc, dd, ee, aa, bb);
      cc, ee := R5(cc, dd, ee, aa, bb, X[1], 12);
      StepAdvances(X, Left, 4, 9, 1, 12, q, Regs(bb, cc, dd, ee, aa));
      q := Regs(bb, cc, dd, ee, aa);
      bb, dd := R5(bb, cc, dd, ee, aa, X[3], 13);
      StepAdvances(X, Left, 4, 10, 3, 13, q, Regs(aa, bb, cc, dd, ee));
      q := Regs(aa, bb, cc, dd, ee);
      aa, cc := R5(aa, bb, cc, dd, ee, X[8], 14);
      StepAdvances(X, Left, 4, 11, 8, 14, q, Regs(ee, aa, bb, cc, dd));
      q := Regs(ee, aa, bb, cc, dd);
      ee, bb := R5(ee, aa, bb, cc, dd, X[11], 11);
      StepAdvances(X, Left, 4, 12, 11, 11, q, Regs(dd, ee, aa, bb, cc));
      q := Regs(dd, ee, aa, bb, cc);
      dd, aa := R5(dd, ee, aa, bb, cc, X[6], 8);
      StepAdvances(X, Left, 4, 13, 6, 8, q, Regs(cc, dd, ee, aa, bb));
      q := Regs(cc, dd, ee, aa, bb);
      cc, ee := R5(cc, dd, ee, aa, bb, X[15], 5);
      StepAdvances(X, Left, 4, 14, 15, 5, q, Regs(bb, cc, dd, ee, aa));
      q := Regs(bb, cc, dd, ee, aa);
      bb, dd := R5(bb, cc, dd, ee, aa, X[13], 6);
      StepAdvances(X, Left, 4, 15, 13, 6, q, Regs(aa, bb, cc, dd, ee));
      r' := Regs(aa, bb, cc, dd, ee);
    }

    /** Round 5 of the left lane: its sixteen unrolled `R5` calls. */
    static method LeftRound5(r: Regs, X: seq<word>) returns (r': Regs)
      requires |X| == 16
      ensures r' == Round(r, X, Left, 4)
    {
      var mid := LeftRound5Head(r, X);
      r' := LeftRound5Tail(mid, X);
      AdvancesTrans(X, Left, 4, 0, 8, 8, r, mid, r');
      RoundAdvances(X, Left, 4, r, r');
    }

    /** Steps 0..7 of round 5 of the right lane: eight of the
        unrolled `RR5` calls, in order and with their literal word indices
        and rotations. */
    static method RightRound5Head(r: Regs, X: seq<word>) returns (r': Regs)
      requires |X| == 16
      ensures Advances(r, r', X, Right, 4, 0, 8)
    {
      var bbb, ccc, ddd, eee, aaa := r.a, r.b, r.c, r.d, r.e;
      ghost var q := r;
      bbb, ddd := RR5(bbb, ccc, ddd, eee, aaa, X[12], 8);
      StepAdvances(X, Right, 4, 0, 12, 8, q, Regs(aaa, bbb, ccc, ddd, eee));
      q := Regs(aaa, bbb, ccc, ddd, eee);
      aaa, ccc := RR5(aaa, bbb, ccc, ddd, eee, X[15], 5);
      StepAdvances(X, Right, 4, 1, 15, 5, q, Regs(eee, aaa, bbb, ccc, ddd));
      q := Regs(eee, aaa, bbb, ccc, ddd);
      eee, bbb := RR5(eee, aaa, bbb, ccc, ddd, X[10], 12);
      StepAdvances(X, Right, 4, 2, 10, 12, q, Regs(ddd, eee, aaa, bbb, ccc));
      q := Regs(ddd, eee, aaa, bbb, ccc);
      ddd, aaa := RR5(ddd, eee, aaa, bbb, ccc, X[4], 9);
      StepAdvances(X, Right, 4, 3, 4, 9, q, Regs(ccc, ddd, eee, aaa, bbb));
      q := Regs(ccc, ddd, eee, aaa, bbb);
      ccc, eee := RR5(ccc, ddd, eee, aaa, bbb, X[1], 12);
      StepAdvances(X, Right, 4, 4, 1, 12, q, Regs(bbb, ccc, ddd, eee, aaa));
      q := Regs(bbb, ccc, ddd, eee, aaa);
      bbb, ddd := RR5(bbb, ccc, ddd, eee, aaa, X[5], 5);
      StepAdvances(X, Right, 4, 5, 5, 5, q, Regs(aaa, bbb, ccc, ddd, eee));
      q := Regs(aaa, bbb, ccc, ddd, eee);
      aaa, ccc := RR5(aaa, bbb, ccc, ddd, eee, X[8], 14);
      StepAdvances(X, Right, 4, 6, 8, 14, q, Regs(eee, aaa, bbb, ccc, ddd));
      q := Regs(eee, aaa, bbb, ccc, ddd);
      eee, bbb := RR5(eee, aaa, bbb, ccc, ddd, X[7], 6);
      StepAdvances(X, Right, 4, 7, 7, 6, q, Regs(ddd, eee, aaa, bbb, ccc));
      r' := Regs(ddd, eee, aaa, bbb, ccc);
    }

    /** Steps 8..15 of round 5 of the right lane: eight of the
        unrolled `RR5` calls, in order and with their literal word indices
        and rotations. */
    static method RightRound5Tail(r: Regs, X: seq<word>) returns (r': Regs)
      requires |X| == 16
      ensures Advances(r, r', X, Right, 4, 8, 8)
    {
      var ddd, eee, aaa, bbb, ccc := r.a, r.b, r.c, r.d, r.e;
      ghost var q := r;
      ddd, aaa := RR5(ddd, eee, aaa, bbb, ccc, X[6], 8);
      StepAdvances(X, Right, 4, 8, 6, 8, q, Regs(ccc, ddd, eee, aaa, bbb));
      q := Regs(ccc, ddd, eee, aaa, bbb);
      ccc, eee := RR5(ccc, ddd, eee, aaa, bbb, X[2], 13);
      StepAdvances(X, Right, 4, 9, 2, 13, q, Regs(bbb, ccc, ddd, eee, aaa));
      q := Regs(bbb, ccc, ddd, eee, aaa);
      bbb, ddd := RR5(bbb, ccc, ddd, eee, aaa, X[13], 6);
      StepAdvances(X, Right, 4, 10, 13, 6, q, Regs(aaa, bbb, ccc, ddd, eee));
      q := Regs(aaa, bbb, ccc, ddd, eee);
      aaa, ccc := RR5(aaa, bbb, ccc, ddd, eee, X[14], 5);
      StepAdvances(X, Right, 4, 11, 14, 5, q, Regs(eee, aaa, bbb, ccc, ddd));
      q := Regs(eee, aaa, bbb, ccc, ddd);
      eee, bbb := RR5(eee, aaa, bbb, ccc, ddd, X[0], 15);
      StepAdvances(X, Right, 4, 12, 0, 15, q, Regs(ddd, eee, aaa, bbb, ccc));
      q := Regs(ddd, eee, aaa, bbb, ccc);
      ddd, aaa := RR5(ddd, eee, aaa, bbb, ccc, X[3], 13);
      StepAdvances(X, Right, 4, 13, 3, 13, q, Regs(ccc, ddd, eee, aaa, bbb));
      q := Regs(ccc, ddd, eee, aaa, bbb);
      ccc, eee := RR5(ccc, ddd, eee, aaa, bbb, X[9], 11);
      StepAdvances(X, Right, 4, 14, 9, 11, q, Regs(bbb, ccc, ddd, eee, aaa));
      q := Regs(bbb, ccc, ddd, eee, aaa);
      bbb, ddd := RR5(bbb, ccc, ddd, eee, aaa, X[11], 11);
      StepAdvances(X, Right, 4, 15, 11, 11, q, Regs(aaa, bbb, ccc, ddd, eee));
      r' := Regs(aaa, bbb, ccc, ddd, eee);
    }

    /** Round 5 of the right lane: its sixteen unrolled `RR5` calls. */
    static method RightRound5(r: Regs, X: seq<word>) returns (r': Regs)
      requires |X| == 16
      ensures r' == Round(r, X, Right, 4)
    {
      var mid := RightRound5Head(r, X);
      r' := RightRound5Tail(mid, X);
      AdvancesTrans(X, Right, 4, 0, 8, 8, r, mid, r');
      RoundAdvances(X, Right, 4, r, r');
    }

    /** The message words of `transform`: the block read as sixteen
        little-endian words. */
    static method ReadBlock(block: seq<byte>) returns (X: seq<word>)
      requires |block| == 64
      ensures X == BlockWords(block)
    {
      var words := new word[16];
      for i := 0 to 16
        invariant forall j :: 0 <= j < i ==> words[j] == ReadWordLE(block, 4 * j)
      {
        words[i] := ReadWordLE(block, i * 4);
      }
      X := words[..];
    }

    /** The ten rounds of `transform`, in its interleaved order: both lanes
        start from the chaining value `h`, and each reads only its own
        registers. `l` and `r` are the final registers aa..ee and aaa..eee. */
    static method Lanes(h: seq<word>, X: seq<word>) returns (l: seq<word>, r: seq<word>)
      requires |h| == 5 && |X| == 16
      ensures l == Slots(LaneFrom(Start(h), X, Left, 0))
      ensures r == Slots(LaneFrom(Start(h), X, Right, 0))
    {
      var left := Regs(h[0], h[1], h[2], h[3], h[4]);
      var right := Regs(h[0], h[1], h[2], h[3], h[4]);
      left := LeftRound1(left, X);
      right := RightRound1(right, X);
      left := LeftRound2(left, X);
      right := RightRound2(right, X);
      left := LeftRound3(left, X);
      right := RightRound3(right, X);
      left := LeftRound4(left, X);
      right := RightRound4(right, X);
      left := LeftRound5(left, X);
      right := RightRound5(right, X);
      LaneRounds(Start(h), X, Left);
      LaneRounds(Start(h), X, Right);
      l, r := Slots(left), Slots(right);
    }

    /** `transform`: compress one 64-byte block into the chaining value. */
    method Transform(block: seq<byte>)
      requires |block| == 64 && state.Length == 5
      modifies this`blocks, state
      ensures state[..] == CompressBlock(old(state[..]), block)
      ensures blocks == old(blocks) + 1
    {
      var h := state[..];
      var X := ReadBlock(block);
      var l, r := Lanes(h, X);
      // The combine reads every slot before it is overwritten, so reading
      // the snapshot `h` gives the same values as reading `state` in place.
      var ddd := r[3] + (l[2] + h[1]);
      state[1] := h[2] + l[3] + r[4];
      state[2] := h[3] + l[4] + r[0];
      state[3] := h[4] + l[0] + r[1];
      state[4] := h[0] + l[1] + r[2];
      state[0] := ddd;
      CombineInPlace(h, l, r, state[..]);
      CompressionLanes(h, X);
      blocks := blocks + 1;
    }

    /** The `memcpy` of `update` into the buffer: append `q` to the `m`
        bytes in use. */
    method Fill(q: seq<byte>)
      requires buffer.Length == N && m + |q| <= N
      modifies buffer
      ensures buffer[..m + |q|] == old(buffer[..m]) + q
    {
      forall j | 0 <= j < |q| {
        buffer[m + j] := q[j];
      }
    }

    /** The first half of `update` when the buffer holds a partial block:
        copy up to the rest of a block from `p` into it, and if that
        completes the block, compress it and clear the buffer. `k` is the
        number of bytes taken. */
    method TopUp(p: seq<byte>) returns (k: nat)
      requires Absorbed() && 0 < m
      modifies this`m, this`stream, this`blocks, buffer, state
      ensures Absorbed()
      ensures k == if |p| < N - old(m) then |p| else N - old(m)
      ensures stream == old(stream) + p[..k]
      ensures m == 0 || k == |p|
    {
      ghost var s0, b0, h0 := stream, buffer[..], state[..];
      k := N - m;
      if |p| < k {
        k := |p|;
      }
      Fill(p[..k]);
      stream := s0 + p[..k];
      if m + k < N {
        HoldsWithin(h0, b0, m, blocks, s0, p[..k], buffer[..]);
        m := m + k;
        return;
      }
      assert buffer[..] == buffer[..m + k];
      HoldsCompleting(h0, b0, m, blocks, s0, p[..k], buffer[..]);
      Transform(buffer[..]);
      m := 0;
      forall j | 0 <= j < N {
        buffer[j] := 0;
      }
    }

    /** The loop of `update`: with the buffer empty, compress whole blocks
        straight from `p`, starting at offset `i`, while a whole block
        remains. `j` is the offset reached. */
    method WholeBlocks(p: seq<byte>, i: nat) returns (j: nat)
      requires Absorbed() && m == 0 && i <= |p|
      modifies this`stream, this`blocks, state
      ensures Absorbed() && m == 0
      ensures i <= j <= |p| && |p| - j < N
      ensures stream == old(stream) + p[i..j]
    {
      ghost var s0 := stream;
      j := i;
      while |p| - j >= N
        invariant i <= j <= |p|
        invariant stream == s0 + p[i..j]
        invariant Absorbed() && m == 0
        decreases |p| - j
      {
        HoldsBlock(state[..], buffer[..], blocks, stream, p[j..j + N]);
        TakeMore(s0, p, i, j, j + N);
        Transform(p[j..j + N]);
        stream := s0 + p[i..j + N];
        j := j + N;
      }
    }

    /** The end of `update`: with the buffer empty, keep the fewer than
        `N` bytes left over in it. */
    method Keep(q: seq<byte>)
      requires Absorbed() && m == 0 && |q| < N
      modifies this`m, this`stream, buffer
      ensures Absorbed() && m == |q|
      ensures stream == old(stream) + q
    {
      ghost var b0 := buffer[..];
      if |q| > 0 {
        Fill(q);
        m := |q|;
      }
      HoldsWithin(state[..], b0, 0, blocks, stream, q, buffer[..]);
      stream := stream + q;
    }

    /** The part of `update` after the counter: top up the buffer, compress
        whole blocks straight from `p`, and keep what is left over. */
    method Feed(p: seq<byte>)
      requires Absorbed()
      modifies this`m, this`stream, this`blocks, buffer, state
      ensures Absorbed()
      ensures stream == old(stream) + p
    {
      ghost var s0 := stream;
      // `i` is how far the source's pointer has advanced into `p`.
      var i: nat := 0;
      if m > 0 {
        i := TopUp(p);
        if m > 0 {
          assert p[..i] == p;
          return;
        }
      }
      assert stream == s0 + p[..i];
      ghost var i0 := i;
      i := WholeBlocks(p, i);
      TakeUpTo(s0, p, i0, i);
      ghost var s1 := stream;
      Keep(p[i..]);
      assert stream == s1 + p[i..];
      TakeRest(s0, p, i);
    }

    /** `update`: feed the bytes `p`, counting them modulo 2^64. */
    method Update(p: seq<byte>)
      requires Valid()
      modifies this, buffer, state
      ensures Valid()
      ensures stream == old(stream) + p
      ensures n == (old(n) + |p|) % TWO64
      ensures |p| == 0 ==> unchanged(this) && unchanged(buffer) && unchanged(state)
    {
      if |p| == 0 {
        assert old(stream) + p == old(stream);
        return;
      }
      CountsAdd(n, |stream|, |p|);
      n := (n + |p|) % TWO64;
      Feed(p);
    }

    /** The loop of `result`: each chaining word, little-endian, in slot
        order. */
    static method Digest(h: seq<word>) returns (digest: seq<byte>)
      requires |h| == 5
      ensures digest == Serialize(h)
    {
      var d := new byte[20];
      for i := 0 to 5
        invariant forall j :: 0 <= j < 4 * i ==> d[j] == Serialize(h)[j]
      {
        var w := WordBytesLE(h[i]);
        SerializeAt(h, i);
        forall t | 0 <= t < 4 {
          d[4 * i + t] := w[t];
        }
      }
      digest := d[..];
    }

    /** The first half of `result`: feed 0x80 and zeros up to 56 modulo
        64, then the 64-bit little-endian bit count, through `update`. */
    method Pad()
      requires Valid()
      modifies this, buffer, state
      ensures Valid() && m == 0
      ensures stream == old(stream) + PaddingBytes(|old(stream)|)
      ensures n == (old(n) + |PaddingBytes(|old(stream)|)|) % TWO64
    {
      ghost var s0, n0 := stream, n;
      CountsBits(n, |s0|);
      var bits := Encode64LE(BitLength(n));
      var k := if m < 56 then 56 - m else 120 - m;
      assert k == PadLength(|s0| % 64);
      var padding := PadBlock();
      var q := padding[..k];
      Update(q);
      ghost var s1 := stream;
      Update(bits);
      PadFacts(s0, n0, q, bits, s1, stream, n);
    }

    /** `result`: pad, then serialize the chaining value. The digest is
        RIPEMD-160 of everything fed before the call; the padding stays in
        the stream, so a second call pads again. */
    method Result() returns (digest: seq<byte>)
      requires Valid()
      modifies this, buffer, state
      ensures Valid() && m == 0
      ensures stream == old(stream) + PaddingBytes(|old(stream)|)
      ensures n == (old(n) + |PaddingBytes(|old(stream)|)|) % TWO64
      ensures digest == Spec.Ripemd160(old(stream)) && |digest| == 20
    {
      Pad();
      digest := Digest(state[..]);
    }
  }

  /** A client of the engine: feed `chunks` one after the other, then take
      the result. The digest is RIPEMD-160 of the joined stream, however it
      was cut into chunks. */
  method DigestOfChunks(chunks: seq<seq<byte>>) returns (digest: seq<byte>)
    ensures digest == Spec.Ripemd160(Concat(chunks))
  {
    var engine := new Ripemd160();
    for i := 0 to |chunks|
      invariant fresh(engine) && fresh(engine.state) && fresh(engine.buffer)
      invariant engine.Valid() && engine.stream == Concat(chunks[..i])
    {
      assert chunks[..i + 1][..i] == chunks[..i];
      engine.Update(chunks[i]);
    }
    assert chunks[..|chunks|] == chunks;
    digest := engine.Result();
  }
}
