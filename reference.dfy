/** The table-driven reference implementation of test/ripemd_160.cpp:
    `md_init`, `compress` with its ten sixteen-step loops, and `finish`,
    which builds the padded final block or blocks word by word. Each is
    proved against the definitions of `Spec`, so the reference and the
    engine compute the same compression and the same padding. */
module Reference {
  import opened Words
  import opened Spec

  /** `md_init`: load the initial chaining value. */
  method MdInit(mdBuf: array<word>)
    requires mdBuf.Length == 5
    modifies mdBuf
    ensures mdBuf[..] == IV
  {
    mdBuf[0] := 0x67452301;
    mdBuf[1] := 0xefcdab89;
    mdBuf[2] := 0x98badcfe;
    mdBuf[3] := 0x10325476;
    mdBuf[4] := 0xc3d2e1f0;
  }

  /** The value T of one step: rotl(a + v + x + K, s) + e, where `v` is
      the round function's value on b, c, d. */
  method StepValue(a: word, v: word, xi: word, K: word, s: Shift, e: word) returns (T: word)
    ensures NewB(a, v, xi, K, s, e) == T
  {
    var t := a + v + xi + K;
    NewBFromSum(a, v, xi, K, s, e, t);
    T := Rotl(t, s) + e;
  }

  /** One step of a loop, on the registers a..e of its lane: once b takes
      T and the others move along, the round has advanced by that step. */
  lemma StepFrom(x: seq<word>, lane: Lane, k: RoundIndex, j: StepIndex, i: WordIndex, s: Shift,
                 a: word, b: word, c: word, d: word, e: word, v: word, T: word)
    requires |x| == 16 && i == OrderAt(lane, k, j) && s == ShiftAt(lane, k, j)
    requires v == F(RoundFn(lane, k), b, c, d)
    requires NewB(a, v, x[i], RoundK(lane, k), s, e) == T
    ensures Advances(Regs(a, b, c, d, e), Regs(e, T, b, Rotl(c, 10), d), x, lane, k, j, 1)
  {
    StepAdvances(x, lane, k, j, i, s, Regs(a, b, c, d, e), Regs(e, T, b, Rotl(c, 10), d));
  }

  /** One of the ten loops of `compress`: the sixteen steps of round `k` of
      `lane`, with that round's function `f`, constant `K` and tables `r`
      and `s`. */
  method RoundLoop(a: word, b: word, c: word, d: word, e: word, x: seq<word>, lane: Lane, k: RoundIndex)
    returns (a': word, b': word, c': word, d': word, e': word)
    requires |x| == 16
    ensures Regs(a', b', c', d', e') == Round(Regs(a, b, c, d, e), x, lane, k)
  {
    a', b', c', d', e' := a, b, c, d, e;
    for j := 0 to 16
      invariant Advances(Regs(a, b, c, d, e), Regs(a', b', c', d', e'), x, lane, k, 0, j)
    {
      var K := RoundK(lane, k);
      var r, s := OrderAt(lane, k, j), ShiftAt(lane, k, j);
      var v := F(RoundFn(lane, k), b', c', d');
      var T := StepValue(a', v, x[r], K, s, e');
      StepFrom(x, lane, k, j, r, s, a', b', c', d', e', v, T);
      AdvancesTrans(x, lane, k, 0, j, 1, Regs(a, b, c, d, e), Regs(a', b', c', d', e'), Regs(e', T, b', Rotl(c', 10), d'));
      a' := e';
      e' := d';
      d' := Rotl(c', 10);
      c' := b';
      b' := T;
    }
    RoundAdvances(x, lane, k, Regs(a, b, c, d, e), Regs(a', b', c', d', e'));
  }

  /** The five loops of one lane of `compress`, from the chaining value. */
  method LaneLoops(h: seq<word>, x: seq<word>, lane: Lane) returns (l: seq<word>)
    requires |h| == 5 && |x| == 16
    ensures l == Slots(LaneFrom(Start(h), x, lane, 0))
  {
    var a, b, c, d, e := h[0], h[1], h[2], h[3], h[4];
    a, b, c, d, e := RoundLoop(a, b, c, d, e, x, lane, 0);
    a, b, c, d, e := RoundLoop(a, b, c, d, e, x, lane, 1);
    a, b, c, d, e := RoundLoop(a, b, c, d, e, x, lane, 2);
    a, b, c, d, e := RoundLoop(a, b, c, d, e, x, lane, 3);
    a, b, c, d, e := RoundLoop(a, b, c, d, e, x, lane, 4);
    LaneRounds(Start(h), x, lane);
    l := [a, b, c, d, e];
  }

  /** The combine slot by slot, as `compress` writes it back. */
  lemma CombineWritten(h: seq<word>, l: seq<word>, r: seq<word>, c: seq<word>)
    requires |h| == 5 && |l| == 5 && |r| == 5 && |c| == 5
    requires c[0] == h[1] + l[2] + r[3] && c[1] == h[2] + l[3] + r[4] && c[2] == h[3] + l[4] + r[0]
    requires c[3] == h[4] + l[0] + r[1] && c[4] == h[0] + l[1] + r[2]
    ensures c == Combine(h, l, r)
  {
  }

  /** The end of `compress`: the combine, written back into `mdBuf` in
      place. */
  method WriteBack(mdBuf: array<word>, l: seq<word>, r: seq<word>)
    requires mdBuf.Length == 5 && |l| == 5 && |r| == 5
    modifies mdBuf
    ensures mdBuf[..] == Combine(old(mdBuf[..]), l, r)
  {
    // Every slot is read before it is overwritten, so reading the snapshot
    // `h` gives the same values as reading `mdBuf` in place.
    var h := mdBuf[..];
    var T := h[1] + l[2] + r[3];
    mdBuf[1] := h[2] + l[3] + r[4];
    mdBuf[2] := h[3] + l[4] + r[0];
    mdBuf[3] := h[4] + l[0] + r[1];
    mdBuf[4] := h[0] + l[1] + r[2];
    mdBuf[0] := T;
    ghost var c := mdBuf[..];
    CombineWritten(h, l, r, c);
  }

  /** `compress`: the left lane's five loops, then the right lane's, both
      from `mdBuf`, then the combine written back into `mdBuf`. */
  method Compress(mdBuf: array<word>, x: array<word>)
    requires mdBuf.Length == 5 && x.Length == 16
    modifies mdBuf
    ensures mdBuf[..] == Compression(old(mdBuf[..]), old(x[..]))
  {
    var h := mdBuf[..];
    var X := x[..];
    var l := LaneLoops(h, X, Left);
    var r := LaneLoops(h, X, Right);
    WriteBack(mdBuf, l, r);
    CompressionLanes(h, X);
  }

  // ---------------------------------------------------------------------
  // `finish`: the last block or two, built word by word

  /** The bit `finish` sets with `^=`: bit 7 of byte `t` of a word. */
  function MarkBit(t: nat): word
    requires t < 4
  {
    (1 as word) << (8 * t + 7)
  }

  /** Setting byte `r` of a block leaves every word but word `r / 4` as it
      was. */
  lemma MarkOther(blk: seq<byte>, r: nat, i: nat)
    requires |blk| == 64 && r < 64 && i < 16 && i != r / 4
    ensures ReadWordLE(blk[r := 0x80], 4 * i) == ReadWordLE(blk, 4 * i)
  {
    SameWord(blk, blk[r := 0x80], 4 * i);
  }

  /** Equal bytes read as equal words. */
  lemma SameWord(b: seq<byte>, c: seq<byte>, off: nat)
    requires off + 4 <= |b| == |c|
    requires b[off] == c[off] && b[off + 1] == c[off + 1] && b[off + 2] == c[off + 2] && b[off + 3] == c[off + 3]
    ensures ReadWordLE(c, off) == ReadWordLE(b, off)
  {
  }

  /** The word-level effect of setting byte `t` of a little-endian word
      from 0 to 0x80. */
  lemma MarkWord(b: seq<byte>, off: nat, t: nat)
    requires off + 4 <= |b| && t < 4 && b[off + t] == 0
    ensures ReadWordLE(b[off + t := 0x80], off) == ReadWordLE(b, off) ^ MarkBit(t)
  {
    if t == 0 {
      assert MarkBit(t) == 0x80;
    } else if t == 1 {
      assert MarkBit(t) == 0x8000;
    } else if t == 2 {
      assert MarkBit(t) == 0x80_0000;
    } else {
      assert MarkBit(t) == 0x8000_0000;
    }
  }

  /** The `memcpy` of the block's bytes into the 16 words of X, read
      little-endian. */
  method Load(X: array<word>, block: seq<byte>)
    requires X.Length == 16 && |block| == 64
    modifies X
    ensures X[..] == BlockWords(block)
  {
    forall i | 0 <= i < 16 {
      X[i] := ReadWordLE(block, 4 * i);
    }
  }

  /** The `memset` of X to zero: the words of a block of zero bytes. */
  method Clear(X: array<word>)
    requires X.Length == 16
    modifies X
    ensures X[..] == BlockWords(Zeros(64))
  {
    forall i | 0 <= i < 16 {
      X[i] := 0;
    }
  }

  /** The word and byte `finish` marks, computed from the whole length,
      are those of byte `len % 64` of the block. */
  lemma MarkIndex(len: nat)
    ensures (len / 4) % 16 == (len % 64) / 4 && len % 4 == (len % 64) % 4
  {
    var a, r := len / 64, len % 64;
    assert len == 64 * a + 4 * (r / 4) + r % 4;
    assert len / 4 == 16 * a + r / 4;
  }

  /** The `^=` of `finish`: the 0x80 byte set right after the message
      bytes, in word `(len / 4) % 16`. */
  method Mark(X: array<word>, ghost block: seq<byte>, len: nat)
    requires X.Length == 16 && |block| == 64 && block[len % 64] == 0 && X[..] == BlockWords(block)
    modifies X
    ensures X[..] == BlockWords(block[len % 64 := 0x80])
  {
    MarkIndex(len);
    X[(len / 4) % 16] := X[(len / 4) % 16] ^ MarkBit(len % 4);
    ghost var r := len % 64;
    MarkWord(block, 4 * (r / 4), r % 4);
    assert 4 * (r / 4) + r % 4 == r;
    forall i | 0 <= i < 16
      ensures X[i] == BlockWords(block[r := 0x80])[i]
    {
      if i != r / 4 {
        MarkOther(block, r, i);
      }
    }
  }

  /** The two words of a 64-bit value stored little-endian. */
  lemma LengthWords(v: bv64)
    ensures ReadWordLE(Encode64LE(v), 0) == (v & 0xFFFF_FFFF) as word
    ensures ReadWordLE(Encode64LE(v), 4) == (v >> 32) as word
  {
  }

  /** Words 14 and 15 of a block ending in the encoding of `v` are the low
      and the high half of `v`. */
  lemma LengthInBlock(pre: seq<byte>, v: bv64)
    requires |pre| == 64
    ensures ReadWordLE(pre[..56] + Encode64LE(v), 56) == (v & 0xFFFF_FFFF) as word
    ensures ReadWordLE(pre[..56] + Encode64LE(v), 60) == (v >> 32) as word
  {
    var e, l := pre[..56] + Encode64LE(v), Encode64LE(v);
    assert forall k :: 0 <= k < 8 ==> e[56 + k] == l[k];
    assert ReadWordLE(e, 56) == ReadWordLE(l, 0);
    assert ReadWordLE(e, 60) == ReadWordLE(l, 4);
    LengthWords(v);
  }

  /** The `memcpy` of the bit length into words 14 and 15: the last eight
      bytes of the block become its little-endian encoding. */
  method StoreLength(X: array<word>, ghost pre: seq<byte>, bits: bv64)
    requires X.Length == 16 && |pre| == 64 && X[..] == BlockWords(pre)
    modifies X
    ensures X[..] == BlockWords(pre[..56] + Encode64LE(bits))
  {
    X[14] := (bits & 0xFFFF_FFFF) as word;
    X[15] := (bits >> 32) as word;
    ghost var e := pre[..56] + Encode64LE(bits);
    LengthInBlock(pre, bits);
    forall i | 0 <= i < 14
      ensures X[i] == BlockWords(e)[i]
    {
      SameWord(pre, e, 4 * i);
    }
    assert X[..] == BlockWords(e);
  }

  /** A tail of fewer than 56 bytes is padded within its own block:
      `block` is the tail followed by zeros, as `finish` loads it. */
  lemma FinalOne(h: seq<word>, tail: seq<byte>, len: nat, block: seq<byte>)
    requires |h| == 5 && |tail| == len % 64 < 56 && block == tail + Zeros(64 - |tail|)
    ensures Absorb(h, tail + PaddingBytes(len)) == CompressBlock(h, block[|tail| := 0x80][..56] + Encode64LE(BitLength(len)))
  {
    var last := block[|tail| := 0x80][..56] + Encode64LE(BitLength(len));
    assert tail + PaddingBytes(len) == last;
    AbsorbBlock(h, [], last);
    assert [] + last == last;
  }

  /** A tail of 56 bytes or more spills the length into a second block. */
  lemma FinalTwo(h: seq<word>, tail: seq<byte>, len: nat, block: seq<byte>)
    requires |h| == 5 && 56 <= |tail| == len % 64 && block == tail + Zeros(64 - |tail|)
    ensures Absorb(h, tail + PaddingBytes(len))
         == CompressBlock(CompressBlock(h, block[|tail| := 0x80]), Zeros(64)[..56] + Encode64LE(BitLength(len)))
  {
    var first := block[|tail| := 0x80];
    var second := Zeros(64)[..56] + Encode64LE(BitLength(len));
    assert tail + PaddingBytes(len) == first + second;
    AbsorbBlock(h, [], first);
    assert [] + first == first;
    AbsorbBlock(h, first, second);
  }

  /** `finish`: the 0x80 byte, the zeros and the bit length after the last
      `len % 64` bytes of the message, compressed as one block, or as two
      when fewer than eight bytes are left for the length. */
  method Finish(mdBuf: array<word>, tail: seq<byte>, inputLen: nat)
    requires mdBuf.Length == 5 && inputLen < TWO64 && inputLen % 64 <= |tail|
    modifies mdBuf
    ensures mdBuf[..] == Absorb(old(mdBuf[..]), tail[..inputLen % 64] + PaddingBytes(inputLen))
  {
    ghost var h0 := mdBuf[..];
    var r := inputLen % 64;
    ghost var t := tail[..r];
    var X := new word[16];
    var block := tail[..r] + Zeros(64 - r);
    Load(X, block);
    Mark(X, block, inputLen);
    ghost var last := block[r := 0x80];
    if r >= 56 {
      Compress(mdBuf, X);
      Clear(X);
      last := Zeros(64);
    }
    var bits := BitLength(inputLen);
    StoreLength(X, last, bits);
    Compress(mdBuf, X);
    if r < 56 {
      FinalOne(h0, t, inputLen, block);
    } else {
      FinalTwo(h0, t, inputLen, block);
    }
  }

  /** The padding after the tail is the padding after the whole message. */
  lemma Rejoin(head: seq<byte>, tail: seq<byte>, pad: seq<byte>)
    ensures head + (tail + pad) == head + tail + pad
  {
  }

  /** Bytes after a block-aligned prefix are the last `len % 64` bytes. */
  lemma TailResidue(h: nat, t: nat)
    requires h % 64 == 0 && t < 64
    ensures (h + t) % 64 == t
  {
    assert h + t == 64 * (h / 64) + t;
  }

  /** `finish` on the chaining value of a message's complete blocks `head`
      and on the `len % 64` bytes after them completes the message's
      digest. */
  lemma FinishDigest(head: seq<byte>, tail: seq<byte>)
    requires |head| % 64 == 0 && |tail| < 64
    ensures (|head| + |tail|) % 64 == |tail|
    ensures Serialize(Absorb(Absorb(IV, head), tail + PaddingBytes(|head + tail|))) == Ripemd160(head + tail)
  {
    Rejoin(head, tail, PaddingBytes(|head + tail|));
    AbsorbAppend(IV, head, tail + PaddingBytes(|head + tail|));
    TailResidue(|head|, |tail|);
  }
}
