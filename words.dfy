/** Bytes, 32-bit words and the little-endian conversions and rotation the
    digest is built from. These stand for the helpers `detail::read32le`,
    `detail::write32le`, `detail::write64le` and `detail::rotl` that the engine
    includes, and for the test's own `rotl`. */
module Words {

  type byte = bv8
  type word = bv32

  /** 2^64: the modulus of the engine's 64-bit byte counter and bit length. */
  const TWO64: nat := 0x1_0000_0000_0000_0000

  /** A rotation amount the C++ shift pair `(x << n) | (x >> (32 - n))` is
      defined for: shifting a 32-bit value by 32 is undefined behaviour. */
  type Shift = n: bv32 | 0 < n < 32 witness 1

  /** 32-bit left rotation. */
  function Rotl(x: word, n: Shift): word
  {
    (x << n) | (x >> (32 - n))
  }

  /** Rotating left by `n` and then by `32 - n` is a full turn: the
      rotation loses no bit. */
  lemma RotlInverse(x: word, n: Shift)
    ensures Rotl(Rotl(x, n), 32 - n) == x
  {
  }

  /** 32-bit addition wraps around, so it associates and commutes: a sum
      accumulated as `x + (y + z)` is the sum taken the other way round. */
  lemma AddRegroup(x: word, y: word, z: word)
    ensures x + (y + z) == z + y + x
  {
  }

  /** The little-endian word stored in bytes `b[off..off + 4]`. */
  function ReadWordLE(b: seq<byte>, off: nat): word
    requires off + 4 <= |b|
  {
    (b[off] as word) | (b[off + 1] as word << 8) | (b[off + 2] as word << 16) | (b[off + 3] as word << 24)
  }

  /** The four bytes of `w`, least significant first. */
  function WordBytesLE(w: word): (r: seq<byte>)
    ensures |r| == 4
  {
    [(w & 0xFF) as byte, ((w >> 8) & 0xFF) as byte, ((w >> 16) & 0xFF) as byte, (w >> 24) as byte]
  }

  lemma ReadWriteWord(w: word)
    ensures ReadWordLE(WordBytesLE(w), 0) == w
  {
  }

  lemma WriteReadWord(b: seq<byte>, off: nat)
    requires off + 4 <= |b|
    ensures WordBytesLE(ReadWordLE(b, off)) == b[off..off + 4]
  {
  }

  // ---------------------------------------------------------------------
  // Arithmetic modulo 2^64, the width of the byte counter

  /** Reducing modulo 2^64 keeps the residue modulo 64, a divisor of 2^64. */
  lemma ModBlock(x: nat)
    ensures (x % TWO64) % 64 == x % 64
  {
  }

  /** Adding to the wrapped counter wraps like adding to the true count. */
  lemma ModAdd(x: nat, y: nat)
    ensures (x % TWO64 + y) % TWO64 == (x + y) % TWO64
  {
  }

  /** Scaling the wrapped counter to bits wraps like scaling the true count. */
  lemma ModTimes8(x: nat)
    ensures (x % TWO64 * 8) % TWO64 == (x * 8) % TWO64
  {
    var q, r := x / TWO64, x % TWO64;
    assert x * 8 == q * 8 * TWO64 + r * 8;
  }
}
