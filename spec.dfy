/** The RIPEMD-160 algorithm as pure definitions: the round functions, the
    per-round tables of the two lanes, one step, the rounds and lanes, the
    cross-lane combine, the block compression, the MD4-style padding and the
    digest. The tables are those of the reference `compress` in
    test/ripemd_160.cpp; the engine of include/boost/hash2/ripemd.hpp and the
    reference procedures are both proved against these definitions. */
module Spec {
  import opened Words

  // ---------------------------------------------------------------------
  // Round functions (the same five in ripemd.hpp and in the test)

  function F1(x: word, y: word, z: word): word { x ^ y ^ z }

  /** F1 is the bitwise parity of its arguments: it ignores their order, and
      with two arguments fixed it is its own inverse in the third. */
  lemma F1Parity(x: word, y: word, z: word)
    ensures F1(x, y, z) == F1(y, x, z) == F1(x, z, y)
    ensures F1(F1(x, y, z), y, z) == x
  {
  }

  /** Bitwise choice: where `x` is set take `y`, elsewhere `z`. */
  function F2(x: word, y: word, z: word): (r: word)
    ensures r & x == y & x && r & !x == z & !x
  {
    (x & y) | (!x & z)
  }

  function F3(x: word, y: word, z: word): word { (x | !y) ^ z }

  /** Where `y` is set F3 is `x ^ z`, elsewhere it is the complement of `z`. */
  lemma F3Cases(x: word, y: word, z: word)
    ensures F3(x, y, z) & y == (x ^ z) & y
    ensures F3(x, y, z) & !y == !z & !y
  {
  }

  /** Bitwise choice steered by `z`: where `z` is set take `x`, elsewhere `y`. */
  function F4(x: word, y: word, z: word): (r: word)
    ensures r & z == x & z && r & !z == y & !z
  {
    (x & z) | (y & !z)
  }

  function F5(x: word, y: word, z: word): word { x ^ (y | !z) }

  /** F5 is F3 with its arguments rotated: where `z` is set it is `x ^ y`,
      elsewhere the complement of `x`. */
  lemma F5FromF3(x: word, y: word, z: word)
    ensures F5(x, y, z) == F3(y, z, x)
    ensures F5(x, y, z) & z == (x ^ y) & z
    ensures F5(x, y, z) & !z == !x & !z
  {
  }

  type FnIndex = f: nat | 1 <= f <= 5 witness 1

  /** Round function number `f`. */
  function F(f: FnIndex, x: word, y: word, z: word): word
  {
    if f == 1 then F1(x, y, z)
    else if f == 2 then F2(x, y, z)
    else if f == 3 then F3(x, y, z)
    else if f == 4 then F4(x, y, z)
    else F5(x, y, z)
  }

  // ---------------------------------------------------------------------
  // Per-lane, per-round tables

  datatype Lane = Left | Right

  type RoundIndex = k: nat | k < 5
  type StepIndex = j: nat | j < 16
  type WordIndex = i: nat | i < 16

  /** The left lane runs f1..f5 in order, the right lane f5..f1. */
  function RoundFn(lane: Lane, k: RoundIndex): (f: FnIndex)
    ensures lane == Left ==> f == k + 1
    ensures lane == Right ==> f == 5 - k
  {
    match lane
    case Left => k + 1
    case Right => 5 - k
  }

  /** The right lane runs the left lane's round functions backwards. */
  lemma RoundFnMirror(k: RoundIndex)
    ensures RoundFn(Right, k) == RoundFn(Left, 4 - k)
  {
  }

  /** The round of `lane` that uses round function `f`. */
  function RoundUsing(lane: Lane, f: FnIndex): RoundIndex
  {
    match lane
    case Left => f - 1
    case Right => 5 - f
  }

  /** Each lane uses each of the five round functions in exactly one round:
      `RoundUsing` undoes `RoundFn` on both sides. */
  lemma RoundFnOnce(lane: Lane)
    ensures forall f: FnIndex :: RoundFn(lane, RoundUsing(lane, f)) == f
    ensures forall k: RoundIndex :: RoundUsing(lane, RoundFn(lane, k)) == k
  {
  }

  /** The additive constants, K for the left lane and K' for the right. */
  const KL0: word := 0x0000_0000
  const KL1: word := 0x5A82_7999
  const KL2: word := 0x6ED9_EBA1
  const KL3: word := 0x8F1B_BCDC
  const KL4: word := 0xA953_FD4E
  const KR0: word := 0x50A2_8BE6
  const KR1: word := 0x5C4D_D124
  const KR2: word := 0x6D70_3EF3
  const KR3: word := 0x7A6D_76E9
  const KR4: word := 0x0000_0000

  function RoundK(lane: Lane, k: RoundIndex): word
  {
    match lane
    case Left =>
      if k == 0 then KL0 else if k == 1 then KL1 else if k == 2 then KL2 else if k == 3 then KL3 else KL4
    case Right =>
      if k == 0 then KR0 else if k == 1 then KR1 else if k == 2 then KR2 else if k == 3 then KR3 else KR4
  }

  /** The `r` tables: the message word step `j` of round `k` of `lane` reads. */
  function OrderAt(lane: Lane, k: RoundIndex, j: StepIndex): WordIndex
  {
    match lane
    case Left =>
      if k == 0 then (if j < 8 then (if j < 4 then (if j < 2 then (if j < 1 then 0 else 1) else (if j < 3 then 2 else 3)) else (if j < 6 then (if j < 5 then 4 else 5) else (if j < 7 then 6 else 7))) else (if j < 12 then (if j < 10 then (if j < 9 then 8 else 9) else (if j < 11 then 10 else 11)) else (if j < 14 then (if j < 13 then 12 else 13) else (if j < 15 then 14 else 15))))
      else if k == 1 then (if j < 8 then (if j < 4 then (if j < 2 then (if j < 1 then 7 else 4) else (if j < 3 then 13 else 1)) else (if j < 6 then (if j < 5 then 10 else 6) else (if j < 7 then 15 else 3))) else (if j < 12 then (if j < 10 then (if j < 9 then 12 else 0) else (if j < 11 then 9 else 5)) else (if j < 14 then (if j < 13 then 2 else 14) else (if j < 15 then 11 else 8))))
      else if k == 2 then (if j < 8 then (if j < 4 then (if j < 2 then (if j < 1 then 3 else 10) else (if j < 3 then 14 else 4)) else (if j < 6 then (if j < 5 then 9 else 15) else (if j < 7 then 8 else 1))) else (if j < 12 then (if j < 10 then (if j < 9 then 2 else 7) else (if j < 11 then 0 else 6)) else (if j < 14 then (if j < 13 then 13 else 11) else (if j < 15 then 5 else 12))))
      else if k == 3 then (if j < 8 then (if j < 4 then (if j < 2 then (if j < 1 then 1 else 9) else (if j < 3 then 11 else 10)) else (if j < 6 then (if j < 5 then 0 else 8) else (if j < 7 then 12 else 4))) else (if j < 12 then (if j < 10 then (if j < 9 then 13 else 3) else (if j < 11 then 7 else 15)) else (if j < 14 then (if j < 13 then 14 else 5) else (if j < 15 then 6 else 2))))
      else (if j < 8 then (if j < 4 then (if j < 2 then (if j < 1 then 4 else 0) else (if j < 3 then 5 else 9)) else (if j < 6 then (if j < 5 then 7 else 12) else (if j < 7 then 2 else 10))) else (if j < 12 then (if j < 10 then (if j < 9 then 14 else 1) else (if j < 11 then 3 else 8)) else (if j < 14 then (if j < 13 then 11 else 6) else (if j < 15 then 15 else 13))))
    case Right =>
      if k == 0 then (if j < 8 then (if j < 4 then (if j < 2 then (if j < 1 then 5 else 14) else (if j < 3 then 7 else 0)) else (if j < 6 then (if j < 5 then 9 else 2) else (if j < 7 then 11 else 4))) else (if j < 12 then (if j < 10 then (if j < 9 then 13 else 6) else (if j < 11 then 15 else 8)) else (if j < 14 then (if j < 13 then 1 else 10) else (if j < 15 then 3 else 12))))
      else if k == 1 then (if j < 8 then (if j < 4 then (if j < 2 then (if j < 1 then 6 else 11) else (if j < 3 then 3 else 7)) else (if j < 6 then (if j < 5 then 0 else 13) else (if j < 7 then 5 else 10))) else (if j < 12 then (if j < 10 then (if j < 9 then 14 else 15) else (if j < 11 then 8 else 12)) else (if j < 14 then (if j < 13 then 4 else 9) else (if j < 15 then 1 else 2))))
      else if k == 2 then (if j < 8 then (if j < 4 then (if j < 2 then (if j < 1 then 15 else 5) else (if j < 3 then 1 else 3)) else (if j < 6 then (if j < 5 then 7 else 14) else (if j < 7 then 6 else 9))) else (if j < 12 then (if j < 10 then (if j < 9 then 11 else 8) else (if j < 11 then 12 else 2)) else (if j < 14 then (if j < 13 then 10 else 0) else (if j < 15 then 4 else 13))))
      else if k == 3 then (if j < 8 then (if j < 4 then (if j < 2 then (if j < 1 then 8 else 6) else (if j < 3 then 4 else 1)) else (if j < 6 then (if j < 5 then 3 else 11) else (if j < 7 then 15 else 0))) else (if j < 12 then (if j < 10 then (if j < 9 then 5 else 12) else (if j < 11 then 2 else 13)) else (if j < 14 then (if j < 13 then 9 else 7) else (if j < 15 then 10 else 14))))
      else (if j < 8 then (if j < 4 then (if j < 2 then (if j < 1 then 12 else 15) else (if j < 3 then 10 else 4)) else (if j < 6 then (if j < 5 then 1 else 5) else (if j < 7 then 8 else 7))) else (if j < 12 then (if j < 10 then (if j < 9 then 6 else 2) else (if j < 11 then 13 else 14)) else (if j < 14 then (if j < 13 then 0 else 3) else (if j < 15 then 9 else 11))))
  }

  /** The `s` tables: how far step `j` of round `k` of `lane` rotates. */
  function ShiftAt(lane: Lane, k: RoundIndex, j: StepIndex): Shift
  {
    match lane
    case Left =>
      if k == 0 then (if j < 8 then (if j < 4 then (if j < 2 then (if j < 1 then 11 else 14) else (if j < 3 then 15 else 12)) else (if j < 6 then (if j < 5 then 5 else 8) else (if j < 7 then 7 else 9))) else (if j < 12 then (if j < 10 then (if j < 9 then 11 else 13) else (if j < 11 then 14 else 15)) else (if j < 14 then (if j < 13 then 6 else 7) else (if j < 15 then 9 else 8))))
      else if k == 1 then (if j < 8 then (if j < 4 then (if j < 2 then (if j < 1 then 7 else 6) else (if j < 3 then 8 else 13)) else (if j < 6 then (if j < 5 then 11 else 9) else (if j < 7 then 7 else 15))) else (if j < 12 then (if j < 10 then (if j < 9 then 7 else 12) else (if j < 11 then 15 else 9)) else (if j < 14 then (if j < 13 then 11 else 7) else (if j < 15 then 13 else 12))))
      else if k == 2 then (if j < 8 then (if j < 4 then (if j < 2 then (if j < 1 then 11 else 13) else (if j < 3 then 6 else 7)) else (if j < 6 then (if j < 5 then 14 else 9) else (if j < 7 then 13 else 15))) else (if j < 12 then (if j < 10 then (if j < 9 then 14 else 8) else (if j < 11 then 13 else 6)) else (if j < 14 then (if j < 13 then 5 else 12) else (if j < 15 then 7 else 5))))
      else if k == 3 then (if j < 8 then (if j < 4 then (if j < 2 then (if j < 1 then 11 else 12) else (if j < 3 then 14 else 15)) else (if j < 6 then (if j < 5 then 14 else 15) else (if j < 7 then 9 else 8))) else (if j < 12 then (if j < 10 then (if j < 9 then 9 else 14) else (if j < 11 then 5 else 6)) else (if j < 14 then (if j < 13 then 8 else 6) else (if j < 15 then 5 else 12))))
      else (if j < 8 then (if j < 4 then (if j < 2 then (if j < 1 then 9 else 15) else (if j < 3 then 5 else 11)) else (if j < 6 then (if j < 5 then 6 else 8) else (if j < 7 then 13 else 12))) else (if j < 12 then (if j < 10 then (if j < 9 then 5 else 12) else (if j < 11 then 13 else 14)) else (if j < 14 then (if j < 13 then 11 else 8) else (if j < 15 then 5 else 6))))
    case Right =>
      if k == 0 then (if j < 8 then (if j < 4 then (if j < 2 then (if j < 1 then 8 else 9) else (if j < 3 then 9 else 11)) else (if j < 6 then (if j < 5 then 13 else 15) else (if j < 7 then 15 else 5))) else (if j < 12 then (if j < 10 then (if j < 9 then 7 else 7) else (if j < 11 then 8 else 11)) else (if j < 14 then (if j < 13 then 14 else 14) else (if j < 15 then 12 else 6))))
      else if k == 1 then (if j < 8 then (if j < 4 then (if j < 2 then (if j < 1 then 9 else 13) else (if j < 3 then 15 else 7)) else (if j < 6 then (if j < 5 then 12 else 8) else (if j < 7 then 9 else 11))) else (if j < 12 then (if j < 10 then (if j < 9 then 7 else 7) else (if j < 11 then 12 else 7)) else (if j < 14 then (if j < 13 then 6 else 15) else (if j < 15 then 13 else 11))))
      else if k == 2 then (if j < 8 then (if j < 4 then (if j < 2 then (if j < 1 then 9 else 7) else (if j < 3 then 15 else 11)) else (if j < 6 then (if j < 5 then 8 else 6) else (if j < 7 then 6 else 14))) else (if j < 12 then (if j < 10 then (if j < 9 then 12 else 13) else (if j < 11 then 5 else 14)) else (if j < 14 then (if j < 13 then 13 else 13) else (if j < 15 then 7 else 5))))
      else if k == 3 then (if j < 8 then (if j < 4 then (if j < 2 then (if j < 1 then 15 else 5) else (if j < 3 then 8 else 11)) else (if j < 6 then (if j < 5 then 14 else 14) else (if j < 7 then 6 else 14))) else (if j < 12 then (if j < 10 then (if j < 9 then 6 else 9) else (if j < 11 then 12 else 9)) else (if j < 14 then (if j < 13 then 12 else 5) else (if j < 15 then 15 else 8))))
      else (if j < 8 then (if j < 4 then (if j < 2 then (if j < 1 then 8 else 5) else (if j < 3 then 12 else 9)) else (if j < 6 then (if j < 5 then 12 else 5) else (if j < 7 then 14 else 6))) else (if j < 12 then (if j < 10 then (if j < 9 then 8 else 13) else (if j < 11 then 6 else 5)) else (if j < 14 then (if j < 13 then 15 else 13) else (if j < 15 then 11 else 11))))
  }

  /** The step of round `k` of `lane` that reads message word `v`: the
      inverse of the `r` table. */
  function StepReading(lane: Lane, k: RoundIndex, v: WordIndex): StepIndex
  {
    match lane
    case Left =>
      if k == 0 then (if v < 8 then (if v < 4 then (if v < 2 then (if v < 1 then 0 else 1) else (if v < 3 then 2 else 3)) else (if v < 6 then (if v < 5 then 4 else 5) else (if v < 7 then 6 else 7))) else (if v < 12 then (if v < 10 then (if v < 9 then 8 else 9) else (if v < 11 then 10 else 11)) else (if v < 14 then (if v < 13 then 12 else 13) else (if v < 15 then 14 else 15))))
      else if k == 1 then (if v < 8 then (if v < 4 then (if v < 2 then (if v < 1 then 9 else 3) else (if v < 3 then 12 else 7)) else (if v < 6 then (if v < 5 then 1 else 11) else (if v < 7 then 5 else 0))) else (if v < 12 then (if v < 10 then (if v < 9 then 15 else 10) else (if v < 11 then 4 else 14)) else (if v < 14 then (if v < 13 then 8 else 2) else (if v < 15 then 13 else 6))))
      else if k == 2 then (if v < 8 then (if v < 4 then (if v < 2 then (if v < 1 then 10 else 7) else (if v < 3 then 8 else 0)) else (if v < 6 then (if v < 5 then 3 else 14) else (if v < 7 then 11 else 9))) else (if v < 12 then (if v < 10 then (if v < 9 then 6 else 4) else (if v < 11 then 1 else 13)) else (if v < 14 then (if v < 13 then 15 else 12) else (if v < 15 then 2 else 5))))
      else if k == 3 then (if v < 8 then (if v < 4 then (if v < 2 then (if v < 1 then 4 else 0) else (if v < 3 then 15 else 9)) else (if v < 6 then (if v < 5 then 7 else 13) else (if v < 7 then 14 else 10))) else (if v < 12 then (if v < 10 then (if v < 9 then 5 else 1) else (if v < 11 then 3 else 2)) else (if v < 14 then (if v < 13 then 6 else 8) else (if v < 15 then 12 else 11))))
      else (if v < 8 then (if v < 4 then (if v < 2 then (if v < 1 then 1 else 9) else (if v < 3 then 6 else 10)) else (if v < 6 then (if v < 5 then 0 else 2) else (if v < 7 then 13 else 4))) else (if v < 12 then (if v < 10 then (if v < 9 then 11 else 3) else (if v < 11 then 7 else 12)) else (if v < 14 then (if v < 13 then 5 else 15) else (if v < 15 then 8 else 14))))
    case Right =>
      if k == 0 then (if v < 8 then (if v < 4 then (if v < 2 then (if v < 1 then 3 else 12) else (if v < 3 then 5 else 14)) else (if v < 6 then (if v < 5 then 7 else 0) else (if v < 7 then 9 else 2))) else (if v < 12 then (if v < 10 then (if v < 9 then 11 else 4) else (if v < 11 then 13 else 6)) else (if v < 14 then (if v < 13 then 15 else 8) else (if v < 15 then 1 else 10))))
      else if k == 1 then (if v < 8 then (if v < 4 then (if v < 2 then (if v < 1 then 4 else 14) else (if v < 3 then 15 else 2)) else (if v < 6 then (if v < 5 then 12 else 6) else (if v < 7 then 0 else 3))) else (if v < 12 then (if v < 10 then (if v < 9 then 10 else 13) else (if v < 11 then 7 else 1)) else (if v < 14 then (if v < 13 then 11 else 5) else (if v < 15 then 8 else 9))))
      else if k == 2 then (if v < 8 then (if v < 4 then (if v < 2 then (if v < 1 then 13 else 2) else (if v < 3 then 11 else 3)) else (if v < 6 then (if v < 5 then 14 else 1) else (if v < 7 then 6 else 4))) else (if v < 12 then (if v < 10 then (if v < 9 then 9 else 7) else (if v < 11 then 12 else 8)) else (if v < 14 then (if v < 13 then 10 else 15) else (if v < 15 then 5 else 0))))
      else if k == 3 then (if v < 8 then (if v < 4 then (if v < 2 then (if v < 1 then 7 else 3) else (if v < 3 then 10 else 4)) else (if v < 6 then (if v < 5 then 2 else 8) else (if v < 7 then 1 else 13))) else (if v < 12 then (if v < 10 then (if v < 9 then 0 else 12) else (if v < 11 then 14 else 5)) else (if v < 14 then (if v < 13 then 9 else 11) else (if v < 15 then 15 else 6))))
      else (if v < 8 then (if v < 4 then (if v < 2 then (if v < 1 then 12 else 4) else (if v < 3 then 9 else 13)) else (if v < 6 then (if v < 5 then 3 else 5) else (if v < 7 then 8 else 7))) else (if v < 12 then (if v < 10 then (if v < 9 then 6 else 14) else (if v < 11 then 2 else 15)) else (if v < 14 then (if v < 13 then 0 else 10) else (if v < 15 then 11 else 1))))
  }

  /** Every `r` table is a permutation of 0..15: `StepReading` undoes it on
      both sides, so each step of a round reads a different message word and
      every word is read once per round. */
  lemma OrderIsPermutation(lane: Lane, k: RoundIndex)
    ensures forall j: StepIndex :: StepReading(lane, k, OrderAt(lane, k, j)) == j
    ensures forall v: WordIndex :: OrderAt(lane, k, StepReading(lane, k, v)) == v
  {
  }

  /** Two different steps of a round read two different message words. */
  lemma OrderDistinct(lane: Lane, k: RoundIndex, i: StepIndex, j: StepIndex)
    requires i != j
    ensures OrderAt(lane, k, i) != OrderAt(lane, k, j)
  {
    OrderIsPermutation(lane, k);
    assert StepReading(lane, k, OrderAt(lane, k, i)) == i;
    assert StepReading(lane, k, OrderAt(lane, k, j)) == j;
  }

  /** Every message word is read by some step of every round. */
  lemma OrderCovers(lane: Lane, k: RoundIndex, v: WordIndex)
    ensures exists j: StepIndex :: OrderAt(lane, k, j) == v
  {
    OrderIsPermutation(lane, k);
    assert OrderAt(lane, k, StepReading(lane, k, v)) == v;
  }

  /** Every `s` entry lies in 5..15, well inside the range a 32-bit rotation
      is defined for. */
  lemma ShiftsInRange(lane: Lane, k: RoundIndex, j: StepIndex)
    ensures 5 <= ShiftAt(lane, k, j) <= 15
  {
  }

  // ---------------------------------------------------------------------
  // One step, the rounds, the lanes and the combine

  /** The five working registers of one lane, in the roles A..E they play
      at the current step. */
  datatype Regs = Regs(a: word, b: word, c: word, d: word, e: word)

  /** The sum A + v + x + K that one step rotates, where `v` is the round
      function's value on (B, C, D), `x` the message word and `k` the
      round constant. */
  function StepSum(a: word, v: word, x: word, k: word): word
  {
    a + v + x + k
  }

  /** Rotating `t` left by `s` and adding E. */
  function RotlAdd(t: word, s: Shift, e: word): word
  {
    Rotl(t, s) + e
  }

  /** The value T one step computes: rotl(A + v + x + K, s) + E. */
  function NewB(a: word, v: word, x: word, k: word, s: Shift, e: word): word
  {
    RotlAdd(StepSum(a, v, x, k), s, e)
  }

  /** The engine adds `v + x + k` to A in one go; 32-bit addition wraps
      around, so the grouping does not matter. */
  lemma StepSumGrouped(a: word, v: word, x: word, k: word, t: word)
    requires t == a + (v + x + k)
    ensures StepSum(a, v, x, k) == t
  {
  }

  lemma RotlAddValue(t: word, s: Shift, e: word)
    ensures RotlAdd(t, s, e) == Rotl(t, s) + e
  {
  }

  /** Once A holds the step's sum `t`, rotating it and adding E gives T. */
  lemma NewBFromSum(a: word, v: word, x: word, k: word, s: Shift, e: word, t: word)
    requires t == StepSum(a, v, x, k)
    ensures NewB(a, v, x, k, s, e) == Rotl(t, s) + e
  {
    RotlAddValue(t, s, e);
  }

  /** One step: T = rotl(A + f(B, C, D) + x + K, s) + E; then
      A = E, E = D, D = rotl(C, 10), C = B, B = T. */
  function Step(r: Regs, f: FnIndex, k: word, x: word, s: Shift): Regs
  {
    Regs(r.e, NewB(r.a, F(f, r.b, r.c, r.d), x, k, s, r.e), r.b, Rotl(r.c, 10), r.d)
  }

  /** Step `j` of round `k` of `lane` on the message words `x`. */
  function LaneStep(r: Regs, x: seq<word>, lane: Lane, k: RoundIndex, j: StepIndex): Regs
    requires |x| == 16
  {
    Step(r, RoundFn(lane, k), RoundK(lane, k), x[OrderAt(lane, k, j)], ShiftAt(lane, k, j))
  }

  // The round is a recursion over the step index. Each function's
  // `decreases` also names the registers, which keeps the verifier from
  // evaluating a whole round whenever the step index is a literal.

  /** Round `k` of `lane` from step `j` on: the registers `q` once steps
      `j`..15 have run. */
  function RoundFrom(q: Regs, x: seq<word>, lane: Lane, k: RoundIndex, j: nat): Regs
    requires |x| == 16 && j <= 16
    decreases 16 - j, 1, q, x
  {
    if j == 16 then q else StepThen(q, x, lane, k, j)
  }

  /** Step `j` of the round, then the rest of the round. */
  function StepThen(q: Regs, x: seq<word>, lane: Lane, k: RoundIndex, j: StepIndex): Regs
    requires |x| == 16
    decreases 16 - j, 0, q, x
  {
    RoundFrom(LaneStep(q, x, lane, k, j), x, lane, k, j + 1)
  }

  /** Round `k` of `lane`: its sixteen steps on `q`. */
  function Round(q: Regs, x: seq<word>, lane: Lane, k: RoundIndex): Regs
    requires |x| == 16
  {
    RoundFrom(q, x, lane, k, 0)
  }

  /** Running steps `j`..`j + n - 1` of round `k` takes `q` to `q'`, as far
      as the rest of the round is concerned. */
  predicate Advances(q: Regs, q': Regs, x: seq<word>, lane: Lane, k: RoundIndex, j: nat, n: nat)
    requires |x| == 16 && j + n <= 16
  {
    RoundFrom(q', x, lane, k, j + n) == RoundFrom(q, x, lane, k, j)
  }

  /** One step at a time: if `q'` is step `j` applied to `q`, then `q`
      advances to `q'` over that step. */
  lemma StepAdvances(x: seq<word>, lane: Lane, k: RoundIndex, j: StepIndex, i: WordIndex, s: Shift, q: Regs, q': Regs)
    requires |x| == 16
    requires OrderAt(lane, k, j) == i && ShiftAt(lane, k, j) == s
    requires q' == Step(q, RoundFn(lane, k), RoundK(lane, k), x[i], s)
    ensures Advances(q, q', x, lane, k, j, 1)
  {
  }

  /** Advancing over steps `j`..`j + m - 1` and then over the next `n`
      steps is advancing over all `m + n`. */
  lemma AdvancesTrans(x: seq<word>, lane: Lane, k: RoundIndex, j: nat, m: nat, n: nat, q: Regs, q': Regs, q'': Regs)
    requires |x| == 16 && j + m + n <= 16
    requires Advances(q, q', x, lane, k, j, m) && Advances(q', q'', x, lane, k, j + m, n)
    ensures Advances(q, q'', x, lane, k, j, m + n)
  {
  }

  /** A whole round is an advance over all sixteen steps. */
  lemma RoundAdvances(x: seq<word>, lane: Lane, k: RoundIndex, q: Regs, q': Regs)
    requires |x| == 16
    ensures Advances(q, q', x, lane, k, 0, 16) <==> q' == Round(q, x, lane, k)
  {
  }

  /** The lane from round `k` on: the registers `q` once rounds `k`..4 have run. */
  function LaneFrom(q: Regs, x: seq<word>, lane: Lane, k: nat): Regs
    requires |x| == 16 && k <= 5
    decreases 5 - k, q, x
  {
    if k == 5 then q else LaneFrom(Round(q, x, lane, k), x, lane, k + 1)
  }

  /** A lane is its five rounds in order. */
  lemma LaneRounds(q: Regs, x: seq<word>, lane: Lane)
    requires |x| == 16
    ensures LaneFrom(q, x, lane, 0)
         == Round(Round(Round(Round(Round(q, x, lane, 0), x, lane, 1), x, lane, 2), x, lane, 3), x, lane, 4)
  {
    var q1 := Round(q, x, lane, 0);
    var q2 := Round(q1, x, lane, 1);
    var q3 := Round(q2, x, lane, 2);
    var q4 := Round(q3, x, lane, 3);
    var q5 := Round(q4, x, lane, 4);
    assert LaneFrom(q4, x, lane, 4) == LaneFrom(q5, x, lane, 5) == q5;
    assert LaneFrom(q2, x, lane, 2) == LaneFrom(q3, x, lane, 3) == LaneFrom(q4, x, lane, 4);
    assert LaneFrom(q, x, lane, 0) == LaneFrom(q1, x, lane, 1) == LaneFrom(q2, x, lane, 2);
  }

  /** The registers of the chaining value `h`, in slot order. */
  function Start(h: seq<word>): Regs
    requires |h| == 5
  {
    Regs(h[0], h[1], h[2], h[3], h[4])
  }

  /** The registers A..E of `r` in order, so that the combine can name a
      register by its distance from another. */
  function Slots(r: Regs): (s: seq<word>)
    ensures |s| == 5
  {
    [r.a, r.b, r.c, r.d, r.e]
  }

  /** The cross-lane combine: new slot i is old slot i + 1 plus the left
      lane's register i + 2 and the right lane's register i + 3, counted
      cyclically through A..E. */
  function Combine(h: seq<word>, l: seq<word>, r: seq<word>): (h': seq<word>)
    requires |h| == 5 && |l| == 5 && |r| == 5
    ensures |h'| == 5
  {
    [h[1] + l[2] + r[3], h[2] + l[3] + r[4], h[3] + l[4] + r[0], h[4] + l[0] + r[1], h[0] + l[1] + r[2]]
  }

  /** The combine as the reference implementation writes it, with slot 0
      accumulated as r[3] + (l[2] + h[1]), yields the same chaining value. */
  lemma CombineInPlace(h: seq<word>, l: seq<word>, r: seq<word>, c: seq<word>)
    requires |h| == 5 && |l| == 5 && |r| == 5 && |c| == 5
    requires c[0] == r[3] + (l[2] + h[1])
    requires c[1] == h[2] + l[3] + r[4]
    requires c[2] == h[3] + l[4] + r[0]
    requires c[3] == h[4] + l[0] + r[1]
    requires c[4] == h[0] + l[1] + r[2]
    ensures c == Combine(h, l, r)
  {
    AddRegroup(r[3], l[2], h[1]);
  }

  /** Rounds `k`..4 of both lanes, from registers `l` and `r`, followed by
      the combine with the chaining value `h`. */
  function CompressFrom(h: seq<word>, x: seq<word>, l: Regs, r: Regs, k: nat): (h': seq<word>)
    requires |h| == 5 && |x| == 16 && k <= 5
    ensures |h'| == 5
    decreases 5 - k
  {
    if k == 5 then Combine(h, Slots(l), Slots(r))
    else CompressFrom(h, x, Round(l, x, Left, k), Round(r, x, Right, k), k + 1)
  }

  /** The compression function on chaining value `h` and message words `x`:
      both lanes start from `h` and run their five rounds side by side, each
      without looking at the other, and the combine merges them. */
  function Compression(h: seq<word>, x: seq<word>): (h': seq<word>)
    requires |h| == 5 && |x| == 16
    ensures |h'| == 5
  {
    CompressFrom(h, x, Start(h), Start(h), 0)
  }

  /** Running the lanes side by side is running each lane on its own. */
  lemma {:induction false} CompressFromLanes(h: seq<word>, x: seq<word>, l: Regs, r: Regs, k: nat)
    requires |h| == 5 && |x| == 16 && k <= 5
    ensures CompressFrom(h, x, l, r, k)
         == Combine(h, Slots(LaneFrom(l, x, Left, k)), Slots(LaneFrom(r, x, Right, k)))
    decreases 5 - k
  {
    if k < 5 {
      CompressFromLanes(h, x, Round(l, x, Left, k), Round(r, x, Right, k), k + 1);
    }
  }

  /** The compression is the combine of the two lanes, each run from `h`. */
  lemma CompressionLanes(h: seq<word>, x: seq<word>)
    requires |h| == 5 && |x| == 16
    ensures Compression(h, x)
         == Combine(h, Slots(LaneFrom(Start(h), x, Left, 0)), Slots(LaneFrom(Start(h), x, Right, 0)))
  {
    CompressFromLanes(h, x, Start(h), Start(h), 0);
  }

  /** The initial chaining value. */
  const IV: seq<word> := [0x6745_2301, 0xEFCD_AB89, 0x98BA_DCFE, 0x1032_5476, 0xC3D2_E1F0]

  // ---------------------------------------------------------------------
  // Blocks, padding and the digest

  /** The sixteen little-endian words of a 64-byte block. */
  function BlockWords(block: seq<byte>): (x: seq<word>)
    requires |block| == 64
    ensures |x| == 16
    ensures forall i :: 0 <= i < 16 ==> x[i] == ReadWordLE(block, 4 * i)
  {
    seq(16, i requires 0 <= i < 16 => ReadWordLE(block, 4 * i))
  }

  function CompressBlock(h: seq<word>, block: seq<byte>): (h': seq<word>)
    requires |h| == 5 && |block| == 64
    ensures |h'| == 5
  {
    Compression(h, BlockWords(block))
  }

  /** `h` folded through the compression over every complete 64-byte block
      of `s`, in order; a trailing partial block is not absorbed. */
  function Absorb(h: seq<word>, s: seq<byte>): (h': seq<word>)
    requires |h| == 5
    ensures |h'| == 5
    decreases |s|
  {
    if |s| < 64 then h else Absorb(CompressBlock(h, s[..64]), s[64..])
  }

  /** Absorbing a block-aligned prefix and then the rest is absorbing the
      whole: how the stream is cut into chunks does not matter. */
  lemma {:induction false} AbsorbAppend(h: seq<word>, s: seq<byte>, t: seq<byte>)
    requires |h| == 5 && |s| % 64 == 0
    ensures Absorb(h, s + t) == Absorb(Absorb(h, s), t)
    decreases |s|
  {
    if |s| == 0 {
      assert s + t == t;
    } else {
      var h' := CompressBlock(h, s[..64]);
      assert (s + t)[..64] == s[..64];
      assert (s + t)[64..] == s[64..] + t;
      assert Absorb(h, s + t) == Absorb(h', s[64..] + t);
      assert Absorb(h, s) == Absorb(h', s[64..]);
      AbsorbAppend(h', s[64..], t);
    }
  }

  /** Appending one block to a block-aligned stream compresses it once more. */
  lemma AbsorbBlock(h: seq<word>, s: seq<byte>, block: seq<byte>)
    requires |h| == 5 && |s| % 64 == 0 && |block| == 64
    ensures Absorb(h, s + block) == CompressBlock(Absorb(h, s), block)
  {
    AbsorbAppend(h, s, block);
    var h' := Absorb(h, s);
    assert block[..64] == block && block[64..] == [];
    assert Absorb(h', block) == Absorb(CompressBlock(h', block), []);
  }

  /** Bytes after the last complete block are not absorbed. */
  lemma AbsorbPartial(h: seq<word>, s: seq<byte>, t: seq<byte>)
    requires |h| == 5 && |s| % 64 == 0 && |t| < 64
    ensures Absorb(h, s + t) == Absorb(h, s)
  {
    AbsorbAppend(h, s, t);
  }

  /** Cutting `s` at `c` and appending `t` to the second piece. */
  lemma SplitAt(s: seq<byte>, t: seq<byte>, c: nat)
    requires c <= |s|
    ensures s == s[..c] + s[c..] && s + t == s[..c] + (s[c..] + t)
  {
  }

  /** Appending the slice j..k of `p` to the slice i..j. */
  lemma TakeMore(s: seq<byte>, p: seq<byte>, i: nat, j: nat, k: nat)
    requires i <= j <= k <= |p|
    ensures s + p[i..j] + p[j..k] == s + p[i..k]
  {
  }

  /** Appending the slice i..j of `p` to its first `i` bytes. */
  lemma TakeUpTo(s: seq<byte>, p: seq<byte>, i: nat, j: nat)
    requires i <= j <= |p|
    ensures s + p[..i] + p[i..j] == s + p[..j]
  {
  }

  /** Appending the rest of `p` after its first `i` bytes. */
  lemma TakeRest(s: seq<byte>, p: seq<byte>, i: nat)
    requires i <= |p|
    ensures s + p[..i] + p[i..] == s + p
  {
    assert p[..i] + p[i..] == p;
  }

  /** How adding `k` bytes to a stream of `len` bytes moves its block
      count and its partial block. */
  lemma BlockCount(len: nat, k: nat)
    ensures len % 64 + k < 64 ==> (len + k) / 64 == len / 64 && (len + k) % 64 == len % 64 + k
    ensures len % 64 + k == 64 ==> (len + k) / 64 == len / 64 + 1 && (len + k) % 64 == 0
  {
    var q, r := len / 64, len % 64;
    assert len + k == 64 * q + (r + k);
    if r + k == 64 {
      assert len + k == 64 * (q + 1);
    }
  }

  /** Cutting the partial block off a length leaves a multiple of 64. */
  lemma BlockAligned(len: nat)
    ensures (len - len % 64) % 64 == 0
  {
  }

  /** Bytes that do not complete the stream's last partial block are not
      absorbed yet. */
  lemma AbsorbWithinBlock(h: seq<word>, s: seq<byte>, t: seq<byte>)
    requires |h| == 5 && |s| % 64 + |t| < 64
    ensures Absorb(h, s + t) == Absorb(h, s)
  {
    var c := |s| - |s| % 64;
    BlockAligned(|s|);
    var head, tail := s[..c], s[c..];
    SplitAt(s, t, c);
    AbsorbPartial(h, head, tail + t);
    AbsorbPartial(h, head, tail);
  }

  /** Completing the stream's last partial block with `t` absorbs exactly
      that block, made of the stream's tail and `t`. */
  lemma AbsorbCompleting(h: seq<word>, s: seq<byte>, t: seq<byte>)
    requires |h| == 5 && |s| % 64 + |t| == 64
    ensures Absorb(h, s + t) == CompressBlock(Absorb(h, s), s[|s| - |s| % 64..] + t)
  {
    var c := |s| - |s| % 64;
    BlockAligned(|s|);
    var head, tail := s[..c], s[c..];
    SplitAt(s, t, c);
    AbsorbBlock(h, head, tail + t);
    AbsorbPartial(h, head, tail);
  }

  /** The number of bytes, 0x80 and then zeros, that bring a buffer holding
      `m` bytes to 56 modulo 64. */
  function PadLength(m: nat): (k: nat)
    requires m < 64
    ensures 1 <= k <= 64 && (m + k) % 64 == 56
    ensures k == 64 <==> m == 56
  {
    if m < 56 then 56 - m else 120 - m
  }

  function Zeros(n: nat): (z: seq<byte>)
    ensures |z| == n && forall i :: 0 <= i < n ==> z[i] == 0
  {
    seq(n, _ => 0)
  }

  /** The eight bytes of `v`, least significant first. */
  function Encode64LE(v: bv64): (r: seq<byte>)
    ensures |r| == 8
  {
    [(v & 0xFF) as byte, ((v >> 8) & 0xFF) as byte, ((v >> 16) & 0xFF) as byte, ((v >> 24) & 0xFF) as byte,
     ((v >> 32) & 0xFF) as byte, ((v >> 40) & 0xFF) as byte, ((v >> 48) & 0xFF) as byte, (v >> 56) as byte]
  }

  /** The 64-bit value stored little-endian in the eight bytes `b`. */
  function Decode64LE(b: seq<byte>): bv64
    requires |b| == 8
  {
    (b[0] as bv64) | (b[1] as bv64 << 8) | (b[2] as bv64 << 16) | (b[3] as bv64 << 24)
    | (b[4] as bv64 << 32) | (b[5] as bv64 << 40) | (b[6] as bv64 << 48) | (b[7] as bv64 << 56)
  }

  /** Decoding the eight bytes of `v` gives `v` back. */
  lemma Encode64RoundTrip(v: bv64)
    ensures Decode64LE(Encode64LE(v)) == v
  {
  }

  /** Encoding the value eight bytes decode to gives the bytes back. */
  lemma Decode64RoundTrip(b: seq<byte>)
    requires |b| == 8
    ensures Encode64LE(Decode64LE(b)) == b
  {
  }

  /** The bit length of a stream of `len` bytes as the 64-bit counter holds it. */
  function BitLength(len: nat): bv64
  {
    ((len * 8) % TWO64) as bv64
  }

  /** What follows a stream of `len` bytes: 0x80, zeros up to 56 modulo 64,
      then the 64-bit little-endian bit length (sections 3.1 and 3.2 of
      RFC 1320). */
  function PaddingBytes(len: nat): (p: seq<byte>)
    ensures |p| == PadLength(len % 64) + 8
    ensures (len + |p|) % 64 == 0
    ensures p[0] == 0x80
    ensures forall i :: 1 <= i < |p| - 8 ==> p[i] == 0
    ensures p[|p| - 8..] == Encode64LE(BitLength(len))
  {
    var k, e := PadLength(len % 64), Encode64LE(BitLength(len));
    var p := [0x80] + Zeros(k - 1) + e;
    assert p[|p| - 8..] == e;
    PadAligned(len);
    p
  }

  /** The padding ends the stream on a block boundary. */
  lemma PadAligned(len: nat)
    ensures (len + (PadLength(len % 64) + 8)) % 64 == 0
  {
    var q, m := len / 64, len % 64;
    var k := PadLength(m);
    assert m + k == 56 || m + k == 120;
    assert len + (k + 8) == 64 * q + (m + k + 8);
  }

  /** The padding block of `result`: 0x80 and then 63 zeros. */
  function PadBlock(): (b: seq<byte>)
    ensures |b| == 64 && b[0] == 0x80
  {
    [0x80] + Zeros(63)
  }

  /** Feeding the first `PadLength(|s| % 64)` bytes of the padding block and
      then the bit length is feeding the padding. */
  lemma PaddingInTwo(s: seq<byte>)
    ensures s + PadBlock()[..PadLength(|s| % 64)] + Encode64LE(BitLength(|s|)) == s + PaddingBytes(|s|)
  {
    var k := PadLength(|s| % 64);
    assert PadBlock()[..k] == [0x80] + Zeros(k - 1);
  }

  /** The words of `h`, each little-endian, in slot order. */
  function Serialize(h: seq<word>): (d: seq<byte>)
    ensures |d| == 4 * |h|
  {
    if h == [] then [] else WordBytesLE(h[0]) + Serialize(h[1..])
  }

  /** Bytes `4i..4i + 3` of the serialization are word `i`, least
      significant byte first. */
  lemma {:induction false} SerializeAt(h: seq<word>, i: nat)
    requires i < |h|
    ensures Serialize(h)[4 * i..4 * i + 4] == WordBytesLE(h[i])
  {
    if i > 0 {
      SerializeAt(h[1..], i - 1);
      assert Serialize(h) == WordBytesLE(h[0]) + Serialize(h[1..]);
      assert Serialize(h)[4 * i..4 * i + 4] == Serialize(h[1..])[4 * (i - 1)..4 * (i - 1) + 4];
    }
  }

  /** Reading the digest back word by word gives the chaining value. */
  lemma SerializeRoundTrip(h: seq<word>)
    ensures forall i :: 0 <= i < |h| ==> ReadWordLE(Serialize(h), 4 * i) == h[i]
  {
    var d := Serialize(h);
    forall i | 0 <= i < |h|
      ensures ReadWordLE(d, 4 * i) == h[i]
    {
      SerializeAt(h, i);
      ReadWriteWord(h[i]);
      assert d[4 * i..4 * i + 4] == WordBytesLE(h[i]);
    }
  }

  /** Writing back the sixteen words read from a block gives the block. */
  lemma BlockWordsRoundTrip(block: seq<byte>)
    requires |block| == 64
    ensures Serialize(BlockWords(block)) == block
  {
    var x := BlockWords(block);
    var d := Serialize(x);
    forall j | 0 <= j < 64
      ensures d[j] == block[j]
    {
      var i := j / 4;
      SerializeAt(x, i);
      WriteReadWord(block, 4 * i);
      assert d[4 * i..4 * i + 4] == block[4 * i..4 * i + 4];
      assert d[j] == d[4 * i..4 * i + 4][j - 4 * i];
    }
  }

  /** Reading sixteen serialized words back as a block gives the words. */
  lemma WordsBlockRoundTrip(x: seq<word>)
    requires |x| == 16
    ensures BlockWords(Serialize(x)) == x
  {
    SerializeRoundTrip(x);
  }

  /** The chunks of a stream, joined in order. */
  function Concat(chunks: seq<seq<byte>>): seq<byte>
  {
    if chunks == [] then [] else Concat(chunks[..|chunks| - 1]) + chunks[|chunks| - 1]
  }

  /** RIPEMD-160 of `msg`: the initial value folded over the padded message,
      serialized. */
  function Ripemd160(msg: seq<byte>): (d: seq<byte>)
    ensures |d| == 20
  {
    Serialize(Absorb(IV, msg + PaddingBytes(|msg|)))
  }
}
