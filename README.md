# RIPEMD-160 of Boost.Hash2, modelled in Dafny

This project models the RIPEMD-160 digest of Boost.Hash2 and proves it
correct against one shared definition of the algorithm.

The model covers two implementations:

- **The streaming engine**: the class `ripemd_160` of
  `include/boost/hash2/ripemd.hpp`. It keeps five 32-bit chaining words, a
  64-byte block buffer, the buffered count `m_` and the 64-bit total byte
  count `n_`. Its parts are:
  - `init` and the three constructors;
  - `update`, which tops up a partial block, compresses whole blocks
    straight from the input and buffers the tail;
  - `result`, which feeds the MD4-style padding (0x80, zeros up to 56
    modulo 64, the 64-bit little-endian bit length) and writes the five
    words out little-endian;
  - `transform`, the dual-lane compression, written as 160 unrolled
    in-place step calls `R1..R5` / `RR1..RR5`.
- **The reference implementation** in `test/ripemd_160.cpp`. It has
  `md_init`, and `compress` with its ten table-driven sixteen-step loops.
  Its `finish` builds the padded last block or blocks word by word.

The model has four modules:

- `Words`: bytes, 32-bit words, rotation, little-endian conversion, and
  arithmetic modulo 2^64.
- `Spec`: the algorithm as pure definitions, and the facts about them. It
  holds:
  - the round functions, and the per-round word-order, shift and constant
    tables of both lanes;
  - one step, a round, a lane, the combine and the compression;
  - absorbing a stream block by block, the padding, the serialization and
    the digest `Ripemd160`.
- `Engine`: the class `Ripemd160`. Its arrays `state` and `buffer` and its
  counters `m` and `n` are updated in place by methods that follow the C++
  member functions. Its invariant `Valid()` says three things:
  - `state` is the initial value absorbed over every complete block of
    everything fed so far;
  - `buffer[..m]` holds the bytes after the last complete block;
  - `n` is the stream length modulo 2^64, so `m == n % 64`.

  `Result` returns `Spec.Ripemd160` of the stream fed before it.
  `DigestOfChunks` shows that how the input is cut into `update` calls does
  not matter.
- `Reference`: the test file's `md_init`, `compress` and `finish` as
  methods over arrays.
  - `Compress` is proved to compute `Spec.Compression`, the same function
    the engine's unrolled `transform` computes.
  - `Finish` is proved to absorb exactly the padding that the engine's
    `result` feeds.

## Model

| member | source | states |
|---|---|---|
| Words.RotlInverse | test/ripemd_160.cpp:13 | rotating by `n` and then by `32 - n` gives `x` back: the rotation loses no bit |
| Words.AddRegroup | include/boost/hash2/ripemd.hpp:329-334 | 32-bit wrapping addition regroups and commutes, so the combine's `ddd += cc + state_[1]` equals `Combine`'s slot-0 sum `h[1] + l[2] + r[3]` in the order `h[i+1] + l[i+2] + r[i+3]` |
| Words.ReadWriteWord | include/boost/hash2/ripemd.hpp:452 | reading back the four little-endian bytes written for a word gives the word |
| Words.WriteReadWord | include/boost/hash2/ripemd.hpp:144 | writing back the word read from four bytes gives those bytes |
| Words.ModBlock | include/boost/hash2/ripemd.hpp:35 | reducing the byte count modulo 2^64 keeps its residue modulo 64 |
| Words.ModAdd | include/boost/hash2/ripemd.hpp:382 | adding to the wrapped 64-bit counter wraps like adding to the true byte count |
| Words.ModTimes8 | include/boost/hash2/ripemd.hpp:436 | the wrapped counter times 8, wrapped, is the true bit count wrapped |
| Spec.F1Parity | include/boost/hash2/ripemd.hpp:50 | F1 is the parity of its three arguments: their order does not matter, and with two of them fixed F1 undoes itself in the third |
| Spec.F2 | include/boost/hash2/ripemd.hpp:51 | F2 takes `y` where `x` is set and `z` elsewhere |
| Spec.F3Cases | include/boost/hash2/ripemd.hpp:52 | F3 is `x ^ z` where `y` is set and the complement of `z` elsewhere |
| Spec.F4 | include/boost/hash2/ripemd.hpp:53 | F4 takes `x` where `z` is set and `y` elsewhere |
| Spec.F5FromF3 | include/boost/hash2/ripemd.hpp:54 | F5 is F3 with its arguments rotated, `F5(x, y, z) == F3(y, z, x)`: `x ^ y` where `z` is set, the complement of `x` elsewhere |
| Spec.RoundFnMirror | test/ripemd_160.cpp:35-173 | the right lane uses in round `k` the round function the left lane uses in round `4 - k` (f5 with f1, f4 with f2, f3 with f3) |
| Spec.RoundFnOnce | test/ripemd_160.cpp:35-173 | in each lane every one of f1..f5 is used by exactly one round: `RoundUsing` inverts the round-to-function map on both sides |
| Spec.OrderIsPermutation | test/ripemd_160.cpp:38-165 | each of the ten `r` tables has an inverse on both sides: it is a permutation of 0..15 |
| Spec.OrderDistinct | test/ripemd_160.cpp:38-165 | two different steps of a round read two different message words |
| Spec.OrderCovers | test/ripemd_160.cpp:38-165 | every message word is read by some step of every round |
| Spec.ShiftsInRange | test/ripemd_160.cpp:13-165 | every `s` entry lies in 5..15, so `rotl` never shifts by 32 |
| Spec.StepSumGrouped | include/boost/hash2/ripemd.hpp:58 | adding `f + x + K` to A in one go is the step sum A + f + x + K |
| Spec.StepAdvances | test/ripemd_160.cpp:41-46 | one step T = rotl(a + f(b, c, d) + X[r[j]] + K, s[j]) + e with the registers moved along advances the round by one step |
| Spec.AdvancesTrans | test/ripemd_160.cpp:36-47 | advancing over consecutive runs of steps composes |
| Spec.RoundAdvances | test/ripemd_160.cpp:36-47 | advancing over all sixteen steps holds exactly when the registers are those of the whole round |
| Spec.LaneRounds | test/ripemd_160.cpp:35-103 | a lane is its five rounds applied in order |
| Spec.CombineInPlace | include/boost/hash2/ripemd.hpp:329-334 | the in-place combine, with slot 0 accumulated in `ddd`, yields the combine of the chaining value and both lanes |
| Spec.CompressFromLanes | test/ripemd_160.cpp:31-183 | running the two lanes round by round side by side is running each lane on its own and then combining |
| Spec.CompressionLanes | include/boost/hash2/ripemd.hpp:126-335 | `Compression` is the combine of the two lanes, each started from the chaining value and run through its own five rounds |
| Spec.BlockWordsRoundTrip | include/boost/hash2/ripemd.hpp:142-145 | writing the sixteen little-endian words read from a block back out gives the block again: no byte is lost, moved or reordered |
| Spec.WordsBlockRoundTrip | include/boost/hash2/ripemd.hpp:142-145 | reading a block made of sixteen serialized words gives those words back |
| Spec.AbsorbAppend | include/boost/hash2/ripemd.hpp:384-425 | absorbing a block-aligned prefix and then the rest equals absorbing the whole stream: chunking does not matter |
| Spec.AbsorbBlock | include/boost/hash2/ripemd.hpp:411-417 | one more whole block after an aligned stream is one more compression |
| Spec.AbsorbPartial | include/boost/hash2/ripemd.hpp:421-425 | bytes after the last complete block are not absorbed |
| Spec.AbsorbWithinBlock | include/boost/hash2/ripemd.hpp:393-399 | bytes that leave the partial block short of 64 change no chaining value |
| Spec.AbsorbCompleting | include/boost/hash2/ripemd.hpp:399-404 | completing the partial block compresses exactly the buffered tail followed by the new bytes |
| Spec.BlockCount | include/boost/hash2/ripemd.hpp:397-404 | adding `k` bytes either stays within the block (same count, `m + k` buffered) or completes it (one more block, nothing buffered) |
| Spec.PadLength | include/boost/hash2/ripemd.hpp:438 | `k` is between 1 and 64, brings the count to 56 modulo 64, and is 64 exactly when 56 bytes are buffered |
| Spec.Encode64RoundTrip | include/boost/hash2/ripemd.hpp:436 | decoding the eight little-endian bytes written for a 64-bit value gives the value |
| Spec.Decode64RoundTrip | include/boost/hash2/ripemd.hpp:436 | encoding the value that eight bytes decode to gives the bytes: the 64-bit little-endian encoding is a bijection |
| Spec.PaddingBytes | include/boost/hash2/ripemd.hpp:436-444 | the padding is 0x80, zeros, then the 64-bit little-endian bit length, and it ends the stream on a block boundary |
| Spec.PadAligned | include/boost/hash2/ripemd.hpp:438-446 | the `k` padding bytes and the eight length bytes end the stream on a multiple of 64, so `m_ == 0` afterwards |
| Spec.PaddingInTwo | include/boost/hash2/ripemd.hpp:440-444 | the first `k` bytes of the 0x80-then-zeros block followed by the eight length bytes are the padding |
| Spec.SerializeAt | include/boost/hash2/ripemd.hpp:450-453 | bytes `4i..4i + 3` of the digest are word `i`, least significant byte first |
| Spec.SerializeRoundTrip | include/boost/hash2/ripemd.hpp:450-453 | reading the digest back word by word gives the chaining value |
| Spec.Ripemd160 | include/boost/hash2/ripemd.hpp:430-456 | the digest is 20 bytes |
| Engine.HoldsWithin | include/boost/hash2/ripemd.hpp:393-399 | bytes that do not complete the block keep the invariant, buffered after the old tail |
| Engine.HoldsCompleting | include/boost/hash2/ripemd.hpp:399-406 | bytes that complete the block keep the invariant once that block is compressed, one more transform counted |
| Engine.HoldsBlock | include/boost/hash2/ripemd.hpp:411-417 | a whole block compressed from the input keeps the invariant with an empty buffer |
| Engine.CountsBlock | include/boost/hash2/ripemd.hpp:35 | a counter equal to the stream length modulo 2^64 agrees with it modulo 64, so `m_ == n_ % N` |
| Engine.CountsAdd | include/boost/hash2/ripemd.hpp:382 | `n_ += n` keeps the counter equal to the stream length modulo 2^64 |
| Engine.CountsBits | include/boost/hash2/ripemd.hpp:436 | `n_ * 8` is the bit length of the whole stream, modulo 2^64 |
| Engine.SeedCount | include/boost/hash2/ripemd.hpp:363-372 | after seeding with bytes the counter is a multiple of 64, and nonzero for any seed shorter than 2^64 - 72 bytes |
| Engine.SeedCounter | include/boost/hash2/ripemd.hpp:349-361 | after `update` and `result` on fewer than 56 bytes, such as the 8 bytes of an integer seed, the counter is 64 |
| Engine.PadFacts | include/boost/hash2/ripemd.hpp:436-446 | the `k` bytes of 0x80 and zeros followed by the eight length bytes are the padding; the counter grows by its length modulo 2^64 and ends on a multiple of 64 |
| Engine.Ripemd160.constructor | include/boost/hash2/ripemd.hpp:344-347 | the default engine holds the initial value, an empty stream, `m_ == n_ == 0` |
| Engine.Ripemd160.Seeded | include/boost/hash2/ripemd.hpp:349-361 | a zero seed gives the default engine; any other seed leaves the digest of its eight little-endian bytes as the state, the padded seed as the stream, `m_ == 0` and `n_ == 64` |
| Engine.Ripemd160.FromBytes | include/boost/hash2/ripemd.hpp:363-372 | empty bytes give the default engine; other bytes leave their digest as the state, `m_ == 0` and `n_` a multiple of 64 |
| Engine.Ripemd160.Finish | include/boost/hash2/ripemd.hpp:367-371 | `update` then `result` on a fresh engine leaves the digest of the bytes as the state and the padded bytes as the stream |
| Engine.Ripemd160.Init | include/boost/hash2/ripemd.hpp:41-48 | the chaining value becomes the initial value `Spec.IV`, the five words 0x67452301, 0xEFCDAB89, 0x98BADCFE, 0x10325476, 0xC3D2E1F0 |
| Engine.Ripemd160.R1 | include/boost/hash2/ripemd.hpp:56-61 | the in-place `a` and `c` are the new B and D of one left-lane step of round 1 |
| Engine.Ripemd160.R2 | include/boost/hash2/ripemd.hpp:63-68 | the in-place `a` and `c` are the new B and D of one left-lane step of round 2 |
| Engine.Ripemd160.R3 | include/boost/hash2/ripemd.hpp:70-75 | the in-place `a` and `c` are the new B and D of one left-lane step of round 3 |
| Engine.Ripemd160.R4 | include/boost/hash2/ripemd.hpp:77-82 | the in-place `a` and `c` are the new B and D of one left-lane step of round 4 |
| Engine.Ripemd160.R5 | include/boost/hash2/ripemd.hpp:84-89 | the in-place `a` and `c` are the new B and D of one left-lane step of round 5 |
| Engine.Ripemd160.RR1 | include/boost/hash2/ripemd.hpp:91-96 | the in-place `a` and `c` are the new B and D of one right-lane step of round 1 |
| Engine.Ripemd160.RR2 | include/boost/hash2/ripemd.hpp:98-103 | the in-place `a` and `c` are the new B and D of one right-lane step of round 2 |
| Engine.Ripemd160.RR3 | include/boost/hash2/ripemd.hpp:105-110 | the in-place `a` and `c` are the new B and D of one right-lane step of round 3 |
| Engine.Ripemd160.RR4 | include/boost/hash2/ripemd.hpp:112-117 | the in-place `a` and `c` are the new B and D of one right-lane step of round 4 |
| Engine.Ripemd160.RR5 | include/boost/hash2/ripemd.hpp:119-124 | the in-place `a` and `c` are the new B and D of one right-lane step of round 5 |
| Engine.Ripemd160.LeftRound1Head | include/boost/hash2/ripemd.hpp:159-166 | the eight unrolled calls advance round 1 of the left lane over steps 0..7 |
| Engine.Ripemd160.LeftRound1Tail | include/boost/hash2/ripemd.hpp:167-174 | the eight unrolled calls advance round 1 of the left lane over steps 8..15 |
| Engine.Ripemd160.LeftRound1 | include/boost/hash2/ripemd.hpp:159-174 | the sixteen unrolled calls compute round 1 of the left lane |
| Engine.Ripemd160.RightRound1Head | include/boost/hash2/ripemd.hpp:176-183 | the eight unrolled calls advance round 1 of the right lane over steps 0..7 |
| Engine.Ripemd160.RightRound1Tail | include/boost/hash2/ripemd.hpp:184-191 | the eight unrolled calls advance round 1 of the right lane over steps 8..15 |
| Engine.Ripemd160.RightRound1 | include/boost/hash2/ripemd.hpp:176-191 | the sixteen unrolled calls compute round 1 of the right lane |
| Engine.Ripemd160.LeftRound2Head | include/boost/hash2/ripemd.hpp:193-200 | the eight unrolled calls advance round 2 of the left lane over steps 0..7 |
| Engine.Ripemd160.LeftRound2Tail | include/boost/hash2/ripemd.hpp:201-208 | the eight unrolled calls advance round 2 of the left lane over steps 8..15 |
| Engine.Ripemd160.LeftRound2 | include/boost/hash2/ripemd.hpp:193-208 | the sixteen unrolled calls compute round 2 of the left lane |
| Engine.Ripemd160.RightRound2Head | include/boost/hash2/ripemd.hpp:210-217 | the eight unrolled calls advance round 2 of the right lane over steps 0..7 |
| Engine.Ripemd160.RightRound2Tail | include/boost/hash2/ripemd.hpp:218-225 | the eight unrolled calls advance round 2 of the right lane over steps 8..15 |
| Engine.Ripemd160.RightRound2 | include/boost/hash2/ripemd.hpp:210-225 | the sixteen unrolled calls compute round 2 of the right lane |
| Engine.Ripemd160.LeftRound3Head | include/boost/hash2/ripemd.hpp:227-234 | the eight unrolled calls advance round 3 of the left lane over steps 0..7 |
| Engine.Ripemd160.LeftRound3Tail | include/boost/hash2/ripemd.hpp:235-242 | the eight unrolled calls advance round 3 of the left lane over steps 8..15 |
| Engine.Ripemd160.LeftRound3 | include/boost/hash2/ripemd.hpp:227-242 | the sixteen unrolled calls compute round 3 of the left lane |
| Engine.Ripemd160.RightRound3Head | include/boost/hash2/ripemd.hpp:244-251 | the eight unrolled calls advance round 3 of the right lane over steps 0..7 |
| Engine.Ripemd160.RightRound3Tail | include/boost/hash2/ripemd.hpp:252-259 | the eight unrolled calls advance round 3 of the right lane over steps 8..15 |
| Engine.Ripemd160.RightRound3 | include/boost/hash2/ripemd.hpp:244-259 | the sixteen unrolled calls compute round 3 of the right lane |
| Engine.Ripemd160.LeftRound4Head | include/boost/hash2/ripemd.hpp:261-268 | the eight unrolled calls advance round 4 of the left lane over steps 0..7 |
| Engine.Ripemd160.LeftRound4Tail | include/boost/hash2/ripemd.hpp:269-276 | the eight unrolled calls advance round 4 of the left lane over steps 8..15 |
| Engine.Ripemd160.LeftRound4 | include/boost/hash2/ripemd.hpp:261-276 | the sixteen unrolled calls compute round 4 of the left lane |
| Engine.Ripemd160.RightRound4Head | include/boost/hash2/ripemd.hpp:278-285 | the eight unrolled calls advance round 4 of the right lane over steps 0..7 |
| Engine.Ripemd160.RightRound4Tail | include/boost/hash2/ripemd.hpp:286-293 | the eight unrolled calls advance round 4 of the right lane over steps 8..15 |
| Engine.Ripemd160.RightRound4 | include/boost/hash2/ripemd.hpp:278-293 | the sixteen unrolled calls compute round 4 of the right lane |
| Engine.Ripemd160.LeftRound5Head | include/boost/hash2/ripemd.hpp:295-302 | the eight unrolled calls advance round 5 of the left lane over steps 0..7 |
| Engine.Ripemd160.LeftRound5Tail | include/boost/hash2/ripemd.hpp:303-310 | the eight unrolled calls advance round 5 of the left lane over steps 8..15 |
| Engine.Ripemd160.LeftRound5 | include/boost/hash2/ripemd.hpp:295-310 | the sixteen unrolled calls compute round 5 of the left lane |
| Engine.Ripemd160.RightRound5Head | include/boost/hash2/ripemd.hpp:312-319 | the eight unrolled calls advance round 5 of the right lane over steps 0..7 |
| Engine.Ripemd160.RightRound5Tail | include/boost/hash2/ripemd.hpp:320-327 | the eight unrolled calls advance round 5 of the right lane over steps 8..15 |
| Engine.Ripemd160.RightRound5 | include/boost/hash2/ripemd.hpp:312-327 | the sixteen unrolled calls compute round 5 of the right lane |
| Engine.Ripemd160.ReadBlock | include/boost/hash2/ripemd.hpp:140-145 | the message words are the block read as sixteen little-endian words |
| Engine.Ripemd160.Lanes | include/boost/hash2/ripemd.hpp:128-327 | both lanes start from the chaining value and each runs its own five rounds |
| Engine.Ripemd160.Transform | include/boost/hash2/ripemd.hpp:126-335 | the chaining value becomes its compression with the block; one more transform counted |
| Engine.Ripemd160.Fill | include/boost/hash2/ripemd.hpp:393 | the buffer after the `m` bytes in use holds the copied bytes |
| Engine.Ripemd160.TopUp | include/boost/hash2/ripemd.hpp:384-407 | takes `min(n, N - m_)` bytes into the buffer, compresses the buffer once if it is full, and returns early with the buffer still partial only when all bytes were taken |
| Engine.Ripemd160.WholeBlocks | include/boost/hash2/ripemd.hpp:411-417 | compresses whole blocks straight from the input until fewer than 64 bytes remain, keeping the invariant |
| Engine.Ripemd160.Keep | include/boost/hash2/ripemd.hpp:421-425 | the leftover bytes become the buffered partial block |
| Engine.Ripemd160.Feed | include/boost/hash2/ripemd.hpp:384-425 | the stream grows by the input and the invariant holds again |
| Engine.Ripemd160.Update | include/boost/hash2/ripemd.hpp:374-428 | the stream grows by the input, `n_` grows by its length modulo 2^64, `m_ == n_ % N` holds again, and an empty input changes nothing |
| Engine.Ripemd160.Digest | include/boost/hash2/ripemd.hpp:448-453 | the digest is the chaining words, each little-endian, in slot order |
| Engine.Ripemd160.Pad | include/boost/hash2/ripemd.hpp:432-446 | feeds exactly the padding of the stream so far and leaves `m_ == 0` |
| Engine.Ripemd160.Result | include/boost/hash2/ripemd.hpp:430-456 | returns the RIPEMD-160 digest of everything fed before the call, leaving the padding in the stream |
| Engine.DigestOfChunks | include/boost/hash2/ripemd.hpp:374-456 | feeding any sequence of chunks and taking the result gives the digest of their concatenation |
| Reference.MdInit | test/ripemd_160.cpp:21-29 | the buffer holds the initial value `Spec.IV`, the same five words the engine starts from |
| Reference.StepFrom | test/ripemd_160.cpp:41-46 | one loop iteration advances its round by one step |
| Reference.RoundLoop | test/ripemd_160.cpp:36-47 | each of the ten loops computes its round of its lane |
| Reference.LaneLoops | test/ripemd_160.cpp:32-173 | the five loops of a lane, from the chaining value, compute the lane |
| Reference.WriteBack | test/ripemd_160.cpp:175-180 | the buffer becomes the combine of its old value and both lanes |
| Reference.Compress | test/ripemd_160.cpp:31-183 | the buffer becomes the compression of its old value with the sixteen words |
| Reference.MarkWord | test/ripemd_160.cpp:211 | XOR-ing bit `8t + 7` into a little-endian word sets its byte `t` from 0 to 0x80 |
| Reference.MarkOther | test/ripemd_160.cpp:211 | setting one byte of a block leaves every other word unchanged |
| Reference.Load | test/ripemd_160.cpp:188-189 | X holds the words of the tail bytes followed by zeros |
| Reference.Clear | test/ripemd_160.cpp:217 | X holds the words of a block of zeros |
| Reference.MarkIndex | test/ripemd_160.cpp:211 | `(len / 4) % 16` and `len % 4` name the word and the byte of position `len % 64` in the block |
| Reference.Mark | test/ripemd_160.cpp:211 | the XOR sets byte `len % 64` of the block to 0x80, just after the last message byte, and nothing else |
| Reference.LengthWords | test/ripemd_160.cpp:221-222 | the two words of a 64-bit value stored little-endian are its low half, then its high half |
| Reference.LengthInBlock | test/ripemd_160.cpp:221-222 | words 14 and 15 of a block ending in the length encoding are its low and high halves |
| Reference.StoreLength | test/ripemd_160.cpp:221-222 | the last eight bytes of the block become the little-endian bit length |
| Reference.FinalOne | test/ripemd_160.cpp:214-223 | with fewer than 56 tail bytes the padded tail is one block: tail, 0x80, zeros, bit length |
| Reference.FinalTwo | test/ripemd_160.cpp:214-223 | with 56 tail bytes or more the padded tail is two blocks, the second one zeros and the bit length |
| Reference.Finish | test/ripemd_160.cpp:187-226 | the buffer becomes the old chaining value absorbed over the tail followed by the padding, the same padding `result` feeds |
| Reference.FinishDigest | test/ripemd_160.cpp:187-226 | for a message cut after its complete blocks, the tail is its last `len % 64` bytes, and absorbing the tail and the padding after the blocks' chaining value gives the message's digest |

## Left out

- `include/boost/hash2/openssl.hpp` is not part of this model. It is a wrapper over foreign OpenSSL calls.
- The test's driver `ripemd_160()` (test/ripemd_160.cpp:228-248) is not modelled, for two reasons. It advances its input pointer by 4 instead of 64 per block, and it truncates the message size to `unsigned`. Whole-message hashing is modelled through the engine's `Update` and `Result`.
- The known-answer vectors of `testsuite` (test/ripemd_160.cpp:273-282) are not stated. Evaluating 160 steps of 32-bit arithmetic per block inside the verifier is beyond its resource bound. Hex formatting, `sprintf`, `BOOST_TEST_EQ` and `main` are left out as I/O.
- `detail::read32le`, `write32le`, `write64le` and `rotl` are not part of this model's sources. They are modelled directly as little-endian conversion and 32-bit rotation: `ReadWordLE`, `WordBytesLE`, `Encode64LE` and `Rotl`.
- The test's `memcpy` of bytes into `unsigned` words assumes a little-endian host. It is modelled as an explicit little-endian decode (`Reference.Load`, `Reference.StoreLength`).
- Pointers, `void*`, `BOOST_FORCEINLINE`, and copy and move of the engine are left out. The input is a `seq<byte>` rather than a pointer and length.
- `BOOST_ASSERT`s are not checks in the model. Each one is a consequence of the invariant instead: `Valid()` implies `m == n % 64`, and `Pad` ensures `m == 0`.
- The header comment of ripemd.hpp names SHA-1 and RFC 3174. The code is RIPEMD-160, and the model follows the code.
- Engine.Ripemd160.Result: it models what the code does, not a one-shot result. A second call pads again: it feeds a fresh padding after the first one and returns the digest of the longer stream.
- Engine.Ripemd160.Seeded: following the code, a nonzero seed leaves `n_ == 64` and `m_ == 0`. It does not reset the counter to zero.
- Engine.Ripemd160.FromBytes: the counter is proved nonzero only for seeds shorter than 2^64 - 72 bytes. Longer seeds can wrap the 64-bit counter to zero.
- Engine.Ripemd160.Transform: the combine reads a snapshot of `state_` taken before the first write. Every slot is read before it is overwritten, so the values are the same as the in-place reads, but the model does not show the write order's aliasing. `Reference.WriteBack` does the same for `MDbuf`.
- Engine.Ripemd160.LeftRound1Head and the other round methods: the 160 unrolled calls are kept in source order. They are grouped into eight-step halves so that each is proved on its own.
- Engine.Ripemd160.Update: it is split into `TopUp`, `WholeBlocks` and `Keep`, following the three phases of the C++ body. The `memset` of the buffer after a transform is kept, though nothing reads those bytes.
- Reference.RoundLoop: one loop parameterised by lane and round stands for the ten literal loops. Their `r`, `s`, `K` and `f` come from `Spec.OrderAt`, `Spec.ShiftAt`, `Spec.RoundK` and `Spec.RoundFn`, which hold the ten tables verbatim.
