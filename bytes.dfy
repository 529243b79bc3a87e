/** Bytes, fixed-width integers and the raw 32-bit words that stand for floats.

    Every float field of the containers is carried as its 32-bit pattern
    (a `Word`); the only float operations the decoder performs on such a
    field without a maths library, negation and comparison with zero, are
    written out on the bit pattern. */
module Bytes {

  newtype byte = x: int | 0 <= x < 256

  /** 256^n, the number of distinct n-byte strings. */
  function Pow256(n: nat): (p: nat)
    ensures p >= 1
  {
    if n == 0 then 1 else 256 * Pow256(n - 1)
  }

  /** The unsigned value of a byte string stored least-significant byte first. */
  function LittleEndian(s: seq<byte>): (v: nat)
    ensures v < Pow256(|s|)
  {
    if s == [] then 0 else s[0] as nat + 256 * LittleEndian(s[1..])
  }

  /** The n-byte little-endian encoding of v. */
  function EncodeLittle(v: nat, n: nat): (s: seq<byte>)
    requires v < Pow256(n)
    ensures |s| == n
  {
    if n == 0 then [] else [(v % 256) as byte] + EncodeLittle(v / 256, n - 1)
  }

  /** Decoding an encoded integer gives it back. */
  lemma {:induction false} LittleEndianOfEncode(v: nat, n: nat)
    requires v < Pow256(n)
    ensures LittleEndian(EncodeLittle(v, n)) == v
  {
    if n > 0 {
      var s := EncodeLittle(v, n);
      assert s[1..] == EncodeLittle(v / 256, n - 1);
      LittleEndianOfEncode(v / 256, n - 1);
    }
  }

  /** Encoding a decoded integer gives the stored bytes back. */
  lemma {:induction false} EncodeOfLittleEndian(s: seq<byte>)
    ensures EncodeLittle(LittleEndian(s), |s|) == s
  {
    if s != [] {
      var v := LittleEndian(s);
      assert v % 256 == s[0] as nat;
      assert v / 256 == LittleEndian(s[1..]);
      EncodeOfLittleEndian(s[1..]);
    }
  }

  /** A stored byte read as a two's-complement signed value. */
  function Signed8(b: byte): (v: int)
    ensures -128 <= v < 128
    ensures (v + 256) % 256 == b as int
  {
    if b < 128 then b as int else b as int - 256
  }

  /** The 32-bit pattern of a single-precision float. */
  type Word = w: nat | w < 0x1_0000_0000

  const SignBit: Word := 0x8000_0000
  const PositiveZero: Word := 0
  const NegativeZero: Word := 0x8000_0000
  const One: Word := 0x3F80_0000

  /** Float negation: flips the sign bit and nothing else. */
  function Negate(w: Word): (r: Word)
    ensures r / 0x8000_0000 != w / 0x8000_0000
    ensures r % 0x8000_0000 == w % 0x8000_0000
  {
    if w < SignBit then w + SignBit else w - SignBit
  }

  /** A float compares equal to 0.0 exactly when it is +0.0 or -0.0. */
  predicate IsFloatZero(w: Word)
  {
    w == PositiveZero || w == NegativeZero
  }

  lemma NegateTwice(w: Word)
    ensures Negate(Negate(w)) == w
    ensures IsFloatZero(Negate(w)) <==> IsFloatZero(w)
  {
  }
}
