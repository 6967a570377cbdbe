/** The functions on 32-bit words: the macros of the library and those of section 4.1.2 of FIPS 180-4. */
module Sha256Words {

  function Add(x: bv32, y: bv32): bv32 {
    x + y
  }

  // ---------- The macros ----------

  function MacroCh(x: bv32, y: bv32, z: bv32): bv32 {
    z ^ (x & (y ^ z))
  }

  function MacroMaj(x: bv32, y: bv32, z: bv32): bv32 {
    (x & y) | (z & (x | y))
  }

  function MacroBigSigma0(x: bv32): bv32 {
    ((x >> 2) | (x << 30)) ^ ((x >> 13) | (x << 19)) ^ ((x >> 22) | (x << 10))
  }

  function MacroBigSigma1(x: bv32): bv32 {
    ((x >> 6) | (x << 26)) ^ ((x >> 11) | (x << 21)) ^ ((x >> 25) | (x << 7))
  }

  function MacroSmallSigma0(x: bv32): bv32 {
    ((x >> 7) | (x << 25)) ^ ((x >> 18) | (x << 14)) ^ (x >> 3)
  }

  function MacroSmallSigma1(x: bv32): bv32 {
    ((x >> 17) | (x << 15)) ^ ((x >> 19) | (x << 13)) ^ (x >> 10)
  }

  // ---------- The standard ----------

  function Ch(x: bv32, y: bv32, z: bv32): bv32 {
    (x & y) ^ (!x & z)
  }

  function Maj(x: bv32, y: bv32, z: bv32): bv32 {
    (x & y) ^ (x & z) ^ (y & z)
  }

  function BigSigma0(x: bv32): bv32 {
    x.RotateRight(2) ^ x.RotateRight(13) ^ x.RotateRight(22)
  }

  function BigSigma1(x: bv32): bv32 {
    x.RotateRight(6) ^ x.RotateRight(11) ^ x.RotateRight(25)
  }

  function SmallSigma0(x: bv32): bv32 {
    x.RotateRight(7) ^ x.RotateRight(18) ^ (x >> 3)
  }

  function SmallSigma1(x: bv32): bv32 {
    x.RotateRight(17) ^ x.RotateRight(19) ^ (x >> 10)
  }

  // ---------- They agree ----------

  lemma ChBits(x: bv32, y: bv32, z: bv32)
    ensures z ^ (x & (y ^ z)) == (x & y) ^ (!x & z)
  {
  }

  lemma MajBits(x: bv32, y: bv32, z: bv32)
    ensures (x & y) | (z & (x | y)) == (x & y) ^ (x & z) ^ (y & z)
  {
  }

  lemma ChIs(x: bv32, y: bv32, z: bv32)
    ensures MacroCh(x, y, z) == Ch(x, y, z)
  {
    ChBits(x, y, z);
  }

  lemma MajIs(x: bv32, y: bv32, z: bv32)
    ensures MacroMaj(x, y, z) == Maj(x, y, z)
  {
    MajBits(x, y, z);
  }

  lemma SigmasAre(x: bv32)
    ensures MacroBigSigma0(x) == BigSigma0(x) && MacroBigSigma1(x) == BigSigma1(x)
    ensures MacroSmallSigma0(x) == SmallSigma0(x) && MacroSmallSigma1(x) == SmallSigma1(x)
  {
  }

  /** The macro that turns a word read from memory, lowest byte first, into the one the bytes spell. */
  function BE32(p: bv32): bv32 {
    ((p & 0xFF) << 24) | ((p & 0xFF00) << 8) | ((p & 0xFF0000) >> 8) | ((p & 0xFF000000) >> 24)
  }

  lemma BE32Is(b0: bv32, b1: bv32, b2: bv32, b3: bv32)
    requires b0 <= 0xFF && b1 <= 0xFF && b2 <= 0xFF && b3 <= 0xFF
    ensures BE32(b0 | (b1 << 8) | (b2 << 16) | (b3 << 24)) == (b0 << 24) | (b1 << 16) | (b2 << 8) | b3
  {
  }
}
