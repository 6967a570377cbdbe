/** SHA-256 itself: the compression of the library on bytes and 32-bit words, and the digest of a message written in pieces. */
module Sha256Standard {
  import opened ByteStrings
  import opened Bits
  import opened Sha256
  import opened Sha256Transform
  import opened Sha256Words

  /** The round constants (section 4.2.2 of FIPS 180-4). */
  const K: seq<bv32> :=
    [0x428a2f98, 0x71374491, 0xb5c0fbcf, 0xe9b5dba5, 0x3956c25b, 0x59f111f1, 0x923f82a4, 0xab1c5ed5] +
    [0xd807aa98, 0x12835b01, 0x243185be, 0x550c7dc3, 0x72be5d74, 0x80deb1fe, 0x9bdc06a7, 0xc19bf174] +
    [0xe49b69c1, 0xefbe4786, 0x0fc19dc6, 0x240ca1cc, 0x2de92c6f, 0x4a7484aa, 0x5cb0a9dc, 0x76f988da] +
    [0x983e5152, 0xa831c66d, 0xb00327c8, 0xbf597fc7, 0xc6e00bf3, 0xd5a79147, 0x06ca6351, 0x14292967] +
    [0x27b70a85, 0x2e1b2138, 0x4d2c6dfc, 0x53380d13, 0x650a7354, 0x766a0abb, 0x81c2c92e, 0x92722c85] +
    [0xa2bfe8a1, 0xa81a664b, 0xc24b8b70, 0xc76c51a3, 0xd192e819, 0xd6990624, 0xf40e3585, 0x106aa070] +
    [0x19a4c116, 0x1e376c08, 0x2748774c, 0x34b0bcb5, 0x391c0cb3, 0x4ed8aa4a, 0x5b9cca4f, 0x682e6ff3] +
    [0x748f82ee, 0x78a5636f, 0x84c87814, 0x8cc70208, 0x90befffa, 0xa4506ceb, 0xbef9a3f7, 0xc67178f2]

  /** The functions of section 4.1.2 of FIPS 180-4. */
  function StandardOps(): WordOps<bv32> {
    WordOps(Add, Ch, Maj, BigSigma0, BigSigma1, SmallSigma0, SmallSigma1)
  }

  /** The macros of the library. */
  function MacroOps(): WordOps<bv32> {
    WordOps(Add, MacroCh, MacroMaj, MacroBigSigma0, MacroBigSigma1, MacroSmallSigma0, MacroSmallSigma1)
  }

  lemma MacrosAgree()
    ensures Agree(MacroOps(), StandardOps())
  {
    forall x: bv32, y: bv32, z: bv32
      ensures MacroOps().ch(x, y, z) == StandardOps().ch(x, y, z)
    {
      ChIs(x, y, z);
    }
    forall x: bv32, y: bv32, z: bv32
      ensures MacroOps().maj(x, y, z) == StandardOps().maj(x, y, z)
    {
      MajIs(x, y, z);
    }
    SigmasAgree();
  }

  lemma SigmasAgree()
    ensures forall x :: MacroOps().bigSigma0(x) == StandardOps().bigSigma0(x)
    ensures forall x :: MacroOps().bigSigma1(x) == StandardOps().bigSigma1(x)
    ensures forall x :: MacroOps().smallSigma0(x) == StandardOps().smallSigma0(x)
    ensures forall x :: MacroOps().smallSigma1(x) == StandardOps().smallSigma1(x)
  {
    forall x: bv32
      ensures MacroOps().bigSigma0(x) == StandardOps().bigSigma0(x) && MacroOps().bigSigma1(x) == StandardOps().bigSigma1(x)
      ensures MacroOps().smallSigma0(x) == StandardOps().smallSigma0(x) && MacroOps().smallSigma1(x) == StandardOps().smallSigma1(x)
    {
      SigmasAre(x);
    }
  }

  /** The word that four bytes spell, most significant first. */
  function Load(b: seq<Byte>): bv32
    requires |b| == 4
  {
    BEBound(b);
    assert Pow256(4) == TWO32;
    BE(b) as bv32
  }

  /** The sixteen words of a block. */
  function Words(block: seq<Byte>): (w: seq<bv32>)
    requires |block| == 64
    ensures |w| == 16
  {
    seq(16, i requires 0 <= i < 16 => Load(block[4 * i..4 * i + 4]))
  }

  /** Reading what was written gives the words back. */
  lemma WordsOfOut(w: seq<bv32>)
    requires |w| == 16
    ensures Words(Out(w)) == w
  {
    var r := Words(Out(w));
    forall i | 0 <= i < 16
      ensures r[i] == w[i]
    {
      WordOfOut(w, i);
    }
  }

  lemma WordOfOut(w: seq<bv32>, i: nat)
    requires i < |w| == 16
    ensures Words(Out(w))[i] == w[i]
  {
    BytesOfWord(w, i, w[i], Out(w)[4 * i..4 * i + 4]);
    WordAt(Out(w), i, w[i]);
  }

  lemma BytesOfWord(w: seq<bv32>, i: nat, x: bv32, b: seq<Byte>)
    requires i < |w| && x == w[i] && b == Out(w)[4 * i..4 * i + 4]
    ensures Spells(b, x)
  {
    OutAt(w, i);
  }

  /** The bytes spell the word. */
  ghost predicate Spells(b: seq<Byte>, x: bv32) {
    BE(b) == x as int
  }

  /** The i-th word of a block is the one that its four bytes spell. */
  lemma WordAt(block: seq<Byte>, i: nat, x: bv32)
    requires |block| == 64 && i < 16 && Spells(block[4 * i..4 * i + 4], x)
    ensures Words(block)[i] == x
  {
    Reread(x, block[4 * i..4 * i + 4]);
  }

  lemma Reread(x: bv32, b: seq<Byte>)
    requires |b| == 4 && Spells(b, x)
    ensures Load(b) == x
  {
  }

  function ToVars(s: State): Vars<bv32> {
    Vars(s[0], s[1], s[2], s[3], s[4], s[5], s[6], s[7])
  }

  function FromVars(v: Vars<bv32>): State {
    [v.a, v.b, v.c, v.d, v.e, v.f, v.g, v.h]
  }

  /** The compression of SHA-256 (section 6.2.2 of FIPS 180-4) on a block of 64 bytes. */
  function Sha256Block(s: State, block: seq<Byte>): State {
    if |block| != 64 then s else FromVars(Compress(StandardOps(), K, ToVars(s), Words(block)))
  }

  /** The transformation of the library, with its macros. */
  method TransformBlock(s: State, block: seq<Byte>) returns (r: State)
    requires |block| == 64
    ensures r == Sha256Block(s, block)
  {
    var v := Transform(MacroOps(), K, ToVars(s), Words(block));
    MacrosAgree();
    CompressAgrees(MacroOps(), StandardOps(), K, ToVars(s), Words(block));
    r := FromVars(v);
  }

  /** However a message is cut into writes, the digest is that of SHA-256. */
  method Sha256Pieces(pieces: seq<seq<Byte>>) returns (out32: seq<Byte>)
    requires forall p | p in pieces :: |p| <= TWO64 - 64
    ensures out32 == Digest(Sha256Block, Flatten(pieces))
  {
    out32 := HashPieces(Sha256Block, pieces);
  }
}
