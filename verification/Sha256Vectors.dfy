/** A published example, computed round by round, that ties the digest to SHA-256. */
module Sha256Vectors {
  import opened Notions
  import opened ByteStrings
  import opened Bits
  import opened Sha256
  import opened Sha256Transform
  import opened Sha256Standard

  /** The message "abc". */
  const Abc: seq<Byte> := [0x61, 0x62, 0x63]

  /** Its digest, as published with FIPS 180-4. */
  lemma DigestOfAbc()
    ensures Digest(Sha256Block, Abc) ==
      [0xba, 0x78, 0x16, 0xbf] + [0x8f, 0x01, 0xcf, 0xea] + [0x41, 0x41, 0x40, 0xde] + [0x5d, 0xae, 0x22, 0x23] +
      [0xb0, 0x03, 0x61, 0xa3] + [0x96, 0x17, 0x7a, 0x9c] + [0xb4, 0x10, 0xff, 0x61] + [0xf2, 0x00, 0x15, 0xad]
  {
    var block := Pad(Abc);
    AbcWords(block);
    var s := Sha256Block(Iv, block);
    AbcState(Words(block), s);
    assert block[64..] == [] && block[..64] == block;
    assert Fold(Sha256Block, Iv, block) == Fold(Sha256Block, s, []);
    AbcOut(s);
  }

  /** Eight rounds at a time. */
  lemma AbcRounds(k: seq<bv32>, w: seq<bv32>)
    requires |k| == |w| == 64 && KnownConstants(k) && KnownWords(w)
    ensures After(k, w, 64, Vars(0x506e3058, 0xd39a2165, 0x04d24d6c, 0xb85e2ce9, 0x5ef50f24, 0xfb121210, 0x948d25b6, 0x961f4894))
  {
    assert After(k, w, 0, ToVars(Iv)) by {
      assert Open(OfAfter, 0);
    }
    Rounds0(k, w);
    Rounds8(k, w);
    Rounds16(k, w);
    Rounds24(k, w);
    Rounds32(k, w);
    Rounds40(k, w);
    Rounds48(k, w);
    Rounds56(k, w);
  }

  /** The constants, four at a time. */
  lemma ConstantsAre()
    ensures |K| == 64 && KnownConstants(K)
  {
    Constants0();
    Constants8();
    Constants16();
    Constants24();
    Constants32();
    Constants40();
    Constants48();
    Constants56();
  }

  predicate KnownConstants(k: seq<bv32>) {
    && Four(k, 0, 0x428a2f98, 0x71374491, 0xb5c0fbcf, 0xe9b5dba5) && Four(k, 4, 0x3956c25b, 0x59f111f1, 0x923f82a4, 0xab1c5ed5)
    && Four(k, 8, 0xd807aa98, 0x12835b01, 0x243185be, 0x550c7dc3) && Four(k, 12, 0x72be5d74, 0x80deb1fe, 0x9bdc06a7, 0xc19bf174)
    && Four(k, 16, 0xe49b69c1, 0xefbe4786, 0x0fc19dc6, 0x240ca1cc) && Four(k, 20, 0x2de92c6f, 0x4a7484aa, 0x5cb0a9dc, 0x76f988da)
    && Four(k, 24, 0x983e5152, 0xa831c66d, 0xb00327c8, 0xbf597fc7) && Four(k, 28, 0xc6e00bf3, 0xd5a79147, 0x06ca6351, 0x14292967)
    && Four(k, 32, 0x27b70a85, 0x2e1b2138, 0x4d2c6dfc, 0x53380d13) && Four(k, 36, 0x650a7354, 0x766a0abb, 0x81c2c92e, 0x92722c85)
    && Four(k, 40, 0xa2bfe8a1, 0xa81a664b, 0xc24b8b70, 0xc76c51a3) && Four(k, 44, 0xd192e819, 0xd6990624, 0xf40e3585, 0x106aa070)
    && Four(k, 48, 0x19a4c116, 0x1e376c08, 0x2748774c, 0x34b0bcb5) && Four(k, 52, 0x391c0cb3, 0x4ed8aa4a, 0x5b9cca4f, 0x682e6ff3)
    && Four(k, 56, 0x748f82ee, 0x78a5636f, 0x84c87814, 0x8cc70208) && Four(k, 60, 0x90befffa, 0xa4506ceb, 0xbef9a3f7, 0xc67178f2)
  }

  lemma Constants0()
    ensures Four(K, 0, 0x428a2f98, 0x71374491, 0xb5c0fbcf, 0xe9b5dba5) && Four(K, 4, 0x3956c25b, 0x59f111f1, 0x923f82a4, 0xab1c5ed5)
  {
  }

  lemma Constants8()
    ensures Four(K, 8, 0xd807aa98, 0x12835b01, 0x243185be, 0x550c7dc3) && Four(K, 12, 0x72be5d74, 0x80deb1fe, 0x9bdc06a7, 0xc19bf174)
  {
  }

  lemma Constants16()
    ensures Four(K, 16, 0xe49b69c1, 0xefbe4786, 0x0fc19dc6, 0x240ca1cc) && Four(K, 20, 0x2de92c6f, 0x4a7484aa, 0x5cb0a9dc, 0x76f988da)
  {
  }

  lemma Constants24()
    ensures Four(K, 24, 0x983e5152, 0xa831c66d, 0xb00327c8, 0xbf597fc7) && Four(K, 28, 0xc6e00bf3, 0xd5a79147, 0x06ca6351, 0x14292967)
  {
  }

  lemma Constants32()
    ensures Four(K, 32, 0x27b70a85, 0x2e1b2138, 0x4d2c6dfc, 0x53380d13) && Four(K, 36, 0x650a7354, 0x766a0abb, 0x81c2c92e, 0x92722c85)
  {
  }

  lemma Constants40()
    ensures Four(K, 40, 0xa2bfe8a1, 0xa81a664b, 0xc24b8b70, 0xc76c51a3) && Four(K, 44, 0xd192e819, 0xd6990624, 0xf40e3585, 0x106aa070)
  {
  }

  lemma Constants48()
    ensures Four(K, 48, 0x19a4c116, 0x1e376c08, 0x2748774c, 0x34b0bcb5) && Four(K, 52, 0x391c0cb3, 0x4ed8aa4a, 0x5b9cca4f, 0x682e6ff3)
  {
  }

  lemma Constants56()
    ensures Four(K, 56, 0x748f82ee, 0x78a5636f, 0x84c87814, 0x8cc70208) && Four(K, 60, 0x90befffa, 0xa4506ceb, 0xbef9a3f7, 0xc67178f2)
  {
  }

  /** The state after the block. */
  lemma AbcState(x: seq<bv32>, s: State)
    requires |x| == 16 && s == FromVars(Compress(StandardOps(), K, ToVars(Iv), x)) && KnownBlock(x)
    ensures s == [0xba7816bf, 0x8f01cfea, 0x414140de, 0x5dae2223, 0xb00361a3, 0x96177a9c, 0xb410ff61, 0xf20015ad]
  {
    var w := Schedule(StandardOps(), x, |K|);
    ConstantsAre();
    AbcSchedule(x, w);
    AbcRounds(K, w);
    Opened64(w, Vars(0x506e3058, 0xd39a2165, 0x04d24d6c, 0xb85e2ce9, 0x5ef50f24, 0xfb121210, 0x948d25b6, 0x961f4894));
    Added(Vars(0x506e3058, 0xd39a2165, 0x04d24d6c, 0xb85e2ce9, 0x5ef50f24, 0xfb121210, 0x948d25b6, 0x961f4894));
  }

  lemma Opened64(w: seq<bv32>, v: Vars<bv32>)
    requires |K| == |w| == 64 && After(K, w, 64, v)
    ensures Rounds(StandardOps(), K, w, ToVars(Iv), |K|) == v
  {
    assert Open(OfAfter, 0);
  }

  /** The state is added to the variables. */
  lemma Added(v: Vars<bv32>)
    requires v == Vars(0x506e3058, 0xd39a2165, 0x04d24d6c, 0xb85e2ce9, 0x5ef50f24, 0xfb121210, 0x948d25b6, 0x961f4894)
    ensures Iv[0] + v.a == 0xba7816bf && Iv[1] + v.b == 0x8f01cfea && Iv[2] + v.c == 0x414140de && Iv[3] + v.d == 0x5dae2223
    ensures Iv[4] + v.e == 0xb00361a3 && Iv[5] + v.f == 0x96177a9c && Iv[6] + v.g == 0xb410ff61 && Iv[7] + v.h == 0xf20015ad
  {
  }

  // ---------- Bytes and words ----------

  function Spell(a: int, b: int, c: int, d: int): int {
    ((a * 256 + b) * 256 + c) * 256 + d
  }

  lemma FourBytes(b: seq<Byte>)
    requires |b| == 4
    ensures BE(b) == Spell(b[0], b[1], b[2], b[3])
  {
    var c := b[..3];
    assert BE(c) == BE(c[..2]) * 256 + c[2];
    assert BE(c[..2]) == BE(c[..2][..1]) * 256 + c[..2][1];
    assert BE(c[..2][..1]) == BE(c[..2][..1][..0]) * 256 + c[..2][..1][0];
  }

  /** The i-th word as four bytes. */
  lemma WordAs(w: seq<bv32>, i: nat, x: bv32, a: Byte, b: Byte, c: Byte, d: Byte)
    requires i < |w| && w[i] == x && x as int == Spell(a, b, c, d)
    ensures Out(w)[4 * i..4 * i + 4] == [a, b, c, d]
  {
    OutAt(w, i);
    FourBytes([a, b, c, d]);
    FixedBytesOf([a, b, c, d]);
  }

  lemma AbcOut(w: seq<bv32>)
    requires w == [0xba7816bf, 0x8f01cfea, 0x414140de, 0x5dae2223, 0xb00361a3, 0x96177a9c, 0xb410ff61, 0xf20015ad]
    ensures Out(w) == [0xba, 0x78, 0x16, 0xbf] + [0x8f, 0x01, 0xcf, 0xea] + [0x41, 0x41, 0x40, 0xde] + [0x5d, 0xae, 0x22, 0x23] +
      [0xb0, 0x03, 0x61, 0xa3] + [0x96, 0x17, 0x7a, 0x9c] + [0xb4, 0x10, 0xff, 0x61] + [0xf2, 0x00, 0x15, 0xad]
  {
    FirstWords(w);
    LastWords(w);
    ByFours(Out(w));
  }

  lemma FirstWords(w: seq<bv32>)
    requires |w| == 8 && Four(w, 0, 0xba7816bf, 0x8f01cfea, 0x414140de, 0x5dae2223)
    ensures Out(w)[0..4] == [0xba, 0x78, 0x16, 0xbf]
    ensures Out(w)[4..8] == [0x8f, 0x01, 0xcf, 0xea]
    ensures Out(w)[8..12] == [0x41, 0x41, 0x40, 0xde]
    ensures Out(w)[12..16] == [0x5d, 0xae, 0x22, 0x23]
  {
    WordAs(w, 0, 0xba7816bf, 0xba, 0x78, 0x16, 0xbf);
    WordAs(w, 1, 0x8f01cfea, 0x8f, 0x01, 0xcf, 0xea);
    WordAs(w, 2, 0x414140de, 0x41, 0x41, 0x40, 0xde);
    WordAs(w, 3, 0x5dae2223, 0x5d, 0xae, 0x22, 0x23);
  }

  lemma LastWords(w: seq<bv32>)
    requires |w| == 8 && Four(w, 4, 0xb00361a3, 0x96177a9c, 0xb410ff61, 0xf20015ad)
    ensures Out(w)[16..20] == [0xb0, 0x03, 0x61, 0xa3]
    ensures Out(w)[20..24] == [0x96, 0x17, 0x7a, 0x9c]
    ensures Out(w)[24..28] == [0xb4, 0x10, 0xff, 0x61]
    ensures Out(w)[28..32] == [0xf2, 0x00, 0x15, 0xad]
  {
    WordAs(w, 4, 0xb00361a3, 0xb0, 0x03, 0x61, 0xa3);
    WordAs(w, 5, 0x96177a9c, 0x96, 0x17, 0x7a, 0x9c);
    WordAs(w, 6, 0xb410ff61, 0xb4, 0x10, 0xff, 0x61);
    WordAs(w, 7, 0xf20015ad, 0xf2, 0x00, 0x15, 0xad);
  }

  lemma ByFours(o: seq<Byte>)
    requires |o| == 32
    ensures o == o[0..4] + o[4..8] + o[8..12] + o[12..16] + o[16..20] + o[20..24] + o[24..28] + o[28..32]
  {
  }

  lemma BlockWord(block: seq<Byte>, i: nat, x: bv32)
    requires |block| == 64 && i < 16
    requires x as int == Spell(block[4 * i], block[4 * i + 1], block[4 * i + 2], block[4 * i + 3])
    ensures Words(block)[i] == x
  {
    FourBytes(block[4 * i..4 * i + 4]);
    WordAt(block, i, x);
  }

  /** The one block of the padded message. */
  lemma AbcWords(block: seq<Byte>)
    requires block == Pad(Abc)
    ensures |block| == 64 && KnownBlock(Words(block))
  {
    PadLayout(Abc);
    AbcBlock(Abc, block);
    BlockWord(block, 0, 0x61626380);
    forall i | 1 <= i < 15
      ensures Words(block)[i] == 0
    {
      BlockWord(block, i, 0);
    }
    BlockWord(block, 15, 0x18);
  }

  lemma AbcBlock(m: seq<Byte>, p: seq<Byte>)
    requires |m| == 3 && Padded(m, p)
    ensures |p| == 64 && p[0] == m[0] && p[1] == m[1] && p[2] == m[2] && p[3] == 0x80
    ensures (forall i :: 3 < i < 63 ==> p[i] == 0) && p[63] == 24
  {
    assert PadZeros(3) == 52 && (8 * 3) % TWO64 == 24;
    Layout(m, p);
  }

  lemma Layout(m: seq<Byte>, p: seq<Byte>)
    requires |m| == 3 && |p| == 64 && p[..3] == m && BE(p[56..]) == 24 && forall i :: 3 < i < 56 ==> p[i] == 0
    ensures p[0] == m[0] && p[1] == m[1] && p[2] == m[2]
    ensures (forall i :: 3 < i < 63 ==> p[i] == 0) && p[63] == 24
  {
    LastOf(p);
  }

  lemma LastOf(p: seq<Byte>)
    requires |p| == 64 && BE(p[56..]) == 24
    ensures (forall i :: 56 <= i < 63 ==> p[i] == 0) && p[63] == 24
  {
    var b := p[56..];
    LastBytes(b);
    forall i | 56 <= i < 64
      ensures p[i] == b[i - 56]
    {
    }
  }

  lemma LastBytes(b: seq<Byte>)
    requires |b| == 8 && BE(b) == 24
    ensures b == [0, 0, 0, 0, 0, 0, 0, 24]
  {
    var c: seq<Byte> := [0, 0, 0, 0, 0, 0, 0, 24];
    BEOf24(c);
    FixedBytesOf(b);
    FixedBytesOf(c);
  }

  lemma BEOf24(b: seq<Byte>)
    requires |b| == 8 && b[7] == 24 && forall i :: 0 <= i < 7 ==> b[i] == 0
    ensures BE(b) == 24
  {
    BEOfZeros(b[..7]);
  }

  lemma {:induction false} BEOfZeros(b: seq<Byte>)
    requires forall i :: 0 <= i < |b| ==> b[i] == 0
    ensures BE(b) == 0
  {
    if b != [] {
      BEOfZeros(b[..|b| - 1]);
    }
  }

  // ---------- The message schedule ----------

  lemma AbcSchedule(x: seq<bv32>, w: seq<bv32>)
    requires |x| == 16 && w == Schedule(StandardOps(), x, 64) && KnownBlock(x)
    ensures KnownWords(w)
  {
    var n := |w|;
    ScheduleStart(StandardOps(), x, n);
    forall t | 16 <= t < n
      ensures w[t] == Extension(StandardOps(), w, t)
    {
      ScheduleAt(StandardOps(), x, n, t);
    }
    forall i | 0 <= i < 16
      ensures w[i] == x[i]
    {
      assert w[..16][i] == x[i];
    }
    Words16(w);
    Words32(w);
    Words48(w);
  }

  predicate KnownBlock(w: seq<bv32>) {
    && Four(w, 0, 0x61626380, 0x00000000, 0x00000000, 0x00000000) && Four(w, 4, 0x00000000, 0x00000000, 0x00000000, 0x00000000)
    && Four(w, 8, 0x00000000, 0x00000000, 0x00000000, 0x00000000) && Four(w, 12, 0x00000000, 0x00000000, 0x00000000, 0x00000018)
  }

  predicate KnownWords(w: seq<bv32>) {
    && Four(w, 0, 0x61626380, 0x00000000, 0x00000000, 0x00000000) && Four(w, 4, 0x00000000, 0x00000000, 0x00000000, 0x00000000)
    && Four(w, 8, 0x00000000, 0x00000000, 0x00000000, 0x00000000) && Four(w, 12, 0x00000000, 0x00000000, 0x00000000, 0x00000018)
    && Four(w, 16, 0x61626380, 0x000f0000, 0x7da86405, 0x600003c6) && Four(w, 20, 0x3e9d7b78, 0x0183fc00, 0x12dcbfdb, 0xe2e2c38e)
    && Four(w, 24, 0xc8215c1a, 0xb73679a2, 0xe5bc3909, 0x32663c5b) && Four(w, 28, 0x9d209d67, 0xec8726cb, 0x702138a4, 0xd3b7973b)
    && Four(w, 32, 0x93f5997f, 0x3b68ba73, 0xaff4ffc1, 0xf10a5c62) && Four(w, 36, 0x0a8b3996, 0x72af830a, 0x9409e33e, 0x24641522)
    && Four(w, 40, 0x9f47bf94, 0xf0a64f5a, 0x3e246a79, 0x27333ba3) && Four(w, 44, 0x0c4763f2, 0x840abf27, 0x7a290d5d, 0x065c43da)
    && Four(w, 48, 0xfb3e89cb, 0xcc7617db, 0xb9e66c34, 0xa9993667) && Four(w, 52, 0x84badedd, 0xc21462bc, 0x1487472c, 0xb20f7a99)
    && Four(w, 56, 0xef57b9cd, 0xebe6b238, 0x9fe3095e, 0x78bc8d4b) && Four(w, 60, 0xa43fcf15, 0x668b2ff8, 0xeeaba2cc, 0x12b1edeb)
  }

  /** Four words of s from t on. */
  predicate Four(s: seq<bv32>, t: nat, a: bv32, b: bv32, c: bv32, d: bv32) {
    t + 4 <= |s| && s[t] == a && s[t + 1] == b && s[t + 2] == c && s[t + 3] == d
  }

  lemma WordIs(w: seq<bv32>, t: nat, x: bv32)
    requires 16 <= t < |w| && IsSchedule(StandardOps(), w) && Extension(StandardOps(), w, t) == x
    ensures w[t] == x
  {
  }

  lemma Words16(w: seq<bv32>)
    requires |w| == 64 && IsSchedule(StandardOps(), w)
    requires Four(w, 0, 0x61626380, 0x00000000, 0x00000000, 0x00000000)
    requires Four(w, 4, 0x00000000, 0x00000000, 0x00000000, 0x00000000)
    requires Four(w, 8, 0x00000000, 0x00000000, 0x00000000, 0x00000000)
    requires Four(w, 12, 0x00000000, 0x00000000, 0x00000000, 0x00000018)
    ensures Four(w, 16, 0x61626380, 0x000f0000, 0x7da86405, 0x600003c6)
    ensures Four(w, 20, 0x3e9d7b78, 0x0183fc00, 0x12dcbfdb, 0xe2e2c38e)
    ensures Four(w, 24, 0xc8215c1a, 0xb73679a2, 0xe5bc3909, 0x32663c5b)
    ensures Four(w, 28, 0x9d209d67, 0xec8726cb, 0x702138a4, 0xd3b7973b)
  {
    WordIs(w, 16, 0x61626380);
    WordIs(w, 17, 0x000f0000);
    WordIs(w, 18, 0x7da86405);
    WordIs(w, 19, 0x600003c6);
    WordIs(w, 20, 0x3e9d7b78);
    WordIs(w, 21, 0x0183fc00);
    WordIs(w, 22, 0x12dcbfdb);
    WordIs(w, 23, 0xe2e2c38e);
    WordIs(w, 24, 0xc8215c1a);
    WordIs(w, 25, 0xb73679a2);
    WordIs(w, 26, 0xe5bc3909);
    WordIs(w, 27, 0x32663c5b);
    WordIs(w, 28, 0x9d209d67);
    WordIs(w, 29, 0xec8726cb);
    WordIs(w, 30, 0x702138a4);
    WordIs(w, 31, 0xd3b7973b);
  }

  lemma Words32(w: seq<bv32>)
    requires |w| == 64 && IsSchedule(StandardOps(), w)
    requires Four(w, 16, 0x61626380, 0x000f0000, 0x7da86405, 0x600003c6)
    requires Four(w, 20, 0x3e9d7b78, 0x0183fc00, 0x12dcbfdb, 0xe2e2c38e)
    requires Four(w, 24, 0xc8215c1a, 0xb73679a2, 0xe5bc3909, 0x32663c5b)
    requires Four(w, 28, 0x9d209d67, 0xec8726cb, 0x702138a4, 0xd3b7973b)
    ensures Four(w, 32, 0x93f5997f, 0x3b68ba73, 0xaff4ffc1, 0xf10a5c62)
    ensures Four(w, 36, 0x0a8b3996, 0x72af830a, 0x9409e33e, 0x24641522)
    ensures Four(w, 40, 0x9f47bf94, 0xf0a64f5a, 0x3e246a79, 0x27333ba3)
    ensures Four(w, 44, 0x0c4763f2, 0x840abf27, 0x7a290d5d, 0x065c43da)
  {
    WordIs(w, 32, 0x93f5997f);
    WordIs(w, 33, 0x3b68ba73);
    WordIs(w, 34, 0xaff4ffc1);
    WordIs(w, 35, 0xf10a5c62);
    WordIs(w, 36, 0x0a8b3996);
    WordIs(w, 37, 0x72af830a);
    WordIs(w, 38, 0x9409e33e);
    WordIs(w, 39, 0x24641522);
    WordIs(w, 40, 0x9f47bf94);
    WordIs(w, 41, 0xf0a64f5a);
    WordIs(w, 42, 0x3e246a79);
    WordIs(w, 43, 0x27333ba3);
    WordIs(w, 44, 0x0c4763f2);
    WordIs(w, 45, 0x840abf27);
    WordIs(w, 46, 0x7a290d5d);
    WordIs(w, 47, 0x065c43da);
  }

  lemma Words48(w: seq<bv32>)
    requires |w| == 64 && IsSchedule(StandardOps(), w)
    requires Four(w, 32, 0x93f5997f, 0x3b68ba73, 0xaff4ffc1, 0xf10a5c62)
    requires Four(w, 36, 0x0a8b3996, 0x72af830a, 0x9409e33e, 0x24641522)
    requires Four(w, 40, 0x9f47bf94, 0xf0a64f5a, 0x3e246a79, 0x27333ba3)
    requires Four(w, 44, 0x0c4763f2, 0x840abf27, 0x7a290d5d, 0x065c43da)
    ensures Four(w, 48, 0xfb3e89cb, 0xcc7617db, 0xb9e66c34, 0xa9993667)
    ensures Four(w, 52, 0x84badedd, 0xc21462bc, 0x1487472c, 0xb20f7a99)
    ensures Four(w, 56, 0xef57b9cd, 0xebe6b238, 0x9fe3095e, 0x78bc8d4b)
    ensures Four(w, 60, 0xa43fcf15, 0x668b2ff8, 0xeeaba2cc, 0x12b1edeb)
  {
    WordIs(w, 48, 0xfb3e89cb);
    WordIs(w, 49, 0xcc7617db);
    WordIs(w, 50, 0xb9e66c34);
    WordIs(w, 51, 0xa9993667);
    WordIs(w, 52, 0x84badedd);
    WordIs(w, 53, 0xc21462bc);
    WordIs(w, 54, 0x1487472c);
    WordIs(w, 55, 0xb20f7a99);
    WordIs(w, 56, 0xef57b9cd);
    WordIs(w, 57, 0xebe6b238);
    WordIs(w, 58, 0x9fe3095e);
    WordIs(w, 59, 0x78bc8d4b);
    WordIs(w, 60, 0xa43fcf15);
    WordIs(w, 61, 0x668b2ff8);
    WordIs(w, 62, 0xeeaba2cc);
    WordIs(w, 63, 0x12b1edeb);
  }

  // ---------- The rounds ----------

  /** From s, t rounds lead to v. Used like Is. */
  ghost predicate After(k: seq<bv32>, w: seq<bv32>, t: nat, v: Vars<bv32>) {
    forall u: int {:trigger Open(OfAfter, u)} :: Open(OfAfter, u) ==>
      t <= |k| == |w| && Rounds(StandardOps(), k, w, ToVars(Iv), t) == v
  }

  lemma Next(k: seq<bv32>, w: seq<bv32>, t: nat, v: Vars<bv32>, r: Vars<bv32>)
    requires t < |w| == |k| && After(k, w, t, v) && Step(StandardOps(), v, k[t], w[t]) == r
    ensures After(k, w, t + 1, r)
  {
    assert Open(OfAfter, 0);
  }

  lemma Rounds0(k: seq<bv32>, w: seq<bv32>)
    requires |k| == |w|
    requires After(k, w, 0, Vars(0x6a09e667, 0xbb67ae85, 0x3c6ef372, 0xa54ff53a, 0x510e527f, 0x9b05688c, 0x1f83d9ab, 0x5be0cd19))
    requires Four(k, 0, 0x428a2f98, 0x71374491, 0xb5c0fbcf, 0xe9b5dba5)
    requires Four(k, 4, 0x3956c25b, 0x59f111f1, 0x923f82a4, 0xab1c5ed5)
    requires Four(w, 0, 0x61626380, 0x00000000, 0x00000000, 0x00000000)
    requires Four(w, 4, 0x00000000, 0x00000000, 0x00000000, 0x00000000)
    ensures After(k, w, 8, Vars(0x85a07b5f, 0xe5030380, 0x2b4209f5, 0x04409a6a, 0x0c657a79, 0x9b27a401, 0x714260ad, 0x43ada245))
  {
    Next(k, w, 0,
      Vars(0x6a09e667, 0xbb67ae85, 0x3c6ef372, 0xa54ff53a, 0x510e527f, 0x9b05688c, 0x1f83d9ab, 0x5be0cd19),
      Vars(0x5d6aebcd, 0x6a09e667, 0xbb67ae85, 0x3c6ef372, 0xfa2a4622, 0x510e527f, 0x9b05688c, 0x1f83d9ab));
    Next(k, w, 1,
      Vars(0x5d6aebcd, 0x6a09e667, 0xbb67ae85, 0x3c6ef372, 0xfa2a4622, 0x510e527f, 0x9b05688c, 0x1f83d9ab),
      Vars(0x5a6ad9ad, 0x5d6aebcd, 0x6a09e667, 0xbb67ae85, 0x78ce7989, 0xfa2a4622, 0x510e527f, 0x9b05688c));
    Next(k, w, 2,
      Vars(0x5a6ad9ad, 0x5d6aebcd, 0x6a09e667, 0xbb67ae85, 0x78ce7989, 0xfa2a4622, 0x510e527f, 0x9b05688c),
      Vars(0xc8c347a7, 0x5a6ad9ad, 0x5d6aebcd, 0x6a09e667, 0xf92939eb, 0x78ce7989, 0xfa2a4622, 0x510e527f));
    Next(k, w, 3,
      Vars(0xc8c347a7, 0x5a6ad9ad, 0x5d6aebcd, 0x6a09e667, 0xf92939eb, 0x78ce7989, 0xfa2a4622, 0x510e527f),
      Vars(0xd550f666, 0xc8c347a7, 0x5a6ad9ad, 0x5d6aebcd, 0x24e00850, 0xf92939eb, 0x78ce7989, 0xfa2a4622));
    Next(k, w, 4,
      Vars(0xd550f666, 0xc8c347a7, 0x5a6ad9ad, 0x5d6aebcd, 0x24e00850, 0xf92939eb, 0x78ce7989, 0xfa2a4622),
      Vars(0x04409a6a, 0xd550f666, 0xc8c347a7, 0x5a6ad9ad, 0x43ada245, 0x24e00850, 0xf92939eb, 0x78ce7989));
    Next(k, w, 5,
      Vars(0x04409a6a, 0xd550f666, 0xc8c347a7, 0x5a6ad9ad, 0x43ada245, 0x24e00850, 0xf92939eb, 0x78ce7989),
      Vars(0x2b4209f5, 0x04409a6a, 0xd550f666, 0xc8c347a7, 0x714260ad, 0x43ada245, 0x24e00850, 0xf92939eb));
    Next(k, w, 6,
      Vars(0x2b4209f5, 0x04409a6a, 0xd550f666, 0xc8c347a7, 0x714260ad, 0x43ada245, 0x24e00850, 0xf92939eb),
      Vars(0xe5030380, 0x2b4209f5, 0x04409a6a, 0xd550f666, 0x9b27a401, 0x714260ad, 0x43ada245, 0x24e00850));
    Next(k, w, 7,
      Vars(0xe5030380, 0x2b4209f5, 0x04409a6a, 0xd550f666, 0x9b27a401, 0x714260ad, 0x43ada245, 0x24e00850),
      Vars(0x85a07b5f, 0xe5030380, 0x2b4209f5, 0x04409a6a, 0x0c657a79, 0x9b27a401, 0x714260ad, 0x43ada245));
  }

  lemma Rounds8(k: seq<bv32>, w: seq<bv32>)
    requires |k| == |w|
    requires After(k, w, 8, Vars(0x85a07b5f, 0xe5030380, 0x2b4209f5, 0x04409a6a, 0x0c657a79, 0x9b27a401, 0x714260ad, 0x43ada245))
    requires Four(k, 8, 0xd807aa98, 0x12835b01, 0x243185be, 0x550c7dc3)
    requires Four(k, 12, 0x72be5d74, 0x80deb1fe, 0x9bdc06a7, 0xc19bf174)
    requires Four(w, 8, 0x00000000, 0x00000000, 0x00000000, 0x00000000)
    requires Four(w, 12, 0x00000000, 0x00000000, 0x00000000, 0x00000018)
    ensures After(k, w, 16, Vars(0xb0fa238e, 0xc0645fde, 0xd932eb16, 0x87912990, 0x07590dcd, 0x0b92f20c, 0x745a48de, 0x1e578218))
  {
    Next(k, w, 8,
      Vars(0x85a07b5f, 0xe5030380, 0x2b4209f5, 0x04409a6a, 0x0c657a79, 0x9b27a401, 0x714260ad, 0x43ada245),
      Vars(0x8e04ecb9, 0x85a07b5f, 0xe5030380, 0x2b4209f5, 0x32ca2d8c, 0x0c657a79, 0x9b27a401, 0x714260ad));
    Next(k, w, 9,
      Vars(0x8e04ecb9, 0x85a07b5f, 0xe5030380, 0x2b4209f5, 0x32ca2d8c, 0x0c657a79, 0x9b27a401, 0x714260ad),
      Vars(0x8c87346b, 0x8e04ecb9, 0x85a07b5f, 0xe5030380, 0x1cc92596, 0x32ca2d8c, 0x0c657a79, 0x9b27a401));
    Next(k, w, 10,
      Vars(0x8c87346b, 0x8e04ecb9, 0x85a07b5f, 0xe5030380, 0x1cc92596, 0x32ca2d8c, 0x0c657a79, 0x9b27a401),
      Vars(0x4798a3f4, 0x8c87346b, 0x8e04ecb9, 0x85a07b5f, 0x436b23e8, 0x1cc92596, 0x32ca2d8c, 0x0c657a79));
    Next(k, w, 11,
      Vars(0x4798a3f4, 0x8c87346b, 0x8e04ecb9, 0x85a07b5f, 0x436b23e8, 0x1cc92596, 0x32ca2d8c, 0x0c657a79),
      Vars(0xf71fc5a9, 0x4798a3f4, 0x8c87346b, 0x8e04ecb9, 0x816fd6e9, 0x436b23e8, 0x1cc92596, 0x32ca2d8c));
    Next(k, w, 12,
      Vars(0xf71fc5a9, 0x4798a3f4, 0x8c87346b, 0x8e04ecb9, 0x816fd6e9, 0x436b23e8, 0x1cc92596, 0x32ca2d8c),
      Vars(0x87912990, 0xf71fc5a9, 0x4798a3f4, 0x8c87346b, 0x1e578218, 0x816fd6e9, 0x436b23e8, 0x1cc92596));
    Next(k, w, 13,
      Vars(0x87912990, 0xf71fc5a9, 0x4798a3f4, 0x8c87346b, 0x1e578218, 0x816fd6e9, 0x436b23e8, 0x1cc92596),
      Vars(0xd932eb16, 0x87912990, 0xf71fc5a9, 0x4798a3f4, 0x745a48de, 0x1e578218, 0x816fd6e9, 0x436b23e8));
    Next(k, w, 14,
      Vars(0xd932eb16, 0x87912990, 0xf71fc5a9, 0x4798a3f4, 0x745a48de, 0x1e578218, 0x816fd6e9, 0x436b23e8),
      Vars(0xc0645fde, 0xd932eb16, 0x87912990, 0xf71fc5a9, 0x0b92f20c, 0x745a48de, 0x1e578218, 0x816fd6e9));
    Next(k, w, 15,
      Vars(0xc0645fde, 0xd932eb16, 0x87912990, 0xf71fc5a9, 0x0b92f20c, 0x745a48de, 0x1e578218, 0x816fd6e9),
      Vars(0xb0fa238e, 0xc0645fde, 0xd932eb16, 0x87912990, 0x07590dcd, 0x0b92f20c, 0x745a48de, 0x1e578218));
  }

  lemma Rounds16(k: seq<bv32>, w: seq<bv32>)
    requires |k| == |w|
    requires After(k, w, 16, Vars(0xb0fa238e, 0xc0645fde, 0xd932eb16, 0x87912990, 0x07590dcd, 0x0b92f20c, 0x745a48de, 0x1e578218))
    requires Four(k, 16, 0xe49b69c1, 0xefbe4786, 0x0fc19dc6, 0x240ca1cc)
    requires Four(k, 20, 0x2de92c6f, 0x4a7484aa, 0x5cb0a9dc, 0x76f988da)
    requires Four(w, 16, 0x61626380, 0x000f0000, 0x7da86405, 0x600003c6)
    requires Four(w, 20, 0x3e9d7b78, 0x0183fc00, 0x12dcbfdb, 0xe2e2c38e)
    ensures After(k, w, 24, Vars(0xc5d53d8d, 0xa7a3623f, 0xc2606d6d, 0x9dc68b63, 0xaa47c347, 0x49f5114a, 0xe1257970, 0x8ada8930))
  {
    Next(k, w, 16,
      Vars(0xb0fa238e, 0xc0645fde, 0xd932eb16, 0x87912990, 0x07590dcd, 0x0b92f20c, 0x745a48de, 0x1e578218),
      Vars(0x21da9a9b, 0xb0fa238e, 0xc0645fde, 0xd932eb16, 0x8034229c, 0x07590dcd, 0x0b92f20c, 0x745a48de));
    Next(k, w, 17,
      Vars(0x21da9a9b, 0xb0fa238e, 0xc0645fde, 0xd932eb16, 0x8034229c, 0x07590dcd, 0x0b92f20c, 0x745a48de),
      Vars(0xc2fbd9d1, 0x21da9a9b, 0xb0fa238e, 0xc0645fde, 0x846ee454, 0x8034229c, 0x07590dcd, 0x0b92f20c));
    Next(k, w, 18,
      Vars(0xc2fbd9d1, 0x21da9a9b, 0xb0fa238e, 0xc0645fde, 0x846ee454, 0x8034229c, 0x07590dcd, 0x0b92f20c),
      Vars(0xfe777bbf, 0xc2fbd9d1, 0x21da9a9b, 0xb0fa238e, 0xcc899961, 0x846ee454, 0x8034229c, 0x07590dcd));
    Next(k, w, 19,
      Vars(0xfe777bbf, 0xc2fbd9d1, 0x21da9a9b, 0xb0fa238e, 0xcc899961, 0x846ee454, 0x8034229c, 0x07590dcd),
      Vars(0xe1f20c33, 0xfe777bbf, 0xc2fbd9d1, 0x21da9a9b, 0xb0638179, 0xcc899961, 0x846ee454, 0x8034229c));
    Next(k, w, 20,
      Vars(0xe1f20c33, 0xfe777bbf, 0xc2fbd9d1, 0x21da9a9b, 0xb0638179, 0xcc899961, 0x846ee454, 0x8034229c),
      Vars(0x9dc68b63, 0xe1f20c33, 0xfe777bbf, 0xc2fbd9d1, 0x8ada8930, 0xb0638179, 0xcc899961, 0x846ee454));
    Next(k, w, 21,
      Vars(0x9dc68b63, 0xe1f20c33, 0xfe777bbf, 0xc2fbd9d1, 0x8ada8930, 0xb0638179, 0xcc899961, 0x846ee454),
      Vars(0xc2606d6d, 0x9dc68b63, 0xe1f20c33, 0xfe777bbf, 0xe1257970, 0x8ada8930, 0xb0638179, 0xcc899961));
    Next(k, w, 22,
      Vars(0xc2606d6d, 0x9dc68b63, 0xe1f20c33, 0xfe777bbf, 0xe1257970, 0x8ada8930, 0xb0638179, 0xcc899961),
      Vars(0xa7a3623f, 0xc2606d6d, 0x9dc68b63, 0xe1f20c33, 0x49f5114a, 0xe1257970, 0x8ada8930, 0xb0638179));
    Next(k, w, 23,
      Vars(0xa7a3623f, 0xc2606d6d, 0x9dc68b63, 0xe1f20c33, 0x49f5114a, 0xe1257970, 0x8ada8930, 0xb0638179),
      Vars(0xc5d53d8d, 0xa7a3623f, 0xc2606d6d, 0x9dc68b63, 0xaa47c347, 0x49f5114a, 0xe1257970, 0x8ada8930));
  }

  lemma Rounds24(k: seq<bv32>, w: seq<bv32>)
    requires |k| == |w|
    requires After(k, w, 24, Vars(0xc5d53d8d, 0xa7a3623f, 0xc2606d6d, 0x9dc68b63, 0xaa47c347, 0x49f5114a, 0xe1257970, 0x8ada8930))
    requires Four(k, 24, 0x983e5152, 0xa831c66d, 0xb00327c8, 0xbf597fc7)
    requires Four(k, 28, 0xc6e00bf3, 0xd5a79147, 0x06ca6351, 0x14292967)
    requires Four(w, 24, 0xc8215c1a, 0xb73679a2, 0xe5bc3909, 0x32663c5b)
    requires Four(w, 28, 0x9d209d67, 0xec8726cb, 0x702138a4, 0xd3b7973b)
    ensures After(k, w, 32, Vars(0x73b33bf5, 0xea992a22, 0xa0060b30, 0x363482c9, 0xba591112, 0x0109ab3a, 0xade79437, 0x6112a3b7))
  {
    Next(k, w, 24,
      Vars(0xc5d53d8d, 0xa7a3623f, 0xc2606d6d, 0x9dc68b63, 0xaa47c347, 0x49f5114a, 0xe1257970, 0x8ada8930),
      Vars(0x1c2c2838, 0xc5d53d8d, 0xa7a3623f, 0xc2606d6d, 0x2823ef91, 0xaa47c347, 0x49f5114a, 0xe1257970));
    Next(k, w, 25,
      Vars(0x1c2c2838, 0xc5d53d8d, 0xa7a3623f, 0xc2606d6d, 0x2823ef91, 0xaa47c347, 0x49f5114a, 0xe1257970),
      Vars(0xcde8037d, 0x1c2c2838, 0xc5d53d8d, 0xa7a3623f, 0x14383d8e, 0x2823ef91, 0xaa47c347, 0x49f5114a));
    Next(k, w, 26,
      Vars(0xcde8037d, 0x1c2c2838, 0xc5d53d8d, 0xa7a3623f, 0x14383d8e, 0x2823ef91, 0xaa47c347, 0x49f5114a),
      Vars(0xb62ec4bc, 0xcde8037d, 0x1c2c2838, 0xc5d53d8d, 0xc74c6516, 0x14383d8e, 0x2823ef91, 0xaa47c347));
    Next(k, w, 27,
      Vars(0xb62ec4bc, 0xcde8037d, 0x1c2c2838, 0xc5d53d8d, 0xc74c6516, 0x14383d8e, 0x2823ef91, 0xaa47c347),
      Vars(0x77d37528, 0xb62ec4bc, 0xcde8037d, 0x1c2c2838, 0xedffbff8, 0xc74c6516, 0x14383d8e, 0x2823ef91));
    Next(k, w, 28,
      Vars(0x77d37528, 0xb62ec4bc, 0xcde8037d, 0x1c2c2838, 0xedffbff8, 0xc74c6516, 0x14383d8e, 0x2823ef91),
      Vars(0x363482c9, 0x77d37528, 0xb62ec4bc, 0xcde8037d, 0x6112a3b7, 0xedffbff8, 0xc74c6516, 0x14383d8e));
    Next(k, w, 29,
      Vars(0x363482c9, 0x77d37528, 0xb62ec4bc, 0xcde8037d, 0x6112a3b7, 0xedffbff8, 0xc74c6516, 0x14383d8e),
      Vars(0xa0060b30, 0x363482c9, 0x77d37528, 0xb62ec4bc, 0xade79437, 0x6112a3b7, 0xedffbff8, 0xc74c6516));
    Next(k, w, 30,
      Vars(0xa0060b30, 0x363482c9, 0x77d37528, 0xb62ec4bc, 0xade79437, 0x6112a3b7, 0xedffbff8, 0xc74c6516),
      Vars(0xea992a22, 0xa0060b30, 0x363482c9, 0x77d37528, 0x0109ab3a, 0xade79437, 0x6112a3b7, 0xedffbff8));
    Next(k, w, 31,
      Vars(0xea992a22, 0xa0060b30, 0x363482c9, 0x77d37528, 0x0109ab3a, 0xade79437, 0x6112a3b7, 0xedffbff8),
      Vars(0x73b33bf5, 0xea992a22, 0xa0060b30, 0x363482c9, 0xba591112, 0x0109ab3a, 0xade79437, 0x6112a3b7));
  }

  lemma Rounds32(k: seq<bv32>, w: seq<bv32>)
    requires |k| == |w|
    requires After(k, w, 32, Vars(0x73b33bf5, 0xea992a22, 0xa0060b30, 0x363482c9, 0xba591112, 0x0109ab3a, 0xade79437, 0x6112a3b7))
    requires Four(k, 32, 0x27b70a85, 0x2e1b2138, 0x4d2c6dfc, 0x53380d13)
    requires Four(k, 36, 0x650a7354, 0x766a0abb, 0x81c2c92e, 0x92722c85)
    requires Four(w, 32, 0x93f5997f, 0x3b68ba73, 0xaff4ffc1, 0xf10a5c62)
    requires Four(w, 36, 0x0a8b3996, 0x72af830a, 0x9409e33e, 0x24641522)
    ensures After(k, w, 40, Vars(0x79ea687a, 0x6dc57a8a, 0x34df1604, 0x41a65cb1, 0x1efbc0a0, 0xf0781bc8, 0xa507a53d, 0x0772a26b))
  {
    Next(k, w, 32,
      Vars(0x73b33bf5, 0xea992a22, 0xa0060b30, 0x363482c9, 0xba591112, 0x0109ab3a, 0xade79437, 0x6112a3b7),
      Vars(0x98e12507, 0x73b33bf5, 0xea992a22, 0xa0060b30, 0x9cd9f5f6, 0xba591112, 0x0109ab3a, 0xade79437));
    Next(k, w, 33,
      Vars(0x98e12507, 0x73b33bf5, 0xea992a22, 0xa0060b30, 0x9cd9f5f6, 0xba591112, 0x0109ab3a, 0xade79437),
      Vars(0xfe604df5, 0x98e12507, 0x73b33bf5, 0xea992a22, 0x59249dd3, 0x9cd9f5f6, 0xba591112, 0x0109ab3a));
    Next(k, w, 34,
      Vars(0xfe604df5, 0x98e12507, 0x73b33bf5, 0xea992a22, 0x59249dd3, 0x9cd9f5f6, 0xba591112, 0x0109ab3a),
      Vars(0xa9a7738c, 0xfe604df5, 0x98e12507, 0x73b33bf5, 0x085f3833, 0x59249dd3, 0x9cd9f5f6, 0xba591112));
    Next(k, w, 35,
      Vars(0xa9a7738c, 0xfe604df5, 0x98e12507, 0x73b33bf5, 0x085f3833, 0x59249dd3, 0x9cd9f5f6, 0xba591112),
      Vars(0x65a0cfe4, 0xa9a7738c, 0xfe604df5, 0x98e12507, 0xf4b002d6, 0x085f3833, 0x59249dd3, 0x9cd9f5f6));
    Next(k, w, 36,
      Vars(0x65a0cfe4, 0xa9a7738c, 0xfe604df5, 0x98e12507, 0xf4b002d6, 0x085f3833, 0x59249dd3, 0x9cd9f5f6),
      Vars(0x41a65cb1, 0x65a0cfe4, 0xa9a7738c, 0xfe604df5, 0x0772a26b, 0xf4b002d6, 0x085f3833, 0x59249dd3));
    Next(k, w, 37,
      Vars(0x41a65cb1, 0x65a0cfe4, 0xa9a7738c, 0xfe604df5, 0x0772a26b, 0xf4b002d6, 0x085f3833, 0x59249dd3),
      Vars(0x34df1604, 0x41a65cb1, 0x65a0cfe4, 0xa9a7738c, 0xa507a53d, 0x0772a26b, 0xf4b002d6, 0x085f3833));
    Next(k, w, 38,
      Vars(0x34df1604, 0x41a65cb1, 0x65a0cfe4, 0xa9a7738c, 0xa507a53d, 0x0772a26b, 0xf4b002d6, 0x085f3833),
      Vars(0x6dc57a8a, 0x34df1604, 0x41a65cb1, 0x65a0cfe4, 0xf0781bc8, 0xa507a53d, 0x0772a26b, 0xf4b002d6));
    Next(k, w, 39,
      Vars(0x6dc57a8a, 0x34df1604, 0x41a65cb1, 0x65a0cfe4, 0xf0781bc8, 0xa507a53d, 0x0772a26b, 0xf4b002d6),
      Vars(0x79ea687a, 0x6dc57a8a, 0x34df1604, 0x41a65cb1, 0x1efbc0a0, 0xf0781bc8, 0xa507a53d, 0x0772a26b));
  }

  lemma Rounds40(k: seq<bv32>, w: seq<bv32>)
    requires |k| == |w|
    requires After(k, w, 40, Vars(0x79ea687a, 0x6dc57a8a, 0x34df1604, 0x41a65cb1, 0x1efbc0a0, 0xf0781bc8, 0xa507a53d, 0x0772a26b))
    requires Four(k, 40, 0xa2bfe8a1, 0xa81a664b, 0xc24b8b70, 0xc76c51a3)
    requires Four(k, 44, 0xd192e819, 0xd6990624, 0xf40e3585, 0x106aa070)
    requires Four(w, 40, 0x9f47bf94, 0xf0a64f5a, 0x3e246a79, 0x27333ba3)
    requires Four(w, 44, 0x0c4763f2, 0x840abf27, 0x7a290d5d, 0x065c43da)
    ensures After(k, w, 48, Vars(0x4172328d, 0xa14c14b0, 0x72ab4b91, 0x26628815, 0xfecf0bc6, 0xd57b94a9, 0xb7755da1, 0xa80f11f0))
  {
    Next(k, w, 40,
      Vars(0x79ea687a, 0x6dc57a8a, 0x34df1604, 0x41a65cb1, 0x1efbc0a0, 0xf0781bc8, 0xa507a53d, 0x0772a26b),
      Vars(0xd6670766, 0x79ea687a, 0x6dc57a8a, 0x34df1604, 0x26352d63, 0x1efbc0a0, 0xf0781bc8, 0xa507a53d));
    Next(k, w, 41,
      Vars(0xd6670766, 0x79ea687a, 0x6dc57a8a, 0x34df1604, 0x26352d63, 0x1efbc0a0, 0xf0781bc8, 0xa507a53d),
      Vars(0xdf46652f, 0xd6670766, 0x79ea687a, 0x6dc57a8a, 0x838b2711, 0x26352d63, 0x1efbc0a0, 0xf0781bc8));
    Next(k, w, 42,
      Vars(0xdf46652f, 0xd6670766, 0x79ea687a, 0x6dc57a8a, 0x838b2711, 0x26352d63, 0x1efbc0a0, 0xf0781bc8),
      Vars(0x17aa0dfe, 0xdf46652f, 0xd6670766, 0x79ea687a, 0xdecd4715, 0x838b2711, 0x26352d63, 0x1efbc0a0));
    Next(k, w, 43,
      Vars(0x17aa0dfe, 0xdf46652f, 0xd6670766, 0x79ea687a, 0xdecd4715, 0x838b2711, 0x26352d63, 0x1efbc0a0),
      Vars(0x9d4baf93, 0x17aa0dfe, 0xdf46652f, 0xd6670766, 0xfda24c2e, 0xdecd4715, 0x838b2711, 0x26352d63));
    Next(k, w, 44,
      Vars(0x9d4baf93, 0x17aa0dfe, 0xdf46652f, 0xd6670766, 0xfda24c2e, 0xdecd4715, 0x838b2711, 0x26352d63),
      Vars(0x26628815, 0x9d4baf93, 0x17aa0dfe, 0xdf46652f, 0xa80f11f0, 0xfda24c2e, 0xdecd4715, 0x838b2711));
    Next(k, w, 45,
      Vars(0x26628815, 0x9d4baf93, 0x17aa0dfe, 0xdf46652f, 0xa80f11f0, 0xfda24c2e, 0xdecd4715, 0x838b2711),
      Vars(0x72ab4b91, 0x26628815, 0x9d4baf93, 0x17aa0dfe, 0xb7755da1, 0xa80f11f0, 0xfda24c2e, 0xdecd4715));
    Next(k, w, 46,
      Vars(0x72ab4b91, 0x26628815, 0x9d4baf93, 0x17aa0dfe, 0xb7755da1, 0xa80f11f0, 0xfda24c2e, 0xdecd4715),
      Vars(0xa14c14b0, 0x72ab4b91, 0x26628815, 0x9d4baf93, 0xd57b94a9, 0xb7755da1, 0xa80f11f0, 0xfda24c2e));
    Next(k, w, 47,
      Vars(0xa14c14b0, 0x72ab4b91, 0x26628815, 0x9d4baf93, 0xd57b94a9, 0xb7755da1, 0xa80f11f0, 0xfda24c2e),
      Vars(0x4172328d, 0xa14c14b0, 0x72ab4b91, 0x26628815, 0xfecf0bc6, 0xd57b94a9, 0xb7755da1, 0xa80f11f0));
  }

  lemma Rounds48(k: seq<bv32>, w: seq<bv32>)
    requires |k| == |w|
    requires After(k, w, 48, Vars(0x4172328d, 0xa14c14b0, 0x72ab4b91, 0x26628815, 0xfecf0bc6, 0xd57b94a9, 0xb7755da1, 0xa80f11f0))
    requires Four(k, 48, 0x19a4c116, 0x1e376c08, 0x2748774c, 0x34b0bcb5)
    requires Four(k, 52, 0x391c0cb3, 0x4ed8aa4a, 0x5b9cca4f, 0x682e6ff3)
    requires Four(w, 48, 0xfb3e89cb, 0xcc7617db, 0xb9e66c34, 0xa9993667)
    requires Four(w, 52, 0x84badedd, 0xc21462bc, 0x1487472c, 0xb20f7a99)
    ensures After(k, w, 56, Vars(0x38cc9913, 0x3ec45cdb, 0xf5702fdb, 0x101fd28f, 0x54cb266b, 0xe50e1b4f, 0x9f4787c3, 0x529e7d00))
  {
    Next(k, w, 48,
      Vars(0x4172328d, 0xa14c14b0, 0x72ab4b91, 0x26628815, 0xfecf0bc6, 0xd57b94a9, 0xb7755da1, 0xa80f11f0),
      Vars(0x05757ceb, 0x4172328d, 0xa14c14b0, 0x72ab4b91, 0xbd714038, 0xfecf0bc6, 0xd57b94a9, 0xb7755da1));
    Next(k, w, 49,
      Vars(0x05757ceb, 0x4172328d, 0xa14c14b0, 0x72ab4b91, 0xbd714038, 0xfecf0bc6, 0xd57b94a9, 0xb7755da1),
      Vars(0xf11bfaa8, 0x05757ceb, 0x4172328d, 0xa14c14b0, 0x6e5c390c, 0xbd714038, 0xfecf0bc6, 0xd57b94a9));
    Next(k, w, 50,
      Vars(0xf11bfaa8, 0x05757ceb, 0x4172328d, 0xa14c14b0, 0x6e5c390c, 0xbd714038, 0xfecf0bc6, 0xd57b94a9),
      Vars(0x7a0508a1, 0xf11bfaa8, 0x05757ceb, 0x4172328d, 0x52f1ccf7, 0x6e5c390c, 0xbd714038, 0xfecf0bc6));
    Next(k, w, 51,
      Vars(0x7a0508a1, 0xf11bfaa8, 0x05757ceb, 0x4172328d, 0x52f1ccf7, 0x6e5c390c, 0xbd714038, 0xfecf0bc6),
      Vars(0x886e7a22, 0x7a0508a1, 0xf11bfaa8, 0x05757ceb, 0x49231c1e, 0x52f1ccf7, 0x6e5c390c, 0xbd714038));
    Next(k, w, 52,
      Vars(0x886e7a22, 0x7a0508a1, 0xf11bfaa8, 0x05757ceb, 0x49231c1e, 0x52f1ccf7, 0x6e5c390c, 0xbd714038),
      Vars(0x101fd28f, 0x886e7a22, 0x7a0508a1, 0xf11bfaa8, 0x529e7d00, 0x49231c1e, 0x52f1ccf7, 0x6e5c390c));
    Next(k, w, 53,
      Vars(0x101fd28f, 0x886e7a22, 0x7a0508a1, 0xf11bfaa8, 0x529e7d00, 0x49231c1e, 0x52f1ccf7, 0x6e5c390c),
      Vars(0xf5702fdb, 0x101fd28f, 0x886e7a22, 0x7a0508a1, 0x9f4787c3, 0x529e7d00, 0x49231c1e, 0x52f1ccf7));
    Next(k, w, 54,
      Vars(0xf5702fdb, 0x101fd28f, 0x886e7a22, 0x7a0508a1, 0x9f4787c3, 0x529e7d00, 0x49231c1e, 0x52f1ccf7),
      Vars(0x3ec45cdb, 0xf5702fdb, 0x101fd28f, 0x886e7a22, 0xe50e1b4f, 0x9f4787c3, 0x529e7d00, 0x49231c1e));
    Next(k, w, 55,
      Vars(0x3ec45cdb, 0xf5702fdb, 0x101fd28f, 0x886e7a22, 0xe50e1b4f, 0x9f4787c3, 0x529e7d00, 0x49231c1e),
      Vars(0x38cc9913, 0x3ec45cdb, 0xf5702fdb, 0x101fd28f, 0x54cb266b, 0xe50e1b4f, 0x9f4787c3, 0x529e7d00));
  }

  lemma Rounds56(k: seq<bv32>, w: seq<bv32>)
    requires |k| == |w|
    requires After(k, w, 56, Vars(0x38cc9913, 0x3ec45cdb, 0xf5702fdb, 0x101fd28f, 0x54cb266b, 0xe50e1b4f, 0x9f4787c3, 0x529e7d00))
    requires Four(k, 56, 0x748f82ee, 0x78a5636f, 0x84c87814, 0x8cc70208)
    requires Four(k, 60, 0x90befffa, 0xa4506ceb, 0xbef9a3f7, 0xc67178f2)
    requires Four(w, 56, 0xef57b9cd, 0xebe6b238, 0x9fe3095e, 0x78bc8d4b)
    requires Four(w, 60, 0xa43fcf15, 0x668b2ff8, 0xeeaba2cc, 0x12b1edeb)
    ensures After(k, w, 64, Vars(0x506e3058, 0xd39a2165, 0x04d24d6c, 0xb85e2ce9, 0x5ef50f24, 0xfb121210, 0x948d25b6, 0x961f4894))
  {
    Next(k, w, 56,
      Vars(0x38cc9913, 0x3ec45cdb, 0xf5702fdb, 0x101fd28f, 0x54cb266b, 0xe50e1b4f, 0x9f4787c3, 0x529e7d00),
      Vars(0xfcd1887b, 0x38cc9913, 0x3ec45cdb, 0xf5702fdb, 0x9b5e906c, 0x54cb266b, 0xe50e1b4f, 0x9f4787c3));
    Next(k, w, 57,
      Vars(0xfcd1887b, 0x38cc9913, 0x3ec45cdb, 0xf5702fdb, 0x9b5e906c, 0x54cb266b, 0xe50e1b4f, 0x9f4787c3),
      Vars(0xc062d46f, 0xfcd1887b, 0x38cc9913, 0x3ec45cdb, 0x7e44008e, 0x9b5e906c, 0x54cb266b, 0xe50e1b4f));
    Next(k, w, 58,
      Vars(0xc062d46f, 0xfcd1887b, 0x38cc9913, 0x3ec45cdb, 0x7e44008e, 0x9b5e906c, 0x54cb266b, 0xe50e1b4f),
      Vars(0xffb70472, 0xc062d46f, 0xfcd1887b, 0x38cc9913, 0x6d83bfc6, 0x7e44008e, 0x9b5e906c, 0x54cb266b));
    Next(k, w, 59,
      Vars(0xffb70472, 0xc062d46f, 0xfcd1887b, 0x38cc9913, 0x6d83bfc6, 0x7e44008e, 0x9b5e906c, 0x54cb266b),
      Vars(0xb6ae8fff, 0xffb70472, 0xc062d46f, 0xfcd1887b, 0xb21bad3d, 0x6d83bfc6, 0x7e44008e, 0x9b5e906c));
    Next(k, w, 60,
      Vars(0xb6ae8fff, 0xffb70472, 0xc062d46f, 0xfcd1887b, 0xb21bad3d, 0x6d83bfc6, 0x7e44008e, 0x9b5e906c),
      Vars(0xb85e2ce9, 0xb6ae8fff, 0xffb70472, 0xc062d46f, 0x961f4894, 0xb21bad3d, 0x6d83bfc6, 0x7e44008e));
    Next(k, w, 61,
      Vars(0xb85e2ce9, 0xb6ae8fff, 0xffb70472, 0xc062d46f, 0x961f4894, 0xb21bad3d, 0x6d83bfc6, 0x7e44008e),
      Vars(0x04d24d6c, 0xb85e2ce9, 0xb6ae8fff, 0xffb70472, 0x948d25b6, 0x961f4894, 0xb21bad3d, 0x6d83bfc6));
    Next(k, w, 62,
      Vars(0x04d24d6c, 0xb85e2ce9, 0xb6ae8fff, 0xffb70472, 0x948d25b6, 0x961f4894, 0xb21bad3d, 0x6d83bfc6),
      Vars(0xd39a2165, 0x04d24d6c, 0xb85e2ce9, 0xb6ae8fff, 0xfb121210, 0x948d25b6, 0x961f4894, 0xb21bad3d));
    Next(k, w, 63,
      Vars(0xd39a2165, 0x04d24d6c, 0xb85e2ce9, 0xb6ae8fff, 0xfb121210, 0x948d25b6, 0x961f4894, 0xb21bad3d),
      Vars(0x506e3058, 0xd39a2165, 0x04d24d6c, 0xb85e2ce9, 0x5ef50f24, 0xfb121210, 0x948d25b6, 0x961f4894));
  }

  // ---------- The constants ----------

  /** The i-th initial word x is the first 32 bits of the fractional part of the square root of p: n is the root in units of 2^-32. */
  predicate InitialRoot(i: nat, x: bv32, p: int, n: int) {
    && i < |Iv| && Iv[i] == x && n % TWO32 == x as int && n * n <= p * TWO64 < (n + 1) * (n + 1)
  }

  /** The same for the round constants and cube roots. */
  predicate ConstantRoot(i: nat, x: bv32, p: int, n: int) {
    && i < |K| && K[i] == x && n % TWO32 == x as int && n * n * n <= p * (TWO32 * TWO64) < (n + 1) * (n + 1) * (n + 1)
  }

  /** The initial hash value comes from the first eight primes (section 5.3.3 of FIPS 180-4). */
  lemma InitialRoots()
    ensures InitialRoot(0, 0x6a09e667, 2, 0x16a09e667) && InitialRoot(1, 0xbb67ae85, 3, 0x1bb67ae85)
    ensures InitialRoot(2, 0x3c6ef372, 5, 0x23c6ef372) && InitialRoot(3, 0xa54ff53a, 7, 0x2a54ff53a)
    ensures InitialRoot(4, 0x510e527f, 11, 0x3510e527f) && InitialRoot(5, 0x9b05688c, 13, 0x39b05688c)
    ensures InitialRoot(6, 0x1f83d9ab, 17, 0x41f83d9ab) && InitialRoot(7, 0x5be0cd19, 19, 0x45be0cd19)
  {
  }

  // The round constants come from the first sixty-four (section 4.2.2).

  lemma ConstantRoots0()
    ensures ConstantRoot(0, 0x428a2f98, 2, 0x1428a2f98) && ConstantRoot(1, 0x71374491, 3, 0x171374491)
    ensures ConstantRoot(2, 0xb5c0fbcf, 5, 0x1b5c0fbcf) && ConstantRoot(3, 0xe9b5dba5, 7, 0x1e9b5dba5)
    ensures ConstantRoot(4, 0x3956c25b, 11, 0x23956c25b) && ConstantRoot(5, 0x59f111f1, 13, 0x259f111f1)
    ensures ConstantRoot(6, 0x923f82a4, 17, 0x2923f82a4) && ConstantRoot(7, 0xab1c5ed5, 19, 0x2ab1c5ed5)
  {
    Constants0();
  }

  lemma ConstantRoots8()
    ensures ConstantRoot(8, 0xd807aa98, 23, 0x2d807aa98) && ConstantRoot(9, 0x12835b01, 29, 0x312835b01)
    ensures ConstantRoot(10, 0x243185be, 31, 0x3243185be) && ConstantRoot(11, 0x550c7dc3, 37, 0x3550c7dc3)
    ensures ConstantRoot(12, 0x72be5d74, 41, 0x372be5d74) && ConstantRoot(13, 0x80deb1fe, 43, 0x380deb1fe)
    ensures ConstantRoot(14, 0x9bdc06a7, 47, 0x39bdc06a7) && ConstantRoot(15, 0xc19bf174, 53, 0x3c19bf174)
  {
    Constants8();
  }

  lemma ConstantRoots16()
    ensures ConstantRoot(16, 0xe49b69c1, 59, 0x3e49b69c1) && ConstantRoot(17, 0xefbe4786, 61, 0x3efbe4786)
    ensures ConstantRoot(18, 0x0fc19dc6, 67, 0x40fc19dc6) && ConstantRoot(19, 0x240ca1cc, 71, 0x4240ca1cc)
    ensures ConstantRoot(20, 0x2de92c6f, 73, 0x42de92c6f) && ConstantRoot(21, 0x4a7484aa, 79, 0x44a7484aa)
    ensures ConstantRoot(22, 0x5cb0a9dc, 83, 0x45cb0a9dc) && ConstantRoot(23, 0x76f988da, 89, 0x476f988da)
  {
    Constants16();
  }

  lemma ConstantRoots24()
    ensures ConstantRoot(24, 0x983e5152, 97, 0x4983e5152) && ConstantRoot(25, 0xa831c66d, 101, 0x4a831c66d)
    ensures ConstantRoot(26, 0xb00327c8, 103, 0x4b00327c8) && ConstantRoot(27, 0xbf597fc7, 107, 0x4bf597fc7)
    ensures ConstantRoot(28, 0xc6e00bf3, 109, 0x4c6e00bf3) && ConstantRoot(29, 0xd5a79147, 113, 0x4d5a79147)
    ensures ConstantRoot(30, 0x06ca6351, 127, 0x506ca6351) && ConstantRoot(31, 0x14292967, 131, 0x514292967)
  {
    Constants24();
  }

  lemma ConstantRoots32()
    ensures ConstantRoot(32, 0x27b70a85, 137, 0x527b70a85) && ConstantRoot(33, 0x2e1b2138, 139, 0x52e1b2138)
    ensures ConstantRoot(34, 0x4d2c6dfc, 149, 0x54d2c6dfc) && ConstantRoot(35, 0x53380d13, 151, 0x553380d13)
    ensures ConstantRoot(36, 0x650a7354, 157, 0x5650a7354) && ConstantRoot(37, 0x766a0abb, 163, 0x5766a0abb)
    ensures ConstantRoot(38, 0x81c2c92e, 167, 0x581c2c92e) && ConstantRoot(39, 0x92722c85, 173, 0x592722c85)
  {
    Constants32();
  }

  lemma ConstantRoots40()
    ensures ConstantRoot(40, 0xa2bfe8a1, 179, 0x5a2bfe8a1) && ConstantRoot(41, 0xa81a664b, 181, 0x5a81a664b)
    ensures ConstantRoot(42, 0xc24b8b70, 191, 0x5c24b8b70) && ConstantRoot(43, 0xc76c51a3, 193, 0x5c76c51a3)
    ensures ConstantRoot(44, 0xd192e819, 197, 0x5d192e819) && ConstantRoot(45, 0xd6990624, 199, 0x5d6990624)
    ensures ConstantRoot(46, 0xf40e3585, 211, 0x5f40e3585) && ConstantRoot(47, 0x106aa070, 223, 0x6106aa070)
  {
    Constants40();
  }

  lemma ConstantRoots48()
    ensures ConstantRoot(48, 0x19a4c116, 227, 0x619a4c116) && ConstantRoot(49, 0x1e376c08, 229, 0x61e376c08)
    ensures ConstantRoot(50, 0x2748774c, 233, 0x62748774c) && ConstantRoot(51, 0x34b0bcb5, 239, 0x634b0bcb5)
    ensures ConstantRoot(52, 0x391c0cb3, 241, 0x6391c0cb3) && ConstantRoot(53, 0x4ed8aa4a, 251, 0x64ed8aa4a)
    ensures ConstantRoot(54, 0x5b9cca4f, 257, 0x65b9cca4f) && ConstantRoot(55, 0x682e6ff3, 263, 0x6682e6ff3)
  {
    Constants48();
  }

  lemma ConstantRoots56()
    ensures ConstantRoot(56, 0x748f82ee, 269, 0x6748f82ee) && ConstantRoot(57, 0x78a5636f, 271, 0x678a5636f)
    ensures ConstantRoot(58, 0x84c87814, 277, 0x684c87814) && ConstantRoot(59, 0x8cc70208, 281, 0x68cc70208)
    ensures ConstantRoot(60, 0x90befffa, 283, 0x690befffa) && ConstantRoot(61, 0xa4506ceb, 293, 0x6a4506ceb)
    ensures ConstantRoot(62, 0xbef9a3f7, 307, 0x6bef9a3f7) && ConstantRoot(63, 0xc67178f2, 311, 0x6c67178f2)
  {
    Constants56();
  }
}
