/** Big-endian byte strings as numbers. */
module ByteStrings {
  import opened Bits

  type Byte = b: int | 0 <= b < 256

  function Pow256(k: nat): (r: nat)
    ensures r > 0
  {
    if k == 0 then 1 else 256 * Pow256(k - 1)
  }

  /** The number that the bytes spell, most significant first. */
  function BE(b: seq<Byte>): nat {
    if b == [] then 0 else BE(b[..|b| - 1]) * 256 + b[|b| - 1]
  }

  lemma BEPush(b: seq<Byte>, c: Byte)
    ensures BE(b + [c]) == BE(b) * 256 + c
  {
    assert (b + [c])[..|b|] == b;
  }

  lemma {:induction false} BEBound(b: seq<Byte>)
    ensures BE(b) < Pow256(|b|)
  {
    if b != [] {
      BEBound(b[..|b| - 1]);
    }
  }

  /** A nonzero top byte makes the number large. */
  lemma {:induction false} BETop(b: seq<Byte>)
    requires b != [] && b[0] != 0
    ensures BE(b) >= Pow256(|b| - 1)
  {
    if |b| > 1 {
      BETop(b[..|b| - 1]);
    } else {
      assert b[..0] == [];
    }
  }

  lemma {:induction false} BEDropZero(b: seq<Byte>)
    requires b != [] && b[0] == 0
    ensures BE(b) == BE(b[1..])
  {
    if |b| > 1 {
      var c := b[..|b| - 1];
      BEDropZero(c);
      assert c[1..] == b[1..][..|b| - 2];
    } else {
      assert b[..0] == [];
    }
  }

  lemma {:induction false} BEPrefix(b: seq<Byte>, k: nat)
    requires k <= |b|
    ensures BE(b[..k]) <= BE(b)
    decreases |b|
  {
    if k == |b| {
      assert b[..k] == b;
    } else {
      var c := b[..|b| - 1];
      BEPrefix(c, k);
      assert c[..k] == b[..k];
    }
  }

  lemma {:induction false} Pow256Monotone(j: nat, k: nat)
    requires j <= k
    ensures Pow256(j) <= Pow256(k)
    decreases k
  {
    if j < k {
      Pow256Monotone(j, k - 1);
    }
  }

  lemma Pow256Step8(k: nat)
    ensures Pow256(k + 8) == Pow256(k) * 0x1_0000000000000000
  {
    assert Pow256(k + 8) == 256 * Pow256(k + 7);
    assert Pow256(k + 7) == 256 * Pow256(k + 6);
    assert Pow256(k + 6) == 256 * Pow256(k + 5);
    assert Pow256(k + 5) == 256 * Pow256(k + 4);
    assert Pow256(k + 4) == 256 * Pow256(k + 3);
    assert Pow256(k + 3) == 256 * Pow256(k + 2);
    assert Pow256(k + 2) == 256 * Pow256(k + 1);
  }

  lemma Pow256Of32(k: nat)
    requires 31 < k < 33
    ensures Pow256(k) == TWO256
  {
    Pow256Step8(k - 8);
    Pow256Step8(k - 16);
    Pow256Step8(k - 24);
    Pow256Step8(k - 32);
  }

  /** One; given as a function of v so that the bytes of a literal width are not unrolled. */
  function One(v: nat): nat {
    1
  }

  /** v in exactly k bytes. */
  function FixedBytes(v: nat, k: nat): (b: seq<Byte>)
    ensures |b| == k
    decreases k
  {
    if k == 0 then [] else FixedBytes(v / 256, k - One(v)) + [v % 256]
  }

  lemma {:induction false} FixedBytesValue(v: nat, k: nat)
    requires v < Pow256(k)
    ensures BE(FixedBytes(v, k)) == v
  {
    if k > 0 {
      FixedBytesValue(v / 256, k - 1);
      BEPush(FixedBytes(v / 256, k - 1), v % 256);
    }
  }

  /** The other way round. */
  lemma {:induction false} FixedBytesOf(b: seq<Byte>)
    ensures FixedBytes(BE(b), |b|) == b
  {
    if b != [] {
      FixedBytesOf(b[..|b| - 1]);
      assert b == b[..|b| - 1] + [b[|b| - 1]];
    }
  }

  lemma {:induction false} FixedBytesConcat(hi: nat, lo: nat, j: nat, k: nat)
    requires lo < Pow256(k)
    ensures FixedBytes(hi * Pow256(k) + lo, j + k) == FixedBytes(hi, j) + FixedBytes(lo, k)
  {
    if k > 0 {
      var v := hi * Pow256(k) + lo;
      LowByte(hi, Pow256(k - 1), lo);
      FixedBytesConcat(hi, lo / 256, j, k - 1);
    }
  }

  lemma LowByte(hi: nat, p: nat, lo: nat)
    ensures (hi * (256 * p) + lo) / 256 == hi * p + lo / 256 && (hi * (256 * p) + lo) % 256 == lo % 256
  {
    var q := hi * p;
    assert hi * (256 * p) == 256 * q;
  }
}
