/** HMAC-SHA256 (RFC 2104) over the streaming hash. */
module Hmac {
  import opened Bits
  import opened ByteStrings
  import opened Sha256

  // ---------- Definitions ----------

  function XorByte(x: Byte, y: Byte): (z: Byte) {
    ByteXor(x, y);
    Xor(x, y)
  }

  lemma ByteXor(x: Byte, y: Byte)
    ensures Xor(x, y) < 256
  {
    assert Pow2(8) == 256;
    XorIsAllOnes(x, y, 8);
  }

  function XorAll(b: seq<Byte>, y: Byte): (r: seq<Byte>)
    ensures |r| == |b|
  {
    seq(|b|, i requires 0 <= i < |b| => XorByte(b[i], y))
  }

  /** The key as one block: padded with zeros, after hashing it if it is longer than a block. */
  function BlockKey(f: Compression, key: seq<Byte>): (r: seq<Byte>)
    ensures |r| == 64
  {
    if |key| <= 64 then key + Zeros(64 - |key|) else Digest(f, key) + Zeros(32)
  }

  /** H(K xor opad, H(K xor ipad, text)), section 2 of RFC 2104. */
  function HmacOf(f: Compression, key: seq<Byte>, text: seq<Byte>): (r: seq<Byte>)
    ensures |r| == 32
  {
    var k := BlockKey(f, key);
    Digest(f, XorAll(k, 0x5c) + Digest(f, XorAll(k, 0x36) + text))
  }

  /** The definition written out: k is the key or its digest followed by zeros, i and o its bytes masked. */
  lemma HmacSteps(f: Compression, key: seq<Byte>, text: seq<Byte>, k: seq<Byte>, i: seq<Byte>, o: seq<Byte>)
    requires |k| == |i| == |o| == 64
    requires |key| <= 64 ==> k[..|key|] == key && forall j :: |key| <= j < 64 ==> k[j] == 0
    requires |key| > 64 ==> k[..32] == Digest(f, key) && forall j :: 32 <= j < 64 ==> k[j] == 0
    requires forall j :: 0 <= j < 64 ==> i[j] == Xor(k[j], 0x36) && o[j] == Xor(k[j], 0x5c)
    ensures HmacOf(f, key, text) == Digest(f, o + Digest(f, i + text))
  {
    BlockKeyIs(f, key, k);
    MaskIs(k, 0x36, i);
    MaskIs(k, 0x5c, o);
  }

  lemma MaskIs(k: seq<Byte>, y: Byte, r: seq<Byte>)
    requires |r| == |k| && forall j :: 0 <= j < |k| ==> r[j] == Xor(k[j], y)
    ensures r == XorAll(k, y)
  {
  }

  lemma BlockKeyIs(f: Compression, key: seq<Byte>, k: seq<Byte>)
    requires |k| == 64
    requires |key| <= 64 ==> k[..|key|] == key && forall j :: |key| <= j < 64 ==> k[j] == 0
    requires |key| > 64 ==> k[..32] == Digest(f, key) && forall j :: 32 <= j < 64 ==> k[j] == 0
    ensures k == BlockKey(f, key)
  {
    var first := if |key| <= 64 then key else Digest(f, key);
    ZerosAfter(first, k);
  }

  lemma ZerosAfter(first: seq<Byte>, k: seq<Byte>)
    requires |first| <= |k| == 64 && k[..|first|] == first && forall j :: |first| <= j < 64 ==> k[j] == 0
    ensures k == first + Zeros(64 - |first|)
  {
    assert k == k[..|first|] + k[|first|..];
  }

  /** The second mask undoes the first. */
  lemma XorTwice(b: seq<Byte>, o: Byte, i: Byte)
    ensures XorAll(XorAll(b, o), XorByte(o, i)) == XorAll(b, i)
  {
    XorSelf(o);
    XorSelf(i);
    XorAssoc(o, o, i);
    forall j | 0 <= j < |b|
      ensures XorAll(XorAll(b, o), XorByte(o, i))[j] == XorAll(b, i)[j]
    {
      XorAssoc(b[j], o, XorByte(o, i));
    }
  }

  // ---------- The object ----------

  class HmacSha256 {
    const compress: Compression
    const inner: Sha256Hash
    const outer: Sha256Hash
    ghost const key: seq<Byte>
    ghost const innerStart: seq<Byte>
    ghost const outerStart: seq<Byte>
    ghost var text: seq<Byte>

    ghost predicate Valid()
      reads this, inner, outer, inner.buf, outer.buf
    {
      && inner != outer && inner.buf != outer.buf
      && inner.Valid() && outer.Valid() && inner.compress == outer.compress == compress
      && outer.msg == outerStart && inner.msg == innerStart + text
    }

    /** Both hashes were started with the masked key. */
    ghost predicate Keyed() {
      outerStart == XorAll(BlockKey(compress, key), 0x5c) && innerStart == XorAll(BlockKey(compress, key), 0x36)
    }

    constructor (compress: Compression, key: seq<Byte>)
      requires |key| <= TWO64 - 64
      ensures Valid() && Keyed() && fresh(inner) && fresh(outer) && fresh(inner.buf) && fresh(outer.buf)
      ensures this.compress == compress && this.key == key && text == []
    {
      var outerKey, innerKey := MaskedKeys(compress, key);
      var o := Start(compress, outerKey);
      var i := Start(compress, innerKey);
      this.compress, inner, outer := compress, i, o;
      this.key, innerStart, outerStart, text := key, i.msg, o.msg, [];
      assert innerKey + [] == innerKey;
    }

    method Write(data: seq<Byte>)
      requires Valid() && |data| <= TWO64 - 64
      modifies this, inner, inner.buf
      ensures Valid() && text == old(text) + data
    {
      inner.Write(data);
      text := text + data;
    }

    method Finalize() returns (out32: seq<Byte>)
      requires Valid() && Keyed()
      modifies this, inner, outer, inner.buf, outer.buf
      ensures out32 == HmacOf(compress, key, old(text))
    {
      var temp := inner.Finalize();
      outer.Write(temp);
      out32 := outer.Finalize();
    }
  }

  /** The key masked for the outer and, by a second mask, for the inner hash. */
  method MaskedKeys(compress: Compression, key: seq<Byte>) returns (outerKey: seq<Byte>, innerKey: seq<Byte>)
    requires |key| <= TWO64 - 64
    ensures |outerKey| == |innerKey| == 64
    ensures outerKey == XorAll(BlockKey(compress, key), 0x5c) && innerKey == XorAll(BlockKey(compress, key), 0x36)
  {
    var rkey := KeyBlock(compress, key);
    outerKey := XorAll(rkey, 0x5c);
    XorTwice(rkey, 0x5c, 0x36);
    innerKey := XorAll(outerKey, XorByte(0x5c, 0x36));
  }

  /** A new hash with its first block written. */
  method Start(compress: Compression, first: seq<Byte>) returns (hash: Sha256Hash)
    requires |first| == 64
    ensures hash.Valid() && fresh(hash) && fresh(hash.buf) && hash.msg == first && hash.compress == compress
  {
    hash := new Sha256Hash(compress);
    hash.Write(first);
    assert [] + first == first;
  }

  method KeyBlock(compress: Compression, key: seq<Byte>) returns (rkey: seq<Byte>)
    requires |key| <= TWO64 - 64
    ensures rkey == BlockKey(compress, key)
  {
    if |key| <= 64 {
      rkey := key + Zeros(64 - |key|);
    } else {
      var sha := new Sha256Hash(compress);
      sha.Write(key);
      assert [] + key == key;
      var d := sha.Finalize();
      rkey := d + Zeros(32);
    }
  }

  /** Writes the pieces one after the other. */
  method WritePieces(hmac: HmacSha256, pieces: seq<seq<Byte>>)
    requires hmac.Valid() && hmac.text == [] && forall p | p in pieces :: |p| <= TWO64 - 64
    modifies hmac, hmac.inner, hmac.inner.buf
    ensures hmac.Valid() && hmac.text == Flatten(pieces)
  {
    for i := 0 to |pieces|
      invariant hmac.Valid() && hmac.text == Flatten(pieces[..i])
    {
      hmac.Write(pieces[i]);
      assert pieces[..i + 1][..i] == pieces[..i];
    }
    assert pieces[..|pieces|] == pieces;
  }

  /** One HMAC over text given in pieces. */
  method HmacPieces(compress: Compression, key: seq<Byte>, pieces: seq<seq<Byte>>) returns (out32: seq<Byte>)
    requires |key| <= TWO64 - 64 && forall p | p in pieces :: |p| <= TWO64 - 64
    ensures out32 == HmacOf(compress, key, Flatten(pieces))
  {
    var hmac := new HmacSha256(compress, key);
    WritePieces(hmac, pieces);
    out32 := hmac.Finalize();
  }
}
