/** Streaming SHA-256 over any compression function. */
module Sha256 {
  import opened Bits
  import opened ByteStrings

  type Word = bv32
  type State = s: seq<Word> | |s| == 8 witness [0, 0, 0, 0, 0, 0, 0, 0]
  const Wiped: State := [0, 0, 0, 0, 0, 0, 0, 0]

  type Compression = (State, seq<Byte>) -> State

  /** The initial hash value (section 5.3.3 of FIPS 180-4). */
  const Iv: State := [0x6a09e667, 0xbb67ae85, 0x3c6ef372, 0xa54ff53a, 0x510e527f, 0x9b05688c, 0x1f83d9ab, 0x5be0cd19]

  // ---------- What a digest is ----------

  /** The state after the whole 64-byte blocks of m; what is left over is ignored. */
  function Fold(f: Compression, s: State, m: seq<Byte>): State
    decreases |m|
  {
    if |m| < 64 then s else Fold(f, f(s, m[..64]), m[64..])
  }

  /** The bytes of m after its last whole block. */
  function Tail(m: seq<Byte>): seq<Byte> {
    m[|m| - |m| % 64..]
  }

  function Zeros(k: nat): (z: seq<Byte>)
    ensures |z| == k
  {
    seq(k, _ => 0)
  }

  /** The number of zero bytes between the bit 1 and the length. */
  function PadZeros(n: nat): nat {
    (55 - n) % 64
  }

  /** The padded message (section 5.1.1 of FIPS 180-4), in bytes. */
  function Pad(m: seq<Byte>): seq<Byte> {
    m + [0x80] + Zeros(PadZeros(|m|)) + FixedBytes((8 * |m|) % TWO64, 8)
  }

  /** The strings f(s[0]), f(s[1]) and so on, one after the other. */
  function Joined<W>(f: W -> seq<Byte>, s: seq<W>): seq<Byte> {
    if s == [] then [] else f(s[0]) + Joined(f, s[1..])
  }

  /** A word, most significant byte first. */
  function WordBytes(x: Word): (b: seq<Byte>)
    ensures |b| == 4
  {
    FixedBytes(x as int, 4)
  }

  /** The words of the state, in their order. */
  function Out(s: seq<Word>): (b: seq<Byte>)
    ensures |b| == 4 * |s|
  {
    JoinedSize(WordBytes, s);
    Joined(WordBytes, s)
  }

  function Digest(f: Compression, m: seq<Byte>): (d: seq<Byte>)
    ensures |d| == 32
  {
    Out(Fold(f, Iv, Pad(m)))
  }

  lemma {:induction false} JoinedSize<W(!new)>(f: W -> seq<Byte>, s: seq<W>)
    requires forall x :: |f(x)| == 4
    ensures |Joined(f, s)| == 4 * |s|
  {
    if s != [] {
      JoinedSize(f, s[1..]);
    }
  }

  lemma {:induction false} JoinedAt<W(!new)>(f: W -> seq<Byte>, s: seq<W>, i: nat)
    requires i < |s| && forall x :: |f(x)| == 4
    ensures |Joined(f, s)| == 4 * |s| && Joined(f, s)[4 * i..4 * i + 4] == f(s[i])
  {
    JoinedSize(f, s);
    JoinedSize(f, s[1..]);
    if i == 0 {
      SliceFirst(f(s[0]), Joined(f, s[1..]));
    } else {
      JoinedAt(f, s[1..], i - 1);
      SliceAfter(f(s[0]), Joined(f, s[1..]), i);
    }
  }

  lemma {:induction false} JoinedPush<W>(f: W -> seq<Byte>, s: seq<W>, x: W)
    ensures Joined(f, s + [x]) == Joined(f, s) + f(x)
  {
    if s == [] {
      assert [x][1..] == [];
    } else {
      JoinedPush(f, s[1..], x);
      assert (s + [x])[1..] == s[1..] + [x];
    }
  }

  lemma SliceFirst(first: seq<Byte>, rest: seq<Byte>)
    ensures (first + rest)[0..|first|] == first
  {
  }

  lemma SliceAfter(first: seq<Byte>, rest: seq<Byte>, i: nat)
    requires |first| == 4 && 0 < i && 4 * i <= |rest|
    ensures (first + rest)[4 * i..4 * i + 4] == rest[4 * (i - 1)..4 * (i - 1) + 4]
  {
  }

  lemma WordBytesValue(x: Word)
    ensures BE(WordBytes(x)) == x as int
  {
    assert Pow256(4) == TWO32;
    FixedBytesValue(x as int, 4);
  }

  /** Every word lies in its own four bytes. */
  lemma OutAt(s: seq<Word>, i: nat)
    requires i < |s|
    ensures Out(s)[4 * i..4 * i + 4] == WordBytes(s[i]) && BE(Out(s)[4 * i..4 * i + 4]) == s[i] as int
  {
    JoinedAt(WordBytes, s, i);
    WordBytesValue(s[i]);
  }

  /** p is the message, a bit 1, bits 0, and the length in bits as the last 64 of them. */
  ghost predicate Padded(m: seq<Byte>, p: seq<Byte>) {
    && |p| == |m| + 1 + PadZeros(|m|) + 8 && p[..|m|] == m && p[|m|] == 0x80
    && (forall i :: |m| < i < |p| - 8 ==> p[i] == 0) && BE(p[|p| - 8..]) == (8 * |m|) % TWO64
  }

  lemma PadLayout(m: seq<Byte>)
    ensures Padded(m, Pad(m))
  {
    var n := (8 * |m|) % TWO64;
    assert Pad(m)[|Pad(m)| - 8..] == FixedBytes(n, 8);
    Pow256Step8(0);
    FixedBytesValue(n, 8);
  }

  /** The padding fills the last block, and no shorter run of zeros would. */
  lemma PadFills(m: seq<Byte>, k: nat)
    ensures |Pad(m)| % 64 == 0
    ensures (|m| + 1 + k + 8) % 64 == 0 ==> k >= PadZeros(|m|)
  {
    PadCount(|m|, k);
  }

  lemma PadCount(n: nat, k: nat)
    ensures (n + 1 + PadZeros(n) + 8) % 64 == 0 && PadZeros(n) == (119 - n % 64) % 64
    ensures (n + 1 + k + 8) % 64 == 0 ==> k >= PadZeros(n)
  {
    var q, r := n / 64, n % 64;
    assert PadZeros(n) == if r <= 55 then 55 - r else 119 - r;
  }

  /** Filling up the last block compresses it. */
  lemma {:induction false} FoldFull(f: Compression, s: State, m: seq<Byte>, d: seq<Byte>)
    requires |m| % 64 + |d| == 64
    ensures Fold(f, s, m + d) == f(Fold(f, s, m), Tail(m) + d) && Tail(m + d) == []
    decreases |m|
  {
    if |m| < 64 {
      assert (m + d)[..64] == m + d == Tail(m) + d;
    } else {
      FoldFull(f, f(s, m[..64]), m[64..], d);
      assert (m + d)[..64] == m[..64] && (m + d)[64..] == m[64..] + d;
      assert Tail(m[64..]) == Tail(m);
    }
  }

  /** Bytes that leave the last block open change nothing but the tail. */
  lemma {:induction false} FoldOpen(f: Compression, s: State, m: seq<Byte>, d: seq<Byte>)
    requires |m| % 64 + |d| < 64
    ensures Fold(f, s, m + d) == Fold(f, s, m)
    decreases |m|
  {
    if |m| >= 64 {
      FoldOpen(f, f(s, m[..64]), m[64..], d);
      assert (m + d)[..64] == m[..64] && (m + d)[64..] == m[64..] + d;
    }
  }

  lemma TailOpen(m: seq<Byte>, d: seq<Byte>)
    requires |m| % 64 + |d| < 64
    ensures Tail(m + d) == Tail(m) + d && |m + d| % 64 == |m| % 64 + |d|
  {
    OpenLength(|m|, |d|);
  }

  lemma OpenLength(n: nat, k: nat)
    requires n % 64 + k < 64
    ensures (n + k) % 64 == n % 64 + k
  {
  }

  // ---------- The hash object ----------

  class Sha256Hash {
    const compress: Compression
    var s: State
    const buf: array<Byte>
    var bytes: nat
    /** Everything written so far. */
    ghost var msg: seq<Byte>

    ghost predicate Valid()
      reads this, buf
    {
      bytes == |msg| % TWO64 && Holds(msg)
    }

    constructor (compress: Compression)
      ensures Valid() && fresh(buf) && msg == [] && this.compress == compress
    {
      this.compress := compress;
      s, bytes, msg := Iv, 0, [];
      buf := new Byte[64](_ => 0);
    }

    /** memcpy into the buffer at pos. */
    method Fill(pos: nat, data: seq<Byte>)
      requires buf.Length == 64 && pos + |data| <= 64
      modifies buf
      ensures buf[..pos + |data|] == old(buf[..pos]) + data
    {
      forall i | 0 <= i < |data| {
        buf[pos + i] := data[i];
      }
    }

    /** The state and the buffer are those of the message m. */
    ghost predicate Holds(m: seq<Byte>)
      reads this, buf
    {
      buf.Length == 64 && s == Fold(compress, Iv, m) && buf[..|m| % 64] == Tail(m)
    }

    /** Fills the open block up and compresses it. */
    method Absorb(bufsize: nat, d: seq<Byte>, ghost done: seq<Byte>)
      requires Holds(done) && bufsize == |done| % 64 && bufsize + |d| == 64
      modifies this`s, buf
      ensures Holds(done + d) && |done + d| % 64 == 0
    {
      Fill(bufsize, d);
      FoldFull(compress, Iv, done, d);
      assert buf[..] == Tail(done) + d;
      s := compress(s, buf[..]);
    }

    /** Keeps what does not fill a block. */
    method Store(bufsize: nat, rest: seq<Byte>, ghost done: seq<Byte>)
      requires Holds(done) && bufsize == |done| % 64 && bufsize + |rest| < 64
      modifies buf
      ensures Holds(done + rest)
    {
      FoldOpen(compress, Iv, done, rest);
      TailOpen(done, rest);
      if |rest| > 0 {
        Fill(bufsize, rest);
      }
    }

    method Write(data: seq<Byte>)
      requires Valid() && |data| <= TWO64 - 64
      modifies this, buf
      ensures Valid() && msg == old(msg) + data
    {
      var bufsize := bytes % 64;
      WrapCount(|msg|, |data|);
      bytes := (bytes + |data|) % TWO64;
      TakeAll(bufsize, data, msg);
      msg := msg + data;
    }

    /** The loop of the write: whole blocks are compressed, the rest is kept. */
    method TakeAll(start: nat, data: seq<Byte>, ghost before: seq<Byte>)
      requires Holds(before) && start == |before| % 64 && |data| <= TWO64 - 64
      modifies this`s, buf
      ensures Holds(before + data)
    {
      var bufsize, pos: nat := start, 0;
      ghost var done := before;
      while U64(bufsize + (|data| - pos)) >= 64
        invariant pos <= |data| && done + data[pos..] == before + data
        invariant bufsize == |done| % 64 && Holds(done)
      {
        var take := 64 - bufsize;
        assert data[pos..] == data[pos..pos + take] + data[pos + take..];
        Absorb(bufsize, data[pos..pos + take], done);
        done := done + data[pos..pos + take];
        pos := pos + take;
        bufsize := 0;
      }
      Store(bufsize, data[pos..], done);
    }

    /** Writes the padding: a bit 1, zeros, and the length as it was before. */
    method WritePadding()
      requires Valid()
      modifies this, buf
      ensures Valid() && msg == Pad(old(msg))
    {
      ghost var m := msg;
      var padding, sizedesc := PaddingFor(bytes, |m|);
      Write(padding);
      Write(sizedesc);
      PadParts(m, padding, sizedesc);
    }

    /** The digest of everything written; the state is wiped. */
    method Finalize() returns (out32: seq<Byte>)
      requires Valid()
      modifies this, buf
      ensures out32 == Digest(compress, old(msg))
      ensures s == Wiped && msg == Pad(old(msg)) && bytes % 64 == 0
    {
      FinalCount(msg);
      WritePadding();
      out32 := WriteWords(WordBytes, s);
      s := Wiped;
    }
  }

  /** The output loop. */
  method WriteWords<W>(f: W -> seq<Byte>, s: seq<W>) returns (out: seq<Byte>)
    ensures out == Joined(f, s)
  {
    out := [];
    for i := 0 to |s|
      invariant out == Joined(f, s[..i])
    {
      JoinedPush(f, s[..i], s[i]);
      assert s[..i + 1] == s[..i] + [s[i]];
      out := out + f(s[i]);
    }
    assert s[..|s|] == s;
  }

  method PaddingFor(bytes: nat, ghost n: nat) returns (padding: seq<Byte>, sizedesc: seq<Byte>)
    requires bytes == n % TWO64
    ensures padding == [0x80] + Zeros(PadZeros(n)) && sizedesc == FixedBytes((8 * n) % TWO64, 8)
  {
    sizedesc := SizeBytes(bytes);
    SizeIs(bytes, n);
    PadCount(n, 0);
    WrapCount(n, 0);
    var zeros := (119 - bytes % 64) % 64;
    PaddingIs(zeros);
    padding := ([0x80] + Zeros(63))[..1 + zeros];
  }

  lemma PadParts(m: seq<Byte>, padding: seq<Byte>, sizedesc: seq<Byte>)
    requires padding == [0x80] + Zeros(PadZeros(|m|)) && sizedesc == FixedBytes((8 * |m|) % TWO64, 8)
    ensures (m + padding) + sizedesc == Pad(m)
  {
  }

  lemma FinalCount(m: seq<Byte>)
    ensures (|Pad(m)| % TWO64) % 64 == 0
  {
    PadFills(m, 0);
    WrapCount(|Pad(m)|, 0);
  }

  lemma PaddingIs(k: nat)
    requires k <= 63
    ensures ([0x80] + Zeros(63))[..1 + k] == [0x80] + Zeros(k)
  {
  }

  /** The wrapped count still tells the place in the block. */
  lemma WrapCount(n: nat, d: nat)
    ensures (n % TWO64) % 64 == n % 64
    ensures (n % TWO64 + d) % TWO64 == (n + d) % TWO64
  {
    var q, r := n / TWO64, n % TWO64;
    PlaceIs(n, q * 0x400000000000000 + r / 64, r % 64);
    WrappedIs(n + d, q + (r + d) / TWO64, (r + d) % TWO64);
  }

  lemma PlaceIs(x: nat, q: nat, r: nat)
    requires x == 64 * q + r && r < 64
    ensures x % 64 == r
  {
  }

  lemma WrappedIs(x: nat, q: nat, r: nat)
    requires x == TWO64 * q + r && r < TWO64
    ensures x % TWO64 == r
  {
  }

  /** The length in bits, as two 32-bit words. */
  function SizeBytes(bytes: nat): seq<Byte> {
    FixedBytes((bytes / 0x20000000) % 0x1_00000000, 4) + FixedBytes((bytes * 8) % 0x1_00000000, 4)
  }

  lemma SizeIs(bytes: nat, n: nat)
    requires bytes == n % TWO64
    ensures SizeBytes(bytes) == FixedBytes((8 * n) % TWO64, 8)
  {
    var hi, lo := (bytes / 0x20000000) % 0x1_00000000, (bytes * 8) % 0x1_00000000;
    SizeWords(bytes, n);
    assert Pow256(4) == 0x1_00000000;
    FixedBytesConcat(hi, lo, 4, 4);
  }

  lemma SizeWords(bytes: nat, n: nat)
    requires bytes == n % TWO64
    ensures (8 * n) % TWO64 == ((bytes / 0x20000000) % 0x1_00000000) * 0x1_00000000 + (bytes * 8) % 0x1_00000000
  {
    WrappedTimes8(n, n / TWO64, bytes);
    var q, r := bytes / 0x20000000, bytes % 0x20000000;
    LowWord(q, r, bytes);
    HighWord(q, r, bytes);
  }

  lemma WrappedTimes8(n: nat, q: nat, bytes: nat)
    requires n == q * TWO64 + bytes
    ensures (8 * n) % TWO64 == (8 * bytes) % TWO64
  {
  }

  lemma LowWord(q: nat, r: nat, bytes: nat)
    requires bytes == q * 0x20000000 + r && r < 0x20000000
    ensures (bytes * 8) % 0x1_00000000 == 8 * r
  {
  }

  lemma HighWord(q: nat, r: nat, bytes: nat)
    requires bytes == q * 0x20000000 + r && r < 0x20000000
    ensures (8 * bytes) % TWO64 == (q % 0x1_00000000) * 0x1_00000000 + 8 * r
  {
    var a, b := q / 0x1_00000000, q % 0x1_00000000;
    assert 8 * bytes == a * TWO64 + (b * 0x1_00000000 + 8 * r);
  }

  function Flatten(pieces: seq<seq<Byte>>): seq<Byte> {
    if pieces == [] then [] else Flatten(pieces[..|pieces| - 1]) + pieces[|pieces| - 1]
  }

  /** The pieces of two lists, one after the other. */
  lemma {:induction false} FlattenConcat(p: seq<seq<Byte>>, q: seq<seq<Byte>>)
    ensures Flatten(p + q) == Flatten(p) + Flatten(q) && (|p| == 1 ==> Flatten(p) == p[0])
    decreases |q|
  {
    if q == [] {
      assert p + q == p;
    } else {
      var k := |q| - 1;
      FlattenConcat(p, q[..k]);
      assert (p + q)[..|p| + k] == p + q[..k];
    }
  }

  /** However a message is cut into writes, the digest is that of the whole message. */
  method HashPieces(compress: Compression, pieces: seq<seq<Byte>>) returns (out32: seq<Byte>)
    requires forall p | p in pieces :: |p| <= TWO64 - 64
    ensures out32 == Digest(compress, Flatten(pieces))
  {
    var hash := new Sha256Hash(compress);
    for i := 0 to |pieces|
      invariant fresh(hash) && fresh(hash.buf) && hash.Valid() && hash.msg == Flatten(pieces[..i])
    {
      hash.Write(pieces[i]);
      assert pieces[..i + 1][..i] == pieces[..i];
    }
    assert pieces[..|pieces|] == pieces;
    out32 := hash.Finalize();
  }
}
