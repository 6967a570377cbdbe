/** The deterministic nonce generator (section 3.2 of RFC 6979, with 32-byte hashes). */
module Rfc6979 {
  import opened Bits
  import opened ByteStrings
  import opened Sha256
  import opened Hmac

  type Mac = (seq<Byte>, seq<Byte>) -> seq<Byte>

  /** Names the arguments at which a MAC is to be computed; always true. */
  predicate MacAt(k: seq<Byte>, text: seq<Byte>) {
    true
  }

  /** mac is HMAC over the compression function f. */
  ghost predicate IsHmac(mac: Mac, f: Compression) {
    forall k, text {:trigger MacAt(k, text)} :: mac(k, text) == HmacOf(f, k, text)
  }

  datatype Drbg = Drbg(k: seq<Byte>, v: seq<Byte>)

  // ---------- The generator as the standard states it ----------

  /** K := HMAC_K(V || data); V := HMAC_K(V) */
  function Update(mac: Mac, d: Drbg, data: seq<Byte>): Drbg {
    var k := mac(d.k, d.v + data);
    Drbg(k, mac(k, d.v))
  }

  /** Steps b to g. */
  function Seeded(mac: Mac, seed: seq<Byte>): Drbg {
    var start := Drbg(Zeros(32), seq(32, _ => 1));
    Update(mac, Update(mac, start, [0] + seed), [1] + seed)
  }

  /** V after n more steps V := HMAC_K(V). */
  function Chain(mac: Mac, d: Drbg, n: nat): seq<Byte> {
    if n == 0 then d.v else mac(d.k, Chain(mac, d, n - 1))
  }

  /** The first n values of V, one after the other. */
  function Stream(mac: Mac, d: Drbg, n: nat): seq<Byte> {
    if n == 0 then [] else Stream(mac, d, n - 1) + Chain(mac, d, n)
  }

  /** The state in which the j-th 32-byte candidate is drawn (step h). */
  function AtCandidate(mac: Mac, seed: seq<Byte>, j: nat): Drbg {
    if j == 0 then Seeded(mac, seed)
    else
      var d := AtCandidate(mac, seed, j - 1);
      Update(mac, Drbg(d.k, Chain(mac, d, 1)), [0])
  }

  function Candidate(mac: Mac, seed: seq<Byte>, j: nat): seq<Byte> {
    Chain(mac, AtCandidate(mac, seed, j), 1)
  }

  /** Steps b to g written out: K and V start as 32 bytes 0x00 and 32 bytes 0x01. */
  lemma SeedingSteps(mac: Mac, seed: seq<Byte>, k0: seq<Byte>, v0: seq<Byte>, k1: seq<Byte>, v1: seq<Byte>, k2: seq<Byte>, v2: seq<Byte>)
    requires |k0| == |v0| == 32 && forall i :: 0 <= i < 32 ==> k0[i] == 0x00 && v0[i] == 0x01
    requires k1 == mac(k0, v0 + [0x00] + seed) && v1 == mac(k1, v0)
    requires k2 == mac(k1, v1 + [0x01] + seed) && v2 == mac(k2, v1)
    ensures Seeded(mac, seed) == Drbg(k2, v2)
  {
    assert k0 == Zeros(32) && v0 == seq(32, _ => 1);
    assert v0 + [0x00] + seed == v0 + ([0] + seed) && v1 + [0x01] + seed == v1 + ([1] + seed);
  }

  /** Step h written out: a candidate is the next V, and one that is rejected, t, changes K and V by a byte 0x00. */
  lemma CandidateSteps(mac: Mac, seed: seq<Byte>, j: nat, k: seq<Byte>, v: seq<Byte>, t: seq<Byte>, k': seq<Byte>, v': seq<Byte>)
    requires AtCandidate(mac, seed, j) == Drbg(k, v)
    requires t == mac(k, v) && k' == mac(k, t + [0x00]) && v' == mac(k', t)
    ensures Candidate(mac, seed, j) == t && AtCandidate(mac, seed, j + 1) == Drbg(k', v')
    ensures AtCandidate(mac, seed, 0) == Seeded(mac, seed)
  {
    ChainOne(mac, Drbg(k, v));
  }

  lemma ChainOne(mac: Mac, d: Drbg)
    ensures Chain(mac, d, 1) == mac(d.k, d.v)
  {
    assert Chain(mac, d, 0) == d.v;
  }

  /** The output is V after one step, after two, and so on, 32 bytes each. */
  lemma {:induction false} StreamAt(mac: Mac, f: Compression, d: Drbg, n: nat, i: nat)
    requires IsHmac(mac, f) && i < n
    ensures |Stream(mac, d, n)| == 32 * n && Stream(mac, d, n)[32 * i..32 * i + 32] == Chain(mac, d, i + 1)
    ensures Chain(mac, d, i + 1) == mac(d.k, Chain(mac, d, i)) && Chain(mac, d, 0) == d.v
    decreases n
  {
    StreamSize(mac, f, d, n);
    StreamSize(mac, f, d, n - 1);
    var s, last := Stream(mac, d, n - 1), Chain(mac, d, n);
    if i < n - 1 {
      StreamAt(mac, f, d, n - 1, i);
      SliceBefore(s, last, 32 * i, 32 * i + 32);
    } else {
      SliceOfLast(s, last);
    }
  }

  lemma {:induction false} StreamSize(mac: Mac, f: Compression, d: Drbg, n: nat)
    requires IsHmac(mac, f)
    ensures |Stream(mac, d, n)| == 32 * n
  {
    if n > 0 {
      StreamSize(mac, f, d, n - 1);
      MacSize(mac, f, d.k, Chain(mac, d, n - 1));
    }
  }

  lemma MacSize(mac: Mac, f: Compression, k: seq<Byte>, text: seq<Byte>)
    requires IsHmac(mac, f)
    ensures |mac(k, text)| == 32
  {
    assert MacAt(k, text);
  }

  lemma SliceBefore(s: seq<Byte>, last: seq<Byte>, a: nat, b: nat)
    requires a <= b <= |s|
    ensures (s + last)[a..b] == s[a..b]
  {
  }

  lemma SliceOfLast(s: seq<Byte>, last: seq<Byte>)
    ensures (s + last)[|s|..|s| + |last|] == last
  {
  }

  // ---------- The generator as the library runs it ----------

  /** One HMAC, its text written in three pieces. */
  method MacOfThree(compress: Compression, ghost mac: Mac, k: seq<Byte>, v: seq<Byte>, mark: seq<Byte>, key: seq<Byte>) returns (r: seq<Byte>)
    requires IsHmac(mac, compress) && |k| == 32 && |v| == 32 && |mark| == 1 && |key| <= TWO64 - 64
    ensures r == mac(k, v + (mark + key)) && |r| == 32
  {
    assert MacAt(k, v + (mark + key));
    var pieces := [v, mark, key];
    PiecesAre(v, mark, key);
    assert forall p | p in pieces :: |p| <= TWO64 - 64;
    r := HmacPieces(compress, k, pieces);
  }

  method MacOfOne(compress: Compression, ghost mac: Mac, k: seq<Byte>, v: seq<Byte>) returns (r: seq<Byte>)
    requires IsHmac(mac, compress) && |k| == 32 && |v| == 32
    ensures r == mac(k, v) && |r| == 32
  {
    assert MacAt(k, v);
    OnePiece(v);
    r := HmacPieces(compress, k, [v]);
  }

  class Generator {
    const compress: Compression
    ghost const mac: Mac
    var k: seq<Byte>
    var v: seq<Byte>
    var retry: bool

    ghost predicate Valid()
      reads this
    {
      |k| == 32 && |v| == 32 && IsHmac(mac, compress)
    }

    function State(): Drbg
      reads this
    {
      Drbg(k, v)
    }

    constructor (compress: Compression, key: seq<Byte>, ghost mac: Mac)
      requires |key| <= TWO64 - 64 && IsHmac(mac, compress)
      ensures Valid() && this.compress == compress && this.mac == mac && State() == Seeded(mac, key) && !retry
    {
      this.compress, this.mac := compress, mac;
      k, v, retry := Zeros(32), seq(32, _ => 1), false;
      new;
      Stir([0], key);
      Stir([1], key);
    }

    /** The update, with the data in two writes. */
    method Stir(mark: seq<Byte>, key: seq<Byte>)
      requires Valid() && |mark| == 1 && |key| <= TWO64 - 64
      modifies this`k, this`v
      ensures Valid() && State() == Update(mac, old(State()), mark + key)
    {
      k := MacOfThree(compress, mac, k, v, mark, key);
      Step();
    }

    /** V := HMAC_K(V) */
    method Step()
      requires Valid()
      modifies this`v
      ensures Valid() && v == mac(k, old(v))
    {
      v := MacOfOne(compress, mac, k, v);
    }

    method Generate(outlen: nat) returns (out: seq<Byte>)
      requires Valid() && outlen < TWO31
      modifies this
      ensures Valid() && retry && |out| == outlen
      ensures var d := if old(retry) then Update(mac, old(State()), [0]) else old(State());
        var blocks := (outlen + 31) / 32;
        outlen <= |Stream(mac, d, blocks)| && out == Stream(mac, d, blocks)[..outlen] && State() == Drbg(d.k, Chain(mac, d, blocks))
    {
      if retry {
        Stir([0], []);
        assert [0] + [] == [0];
      }
      out := Emit(outlen);
      retry := true;
    }

    /** The output loop. */
    method Emit(outlen: nat) returns (out: seq<Byte>)
      requires Valid() && outlen < TWO31
      modifies this`v
      ensures Valid() && |out| == outlen && v == Chain(mac, old(State()), (outlen + 31) / 32)
      ensures outlen <= |Stream(mac, old(State()), (outlen + 31) / 32)|
      ensures out == Stream(mac, old(State()), (outlen + 31) / 32)[..outlen]
    {
      ghost var d, n := State(), 0;
      out := [];
      var left := outlen;
      while left > 0
        invariant Valid() && k == d.k && v == Chain(mac, d, n)
        invariant 0 <= left && (left > 0 ==> outlen - left == 32 * n)
        invariant 0 <= n && 32 * n - 32 < outlen - left <= 32 * n
        invariant |Stream(mac, d, n)| == 32 * n
        invariant |out| == outlen - left && out == Stream(mac, d, n)[..outlen - left]
      {
        Step();
        var now := Now(left);
        NowOf(left);
        Extend(mac, d, n, now);
        n := n + 1;
        out := out + v[..now];
        left := left - now;
      }
      BlockCount(outlen, n);
    }
  }

  /** How many bytes a round of the output loop copies: the length cut to an int, and no more than 32. */
  function Now(left: nat): int {
    var now := ToInt(left);
    if now > 32 then 32 else now
  }

  lemma NowOf(left: nat)
    ensures Now(left) <= left && (left < TWO31 ==> Now(left) == if left > 32 then 32 else left)
  {
    ToIntBound(left);
  }

  /** The output loop copies a positive number of bytes in every round until none are left. */
  predicate Completes(left: nat)
    decreases left
  {
    NowOf(left);
    left == 0 || (Now(left) > 0 && Completes(left - Now(left)))
  }

  /** It does exactly for lengths that fit an int: a larger one comes to a round that copies none or a negative number. */
  lemma {:induction false} CompletesIff(left: nat)
    ensures Completes(left) <==> left < TWO31
    decreases left
  {
    NowOf(left);
    if left > 0 && Now(left) > 0 {
      CompletesIff(left - Now(left));
      if left >= TWO31 {
        StillLarge(left);
      }
    }
  }

  lemma StillLarge(left: nat)
    requires left >= TWO31 && Now(left) > 0
    ensures left - Now(left) >= TWO31
  {
  }

  lemma BlockCount(len: nat, n: nat)
    requires 32 * n - 32 < len <= 32 * n
    ensures (len + 31) / 32 == n
  {
  }

  lemma Extend(mac: Mac, d: Drbg, n: nat, now: nat)
    requires now <= |Chain(mac, d, n + 1)|
    ensures Stream(mac, d, n + 1)[..|Stream(mac, d, n)| + now] == Stream(mac, d, n) + Chain(mac, d, n + 1)[..now]
    ensures |Stream(mac, d, n + 1)| == |Stream(mac, d, n)| + |Chain(mac, d, n + 1)|
  {
  }

  lemma PiecesAre(a: seq<Byte>, b: seq<Byte>, c: seq<Byte>)
    ensures Flatten([a, b, c]) == a + (b + c)
  {
    assert [a, b, c][..2] == [a, b] && [a, b][..1] == [a];
    OnePiece(a);
  }

  lemma OnePiece(a: seq<Byte>)
    ensures Flatten([a]) == a
  {
    assert [a][..0] == [];
  }

  /** The input of the generator: key, message, and what is given of the extra data and the algorithm name. */
  function SeedOf(key32: seq<Byte>, msg32: seq<Byte>, data: seq<Byte>, algo: seq<Byte>): seq<Byte> {
    key32 + msg32 + data + algo
  }

  /** Where each argument lies. */
  lemma SeedLayout(key32: seq<Byte>, msg32: seq<Byte>, data: seq<Byte>, algo: seq<Byte>, s: seq<Byte>)
    requires Arguments(key32, msg32, data, algo) && s == SeedOf(key32, msg32, data, algo)
    ensures |s| == 64 + |data| + |algo| && s[..32] == key32 && s[32..64] == msg32
    ensures s[64..64 + |data|] == data && s[64 + |data|..] == algo
  {
  }

  /** A missing argument is an empty one. */
  predicate Arguments(key32: seq<Byte>, msg32: seq<Byte>, data: seq<Byte>, algo: seq<Byte>) {
    |key32| == 32 && |msg32| == 32 && |data| in {0, 32} && |algo| in {0, 16}
  }

  /** Different arguments never give the same input. */
  lemma SeedsDiffer(k1: seq<Byte>, m1: seq<Byte>, d1: seq<Byte>, a1: seq<Byte>, k2: seq<Byte>, m2: seq<Byte>, d2: seq<Byte>, a2: seq<Byte>)
    requires Arguments(k1, m1, d1, a1) && Arguments(k2, m2, d2, a2)
    requires SeedOf(k1, m1, d1, a1) == SeedOf(k2, m2, d2, a2)
    ensures k1 == k2 && m1 == m2 && d1 == d2 && a1 == a2
  {
    SeedLayout(k1, m1, d1, a1, SeedOf(k1, m1, d1, a1));
    SeedLayout(k2, m2, d2, a2, SeedOf(k2, m2, d2, a2));
  }

  /** The candidate that the standard draws after counter rejected ones. */
  method NonceFunction(compress: Compression, ghost mac: Mac, msg32: seq<Byte>, key32: seq<Byte>, algo: seq<Byte>, data: seq<Byte>, counter: nat)
    returns (nonce32: seq<Byte>)
    requires IsHmac(mac, compress) && Arguments(key32, msg32, data, algo) && counter < 0xFFFFFFFF
    ensures nonce32 == Candidate(mac, SeedOf(key32, msg32, data, algo), counter)
  {
    var keydata := SeedOf(key32, msg32, data, algo);
    var rng := new Generator(compress, keydata, mac);
    nonce32 := rng.Generate(32);
    OneBlock(mac, Seeded(mac, keydata));
    for i := 0 to counter
      invariant fresh(rng) && rng.Valid() && rng.retry && rng.mac == mac
      invariant nonce32 == Candidate(mac, keydata, i)
      invariant rng.State() == Drawn(mac, keydata, i)
    {
      nonce32 := rng.Generate(32);
      OneBlock(mac, AtCandidate(mac, keydata, i + 1));
    }
  }

  /** After so many rounds the unsigned 32-bit index of the loop is above the counter. */
  predicate Exceeds(rounds: nat, counter: nat) {
    rounds % TWO32 > counter
  }

  /** The loop ends exactly for counters below the largest one. */
  lemma NonceLoopEnds(counter: nat)
    requires counter < TWO32
    ensures (exists rounds :: Exceeds(rounds, counter)) <==> counter < 0xFFFFFFFF
  {
    if counter < 0xFFFFFFFF {
      assert Exceeds(counter + 1, counter);
    }
  }

  ghost function Drawn(mac: Mac, seed: seq<Byte>, j: nat): Drbg {
    Drbg(AtCandidate(mac, seed, j).k, Candidate(mac, seed, j))
  }

  lemma OneBlock(mac: Mac, d: Drbg)
    ensures Stream(mac, d, 1) == Chain(mac, d, 1)
  {
    assert Stream(mac, d, 0) == [];
    assert Stream(mac, d, 1) == [] + Chain(mac, d, 1);
  }
}
