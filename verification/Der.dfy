/** DER signatures: what the encoding is, and what the strict and the lax parser compute. */
module Der {
  import opened Bits
  import opened ByteStrings
  import opened Scalar4x64

  // ---------- The encoding (X.690) ----------

  /** The bytes of n without leading zeros; none for 0. */
  function Minimal(n: nat): seq<Byte> {
    if n == 0 then [] else Minimal(n / 256) + [n % 256]
  }

  /** Length octets, shortest form (sections 8.1.3 and 10.1). */
  function LengthOctets(n: nat): seq<int> {
    if n < 128 then [n] else [0x80 + |Minimal(n)|] + Minimal(n)
  }

  function Tlv(tag: Byte, body: seq<int>): seq<int> {
    [tag] + LengthOctets(|body|) + body
  }

  /** Content octets of some integer: not empty, and no superfluous first byte (section 8.3.2). */
  predicate IntegerOctets(b: seq<Byte>) {
    && b != []
    && !(|b| > 1 && b[0] == 0 && b[1] < 0x80)
    && !(|b| > 1 && b[0] == 0xFF && b[1] >= 0x80)
  }

  function PairBody(br: seq<Byte>, bs: seq<Byte>): seq<int> {
    Tlv(2, br) + Tlv(2, bs)
  }

  /** A sequence of two integers with these content octets. */
  function DerPair(br: seq<Byte>, bs: seq<Byte>): seq<int> {
    Tlv(0x30, PairBody(br, bs))
  }

  /** Content octets of the nonnegative integer v. */
  function Content(v: nat): (b: seq<Byte>)
    ensures |b| > 0
  {
    if v < 128 then [v] else Content(v / 256) + [v % 256]
  }

  /** The signature (r, s) in DER. */
  function DerSig(r: nat, s: nat): seq<int> {
    DerPair(Content(r), Content(s))
  }

  lemma {:induction false} MinimalIs(b: seq<Byte>)
    requires b == [] || b[0] != 0
    ensures Minimal(BE(b)) == b
  {
    if b != [] {
      var c := b[..|b| - 1];
      BETop(b);
      MinimalIs(c);
      assert BE(b) / 256 == BE(c) && BE(b) % 256 == b[|b| - 1];
      assert b == c + [b[|b| - 1]];
    }
  }

  lemma {:induction false} MinimalValue(n: nat)
    ensures BE(Minimal(n)) == n
    ensures n > 0 ==> Minimal(n) != [] && Minimal(n)[0] != 0
  {
    if n > 0 {
      MinimalValue(n / 256);
      BEPush(Minimal(n / 256), n % 256);
    }
  }

  lemma {:induction false} ContentValue(v: nat)
    ensures BE(Content(v)) == v && IntegerOctets(Content(v)) && Content(v)[0] < 0x80
  {
    if v < 128 {
      OneByte(Content(v));
    } else {
      var c := Content(v / 256);
      ContentValue(v / 256);
      BEPush(c, v % 256);
      if |c| == 1 {
        OneByte(c);
        NextByteHigh(v);
      }
    }
  }

  lemma OneByte(b: seq<Byte>)
    requires |b| == 1
    ensures BE(b) == b[0]
  {
    BEPush([], b[0]);
    assert [] + [b[0]] == b;
  }

  lemma NextByteHigh(v: nat)
    requires v >= 128
    ensures v / 256 == 0 ==> v % 256 >= 0x80
  {
  }

  /** Every nonnegative integer has one content string only. */
  lemma {:induction false} ContentIs(b: seq<Byte>)
    requires IntegerOctets(b) && b[0] < 0x80
    ensures Content(BE(b)) == b
  {
    var c, last := b[..|b| - 1], b[|b| - 1];
    assert b == c + [last];
    BEPush(c, last);
    if |b| == 1 {
      assert c == [];
    } else {
      ContentIs(c);
      assert BE(b) / 256 == BE(c);
      if BE(c) == 0 {
        assert c == Content(0) == [0];
      }
    }
  }

  // ---------- What the strict parser computes ----------

  /** The length at the front of s and the bytes it takes, or none. */
  datatype Length = Length(len: int, used: nat) | NoLength

  function ReadLen(s: seq<Byte>): (r: Length)
    ensures r.Length? ==> 0 < r.used <= |s|
  {
    if s == [] then NoLength
    else if s[0] < 0x80 then Length(s[0], 1)
    else
      var k := s[0] - 0x80;
      if k == 0 || k > 8 || k > |s| - 1 || s[1] == 0 then NoLength
      else
        var n := BE(s[1..1 + k]);
        if n < 128 || n > |s| - 1 - k then NoLength else Length(ToInt(n), 1 + k)
  }

  /** The scalar read from content octets: out of range becomes 0. */
  function ScalarOf(b: seq<Byte>): nat
    requires b != []
  {
    if b[0] >= 0x80 || BE(b) >= N then 0 else BE(b)
  }

  datatype Integer = Integer(value: nat, used: nat) | NoInteger

  function ReadInteger(s: seq<Byte>): (r: Integer)
    ensures r.Integer? ==> 0 < r.used <= |s|
  {
    if s == [] || s[0] != 0x02 then NoInteger
    else
      var l := ReadLen(s[1..]);
      if l.NoLength? || l.len <= 0 || 1 + l.used + l.len > |s| then NoInteger
      else
        var b := s[1 + l.used..1 + l.used + l.len];
        if IntegerOctets(b) then Integer(ScalarOf(b), 1 + l.used + l.len) else NoInteger
  }

  datatype Pair = Pair(r: nat, s: nat) | NoPair

  function Parse(s: seq<Byte>): Pair {
    if s == [] || s[0] != 0x30 then NoPair
    else
      var l := ReadLen(s[1..]);
      if l.NoLength? || l.len < 0 || 1 + l.used + l.len != |s| then NoPair
      else
        ParseBody(s[1 + l.used..])
  }

  /** Two integers and nothing after them. */
  function ParseBody(body: seq<Byte>): Pair {
    var i := ReadInteger(body);
    if i.NoInteger? then NoPair
    else
      var j := ReadInteger(body[i.used..]);
      if j.NoInteger? || i.used + j.used != |body| then NoPair else Pair(i.value, j.value)
  }

  // ---------- The parser accepts exactly the encodings of two integers ----------

  lemma ReadLenSound(s: seq<Byte>)
    requires |s| < TWO31 && ReadLen(s).Length?
    ensures ReadLen(s).len >= 0 && s[..ReadLen(s).used] == LengthOctets(ReadLen(s).len)
  {
    if s[0] < 0x80 {
      assert s[..1] == [s[0]];
    } else {
      var k := s[0] - 0x80;
      var m := s[1..1 + k];
      MinimalIs(m);
      SmallToInt(BE(m));
      HeadAndRest(s, k);
    }
  }

  lemma HeadAndRest(s: seq<Byte>, k: nat)
    requires 1 + k <= |s|
    ensures s[..1 + k] == [s[0]] + s[1..1 + k]
  {
  }

  lemma SmallToInt(n: nat)
    requires n < TWO31
    ensures ToInt(n) == n
  {
  }

  lemma ReadLenComplete(n: nat, rest: seq<Byte>, s: seq<Byte>)
    requires n < TWO31 && n <= |rest| && s == LengthOctets(n) + rest
    ensures ReadLen(s) == Length(n, |LengthOctets(n)|)
  {
    if n >= 128 {
      var m := Minimal(n);
      MinimalValue(n);
      MinimalShort(n);
      assert s[1..1 + |m|] == m;
      assert s[0] == 0x80 + |m| && s[1] == m[0];
    }
  }

  lemma MinimalShort(n: nat)
    requires n < TWO31
    ensures |Minimal(n)| <= 4
  {
    if n > 0 {
      MinimalValue(n);
      BETop(Minimal(n));
      assert Pow256(4) == TWO32;
      if |Minimal(n)| > 4 {
        Pow256Monotone(4, |Minimal(n)| - 1);
      }
    }
  }

  lemma ReadIntegerSound(s: seq<Byte>) returns (b: seq<Byte>)
    requires |s| < TWO31 && ReadInteger(s).Integer?
    ensures IntegerOctets(b) && s[..ReadInteger(s).used] == Tlv(2, b) && ReadInteger(s).value == ScalarOf(b)
  {
    var l := ReadLen(s[1..]);
    ReadLenSound(s[1..]);
    b := s[1 + l.used..1 + l.used + l.len];
    assert s[..1 + l.used + l.len] == [s[0]] + s[1..][..l.used] + b;
  }

  lemma ReadIntegerComplete(b: seq<Byte>, rest: seq<Byte>, s: seq<Byte>)
    requires IntegerOctets(b) && |b| < TWO31 && s == Tlv(2, b) + rest
    ensures ReadInteger(s) == Integer(ScalarOf(b), |Tlv(2, b)|)
  {
    var l := LengthOctets(|b|);
    TlvParts(2, b, rest, s);
    ReadLenComplete(|b|, b + rest, s[1..]);
  }

  lemma TlvParts(tag: Byte, b: seq<int>, rest: seq<int>, s: seq<int>)
    requires s == Tlv(tag, b) + rest
    ensures var l := LengthOctets(|b|);
      |s| == 1 + |l| + |b| + |rest| && s[0] == tag && s[1..] == l + (b + rest) && s[1 + |l|..1 + |l| + |b|] == b
  {
  }

  /** A length that tells the rest of the input exactly was not truncated. */
  lemma ReadLenExact(t: seq<Byte>)
    requires ReadLen(t).Length? && 0 <= ReadLen(t).len && ReadLen(t).used + ReadLen(t).len == |t|
    ensures ReadLen(t).len < TWO31 && t[..ReadLen(t).used] == LengthOctets(ReadLen(t).len)
  {
    if t[0] < 0x80 {
      assert t[..1] == [t[0]];
    } else {
      var k := t[0] - 0x80;
      var m := t[1..1 + k];
      ToIntBound(BE(m));
      MinimalIs(m);
      HeadAndRest(t, k);
    }
  }

  lemma BodySound(body: seq<Byte>) returns (br: seq<Byte>, bs: seq<Byte>)
    requires |body| < TWO31 && ParseBody(body).Pair?
    ensures IntegerOctets(br) && IntegerOctets(bs)
    ensures body == PairBody(br, bs) && ParseBody(body) == Pair(ScalarOf(br), ScalarOf(bs))
  {
    var i := ReadInteger(body);
    br := ReadIntegerSound(body);
    bs := ReadIntegerSound(body[i.used..]);
    assert body == body[..i.used] + body[i.used..];
    assert body[i.used..][..|body| - i.used] == body[i.used..];
  }

  lemma BodyComplete(br: seq<Byte>, bs: seq<Byte>, body: seq<Byte>)
    requires IntegerOctets(br) && IntegerOctets(bs) && |body| < TWO31 && body == PairBody(br, bs)
    ensures ParseBody(body) == Pair(ScalarOf(br), ScalarOf(bs))
  {
    var tail := body[|Tlv(2, br)|..];
    assert tail == Tlv(2, bs) == Tlv(2, bs) + [];
    ReadIntegerComplete(br, tail, body);
    ReadIntegerComplete(bs, [], tail);
  }

  /** Whatever the strict parser accepts is the encoding of two integers, and the scalars are theirs. */
  lemma ParseSound(s: seq<Byte>) returns (br: seq<Byte>, bs: seq<Byte>)
    requires Parse(s).Pair?
    ensures IntegerOctets(br) && IntegerOctets(bs) && |PairBody(br, bs)| < TWO31
    ensures s == DerPair(br, bs) && Parse(s) == Pair(ScalarOf(br), ScalarOf(bs))
  {
    var l := ReadLen(s[1..]);
    ReadLenExact(s[1..]);
    var body := s[1 + l.used..];
    br, bs := BodySound(body);
    ThreeParts(s, l.used);
  }

  lemma ThreeParts(s: seq<Byte>, n: nat)
    requires 1 + n <= |s|
    ensures s == [s[0]] + s[1..][..n] + s[1 + n..]
  {
  }

  /** Every such encoding is accepted, if its body is shorter than 2^31 bytes. */
  lemma ParseComplete(br: seq<Byte>, bs: seq<Byte>, s: seq<Byte>)
    requires IntegerOctets(br) && IntegerOctets(bs) && |PairBody(br, bs)| < TWO31
    requires s == DerPair(br, bs)
    ensures Parse(s) == Pair(ScalarOf(br), ScalarOf(bs))
  {
    var whole := PairBody(br, bs);
    var body := BodyOf(whole, s);
    ReadLenComplete(|whole|, body, s[1..]);
    BodyComplete(br, bs, body);
  }

  lemma BodyOf(whole: seq<int>, s: seq<Byte>) returns (body: seq<Byte>)
    requires s == Tlv(0x30, whole)
    ensures var l := LengthOctets(|whole|);
      |s| == 1 + |l| + |whole| && s[0] == 0x30 && s[1..] == l + body && body == whole && s[1 + |l|..] == body
  {
    body := s[1 + |LengthOctets(|whole|)|..];
  }

  // ---------- Round trip and canonicity ----------

  lemma ContentShort(v: nat)
    requires v < TWO256
    ensures |Content(v)| <= 33
  {
    ContentValue(v);
    var c := Content(v);
    if |c| > 33 {
      var k :| 31 < k < 33;
      Pow256Of32(k);
      Pow256Monotone(k, |c| - 2);
      if c[0] != 0 {
        BETop(c);
        Pow256Monotone(|c| - 2, |c| - 1);
      } else {
        BEDropZero(c);
        BETop(c[1..]);
      }
    }
  }

  /** Reading back a printed signature. */
  lemma RoundTrip(r: nat, s: nat, input: seq<Byte>)
    requires r < N && s < N && input == DerSig(r, s)
    ensures Parse(input) == Pair(r, s)
  {
    ContentValue(r);
    ContentValue(s);
    ContentShort(r);
    ContentShort(s);
    ParseComplete(Content(r), Content(s), input);
  }

  /** An accepted input with two nonzero scalars is what printing them gives, byte for byte. */
  lemma Canonical(input: seq<Byte>)
    requires Parse(input).Pair? && Parse(input).r != 0 && Parse(input).s != 0
    ensures input == DerSig(Parse(input).r, Parse(input).s)
  {
    var br, bs := ParseSound(input);
    ContentIs(br);
    ContentIs(bs);
  }

  /** Two different accepted inputs never give the same pair of nonzero scalars. */
  lemma NoTwoEncodings(x: seq<Byte>, y: seq<Byte>)
    requires Parse(x).Pair? && Parse(x) == Parse(y) && Parse(x).r != 0 && Parse(x).s != 0
    ensures x == y
  {
    Canonical(x);
    Canonical(y);
  }
}
