/** The integers that the content octets stand for, negative ones included, and the lengths: each has one shortest form,
    and the strict parser accepts exactly that. */
module DerIntegers {
  import opened Bits
  import opened ByteStrings
  import opened Scalar4x64
  import opened Der

  // ---------- Two's complement ----------

  /** The integer of content octets (section 8.3.3 of X.690). */
  function Signed(b: seq<Byte>): int
    requires b != []
  {
    if b[0] < 0x80 then BE(b) else BE(b) - Pow256(|b|)
  }

  /** Half the number of values of k + 1 bytes. */
  function Half(k: nat): int {
    128 * Pow256(k)
  }

  /** The top byte and the value of the others. */
  lemma {:induction false} BESplit(b: seq<Byte>)
    requires b != []
    ensures BE(b) == b[0] * Pow256(|b| - 1) + BE(b[1..]) && BE(b[1..]) < Pow256(|b| - 1)
  {
    BEBound(b[1..]);
    if |b| == 1 {
      OneByte(b);
    } else {
      var c, last := b[..|b| - 1], b[|b| - 1];
      BESplit(c);
      assert c[1..] == b[1..][..|b| - 2];
      SplitMore(b[0], Pow256(|b| - 2), BE(c[1..]), last);
    }
  }

  lemma SplitMore(t: int, p: int, rest: int, last: int)
    ensures (t * p + rest) * 256 + last == t * (256 * p) + (rest * 256 + last)
  {
    assert t * (256 * p) == 256 * (t * p);
  }

  /** k + 1 bytes reach from -Half(k) to Half(k) - 1. */
  lemma SignedRange(b: seq<Byte>)
    requires b != []
    ensures -Half(|b| - 1) <= Signed(b) < Half(|b| - 1)
  {
    BESplit(b);
    TopByte(b[0], Pow256(|b| - 1), BE(b[1..]));
  }

  lemma TopByte(t: int, p: int, rest: int)
    requires 0 <= t < 256 && 0 <= rest < p
    ensures t < 0x80 ==> 0 <= t * p + rest < 128 * p
    ensures t >= 0x80 ==> 128 * p <= t * p + rest < 256 * p
  {
    if t < 0x80 {
      Ordered(t, 127, p);
    } else {
      Ordered(128, t, p);
      Ordered(t, 255, p);
    }
  }

  lemma Ordered(a: int, b: int, p: int)
    requires a <= b && 0 <= p
    ensures a * p <= b * p && (0 <= a ==> 0 <= a * p)
  {
  }

  /** A superfluous first byte can be dropped. */
  lemma Shorten(b: seq<Byte>)
    requires |b| > 1 && !IntegerOctets(b)
    ensures Signed(b[1..]) == Signed(b)
  {
    BESplit(b);
  }

  /** Without one, the value is out of reach of shorter strings. */
  lemma OutOfReach(b: seq<Byte>)
    requires IntegerOctets(b) && |b| > 1
    ensures Signed(b) < -Half(|b| - 2) || Signed(b) >= Half(|b| - 2)
  {
    var c, p := b[1..], Pow256(|b| - 2);
    BESplit(b);
    BESplit(c);
    TopByte(c[0], p, BE(c[1..]));
    TwoBytes(b[0], c[0], p, BE(c));
  }

  lemma TwoBytes(t: int, u: int, p: int, rest: int)
    requires 0 <= t < 256 && 0 <= u < 256 && 0 <= rest < 256 * p && p > 0
    requires (u < 0x80 ==> rest < 128 * p) && (u >= 0x80 ==> 128 * p <= rest)
    requires !(t == 0 && u < 0x80) && !(t == 0xFF && u >= 0x80)
    ensures t < 0x80 ==> t * (256 * p) + rest >= 128 * p
    ensures t >= 0x80 ==> t * (256 * p) + rest - 256 * (256 * p) < -(128 * p)
  {
    var q := 256 * p;
    if 0 < t < 0x80 {
      Ordered(1, t, q);
    }
    if 0x80 <= t < 0xFF {
      Ordered(t, 254, q);
    }
  }

  lemma HalfMonotone(j: nat, k: nat)
    requires j <= k
    ensures Half(j) <= Half(k)
  {
    Pow256Monotone(j, k);
  }

  /** The fewest bytes (section 8.3.2): no shorter string stands for the same integer. */
  ghost predicate Shortest(b: seq<Byte>) {
    b != [] && forall c: seq<Byte> :: 0 < |c| < |b| ==> Signed(c) != Signed(b)
  }

  /** That is what the tests on the first two bytes decide. */
  lemma ShortestIff(b: seq<Byte>)
    ensures IntegerOctets(b) <==> Shortest(b)
  {
    if IntegerOctets(b) {
      forall c: seq<Byte> | 0 < |c| < |b|
        ensures Signed(c) != Signed(b)
      {
        OutOfReach(b);
        SignedRange(c);
        HalfMonotone(|c| - 1, |b| - 2);
      }
    } else if |b| > 1 {
      Shorten(b);
    }
  }

  /** Strings of the same length and value are the same. */
  lemma {:induction false} BEInjective(b: seq<Byte>, c: seq<Byte>)
    requires |b| == |c| && BE(b) == BE(c)
    ensures b == c
  {
    FixedBytesOf(b);
    FixedBytesOf(c);
  }

  /** Every integer has at most one shortest string. */
  lemma OneString(b: seq<Byte>, c: seq<Byte>)
    requires IntegerOctets(b) && IntegerOctets(c) && Signed(b) == Signed(c)
    ensures b == c
  {
    ShortestIff(b);
    ShortestIff(c);
    SignedRange(b);
    SignedRange(c);
    BEBound(b);
    BEBound(c);
    BEInjective(b, c);
  }

  // ---------- The content of an integer ----------

  function Complement(b: seq<Byte>): (r: seq<Byte>)
    ensures |r| == |b|
  {
    seq(|b|, i requires 0 <= i < |b| => 255 - b[i])
  }

  lemma {:induction false} ComplementValue(b: seq<Byte>)
    ensures BE(b) + BE(Complement(b)) == Pow256(|b|) - 1
  {
    if b != [] {
      var c := b[..|b| - 1];
      ComplementValue(c);
      assert Complement(b)[..|b| - 1] == Complement(c);
    }
  }

  /** The shortest content octets of v: for a negative v, those of -1 - v with every bit changed. */
  function ContentOf(v: int): (b: seq<Byte>)
    ensures b != []
  {
    if v >= 0 then Content(v) else Complement(Content(-1 - v))
  }

  lemma ContentOfIs(v: int)
    ensures IntegerOctets(ContentOf(v)) && Signed(ContentOf(v)) == v
  {
    if v >= 0 {
      ContentValue(v);
    } else {
      ContentValue(-1 - v);
      ComplementValue(Content(-1 - v));
    }
  }

  lemma ContentOfSigned(b: seq<Byte>)
    requires IntegerOctets(b)
    ensures ContentOf(Signed(b)) == b
  {
    ContentOfIs(Signed(b));
    OneString(ContentOf(Signed(b)), b);
  }

  // ---------- Lengths ----------

  /** The octets o stand for the length n (section 8.1.3): one byte, or their number and the bytes of n. */
  ghost predicate LengthForm(o: seq<Byte>, n: nat) {
    || (|o| == 1 && o[0] < 0x80 && n == o[0])
    || (|o| > 1 && o[0] == 0x80 + (|o| - 1) && BE(o[1..]) == n)
  }

  /** Of all of these, the encoder takes the shortest, and there is only one as short (section 10.1). */
  lemma LengthShortest(o: seq<Byte>, n: nat, l: seq<Byte>)
    requires LengthForm(o, n) && l == LengthOctets(n)
    ensures LengthForm(l, n) && |l| <= |o| && (|l| == |o| ==> l == o)
  {
    if n >= 128 {
      MinimalValue(n);
      LongForm(o, n);
      assert l[1..] == Minimal(n);
    }
  }

  lemma LongForm(o: seq<Byte>, n: nat)
    requires |o| > 1 && BE(o[1..]) == n && o[0] == 0x80 + (|o| - 1)
    ensures 1 + |Minimal(n)| <= |o| && (1 + |Minimal(n)| == |o| ==> [0x80 + |Minimal(n)|] + Minimal(n) == o)
  {
    var c := o[1..];
    MinimalShortest(c);
    assert o == [o[0]] + c;
  }

  lemma {:induction false} MinimalShortest(c: seq<Byte>)
    ensures |Minimal(BE(c))| <= |c| && (|Minimal(BE(c))| == |c| ==> Minimal(BE(c)) == c)
  {
    if c == [] || c[0] != 0 {
      MinimalIs(c);
    } else {
      BEDropZero(c);
      MinimalShortest(c[1..]);
    }
  }

  /** Length octets tell where they end. */
  lemma LengthPrefix(n: nat, x: seq<int>, n': nat, x': seq<int>)
    requires LengthOctets(n) + x == LengthOctets(n') + x'
    ensures n == n' && x == x'
  {
    var l, l', w := LengthOctets(n), LengthOctets(n'), LengthOctets(n) + x;
    MinimalValue(n);
    MinimalValue(n');
    assert l[0] == w[0] == l'[0];
    assert |l| == |l'|;
    assert l == w[..|l|] == l' && x == w[|l|..] == x';
    if n >= 128 {
      assert l[1..] == Minimal(n) && l'[1..] == Minimal(n');
    }
  }

  lemma TlvPrefix(tag: Byte, b: seq<int>, x: seq<int>, b': seq<int>, x': seq<int>)
    requires Tlv(tag, b) + x == Tlv(tag, b') + x'
    ensures b == b' && x == x'
  {
    AfterTag(tag, b, x, Tlv(tag, b) + x);
    AfterTag(tag, b', x', Tlv(tag, b') + x');
    LengthPrefix(|b|, b + x, |b'|, b' + x');
    SameSplit(b, x, b', x');
  }

  lemma AfterTag(tag: Byte, b: seq<int>, x: seq<int>, s: seq<int>)
    requires s == Tlv(tag, b) + x
    ensures s != [] && s[1..] == LengthOctets(|b|) + (b + x)
  {
    var l := LengthOctets(|b|);
    assert [tag] + l + b + x == [tag] + (l + (b + x));
  }

  lemma SameSplit(b: seq<int>, x: seq<int>, b': seq<int>, x': seq<int>)
    requires b + x == b' + x' && |b| == |b'|
    ensures b == b' && x == x'
  {
    var t := b + x;
    assert b == t[..|b|] && b' == t[..|b|] && x == t[|b|..] && x' == t[|b|..];
  }

  // ---------- The strict parser, in terms of integers ----------

  /** Two integers in DER. */
  function Encoding(r: int, s: int): seq<int> {
    DerPair(ContentOf(r), ContentOf(s))
  }

  function BodySize(r: int, s: int): nat {
    |PairBody(ContentOf(r), ContentOf(s))|
  }

  /** Negative integers and those from n on become 0. */
  function Scalar(v: int): nat {
    if 0 <= v < N then v else 0
  }

  lemma ScalarOfSigned(b: seq<Byte>)
    requires b != []
    ensures ScalarOf(b) == Scalar(Signed(b))
  {
    BEBound(b);
  }

  /** Accepted is exactly the encoding of some two integers with a body below 2^31 bytes; the scalars are theirs. */
  lemma AcceptsIff(input: seq<Byte>)
    ensures Parse(input).Pair? <==> exists r, s :: input == Encoding(r, s) && BodySize(r, s) < TWO31
    ensures forall r, s :: input == Encoding(r, s) && BodySize(r, s) < TWO31 ==> Parse(input) == Pair(Scalar(r), Scalar(s))
  {
    forall r, s | input == Encoding(r, s) && BodySize(r, s) < TWO31
      ensures Parse(input) == Pair(Scalar(r), Scalar(s))
    {
      ParseEncoding(r, s, input);
    }
    if Parse(input).Pair? {
      var r, s := IntegersOf(input);
    }
  }

  lemma ParseEncoding(r: int, s: int, input: seq<Byte>)
    requires input == Encoding(r, s) && BodySize(r, s) < TWO31
    ensures Parse(input) == Pair(Scalar(r), Scalar(s))
  {
    ContentOfIs(r);
    ContentOfIs(s);
    ScalarOfSigned(ContentOf(r));
    ScalarOfSigned(ContentOf(s));
    ParseComplete(ContentOf(r), ContentOf(s), input);
  }

  lemma IntegersOf(input: seq<Byte>) returns (r: int, s: int)
    requires Parse(input).Pair?
    ensures input == Encoding(r, s) && BodySize(r, s) < TWO31
  {
    var br, bs := ParseSound(input);
    r, s := Signed(br), Signed(bs);
    ContentOfSigned(br);
    ContentOfSigned(bs);
  }

  /** A pair of content strings can be read off its encoding. */
  lemma PairInjective(br: seq<Byte>, bs: seq<Byte>, br': seq<Byte>, bs': seq<Byte>)
    requires DerPair(br, bs) == DerPair(br', bs')
    ensures br == br' && bs == bs'
  {
    TlvPrefix(0x30, PairBody(br, bs), [], PairBody(br', bs'), []);
    TlvPrefix(2, br, Tlv(2, bs), br', Tlv(2, bs'));
    TlvPrefix(2, bs, [], bs', []);
  }

  /** Different pairs of integers, negative ones and 0 included, have different encodings. */
  lemma EncodingInjective(r: int, s: int, r': int, s': int)
    requires Encoding(r, s) == Encoding(r', s')
    ensures r == r' && s == s'
  {
    PairInjective(ContentOf(r), ContentOf(s), ContentOf(r'), ContentOf(s'));
    ContentOfIs(r);
    ContentOfIs(s);
    ContentOfIs(r');
    ContentOfIs(s');
  }

  /** Two different accepted inputs never hold the same two integers. */
  lemma NoTwoForIntegers(x: seq<Byte>, y: seq<Byte>, br: seq<Byte>, bs: seq<Byte>, cr: seq<Byte>, cs: seq<Byte>)
    requires Parse(x).Pair? && Parse(y).Pair? && x == DerPair(br, bs) && y == DerPair(cr, cs)
    requires br != [] && bs != [] && cr != [] && cs != [] && Signed(br) == Signed(cr) && Signed(bs) == Signed(cs)
    ensures x == y
  {
    var ar, at := ParseSound(x);
    PairInjective(br, bs, ar, at);
    ar, at := ParseSound(y);
    PairInjective(cr, cs, ar, at);
    OneString(br, cr);
    OneString(bs, cs);
  }
}
