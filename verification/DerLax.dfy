/** What the lax parser accepts, said without it. */
module DerLax {
  import opened Bits
  import opened ByteStrings
  import opened Scalar4x64
  import opened Der
  import opened DerCode
  import opened DerIntegers

  /** The octets o stand for the length n in any form, with leading zeros or none at all, as long as n is below 2^56. */
  ghost predicate LaxForm(o: seq<Byte>, n: nat) {
    n < 0x1_00000000000000 && (LengthForm(o, n) || (o == [0x80] && n == 0))
  }

  /** The length of the sequence: only the number of its octets has to be right. */
  predicate Skipped(h: seq<Byte>) {
    h != [] && ((|h| == 1 && h[0] < 0x80) || h[0] == 0x80 + (|h| - 1))
  }

  /** A tag, length octets that stand for |b|, and b. */
  ghost predicate LaxTlv(e: seq<Byte>, b: seq<Byte>) {
    exists o :: LaxForm(o, |b|) && e == [0x02] + o + b
  }

  /** Two integers with content octets br and bs, and anything after them. */
  ghost predicate TwoIntegers(body: seq<Byte>, br: seq<Byte>, bs: seq<Byte>) {
    exists e, f, tail :: LaxTlv(e, br) && LaxTlv(f, bs) && body == e + (f + tail)
  }

  /** The input holds these after its tag and a length that is not looked at. */
  ghost predicate LaxHolds(s: seq<Byte>, br: seq<Byte>, bs: seq<Byte>) {
    exists h: seq<Byte>, body: seq<Byte> :: Skipped(h) && TwoIntegers(body, br, bs) && Headed(s, h, body)
  }

  predicate Headed(s: seq<Byte>, h: seq<Byte>, body: seq<Byte>) {
    s == [0x30] + (h + body)
  }

  // ---------- Lengths ----------

  lemma SevenBytes()
    ensures Pow256(7) == 0x1_00000000000000
  {
  }

  lemma LaxLengthSound(s: seq<Byte>)
    requires LaxLength(s).Length?
    ensures LaxForm(s[..LaxLength(s).used], LaxLength(s).len)
  {
    SevenBytes();
    var o := s[..LaxLength(s).used];
    if s[0] >= 0x80 {
      assert o[1..] == s[1..|o|];
    }
  }

  lemma LaxLengthAny(o: seq<Byte>, n: nat, s: seq<Byte>)
    requires LaxForm(o, n) && |o| <= |s| && s[..|o|] == o
    ensures LaxLength(s) == Length(n, |o|)
  {
    SevenBytes();
    assert s[0] == o[0];
    if o == [0x80] {
      assert s[1..1] == [];
    } else if s[0] >= 0x80 {
      assert o[1..] == s[1..|o|];
    }
  }

  // ---------- Integers ----------

  lemma LaxIntegerSound(s: seq<Byte>) returns (e: seq<Byte>)
    requires LaxInteger(s).Octets?
    ensures e == s[..LaxInteger(s).used] && LaxTlv(e, LaxInteger(s).b)
  {
    var l := LaxLength(s[1..]);
    LaxLengthSound(s[1..]);
    var o, b := s[1..][..l.used], LaxInteger(s).b;
    e := s[..LaxInteger(s).used];
    assert e == [0x02] + o + b;
  }

  lemma LaxIntegerAny(e: seq<Byte>, b: seq<Byte>, rest: seq<Byte>, s: seq<Byte>)
    requires LaxTlv(e, b) && s == e + rest
    ensures LaxInteger(s) == Octets(b, |e|)
  {
    var o: seq<Byte> :| LaxForm(o, |b|) && e == [0x02] + o + b;
    var t := s[1..];
    assert t == o + (b + rest);
    LaxLengthAny(o, |b|, t);
    assert s[1 + |o|..1 + |o| + |b|] == b;
  }

  // ---------- The input ----------

  lemma LaxBodySound(body: seq<Byte>) returns (br: seq<Byte>, bs: seq<Byte>)
    requires LaxBody(body).Pair?
    ensures TwoIntegers(body, br, bs)
  {
    var i := LaxInteger(body);
    var rest := body[i.used..];
    var j := LaxInteger(rest);
    var e := LaxIntegerSound(body);
    var f := LaxIntegerSound(rest);
    br, bs := i.b, j.b;
    assert body == e + rest && rest == f + rest[j.used..];
  }

  lemma LaxBodyAny(body: seq<Byte>, br: seq<Byte>, bs: seq<Byte>)
    requires TwoIntegers(body, br, bs)
    ensures LaxBody(body) == if BE(br) < N && BE(bs) < N then Pair(BE(br), BE(bs)) else Pair(0, 0)
  {
    var e: seq<Byte>, f: seq<Byte>, tail: seq<Byte> :| LaxTlv(e, br) && LaxTlv(f, bs) && body == e + (f + tail);
    var rest := f + tail;
    assert body[|e|..] == rest;
    LaxIntegerAny(e, br, rest, body);
    LaxIntegerAny(f, bs, tail, rest);
  }

  lemma HeadSound(s: seq<Byte>) returns (h: seq<Byte>, body: seq<Byte>)
    requires LaxParse(s).Pair?
    ensures Skipped(h) && Headed(s, h, body) && LaxParse(s) == LaxBody(body)
  {
    var k := if s[1] < 0x80 then 2 else 2 + (s[1] - 0x80);
    h, body := s[1..k], s[k..];
  }

  lemma HeadAny(s: seq<Byte>, h: seq<Byte>, body: seq<Byte>)
    requires Skipped(h) && Headed(s, h, body)
    ensures LaxParse(s) == LaxBody(body)
  {
    var t := h + body;
    assert s[1..] == t && t[0] == h[0] && t[|h|..] == body;
    assert s[1] == h[0] && s[1 + |h|..] == body;
  }

  lemma LaxSound(s: seq<Byte>) returns (br: seq<Byte>, bs: seq<Byte>)
    requires LaxParse(s).Pair?
    ensures LaxHolds(s, br, bs)
  {
    var h, body := HeadSound(s);
    br, bs := LaxBodySound(body);
  }

  /** Such an input is read as both numbers without their signs, or as two zeros if one of them is not below n. */
  lemma LaxComplete(s: seq<Byte>, br: seq<Byte>, bs: seq<Byte>)
    requires LaxHolds(s, br, bs)
    ensures LaxParse(s) == if BE(br) < N && BE(bs) < N then Pair(BE(br), BE(bs)) else Pair(0, 0)
  {
    var h: seq<Byte>, body: seq<Byte> :| Skipped(h) && TwoIntegers(body, br, bs) && Headed(s, h, body);
    HeadAny(s, h, body);
    LaxBodyAny(body, br, bs);
  }

  /** An input is accepted exactly if it holds two integers in that way. */
  lemma LaxAcceptsIff(s: seq<Byte>)
    ensures LaxParse(s).Pair? <==> exists br, bs :: LaxHolds(s, br, bs)
  {
    if LaxParse(s).Pair? {
      var br, bs := LaxSound(s);
    }
    if br, bs :| LaxHolds(s, br, bs) {
      LaxComplete(s, br, bs);
    }
  }

  lemma HoldsBefore(s: seq<Byte>, t: seq<Byte>, br: seq<Byte>, bs: seq<Byte>)
    requires LaxHolds(s, br, bs)
    ensures LaxHolds(s + t, br, bs)
  {
    var h: seq<Byte>, body: seq<Byte> :| Skipped(h) && TwoIntegers(body, br, bs) && Headed(s, h, body);
    TwoBefore(body, t, br, bs);
    HeadedBefore(s, h, body, t);
  }

  lemma HeadedBefore(s: seq<Byte>, h: seq<Byte>, body: seq<Byte>, t: seq<Byte>)
    requires Headed(s, h, body)
    ensures Headed(s + t, h, body + t)
  {
    var a: seq<Byte>, b := [0x30], h + body;
    assert a + (b + t) == (a + b) + t;
    assert b + t == h + (body + t);
  }

  lemma TwoBefore(body: seq<Byte>, t: seq<Byte>, br: seq<Byte>, bs: seq<Byte>)
    requires TwoIntegers(body, br, bs)
    ensures TwoIntegers(body + t, br, bs)
  {
    var e: seq<Byte>, f: seq<Byte>, tail: seq<Byte> :| LaxTlv(e, br) && LaxTlv(f, bs) && body == e + (f + tail);
    assert body + t == e + (f + (tail + t));
  }

  /** Nothing that follows changes the result. */
  lemma TailIgnored(s: seq<Byte>, t: seq<Byte>)
    requires LaxParse(s).Pair?
    ensures LaxParse(s + t) == LaxParse(s)
  {
    var br, bs := LaxSound(s);
    LaxComplete(s, br, bs);
    HoldsBefore(s, t, br, bs);
    LaxComplete(s + t, br, bs);
  }
}
