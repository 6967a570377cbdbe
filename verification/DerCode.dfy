/** The parsers and the printer as the library runs them, against the module Der. */
module DerCode {
  import opened Bits
  import opened ByteStrings
  import opened Scalar4x64
  import opened Der

  lemma BytesFit(b: seq<Byte>)
    requires |b| <= 8
    ensures BE(b) < TWO64 && (|b| <= 7 ==> BE(b) * 256 < TWO64)
  {
    BEBound(b);
    assert Pow256(8) == TWO64 && 256 * Pow256(7) == Pow256(8);
    Pow256Monotone(|b|, 8);
    if |b| <= 7 {
      Pow256Monotone(|b|, 7);
    }
  }

  lemma OneMore(s: seq<Byte>, start: nat, pos: nat)
    requires start <= pos < |s| && pos - start <= 7
    ensures BE(s[start..pos + 1]) == BE(s[start..pos]) * 256 + s[pos]
    ensures BE(s[start..pos]) * 256 < TWO64
  {
    var sofar := s[start..pos];
    assert s[start..pos + 1] == sofar + [s[pos]];
    BytesFit(sofar);
    BEPush(sofar, s[pos]);
  }

  /** The length at pos, or a negative number; sums of sizes wrap at 64 bits and the result is cut to an int. */
  method DerReadLen(s: seq<Byte>, pos: nat) returns (len: int, next: nat)
    requires pos <= |s| < TWO64
    ensures next <= |s|
    ensures len == if ReadLen(s[pos..]).Length? then ReadLen(s[pos..]).len else -1
    ensures ReadLen(s[pos..]).Length? ==> next == pos + ReadLen(s[pos..]).used
  {
    next := pos;
    if next >= |s| {
      return -1, next;
    }
    var b1 := s[next];
    next := next + 1;
    if b1 == 0xFF {
      return -1, next;
    }
    if b1 < 0x80 {
      return b1, next;
    }
    if b1 == 0x80 {
      return -1, next;
    }
    var lenleft := b1 - 0x80;
    if lenleft > |s| - next || s[next] == 0 || lenleft > 8 {
      return -1, next;
    }
    var ret;
    ghost var octets := s[next..next + lenleft];
    assert s[pos..][1..1 + lenleft] == octets;
    ret, next := ReadLongForm(s, next, lenleft);
    if ret.Rejected? || ret.value < 128 {
      return -1, next;
    }
    len := ToInt(ret.value);
  }

  datatype LongForm = LongForm(value: nat) | Rejected

  /** The loop over the octets of a long form; it stops as soon as the value exceeds what is left of the input. */
  method ReadLongForm(s: seq<Byte>, start: nat, k: nat) returns (r: LongForm, next: nat)
    requires 0 < k <= 8 && start + k <= |s| < TWO64
    ensures next <= |s| && (r.LongForm? ==> next == start + k)
    ensures r.LongForm? ==> r.value == BE(s[start..start + k])
    ensures BE(s[start..start + k]) <= |s| - start - k ==> r.LongForm?
    ensures r.LongForm? && BE(s[start..start + k]) > |s| - start - k ==> ToInt(r.value) == -1
  {
    var ret, lenleft := 0, k;
    next := start;
    while lenleft > 0
      invariant 0 <= lenleft && next == start + (k - lenleft)
      invariant ret == BE(s[start..next])
      invariant next > start ==> ret <= |s| - start - k || ret == TWO64 - 1
    {
      OneMore(s, start, next);
      ret := U64(ret * 256) + s[next];
      if (ret + lenleft) % TWO64 > |s| - next {
        assert s[start..start + k][..next + 1 - start] == s[start..next + 1];
        TooLong(s[start..start + k], next + 1 - start, ret, lenleft, |s| - next);
        return Rejected, next;
      }
      StillFits(s[start..next + 1], ret, lenleft, |s| - next);
      next := next + 1;
      lenleft := lenleft - 1;
    }
    AllOnesIsNegative();
    r := LongForm(ret);
  }

  lemma AllOnesIsNegative()
    ensures ToInt(TWO64 - 1) == -1
  {
  }

  lemma TooLong(octets: seq<Byte>, k: nat, ret: nat, left: nat, rest: int)
    requires k <= |octets| && ret == BE(octets[..k]) && (ret + left) % TWO64 > rest
    ensures BE(octets) > rest - left
  {
    BEPrefix(octets, k);
  }

  /** The sum wraps for eight bytes of ones only. */
  lemma StillFits(sofar: seq<Byte>, ret: nat, left: nat, rest: int)
    requires ret == BE(sofar) && 0 < left && |sofar| + left <= 9 && (ret + left) % TWO64 <= rest
    ensures ret <= rest - left || ret == TWO64 - 1
  {
    BytesFit(sofar);
    WrapsOnce(ret, left);
  }

  lemma WrapsOnce(ret: nat, left: nat)
    requires ret < TWO64 && left <= 9
    ensures (ret + left) % TWO64 == if ret + left < TWO64 then ret + left else ret + left - TWO64
  {
  }

  lemma {:induction false} LeadingZeros(k: nat, b: seq<Byte>)
    ensures BE(seq(k, _ => 0) + b) == BE(b)
  {
    var z: seq<Byte> := seq(k, _ => 0);
    if k == 0 {
      assert z + b == b;
    } else {
      BEDropZero(z + b);
      assert (z + b)[1..] == seq(k - 1, _ => 0) + b;
      LeadingZeros(k - 1, b);
    }
  }

  /** The scalar in a 32-byte buffer, and whether it had to be reduced. */
  function SetB32(b: seq<Byte>): (nat, bool)
    requires |b| == 32
  {
    (BE(b) % N, BE(b) >= N)
  }

  /** 33 bytes or more without a leading zero do not fit a scalar. */
  lemma TooWide(b: seq<Byte>)
    requires |b| > 32 && b[0] != 0
    ensures BE(b) >= N
  {
    var k :| 31 < k < 33;
    Pow256Of32(k);
    Pow256Monotone(k, |b| - 1);
    BETop(b);
  }

  /** Drops leading zero bytes of the len bytes at pos. */
  method SkipZeros(s: seq<Byte>, pos: nat, len: nat) returns (p: nat, n: nat)
    requires pos + len <= |s|
    ensures pos <= p && p + n == pos + len && BE(s[p..p + n]) == BE(s[pos..pos + len])
    ensures n > 0 ==> s[p] != 0
  {
    p, n := pos, len;
    while n > 0 && s[p] == 0
      invariant pos <= p && p + n == pos + len && BE(s[p..p + n]) == BE(s[pos..pos + len])
    {
      BEDropZero(s[p..p + n]);
      assert s[p..p + n][1..] == s[p + 1..p + n];
      p, n := p + 1, n - 1;
    }
  }

  /** The scalar of the n bytes at p, without leading zeros: overflow unless it is below n. */
  method CopyScalar(s: seq<Byte>, p: nat, n: nat) returns (value: nat, overflow: bool)
    requires p + n <= |s| && (n > 0 ==> s[p] != 0)
    ensures overflow <==> BE(s[p..p + n]) >= N
    ensures !overflow ==> value == BE(s[p..p + n])
  {
    var b := s[p..p + n];
    if n > 32 {
      TooWide(b);
      return 0, true;
    }
    LeadingZeros(32 - n, b);
    var r := SetB32(seq(32 - n, _ => 0) + b);
    value, overflow := r.0, r.1;
  }

  lemma SliceOfTail(s: seq<Byte>, pos: nat, i: nat, j: nat)
    requires pos <= i <= j <= |s|
    ensures s[pos..][i - pos..j - pos] == s[i..j]
  {
  }

  method DerParseInteger(s: seq<Byte>, pos: nat) returns (ok: bool, value: nat, next: nat)
    requires pos <= |s| < TWO64
    ensures ok <==> ReadInteger(s[pos..]).Integer?
    ensures ok ==> value == ReadInteger(s[pos..]).value && next == pos + ReadInteger(s[pos..]).used
  {
    value, next := 0, pos;
    if next == |s| || s[next] != 0x02 {
      return false, value, next;
    }
    next := next + 1;
    assert s[pos..][1..] == s[next..];
    var rlen;
    rlen, next := DerReadLen(s, next);
    if rlen <= 0 || next + rlen > |s| {
      return false, value, next;
    }
    ghost var b := s[next..next + rlen];
    SliceOfTail(s, pos, next, next + rlen);
    if s[next] == 0x00 && rlen > 1 && s[next + 1] < 0x80 {
      return false, value, next;
    }
    if s[next] == 0xFF && rlen > 1 && s[next + 1] >= 0x80 {
      return false, value, next;
    }
    var overflow := s[next] >= 0x80;
    next, rlen := SkipZeros(s, next, rlen);
    var wide;
    value, wide := CopyScalar(s, next, rlen);
    if overflow || wide {
      value := 0;
    }
    next := next + rlen;
    ok := true;
  }

  method SigParse(sig: seq<Byte>) returns (ok: bool, rr: nat, rs: nat)
    requires |sig| < TWO64
    ensures ok <==> Parse(sig).Pair?
    ensures ok ==> Parse(sig) == Pair(rr, rs)
  {
    rr, rs := 0, 0;
    if |sig| == 0 || sig[0] != 0x30 {
      return false, rr, rs;
    }
    var rlen, pos := DerReadLen(sig, 1);
    if rlen < 0 || pos + rlen > |sig| {
      return false, rr, rs;
    }
    if pos + rlen != |sig| {
      return false, rr, rs;
    }
    ok, rr, rs := ParseIntegers(sig, pos);
  }

  method ParseIntegers(sig: seq<Byte>, start: nat) returns (ok: bool, rr: nat, rs: nat)
    requires start <= |sig| < TWO64
    ensures ok <==> ParseBody(sig[start..]).Pair?
    ensures ok ==> ParseBody(sig[start..]) == Pair(rr, rs)
  {
    var pos;
    rs := 0;
    ok, rr, pos := DerParseInteger(sig, start);
    if !ok {
      return;
    }
    assert sig[start..][pos - start..] == sig[pos..];
    ok, rs, pos := DerParseInteger(sig, pos);
    if !ok {
      return;
    }
    ok := pos == |sig|;
  }

  // ---------- Printing ----------

  /** The shortest suffix of the 33 bytes that still reads as a nonnegative integer. */
  method TrimPadding(r: seq<Byte>) returns (p: nat, ghost v: nat)
    requires |r| == 33 && r[0] == 0
    ensures p < 33 && v == BE(r) && r[p..] == Content(v)
  {
    p, v := 0, BE(r);
    assert r[0..] == r;
    while 33 - p > 1 && r[p] == 0 && r[p + 1] < 0x80
      invariant p < 33 && r[p] < 0x80 && BE(r[p..]) == v
    {
      BEDropZero(r[p..]);
      assert r[p..][1..] == r[p + 1..];
      p := p + 1;
    }
    ContentIs(r[p..]);
  }

  /** The content octets of the scalar v, from its 33-byte buffer. */
  method ScalarOctets(v: nat) returns (b: seq<Byte>)
    requires v < N
    ensures b == Content(v) && |b| <= 33
  {
    var k :| k == 32;
    var r := [0] + FixedBytes(v, k);
    Pow256Of32(k);
    FixedBytesValue(v, k);
    BEDropZero(r);
    assert r[1..] == FixedBytes(v, k);
    var p, w := TrimPadding(r);
    b := r[p..];
  }

  /** Prints (sigr, sigs) into the first size bytes of the buffer if they suffice; tells the size needed either way. */
  method SigSerialize(sig: array<Byte>, size: nat, sigr: nat, sigs: nat) returns (ok: bool, needed: nat)
    requires size <= sig.Length && sigr < N && sigs < N
    modifies sig
    ensures needed == |DerSig(sigr, sigs)| <= 72
    ensures ok <==> needed <= size
    ensures ok ==> sig[..needed] == DerSig(sigr, sigs)
    ensures forall i :: (if ok then needed else 0) <= i < sig.Length ==> sig[i] == old(sig[i])
  {
    var r := ScalarOctets(sigr);
    var s := ScalarOctets(sigs);
    needed := 6 + |s| + |r|;
    PrintedIs(sigr, sigs);
    if size < needed {
      return false, needed;
    }
    PutPair(sig, r, s);
    ok := true;
  }

  method PutPair(sig: array<Byte>, r: seq<Byte>, s: seq<Byte>)
    requires |r| <= 33 && |s| <= 33 && 6 + |s| + |r| <= sig.Length
    modifies sig
    ensures sig[..6 + |s| + |r|] == [0x30, 4 + |s| + |r|, 0x02, |r|] + r + [0x02, |s|] + s
    ensures forall i :: 6 + |s| + |r| <= i < sig.Length ==> sig[i] == old(sig[i])
  {
    Put(sig, 0, [0x30, 4 + |s| + |r|, 0x02, |r|]);
    Put(sig, 4, r);
    Put(sig, 4 + |r|, [0x02, |s|]);
    Put(sig, 6 + |r|, s);
  }

  /** Printed signatures are short, so every length is one byte. */
  lemma PrintedIs(r: nat, s: nat)
    requires r < N && s < N
    ensures var (cr, cs) := (Content(r), Content(s));
      DerSig(r, s) == [0x30, 4 + |cs| + |cr|, 0x02, |cr|] + cr + [0x02, |cs|] + cs
  {
    ContentShort(r);
    ContentShort(s);
  }

  /** memcpy into the buffer at pos. */
  method Put(sig: array<Byte>, pos: nat, b: seq<Byte>)
    requires pos + |b| <= sig.Length
    modifies sig
    ensures sig[..pos + |b|] == old(sig[..pos]) + b
    ensures forall i :: pos + |b| <= i < sig.Length ==> sig[i] == old(sig[i])
  {
    forall i | 0 <= i < |b| {
      sig[pos + i] := b[i];
    }
  }

  // ---------- The lax parser ----------

  /** The length at the front of s, in any form whose value is below 2^56. */
  function LaxLength(s: seq<Byte>): (r: Length)
    ensures r.Length? ==> 0 < r.used <= |s| && r.len >= 0
  {
    if s == [] then NoLength
    else if s[0] < 0x80 then Length(s[0], 1)
    else
      var k := s[0] - 0x80;
      if k > |s| - 1 || BE(s[1..1 + k]) >= Pow256(7) then NoLength else Length(BE(s[1..1 + k]), 1 + k)
  }

  method LaxReadLength(input: seq<Byte>, start: nat) returns (ok: bool, len: nat, pos: nat)
    requires start <= |input| < TWO63
    ensures start <= pos <= |input|
    ensures ok <==> LaxLength(input[start..]).Length?
    ensures ok ==> LaxLength(input[start..]) == Length(len, pos - start)
  {
    len, pos := 0, start;
    if pos == |input| {
      return false, len, pos;
    }
    var lenbyte := input[pos];
    pos := pos + 1;
    if lenbyte < 0x80 {
      return true, lenbyte, pos;
    }
    lenbyte := lenbyte - 0x80;
    if pos + lenbyte > |input| {
      return false, len, pos;
    }
    assert input[start..][1..1 + lenbyte] == input[pos..pos + lenbyte];
    pos, lenbyte := SkipZeros(input, pos, lenbyte);
    ghost var octets := input[pos..pos + lenbyte];
    if lenbyte >= 8 {
      BETop(octets);
      Pow256Monotone(7, lenbyte - 1);
      return false, len, pos;
    }
    BEBound(octets);
    Pow256Monotone(lenbyte, 7);
    len, pos := LaxOctets(input, pos, lenbyte);
    ok := true;
  }

  method LaxOctets(input: seq<Byte>, start: nat, k: nat) returns (len: nat, pos: nat)
    requires start + k <= |input| && k <= 7
    ensures pos == start + k && len == BE(input[start..pos])
  {
    len, pos := 0, start;
    var lenbyte := k;
    while lenbyte > 0
      invariant 0 <= lenbyte <= k && pos == start + k - lenbyte && len == BE(input[start..pos])
    {
      OneMore(input, start, pos);
      len := U64(len * 256) + input[pos];
      pos, lenbyte := pos + 1, lenbyte - 1;
    }
  }

  /** Tag, length and content octets at the front of s; the octets are not looked at. */
  datatype Octets = Octets(b: seq<Byte>, used: nat) | NoOctets

  function LaxInteger(s: seq<Byte>): (r: Octets)
    ensures r.Octets? ==> 0 < r.used <= |s|
  {
    if s == [] || s[0] != 0x02 then NoOctets
    else
      var l := LaxLength(s[1..]);
      if l.NoLength? || l.len > |s| - 1 - l.used then NoOctets
      else Octets(s[1 + l.used..1 + l.used + l.len], 1 + l.used + l.len)
  }

  method LaxReadInteger(input: seq<Byte>, start: nat) returns (ok: bool, rpos: nat, rlen: nat)
    requires start <= |input| < TWO63
    ensures ok <==> LaxInteger(input[start..]).Octets?
    ensures start <= rpos
    ensures ok ==> rpos + rlen <= |input| && LaxInteger(input[start..]) == Octets(input[rpos..rpos + rlen], rpos + rlen - start)
  {
    rpos, rlen := start, 0;
    if rpos == |input| || input[rpos] != 0x02 {
      return false, rpos, rlen;
    }
    assert input[start..][1..] == input[start + 1..];
    ok, rlen, rpos := LaxReadLength(input, rpos + 1);
    if !ok || rlen > |input| - rpos {
      return false, rpos, rlen;
    }
    assert input[start..][rpos - start..rpos - start + rlen] == input[rpos..rpos + rlen];
  }

  /** The scalars of two content strings, both 0 if either is out of range; signs are ignored. */
  function LaxPair(br: seq<Byte>, bs: seq<Byte>): Pair {
    if BE(br) < N && BE(bs) < N then Pair(BE(br), BE(bs)) else Pair(0, 0)
  }

  /** Two integers, whatever follows them. */
  function LaxBody(s: seq<Byte>): Pair {
    var i := LaxInteger(s);
    if i.NoOctets? then NoPair
    else
      var j := LaxInteger(s[i.used..]);
      if j.NoOctets? then NoPair else LaxPair(i.b, j.b)
  }

  /** Skips the length of the sequence without looking at it. */
  function LaxParse(s: seq<Byte>): Pair {
    if |s| < 2 || s[0] != 0x30 then NoPair
    else
      var k := if s[1] < 0x80 then 2 else 2 + (s[1] - 0x80);
      if k > |s| then NoPair else LaxBody(s[k..])
  }

  method SignatureParseDerLax(input: seq<Byte>) returns (ok: bool, r: nat, s: nat)
    requires |input| < TWO63
    ensures ok <==> LaxParse(input).Pair?
    ensures ok ==> LaxParse(input) == Pair(r, s)
    ensures !ok ==> r == s == 0
  {
    r, s := 0, 0;
    var pos := 0;
    if pos == |input| || input[pos] != 0x30 {
      return false, r, s;
    }
    pos := pos + 1;
    if pos == |input| {
      return false, r, s;
    }
    var lenbyte := input[pos];
    pos := pos + 1;
    if lenbyte >= 0x80 {
      lenbyte := lenbyte - 0x80;
      if pos + lenbyte > |input| {
        return false, r, s;
      }
      pos := pos + lenbyte;
    }
    assert LaxParse(input) == LaxBody(input[pos..]);
    ok, r, s := LaxIntegers(input, pos);
  }

  method LaxIntegers(input: seq<Byte>, start: nat) returns (ok: bool, r: nat, s: nat)
    requires start <= |input| < TWO63
    ensures ok <==> LaxBody(input[start..]).Pair?
    ensures ok ==> LaxBody(input[start..]) == Pair(r, s)
    ensures !ok ==> r == s == 0
  {
    r, s := 0, 0;
    var rpos, rlen, spos, slen;
    ok, rpos, rlen := LaxReadInteger(input, start);
    if !ok {
      return;
    }
    assert input[start..][rpos + rlen - start..] == input[rpos + rlen..];
    ok, spos, slen := LaxReadInteger(input, rpos + rlen);
    if !ok {
      return;
    }
    rpos, rlen := SkipZeros(input, rpos, rlen);
    var wideR, wideS;
    r, wideR := CopyScalar(input, rpos, rlen);
    spos, slen := SkipZeros(input, spos, slen);
    s, wideS := CopyScalar(input, spos, slen);
    if wideR || wideS {
      r, s := 0, 0;
    }
  }

  lemma LaxLengthComplete(n: nat, rest: seq<Byte>, s: seq<Byte>)
    requires n < TWO31 && s == LengthOctets(n) + rest
    ensures LaxLength(s) == Length(n, |LengthOctets(n)|)
  {
    assert Pow256(7) > TWO31;
    if n >= 128 {
      MinimalValue(n);
      MinimalShort(n);
      assert s[1..1 + |Minimal(n)|] == Minimal(n);
    }
  }

  lemma LaxIntegerComplete(b: seq<Byte>, rest: seq<Byte>, s: seq<Byte>)
    requires |b| < TWO31 && s == Tlv(2, b) + rest
    ensures LaxInteger(s) == Octets(b, |Tlv(2, b)|)
  {
    var l := LengthOctets(|b|);
    assert s[1..] == l + (b + rest);
    LaxLengthComplete(|b|, b + rest, s[1..]);
    assert s[1 + |l|..1 + |l| + |b|] == b;
  }

  lemma LaxBodyComplete(br: seq<Byte>, bs: seq<Byte>, body: seq<Byte>)
    requires |body| < TWO31 && body == PairBody(br, bs)
    ensures LaxBody(body) == LaxPair(br, bs)
  {
    var tail := body[|Tlv(2, br)|..];
    assert tail == Tlv(2, bs) == Tlv(2, bs) + [];
    LaxIntegerComplete(br, tail, body);
    LaxIntegerComplete(bs, [], tail);
  }

  lemma LaxDer(br: seq<Byte>, bs: seq<Byte>, s: seq<Byte>)
    requires |PairBody(br, bs)| < TWO31 && s == DerPair(br, bs)
    ensures LaxParse(s) == LaxPair(br, bs)
  {
    var body := PairBody(br, bs);
    var l := LengthOctets(|body|);
    assert s[1] == l[0] && s[1 + |l|..] == body;
    LaxBodyComplete(br, bs, s[1 + |l|..]);
  }

  /** Both parsers make the same of these octets: the lax one ignores signs, and one integer out of range makes both scalars 0. */
  predicate SameReading(br: seq<Byte>, bs: seq<Byte>)
    requires br != [] && bs != []
  {
    if BE(br) < N && BE(bs) < N then br[0] < 0x80 && bs[0] < 0x80
    else ReadAsZero(br) && ReadAsZero(bs)
  }

  /** Negative, out of range or 0. */
  predicate ReadAsZero(b: seq<Byte>)
    requires b != []
  {
    b[0] >= 0x80 || BE(b) >= N || BE(b) == 0
  }

  lemma NegativeNotZero(b: seq<Byte>)
    requires b != [] && b[0] >= 0x80
    ensures BE(b) > 0
  {
    BETop(b);
  }

  /** On every input that the strict parser accepts the lax one reads the same octets; they agree exactly if these are of the kind above. */
  lemma LaxAgreesIff(br: seq<Byte>, bs: seq<Byte>, input: seq<Byte>)
    requires IntegerOctets(br) && IntegerOctets(bs) && |PairBody(br, bs)| < TWO31 && input == DerPair(br, bs)
    ensures Parse(input) == Pair(ScalarOf(br), ScalarOf(bs)) && LaxParse(input) == LaxPair(br, bs)
    ensures LaxParse(input) == Parse(input) <==> SameReading(br, bs)
  {
    ParseComplete(br, bs, input);
    LaxDer(br, bs, input);
    if br[0] >= 0x80 {
      NegativeNotZero(br);
    }
    if bs[0] >= 0x80 {
      NegativeNotZero(bs);
    }
  }

  /** Every accepted input is one of those, so the lax parser accepts it too, and finds the same scalars if both are not 0. */
  lemma LaxAgrees(input: seq<Byte>) returns (br: seq<Byte>, bs: seq<Byte>)
    requires Parse(input).Pair?
    ensures IntegerOctets(br) && IntegerOctets(bs) && |PairBody(br, bs)| < TWO31 && input == DerPair(br, bs)
    ensures LaxParse(input).Pair? && (LaxParse(input) == Parse(input) <==> SameReading(br, bs))
    ensures Parse(input).r != 0 && Parse(input).s != 0 ==> SameReading(br, bs)
  {
    br, bs := ParseSound(input);
    LaxAgreesIff(br, bs, input);
  }

  /** A negative integer is read as 0 by the strict parser and without its sign by the lax one. */
  lemma LaxIgnoresSign(input: seq<Byte>)
    requires input == DerPair([0x81], [0x01])
    ensures Parse(input) == Pair(0, 1) && LaxParse(input) == Pair(0x81, 1)
  {
    OneByte([0x81]);
    OneByte([0x01]);
    LaxAgreesIff([0x81], [0x01], input);
  }

  /** An integer out of range leaves the other scalar alone in the strict parser, not in the lax one. */
  lemma LaxDropsBoth(input: seq<Byte>)
    requires input == DerSig(N, 1)
    ensures Parse(input) == Pair(0, 1) && LaxParse(input) == Pair(0, 0)
  {
    ContentValue(N);
    ContentValue(1);
    ContentShort(N);
    LaxAgreesIff(Content(N), Content(1), input);
  }
}
