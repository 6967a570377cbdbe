/** The windowed non-adjacent form of a scalar. */
module Wnaf {
  import opened Bits
  import opened Scalar4x64

  /** sum(2^i * d[i]) */
  ghost function DigitSum(d: seq<int>): int {
    if |d| == 0 then 0 else d[0] + 2 * DigitSum(d[1..])
  }

  lemma {:induction false} DigitSumAppend(d: seq<int>, e: seq<int>)
    ensures DigitSum(d + e) == DigitSum(d) + Pow2(|d|) * DigitSum(e)
  {
    if |d| == 0 {
      assert d + e == e;
    } else {
      assert (d + e)[1..] == d[1..] + e;
      DigitSumAppend(d[1..], e);
      assert 2 * (Pow2(|d| - 1) * DigitSum(e)) == Pow2(|d|) * DigitSum(e);
    }
  }

  lemma {:induction false} DigitSumZeros(d: seq<int>)
    requires forall i :: 0 <= i < |d| ==> d[i] == 0
    ensures DigitSum(d) == 0
  {
    if |d| > 0 {
      DigitSumZeros(d[1..]);
    }
  }

  /** Scalars with bit 255 set stand for the negative number a - n. */
  function SignedScalar(a: int): int {
    if a >= 0x8000000000000000000000000000000000000000000000000000000000000000 then a - N else a
  }

  function Abs(x: int): nat {
    if x < 0 then -x else x
  }

  ghost predicate WnafDigit(d: int, w: nat)
    requires w >= 1
  {
    d == 0 || (d % 2 == 1 && -(Pow2(w - 1) - 1) <= d <= Pow2(w - 1) - 1)
  }

  /** Any two nonzero digits are at least w places apart. */
  ghost predicate Spaced(d: seq<int>, w: nat) {
    forall i, j :: 0 <= i < j < |d| && d[i] != 0 && d[j] != 0 ==> j - i >= w
  }

  function GetBits(s: nat, offset: nat, count: nat): nat {
    (s / Pow2(offset)) % Pow2(count)
  }

  lemma TopBit(x: int, h: int)
    requires 0 <= x < 2 * h
    ensures (x / h) % 2 == if x >= h then 1 else 0
  {
    if x >= h {
      QuotientIs(x, h, 1, x - h);
    } else {
      QuotientIs(x, h, 0, x);
    }
  }

  /** rem = k * q + low with an even k: the parity is that of the low part. */
  lemma LowPart(rem: nat, h: nat) returns (q: nat, low: nat)
    requires h > 0
    ensures low == rem % (2 * h) && q == rem / (2 * h) && rem == (2 * h) * q + low
    ensures low < 2 * h && low % 2 == rem % 2
  {
    q, low := rem / (2 * h), rem % (2 * h);
    assert rem == 2 * (h * q) + low;
  }

  lemma {:induction false} Pow2AtMost(j: nat, k: nat)
    requires j <= k
    ensures Pow2(j) <= Pow2(k)
  {
    if j < k {
      Pow2Monotone(j, k);
    }
  }

  /** The window arithmetic with k2 = 2^(now-1), h2 = 2^(w-2) and the low bits of what remains. */
  lemma WindowCore(low: nat, carry: int, k2: nat, h2: nat, full: bool) returns (word: int, carry': int)
    requires k2 > 0 && h2 > 0 && 0 <= carry <= 1 && low % 2 != carry && low < 2 * k2
    requires if full then k2 == 2 * h2 else k2 <= h2
    ensures carry' == if low + carry >= 2 * h2 then 1 else 0
    ensures word == low + carry - carry' * (4 * h2)
    ensures low + carry < 2 * k2 && (!full ==> carry' == 0)
    ensures word % 2 == 1 && -(2 * h2 - 1) <= word <= 2 * h2 - 1
    ensures low + carry == word + carry' * (2 * k2)
  {
    carry' := if low + carry >= 2 * h2 then 1 else 0;
    word := low + carry - carry' * (4 * h2);
  }

  lemma DistributeSum(k: int, q: int, c: int)
    ensures k * (q + c) == k * q + c * k
  {
  }

  /** One digit: the window of what remains, brought into the signed range with a carry. */
  lemma WindowDigit(rem: nat, carry: int, w: nat, now: nat) returns (word: int, carry': int)
    requires 2 <= w && 1 <= now <= w && 0 <= carry <= 1 && rem % 2 != carry
    ensures var x := rem % Pow2(now) + carry; carry' == (x / Pow2(w - 1)) % 2 && word == x - carry' * Pow2(w)
    ensures 0 <= carry' <= 1 && (now < w ==> carry' == 0)
    ensures word % 2 == 1 && -(Pow2(w - 1) - 1) <= word <= Pow2(w - 1) - 1
    ensures rem + carry == word + Pow2(now) * (rem / Pow2(now) + carry')
  {
    var k2, h2 := Pow2(now - 1), Pow2(w - 2);
    assert Pow2(now) == 2 * k2 && Pow2(w - 1) == 2 * h2 && Pow2(w) == 4 * h2;
    if now < w {
      Pow2AtMost(now - 1, w - 2);
    }
    var q, low := LowPart(rem, k2);
    word, carry' := WindowCore(low, carry, k2, h2, now == w);
    TopBit(low + carry, Pow2(w - 1));
    DistributeSum(Pow2(now), q, carry');
  }

  /** s >> bit, one place at a time. */
  ghost function Rest(s: nat, bit: nat): nat {
    if bit == 0 then s else Rest(s, bit - 1) / 2
  }

  /** 2^k * x, one place at a time. */
  ghost function Scale(k: nat, x: int): int {
    if k == 0 then x else 2 * Scale(k - 1, x)
  }

  /** The number that the digits d (with their sign taken off) and t units above them stand for. */
  ghost function Horner(neg: bool, d: seq<int>, t: int): int {
    if |d| == 0 then t else (if neg then -d[0] else d[0]) + 2 * Horner(neg, d[1..], t)
  }

  lemma {:induction false} RestIs(s: nat, bit: nat)
    ensures Rest(s, bit) == s / Pow2(bit)
  {
    if bit > 0 {
      RestIs(s, bit - 1);
      ShiftMore(s, bit - 1, 1);
      assert Pow2(1) == 2;
    }
  }

  lemma {:induction false} ScaleIs(k: nat, x: int)
    ensures Scale(k, x) == Pow2(k) * x
  {
    if k > 0 {
      ScaleIs(k - 1, x);
    }
  }

  lemma {:induction false} HornerAppend(neg: bool, d: seq<int>, e: seq<int>, t: int)
    ensures Horner(neg, d + e, t) == Horner(neg, d, Horner(neg, e, t))
  {
    if |d| == 0 {
      assert d + e == e;
    } else {
      assert (d + e)[1..] == d[1..] + e;
      HornerAppend(neg, d[1..], e, t);
    }
  }

  lemma {:induction false} HornerZeros(neg: bool, d: seq<int>, t: int)
    requires forall i :: 0 <= i < |d| ==> d[i] == 0
    ensures Horner(neg, d, t) == Scale(|d|, t)
  {
    if |d| > 0 {
      HornerZeros(neg, d[1..], t);
    }
  }

  lemma TwicePower(n: nat, t: int)
    requires n > 0
    ensures Pow2(n) * t == 2 * (Pow2(n - 1) * t)
  {
    var p := Pow2(n - 1);
    assert (2 * p) * t == 2 * (p * t);
  }

  lemma {:induction false} HornerIsSum(neg: bool, d: seq<int>, t: int)
    ensures Horner(neg, d, t) == (if neg then -DigitSum(d) else DigitSum(d)) + Pow2(|d|) * t
  {
    if |d| > 0 {
      HornerIsSum(neg, d[1..], t);
      TwicePower(|d|, t);
    }
  }

  /** The number has at most len - 1 bits. */
  ghost predicate Fits(s: nat, len: nat) {
    len > 0 && s < Pow2(len - 1)
  }

  /** When the number fits, nothing is left beyond len - 1 bits. */
  lemma RestFits(s: nat, len: nat, bit: nat)
    requires Fits(s, len) && bit < len
    ensures Rest(s, bit) < Pow2(len - 1 - bit)
  {
    RestIs(s, bit);
    Pow2Add(bit, len - 1 - bit);
    QuotientBelow(s, Pow2(bit), Pow2(len - 1 - bit));
  }

  lemma QuotientBelow(s: nat, p: nat, h: nat)
    requires p > 0 && s < p * h
    ensures s / p < h
  {
    assert s == p * (s / p) + s % p;
    assert p * (s / p) < p * h;
  }

  method GetBit(s: nat, bit: nat) returns (b: int)
    ensures b == Rest(s, bit) % 2
  {
    b := GetBits(s, bit, 1);
    RestIs(s, bit);
    assert Pow2(1) == 2;
  }

  /** Reads the window at bit and turns it into a signed digit and a carry. */
  method ReadWindow(s: nat, bit: nat, now: nat, w: nat, carry: int, ghost len: nat) returns (word: int, carry': int)
    requires 2 <= w <= 30 && 1 <= now <= w && 0 <= carry <= 1 && Rest(s, bit) % 2 != carry
    ensures 0 <= carry' <= 1 && WnafDigit(word, w)
    ensures Rest(s, bit) + carry == word + Scale(now, Rest(s, bit + now) + carry')
    ensures carry' == 1 ==> Rest(s, bit + now - 1) > 0
    ensures Fits(s, len) && bit + now == len ==> carry' == 0
  {
    WindowWidths(now, w);
    word := Int32(GetBits(s, bit, now) + carry);
    WindowValue(s, bit, now, w, carry, word);
    carry' := (word / Pow2(w - 1)) % 2;
    WindowCarry(s, bit, now, w, carry, len, word);
    word := Int32(word - Int32(carry' * Pow2(w)));
  }

  /** The window x gives a digit and a carry that stand for the bits read. */
  lemma WindowValue(s: nat, bit: nat, now: nat, w: nat, carry: int, x: int)
    requires 2 <= w && 1 <= now <= w && 0 <= carry <= 1 && Rest(s, bit) % 2 != carry && x == GetBits(s, bit, now) + carry
    ensures var c := (x / Pow2(w - 1)) % 2;
      && 0 <= c <= 1 && (now < w ==> c == 0) && WnafDigit(x - c * Pow2(w), w)
      && Rest(s, bit) + carry == x - c * Pow2(w) + Scale(now, Rest(s, bit + now) + c)
  {
    RestIs(s, bit);
    RestIs(s, bit + now);
    ShiftMore(s, bit, now);
    var v, c := WindowDigit(Rest(s, bit), carry, w, now);
    ScaleIs(now, Rest(s, bit + now) + c);
  }

  /** A carry means that the top bit of a full window is set, and a number that fits leaves none at the end. */
  lemma WindowCarry(s: nat, bit: nat, now: nat, w: nat, carry: int, len: nat, x: int)
    requires 2 <= w && 1 <= now <= w && 0 <= carry <= 1 && Rest(s, bit) % 2 != carry && x == GetBits(s, bit, now) + carry
    requires now < w ==> (x / Pow2(w - 1)) % 2 == 0
    ensures (x / Pow2(w - 1)) % 2 == 1 ==> Rest(s, bit + now - 1) > 0
    ensures Fits(s, len) && bit + now == len ==> (x / Pow2(w - 1)) % 2 == 0
  {
    var rem := Rest(s, bit);
    RestIs(s, bit);
    if now == w {
      if (x / Pow2(w - 1)) % 2 == 1 {
        TopOfWindow(rem, carry, w);
        RestIs(s, bit + now - 1);
        ShiftMore(s, bit, now - 1);
      }
      if Fits(s, len) && bit + now == len {
        RestFits(s, len, bit);
        NoLastCarry(rem, carry, w);
      }
    }
  }

  lemma WindowWidths(now: nat, w: nat)
    requires 1 <= now <= w <= 30
    ensures Pow2(now) <= Pow2(w) <= 0x40000000
  {
    Pow2AtMost(now, w);
    var k :| 29 < k < 31;
    Pow2AtMost(w, k);
    PowerOf30(k);
  }

  lemma PowerOf30(k: nat)
    requires 29 < k < 31
    ensures Pow2(k) == 0x40000000
  {
    var j := k - 24;
    Pow2Plus8(j + 16);
    Pow2Plus8(j + 8);
    Pow2Plus8(j);
    assert Pow2(6) == 64;
  }

  /** A window that leaves a carry has its top bit set. */
  lemma TopOfWindow(rem: nat, carry: int, w: nat)
    requires 2 <= w && 0 <= carry <= 1 && rem % 2 != carry && ((rem % Pow2(w) + carry) / Pow2(w - 1)) % 2 == 1
    ensures rem / Pow2(w - 1) > 0
  {
    var h := Pow2(w - 1);
    if rem < h {
      NoLastCarry(rem, carry, w);
    } else {
      AtLeastOnce(rem, h);
    }
  }

  lemma AtLeastOnce(x: nat, h: nat)
    requires 0 < h <= x
    ensures x / h >= 1
  {
    QuotientIs(x, h, x / h, x % h);
  }

  lemma NoLastCarry(rem: nat, carry: int, w: nat)
    requires 2 <= w && 0 <= carry <= 1 && rem % 2 != carry && rem < Pow2(w - 1)
    ensures ((rem % Pow2(w) + carry) / Pow2(w - 1)) % 2 == 0
  {
    assert Pow2(w) == 2 * Pow2(w - 1) && Pow2(w - 1) == 2 * Pow2(w - 2);
    NoCarryBelow(rem, carry, Pow2(w - 2), Pow2(w - 1), Pow2(w));
  }

  lemma NoCarryBelow(rem: nat, carry: int, q: nat, h: nat, p: nat)
    requires 0 < q && h == 2 * q && p == 2 * h && 0 <= carry <= 1 && rem % 2 != carry && rem < h
    ensures ((rem % p + carry) / h) % 2 == 0
  {
    QuotientIs(rem, p, 0, rem);
    QuotientIs(rem + carry, h, 0, rem + carry);
  }

  /** Invariant of the main loop: the digits below bit and what is left above it make up s. */
  ghost predicate Recoding(d: seq<int>, s: nat, neg: bool, w: nat, bit: nat, last: int, carry: int)
    requires w >= 1
  {
    && bit <= |d| && -1 <= last < |d| && last <= bit && 0 <= carry <= 1
    && (last >= 0 ==> bit == |d| || last + w <= bit)
    && (forall i :: last < i < |d| ==> d[i] == 0)
    && (forall i :: 0 <= i < |d| ==> WnafDigit(d[i], w))
    && Spaced(d, w)
    && Horner(neg, d[..bit], Rest(s, bit) + carry) == s
    && (Fits(s, |d|) && bit == |d| ==> carry == 0)
  }

  lemma SkipStep(d: seq<int>, s: nat, neg: bool, w: nat, bit: nat, last: int, carry: int)
    requires w >= 1 && bit < |d| && Recoding(d, s, neg, w, bit, last, carry) && Rest(s, bit) % 2 == carry
    ensures Recoding(d, s, neg, w, bit + 1, last, carry)
  {
    assert last < bit;
    assert d[..bit + 1] == d[..bit] + [0];
    SkipBit(neg, d[..bit], Rest(s, bit), carry);
    if Fits(s, |d|) && bit + 1 == |d| {
      RestFits(s, |d|, bit);
    }
  }

  lemma WindowStep(d: seq<int>, s: nat, neg: bool, w: nat, bit: nat, last: int, carry: int,
      now: nat, word: int, carry': int)
    requires w >= 2 && bit < |d| && Recoding(d, s, neg, w, bit, last, carry)
    requires 1 <= now && (now == w || bit + now == |d|) && bit + now <= |d|
    requires 0 <= carry' <= 1 && WnafDigit(word, w)
    requires Rest(s, bit) + carry == word + Scale(now, Rest(s, bit + now) + carry')
    requires Fits(s, |d|) && bit + now == |d| ==> carry' == 0
    ensures Recoding(d[bit := if neg then -word else word], s, neg, w, bit + now, bit, carry')
  {
    var e := d[bit := if neg then -word else word];
    WindowHorner(d, neg, bit, now, word, Rest(s, bit) + carry, Rest(s, bit + now) + carry', last);
    StillSpaced(d, w, bit, last, e);
    NegatedDigit(word, w);
  }

  lemma NegatedDigit(word: int, w: nat)
    requires w >= 1 && WnafDigit(word, w)
    ensures WnafDigit(-word, w)
  {
  }

  lemma WindowHorner(d: seq<int>, neg: bool, bit: nat, now: nat, word: int, rest: int, after: int, last: int)
    requires bit + now <= |d| && 1 <= now && -1 <= last < bit && forall i :: last < i < |d| ==> d[i] == 0
    requires rest == word + Scale(now, after)
    ensures Horner(neg, d[bit := if neg then -word else word][..bit + now], after) == Horner(neg, d[..bit], rest)
  {
    var e := d[bit := if neg then -word else word];
    var tail := e[bit..bit + now];
    assert e[..bit + now] == d[..bit] + tail;
    TakeWindow(neg, d[..bit], tail, rest, after, word);
  }

  lemma StillSpaced(d: seq<int>, w: nat, bit: nat, last: int, e: seq<int>)
    requires Spaced(d, w) && bit < |d| == |e| && -1 <= last < bit && (last >= 0 ==> last + w <= bit)
    requires forall i :: last < i < |d| ==> d[i] == 0
    requires forall i :: 0 <= i < |d| && i != bit ==> e[i] == d[i]
    ensures Spaced(e, w)
  {
    forall i, j | 0 <= i < j < |e| && e[i] != 0 && e[j] != 0
      ensures j - i >= w
    {
      if j != bit {
        assert d[i] == e[i] && d[j] == e[j];
      }
    }
  }

  /** A digit is set where a bit is, or one place above. */
  lemma DigitReaches(s: nat, bit: nat, carry: int)
    requires 0 <= carry <= 1 && Rest(s, bit) % 2 != carry && (carry == 1 ==> bit >= 1 && Rest(s, bit - 1) > 0)
    ensures bit >= 1 ==> Rest(s, bit - 1) > 0
  {
  }

  /** The main loop, on a nonnegative number whose digits are stored with the given sign. */
  method Recode(wnaf: array<int>, s: nat, neg: bool, w: nat) returns (last: int, carry: int)
    requires 2 <= w <= 30 && forall i :: 0 <= i < wnaf.Length ==> wnaf[i] == 0
    modifies wnaf
    ensures Recoding(wnaf[..], s, neg, w, wnaf.Length, last, carry)
    ensures last >= 1 ==> Rest(s, last - 1) > 0
  {
    var len, bit := wnaf.Length, 0;
    last, carry := -1, 0;
    while bit < len
      invariant 0 <= bit <= len
      invariant Recoding(wnaf[..], s, neg, w, bit, last, carry)
      invariant carry == 1 ==> bit >= 1 && Rest(s, bit - 1) > 0
      invariant last >= 1 ==> Rest(s, last - 1) > 0
    {
      ghost var d := wnaf[..];
      var b := GetBit(s, bit);
      if b == carry {
        SkipStep(d, s, neg, w, bit, last, carry);
        bit := bit + 1;
        continue;
      }
      DigitReaches(s, bit, carry);
      var next, carry' := StoreDigit(wnaf, s, neg, w, bit, last, carry);
      last, carry, bit := bit, carry', next;
    }
  }

  /** Stores the digit of the window at bit; next is the place after it. */
  method StoreDigit(wnaf: array<int>, s: nat, neg: bool, w: nat, bit: nat, ghost last: int, carry: int) returns (next: nat, carry': int)
    requires 2 <= w <= 30 && bit < wnaf.Length && Recoding(wnaf[..], s, neg, w, bit, last, carry) && Rest(s, bit) % 2 != carry
    modifies wnaf
    ensures bit < next <= wnaf.Length && Recoding(wnaf[..], s, neg, w, next, bit, carry')
    ensures carry' == 1 ==> Rest(s, next - 1) > 0
  {
    ghost var d := wnaf[..];
    var len := wnaf.Length;
    var now := if w > len - bit then len - bit else w;
    var word;
    word, carry' := ReadWindow(s, bit, now, w, carry, len);
    WindowStep(d, s, neg, w, bit, last, carry, now, word, carry');
    wnaf[bit] := if neg then -word else word;
    assert wnaf[..] == d[bit := if neg then -word else word];
    next := bit + now;
  }

  lemma SkipBit(neg: bool, before: seq<int>, rem: nat, carry: int)
    requires rem % 2 == carry
    ensures Horner(neg, before + [0], rem / 2 + carry) == Horner(neg, before, rem + carry)
  {
    HornerAppend(neg, before, [0], rem / 2 + carry);
    assert Horner(neg, [0][1..], rem / 2 + carry) == rem / 2 + carry;
  }

  lemma TakeWindow(neg: bool, before: seq<int>, tail: seq<int>, rest: int, rest': int, word: int)
    requires |tail| > 0 && tail[0] == (if neg then -word else word)
    requires forall i :: 1 <= i < |tail| ==> tail[i] == 0
    requires rest == word + Scale(|tail|, rest')
    ensures Horner(neg, before + tail, rest') == Horner(neg, before, rest)
  {
    HornerAppend(neg, before, tail, rest');
    HornerZeros(neg, tail[1..], rest');
  }

  lemma ProductOfNats(p: nat, t: nat)
    ensures p * t >= 0 && (t == 0 ==> p * t == 0)
  {
  }

  lemma SmallQuotient(s: nat, p: nat)
    requires s < p
    ensures s / p == 0
  {
  }

  lemma Finish(neg: bool, d: seq<int>, s: nat, carry: int, v: int)
    requires Horner(neg, d, Rest(s, |d|) + carry) == s && 0 <= carry
    requires v == if neg then 0 - s else s
    ensures Abs(v - DigitSum(d)) == Pow2(|d|) * (s / Pow2(|d|) + carry)
    ensures Fits(s, |d|) && carry == 0 ==> DigitSum(d) == v
  {
    var p, t := Pow2(|d|), Rest(s, |d|) + carry;
    HornerIsSum(neg, d, t);
    RestIs(s, |d|);
    ProductOfNats(p, t);
    if Fits(s, |d|) && carry == 0 {
      Pow2AtMost(|d| - 1, |d|);
      SmallQuotient(s, p);
    }
  }

  /** A digit stands at most one place above the highest bit. */
  lemma LengthBound(s: nat, last: int, k: nat)
    requires s < Pow2(k) && (last >= 1 ==> Rest(s, last - 1) > 0)
    ensures last <= k
  {
    if last > k {
      RestIs(s, last - 1);
      Pow2AtMost(k, last - 1);
      SmallQuotient(s, Pow2(last - 1));
    }
  }

  /** The shift of the carry by w places needs w <= 30: for w = 31 its result is no int. */
  method EcmultWnaf(wnaf: array<int>, a: int, w: nat) returns (bits: int, ghost left: int)
    requires wnaf.Length <= 256 && 2 <= w <= 30 && 0 <= a < N
    modifies wnaf
    ensures 0 <= bits <= wnaf.Length && 0 <= left <= 1
    ensures forall k: nat :: Abs(SignedScalar(a)) < Pow2(k) ==> bits <= k + 1
    ensures forall i :: bits <= i < wnaf.Length ==> wnaf[i] == 0
    ensures forall i :: 0 <= i < wnaf.Length ==> WnafDigit(wnaf[i], w)
    ensures Spaced(wnaf[..], w)
    ensures var s, len := Abs(SignedScalar(a)), wnaf.Length;
      Abs(SignedScalar(a) - DigitSum(wnaf[..])) == Pow2(len) * (s / Pow2(len) + left)
    ensures Fits(Abs(SignedScalar(a)), wnaf.Length) ==> left == 0 && DigitSum(wnaf[..]) == SignedScalar(a)
  {
    var s, neg := a, false;
    for i := 0 to wnaf.Length
      invariant forall j :: 0 <= j < i ==> wnaf[j] == 0
    {
      wnaf[i] := 0;
    }
    if s >= 0x8000000000000000000000000000000000000000000000000000000000000000 {
      s := N - s;
      neg := true;
    }
    var last, carry := Recode(wnaf, s, neg, w);
    assert wnaf[..wnaf.Length] == wnaf[..];
    Finish(neg, wnaf[..], s, carry, SignedScalar(a));
    forall k: nat | s < Pow2(k)
      ensures last <= k
    {
      LengthBound(s, last, k);
    }
    bits, left := last + 1, carry;
  }
}
