/** Constant-time multiplication: odd digits only, and no doubling of the identity. */
module EcmultConst {
  import opened Bits
  import opened Group
  import opened Scalar4x64
  import opened ScalarOps
  import opened LambdaSplit
  import opened Wnaf
  import opened Ecmult

  /** 1 for scalars that become odd by adding 1 (after the sign is settled), 2 for the others. */
  function SkewOf(v: int): int {
    if (v > HALF) == (v % 2 == 1) then 1 else 2
  }

  /** The odd positive number whose digits are computed. */
  function OddPart(v: int): int {
    if v == N - 1 then 1 else if v > HALF then N - (v + SkewOf(v)) else v + SkewOf(v)
  }

  function GlobalSign(v: int): int {
    if v == N - 1 then 1 else if v > HALF then -1 else 1
  }

  lemma OddPartIs(v: int)
    requires 0 <= v < N
    ensures 0 < OddPart(v) <= HALF + 2 && OddPart(v) % 2 == 1
    ensures exists k: int :: GlobalSign(v) * OddPart(v) == v + SkewOf(v) + k * N
  {
    var k := if v >= HALF + 1 then -1 else 0;
    assert GlobalSign(v) * OddPart(v) == v + SkewOf(v) + k * N;
  }

  method IsOne(a: seq<int>) returns (one: bool)
    requires IsScalar(a)
    ensures one <==> Value(a) == 1
  {
    ValueOf(a);
    one := a[0] == 1 && a[1] == 0 && a[2] == 0 && a[3] == 0;
  }

  method IsEven(a: seq<int>) returns (even: bool)
    requires IsScalar(a)
    ensures even <==> Value(a) % 2 == 0
  {
    ValueOf(a);
    even := a[0] % 2 == 0;
  }

  /** Steps 1 to 3: makes s odd and at most half the order, in place. */
  method MakeOdd(s: array<int>) returns (sign: int, skew: int)
    requires s.Length == 4 && IsScalar(s[..]) && Value(s[..]) < N
    modifies s
    ensures IsScalar(s[..]) && Value(s[..]) == old(OddPart(Value(s[..])))
    ensures sign == old(GlobalSign(Value(s[..]))) && skew == old(SkewOf(Value(s[..])))
  {
    ghost var v := Value(s[..]);
    ValueBound(s[..]);
    var flip := IsHigh(s[..]);
    var even := IsEven(s[..]);
    var bit := if flip != !even then 1 else 0;
    var neg := new int[4];
    ScalarNegate(neg, s);
    var one := IsOne(neg[..]);
    assert Pow2(0) == 1 && Pow2(1) == 2;
    assert (if bit == 1 then 2 else 1) == SkewOf(v);
    assert one <==> v == N - 1;
    CaddBit(s, bit, !one);
    sign := CondNegate(s, flip);
    sign := sign * (if one then -1 else 1);
    skew := if bit == 1 then 2 else 1;
  }

  /** sum(k^i * d[i]) plus t units above the digits. */
  ghost function HornerK(k: int, d: seq<int>, t: int): int {
    if |d| == 0 then t else d[0] + k * HornerK(k, d[1..], t)
  }

  /** s divided by k, j times. */
  ghost function RestK(k: int, s: int, j: nat): int
    requires k > 0
  {
    if j == 0 then s else RestK(k, s, j - 1) / k
  }

  lemma {:induction false} HornerKAppend(k: int, d: seq<int>, x: int, t: int)
    ensures HornerK(k, d + [x], t) == HornerK(k, d, x + k * t)
  {
    if |d| == 0 {
      assert d + [x] == [x] && [x][1..] == [];
      assert HornerK(k, [x], t) == x + k * HornerK(k, [], t);
    } else {
      assert (d + [x])[1..] == d[1..] + [x];
      HornerKAppend(k, d[1..], x, t);
    }
  }

  ghost predicate ConstDigit(d: int, k: int) {
    d % 2 == 1 && -k < d < k
  }

  /** Steps 4.1 to 4.3: an even digit u is made odd by moving one unit of 2^w between neighbours. */
  method NextDigit(u_last: int, u: int, k: int) returns (digit: int, next: int)
    requires k > 0 && k % 2 == 0 && u_last % 2 == 1 && -1 <= u_last < k && 0 <= u < k
    ensures ConstDigit(digit, k) && next % 2 == 1 && -1 <= next < k
    ensures digit + k * next == u_last + k * u
  {
    var even := if u % 2 == 0 then 1 else 0;
    var sign := if u_last > 0 then 1 else -1;
    next := u + sign * even;
    digit := u_last - sign * even * k;
    if u % 2 == 0 {
      assert k * next == k * u + sign * k;
    }
  }

  function WnafSize(bits: nat, w: nat): nat
    requires w > 0
  {
    (bits + w - 1) / w
  }

  lemma WordsLeft(bits: nat, w: nat, word: nat)
    requires w > 0
    ensures word * w < bits <==> word < WnafSize(bits, w)
  {
    var n := WnafSize(bits, w);
    assert n * w <= bits + w - 1 < n * w + w;
    if word < n {
      assert word * w <= (n - 1) * w;
    } else {
      assert word * w >= n * w;
    }
  }

  /** What the loop of wnaf_const keeps: the digits so far and what is left make up the number s. */
  ghost predicate ConstRecoding(k: int, s: nat, ds: seq<int>, u_last: int, rest: int)
    requires k > 0
  {
    && (forall j :: 0 <= j < |ds| ==> ConstDigit(ds[j], k))
    && u_last % 2 == 1 && -1 <= u_last < k
    && HornerK(k, ds, u_last + k * rest) == s
    && rest == RestK(k, s, |ds| + 1)
  }

  lemma MoveUnit(k: int, u_last: int, u: int, rest: int, rest': int, digit: int, next: int)
    requires rest == u + k * rest' && digit + k * next == u_last + k * u
    ensures digit + k * (next + k * rest') == u_last + k * rest
  {
    var x := k * rest';
    assert rest == x + u;
    assert k * (next + x) == k * next + k * x;
    assert k * (x + u) == k * x + k * u;
  }

  lemma StepRecoding(k: int, s: nat, ds: seq<int>, u_last: int, rest: int, u: int, rest': int, digit: int, next: int)
    requires k > 0 && ConstRecoding(k, s, ds, u_last, rest) && rest == u + k * rest' && 0 <= u < k
    requires ConstDigit(digit, k) && next % 2 == 1 && -1 <= next < k && digit + k * next == u_last + k * u
    ensures ConstRecoding(k, s, ds + [digit], next, rest')
  {
    MoveUnit(k, u_last, u, rest, rest', digit, next);
    StepHorner(k, s, ds, digit, u_last + k * rest, next + k * rest');
    StepRest(k, s, |ds| + 1, rest, u, rest');
  }

  lemma StepHorner(k: int, s: int, ds: seq<int>, digit: int, t: int, t': int)
    requires t == digit + k * t' && HornerK(k, ds, t) == s
    ensures HornerK(k, ds + [digit], t') == s
  {
    HornerKAppend(k, ds, digit, t');
  }

  lemma StepRest(k: int, s: nat, j: nat, rest: int, u: int, rest': int)
    requires k > 0 && rest == RestK(k, s, j) && rest == u + k * rest' && 0 <= u < k
    ensures rest' == RestK(k, s, j + 1)
  {
    QuotientIs(rest, k, rest', u);
  }

  /** Takes the next w bits off the scalar and makes the digit before them odd. */
  method ConstStep(s: array<int>, w: nat, k: int, u_last: int, ghost v: nat, ghost ds: seq<int>) returns (digit: int, next: int)
    requires 0 < w < 16 && k == Pow2(w) && k % 2 == 0 && s.Length == 4 && IsScalar(s[..])
    requires ConstRecoding(k, v, ds, u_last, Value(s[..]))
    modifies s
    ensures IsScalar(s[..]) && ConstRecoding(k, v, ds + [digit], next, Value(s[..]))
  {
    ghost var rest := Value(s[..]);
    var u := ShrInt(s, w);
    digit, next := NextDigit(u_last, u, k);
    StepRecoding(k, v, ds, u_last, rest, u, Value(s[..]), digit, next);
  }

  method ConstDigits(wnaf: array<int>, s: array<int>, sign: int, w: nat, bits: nat) returns (ghost ds: seq<int>)
    requires 0 < w < 16 && bits > 0 && wnaf.Length == WnafSize(bits, w) + 1
    requires s.Length == 4 && IsScalar(s[..]) && Value(s[..]) % 2 == 1 && wnaf != s
    requires RestK(Pow2(w), Value(s[..]), WnafSize(bits, w) + 1) == 0
    modifies wnaf, s
    ensures |ds| == wnaf.Length && forall j :: 0 <= j < |ds| ==> wnaf[j] == ds[j] * sign
    ensures forall j :: 0 <= j < |ds| ==> ConstDigit(ds[j], Pow2(w))
    ensures HornerK(Pow2(w), ds, 0) == old(Value(s[..]))
  {
    var k := Pow2(w);
    assert k == 2 * Pow2(w - 1);
    ghost var v := Value(s[..]);
    ValueBound(s[..]);
    var u_last := FirstBits(s, w, k);
    ds := [];
    var word := 0;
    var u := u_last;
    ghost var size := WnafSize(bits, w);
    var more := MoreWords(bits, w, word);
    while more
      invariant 0 <= word == |ds| <= size && IsScalar(s[..]) && more == (word < size)
      invariant ConstRecoding(k, v, ds, u_last, Value(s[..]))
      invariant forall j :: 0 <= j < word ==> wnaf[j] == ds[j] * sign
      invariant u == u_last
      decreases size - word
    {
      var digit;
      digit, u := ConstStep(s, w, k, u_last, v, ds);
      wnaf[word] := digit * sign;
      ds := ds + [digit];
      word := word + 1;
      u_last := u;
      more := MoreWords(bits, w, word);
    }
    wnaf[word] := u * sign;
    LastDigit(k, v, ds, u, Value(s[..]));
    ds := ds + [u];
  }

  method FirstBits(s: array<int>, w: nat, k: int) returns (u: int)
    requires 0 < w < 16 && k == Pow2(w) && k % 2 == 0 && s.Length == 4 && IsScalar(s[..]) && Value(s[..]) % 2 == 1 && Value(s[..]) >= 0
    modifies s
    ensures IsScalar(s[..]) && ConstRecoding(k, old(Value(s[..])), [], u, Value(s[..]))
  {
    ghost var v := Value(s[..]);
    u := ShrInt(s, w);
    FirstDigit(k, v, Value(s[..]), u);
  }

  /** Nothing is left of the scalar: the last group of bits is the last digit. */
  lemma LastDigit(k: int, v: nat, ds: seq<int>, u: int, rest: int)
    requires k > 1 && ConstRecoding(k, v, ds, u, rest) && RestK(k, v, |ds| + 1) == 0
    ensures HornerK(k, ds + [u], 0) == v && forall j :: 0 <= j < |ds| + 1 ==> ConstDigit((ds + [u])[j], k)
  {
    HornerKAppend(k, ds, u, 0);
  }

  /** The test of the loop: word * w < bits. */
  method MoreWords(bits: nat, w: nat, word: nat) returns (more: bool)
    requires w > 0
    ensures more <==> word < WnafSize(bits, w)
  {
    WordsLeft(bits, w, word);
    more := word * w < bits;
  }

  lemma FirstDigit(k: int, v: nat, rest: int, u: int)
    requires k > 0 && k % 2 == 0 && v % 2 == 1 && v == u + k * rest && 0 <= u < k
    ensures ConstRecoding(k, v, [], u, rest)
  {
    StepRest(k, v, 0, v, u, rest);
    OddLow(k, v, rest, u);
    HornerOfNone(k, v);
  }

  lemma OddLow(k: int, v: int, rest: int, u: int)
    requires k % 2 == 0 && v % 2 == 1 && v == u + k * rest
    ensures u % 2 == 1
  {
    EvenProduct(k, rest);
  }

  lemma HornerOfNone(k: int, t: int)
    ensures HornerK(k, [], t) == t
  {
  }

  lemma OddPlusEven(x: int, y: int)
    requires x % 2 == 1 && y % 2 == 0
    ensures (x + y) % 2 == 1
  {
  }

  lemma EvenProduct(k: int, v: int)
    requires k % 2 == 0
    ensures (k * v) % 2 == 0
  {
    var h := k / 2;
    assert k * v == 2 * (h * v);
  }

  lemma {:induction false} RestKIs(w: nat, s: nat, j: nat)
    ensures RestK(Pow2(w), s, j) == s / Pow2(w * j)
  {
    if j == 0 {
      assert w * j == 0 && Pow2(0) == 1;
    } else {
      RestKIs(w, s, j - 1);
      assert w * j == w * (j - 1) + w;
      ShiftMore(s, w * (j - 1), w);
    }
  }

  /** A number below 2^(w * j) is used up after j windows. */
  lemma UsedUp(w: nat, s: nat, j: nat, m: nat)
    requires s < Pow2(m) && m <= w * j
    ensures RestK(Pow2(w), s, j) == 0
  {
    RestKIs(w, s, j);
    Pow2AtMost(m, w * j);
    QuotientIs(s, Pow2(w * j), 0, s);
  }

  lemma {:induction false} HornerKSign(k: int, d: seq<int>, e: seq<int>, sign: int)
    requires |d| == |e| && forall j :: 0 <= j < |d| ==> e[j] == d[j] * sign
    ensures HornerK(k, e, 0) == HornerK(k, d, 0) * sign
  {
    if |d| > 0 {
      HornerKSign(k, d[1..], e[1..], sign);
      var h := HornerK(k, d[1..], 0);
      assert d[0] * sign + k * (h * sign) == (d[0] + k * h) * sign;
    }
  }

  /** What the digits from place i upwards are worth, in units of k^i. */
  ghost function UpperK(k: int, d: seq<int>, i: nat): int {
    if i <= |d| then HornerK(k, d[i..], 0) else 0
  }

  lemma UpperKStep(k: int, d: seq<int>, i: nat)
    requires i < |d|
    ensures UpperK(k, d, i) == d[i] + k * UpperK(k, d, i + 1)
  {
    assert d[i..][0] == d[i] && d[i..][1..] == d[i + 1..];
  }

  /** Every proper upper part is odd and about k times smaller than the whole. */
  lemma {:induction false} UpperKBound(k: int, d: seq<int>, i: nat)
    requires k >= 2 && k % 2 == 0 && 1 <= i < |d| && forall j :: 0 <= j < |d| ==> ConstDigit(d[j], k)
    ensures UpperK(k, d, i) % 2 == 1
    ensures k * Abs(UpperK(k, d, i)) <= Abs(UpperK(k, d, 0)) + k - 1
    decreases i
  {
    UpperKOdd(k, d, i);
    UpperKStep(k, d, i - 1);
    var u, v := UpperK(k, d, i - 1), UpperK(k, d, i);
    Shrink(k, d[i - 1], u, v);
    if i > 1 {
      UpperKBound(k, d, i - 1);
      ShrinkMore(k, Abs(u));
    }
  }

  lemma Shrink(k: int, d: int, u: int, v: int)
    requires k > 0 && -k < d < k && u == d + k * v
    ensures k * Abs(v) <= Abs(u) + k - 1
  {
    AbsOfProduct(k, v);
  }

  lemma ShrinkMore(k: int, x: int)
    requires k > 0 && x >= 1
    ensures x + k - 1 <= k * x
  {
    ProductNonnegative(k - 1, x - 1);
    assert (k - 1) * (x - 1) == k * x - k - x + 1;
  }

  lemma ProductNonnegative(a: nat, b: nat)
    ensures a * b >= 0
  {
  }

  lemma AbsOfProduct(k: int, v: int)
    requires k > 0
    ensures Abs(k * v) == k * Abs(v)
  {
    if v < 0 {
      assert k * v == -(k * Abs(v));
      assert k * Abs(v) >= 0;
    }
  }

  lemma {:induction false} UpperKOdd(k: int, d: seq<int>, i: nat)
    requires k % 2 == 0 && i < |d| && forall j :: 0 <= j < |d| ==> ConstDigit(d[j], k)
    ensures UpperK(k, d, i) % 2 == 1
  {
    UpperKStep(k, d, i);
    EvenProduct(k, UpperK(k, d, i + 1));
    OddPlusEven(d[i], k * UpperK(k, d, i + 1));
  }

  ghost predicate SameScalar(x: int, y: int) {
    exists j: int :: x == y + j * N
  }

  /** Odd digits of magnitude below 2^w that stand for q + skew mod n. */
  method WnafConst(wnaf: array<int>, q: array<int>, w: nat, bits: nat) returns (skew: int)
    requires 0 < w < 16 && bits > 0 && wnaf.Length == WnafSize(bits, w) + 1
    requires q.Length == 4 && IsScalar(q[..]) && Value(q[..]) < N && wnaf != q
    requires RestK(Pow2(w), OddPart(Value(q[..])), WnafSize(bits, w) + 1) == 0
    modifies wnaf
    ensures forall j :: 0 <= j < wnaf.Length ==> ConstDigit(wnaf[j], Pow2(w))
    ensures skew == SkewOf(Value(q[..]))
    ensures SameScalar(HornerK(Pow2(w), wnaf[..], 0), Value(q[..]) + skew)
    ensures Abs(HornerK(Pow2(w), wnaf[..], 0)) == OddPart(Value(q[..]))
  {
    ghost var v := Value(q[..]);
    ValueBound(q[..]);
    OddPartIs(v);
    var s := new int[4] [q[0], q[1], q[2], q[3]];
    assert s[..] == q[..];
    var sign;
    sign, skew := MakeOdd(s);
    ghost var ds := ConstDigits(wnaf, s, sign, w, bits);
    HornerKSign(Pow2(w), ds, wnaf[..], sign);
    SignedDigits(ds, wnaf[..], sign, Pow2(w));
    assert sign == 1 || sign == -1;
  }

  lemma SignedDigits(d: seq<int>, e: seq<int>, sign: int, k: int)
    requires |d| == |e| && (sign == 1 || sign == -1)
    requires forall j :: 0 <= j < |d| ==> e[j] == d[j] * sign && ConstDigit(d[j], k)
    ensures forall j :: 0 <= j < |e| ==> ConstDigit(e[j], k)
  {
  }

  /** One scalar of the constant-time multiplication: its digits and the table of its point. */
  datatype ConstStream<T> = ConstStream(digits: seq<int>, pre: seq<T>)

  ghost predicate ValidConst<T(!new)>(g: Ops<T>, s: ConstStream<T>, x: T, words: nat) {
    && |s.digits| == words + 1 && (forall j :: 0 <= j <= words ==> ConstDigit(s.digits[j], 16))
    && |s.pre| == 8 && OddMultiples(g, s.pre, x)
  }

  ghost function ConstPart<T(!new)>(g: Ops<T>, s: ConstStream<T>, x: T, i: nat): T {
    Times(g, UpperK(16, s.digits, i), x)
  }

  ghost function ConstParts<T(!new)>(g: Ops<T>, ss: seq<ConstStream<T>>, xs: seq<T>, i: nat): (p: seq<T>)
    requires |ss| == |xs|
    ensures |p| == |ss|
  {
    seq(|ss|, k requires 0 <= k < |ss| => ConstPart(g, ss[k], xs[k], i))
  }

  /** Reads a table entry by looking at all of them, and negates it for a negative digit. */
  method ConstTableGet<T(!new)>(g: Ops<T>, pre: seq<T>, n: int, ghost x: T) returns (r: T)
    requires IsAbelian(g) && |pre| == 8 && OddMultiples(g, pre, x) && ConstDigit(n, 16)
    ensures r == Times(g, n, x)
  {
    var abs := n * (if n > 0 then 1 else -1);
    var idx := abs / 2;
    r := pre[0];
    for m := 0 to 8
      invariant m > idx ==> r == pre[idx]
    {
      r := if m == idx then pre[m] else r;
    }
    TimesNeg(g, abs, x);
    r := if n != abs then g.neg(r) else r;
  }

  lemma {:induction false} SumTimes<T(!new)>(g: Ops<T>, k: int, xs: seq<T>, zs: seq<T>)
    requires IsAbelian(g) && |xs| == |zs| && forall i :: 0 <= i < |xs| ==> zs[i] == Times(g, k, xs[i])
    ensures Sum(g, zs) == Times(g, k, Sum(g, xs))
  {
    if |xs| == 0 {
      TimesZero(g, k);
    } else {
      SumTimes(g, k, xs[1..], zs[1..]);
      TimesSum(g, k, xs[0], Sum(g, xs[1..]));
    }
  }

  lemma ConstDigitStep<T(!new)>(g: Ops<T>, s: ConstStream<T>, x: T, i: nat)
    requires IsAbelian(g) && i < |s.digits|
    ensures ConstPart(g, s, x, i) == g.add(Times(g, 16, ConstPart(g, s, x, i + 1)), Times(g, s.digits[i], x))
  {
    var v := UpperK(16, s.digits, i + 1);
    UpperKStep(16, s.digits, i);
    TimesTimes(g, 16, v, x);
    TimesAdd(g, 16 * v, s.digits[i], x);
  }

  /** Adds every stream's digit at place i to 16 times the sum so far. */
  method AddConstDigits<T(!new)>(g: Ops<T>, ss: seq<ConstStream<T>>, i: nat, r0: T, ghost xs: seq<T>, ghost base: seq<T>, ghost words: nat)
    returns (r: T)
    requires IsAbelian(g) && |ss| == |xs| == |base| && i <= words
    requires forall k :: 0 <= k < |ss| ==> ValidConst(g, ss[k], xs[k], words)
    requires forall k :: 0 <= k < |ss| ==> base[k] == Times(g, 16, ConstPart(g, ss[k], xs[k], i + 1))
    requires r0 == Sum(g, base)
    ensures r == Sum(g, ConstParts(g, ss, xs, i))
  {
    r := r0;
    ghost var ps := base;
    for k := 0 to |ss|
      invariant |ps| == |ss| && r == Sum(g, ps)
      invariant forall m :: 0 <= m < k ==> ps[m] == ConstPart(g, ss[m], xs[m], i)
      invariant forall m :: k <= m < |ss| ==> ps[m] == base[m]
    {
      var s := ss[k];
      var t := ConstTableGet(g, s.pre, s.digits[i], xs[k]);
      r := g.add(r, t);
      ConstDigitStep(g, s, xs[k], i);
      SumUpdate(g, ps, k, t);
      ps := ps[k := g.add(ps[k], t)];
    }
    assert ps == ConstParts(g, ss, xs, i);
  }

  /** Doubling that is only allowed away from the identity. */
  method DoubleNonzero<T(!new)>(g: Ops<T>, x: T) returns (r: T)
    requires x != g.zero
    ensures r == g.add(x, x)
  {
    r := g.add(x, x);
  }

  /** No doubling of the loop meets the identity. */
  ghost predicate NeverIdentity<T(!new)>(g: Ops<T>, ss: seq<ConstStream<T>>, xs: seq<T>, words: nat)
    requires |ss| == |xs|
  {
    forall i, j :: 1 <= i <= words && 0 <= j < 4 ==> Times(g, Pow2(j), Sum(g, ConstParts(g, ss, xs, i))) != g.zero
  }

  method FourDoublings<T(!new)>(g: Ops<T>, x: T) returns (r: T)
    requires IsAbelian(g) && forall j :: 0 <= j < 4 ==> Times(g, Pow2(j), x) != g.zero
    ensures r == Times(g, 16, x)
  {
    r := x;
    TimesOne(g, x);
    assert Pow2(0) == 1 && Pow2(4) == 16;
    for j := 0 to 4
      invariant r == Times(g, Pow2(j), x)
    {
      TimesAdd(g, Pow2(j), Pow2(j), x);
      r := DoubleNonzero(g, r);
    }
  }

  method ConstMultiply<T(!new)>(g: Ops<T>, ss: seq<ConstStream<T>>, words: nat, ghost xs: seq<T>) returns (r: T)
    requires IsAbelian(g) && |ss| == |xs|
    requires forall k :: 0 <= k < |ss| ==> ValidConst(g, ss[k], xs[k], words)
    requires NeverIdentity(g, ss, xs, words)
    ensures r == Sum(g, ConstParts(g, ss, xs, 0))
  {
    ghost var zeros := seq(|ss|, k => g.zero);
    SumZeros(g, zeros);
    TopIsZero(g, ss, xs, words);
    r := AddConstDigits(g, ss, words, g.zero, xs, zeros, words);
    var i := words;
    while i > 0
      invariant 0 <= i <= words
      invariant r == Sum(g, ConstParts(g, ss, xs, i))
    {
      i := i - 1;
      r := ConstRound(g, ss, i, r, xs, words);
    }
  }

  /** Four doublings, then a digit of every stream. */
  method ConstRound<T(!new)>(g: Ops<T>, ss: seq<ConstStream<T>>, i: nat, r0: T, ghost xs: seq<T>, ghost words: nat) returns (r: T)
    requires IsAbelian(g) && |ss| == |xs| && i < words
    requires forall k :: 0 <= k < |ss| ==> ValidConst(g, ss[k], xs[k], words)
    requires NeverIdentity(g, ss, xs, words) && r0 == Sum(g, ConstParts(g, ss, xs, i + 1))
    ensures r == Sum(g, ConstParts(g, ss, xs, i))
  {
    ghost var ps := ConstParts(g, ss, xs, i + 1);
    ghost var base := seq(|ss|, k requires 0 <= k < |ss| => Times(g, 16, ps[k]));
    SumTimes(g, 16, ps, base);
    r := FourDoublings(g, r0);
    r := AddConstDigits(g, ss, i, r, xs, base, words);
  }

  lemma TopIsZero<T(!new)>(g: Ops<T>, ss: seq<ConstStream<T>>, xs: seq<T>, words: nat)
    requires IsAbelian(g) && |ss| == |xs| && forall k :: 0 <= k < |ss| ==> |ss[k].digits| == words + 1
    ensures forall k :: 0 <= k < |ss| ==> Times(g, 16, ConstPart(g, ss[k], xs[k], words + 1)) == g.zero
  {
    TimesZero(g, 16);
    forall k | 0 <= k < |ss|
      ensures ConstPart(g, ss[k], xs[k], words + 1) == g.zero
    {
      assert ss[k].digits[words + 1..] == [];
    }
  }

  /** The point has order n, not less. */
  ghost predicate HasOrderN<T(!new)>(g: Ops<T>, a: T) {
    && Times(g, N, a) == g.zero
    && forall m :: Times(g, m, a) == g.zero ==> m % N == 0
  }

  lemma SmallMultiple<T(!new)>(g: Ops<T>, m: int, a: T)
    requires HasOrderN(g, a) && m != 0 && -N < m < N
    ensures Times(g, m, a) != g.zero
  {
    if m > 0 {
      assert m % N == m;
    } else {
      ModOf(m, -1, m + N);
    }
  }

  /** q * a without the endomorphism: 64 windows of 4 bits and one more digit. */
  method EcmultConstPlain<T(!new,0)>(g: Ops<T>, a: T, q: array<int>) returns (r: T)
    requires IsAbelian(g) && HasOrderN(g, a)
    requires q.Length == 4 && IsScalar(q[..]) && Value(q[..]) < N
    ensures r == Times(g, Value(q[..]), a)
  {
    ghost var v := Value(q[..]);
    ValueBound(q[..]);
    OddPartIs(v);
    assert Pow2(4) == 16;
    var wnaf := new int[WnafSize(256, 4) + 1];
    assert wnaf.Length == 65;
    FullWidth(OddPart(v));
    var skew := WnafConst(wnaf, q, 4, 256);
    var pre := OddMultiplesTable(g, 8, a);
    var s := ConstStream(wnaf[..], pre[..]);
    PlainNeverIdentity(g, s, a, 64, OddPart(v));
    r := ConstMultiply(g, [s], 64, [a]);
    assert ConstParts(g, [s], [a], 0) == [ConstPart(g, s, a, 0)];
    SumOfOne(g, ConstPart(g, s, a, 0));
    assert wnaf[..][0..] == wnaf[..];
    var c := Correction(g, a, HornerK(16, wnaf[..], 0), skew, v);
    r := g.add(r, c);
  }

  lemma FullWidth(s: nat)
    requires s < TWO256
    ensures RestK(Pow2(4), s, 65) == 0
  {
    var m :| 63 < m < 65;
    Pow2Width(m);
    Pow2PlusWord(m);
    Pow2PlusWord(m + 64);
    Pow2PlusWord(m + 128);
    UsedUp(4, s, 65, m + 192);
  }

  lemma SumOfOne<T(!new)>(g: Ops<T>, x: T)
    requires IsAbelian(g)
    ensures Sum(g, [x]) == x
  {
    assert [x][1..] == [];
    Unit(g, x);
  }

  lemma PlainNeverIdentity<T(!new)>(g: Ops<T>, s: ConstStream<T>, a: T, words: nat, top: int)
    requires IsAbelian(g) && HasOrderN(g, a) && ValidConst(g, s, a, words)
    requires Abs(UpperK(16, s.digits, 0)) == top <= HALF + 2
    ensures NeverIdentity(g, [s], [a], words)
  {
    forall i, j | 1 <= i <= words && 0 <= j < 4
      ensures Times(g, Pow2(j), Sum(g, ConstParts(g, [s], [a], i))) != g.zero
    {
      var v := UpperK(16, s.digits, i);
      UpperKBound(16, s.digits, i);
      assert ConstParts(g, [s], [a], i) == [Times(g, v, a)];
      SumOfOne(g, Times(g, v, a));
      TimesTimes(g, Pow2(j), v, a);
      DoubledBound(j, v);
      SmallMultiple(g, Pow2(j) * v, a);
    }
  }

  lemma DoubledBound(j: nat, v: int)
    requires j < 4 && v != 0
    ensures Pow2(j) * v != 0 && Abs(Pow2(j) * v) <= 8 * Abs(v)
  {
    assert Pow2(0) == 1 && Pow2(1) == 2 && Pow2(2) == 4 && Pow2(3) == 8;
  }

  /** Minus a or minus 2a: what takes the skew off again. */
  method Correction<T(!new)>(g: Ops<T>, a: T, ghost sum: int, skew: int, ghost v: int) returns (c: T)
    requires IsAbelian(g) && Times(g, N, a) == g.zero && 0 <= v < N
    requires (skew == 1 || skew == 2) && SameScalar(sum, v + skew)
    ensures g.add(Times(g, sum, a), c) == Times(g, v, a)
  {
    var twice := g.add(a, a);
    var correction := if skew == 2 then twice else a;
    c := g.neg(correction);
    TimesOne(g, a);
    TimesNeg(g, skew, a);
    TimesAdd(g, sum, -skew, a);
    ghost var j: int :| sum == v + skew + j * N;
    ModOf(sum - skew, j, v);
    TimesModIs(g, sum - skew, N, v, a);
  }

  /** The lattice of the lambda split has no nonzero vector this short. */
  lemma NoShortVector(x: int, y: int, m: int)
    requires x + LAMBDA * y == m * N
    requires Abs(x) <= 0x8000000000000000_0000000000000010 && Abs(y) <= 0x8000000000000000_0000000000000010
    ensures x == 0 && y == 0
  {
    Lattice();
    MultipleIsZero(x * B2 - y * A2, m * B2 - y * 0xFCE9B1DD4EB7DD2718A2906787061B2);
    MultipleIsZero(y * A1 - x * B1, -m * B1 - y * 0x4A5AC2BF7B5F37F9F1DB10D7A2A9C981);
  }

  lemma MultipleIsZero(z: int, k: int)
    requires z == k * N && -N < z < N
    ensures z == 0
  {
  }

  lemma EndoNeverIdentity<T(!new)>(g: Ops<T>, s1: ConstStream<T>, s2: ConstStream<T>, a: T, la: T, words: nat)
    requires IsAbelian(g) && HasOrderN(g, a) && ValidConst(g, s1, a, words) && ValidConst(g, s2, la, words)
    requires la == Times(g, LAMBDA, a)
    requires Abs(UpperK(16, s1.digits, 0)) <= 0x1_0000000000000000_0000000000000001
    requires Abs(UpperK(16, s2.digits, 0)) <= 0x1_0000000000000000_0000000000000001
    ensures NeverIdentity(g, [s1, s2], [a, la], words)
  {
    forall i, j | 1 <= i <= words && 0 <= j < 4
      ensures Times(g, Pow2(j), Sum(g, ConstParts(g, [s1, s2], [a, la], i))) != g.zero
    {
      var v1, v2 := UpperK(16, s1.digits, i), UpperK(16, s2.digits, i);
      UpperKBound(16, s1.digits, i);
      UpperKBound(16, s2.digits, i);
      assert ConstParts(g, [s1, s2], [a, la], i) == [Times(g, v1, a), Times(g, v2, la)];
      SumOfTwo(g, Times(g, v1, a), Times(g, v2, la));
      PairNotIdentity(g, v1, v2, j, a);
    }
  }

  lemma PairNotIdentity<T(!new)>(g: Ops<T>, v1: int, v2: int, j: nat, a: T)
    requires IsAbelian(g) && HasOrderN(g, a) && j < 4 && v1 != 0 && v2 != 0
    requires 16 * Abs(v1) <= 0x1_0000000000000000_0000000000000010 && 16 * Abs(v2) <= 0x1_0000000000000000_0000000000000010
    ensures Times(g, Pow2(j), g.add(Times(g, v1, a), Times(g, v2, Times(g, LAMBDA, a)))) != g.zero
  {
    var p, sum := Pow2(j), v1 + LAMBDA * v2;
    JoinWords(g, v1, v2, LAMBDA, sum, a);
    TimesTimes(g, p, sum, a);
    NotMultiple(v1, v2, j, p * sum);
  }

  lemma NotMultiple(v1: int, v2: int, j: nat, z: int)
    requires j < 4 && v1 != 0 && v2 != 0 && z == Pow2(j) * (v1 + LAMBDA * v2)
    requires 16 * Abs(v1) <= 0x1_0000000000000000_0000000000000010 && 16 * Abs(v2) <= 0x1_0000000000000000_0000000000000010
    ensures z % N != 0
  {
    assert Pow2(0) == 1 && Pow2(1) == 2 && Pow2(2) == 4 && Pow2(3) == 8;
    if j == 0 {
      ShortPair(v1, v2, z);
    } else if j == 1 {
      ShortPair(2 * v1, 2 * v2, z);
    } else if j == 2 {
      ShortPair(4 * v1, 4 * v2, z);
    } else {
      ShortPair(8 * v1, 8 * v2, z);
    }
  }

  lemma ShortPair(x: int, y: int, z: int)
    requires x != 0 && z == x + LAMBDA * y
    requires Abs(x) <= 0x8000000000000000_0000000000000010 && Abs(y) <= 0x8000000000000000_0000000000000010
    ensures z % N != 0
  {
    var m := DivMod(z);
    if z % N == 0 {
      NoShortVector(x, y, m);
    }
  }

  /** A half of the lambda split becomes an odd number of at most 129 bits. */
  lemma HalfOddPart(v: int)
    requires 0 <= v < N && Short(Signed(v))
    ensures 0 < OddPart(v) <= 0x1_0000000000000000_0000000000000001
    ensures RestK(Pow2(4), OddPart(v), 33) == 0
  {
    var m :| 63 < m < 65;
    Pow2Width(m);
    Pow2PlusWord(m);
    Pow2Monotone(m + 64, m + 65);
    assert Pow2(m + 65) == 2 * Pow2(m + 64);
    UsedUp(4, OddPart(v), 33, m + 65);
  }

  /** Digits and table of one half of the split. */
  method ConstHalf<T(!new)>(g: Ops<T>, q: array<int>, pre: seq<T>, ghost x: T) returns (s: ConstStream<T>, skew: int)
    requires q.Length == 4 && IsScalar(q[..]) && Value(q[..]) < N && Short(Signed(Value(q[..])))
    requires |pre| == 8 && OddMultiples(g, pre, x)
    ensures ValidConst(g, s, x, 32) && (skew == 1 || skew == 2)
    ensures SameScalar(UpperK(16, s.digits, 0), Value(q[..]) + skew)
    ensures Abs(UpperK(16, s.digits, 0)) <= 0x1_0000000000000000_0000000000000001
  {
    ValueBound(q[..]);
    HalfOddPart(Value(q[..]));
    assert Pow2(4) == 16;
    var wnaf := new int[WnafSize(128, 4) + 1];
    assert wnaf.Length == 33;
    skew := WnafConst(wnaf, q, 4, 128);
    s := ConstStream(wnaf[..], pre);
    assert s.digits[0..] == s.digits;
  }

  method ConstTables<T(!new,0)>(g: Ops<T>, endo: T -> T, a: T) returns (pre: seq<T>, table: seq<T>)
    requires IsAbelian(g) && IsEndomorphism(g, endo)
    ensures |pre| == |table| == 8 && OddMultiples(g, pre, a) && OddMultiples(g, table, endo(a))
  {
    var preA := OddMultiplesTable(g, 8, a);
    pre := preA[..];
    table := LambdaTable(g, endo, pre, a);
  }

  /** q * a with q split in halves: 32 windows of 4 bits and one more digit for each. */
  method EcmultConstEndo<T(!new,0)>(g: Ops<T>, endo: T -> T, a: T, q: array<int>) returns (r: T)
    requires IsAbelian(g) && HasOrderN(g, a)
    requires IsEndomorphism(g, endo) && endo(a) == Times(g, LAMBDA, a)
    requires q.Length == 4 && IsScalar(q[..]) && Value(q[..]) < N
    ensures r == Times(g, Value(q[..]), a)
  {
    var q1, q2 := new int[4], new int[4];
    SplitLambda(q1, q2, q);
    ghost var v1, v2 := Value(q1[..]), Value(q2[..]);
    ValueBound(q1[..]);
    ValueBound(q2[..]);
    JoinHalves(g, N, LAMBDA, v1, v2, Value(q[..]), a);
    var pre, preLam := ConstTables(g, endo, a);
    r := MultiplyHalves(g, a, endo(a), q1, q2, pre, preLam);
  }

  /** Both halves in one run of doublings, and the corrections after it. */
  method MultiplyHalves<T(!new,0)>(g: Ops<T>, a: T, la: T, q1: array<int>, q2: array<int>, pre: seq<T>, preLam: seq<T>) returns (r: T)
    requires IsAbelian(g) && HasOrderN(g, a) && la == Times(g, LAMBDA, a)
    requires q1.Length == 4 && IsScalar(q1[..]) && 0 <= Value(q1[..]) < N && Short(Signed(Value(q1[..])))
    requires q2.Length == 4 && IsScalar(q2[..]) && 0 <= Value(q2[..]) < N && Short(Signed(Value(q2[..])))
    requires |pre| == |preLam| == 8 && OddMultiples(g, pre, a) && OddMultiples(g, preLam, la)
    ensures r == g.add(Times(g, Value(q1[..]), a), Times(g, Value(q2[..]), la))
  {
    var s1, skew1 := ConstHalf(g, q1, pre, a);
    var s2, skew2 := ConstHalf(g, q2, preLam, la);
    EndoNeverIdentity(g, s1, s2, a, la, 32);
    r := ConstMultiply(g, [s1, s2], 32, [a, la]);
    assert ConstParts(g, [s1, s2], [a, la], 0) == [ConstPart(g, s1, a, 0), ConstPart(g, s2, la, 0)];
    SumOfTwo(g, ConstPart(g, s1, a, 0), ConstPart(g, s2, la, 0));
    OrderOfMultiple(g, N, LAMBDA, a);
    r := CorrectBoth(g, r, a, la, UpperK(16, s1.digits, 0), UpperK(16, s2.digits, 0), skew1, skew2, Value(q1[..]), Value(q2[..]));
  }

  method CorrectBoth<T(!new)>(g: Ops<T>, r0: T, a: T, la: T, ghost sum1: int, ghost sum2: int, skew1: int, skew2: int,
      ghost v1: int, ghost v2: int)
    returns (r: T)
    requires IsAbelian(g) && Times(g, N, a) == g.zero && Times(g, N, la) == g.zero && 0 <= v1 < N && 0 <= v2 < N
    requires (skew1 == 1 || skew1 == 2) && (skew2 == 1 || skew2 == 2)
    requires SameScalar(sum1, v1 + skew1) && SameScalar(sum2, v2 + skew2)
    requires r0 == g.add(Times(g, sum1, a), Times(g, sum2, la))
    ensures r == g.add(Times(g, v1, a), Times(g, v2, la))
  {
    var c1 := Correction(g, a, sum1, skew1, v1);
    var c2 := Correction(g, la, sum2, skew2, v2);
    r := g.add(r0, c1);
    r := g.add(r, c2);
    Assoc(g, r0, c1, c2);
    Exchange(g, Times(g, sum1, a), Times(g, sum2, la), c1, c2);
  }
}
