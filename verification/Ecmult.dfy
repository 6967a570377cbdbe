/** Strauss multiplication: na * A + ng * G from interleaved windowed digits, with and without the endomorphism. */
module Ecmult {
  import opened Bits
  import opened Group
  import opened Scalar4x64
  import opened ScalarOps
  import opened LambdaSplit
  import opened Wnaf

  const WINDOW_A: nat := 5
  const WINDOW_G: nat := 15

  /** pre[i] = (2i + 1) * x */
  ghost predicate OddMultiples<T(!new)>(g: Ops<T>, pre: seq<T>, x: T) {
    forall i :: 0 <= i < |pre| ==> pre[i] == Times(g, 2 * i + 1, x)
  }

  method OddMultiplesTable<T(!new,0)>(g: Ops<T>, n: nat, x: T) returns (pre: array<T>)
    requires IsAbelian(g) && n > 0
    ensures fresh(pre) && pre.Length == n && OddMultiples(g, pre[..], x)
  {
    var d := g.add(x, x);
    TimesOne(g, x);
    pre := new T[n];
    pre[0] := x;
    for i := 1 to n
      invariant forall j :: 0 <= j < i ==> pre[j] == Times(g, 2 * j + 1, x)
    {
      pre[i] := g.add(pre[i - 1], d);
      NextOdd(g, i, x);
    }
  }

  lemma NextOdd<T(!new)>(g: Ops<T>, i: nat, x: T)
    requires IsAbelian(g) && i >= 1
    ensures g.add(Times(g, 2 * (i - 1) + 1, x), g.add(x, x)) == Times(g, 2 * i + 1, x)
  {
    TimesOne(g, x);
    TimesAdd(g, 2 * (i - 1) + 1, 2, x);
  }

  method TableGet<T(!new)>(g: Ops<T>, pre: seq<T>, n: int, w: nat, ghost x: T) returns (r: T)
    requires IsAbelian(g) && 2 <= w && |pre| == Pow2(w - 2) && OddMultiples(g, pre, x)
    requires n != 0 && WnafDigit(n, w)
    ensures r == Times(g, n, x)
  {
    assert Pow2(w - 1) == 2 * Pow2(w - 2);
    if n > 0 {
      r := pre[(n - 1) / 2];
    } else {
      r := g.neg(pre[(-n - 1) / 2]);
      TimesNeg(g, -n, x);
    }
  }

  ghost function Sum<T(!new)>(g: Ops<T>, xs: seq<T>): T {
    if |xs| == 0 then g.zero else g.add(xs[0], Sum(g, xs[1..]))
  }

  lemma {:induction false} SumAdd<T(!new)>(g: Ops<T>, xs: seq<T>, ys: seq<T>, zs: seq<T>)
    requires IsAbelian(g) && |xs| == |ys| == |zs|
    requires forall i :: 0 <= i < |xs| ==> zs[i] == g.add(xs[i], ys[i])
    ensures Sum(g, zs) == g.add(Sum(g, xs), Sum(g, ys))
  {
    if |xs| == 0 {
      Unit(g, g.zero);
    } else {
      SumAdd(g, xs[1..], ys[1..], zs[1..]);
      Exchange(g, xs[0], ys[0], Sum(g, xs[1..]), Sum(g, ys[1..]));
    }
  }

  lemma {:induction false} SumUpdate<T(!new)>(g: Ops<T>, xs: seq<T>, k: nat, y: T)
    requires IsAbelian(g) && k < |xs|
    ensures Sum(g, xs[k := g.add(xs[k], y)]) == g.add(Sum(g, xs), y)
  {
    var zs := xs[k := g.add(xs[k], y)];
    var s := Sum(g, xs[1..]);
    if k == 0 {
      assert zs[1..] == xs[1..];
      Assoc(g, xs[0], y, s);
      Comm(g, y, s);
      Assoc(g, xs[0], s, y);
    } else {
      assert zs[1..] == xs[1..][k - 1 := g.add(xs[k], y)];
      SumUpdate(g, xs[1..], k - 1, y);
      Assoc(g, xs[0], s, y);
    }
  }

  /** One scalar of the joint multiplication: its digits, how many are in use, and the table of its point. */
  datatype Stream<T> = Stream(digits: seq<int>, bits: int, pre: seq<T>, w: nat)

  ghost predicate ValidStream<T(!new)>(g: Ops<T>, s: Stream<T>, x: T) {
    && 2 <= s.w && |s.pre| == Pow2(s.w - 2) && OddMultiples(g, s.pre, x)
    && 0 <= s.bits <= |s.digits|
    && (forall i :: s.bits <= i < |s.digits| ==> s.digits[i] == 0)
    && (forall i :: 0 <= i < |s.digits| ==> WnafDigit(s.digits[i], s.w))
  }

  /** What the digits from place i upwards are worth, in units of 2^i. */
  ghost function Upper(d: seq<int>, i: nat): int {
    if i < |d| then DigitSum(d[i..]) else 0
  }

  lemma UpperStep(d: seq<int>, i: nat)
    requires i < |d|
    ensures Upper(d, i) == 2 * Upper(d, i + 1) + d[i]
  {
    assert d[i..][0] == d[i] && d[i..][1..] == d[i + 1..];
  }

  lemma UpperEnd(d: seq<int>, i: nat, bits: nat)
    requires bits <= i && forall j :: bits <= j < |d| ==> d[j] == 0
    ensures Upper(d, i) == 0
  {
    if i < |d| {
      DigitSumZeros(d[i..]);
    }
  }

  ghost function Part<T(!new)>(g: Ops<T>, s: Stream<T>, x: T, i: nat): T {
    Times(g, Upper(s.digits, i), x)
  }

  ghost function Parts<T(!new)>(g: Ops<T>, ss: seq<Stream<T>>, xs: seq<T>, i: nat): (p: seq<T>)
    requires |ss| == |xs|
    ensures |p| == |ss|
  {
    seq(|ss|, k requires 0 <= k < |ss| => Part(g, ss[k], xs[k], i))
  }

  /** Adds one stream's digit at place i to its doubled part, the k-th summand. */
  method AddDigit<T(!new)>(g: Ops<T>, s: Stream<T>, i: nat, r0: T, ghost x: T, ghost ps: seq<T>, ghost k: nat) returns (r: T)
    requires IsAbelian(g) && ValidStream(g, s, x) && k < |ps| && r0 == Sum(g, ps)
    requires ps[k] == g.add(Part(g, s, x, i + 1), Part(g, s, x, i + 1))
    ensures r == Sum(g, ps[k := Part(g, s, x, i)])
  {
    Digit(g, s, x, i);
    if i < s.bits && s.digits[i] != 0 {
      var t := TableGet(g, s.pre, s.digits[i], s.w, x);
      r := g.add(r0, t);
      SumUpdate(g, ps, k, t);
    } else {
      r := r0;
      assert ps[k := Part(g, s, x, i)] == ps;
    }
  }

  /** Adds every stream's digit at place i to the doubled accumulator. */
  method AddDigits<T(!new)>(g: Ops<T>, ss: seq<Stream<T>>, i: nat, r0: T, ghost xs: seq<T>, ghost twice: seq<T>) returns (r: T)
    requires IsAbelian(g) && |ss| == |xs| == |twice|
    requires forall k :: 0 <= k < |ss| ==> ValidStream(g, ss[k], xs[k])
    requires forall k :: 0 <= k < |ss| ==> twice[k] == g.add(Part(g, ss[k], xs[k], i + 1), Part(g, ss[k], xs[k], i + 1))
    requires r0 == Sum(g, twice)
    ensures r == Sum(g, Parts(g, ss, xs, i))
  {
    r := r0;
    ghost var ps := twice;
    for k := 0 to |ss|
      invariant |ps| == |ss| && r == Sum(g, ps)
      invariant forall m :: 0 <= m < k ==> ps[m] == Part(g, ss[m], xs[m], i)
      invariant forall m :: k <= m < |ss| ==> ps[m] == twice[m]
    {
      r := AddDigit(g, ss[k], i, r, xs[k], ps, k);
      ps := ps[k := Part(g, ss[k], xs[k], i)];
    }
    assert ps == Parts(g, ss, xs, i);
  }

  /** The shared double-and-add loop (Strauss): every stream adds its digit after one common doubling. */
  method JointMultiply<T(!new)>(g: Ops<T>, ss: seq<Stream<T>>, bits: nat, ghost xs: seq<T>) returns (r: T)
    requires IsAbelian(g) && |ss| == |xs|
    requires forall k :: 0 <= k < |ss| ==> ValidStream(g, ss[k], xs[k]) && ss[k].bits <= bits
    ensures r == Sum(g, Parts(g, ss, xs, 0))
  {
    r := g.zero;
    AllZero(g, ss, xs, bits);
    var i := bits;
    while i > 0
      invariant 0 <= i <= bits
      invariant r == Sum(g, Parts(g, ss, xs, i))
    {
      i := i - 1;
      ghost var ps := Parts(g, ss, xs, i + 1);
      ghost var twice := seq(|ss|, k requires 0 <= k < |ss| => g.add(ps[k], ps[k]));
      SumAdd(g, ps, ps, twice);
      r := g.add(r, r);
      r := AddDigits(g, ss, i, r, xs, twice);
    }
  }

  lemma Digit<T(!new)>(g: Ops<T>, s: Stream<T>, x: T, i: nat)
    requires IsAbelian(g) && ValidStream(g, s, x)
    ensures var u, d := Part(g, s, x, i + 1), (if i < s.bits then s.digits[i] else 0);
      && Part(g, s, x, i) == g.add(g.add(u, u), Times(g, d, x))
      && (d == 0 ==> Part(g, s, x, i) == g.add(u, u))
  {
    var v, d := Upper(s.digits, i + 1), if i < s.bits then s.digits[i] else 0;
    var u := Times(g, v, x);
    if i < |s.digits| {
      UpperStep(s.digits, i);
    }
    TimesAdd(g, v, v, x);
    TimesAdd(g, 2 * v, d, x);
    Unit(g, g.add(u, u));
  }

  lemma AllZero<T(!new)>(g: Ops<T>, ss: seq<Stream<T>>, xs: seq<T>, bits: nat)
    requires IsAbelian(g) && |ss| == |xs|
    requires forall k :: 0 <= k < |ss| ==> ValidStream(g, ss[k], xs[k]) && ss[k].bits <= bits
    ensures Sum(g, Parts(g, ss, xs, bits)) == g.zero
  {
    forall k | 0 <= k < |ss|
      ensures Parts(g, ss, xs, bits)[k] == g.zero
    {
      UpperEnd(ss[k].digits, bits, ss[k].bits);
    }
    SumZeros(g, Parts(g, ss, xs, bits));
  }

  lemma {:induction false} SumZeros<T(!new)>(g: Ops<T>, xs: seq<T>)
    requires IsAbelian(g) && forall k :: 0 <= k < |xs| ==> xs[k] == g.zero
    ensures Sum(g, xs) == g.zero
  {
    if |xs| > 0 {
      SumZeros(g, xs[1..]);
      Unit(g, g.zero);
    }
  }

  /** Widths of the digit arrays, as powers; len is kept variable so that the recursion is not unrolled. */
  lemma DigitWidths(len: nat)
    ensures 255 < len < 257 ==> Pow2(len - 1) == 0x8000000000000000000000000000000000000000000000000000000000000000
    ensures 128 < len < 130 ==> Pow2(len - 1) == TWO128
    ensures 129 < len < 131 ==> Pow2(len - 1) == 0x2_0000000000000000_0000000000000000
  {
    var m :| 63 < m < 65;
    Pow2Width(m);
    if 127 < len < 257 {
      Pow2PlusWord(m);
      Pow2PlusWord(m + 64);
      Pow2PlusWord(m + 128);
    }
  }

  /** The wnaf of a scalar of at most len - 1 bits, as a stream over a table of odd multiples. */
  method MakeStream<T(!new)>(g: Ops<T>, a: int, len: nat, w: nat, pre: seq<T>, ghost x: T) returns (s: Stream<T>)
    requires 0 <= a < N && len <= 256 && 2 <= w <= 30 && Fits(Abs(SignedScalar(a)), len)
    requires |pre| == Pow2(w - 2) && OddMultiples(g, pre, x)
    ensures ValidStream(g, s, x)
    ensures Part(g, s, x, 0) == Times(g, SignedScalar(a), x)
  {
    var wnaf := new int[len];
    var bits, left := EcmultWnaf(wnaf, a, w);
    s := Stream(wnaf[..], bits, pre, w);
    assert s.digits[0..] == s.digits;
  }

  function Max(x: int, y: int): int {
    if x > y then x else y
  }

  /** Multiples of a point of order n by a representative of a scalar. */
  lemma TimesSigned<T(!new)>(g: Ops<T>, a: int, x: T)
    requires IsAbelian(g) && Times(g, N, x) == g.zero && 0 <= a < N
    ensures Times(g, SignedScalar(a), x) == Times(g, a, x)
  {
    TimesAdd(g, a, -N, x);
    TimesNeg(g, N, x);
    Unit(g, g.zero);
    InverseIsUnique(g, g.zero, g.zero);
    Unit(g, Times(g, a, x));
  }

  /** na * a + ng * gen without the endomorphism: two streams of 256 digits. */
  method EcmultPlain<T(!new,0)>(g: Ops<T>, a: T, na: int, ng: int, preG: seq<T>, ghost gen: T) returns (r: T)
    requires IsAbelian(g) && Times(g, N, a) == g.zero && Times(g, N, gen) == g.zero
    requires 0 <= na < N && 0 <= ng < N
    requires |preG| == Pow2(16 - 2) && OddMultiples(g, preG, gen)
    ensures r == g.add(Times(g, na, a), Times(g, ng, gen))
  {
    var len: nat := 256;
    DigitWidths(len);
    var size := Pow2(WINDOW_A - 2);
    var preA := OddMultiplesTable(g, size, a);
    var s1 := MakeStream(g, na, len, WINDOW_A, preA[..], a);
    var s2 := MakeStream(g, ng, len, 16, preG, gen);
    r := JointMultiply(g, [s1, s2], Max(s1.bits, s2.bits), [a, gen]);
    TimesSigned(g, na, a);
    TimesSigned(g, ng, gen);
    SumOfTwo(g, Times(g, na, a), Times(g, ng, gen));
    assert Parts(g, [s1, s2], [a, gen], 0) == [Times(g, na, a), Times(g, ng, gen)];
  }

  lemma SumOfTwo<T(!new)>(g: Ops<T>, x: T, y: T)
    requires IsAbelian(g)
    ensures Sum(g, [x, y]) == g.add(x, y)
  {
    assert [x, y][1..] == [y] && [y][1..] == [];
    assert Sum(g, [y]) == g.add(y, g.zero);
    Unit(g, y);
  }

  lemma SumOfFour<T(!new)>(g: Ops<T>, w: T, x: T, y: T, z: T)
    requires IsAbelian(g)
    ensures Sum(g, [w, x, y, z]) == g.add(g.add(w, x), g.add(y, z))
  {
    assert [w, x, y, z][1..] == [x, y, z] && [x, y, z][1..] == [y, z];
    SumOfTwo(g, y, z);
    Assoc(g, w, x, g.add(y, z));
  }

  /** The odd multiples of x, each taken through the endomorphism, are the odd multiples of endo(x). */
  method LambdaTable<T(!new,0)>(g: Ops<T>, endo: T -> T, pre: seq<T>, ghost x: T) returns (table: seq<T>)
    requires IsAbelian(g) && IsEndomorphism(g, endo) && OddMultiples(g, pre, x)
    ensures |table| == |pre| && OddMultiples(g, table, endo(x))
  {
    table := [];
    for i := 0 to |pre|
      invariant |table| == i && OddMultiples(g, table, endo(x))
    {
      table := table + [endo(pre[i])];
      EndomorphismTimes(g, endo, 2 * i + 1, x);
    }
  }

  /** The two halves of a lambda split fit 129 bits, signed. */
  lemma HalvesFit(r: int, len: nat)
    requires 0 <= r < N && Short(Signed(r)) && 129 < len < 131
    ensures Fits(Abs(SignedScalar(r)), len) && SignedScalar(r) == Signed(r)
  {
    DigitWidths(len);
  }

  lemma JoinHalves<T(!new)>(g: Ops<T>, n: int, lam: int, r1: int, r2: int, k: int, a: T)
    requires IsAbelian(g) && n > 0 && Times(g, n, a) == g.zero && Splits(r1, r2, lam, k, n)
    ensures g.add(Times(g, r1, a), Times(g, r2, Times(g, lam, a))) == Times(g, k, a)
  {
    var sum := r1 + lam * r2;
    JoinWords(g, r1, r2, lam, sum, a);
    TimesModIs(g, sum, n, k, a);
  }

  lemma OrderOfMultiple<T(!new)>(g: Ops<T>, n: int, lam: int, a: T)
    requires IsAbelian(g) && Times(g, n, a) == g.zero
    ensures Times(g, n, Times(g, lam, a)) == g.zero
  {
    TimesCommute(g, n, lam, a);
    TimesZero(g, lam);
  }

  /** A signed half of a lambda split, as a stream of 130 digits. */
  method SignedHalfStream<T(!new)>(g: Ops<T>, v: int, pre: seq<T>, ghost x: T) returns (s: Stream<T>)
    requires 0 <= v < N && Short(Signed(v)) && |pre| == Pow2(WINDOW_A - 2) && OddMultiples(g, pre, x)
    ensures ValidStream(g, s, x) && Part(g, s, x, 0) == Times(g, SignedScalar(v), x)
  {
    var len: nat := 130;
    HalvesFit(v, len);
    s := MakeStream(g, v, len, WINDOW_A, pre, x);
  }

  /** A 128-bit half of a scalar, as a stream of 129 digits. */
  method WordHalfStream<T(!new)>(g: Ops<T>, v: int, pre: seq<T>, ghost x: T) returns (s: Stream<T>)
    requires 0 <= v < TWO128 && |pre| == Pow2(WINDOW_G - 2) && OddMultiples(g, pre, x)
    ensures ValidStream(g, s, x) && Part(g, s, x, 0) == Times(g, v, x)
  {
    var len: nat := 129;
    DigitWidths(len);
    s := MakeStream(g, v, len, WINDOW_G, pre, x);
  }

  method FourStreams<T(!new)>(g: Ops<T>, s1: Stream<T>, s2: Stream<T>, s3: Stream<T>, s4: Stream<T>,
      ghost x1: T, ghost x2: T, ghost x3: T, ghost x4: T)
    returns (r: T)
    requires IsAbelian(g)
    requires ValidStream(g, s1, x1) && ValidStream(g, s2, x2) && ValidStream(g, s3, x3) && ValidStream(g, s4, x4)
    ensures r == g.add(g.add(Part(g, s1, x1, 0), Part(g, s2, x2, 0)), g.add(Part(g, s3, x3, 0), Part(g, s4, x4, 0)))
  {
    var bits := Max(Max(s1.bits, s2.bits), Max(s3.bits, s4.bits));
    r := JointMultiply(g, [s1, s2, s3, s4], bits, [x1, x2, x3, x4]);
    assert Parts(g, [s1, s2, s3, s4], [x1, x2, x3, x4], 0)
        == [Part(g, s1, x1, 0), Part(g, s2, x2, 0), Part(g, s3, x3, 0), Part(g, s4, x4, 0)];
    SumOfFour(g, Part(g, s1, x1, 0), Part(g, s2, x2, 0), Part(g, s3, x3, 0), Part(g, s4, x4, 0));
  }

  lemma JoinWords<T(!new)>(g: Ops<T>, lo: int, hi: int, word: int, sum: int, x: T)
    requires IsAbelian(g) && sum == lo + word * hi
    ensures g.add(Times(g, lo, x), Times(g, hi, Times(g, word, x))) == Times(g, sum, x)
  {
    TimesProduct(g, hi, word, sum - lo, x);
    TimesAdd(g, lo, sum - lo, x);
  }

  lemma SplitHalves(d: seq<int>)
    requires IsScalar(d)
    ensures Value(d) == Value(d[..2]) + TWO128 * Value(d[2..])
    ensures 0 <= Value(d[..2]) < TWO128
    ensures 0 <= Value(d[2..]) < TWO128
  {
    ValueOf(d);
    ValueOfTwo(d[..2]);
    ValueOfTwo(d[2..]);
  }

  lemma ValueOfTwo(d: seq<int>)
    requires |d| == 2
    ensures Value(d) == d[0] + 0x1_0000000000000000 * d[1]
  {
    assert d[1..][1..] == [];
    assert Value(d[1..]) == d[1];
  }

  /** The four streams of the split scalars add up to k * a + l * gen. */
  lemma JoinStreams<T(!new)>(g: Ops<T>, n: int, v1: int, v2: int, w1: int, w2: int, lam: int, word: int, k: int, l: int, a: T, gen: T)
    requires IsAbelian(g) && n > 0 && Times(g, n, a) == g.zero
    requires Splits(v1, v2, lam, k, n) && l == w1 + word * w2
    ensures g.add(
        g.add(Times(g, v1, a), Times(g, v2, Times(g, lam, a))),
        g.add(Times(g, w1, gen), Times(g, w2, Times(g, word, gen))))
      == g.add(Times(g, k, a), Times(g, l, gen))
  {
    JoinHalves(g, n, lam, v1, v2, k, a);
    JoinWords(g, w1, w2, word, l, gen);
  }

  lemma SignedHalves<T(!new)>(g: Ops<T>, v1: int, v2: int, lam: int, a: T)
    requires IsAbelian(g) && Times(g, N, a) == g.zero && 0 <= v1 < N && 0 <= v2 < N
    ensures Times(g, SignedScalar(v1), a) == Times(g, v1, a)
    ensures Times(g, SignedScalar(v2), Times(g, lam, a)) == Times(g, v2, Times(g, lam, a))
  {
    OrderOfMultiple(g, N, lam, a);
    TimesSigned(g, v1, a);
    TimesSigned(g, v2, Times(g, lam, a));
  }

  /** The halves of na by lambda and of ng by words. */
  method SplitScalars(na: array<int>, ng: array<int>) returns (v1: int, v2: int, w1: int, w2: int)
    requires na.Length == ng.Length == 4 && IsScalar(na[..]) && IsScalar(ng[..])
    requires Value(na[..]) < N
    ensures 0 <= v1 < N && 0 <= v2 < N && Short(Signed(v1)) && Short(Signed(v2))
    ensures 0 <= w1 < TWO128 && 0 <= w2 < TWO128
    ensures Splits(v1, v2, LAMBDA, Value(na[..]), N)
    ensures w1 + TWO128 * w2 == Value(ng[..])
  {
    var n1, n2 := new int[4], new int[4];
    SplitLambda(n1, n2, na);
    v1, v2 := Value(n1[..]), Value(n2[..]);
    ValueBound(n1[..]);
    ValueBound(n2[..]);
    w1, w2 := Value(ng[..2]), Value(ng[2..]);
    SplitHalves(ng[..]);
    assert ng[..][..2] == ng[..2] && ng[..][2..] == ng[2..];
  }

  /** The tables of a and of its image. */
  method PointTables<T(!new,0)>(g: Ops<T>, endo: T -> T, a: T) returns (pre: seq<T>, table: seq<T>)
    requires IsAbelian(g) && IsEndomorphism(g, endo)
    ensures |pre| == |table| == Pow2(WINDOW_A - 2)
    ensures OddMultiples(g, pre, a) && OddMultiples(g, table, endo(a))
  {
    var size := Pow2(WINDOW_A - 2);
    var preA := OddMultiplesTable(g, size, a);
    pre := preA[..];
    table := LambdaTable(g, endo, pre, a);
  }

  /** The multiplication on the halves, for any factor lam of the endomorphism and any word size. */
  method EcmultSplit<T(!new,0)>(g: Ops<T>, endo: T -> T, a: T, v1: int, v2: int, w1: int, w2: int,
      preG: seq<T>, preG128: seq<T>, ghost lam: int, ghost word: int, ghost k: int, ghost l: int, ghost gen: T)
    returns (r: T)
    requires IsAbelian(g) && Times(g, N, a) == g.zero
    requires IsEndomorphism(g, endo) && endo(a) == Times(g, lam, a)
    requires 0 <= v1 < N && 0 <= v2 < N && Short(Signed(v1)) && Short(Signed(v2)) && Splits(v1, v2, lam, k, N)
    requires l == w1 + word * w2
    requires 0 <= w1 < TWO128 && 0 <= w2 < TWO128
    requires |preG| == |preG128| == Pow2(WINDOW_G - 2)
    requires OddMultiples(g, preG, gen) && OddMultiples(g, preG128, Times(g, word, gen))
    ensures r == g.add(Times(g, k, a), Times(g, l, gen))
  {
    var preA, preLam := PointTables(g, endo, a);
    var s1 := SignedHalfStream(g, v1, preA, a);
    var s2 := SignedHalfStream(g, v2, preLam, endo(a));
    var s3 := WordHalfStream(g, w1, preG, gen);
    var s4 := WordHalfStream(g, w2, preG128, Times(g, word, gen));
    r := FourStreams(g, s1, s2, s3, s4, a, endo(a), gen, Times(g, word, gen));
    SignedHalves(g, v1, v2, lam, a);
    JoinStreams(g, N, v1, v2, w1, w2, lam, word, k, l, a, gen);
  }

  /** na * a + ng * gen with both scalars split in halves: four streams of about 128 digits. */
  method EcmultEndo<T(!new,0)>(g: Ops<T>, endo: T -> T, a: T, na: array<int>, ng: array<int>,
      preG: seq<T>, preG128: seq<T>, ghost gen: T)
    returns (r: T)
    requires IsAbelian(g) && Times(g, N, a) == g.zero
    requires IsEndomorphism(g, endo) && endo(a) == Times(g, LAMBDA, a)
    requires na.Length == ng.Length == 4 && IsScalar(na[..]) && IsScalar(ng[..])
    requires Value(na[..]) < N && Value(ng[..]) < N
    requires |preG| == |preG128| == Pow2(WINDOW_G - 2) && OddMultiples(g, preG, gen)
    requires OddMultiples(g, preG128, Times(g, TWO128, gen))
    ensures r == g.add(Times(g, Value(na[..]), a), Times(g, Value(ng[..]), gen))
  {
    var v1, v2, w1, w2 := SplitScalars(na, ng);
    r := EcmultSplit(g, endo, a, v1, v2, w1, w2, preG, preG128, LAMBDA, TWO128,
      Value(na[..]), Value(ng[..]), gen);
  }

  /** The precomputed tables of odd multiples of the generator and of 2^128 times it; empty until built. */
  class EcmultContext<T(!new,0)> {
    const g: Ops<T>
    const gen: T
    var preG: seq<T>
    var preG128: seq<T>

    predicate IsBuilt()
      reads this
    {
      preG != []
    }

    ghost predicate Valid()
      reads this
    {
      && IsAbelian(g)
      && (IsBuilt() ==>
        && |preG| == |preG128| == Pow2(WINDOW_G - 2) && OddMultiples(g, preG, gen)
        && OddMultiples(g, preG128, Times(g, TWO128, gen)))
    }

    constructor (g: Ops<T>, gen: T)
      requires IsAbelian(g)
      ensures Valid() && !IsBuilt() && this.g == g && this.gen == gen
    {
      this.g, this.gen, preG, preG128 := g, gen, [], [];
    }

    method Build()
      requires Valid()
      modifies this
      ensures Valid() && IsBuilt()
      ensures old(IsBuilt()) ==> preG == old(preG) && preG128 == old(preG128)
    {
      if IsBuilt() {
        return;
      }
      var size := Pow2(WINDOW_G - 2);
      var pre := OddMultiplesTable(g, size, gen);
      var shifted := TimesTwoTo128(g, gen);
      var pre128 := OddMultiplesTable(g, size, shifted);
      preG, preG128 := pre[..], pre128[..];
    }

    method Clear()
      requires Valid()
      modifies this
      ensures Valid() && !IsBuilt()
    {
      preG, preG128 := [], [];
    }

    /** na * a + ng * gen on a built context. */
    method Multiply(endo: T -> T, a: T, na: array<int>, ng: array<int>) returns (r: T)
      requires Valid() && IsBuilt() && Times(g, N, a) == g.zero
      requires IsEndomorphism(g, endo) && endo(a) == Times(g, LAMBDA, a)
      requires na.Length == ng.Length == 4 && IsScalar(na[..]) && IsScalar(ng[..])
      requires Value(na[..]) < N && Value(ng[..]) < N
      ensures r == g.add(Times(g, Value(na[..]), a), Times(g, Value(ng[..]), gen))
    {
      r := EcmultEndo(g, endo, a, na, ng, preG, preG128, gen);
    }
  }

  method TimesTwoTo128<T(!new)>(g: Ops<T>, x: T) returns (y: T)
    requires IsAbelian(g)
    ensures y == Times(g, TWO128, x)
  {
    y := x;
    var i := 0;
    TimesOne(g, x);
    while i < 128
      invariant 0 <= i <= 128
      invariant y == Times(g, Pow2(i), x)
    {
      TimesAdd(g, Pow2(i), Pow2(i), x);
      y := g.add(y, y);
      i := i + 1;
    }
    DigitWidths(i + 1);
  }
}
