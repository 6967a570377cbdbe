/** Scalars of four 64-bit limbs: sums, products and squares mod the group order n. */
module Scalar4x64 {
  import opened Bits

  /** The group order (section 2.7.1 of SEC 2). */
  const N: int := 0xFFFFFFFFFFFFFFFFFFFFFFFFFFFFFFFEBAAEDCE6AF48A03BBFD25E8CD0364141

  predicate IsU64(x: int) {
    0 <= x < 0x1_0000000000000000
  }

  /** The value of the three-word accumulator. */
  function Acc(c0: int, c1: int, c2: int): int {
    c0 + c1 * 0x1_0000000000000000 + c2 * 0x1_0000000000000000_0000000000000000
  }

  /** c += t on 64 bits; the sum wrapped exactly when it is below t. */
  method AddCarry(c: int, t: int) returns (d: int, over: int)
    requires IsU64(c) && IsU64(t)
    ensures IsU64(d) && 0 <= over <= 1 && d + over * 0x1_0000000000000000 == c + t
  {
    d := (c + t) % 0x1_0000000000000000;
    over := if d < t then 1 else 0;
  }

  /** muladd: adds a * b to the accumulator. */
  method MulAdd(c0: int, c1: int, c2: int, a: int, b: int) returns (d0: int, d1: int, d2: int)
    requires IsU64(c0) && IsU64(c1) && 0 <= c2 < 0xFFFFFFFF && IsU64(a) && IsU64(b)
    ensures IsU64(d0) && IsU64(d1) && c2 <= d2 <= c2 + 1
    ensures Acc(d0, d1, d2) == Acc(c0, c1, c2) + a * b
  {
    var th, tl := WideProduct(a, b);
    var over: int;
    d0, over := AddCarry(c0, tl);
    th := U64(th + over);
    d1, over := AddCarry(c1, th);
    d2 := c2 + over;
  }

  method WideProduct(a: int, b: int) returns (th: int, tl: int)
    requires IsU64(a) && IsU64(b)
    ensures 0 <= th < 0x1_0000000000000000 - 1 && IsU64(tl) && th * 0x1_0000000000000000 + tl == a * b
  {
    ProductBound(a, b, 0xFFFFFFFFFFFFFFFF, 0xFFFFFFFFFFFFFFFF);
    var t := a * b;
    th, tl := t / 0x1_0000000000000000, t % 0x1_0000000000000000;
  }

  lemma ProductBound(x: int, y: int, m: int, n: int)
    requires 0 <= x <= m && 0 <= y <= n
    ensures 0 <= x * y <= m * n
  {
    assert x * y <= m * y;
    assert m * y <= m * n;
  }

  method MulAddFast(c0: int, c1: int, a: int, b: int) returns (d0: int, d1: int)
    requires IsU64(c0) && IsU64(c1) && IsU64(a) && IsU64(b)
    requires Acc(c0, c1, 0) + a * b < 0x1_0000000000000000_0000000000000000
    ensures IsU64(d0) && IsU64(d1)
    ensures Acc(d0, d1, 0) == Acc(c0, c1, 0) + a * b
  {
    var th, tl := WideProduct(a, b);
    var over: int;
    d0, over := AddCarry(c0, tl);
    th := U64(th + over);
    d1 := U64(c1 + th);
  }

  function Value4(d0: int, d1: int, d2: int, d3: int): int {
    d0 + d1 * 0x1_0000000000000000 + d2 * 0x1_0000000000000000_0000000000000000 + d3 * 0x1_0000000000000000_0000000000000000_0000000000000000
  }

  /** Two halves of 256 bits each. */
  function Wide(lo: int, hi: int): int {
    lo + hi * 0x1_0000000000000000_0000000000000000_0000000000000000_0000000000000000
  }

  /** 2^256 replaced by what it is mod n. */
  function Fold(lo: int, hi: int): int {
    lo + hi * (0x1_0000000000000000_0000000000000000_0000000000000000_0000000000000000 - N)
  }

  predicate IsScalar(d: seq<int>) {
    |d| == 4 && IsU64(d[0]) && IsU64(d[1]) && IsU64(d[2]) && IsU64(d[3])
  }

  /** The eight limbs of the product. */
  method Mul512(a: seq<int>, b: seq<int>) returns (l: seq<int>)
    requires IsScalar(a) && IsScalar(b)
    ensures |l| == 8 && forall i :: 0 <= i < 8 ==> IsU64(l[i])
    ensures Wide(Value4(l[0], l[1], l[2], l[3]), Value4(l[4], l[5], l[6], l[7])) == Value(a) * Value(b)
  {
    ghost var high := Value4(a[1] * b[3] + a[2] * b[2] + a[3] * b[1], a[2] * b[3] + a[3] * b[2], a[3] * b[3], 0);
    var l0, l1, l2, l3, c0, c1 := MulLow(a, b);
    ghost var low := Value4(l0, l1, l2, l3);
    assert Wide(low, Acc(c0, c1, 0) + high) == Value(a) * Value(b) by {
      ValueOf(a);
      ValueOf(b);
      ExpandProduct(a[0], a[1], a[2], a[3], b[0], b[1], b[2], b[3], Value(a), Value(b));
    }
    ValueBound(a);
    ValueBound(b);
    HighHalfFits(Value(a), Value(b), low, Acc(c0, c1, 0) + high);
    var l4, l5, l6, l7 := MulHigh(a, b, c0, c1);
    l := [l0, l1, l2, l3, l4, l5, l6, l7];
  }

  /** The four upper limbs, from the carry of the lower ones. */
  method MulHigh(a: seq<int>, b: seq<int>, k0: int, k1: int) returns (l4: int, l5: int, l6: int, l7: int)
    requires IsScalar(a) && IsScalar(b) && IsU64(k0) && 0 <= k1 < 8
    requires Acc(k0, k1, 0) + Value4(a[1] * b[3] + a[2] * b[2] + a[3] * b[1], a[2] * b[3] + a[3] * b[2], a[3] * b[3], 0) < TWO256
    ensures IsU64(l4) && IsU64(l5) && IsU64(l6) && IsU64(l7)
    ensures Value4(l4, l5, l6, l7)
      == Acc(k0, k1, 0) + Value4(a[1] * b[3] + a[2] * b[2] + a[3] * b[1], a[2] * b[3] + a[3] * b[2], a[3] * b[3], 0)
  {
    var c0, c1, c2 := k0, k1, 0;
    c0, c1, c2 := MulAdd(c0, c1, c2, a[1], b[3]);
    c0, c1, c2 := MulAdd(c0, c1, c2, a[2], b[2]);
    c0, c1, c2 := MulAdd(c0, c1, c2, a[3], b[1]);
    l4 := c0; c0 := c1; c1 := c2; c2 := 0;
    c0, c1, c2 := MulAdd(c0, c1, c2, a[2], b[3]);
    c0, c1, c2 := MulAdd(c0, c1, c2, a[3], b[2]);
    l5 := c0; c0 := c1; c1 := c2; c2 := 0;
    LastColumnFits(l4, l5, Acc(c0, c1, 0) + a[3] * b[3]);
    c0, c1 := MulAddFast(c0, c1, a[3], b[3]);
    l6 := c0; c0 := c1; c1 := 0;
    l7 := c0;
  }

  /** The four lower limbs of the product, and the carry from them. */
  method MulLow(a: seq<int>, b: seq<int>) returns (l0: int, l1: int, l2: int, l3: int, c0: int, c1: int)
    requires IsScalar(a) && IsScalar(b)
    ensures IsU64(l0) && IsU64(l1) && IsU64(l2) && IsU64(l3) && IsU64(c0) && 0 <= c1 < 8
    ensures Wide(Value4(l0, l1, l2, l3), Acc(c0, c1, 0)) == Value4(a[0] * b[0], a[0] * b[1] + a[1] * b[0],
      a[0] * b[2] + a[1] * b[1] + a[2] * b[0], a[0] * b[3] + a[1] * b[2] + a[2] * b[1] + a[3] * b[0])
  {
    c0, c1 := 0, 0;
    var c2 := 0;
    ProductBound(a[0], b[0], 0xFFFFFFFFFFFFFFFF, 0xFFFFFFFFFFFFFFFF);
    c0, c1 := MulAddFast(c0, c1, a[0], b[0]);
    l0 := c0; c0 := c1; c1 := 0;
    c0, c1, c2 := MulAdd(c0, c1, c2, a[0], b[1]);
    c0, c1, c2 := MulAdd(c0, c1, c2, a[1], b[0]);
    l1 := c0; c0 := c1; c1 := c2; c2 := 0;
    c0, c1, c2 := MulAdd(c0, c1, c2, a[0], b[2]);
    c0, c1, c2 := MulAdd(c0, c1, c2, a[1], b[1]);
    c0, c1, c2 := MulAdd(c0, c1, c2, a[2], b[0]);
    l2 := c0; c0 := c1; c1 := c2; c2 := 0;
    c0, c1, c2 := MulAdd(c0, c1, c2, a[0], b[3]);
    c0, c1, c2 := MulAdd(c0, c1, c2, a[1], b[2]);
    c0, c1, c2 := MulAdd(c0, c1, c2, a[2], b[1]);
    c0, c1, c2 := MulAdd(c0, c1, c2, a[3], b[0]);
    l3 := c0; c0 := c1; c1 := c2; c2 := 0;
  }

  /** What is left for the last two limbs fits them. */
  lemma LastColumnFits(l4: int, l5: int, top: int)
    requires 0 <= l4 && 0 <= l5 && Acc(l4, l5, top) < TWO256
    ensures top < TWO128
  {
  }

  /** The upper half of a product of scalars fits four words. */
  lemma HighHalfFits(va: int, vb: int, lo: int, hi: int)
    requires 0 <= va < TWO256 && 0 <= vb < TWO256 && 0 <= lo && va * vb == Wide(lo, hi)
    ensures hi < TWO256
  {
    ProductBound(va, vb, TWO256 - 1, TWO256 - 1);
  }

  lemma Distribute(x: int, b0: int, b1: int, b2: int, b3: int)
    ensures x * Value4(b0, b1, b2, b3) == Value4(x * b0, x * b1, x * b2, x * b3)
  {
  }

  lemma ExpandProduct(a0: int, a1: int, a2: int, a3: int, b0: int, b1: int, b2: int, b3: int, va: int, vb: int)
    requires va == Value4(a0, a1, a2, a3) && vb == Value4(b0, b1, b2, b3)
    ensures va * vb == Wide(
      Value4(a0 * b0, a0 * b1 + a1 * b0, a0 * b2 + a1 * b1 + a2 * b0, a0 * b3 + a1 * b2 + a2 * b1 + a3 * b0),
      Value4(a1 * b3 + a2 * b2 + a3 * b1, a2 * b3 + a3 * b2, a3 * b3, 0))
  {
    Distribute(vb, a0, a1, a2, a3);
    Distribute(a0, b0, b1, b2, b3);
    Distribute(a1, b0, b1, b2, b3);
    Distribute(a2, b0, b1, b2, b3);
    Distribute(a3, b0, b1, b2, b3);
  }

  lemma WrapsToZero(t: int, over: int)
    requires IsU64(t) && 0 <= over <= 1
    ensures (t + over) % 0x1_0000000000000000 + (if over == 1 && (t + over) % 0x1_0000000000000000 == 0 then 0x1_0000000000000000 else 0) == t + over
  {
  }

  method MulAdd2(c0: int, c1: int, c2: int, a: int, b: int) returns (d0: int, d1: int, d2: int)
    requires IsU64(c0) && IsU64(c1) && 0 <= c2 < 0xFFFFFFFD && IsU64(a) && IsU64(b)
    ensures IsU64(d0) && IsU64(d1) && c2 <= d2 <= c2 + 3
    ensures Acc(d0, d1, d2) == Acc(c0, c1, c2) + 2 * (a * b)
  {
    var th, tl := WideProduct(a, b);
    var th2, over := AddCarry(th, th);
    d2 := c2 + over;
    var tl2: int;
    tl2, over := AddCarry(tl, tl);
    th2 := U64(th2 + over);
    d0, over := AddCarry(c0, tl2);
    WrapsToZero(th2, over);
    th2 := (th2 + over) % 0x1_0000000000000000;
    d2 := d2 + (if over == 1 && th2 == 0 then 1 else 0);
    d1, over := AddCarry(c1, th2);
    d2 := d2 + over;
  }

  method SumAdd(c0: int, c1: int, c2: int, a: int) returns (d0: int, d1: int, d2: int)
    requires IsU64(c0) && IsU64(c1) && 0 <= c2 < 0xFFFFFFFF && IsU64(a)
    ensures IsU64(d0) && IsU64(d1) && c2 <= d2 <= c2 + 1
    ensures Acc(d0, d1, d2) == Acc(c0, c1, c2) + a
  {
    var over: int;
    d0, over := AddCarry(c0, a);
    d1, over := AddCarry(c1, over);
    d2 := c2 + over;
  }

  method SumAddFast(c0: int, c1: int, a: int) returns (d0: int, d1: int)
    requires IsU64(c0) && IsU64(a) && 0 <= c1 < 0x1_0000000000000000 - 1
    ensures IsU64(d0) && c1 <= d1 <= c1 + 1
    ensures Acc(d0, d1, 0) == Acc(c0, c1, 0) + a
  {
    var over: int;
    d0, over := AddCarry(c0, a);
    d1 := U64(c1 + over);
  }

  method FirstFold(l: seq<int>) returns (m: seq<int>)
    requires |l| == 8 && forall i :: 0 <= i < 8 ==> IsU64(l[i])
    ensures |m| == 7 && (forall i :: 0 <= i < 6 ==> IsU64(m[i])) && 0 <= m[6] <= 1
    ensures Wide(Value4(m[0], m[1], m[2], m[3]), Value4(m[4], m[5], m[6], 0))
      == Fold(Value4(l[0], l[1], l[2], l[3]), Value4(l[4], l[5], l[6], l[7]))
  {
    var n0, n1, n2, n3 := l[4], l[5], l[6], l[7];
    var m0, m1, m2, c0, c1 := FirstLow(l);
    var c2 := 0;
    c0, c1, c2 := SumAdd(c0, c1, c2, l[3]);
    c0, c1, c2 := MulAdd(c0, c1, c2, n3, 0x402DA1732FC9BEBF);
    c0, c1, c2 := MulAdd(c0, c1, c2, n2, 0x4551231950B75FC4);
    c0, c1, c2 := SumAdd(c0, c1, c2, n1);
    var m3 := c0; c0 := c1; c1 := c2; c2 := 0;
    c0, c1, c2 := MulAdd(c0, c1, c2, n3, 0x4551231950B75FC4);
    c0, c1, c2 := SumAdd(c0, c1, c2, n2);
    var m4 := c0; c0 := c1; c1 := c2; c2 := 0;
    c0, c1 := SumAddFast(c0, c1, n3);
    var m5 := c0; c0 := c1; c1 := 0;
    m := [m0, m1, m2, m3, m4, m5, c0];
  }

  /** The first three columns of the first fold, and the carry from them. */
  method FirstLow(l: seq<int>) returns (m0: int, m1: int, m2: int, c0: int, c1: int)
    requires |l| == 8 && forall i :: 0 <= i < 8 ==> IsU64(l[i])
    ensures IsU64(m0) && IsU64(m1) && IsU64(m2) && IsU64(c0) && 0 <= c1 <= 4
    ensures Value4(m0, m1, m2, Acc(c0, c1, 0)) == Value4(l[0] + l[4] * 0x402DA1732FC9BEBF,
      l[1] + l[5] * 0x402DA1732FC9BEBF + l[4] * 0x4551231950B75FC4,
      l[2] + l[6] * 0x402DA1732FC9BEBF + l[5] * 0x4551231950B75FC4 + l[4], 0)
  {
    var n0, n1, n2 := l[4], l[5], l[6];
    c0, c1 := l[0], 0;
    var c2 := 0;
    c0, c1 := MulAddFast(c0, c1, n0, 0x402DA1732FC9BEBF);
    m0 := c0; c0 := c1; c1 := 0;
    c0, c1 := SumAddFast(c0, c1, l[1]);
    c0, c1, c2 := MulAdd(c0, c1, c2, n1, 0x402DA1732FC9BEBF);
    c0, c1, c2 := MulAdd(c0, c1, c2, n0, 0x4551231950B75FC4);
    m1 := c0; c0 := c1; c1 := c2; c2 := 0;
    c0, c1, c2 := SumAdd(c0, c1, c2, l[2]);
    c0, c1, c2 := MulAdd(c0, c1, c2, n2, 0x402DA1732FC9BEBF);
    c0, c1, c2 := MulAdd(c0, c1, c2, n1, 0x4551231950B75FC4);
    c0, c1, c2 := SumAdd(c0, c1, c2, n0);
    m2 := c0; c0 := c1; c1 := c2; c2 := 0;
  }

  method SecondFold(m: seq<int>) returns (p: seq<int>)
    requires |m| == 7 && (forall i :: 0 <= i < 6 ==> IsU64(m[i])) && 0 <= m[6] <= 1
    requires Value4(m[4], m[5], m[6], 0) <= TWO256 - N
    ensures |p| == 5 && (forall i :: 0 <= i < 4 ==> IsU64(p[i])) && 0 <= p[4] <= 2
    ensures Wide(Value4(p[0], p[1], p[2], p[3]), p[4]) == Fold(Value4(m[0], m[1], m[2], m[3]), Value4(m[4], m[5], m[6], 0))
  {
    var m5, m6 := m[5], m[6];
    var p0, p1, p2, c0, c1 := SecondLow(m);
    c0, c1 := SumAddFast(c0, c1, m[3]);
    c0, c1 := MulAddFast(c0, c1, m6, 0x4551231950B75FC4);
    c0, c1 := SumAddFast(c0, c1, m5);
    var p3 := c0; c0 := c1; c1 := 0;
    p := [p0, p1, p2, p3, c0 + m6];
    SecondFoldSmall(Value4(m[0], m[1], m[2], m[3]), Value4(m[4], m5, m6, 0), Value4(p0, p1, p2, p3), c0 + m6);
  }

  /** The first three columns of the second fold, and the carry from them. */
  method SecondLow(m: seq<int>) returns (p0: int, p1: int, p2: int, c0: int, c1: int)
    requires |m| == 7 && (forall i :: 0 <= i < 6 ==> IsU64(m[i])) && 0 <= m[6] <= 1
    ensures IsU64(p0) && IsU64(p1) && IsU64(p2) && IsU64(c0) && 0 <= c1 <= 4
    ensures Value4(p0, p1, p2, Acc(c0, c1, 0)) == Value4(m[0] + m[4] * 0x402DA1732FC9BEBF,
      m[1] + m[5] * 0x402DA1732FC9BEBF + m[4] * 0x4551231950B75FC4,
      m[2] + m[6] * 0x402DA1732FC9BEBF + m[5] * 0x4551231950B75FC4 + m[4], 0)
  {
    var m4, m5, m6 := m[4], m[5], m[6];
    c0, c1 := m[0], 0;
    var c2 := 0;
    c0, c1 := MulAddFast(c0, c1, m4, 0x402DA1732FC9BEBF);
    p0 := c0; c0 := c1; c1 := 0;
    c0, c1 := SumAddFast(c0, c1, m[1]);
    c0, c1, c2 := MulAdd(c0, c1, c2, m5, 0x402DA1732FC9BEBF);
    c0, c1, c2 := MulAdd(c0, c1, c2, m4, 0x4551231950B75FC4);
    p1 := c0; c0 := c1; c1 := c2; c2 := 0;
    c0, c1, c2 := SumAdd(c0, c1, c2, m[2]);
    c0, c1, c2 := MulAdd(c0, c1, c2, m6, 0x402DA1732FC9BEBF);
    c0, c1, c2 := MulAdd(c0, c1, c2, m5, 0x4551231950B75FC4);
    c0, c1, c2 := SumAdd(c0, c1, c2, m4);
    p2 := c0; c0 := c1; c1 := c2; c2 := 0;
  }

  lemma SecondFoldSmall(mlo: int, mhi: int, plo: int, p4: int)
    requires 0 <= mlo < TWO256 && 0 <= mhi <= TWO256 - N && 0 <= plo < TWO256 && Wide(plo, p4) == Fold(mlo, mhi)
    ensures 0 <= p4 <= 2
  {
  }

  method ThirdFold(p: seq<int>) returns (r: seq<int>, c: int)
    requires |p| == 5 && (forall i :: 0 <= i < 4 ==> IsU64(p[i])) && 0 <= p[4] <= 2
    ensures IsScalar(r) && 0 <= c <= 1
    ensures Wide(Value4(r[0], r[1], r[2], r[3]), c) == Fold(Value4(p[0], p[1], p[2], p[3]), p[4])
  {
    var p4 := p[4];
    c := p[0] + 0x402DA1732FC9BEBF * p4;
    var r0 := c % 0x1_0000000000000000; c := c / 0x1_0000000000000000;
    c := c + p[1] + 0x4551231950B75FC4 * p4;
    var r1 := c % 0x1_0000000000000000; c := c / 0x1_0000000000000000;
    c := c + p[2] + p4;
    var r2 := c % 0x1_0000000000000000; c := c / 0x1_0000000000000000;
    c := c + p[3];
    var r3 := c % 0x1_0000000000000000; c := c / 0x1_0000000000000000;
    r := [r0, r1, r2, r3];
  }

  lemma HighBound(lo: int, hi: int, mlo: int, mhi: int)
    requires 0 <= lo < TWO256 && 0 <= hi < TWO256 && 0 <= mlo < TWO256
    requires Wide(mlo, mhi) == Fold(lo, hi)
    ensures mhi <= TWO256 - N
  {
  }

  /** The number that little-endian limbs stand for. */
  function Value(d: seq<int>): int
  {
    if |d| == 0 then 0 else d[0] + 0x1_0000000000000000 * Value(d[1..])
  }

  lemma ValueOf(d: seq<int>)
    requires |d| == 4
    ensures Value(d) == Value4(d[0], d[1], d[2], d[3])
  {
    var e := d[1..];
    var f := e[1..];
    var g := f[1..];
    assert Value(g[1..]) == 0;
    assert Value(g) == g[0];
    assert Value(f) == f[0] + 0x1_0000000000000000 * Value(g);
    assert Value(e) == e[0] + 0x1_0000000000000000 * Value(f);
  }

  lemma ValueBound(d: seq<int>)
    requires IsScalar(d)
    ensures 0 <= Value(d) < TWO256
  {
    ValueOf(d);
  }

  method CheckOverflow(a: seq<int>) returns (yes: int)
    requires IsScalar(a)
    ensures yes == if Value(a) >= N then 1 else 0
  {
    ValueOf(a);
    var y, n := false, false;
    n := n || a[3] < 0xFFFFFFFFFFFFFFFF;
    n := n || a[2] < 0xFFFFFFFFFFFFFFFE;
    y := y || (a[2] > 0xFFFFFFFFFFFFFFFE && !n);
    n := n || a[1] < 0xBAAEDCE6AF48A03B;
    y := y || (a[1] > 0xBAAEDCE6AF48A03B && !n);
    y := y || (a[0] >= 0xBFD25E8CD0364141 && !n);
    yes := if y then 1 else 0;
  }

  /** Low 64 bits of the 128-bit accumulator t, and t >> 64. */
  method Word(t: int) returns (lo: int, hi: int)
    requires 0 <= t < 0x1_0000000000000000_0000000000000000
    ensures IsU64(lo) && 0 <= hi && t == lo + hi * 0x1_0000000000000000
  {
    lo, hi := t % 0x1_0000000000000000, t / 0x1_0000000000000000;
  }

  /** Adds overflow * (2^256 - n); the carry out of the top limb is dropped. */
  method Reduce(d: array<int>, overflow: int) returns (ghost carry: int)
    requires d.Length == 4 && IsScalar(d[..]) && 0 <= overflow <= 1
    modifies d
    ensures IsScalar(d[..])
    ensures Wide(Value(d[..]), carry) == Fold(old(Value(d[..])), overflow)
  {
    ValueOf(d[..]);
    var w: int;
    var t := d[0] + overflow * 0x402DA1732FC9BEBF;
    w, t := Word(t); d[0] := w;
    t := t + d[1] + overflow * 0x4551231950B75FC4;
    w, t := Word(t); d[1] := w;
    t := t + d[2] + overflow;
    w, t := Word(t); d[2] := w;
    t := t + d[3];
    w, t := Word(t); d[3] := w;
    carry := t;
    ValueOf(d[..]);
  }

  lemma ModOf(x: int, q: int, r: int)
    requires x == q * N + r && 0 <= r < N
    ensures x % N == r
  {
  }

  method FoldAll(l: seq<int>) returns (d: seq<int>, c: int, ghost q: int)
    requires |l| == 8 && forall i :: 0 <= i < 8 ==> IsU64(l[i])
    ensures IsScalar(d) && 0 <= c <= 1
    ensures Wide(Value(d), c) < 2 * N
    ensures Wide(Value4(l[0], l[1], l[2], l[3]), Value4(l[4], l[5], l[6], l[7])) == Wide(Value(d), c) + q * N
  {
    ghost var lo, hi := Value4(l[0], l[1], l[2], l[3]), Value4(l[4], l[5], l[6], l[7]);
    var m := FirstFold(l);
    ghost var mlo, mhi := Value4(m[0], m[1], m[2], m[3]), Value4(m[4], m[5], m[6], 0);
    HighBound(lo, hi, mlo, mhi);
    var p := SecondFold(m);
    d, c := ThirdFold(p);
    ValueOf(d);
    Folded(lo, hi, mlo, mhi, Value4(p[0], p[1], p[2], p[3]), p[4], Wide(Value(d), c));
    q := hi + mhi + p[4];
  }

  method Reduce512(r: array<int>, l: seq<int>)
    requires r.Length == 4
    requires |l| == 8 && forall i :: 0 <= i < 8 ==> IsU64(l[i])
    modifies r
    ensures IsScalar(r[..]) && Value(r[..]) < N
    ensures Value(r[..]) == Wide(Value4(l[0], l[1], l[2], l[3]), Value4(l[4], l[5], l[6], l[7])) % N
  {
    var d, c, q := FoldAll(l);
    ValueBound(d);
    var over := CheckOverflow(d);
    r[0], r[1], r[2], r[3] := d[0], d[1], d[2], d[3];
    assert r[..] == d;
    ghost var carry := Reduce(r, c + over);
    ValueBound(r[..]);
    FinalReduction(Value(d), c, c + over, Value(r[..]), carry, q);
  }

  lemma Folded(lo: int, hi: int, mlo: int, mhi: int, plo: int, p4: int, t: int)
    requires Wide(mlo, mhi) == Fold(lo, hi) && Wide(plo, p4) == Fold(mlo, mhi) && t == Fold(plo, p4)
    requires 0 <= plo < TWO256 && 0 <= p4 <= 2
    ensures Wide(lo, hi) == t + (hi + mhi + p4) * N
    ensures 0 <= t < 2 * N
  {
  }

  /** A 257-bit value below 2n, reduced by at most one n. */
  lemma FinalReduction(d: int, c: int, x: int, v: int, carry: int, q: int)
    requires 0 <= d < TWO256 && 0 <= c <= 1 && Wide(d, c) < 2 * N
    requires x == c + (if d >= N then 1 else 0)
    requires Wide(v, carry) == Fold(d, x) && 0 <= v < TWO256
    ensures 0 <= x <= 1 && 0 <= v < N
    ensures (Wide(d, c) + q * N) % N == v
  {
    assert v == Wide(d, c) - x * N;
    ModOf(Wide(d, c) + q * N, q + x, v);
  }

  method Sqr512(a: seq<int>) returns (l: seq<int>)
    requires IsScalar(a)
    ensures |l| == 8 && forall i :: 0 <= i < 8 ==> IsU64(l[i])
    ensures Wide(Value4(l[0], l[1], l[2], l[3]), Value4(l[4], l[5], l[6], l[7])) == Value(a) * Value(a)
  {
    ghost var high := Value4(2 * (a[1] * a[3]) + a[2] * a[2], 2 * (a[2] * a[3]), a[3] * a[3], 0);
    var l0, l1, l2, l3, c0, c1 := SqrLow(a);
    ghost var low := Value4(l0, l1, l2, l3);
    assert Wide(low, Acc(c0, c1, 0) + high) == Value(a) * Value(a) by {
      ValueOf(a);
      ExpandProduct(a[0], a[1], a[2], a[3], a[0], a[1], a[2], a[3], Value(a), Value(a));
    }
    ValueBound(a);
    HighHalfFits(Value(a), Value(a), low, Acc(c0, c1, 0) + high);
    var l4, l5, l6, l7 := SqrHigh(a, c0, c1);
    l := [l0, l1, l2, l3, l4, l5, l6, l7];
  }

  /** The four upper limbs of the square, from the carry of the lower ones. */
  method SqrHigh(a: seq<int>, k0: int, k1: int) returns (l4: int, l5: int, l6: int, l7: int)
    requires IsScalar(a) && IsU64(k0) && 0 <= k1 < 8
    requires Acc(k0, k1, 0) + Value4(2 * (a[1] * a[3]) + a[2] * a[2], 2 * (a[2] * a[3]), a[3] * a[3], 0) < TWO256
    ensures IsU64(l4) && IsU64(l5) && IsU64(l6) && IsU64(l7)
    ensures Value4(l4, l5, l6, l7) == Acc(k0, k1, 0) + Value4(2 * (a[1] * a[3]) + a[2] * a[2], 2 * (a[2] * a[3]), a[3] * a[3], 0)
  {
    var c0, c1, c2 := k0, k1, 0;
    c0, c1, c2 := MulAdd2(c0, c1, c2, a[1], a[3]);
    c0, c1, c2 := MulAdd(c0, c1, c2, a[2], a[2]);
    l4 := c0; c0 := c1; c1 := c2; c2 := 0;
    c0, c1, c2 := MulAdd2(c0, c1, c2, a[2], a[3]);
    l5 := c0; c0 := c1; c1 := c2; c2 := 0;
    LastColumnFits(l4, l5, Acc(c0, c1, 0) + a[3] * a[3]);
    c0, c1 := MulAddFast(c0, c1, a[3], a[3]);
    l6 := c0; c0 := c1; c1 := 0;
    l7 := c0;
  }

  /** The four lower limbs of the square, and the carry from them. */
  method SqrLow(a: seq<int>) returns (l0: int, l1: int, l2: int, l3: int, c0: int, c1: int)
    requires IsScalar(a)
    ensures IsU64(l0) && IsU64(l1) && IsU64(l2) && IsU64(l3) && IsU64(c0) && 0 <= c1 < 8
    ensures Wide(Value4(l0, l1, l2, l3), Acc(c0, c1, 0)) == Value4(a[0] * a[0], 2 * (a[0] * a[1]),
      2 * (a[0] * a[2]) + a[1] * a[1], 2 * (a[0] * a[3]) + 2 * (a[1] * a[2]))
  {
    c0, c1 := 0, 0;
    var c2 := 0;
    ProductBound(a[0], a[0], 0xFFFFFFFFFFFFFFFF, 0xFFFFFFFFFFFFFFFF);
    c0, c1 := MulAddFast(c0, c1, a[0], a[0]);
    l0 := c0; c0 := c1; c1 := 0;
    c0, c1, c2 := MulAdd2(c0, c1, c2, a[0], a[1]);
    l1 := c0; c0 := c1; c1 := c2; c2 := 0;
    c0, c1, c2 := MulAdd2(c0, c1, c2, a[0], a[2]);
    c0, c1, c2 := MulAdd(c0, c1, c2, a[1], a[1]);
    l2 := c0; c0 := c1; c1 := c2; c2 := 0;
    c0, c1, c2 := MulAdd2(c0, c1, c2, a[0], a[3]);
    c0, c1, c2 := MulAdd2(c0, c1, c2, a[1], a[2]);
    l3 := c0; c0 := c1; c1 := c2; c2 := 0;
  }

  method ScalarMul(r: array<int>, a: array<int>, b: array<int>)
    requires r.Length == a.Length == b.Length == 4
    requires IsScalar(a[..]) && IsScalar(b[..])
    modifies r
    ensures IsScalar(r[..]) && Value(r[..]) < N
    ensures Value(r[..]) == old(Value(a[..]) * Value(b[..])) % N
  {
    var l := Mul512(a[..], b[..]);
    Reduce512(r, l);
  }

  method ScalarSqr(r: array<int>, a: array<int>)
    requires r.Length == a.Length == 4
    requires IsScalar(a[..])
    modifies r
    ensures IsScalar(r[..]) && Value(r[..]) < N
    ensures Value(r[..]) == old(Value(a[..]) * Value(a[..])) % N
  {
    var l := Sqr512(a[..]);
    Reduce512(r, l);
  }

  method AddLimbs(r: array<int>, a: array<int>, b: array<int>) returns (t: int)
    requires r.Length == a.Length == b.Length == 4
    requires IsScalar(a[..]) && IsScalar(b[..])
    modifies r
    ensures IsScalar(r[..])
    ensures Wide(Value(r[..]), t) == old(Value(a[..])) + old(Value(b[..]))
  {
    ValueOf(a[..]);
    ValueOf(b[..]);
    var w: int;
    t := a[0] + b[0];
    w, t := Word(t); r[0] := w;
    t := t + a[1] + b[1];
    w, t := Word(t); r[1] := w;
    t := t + a[2] + b[2];
    w, t := Word(t); r[2] := w;
    t := t + a[3] + b[3];
    w, t := Word(t); r[3] := w;
    ValueOf(r[..]);
  }

  method ScalarAdd(r: array<int>, a: array<int>, b: array<int>) returns (overflow: int)
    requires r.Length == a.Length == b.Length == 4
    requires IsScalar(a[..]) && IsScalar(b[..]) && Value(a[..]) < N && Value(b[..]) < N
    modifies r
    ensures IsScalar(r[..]) && Value(r[..]) < N
    ensures Value(r[..]) == (old(Value(a[..])) + old(Value(b[..]))) % N
    ensures overflow == if old(Value(a[..])) + old(Value(b[..])) >= N then 1 else 0
  {
    ValueBound(a[..]);
    ValueBound(b[..]);
    var t := AddLimbs(r, a, b);
    overflow := CheckOverflow(r[..]);
    overflow := t + overflow;
    ghost var d := Value(r[..]);
    ValueBound(r[..]);
    ghost var carry := Reduce(r, overflow);
    ValueBound(r[..]);
    FinalReduction(d, t, overflow, Value(r[..]), carry, 0);
  }
}
