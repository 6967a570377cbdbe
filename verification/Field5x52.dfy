/** Field elements of five 52-bit limbs: products and squares mod p. */
module Field5x52 {
  import opened Bits
  import opened Notions

  const P: int := 0xFFFFFFFFFFFFFFFFFFFFFFFFFFFFFFFFFFFFFFFFFFFFFFFFFFFFFFFEFFFFFC2F

  function Value5(n0: int, n1: int, n2: int, n3: int, n4: int): int
  {
    n0 + n1 * 0x10000000000000 + n2 * 0x100000000000000000000000000
      + n3 * 0x1000000000000000000000000000000000000000
      + n4 * 0x10000000000000000000000000000000000000000000000000000
  }

  function Value(n: seq<int>): int
    requires |n| == 5
  {
    Value5(n[0], n[1], n[2], n[3], n[4])
  }

  predicate MulOperand(n: seq<int>) {
    |n| == 5
    && 0 <= n[0] < 0x100000000000000 && 0 <= n[1] < 0x100000000000000
    && 0 <= n[2] < 0x100000000000000 && 0 <= n[3] < 0x100000000000000
    && 0 <= n[4] < 0x10000000000000
  }

  predicate MulResult(n: seq<int>) {
    |n| == 5
    && 0 <= n[0] < 0x10000000000000 && 0 <= n[1] < 0x10000000000000
    && 0 <= n[2] < 0x10000000000000 && 0 <= n[3] < 0x10000000000000
    && 0 <= n[4] <= 0x0FFFFFFFFFFFF * 2
  }

  /** x and y differ by a multiple of p. The definition is used only where Open is mentioned. */
  ghost predicate Congruent(x: int, y: int) {
    forall u: int {:trigger Open(OfCongruent, u)} :: Open(OfCongruent, u) ==> exists q: int :: x + q * P == y
  }

  lemma CongruentBy(x: int, y: int, q: int)
    requires x + q * P == y
    ensures Congruent(x, y)
  {
  }

  lemma Quotient(x: int, y: int) returns (q: int)
    requires Congruent(x, y)
    ensures x + q * P == y
  {
    assert Opened();
    q :| x + q * P == y;
  }

  /** The first `rows` terms of column x of the schoolbook product. */
  ghost function Column(a: seq<int>, b: seq<int>, x: int, rows: nat): int
    requires |a| == |b| == 5 && rows <= 5
  {
    if rows == 0 then 0
    else Column(a, b, x, rows - 1) + (if 0 <= x - rows + 1 < 5 then a[rows - 1] * b[x - rows + 1] else 0)
  }

  lemma Product(x: int, y: int, m: int, n: int)
    requires 0 <= x <= m && 0 <= y <= n
    ensures 0 <= x * y <= m * n
  {
    assert x * y <= m * y;
    assert m * y <= m * n;
  }

  method AddColumn(a: seq<int>, b: seq<int>, x: int) returns (s: int)
    requires MulOperand(a) && MulOperand(b) && 0 <= x <= 8
    ensures s == Column(a, b, x, 5)
    ensures 0 <= s <= 5 * 0x10000000000000000000000000000
    ensures x == 8 ==> s <= 0x100000000000000000000000000
  {
    s := 0;
    for i := 0 to 5
      invariant s == Column(a, b, x, i)
      invariant 0 <= s <= i * 0x10000000000000000000000000000
      invariant x == 8 && i < 5 ==> s == 0
      invariant x == 8 ==> s <= 0x100000000000000000000000000
    {
      if 0 <= x - i < 5 {
        Product(a[i], b[x - i], 0x100000000000000, 0x100000000000000);
        if x == 8 {
          Product(a[i], b[x - i], 0x10000000000000, 0x10000000000000);
        }
        s := U128(s + U128(a[i] * b[x - i]));
      }
    }
  }

  method Carry52(x: int) returns (lo: int, hi: int)
    requires 0 <= x < 0x1_00000000_00000000_00000000_00000000
    ensures x == lo + hi * 0x10000000000000 && 0 <= lo < 0x10000000000000
  {
    lo, hi := x % 0x10000000000000, x / 0x10000000000000;
  }

  // stage 1
  method FoldTop(p3: int, p4: int, p8: int) returns (t3: int, t4: int, tx: int, d: int, ghost k0: int, ghost k1: int, ghost d1: int)
    requires 0 <= p3 <= 5 * 0x10000000000000000000000000000
    requires 0 <= p4 <= 5 * 0x10000000000000000000000000000
    requires 0 <= p8 <= 0x100000000000000000000000000
    ensures 0 <= t3 < 0x10000000000000 && 0 <= t4 < 0x1000000000000 && 0 <= tx < 16 && 0 <= d < 0x1_00000000_00000000
    ensures TopCut(p3, p4, p8, t3, t4, tx, d, k0, k1, d1)
  {
    d := p3;
    var c := p8;
    var m: int;
    m, c := Carry52(c);
    k0, k1 := m, c;
    d := U128(d + U128(m * 0x1000003D10));
    t3, d := Carry52(d);
    d1 := d;
    d := U128(d + p4);
    d := U128(d + U128(c * 0x1000003D10));
    t4, d := Carry52(d);
    tx, t4 := t4 / 0x1000000000000, t4 % 0x1000000000000;
  }

  method FoldBottom(p0: int, p5: int, tx: int, d2: int) returns (r0: int, c: int, d: int, ghost u: int)
    requires 0 <= p0 <= 5 * 0x10000000000000000000000000000
    requires 0 <= p5 <= 5 * 0x10000000000000000000000000000
    requires 0 <= tx < 16 && 0 <= d2 < 0x1_00000000_00000000
    ensures 0 <= r0 < 0x10000000000000 && 0 <= c < 0x6000000000000000 && 0 <= d < 0x6000000000000000
    ensures BottomCut(p0, p5, tx, d2, r0, c, d, u)
  {
    c := p0;
    d := U128(d2 + p5);
    var u0: int;
    u0, d := Carry52(d);
    u := u0;
    u0 := U64(u0 * 16 + tx);
    c := U128(c + U128(u0 * 0x1000003D1));
    r0, c := Carry52(c);
  }

  method FoldMiddle(pc: int, pd: int, c0: int, d0: int) returns (r: int, c: int, d: int, ghost e: int)
    requires 0 <= pc <= 5 * 0x10000000000000000000000000000
    requires 0 <= pd <= 5 * 0x10000000000000000000000000000
    requires 0 <= c0 < 0x6000000000000000 && 0 <= d0 < 0x6000000000000000
    ensures 0 <= r < 0x10000000000000 && 0 <= c < 0x6000000000000000 && 0 <= d < 0x6000000000000000
    ensures MiddleCut(pc, pd, c0, d0, r, c, d, e)
  {
    c := U128(c0 + pc);
    d := U128(d0 + pd);
    var m: int;
    m, d := Carry52(d);
    e := m;
    c := U128(c + U128(m * 0x1000003D10));
    r, c := Carry52(c);
  }

  method FoldLast(c5: int, d5: int, t3: int, t4: int) returns (r3: int, r4: int, ghost c6: int)
    requires 0 <= c5 < 0x6000000000000000 && 0 <= d5 < 0x6000000000000000 && Limb(t3) && 0 <= t4 < 0x1000000000000
    ensures Limb(r3) && 0 <= r4 <= 0x0FFFFFFFFFFFF * 2 && LastCut(c5, d5, t3, t4, r3, r4, c6)
  {
    var c := U128(c5 + U128(d5 * 0x1000003D10) + t3);
    r3, c := Carry52(c);
    c6 := c;
    r4 := U128(c + t4);
  }

  predicate Limb(x: int) {
    0 <= x < 0x10000000000000
  }

  /** The cuts at 52 bits: columns 3, 4 and 8 first, and what lies above limb 4 comes back below, times 2^260 mod p. Used like Congruent. */
  ghost predicate TopCut(p3: int, p4: int, p8: int, t3: int, t4: int, tx: int, d: int, k0: int, k1: int, d1: int) {
    forall z: int {:trigger Open(OfFold, z)} :: Open(OfFold, z) ==>
      && p8 == k0 + k1 * 0x10000000000000 && Limb(k0)
      && p3 + k0 * 0x1000003D10 == t3 + d1 * 0x10000000000000 && Limb(t3)
      && d1 + p4 + k1 * 0x1000003D10 == t4 + tx * 0x1000000000000 + d * 0x10000000000000
      && 0 <= t4 < 0x1000000000000 && 0 <= tx < 16
  }

  /** Columns 5 and 0; here the part above 2^256 comes back too. Used like Congruent. */
  ghost predicate BottomCut(p0: int, p5: int, tx: int, d2: int, r0: int, c: int, d: int, u: int) {
    forall z: int {:trigger Open(OfFold, z)} :: Open(OfFold, z) ==>
      && d2 + p5 == u + d * 0x10000000000000 && Limb(u)
      && p0 + (u * 16 + tx) * 0x1000003D1 == r0 + c * 0x10000000000000 && Limb(r0)
  }

  /** Columns 6 and 1, and 7 and 2. Used like Congruent. */
  ghost predicate MiddleCut(pc: int, pd: int, c0: int, d0: int, r: int, c: int, d: int, e: int) {
    forall z: int {:trigger Open(OfFold, z)} :: Open(OfFold, z) ==>
      && d0 + pd == e + d * 0x10000000000000 && Limb(e)
      && c0 + pc + e * 0x1000003D10 == r + c * 0x10000000000000 && Limb(r)
  }

  /** The last carries. Used like Congruent. */
  ghost predicate LastCut(c5: int, d5: int, t3: int, t4: int, r3: int, r4: int, c6: int) {
    forall z: int {:trigger Open(OfFold, z)} :: Open(OfFold, z) ==>
      c5 + d5 * 0x1000003D10 + t3 == r3 + c6 * 0x10000000000000 && Limb(r3) && r4 == c6 + t4
  }

  /** What the steps of a product leave behind on the way from the nine columns to the five limbs. */
  datatype FoldTrace = FoldTrace(k0: int, k1: int, d1: int, t3: int, d2: int, t4: int, tx: int, d3: int, u: int,
    c3: int, e: int, d4: int, c4: int, f: int, d5: int, c5: int, c6: int)

  ghost predicate FoldSteps(p: seq<int>, r: seq<int>, w: FoldTrace)
    requires |p| == 9 && |r| == 5
  {
    && TopCut(p[3], p[4], p[8], w.t3, w.t4, w.tx, w.d2, w.k0, w.k1, w.d1)
    && BottomCut(p[0], p[5], w.tx, w.d2, r[0], w.c3, w.d3, w.u)
    && MiddleCut(p[1], p[6], w.c3, w.d3, r[1], w.c4, w.d4, w.e)
    && MiddleCut(p[2], p[7], w.c4, w.d4, r[2], w.c5, w.d5, w.f)
    && LastCut(w.c5, w.d5, w.t3, w.t4, r[3], r[4], w.c6)
  }

  /** The limbs r come from the columns p in these steps. */
  ghost predicate IsFold(p: seq<int>, r: seq<int>) {
    |p| == 9 && |r| == 5 && exists w :: FoldSteps(p, r, w)
  }

  lemma FoldIdentity(p: seq<int>, r: seq<int>, w: FoldTrace)
    requires |p| == 9 && |r| == 5 && FoldSteps(p, r, w)
    ensures Congruent(Value(r), Columns(p[0], p[1], p[2], p[3], p[4], p[5], p[6], p[7], p[8]))
  {
    assert Open(OfFold, 0);
    var q := 16 * (Value5(0, w.e, w.f, w.k0 + w.d5, w.k1) + w.u) + w.tx;
    CongruentBy(Value(r), Columns(p[0], p[1], p[2], p[3], p[4], p[5], p[6], p[7], p[8]), q);
  }

  /** The columns determine the limbs: products and squares with the same columns agree in every limb, not only mod p. */
  lemma FoldUnique(p: seq<int>, r: seq<int>, s: seq<int>)
    requires IsFold(p, r) && IsFold(p, s)
    ensures r == s
  {
    var v :| FoldSteps(p, r, v);
    var w :| FoldSteps(p, s, w);
    TopUnique(p[3], p[4], p[8], v, w);
    BottomUnique(p[0], p[5], w.tx, w.d2, r[0], v.c3, v.d3, v.u, s[0], w.c3, w.d3, w.u);
    MiddleUnique(p[1], p[6], w.c3, w.d3, r[1], v.c4, v.d4, v.e, s[1], w.c4, w.d4, w.e);
    MiddleUnique(p[2], p[7], w.c4, w.d4, r[2], v.c5, v.d5, v.f, s[2], w.c5, w.d5, w.f);
    LastUnique(w.c5, w.d5, w.t3, w.t4, r[3], r[4], v.c6, s[3], s[4], w.c6);
  }

  lemma CutUnique(lo: int, hi: int, lo': int, hi': int)
    requires lo + hi * 0x10000000000000 == lo' + hi' * 0x10000000000000 && Limb(lo) && Limb(lo')
    ensures lo == lo' && hi == hi'
  {
  }

  lemma TopUnique(p3: int, p4: int, p8: int, v: FoldTrace, w: FoldTrace)
    requires TopCut(p3, p4, p8, v.t3, v.t4, v.tx, v.d2, v.k0, v.k1, v.d1)
    requires TopCut(p3, p4, p8, w.t3, w.t4, w.tx, w.d2, w.k0, w.k1, w.d1)
    ensures v.t3 == w.t3 && v.t4 == w.t4 && v.tx == w.tx && v.d2 == w.d2
  {
    assert Open(OfFold, 0);
    CutUnique(v.k0, v.k1, w.k0, w.k1);
    CutUnique(v.t3, v.d1, w.t3, w.d1);
    CutUnique(v.t4 + v.tx * 0x1000000000000, v.d2, w.t4 + w.tx * 0x1000000000000, w.d2);
  }

  lemma BottomUnique(p0: int, p5: int, tx: int, d2: int, r: int, c: int, d: int, u: int, r': int, c': int, d': int, u': int)
    requires BottomCut(p0, p5, tx, d2, r, c, d, u) && BottomCut(p0, p5, tx, d2, r', c', d', u')
    ensures r == r' && c == c' && d == d'
  {
    assert Open(OfFold, 0);
    CutUnique(u, d, u', d');
    CutUnique(r, c, r', c');
  }

  lemma MiddleUnique(pc: int, pd: int, c0: int, d0: int, r: int, c: int, d: int, e: int, r': int, c': int, d': int, e': int)
    requires MiddleCut(pc, pd, c0, d0, r, c, d, e) && MiddleCut(pc, pd, c0, d0, r', c', d', e')
    ensures r == r' && c == c' && d == d'
  {
    assert Open(OfFold, 0);
    CutUnique(e, d, e', d');
    CutUnique(r, c, r', c');
  }

  lemma LastUnique(c5: int, d5: int, t3: int, t4: int, r3: int, r4: int, c6: int, r3': int, r4': int, c6': int)
    requires LastCut(c5, d5, t3, t4, r3, r4, c6) && LastCut(c5, d5, t3, t4, r3', r4', c6')
    ensures r3 == r3' && r4 == r4'
  {
    assert Open(OfFold, 0);
    CutUnique(r3, c6, r3', c6');
  }

  /** The nine columns of the product. */
  ghost function AllOf(a: seq<int>, b: seq<int>): (p: seq<int>)
    requires |a| == |b| == 5
    ensures |p| == 9
  {
    [Column(a, b, 0, 5), Column(a, b, 1, 5), Column(a, b, 2, 5), Column(a, b, 3, 5), Column(a, b, 4, 5),
      Column(a, b, 5, 5), Column(a, b, 6, 5), Column(a, b, 7, 5), Column(a, b, 8, 5)]
  }

  ghost function Columns(p0: int, p1: int, p2: int, p3: int, p4: int, p5: int, p6: int, p7: int, p8: int): int
  {
    Value5(p0, p1, p2, p3, p4) + Value5(p5, p6, p7, p8, 0) * 0x100000000000000000000000000000000000000000000000000000000000000000
  }

  method FeMulInner(r: array<int>, a: array<int>, b: array<int>)
    requires r.Length == a.Length == b.Length == 5
    requires r != b
    requires MulOperand(a[..]) && MulOperand(b[..])
    modifies r
    ensures MulResult(r[..])
    ensures Congruent(Value(r[..]), old(Value(a[..]) * Value(b[..])))
    ensures IsFold(AllOf(old(a[..]), old(b[..])), r[..])
  {
    var a' := a[..];
    ghost var b' := b[..];
    var p3 := AddColumn(a', b[..], 3);
    var p8 := AddColumn(a', b[..], 8);
    var p4 := AddColumn(a', b[..], 4);
    var t3, t4, tx, d2, k0, k1, d1 := FoldTop(p3, p4, p8);
    var p0 := AddColumn(a', b[..], 0);
    var p5 := AddColumn(a', b[..], 5);
    var r0, c3, d3, u := FoldBottom(p0, p5, tx, d2);
    r[0] := r0;
    assert b[..] == b';
    var p1 := AddColumn(a', b[..], 1);
    var p6 := AddColumn(a', b[..], 6);
    var r1, c4, d4, e := FoldMiddle(p1, p6, c3, d3);
    r[1] := r1;
    assert b[..] == b';
    var p2 := AddColumn(a', b[..], 2);
    var p7 := AddColumn(a', b[..], 7);
    var r2, c5, d5, f := FoldMiddle(p2, p7, c4, d4);
    r[2] := r2;
    var r3, r4, c6 := FoldLast(c5, d5, t3, t4);
    r[3] := r3;
    r[4] := r4;
    assert r[..] == [r0, r1, r2, r3, r4];
    ghost var trace := FoldTrace(k0, k1, d1, t3, d2, t4, tx, d3, u, c3, e, d4, c4, f, d5, c5, c6);
    ghost var p, limbs := [p0, p1, p2, p3, p4, p5, p6, p7, p8], [r0, r1, r2, r3, r4];
    assert p == AllOf(a', b');
    assert FoldSteps(p, limbs, trace);
    FoldIdentity(p, limbs, trace);
    ProductColumns(a', b');
  }

  lemma Distribute(x: int, b0: int, b1: int, b2: int, b3: int, b4: int)
    ensures x * Value5(b0, b1, b2, b3, b4) == Value5(x * b0, x * b1, x * b2, x * b3, x * b4)
  {
  }

  lemma Regroup(m00: int, m01: int, m02: int, m03: int, m04: int, m10: int, m11: int, m12: int, m13: int, m14: int, m20: int,
      m21: int, m22: int, m23: int, m24: int, m30: int, m31: int, m32: int, m33: int, m34: int, m40: int, m41: int, m42: int,
      m43: int, m44: int)
    ensures Value5(Value5(m00, m01, m02, m03, m04), Value5(m10, m11, m12, m13, m14), Value5(m20, m21, m22, m23, m24), Value5(m30, m31, m32, m33, m34), Value5(m40, m41, m42, m43, m44))
      == Columns(m00, m01 + m10, m02 + m11 + m20, m03 + m12 + m21 + m30, m04 + m13 + m22 + m31 + m40, m14 + m23 + m32 + m41, m24 + m33 + m42, m34 + m43, m44)
  {
  }

  lemma ExpandProduct(a0: int, a1: int, a2: int, a3: int, a4: int, b0: int, b1: int, b2: int, b3: int, b4: int, v: int)
    requires v == Value5(b0, b1, b2, b3, b4)
    ensures Value5(a0 * v, a1 * v, a2 * v, a3 * v, a4 * v)
      == Columns(a0 * b0, a0 * b1 + a1 * b0, a0 * b2 + a1 * b1 + a2 * b0, a0 * b3 + a1 * b2 + a2 * b1 + a3 * b0, a0 * b4 + a1 * b3 + a2 * b2 + a3 * b1 + a4 * b0, a1 * b4 + a2 * b3 + a3 * b2 + a4 * b1, a2 * b4 + a3 * b3 + a4 * b2, a3 * b4 + a4 * b3, a4 * b4)
  {
    Distribute(a0, b0, b1, b2, b3, b4);
    Distribute(a1, b0, b1, b2, b3, b4);
    Distribute(a2, b0, b1, b2, b3, b4);
    Distribute(a3, b0, b1, b2, b3, b4);
    Distribute(a4, b0, b1, b2, b3, b4);
    Regroup(a0 * b0, a0 * b1, a0 * b2, a0 * b3, a0 * b4, a1 * b0, a1 * b1, a1 * b2, a1 * b3, a1 * b4, a2 * b0, a2 * b1, a2 * b2,
        a2 * b3, a2 * b4, a3 * b0, a3 * b1, a3 * b2, a3 * b3, a3 * b4, a4 * b0, a4 * b1, a4 * b2, a4 * b3, a4 * b4);
  }

  function Term(a: seq<int>, b: seq<int>, x: int, i: int): int
    requires |a| == |b| == 5 && 0 <= i < 5
  {
    if 0 <= x - i < 5 then a[i] * b[x - i] else 0
  }

  lemma ColumnTerms(a: seq<int>, b: seq<int>, x: int)
    requires |a| == |b| == 5
    ensures Column(a, b, x, 5) == Term(a, b, x, 0) + Term(a, b, x, 1) + Term(a, b, x, 2) + Term(a, b, x, 3) + Term(a, b, x, 4)
  {
    assert Column(a, b, x, 1) == Column(a, b, x, 0) + Term(a, b, x, 0);
    assert Column(a, b, x, 2) == Column(a, b, x, 1) + Term(a, b, x, 1);
    assert Column(a, b, x, 3) == Column(a, b, x, 2) + Term(a, b, x, 2);
    assert Column(a, b, x, 4) == Column(a, b, x, 3) + Term(a, b, x, 3);
    assert Column(a, b, x, 5) == Column(a, b, x, 4) + Term(a, b, x, 4);
  }

  lemma AllColumns(a: seq<int>, b: seq<int>)
    requires |a| == |b| == 5
    ensures Column(a, b, 0, 5) == a[0] * b[0]
    ensures Column(a, b, 1, 5) == a[0] * b[1] + a[1] * b[0]
    ensures Column(a, b, 2, 5) == a[0] * b[2] + a[1] * b[1] + a[2] * b[0]
    ensures Column(a, b, 3, 5) == a[0] * b[3] + a[1] * b[2] + a[2] * b[1] + a[3] * b[0]
    ensures Column(a, b, 4, 5) == a[0] * b[4] + a[1] * b[3] + a[2] * b[2] + a[3] * b[1] + a[4] * b[0]
    ensures Column(a, b, 5, 5) == a[1] * b[4] + a[2] * b[3] + a[3] * b[2] + a[4] * b[1]
    ensures Column(a, b, 6, 5) == a[2] * b[4] + a[3] * b[3] + a[4] * b[2]
    ensures Column(a, b, 7, 5) == a[3] * b[4] + a[4] * b[3]
    ensures Column(a, b, 8, 5) == a[4] * b[4]
  {
    ColumnTerms(a, b, 0);
    ColumnTerms(a, b, 1);
    ColumnTerms(a, b, 2);
    ColumnTerms(a, b, 3);
    ColumnTerms(a, b, 4);
    ColumnTerms(a, b, 5);
    ColumnTerms(a, b, 6);
    ColumnTerms(a, b, 7);
    ColumnTerms(a, b, 8);
  }

  lemma ProductColumns(a: seq<int>, b: seq<int>)
    requires |a| == |b| == 5
    ensures Value(a) * Value(b) == Columns(Column(a, b, 0, 5), Column(a, b, 1, 5), Column(a, b, 2, 5), Column(a, b, 3, 5),
      Column(a, b, 4, 5), Column(a, b, 5, 5), Column(a, b, 6, 5), Column(a, b, 7, 5), Column(a, b, 8, 5))
  {
    var v := Value(b);
    AllColumns(a, b);
    calc {
      Value(a) * v;
      { Distribute(v, a[0], a[1], a[2], a[3], a[4]); }
      Value5(a[0] * v, a[1] * v, a[2] * v, a[3] * v, a[4] * v);
      { ExpandProduct(a[0], a[1], a[2], a[3], a[4], b[0], b[1], b[2], b[3], b[4], v); }
      Columns(a[0] * b[0], a[0] * b[1] + a[1] * b[0], a[0] * b[2] + a[1] * b[1] + a[2] * b[0], a[0] * b[3] + a[1] * b[2] + a[2] * b[1] + a[3] * b[0], a[0] * b[4] + a[1] * b[3] + a[2] * b[2] + a[3] * b[1] + a[4] * b[0], a[1] * b[4] + a[2] * b[3] + a[3] * b[2] + a[4] * b[1], a[2] * b[4] + a[3] * b[3] + a[4] * b[2], a[3] * b[4] + a[4] * b[3], a[4] * b[4]);
    }
  }

  lemma DoubledColumns(a: seq<int>)
    requires |a| == 5
    ensures Column(a, a, 0, 5) == a[0] * a[0]
    ensures Column(a, a, 1, 5) == (a[0] * 2) * a[1]
    ensures Column(a, a, 2, 5) == (a[0] * 2) * a[2] + a[1] * a[1]
    ensures Column(a, a, 3, 5) == (a[0] * 2) * a[3] + (a[1] * 2) * a[2]
    ensures Column(a, a, 4, 5) == a[0] * (a[4] * 2) + (a[1] * 2) * a[3] + a[2] * a[2]
    ensures Column(a, a, 5, 5) == a[1] * (a[4] * 2) + (a[2] * 2) * a[3]
    ensures Column(a, a, 6, 5) == a[2] * (a[4] * 2) + a[3] * a[3]
    ensures Column(a, a, 7, 5) == a[3] * (a[4] * 2)
    ensures Column(a, a, 8, 5) == a[4] * a[4]
  {
    AllColumns(a, a);
    TwiceProduct(a[0], a[1]);
    TwiceProduct(a[0], a[2]);
    TwiceProduct(a[0], a[3]);
    TwiceProduct(a[1], a[2]);
    TwiceProduct(a[1], a[3]);
    TwiceProduct(a[2], a[3]);
    TwiceProduct(a[0], a[4]);
    TwiceProduct(a[1], a[4]);
    TwiceProduct(a[2], a[4]);
    TwiceProduct(a[3], a[4]);
  }

  lemma TwiceProduct(x: int, y: int)
    ensures x * y + y * x == (x * 2) * y == x * (y * 2)
  {
  }

  /** p0..p8 of a squaring, with the doubled limbs the source forms. */
  method SquareColumns(a: seq<int>) returns (p: seq<int>)
    requires MulOperand(a)
    ensures |p| == 9
    ensures forall x :: 0 <= x < 9 ==> p[x] == Column(a, a, x, 5) && 0 <= p[x] <= 5 * 0x10000000000000000000000000000
    ensures p[8] <= 0x100000000000000000000000000
  {
    var a0, a1, a2, a3, a4 := a[0], a[1], a[2], a[3], a[4];
    DoubledColumns(a);
    ColumnBounds(a);
    var p3 := U128(U64(a0 * 2) * a3 + U64(a1 * 2) * a2);
    var p8 := U128(a4 * a4);
    a4 := U64(a4 * 2);
    var p4 := U128(a0 * a4 + U64(a1 * 2) * a3 + a2 * a2);
    var p0 := U128(a0 * a0);
    var p5 := U128(a1 * a4 + U64(a2 * 2) * a3);
    a0 := U64(a0 * 2);
    var p1 := U128(a0 * a1);
    var p6 := U128(a2 * a4 + a3 * a3);
    var p2 := U128(a0 * a2 + a1 * a1);
    var p7 := U128(a3 * a4);
    p := [p0, p1, p2, p3, p4, p5, p6, p7, p8];
  }

  lemma ColumnBounds(a: seq<int>)
    requires MulOperand(a)
    ensures forall x :: 0 <= x < 9 ==> 0 <= Column(a, a, x, 5) <= 5 * 0x10000000000000000000000000000
    ensures Column(a, a, 8, 5) <= 0x100000000000000000000000000
  {
    forall x | 0 <= x < 9
      ensures 0 <= Column(a, a, x, 5) <= 5 * 0x10000000000000000000000000000
    {
      ColumnBound(a, x);
    }
    AllColumns(a, a);
    Product(a[4], a[4], 0x10000000000000, 0x10000000000000);
  }

  lemma ColumnBound(a: seq<int>, x: int)
    requires MulOperand(a)
    ensures 0 <= Column(a, a, x, 5) <= 5 * 0x10000000000000000000000000000
  {
    ColumnTerms(a, a, x);
    TermBound(a, x, 0);
    TermBound(a, x, 1);
    TermBound(a, x, 2);
    TermBound(a, x, 3);
    TermBound(a, x, 4);
  }

  lemma TermBound(a: seq<int>, x: int, i: int)
    requires MulOperand(a) && 0 <= i < 5
    ensures 0 <= Term(a, a, x, i) <= 0x10000000000000000000000000000
  {
    if 0 <= x - i < 5 {
      Product(a[i], a[x - i], 0x100000000000000, 0x100000000000000);
    }
  }

  method FeSqrInner(r: array<int>, a: array<int>)
    requires r.Length == a.Length == 5
    requires MulOperand(a[..])
    modifies r
    ensures MulResult(r[..])
    ensures Congruent(Value(r[..]), old(Value(a[..]) * Value(a[..])))
    ensures IsFold(AllOf(old(a[..]), old(a[..])), r[..])
  {
    ghost var a' := a[..];
    var p := SquareColumns(a[..]);
    var t3, t4, tx, d2, k0, k1, d1 := FoldTop(p[3], p[4], p[8]);
    var r0, c3, d3, u := FoldBottom(p[0], p[5], tx, d2);
    r[0] := r0;
    var r1, c4, d4, e := FoldMiddle(p[1], p[6], c3, d3);
    r[1] := r1;
    var r2, c5, d5, f := FoldMiddle(p[2], p[7], c4, d4);
    r[2] := r2;
    var r3, r4, c6 := FoldLast(c5, d5, t3, t4);
    r[3] := r3;
    r[4] := r4;
    assert r[..] == [r0, r1, r2, r3, r4];
    ghost var trace := FoldTrace(k0, k1, d1, t3, d2, t4, tx, d3, u, c3, e, d4, c4, f, d5, c5, c6);
    ghost var limbs := [r0, r1, r2, r3, r4];
    assert p == AllOf(a', a');
    assert FoldSteps(p, limbs, trace);
    FoldIdentity(p, limbs, trace);
    ProductColumns(a', a');
  }
}
