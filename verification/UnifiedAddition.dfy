/** The addition whose one formula also doubles, with the alternative slope where that formula is 0/0. */
module UnifiedAddition {
  import opened Notions
  import opened Field5x52
  import opened FieldElement
  import opened ModPow
  import opened AdditionChains
  import opened Jacobian

  // ---------- The slope ----------

  /** x^3 + 7 = y^2. Used like Is. */
  ghost predicate OnCurve(x: int, y: int) {
    forall u: int {:trigger Open(OfOnCurve, u)} :: Open(OfOnCurve, u) ==> Congruent(y * y, x * x * x + 7)
  }

  /** l (x2 - x1) = y2 - y1. Used like Is. */
  ghost predicate ChordQuotient(l: int, x1: int, y1: int, x2: int, y2: int) {
    forall u: int {:trigger Open(OfChordQuotient, u)} :: Open(OfChordQuotient, u) ==> Congruent(l * (x2 - x1), y2 - y1)
  }

  /** l (y1 + y2) = x1^2 + x1 x2 + x2^2. Used like Is. */
  ghost predicate UnifiedQuotient(l: int, x1: int, y1: int, x2: int, y2: int) {
    forall u: int {:trigger Open(OfUnifiedQuotient, u)} :: Open(OfUnifiedQuotient, u) ==> Congruent(l * (y1 + y2), x1 * x1 + x1 * x2 + x2 * x2)
  }

  /** The slope as both quotients of the formula have it. */
  ghost predicate Slope(l: int, x1: int, y1: int, x2: int, y2: int) {
    ChordQuotient(l, x1, y1, x2, y2) && UnifiedQuotient(l, x1, y1, x2, y2)
  }

  /** e = x1^2 + x1 x2 + x2^2. Used like Is. */
  ghost predicate Numerator(e: int, x1: int, x2: int) {
    forall u: int {:trigger Open(OfNumerator, u)} :: Open(OfNumerator, u) ==> e == x1 * x1 + x1 * x2 + x2 * x2
  }

  /** (x3, y3) is the sum of the points on a line of slope l. Used like Is. */
  ghost predicate LineLaw(l: int, x1: int, y1: int, x2: int, y2: int, x3: int, y3: int) {
    forall u: int {:trigger Open(OfLineLaw, u)} :: Open(OfLineLaw, u) ==> x3 == ThirdX(l, x1, x2) && y3 == ThirdY(l, x1, y1, x3)
  }

  // ---------- The formula ----------

  /** Numerator and denominator of the slope, by z: the usual ones, or the alternative where both vanish. */
  method SlopeTerms(u1: Fe, u2: Fe, s1: Fe, s2: Fe, ghost U1: int, ghost U2: int, ghost S1: int, ghost S2: int,
      ghost tt: int, ghost p: int)
    returns (t: Fe, m: Fe, ralt: Fe, malt: Fe, degenerate: bool)
    requires Is(u1, U1) && Is(u2, U2) && Is(s1, S1) && Is(s2, S2)
    requires u1.magnitude == u2.magnitude == s1.magnitude == s2.magnitude == 1
    requires Prod(U1 + U2, U1 + U2, tt) && Prod(U1, -U2, p)
    ensures Is(t, U1 + U2) && t.magnitude == 2 && Is(m, S1 + S2) && m.magnitude == 2
    ensures degenerate <==> Congruent(S1 + S2, 0) && Congruent(tt + p, 0)
    ensures Is(ralt, if degenerate then 2 * S1 else tt + p) && ralt.magnitude == 2
    ensures Is(malt, if degenerate then U1 - U2 else S1 + S2) && malt.magnitude == 3
  {
    t := FeAdd(u1, u2, U1, U2);
    m := FeAdd(s1, s2, S1, S2);
    var rr := FeSqr(t, U1 + U2, tt);
    malt := FeNegate(u2, 1, U2);
    var p1 := FeMul(u1, malt, U1, -U2, p);
    rr := FeAdd(rr, p1, tt, p);
    ralt, malt, degenerate := Alternatives(malt, u1, s1, rr, m, U1, U2, S1, S1 + S2, tt + p);
  }

  /** The alternatives where numerator and denominator both vanish. */
  method Alternatives(nu2: Fe, u1: Fe, s1: Fe, rr: Fe, m: Fe, ghost U1: int, ghost U2: int, ghost S1: int, ghost M: int, ghost R: int)
    returns (ralt: Fe, malt: Fe, degenerate: bool)
    requires Is(nu2, -U2) && Is(u1, U1) && Is(s1, S1) && Is(rr, R) && Is(m, M)
    requires nu2.magnitude == rr.magnitude == m.magnitude == 2 && u1.magnitude == s1.magnitude == 1
    ensures degenerate <==> Congruent(M, 0) && Congruent(R, 0)
    ensures Is(ralt, if degenerate then 2 * S1 else R) && ralt.magnitude == 2
    ensures Is(malt, if degenerate then U1 - U2 else M) && malt.magnitude == 3
  {
    var mz := FeIsZeroMod(m, M);
    var rz := FeIsZeroMod(rr, R);
    degenerate := mz && rz;
    ralt := FeMulInt(s1, 2, S1);
    malt := FeAdd(nu2, u1, -U2, U1);
    ralt := FeCmov(ralt, rr, !degenerate, 2 * S1, R);
    malt := FeCmov(malt, m, !degenerate, U1 - U2, M);
  }

  /** x and y of the sum, from the slope j / k for k = z a. */
  method SumCoordinates(t: Fe, m: Fe, ralt: Fe, malt: Fe, degenerate: bool, ghost T: int, ghost M: int, ghost j: int, ghost a: int,
      ghost aa: int, ghost q: int, ghost a4: int, ghost jj: int, ghost n: int, ghost g: int)
    returns (rx: Fe, ry: Fe)
    requires Is(t, T) && Is(m, M) && Is(ralt, j) && Is(malt, a)
    requires t.magnitude == 2 && m.magnitude == 2 && ralt.magnitude == 2 && malt.magnitude == 3
    requires Prod(a, a, aa) && Prod(aa, T, q) && Prod(aa, aa, a4) && Prod(j, j, jj) && Prod(2 * jj - 3 * q, j, g)
    requires Congruent(if degenerate then M else a4, n)
    ensures Is(rx, 4 * (jj - q)) && rx.magnitude == 4
    ensures Is(ry, 4 * (-(g + n))) && ry.magnitude == 4
  {
    var fn := FeSqr(malt, a, aa);
    var fq := FeMul(fn, t, aa, T, q);
    fn := FeSqr(fn, aa, a4);
    fn := FeCmov(fn, m, degenerate, a4, M);
    Retag(fn, if degenerate then M else a4, n);
    var ft := FeSqr(ralt, j, jj);
    fq := FeNegate(fq, 1, q);
    ft := FeAdd(ft, fq, jj, -q);
    ft := FeNormalizeWeakly(ft, jj - q);
    rx := FeMulInt(ft, 4, jj - q);
    ry := SumY(ft, fq, ralt, fn, jj, q, j, n, g);
  }

  method SumY(ft: Fe, fq: Fe, ralt: Fe, fn: Fe, ghost jj: int, ghost q: int, ghost j: int, ghost n: int, ghost g: int) returns (ry: Fe)
    requires Is(ft, jj - q) && Is(fq, -q) && Is(ralt, j) && Is(fn, n) && Prod(2 * jj - 3 * q, j, g)
    requires ft.magnitude == 1 && fq.magnitude == 2 && ralt.magnitude == 2 && fn.magnitude == 2
    ensures Is(ry, 4 * (-(g + n))) && ry.magnitude == 4
  {
    var t := TwiceMinus(ft, fq, jj, q);
    t := FeMul(t, ralt, 2 * jj - 3 * q, j, g);
    t := FeAdd(t, fn, g, n);
    ry := FeNegate(t, 3, g + n);
    ry := FeNormalizeWeakly(ry, -(g + n));
    ry := FeMulInt(ry, 4, -(g + n));
  }

  method TwiceMinus(ft: Fe, fq: Fe, ghost jj: int, ghost q: int) returns (t: Fe)
    requires Is(ft, jj - q) && Is(fq, -q) && ft.magnitude == 1 && fq.magnitude == 2
    ensures Is(t, 2 * jj - 3 * q) && t.magnitude == 4
  {
    t := FeMulInt(ft, 2, jj - q);
    t := FeAdd(t, fq, 2 * (jj - q), -q);
  }

  // ---------- What the numbers of the formula are for two points ----------

  /** The coordinates of both points over z. */
  ghost predicate Both(x1: int, y1: int, x2: int, y2: int, z: int, X1: int, Y1: int, U2: int, S2: int) {
    Scaled(x1, y1, z, X1, Y1) && Scaled(x2, y2, z, U2, S2)
  }

  lemma BothIs(x1: int, y1: int, x2: int, y2: int, z: int, X1: int, Y1: int, U2: int, S2: int)
    requires Both(x1, y1, x2, y2, z, X1, Y1, U2, S2)
    ensures var z3 := z * z * z;
      && X1 == x1 * (z * z) && U2 == x2 * (z * z) && Y1 == y1 * z3 && S2 == y2 * z3
      && X1 + U2 == (x1 + x2) * (z * z) && Y1 + S2 == (y1 + y2) * z3
      && X1 - U2 == (x1 - x2) * (z * z) && Y1 - S2 == (y1 - y2) * z3
  {
    ScaledIs(x1, y1, z, X1, Y1);
    ScaledIs(x2, y2, z, U2, S2);
    Grouped(x1, z);
    Grouped(x2, z);
    Grouped(y1, z);
    Grouped(y2, z);
  }

  lemma Grouped(x: int, z: int)
    ensures x * z * z == x * (z * z) && x * z * z * z == x * (z * z * z)
  {
  }

  /** The numerator: z a times the slope. */
  lemma SlopeTag(degenerate: bool, x1: int, y1: int, x2: int, y2: int, l: int, z: int, X1: int, Y1: int, U2: int, S2: int,
      tt: int, p: int, k: int)
    returns (j: int)
    requires Prod(X1 + U2, X1 + U2, tt) && Prod(X1, -U2, p)
    requires Prod(z, if degenerate then X1 - U2 else Y1 + S2, k)
    requires degenerate ==> Congruent(Y1 + S2, 0)
    ensures Congruent(if degenerate then 2 * Y1 else tt + p, j)
    ensures Both(x1, y1, x2, y2, z, X1, Y1, U2, S2) && Slope(l, x1, y1, x2, y2) ==> Prod(l, k, j)
  {
    var n := if degenerate then 2 * Y1 else tt + p;
    if Both(x1, y1, x2, y2, z, X1, Y1, U2, S2) && Slope(l, x1, y1, x2, y2) {
      j := Times(l, k);
      assert Opened();
      if degenerate {
        AlternativeSlope(x1, y1, x2, y2, l, z, X1, Y1, U2, S2, k);
      } else {
        UsualSlope(x1, y1, x2, y2, l, z, X1, Y1, U2, S2, k);
        NumeratorIs(X1, U2, tt, p);
      }
    } else {
      j := n;
      CongruentRefl(n);
    }
  }

  lemma NumeratorIs(x: int, u: int, tt: int, p: int)
    requires tt == (x + u) * (x + u) && p == x * (-u)
    ensures tt + p == x * x + x * u + u * u
  {
  }

  lemma UsualSlope(x1: int, y1: int, x2: int, y2: int, l: int, z: int, X1: int, Y1: int, U2: int, S2: int, k: int)
    requires Both(x1, y1, x2, y2, z, X1, Y1, U2, S2) && k == z * (Y1 + S2)
    requires UnifiedQuotient(l, x1, y1, x2, y2)
    ensures Congruent(X1 * X1 + X1 * U2 + U2 * U2, l * k)
  {
    assert Opened();
    BothIs(x1, y1, x2, y2, z, X1, Y1, U2, S2);
    var (zz, r) := (z * z, x1 * x1 + x1 * x2 + x2 * x2);
    CongruentScale(l * (y1 + y2), r, zz * zz);
    CongruentSym((zz * zz) * (l * (y1 + y2)), (zz * zz) * r);
    SquaresScaled(x1, x2, zz);
    SumTimesZ(l, y1 + y2, z);
  }

  lemma SquaresScaled(x1: int, x2: int, c: int)
    ensures (c * c) * (x1 * x1 + x1 * x2 + x2 * x2) == (x1 * c) * (x1 * c) + (x1 * c) * (x2 * c) + (x2 * c) * (x2 * c)
  {
    assert (c * c) * (x1 * x1) == (x1 * c) * (x1 * c);
    assert (c * c) * (x1 * x2) == (x1 * c) * (x2 * c);
    assert (c * c) * (x2 * x2) == (x2 * c) * (x2 * c);
  }

  lemma SumTimesZ(l: int, y: int, z: int)
    ensures ((z * z) * (z * z)) * (l * y) == l * (z * (y * (z * z * z)))
  {
    var c := z * z * z;
    assert (z * z) * (z * z) == z * c;
    assert (z * c) * (l * y) == l * (z * (y * c));
  }

  lemma AlternativeSlope(x1: int, y1: int, x2: int, y2: int, l: int, z: int, X1: int, Y1: int, U2: int, S2: int, k: int)
    requires Both(x1, y1, x2, y2, z, X1, Y1, U2, S2) && k == z * (X1 - U2)
    requires ChordQuotient(l, x1, y1, x2, y2) && Congruent(Y1 + S2, 0)
    ensures Congruent(2 * Y1, l * k)
  {
    assert Opened();
    BothIs(x1, y1, x2, y2, z, X1, Y1, U2, S2);
    var c := z * z * z;
    CongruentScale(l * (x2 - x1), y2 - y1, -c);
    CongruentSym((-c) * (l * (x2 - x1)), (-c) * (y2 - y1));
    assert (-c) * (y2 - y1) == Y1 - S2;
    DifferenceTimesZ(l, x1, x2, z);
    CongruentAdd(Y1 + S2, 0, Y1 - S2, l * k);
  }

  lemma DifferenceTimesZ(l: int, x1: int, x2: int, z: int)
    ensures (-(z * z * z)) * (l * (x2 - x1)) == l * (z * ((x1 - x2) * (z * z)))
  {
    var (c, d) := (z * z, x1 - x2);
    assert z * z * z == z * c;
    assert (-(z * c)) * (l * (x2 - x1)) == (z * c) * (l * d);
    assert (z * c) * (l * d) == l * (z * (d * c));
  }

  /** n = k^3 (2 y1 + l (x2 - x1)). Used like Is. */
  ghost predicate Fourth(n: int, k: int, l: int, x1: int, y1: int, x2: int) {
    forall u: int {:trigger Open(OfFourth, u)} :: Open(OfFourth, u) ==> n == (k * k * k) * (2 * y1 + l * (x2 - x1))
  }

  /** M^3 a: the fourth power of M, or 0. */
  lemma FourthTag(degenerate: bool, x1: int, y1: int, x2: int, y2: int, l: int, z: int, X1: int, Y1: int, U2: int, S2: int,
      a: int, aa: int, a4: int, k: int)
    returns (n: int)
    requires a == (if degenerate then X1 - U2 else Y1 + S2)
    requires Prod(z, a, k) && Prod(a, a, aa) && Prod(aa, aa, a4) && (degenerate ==> Congruent(Y1 + S2, 0))
    ensures Congruent(if degenerate then Y1 + S2 else a4, n)
    ensures Both(x1, y1, x2, y2, z, X1, Y1, U2, S2) && Slope(l, x1, y1, x2, y2) ==> Fourth(n, k, l, x1, y1, x2)
  {
    var m, e := Y1 + S2, if degenerate then Y1 + S2 else a4;
    if Both(x1, y1, x2, y2, z, X1, Y1, U2, S2) && Slope(l, x1, y1, x2, y2) {
      assert Opened();
      n := (k * k * k) * (2 * y1 + l * (x2 - x1));
      BothIs(x1, y1, x2, y2, z, X1, Y1, U2, S2);
      FourthIs(x1, y1, x2, y2, l, z, m, a, k, n);
      if degenerate {
        CongruentScale(m, 0, a * a * a);
        CongruentTrans(n, (a * a * a) * m, 0);
        CongruentSym(n, 0);
        CongruentTrans(m, 0, n);
      } else {
        assert (a * a * a) * a == aa * aa;
        CongruentSym(n, a4);
      }
    } else {
      n := e;
      CongruentRefl(e);
    }
  }

  lemma FourthIs(x1: int, y1: int, x2: int, y2: int, l: int, z: int, m: int, a: int, k: int, n: int)
    requires m == (y1 + y2) * (z * z * z) && k == z * a && n == (k * k * k) * (2 * y1 + l * (x2 - x1))
    requires ChordQuotient(l, x1, y1, x2, y2)
    ensures Congruent(n, (a * a * a) * m)
  {
    assert Opened();
    CongruentRefl(2 * y1);
    CongruentAdd(2 * y1, 2 * y1, l * (x2 - x1), y2 - y1);
    CongruentScale(2 * y1 + l * (x2 - x1), y1 + y2, k * k * k);
    CubeOfProduct(z, a, k);
    RegroupProduct(a * a * a, z * z * z, y1 + y2);
  }

  lemma CubeOfProduct(z: int, a: int, k: int)
    requires k == z * a
    ensures k * k * k == (a * a * a) * (z * z * z) && k * k == (a * a) * (z * z)
  {
    assert k * k == (a * a) * (z * z);
    assert ((a * a) * (z * z)) * (z * a) == (a * a * a) * (z * z * z);
  }

  lemma SumTag(x1: int, y1: int, x2: int, y2: int, l: int, x3: int, y3: int, z: int, X1: int, Y1: int, U2: int, S2: int,
      a: int, aa: int, k: int, j: int, jj: int, q: int, n: int, g: int)
    requires Both(x1, y1, x2, y2, z, X1, Y1, U2, S2) && LineLaw(l, x1, y1, x2, y2, x3, y3)
    requires Prod(z, a, k) && Prod(a, a, aa) && Prod(l, k, j) && Prod(j, j, jj) && Prod(aa, X1 + U2, q)
    requires Fourth(n, k, l, x1, y1, x2) && Prod(2 * jj - 3 * q, j, g)
    ensures Scaled(x3, y3, 2 * k, 4 * (jj - q), 4 * (-(g + n)))
  {
    var kk := Times(k, k);
    var ll := Times(l, l);
    QIs(x1, y1, x2, y2, z, X1, Y1, U2, S2, a, aa, k, kk, q);
    JJIs(l, k, j, jj, kk, ll);
    SumScaled(x1, y1, x2, y2, l, x3, y3, k, kk, ll, j, jj, q, n, g);
  }

  lemma QIs(x1: int, y1: int, x2: int, y2: int, z: int, X1: int, Y1: int, U2: int, S2: int, a: int, aa: int, k: int, kk: int, q: int)
    requires Both(x1, y1, x2, y2, z, X1, Y1, U2, S2)
    requires Prod(z, a, k) && Prod(a, a, aa) && Prod(aa, X1 + U2, q) && Prod(k, k, kk)
    ensures Prod(kk, x1 + x2, q)
  {
    assert Opened();
    BothIs(x1, y1, x2, y2, z, X1, Y1, U2, S2);
    CubeOfProduct(z, a, k);
    RegroupProduct(aa, z * z, x1 + x2);
    assert (x1 + x2) * (z * z) == (z * z) * (x1 + x2);
  }

  lemma JJIs(l: int, k: int, j: int, jj: int, kk: int, ll: int)
    requires Prod(l, k, j) && Prod(j, j, jj) && Prod(k, k, kk) && Prod(l, l, ll)
    ensures Prod(kk, ll, jj)
  {
    assert Opened();
    assert (l * k) * (l * k) == (k * k) * (l * l);
  }

  lemma SumScaled(x1: int, y1: int, x2: int, y2: int, l: int, x3: int, y3: int,
      k: int, kk: int, ll: int, j: int, jj: int, q: int, n: int, g: int)
    requires LineLaw(l, x1, y1, x2, y2, x3, y3) && Prod(k, k, kk) && Prod(l, l, ll) && Prod(l, k, j)
    requires Prod(kk, ll, jj) && Prod(kk, x1 + x2, q) && Fourth(n, k, l, x1, y1, x2) && Prod(2 * jj - 3 * q, j, g)
    ensures Scaled(x3, y3, 2 * k, 4 * (jj - q), 4 * (-(g + n)))
  {
    assert Opened();
    SumIdentity(k, kk, l, x1, y1, x2, j, jj, q, n, g);
    ScaledIs(x3, y3, 2 * k, 4 * (jj - q), 4 * (-(g + n)));
  }

  lemma SumIdentity(k: int, kk: int, l: int, x1: int, y1: int, x2: int, j: int, jj: int, q: int, n: int, g: int)
    requires kk == k * k && j == l * k && jj == kk * (l * l) && q == kk * (x1 + x2)
    requires n == (k * k * k) * (2 * y1 + l * (x2 - x1)) && g == (2 * jj - 3 * q) * j
    ensures var x3 := ThirdX(l, x1, x2);
      && 4 * (jj - q) == x3 * (2 * k) * (2 * k)
      && 4 * (-(g + n)) == ThirdY(l, x1, y1, x3) * (2 * k) * (2 * k) * (2 * k)
  {
    var x3 := ThirdX(l, x1, x2);
    var k3 := kk * k;
    assert jj - q == kk * x3;
    assert 2 * jj - 3 * q == kk * (2 * x3 - (x1 + x2));
    assert g == k3 * (l * (2 * x3 - (x1 + x2))) by {
      assert (kk * (2 * x3 - (x1 + x2))) * (l * k) == (kk * k) * (l * (2 * x3 - (x1 + x2)));
    }
    assert n == k3 * (2 * y1 + l * (x2 - x1));
    var e := l * (2 * x3 - (x1 + x2)) + (2 * y1 + l * (x2 - x1));
    assert g + n == k3 * e;
    assert e == -2 * ThirdY(l, x1, y1, x3);
    EightCubes(k, kk, k3, x3, ThirdY(l, x1, y1, x3));
  }

  lemma EightCubes(k: int, kk: int, k3: int, x: int, y: int)
    requires kk == k * k && k3 == kk * k
    ensures 4 * (kk * x) == x * (2 * k) * (2 * k) && 4 * (-(k3 * (-2 * y))) == y * (2 * k) * (2 * k) * (2 * k)
  {
    assert x * (2 * k) * (2 * k) == 4 * (x * (k * k));
    assert y * (2 * k) * (2 * k) * (2 * k) == 8 * (y * (k * k * k));
    assert k3 * (-2 * y) == -2 * (k3 * y);
  }

  // ---------- When the sum is at infinity ----------

  /** (y2 - y1) (y2 + y1) = (x2 - x1) e on the curve. */
  lemma CurvePairs(x1: int, y1: int, x2: int, y2: int, e: int) returns (s: int, t: int)
    requires OnCurve(x1, y1) && OnCurve(x2, y2) && Numerator(e, x1, x2)
    ensures Prod(y2 - y1, y1 + y2, s) && Prod(x2 - x1, e, t) && Congruent(s, t)
  {
    assert Opened();
    s := Times(y2 - y1, y1 + y2);
    t := Times(x2 - x1, e);
    CongruentScale(y1 * y1, x1 * x1 * x1 + 7, -1);
    CongruentAdd(y2 * y2, x2 * x2 * x2 + 7, -1 * (y1 * y1), -1 * (x1 * x1 * x1 + 7));
    SquareDifference(y1, y2);
    CubeDifference(x1, x2);
  }

  lemma SquareDifference(a: int, b: int)
    ensures (b - a) * (a + b) == b * b - a * a
  {
  }

  lemma CubeDifference(a: int, b: int)
    ensures (b - a) * (a * a + a * b + b * b) == b * b * b - a * a * a
  {
  }

  /** On the curve, y2 = -y1 means x2 = x1 unless the numerator vanishes. */
  lemma SameXOf(x1: int, y1: int, x2: int, y2: int, e: int)
    requires Fermat(P) && OnCurve(x1, y1) && OnCurve(x2, y2) && Congruent(y1 + y2, 0)
    requires Numerator(e, x1, x2) && !Congruent(e, 0)
    ensures Congruent(x1 - x2, 0)
  {
    var s, t := CurvePairs(x1, y1, x2, y2, e);
    ProdIs(y2 - y1, y1 + y2, s);
    ProdIs(x2 - x1, e, t);
    CongruentScale(y1 + y2, 0, y2 - y1);
    ZeroCongruent(s, t);
    Swap(x2 - x1, e);
    NoZeroDivisors(e, x2 - x1);
    CongruentScale(x2 - x1, 0, -1);
  }

  lemma Swap(a: int, b: int)
    ensures a * b == b * a
  {
  }

  /** The denominator vanishes exactly for opposite points. */
  lemma DenominatorZero(degenerate: bool, x1: int, y1: int, x2: int, y2: int, c: int, cc: int, d: int, e: int, m: int, r: int, v: int)
    requires Fermat(P) && OnCurve(x1, y1) && OnCurve(x2, y2) && Numerator(e, x1, x2)
    requires !Congruent(c, 0) && !Congruent(cc, 0) && !Congruent(d, 0)
    requires Prod(d, y1 + y2, m) && Prod(cc, e, r) && Prod(c, x1 - x2, v)
    requires degenerate <==> Congruent(m, 0) && Congruent(r, 0)
    ensures Congruent(if degenerate then v else m, 0) <==> Congruent(x1 - x2, 0) && Congruent(y1 + y2, 0)
  {
    ZeroFactor(d, y1 + y2, m);
    ZeroFactor(cc, e, r);
    ZeroFactor(c, x1 - x2, v);
    if Congruent(m, 0) && !Congruent(r, 0) {
      SameXOf(x1, y1, x2, y2, e);
    }
  }

  lemma DiffZero(x: int, y: int)
    ensures Congruent(x, y) <==> Congruent(x - y, 0)
  {
    if Congruent(x, y) {
      CongruentRefl(-y);
      CongruentAdd(x, y, -y, -y);
    }
    if Congruent(x - y, 0) {
      CongruentRefl(y);
      CongruentAdd(x - y, 0, y, y);
    }
  }

  lemma InfinityTag(degenerate: bool, x1: int, y1: int, x2: int, y2: int, z: int, X1: int, Y1: int, U2: int, S2: int,
      tt: int, p: int, a: int, k: int)
    requires Fermat(P) && !Congruent(z, 0) && OnCurve(x1, y1) && OnCurve(x2, y2) && Both(x1, y1, x2, y2, z, X1, Y1, U2, S2)
    requires Prod(X1 + U2, X1 + U2, tt) && Prod(X1, -U2, p) && Prod(z, a, k)
    requires a == (if degenerate then X1 - U2 else Y1 + S2)
    requires degenerate <==> Congruent(Y1 + S2, 0) && Congruent(tt + p, 0)
    ensures Congruent(k, 0) <==> Congruent(x1, x2) && Congruent(y1, -y2)
  {
    var c, cc, d, e := PowersFor(x1, y1, x2, y2, z, X1, Y1, U2, S2, tt, p);
    DenominatorZero(degenerate, x1, y1, x2, y2, c, cc, d, e, Y1 + S2, tt + p, X1 - U2);
    DiffZero(x1, x2);
    DiffZero(y1, -y2);
    ZeroFactor(z, a, k);
  }

  /** The powers of z by which the numbers of the formula are scaled. */
  lemma PowersFor(x1: int, y1: int, x2: int, y2: int, z: int, X1: int, Y1: int, U2: int, S2: int, tt: int, p: int)
    returns (c: int, cc: int, d: int, e: int)
    requires Fermat(P) && !Congruent(z, 0) && Both(x1, y1, x2, y2, z, X1, Y1, U2, S2)
    requires Prod(X1 + U2, X1 + U2, tt) && Prod(X1, -U2, p)
    ensures Numerator(e, x1, x2) && !Congruent(c, 0) && !Congruent(cc, 0) && !Congruent(d, 0)
    ensures Prod(d, y1 + y2, Y1 + S2) && Prod(cc, e, tt + p) && Prod(c, x1 - x2, X1 - U2)
  {
    assert Opened();
    c, d, e := z * z, z * z * z, x1 * x1 + x1 * x2 + x2 * x2;
    cc := c * c;
    PowersNonzero(z);
    if Congruent(cc, 0) {
      NoZeroDivisors(c, c);
    }
    BothIs(x1, y1, x2, y2, z, X1, Y1, U2, S2);
    NumeratorIs(X1, U2, tt, p);
    SquaresScaled(x1, x2, c);
    Swap(y1 + y2, d);
    Swap(x1 - x2, c);
  }

  lemma ZeroFactor(z: int, a: int, k: int)
    requires Fermat(P) && !Congruent(z, 0) && Prod(z, a, k)
    ensures Congruent(k, 0) <==> Congruent(a, 0)
  {
    ProdIs(z, a, k);
    if Congruent(k, 0) {
      NoZeroDivisors(z, a);
    }
    if Congruent(a, 0) {
      CongruentScale(a, 0, z);
    }
  }

  // ---------- The addition ----------

  method GejAddGe(a: Gej, b: Ge, ghost x1: int, ghost y1: int, ghost z1: int, ghost x2: int, ghost y2: int,
      ghost l: int, ghost x3: int, ghost y3: int)
    returns (r: Gej, ghost z3: int)
    requires Good(a) && GeGood(b) && !b.infinity
    ensures Good(r)
    ensures a.infinity && AtGe(b, x2, y2) ==> At(r, x2, y2, 1)
    ensures At(a, x1, y1, z1) && AtGe(b, x2, y2) && Fermat(P) && !Congruent(z1, 0) && OnCurve(x1, y1) && OnCurve(x2, y2)
      ==> (r.infinity <==> Congruent(x1, x2) && Congruent(y1, -y2))
    ensures At(a, x1, y1, z1) && AtGe(b, x2, y2) && Fermat(P) && !Congruent(z1, 0) && OnCurve(x1, y1) && OnCurve(x2, y2)
      && !Congruent(y1, 0) && SumLaw(l, x1, y1, x2, y2, x3, y3)
      ==> IsSum(r, x1, y1, x2, y2, x3, y3, z3)
    ensures Fermat(P) && !a.infinity && !r.infinity ==> !Congruent(z3, 0)
  {
    ghost var lx, ly := LinePoint(l, x1, y1, x2, y2);
    r, z3 := AddOnLine(a, b, x1, y1, z1, x2, y2, l, lx, ly);
    if At(a, x1, y1, z1) && AtGe(b, x2, y2) && Fermat(P) && !Congruent(z1, 0) && OnCurve(x1, y1) && OnCurve(x2, y2)
      && !Congruent(y1, 0) && SumLaw(l, x1, y1, x2, y2, x3, y3) {
      SumOnLine(r, l, x1, y1, x2, y2, x3, y3, lx, ly, z3);
    }
  }

  /** The addition, for the point where a line leads whose slope both quotients give. */
  method AddOnLine(a: Gej, b: Ge, ghost x1: int, ghost y1: int, ghost z1: int, ghost x2: int, ghost y2: int,
      ghost l: int, ghost x3: int, ghost y3: int)
    returns (r: Gej, ghost z3: int)
    requires Good(a) && GeGood(b) && !b.infinity
    ensures Good(r)
    ensures a.infinity && AtGe(b, x2, y2) ==> At(r, x2, y2, 1)
    ensures At(a, x1, y1, z1) && AtGe(b, x2, y2) && Fermat(P) && !Congruent(z1, 0) && OnCurve(x1, y1) && OnCurve(x2, y2)
      ==> (r.infinity <==> Congruent(x1, x2) && Congruent(y1, -y2))
    ensures At(a, x1, y1, z1) && AtGe(b, x2, y2) && Slope(l, x1, y1, x2, y2) && LineLaw(l, x1, y1, x2, y2, x3, y3) && !r.infinity
      ==> At(r, x3, y3, z3)
    ensures At(a, x1, y1, z1) && AtGe(b, x2, y2) ==> !a.infinity
    ensures Fermat(P) && !a.infinity && !r.infinity ==> !Congruent(z3, 0)
  {
    ghost var X1, Y1, Z := TagsOf(a, x1, y1, z1);
    ghost var X2, Y2 := TagsOfGe(b, x2, y2);
    ghost var c, U2, q2, S2 := TagsForMixed(X2, Y2, Z);
    var u2, s2 := ScaleByZ(b.x, b.y, a.z, X2, Y2, Z, c, U2, q2, S2);
    var rx, ry, rz, zero;
    ghost var k, X3, Y3;
    rx, ry, rz, zero, k, X3, Y3 := AddUnified(a, u2, s2, X1, Y1, Z, U2, S2, x1, y1, x2, y2, l, x3, y3);
    var infinity := zero && !a.infinity;
    rz := FeMulInt(rz, 2, k);
    var one := FeSetInt(1);
    rx := FeCmov(rx, b.x, a.infinity, X3, X2);
    ry := FeCmov(ry, b.y, a.infinity, Y3, Y2);
    rz := FeCmov(rz, one, a.infinity, 2 * k, 1);
    r := Gej(rx, ry, rz, infinity);
    MakeGood(r, if a.infinity then X2 else X3, if a.infinity then Y2 else Y3, if a.infinity then 1 else 2 * k);
    z3 := 2 * k;
    if Fermat(P) && !a.infinity && !infinity {
      TwiceNonzero(k);
    }
    if a.infinity {
      NotAt(a, x1, y1, z1);
      ScaledIs(x2, y2, 1, x2, y2);
      AtIs(r, x2, y2, 1, x2, y2);
    } else if Scaled(x3, y3, z3, X3, Y3) {
      AtIs(r, x3, y3, z3, X3, Y3);
    }
  }

  /** The formula on the coordinates of both points over z = a.z, without the factor 2 of the new z coordinate k. */
  method AddUnified(a: Gej, u2: Fe, s2: Fe, ghost X1: int, ghost Y1: int, ghost Z: int, ghost U2: int, ghost S2: int,
      ghost x1: int, ghost y1: int, ghost x2: int, ghost y2: int, ghost l: int, ghost x3: int, ghost y3: int)
    returns (rx: Fe, ry: Fe, rz: Fe, zero: bool, ghost k: int, ghost X3: int, ghost Y3: int)
    requires Good(a) && Is(a.x, X1) && Is(a.y, Y1) && Is(a.z, Z)
    requires Is(u2, U2) && Is(s2, S2) && u2.magnitude == s2.magnitude == 1
    ensures Is(rx, X3) && rx.magnitude == 4 && Is(ry, Y3) && ry.magnitude == 4 && Is(rz, k) && rz.magnitude == 1
    ensures zero <==> Congruent(k, 0)
    ensures Fermat(P) && !Congruent(Z, 0) && OnCurve(x1, y1) && OnCurve(x2, y2) && Both(x1, y1, x2, y2, Z, X1, Y1, U2, S2)
      ==> (zero <==> Congruent(x1, x2) && Congruent(y1, -y2))
    ensures Both(x1, y1, x2, y2, Z, X1, Y1, U2, S2) && Slope(l, x1, y1, x2, y2) && LineLaw(l, x1, y1, x2, y2, x3, y3)
      ==> Scaled(x3, y3, 2 * k, X3, Y3)
  {
    var u1 := FeNormalizeWeakly(a.x, X1);
    var s1 := FeNormalizeWeakly(a.y, Y1);
    ghost var tt := Times(X1 + U2, X1 + U2);
    ghost var p := Times(X1, -U2);
    var t, m, ralt, malt, degenerate := SlopeTerms(u1, u2, s1, s2, X1, U2, Y1, S2, tt, p);
    ghost var A, T, M := if degenerate then X1 - U2 else Y1 + S2, X1 + U2, Y1 + S2;
    k := Times(Z, A);
    rz := FeMul(a.z, malt, Z, A, k);
    zero := FeIsZeroMod(rz, k);
    ghost var j := SlopeTag(degenerate, x1, y1, x2, y2, l, Z, X1, Y1, U2, S2, tt, p, k);
    Retag(ralt, if degenerate then 2 * Y1 else tt + p, j);
    ghost var aa, a4, n, jj, q, g := SumTags(degenerate, x1, y1, x2, y2, l, x3, y3, Z, X1, Y1, U2, S2, A, k, j);
    rx, ry := SumCoordinates(t, m, ralt, malt, degenerate, T, M, j, A, aa, q, a4, jj, n, g);
    X3, Y3 := 4 * (jj - q), 4 * (-(g + n));
    if Fermat(P) && !Congruent(Z, 0) && OnCurve(x1, y1) && OnCurve(x2, y2) && Both(x1, y1, x2, y2, Z, X1, Y1, U2, S2) {
      InfinityTag(degenerate, x1, y1, x2, y2, Z, X1, Y1, U2, S2, tt, p, A, k);
    }
  }

  lemma SumTags(degenerate: bool, x1: int, y1: int, x2: int, y2: int, l: int, x3: int, y3: int, z: int,
      X1: int, Y1: int, U2: int, S2: int, a: int, k: int, j: int)
    returns (aa: int, a4: int, n: int, jj: int, q: int, g: int)
    requires a == (if degenerate then X1 - U2 else Y1 + S2) && Prod(z, a, k) && (degenerate ==> Congruent(Y1 + S2, 0))
    requires Both(x1, y1, x2, y2, z, X1, Y1, U2, S2) && Slope(l, x1, y1, x2, y2) ==> Prod(l, k, j)
    ensures Prod(a, a, aa) && Prod(aa, X1 + U2, q) && Prod(aa, aa, a4) && Prod(j, j, jj) && Prod(2 * jj - 3 * q, j, g)
    ensures Congruent(if degenerate then Y1 + S2 else a4, n)
    ensures Both(x1, y1, x2, y2, z, X1, Y1, U2, S2) && Slope(l, x1, y1, x2, y2) && LineLaw(l, x1, y1, x2, y2, x3, y3)
      ==> Scaled(x3, y3, 2 * k, 4 * (jj - q), 4 * (-(g + n)))
  {
    aa := Times(a, a);
    a4 := Times(aa, aa);
    n := FourthTag(degenerate, x1, y1, x2, y2, l, z, X1, Y1, U2, S2, a, aa, a4, k);
    jj := Times(j, j);
    q := Times(aa, X1 + U2);
    g := Times(2 * jj - 3 * q, j);
    if Both(x1, y1, x2, y2, z, X1, Y1, U2, S2) && Slope(l, x1, y1, x2, y2) && LineLaw(l, x1, y1, x2, y2, x3, y3) {
      SumTag(x1, y1, x2, y2, l, x3, y3, z, X1, Y1, U2, S2, a, aa, k, j, jj, q, n, g);
    }
  }

  // ---------- The slope is that of the chord or the tangent ----------

  lemma LinePoint(l: int, x1: int, y1: int, x2: int, y2: int) returns (x3: int, y3: int)
    ensures LineLaw(l, x1, y1, x2, y2, x3, y3)
  {
    x3 := ThirdX(l, x1, x2);
    y3 := ThirdY(l, x1, y1, x3);
    assert Open(OfLineLaw, 0);
  }

  /** The point on the line is the sum, and infinity is reached for opposite points only. */
  lemma SumOnLine(r: Gej, l: int, x1: int, y1: int, x2: int, y2: int, x3: int, y3: int, lx: int, ly: int, z3: int)
    requires Fermat(P) && OnCurve(x1, y1) && OnCurve(x2, y2) && !Congruent(y1, 0)
    requires SumLaw(l, x1, y1, x2, y2, x3, y3) && LineLaw(l, x1, y1, x2, y2, lx, ly)
    requires r.infinity <==> Congruent(x1, x2) && Congruent(y1, -y2)
    requires !r.infinity ==> !Congruent(z3, 0) && (Slope(l, x1, y1, x2, y2) ==> At(r, lx, ly, z3))
    ensures IsSum(r, x1, y1, x2, y2, x3, y3, z3)
  {
    if !Congruent(x1, x2) {
      ChordParts(l, x1, y1, x2, y2, x3, y3, lx, ly);
      ChordSlope(l, x1, y1, x2, y2);
    } else if Congruent(y1, y2) {
      NotOpposite(y1, y2);
      TangentParts(l, x1, y1, x2, y2, x3, y3, lx, ly);
      TangentSlope(l, x1, y1, x2, y2);
      AtCongruent(r, lx, ly, x3, y3, z3);
    } else {
      OppositeOrSame(x1, y1, x2, y2);
    }
  }

  lemma ChordParts(l: int, x1: int, y1: int, x2: int, y2: int, x3: int, y3: int, lx: int, ly: int)
    requires ChordLaw(l, x1, y1, x2, y2, x3, y3) && LineLaw(l, x1, y1, x2, y2, lx, ly)
    ensures ChordQuotient(l, x1, y1, x2, y2) && lx == x3 && ly == y3
  {
    assert Opened();
  }

  lemma TangentParts(l: int, x1: int, y1: int, x2: int, y2: int, x3: int, y3: int, lx: int, ly: int)
    requires TangentLaw(l, x1, y1, x3, y3) && LineLaw(l, x1, y1, x2, y2, lx, ly) && Congruent(x1, x2)
    ensures Tangent(l, x1, y1) && Congruent(lx, x3) && Congruent(ly, y3)
  {
    assert Open(OfTangentLaw, 0) && Open(OfLineLaw, 0);
    DiffZero(x1, x2);
    DiffZero(lx, x3);
    assert lx - x3 == x1 - x2;
    CongruentScale(x1 - x2, 0, -l);
    DiffZero(ly, y3);
    assert ly - y3 == -l * (x1 - x2);
  }

  lemma NotOpposite(y1: int, y2: int)
    requires Fermat(P) && !Congruent(y1, 0) && Congruent(y1, y2)
    ensures !Congruent(y1, -y2)
  {
    if Congruent(y1, -y2) {
      CongruentAdd(y1, y2, y1, -y2);
      TwiceNonzero(y1);
      assert false;
    }
  }

  /** Points of the curve with the same x coordinate are the same or opposite. */
  lemma OppositeOrSame(x1: int, y1: int, x2: int, y2: int)
    requires Fermat(P) && OnCurve(x1, y1) && OnCurve(x2, y2) && Congruent(x1, x2) && !Congruent(y1, y2)
    ensures Congruent(y1, -y2)
  {
    assert Opened();
    var e := x1 * x1 + x1 * x2 + x2 * x2;
    var s, t := CurvePairs(x1, y1, x2, y2, e);
    DiffZero(x1, x2);
    CongruentScale(x1 - x2, 0, -e);
    assert t == -e * (x1 - x2);
    CongruentTrans(s, t, 0);
    DiffZero(y1, y2);
    if Congruent(y2 - y1, 0) {
      CongruentScale(y2 - y1, 0, -1);
    }
    NoZeroDivisors(y2 - y1, y1 + y2);
    DiffZero(y1, -y2);
  }

  lemma AtCongruent(r: Gej, x: int, y: int, x': int, y': int, z: int)
    requires At(r, x, y, z) && Congruent(x, x') && Congruent(y, y')
    ensures At(r, x', y', z)
  {
    AtFinite(r, x, y, z);
    var X, Y := ScaleTags(x, y, z);
    var X', Y' := ScaleTags(x', y', z);
    AtIs(r, x, y, z, X, Y);
    ScaledIs(x, y, z, X, Y);
    ScaledIs(x', y', z, X', Y');
    Factored(x, y, z);
    Factored(x', y', z);
    CongruentScale(x, x', z * z);
    CongruentScale(y, y', z * z * z);
    Retag(r.x, X, X');
    Retag(r.y, Y, Y');
    AtIs(r, x', y', z, X', Y');
  }

  lemma ChordSlope(l: int, x1: int, y1: int, x2: int, y2: int)
    requires Fermat(P) && OnCurve(x1, y1) && OnCurve(x2, y2) && !Congruent(x1, x2) && ChordQuotient(l, x1, y1, x2, y2)
    ensures Slope(l, x1, y1, x2, y2)
  {
    assert Opened();
    var d, e := x2 - x1, x1 * x1 + x1 * x2 + x2 * x2;
    var s, t := CurvePairs(x1, y1, x2, y2, e);
    SlopeProduct(l, d, y1 + y2, y2 - y1, e);
    DiffZero(x1, x2);
    if Congruent(d, 0) {
      CongruentScale(d, 0, -1);
    }
    CancelFactor(d, l * (y1 + y2), e);
  }

  lemma SlopeProduct(l: int, d: int, s: int, f: int, e: int)
    requires Congruent(l * d, f) && Congruent(f * s, d * e)
    ensures Congruent(d * (l * s), d * e)
  {
    CongruentScale(l * d, f, s);
    assert s * f == f * s && s * (l * d) == d * (l * s);
    CongruentTrans(s * (l * d), f * s, d * e);
  }

  lemma CancelFactor(d: int, u: int, e: int)
    requires Fermat(P) && !Congruent(d, 0) && Congruent(d * u, d * e)
    ensures Congruent(u, e)
  {
    DiffZero(d * u, d * e);
    assert d * u - d * e == d * (u - e);
    NoZeroDivisors(d, u - e);
    DiffZero(u, e);
  }

  lemma TangentSlope(l: int, x1: int, y1: int, x2: int, y2: int)
    requires Tangent(l, x1, y1) && Congruent(x1, x2) && Congruent(y1, y2)
    ensures Slope(l, x1, y1, x2, y2)
  {
    DiffZero(x2, x1);
    DiffZero(y2, y1);
    CongruentSym(x1, x2);
    CongruentSym(y1, y2);
    CongruentScale(x2 - x1, 0, l);
    CongruentSym(y2 - y1, 0);
    CongruentTrans(l * (x2 - x1), 0, y2 - y1);
    TangentSums(l, x1, y1, x2, y2);
  }

  lemma TangentSums(l: int, x1: int, y1: int, x2: int, y2: int)
    requires Tangent(l, x1, y1) && Congruent(x1, x2) && Congruent(y1, y2)
    ensures UnifiedQuotient(l, x1, y1, x2, y2)
  {
    assert Opened();
    TwiceTerm(l, y1, y2);
    CongruentSym(3 * x1 * x1, 2 * y1 * l);
    CongruentTrans(l * (y1 + y2), 2 * y1 * l, 3 * x1 * x1);
    ThreeSquares(x1, x2);
    CongruentTrans(l * (y1 + y2), 3 * x1 * x1, x1 * x1 + x1 * x2 + x2 * x2);
  }

  lemma TwiceTerm(l: int, y1: int, y2: int)
    requires Congruent(y1, y2)
    ensures Congruent(l * (y1 + y2), 2 * y1 * l)
  {
    CongruentRefl(y1);
    CongruentSym(y1, y2);
    CongruentAdd(y1, y1, y2, y1);
    CongruentScale(y1 + y2, y1 + y1, l);
    assert l * (y1 + y1) == 2 * y1 * l;
  }

  lemma ThreeSquares(x1: int, x2: int)
    requires Congruent(x1, x2)
    ensures Congruent(3 * x1 * x1, x1 * x1 + x1 * x2 + x2 * x2)
  {
    CongruentScale(x1, x2, x1);
    CongruentMul(x1, x2, x1, x2);
    ThreeTerms(x1 * x1, x1 * x2, x2 * x2);
    assert 3 * x1 * x1 == 3 * (x1 * x1);
  }

  lemma ThreeTerms(a: int, b: int, c: int)
    requires Congruent(a, b) && Congruent(a, c)
    ensures Congruent(3 * a, a + b + c)
  {
    CongruentRefl(a);
    CongruentAdd(a, a, a, b);
    CongruentAdd(a + a, a + b, a, c);
  }
}
