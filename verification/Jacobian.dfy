/** Points in Jacobian coordinates: what the formulas compute, and which magnitudes they keep. */
module Jacobian {
  import opened Notions
  import opened Field5x52
  import opened FieldElement
  import opened ModPow
  import opened AdditionChains

  datatype Gej = Gej(x: Fe, y: Fe, z: Fe, infinity: bool)
  datatype Ge = Ge(x: Fe, y: Fe, infinity: bool)

  /** The magnitudes that every operation below keeps. */
  predicate InRange(a: Gej) {
    a.x.magnitude <= 6 && a.y.magnitude <= 4 && a.z.magnitude <= 2
  }

  predicate GeInRange(a: Ge) {
    a.x.magnitude <= 6 && a.y.magnitude <= 4
  }

  // ---------- Doubling ----------

  /** The doubling of a finite point, with the numbers its steps stand for: m is 3x^2, s is 2xy^2, q is 4y^4, k is yz. */
  method DoubleBody(a: Gej, ghost X: int, ghost Y: int, ghost Z: int,
      ghost k: int, ghost xx: int, ghost yy: int, ghost m: int, ghost mm: int, ghost q: int, ghost s: int, ghost w: int)
    returns (r: Gej)
    requires InRange(a) && Is(a.x, X) && Is(a.y, Y) && Is(a.z, Z) && Prod(Z, Y, k)
    requires Prod(X, X, xx) && Congruent(3 * xx, m) && Prod(m, m, mm)
    requires Prod(Y, Y, yy) && Prod(2 * yy, 2 * yy, q) && Prod(2 * yy, X, s)
    requires Prod(m, 6 * s - mm, w)
    ensures InRange(r) && !r.infinity
    ensures Is(r.x, mm - 4 * s) && Is(r.y, w - 2 * q) && Is(r.z, 2 * k)
  {
    var rz := FeMul(a.z, a.y, Z, Y, k);
    rz := FeMulInt(rz, 2, k);
    var t1, t2, t3, t4 := DoubleTerms(a.x, a.y, X, Y, xx, yy, m, mm, q, s);
    var rx := DoubleX(t2, t3, mm, s);
    var ry := DoubleY(t1, t2, t3, t4, m, mm, q, s, w);
    r := Gej(rx, ry, rz, false);
  }

  method DoubleTerms(ax: Fe, ay: Fe, ghost X: int, ghost Y: int,
      ghost xx: int, ghost yy: int, ghost m: int, ghost mm: int, ghost q: int, ghost s: int)
    returns (t1: Fe, t2: Fe, t3: Fe, t4: Fe)
    requires Is(ax, X) && Is(ay, Y) && ax.magnitude <= 6 && ay.magnitude <= 4
    requires Prod(X, X, xx) && Congruent(3 * xx, m) && Prod(m, m, mm)
    requires Prod(Y, Y, yy) && Prod(2 * yy, 2 * yy, q) && Prod(2 * yy, X, s)
    ensures Is(t1, m) && Is(t2, mm) && Is(t3, s) && Is(t4, 2 * q)
    ensures t1.magnitude == 3 && t2.magnitude == 1 && t3.magnitude == 1 && t4.magnitude == 2
  {
    t1 := FeSqr(ax, X, xx);
    t1 := FeMulInt(t1, 3, xx);
    Retag(t1, 3 * xx, m);
    t2 := FeSqr(t1, m, mm);
    t3 := FeSqr(ay, Y, yy);
    t3 := FeMulInt(t3, 2, yy);
    t4 := FeSqr(t3, 2 * yy, q);
    t4 := FeMulInt(t4, 2, q);
    t3 := FeMul(t3, ax, 2 * yy, X, s);
  }

  method DoubleX(t2: Fe, t3: Fe, ghost mm: int, ghost s: int) returns (rx: Fe)
    requires Is(t2, mm) && Is(t3, s) && t2.magnitude == 1 && t3.magnitude == 1
    ensures Is(rx, mm - 4 * s) && rx.magnitude == 6
  {
    rx := FeMulInt(t3, 4, s);
    rx := FeNegate(rx, 4, 4 * s);
    rx := FeAdd(rx, t2, -(4 * s), mm);
  }

  method DoubleY(t1: Fe, t2: Fe, t3: Fe, t4: Fe, ghost m: int, ghost mm: int, ghost q: int, ghost s: int, ghost w: int)
    returns (ry: Fe)
    requires Is(t1, m) && Is(t2, mm) && Is(t3, s) && Is(t4, 2 * q) && Prod(m, 6 * s - mm, w)
    requires t1.magnitude == 3 && t2.magnitude == 1 && t3.magnitude == 1 && t4.magnitude == 2
    ensures Is(ry, w - 2 * q) && ry.magnitude == 4
  {
    var u2 := FeNegate(t2, 1, mm);
    var u3 := FeMulInt(t3, 6, s);
    u3 := FeAdd(u3, u2, 6 * s, -mm);
    ry := FeMul(t1, u3, m, 6 * s - mm, w);
    u2 := FeNegate(t4, 2, 2 * q);
    ry := FeAdd(ry, u2, w, -(2 * q));
  }

  // ---------- The chord and tangent law, in affine coordinates ----------

  /** The finite point a stands for (x, y), with z coordinate z. Used like Is. */
  ghost predicate At(a: Gej, x: int, y: int, z: int) {
    forall u: int {:trigger Open(OfAt, u)} :: Open(OfAt, u) ==> !a.infinity && Is(a.x, x * z * z) && Is(a.y, y * z * z * z) && Is(a.z, z)
  }

  /** X = x z^2 and Y = y z^3. Used like Is. */
  ghost predicate Scaled(x: int, y: int, z: int, X: int, Y: int) {
    forall u: int {:trigger Open(OfScaled, u)} :: Open(OfScaled, u) ==> X == x * z * z && Y == y * z * z * z
  }

  lemma ScaledIs(x: int, y: int, z: int, X: int, Y: int)
    ensures Scaled(x, y, z, X, Y) <==> X == x * z * z && Y == y * z * z * z
  {
    assert Opened();
  }

  lemma AtIs(a: Gej, x: int, y: int, z: int, X: int, Y: int)
    requires Scaled(x, y, z, X, Y)
    ensures At(a, x, y, z) <==> !a.infinity && Is(a.x, X) && Is(a.y, Y) && Is(a.z, z)
  {
    assert Opened();
  }

  lemma AtFinite(a: Gej, x: int, y: int, z: int)
    requires At(a, x, y, z)
    ensures !a.infinity
  {
    assert Opened();
  }

  /** l is the slope of the tangent at (x, y): 2 y l = 3 x^2. Used like Is. */
  ghost predicate Tangent(l: int, x: int, y: int) {
    forall u: int {:trigger Open(OfTangent, u)} :: Open(OfTangent, u) ==> Congruent(3 * x * x, 2 * y * l)
  }

  /** x coordinate of the third point on the line of slope l through points with these x coordinates. */
  function ThirdX(l: int, x1: int, x2: int): int {
    l * l - x1 - x2
  }

  /** y coordinate of the sum, whose negative lies on the line through (x1, y1). */
  function ThirdY(l: int, x1: int, y1: int, x3: int): int {
    l * (x1 - x3) - y1
  }

  /** (x3, y3) is where the tangent of slope l at (x, y) leads: the double of the point. Used like Is. */
  ghost predicate TangentLaw(l: int, x: int, y: int, x3: int, y3: int) {
    forall u: int {:trigger Open(OfTangentLaw, u)} :: Open(OfTangentLaw, u) ==> Tangent(l, x, y) && x3 == ThirdX(l, x, x) && y3 == ThirdY(l, x, y, x3)
  }

  lemma DoubleTags(x: int, y: int, z: int, l: int, x3: int, y3: int)
    returns (X: int, Y: int, k: int, xx: int, yy: int, m: int, mm: int, q: int, s: int, w: int)
    requires TangentLaw(l, x, y, x3, y3)
    ensures Scaled(x, y, z, X, Y)
    ensures Prod(z, Y, k) && Prod(X, X, xx) && Congruent(3 * xx, m) && Prod(m, m, mm)
    ensures Prod(Y, Y, yy) && Prod(2 * yy, 2 * yy, q) && Prod(2 * yy, X, s) && Prod(m, 6 * s - mm, w)
    ensures Scaled(x3, y3, 2 * k, mm - 4 * s, w - 2 * q) && Prod(z, 2 * Y, 2 * k)
  {
    X, Y := ScaleTags(x, y, z);
    k := Times(z, Y);
    xx := Times(X, X);
    yy := Times(Y, Y);
    m := Times(2 * k, l);
    mm := Times(m, m);
    q := Times(2 * yy, 2 * yy);
    s := Times(2 * yy, X);
    w := Times(m, 6 * s - mm);
    TwiceProduct(z, Y, k);
    TangentTag(x, y, z, l, x3, y3, X, Y, k, xx, m);
    PowerTags(x, y, z, X, Y, k, yy, q, s);
    DoubleTag(x, y, l, x3, y3, k, m, mm, q, s, w);
  }

  lemma Times(x: int, y: int) returns (z: int)
    ensures Prod(x, y, z)
  {
    z := x * y;
    ProdIs(x, y, z);
  }

  lemma ScaleTags(x: int, y: int, z: int) returns (X: int, Y: int)
    ensures Scaled(x, y, z, X, Y)
  {
    X, Y := x * z * z, y * z * z * z;
    ScaledIs(x, y, z, X, Y);
  }

  lemma TwiceProduct(z: int, y: int, k: int)
    requires Prod(z, y, k)
    ensures Prod(z, 2 * y, 2 * k)
  {
    assert Opened();
  }

  lemma TangentTag(x: int, y: int, z: int, l: int, x3: int, y3: int, X: int, Y: int, k: int, xx: int, m: int)
    requires TangentLaw(l, x, y, x3, y3) && Scaled(x, y, z, X, Y) && Prod(z, Y, k) && Prod(X, X, xx) && Prod(2 * k, l, m)
    ensures Congruent(3 * xx, m)
  {
    assert Opened();
    TangentScaled(l, x, y, z, xx, m);
  }

  /** The products are multiples of powers of k. Used like Is. */
  ghost predicate PowersOfK(x: int, y: int, k: int, q: int, s: int) {
    forall u: int {:trigger Open(OfPowersOfK, u)} :: Open(OfPowersOfK, u) ==> s == 2 * (x * (k * k)) && q == 4 * (y * (k * k * k))
  }

  lemma PowerTags(x: int, y: int, z: int, X: int, Y: int, k: int, yy: int, q: int, s: int)
    requires Scaled(x, y, z, X, Y) && Prod(z, Y, k) && Prod(Y, Y, yy) && Prod(2 * yy, 2 * yy, q) && Prod(2 * yy, X, s)
    ensures PowersOfK(x, y, k, q, s)
  {
    assert Opened();
    TangentPowers(x, y, z, X, Y, k);
    assert q == 4 * (yy * yy) && s == 2 * (yy * X);
  }

  lemma DoubleTag(x: int, y: int, l: int, x3: int, y3: int, k: int, m: int, mm: int, q: int, s: int, w: int)
    requires TangentLaw(l, x, y, x3, y3) && PowersOfK(x, y, k, q, s)
    requires Prod(2 * k, l, m) && Prod(m, m, mm) && Prod(m, 6 * s - mm, w)
    ensures Scaled(x3, y3, 2 * k, mm - 4 * s, w - 2 * q)
  {
    assert Opened();
    DoubleIdentity(k, l, x, y, m, mm, q, s);
    ScaledIs(x3, y3, 2 * k, mm - 4 * s, w - 2 * q);
  }

  lemma TangentScaled(l: int, x: int, y: int, z: int, xx: int, m: int)
    requires Tangent(l, x, y) && xx == (x * z * z) * (x * z * z) && m == 2 * (z * (y * z * z * z)) * l
    ensures Congruent(3 * xx, m)
  {
    assert Open(OfTangent, 0);
    var z4 := z * z * z * z;
    CongruentScale(3 * x * x, 2 * y * l, z4);
    SquareScaled(x, z);
    LineScaled(y, l, z);
  }

  lemma SquareScaled(x: int, z: int)
    ensures (z * z * z * z) * (3 * x * x) == 3 * ((x * z * z) * (x * z * z))
  {
    var c := z * z;
    assert z * z * z * z == c * c && x * z * z == x * c;
    assert (c * c) * (3 * x * x) == 3 * ((x * c) * (x * c));
  }

  lemma LineScaled(y: int, l: int, z: int)
    ensures (z * z * z * z) * (2 * y * l) == 2 * (z * (y * z * z * z)) * l
  {
    var c := z * z * z;
    assert z * z * z * z == z * c && y * z * z * z == y * c;
    assert (z * c) * (2 * y * l) == 2 * (z * (y * c)) * l;
  }

  /** With k = y z^4: the products of the doubling as multiples of powers of k. */
  lemma TangentPowers(x: int, y: int, z: int, X: int, Y: int, k: int)
    requires X == x * z * z && Y == y * z * z * z && k == z * Y
    ensures (Y * Y) * X == x * (k * k)
    ensures (Y * Y) * (Y * Y) == y * (k * k * k)
  {
    var yy := Y * Y;
    assert k * k == (z * z) * yy;
    assert k * k * k == (z * z * z) * (yy * Y);
  }

  lemma DoubleIdentity(k: int, l: int, x: int, y: int, m: int, mm: int, q: int, s: int)
    requires m == 2 * k * l && mm == m * m && s == 2 * (x * (k * k)) && q == 4 * (y * (k * k * k))
    ensures var x3 := ThirdX(l, x, x);
      mm - 4 * s == x3 * (2 * k) * (2 * k)
      && m * (6 * s - mm) - 2 * q == ThirdY(l, x, y, x3) * (2 * k) * (2 * k) * (2 * k)
  {
    var kk := k * k;
    assert mm == 4 * kk * (l * l);
    assert 6 * s - mm == 4 * kk * (3 * x - l * l);
    assert m * (4 * kk * (3 * x - l * l)) == 8 * (kk * k) * (l * (3 * x - l * l));
  }

  // ---------- Every point a run of operations can reach ----------

  /** The coordinates keep to their magnitudes, and those to the range. */
  ghost predicate Good(a: Gej) {
    InRange(a) && Within(a.x) && Within(a.y) && Within(a.z)
  }

  ghost predicate GeGood(a: Ge) {
    GeInRange(a) && Within(a.x) && Within(a.y)
  }

  /** r.z = a.z * ratio */
  ghost predicate ZRatio(az: Fe, ratio: Fe, rz: Fe) {
    exists z, q, p :: Is(az, z) && Is(ratio, q) && Prod(z, q, p) && Is(rz, p)
  }

  /** Any coordinates will do where no point is known. */
  lemma FreeTags(X: int, Y: int, Z: int)
    returns (k: int, xx: int, yy: int, m: int, mm: int, q: int, s: int, w: int)
    ensures Prod(Z, Y, k) && Prod(X, X, xx) && Congruent(3 * xx, m) && Prod(m, m, mm)
    ensures Prod(Y, Y, yy) && Prod(2 * yy, 2 * yy, q) && Prod(2 * yy, X, s) && Prod(m, 6 * s - mm, w)
    ensures Prod(Z, 2 * Y, 2 * k)
  {
    k, xx, yy := Z * Y, X * X, Y * Y;
    m := 3 * xx;
    CongruentRefl(m);
    mm, q, s := m * m, (2 * yy) * (2 * yy), (2 * yy) * X;
    w := m * (6 * s - mm);
  }

  /** The numbers for a doubling: those of the affine point where one is known. */
  lemma TagsForDouble(a: Gej, x: int, y: int, z: int, l: int, x3: int, y3: int)
    returns (X: int, Y: int, Z: int, k: int, xx: int, yy: int, m: int, mm: int, q: int, s: int, w: int)
    requires Good(a) && !a.infinity
    ensures Is(a.x, X) && Is(a.y, Y) && Is(a.z, Z) && Prod(Z, Y, k) && Prod(Z, 2 * Y, 2 * k)
    ensures Prod(X, X, xx) && Congruent(3 * xx, m) && Prod(m, m, mm)
    ensures Prod(Y, Y, yy) && Prod(2 * yy, 2 * yy, q) && Prod(2 * yy, X, s) && Prod(m, 6 * s - mm, w)
    ensures At(a, x, y, z) && TangentLaw(l, x, y, x3, y3) ==> Scaled(x3, y3, 2 * k, mm - 4 * s, w - 2 * q)
    ensures At(a, x, y, z) && TangentLaw(l, x, y, x3, y3) ==> Z == z && Scaled(x, y, z, X, Y)
  {
    if At(a, x, y, z) && TangentLaw(l, x, y, x3, y3) {
      X, Y, k, xx, yy, m, mm, q, s, w := DoubleTags(x, y, z, l, x3, y3);
      Z := z;
      AtIs(a, x, y, z, X, Y);
    } else {
      X := AnyTag(a.x);
      Y := AnyTag(a.y);
      Z := AnyTag(a.z);
      k, xx, yy, m, mm, q, s, w := FreeTags(X, Y, Z);
    }
  }

  /** The double of a, with z coordinate z3; the coordinates of a point at infinity are left as they are. */
  method GejDouble(a: Gej, ghost x: int, ghost y: int, ghost z: int, ghost l: int, ghost x3: int, ghost y3: int)
    returns (r: Gej, rzr: Fe, ghost z3: int)
    requires Good(a)
    ensures Good(r) && r.infinity == a.infinity && Within(rzr) && rzr.magnitude <= 2
    ensures !a.infinity ==> ZRatio(a.z, rzr, r.z)
    ensures At(a, x, y, z) && TangentLaw(l, x, y, x3, y3) ==> At(r, x3, y3, z3)
    ensures At(a, x, y, z) && TangentLaw(l, x, y, x3, y3) && Fermat(P) && !Congruent(y, 0) && !Congruent(z, 0) ==> !Congruent(z3, 0)
  {
    if a.infinity {
      rzr := FeSetInt(1);
      IsWithin(rzr, 1);
      z3 := 0;
      if At(a, x, y, z) {
        AtFinite(a, x, y, z);
      }
      return a, rzr, z3;
    }
    r, rzr, z3 := DoubleFinite(a, x, y, z, l, x3, y3);
  }

  method DoubleFinite(a: Gej, ghost x: int, ghost y: int, ghost z: int, ghost l: int, ghost x3: int, ghost y3: int)
    returns (r: Gej, rzr: Fe, ghost z3: int)
    requires Good(a) && !a.infinity
    ensures Good(r) && !r.infinity && Within(rzr) && rzr.magnitude == 2 && ZRatio(a.z, rzr, r.z)
    ensures At(a, x, y, z) && TangentLaw(l, x, y, x3, y3) ==> At(r, x3, y3, z3)
    ensures At(a, x, y, z) && TangentLaw(l, x, y, x3, y3) && Fermat(P) && !Congruent(y, 0) && !Congruent(z, 0) ==> !Congruent(z3, 0)
  {
    ghost var X, Y, Z, k, xx, yy, m, mm, q, s, w := TagsForDouble(a, x, y, z, l, x3, y3);
    rzr := FeNormalizeWeakly(a.y, Y);
    rzr := FeMulInt(rzr, 2, Y);
    r := DoubleBody(a, X, Y, Z, k, xx, yy, m, mm, q, s, w);
    z3 := 2 * k;
    IsWithin(rzr, 2 * Y);
    MakeGood(r, mm - 4 * s, w - 2 * q, z3);
    if At(a, x, y, z) && TangentLaw(l, x, y, x3, y3) {
      AtIs(r, x3, y3, z3, mm - 4 * s, w - 2 * q);
      if Fermat(P) && !Congruent(y, 0) && !Congruent(z, 0) {
        DoubleNonzero(x, y, z, X, Y, k);
      }
    }
  }

  lemma DoubleNonzero(x: int, y: int, z: int, X: int, Y: int, k: int)
    requires Fermat(P) && !Congruent(y, 0) && !Congruent(z, 0) && Scaled(x, y, z, X, Y) && Prod(z, Y, k)
    ensures !Congruent(2 * k, 0)
  {
    ScaledIs(x, y, z, X, Y);
    Factored(x, y, z);
    PowersNonzero(z);
    var c := z * z * z;
    ProdIs(c, y, Y);
    ProductNonzero(c, y, Y);
    ProductNonzero(z, Y, k);
    TwiceNonzero(k);
  }

  lemma TwiceNonzero(k: int)
    requires Fermat(P) && !Congruent(k, 0)
    ensures !Congruent(2 * k, 0)
  {
    ZeroIffMod(2);
    ProdIs(2, k, 2 * k);
    ProductNonzero(2, k, 2 * k);
  }

  lemma MakeGood(r: Gej, X: int, Y: int, Z: int)
    requires InRange(r) && Is(r.x, X) && Is(r.y, Y) && Is(r.z, Z)
    ensures Good(r)
  {
    IsWithin(r.x, X);
    IsWithin(r.y, Y);
    IsWithin(r.z, Z);
  }

  // ---------- Addition ----------

  /** (x3, y3) is where the line of slope l through the two points leads: their sum. Used like Is. */
  ghost predicate ChordLaw(l: int, x1: int, y1: int, x2: int, y2: int, x3: int, y3: int) {
    forall u: int {:trigger Open(OfChordLaw, u)} ::
      Open(OfChordLaw, u) ==> Congruent(l * (x2 - x1), y2 - y1) && x3 == ThirdX(l, x1, x2) && y3 == ThirdY(l, x1, y1, x3)
  }

  /** The numbers of the steps of an addition, for h = u2 - u1 and i = s2 - s1 = j; z3 = w h. */
  lemma TagsForSum(U1: int, S1: int, U2: int, S2: int, x1: int, y1: int, x2: int, y2: int, w: int, l: int, x3: int, y3: int)
    returns (j: int, hh: int, hhh: int, ii: int, t: int, X: int, v: int, g: int, z3: int)
    ensures Congruent(S2 - S1, j) && Prod(j, j, ii) && Prod(U2 - U1, U2 - U1, hh) && Prod(U2 - U1, hh, hhh)
    ensures Prod(U1, hh, t) && X == ii - hhh - 2 * t && Prod(t - X, j, v) && Prod(hhh, S1, g) && Prod(w, U2 - U1, z3)
    ensures Scaled(x1, y1, w, U1, S1) && Scaled(x2, y2, w, U2, S2) && ChordLaw(l, x1, y1, x2, y2, x3, y3)
      ==> Scaled(x3, y3, z3, X, v - g)
  {
    z3 := Times(w, U2 - U1);
    j := DifferenceTag(U1, S1, U2, S2, x1, y1, x2, y2, w, l, x3, y3, z3);
    hh := Times(U2 - U1, U2 - U1);
    hhh := Times(U2 - U1, hh);
    ii := Times(j, j);
    t := Times(U1, hh);
    X := ii - hhh - 2 * t;
    v := Times(t - X, j);
    g := Times(hhh, S1);
    if Scaled(x1, y1, w, U1, S1) && Scaled(x2, y2, w, U2, S2) && ChordLaw(l, x1, y1, x2, y2, x3, y3) {
      ChordTag(U1, S1, U2, S2, x1, y1, x2, y2, w, l, x3, y3, j, hh, hhh, ii, t, X, v, g, z3);
    }
  }

  /** The number for i: the slope times z3 where a slope is known. */
  lemma DifferenceTag(U1: int, S1: int, U2: int, S2: int, x1: int, y1: int, x2: int, y2: int, w: int, l: int, x3: int, y3: int, z3: int)
    returns (j: int)
    requires Prod(w, U2 - U1, z3)
    ensures Congruent(S2 - S1, j)
    ensures Scaled(x1, y1, w, U1, S1) && Scaled(x2, y2, w, U2, S2) && ChordLaw(l, x1, y1, x2, y2, x3, y3) ==> Prod(l, z3, j)
  {
    if Scaled(x1, y1, w, U1, S1) && Scaled(x2, y2, w, U2, S2) && ChordLaw(l, x1, y1, x2, y2, x3, y3) {
      j := Times(l, z3);
      assert Opened();
      ChordScaled(l, x1, y1, x2, y2, w, U1, S1, U2, S2, z3);
    } else {
      j := S2 - S1;
      CongruentRefl(j);
    }
  }

  lemma ChordTag(U1: int, S1: int, U2: int, S2: int, x1: int, y1: int, x2: int, y2: int, w: int, l: int, x3: int, y3: int,
      j: int, hh: int, hhh: int, ii: int, t: int, X: int, v: int, g: int, z3: int)
    requires Scaled(x1, y1, w, U1, S1) && Scaled(x2, y2, w, U2, S2) && ChordLaw(l, x1, y1, x2, y2, x3, y3)
    requires Prod(w, U2 - U1, z3) && Prod(l, z3, j) && Prod(U2 - U1, U2 - U1, hh) && Prod(U2 - U1, hh, hhh)
    requires Prod(j, j, ii) && Prod(U1, hh, t) && X == ii - hhh - 2 * t && Prod(t - X, j, v) && Prod(hhh, S1, g)
    ensures Scaled(x3, y3, z3, X, v - g)
  {
    assert Opened();
    assert U2 - U1 == (x2 - x1) * w * w;
    ChordIdentity(l, x1, y1, x2, w, U2 - U1, z3, hh, hhh, t, U1, S1);
    ScaledIs(x3, y3, z3, X, v - g);
  }

  /** s2 - s1 is the slope times z3. */
  lemma ChordScaled(l: int, x1: int, y1: int, x2: int, y2: int, w: int, U1: int, S1: int, U2: int, S2: int, z3: int)
    requires Congruent(l * (x2 - x1), y2 - y1) && z3 == w * (U2 - U1)
    requires U1 == x1 * w * w && S1 == y1 * w * w * w && U2 == x2 * w * w && S2 == y2 * w * w * w
    ensures Congruent(S2 - S1, l * z3)
  {
    var w3 := w * w * w;
    CongruentScale(l * (x2 - x1), y2 - y1, w3);
    CongruentSym(w3 * (l * (x2 - x1)), w3 * (y2 - y1));
    CubeDifference(y1, y2, w);
    SlopeTimes(l, x1, x2, w);
  }

  lemma CubeDifference(y1: int, y2: int, w: int)
    ensures (w * w * w) * (y2 - y1) == y2 * w * w * w - y1 * w * w * w
  {
  }

  lemma SlopeTimes(l: int, x1: int, x2: int, w: int)
    ensures (w * w * w) * (l * (x2 - x1)) == l * (w * (x2 * w * w - x1 * w * w))
  {
  }

  lemma ChordIdentity(l: int, x1: int, y1: int, x2: int, w: int, h: int, z3: int, hh: int, hhh: int, t: int, U1: int, S1: int)
    requires U1 == x1 * w * w && S1 == y1 * w * w * w && h == (x2 - x1) * w * w && z3 == w * h
    requires hh == h * h && hhh == h * hh && t == U1 * hh
    ensures var (x3, j) := (ThirdX(l, x1, x2), l * z3);
      j * j - hhh - 2 * t == x3 * z3 * z3
      && (t - (j * j - hhh - 2 * t)) * j - hhh * S1 == ThirdY(l, x1, y1, x3) * z3 * z3 * z3
  {
    var x3, j, zz := ThirdX(l, x1, x2), l * z3, z3 * z3;
    PowersOf(w, h, z3);
    TermIs(x1, w, hh, zz);
    TermIs(x2 - x1, w, hh, zz);
    SquareOfProduct(l, z3);
    XIdentity(l * l, x1, x2, zz);
    var X3 := j * j - hhh - 2 * t;
    assert X3 == x3 * zz;
    YIdentity(l, x1, y1, x3, z3, zz, hhh * (w * w * w));
    CubeTerm(y1, w, hhh);
    Regrouped(x3, ThirdY(l, x1, y1, x3), z3);
  }

  lemma TermIs(x: int, w: int, hh: int, zz: int)
    requires zz == (w * w) * hh
    ensures (x * w * w) * hh == x * zz
  {
  }

  lemma SquareOfProduct(l: int, z: int)
    ensures (l * z) * (l * z) == (l * l) * (z * z)
  {
  }

  lemma CubeTerm(y: int, w: int, hhh: int)
    ensures hhh * (y * w * w * w) == (hhh * (w * w * w)) * y
  {
  }

  lemma Regrouped(x: int, y: int, z: int)
    ensures x * (z * z) == x * z * z && y * (z * (z * z)) == y * z * z * z
  {
  }

  lemma PowersOf(w: int, h: int, z: int)
    requires z == w * h
    ensures z * z == (w * w) * (h * h) && z * (z * z) == (h * (h * h)) * (w * w * w)
  {
  }

  lemma XIdentity(ll: int, x1: int, x2: int, zz: int)
    ensures ll * zz - (x2 - x1) * zz - 2 * (x1 * zz) == (ll - x1 - x2) * zz
  {
  }

  lemma YIdentity(l: int, x1: int, y1: int, x3: int, z: int, zz: int, zzz: int)
    requires zzz == z * zz
    ensures (x1 * zz - x3 * zz) * (l * z) - zzz * y1 == (l * (x1 - x3) - y1) * (z * zz)
  {
  }

  /** p is prime: a product vanishes only with one of its factors. */
  lemma NoZeroDivisors(a: int, b: int)
    requires Fermat(P) && Congruent(a * b, 0) && !Congruent(a, 0)
    ensures Congruent(b, 0)
  {
    ZeroIffMod(a);
    InverseIsInverse(P, a);
    CancelWith(PowMod(P, a, P - 2), a, b);
  }

  lemma CancelWith(inv: int, a: int, b: int)
    requires (inv * a) % P == 1 && Congruent(a * b, 0)
    ensures Congruent(b, 0)
  {
    var e := inv * a;
    UnitTimes(e, b);
    CongruentScale(a * b, 0, inv);
    RegroupProduct(inv, a, b);
    ZeroCongruent(b, e * b);
  }

  lemma RegroupProduct(x: int, y: int, z: int)
    ensures x * (y * z) == (x * y) * z
  {
  }

  lemma UnitTimes(e: int, b: int)
    requires e % P == 1
    ensures Congruent(b, e * b)
  {
    var q := e / P;
    assert e == q * P + 1;
    RegroupProduct(q, b, P);
    CongruentBy(b, e * b, q * b);
  }

  /** Coordinates scaled by a power of w that does not vanish agree exactly when the coordinates do. */
  lemma SameScaled(x1: int, x2: int, c: int, U1: int, U2: int)
    requires Fermat(P) && !Congruent(c, 0) && U1 == c * x1 && U2 == c * x2
    ensures Congruent(U2 - U1, 0) <==> Congruent(x1, x2)
  {
    assert U2 - U1 == c * (x2 - x1);
    if Congruent(U2 - U1, 0) {
      NoZeroDivisors(c, x2 - x1);
      CongruentRefl(x1);
      CongruentAdd(x2 - x1, 0, x1, x1);
      CongruentSym(x2, x1);
    }
    if Congruent(x1, x2) {
      CongruentRefl(-x1);
      CongruentAdd(x1, x2, -x1, -x1);
      CongruentSym(0, x2 - x1);
      CongruentScale(x2 - x1, 0, c);
    }
  }

  lemma PowersNonzero(w: int)
    requires Fermat(P) && !Congruent(w, 0)
    ensures !Congruent(w * w, 0) && !Congruent(w * w * w, 0)
  {
    if Congruent(w * w, 0) {
      NoZeroDivisors(w, w);
    }
    if Congruent((w * w) * w, 0) {
      NoZeroDivisors(w * w, w);
    }
  }

  lemma SameCoordinates(x1: int, y1: int, x2: int, y2: int, w: int, U1: int, S1: int, U2: int, S2: int)
    requires Fermat(P) && !Congruent(w, 0) && Scaled(x1, y1, w, U1, S1) && Scaled(x2, y2, w, U2, S2)
    ensures Congruent(U2 - U1, 0) <==> Congruent(x1, x2)
    ensures Congruent(S2 - S1, 0) <==> Congruent(y1, y2)
  {
    PowersNonzero(w);
    ScaledIs(x1, y1, w, U1, S1);
    ScaledIs(x2, y2, w, U2, S2);
    Factored(x1, y1, w);
    Factored(x2, y2, w);
    SameScaled(x1, x2, w * w, U1, U2);
    SameScaled(y1, y2, w * w * w, S1, S2);
  }

  lemma Factored(x: int, y: int, w: int)
    ensures x * w * w == (w * w) * x && y * w * w * w == (w * w * w) * y
  {
  }

  /** (x3, y3) is the sum of the two points, unless they are opposite. Used like Is. */
  ghost predicate SumLaw(l: int, x1: int, y1: int, x2: int, y2: int, x3: int, y3: int) {
    if Congruent(x1, x2) then Congruent(y1, y2) ==> TangentLaw(l, x1, y1, x3, y3)
    else ChordLaw(l, x1, y1, x2, y2, x3, y3)
  }

  method LineThrough(u1: Fe, u2: Fe, ghost U1: int, ghost U2: int) returns (h: Fe)
    requires Is(u1, U1) && Is(u2, U2) && u1.magnitude == u2.magnitude == 1
    ensures Is(h, U2 - U1) && h.magnitude == 3
  {
    h := FeNegate(u1, 1, U1);
    h := FeAdd(h, u2, -U1, U2);
  }

  /** The coordinates on the chord, for u1, s1 and the differences h and i. */
  method Chord(u1: Fe, s1: Fe, h: Fe, i: Fe, ghost U: int, ghost S: int, ghost H: int, ghost I: int,
      ghost hh: int, ghost hhh: int, ghost ii: int, ghost t: int, ghost X: int, ghost v: int, ghost g: int)
    returns (rx: Fe, ry: Fe)
    requires Is(u1, U) && Is(s1, S) && Is(h, H) && Is(i, I) && u1.magnitude == s1.magnitude == 1 && h.magnitude == i.magnitude == 3
    requires Prod(I, I, ii) && Prod(H, H, hh) && Prod(H, hh, hhh) && Prod(U, hh, t)
    requires X == ii - hhh - 2 * t && Prod(t - X, I, v) && Prod(hhh, S, g)
    ensures Is(rx, X) && rx.magnitude == 5
    ensures Is(ry, v - g) && ry.magnitude == 3
  {
    var i2 := FeSqr(i, I, ii);
    var h2 := FeSqr(h, H, hh);
    var h3 := FeMul(h, h2, H, hh, hhh);
    var ft := FeMul(u1, h2, U, hh, t);
    rx := ChordX(ft, h3, i2, t, hhh, ii);
    ry := ChordY(rx, ft, i, h3, s1, X, t, I, hhh, S, v, g);
  }

  method ChordX(t: Fe, h3: Fe, i2: Fe, ghost et: int, ghost hhh: int, ghost ii: int) returns (rx: Fe)
    requires Is(t, et) && Is(h3, hhh) && Is(i2, ii) && t.magnitude == h3.magnitude == i2.magnitude == 1
    ensures Is(rx, ii - hhh - 2 * et) && rx.magnitude == 5
  {
    rx := FeMulInt(t, 2, et);
    rx := FeAdd(rx, h3, 2 * et, hhh);
    rx := FeNegate(rx, 3, 2 * et + hhh);
    rx := FeAdd(rx, i2, -(2 * et + hhh), ii);
  }

  method ChordY(rx: Fe, t: Fe, i: Fe, h3: Fe, s1: Fe,
      ghost X: int, ghost et: int, ghost I: int, ghost hhh: int, ghost S: int, ghost v: int, ghost g: int)
    returns (ry: Fe)
    requires Is(rx, X) && Is(t, et) && Is(i, I) && Is(h3, hhh) && Is(s1, S) && Prod(et - X, I, v) && Prod(hhh, S, g)
    requires rx.magnitude == 5 && t.magnitude == h3.magnitude == s1.magnitude == 1 && i.magnitude == 3
    ensures Is(ry, v - g) && ry.magnitude == 3
  {
    ry := FeNegate(rx, 5, X);
    ry := FeAdd(ry, t, -X, et);
    ry := FeMul(ry, i, et - X, I, v);
    var h4 := FeMul(h3, s1, hhh, S, g);
    h4 := FeNegate(h4, 1, g);
    ry := FeAdd(ry, h4, v, -g);
  }

  /** p is prime, w does not vanish, and the scaled coordinates are those of two points whose sum the law gives. */
  ghost predicate KnownSum(U1: int, S1: int, U2: int, S2: int, w: int,
      l: int, x1: int, y1: int, x2: int, y2: int, x3: int, y3: int) {
    && Fermat(P) && !Congruent(w, 0)
    && Scaled(x1, y1, w, U1, S1) && Scaled(x2, y2, w, U2, S2) && SumLaw(l, x1, y1, x2, y2, x3, y3)
  }

  /** What the result of an addition is: at infinity for opposite points, else the point of the law, with a z
      coordinate other than 0 (unless a point with y = 0 was doubled). */
  ghost predicate IsSum(r: Gej, x1: int, y1: int, x2: int, y2: int, x3: int, y3: int, z3: int) {
    if Congruent(x1, x2) && !Congruent(y1, y2) then r.infinity
    else At(r, x3, y3, z3) && (!Congruent(z3, 0) || (Congruent(x1, x2) && Congruent(y1, 0)))
  }

  /** The common end of the additions when the points have the same x coordinate: a doubling, or infinity. */
  method AddSameX(a: Gej, i: Fe, ghost I: int,
      ghost x1: int, ghost y1: int, ghost z1: int, ghost l: int, ghost x3: int, ghost y3: int)
    returns (r: Gej, rzr: Fe, ghost z3: int)
    requires Good(a) && !a.infinity && Is(i, I) && i.magnitude == 3
    ensures Good(r) && Within(rzr) && rzr.magnitude <= 2 && r.infinity == !Congruent(I, 0)
    ensures !r.infinity ==> ZRatio(a.z, rzr, r.z)
    ensures Congruent(I, 0) && At(a, x1, y1, z1) && TangentLaw(l, x1, y1, x3, y3) ==> At(r, x3, y3, z3)
    ensures Congruent(I, 0) && At(a, x1, y1, z1) && TangentLaw(l, x1, y1, x3, y3) && Fermat(P) && !Congruent(y1, 0) && !Congruent(z1, 0)
      ==> !Congruent(z3, 0)
  {
    var same := FeIsZeroMod(i, I);
    if same {
      r, rzr, z3 := GejDouble(a, x1, y1, z1, l, x3, y3);
    } else {
      rzr := FeSetInt(0);
      IsWithin(rzr, 0);
      r, z3 := Gej(a.x, a.y, a.z, true), 0;
    }
  }

  /** The chord through points with different x coordinates, all but its z coordinate. */
  method AddOtherX(u1: Fe, s1: Fe, h: Fe, i: Fe, ghost U1: int, ghost S1: int, ghost U2: int, ghost S2: int,
      ghost w: int, ghost l: int, ghost x1: int, ghost y1: int, ghost x2: int, ghost y2: int, ghost x3: int, ghost y3: int)
    returns (rx: Fe, ry: Fe, ghost z3: int, ghost X3: int, ghost Y3: int)
    requires Is(u1, U1) && Is(s1, S1) && u1.magnitude == s1.magnitude == 1
    requires Is(h, U2 - U1) && Is(i, S2 - S1) && h.magnitude == i.magnitude == 3
    ensures Is(rx, X3) && Is(ry, Y3) && rx.magnitude == 5 && ry.magnitude == 3 && Prod(w, U2 - U1, z3)
    ensures Scaled(x1, y1, w, U1, S1) && Scaled(x2, y2, w, U2, S2) && ChordLaw(l, x1, y1, x2, y2, x3, y3)
      ==> Scaled(x3, y3, z3, X3, Y3)
  {
    ghost var j, hh, hhh, ii, t, v, g;
    j, hh, hhh, ii, t, X3, v, g, z3 := TagsForSum(U1, S1, U2, S2, x1, y1, x2, y2, w, l, x3, y3);
    Retag(i, S2 - S1, j);
    rx, ry := Chord(u1, s1, h, i, U1, S1, U2 - U1, j, hh, hhh, ii, t, X3, v, g);
    Y3 := v - g;
  }

  method GejAddVar(a: Gej, b: Gej, ghost x1: int, ghost y1: int, ghost z1: int, ghost x2: int, ghost y2: int, ghost z2: int,
      ghost l: int, ghost x3: int, ghost y3: int)
    returns (r: Gej, rzr: Fe, ghost z3: int)
    requires Good(a) && Good(b)
    ensures Good(r) && Within(rzr) && rzr.magnitude <= 2
    ensures a.infinity ==> r == b
    ensures !a.infinity && b.infinity ==> r == a
    ensures !a.infinity && !r.infinity ==> ZRatio(a.z, rzr, r.z)
    ensures At(a, x1, y1, z1) && At(b, x2, y2, z2) && Fermat(P) && !Congruent(z1, 0) && !Congruent(z2, 0) && SumLaw(l, x1, y1, x2, y2, x3, y3)
      ==> IsSum(r, x1, y1, x2, y2, x3, y3, z3)
  {
    z3 := 0;
    rzr := FeSetInt(1);
    IsWithin(rzr, 1);
    if a.infinity {
      NotAt(a, x1, y1, z1);
      return b, rzr, z3;
    }
    if b.infinity {
      NotAt(b, x2, y2, z2);
      RatioOne(a.z, rzr);
      return a, rzr, z3;
    }
    r, rzr, z3 := AddFinite(a, b, x1, y1, z1, x2, y2, z2, l, x3, y3);
  }

  lemma NotAt(a: Gej, x: int, y: int, z: int)
    requires a.infinity
    ensures !At(a, x, y, z)
  {
    assert Opened();
  }

  lemma RatioOne(z: Fe, one: Fe)
    requires Within(z) && Is(one, 1)
    ensures ZRatio(z, one, z)
  {
    var e := AnyTag(z);
    ProdIs(e, 1, e);
  }

  /** The numbers of the cross terms x1 z2^2, x2 z1^2, y1 z2^3, y2 z1^3. */
  lemma TagsForCross(a: Gej, b: Gej, x1: int, y1: int, z1: int, x2: int, y2: int, z2: int)
    returns (X1: int, Y1: int, Z1: int, X2: int, Y2: int, Z2: int,
      c1: int, c2: int, U1: int, U2: int, q1: int, q2: int, S1: int, S2: int, w: int)
    requires Good(a) && Good(b) && !a.infinity && !b.infinity
    ensures Is(a.x, X1) && Is(a.y, Y1) && Is(a.z, Z1) && Is(b.x, X2) && Is(b.y, Y2) && Is(b.z, Z2)
    ensures Prod(Z1, Z1, c1) && Prod(Z2, Z2, c2) && Prod(X1, c2, U1) && Prod(X2, c1, U2)
    ensures Prod(Y1, c2, q1) && Prod(q1, Z2, S1) && Prod(Y2, c1, q2) && Prod(q2, Z1, S2) && Prod(Z1, Z2, w)
    ensures At(a, x1, y1, z1) && At(b, x2, y2, z2) ==>
      Z1 == z1 && Z2 == z2 && Scaled(x1, y1, w, U1, S1) && Scaled(x2, y2, w, U2, S2)
  {
    assert Opened();
    if At(a, x1, y1, z1) && At(b, x2, y2, z2) {
      X1, Y1, Z1 := x1 * z1 * z1, y1 * z1 * z1 * z1, z1;
      X2, Y2, Z2 := x2 * z2 * z2, y2 * z2 * z2 * z2, z2;
      CrossIdentity(x1, y1, z1, z2);
      CrossIdentity(x2, y2, z2, z1);
      assert z1 * z2 == z2 * z1;
    } else {
      X1 := AnyTag(a.x);
      Y1 := AnyTag(a.y);
      Z1 := AnyTag(a.z);
      X2 := AnyTag(b.x);
      Y2 := AnyTag(b.y);
      Z2 := AnyTag(b.z);
    }
    c1, c2, w := Z1 * Z1, Z2 * Z2, Z1 * Z2;
    U1, U2, q1, q2 := X1 * c2, X2 * c1, Y1 * c2, Y2 * c1;
    S1, S2 := q1 * Z2, q2 * Z1;
  }

  lemma CrossIdentity(x: int, y: int, z: int, s: int)
    ensures (x * z * z) * (s * s) == x * (z * s) * (z * s)
    ensures ((y * z * z * z) * (s * s)) * s == y * (z * s) * (z * s) * (z * s)
  {
  }

  method CrossTerms(a: Gej, b: Gej, ghost X1: int, ghost Y1: int, ghost Z1: int, ghost X2: int, ghost Y2: int, ghost Z2: int,
      ghost c1: int, ghost c2: int, ghost U1: int, ghost U2: int, ghost q1: int, ghost q2: int, ghost S1: int, ghost S2: int)
    returns (u1: Fe, u2: Fe, s1: Fe, s2: Fe)
    requires InRange(a) && InRange(b)
    requires Is(a.x, X1) && Is(a.y, Y1) && Is(a.z, Z1) && Is(b.x, X2) && Is(b.y, Y2) && Is(b.z, Z2)
    requires Prod(Z1, Z1, c1) && Prod(Z2, Z2, c2) && Prod(X1, c2, U1) && Prod(X2, c1, U2)
    requires Prod(Y1, c2, q1) && Prod(q1, Z2, S1) && Prod(Y2, c1, q2) && Prod(q2, Z1, S2)
    ensures Is(u1, U1) && Is(u2, U2) && Is(s1, S1) && Is(s2, S2)
    ensures u1.magnitude == u2.magnitude == s1.magnitude == s2.magnitude == 1
  {
    var z22 := FeSqr(b.z, Z2, c2);
    var z12 := FeSqr(a.z, Z1, c1);
    u1 := FeMul(a.x, z22, X1, c2, U1);
    u2 := FeMul(b.x, z12, X2, c1, U2);
    s1 := FeMul(a.y, z22, Y1, c2, q1);
    s1 := FeMul(s1, b.z, q1, Z2, S1);
    s2 := FeMul(b.y, z12, Y2, c1, q2);
    s2 := FeMul(s2, a.z, q2, Z1, S2);
  }

  lemma ZTags(Z1: int, Z2: int, w: int, h: int, z3: int) returns (hz: int)
    requires Prod(Z1, Z2, w) && Prod(w, h, z3)
    ensures Prod(h, Z2, hz) && Prod(Z1, hz, z3)
  {
    assert Opened();
    hz := h * Z2;
    assert Z1 * (h * Z2) == (Z1 * Z2) * h;
  }

  lemma ProductNonzero(Z1: int, Z2: int, w: int)
    requires Fermat(P) && Prod(Z1, Z2, w) && !Congruent(Z1, 0) && !Congruent(Z2, 0)
    ensures !Congruent(w, 0)
  {
    assert Opened();
    if Congruent(w, 0) {
      NoZeroDivisors(Z1, Z2);
    }
  }

  method AddFinite(a: Gej, b: Gej, ghost x1: int, ghost y1: int, ghost z1: int, ghost x2: int, ghost y2: int, ghost z2: int,
      ghost l: int, ghost x3: int, ghost y3: int)
    returns (r: Gej, rzr: Fe, ghost z3: int)
    requires Good(a) && Good(b) && !a.infinity && !b.infinity
    ensures Good(r) && Within(rzr) && rzr.magnitude <= 2
    ensures !r.infinity ==> ZRatio(a.z, rzr, r.z)
    ensures At(a, x1, y1, z1) && At(b, x2, y2, z2) && Fermat(P) && !Congruent(z1, 0) && !Congruent(z2, 0) && SumLaw(l, x1, y1, x2, y2, x3, y3)
      ==> IsSum(r, x1, y1, x2, y2, x3, y3, z3)
  {
    ghost var X1, Y1, Z1, X2, Y2, Z2, c1, c2, U1, U2, q1, q2, S1, S2, w := TagsForCross(a, b, x1, y1, z1, x2, y2, z2);
    var u1, u2, s1, s2 := CrossTerms(a, b, X1, Y1, Z1, X2, Y2, Z2, c1, c2, U1, U2, q1, q2, S1, S2);
    r, rzr, z3 := AddScaled(a, b.z, u1, u2, s1, s2, U1, S1, U2, S2, Z1, Z2, w, x1, y1, z1, l, x2, y2, x3, y3);
    if At(a, x1, y1, z1) && At(b, x2, y2, z2) && Fermat(P) && !Congruent(z1, 0) && !Congruent(z2, 0) {
      ProductNonzero(z1, z2, w);
    }
  }

  /** The addition, once both points are scaled to the z coordinate w = z1 z2. */
  method AddScaled(a: Gej, bz: Fe, u1: Fe, u2: Fe, s1: Fe, s2: Fe, ghost U1: int, ghost S1: int, ghost U2: int, ghost S2: int,
      ghost Z1: int, ghost Z2: int, ghost w: int,
      ghost x1: int, ghost y1: int, ghost z1: int, ghost l: int, ghost x2: int, ghost y2: int, ghost x3: int, ghost y3: int)
    returns (r: Gej, rzr: Fe, ghost z3: int)
    requires Good(a) && !a.infinity && Is(u1, U1) && Is(u2, U2) && Is(s1, S1) && Is(s2, S2)
    requires u1.magnitude == u2.magnitude == s1.magnitude == s2.magnitude == 1
    requires Is(a.z, Z1) && Is(bz, Z2) && bz.magnitude <= 2 && Prod(Z1, Z2, w)
    ensures Good(r) && Within(rzr) && rzr.magnitude <= 2
    ensures !r.infinity ==> ZRatio(a.z, rzr, r.z)
    ensures KnownSum(U1, S1, U2, S2, w, l, x1, y1, x2, y2, x3, y3) && At(a, x1, y1, z1) && !Congruent(z1, 0)
      ==> IsSum(r, x1, y1, x2, y2, x3, y3, z3)
  {
    var done, h, rx, ry;
    ghost var X3, Y3;
    done, r, rzr, h, rx, ry, z3, X3, Y3 := AddLine(a, u1, u2, s1, s2, U1, S1, U2, S2, w, x1, y1, z1, l, x2, y2, x3, y3);
    if !done {
      r, rzr := FinishVar(a.z, bz, h, rx, ry, Z1, Z2, w, U2 - U1, z3, X3, Y3, x3, y3);
      if Fermat(P) && !Congruent(w, 0) {
        ProductNonzero(w, U2 - U1, z3);
      }
    }
  }

  /** The z coordinate z1 z2 h on the chord. */
  method FinishVar(az: Fe, bz: Fe, h: Fe, rx: Fe, ry: Fe, ghost Z1: int, ghost Z2: int, ghost w: int, ghost H: int,
      ghost z3: int, ghost X3: int, ghost Y3: int, ghost x3: int, ghost y3: int)
    returns (r: Gej, rzr: Fe)
    requires Is(az, Z1) && Is(bz, Z2) && Is(h, H) && Is(rx, X3) && Is(ry, Y3) && Prod(Z1, Z2, w) && Prod(w, H, z3)
    requires az.magnitude <= 2 && bz.magnitude <= 2 && h.magnitude == 3 && rx.magnitude == 5 && ry.magnitude == 3
    ensures Good(r) && !r.infinity && Within(rzr) && rzr.magnitude == 1 && ZRatio(az, rzr, r.z)
    ensures Scaled(x3, y3, z3, X3, Y3) ==> At(r, x3, y3, z3)
  {
    ghost var hz := ZTags(Z1, Z2, w, H, z3);
    rzr := FeMul(h, bz, H, Z2, hz);
    var rz := FeMul(az, rzr, Z1, hz, z3);
    r := Gej(rx, ry, rz, false);
    IsWithin(rzr, hz);
    MakeGood(r, X3, Y3, z3);
    if Scaled(x3, y3, z3, X3, Y3) {
      AtIs(r, x3, y3, z3, X3, Y3);
    }
  }

  /** The part that the additions share: the differences h and i, the cases, and the x and y coordinates on the chord. */
  method AddLine(a: Gej, u1: Fe, u2: Fe, s1: Fe, s2: Fe, ghost U1: int, ghost S1: int, ghost U2: int, ghost S2: int, ghost w: int,
      ghost x1: int, ghost y1: int, ghost z1: int, ghost l: int, ghost x2: int, ghost y2: int, ghost x3: int, ghost y3: int)
    returns (done: bool, r: Gej, rzr: Fe, h: Fe, rx: Fe, ry: Fe, ghost z3: int, ghost X3: int, ghost Y3: int)
    requires Good(a) && !a.infinity && Is(u1, U1) && Is(u2, U2) && Is(s1, S1) && Is(s2, S2)
    requires u1.magnitude == u2.magnitude == s1.magnitude == s2.magnitude == 1
    ensures done ==> Good(r) && Within(rzr) && rzr.magnitude <= 2 && (!r.infinity ==> ZRatio(a.z, rzr, r.z))
    ensures !done ==> Is(h, U2 - U1) && h.magnitude == 3 && Is(rx, X3) && Is(ry, Y3) && rx.magnitude == 5 && ry.magnitude == 3
    ensures !done ==> Prod(w, U2 - U1, z3) && !Congruent(U2 - U1, 0)
    ensures KnownSum(U1, S1, U2, S2, w, l, x1, y1, x2, y2, x3, y3) && At(a, x1, y1, z1) && !Congruent(z1, 0) ==>
      if done then Congruent(x1, x2) && IsSum(r, x1, y1, x2, y2, x3, y3, z3) else !Congruent(x1, x2) && Scaled(x3, y3, z3, X3, Y3)
  {
    h := LineThrough(u1, u2, U1, U2);
    var i := LineThrough(s1, s2, S1, S2);
    rx, ry, rzr, r, X3, Y3 := u1, s1, u1, a, 0, 0;
    done := FeIsZeroMod(h, U2 - U1);
    if KnownSum(U1, S1, U2, S2, w, l, x1, y1, x2, y2, x3, y3) {
      SameCoordinates(x1, y1, x2, y2, w, U1, S1, U2, S2);
    }
    if done {
      r, rzr, z3 := AddSameX(a, i, S2 - S1, x1, y1, z1, l, x3, y3);
    } else {
      rx, ry, z3, X3, Y3 := AddOtherX(u1, s1, h, i, U1, S1, U2, S2, w, l, x1, y1, x2, y2, x3, y3);
    }
  }

  // ---------- Addition of an affine point ----------

  /** The affine point b is (x, y). Used like Is. */
  ghost predicate AtGe(b: Ge, x: int, y: int) {
    forall u: int {:trigger Open(OfAtGe, u)} :: Open(OfAtGe, u) ==> !b.infinity && Is(b.x, x) && Is(b.y, y)
  }

  /** The point b with z coordinate z stands for (x, y). Used like Is. */
  ghost predicate AtGeZ(b: Ge, x: int, y: int, z: int) {
    forall u: int {:trigger Open(OfAtGeZ, u)} :: Open(OfAtGeZ, u) ==> !b.infinity && Is(b.x, x * z * z) && Is(b.y, y * z * z * z)
  }

  lemma NotAtGe(b: Ge, x: int, y: int, z: int)
    requires b.infinity
    ensures !AtGe(b, x, y) && !AtGeZ(b, x, y, z)
  {
    assert Opened();
  }

  lemma TagsOf(a: Gej, x: int, y: int, z: int) returns (X: int, Y: int, Z: int)
    requires Good(a)
    ensures Is(a.x, X) && Is(a.y, Y) && Is(a.z, Z)
    ensures At(a, x, y, z) ==> Z == z && Scaled(x, y, z, X, Y)
  {
    if At(a, x, y, z) {
      X, Y, Z := x * z * z, y * z * z * z, z;
      ScaledIs(x, y, z, X, Y);
      AtIs(a, x, y, z, X, Y);
    } else {
      X := AnyTag(a.x);
      Y := AnyTag(a.y);
      Z := AnyTag(a.z);
    }
  }

  /** The end of a mixed addition: a plus a point whose coordinates over the z of a are u2 and s2. */
  method AddMixed(a: Gej, u2: Fe, s2: Fe, ghost X1: int, ghost Y1: int, ghost Z1: int, ghost U2: int, ghost S2: int,
      ghost x1: int, ghost y1: int, ghost x2: int, ghost y2: int, ghost l: int, ghost x3: int, ghost y3: int)
    returns (r: Gej, rzr: Fe, ghost z3: int)
    requires Good(a) && !a.infinity && Is(a.x, X1) && Is(a.y, Y1) && Is(a.z, Z1)
    requires Is(u2, U2) && Is(s2, S2) && u2.magnitude == s2.magnitude == 1
    ensures Good(r) && Within(rzr) && rzr.magnitude <= 3
    ensures !r.infinity ==> ZRatio(a.z, rzr, r.z)
    ensures KnownSum(X1, Y1, U2, S2, Z1, l, x1, y1, x2, y2, x3, y3) ==> IsSum(r, x1, y1, x2, y2, x3, y3, z3)
  {
    var u1 := FeNormalizeWeakly(a.x, X1);
    var s1 := FeNormalizeWeakly(a.y, Y1);
    if Scaled(x1, y1, Z1, X1, Y1) {
      AtIs(a, x1, y1, Z1, X1, Y1);
    }
    var done, h, rx, ry;
    ghost var X3, Y3;
    done, r, rzr, h, rx, ry, z3, X3, Y3 := AddLine(a, u1, u2, s1, s2, X1, Y1, U2, S2, Z1, x1, y1, Z1, l, x2, y2, x3, y3);
    if !done {
      rzr := h;
      r := FinishMixed(a.z, h, rx, ry, Z1, U2 - X1, z3, X3, Y3, x3, y3);
      if Fermat(P) && !Congruent(Z1, 0) {
        ProductNonzero(Z1, U2 - X1, z3);
      }
    }
  }

  /** The z coordinate z1 h on the chord. */
  method FinishMixed(az: Fe, h: Fe, rx: Fe, ry: Fe, ghost Z1: int, ghost H: int,
      ghost z3: int, ghost X3: int, ghost Y3: int, ghost x3: int, ghost y3: int)
    returns (r: Gej)
    requires Is(az, Z1) && Is(h, H) && Is(rx, X3) && Is(ry, Y3) && Prod(Z1, H, z3)
    requires az.magnitude <= 2 && h.magnitude == 3 && rx.magnitude == 5 && ry.magnitude == 3
    ensures Good(r) && !r.infinity && Within(h) && ZRatio(az, h, r.z)
    ensures Scaled(x3, y3, z3, X3, Y3) ==> At(r, x3, y3, z3)
  {
    var rz := FeMul(az, h, Z1, H, z3);
    r := Gej(rx, ry, rz, false);
    IsWithin(h, H);
    MakeGood(r, X3, Y3, z3);
    if Scaled(x3, y3, z3, X3, Y3) {
      AtIs(r, x3, y3, z3, X3, Y3);
    }
  }

  /** The numbers for x2 z1^2 and y2 z1^3. */
  lemma TagsForMixed(X2: int, Y2: int, Z1: int) returns (c: int, U2: int, q: int, S2: int)
    ensures Prod(Z1, Z1, c) && Prod(X2, c, U2) && Prod(Y2, c, q) && Prod(q, Z1, S2) && Scaled(X2, Y2, Z1, U2, S2)
  {
    c := Z1 * Z1;
    U2, q := X2 * c, Y2 * c;
    S2 := q * Z1;
    assert X2 * (Z1 * Z1) == X2 * Z1 * Z1 && (Y2 * (Z1 * Z1)) * Z1 == Y2 * Z1 * Z1 * Z1;
  }

  method ScaleByZ(fx: Fe, fy: Fe, z: Fe, ghost X2: int, ghost Y2: int, ghost Z1: int,
      ghost c: int, ghost U2: int, ghost q: int, ghost S2: int)
    returns (u2: Fe, s2: Fe)
    requires Is(fx, X2) && Is(fy, Y2) && Is(z, Z1) && fx.magnitude <= 6 && fy.magnitude <= 4 && z.magnitude <= 2
    requires Prod(Z1, Z1, c) && Prod(X2, c, U2) && Prod(Y2, c, q) && Prod(q, Z1, S2)
    ensures Is(u2, U2) && Is(s2, S2) && u2.magnitude == s2.magnitude == 1
  {
    var z12 := FeSqr(z, Z1, c);
    u2 := FeMul(fx, z12, X2, c, U2);
    s2 := FeMul(fy, z12, Y2, c, q);
    s2 := FeMul(s2, z, q, Z1, S2);
  }

  method GejSetGe(b: Ge, ghost x: int, ghost y: int) returns (r: Gej)
    requires GeGood(b)
    ensures Good(r) && r.infinity == b.infinity && (AtGe(b, x, y) ==> At(r, x, y, 1))
  {
    var one := FeSetInt(1);
    IsWithin(one, 1);
    r := Gej(b.x, b.y, one, b.infinity);
    if AtGe(b, x, y) {
      assert Opened();
      ScaledIs(x, y, 1, x, y);
      AtIs(r, x, y, 1, x, y);
    }
  }

  method GejAddGeVar(a: Gej, b: Ge, ghost x1: int, ghost y1: int, ghost z1: int, ghost x2: int, ghost y2: int,
      ghost l: int, ghost x3: int, ghost y3: int)
    returns (r: Gej, rzr: Fe, ghost z3: int)
    requires Good(a) && GeGood(b)
    ensures Good(r) && Within(rzr) && rzr.magnitude <= 3
    ensures a.infinity ==> r.infinity == b.infinity && (AtGe(b, x2, y2) ==> At(r, x2, y2, 1))
    ensures !a.infinity && b.infinity ==> r == a
    ensures !a.infinity && !r.infinity ==> ZRatio(a.z, rzr, r.z)
    ensures At(a, x1, y1, z1) && AtGe(b, x2, y2) && Fermat(P) && !Congruent(z1, 0) && SumLaw(l, x1, y1, x2, y2, x3, y3)
      ==> IsSum(r, x1, y1, x2, y2, x3, y3, z3)
  {
    z3 := 0;
    rzr := FeSetInt(1);
    IsWithin(rzr, 1);
    if a.infinity {
      NotAt(a, x1, y1, z1);
      r := GejSetGe(b, x2, y2);
      return;
    }
    if b.infinity {
      NotAtGe(b, x2, y2, 0);
      RatioOne(a.z, rzr);
      return a, rzr, z3;
    }
    ghost var X1, Y1, Z1 := TagsOf(a, x1, y1, z1);
    ghost var X2, Y2 := TagsOfGe(b, x2, y2);
    ghost var c, U2, q, S2 := TagsForMixed(X2, Y2, Z1);
    var u2, s2 := ScaleByZ(b.x, b.y, a.z, X2, Y2, Z1, c, U2, q, S2);
    r, rzr, z3 := AddMixed(a, u2, s2, X1, Y1, Z1, U2, S2, x1, y1, x2, y2, l, x3, y3);
  }

  lemma TagsOfGe(b: Ge, x: int, y: int) returns (X: int, Y: int)
    requires GeGood(b)
    ensures Is(b.x, X) && Is(b.y, Y) && (AtGe(b, x, y) ==> X == x && Y == y)
  {
    if AtGe(b, x, y) {
      assert Opened();
      X, Y := x, y;
    } else {
      X := AnyTag(b.x);
      Y := AnyTag(b.y);
    }
  }

  // ---------- Addition of a point given with the inverse of its z coordinate ----------

  /** Scaling by z1 / z where the coordinates were scaled by z. */
  lemma ZinvCancel(x: int, y: int, z: int, e: int, s: int)
    requires Congruent(z * e, 1)
    ensures Congruent((x * z * z) * (s * e) * (s * e), x * s * s)
    ensures Congruent((y * z * z * z) * (s * e) * (s * e) * (s * e), y * s * s * s)
  {
    var u := z * e;
    CongruentMul(u, 1, u, 1);
    CongruentMul(u * u, 1, u, 1);
    CongruentScale(u * u, 1, x * s * s);
    CongruentScale(u * u * u, 1, y * s * s * s);
    ZinvIdentity(x, y, z, e, s);
  }

  lemma ZinvIdentity(x: int, y: int, z: int, e: int, s: int)
    ensures (x * z * z) * (s * e) * (s * e) == (x * s * s) * ((z * e) * (z * e))
    ensures (y * z * z * z) * (s * e) * (s * e) * (s * e) == (y * s * s * s) * ((z * e) * (z * e) * (z * e))
  {
    TwoFactors(x, z, e, s);
    TwoFactors(y * z, z, e, s);
    SwapLast(y, z, s);
    LastFactor(y * z * s * s, y * s * s, z, e, s, (z * e) * (z * e));
  }

  lemma SwapLast(y: int, z: int, s: int)
    ensures y * z * s * s == (y * s * s) * z
  {
  }

  lemma LastFactor(b: int, c: int, z: int, e: int, s: int, uu: int)
    requires b == c * z
    ensures (b * uu) * (s * e) == (c * s) * (uu * (z * e))
  {
    OneFactor(c, z, e, s);
    Reorder(b, uu, s * e);
    Reorder(c * s, z * e, uu);
  }

  lemma Reorder(b: int, u: int, v: int)
    ensures (b * u) * v == (b * v) * u == b * (v * u)
  {
  }

  lemma OneFactor(x: int, z: int, e: int, s: int)
    ensures (x * z) * (s * e) == (x * s) * (z * e)
  {
  }

  lemma TwoFactors(x: int, z: int, e: int, s: int)
    ensures (x * z * z) * (s * e) * (s * e) == (x * s * s) * ((z * e) * (z * e))
  {
    OneFactor(x * z, z, e, s);
    OneFactor(x * s, z, e, s);
    var u := z * e;
    assert ((x * z * s) * u) * (s * e) == ((x * s * z) * (s * e)) * u;
  }

  /** e is an inverse of z. Used like Is. */
  ghost predicate Reciprocal(z: int, e: int) {
    forall u: int {:trigger Open(OfReciprocal, u)} :: Open(OfReciprocal, u) ==> Congruent(z * e, 1)
  }

  /** b is (x, y) over the z coordinate z, and zinv its inverse. */
  ghost predicate AtZinv(b: Ge, zinv: Fe, x: int, y: int, z: int, e: int) {
    AtGeZ(b, x, y, z) && Is(zinv, e) && Reciprocal(z, e)
  }

  /** The numbers for the coordinates of b over s, where s / z = s e = f. */
  lemma TagsForZinv(b: Ge, zinv: Fe, s: int, x: int, y: int, z: int, e: int)
    returns (X: int, Y: int, E: int, f: int, c: int, U: int, q: int, S: int, U': int, S': int)
    requires GeGood(b) && Within(zinv)
    ensures Is(b.x, X) && Is(b.y, Y) && Is(zinv, E) && Prod(s, E, f) && Prod(f, f, c)
    ensures Prod(X, c, U) && Prod(Y, c, q) && Prod(q, f, S) && Congruent(U, U') && Congruent(S, S')
    ensures AtZinv(b, zinv, x, y, z, e) ==> E == e && Scaled(x, y, s, U', S')
  {
    X, Y, E := TagsOfGeZ(b, zinv, x, y, z, e);
    f := Times(s, E);
    c, U, q, S := TagsForMixed(X, Y, f);
    if AtZinv(b, zinv, x, y, z, e) {
      U', S' := CancelScaled(x, y, z, e, s, f, X, Y, U, S);
    } else {
      U', S' := U, S;
      CongruentRefl(U);
      CongruentRefl(S);
    }
  }

  lemma TagsOfGeZ(b: Ge, zinv: Fe, x: int, y: int, z: int, e: int) returns (X: int, Y: int, E: int)
    requires GeGood(b) && Within(zinv)
    ensures Is(b.x, X) && Is(b.y, Y) && Is(zinv, E)
    ensures AtZinv(b, zinv, x, y, z, e) ==> E == e && Scaled(x, y, z, X, Y)
  {
    if AtZinv(b, zinv, x, y, z, e) {
      X, Y, E := x * z * z, y * z * z * z, e;
      ScaledIs(x, y, z, X, Y);
      assert Opened();
    } else {
      X := AnyTag(b.x);
      Y := AnyTag(b.y);
      E := AnyTag(zinv);
    }
  }

  lemma CancelScaled(x: int, y: int, z: int, e: int, s: int, f: int, X: int, Y: int, U: int, S: int) returns (U': int, S': int)
    requires Scaled(x, y, z, X, Y) && Scaled(X, Y, f, U, S) && Prod(s, e, f) && Reciprocal(z, e)
    ensures Congruent(U, U') && Congruent(S, S') && Scaled(x, y, s, U', S')
  {
    assert Opened();
    U', S' := x * s * s, y * s * s * s;
    ZinvCancel(x, y, z, e, s);
  }

  /** a + b, where b has the z coordinate whose inverse is bzinv. */
  method GejAddZinvVar(a: Gej, b: Ge, bzinv: Fe, ghost x1: int, ghost y1: int, ghost z1: int,
      ghost x2: int, ghost y2: int, ghost z2: int, ghost e: int, ghost l: int, ghost x3: int, ghost y3: int)
    returns (r: Gej, ghost z3: int)
    requires Good(a) && GeGood(b) && Within(bzinv) && bzinv.magnitude <= 8
    ensures Good(r)
    ensures b.infinity ==> r == a
    ensures a.infinity && AtZinv(b, bzinv, x2, y2, z2, e) ==> At(r, x2, y2, 1)
    ensures At(a, x1, y1, z1) && AtZinv(b, bzinv, x2, y2, z2, e) && Fermat(P) && !Congruent(z1, 0) && SumLaw(l, x1, y1, x2, y2, x3, y3)
      ==> IsSum(r, x1, y1, x2, y2, x3, y3, z3)
  {
    z3 := 0;
    if b.infinity {
      NotAtGe(b, x2, y2, z2);
      return a, z3;
    }
    if a.infinity {
      NotAt(a, x1, y1, z1);
      r := Unscaled(b, bzinv, x2, y2, z2, e);
      return;
    }
    ghost var X1, Y1, Z1 := TagsOf(a, x1, y1, z1);
    ghost var X2, Y2, E, f, c, U, q, S, U2, S2 := TagsForZinv(b, bzinv, Z1, x2, y2, z2, e);
    var az := FeMul(a.z, bzinv, Z1, E, f);
    var u2, s2 := ScaleByZ(b.x, b.y, az, X2, Y2, f, c, U, q, S);
    Retag(u2, U, U2);
    Retag(s2, S, S2);
    var rzr;
    r, rzr, z3 := AddMixed(a, u2, s2, X1, Y1, Z1, U2, S2, x1, y1, x2, y2, l, x3, y3);
  }

  method Unscaled(b: Ge, bzinv: Fe, ghost x: int, ghost y: int, ghost z: int, ghost e: int) returns (r: Gej)
    requires GeGood(b) && !b.infinity && Within(bzinv) && bzinv.magnitude <= 8
    ensures Good(r) && !r.infinity && (AtZinv(b, bzinv, x, y, z, e) ==> At(r, x, y, 1))
  {
    ghost var X, Y, E, f, c, U, q, S, U', S' := TagsForZinv(b, bzinv, 1, x, y, z, e);
    ghost var d := CubeTags(E, f, Y, c, q, S);
    var bzinv2 := FeSqr(bzinv, E, c);
    var bzinv3 := FeMul(bzinv2, bzinv, c, E, d);
    var rx := FeMul(b.x, bzinv2, X, c, U);
    var ry := FeMul(b.y, bzinv3, Y, d, S);
    var rz := FeSetInt(1);
    Retag(rx, U, U');
    Retag(ry, S, S');
    r := Gej(rx, ry, rz, false);
    MakeGood(r, U', S', 1);
    if AtZinv(b, bzinv, x, y, z, e) {
      AtIs(r, x, y, 1, U', S');
    }
  }

  lemma CubeTags(E: int, f: int, Y: int, c: int, q: int, S: int) returns (d: int)
    requires Prod(1, E, f) && Prod(f, f, c) && Prod(Y, c, q) && Prod(q, f, S)
    ensures f == E && Prod(c, E, d) && Prod(Y, d, S)
  {
    assert Opened();
    d := c * E;
    assert Y * (c * E) == (Y * c) * E;
  }

  // ---------- Negation and rescaling ----------

  method GejNeg(a: Gej, ghost x: int, ghost y: int, ghost z: int) returns (r: Gej)
    requires Good(a)
    ensures Good(r) && r.infinity == a.infinity && (At(a, x, y, z) ==> At(r, x, -y, z))
  {
    ghost var X, Y, Z := TagsOf(a, x, y, z);
    var ry := FeNormalizeWeakly(a.y, Y);
    ry := FeNegate(ry, 1, Y);
    r := Gej(a.x, ry, a.z, a.infinity);
    MakeGood(r, X, -Y, Z);
    if At(a, x, y, z) {
      AtFinite(a, x, y, z);
      NegScaled(x, y, z, X, Y);
      AtIs(r, x, -y, z, X, -Y);
    }
  }

  lemma NegScaled(x: int, y: int, z: int, X: int, Y: int)
    requires Scaled(x, y, z, X, Y)
    ensures Scaled(x, -y, z, X, -Y)
  {
    assert Opened();
    assert (-y) * z * z * z == -(y * z * z * z);
  }

  /** Other coordinates of the same point. */
  method GejRescale(a: Gej, s: Fe, ghost x: int, ghost y: int, ghost z: int, ghost e: int) returns (r: Gej, ghost z3: int)
    requires Good(a) && Is(s, e) && s.magnitude <= 8
    ensures Good(r) && r.infinity == a.infinity && (At(a, x, y, z) ==> At(r, x, y, z3) && Prod(z, e, z3))
  {
    ghost var X, Y, Z := TagsOf(a, x, y, z);
    ghost var c, U, q, S := TagsForMixed(X, Y, e);
    var zz := FeSqr(s, e, c);
    var rx := FeMul(a.x, zz, X, c, U);
    var ry := FeMul(a.y, zz, Y, c, q);
    ry := FeMul(ry, s, q, e, S);
    z3 := Times(Z, e);
    var rz := FeMul(a.z, s, Z, e, z3);
    r := Gej(rx, ry, rz, a.infinity);
    MakeGood(r, U, S, z3);
    if At(a, x, y, z) {
      AtFinite(a, x, y, z);
      ScaledTwice(x, y, z, X, Y, e, U, S, z3);
      AtIs(r, x, y, z3, U, S);
    }
  }

  lemma ScaledTwice(x: int, y: int, z: int, X: int, Y: int, e: int, U: int, S: int, z3: int)
    requires Scaled(x, y, z, X, Y) && Scaled(X, Y, e, U, S) && Prod(z, e, z3)
    ensures Scaled(x, y, z3, U, S)
  {
    assert Opened();
    CrossIdentity(x, y, z, e);
    assert X * e * e == X * (e * e) && Y * e * e * e == (Y * (e * e)) * e;
  }

  method GeNeg(a: Ge, ghost x: int, ghost y: int) returns (r: Ge)
    requires GeGood(a)
    ensures GeGood(r) && r.infinity == a.infinity && (AtGe(a, x, y) ==> AtGe(r, x, -y))
  {
    ghost var X, Y := TagsOfGe(a, x, y);
    var ry := FeNormalizeWeakly(a.y, Y);
    ry := FeNegate(ry, 1, Y);
    r := Ge(a.x, ry, a.infinity);
    IsWithin(ry, -Y);
    if AtGe(a, x, y) {
      AtGeIs(a, x, y);
      AtGeIs(r, x, -y);
    }
  }

  lemma AtGeIs(b: Ge, x: int, y: int)
    ensures AtGe(b, x, y) <==> !b.infinity && Is(b.x, x) && Is(b.y, y)
  {
    assert Open(OfAtGe, 0);
  }

  /** Compares the x coordinate of a finite point without an inversion: f z^2 with the Jacobian coordinate. */
  method GejEqX(f: Fe, a: Gej, ghost e: int, ghost x: int, ghost y: int, ghost z: int) returns (eq: bool)
    requires Good(a) && !a.infinity && Is(f, e) && f.magnitude <= 8
    ensures At(a, x, y, z) && Fermat(P) && !Congruent(z, 0) ==> (eq <==> Congruent(e, x))
  {
    ghost var X, Y, Z := TagsOf(a, x, y, z);
    ghost var c := Times(Z, Z);
    ghost var m := Times(c, e);
    var r := FeSqr(a.z, Z, c);
    r := FeMul(r, f, c, e, m);
    var r2 := FeNormalizeWeakly(a.x, X);
    var na := FeNegate(r, 1, m);
    na := FeAdd(na, r2, -m, X);
    eq := FeIsZeroMod(na, X - m);
    if At(a, x, y, z) && Fermat(P) && !Congruent(z, 0) {
      SameXScaled(e, x, y, z, c, m, X, Y);
    }
  }

  lemma SameXScaled(e: int, x: int, y: int, z: int, c: int, m: int, X: int, Y: int)
    requires Fermat(P) && !Congruent(z, 0) && Prod(z, z, c) && Prod(c, e, m) && Scaled(x, y, z, X, Y)
    ensures Congruent(X - m, 0) <==> Congruent(e, x)
  {
    ProdIs(z, z, c);
    ProdIs(c, e, m);
    ScaledIs(x, y, z, X, Y);
    Factored(x, y, z);
    PowersNonzero(z);
    SameScaled(e, x, c, m, X);
  }
}
