/** The endomorphism (x, y) -> (beta x, y): that it is one, and what sums of group elements have for coordinates. */
module Endomorphism {
  import opened Notions
  import opened Field5x52
  import opened FieldElement
  import opened ModPow
  import opened AdditionChains
  import opened Jacobian
  import opened CurvePoints
  import opened GlobalTable
  import G = Group
  import U = UnifiedAddition

  /** The cube root of 1 that goes with lambda. */
  const BETA: int := 0x7ae96a2b657c07106e64479eac3434e99cf0497512f58995c1396c28719501ee

  /** Its powers 1, beta and beta^2 are different and add up to 0; beta^3 is 1. */
  lemma CubeRoot()
    ensures (BETA * BETA * BETA) % P == 1 && BETA % P != 1 && (1 + BETA + BETA * BETA) % P == 0
  {
    ModIs(BETA * BETA * BETA, P, BETA_CUBED_BY_P, 1);
    ModIs(BETA, P, 0, BETA);
    ModIs(1 + BETA + BETA * BETA, P, 0x3b034e03cbc0e9e67adf9b678b2ea8201dd5ea436049fdc542a0960dd5579c3d, 0);
  }

  /** The quotient of beta^3 by p. */
  const BETA_CUBED_BY_P: int :=
    0x1c5561a92fcef40ffd987005d9737cfe85a78c7e6ba77875579aeef843c66a0b755d1035589264211b09d98057eca56d743b7d941302c88bd2a8f620b638e179

  lemma BetaCubed()
    ensures Congruent(BETA * BETA * BETA, 1)
  {
    CongruentBy(BETA * BETA * BETA, 1, -BETA_CUBED_BY_P);
  }

  // ---------- Chord and tangent, mod p ----------

  /** The line of slope l through both points leads to (x3, y3). Used like Is. */
  ghost predicate OnChord(l: int, x1: int, y1: int, x2: int, y2: int, x3: int, y3: int) {
    forall u: int {:trigger Open(OfOnChord, u)} :: Open(OfOnChord, u) ==>
      Congruent(l * (x2 - x1), y2 - y1) && Congruent(x3, ThirdX(l, x1, x2)) && Congruent(y3, ThirdY(l, x1, y1, x3))
  }

  /** So does the tangent of slope l. Used like Is. */
  ghost predicate OnTangent(l: int, x: int, y: int, x3: int, y3: int) {
    forall u: int {:trigger Open(OfOnChord, u)} :: Open(OfOnChord, u) ==>
      Congruent(2 * y * l, 3 * x * x) && Congruent(x3, ThirdX(l, x, x)) && Congruent(y3, ThirdY(l, x, y, x3))
  }

  /** Where a line leads depends on slope and coordinates mod p only. */
  lemma SameThird(l: int, m: int, x1: int, y1: int, x2: int, x3: int, a3: int)
    requires Congruent(l, m)
    ensures Congruent(ThirdX(l, x1, x2), ThirdX(m, x1, x2))
    ensures Congruent(x3, a3) ==> Congruent(ThirdY(l, x1, y1, x3), ThirdY(m, x1, y1, a3))
  {
    CongruentMul(l, m, l, m);
    CongruentRefl(-x1 - x2);
    CongruentAdd(l * l, m * m, -x1 - x2, -x1 - x2);
    if Congruent(x3, a3) {
      Minus(x3, a3);
      CongruentRefl(x1);
      CongruentAdd(x1, x1, -x3, -a3);
      CongruentMul(l, m, x1 - x3, x1 - a3);
      CongruentRefl(-y1);
      CongruentAdd(l * (x1 - x3), m * (x1 - a3), -y1, -y1);
    }
  }

  /** Two slopes of the same chord. */
  lemma SameSlope(l: int, m: int, d: int, f: int)
    requires Fermat(P) && !Congruent(d, 0) && Congruent(l * d, f) && Congruent(m * d, f)
    ensures Congruent(l, m)
  {
    CongruentSym(m * d, f);
    CongruentTrans(l * d, f, m * d);
    assert l * d == d * l && m * d == d * m;
    U.CancelFactor(d, l, m);
  }

  /** The end of both proofs below: the point of the line is the sum. */
  lemma ThirdIs<T(!new)>(c: Curve<T>, s: T, l: int, m: int, x1: int, y1: int, x2: int, x3: int, y3: int, a3: int, b3: int)
    requires Congruent(l, m) && SameAs(c, s, a3, b3) && a3 == ThirdX(m, x1, x2) && b3 == ThirdY(m, x1, y1, a3)
    requires Congruent(x3, ThirdX(l, x1, x2)) && Congruent(y3, ThirdY(l, x1, y1, x3))
    ensures SameAs(c, s, x3, y3)
  {
    SameThird(l, m, x1, y1, x2, x3, a3);
    CongruentTrans(x3, ThirdX(l, x1, x2), a3);
    CongruentTrans(x3, a3, c.x(s));
    CongruentTrans(y3, ThirdY(l, x1, y1, x3), b3);
    CongruentTrans(y3, b3, c.y(s));
  }

  /** Any slope of the chord gives the coordinates of the sum. */
  lemma AddedIs<T(!new)>(c: Curve<T>, p: T, q: T, l: int, x1: int, y1: int, x2: int, y2: int, x3: int, y3: int)
    requires IsCurve(c) && Fermat(P) && p != c.g.zero && q != c.g.zero && SameAs(c, p, x1, y1) && SameAs(c, q, x2, y2)
    requires !Congruent(x1, x2) && OnChord(l, x1, y1, x2, y2, x3, y3)
    ensures c.g.add(p, q) != c.g.zero && SameAs(c, c.g.add(p, q), x3, y3)
  {
    StillApart(c, p, q, x1, y1, x2, y2);
    var m, x', y' := LawOf(c, p, q);
    var s := c.g.add(p, q);
    var a3, b3 := ChordThrough(m, c.x(p), c.y(p), c.x(q), c.y(q), x', y', x1, y1, x2, y2);
    CongruentTrans(a3, x', c.x(s));
    CongruentTrans(b3, y', c.y(s));
    assert Open(OfChordLaw, 0) && Open(OfOnChord, 0);
    Differ(x1, x2);
    SameSlope(l, m, x2 - x1, y2 - y1);
    ThirdIs(c, s, l, m, x1, y1, x2, x3, y3, a3, b3);
  }

  lemma StillApart<T(!new)>(c: Curve<T>, p: T, q: T, x1: int, y1: int, x2: int, y2: int)
    requires SameAs(c, p, x1, y1) && SameAs(c, q, x2, y2) && !Congruent(x1, x2)
    ensures !Congruent(c.x(p), c.x(q))
  {
    if Congruent(c.x(p), c.x(q)) {
      CongruentTrans(x1, c.x(p), c.x(q));
      CongruentSym(x2, c.x(q));
      CongruentTrans(x1, c.x(q), x2);
    }
  }

  /** The same for the tangent. */
  lemma DoubledIs<T(!new)>(c: Curve<T>, p: T, l: int, x: int, y: int, x3: int, y3: int)
    requires IsCurve(c) && Fermat(P) && p != c.g.zero && SameAs(c, p, x, y) && OnTangent(l, x, y, x3, y3)
    ensures c.g.add(p, p) != c.g.zero && SameAs(c, c.g.add(p, p), x3, y3)
  {
    var m, x', y' := LawOf(c, p, p);
    var s := c.g.add(p, p);
    CongruentRefl(c.x(p));
    CongruentRefl(c.y(p));
    var a3, b3 := TangentThrough(m, c.x(p), c.y(p), x', y', x, y);
    CongruentTrans(a3, x', c.x(s));
    CongruentTrans(b3, y', c.y(s));
    NotTwiceZero(c, p, x, y);
    assert Open(OfOnChord, 0);
    SlopeOfTangent(l, m, x, y, a3, b3);
    assert Open(OfTangentLaw, 0);
    ThirdIs(c, s, l, m, x, y, x, x3, y3, a3, b3);
  }

  lemma NotTwiceZero<T(!new)>(c: Curve<T>, p: T, x: int, y: int)
    requires Fermat(P) && SameAs(c, p, x, y) && !Congruent(c.y(p), 0)
    ensures !Congruent(2 * y, 0)
  {
    if Congruent(y, 0) {
      CongruentSym(y, c.y(p));
      CongruentTrans(c.y(p), y, 0);
    }
    TwiceNonzero(y);
  }

  lemma SlopeOfTangent(l: int, m: int, x: int, y: int, a3: int, b3: int)
    requires Fermat(P) && !Congruent(2 * y, 0) && Congruent(2 * y * l, 3 * x * x) && TangentLaw(m, x, y, a3, b3)
    ensures Congruent(l, m)
  {
    assert Open(OfTangentLaw, 0) && Open(OfTangent, 0);
    CongruentSym(3 * x * x, 2 * y * m);
    assert 2 * y * l == l * (2 * y) && 2 * y * m == m * (2 * y);
    SameSlope(l, m, 2 * y, 3 * x * x);
  }

  /** The same tangent at congruent coordinates. */
  lemma TangentThrough(l: int, x: int, y: int, x3: int, y3: int, a: int, b: int) returns (a3: int, b3: int)
    requires TangentLaw(l, x, y, x3, y3) && Congruent(a, x) && Congruent(b, y)
    ensures TangentLaw(l, a, b, a3, b3) && Congruent(a3, x3) && Congruent(b3, y3)
  {
    a3 := ThirdX(l, a, a);
    b3 := ThirdY(l, a, b, a3);
    TangentSlopeThrough(l, x, y, x3, y3, a, b);
    assert Open(OfTangentLaw, 0);
    ThirdXThrough(l, x, x, a, a);
    ThirdYThrough(l, x, y, x3, a, b, a3);
  }

  lemma TangentSlopeThrough(l: int, x: int, y: int, x3: int, y3: int, a: int, b: int)
    requires TangentLaw(l, x, y, x3, y3) && Congruent(a, x) && Congruent(b, y)
    ensures Tangent(l, a, b)
  {
    assert Open(OfTangentLaw, 0) && Open(OfTangent, 0);
    CongruentMul(a, x, a, x);
    CongruentScale(a * a, x * x, 3);
    CongruentScale(b, y, 2 * l);
    CongruentSym((2 * l) * b, (2 * l) * y);
    assert 3 * (a * a) == 3 * a * a && 3 * (x * x) == 3 * x * x;
    assert (2 * l) * b == 2 * b * l && (2 * l) * y == 2 * y * l;
    CongruentTrans(3 * a * a, 3 * x * x, 2 * y * l);
    CongruentTrans(3 * a * a, 2 * y * l, 2 * b * l);
  }

  /** Coordinates determine the element. */
  lemma SameElement<T(!new)>(c: Curve<T>, p: T, q: T, x: int, y: int)
    requires IsCurve(c) && Fermat(P) && p != c.g.zero && q != c.g.zero && SameAs(c, p, x, y) && SameAs(c, q, x, y)
    ensures p == q
  {
    var n := c.g.neg(q);
    NegOf(c, q);
    assert Pair(p, n) && Pair(q, q);
    CongruentSym(x, c.x(p));
    CongruentTrans(c.x(p), x, c.x(q));
    CongruentTrans(c.x(p), c.x(q), c.x(n));
    CongruentSym(y, c.y(p));
    CongruentTrans(c.y(p), y, c.y(q));
    assert Pair(p, p);
    U.NotOpposite(c.y(p), c.y(q));
    if Congruent(c.y(p), c.y(n)) {
      CongruentSym(-c.y(q), c.y(n));
      CongruentTrans(c.y(p), c.y(n), -c.y(q));
    }
    assert c.g.add(p, n) == c.g.zero;
    G.Assoc(c.g, p, n, q);
    G.Unit(c.g, q);
    G.Unit(c.g, p);
  }

  // ---------- Multiplying x by a cube root of 1 ----------

  lemma CubeTimes(b: int, e: int)
    requires Congruent(b * b * b, 1)
    ensures Congruent((b * b * b) * e, e)
  {
    CongruentScale(b * b * b, 1, e);
    assert e * (b * b * b) == (b * b * b) * e && e * 1 == e;
  }

  /** It stays on the curve. */
  lemma OnCurveBeta(x: int, y: int)
    requires U.OnCurve(x, y)
    ensures U.OnCurve(BETA * x, y)
  {
    BetaCubed();
    CurveTimes(BETA, x, y);
  }

  lemma CurveTimes(b: int, x: int, y: int)
    requires Congruent(b * b * b, 1) && U.OnCurve(x, y)
    ensures U.OnCurve(b * x, y)
  {
    assert Open(OfOnCurve, 0);
    CubeTimes(b, x * x * x);
    CubeOfTimes(b, x);
    CongruentSym((b * x) * (b * x) * (b * x), x * x * x);
    CongruentRefl(7);
    CongruentAdd(x * x * x, (b * x) * (b * x) * (b * x), 7, 7);
    CongruentTrans(y * y, x * x * x + 7, (b * x) * (b * x) * (b * x) + 7);
  }

  lemma CubeOfTimes(b: int, x: int)
    ensures (b * b * b) * (x * x * x) == (b * x) * (b * x) * (b * x)
  {
    assert (b * x) * (b * x) == (b * b) * (x * x);
    assert ((b * b) * (x * x)) * (b * x) == (b * b * b) * (x * x * x);
  }

  /** Where a line of slope l leads, one of slope l b^2 leads at x coordinates multiplied by b. */
  lemma ThirdTimes(b: int, l: int, x1: int, y1: int, x2: int, x3: int)
    requires Congruent(b * b * b, 1) && Congruent(x3, ThirdX(l, x1, x2))
    ensures Congruent(b * x3, ThirdX(l * b * b, b * x1, b * x2))
    ensures Congruent(ThirdY(l, x1, y1, x3), ThirdY(l * b * b, b * x1, y1, b * x3))
  {
    var e := b * (l * l);
    CongruentScale(x3, ThirdX(l, x1, x2), b);
    CubeTimes(b, e);
    CongruentSym((b * b * b) * e, e);
    CongruentRefl(-(b * x1) - b * x2);
    CongruentAdd(e, (b * b * b) * e, -(b * x1) - b * x2, -(b * x1) - b * x2);
    XTimes(b, l, x1, x2);
    CongruentTrans(b * x3, b * ThirdX(l, x1, x2), ThirdX(l * b * b, b * x1, b * x2));
    var f := l * (x1 - x3);
    CubeTimes(b, f);
    CongruentSym((b * b * b) * f, f);
    CongruentRefl(-y1);
    CongruentAdd(f, (b * b * b) * f, -y1, -y1);
    SlopeTimesB(b, l, x1, x3);
  }

  lemma XTimes(b: int, l: int, x1: int, x2: int)
    ensures b * ThirdX(l, x1, x2) == b * (l * l) - b * x1 - b * x2
    ensures ThirdX(l * b * b, b * x1, b * x2) == (b * b * b) * (b * (l * l)) - b * x1 - b * x2
  {
    SquareTimes(b, l);
    assert b * (l * l - x1 - x2) == b * (l * l) - b * x1 - b * x2;
  }

  lemma SquareTimes(b: int, l: int)
    ensures (l * b * b) * (l * b * b) == (b * b * b) * (b * (l * l))
  {
    var c, k := b * b, l * l;
    assert l * b * b == l * c;
    assert (l * c) * (l * c) == k * (c * c);
    assert c * c == (c * b) * b;
    assert k * ((c * b) * b) == (c * b) * (b * k);
  }

  lemma SlopeTimesB(b: int, l: int, x1: int, x3: int)
    ensures (l * b * b) * (b * x1 - b * x3) == (b * b * b) * (l * (x1 - x3))
  {
    var d := x1 - x3;
    assert b * x1 - b * x3 == b * d;
    assert (l * b * b) * (b * d) == (b * b * b) * (l * d);
  }

  lemma TangentParts(b: int, l: int, x: int, y: int)
    ensures (b * b) * (2 * y * l) == 2 * y * (l * b * b) && (b * b) * (3 * x * x) == 3 * (b * x) * (b * x)
  {
    assert (b * b) * (2 * y * l) == 2 * y * (l * (b * b));
    assert (b * x) * (b * x) == (b * b) * (x * x);
    assert (b * b) * (3 * x * x) == 3 * ((b * b) * (x * x));
  }

  lemma BetaSame(x1: int, x2: int)
    requires Congruent(BETA * x1, BETA * x2)
    ensures Congruent(x1, x2)
  {
    var c := BETA * BETA * BETA;
    BetaCubed();
    CongruentScale(BETA * x1, BETA * x2, BETA * BETA);
    assert (BETA * BETA) * (BETA * x1) == c * x1 && (BETA * BETA) * (BETA * x2) == c * x2;
    CubeTimes(BETA, x1);
    CubeTimes(BETA, x2);
    CongruentSym(c * x1, x1);
    CongruentTrans(x1, c * x1, c * x2);
    CongruentTrans(x1, c * x2, x2);
  }

  // ---------- The map of group elements ----------

  /** endo maps the identity to itself and multiplies every other x coordinate by beta. */
  ghost predicate IsEndo<T(!new)>(c: Curve<T>, endo: T -> T) {
    && endo(c.g.zero) == c.g.zero
    && forall p {:trigger Pair(p, p)} :: Pair(p, p) && p != c.g.zero ==> EndoLaw(c, endo, p)
  }

  ghost predicate EndoLaw<T(!new)>(c: Curve<T>, endo: T -> T, p: T) {
    endo(p) != c.g.zero && SameAs(c, endo(p), BETA * c.x(p), c.y(p))
  }

  lemma EndoOf<T(!new)>(c: Curve<T>, endo: T -> T, p: T)
    requires IsEndo(c, endo) && p != c.g.zero
    ensures EndoLaw(c, endo, p)
  {
    assert Pair(p, p);
  }

  /** Such a map is an endomorphism of the group. */
  lemma EndoIsHomomorphism<T(!new)>(c: Curve<T>, endo: T -> T)
    requires IsCurve(c) && Fermat(P) && IsEndo(c, endo)
    ensures G.IsEndomorphism(c.g, endo)
  {
    forall p, q
      ensures endo(c.g.add(p, q)) == c.g.add(endo(p), endo(q))
    {
      EndoOfSum(c, endo, p, q);
    }
  }

  lemma EndoOfSum<T(!new)>(c: Curve<T>, endo: T -> T, p: T, q: T)
    requires IsCurve(c) && Fermat(P) && IsEndo(c, endo)
    ensures endo(c.g.add(p, q)) == c.g.add(endo(p), endo(q))
  {
    if p == c.g.zero || q == c.g.zero {
      G.Unit(c.g, p);
      G.Unit(c.g, q);
      G.Unit(c.g, endo(p));
      G.Unit(c.g, endo(q));
    } else if c.g.add(p, q) == c.g.zero {
      EndoOfOpposite(c, endo, p, q);
    } else {
      EndoOfFinite(c, endo, p, q);
    }
  }

  /** Congruent x coordinates have congruent images and the other way round; y coordinates stay. */
  lemma EndoCompares<T(!new)>(c: Curve<T>, endo: T -> T, p: T, q: T)
    requires IsEndo(c, endo) && p != c.g.zero && q != c.g.zero
    ensures Congruent(c.x(p), c.x(q)) <==> Congruent(c.x(endo(p)), c.x(endo(q)))
    ensures Congruent(c.y(p), c.y(q)) <==> Congruent(c.y(endo(p)), c.y(endo(q)))
  {
    EndoOf(c, endo, p);
    EndoOf(c, endo, q);
    SameOnBoth(BETA * c.x(p), c.x(endo(p)), BETA * c.x(q), c.x(endo(q)));
    SameOnBoth(c.y(p), c.y(endo(p)), c.y(q), c.y(endo(q)));
    if Congruent(c.x(p), c.x(q)) {
      CongruentScale(c.x(p), c.x(q), BETA);
    }
    if Congruent(BETA * c.x(p), BETA * c.x(q)) {
      BetaSame(c.x(p), c.x(q));
    }
  }

  lemma SameOnBoth(a: int, a': int, b: int, b': int)
    requires Congruent(a, a') && Congruent(b, b')
    ensures Congruent(a, b) <==> Congruent(a', b')
  {
    CongruentSym(a, a');
    CongruentSym(b, b');
    if Congruent(a, b) {
      CongruentTrans(a', a, b);
      CongruentTrans(a', b, b');
    }
    if Congruent(a', b') {
      CongruentTrans(a, a', b');
      CongruentTrans(a, b', b);
    }
  }

  lemma EndoOfOpposite<T(!new)>(c: Curve<T>, endo: T -> T, p: T, q: T)
    requires IsCurve(c) && Fermat(P) && IsEndo(c, endo) && p != c.g.zero && q != c.g.zero && c.g.add(p, q) == c.g.zero
    ensures c.g.add(endo(p), endo(q)) == c.g.zero
  {
    EndoOf(c, endo, p);
    EndoOf(c, endo, q);
    EndoCompares(c, endo, p, q);
    assert Pair(p, q) && Pair(endo(p), endo(q));
  }

  lemma EndoOfFinite<T(!new)>(c: Curve<T>, endo: T -> T, p: T, q: T)
    requires IsCurve(c) && Fermat(P) && IsEndo(c, endo) && p != c.g.zero && q != c.g.zero && c.g.add(p, q) != c.g.zero
    ensures endo(c.g.add(p, q)) == c.g.add(endo(p), endo(q))
  {
    var s := c.g.add(p, q);
    EndoOf(c, endo, p);
    EndoOf(c, endo, q);
    EndoOf(c, endo, s);
    var l, x3, y3 := LawOf(c, p, q);
    if !Congruent(c.x(p), c.x(q)) {
      ChordIs(l, c.x(p), c.y(p), c.x(q), c.y(q), x3, y3);
      EndoOfChord(c, endo, p, q, l, x3, y3);
    } else {
      SameCoordinatesSame(c, p, q);
      TangentIs(l, c.x(p), c.y(p), x3, y3);
      EndoOfTangent(c, endo, p, l, x3, y3);
    }
    CongruentScale(x3, c.x(s), BETA);
    CongruentTrans(BETA * x3, BETA * c.x(s), c.x(endo(s)));
    CongruentTrans(y3, c.y(s), c.y(endo(s)));
    SameElement(c, endo(s), c.g.add(endo(p), endo(q)), BETA * x3, y3);
  }

  /** The image of a chord of slope l is a chord of slope l beta^2. */
  lemma EndoOfChord<T(!new)>(c: Curve<T>, endo: T -> T, p: T, q: T, l: int, x3: int, y3: int)
    requires IsCurve(c) && Fermat(P) && IsEndo(c, endo) && p != c.g.zero && q != c.g.zero
    requires !Congruent(c.x(p), c.x(q)) && OnChord(l, c.x(p), c.y(p), c.x(q), c.y(q), x3, y3)
    ensures c.g.add(endo(p), endo(q)) != c.g.zero && SameAs(c, c.g.add(endo(p), endo(q)), BETA * x3, y3)
  {
    var b, x1, y1, x2, y2 := BETA, c.x(p), c.y(p), c.x(q), c.y(q);
    EndoOf(c, endo, p);
    EndoOf(c, endo, q);
    BetaCubed();
    assert Open(OfOnChord, 0);
    CubeTimes(b, l * (x2 - x1));
    SlopeTimesB(b, l, x2, x1);
    CongruentTrans((l * b * b) * (b * x2 - b * x1), l * (x2 - x1), y2 - y1);
    ThirdTimes(b, l, x1, y1, x2, x3);
    CongruentTrans(y3, ThirdY(l, x1, y1, x3), ThirdY(l * b * b, b * x1, y1, b * x3));
    if Congruent(b * x1, b * x2) {
      BetaSame(x1, x2);
    }
    AddedIs(c, endo(p), endo(q), l * b * b, b * x1, y1, b * x2, y2, b * x3, y3);
  }

  /** So is the image of a tangent. */
  lemma EndoOfTangent<T(!new)>(c: Curve<T>, endo: T -> T, p: T, l: int, x3: int, y3: int)
    requires IsCurve(c) && Fermat(P) && IsEndo(c, endo) && p != c.g.zero && OnTangent(l, c.x(p), c.y(p), x3, y3)
    ensures c.g.add(endo(p), endo(p)) != c.g.zero && SameAs(c, c.g.add(endo(p), endo(p)), BETA * x3, y3)
  {
    var b, x, y := BETA, c.x(p), c.y(p);
    EndoOf(c, endo, p);
    BetaCubed();
    assert Open(OfOnChord, 0);
    CongruentScale(2 * y * l, 3 * x * x, b * b);
    TangentParts(b, l, x, y);
    ThirdTimes(b, l, x, y, x, x3);
    CongruentTrans(y3, ThirdY(l, x, y, x3), ThirdY(l * b * b, b * x, y, b * x3));
    DoubledIs(c, endo(p), l * b * b, b * x, y, b * x3, y3);
  }

  lemma SameCoordinatesSame<T(!new)>(c: Curve<T>, p: T, q: T)
    requires IsCurve(c) && Fermat(P) && p != c.g.zero && q != c.g.zero && Congruent(c.x(p), c.x(q)) && Congruent(c.y(p), c.y(q))
    ensures p == q
  {
    CongruentRefl(c.x(q));
    CongruentRefl(c.y(q));
    CongruentSym(c.x(p), c.x(q));
    CongruentSym(c.y(p), c.y(q));
    SameElement(c, p, q, c.x(q), c.y(q));
  }

  lemma ChordIs(l: int, x1: int, y1: int, x2: int, y2: int, x3: int, y3: int)
    requires ChordLaw(l, x1, y1, x2, y2, x3, y3)
    ensures OnChord(l, x1, y1, x2, y2, x3, y3)
  {
    assert Open(OfChordLaw, 0);
    CongruentRefl(x3);
    CongruentRefl(y3);
  }

  lemma TangentIs(l: int, x: int, y: int, x3: int, y3: int)
    requires TangentLaw(l, x, y, x3, y3)
    ensures OnTangent(l, x, y, x3, y3)
  {
    assert Open(OfTangentLaw, 0) && Open(OfTangent, 0);
    CongruentSym(3 * x * x, 2 * y * l);
    CongruentRefl(x3);
    CongruentRefl(y3);
  }
}
