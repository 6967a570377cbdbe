/** Group elements in coordinates: what it means that limbs stand for an element, and that the formulas compute the group operation. */
module CurvePoints {
  import opened Notions
  import opened Field5x52
  import opened FieldElement
  import opened ModPow
  import opened AdditionChains
  import opened Jacobian
  import G = Group
  import U = UnifiedAddition
  import OT = OddTable

  // ---------- Coordinates of group elements ----------

  /** A group, and coordinates mod p for every element but the identity. */
  datatype Curve<!T> = Curve(g: G.Ops<T>, x: T -> int, y: T -> int)

  /** Names a pair of elements for which the law is wanted; always true. */
  predicate Pair<T>(p: T, q: T) {
    true
  }

  /** The group is abelian, no finite element has y = 0, negation changes the sign of y, and sums follow chord and tangent. */
  ghost predicate IsCurve<T(!new)>(c: Curve<T>) {
    && G.IsAbelian(c.g)
    && forall p, q {:trigger Pair(p, q)} :: Pair(p, q) ==> Law(c, p, q)
  }

  ghost predicate Law<T(!new)>(c: Curve<T>, p: T, q: T) {
    p != c.g.zero && q != c.g.zero ==> NegLaw(c, p) && AddLaw(c, p, q)
  }

  ghost predicate NegLaw<T(!new)>(c: Curve<T>, p: T) {
    !Congruent(c.y(p), 0) && SameAs(c, c.g.neg(p), c.x(p), -c.y(p))
  }

  /** The element has these coordinates mod p. */
  ghost predicate SameAs<T(!new)>(c: Curve<T>, p: T, x: int, y: int) {
    Congruent(x, c.x(p)) && Congruent(y, c.y(p))
  }

  ghost predicate AddLaw<T(!new)>(c: Curve<T>, p: T, q: T) {
    && (c.g.add(p, q) == c.g.zero <==> Congruent(c.x(p), c.x(q)) && !Congruent(c.y(p), c.y(q)))
    && (c.g.add(p, q) != c.g.zero ==> exists l, x3, y3 :: SumTo(c, p, q, l, x3, y3))
  }

  /** Chord or tangent of slope l leads to (x3, y3), and these are the coordinates of the sum. */
  ghost predicate SumTo<T(!new)>(c: Curve<T>, p: T, q: T, l: int, x3: int, y3: int) {
    SumLaw(l, c.x(p), c.y(p), c.x(q), c.y(q), x3, y3) && SameAs(c, c.g.add(p, q), x3, y3)
  }

  lemma LawOf<T(!new)>(c: Curve<T>, p: T, q: T) returns (l: int, x3: int, y3: int)
    requires IsCurve(c) && p != c.g.zero && q != c.g.zero
    ensures !Congruent(c.y(p), 0) && SumLaw(l, c.x(p), c.y(p), c.x(q), c.y(q), x3, y3)
    ensures c.g.add(p, q) == c.g.zero <==> Congruent(c.x(p), c.x(q)) && !Congruent(c.y(p), c.y(q))
    ensures c.g.add(p, q) != c.g.zero ==> SameAs(c, c.g.add(p, q), x3, y3)
  {
    assert Pair(p, q);
    l, x3, y3 := 0, 0, 0;
    if c.g.add(p, q) != c.g.zero {
      l, x3, y3 :| SumTo(c, p, q, l, x3, y3);
    }
  }

  // ---------- Limbs that stand for an element ----------

  /** The Jacobian point r stands for p. */
  ghost predicate Represents<T(!new)>(c: Curve<T>, r: Gej, p: T) {
    Good(r) && if p == c.g.zero then r.infinity else exists z :: FiniteAt(c, r, p, z)
  }

  ghost predicate FiniteAt<T(!new)>(c: Curve<T>, r: Gej, p: T, z: int) {
    At(r, c.x(p), c.y(p), z) && !Congruent(z, 0)
  }

  /** The affine point b stands for q. */
  ghost predicate GeAt<T(!new)>(c: Curve<T>, b: Ge, q: T) {
    GeGood(b) && q != c.g.zero && AtGe(b, c.x(q), c.y(q))
  }

  /** So it does once it is scaled by zinv. */
  ghost predicate GeOver<T(!new)>(c: Curve<T>, b: Ge, zinv: Fe, q: T) {
    && GeGood(b) && q != c.g.zero && Within(zinv) && zinv.magnitude <= 8
    && exists z, e :: AtZinv(b, zinv, c.x(q), c.y(q), z, e)
  }

  lemma OneNonzero()
    ensures !Congruent(1, 0)
  {
    ZeroIffMod(1);
  }

  lemma FiniteOf<T(!new)>(c: Curve<T>, r: Gej, p: T) returns (z: int)
    requires Represents(c, r, p)
    ensures p != c.g.zero ==> !r.infinity && FiniteAt(c, r, p, z)
  {
    z := 0;
    if p != c.g.zero {
      z :| FiniteAt(c, r, p, z);
      AtFinite(r, c.x(p), c.y(p), z);
    }
  }

  /** Congruent coordinates will do. */
  lemma RepresentsBy<T(!new)>(c: Curve<T>, r: Gej, p: T, x: int, y: int, z: int)
    requires Good(r) && p != c.g.zero && At(r, x, y, z) && !Congruent(z, 0) && SameAs(c, p, x, y)
    ensures Represents(c, r, p)
  {
    U.AtCongruent(r, x, y, c.x(p), c.y(p), z);
    assert FiniteAt(c, r, p, z);
  }

  // ---------- The operations ----------

  method Doubled<T(!new)>(r: Gej, ghost c: Curve<T>, ghost p: T) returns (s: Gej)
    requires IsCurve(c) && Fermat(P) && Represents(c, r, p)
    ensures Represents(c, s, c.g.add(p, p))
  {
    ghost var z := FiniteOf(c, r, p);
    ghost var l, x3, y3 := 0, 0, 0;
    if p != c.g.zero {
      l, x3, y3 := LawOf(c, p, p);
      CongruentRefl(c.x(p));
      CongruentRefl(c.y(p));
    }
    var rzr;
    ghost var z3;
    s, rzr, z3 := GejDouble(r, c.x(p), c.y(p), z, l, x3, y3);
    if p == c.g.zero {
      G.Unit(c.g, p);
    } else {
      RepresentsBy(c, s, c.g.add(p, p), x3, y3, z3);
    }
  }

  lemma SumRepresents<T(!new)>(c: Curve<T>, s: Gej, p: T, q: T, x3: int, y3: int, z3: int)
    requires IsCurve(c) && p != c.g.zero && q != c.g.zero && Good(s)
    requires c.g.add(p, q) != c.g.zero ==> SameAs(c, c.g.add(p, q), x3, y3)
    requires IsSum(s, c.x(p), c.y(p), c.x(q), c.y(q), x3, y3, z3)
    ensures Represents(c, s, c.g.add(p, q))
  {
    assert Pair(p, q);
    if c.g.add(p, q) != c.g.zero {
      RepresentsBy(c, s, c.g.add(p, q), x3, y3, z3);
    }
  }

  method AddedGe<T(!new)>(r: Gej, b: Ge, ghost c: Curve<T>, ghost p: T, ghost q: T) returns (s: Gej)
    requires IsCurve(c) && Fermat(P) && Represents(c, r, p) && GeAt(c, b, q)
    ensures Represents(c, s, c.g.add(p, q))
  {
    ghost var z := FiniteOf(c, r, p);
    ghost var l, x3, y3 := 0, 0, 0;
    if p != c.g.zero {
      l, x3, y3 := LawOf(c, p, q);
    }
    var rzr;
    ghost var z3;
    s, rzr, z3 := GejAddGeVar(r, b, c.x(p), c.y(p), z, c.x(q), c.y(q), l, x3, y3);
    if p == c.g.zero {
      StartsAt(c, s, q);
    } else {
      SumRepresents(c, s, p, q, x3, y3, z3);
    }
  }

  lemma StartsAt<T(!new)>(c: Curve<T>, s: Gej, q: T)
    requires IsCurve(c) && q != c.g.zero && Good(s) && At(s, c.x(q), c.y(q), 1)
    ensures Represents(c, s, c.g.add(c.g.zero, q))
  {
    OneNonzero();
    assert FiniteAt(c, s, q, 1);
    G.Unit(c.g, q);
    G.Comm(c.g, q, c.g.zero);
  }

  method AddedZinv<T(!new)>(r: Gej, b: Ge, zinv: Fe, ghost c: Curve<T>, ghost p: T, ghost q: T) returns (s: Gej)
    requires IsCurve(c) && Fermat(P) && Represents(c, r, p) && GeOver(c, b, zinv, q)
    ensures Represents(c, s, c.g.add(p, q))
  {
    ghost var z := FiniteOf(c, r, p);
    ghost var l, x3, y3 := 0, 0, 0;
    if p != c.g.zero {
      l, x3, y3 := LawOf(c, p, q);
    }
    ghost var z2, e :| AtZinv(b, zinv, c.x(q), c.y(q), z2, e);
    ghost var z3;
    s, z3 := GejAddZinvVar(r, b, zinv, c.x(p), c.y(p), z, c.x(q), c.y(q), z2, e, l, x3, y3);
    if p == c.g.zero {
      StartsAt(c, s, q);
    } else {
      SumRepresents(c, s, p, q, x3, y3, z3);
    }
  }

  /** The coordinates satisfy y^2 = x^3 + 7. */
  ghost predicate OnSecp<T(!new)>(c: Curve<T>) {
    forall p {:trigger Pair(p, p)} :: Pair(p, p) && p != c.g.zero ==> U.OnCurve(c.x(p), c.y(p))
  }

  /** The addition without branches does the same. */
  method AddedUnified<T(!new)>(r: Gej, b: Ge, ghost c: Curve<T>, ghost p: T, ghost q: T) returns (s: Gej)
    requires IsCurve(c) && OnSecp(c) && Fermat(P) && Represents(c, r, p) && GeAt(c, b, q)
    ensures Represents(c, s, c.g.add(p, q))
  {
    ghost var z := FiniteOf(c, r, p);
    ghost var l, x3, y3 := 0, 0, 0;
    if p != c.g.zero {
      l, x3, y3 := LawOf(c, p, q);
      assert Pair(p, p) && Pair(q, q);
    }
    AtGeIs(b, c.x(q), c.y(q));
    ghost var z3;
    s, z3 := U.GejAddGe(r, b, c.x(p), c.y(p), z, c.x(q), c.y(q), l, x3, y3);
    if p == c.g.zero {
      StartsAt(c, s, q);
    } else {
      SumRepresents(c, s, p, q, x3, y3, z3);
    }
  }

  method NegatedGej<T(!new)>(a: Gej, ghost c: Curve<T>, ghost p: T) returns (r: Gej)
    requires IsCurve(c) && p != c.g.zero && Represents(c, a, p)
    ensures Represents(c, r, c.g.neg(p))
  {
    ghost var z := FiniteOf(c, a, p);
    r := GejNeg(a, c.x(p), c.y(p), z);
    NegOf(c, p);
    RepresentsBy(c, r, c.g.neg(p), c.x(p), -c.y(p), z);
  }

  /** Other coordinates of the same element. */
  method Rescaled<T(!new)>(a: Gej, f: Fe, ghost e: int, ghost c: Curve<T>, ghost p: T) returns (r: Gej)
    requires Fermat(P) && Is(f, e) && !Congruent(e, 0) && f.magnitude <= 8 && Represents(c, a, p)
    ensures Represents(c, r, p)
  {
    ghost var z := FiniteOf(c, a, p);
    ghost var z3;
    r, z3 := GejRescale(a, f, c.x(p), c.y(p), z, e);
    if p != c.g.zero {
      ProductNonzero(z, e, z3);
      assert FiniteAt(c, r, p, z3);
    }
  }

  method NegatedGe<T(!new)>(b: Ge, ghost c: Curve<T>, ghost q: T) returns (r: Ge)
    requires IsCurve(c) && GeAt(c, b, q)
    ensures GeAt(c, r, c.g.neg(q))
  {
    r := GeNeg(b, c.x(q), c.y(q));
    NegOf(c, q);
    GeCongruent(r, c.x(q), -c.y(q), c.x(c.g.neg(q)), c.y(c.g.neg(q)));
  }

  lemma NegOf<T(!new)>(c: Curve<T>, p: T)
    requires IsCurve(c) && p != c.g.zero
    ensures c.g.neg(p) != c.g.zero && SameAs(c, c.g.neg(p), c.x(p), -c.y(p))
  {
    assert Pair(p, p);
    NegNonzero(c, p);
  }

  lemma NegNonzero<T(!new)>(c: Curve<T>, q: T)
    requires G.IsAbelian(c.g) && q != c.g.zero
    ensures c.g.neg(q) != c.g.zero
  {
    G.Unit(c.g, q);
  }

  lemma GeCongruent(b: Ge, x: int, y: int, x': int, y': int)
    requires AtGe(b, x, y) && Congruent(x, x') && Congruent(y, y')
    ensures AtGe(b, x', y')
  {
    AtGeIs(b, x, y);
    Retag(b.x, x, x');
    Retag(b.y, y, y');
    AtGeIs(b, x', y');
  }

  // ---------- The isomorphic curves ----------

  /** The same group with coordinates x w^2 and y w^3. */
  ghost function Iso<T(!new)>(c: Curve<T>, w: int): Curve<T> {
    Curve(c.g, p => c.x(p) * w * w, p => c.y(p) * w * w * w)
  }

  lemma IsoScaled<T(!new)>(c: Curve<T>, w: int, p: T)
    ensures Scaled(c.x(p), c.y(p), w, Iso(c, w).x(p), Iso(c, w).y(p))
  {
    ScaledIs(c.x(p), c.y(p), w, Iso(c, w).x(p), Iso(c, w).y(p));
  }

  /** Congruent numbers stay congruent when scaled. */
  lemma ScaledCongruent(x: int, y: int, x': int, y': int, w: int, X: int, Y: int, X': int, Y': int)
    requires Scaled(x, y, w, X, Y) && Scaled(x', y', w, X', Y') && Congruent(x, x') && Congruent(y, y')
    ensures Congruent(X, X') && Congruent(Y, Y')
  {
    ScaledIs(x, y, w, X, Y);
    ScaledIs(x', y', w, X', Y');
    Factored(x, y, w);
    Factored(x', y', w);
    CongruentScale(x, x', w * w);
    CongruentScale(y, y', w * w * w);
  }

  /** Tangents go to tangents, as chords go to chords. */
  lemma TangentMapped(l: int, x: int, y: int, x3: int, y3: int, w: int, m: int, X: int, Y: int, X3: int, Y3: int)
    requires TangentLaw(l, x, y, x3, y3) && Prod(l, w, m) && Scaled(x, y, w, X, Y) && Scaled(x3, y3, w, X3, Y3)
    ensures TangentLaw(m, X, Y, X3, Y3)
  {
    assert Opened();
    TangentScaled(l, x, y, w, X * X, 2 * (w * Y) * l);
    Regroup(X, Y, l, w, m);
    OT.MappedX(l, x, x, w);
    OT.MappedY(l, x, y, x3, w);
  }

  lemma Regroup(X: int, Y: int, l: int, w: int, m: int)
    requires m == l * w
    ensures 3 * (X * X) == 3 * X * X && 2 * (w * Y) * l == 2 * Y * m
  {
    assert (w * Y) * l == Y * (l * w);
  }

  lemma SameWhenScaled(x1: int, y1: int, x2: int, y2: int, w: int, X1: int, Y1: int, X2: int, Y2: int)
    requires Fermat(P) && !Congruent(w, 0) && Scaled(x1, y1, w, X1, Y1) && Scaled(x2, y2, w, X2, Y2)
    ensures (Congruent(X1, X2) <==> Congruent(x1, x2)) && (Congruent(Y1, Y2) <==> Congruent(y1, y2))
  {
    SameCoordinates(x1, y1, x2, y2, w, X1, Y1, X2, Y2);
    Differ(X1, X2);
    Differ(Y1, Y2);
  }

  lemma Differ(x: int, y: int)
    ensures Congruent(y - x, 0) <==> Congruent(x, y)
  {
    U.DiffZero(y, x);
    if Congruent(x, y) {
      CongruentSym(x, y);
    }
    if Congruent(y, x) {
      CongruentSym(y, x);
    }
  }

  lemma LawMapped(l: int, x1: int, y1: int, x2: int, y2: int, x3: int, y3: int, w: int,
      m: int, X1: int, Y1: int, X2: int, Y2: int, X3: int, Y3: int)
    requires Fermat(P) && !Congruent(w, 0) && SumLaw(l, x1, y1, x2, y2, x3, y3) && Prod(l, w, m)
    requires Scaled(x1, y1, w, X1, Y1) && Scaled(x2, y2, w, X2, Y2) && Scaled(x3, y3, w, X3, Y3)
    ensures SumLaw(m, X1, Y1, X2, Y2, X3, Y3)
  {
    SameWhenScaled(x1, y1, x2, y2, w, X1, Y1, X2, Y2);
    if !Congruent(x1, x2) {
      OT.ChordMapped(l, x1, y1, x2, y2, x3, y3, w, m, X1, Y1, X2, Y2, X3, Y3);
    } else if Congruent(y1, y2) {
      TangentMapped(l, x1, y1, x3, y3, w, m, X1, Y1, X3, Y3);
    }
  }

  lemma IsoAdd<T(!new)>(c: Curve<T>, w: int, p: T, q: T)
    requires IsCurve(c) && Fermat(P) && !Congruent(w, 0) && p != c.g.zero && q != c.g.zero
    ensures AddLaw(Iso(c, w), p, q)
  {
    var d, sum := Iso(c, w), c.g.add(p, q);
    var l, x3, y3 := LawOf(c, p, q);
    IsoScaled(c, w, p);
    IsoScaled(c, w, q);
    SameWhenScaled(c.x(p), c.y(p), c.x(q), c.y(q), w, d.x(p), d.y(p), d.x(q), d.y(q));
    if sum != c.g.zero {
      var m := Times(l, w);
      var X3, Y3 := ScaleTags(x3, y3, w);
      IsoScaled(c, w, sum);
      LawMapped(l, c.x(p), c.y(p), c.x(q), c.y(q), x3, y3, w, m, d.x(p), d.y(p), d.x(q), d.y(q), X3, Y3);
      ScaledCongruent(x3, y3, c.x(sum), c.y(sum), w, X3, Y3, d.x(sum), d.y(sum));
      assert SumTo(d, p, q, m, X3, Y3);
    }
  }

  lemma IsoNeg<T(!new)>(c: Curve<T>, w: int, p: T)
    requires IsCurve(c) && Fermat(P) && !Congruent(w, 0) && p != c.g.zero
    ensures NegLaw(Iso(c, w), p)
  {
    assert Pair(p, p);
    var d, n := Iso(c, w), c.g.neg(p);
    IsoScaled(c, w, p);
    IsoScaled(c, w, n);
    ScaledNonzero(c.x(p), c.y(p), w, d.x(p), d.y(p));
    NegScaled(c.x(p), c.y(p), w, d.x(p), d.y(p));
    ScaledCongruent(c.x(p), -c.y(p), c.x(n), c.y(n), w, d.x(p), -d.y(p), d.x(n), d.y(n));
  }

  lemma ScaledNonzero(x: int, y: int, w: int, X: int, Y: int)
    requires Fermat(P) && !Congruent(w, 0) && !Congruent(y, 0) && Scaled(x, y, w, X, Y)
    ensures !Congruent(Y, 0)
  {
    ScaledIs(x, y, w, X, Y);
    Factored(x, y, w);
    PowersNonzero(w);
    if Congruent(Y, 0) {
      NoZeroDivisors(w * w * w, y);
    }
  }

  /** Every such curve obeys the law too. */
  lemma IsoIsCurve<T(!new)>(c: Curve<T>, w: int)
    requires IsCurve(c) && Fermat(P) && !Congruent(w, 0)
    ensures IsCurve(Iso(c, w))
  {
    var d := Iso(c, w);
    forall p, q | Pair(p, q)
      ensures Law(d, p, q)
    {
      if p != c.g.zero && q != c.g.zero {
        IsoNeg(c, w, p);
        IsoAdd(c, w, p, q);
      }
    }
  }

  /** Coordinates over w of an element are its affine coordinates on the isomorphic curve. */
  lemma OverIsIso<T(!new)>(c: Curve<T>, w: int, b: Ge, q: T)
    requires GeGood(b) && q != c.g.zero && AtGeZ(b, c.x(q), c.y(q), w)
    ensures GeAt(Iso(c, w), b, q)
  {
    var d := Iso(c, w);
    IsoScaled(c, w, q);
    OT.AtGeZIs(b, c.x(q), c.y(q), w, d.x(q), d.y(q));
    AtGeIs(b, d.x(q), d.y(q));
  }

  /** Affine coordinates of an element, scaled by w, are its coordinates on the isomorphic curve. */
  lemma AffineIsOver<T(!new)>(c: Curve<T>, w: int, b: Ge, zinv: Fe, q: T)
    requires Fermat(P) && !Congruent(w, 0) && GeAt(c, b, q) && Is(zinv, w) && zinv.magnitude <= 8
    ensures GeOver(Iso(c, w), b, zinv, q)
  {
    var d := Iso(c, w);
    var v := ReciprocalOf(w);
    IsoScaled(c, w, q);
    var X, Y := ScaleTags(d.x(q), d.y(q), v);
    ScaledBack(c.x(q), c.y(q), w, v, d.x(q), d.y(q), X, Y);
    AtGeIs(b, c.x(q), c.y(q));
    Retag(b.x, c.x(q), X);
    Retag(b.y, c.y(q), Y);
    OT.AtGeZIs(b, d.x(q), d.y(q), v, X, Y);
    IsWithin(zinv, w);
    assert AtZinv(b, zinv, d.x(q), d.y(q), v, w);
  }

  lemma ReciprocalOf(w: int) returns (v: int)
    requires Fermat(P) && !Congruent(w, 0)
    ensures Reciprocal(v, w)
  {
    ZeroIffMod(w);
    InverseIsInverse(P, w);
    v := PowMod(P, w, P - 2);
    var q := (v * w) / P;
    CongruentBy(v * w, 1, -q);
    assert Opened();
  }

  /** Scaling by w and by its inverse. */
  lemma ScaledBack(x: int, y: int, w: int, v: int, X: int, Y: int, X': int, Y': int)
    requires Reciprocal(v, w) && Scaled(x, y, w, X, Y) && Scaled(X, Y, v, X', Y')
    ensures Congruent(x, X') && Congruent(y, Y')
  {
    var u := Times(w, v);
    ScaledTwice(x, y, w, X, Y, v, X', Y', u);
    ProdIs(w, v, u);
    assert Open(OfReciprocal, 0);
    assert w * v == v * w;
    UnitScaled(x, y, u, X', Y');
  }

  lemma UnitScaled(x: int, y: int, u: int, X: int, Y: int)
    requires Congruent(u, 1) && Scaled(x, y, u, X, Y)
    ensures Congruent(x, X) && Congruent(y, Y)
  {
    ScaledIs(x, y, u, X, Y);
    Factored(x, y, u);
    CongruentMul(u, 1, u, 1);
    CongruentMul(u * u, 1, u, 1);
    CongruentScale(u * u, 1, x);
    CongruentScale(u * u * u, 1, y);
    CongruentSym(x * (u * u), x * 1);
    CongruentSym(y * (u * u * u), y * 1);
    assert x * (u * u) == (u * u) * x && y * (u * u * u) == (u * u * u) * y;
  }

  /** A point of the isomorphic curve, once its z coordinate is multiplied by w. */
  method Unmapped<T(!new)>(r: Gej, globalz: Fe, ghost c: Curve<T>, ghost w: int, ghost p: T) returns (s: Gej)
    requires Fermat(P) && !Congruent(w, 0) && Is(globalz, w) && globalz.magnitude <= 8 && Represents(Iso(c, w), r, p)
    ensures Represents(c, s, p)
  {
    s := r;
    ghost var z := FiniteOf(Iso(c, w), r, p);
    if !r.infinity {
      s := TimesZ(r, globalz, c, w, p, z);
    }
  }

  method TimesZ<T(!new)>(r: Gej, globalz: Fe, ghost c: Curve<T>, ghost w: int, ghost p: T, ghost z: int) returns (s: Gej)
    requires Fermat(P) && !Congruent(w, 0) && Is(globalz, w) && globalz.magnitude <= 8
    requires Good(r) && p != c.g.zero && FiniteAt(Iso(c, w), r, p, z)
    ensures Represents(c, s, p)
  {
    ghost var d := Iso(c, w);
    ghost var X, Y, Z := TagsOf(r, d.x(p), d.y(p), z);
    ghost var v := Times(z, w);
    var rz := FeMul(r.z, globalz, z, w, v);
    s := Gej(r.x, r.y, rz, r.infinity);
    MakeGood(s, X, Y, v);
    IsoScaled(c, w, p);
    OT.ProdSwap(z, w, v);
    ScaledTwice(c.x(p), c.y(p), w, d.x(p), d.y(p), z, X, Y, v);
    AtFinite(r, d.x(p), d.y(p), z);
    AtIs(s, c.x(p), c.y(p), v, X, Y);
    ProductNonzero(z, w, v);
    assert FiniteAt(c, s, p, v);
  }
}
