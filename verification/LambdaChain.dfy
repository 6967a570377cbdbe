/** That the endomorphism multiplies by lambda: A1 * G + B1 * endo(G) is the identity, computed point by point. */
module LambdaChain {
  import opened Notions
  import opened Field5x52
  import opened FieldElement
  import opened ModPow
  import opened AdditionChains
  import opened Jacobian
  import opened CurvePoints
  import opened Endomorphism
  import opened LambdaPoints
  import G = Group
  import U = UnifiedAddition
  import S = Scalar4x64
  import L = LambdaSplit

  lemma FromMod(a: int, b: int)
    ensures (a - b) % P == 0 <==> Congruent(a, b)
  {
    ZeroIffMod(a - b);
    U.DiffZero(a, b);
  }

  lemma Apart(a: int, b: int)
    requires 0 <= a < P && 0 <= b < P && a != b
    ensures !Congruent(a, b)
  {
    FromMod(a, b);
  }

  ghost function Sum<T(!new)>(c: Curve<T>, g: T, h: T, s: Spot): T {
    c.g.add(G.Times(c.g, s.u, g), G.Times(c.g, s.v, h))
  }

  /** The sum is finite with these coordinates. */
  ghost predicate Stands<T(!new)>(c: Curve<T>, g: T, h: T, s: Spot) {
    Sum(c, g, h, s) != c.g.zero && SameAs(c, Sum(c, g, h, s), s.x, s.y)
  }

  lemma TangentOf(x: int, y: int, l: int, x3: int, y3: int, a: int, b: int, c: int)
    requires TangentCheck(x, y, l, x3, y3, a, b, c)
    ensures OnTangent(l, x, y, x3, y3)
  {
    assert Open(OfCheck, 0);
    CongruentBy(2 * y * l, 3 * x * x, -a);
    CongruentBy(x3, ThirdX(l, x, x), b);
    CongruentBy(y3, ThirdY(l, x, y, x3), c);
  }

  lemma ChordOf(x1: int, y1: int, x2: int, y2: int, l: int, x3: int, y3: int, a: int, b: int, c: int)
    requires ChordCheck(x1, y1, x2, y2, l, x3, y3, a, b, c)
    ensures !Congruent(x1, x2) && OnChord(l, x1, y1, x2, y2, x3, y3)
  {
    assert Open(OfCheck, 0);
    Apart(x1, x2);
    CongruentBy(l * (x2 - x1), y2 - y1, -a);
    CongruentBy(x3, ThirdX(l, x1, x2), b);
    CongruentBy(y3, ThirdY(l, x1, y1, x3), c);
  }

  lemma DoubledSpot<T(!new)>(c: Curve<T>, g: T, h: T, s: Spot, l: int, x: int, y: int, qa: int, qb: int, qc: int)
    requires IsCurve(c) && Fermat(P) && Stands(c, g, h, s) && TangentCheck(s.x, s.y, l, x, y, qa, qb, qc)
    ensures Stands(c, g, h, Spot(2 * s.u, 2 * s.v, x, y))
  {
    TangentOf(s.x, s.y, l, x, y, qa, qb, qc);
    DoubledIs(c, Sum(c, g, h, s), l, s.x, s.y, x, y);
    SumOfSums(c, g, h, s, s, x, y);
  }

  lemma AddedSpot<T(!new)>(c: Curve<T>, g: T, h: T, s: Spot, d: Spot, l: int, x: int, y: int, qa: int, qb: int, qc: int)
    requires IsCurve(c) && Fermat(P) && Stands(c, g, h, s) && Stands(c, g, h, d)
    requires ChordCheck(s.x, s.y, d.x, d.y, l, x, y, qa, qb, qc)
    ensures Stands(c, g, h, Spot(s.u + d.u, s.v + d.v, x, y))
  {
    ChordOf(s.x, s.y, d.x, d.y, l, x, y, qa, qb, qc);
    AddedIs(c, Sum(c, g, h, s), Sum(c, g, h, d), l, s.x, s.y, d.x, d.y, x, y);
    SumOfSums(c, g, h, s, d, x, y);
  }

  lemma SumOfSums<T(!new)>(c: Curve<T>, g: T, h: T, s: Spot, d: Spot, x: int, y: int)
    requires G.IsAbelian(c.g)
    ensures c.g.add(Sum(c, g, h, s), Sum(c, g, h, d)) == Sum(c, g, h, Spot(s.u + d.u, s.v + d.v, x, y))
  {
    G.Exchange(c.g, G.Times(c.g, s.u, g), G.Times(c.g, s.v, h), G.Times(c.g, d.u, g), G.Times(c.g, d.v, h));
    G.TimesAdd(c.g, s.u, d.u, g);
    G.TimesAdd(c.g, s.v, d.v, h);
  }

  /** All three entries are right. */
  ghost predicate IsTable<T(!new)>(c: Curve<T>, g: T, h: T) {
    Stands(c, g, h, SpotOf(OfG)) && Stands(c, g, h, SpotOf(OfH)) && Stands(c, g, h, SpotOf(OfGH))
  }

  /** Links are group operations. */
  lemma {:induction false} LinksAdd<T(!new)>(c: Curve<T>, g: T, h: T, s: Spot, k: Links, e: Spot)
    requires IsCurve(c) && Fermat(P) && IsTable(c, g, h) && Stands(c, g, h, s) && Leads(s, k, e)
    ensures Stands(c, g, h, e)
    decreases k
  {
    match k
    case End =>
    case Twice(l, x, y, qa, qb, qc, rest) =>
      DoubledSpot(c, g, h, s, l, x, y, qa, qb, qc);
      LinksAdd(c, g, h, Spot(2 * s.u, 2 * s.v, x, y), rest, e);
    case Plus(d, l, x, y, qa, qb, qc, rest) =>
      AddedSpot(c, g, h, s, SpotOf(d), l, x, y, qa, qb, qc);
      LinksAdd(c, g, h, Spot(s.u + SpotOf(d).u, s.v + SpotOf(d).v, x, y), rest, e);
  }

  lemma MakeTable<T(!new)>(c: Curve<T>, endo: T -> T, g: T)
    requires IsCurve(c) && Fermat(P) && IsEndo(c, endo) && g != c.g.zero && SameAs(c, g, GX, GY)
    ensures IsTable(c, g, c.g.neg(endo(g)))
  {
    var h := c.g.neg(endo(g));
    ImageCoordinates(c, endo, g);
    G.TimesOne(c.g, g);
    G.TimesOne(c.g, h);
    G.Unit(c.g, g);
    G.Unit(c.g, h);
    AddedSpot(c, g, h, SpotOf(OfG), SpotOf(OfH),
      0xc8412ea8ac3c6ebc70ce8ef6109b6787c60da33a05491fe674ba1cf44d13cc1e,
      GHX, GHY, 0x345b5bf3dae90cff0e65b07c62e7bafb80f0ff969c638da9e5090462aa9506b5, 0x9ca5e9804746f0bee6f25b34ad343e316b2ffebf01a88a0255dd2bc915d8215f,
        -0x145ba7c4d58b5d1cf5e74c6a18312004989f3fd1061f44f73786702b7fe25a46);
  }

  lemma ImageCoordinates<T(!new)>(c: Curve<T>, endo: T -> T, g: T)
    requires IsCurve(c) && IsEndo(c, endo) && g != c.g.zero && SameAs(c, g, GX, GY)
    ensures c.g.neg(endo(g)) != c.g.zero
    ensures SameAs(c, c.g.neg(endo(g)), HX, HY)
  {
    var e := endo(g);
    EndoOf(c, endo, g);
    NegOf(c, e);
    CongruentScale(GX, c.x(g), BETA);
    CongruentTrans(BETA * GX, BETA * c.x(g), c.x(e));
    CongruentBy(HX, BETA * GX, 0x3a73bda14653802611b9bd905282c9c5457276c52117e06fda604798139d168b);
    CongruentTrans(HX, BETA * GX, c.x(e));
    CongruentTrans(HX, c.x(e), c.x(c.g.neg(e)));
    CongruentTrans(GY, c.y(g), c.y(e));
    CongruentScale(GY, c.y(e), -1);
    CongruentTrans(-GY, -c.y(e), c.y(c.g.neg(e)));
    CongruentBy(HY, -GY, -1);
    CongruentTrans(HY, -GY, c.y(c.g.neg(e)));
  }

  /** A1 g = -B1 h, for h = -endo(g). */
  lemma ChainEnds<T(!new)>(c: Curve<T>, endo: T -> T, g: T)
    requires IsCurve(c) && Fermat(P) && IsEndo(c, endo) && g != c.g.zero && SameAs(c, g, GX, GY)
    ensures c.g.add(G.Times(c.g, L.A1, g), G.Times(c.g, -L.B1, c.g.neg(endo(g)))) == c.g.zero
  {
    var h := c.g.neg(endo(g));
    MakeTable(c, endo, g);
    AllReached();
    LinksReach(c, g, h, L.A1 - 1, -L.B1 - 1, GHX, P - GHY);
    var s := Spot(L.A1 - 1, -L.B1 - 1, GHX, P - GHY);
    Opposites(c, Sum(c, g, h, s), Sum(c, g, h, SpotOf(OfGH)), s.x, s.y, GHX, GHY);
    SumOfSums(c, g, h, s, SpotOf(OfGH), 0, 0);
  }

  lemma LinksReach<T(!new)>(c: Curve<T>, g: T, h: T, u: int, v: int, x: int, y: int)
    requires IsCurve(c) && Fermat(P) && IsTable(c, g, h) && Reached(u, v, x, y)
    ensures Stands(c, g, h, Spot(u, v, x, y))
  {
    assert Open(OfReached, 0);
    var k :| Leads(SpotOf(OfH), k, Spot(u, v, x, y));
    LinksAdd(c, g, h, SpotOf(OfH), k, Spot(u, v, x, y));
  }

  lemma Opposites<T(!new)>(c: Curve<T>, p: T, q: T, x: int, y: int, x': int, y': int)
    requires IsCurve(c) && Fermat(P) && p != c.g.zero && q != c.g.zero && SameAs(c, p, x, y) && SameAs(c, q, x', y')
    requires x == x' && (y + y') % P == 0 && (2 * y) % P != 0
    ensures c.g.add(p, q) == c.g.zero
  {
    assert Pair(p, q);
    CongruentSym(x, c.x(p));
    CongruentTrans(c.x(p), x, c.x(q));
    if Congruent(c.y(p), c.y(q)) {
      CongruentTrans(y, c.y(p), c.y(q));
      CongruentSym(y', c.y(q));
      CongruentTrans(y, c.y(q), y');
      FromMod(y, y');
      TwiceOf(y, y');
    }
  }

  lemma TwiceOf(y: int, y': int)
    requires (y + y') % P == 0 && (y - y') % P == 0
    ensures (2 * y) % P == 0
  {
    var a, b := (y + y') / P, (y - y') / P;
    ModIs(2 * y, P, a + b, 0);
  }

  /** An inverse of B1 mod n. */
  const B1_INVERSE: int := 0x31b1633fc5ab1fcc52b833bb09096f7515ae3b756978bf8c77e177dff9273b38

  lemma InverseOfB1()
    ensures (B1_INVERSE * L.B1) % S.N == 1 && (B1_INVERSE * -L.A1) % S.N == L.LAMBDA
  {
    ModIs(B1_INVERSE * L.B1, S.N, -0x2c4f16709f140239862908464aa13869, 1);
    ModIs(B1_INVERSE * -L.A1, S.N, -0x96b6e3ff44d9c79b702d55c298fd48a, L.LAMBDA);
  }

  /** On the generator the endomorphism is the multiplication by lambda. */
  lemma LambdaOfGenerator<T(!new)>(c: Curve<T>, endo: T -> T, g: T)
    requires IsCurve(c) && Fermat(P) && IsEndo(c, endo) && SameAs(c, g, GX, GY)
    requires g != c.g.zero && G.Times(c.g, S.N, g) == c.g.zero
    ensures endo(g) == G.Times(c.g, L.LAMBDA, g)
  {
    var e := endo(g);
    EndoIsHomomorphism(c, endo);
    G.EndomorphismTimes(c.g, endo, S.N, g);
    ChainEnds(c, endo, g);
    NegatedPart(c.g, L.A1, L.B1, g, e);
    InverseOfB1();
    DivideBy(c.g, B1_INVERSE, L.A1, L.B1, L.LAMBDA, g, e);
  }

  lemma NegatedPart<T(!new)>(ops: G.Ops<T>, a: int, b: int, g: T, e: T)
    requires G.IsAbelian(ops) && ops.add(G.Times(ops, a, g), G.Times(ops, -b, ops.neg(e))) == ops.zero
    ensures G.Times(ops, b, e) == G.Times(ops, -a, g)
  {
    G.TimesOne(ops, e);
    G.TimesProduct(ops, -b, -1, b, e);
    G.TimesNeg(ops, a, g);
    G.InverseIsUnique(ops, G.Times(ops, a, g), G.Times(ops, b, e));
  }

  lemma DivideBy<T(!new)>(ops: G.Ops<T>, t: int, a: int, b: int, lam: int, g: T, e: T)
    requires G.IsAbelian(ops) && G.Times(ops, b, e) == G.Times(ops, -a, g)
    requires G.Times(ops, S.N, g) == ops.zero && G.Times(ops, S.N, e) == ops.zero
    requires (t * b) % S.N == 1 && (t * -a) % S.N == lam
    ensures e == G.Times(ops, lam, g)
  {
    G.TimesTimes(ops, t, b, e);
    G.TimesTimes(ops, t, -a, g);
    G.TimesModIs(ops, t * b, S.N, 1, e);
    G.TimesModIs(ops, t * -a, S.N, lam, g);
    G.TimesOne(ops, e);
  }

  /** So it is on every multiple of the generator. */
  lemma LambdaOfMultiple<T(!new)>(c: Curve<T>, endo: T -> T, g: T, k: int)
    requires IsCurve(c) && Fermat(P) && IsEndo(c, endo) && SameAs(c, g, GX, GY)
    requires g != c.g.zero && G.Times(c.g, S.N, g) == c.g.zero
    ensures endo(G.Times(c.g, k, g)) == G.Times(c.g, L.LAMBDA, G.Times(c.g, k, g))
  {
    LambdaOfGenerator(c, endo, g);
    EndoIsHomomorphism(c, endo);
    G.EndomorphismTimes(c.g, endo, k, g);
    G.TimesCommute(c.g, k, L.LAMBDA, g);
  }
}
