/** The multiplication na * A + ng * G as the library runs it: on limbs, over one z coordinate, by wnaf digits. */
module Strauss {
  import opened Bits
  import opened Field5x52
  import opened FieldElement
  import opened ModPow
  import opened AdditionChains
  import opened Jacobian
  import opened CurvePoints
  import opened GlobalTable
  import opened Endomorphism
  import G = Group
  import S = Scalar4x64
  import L = LambdaSplit
  import W = Wnaf
  import E = Ecmult
  import C = EcmultConst
  import LP = LambdaPoints
  import LC = LambdaChain

  // ---------- Tables ----------

  /** The odd multiples of x, as affine points of the curve c. */
  ghost predicate TableOf<T(!new)>(c: Curve<T>, pre: seq<Ge>, x: T) {
    forall i :: 0 <= i < |pre| ==> GeAt(c, pre[i], G.Times(c.g, 2 * i + 1, x))
  }

  /** ECMULT_TABLE_GET_GE: the entry for a digit, negated for a negative one. */
  method TableGetGe<T(!new)>(pre: seq<Ge>, n: int, w: nat, ghost c: Curve<T>, ghost x: T) returns (r: Ge)
    requires IsCurve(c) && 2 <= w && |pre| == Pow2(w - 2) && TableOf(c, pre, x) && n != 0 && W.WnafDigit(n, w)
    ensures GeAt(c, r, G.Times(c.g, n, x))
  {
    if n > 0 {
      EntryPlace(n, w);
      r := pre[(n - 1) / 2];
      assert GeAt(c, r, G.Times(c.g, 2 * ((n - 1) / 2) + 1, x));
    } else {
      EntryPlace(-n, w);
      r := pre[(-n - 1) / 2];
      assert GeAt(c, r, G.Times(c.g, 2 * ((-n - 1) / 2) + 1, x));
      r := NegatedGe(r, c, G.Times(c.g, -n, x));
      G.TimesNeg(c.g, -n, x);
    }
  }

  lemma EntryPlace(n: int, w: nat)
    requires 2 <= w && n > 0 && (W.WnafDigit(n, w) || W.WnafDigit(-n, w))
    ensures 0 <= (n - 1) / 2 < Pow2(w - 2) && 2 * ((n - 1) / 2) + 1 == n
  {
    assert Pow2(w - 1) == 2 * Pow2(w - 2);
  }

  // ---------- Streams of digits ----------

  /** A scalar's digits and the table of its point: over the common z coordinate, or affine as those of the generator are. */
  datatype PointStream = PointStream(digits: seq<int>, bits: int, pre: seq<Ge>, w: nat, affine: bool)

  ghost predicate StreamOf<T(!new)>(c: Curve<T>, globalz: int, s: PointStream, x: T) {
    && 2 <= s.w && |s.pre| == Pow2(s.w - 2) && TableOf(if s.affine then c else Iso(c, globalz), s.pre, x)
    && 0 <= s.bits <= |s.digits|
    && (forall i :: s.bits <= i < |s.digits| ==> s.digits[i] == 0)
    && (forall i :: 0 <= i < |s.digits| ==> W.WnafDigit(s.digits[i], s.w))
  }

  /** The same digits over a table of group elements. */
  ghost function Shadow<T(!new)>(g: G.Ops<T>, s: PointStream, x: T): E.Stream<T> {
    E.Stream(s.digits, s.bits, seq(|s.pre|, i => G.Times(g, 2 * i + 1, x)), s.w)
  }

  lemma ShadowValid<T(!new)>(c: Curve<T>, globalz: int, s: PointStream, x: T)
    requires StreamOf(c, globalz, s, x)
    ensures E.ValidStream(c.g, Shadow(c.g, s, x), x)
  {
  }

  ghost function Shadows<T(!new)>(g: G.Ops<T>, ss: seq<PointStream>, xs: seq<T>): (r: seq<E.Stream<T>>)
    requires |ss| == |xs|
    ensures |r| == |ss|
  {
    seq(|ss|, k requires 0 <= k < |ss| => Shadow(g, ss[k], xs[k]))
  }

  /** Adds one stream's digit at place i to its doubled part, the k-th summand. */
  method AddDigit<T(!new)>(r0: Gej, s: PointStream, i: nat, globalz: Fe, ghost c: Curve<T>, ghost w: int, ghost x: T,
      ghost ps: seq<T>, ghost k: nat)
    returns (r: Gej)
    requires IsCurve(c) && IsCurve(Iso(c, w)) && Fermat(P) && !Congruent(w, 0) && Is(globalz, w) && globalz.magnitude <= 8
    requires StreamOf(c, w, s, x) && k < |ps| && Represents(Iso(c, w), r0, E.Sum(c.g, ps))
    requires var u := E.Part(c.g, Shadow(c.g, s, x), x, i + 1); ps[k] == c.g.add(u, u)
    ensures Represents(Iso(c, w), r, E.Sum(c.g, ps[k := E.Part(c.g, Shadow(c.g, s, x), x, i)]))
  {
    ShadowValid(c, w, s, x);
    E.Digit(c.g, Shadow(c.g, s, x), x, i);
    if i < s.bits && s.digits[i] != 0 {
      ghost var t := G.Times(c.g, s.digits[i], x);
      r := AddEntry(r0, s, s.digits[i], globalz, c, w, x, E.Sum(c.g, ps));
      E.SumUpdate(c.g, ps, k, t);
    } else {
      r := r0;
      assert ps[k := E.Part(c.g, Shadow(c.g, s, x), x, i)] == ps;
    }
  }

  /** Adds the multiple of x that a digit selects: by the mixed addition, or by the one that knows 1 / z. */
  method AddEntry<T(!new)>(r0: Gej, s: PointStream, n: int, globalz: Fe, ghost c: Curve<T>, ghost w: int, ghost x: T, ghost p: T)
    returns (r: Gej)
    requires IsCurve(c) && IsCurve(Iso(c, w)) && Fermat(P) && !Congruent(w, 0) && Is(globalz, w) && globalz.magnitude <= 8
    requires StreamOf(c, w, s, x) && n != 0 && W.WnafDigit(n, s.w) && Represents(Iso(c, w), r0, p)
    ensures Represents(Iso(c, w), r, c.g.add(p, G.Times(c.g, n, x)))
  {
    ghost var t := G.Times(c.g, n, x);
    if s.affine {
      var b := TableGetGe(s.pre, n, s.w, c, x);
      AffineIsOver(c, w, b, globalz, t);
      r := AddedZinv(r0, b, globalz, Iso(c, w), p, t);
    } else {
      var b := TableGetGe(s.pre, n, s.w, Iso(c, w), x);
      r := AddedGe(r0, b, Iso(c, w), p, t);
    }
  }

  /** Adds every stream's digit at place i to the doubled accumulator. */
  method AddDigits<T(!new)>(r0: Gej, ss: seq<PointStream>, i: nat, globalz: Fe, ghost c: Curve<T>, ghost w: int, ghost xs: seq<T>,
      ghost twice: seq<T>)
    returns (r: Gej)
    requires IsCurve(c) && IsCurve(Iso(c, w)) && Fermat(P) && !Congruent(w, 0) && Is(globalz, w) && globalz.magnitude <= 8
    requires |ss| == |xs| == |twice| && forall k :: 0 <= k < |ss| ==> StreamOf(c, w, ss[k], xs[k])
    requires forall k :: 0 <= k < |ss| ==> twice[k] == Twice(c.g, ss[k], xs[k], i)
    requires Represents(Iso(c, w), r0, E.Sum(c.g, twice))
    ensures Represents(Iso(c, w), r, E.Sum(c.g, E.Parts(c.g, Shadows(c.g, ss, xs), xs, i)))
  {
    r := r0;
    ghost var ps := twice;
    for k := 0 to |ss|
      invariant |ps| == |ss| && Represents(Iso(c, w), r, E.Sum(c.g, ps))
      invariant forall m :: 0 <= m < k ==> ps[m] == E.Part(c.g, Shadow(c.g, ss[m], xs[m]), xs[m], i)
      invariant forall m :: k <= m < |ss| ==> ps[m] == twice[m]
    {
      assert ps[k] == Twice(c.g, ss[k], xs[k], i);
      r := AddDigit(r, ss[k], i, globalz, c, w, xs[k], ps, k);
      ps := ps[k := E.Part(c.g, Shadow(c.g, ss[k], xs[k]), xs[k], i)];
    }
    assert ps == E.Parts(c.g, Shadows(c.g, ss, xs), xs, i);
  }

  /** A stream's part above place i, doubled. */
  ghost function Twice<T(!new)>(g: G.Ops<T>, s: PointStream, x: T, i: nat): T {
    var u := E.Part(g, Shadow(g, s, x), x, i + 1);
    g.add(u, u)
  }

  method SetInfinity() returns (r: Gej)
    ensures Good(r) && r.infinity
  {
    var zero := FeSetInt(0);
    r := Gej(zero, zero, zero, true);
    MakeGood(r, 0, 0, 0);
  }

  /** The loop: one doubling for all streams, then a digit of each. */
  method JointMultiply<T(!new)>(ss: seq<PointStream>, bits: nat, globalz: Fe, ghost c: Curve<T>, ghost w: int, ghost xs: seq<T>)
    returns (r: Gej)
    requires IsCurve(c) && Fermat(P) && !Congruent(w, 0) && Is(globalz, w) && globalz.magnitude <= 8
    requires |ss| == |xs| && forall k :: 0 <= k < |ss| ==> StreamOf(c, w, ss[k], xs[k]) && ss[k].bits <= bits
    ensures Represents(c, r, E.Sum(c.g, E.Parts(c.g, Shadows(c.g, ss, xs), xs, 0)))
  {
    ghost var d, sh := Iso(c, w), Shadows(c.g, ss, xs);
    IsoIsCurve(c, w);
    AllShadowsValid(c, w, ss, xs);
    E.AllZero(c.g, sh, xs, bits);
    r := SetInfinity();
    var i := bits;
    while i > 0
      invariant 0 <= i <= bits && Represents(d, r, E.Sum(c.g, E.Parts(c.g, sh, xs, i)))
    {
      i := i - 1;
      ghost var ps := E.Parts(c.g, sh, xs, i + 1);
      ghost var twice := seq(|ss|, k requires 0 <= k < |ss| => Twice(c.g, ss[k], xs[k], i));
      E.SumAdd(c.g, ps, ps, twice);
      r := Doubled(r, d, E.Sum(c.g, ps));
      r := AddDigits(r, ss, i, globalz, c, w, xs, twice);
    }
    r := Unmapped(r, globalz, c, w, E.Sum(c.g, E.Parts(c.g, sh, xs, 0)));
  }

  lemma AllShadowsValid<T(!new)>(c: Curve<T>, globalz: int, ss: seq<PointStream>, xs: seq<T>)
    requires |ss| == |xs| && forall k :: 0 <= k < |ss| ==> StreamOf(c, globalz, ss[k], xs[k])
    ensures forall k :: 0 <= k < |ss| ==> E.ValidStream(c.g, Shadows(c.g, ss, xs)[k], xs[k])
  {
    forall k | 0 <= k < |ss|
      ensures E.ValidStream(c.g, Shadows(c.g, ss, xs)[k], xs[k])
    {
      ShadowValid(c, globalz, ss[k], xs[k]);
    }
  }

  /** The wnaf of a scalar over a table. */
  method MakeStream<T(!new)>(a: int, len: nat, w: nat, pre: seq<Ge>, affine: bool, ghost c: Curve<T>, ghost globalz: int, ghost x: T)
    returns (s: PointStream)
    requires 0 <= a < S.N && len <= 256 && 2 <= w <= 30 && W.Fits(W.Abs(W.SignedScalar(a)), len)
    requires |pre| == Pow2(w - 2) && TableOf(if affine then c else Iso(c, globalz), pre, x)
    ensures StreamOf(c, globalz, s, x) && E.Part(c.g, Shadow(c.g, s, x), x, 0) == G.Times(c.g, W.SignedScalar(a), x)
  {
    var wnaf := new int[len];
    var bits, left := W.EcmultWnaf(wnaf, a, w);
    s := PointStream(wnaf[..], bits, pre, w, affine);
    assert s.digits[0..] == s.digits;
  }

  // ---------- The multiplication ----------

  /** ecmult without the endomorphism: two streams of 256 digits. */
  method Ecmult<T(!new)>(a: Gej, na: int, ng: int, preG: seq<Ge>, ghost c: Curve<T>, ghost p: T, ghost gen: T) returns (r: Gej)
    requires IsCurve(c) && Fermat(P) && Represents(c, a, p) && C.HasOrderN(c.g, p) && G.Times(c.g, S.N, gen) == c.g.zero
    requires 0 <= na < S.N && 0 <= ng < S.N && |preG| == Pow2(16 - 2) && TableOf(c, preG, gen)
    ensures Represents(c, r, c.g.add(G.Times(c.g, na, p), G.Times(c.g, ng, gen)))
  {
    var len: nat := 256;
    E.DigitWidths(len);
    FirstMultiple(c.g, p);
    E.TimesSigned(c.g, na, p);
    E.TimesSigned(c.g, ng, gen);
    var pre, globalz;
    ghost var w;
    pre, globalz, w := WindowTable(a, c, p);
    var s1 := MakeStream(na, len, E.WINDOW_A, pre, false, c, w, p);
    var s2 := MakeStream(ng, len, 16, preG, true, c, w, gen);
    r := TwoStreams(s1, s2, globalz, c, w, p, gen);
  }

  method WindowTable<T(!new)>(a: Gej, ghost c: Curve<T>, ghost p: T) returns (pre: seq<Ge>, globalz: Fe, ghost w: int)
    requires IsCurve(c) && Fermat(P) && Represents(c, a, p) && C.HasOrderN(c.g, p)
    ensures |pre| == Pow2(E.WINDOW_A - 2) && Is(globalz, w) && globalz.magnitude <= 2 && !Congruent(w, 0)
    ensures TableOf(Iso(c, w), pre, p)
  {
    FirstMultiple(c.g, p);
    var size := Pow2(E.WINDOW_A - 2);
    assert size == Pow2(3) == 8;
    pre, globalz, w := OddTableOf(size, a, c, p);
  }

  method TwoStreams<T(!new)>(s1: PointStream, s2: PointStream, globalz: Fe, ghost c: Curve<T>, ghost w: int, ghost x: T, ghost y: T)
    returns (r: Gej)
    requires IsCurve(c) && Fermat(P) && !Congruent(w, 0) && Is(globalz, w) && globalz.magnitude <= 8
    requires StreamOf(c, w, s1, x) && StreamOf(c, w, s2, y)
    ensures Represents(c, r, c.g.add(PartOf(c.g, s1, x), PartOf(c.g, s2, y)))
  {
    r := JointMultiply([s1, s2], E.Max(s1.bits, s2.bits), globalz, c, w, [x, y]);
    assert E.Parts(c.g, Shadows(c.g, [s1, s2], [x, y]), [x, y], 0) == [PartOf(c.g, s1, x), PartOf(c.g, s2, y)];
    E.SumOfTwo(c.g, PartOf(c.g, s1, x), PartOf(c.g, s2, y));
  }

  /** What all digits of a stream are worth. */
  ghost function PartOf<T(!new)>(g: G.Ops<T>, s: PointStream, x: T): T {
    E.Part(g, Shadow(g, s, x), x, 0)
  }

  lemma FirstMultiple<T(!new)>(g: G.Ops<T>, p: T)
    requires G.IsAbelian(g) && C.HasOrderN(g, p)
    ensures p != g.zero
  {
    G.TimesOne(g, p);
    C.SmallMultiple(g, 1, p);
  }

  // ---------- With the endomorphism ----------

  method Beta() returns (b: Fe)
    ensures Is(b, BETA) && b.magnitude == 1
  {
    b := Fe([0x96c28719501ee, 0x7512f58995c13, 0xc3434e99cf049, 0x7106e64479ea, 0x7ae96a2b657c], 1);
    CongruentRefl(BETA);
    assert Value(b.n) == BETA;
    Established(b, BETA);
  }

  /** ge_mul_lambda on an affine point of the isomorphic curve. */
  method MulLambda<T(!new)>(a: Ge, ghost c: Curve<T>, ghost w: int, ghost endo: T -> T, ghost q: T) returns (r: Ge)
    requires IsEndo(c, endo) && GeAt(Iso(c, w), a, q)
    ensures GeAt(Iso(c, w), r, endo(q))
  {
    assert Pair(q, q);
    ghost var d, e := Iso(c, w), endo(q);
    var beta := Beta();
    AtGeIs(a, d.x(q), d.y(q));
    ghost var m := Times(d.x(q), BETA);
    var rx := FeMul(a.x, beta, d.x(q), BETA, m);
    r := Ge(rx, a.y, a.infinity);
    IsoScaled(c, w, q);
    IsoScaled(c, w, e);
    BetaScaled(c.x(q), c.y(q), c.x(e), c.y(e), w, d.x(q), d.y(q), d.x(e), d.y(e), m);
    Retag(rx, m, d.x(e));
    Retag(a.y, d.y(q), d.y(e));
    IsWithin(rx, m);
    AtGeIs(r, d.x(e), d.y(e));
  }

  lemma BetaScaled(x: int, y: int, x': int, y': int, w: int, X: int, Y: int, X': int, Y': int, m: int)
    requires Congruent(BETA * x, x') && Congruent(y, y') && Scaled(x, y, w, X, Y) && Scaled(x', y', w, X', Y') && Prod(X, BETA, m)
    ensures Congruent(m, X') && Congruent(Y, Y')
  {
    var bx, Y'' := ScaleTags(BETA * x, y, w);
    ScaledCongruent(BETA * x, y, x', y', w, bx, Y'', X', Y');
    ScaledIs(BETA * x, y, w, bx, Y'');
    ScaledIs(x, y, w, X, Y);
    ProdIs(X, BETA, m);
    assert (BETA * x) * w * w == (x * w * w) * BETA;
  }

  /** The table of the image: every entry through the endomorphism. */
  method LambdaTable<T(!new)>(pre: seq<Ge>, ghost c: Curve<T>, ghost w: int, ghost endo: T -> T, ghost x: T) returns (table: seq<Ge>)
    requires IsCurve(c) && Fermat(P) && IsEndo(c, endo) && TableOf(Iso(c, w), pre, x)
    ensures |table| == |pre| && TableOf(Iso(c, w), table, endo(x))
  {
    EndoIsHomomorphism(c, endo);
    table := [];
    for i := 0 to |pre|
      invariant |table| == i && TableOf(Iso(c, w), table, endo(x))
    {
      var b := MulLambda(pre[i], c, w, endo, G.Times(c.g, 2 * i + 1, x));
      G.EndomorphismTimes(c.g, endo, 2 * i + 1, x);
      table := table + [b];
    }
  }

  method HalfStream<T(!new)>(v: int, pre: seq<Ge>, ghost c: Curve<T>, ghost globalz: int, ghost x: T) returns (s: PointStream)
    requires 0 <= v < S.N && L.Short(L.Signed(v)) && |pre| == Pow2(E.WINDOW_A - 2) && TableOf(Iso(c, globalz), pre, x)
    ensures StreamOf(c, globalz, s, x) && PartOf(c.g, s, x) == G.Times(c.g, W.SignedScalar(v), x)
  {
    var len: nat := 130;
    E.HalvesFit(v, len);
    s := MakeStream(v, len, E.WINDOW_A, pre, false, c, globalz, x);
  }

  method WordStream<T(!new)>(v: int, pre: seq<Ge>, ghost c: Curve<T>, ghost globalz: int, ghost x: T) returns (s: PointStream)
    requires 0 <= v < TWO128 && |pre| == Pow2(E.WINDOW_G - 2) && TableOf(c, pre, x)
    ensures StreamOf(c, globalz, s, x) && PartOf(c.g, s, x) == G.Times(c.g, v, x)
  {
    var len: nat := 129;
    E.DigitWidths(len);
    s := MakeStream(v, len, E.WINDOW_G, pre, true, c, globalz, x);
  }

  method FourStreams<T(!new)>(s1: PointStream, s2: PointStream, s3: PointStream, s4: PointStream, globalz: Fe,
      ghost c: Curve<T>, ghost w: int, ghost x1: T, ghost x2: T, ghost x3: T, ghost x4: T)
    returns (r: Gej)
    requires IsCurve(c) && Fermat(P) && !Congruent(w, 0) && Is(globalz, w) && globalz.magnitude <= 8
    requires StreamOf(c, w, s1, x1) && StreamOf(c, w, s2, x2) && StreamOf(c, w, s3, x3) && StreamOf(c, w, s4, x4)
    ensures Represents(c, r, c.g.add(c.g.add(PartOf(c.g, s1, x1), PartOf(c.g, s2, x2)), c.g.add(PartOf(c.g, s3, x3), PartOf(c.g, s4, x4))))
  {
    ghost var xs := [x1, x2, x3, x4];
    var ss := [s1, s2, s3, s4];
    r := JointMultiply(ss, E.Max(E.Max(s1.bits, s2.bits), E.Max(s3.bits, s4.bits)), globalz, c, w, xs);
    assert E.Parts(c.g, Shadows(c.g, ss, xs), xs, 0)
        == [PartOf(c.g, s1, x1), PartOf(c.g, s2, x2), PartOf(c.g, s3, x3), PartOf(c.g, s4, x4)];
    E.SumOfFour(c.g, PartOf(c.g, s1, x1), PartOf(c.g, s2, x2), PartOf(c.g, s3, x3), PartOf(c.g, s4, x4));
  }

  /** ecmult with the endomorphism: both scalars in halves, four streams of about 128 digits. gen is the generator of
      the curve, by its coordinates and its order, and p one of its multiples. */
  method EcmultEndo<T(!new)>(a: Gej, na: array<int>, ng: array<int>, preG: seq<Ge>, preG128: seq<Ge>,
      ghost c: Curve<T>, ghost endo: T -> T, ghost p: T, ghost gen: T)
    returns (r: Gej)
    requires IsCurve(c) && IsEndo(c, endo) && Fermat(P) && Represents(c, a, p) && C.HasOrderN(c.g, p)
    requires C.HasOrderN(c.g, gen) && SameAs(c, gen, LP.GX, LP.GY) && IsMultiple(c.g, p, gen)
    requires na.Length == ng.Length == 4 && S.IsScalar(na[..]) && S.IsScalar(ng[..]) && S.Value(na[..]) < S.N
    requires |preG| == |preG128| == Pow2(E.WINDOW_G - 2) && TableOf(c, preG, gen) && TableOf(c, preG128, G.Times(c.g, TWO128, gen))
    ensures Represents(c, r, c.g.add(G.Times(c.g, S.Value(na[..]), p), G.Times(c.g, S.Value(ng[..]), gen)))
  {
    LambdaOf(c, endo, p, gen);
    var v1, v2, w1, w2 := E.SplitScalars(na, ng);
    r := EcmultHalves(a, v1, v2, w1, w2, preG, preG128, c, endo, p, gen, L.LAMBDA, TWO128, S.Value(na[..]), S.Value(ng[..]));
  }

  ghost predicate IsMultiple<T(!new)>(g: G.Ops<T>, p: T, gen: T) {
    exists m :: p == G.Times(g, m, gen)
  }

  lemma LambdaOf<T(!new)>(c: Curve<T>, endo: T -> T, p: T, gen: T)
    requires IsCurve(c) && IsEndo(c, endo) && Fermat(P)
    requires C.HasOrderN(c.g, gen) && SameAs(c, gen, LP.GX, LP.GY) && IsMultiple(c.g, p, gen)
    ensures endo(p) == G.Times(c.g, L.LAMBDA, p)
  {
    FirstMultiple(c.g, gen);
    var m :| p == G.Times(c.g, m, gen);
    LC.LambdaOfMultiple(c, endo, gen, m);
  }

  method EcmultHalves<T(!new)>(a: Gej, v1: int, v2: int, w1: int, w2: int, preG: seq<Ge>, preG128: seq<Ge>,
      ghost c: Curve<T>, ghost endo: T -> T, ghost p: T, ghost gen: T, ghost lam: int, ghost word: int, ghost k: int, ghost l: int)
    returns (r: Gej)
    requires IsCurve(c) && IsEndo(c, endo) && Fermat(P) && Represents(c, a, p) && C.HasOrderN(c.g, p) && endo(p) == G.Times(c.g, lam, p)
    requires 0 <= v1 < S.N && 0 <= v2 < S.N && L.Short(L.Signed(v1)) && L.Short(L.Signed(v2)) && L.Splits(v1, v2, lam, k, S.N)
    requires 0 <= w1 < TWO128 && 0 <= w2 < TWO128 && l == w1 + word * w2
    requires |preG| == |preG128| == Pow2(E.WINDOW_G - 2) && TableOf(c, preG, gen) && TableOf(c, preG128, G.Times(c.g, word, gen))
    ensures Represents(c, r, c.g.add(G.Times(c.g, k, p), G.Times(c.g, l, gen)))
  {
    E.SignedHalves(c.g, v1, v2, lam, p);
    E.JoinStreams(c.g, S.N, v1, v2, w1, w2, lam, word, k, l, p, gen);
    var pre, globalz;
    ghost var w;
    pre, globalz, w := WindowTable(a, c, p);
    var lamTable := LambdaTable(pre, c, w, endo, p);
    var s1 := HalfStream(v1, pre, c, w, p);
    var s2 := HalfStream(v2, lamTable, c, w, endo(p));
    var s3 := WordStream(w1, preG, c, w, gen);
    var s4 := WordStream(w2, preG128, c, w, G.Times(c.g, word, gen));
    r := FourStreams(s1, s2, s3, s4, globalz, c, w, p, endo(p), gen, G.Times(c.g, word, gen));
  }
}
