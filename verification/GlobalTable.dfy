/** The table of odd multiples over one z coordinate, on limbs and for elements of a group. */
module GlobalTable {
  import opened Notions
  import opened Field5x52
  import opened FieldElement
  import opened ModPow
  import opened AdditionChains
  import opened Jacobian
  import opened OddTable
  import opened CurvePoints
  import G = Group
  import U = UnifiedAddition
  import S = Scalar4x64
  import C = EcmultConst

  // ---------- Coordinates of the odd multiples ----------

  /** Elements other than each other and each other's negative differ in x. */
  lemma DifferentX<T(!new)>(c: Curve<T>, p: T, q: T)
    requires IsCurve(c) && Fermat(P) && p != c.g.zero && q != c.g.zero
    requires c.g.add(p, q) != c.g.zero && c.g.add(p, c.g.neg(q)) != c.g.zero
    ensures !Congruent(c.x(p), c.x(q))
  {
    if Congruent(c.x(p), c.x(q)) {
      var n := c.g.neg(q);
      NegNonzero(c, q);
      assert Pair(p, q) && Pair(q, q) && Pair(p, n);
      CongruentTrans(c.x(p), c.x(q), c.x(n));
      U.NotOpposite(c.y(p), c.y(q));
      if Congruent(c.y(p), c.y(n)) {
        CongruentSym(-c.y(q), c.y(n));
        CongruentTrans(c.y(p), c.y(n), -c.y(q));
      }
      assert false;
    }
  }

  /** The same chord through congruent coordinates. */
  lemma ChordThrough(l: int, x1: int, y1: int, x2: int, y2: int, x3: int, y3: int, a1: int, b1: int, a2: int, b2: int)
    returns (a3: int, b3: int)
    requires ChordLaw(l, x1, y1, x2, y2, x3, y3)
    requires Congruent(a1, x1) && Congruent(b1, y1) && Congruent(a2, x2) && Congruent(b2, y2)
    ensures ChordLaw(l, a1, b1, a2, b2, a3, b3) && Congruent(a3, x3) && Congruent(b3, y3)
  {
    a3 := ThirdX(l, a1, a2);
    b3 := ThirdY(l, a1, b1, a3);
    SlopeThrough(l, x1, y1, x2, y2, x3, y3, a1, b1, a2, b2);
    assert Open(OfChordLaw, 0);
    ThirdXThrough(l, x1, x2, a1, a2);
    ThirdYThrough(l, x1, y1, x3, a1, b1, a3);
  }

  lemma ThirdXThrough(l: int, x1: int, x2: int, a1: int, a2: int)
    requires Congruent(a1, x1) && Congruent(a2, x2)
    ensures Congruent(ThirdX(l, a1, a2), ThirdX(l, x1, x2))
  {
    Minus(a1, x1);
    Minus(a2, x2);
    CongruentRefl(l * l);
    CongruentAdd(l * l, l * l, -a1, -x1);
    CongruentAdd(l * l - a1, l * l - x1, -a2, -x2);
  }

  lemma ThirdYThrough(l: int, x1: int, y1: int, x3: int, a1: int, b1: int, a3: int)
    requires Congruent(a1, x1) && Congruent(b1, y1) && Congruent(a3, x3)
    ensures Congruent(ThirdY(l, a1, b1, a3), ThirdY(l, x1, y1, x3))
  {
    Minus(a3, x3);
    Minus(b1, y1);
    CongruentAdd(a1, x1, -a3, -x3);
    CongruentScale(a1 - a3, x1 - x3, l);
    CongruentAdd(l * (a1 - a3), l * (x1 - x3), -b1, -y1);
  }

  lemma Minus(a: int, x: int)
    requires Congruent(a, x)
    ensures Congruent(-a, -x)
  {
    CongruentScale(a, x, -1);
  }

  lemma SlopeThrough(l: int, x1: int, y1: int, x2: int, y2: int, x3: int, y3: int, a1: int, b1: int, a2: int, b2: int)
    requires ChordLaw(l, x1, y1, x2, y2, x3, y3)
    requires Congruent(a1, x1) && Congruent(b1, y1) && Congruent(a2, x2) && Congruent(b2, y2)
    ensures Congruent(l * (a2 - a1), b2 - b1)
  {
    assert Open(OfChordLaw, 0);
    Minus(a1, x1);
    Minus(b1, y1);
    CongruentAdd(a2, x2, -a1, -x1);
    CongruentAdd(b2, y2, -b1, -y1);
    CongruentScale(a2 - a1, x2 - x1, l);
    CongruentTrans(l * (a2 - a1), l * (x2 - x1), y2 - y1);
    CongruentSym(b2 - b1, y2 - y1);
    CongruentTrans(l * (a2 - a1), y2 - y1, b2 - b1);
  }

  /** The numbers are coordinates of the first odd multiples of a. */
  ghost predicate OddCoordinates<T(!new)>(c: Curve<T>, a: T, xs: seq<int>, ys: seq<int>) {
    |xs| == |ys| && forall i :: 0 <= i < |xs| ==> SameAs(c, G.Times(c.g, 2 * i + 1, a), xs[i], ys[i])
  }

  /** Chords link the odd multiples, because no two of the points on them have the same x. */
  lemma {:induction false} LinkMultiples<T(!new)>(c: Curve<T>, a: T, n: nat, dx: int, dy: int) returns (xs: seq<int>, ys: seq<int>, ls: seq<int>)
    requires IsCurve(c) && Fermat(P) && C.HasOrderN(c.g, a) && 1 <= n < 0x100000000 && SameAs(c, G.Times(c.g, 2, a), dx, dy)
    ensures |xs| == |ys| == n && xs[0] == c.x(a) && ys[0] == c.y(a) && Multiples(xs, ys, ls, dx, dy) && OddCoordinates(c, a, xs, ys)
  {
    if n == 1 {
      xs, ys, ls := [c.x(a)], [c.y(a)], [0];
      G.TimesOne(c.g, a);
      CongruentRefl(c.x(a));
      CongruentRefl(c.y(a));
    } else {
      var xs', ys', ls' := LinkMultiples(c, a, n - 1, dx, dy);
      var l, x, y := NextCoordinates(c, a, n - 1, xs'[n - 2], ys'[n - 2], dx, dy);
      xs, ys, ls := xs' + [x], ys' + [y], ls' + [l];
      Extended(xs', ys', ls', dx, dy, l, x, y);
    }
  }

  lemma Extended(xs: seq<int>, ys: seq<int>, ls: seq<int>, dx: int, dy: int, l: int, x: int, y: int)
    requires Multiples(xs, ys, ls, dx, dy)
    requires ChordLaw(l, xs[|xs| - 1], ys[|xs| - 1], dx, dy, x, y) && !Congruent(xs[|xs| - 1], dx)
    ensures Multiples(xs + [x], ys + [y], ls + [l], dx, dy)
  {
    var xs', ys', ls' := xs + [x], ys + [y], ls + [l];
    forall i | 0 < i < |xs'|
      ensures Linked(xs', ys', ls', dx, dy, i)
    {
      assert i < |xs| ==> Linked(xs, ys, ls, dx, dy, i);
    }
  }

  /** From the coordinates of (2i - 1) a to those of (2i + 1) a. */
  lemma NextCoordinates<T(!new)>(c: Curve<T>, a: T, i: nat, x1: int, y1: int, dx: int, dy: int) returns (l: int, x: int, y: int)
    requires IsCurve(c) && Fermat(P) && C.HasOrderN(c.g, a) && 1 <= i < 0x100000000
    requires SameAs(c, G.Times(c.g, 2 * (i - 1) + 1, a), x1, y1) && SameAs(c, G.Times(c.g, 2, a), dx, dy)
    ensures ChordLaw(l, x1, y1, dx, dy, x, y) && !Congruent(x1, dx) && SameAs(c, G.Times(c.g, 2 * i + 1, a), x, y)
  {
    var m := 2 * (i - 1) + 1;
    var p, d, s := G.Times(c.g, m, a), G.Times(c.g, 2, a), G.Times(c.g, m + 2, a);
    C.SmallMultiple(c.g, m, a);
    C.SmallMultiple(c.g, 2, a);
    C.SmallMultiple(c.g, m + 2, a);
    C.SmallMultiple(c.g, m - 2, a);
    G.TimesAdd(c.g, m, 2, a);
    G.TimesAdd(c.g, m, -2, a);
    G.TimesNeg(c.g, 2, a);
    DifferentX(c, p, d);
    var x3, y3;
    l, x3, y3 := LawOf(c, p, d);
    x, y := ChordThrough(l, c.x(p), c.y(p), c.x(d), c.y(d), x3, y3, x1, y1, dx, dy);
    CongruentTrans(x, x3, c.x(s));
    CongruentTrans(y, y3, c.y(s));
    if Congruent(x1, dx) {
      CongruentSym(x1, c.x(p));
      CongruentTrans(c.x(p), x1, dx);
      CongruentTrans(c.x(p), dx, c.x(d));
    }
  }

  // ---------- One z coordinate for all ----------

  /** A further factor: from z1 to z2 and on to w. */
  method Chained(zs: Fe, zr: Fe, ghost z1: int, ghost z2: int, ghost w: int) returns (r: Fe)
    requires Ratio(zr, z1, z2) && Ratio(zs, z2, w) && zs.magnitude <= 8 && zr.magnitude <= 8
    ensures Ratio(r, z1, w) && r.magnitude <= 8
  {
    ghost var q1, p1 :| Is(zr, q1) && Prod(z1, q1, p1) && Congruent(p1, z2);
    ghost var q2, p2 :| Is(zs, q2) && Prod(z2, q2, p2) && Congruent(p2, w);
    ghost var q := Times(q2, q1);
    r := FeMul(zs, zr, q2, q1, q);
    ghost var p := Times(z1, q);
    ChainedFactor(z1, q1, p1, z2, q2, p2, w, q, p);
  }

  lemma ChainedFactor(z1: int, q1: int, p1: int, z2: int, q2: int, p2: int, w: int, q: int, p: int)
    requires Prod(z1, q1, p1) && Congruent(p1, z2) && Prod(z2, q2, p2) && Congruent(p2, w) && Prod(q2, q1, q) && Prod(z1, q, p)
    ensures Congruent(p, w)
  {
    ProdIs(z1, q1, p1);
    ProdIs(z2, q2, p2);
    ProdIs(q2, q1, q);
    ProdIs(z1, q, p);
    CongruentScale(p1, z2, q2);
    assert q2 * (z1 * q1) == z1 * (q2 * q1) && q2 * z2 == z2 * q2;
    CongruentTrans(p, p2, w);
  }

  /** An entry brought to the common z coordinate w. */
  method BroughtTo(a: Gej, zs: Fe, ghost x: int, ghost y: int, ghost z: int, ghost w: int) returns (r: Ge)
    requires Entry(a, x, y, z) && Ratio(zs, z, w) && zs.magnitude <= 8
    ensures GeGood(r) && AtGeZ(r, x, y, w)
  {
    ghost var q, p :| Is(zs, q) && Prod(z, q, p) && Congruent(p, w);
    ghost var X, Y := ScaleTags(x, y, z);
    AtGeZIs(Ge(a.x, a.y, a.infinity), x, y, z, X, Y);
    ghost var X', Y' := ScaleTags(X, Y, q);
    var rx, ry := ScaleXY(a, zs, X, Y, q, X', Y');
    r := Ge(rx, ry, a.infinity);
    ScaledTwice(x, y, z, X, Y, q, X', Y', p);
    ghost var X'', Y'' := ScaleTags(x, y, w);
    OtherScale(x, y, p, w, X', Y', X'', Y'');
    Retag(rx, X', X'');
    Retag(ry, Y', Y'');
    IsWithin(rx, X'');
    IsWithin(ry, Y'');
    AtGeZIs(r, x, y, w, X'', Y'');
  }

  /** Scaling by congruent numbers. */
  lemma OtherScale(x: int, y: int, p: int, w: int, X: int, Y: int, X': int, Y': int)
    requires Scaled(x, y, p, X, Y) && Scaled(x, y, w, X', Y') && Congruent(p, w)
    ensures Congruent(X, X') && Congruent(Y, Y')
  {
    ScaledIs(x, y, p, X, Y);
    ScaledIs(x, y, w, X', Y');
    Factored(x, y, p);
    Factored(x, y, w);
    CongruentMul(p, w, p, w);
    CongruentMul(p * p, w * w, p, w);
    CongruentScale(p * p, w * w, x);
    CongruentScale(p * p * p, w * w * w, y);
    assert x * (p * p) == (p * p) * x && x * (w * w) == (w * w) * x;
    assert y * (p * p * p) == (p * p * p) * y && y * (w * w * w) == (w * w * w) * y;
  }

  /** ge_globalz_set_table_gej: all entries over the last z coordinate. */
  method GlobalZ(prej: seq<Gej>, zr: seq<Fe>, ghost xs: seq<int>, ghost ys: seq<int>, ghost zs: seq<int>) returns (pre: seq<Ge>, globalz: Fe)
    requires |prej| == |zr| == |xs| == |ys| == |zs| > 0
    requires forall i :: 0 <= i < |prej| ==> Entry(prej[i], xs[i], ys[i], zs[i]) && Within(zr[i]) && zr[i].magnitude <= 8
    requires forall i :: 0 < i < |prej| ==> Ratio(zr[i], zs[i - 1], zs[i])
    requires At(prej[|prej| - 1], xs[|prej| - 1], ys[|prej| - 1], zs[|prej| - 1])
    ensures Is(globalz, zs[|zs| - 1]) && globalz.magnitude <= 2 && |pre| == |prej|
    ensures AllOver(pre, xs, ys, 0, zs[|zs| - 1])
  {
    var n := |prej|;
    var i := n - 1;
    ghost var w := zs[i];
    assert Entry(prej[i], xs[i], ys[i], w);
    AtFinite(prej[i], xs[i], ys[i], w);
    pre := [Ge(prej[i].x, prej[i].y, false)];
    globalz := prej[i].z;
    ZOf(prej[i], xs[i], ys[i], w);
    var f := zr[i];
    while i > 0
      invariant 0 <= i < n && |pre| == n - i && f.magnitude <= 8
      invariant i == n - 1 ==> f == zr[i]
      invariant i < n - 1 ==> Ratio(f, zs[i], w)
      invariant AllOver(pre, xs, ys, i, w)
    {
      if i != n - 1 {
        f := Chained(f, zr[i], zs[i - 1], zs[i], w);
      }
      i := i - 1;
      var b := BroughtTo(prej[i], f, xs[i], ys[i], zs[i], w);
      OneMore(b, pre, xs, ys, i, w);
      pre := [b] + pre;
    }
  }

  /** The points are those from place i on, over w. */
  ghost predicate AllOver(pre: seq<Ge>, xs: seq<int>, ys: seq<int>, i: nat, w: int) {
    |xs| == |ys| == i + |pre| && forall k :: 0 <= k < |pre| ==> GeGood(pre[k]) && AtGeZ(pre[k], xs[i + k], ys[i + k], w)
  }

  lemma OneMore(b: Ge, pre: seq<Ge>, xs: seq<int>, ys: seq<int>, i: nat, w: int)
    requires AllOver(pre, xs, ys, i + 1, w) && GeGood(b) && AtGeZ(b, xs[i], ys[i], w)
    ensures AllOver([b] + pre, xs, ys, i, w)
  {
    var more := [b] + pre;
    forall k | 0 <= k < |more|
      ensures GeGood(more[k]) && AtGeZ(more[k], xs[i + k], ys[i + k], w)
    {
      if k > 0 {
        assert GeGood(pre[k - 1]) && AtGeZ(pre[k - 1], xs[i + 1 + (k - 1)], ys[i + 1 + (k - 1)], w);
      }
    }
  }

  /** The table of a: affine points of the isomorphic curve that goes with the z coordinate put out. */
  method OddTableOf<T(!new)>(n: nat, a: Gej, ghost c: Curve<T>, ghost p: T) returns (pre: seq<Ge>, globalz: Fe, ghost w: int)
    requires IsCurve(c) && Fermat(P) && C.HasOrderN(c.g, p) && 1 <= n < 0x100000000 && p != c.g.zero && Represents(c, a, p)
    ensures |pre| == n && Is(globalz, w) && globalz.magnitude <= 2 && !Congruent(w, 0)
    ensures forall i :: 0 <= i < n ==> GeAt(Iso(c, w), pre[i], G.Times(c.g, 2 * i + 1, p))
  {
    ghost var z := FiniteOf(c, a, p);
    ghost var l, dx, dy := LawOf(c, p, p);
    CongruentRefl(c.x(p));
    CongruentRefl(c.y(p));
    G.TimesOne(c.g, p);
    ghost var xs, ys, ls := LinkMultiples(c, p, n, dx, dy);
    var prej, zr;
    ghost var zs;
    prej, zr, zs := OddMultiplesTable(n, a, xs, ys, ls, z, l, dx, dy);
    pre, globalz := GlobalZ(prej, zr, xs, ys, zs);
    w := zs[n - 1];
    assert Entry(prej[n - 1], xs[n - 1], ys[n - 1], w);
    AllEntries(c, p, pre, xs, ys, w);
  }

  lemma AllEntries<T(!new)>(c: Curve<T>, p: T, pre: seq<Ge>, xs: seq<int>, ys: seq<int>, w: int)
    requires C.HasOrderN(c.g, p) && AllOver(pre, xs, ys, 0, w) && OddCoordinates(c, p, xs, ys) && |pre| < 0x100000000
    ensures forall i :: 0 <= i < |pre| ==> GeAt(Iso(c, w), pre[i], G.Times(c.g, 2 * i + 1, p))
  {
    forall i | 0 <= i < |pre|
      ensures GeAt(Iso(c, w), pre[i], G.Times(c.g, 2 * i + 1, p))
    {
      C.SmallMultiple(c.g, 2 * i + 1, p);
      assert AtGeZ(pre[i], xs[0 + i], ys[0 + i], w);
      EntryAt(c, w, pre[i], G.Times(c.g, 2 * i + 1, p), xs[i], ys[i]);
    }
  }

  lemma EntryAt<T(!new)>(c: Curve<T>, w: int, b: Ge, q: T, x: int, y: int)
    requires GeGood(b) && q != c.g.zero && AtGeZ(b, x, y, w) && SameAs(c, q, x, y)
    ensures GeAt(Iso(c, w), b, q)
  {
    var d := Iso(c, w);
    IsoScaled(c, w, q);
    var X, Y := ScaleTags(x, y, w);
    AtGeZIs(b, x, y, w, X, Y);
    ScaledCongruent(x, y, c.x(q), c.y(q), w, X, Y, d.x(q), d.y(q));
    Retag(b.x, X, d.x(q));
    Retag(b.y, Y, d.y(q));
    AtGeIs(b, d.x(q), d.y(q));
  }
}
