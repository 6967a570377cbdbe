/** The table of odd multiples as it is really built: on an isomorphic curve where twice the point is affine. */
module OddTable {
  import opened Notions
  import opened Field5x52
  import opened FieldElement
  import opened ModPow
  import opened AdditionChains
  import opened Jacobian
  import ZTables

  // ---------- The isomorphism (x, y) -> (c^2 x, c^3 y) ----------

  /** It takes lines to lines: the slope is multiplied by c. */
  lemma ChordMapped(l: int, x1: int, y1: int, x2: int, y2: int, x3: int, y3: int, c: int, m: int,
      X1: int, Y1: int, X2: int, Y2: int, X3: int, Y3: int)
    requires ChordLaw(l, x1, y1, x2, y2, x3, y3) && Prod(l, c, m)
    requires Scaled(x1, y1, c, X1, Y1) && Scaled(x2, y2, c, X2, Y2) && Scaled(x3, y3, c, X3, Y3)
    ensures ChordLaw(m, X1, Y1, X2, Y2, X3, Y3)
  {
    assert Opened();
    CongruentScale(l * (x2 - x1), y2 - y1, c * c * c);
    MappedSlope(l, x1, x2, c);
    MappedRise(y1, y2, c);
    MappedX(l, x1, x2, c);
    MappedY(l, x1, y1, x3, c);
  }

  lemma MappedSlope(l: int, x1: int, x2: int, c: int)
    ensures (c * c * c) * (l * (x2 - x1)) == (l * c) * (x2 * c * c - x1 * c * c)
  {
    var d := x2 - x1;
    assert x2 * c * c - x1 * c * c == d * (c * c);
    assert (c * c * c) * (l * d) == (l * c) * (d * (c * c));
  }

  lemma MappedRise(y1: int, y2: int, c: int)
    ensures (c * c * c) * (y2 - y1) == y2 * c * c * c - y1 * c * c * c
  {
  }

  lemma MappedX(l: int, x1: int, x2: int, c: int)
    ensures ThirdX(l, x1, x2) * c * c == ThirdX(l * c, x1 * c * c, x2 * c * c)
  {
    assert (l * l - x1 - x2) * c * c == (l * l) * (c * c) - x1 * c * c - x2 * c * c;
    assert (l * c) * (l * c) == (l * l) * (c * c);
  }

  lemma MappedY(l: int, x1: int, y1: int, x3: int, c: int)
    ensures ThirdY(l, x1, y1, x3) * c * c * c == ThirdY(l * c, x1 * c * c, y1 * c * c * c, x3 * c * c)
  {
    var d := x1 - x3;
    CubeOut(l * d, y1, c);
    SquareOut(x1, x3, c);
    SlopeOut(l, d, c);
  }

  lemma CubeOut(a: int, y: int, c: int)
    ensures (a - y) * c * c * c == a * (c * c * c) - y * c * c * c
  {
  }

  lemma SquareOut(x1: int, x3: int, c: int)
    ensures x1 * c * c - x3 * c * c == (x1 - x3) * (c * c)
  {
  }

  lemma SlopeOut(l: int, d: int, c: int)
    ensures (l * c) * (d * (c * c)) == (l * d) * (c * c * c)
  {
  }

  lemma StillDifferent(x1: int, y1: int, x2: int, y2: int, c: int, X1: int, Y1: int, X2: int, Y2: int)
    requires Fermat(P) && !Congruent(c, 0) && !Congruent(x1, x2) && Scaled(x1, y1, c, X1, Y1) && Scaled(x2, y2, c, X2, Y2)
    ensures !Congruent(X1, X2)
  {
    SameCoordinates(x1, y1, x2, y2, c, X1, Y1, X2, Y2);
    if Congruent(X1, X2) {
      CongruentSym(X1, X2);
      CongruentRefl(-X1);
      CongruentAdd(X2, X1, -X1, -X1);
    }
  }

  // ---------- The table ----------

  /** The points (x_i, y_i), each the one before plus (dx, dy), by lines of slope ls[i]. */
  ghost predicate Multiples(xs: seq<int>, ys: seq<int>, ls: seq<int>, dx: int, dy: int) {
    |xs| == |ys| == |ls| > 0 && forall i :: 0 < i < |xs| ==> Linked(xs, ys, ls, dx, dy, i)
  }

  ghost predicate Linked(xs: seq<int>, ys: seq<int>, ls: seq<int>, dx: int, dy: int, i: nat)
    requires |xs| == |ys| == |ls| && 0 < i < |xs|
  {
    ChordLaw(ls[i], xs[i - 1], ys[i - 1], dx, dy, xs[i], ys[i]) && !Congruent(xs[i - 1], dx)
  }

  /** p is (x, y) on the isomorphic curve, with z coordinate z other than 0. */
  ghost predicate Mapped(p: Gej, x: int, y: int, c: int, z: int) {
    Good(p) && !Congruent(z, 0) && exists X, Y :: Scaled(x, y, c, X, Y) && At(p, X, Y, z)
  }

  /** Over z c it is (x, y) itself. */
  ghost predicate Entry(p: Gej, x: int, y: int, w: int) {
    Good(p) && !Congruent(w, 0) && AtGeZ(Ge(p.x, p.y, p.infinity), x, y, w)
  }

  /** ratio takes z to w. */
  ghost predicate Ratio(ratio: Fe, z: int, w: int) {
    exists q, p :: Is(ratio, q) && Prod(z, q, p) && Congruent(p, w)
  }

  lemma SameNumber(a: Fe, e: int, f: int)
    requires Is(a, e) && Is(a, f)
    ensures Congruent(e, f)
  {
    Reveal(a, e);
    Reveal(a, f);
    CongruentSym(Value(a.n), e);
    CongruentTrans(e, Value(a.n), f);
  }

  lemma RatioOf(az: Fe, ratio: Fe, rz: Fe, z: int, w: int)
    requires ZRatio(az, ratio, rz) && Is(az, z) && Is(rz, w)
    ensures Ratio(ratio, z, w)
  {
    var z', q, p' :| Is(az, z') && Is(ratio, q) && Prod(z', q, p') && Is(rz, p');
    var p := Times(z, q);
    SameNumber(az, z, z');
    SameNumber(rz, p', w);
    ProdIs(z, q, p);
    ProdIs(z', q, p');
    CongruentRefl(q);
    CongruentMul(z, z', q, q);
    CongruentTrans(p, p', w);
  }

  /** The next multiple. */
  method NextEntry(prev: Gej, d: Ge, ghost x1: int, ghost y1: int, ghost z1: int, ghost c: int, ghost dx: int, ghost dy: int,
      ghost DX: int, ghost DY: int, ghost l: int, ghost x3: int, ghost y3: int)
    returns (p: Gej, ratio: Fe, ghost z3: int)
    requires Fermat(P) && !Congruent(c, 0) && Mapped(prev, x1, y1, c, z1) && GeGood(d)
    requires Scaled(dx, dy, c, DX, DY) && AtGe(d, DX, DY)
    requires ChordLaw(l, x1, y1, dx, dy, x3, y3) && !Congruent(x1, dx)
    ensures Mapped(p, x3, y3, c, z3) && Within(ratio) && ratio.magnitude <= 8 && Ratio(ratio, z1, z3)
  {
    ghost var X1, Y1 :| Scaled(x1, y1, c, X1, Y1) && At(prev, X1, Y1, z1);
    ghost var X3, Y3 := ScaleTags(x3, y3, c);
    ghost var m := Times(l, c);
    ChordMapped(l, x1, y1, dx, dy, x3, y3, c, m, X1, Y1, DX, DY, X3, Y3);
    StillDifferent(x1, y1, dx, dy, c, X1, Y1, DX, DY);
    p, ratio, z3 := GejAddGeVar(prev, d, X1, Y1, z1, DX, DY, m, X3, Y3);
    AtFinite(p, X3, Y3, z3);
    AtFinite(prev, X1, Y1, z1);
    ZOf(prev, X1, Y1, z1);
    ZOf(p, X3, Y3, z3);
    RatioOf(prev.z, ratio, p.z, z1, z3);
  }

  lemma ZOf(a: Gej, x: int, y: int, z: int)
    requires At(a, x, y, z)
    ensures Is(a.z, z)
  {
    assert Open(OfAt, 0);
  }

  /** ge_set_gej_zinv with a factor zi: the coordinates times its square and cube. */
  method ScaleXY(a: Gej, zi: Fe, ghost X: int, ghost Y: int, ghost c: int, ghost U: int, ghost S: int) returns (x: Fe, y: Fe)
    requires InRange(a) && Is(a.x, X) && Is(a.y, Y) && Is(zi, c) && zi.magnitude <= 8 && Scaled(X, Y, c, U, S)
    ensures Is(x, U) && Is(y, S) && x.magnitude == y.magnitude == 1
  {
    ghost var cc, ccc := CubeOf(X, Y, c, U, S);
    var zi2 := FeSqr(zi, c, cc);
    var zi3 := FeMul(zi2, zi, cc, c, ccc);
    x := FeMul(a.x, zi2, X, cc, U);
    y := FeMul(a.y, zi3, Y, ccc, S);
  }

  lemma CubeOf(X: int, Y: int, c: int, U: int, S: int) returns (cc: int, ccc: int)
    requires Scaled(X, Y, c, U, S)
    ensures Prod(c, c, cc) && Prod(cc, c, ccc) && Prod(X, cc, U) && Prod(Y, ccc, S)
  {
    assert Opened();
    cc := c * c;
    ccc := cc * c;
    assert X * (c * c) == X * c * c && Y * (c * c * c) == Y * c * c * c;
  }

  /** The order of two scalings does not matter. */
  lemma SwapScale(x: int, y: int, z: int, c: int, X: int, Y: int, U: int, S: int) returns (X': int, Y': int)
    requires Scaled(x, y, z, X, Y) && Scaled(X, Y, c, U, S)
    ensures Scaled(x, y, c, X', Y') && Scaled(X', Y', z, U, S)
  {
    X', Y' := ScaleTags(x, y, c);
    ScaledIs(x, y, z, X, Y);
    ScaledIs(X, Y, c, U, S);
    ScaledIs(x, y, c, X', Y');
    CrossIdentity(x, y, z, c);
    CrossIdentity(x, y, c, z);
    assert z * c == c * z;
    Grouped(x * z * z, y * z * z * z, c);
    Grouped(x * c * c, y * c * c * c, z);
    ScaledIs(X', Y', z, U, S);
  }

  lemma Grouped(x: int, y: int, z: int)
    ensures x * z * z == x * (z * z) && y * z * z * z == (y * (z * z)) * z
  {
  }

  /** Twice the point without its z coordinate: affine on the isomorphic curve. */
  lemma AffinePart(d: Gej, x: int, y: int, c: int) returns (X: int, Y: int)
    requires Good(d) && At(d, x, y, c)
    ensures Scaled(x, y, c, X, Y) && AtGe(Ge(d.x, d.y, false), X, Y) && GeGood(Ge(d.x, d.y, false)) && Is(d.z, c)
  {
    X, Y := ScaleTags(x, y, c);
    AtIs(d, x, y, c, X, Y);
    AtGeIs(Ge(d.x, d.y, false), X, Y);
  }

  /** The point itself, moved to the isomorphic curve with its z coordinate kept. */
  method FirstEntry(a: Gej, dz: Fe, ghost x: int, ghost y: int, ghost z: int, ghost c: int) returns (p: Gej)
    requires Good(a) && At(a, x, y, z) && !Congruent(z, 0) && Is(dz, c) && dz.magnitude <= 2
    ensures Mapped(p, x, y, c, z)
  {
    ghost var X, Y, Z := TagsOf(a, x, y, z);
    ghost var U, S := ScaleTags(X, Y, c);
    var px, py := ScaleXY(a, dz, X, Y, c, U, S);
    p := Gej(px, py, a.z, false);
    MakeGood(p, U, S, z);
    ghost var X', Y' := SwapScale(x, y, z, c, X, Y, U, S);
    AtIs(p, X', Y', z, U, S);
  }

  /** The loop of the table. */
  method BuildEntries(n: nat, p0: Gej, d: Ge, dz: Fe, ghost xs: seq<int>, ghost ys: seq<int>, ghost ls: seq<int>,
      ghost z: int, ghost c: int, ghost dx: int, ghost dy: int, ghost DX: int, ghost DY: int)
    returns (prej: seq<Gej>, zr: seq<Fe>, ghost iz: seq<int>)
    requires Fermat(P) && !Congruent(c, 0) && n == |xs| && Multiples(xs, ys, ls, dx, dy)
    requires Mapped(p0, xs[0], ys[0], c, z) && GeGood(d) && Scaled(dx, dy, c, DX, DY) && AtGe(d, DX, DY) && Within(dz) && dz.magnitude <= 8
    ensures |prej| == |zr| == |iz| == n
    ensures forall i :: 0 <= i < n ==> Mapped(prej[i], xs[i], ys[i], c, iz[i]) && Within(zr[i]) && zr[i].magnitude <= 8
    ensures forall i :: 0 < i < n ==> Ratio(zr[i], iz[i - 1], iz[i])
  {
    prej, zr, iz := [p0], [dz], [z];
    for i := 1 to n
      invariant |prej| == |zr| == |iz| == i
      invariant forall k :: 0 <= k < i ==> Mapped(prej[k], xs[k], ys[k], c, iz[k]) && Within(zr[k]) && zr[k].magnitude <= 8
      invariant forall k :: 0 < k < i ==> Ratio(zr[k], iz[k - 1], iz[k])
    {
      assert Linked(xs, ys, ls, dx, dy, i);
      var p, ratio;
      ghost var z3;
      p, ratio, z3 := NextEntry(prej[i - 1], d, xs[i - 1], ys[i - 1], iz[i - 1], c, dx, dy, DX, DY, ls[i], xs[i], ys[i]);
      prej, zr, iz := prej + [p], zr + [ratio], iz + [z3];
    }
  }

  /** Over w = z c, an entry of the isomorphic curve is the point itself. */
  lemma EntryOver(p: Gej, x: int, y: int, c: int, z: int, w: int)
    requires Fermat(P) && !Congruent(c, 0) && Mapped(p, x, y, c, z) && Prod(z, c, w)
    ensures Entry(p, x, y, w) && Is(p.z, z) && !p.infinity
  {
    var X, Y :| Scaled(x, y, c, X, Y) && At(p, X, Y, z);
    var U, S := ScaleTags(X, Y, z);
    AtIs(p, X, Y, z, U, S);
    ProductNonzero(z, c, w);
    ProdSwap(z, c, w);
    ScaledTwice(x, y, c, X, Y, z, U, S, w);
    AtGeZIs(Ge(p.x, p.y, p.infinity), x, y, w, U, S);
  }

  lemma ProdSwap(x: int, y: int, z: int)
    requires Prod(x, y, z)
    ensures Prod(y, x, z)
  {
    ProdIs(x, y, z);
    ProdIs(y, x, z);
    assert x * y == y * x;
  }

  lemma AtGeZIs(b: Ge, x: int, y: int, w: int, U: int, S: int)
    requires Scaled(x, y, w, U, S)
    ensures AtGeZ(b, x, y, w) <==> !b.infinity && Is(b.x, U) && Is(b.y, S)
  {
    assert Open(OfAtGeZ, 0) && Open(OfScaled, 0);
  }

  lemma RatioScaled(ratio: Fe, z: int, w: int, c: int, z': int, w': int)
    requires Ratio(ratio, z, w) && Prod(z, c, z') && Prod(w, c, w')
    ensures Ratio(ratio, z', w')
  {
    var q, p :| Is(ratio, q) && Prod(z, q, p) && Congruent(p, w);
    var p' := Times(z', q);
    ProdIs(z, c, z');
    ProdIs(w, c, w');
    ProdIs(z, q, p);
    ProdIs(z', q, p');
    CongruentScale(p, w, c);
    ThreeFactors(z, c, q);
    ThreeFactors(w, c, 1);
    assert c * w == w';
  }

  lemma ThreeFactors(z: int, c: int, q: int)
    ensures (z * c) * q == c * (z * q)
  {
  }

  /** The odd multiples of a: coordinates over z coordinates whose ratios are put out, and of which the last is stored. */
  method OddMultiplesTable(n: nat, a: Gej, ghost xs: seq<int>, ghost ys: seq<int>, ghost ls: seq<int>, ghost z: int,
      ghost l: int, ghost dx: int, ghost dy: int)
    returns (prej: seq<Gej>, zr: seq<Fe>, ghost zs: seq<int>)
    requires Fermat(P) && n == |xs| && Multiples(xs, ys, ls, dx, dy)
    requires Good(a) && At(a, xs[0], ys[0], z) && !Congruent(z, 0) && !Congruent(ys[0], 0) && TangentLaw(l, xs[0], ys[0], dx, dy)
    ensures |prej| == |zr| == |zs| == n
    ensures forall i :: 0 <= i < n ==> Entry(prej[i], xs[i], ys[i], zs[i]) && Within(zr[i]) && zr[i].magnitude <= 8
    ensures forall i :: 0 < i < n ==> Ratio(zr[i], zs[i - 1], zs[i])
    ensures At(prej[n - 1], xs[n - 1], ys[n - 1], zs[n - 1])
  {
    var d, rzr;
    ghost var c;
    d, rzr, c := GejDouble(a, xs[0], ys[0], z, l, dx, dy);
    ghost var DX, DY := AffinePart(d, dx, dy, c);
    var p0 := FirstEntry(a, d.z, xs[0], ys[0], z, c);
    ghost var iz;
    prej, zr, iz := BuildEntries(n, p0, Ge(d.x, d.y, false), d.z, xs, ys, ls, z, c, dx, dy, DX, DY);
    zs := AllTimes(iz, c);
    prej := LastZ(prej, zr, d.z, iz, c, zs, xs, ys);
  }

  lemma AllTimes(iz: seq<int>, c: int) returns (zs: seq<int>)
    ensures |zs| == |iz| && forall i :: 0 <= i < |iz| ==> Prod(iz[i], c, zs[i])
  {
    zs := seq(|iz|, i requires 0 <= i < |iz| => iz[i] * c);
    forall i | 0 <= i < |iz|
      ensures Prod(iz[i], c, zs[i])
    {
      ProdIs(iz[i], c, zs[i]);
    }
  }

  /** The z coordinates are too small by the factor of the isomorphism; the last one is put right. */
  method LastZ(prej0: seq<Gej>, zr: seq<Fe>, dz: Fe, ghost iz: seq<int>, ghost c: int, ghost zs: seq<int>, ghost xs: seq<int>, ghost ys: seq<int>)
    returns (prej: seq<Gej>)
    requires Fermat(P) && !Congruent(c, 0) && |prej0| == |zr| == |iz| == |zs| == |xs| == |ys| > 0 && Is(dz, c) && dz.magnitude <= 2
    requires forall i :: 0 <= i < |iz| ==> Mapped(prej0[i], xs[i], ys[i], c, iz[i]) && Prod(iz[i], c, zs[i])
    requires forall i :: 0 < i < |iz| ==> Ratio(zr[i], iz[i - 1], iz[i])
    ensures |prej| == |prej0|
    ensures forall i :: 0 <= i < |prej| ==> Entry(prej[i], xs[i], ys[i], zs[i])
    ensures forall i :: 0 < i < |prej| ==> Ratio(zr[i], zs[i - 1], zs[i])
    ensures At(prej[|prej| - 1], xs[|prej| - 1], ys[|prej| - 1], zs[|prej| - 1])
  {
    var m := |prej0| - 1;
    forall i | 0 <= i <= m
      ensures Entry(prej0[i], xs[i], ys[i], zs[i])
    {
      EntryOver(prej0[i], xs[i], ys[i], c, iz[i], zs[i]);
    }
    forall i | 0 < i <= m
      ensures Ratio(zr[i], zs[i - 1], zs[i])
    {
      RatioScaled(zr[i], iz[i - 1], iz[i], c, zs[i - 1], zs[i]);
    }
    EntryOver(prej0[m], xs[m], ys[m], c, iz[m], zs[m]);
    var last := PutZ(prej0[m], dz, xs[m], ys[m], iz[m], c, zs[m]);
    prej := prej0[m := last];
  }

  method PutZ(p: Gej, dz: Fe, ghost x: int, ghost y: int, ghost z: int, ghost c: int, ghost w: int) returns (r: Gej)
    requires Entry(p, x, y, w) && Is(p.z, z) && !p.infinity && Is(dz, c) && dz.magnitude <= 2 && Prod(z, c, w)
    ensures Entry(r, x, y, w) && At(r, x, y, w)
  {
    var rz := FeMul(p.z, dz, z, c, w);
    r := Gej(p.x, p.y, rz, p.infinity);
    IsWithin(rz, w);
    ghost var U, S := ScaleTags(x, y, w);
    AtGeZIs(Ge(p.x, p.y, p.infinity), x, y, w, U, S);
    AtIs(r, x, y, w, U, S);
  }

  // ---------- The table over one z coordinate ----------

  /** The residues of the coordinates. */
  function JOf(p: Gej): ZTables.JPoint
    requires FiveEach(p)
  {
    ZTables.JPoint(ZTables.Residue(p.x), ZTables.Residue(p.y), ZTables.Residue(p.z), p.infinity)
  }

  lemma FiveLimbs(a: Fe)
    requires Within(a)
    ensures |a.n| == 5
  {
    assert Open(OfWithin, 0);
  }

  lemma ResidueTimes(x: int, y: int)
    ensures ZTables.Mul(x % P, y % P) == (x * y) % P
  {
    ZTables.MulIs(x % P, y % P);
    MulModLeft(x, y % P, P);
    MulModRight(x, y, P);
  }

  /** x w^2 and y w^3 in residues. */
  lemma ResidueScaled(x: int, y: int, w: int)
    ensures (x * w * w) % P == ZTables.Mul(x % P, ZTables.Sqr(w % P))
    ensures (y * w * w * w) % P == ZTables.Mul(y % P, ZTables.Cube(w % P))
  {
    ResidueTimes(w, w);
    ResidueTimes(x, w * w);
    ResidueTimes(w * w, w);
    ResidueTimes(y, w * w * w);
    Grouped(x, y, w);
    assert y * (w * w * w) == (y * (w * w)) * w;
  }

  /** The point that the table's i-th entry is. */
  function PointAt(xs: seq<int>, ys: seq<int>, i: nat): ZTables.APoint
    requires i < |xs| == |ys|
  {
    ZTables.APoint(xs[i] % P, ys[i] % P, false)
  }

  lemma EntryIsAffine(p: Gej, x: int, y: int, w: int)
    requires Entry(p, x, y, w)
    ensures FiveEach(p) && !p.infinity
    ensures ZTables.IsAffine(ZTables.APoint(x % P, y % P, false), JOf(p).(z := w % P))
  {
    var U, S := ScaleTags(x, y, w);
    AtGeZIs(Ge(p.x, p.y, p.infinity), x, y, w, U, S);
    FiveLimbs(p.z);
    ZTables.ResidueIs(p.x, U);
    ZTables.ResidueIs(p.y, S);
    ScaledIs(x, y, w, U, S);
    ResidueScaled(x, y, w);
  }

  lemma RatioResidue(ratio: Fe, z: int, w: int)
    requires Ratio(ratio, z, w)
    ensures |ratio.n| == 5 && w % P == ZTables.Mul(z % P, ZTables.Residue(ratio))
  {
    var q, p :| Is(ratio, q) && Prod(z, q, p) && Congruent(p, w);
    ZTables.ResidueIs(ratio, q);
    ProdIs(z, q, p);
    ResidueTimes(z, q);
    var k := Quotient(p, w);
    ModShift(w, p, P, k);
  }

  /** The residues of the whole table, as ge_globalz_set_table_gej reads them. */
  method Residues(prej: seq<Gej>, zr: seq<Fe>, ghost xs: seq<int>, ghost ys: seq<int>, ghost zs: seq<int>)
    returns (a: seq<ZTables.JPoint>, rs: seq<ZTables.F>, ghost b: seq<ZTables.JPoint>)
    requires |prej| == |zr| == |xs| == |ys| == |zs| > 0
    requires forall i :: 0 <= i < |prej| ==> Entry(prej[i], xs[i], ys[i], zs[i]) && Within(zr[i])
    requires forall i :: 0 < i < |prej| ==> Ratio(zr[i], zs[i - 1], zs[i])
    requires At(prej[|prej| - 1], xs[|prej| - 1], ys[|prej| - 1], zs[|prej| - 1])
    ensures |a| == |prej| && ZTables.ProperTable(a, b) && ZTables.Ratios(b, rs)
    ensures forall i :: 0 <= i < |b| ==> ZTables.IsAffine(PointAt(xs, ys, i), b[i]) && !b[i].infinity
  {
    forall i | 0 <= i < |prej|
      ensures FiveEach(prej[i]) && |zr[i].n| == 5
    {
      EntryIsAffine(prej[i], xs[i], ys[i], zs[i]);
      FiveLimbs(zr[i]);
    }
    a := seq(|prej|, i requires 0 <= i < |prej| && FiveEach(prej[i]) => JOf(prej[i]));
    rs := seq(|zr|, i requires 0 <= i < |zr| && |zr[i].n| == 5 => ZTables.Residue(zr[i]));
    b := seq(|prej|, i requires 0 <= i < |prej| && i < |zs| && FiveEach(prej[i]) => JOf(prej[i]).(z := zs[i] % P));
    forall i | 0 <= i < |b|
      ensures ZTables.IsAffine(PointAt(xs, ys, i), b[i]) && !b[i].infinity
    {
      EntryIsAffine(prej[i], xs[i], ys[i], zs[i]);
    }
    forall i | 0 < i < |b|
      ensures b[i].z == ZTables.Mul(b[i - 1].z, rs[i])
    {
      RatioResidue(zr[i], zs[i - 1], zs[i]);
    }
    LastResidue(prej[|prej| - 1], xs[|prej| - 1], ys[|prej| - 1], zs[|prej| - 1]);
  }

  predicate FiveEach(p: Gej) {
    |p.x.n| == 5 && |p.y.n| == 5 && |p.z.n| == 5
  }

  lemma LastResidue(p: Gej, x: int, y: int, w: int)
    requires At(p, x, y, w)
    ensures |p.z.n| == 5 && ZTables.Residue(p.z) == w % P
  {
    ZOf(p, x, y, w);
    ZTables.ResidueIs(p.z, w);
  }

  /** The table that a multiplication uses: every odd multiple of a, in coordinates over one z coordinate. */
  method OddMultiplesGlobalZ(n: nat, pre: array<ZTables.APoint>, a: Gej, ghost xs: seq<int>, ghost ys: seq<int>, ghost ls: seq<int>,
      ghost z: int, ghost l: int, ghost dx: int, ghost dy: int)
    returns (globalz: ZTables.F)
    requires Fermat(P) && n == |xs| <= pre.Length && Multiples(xs, ys, ls, dx, dy)
    requires Good(a) && At(a, xs[0], ys[0], z) && !Congruent(z, 0) && !Congruent(ys[0], 0) && TangentLaw(l, xs[0], ys[0], dx, dy)
    modifies pre
    ensures forall i :: 0 <= i < n ==> pre[i].x == ZTables.Mul(xs[i] % P, ZTables.Sqr(globalz))
    ensures forall i :: 0 <= i < n ==> pre[i].y == ZTables.Mul(ys[i] % P, ZTables.Cube(globalz))
  {
    var prej, zr;
    ghost var zs, b;
    prej, zr, zs := OddMultiplesTable(n, a, xs, ys, ls, z, l, dx, dy);
    var ja, rs;
    ja, rs, b := Residues(prej, zr, xs, ys, zs);
    globalz := ZTables.GlobalZSetTable(pre, ja, rs, b);
    forall i | 0 <= i < n
      ensures pre[i].x == ZTables.Mul(xs[i] % P, ZTables.Sqr(globalz)) && pre[i].y == ZTables.Mul(ys[i] % P, ZTables.Cube(globalz))
    {
      ZTables.OverIsSame(pre[i], b[i], globalz, PointAt(xs, ys, i));
    }
  }
}
