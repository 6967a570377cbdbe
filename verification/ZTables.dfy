/** Many inversions for the price of one, and tables of points brought to affine or to common z coordinates. */
module ZTables {
  import opened ModPow
  import opened Field5x52
  import opened AdditionChains
  import opened FieldElement
  import Jacobian

  /** A field element, by its residue mod p. */
  type F = v: int | 0 <= v < P

  datatype JPoint = JPoint(x: F, y: F, z: F, infinity: bool)
  datatype APoint = APoint(x: F, y: F, infinity: bool)

  /** a b mod p, folded so that the product itself is only seen where MulIs is called. */
  function Mul(a: F, b: F): F {
    Folded(a, b, 4)
  }

  function Folded(a: F, b: F, depth: nat): F
    decreases depth, a
  {
    if depth == 0 then (a * b) % P else Folded(a, b, depth - 1)
  }

  lemma MulIs(a: F, b: F)
    ensures Mul(a, b) == (a * b) % P
  {
    assert Folded(a, b, 4) == Folded(a, b, 3) == Folded(a, b, 2) == Folded(a, b, 1) == Folded(a, b, 0);
  }

  lemma MulAssoc(a: F, b: F, c: F)
    ensures Mul(Mul(a, b), c) == Mul(a, Mul(b, c))
  {
    MulModAssoc(a, b, c, P);
    MulIs(a, b);
    MulIs(Mul(a, b), c);
    MulIs(b, c);
    MulIs(a, Mul(b, c));
  }

  lemma MulComm(a: F, b: F)
    ensures Mul(a, b) == Mul(b, a)
  {
    MulIs(a, b);
    MulIs(b, a);
    assert a * b == b * a;
  }

  lemma MulOne(a: F)
    ensures Mul(1, a) == a == Mul(a, 1)
  {
    MulIs(1, a);
    MulIs(a, 1);
    ModIs(1 * a, P, 0, a);
    ModIs(a * 1, P, 0, a);
  }

  lemma MulZero(a: F)
    ensures Mul(0, a) == 0 == Mul(a, 0)
  {
    MulIs(0, a);
    MulIs(a, 0);
    assert 0 * a == 0 == a * 0;
  }

  // ---------- Batch inversion ----------

  /** The product of all the elements. */
  function Product(a: seq<F>): F {
    if a == [] then 1 else Mul(Product(a[..|a| - 1]), a[|a| - 1])
  }

  ghost predicate AllNonzero(a: seq<F>) {
    forall i :: 0 <= i < |a| ==> a[i] != 0
  }

  /** u is an inverse of v. */
  predicate Inverse(u: F, v: F) {
    Mul(u, v) == 1
  }

  /** The inverse that the library computes; 0 for 0. */
  lemma InverseOf(v: F, u: int)
    requires Fermat(P) && u == PowMod(P, v, P - 2)
    ensures 0 <= u < P && (if v == 0 then u == 0 else Inverse(u, v))
  {
    PowModRange(P, v, P - 2);
    if v != 0 {
      ModIs(v, P, 0, v);
      InverseIsInverse(P, v);
      MulIs(u, v);
    } else {
      PowModOfZero(P, P - 2);
    }
  }

  lemma ProductOfTwo(x: F, y: F)
    requires Fermat(P)
    ensures Mul(x, y) == 0 <==> x == 0 || y == 0
  {
    MulZero(x);
    MulZero(y);
    if x != 0 && Mul(x, y) == 0 {
      InverseOf(x, PowMod(P, x, P - 2));
      var e: F := PowMod(P, x, P - 2);
      MulAssoc(e, x, y);
      MulOne(y);
      MulZero(e);
    }
  }

  /** No product of nonzero elements vanishes. */
  lemma {:induction false} ProductNonzero(a: seq<F>)
    requires Fermat(P)
    ensures Product(a) != 0 <==> AllNonzero(a)
  {
    if a != [] {
      var b, last := a[..|a| - 1], a[|a| - 1];
      ProductNonzero(b);
      ProductOfTwo(Product(b), last);
      assert forall i :: 0 <= i < |b| ==> b[i] == a[i];
    }
  }

  /** From an inverse of p a: an inverse of a, and one of p. */
  lemma SplitInverse(p: F, a: F, u: F)
    requires Inverse(u, Mul(p, a))
    ensures Inverse(Mul(p, u), a) && Inverse(Mul(u, a), p)
  {
    MulComm(p, u);
    MulAssoc(u, p, a);
    MulComm(p, a);
    MulAssoc(u, a, p);
  }

  method FeInvAll(r: array<F>, a: seq<F>)
    requires Fermat(P) && |a| <= r.Length
    modifies r
    ensures AllNonzero(a) ==> forall i :: 0 <= i < |a| ==> Inverse(r[i], a[i])
    ensures !AllNonzero(a) ==> forall i :: 0 <= i < |a| ==> r[i] == 0
    ensures forall i :: |a| <= i < r.Length ==> r[i] == old(r[i])
  {
    if |a| < 1 {
      return;
    }
    Prefixes(r, a);
    assert a[..|a|] == a;
    ProductNonzero(a);
    var u := FeInv(r[|a| - 1]);
    InverseOf(r[|a| - 1], u);
    if u == 0 {
      ProductOfTwo(0, 0);
      MulOne(1);
    }
    Backwards(r, a, u);
  }

  /** r[i] becomes the product of the first i + 1 elements. */
  method Prefixes(r: array<F>, a: seq<F>)
    requires 0 < |a| <= r.Length
    modifies r
    ensures forall i :: 0 <= i < |a| ==> r[i] == Product(a[..i + 1])
    ensures forall i :: |a| <= i < r.Length ==> r[i] == old(r[i])
  {
    r[0] := a[0];
    FirstFactor(a);
    var i := 1;
    while i < |a|
      invariant 1 <= i <= |a|
      invariant forall k :: 0 <= k < i ==> r[k] == Product(a[..k + 1])
      invariant forall k :: |a| <= k < r.Length ==> r[k] == old(r[k])
    {
      assert a[..i + 1][..i] == a[..i];
      r[i] := Mul(r[i - 1], a[i]);
      i := i + 1;
    }
  }

  /** What u is while the inverses are handed out: the inverse of a prefix, or 0 if there is none. */
  predicate Remaining(u: F, p: F, zero: bool) {
    if zero then u == 0 else Inverse(u, p)
  }

  /** Each prefix product gives way to the inverse of its last factor. */
  method Backwards(r: array<F>, a: seq<F>, start: F)
    requires 0 < |a| <= r.Length && forall i :: 0 <= i < |a| ==> r[i] == Product(a[..i + 1])
    requires start == 0 || Inverse(start, Product(a))
    modifies r
    ensures forall i :: 0 <= i < |a| ==> if start == 0 then r[i] == 0 else Inverse(r[i], a[i])
    ensures forall i :: |a| <= i < r.Length ==> r[i] == old(r[i])
  {
    var u, i := start, |a| - 1;
    assert a[..|a|] == a;
    while i > 0
      invariant 0 <= i < |a| && Remaining(u, Product(a[..i + 1]), start == 0)
      invariant forall k :: 0 <= k <= i ==> r[k] == Product(a[..k + 1])
      invariant forall k :: i < k < |a| ==> if start == 0 then r[k] == 0 else Inverse(r[k], a[k])
      invariant forall k :: |a| <= k < r.Length ==> r[k] == old(r[k])
    {
      var j := i;
      i := i - 1;
      assert a[..j + 1][..j] == a[..j];
      HandOut(r[i], a[j], u, start == 0);
      r[j] := Mul(r[i], u);
      u := Mul(u, a[j]);
    }
    FirstFactor(a);
    r[0] := u;
  }

  lemma FirstFactor(a: seq<F>)
    requires |a| > 0
    ensures Product(a[..1]) == a[0]
  {
    assert a[..1][..0] == [];
    MulOne(a[0]);
  }

  lemma HandOut(p: F, a: F, u: F, zero: bool)
    requires Remaining(u, Mul(p, a), zero)
    ensures Remaining(Mul(p, u), a, zero) && Remaining(Mul(u, a), p, zero)
  {
    if zero {
      MulZero(p);
      MulZero(a);
    } else {
      SplitInverse(p, a, u);
    }
  }

  // ---------- From Jacobian to affine coordinates ----------

  function Sqr(a: F): F {
    Mul(a, a)
  }

  function Cube(a: F): F {
    Mul(Sqr(a), a)
  }

  /** ge_set_gej_zinv: divides by the square and the cube of what zi is the inverse of. */
  function SetZinv(a: JPoint, zi: F): APoint {
    APoint(Mul(a.x, Sqr(zi)), Mul(a.y, Cube(zi)), a.infinity)
  }

  /** The affine point r is a: x z^2 and y z^3 are its coordinates. */
  predicate IsAffine(r: APoint, a: JPoint) {
    && r.infinity == a.infinity
    && (!a.infinity ==> a.x == Mul(r.x, Sqr(a.z)) && a.y == Mul(r.y, Cube(a.z)))
  }

  /** (a b)(c d) = (a c)(b d) */
  lemma MulExchange(a: F, b: F, c: F, d: F)
    ensures Mul(Mul(a, b), Mul(c, d)) == Mul(Mul(a, c), Mul(b, d))
  {
    MulAssoc(a, b, Mul(c, d));
    MulAssoc(b, c, d);
    MulComm(b, c);
    MulAssoc(c, b, d);
    MulAssoc(a, c, Mul(b, d));
  }

  lemma PowersOfProduct(a: F, b: F)
    ensures Mul(Sqr(a), Sqr(b)) == Sqr(Mul(a, b)) && Mul(Cube(a), Cube(b)) == Cube(Mul(a, b))
  {
    MulExchange(a, a, b, b);
    MulExchange(Sqr(a), a, Sqr(b), b);
  }

  lemma ZinvIsAffine(a: JPoint, zi: F)
    requires Inverse(zi, a.z)
    ensures IsAffine(SetZinv(a, zi), a)
  {
    PowersOfProduct(zi, a.z);
    MulOne(1);
    MulAssoc(a.x, Sqr(zi), Sqr(a.z));
    MulAssoc(a.y, Cube(zi), Cube(a.z));
    MulOne(a.x);
    MulOne(a.y);
  }

  /** The z coordinates of the finite points. */
  function FiniteZs(a: seq<JPoint>): seq<F> {
    if a == [] then []
    else FiniteZs(a[..|a| - 1]) + if a[|a| - 1].infinity then [] else [a[|a| - 1].z]
  }

  /** A finite point's z stands where the count of the finite points before it says. */
  lemma {:induction false} FiniteZAt(a: seq<JPoint>, i: nat)
    requires i < |a|
    ensures |FiniteZs(a[..i + 1])| <= |FiniteZs(a)|
    ensures !a[i].infinity ==> |FiniteZs(a[..i])| < |FiniteZs(a)| && FiniteZs(a)[|FiniteZs(a[..i])|] == a[i].z
    ensures |FiniteZs(a[..i + 1])| == |FiniteZs(a[..i])| + if a[i].infinity then 0 else 1
    decreases |a|
  {
    assert a[..i + 1][..i] == a[..i];
    if i + 1 == |a| {
      assert a[..i + 1] == a;
    } else {
      var b := a[..|a| - 1];
      FiniteZAt(b, i);
      assert b[..i + 1] == a[..i + 1] && b[..i] == a[..i];
    }
  }

  /** Every finite point has a z coordinate other than 0. */
  ghost predicate ProperZs(a: seq<JPoint>) {
    forall i :: 0 <= i < |a| && !a[i].infinity ==> a[i].z != 0
  }

  lemma {:induction false} ProperNonzero(a: seq<JPoint>)
    requires ProperZs(a)
    ensures AllNonzero(FiniteZs(a))
  {
    if a != [] {
      ProperNonzero(a[..|a| - 1]);
    }
  }

  method GeSetAll(r: array<APoint>, a: seq<JPoint>)
    requires Fermat(P) && |a| <= r.Length
    modifies r
    ensures ProperZs(a) ==> forall i :: 0 <= i < |a| ==> IsAffine(r[i], a[i])
    ensures forall i :: 0 <= i < |a| && a[i].infinity ==> r[i] == old(r[i]).(infinity := true)
    ensures forall i :: |a| <= i < r.Length ==> r[i] == old(r[i])
  {
    var az: seq<F> := [];
    for i := 0 to |a|
      invariant az == FiniteZs(a[..i])
    {
      assert a[..i + 1][..i] == a[..i];
      if !a[i].infinity {
        az := az + [a[i].z];
      }
    }
    assert a[..|a|] == a;
    var azi := new F[|az|](_ => 0);
    FeInvAll(azi, az);
    if ProperZs(a) {
      ProperNonzero(a);
    }
    SpreadInverses(r, a, azi[..]);
  }

  method SpreadInverses(r: array<APoint>, a: seq<JPoint>, azi: seq<F>)
    requires |a| <= r.Length && |azi| == |FiniteZs(a)|
    modifies r
    ensures (forall k :: 0 <= k < |azi| ==> Inverse(azi[k], FiniteZs(a)[k])) ==> forall i :: 0 <= i < |a| ==> IsAffine(r[i], a[i])
    ensures forall i :: 0 <= i < |a| && a[i].infinity ==> r[i] == old(r[i]).(infinity := true)
    ensures forall i :: |a| <= i < r.Length ==> r[i] == old(r[i])
  {
    var count := 0;
    ghost var good := forall k :: 0 <= k < |azi| ==> Inverse(azi[k], FiniteZs(a)[k]);
    for i := 0 to |a|
      invariant count == |FiniteZs(a[..i])|
      invariant good ==> forall k :: 0 <= k < i ==> IsAffine(r[k], a[k])
      invariant forall k :: 0 <= k < i && a[k].infinity ==> r[k] == old(r[k]).(infinity := true)
      invariant forall k :: i <= k < r.Length ==> r[k] == old(r[k])
    {
      FiniteZAt(a, i);
      if a[i].infinity {
        r[i] := r[i].(infinity := true);
      } else {
        if good {
          ZinvIsAffine(a[i], azi[count]);
        }
        r[i] := SetZinv(a[i], azi[count]);
        count := count + 1;
      }
    }
  }

  // ---------- Tables whose z ratios are known ----------

  /** Each z coordinate is the one before times its ratio. */
  ghost predicate Ratios(a: seq<JPoint>, zr: seq<F>) {
    |zr| == |a| && forall i :: 0 < i < |a| ==> a[i].z == Mul(a[i - 1].z, zr[i])
  }

  method GeSetTable(r: array<APoint>, a: seq<JPoint>, zr: seq<F>)
    requires Fermat(P) && |a| <= r.Length && Ratios(a, zr)
    modifies r
    ensures a != [] && a[|a| - 1].z != 0 ==> forall i :: 0 <= i < |a| ==> IsAffine(r[i], a[i])
    ensures forall i :: |a| <= i < r.Length ==> r[i] == old(r[i])
  {
    if |a| > 0 {
      var i := |a| - 1;
      var zi := FeInv(a[i].z);
      InverseOf(a[i].z, zi);
      ghost var good := a[i].z != 0;
      r[i] := SetZinv(a[i], zi);
      if good {
        ZinvIsAffine(a[i], zi);
      }
      while i > 0
        invariant 0 <= i < |a| && 0 <= zi < P
        invariant good ==> Inverse(zi, a[i].z)
        invariant good ==> forall k :: i <= k < |a| ==> IsAffine(r[k], a[k])
        invariant forall k :: |a| <= k < r.Length ==> r[k] == old(r[k])
      {
        if good {
          SplitInverse(a[i - 1].z, zr[i], zi);
        }
        zi := Mul(zi, zr[i]);
        i := i - 1;
        r[i] := SetZinv(a[i], zi);
        if good {
          ZinvIsAffine(a[i], zi);
        }
      }
    }
  }

  /** r has the coordinates of a over the z coordinate gz: those of a are scaled by s where a.z s = gz. */
  ghost predicate Over(r: APoint, a: JPoint, gz: F) {
    exists s: F :: Mul(a.z, s) == gz && r.x == Mul(a.x, Sqr(s)) && r.y == Mul(a.y, Cube(s))
  }

  /** So r over gz is the affine point that a is. */
  lemma OverIsSame(r: APoint, a: JPoint, gz: F, p: APoint)
    requires Over(r, a, gz) && !a.infinity && IsAffine(p, a)
    ensures r.x == Mul(p.x, Sqr(gz)) && r.y == Mul(p.y, Cube(gz))
  {
    var s: F :| Mul(a.z, s) == gz && r.x == Mul(a.x, Sqr(s)) && r.y == Mul(a.y, Cube(s));
    PowersOfProduct(a.z, s);
    MulAssoc(p.x, Sqr(a.z), Sqr(s));
    MulAssoc(p.y, Cube(a.z), Cube(s));
  }

  /** b is the table a with the z coordinates that its points really have: the last one must be right in a. */
  predicate ProperTable(a: seq<JPoint>, b: seq<JPoint>) {
    && |b| == |a|
    && (forall i :: 0 <= i < |a| ==> a[i] == b[i].(z := a[i].z))
    && (a != [] ==> a[|a| - 1] == b[|b| - 1])
  }

  method GlobalZSetTable(r: array<APoint>, a: seq<JPoint>, zr: seq<F>, ghost b: seq<JPoint>) returns (globalz: F)
    requires |a| <= r.Length && ProperTable(a, b) && Ratios(b, zr)
    modifies r
    ensures a != [] ==> globalz == b[|b| - 1].z
    ensures forall i :: 0 <= i < |a| ==> Over(r[i], b[i], globalz)
    ensures forall i :: 0 <= i < |a| ==> r[i].infinity == (i < |a| - 1 && a[i].infinity)
    ensures forall i :: |a| <= i < r.Length ==> r[i] == old(r[i])
  {
    globalz := 0;
    if |a| > 0 {
      var i := |a| - 1;
      r[i] := APoint(a[i].x, a[i].y, false);
      globalz := a[i].z;
      var zs := zr[i];
      OverOne(r[i], b[i]);
      while i > 0
        invariant 0 <= i < |a| && globalz == b[|b| - 1].z
        invariant if i == |a| - 1 then zs == zr[i] else Mul(b[i].z, zs) == globalz
        invariant forall k :: i <= k < |a| ==> Over(r[k], b[k], globalz)
        invariant forall k :: i <= k < |a| ==> r[k].infinity == (k < |a| - 1 && a[k].infinity)
        invariant forall k :: |a| <= k < r.Length ==> r[k] == old(r[k])
      {
        ghost var before := zs;
        if i != |a| - 1 {
          zs := Mul(zs, zr[i]);
          MulComm(before, zr[i]);
          MulAssoc(b[i - 1].z, zr[i], before);
        }
        i := i - 1;
        r[i] := SetZinv(a[i], zs);
        assert Mul(b[i].z, zs) == globalz;
        assert Over(r[i], b[i], globalz);
      }
    }
  }

  lemma OverOne(r: APoint, a: JPoint)
    requires r.x == a.x && r.y == a.y
    ensures Over(r, a, a.z)
  {
    MulOne(a.z);
    MulOne(1);
    MulOne(a.x);
    MulOne(a.y);
    assert Mul(a.z, 1) == a.z && r.x == Mul(a.x, Sqr(1)) && r.y == Mul(a.y, Cube(1));
  }

  // ---------- The ratios that the additions put out ----------

  /** The residue that the limbs of a field element stand for. */
  function Residue(a: Fe): F
    requires |a.n| == 5
  {
    Value(a.n) % P
  }

  lemma ResidueIs(a: Fe, e: int)
    requires Is(a, e)
    ensures |a.n| == 5 && Residue(a) == e % P
  {
    Reveal(a, e);
    var q := Quotient(Value(a.n), e);
    ModShift(e, Value(a.n), P, q);
  }

  /** The ratios of the doubling and the additions are what the tables ask for. */
  lemma RatioIsProduct(az: Fe, ratio: Fe, rz: Fe)
    requires Jacobian.ZRatio(az, ratio, rz)
    ensures |az.n| == 5 && |ratio.n| == 5 && |rz.n| == 5 && Residue(rz) == Mul(Residue(az), Residue(ratio))
  {
    var z, q, p :| Is(az, z) && Is(ratio, q) && Prod(z, q, p) && Is(rz, p);
    ResidueIs(az, z);
    ResidueIs(ratio, q);
    ResidueIs(rz, p);
    ProdIs(z, q, p);
    MulModLeft(z, q, P);
    MulModRight(z % P, q, P);
    MulIs(Residue(az), Residue(ratio));
  }
}
