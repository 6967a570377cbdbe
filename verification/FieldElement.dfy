/** Field elements with the magnitude that the library checks in its debugging builds, and what number each stands for. */
module FieldElement {
  import opened Notions
  import opened Bits
  import opened Field5x52
  import opened FieldNormalize
  import ModPow

  /** Limbs, and the magnitude that bounds them. */
  datatype Fe = Fe(n: seq<int>, magnitude: nat)

  /** The limbs keep to the magnitude and stand for e mod p. The definition is used only where Open is mentioned. */
  ghost predicate Is(a: Fe, e: int) {
    forall u: int {:trigger Open(OfIs, u)} :: Open(OfIs, u) ==> Magnitude(a.n, a.magnitude) && Congruent(Value(a.n), e)
  }

  /** x * y is z; used like Is, so that products stay out of the way until they are needed. */
  ghost predicate Prod(x: int, y: int, z: int) {
    forall u: int {:trigger Open(OfProd, u)} :: Open(OfProd, u) ==> x * y == z
  }

  lemma ProdIs(x: int, y: int, z: int)
    ensures x * y == z ==> Prod(x, y, z)
    ensures Prod(x, y, z) ==> x * y == z
  {
    assert Opened();
  }

  // ---------- Congruences ----------

  lemma CongruentRefl(x: int)
    ensures Congruent(x, x)
  {
    CongruentBy(x, x, 0);
  }

  lemma CongruentSym(x: int, y: int)
    requires Congruent(x, y)
    ensures Congruent(y, x)
  {
    var q := Quotient(x, y);
    CongruentBy(y, x, -q);
  }

  lemma CongruentTrans(x: int, y: int, z: int)
    requires Congruent(x, y) && Congruent(y, z)
    ensures Congruent(x, z)
  {
    var q := Quotient(x, y);
    var s := Quotient(y, z);
    CongruentBy(x, z, q + s);
  }

  lemma CongruentAdd(x: int, y: int, v: int, w: int)
    requires Congruent(x, y) && Congruent(v, w)
    ensures Congruent(x + v, y + w)
  {
    var q := Quotient(x, y);
    var s := Quotient(v, w);
    CongruentBy(x + v, y + w, q + s);
  }

  lemma CongruentScale(x: int, y: int, k: int)
    requires Congruent(x, y)
    ensures Congruent(k * x, k * y)
  {
    var q := Quotient(x, y);
    ScaleBy(x, q, y, k);
    CongruentBy(k * x, k * y, k * q);
  }

  lemma ScaleBy(x: int, q: int, y: int, k: int)
    requires x + q * P == y
    ensures k * x + (k * q) * P == k * y
  {
    assert k * (x + q * P) == k * x + k * (q * P);
    assert k * (q * P) == (k * q) * P;
  }

  lemma CongruentMul(x: int, y: int, v: int, w: int)
    requires Congruent(x, y) && Congruent(v, w)
    ensures Congruent(x * v, y * w)
  {
    CongruentScale(x, y, v);
    CongruentScale(v, w, y);
    assert v * x == x * v && v * y == y * v;
    CongruentTrans(x * v, y * v, y * w);
  }

  lemma ZeroIffMod(x: int)
    ensures Congruent(x, 0) <==> x % P == 0
  {
    if Congruent(x, 0) {
      var q := Quotient(x, 0);
      ModPow.ModIs(x, P, -q, 0);
    }
    if x % P == 0 {
      var q := x / P;
      CongruentBy(x, 0, -q);
    }
  }

  lemma ZeroCongruent(x: int, y: int)
    requires Congruent(x, y)
    ensures Congruent(x, 0) <==> Congruent(y, 0)
  {
    CongruentSym(x, y);
    if Congruent(x, 0) {
      CongruentTrans(y, x, 0);
    }
    if Congruent(y, 0) {
      CongruentTrans(x, y, 0);
    }
  }

  /** An element stands for every number congruent to one it stands for. */
  lemma Retag(a: Fe, e: int, f: int)
    requires Is(a, e) && Congruent(e, f)
    ensures Is(a, f)
  {
    assert Opened();
    CongruentTrans(Value(a.n), e, f);
  }

  lemma Established(a: Fe, e: int)
    requires Limbs(a.n, a.magnitude, e)
    ensures Is(a, e)
  {
  }

  // ---------- The operations ----------

  method ToArray(n: seq<int>) returns (r: array<int>)
    requires |n| == 5
    ensures fresh(r) && r.Length == 5 && r[..] == n
  {
    r := new int[5];
    r[0], r[1], r[2], r[3], r[4] := n[0], n[1], n[2], n[3], n[4];
    assert r[..] == n;
  }

  lemma ProductIs(r: int, x: int, y: int, ex: int, ey: int)
    requires Congruent(r, x * y) && Congruent(x, ex) && Congruent(y, ey)
    ensures Congruent(r, ex * ey)
  {
    CongruentMul(x, ex, y, ey);
    CongruentTrans(r, x * y, ex * ey);
  }

  /** The limbs within a magnitude that stand for e. */
  ghost predicate Limbs(n: seq<int>, m: int, e: int) {
    Magnitude(n, m) && Congruent(Value(n), e)
  }

  lemma Reveal(a: Fe, e: int)
    requires Is(a, e)
    ensures Limbs(a.n, a.magnitude, e)
  {
    assert Opened();
  }

  method MulLimbs(x: seq<int>, y: seq<int>, ghost ex: int, ghost ey: int) returns (z: seq<int>)
    requires Limbs(x, 8, ex) && Limbs(y, 8, ey)
    ensures Limbs(z, 1, ex * ey)
  {
    var a := ToArray(x);
    var b := ToArray(y);
    var r := new int[5];
    FeMulInner(r, a, b);
    z := r[..];
    ProductIs(Value(z), Value(x), Value(y), ex, ey);
  }

  method SqrLimbs(x: seq<int>, ghost ex: int) returns (z: seq<int>)
    requires Limbs(x, 8, ex)
    ensures Limbs(z, 1, ex * ex)
  {
    var a := ToArray(x);
    var r := new int[5];
    FeSqrInner(r, a);
    z := r[..];
    ProductIs(Value(z), Value(x), Value(x), ex, ex);
  }

  lemma WithinMore(n: seq<int>, m: int, k: int)
    requires Magnitude(n, m) && m <= k
    ensures Magnitude(n, k)
  {
  }

  method FeMul(a: Fe, b: Fe, ghost ea: int, ghost eb: int, ghost e: int) returns (r: Fe)
    requires Is(a, ea) && Is(b, eb) && Prod(ea, eb, e) && a.magnitude <= 8 && b.magnitude <= 8
    ensures Is(r, e) && r.magnitude == 1
  {
    ProdIs(ea, eb, e);
    Reveal(a, ea);
    Reveal(b, eb);
    WithinMore(a.n, a.magnitude, 8);
    WithinMore(b.n, b.magnitude, 8);
    var z := MulLimbs(a.n, b.n, ea, eb);
    r := Fe(z, 1);
    Established(r, ea * eb);
  }

  method FeSqr(a: Fe, ghost ea: int, ghost e: int) returns (r: Fe)
    requires Is(a, ea) && Prod(ea, ea, e) && a.magnitude <= 8
    ensures Is(r, e) && r.magnitude == 1
  {
    ProdIs(ea, ea, e);
    Reveal(a, ea);
    WithinMore(a.n, a.magnitude, 8);
    var z := SqrLimbs(a.n, ea);
    r := Fe(z, 1);
    Established(r, ea * ea);
  }

  method AddLimbs(x: seq<int>, y: seq<int>, ghost m: nat, ghost k: nat) returns (z: seq<int>)
    requires Magnitude(x, m) && Magnitude(y, k) && m + k <= 31
    ensures Magnitude(z, m + k) && Value(z) == Value(x) + Value(y)
  {
    LimbSum(x[0], y[0], 0xFFFFFFFFFFFFF * 2, m, k);
    LimbSum(x[1], y[1], 0xFFFFFFFFFFFFF * 2, m, k);
    LimbSum(x[2], y[2], 0xFFFFFFFFFFFFF * 2, m, k);
    LimbSum(x[3], y[3], 0xFFFFFFFFFFFFF * 2, m, k);
    LimbSum(x[4], y[4], 0x0FFFFFFFFFFFF * 2, m, k);
    z := [U64(x[0] + y[0]), U64(x[1] + y[1]), U64(x[2] + y[2]), U64(x[3] + y[3]), U64(x[4] + y[4])];
    SumValue(x[0], x[1], x[2], x[3], x[4], y[0], y[1], y[2], y[3], y[4]);
  }

  lemma LimbSum(x: int, y: int, c: int, m: nat, k: nat)
    requires 0 <= x <= c * m && 0 <= y <= c * k && 0 <= c < 0x20000000000000 && m + k <= 31
    ensures 0 <= x + y <= c * (m + k) && x + y < 0x1_00000000_00000000
  {
    assert c * (m + k) == c * m + c * k;
    assert c * (m + k) <= c * 31;
  }

  lemma SumValue(a0: int, a1: int, a2: int, a3: int, a4: int, b0: int, b1: int, b2: int, b3: int, b4: int)
    ensures Value5(a0 + b0, a1 + b1, a2 + b2, a3 + b3, a4 + b4) == Value5(a0, a1, a2, a3, a4) + Value5(b0, b1, b2, b3, b4)
  {
  }

  method FeAdd(a: Fe, b: Fe, ghost ea: int, ghost eb: int) returns (r: Fe)
    requires Is(a, ea) && Is(b, eb) && a.magnitude + b.magnitude <= 31
    ensures Is(r, ea + eb) && r.magnitude == a.magnitude + b.magnitude
  {
    Reveal(a, ea);
    Reveal(b, eb);
    var z := AddLimbs(a.n, b.n, a.magnitude, b.magnitude);
    r := Fe(z, a.magnitude + b.magnitude);
    CongruentAdd(Value(a.n), ea, Value(b.n), eb);
    Established(r, ea + eb);
  }

  method FeMulInt(a: Fe, k: nat, ghost ea: int) returns (r: Fe)
    requires Is(a, ea) && a.magnitude * k <= 31
    ensures Is(r, k * ea) && r.magnitude == a.magnitude * k
  {
    Reveal(a, ea);
    var z := TimesLimbs(a.n, k, a.magnitude, ea);
    r := Fe(z, MagnitudeTimes(a.magnitude, k));
    Established(r, k * ea);
  }

  function MagnitudeTimes(m: nat, k: nat): (r: nat)
    ensures r == m * k
  {
    m * k
  }

  method TimesLimbs(x: seq<int>, k: nat, ghost m: nat, ghost e: int) returns (z: seq<int>)
    requires Limbs(x, m, e) && m * k <= 31
    ensures Limbs(z, m * k, k * e)
  {
    ScaledLimbs(x, m, k);
    z := [U64(x[0] * k), U64(x[1] * k), U64(x[2] * k), U64(x[3] * k), U64(x[4] * k)];
    ScaledValue(x[0], x[1], x[2], x[3], x[4], k);
    CongruentScale(Value5(x[0], x[1], x[2], x[3], x[4]), e, k);
  }

  lemma ScaledValue(n0: int, n1: int, n2: int, n3: int, n4: int, k: int)
    ensures Value5(n0 * k, n1 * k, n2 * k, n3 * k, n4 * k) == k * Value5(n0, n1, n2, n3, n4)
  {
    Distribute(k, n0, n1, n2, n3, n4);
  }

  lemma ScaledLimbs(n: seq<int>, m: nat, k: nat)
    requires Magnitude(n, m)
    ensures Magnitude([n[0] * k, n[1] * k, n[2] * k, n[3] * k, n[4] * k], m * k)
  {
    ScaledLimb(n[0], 0xFFFFFFFFFFFFF * 2, m, k);
    ScaledLimb(n[1], 0xFFFFFFFFFFFFF * 2, m, k);
    ScaledLimb(n[2], 0xFFFFFFFFFFFFF * 2, m, k);
    ScaledLimb(n[3], 0xFFFFFFFFFFFFF * 2, m, k);
    ScaledLimb(n[4], 0x0FFFFFFFFFFFF * 2, m, k);
  }

  lemma ScaledLimb(x: int, c: int, m: nat, k: nat)
    requires 0 <= x <= c * m
    ensures 0 <= x * k <= c * (m * k)
  {
    assert x * k <= (c * m) * k;
    assert (c * m) * k == c * (m * k);
  }

  /** 2 * (m + 1) * p - x, limb by limb: nothing is borrowed. */
  method NegateLimbs(x: seq<int>, m: nat) returns (z: seq<int>)
    requires Magnitude(x, m) && m <= 30
    ensures Magnitude(z, m + 1) && Value(z) == (2 * (m + 1)) * P - Value(x)
  {
    var k := 2 * (m + 1);
    z := [U64(0xFFFFEFFFFFC2F * k - x[0]), U64(0xFFFFFFFFFFFFF * k - x[1]), U64(0xFFFFFFFFFFFFF * k - x[2]),
        U64(0xFFFFFFFFFFFFF * k - x[3]), U64(0x0FFFFFFFFFFFF * k - x[4])];
  }

  lemma NegativeIs(r: int, k: int, x: int, e: int)
    requires r == k * P - x && Congruent(x, e)
    ensures Congruent(r, -e)
  {
    var q := Quotient(x, e);
    CongruentBy(r, -e, -k - q);
  }

  method FeNegate(a: Fe, m: nat, ghost ea: int) returns (r: Fe)
    requires Is(a, ea) && a.magnitude <= m <= 30
    ensures Is(r, -ea) && r.magnitude == m + 1
  {
    Reveal(a, ea);
    WithinMore(a.n, a.magnitude, m);
    var z := NegateLimbs(a.n, m);
    r := Fe(z, m + 1);
    NegativeIs(Value(z), 2 * (m + 1), Value(a.n), ea);
    Established(r, -ea);
  }

  method FeNormalizeWeakly(a: Fe, ghost ea: int) returns (r: Fe)
    requires Is(a, ea) && a.magnitude <= 31
    ensures Is(r, ea) && r.magnitude == 1
  {
    assert Opened();
    var x := ToArray(a.n);
    FeNormalizeWeak(x);
    r := Fe(x[..], 1);
    CongruentTrans(Value(r.n), Value(a.n), ea);
    Established(r, ea);
  }

  method FeIsZeroMod(a: Fe, ghost ea: int) returns (zero: bool)
    requires Is(a, ea) && a.magnitude <= 31
    ensures zero <==> Congruent(ea, 0)
  {
    assert Opened();
    zero := FeNormalizesToZero(a.n);
    ZeroIffMod(Value(a.n));
    ZeroCongruent(Value(a.n), ea);
  }

  method FeSetInt(k: nat) returns (r: Fe)
    requires k < 0x1000000
    ensures Is(r, k) && r.magnitude == 1
  {
    r := Fe([k, 0, 0, 0, 0], 1);
    CongruentRefl(k);
    Established(r, k);
  }

  /** a or r; the magnitude is the larger one. */
  method FeCmov(r: Fe, a: Fe, flag: bool, ghost er: int, ghost ea: int) returns (s: Fe)
    requires Is(r, er) && Is(a, ea)
    ensures Is(s, if flag then ea else er)
    ensures s.magnitude == if a.magnitude > r.magnitude then a.magnitude else r.magnitude
  {
    var m := if a.magnitude > r.magnitude then a.magnitude else r.magnitude;
    if flag {
      s := Fe(a.n, m);
      Reveal(a, ea);
      WithinMore(a.n, a.magnitude, m);
      Established(s, ea);
    } else {
      s := Fe(r.n, m);
      Reveal(r, er);
      WithinMore(r.n, r.magnitude, m);
      Established(s, er);
    }
  }

  /** The limbs keep to the magnitude; used like Is. */
  ghost predicate Within(a: Fe) {
    forall u: int {:trigger Open(OfWithin, u)} :: Open(OfWithin, u) ==> Magnitude(a.n, a.magnitude)
  }

  /** A number that the element stands for. */
  lemma AnyTag(a: Fe) returns (e: int)
    requires Within(a)
    ensures Is(a, e)
  {
    assert Opened();
    e := Value(a.n);
    CongruentRefl(e);
    Established(a, e);
  }

  lemma IsWithin(a: Fe, e: int)
    requires Is(a, e)
    ensures Within(a)
  {
    assert Opened();
  }
}
