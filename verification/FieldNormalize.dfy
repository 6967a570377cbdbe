/** Field elements of five 52-bit limbs: normalization and the tests for zero. */
module FieldNormalize {
  import opened Bits
  import opened Field5x52
  import ModPow

  /** Limbs within magnitude m: at most 2*m times the full 52-bit (48-bit for the top) mask. */
  predicate Magnitude(n: seq<int>, m: int) {
    |n| == 5
    && 0 <= n[0] <= 0xFFFFFFFFFFFFF * 2 * m && 0 <= n[1] <= 0xFFFFFFFFFFFFF * 2 * m
    && 0 <= n[2] <= 0xFFFFFFFFFFFFF * 2 * m && 0 <= n[3] <= 0xFFFFFFFFFFFFF * 2 * m
    && 0 <= n[4] <= 0x0FFFFFFFFFFFF * 2 * m
  }

  predicate Normalized(n: seq<int>) {
    |n| == 5
    && 0 <= n[0] < 0x10000000000000 && 0 <= n[1] < 0x10000000000000
    && 0 <= n[2] < 0x10000000000000 && 0 <= n[3] < 0x10000000000000
    && 0 <= n[4] < 0x1000000000000
    && Value(n) < P
  }

  /** One carry pass: t0 receives x times 2^256 mod p, and every limb passes its excess up. */
  method CarryPass(t: seq<int>, x: int) returns (r: seq<int>)
    requires |t| == 5
    requires 0 <= t[0] + x * 0x1000003D1 < 0x1_00000000_00000000
    requires 0 <= x && forall i :: 0 <= i < 5 ==> 0 <= t[i] <= 0xFFFFFFFFFFFFF * 4094
    ensures |r| == 5
    ensures 0 <= r[0] < 0x10000000000000 && 0 <= r[1] < 0x10000000000000
    ensures 0 <= r[2] < 0x10000000000000 && 0 <= r[3] < 0x10000000000000
    ensures t[4] <= r[4] <= t[4] + 4095
    ensures Value(r) == Value(t) + x * 0x1000003D1
    ensures r[0] == (t[0] + x * 0x1000003D1) % 0x10000000000000
  {
    var t0, t1, t2, t3, t4 := t[0], t[1], t[2], t[3], t[4];
    t0 := U64(t0 + x * 0x1000003D1);
    t1 := U64(t1 + t0 / 0x10000000000000); t0 := t0 % 0x10000000000000;
    t2 := U64(t2 + t1 / 0x10000000000000); t1 := t1 % 0x10000000000000;
    t3 := U64(t3 + t2 / 0x10000000000000); t2 := t2 % 0x10000000000000;
    t4 := U64(t4 + t3 / 0x10000000000000); t3 := t3 % 0x10000000000000;
    r := [t0, t1, t2, t3, t4];
  }

  /** Limbs in their range, but for a carry at bit 48 of the top limb (bit 256 of the element). */
  predicate FirstPassed(t: seq<int>) {
    |t| == 5
    && 0 <= t[0] < 0x10000000000000 && 0 <= t[1] < 0x10000000000000
    && 0 <= t[2] < 0x10000000000000 && 0 <= t[3] < 0x10000000000000
    && 0 <= t[4] < 0x1000000000000 + 4096
  }

  method FirstPass(n: seq<int>) returns (t: seq<int>, ghost x: int)
    requires Magnitude(n, 2047)
    ensures FirstPassed(t) && 0 <= x
    ensures Value(t) + x * P == Value(n)
    ensures t[0] == (n[0] + n[4] / 0x1000000000000 * 0x1000003D1) % 0x10000000000000
  {
    var x0, t4 := n[4] / 0x1000000000000, n[4] % 0x1000000000000;
    x := x0;
    t := CarryPass([n[0], n[1], n[2], n[3], t4], x0);
  }

  /** A value after the first pass reaches p exactly when bit 256 is set or all limbs are at their largest. */
  lemma ReachesP(t0: int, t1: int, t2: int, t3: int, t4: int)
    requires 0 <= t0 < 0x10000000000000 && 0 <= t1 < 0x10000000000000
    requires 0 <= t2 < 0x10000000000000 && 0 <= t3 < 0x10000000000000
    requires 0 <= t4 < 0x1000000000000 + 4096
    ensures Value5(t0, t1, t2, t3, t4) >= P <==>
      t4 / 0x1000000000000 == 1
      || (t4 == 0x0FFFFFFFFFFFF && t1 == 0xFFFFFFFFFFFFF && t2 == 0xFFFFFFFFFFFFF && t3 == 0xFFFFFFFFFFFFF
          && t0 >= 0xFFFFEFFFFFC2F)
    ensures 0 <= Value5(t0, t1, t2, t3, t4) < 2 * P
  {
  }

  /** The two tests on the limbs after the first pass, with the running mask m of the source. */
  method NeedsReduction(t: seq<int>) returns (x: int)
    requires FirstPassed(t)
    ensures x == (if Value(t) >= P then 1 else 0)
    ensures Value(t) < 2 * P
  {
    var m := And(And(t[1], t[2]), t[3]);
    Limb52(t[1], t[2]);
    Limb52(And(t[1], t[2]), t[3]);
    ReachesP(t[0], t[1], t[2], t[3], t[4]);
    x := if t[4] / 0x1000000000000 == 1
           || (t[4] == 0x0FFFFFFFFFFFF && m == 0xFFFFFFFFFFFFF && t[0] >= 0xFFFFEFFFFFC2F) then 1 else 0;
  }

  lemma MaskTop(s0: int, s1: int, s2: int, s3: int, s4: int, v: int, x: int)
    requires 0 <= s0 < 0x10000000000000 && 0 <= s1 < 0x10000000000000
    requires 0 <= s2 < 0x10000000000000 && 0 <= s3 < 0x10000000000000 && 0 <= s4
    requires 0 <= v < 2 * P && x == (if v >= P then 1 else 0)
    requires Value5(s0, s1, s2, s3, s4) == v + x * 0x1000003D1
    ensures s4 / 0x1000000000000 == x
    ensures Value5(s0, s1, s2, s3, s4 % 0x1000000000000) == v - x * P
  {
  }

  /** The final reduction: adds x times 2^256 - p and masks bit 256 off. */
  method FinalReduction(t: seq<int>, x: int) returns (s: seq<int>)
    requires FirstPassed(t) && 0 <= Value(t) < 2 * P && x == (if Value(t) >= P then 1 else 0)
    ensures Normalized(s) && Value(s) + x * P == Value(t)
  {
    s := CarryPass(t, x);
    MaskTop(s[0], s[1], s[2], s[3], s[4], Value(t), x);
    var t4 := s[4] % 0x1000000000000;
    s := [s[0], s[1], s[2], s[3], t4];
  }

  lemma Chain(u: int, x: int, v: int, q: int, w: int)
    requires u + x * P == v && v + q * P == w
    ensures Congruent(u, w)
  {
    CongruentBy(u, w, x + q);
  }

  method FeNormalize(r: array<int>)
    requires r.Length == 5 && Magnitude(r[..], 2047)
    modifies r
    ensures Normalized(r[..]) && Congruent(Value(r[..]), old(Value(r[..])))
  {
    var t, q := FirstPass(r[..]);
    var x := NeedsReduction(t);
    var s := FinalReduction(t, x);
    Chain(Value(s), x, Value(t), q, Value(r[..]));
    r[0], r[1], r[2], r[3], r[4] := s[0], s[1], s[2], s[3], s[4];
    assert r[..] == s;
  }

  method FeNormalizeVar(r: array<int>)
    requires r.Length == 5 && Magnitude(r[..], 2047)
    modifies r
    ensures Normalized(r[..]) && Congruent(Value(r[..]), old(Value(r[..])))
  {
    var t, q := FirstPass(r[..]);
    var x := NeedsReduction(t);
    var s := t;
    if x != 0 {
      s := FinalReduction(t, 1);
    } else {
      ReachesP(t[0], t[1], t[2], t[3], t[4]);
    }
    Chain(Value(s), x, Value(t), q, Value(r[..]));
    r[0], r[1], r[2], r[3], r[4] := s[0], s[1], s[2], s[3], s[4];
    assert r[..] == s;
  }

  method FeNormalizeWeak(r: array<int>)
    requires r.Length == 5 && Magnitude(r[..], 2047)
    modifies r
    ensures Magnitude(r[..], 1) && Congruent(Value(r[..]), old(Value(r[..])))
  {
    var t, q := FirstPass(r[..]);
    r[0], r[1], r[2], r[3], r[4] := t[0], t[1], t[2], t[3], t[4];
    assert r[..] == t;
  }

  /** After the first pass a value is 0 mod p exactly when it is 0 or p. */
  lemma ZeroOrP(t: seq<int>, v: int, q: int)
    requires FirstPassed(t) && Value(t) + q * P == v
    ensures v % P == 0 <==> Value(t) == 0 || Value(t) == P
    ensures Value(t) == 0 <==> t[0] == 0 && t[1] == 0 && t[2] == 0 && t[3] == 0 && t[4] == 0
    ensures Value(t) == P <==> t == [0xFFFFEFFFFFC2F, 0xFFFFFFFFFFFFF, 0xFFFFFFFFFFFFF, 0xFFFFFFFFFFFFF, 0x0FFFFFFFFFFFF]
  {
    ReachesP(t[0], t[1], t[2], t[3], t[4]);
    LimbsOfP(t[0], t[1], t[2], t[3], t[4]);
    assert |t| == 5 && t == [t[0], t[1], t[2], t[3], t[4]];
    BelowTwoP(Value5(t[0], t[1], t[2], t[3], t[4]), q, v);
  }

  lemma BelowTwoP(w: int, q: int, v: int)
    requires w + q * P == v && 0 <= w < 2 * P
    ensures v % P == 0 <==> w == 0 || w == P
  {
    ModPow.ModShift(v, w, P, q);
  }

  lemma PeelLimb(x: int, hi: int, y: int, lo: int)
    requires 0 <= x < 0x10000000000000 && 0 <= y < 0x10000000000000
    requires x + hi * 0x10000000000000 == y + lo * 0x10000000000000
    ensures x == y && hi == lo
  {
  }

  /** Limbs in range are determined by their value. */
  lemma SameLimbs(a0: int, a1: int, a2: int, a3: int, a4: int, b0: int, b1: int, b2: int, b3: int, b4: int)
    requires 0 <= a0 < 0x10000000000000 && 0 <= a1 < 0x10000000000000 && 0 <= a2 < 0x10000000000000 && 0 <= a3 < 0x10000000000000
    requires 0 <= b0 < 0x10000000000000 && 0 <= b1 < 0x10000000000000 && 0 <= b2 < 0x10000000000000 && 0 <= b3 < 0x10000000000000
    requires Value5(a0, a1, a2, a3, a4) == Value5(b0, b1, b2, b3, b4)
    ensures a0 == b0 && a1 == b1 && a2 == b2 && a3 == b3 && a4 == b4
  {
    var a34, b34 := a3 + a4 * 0x10000000000000, b3 + b4 * 0x10000000000000;
    var a24, b24 := a2 + a34 * 0x10000000000000, b2 + b34 * 0x10000000000000;
    PeelLimb(a0, a1 + a24 * 0x10000000000000, b0, b1 + b24 * 0x10000000000000);
    PeelLimb(a1, a24, b1, b24);
    PeelLimb(a2, a34, b2, b34);
    PeelLimb(a3, a4, b3, b4);
  }

  /** Normalized limbs are the only ones of their residue. */
  lemma NormalizedUnique(a: seq<int>, b: seq<int>)
    requires Normalized(a) && Normalized(b) && Congruent(Value(a), Value(b))
    ensures a == b
  {
    var q := Quotient(Value(a), Value(b));
    WithinOneP(Value(a), Value(b), q);
    SameLimbs(a[0], a[1], a[2], a[3], a[4], b[0], b[1], b[2], b[3], b[4]);
  }

  lemma WithinOneP(v: int, w: int, q: int)
    requires v + q * P == w && 0 <= v < P && 0 <= w < P
    ensures v == w
  {
  }

  /** 0 and p have one form each. */
  lemma LimbsOfP(t0: int, t1: int, t2: int, t3: int, t4: int)
    requires 0 <= t0 < 0x10000000000000 && 0 <= t1 < 0x10000000000000
    requires 0 <= t2 < 0x10000000000000 && 0 <= t3 < 0x10000000000000 && 0 <= t4
    ensures Value5(t0, t1, t2, t3, t4) == 0 <==> t0 == t1 == t2 == t3 == t4 == 0
    ensures Value5(t0, t1, t2, t3, t4) == P <==>
      t0 == 0xFFFFEFFFFFC2F && t1 == 0xFFFFFFFFFFFFF && t2 == 0xFFFFFFFFFFFFF && t3 == 0xFFFFFFFFFFFFF && t4 == 0x0FFFFFFFFFFFF
  {
    assert Value5(0xFFFFEFFFFFC2F, 0xFFFFFFFFFFFFF, 0xFFFFFFFFFFFFF, 0xFFFFFFFFFFFFF, 0x0FFFFFFFFFFFF) == P;
    if Value5(t0, t1, t2, t3, t4) == P {
      SameLimbs(t0, t1, t2, t3, t4, 0xFFFFEFFFFFC2F, 0xFFFFFFFFFFFFF, 0xFFFFFFFFFFFFF, 0xFFFFFFFFFFFFF, 0x0FFFFFFFFFFFF);
    }
  }

  method ZeroTests(t: seq<int>, z0: int, z1: int) returns (zero: bool)
    requires FirstPassed(t)
    requires z0 == t[0] && z1 == Xor(t[0], 0x1000003D0)
    ensures zero <==> Value(t) == 0 || Value(t) == P
  {
    Limb52(t[0], 0x1000003D0);
    var o := Or(Or(Or(Or(z0, t[1]), t[2]), t[3]), t[4]);
    OrIsZero(z0, t[1]);
    OrIsZero(Or(z0, t[1]), t[2]);
    OrIsZero(Or(Or(z0, t[1]), t[2]), t[3]);
    OrIsZero(Or(Or(Or(z0, t[1]), t[2]), t[3]), t[4]);
    Limb52(t[4], 0xF000000000000);
    Limb52(z1, t[1]);
    Limb52(And(z1, t[1]), t[2]);
    Limb52(And(And(z1, t[1]), t[2]), t[3]);
    Limb52(And(And(And(z1, t[1]), t[2]), t[3]), Xor(t[4], 0xF000000000000));
    var a := And(And(And(And(z1, t[1]), t[2]), t[3]), Xor(t[4], 0xF000000000000));
    zero := o == 0 || a == 0xFFFFFFFFFFFFF;
    ZeroOrP(t, Value(t), 0);
  }

  method FeNormalizesToZero(n: seq<int>) returns (zero: bool)
    requires Magnitude(n, 2047)
    ensures zero <==> Value(n) % P == 0
  {
    var t, q := FirstPass(n);
    zero := ZeroTests(t, t[0], Xor(t[0], 0x1000003D0));
    ZeroOrP(t, Value(n), q);
  }

  method FeNormalizesToZeroVar(n: seq<int>) returns (zero: bool)
    requires Magnitude(n, 2047)
    ensures zero <==> Value(n) % P == 0
  {
    var x := n[4] / 0x1000000000000;
    var t0 := U64(n[0] + x * 0x1000003D1);
    var z0 := t0 % 0x10000000000000;
    var z1 := Xor(z0, 0x1000003D0);
    Limb52(z0, 0x1000003D0);
    var t, q := FirstPass(n);
    ZeroOrP(t, Value(n), q);
    if z0 != 0 && z1 != 0xFFFFFFFFFFFFF {
      return false;
    }
    zero := ZeroTests(t, z0, z1);
  }

  /** The bound on magnitudes is sharp: at 2048, which the library's own check allows, the first sum can exceed 64 bits. */
  lemma WrapsAt2048()
    ensures exists n :: Magnitude(n, 2048) && n[0] + n[4] / 0x1000000000000 * 0x1000003D1 >= 0x1_00000000_00000000
  {
    var n := [0xFFFFFFFFFFFFF * 4096, 0, 0, 0, 0x0FFFFFFFFFFFF * 4096];
    assert Magnitude(n, 2048);
  }
}
