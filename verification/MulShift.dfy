/** The product of two scalars shifted right and rounded to the nearest integer. */
module MulShift {
  import opened Bits
  import opened Scalar4x64
  import opened ScalarOps

  /** q is v / p rounded to the nearest integer, halves up. */
  predicate Rounded(q: int, v: int, p: int) {
    -p < 2 * (p * q - v) <= p
  }

  /** Limb j, or 0 above the last. */
  function Word(l: seq<int>, j: nat): int {
    if j < |l| then l[j] else 0
  }

  predicate Words(l: seq<int>) {
    forall i :: 0 <= i < |l| ==> IsU64(l[i])
  }

  // ---------- Cutting limbs in two ----------

  lemma {:induction false} ValueSplit(l: seq<int>, n: nat)
    requires n <= |l| && Words(l)
    ensures Value(l) == Value(l[..n]) + Pow2(64 * n) * Value(l[n..]) && 0 <= Value(l[..n]) < Pow2(64 * n)
  {
    if n == 0 {
      assert l[..0] == [] && l[0..] == l && Pow2(0) == 1;
    } else {
      var t := l[1..];
      ValueSplit(t, n - 1);
      assert l[..n][1..] == t[..n - 1] && l[n..] == t[n - 1..] && l[..n][0] == l[0];
      WordMore(n);
      SplitStep(l[0], Value(t[..n - 1]), Pow2(64 * (n - 1)), Value(l[n..]));
    }
  }

  lemma WordMore(n: nat)
    requires n >= 1
    ensures Pow2(64 * n) == 0x1_0000000000000000 * Pow2(64 * (n - 1))
  {
    var m :| 63 < m < 65;
    Pow2Width(m);
    Pow2Add(m, 64 * (n - 1));
  }

  lemma SplitStep(x: int, low: int, w: int, high: int)
    requires IsU64(x) && 0 <= low < w
    ensures x + 0x1_0000000000000000 * (low + w * high) == (x + 0x1_0000000000000000 * low) + (0x1_0000000000000000 * w) * high
    ensures 0 <= x + 0x1_0000000000000000 * low < 0x1_0000000000000000 * w
  {
  }

  lemma ValueNonneg(u: seq<int>)
    requires Words(u)
    ensures Value(u) >= 0
  {
    ValueSplit(u, |u|);
    assert u[..|u|] == u && u[|u|..] == [];
    assert Pow2(64 * |u|) * 0 == 0;
  }

  /** At most four limbs, padded with zeros. */
  lemma ValuePadded(u: seq<int>)
    requires |u| <= 4
    decreases 4 - |u|
    ensures Value(u) == Value4(Word(u, 0), Word(u, 1), Word(u, 2), Word(u, 3))
  {
    if |u| == 4 {
      ValueOf(u);
    } else {
      var p := u + [0];
      ValuePadded(p);
      ValueOfZero(u);
      assert Word(p, 0) == Word(u, 0) && Word(p, 1) == Word(u, 1) && Word(p, 2) == Word(u, 2) && Word(p, 3) == Word(u, 3);
    }
  }

  lemma {:induction false} ValueOfZero(u: seq<int>)
    ensures Value(u + [0]) == Value(u)
  {
    if u == [] {
      assert [] + [0] == [0] && [0][1..] == [];
    } else {
      ValueOfZero(u[1..]);
      assert (u + [0])[1..] == u[1..] + [0];
    }
  }

  lemma EightLimbs(l: seq<int>)
    requires |l| == 8 && Words(l)
    ensures Value(l) == Wide(Value4(l[0], l[1], l[2], l[3]), Value4(l[4], l[5], l[6], l[7]))
  {
    var n :| 3 < n < 5;
    ValueSplit(l, n);
    ValueOf(l[..n]);
    ValueOf(l[n..]);
    FourWords(n);
  }

  lemma FourWords(n: nat)
    requires 3 < n < 5
    ensures Pow2(64 * n) == 0x1_0000000000000000_0000000000000000_0000000000000000_0000000000000000
  {
    WordMore(n);
    WordMore(n - 1);
    WordMore(n - 2);
    WordMore(n - 3);
    assert Pow2(0) == 1;
  }

  // ---------- The shift ----------

  /** One limb of the shifted number: x >> low, and from the limb above what falls into it. */
  method ShiftWord(l: seq<int>, j: nat, low: nat) returns (d: int)
    requires |l| == 8 && Words(l) && low < 64
    ensures d == Word(l, j) / Pow2(low) + (Word(l, j + 1) * Pow2(64 - low)) % TWO64
  {
    d := 0;
    ZeroWord(low);
    if j < 8 {
      var part := 0;
      if j + 1 < 8 && low > 0 {
        part := (l[j + 1] * Pow2(64 - low)) % TWO64;
      }
      OrOfParts(l[j], Word(l, j + 1), low, part);
      d := Or(l[j] / Pow2(low), part);
    }
  }

  lemma ZeroWord(low: nat)
    requires low < 64
    ensures 0 / Pow2(low) == 0 && (0 * Pow2(64 - low)) % TWO64 == 0
  {
    QuotientIs(0, Pow2(low), 0, 0);
  }

  lemma OrOfParts(x: int, y: int, low: nat, part: int)
    requires IsU64(x) && IsU64(y) && low < 64
    requires part == if low > 0 then (y * Pow2(64 - low)) % TWO64 else 0
    ensures x / Pow2(low) >= 0 && part >= 0
    ensures Or(x / Pow2(low), part) == x / Pow2(low) + (y * Pow2(64 - low)) % TWO64
  {
    var h := (y * Pow2(64 - low)) % TWO64;
    var q, m := PartsOf(x, y, low, Pow2(low), Pow2(64 - low), h);
    OrOfSum(q, m, 64 - low, h);
  }

  lemma PartsOf(x: int, y: int, low: nat, k: int, c: int, h: int) returns (q: nat, m: nat)
    requires IsU64(x) && IsU64(y) && low < 64 && k == Pow2(low) && c == Pow2(64 - low) && h == (y * c) % TWO64
    ensures q == x / k && q < c && h == m * c && (low == 0 ==> h == 0)
  {
    q, m := x / k, y % k;
    ShiftFactors(low, k, c);
    LowBits(y, k, c, m * c);
    QuotientBound(x, k, c);
    if low == 0 {
      assert m == 0;
    }
  }

  lemma OrOfSum(q: nat, m: nat, e: nat, h: int)
    requires q < Pow2(e) && h == m * Pow2(e)
    ensures h >= 0 && Or(q, h) == q + h
  {
    OrDisjoint(q, m, e);
  }

  /** All four limbs. */
  lemma ShiftedFour(h0: int, h1: int, h2: int, h3: int, k: int, c: int, d0: int, d1: int, d2: int, d3: int)
    requires IsU64(h0) && IsU64(h1) && IsU64(h2) && IsU64(h3) && 0 < k && 0 < c && k * c == TWO64
    requires d0 == h0 / k + (h1 * c) % TWO64 && d1 == h1 / k + (h2 * c) % TWO64 && d2 == h2 / k + (h3 * c) % TWO64
    requires d3 == h3 / k + (0 * c) % TWO64
    ensures IsU64(d0) && IsU64(d1) && IsU64(d2) && IsU64(d3)
    ensures Value4(h0, h1, h2, h3) == h0 % k + k * Value4(d0, d1, d2, d3)
  {
    ShiftedLimb(h0, h1, k, c);
    ShiftedLimb(h1, h2, k, c);
    ShiftedLimb(h2, h3, k, c);
    ShiftedLimb(h3, 0, k, c);
    ShiftedValue(k, d0, d1, d2, d3, h0, h1, h2, h3);
  }

  // ---------- The rounding ----------

  /** What is below the cut: the limbs below it, and the bits of the limb that it goes through. */
  ghost predicate CutAt(v: int, d: int, rem: int, p: int) {
    v == p * d + rem && 0 <= rem < p
  }

  lemma CutOf(lo: int, w: int, k: int, h: int, m: int, d: int)
    requires 0 <= lo < w && 0 < k && 0 <= m < k && h == m + k * d
    ensures CutAt(lo + w * h, d, lo + w * m, w * k)
  {
    assert w * (m + k * d) == w * m + (w * k) * d;
    ScaledBelow(w, m, k);
  }

  lemma ScaledBelow(w: int, m: int, k: int)
    requires 0 <= m < k && 0 <= w
    ensures 0 <= w * m && w * m + w <= w * k
  {
    assert w * (m + 1) <= w * k;
  }

  lemma RoundUp(v: int, d: int, rem: int, p: int, half: int, bit: bool)
    requires CutAt(v, d, rem, p) && p == 2 * half && (bit <==> rem >= half)
    ensures Rounded(d + (if bit then 1 else 0), v, p)
  {
    if bit {
      assert p * (d + 1) == p * d + p;
    }
  }

  /** The bit below the cut, inside a limb. */
  lemma BitInside(x: int, lo: int, w: int, k: int, half: int)
    requires 0 <= x && 0 <= lo < w && 0 < half && k == 2 * half
    ensures (x / half) % 2 == 1 <==> lo + w * (x % k) >= w * half
  {
    BitOf(x, k, half);
    ScaledOrder(lo, w, x % k, half);
  }

  lemma ScaledOrder(lo: int, w: int, m: int, half: int)
    requires 0 <= lo < w
    ensures lo + w * m >= w * half <==> m >= half
  {
    var e := m - half;
    assert w * m - w * half == w * e;
    MultipleBounds(w, e);
  }

  lemma BitOf(x: int, k: int, half: int)
    requires 0 <= x && 0 < half && k == 2 * half
    ensures (x / half) % 2 == 1 <==> x % k >= half
  {
    var q, m := x / k, x % k;
    assert x == half * (2 * q) + m;
    if m >= half {
      QuotientIs(x, half, 2 * q + 1, m - half);
    } else {
      QuotientIs(x, half, 2 * q, m);
    }
  }

  /** mul_shift_var for every shift that the code can do. */
  method MulShiftVar(r: array<int>, a: array<int>, b: array<int>, shift: nat)
    requires r.Length == a.Length == b.Length == 4 && 256 <= shift <= 512
    requires IsScalar(a[..]) && IsScalar(b[..])
    modifies r
    ensures IsScalar(r[..]) && Rounded(Value(r[..]), old(Value(a[..]) * Value(b[..])), Pow2(shift))
  {
    ghost var v := Value(a[..]) * Value(b[..]);
    var l := Mul512(a[..], b[..]);
    EightLimbs(l);
    var limbs, low := shift / 64, shift % 64;
    var d := ShiftedUpper(l, limbs, low);
    var bit := (l[(shift - 1) / 64] / Pow2((shift - 1) % 64)) % 2 == 1;
    BitPlace(shift, limbs, low);
    BelowCutIs(l, limbs, low, (shift - 1) / 64, (shift - 1) % 64);
    RoundingBit(l, limbs, low, Value(d));
    ValueBound(a[..]);
    ValueBound(b[..]);
    NoOverflow(Value(a[..]), Value(b[..]), Value(d), shift);
    r[0], r[1], r[2], r[3] := d[0], d[1], d[2], d[3];
    assert r[..] == d;
    CaddBit(r, 0, bit);
  }

  /** The limbs from the cut on. */
  method ShiftedUpper(l: seq<int>, limbs: nat, low: nat) returns (d: seq<int>)
    requires |l| == 8 && Words(l) && 4 <= limbs <= 8 && low < 64
    ensures IsScalar(d) && Value(l[limbs..]) == Word(l, limbs) % Pow2(low) + Pow2(low) * Value(d)
  {
    var d0 := ShiftWord(l, limbs, low);
    var d1 := ShiftWord(l, limbs + 1, low);
    var d2 := ShiftWord(l, limbs + 2, low);
    var d3 := ShiftWord(l, limbs + 3, low);
    d := [d0, d1, d2, d3];
    ghost var k, c := Pow2(low), Pow2(64 - low);
    ShiftFactors(low, k, c);
    ShiftedFour(Word(l, limbs), Word(l, limbs + 1), Word(l, limbs + 2), Word(l, limbs + 3), k, c, d0, d1, d2, d3);
    ValuePadded(l[limbs..]);
    ValueOf(d);
  }

  /** Where the bit below a cut at low bits into limb n is. */
  lemma BitPlace(shift: nat, n: nat, low: nat)
    requires shift == 64 * n + low && low < 64 && shift > 0
    ensures shift / 64 == n && shift % 64 == low
    ensures (shift - 1) / 64 == (if low > 0 then n else n - 1) && (shift - 1) % 64 == (if low > 0 then low - 1 else 63)
  {
  }

  /** The bit below the cut. */
  ghost predicate BelowCut(l: seq<int>, n: nat, low: nat)
    requires |l| == 8 && 1 <= n <= 8 && low < 64 && (low > 0 ==> n < 8)
  {
    if low > 0 then (l[n] / Pow2(low - 1)) % 2 == 1 else (l[n - 1] / 0x8000000000000000) % 2 == 1
  }

  lemma BelowCutIs(l: seq<int>, n: nat, low: nat, place: nat, at: nat)
    requires |l| == 8 && 1 <= n <= 8 && low < 64 && (low > 0 ==> n < 8)
    requires place == (if low > 0 then n else n - 1) && at == (if low > 0 then low - 1 else 63)
    ensures (l[place] / Pow2(at)) % 2 == 1 <==> BelowCut(l, n, low)
  {
    if low == 0 {
      HalfWord(at);
    }
  }

  lemma HalfWord(k: nat)
    requires 62 < k < 64
    ensures Pow2(k) == 0x8000000000000000
  {
    Pow2Width(k + 1);
  }

  lemma RoundingBit(l: seq<int>, n: nat, low: nat, d: int)
    requires |l| == 8 && Words(l) && 1 <= n <= 8 && low < 64 && (low > 0 ==> n < 8)
    requires Value(l[n..]) == Word(l, n) % Pow2(low) + Pow2(low) * d
    ensures Rounded(d + (if BelowCut(l, n, low) then 1 else 0), Value(l), Pow2(64 * n + low)) && 0 <= Value(l) - Pow2(64 * n + low) * d
  {
    ValueSplit(l, n);
    if low > 0 {
      RoundInside(Value(l), Pow2(64 * n + low), l[n], Value(l[..n]), Value(l[n..]), n, low, d, BelowCut(l, n, low));
    } else {
      TopBitBelow(l, n, Value(l[..n]), Pow2(64 * n - 1));
      NoBitsCut(Word(l, n), Pow2(low), d);
      RoundBetween(Value(l), Pow2(64 * n + low), Value(l[..n]), Value(l[n..]), n, d, BelowCut(l, n, low));
    }
  }

  lemma NoBitsCut(x: int, k: int, d: int)
    requires k == 1
    ensures x % k + k * d == d
  {
  }

  /** The cut goes through the limb x. */
  lemma RoundInside(v: int, p: int, x: int, lo: int, h: int, n: nat, low: nat, d: int, bit: bool)
    requires 0 < low < 64 && 0 <= lo < Pow2(64 * n) && 0 <= x && h == x % Pow2(low) + Pow2(low) * d
    requires v == lo + Pow2(64 * n) * h && p == Pow2(64 * n + low) && (bit <==> (x / Pow2(low - 1)) % 2 == 1)
    ensures Rounded(d + (if bit then 1 else 0), v, p) && 0 <= v - p * d
  {
    var w, k, e := Pow2(64 * n), Pow2(low), Pow2(low - 1);
    assert k == 2 * e;
    Pow2Add(64 * n, low);
    Pow2Add(64 * n, low - 1);
    CutOf(lo, w, k, h, x % k, d);
    BitInside(x, lo, w, k, e);
    RoundUp(v, d, lo + w * (x % k), p, w * e, bit);
  }

  /** The cut is between two limbs. */
  lemma RoundBetween(v: int, p: int, lo: int, h: int, n: nat, d: int, bit: bool)
    requires n >= 1 && 0 <= lo < p && h == d && p == Pow2(64 * n) && v == lo + p * h && (bit <==> lo >= Pow2(64 * n - 1))
    ensures Rounded(d + (if bit then 1 else 0), v, p) && 0 <= v - p * d
  {
    RoundUp(v, d, lo, p, Pow2(64 * n - 1), bit);
  }

  /** The highest bit of the limbs below limb n. */
  lemma TopBitBelow(l: seq<int>, n: nat, lo: int, half: int)
    requires |l| == 8 && Words(l) && 1 <= n <= 8 && lo == Value(l[..n]) && half == Pow2(64 * n - 1)
    ensures (l[n - 1] / 0x8000000000000000) % 2 == 1 <==> lo >= half
  {
    var u := l[..n];
    ValueSplit(u, n - 1);
    assert u[n - 1..] == [l[n - 1]];
    assert Value([l[n - 1]]) == l[n - 1] by {
      assert [l[n - 1]][1..] == [];
    }
    var k :| 62 < k < 64;
    HalfWord(k);
    Pow2Add(64 * (n - 1), k);
    BitInside(l[n - 1], Value(u[..n - 1]), Pow2(64 * (n - 1)), 0x1_0000000000000000, 0x8000000000000000);
    WordItself(l[n - 1], 0x1_0000000000000000);
  }

  lemma WordItself(x: int, k: int)
    requires 0 <= x < k
    ensures x % k == x
  {
  }

  /** The rounded quotient still fits four limbs. */
  lemma NoOverflow(a: int, b: int, d: int, shift: nat)
    requires 0 <= a < TWO256 && 0 <= b < TWO256 && shift >= 256 && 0 <= a * b - Pow2(shift) * d
    ensures d + Pow2(0) < TWO256
  {
    ProductBound(a, b, TWO256 - 1, TWO256 - 1);
    var n :| 3 < n < 5;
    FourWords(n);
    Pow2Add(64 * n, shift - 64 * n);
    LargeQuotient(a * b, Pow2(64 * n), Pow2(shift - 64 * n), d);
  }

  lemma LargeQuotient(v: int, w: int, e: int, d: int)
    requires w == TWO256 && e >= 1 && v <= (w - 1) * (w - 1) && v - (w * e) * d >= 0
    ensures d < w - 1
  {
    if d >= w - 1 {
      TimesAtLeast(e, d, w);
    }
  }

  lemma TimesAtLeast(e: int, d: int, w: int)
    requires e >= 1 && d >= w - 1 && w > 1
    ensures (w * e) * d > (w - 1) * (w - 1)
  {
    assert e * d >= d;
    assert w * (e * d) >= w * (w - 1);
    assert (w * e) * d == w * (e * d);
  }
}
