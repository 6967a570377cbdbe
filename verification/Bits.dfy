/** Powers of two and bitwise operations on unbounded naturals. */
module Bits {

  const TWO31: int := 0x80000000
  const TWO32: int := 0x1_00000000
  const TWO63: int := 0x80000000_00000000
  const TWO64: int := 0x1_00000000_00000000
  const TWO128: int := 0x1_0000000000000000_0000000000000000
  const TWO192: int := 0x1_0000000000000000_0000000000000000_0000000000000000
  const TWO256: int := 0x1_0000000000000000_0000000000000000_0000000000000000_0000000000000000

  /** A 64-bit result that must not wrap. */
  function U64(x: int): int
    requires 0 <= x < 0x1_00000000_00000000
  {
    x
  }

  /** A 128-bit result that must not wrap. */
  function U128(x: int): int
    requires 0 <= x < 0x1_00000000_00000000_00000000_00000000
  {
    x
  }

  /** A signed 32-bit result that must not overflow. */
  function Int32(x: int): int
    requires -TWO31 <= x < TWO31
  {
    x
  }

  /** A size turned into a signed 32-bit number: its lowest 32 bits. */
  function ToInt(n: nat): int {
    (n + TWO31) % TWO32 - TWO31
  }

  lemma ToIntBound(n: nat)
    ensures -TWO31 <= ToInt(n) <= n && ToInt(n) < TWO31 && (n - ToInt(n)) % TWO32 == 0
  {
  }

  lemma QuotientIs(x: int, m: int, q: int, r: int)
    requires m > 0 && x == m * q + r && 0 <= r < m
    ensures x / m == q && x % m == r
  {
    var d := x / m - q;
    assert m * d == r - x % m;
    MultipleBounds(m, d);
  }

  lemma MultipleBounds(m: int, d: int)
    requires m > 0
    ensures d >= 1 ==> m * d >= m
    ensures d <= -1 ==> m * d <= -m
  {
  }

  function Pow2(k: nat): (r: nat)
    ensures r > 0
  {
    if k == 0 then 1 else 2 * Pow2(k - 1)
  }

  function And(x: nat, y: nat): nat
    decreases x + y
  {
    if x == 0 || y == 0 then 0 else (if x % 2 == 1 && y % 2 == 1 then 1 else 0) + 2 * And(x / 2, y / 2)
  }

  function Or(x: nat, y: nat): nat
    decreases x + y
  {
    if x == 0 && y == 0 then 0 else (if x % 2 == 1 || y % 2 == 1 then 1 else 0) + 2 * Or(x / 2, y / 2)
  }

  function Xor(x: nat, y: nat): nat
    decreases x + y
  {
    if x == 0 && y == 0 then 0 else (if x % 2 == y % 2 then 0 else 1) + 2 * Xor(x / 2, y / 2)
  }

  lemma {:induction false} AndIsAllOnes(x: nat, y: nat, k: nat)
    requires x < Pow2(k) && y < Pow2(k)
    ensures And(x, y) < Pow2(k)
    ensures And(x, y) == Pow2(k) - 1 <==> x == Pow2(k) - 1 && y == Pow2(k) - 1
    decreases k
  {
    if k > 0 && x > 0 && y > 0 {
      AndIsAllOnes(x / 2, y / 2, k - 1);
    }
  }

  lemma {:induction false} OrIsZero(x: nat, y: nat)
    ensures Or(x, y) == 0 <==> x == 0 && y == 0
    decreases x + y
  {
    if x > 0 || y > 0 {
      OrIsZero(x / 2, y / 2);
    }
  }

  lemma {:induction false} XorIsAllOnes(x: nat, c: nat, k: nat)
    requires x < Pow2(k) && c < Pow2(k)
    ensures Xor(x, c) < Pow2(k)
    ensures Xor(x, c) == Pow2(k) - 1 <==> x == Pow2(k) - 1 - c
    decreases k
  {
    if k > 0 {
      XorIsAllOnes(x / 2, c / 2, k - 1);
    }
  }

  lemma {:induction false} Pow2Add(j: nat, k: nat)
    ensures Pow2(j + k) == Pow2(j) * Pow2(k)
    decreases j
  {
    if j > 0 {
      Pow2Add(j - 1, k);
    }
  }

  /** Oring into bits that are clear adds. */
  lemma {:induction false} OrDisjoint(x: nat, y: nat, k: nat)
    requires x < Pow2(k)
    ensures Or(x, y * Pow2(k)) == x + y * Pow2(k)
    decreases k
  {
    if k == 0 {
      OrZero(y);
    } else {
      var z := y * Pow2(k - 1);
      assert y * Pow2(k) == 2 * z;
      OrDisjoint(x / 2, y, k - 1);
    }
  }

  lemma {:induction false} OrZero(y: nat)
    ensures Or(0, y) == y
  {
    if y > 0 {
      OrZero(y / 2);
    }
  }

  /** Bit patterns of a 52-bit limb. */
  lemma Limb52(x: nat, y: nat)
    requires x < 0x10000000000000 && y < 0x10000000000000
    ensures And(x, y) < 0x10000000000000
    ensures And(x, y) == 0xFFFFFFFFFFFFF <==> x == 0xFFFFFFFFFFFFF && y == 0xFFFFFFFFFFFFF
    ensures Xor(x, y) < 0x10000000000000
    ensures Xor(x, y) == 0xFFFFFFFFFFFFF <==> x == 0xFFFFFFFFFFFFF - y
  {
    var k :| 51 < k < 53;
    Pow2Width(k);
    AndIsAllOnes(x, y, k);
    XorIsAllOnes(x, y, k);
  }

  lemma {:induction false} Pow2Monotone(j: nat, k: nat)
    requires j < k
    ensures Pow2(j) < Pow2(k)
    decreases k
  {
    if j < k - 1 {
      Pow2Monotone(j, k - 1);
    }
  }

  lemma Pow2Plus8(k: nat)
    ensures Pow2(k + 8) == 256 * Pow2(k)
  {
    assert Pow2(8) == 256;
    Pow2Add(8, k);
  }

  /** The widths of the limb code; k is kept variable so that the recursion is not unrolled. */
  lemma Pow2Width(k: nat)
    ensures 47 < k < 49 ==> Pow2(k) == 0x1000000000000
    ensures 51 < k < 53 ==> Pow2(k) == 0x10000000000000
    ensures 63 < k < 65 ==> Pow2(k) == 0x1_0000000000000000
  {
    if 47 < k < 65 {
      var j := k - 48;
      Pow2Plus8(j);
      Pow2Plus8(j + 8);
      Pow2Plus8(j + 16);
      Pow2Plus8(j + 24);
      Pow2Plus8(j + 32);
      Pow2Plus8(j + 40);
      if j == 4 {
        assert Pow2(4) == 16;
      } else if j >= 16 {
        Pow2Plus8(j - 16);
        Pow2Plus8(j - 8);
      }
    }
  }

  /** The j-th bit of x. */
  function BitOf(x: nat, j: nat): nat {
    (x / Pow2(j)) % 2
  }

  /** Every bit of the result is 1 exactly if one of the two bits is. */
  lemma {:induction false} XorBit(x: nat, y: nat, j: nat)
    ensures BitOf(Xor(x, y), j) == if BitOf(x, j) == BitOf(y, j) then 0 else 1
    decreases j
  {
    BitShift(x, j);
    BitShift(y, j);
    BitShift(Xor(x, y), j);
    XorHalf(x, y);
    if j > 0 {
      XorBit(x / 2, y / 2, j - 1);
    }
  }

  lemma BitShift(x: nat, j: nat)
    ensures BitOf(x, j) == if j == 0 then x % 2 else BitOf(x / 2, j - 1)
  {
    if j > 0 {
      DivDiv(x, 2, Pow2(j - 1));
    }
  }

  lemma ShiftMore(s: nat, j: nat, k: nat)
    ensures s / Pow2(j + k) == s / Pow2(j) / Pow2(k)
  {
    Pow2Add(j, k);
    DivDiv(s, Pow2(j), Pow2(k));
  }

  lemma DivDiv(s: nat, a: nat, b: nat)
    requires a > 0 && b > 0
    ensures a * b > 0 && s / (a * b) == s / a / b
  {
    var q, m := s / a, s % a;
    var r, t := q / b, q % b;
    NestedRemainder(a, b, q, r, t, m);
    QuotientIs(s, a * b, r, a * t + m);
  }

  lemma NestedRemainder(a: nat, b: nat, q: nat, r: nat, t: nat, m: nat)
    requires a > 0 && b > 0 && q == b * r + t && t < b && m < a
    ensures a * b > 0 && a * q + m == (a * b) * r + (a * t + m) && 0 <= a * t + m < a * b
  {
    assert a * (b * r) == (a * b) * r;
    assert a * (b * r + t) == a * (b * r) + a * t;
    TimesLess(a, t, b);
  }

  lemma TimesLess(a: nat, t: nat, b: nat)
    requires t < b
    ensures 0 <= a * t && a * t + a <= a * b
  {
    assert a * (t + 1) <= a * b;
  }

  lemma {:induction false} XorAssoc(x: nat, y: nat, z: nat)
    ensures Xor(Xor(x, y), z) == Xor(x, Xor(y, z))
    decreases x + y + z
  {
    if x + y + z > 0 {
      XorAssoc(x / 2, y / 2, z / 2);
      XorHalf(x, y);
      XorHalf(y, z);
      XorHalf(Xor(x, y), z);
      XorHalf(x, Xor(y, z));
    }
  }

  lemma XorHalf(x: nat, y: nat)
    ensures Xor(x, y) / 2 == Xor(x / 2, y / 2)
    ensures Xor(x, y) % 2 == if x % 2 == y % 2 then 0 else 1
  {
  }

  lemma {:induction false} XorSelf(x: nat)
    ensures Xor(x, x) == 0 && Xor(0, x) == x
  {
    if x > 0 {
      XorSelf(x / 2);
    }
  }
}
