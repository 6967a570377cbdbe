/** Multiplication of the generator by a table of combs whose entries carry offsets, under a blinding that can be renewed. */
module EcmultGen {
  import opened Bits
  import opened Group
  import opened Scalar4x64
  import opened ScalarOps
  import opened Wnaf

  /** The factor of the blinding point built into row j of the table: 2^j, and 1 - 2^63 for the last. */
  ghost function OffsetFactor(j: nat): int {
    if j < 63 then Pow2(j) else 1 - Pow2(j)
  }

  /** The sum of the factors of rows 0 to j - 1. */
  ghost function OffsetSum(j: nat): int {
    if j <= 63 then Pow2(j) - 1 else 0
  }

  lemma OffsetSumStep(j: nat)
    requires j < 64
    ensures OffsetSum(j + 1) == OffsetSum(j) + OffsetFactor(j)
  {
    assert Pow2(j + 1) == 2 * Pow2(j);
  }

  /** Entry i of row j: U_j + i * 16^j * gen. */
  ghost predicate RowEntry<T(!new)>(g: Ops<T>, e: T, j: nat, i: nat, gen: T, nums: T) {
    e == g.add(Times(g, OffsetFactor(j), nums), Times(g, i * Pow2(4 * j), gen))
  }

  ghost predicate RowOf<T(!new)>(g: Ops<T>, row: seq<T>, j: nat, gen: T, nums: T) {
    forall i :: 0 <= i < |row| ==> RowEntry(g, row[i], j, i, gen, nums)
  }

  ghost predicate TableOf<T(!new)>(g: Ops<T>, prec: seq<seq<T>>, gen: T, nums: T) {
    forall j :: 0 <= j < |prec| ==> |prec[j]| == 16 && RowOf(g, prec[j], j, gen, nums)
  }

  lemma Pow2Plus4(j: nat)
    ensures Pow2(4 * (j + 1)) == 16 * Pow2(4 * j)
  {
    assert Pow2(4 * j + 1) == 2 * Pow2(4 * j);
    assert Pow2(4 * j + 2) == 2 * Pow2(4 * j + 1);
    assert Pow2(4 * j + 3) == 2 * Pow2(4 * j + 2);
    assert Pow2(4 * j + 4) == 2 * Pow2(4 * j + 3);
  }

  /** One row: numsbase, numsbase + gbase, ..., numsbase + 15 * gbase. */
  method MakeRow<T(!new)>(g: Ops<T>, gbase: T, numsbase: T, ghost j: nat, ghost gen: T, ghost nums: T) returns (row: seq<T>)
    requires IsAbelian(g)
    requires gbase == Times(g, Pow2(4 * j), gen) && numsbase == Times(g, OffsetFactor(j), nums)
    ensures |row| == 16 && RowOf(g, row, j, gen, nums)
  {
    row := [numsbase];
    Unit(g, numsbase);
    assert 0 * Pow2(4 * j) == 0;
    for i := 1 to 16
      invariant |row| == i && RowOf(g, row, j, gen, nums)
    {
      var next := g.add(row[i - 1], gbase);
      NextEntry(g, j, i, gen, nums);
      row := row + [next];
    }
  }

  lemma NextEntry<T(!new)>(g: Ops<T>, j: nat, i: nat, gen: T, nums: T)
    requires IsAbelian(g) && i >= 1
    ensures g.add(g.add(Times(g, OffsetFactor(j), nums), Times(g, (i - 1) * Pow2(4 * j), gen)), Times(g, Pow2(4 * j), gen))
      == g.add(Times(g, OffsetFactor(j), nums), Times(g, i * Pow2(4 * j), gen))
  {
    var p := Pow2(4 * j);
    var m := (i - 1) * p;
    NeighbourProducts(i, p);
    Assoc(g, Times(g, OffsetFactor(j), nums), Times(g, m, gen), Times(g, p, gen));
    TimesAdd(g, m, p, gen);
  }

  lemma NextFactor(j: nat, f: int)
    requires j < 63 && f == OffsetFactor(j)
    ensures OffsetFactor(j + 1) == if j == 62 then 1 - (f + f) else f + f
  {
    assert Pow2(j + 1) == 2 * Pow2(j);
  }

  /** f' is the factor of the row after the one of f. */
  lemma NextOffset<T(!new)>(g: Ops<T>, j: nat, f: int, f': int, nums: T)
    requires IsAbelian(g) && j < 63 && f == OffsetFactor(j) && f' == OffsetFactor(j + 1)
    ensures var twice := g.add(Times(g, f, nums), Times(g, f, nums));
      Times(g, f', nums) == if j == 62 then g.add(g.neg(twice), nums) else twice
  {
    NextFactor(j, f);
    DoubledOffset(g, f, nums);
  }

  lemma DoubledOffset<T(!new)>(g: Ops<T>, f: int, nums: T)
    requires IsAbelian(g)
    ensures var twice := g.add(Times(g, f, nums), Times(g, f, nums));
      Times(g, f + f, nums) == twice && Times(g, 1 - (f + f), nums) == g.add(g.neg(twice), nums)
  {
    TimesAdd(g, f, f, nums);
    TimesNeg(g, f + f, nums);
    TimesOne(g, nums);
    TimesAdd(g, -(f + f), 1, nums);
  }

  /** numsbase for the next row. */
  method NextNums<T(!new)>(g: Ops<T>, j: nat, numsbase: T, nums: T) returns (next: T)
    requires IsAbelian(g) && j < 63 && numsbase == Times(g, OffsetFactor(j), nums)
    ensures next == Times(g, OffsetFactor(j + 1), nums)
  {
    next := g.add(numsbase, numsbase);
    NextOffset(g, j, OffsetFactor(j), OffsetFactor(j + 1), nums);
    if j == 62 {
      next := g.neg(next);
      next := g.add(next, nums);
    }
  }

  /** Four doublings: gbase for the next row. */
  method NextBase<T(!new)>(g: Ops<T>, gbase: T, ghost j: nat, ghost gen: T) returns (next: T)
    requires IsAbelian(g) && gbase == Times(g, Pow2(4 * j), gen)
    ensures next == Times(g, Pow2(4 * (j + 1)), gen)
  {
    next := gbase;
    for i := 0 to 4
      invariant next == Times(g, Pow2(4 * j + i), gen)
    {
      next := g.add(next, next);
      TimesAdd(g, Pow2(4 * j + i), Pow2(4 * j + i), gen);
      assert Pow2(4 * j + i + 1) == 2 * Pow2(4 * j + i);
    }
  }

  method BuildTable<T(!new)>(g: Ops<T>, gen: T, nums: T) returns (prec: seq<seq<T>>)
    requires IsAbelian(g)
    ensures |prec| == 64 && TableOf(g, prec, gen, nums)
  {
    prec := [];
    var gbase, numsbase := gen, nums;
    TimesOne(g, gen);
    TimesOne(g, nums);
    assert Pow2(0) == 1 && Pow2(4 * 0) == 1;
    for j := 0 to 64
      invariant |prec| == j && TableOf(g, prec, gen, nums)
      invariant gbase == Times(g, Pow2(4 * j), gen)
      invariant j < 64 ==> numsbase == Times(g, OffsetFactor(j), nums)
    {
      var row := MakeRow(g, gbase, numsbase, j, gen, nums);
      prec := prec + [row];
      gbase := NextBase(g, gbase, j, gen);
      if j < 63 {
        numsbase := NextNums(g, j, numsbase, nums);
      }
    }
  }

  /** The lowest j groups of four bits of s. */
  ghost function Low(s: nat, j: nat): nat {
    if j == 0 then 0 else Low(s, j - One(s)) + GetBits(s, 4 * (j - 1), 4) * Pow2(4 * (j - 1))
  }

  lemma LowNext(s: nat, j: nat, step: int)
    requires step == GetBits(s, 4 * j, 4) * Pow2(4 * j)
    ensures Low(s, j + 1) == Low(s, j) + step
  {
  }

  lemma {:induction false} LowIs(s: nat, j: nat)
    ensures Low(s, j) == s % Pow2(4 * j)
  {
    if j == 0 {
      assert Pow2(4 * 0) == 1;
    } else {
      LowIs(s, j - 1);
      Pow2Plus4(j - 1);
      assert Pow2(4) == 16;
      Nibble(s, Pow2(4 * (j - 1)));
    }
  }

  lemma Nibble(s: nat, p: nat)
    requires p > 0
    ensures s % (16 * p) == s % p + ((s / p) % 16) * p
  {
    var q, m := s / p, s % p;
    var h, n := q / 16, q % 16;
    SplitProduct(p, q, h, n);
    QuotientIs(s, 16 * p, h, p * n + m);
  }

  lemma SplitProduct(p: nat, q: nat, h: nat, n: nat)
    requires q == 16 * h + n && n < 16
    ensures p * q == (16 * p) * h + p * n && 0 <= p * n <= 15 * p
  {
    assert p * (16 * h) == (16 * p) * h;
    assert p * (16 * h + n) == p * (16 * h) + p * n;
    assert p * n <= p * 15;
  }

  /** Reads an entry of the row by looking at all of them. */
  method RowGet<T>(row: seq<T>, bits: nat) returns (adds: T)
    requires bits < |row|
    ensures adds == row[bits]
  {
    adds := row[0];
    for i := 0 to |row|
      invariant i > bits ==> adds == row[bits]
    {
      adds := if i == bits then row[i] else adds;
    }
  }

  /** r + U_j + bits * 16^j * gen extends the two running sums. */
  lemma AddEntry<T(!new)>(g: Ops<T>, j: nat, low: int, step: int, low': int, initial: T, gen: T, nums: T)
    requires IsAbelian(g) && j < 64 && low' == low + step
    ensures g.add(g.add(initial, g.add(Times(g, OffsetSum(j), nums), Times(g, low, gen))),
        g.add(Times(g, OffsetFactor(j), nums), Times(g, step, gen)))
      == g.add(initial, g.add(Times(g, OffsetSum(j + 1), nums), Times(g, low', gen)))
  {
    var x, y := Times(g, OffsetSum(j), nums), Times(g, low, gen);
    var u, v := Times(g, OffsetFactor(j), nums), Times(g, step, gen);
    Assoc(g, initial, g.add(x, y), g.add(u, v));
    Exchange(g, x, y, u, v);
    OffsetSumStep(j);
    TimesAdd(g, OffsetSum(j), OffsetFactor(j), nums);
    TimesAdd(g, low, step, gen);
  }

  /** What the accumulator holds before row j. */
  ghost function Running<T(!new)>(g: Ops<T>, j: nat, gnb: nat, initial: T, gen: T, nums: T): T {
    g.add(initial, g.add(Times(g, OffsetSum(j), nums), Times(g, Low(gnb, j), gen)))
  }

  /** Adds the entry that the four bits of the scalar at place j select. */
  method AddRow<T(!new)>(g: Ops<T>, row: seq<T>, j: nat, gnb: nat, r0: T, ghost initial: T, ghost gen: T, ghost nums: T)
    returns (r: T)
    requires IsAbelian(g) && j < 64 && |row| == 16 && RowOf(g, row, j, gen, nums)
    requires r0 == Running(g, j, gnb, initial, gen, nums)
    ensures r == Running(g, j + 1, gnb, initial, gen, nums)
  {
    var bits := GetBits(gnb, 4 * j, 4);
    assert Pow2(4) == 16;
    var adds := RowGet(row, bits);
    ghost var step := bits * Pow2(4 * j);
    assert RowEntry(g, adds, j, bits, gen, nums);
    LowNext(gnb, j, step);
    AddEntry(g, j, Low(gnb, j), step, Low(gnb, j + 1), initial, gen, nums);
    r := g.add(r0, adds);
  }

  class GenContext<T(!new)> {
    const g: Ops<T>
    const gen: T
    const nums: T
    var prec: seq<seq<T>>
    var blind: int
    var initial: T

    ghost predicate Valid()
      reads this
    {
      && IsAbelian(g) && Times(g, N, gen) == g.zero
      && |prec| == 64 && TableOf(g, prec, gen, nums)
      && 0 <= blind < N && initial == Times(g, -blind, gen)
    }

    /** Builds the table and sets up the default blinding from the first scalar b of the generator. */
    constructor (g: Ops<T>, gen: T, nums: T, b: int)
      requires IsAbelian(g) && Times(g, N, gen) == g.zero && 0 < b < N
      ensures Valid() && this.g == g && this.gen == gen && this.nums == nums
    {
      var table := BuildTable(g, gen, nums);
      this.g, this.gen, this.nums := g, gen, nums;
      prec, blind, initial := table, 1, g.neg(gen);
      TimesOne(g, gen);
      new;
      Blind(true, b);
    }

    /** gn * gen, whatever the blinding. */
    method Gen(gn: int) returns (r: T)
      requires Valid() && 0 <= gn < N
      ensures r == Times(g, gn, gen)
    {
      r := initial;
      var gnb := (gn + blind) % N;
      var rows := |prec|;
      Start(g, initial, gen, nums, gnb);
      Unblind(g, gn, blind, gnb, initial, gen, nums, rows);
      for j := 0 to rows
        invariant r == Running(g, j, gnb, initial, gen, nums)
      {
        r := AddRow(g, prec[j], j, gnb, r, initial, gen, nums);
      }
    }

    /** Reseeds the blinding: b is the nonzero scalar drawn from the generator, reset stands for a null seed. */
    method Blind(reset: bool, b: int)
      requires Valid() && 0 < b < N
      modifies this
      ensures Valid() && blind == N - b && initial == Times(g, b, gen) && prec == old(prec)
    {
      if reset {
        initial := g.neg(gen);
        blind := 1;
        TimesOne(g, gen);
      }
      var gb := Gen(b);
      blind := N - b;
      initial := gb;
      TimesAdd(g, b, -N, gen);
      TimesNeg(g, N, gen);
      Unit(g, g.zero);
      InverseIsUnique(g, g.zero, g.zero);
      Unit(g, Times(g, b, gen));
    }
  }

  lemma Start<T(!new)>(g: Ops<T>, initial: T, gen: T, nums: T, gnb: nat)
    requires IsAbelian(g)
    ensures initial == Running(g, 0, gnb, initial, gen, nums)
  {
    assert Pow2(0) == 1;
    Unit(g, g.zero);
    Unit(g, initial);
  }

  /** The offsets sum to the identity and the blinding value cancels. */
  lemma Unblind<T(!new)>(g: Ops<T>, gn: int, blind: int, gnb: nat, initial: T, gen: T, nums: T, rows: nat)
    requires IsAbelian(g) && Times(g, N, gen) == g.zero && gnb < N && gnb == (gn + blind) % N && 63 < rows
    requires initial == Times(g, -blind, gen)
    ensures Running(g, rows, gnb, initial, gen, nums) == Times(g, gn, gen)
  {
    FullScalar(gnb, rows);
    Unit(g, Times(g, gnb, gen));
    TimesModIs(g, gn + blind, N, gnb, gen);
    TimesAdd(g, -blind, gn + blind, gen);
  }

  lemma FullScalar(s: nat, k: nat)
    requires s < N && 63 < k
    ensures Low(s, k) == s
  {
    LowIs(s, k);
    var m :| 63 < m < 65;
    Pow2Width(m);
    Pow2PlusWord(m);
    Pow2PlusWord(m + 64);
    Pow2PlusWord(m + 128);
    Pow2AtMost(m + 192, 4 * k);
    QuotientIs(s, Pow2(4 * k), 0, s);
  }
}
