/** The multiplication of the generator as the library runs it: additions of affine table entries, without branches, on limbs. */
module Comb {
  import opened Bits
  import opened Field5x52
  import opened FieldElement
  import opened ModPow
  import opened AdditionChains
  import opened Jacobian
  import opened CurvePoints
  import G = Group
  import S = Scalar4x64
  import W = Wnaf
  import EG = EcmultGen

  /** Entry i of row j in the table for gen, with offsets that are multiples of nums. */
  ghost function EntryOf<T(!new)>(g: G.Ops<T>, j: nat, i: nat, gen: T, nums: T): T {
    g.add(G.Times(g, EG.OffsetFactor(j), nums), G.Times(g, i * Pow2(4 * j), gen))
  }

  ghost predicate RowAt<T(!new)>(c: Curve<T>, row: seq<Ge>, j: nat, gen: T, nums: T) {
    |row| == 16 && forall i :: 0 <= i < 16 ==> GeAt(c, row[i], EntryOf(c.g, j, i, gen, nums))
  }

  ghost predicate TableAt<T(!new)>(c: Curve<T>, prec: seq<seq<Ge>>, gen: T, nums: T) {
    |prec| == 64 && forall j :: 0 <= j < 64 ==> RowAt(c, prec[j], j, gen, nums)
  }

  /** The table is that of the generator g. */
  ghost predicate Built<T(!new)>(c: Curve<T>, g: Ge, prec: seq<seq<Ge>>, gen: T, nums: T) {
    && IsCurve(c) && OnSecp(c) && G.Times(c.g, S.N, gen) == c.g.zero && GeAt(c, g, gen) && TableAt(c, prec, gen, nums)
  }

  /** Adds the entry that the four bits of the scalar at place j select. */
  method AddRow<T(!new)>(row: seq<Ge>, j: nat, gnb: nat, r0: Gej, ghost c: Curve<T>, ghost initial: T, ghost gen: T, ghost nums: T)
    returns (r: Gej)
    requires IsCurve(c) && OnSecp(c) && Fermat(P) && j < 64 && RowAt(c, row, j, gen, nums)
    requires Represents(c, r0, EG.Running(c.g, j, gnb, initial, gen, nums))
    ensures Represents(c, r, EG.Running(c.g, j + 1, gnb, initial, gen, nums))
  {
    var bits := W.GetBits(gnb, 4 * j, 4);
    assert Pow2(4) == 16;
    var add := EG.RowGet(row, bits);
    ghost var step := bits * Pow2(4 * j);
    EG.LowNext(gnb, j, step);
    EG.AddEntry(c.g, j, EG.Low(gnb, j), step, EG.Low(gnb, j + 1), initial, gen, nums);
    r := AddedUnified(r0, add, c, EG.Running(c.g, j, gnb, initial, gen, nums), EntryOf(c.g, j, bits, gen, nums));
  }

  /** The loop over the rows. */
  method AddRows<T(!new)>(prec: seq<seq<Ge>>, gnb: nat, initial: Gej, ghost c: Curve<T>, ghost start: T, ghost gen: T, ghost nums: T)
    returns (r: Gej)
    requires IsCurve(c) && OnSecp(c) && Fermat(P) && TableAt(c, prec, gen, nums) && Represents(c, initial, start)
    ensures Represents(c, r, EG.Running(c.g, |prec|, gnb, start, gen, nums))
  {
    r := initial;
    var rows := |prec|;
    EG.Start(c.g, start, gen, nums, gnb);
    for j := 0 to rows
      invariant Represents(c, r, EG.Running(c.g, j, gnb, start, gen, nums))
    {
      r := AddRow(prec[j], j, gnb, r, c, start, gen, nums);
    }
  }

  method Multiply<T(!new)>(prec: seq<seq<Ge>>, blind: int, initial: Gej, gn: int, ghost c: Curve<T>, ghost gen: T, ghost nums: T)
    returns (r: Gej)
    requires IsCurve(c) && OnSecp(c) && Fermat(P) && TableAt(c, prec, gen, nums) && G.Times(c.g, S.N, gen) == c.g.zero
    requires Represents(c, initial, G.Times(c.g, -blind, gen))
    ensures Represents(c, r, G.Times(c.g, gn, gen))
  {
    var gnb := (gn + blind) % S.N;
    ghost var start := G.Times(c.g, -blind, gen);
    EG.Unblind(c.g, gn, blind, gnb, start, gen, nums, |prec|);
    r := AddRows(prec, gnb, initial, c, start, gen, nums);
  }

  /** The new initial point: b * G, computed under the old blinding, or the default one, in other coordinates. */
  method Reblind<T(!new)>(reset: bool, g: Ge, prec: seq<seq<Ge>>, blind: int, initial: Gej, s: Fe, b: int,
      ghost e: int, ghost c: Curve<T>, ghost gen: T, ghost nums: T)
    returns (gb: Gej)
    requires Built(c, g, prec, gen, nums) && Fermat(P) && Represents(c, initial, G.Times(c.g, -blind, gen))
    requires Is(s, e) && !Congruent(e, 0) && s.magnitude <= 8
    ensures Represents(c, gb, G.Times(c.g, b, gen)) && Represents(c, gb, G.Times(c.g, -(S.N - b), gen))
  {
    SameBlinding(c.g, b, gen);
    var start, k := initial, blind;
    if reset {
      start := MinusG(g, c, gen);
      k := 1;
    }
    start := Rescaled(start, s, e, c, G.Times(c.g, -k, gen));
    gb := Multiply(prec, k, start, b, c, gen, nums);
  }

  class Context<T(!new)> {
    ghost const c: Curve<T>
    ghost const gen: T
    ghost const nums: T
    const g: Ge
    const prec: seq<seq<Ge>>
    var blind: int
    var initial: Gej

    ghost predicate Valid()
      reads this
    {
      && Built(c, g, prec, gen, nums)
      && 0 <= blind < S.N && Represents(c, initial, G.Times(c.g, -blind, gen))
    }

    /** A context with its table; the blinding is set up as for a null seed. */
    constructor (g: Ge, prec: seq<seq<Ge>>, s: Fe, b: int, ghost e: int, ghost c: Curve<T>, ghost gen: T, ghost nums: T)
      requires Built(c, g, prec, gen, nums) && Fermat(P)
      requires Is(s, e) && !Congruent(e, 0) && s.magnitude <= 8 && 0 < b < S.N
      ensures Valid() && this.c == c && this.gen == gen && blind == S.N - b
    {
      this.g, this.prec, this.c, this.gen, this.nums := g, prec, c, gen, nums;
      var start := MinusG(g, c, gen);
      blind, initial := 1, start;
      new;
      Blind(true, s, b, e);
    }

    /** gn * G, whatever the blinding. */
    method Gen(gn: int) returns (r: Gej)
      requires Valid() && Fermat(P) && 0 <= gn < S.N
      ensures Represents(c, r, G.Times(c.g, gn, gen))
    {
      r := Multiply(prec, blind, initial, gn, c, gen, nums);
    }

    /** Reseeds the blinding: s and b are the first drawn that are in range and not 0, reset stands for a null seed. */
    method Blind(reset: bool, s: Fe, b: int, ghost e: int)
      requires Valid() && Fermat(P) && Is(s, e) && !Congruent(e, 0) && s.magnitude <= 8 && 0 < b < S.N
      modifies this
      ensures Valid() && blind == S.N - b && Represents(c, initial, G.Times(c.g, b, gen))
    {
      var gb := Reblind(reset, g, prec, blind, initial, s, b, e, c, gen, nums);
      blind, initial := S.N - b, gb;
    }
  }

  /** The initial point without a seed. */
  method MinusG<T(!new)>(g: Ge, ghost c: Curve<T>, ghost gen: T) returns (r: Gej)
    requires IsCurve(c) && GeAt(c, g, gen)
    ensures Represents(c, r, G.Times(c.g, -1, gen))
  {
    r := GejSetGe(g, c.x(gen), c.y(gen));
    OneNonzero();
    assert FiniteAt(c, r, gen, 1);
    r := NegatedGej(r, c, gen);
    G.TimesOne(c.g, gen);
  }

  lemma SameBlinding<T(!new)>(g: G.Ops<T>, b: int, gen: T)
    requires G.IsAbelian(g) && G.Times(g, S.N, gen) == g.zero
    ensures G.Times(g, -(S.N - b), gen) == G.Times(g, b, gen)
  {
    G.TimesAdd(g, b, -S.N, gen);
    G.TimesNeg(g, S.N, gen);
    G.Unit(g, g.zero);
    G.InverseIsUnique(g, g.zero, g.zero);
    G.Unit(g, G.Times(g, b, gen));
  }
}
