/** The compression of SHA-256: the round function of the standard, and the unrolled rounds of the library. */
module Sha256Transform {

  /** The operations on words: addition, and the six functions of section 4.1.2 of FIPS 180-4. */
  datatype WordOps<!W> = WordOps(add: (W, W) -> W, ch: (W, W, W) -> W, maj: (W, W, W) -> W,
    bigSigma0: W -> W, bigSigma1: W -> W, smallSigma0: W -> W, smallSigma1: W -> W)

  // ---------- Section 6.2.2 of FIPS 180-4 ----------

  /** The eight working variables. */
  datatype Vars<W> = Vars(a: W, b: W, c: W, d: W, e: W, f: W, g: W, h: W)

  /** One round: every variable moves on by one place, and two are computed. */
  function Step<W>(o: WordOps<W>, v: Vars<W>, k: W, w: W): Vars<W> {
    var t1 := o.add(o.add(o.add(o.add(v.h, o.bigSigma1(v.e)), o.ch(v.e, v.f, v.g)), k), w);
    var t2 := o.add(o.bigSigma0(v.a), o.maj(v.a, v.b, v.c));
    Vars(o.add(t1, t2), v.a, v.b, v.c, o.add(v.d, t1), v.e, v.f, v.g)
  }

  /** The first n words of the message schedule of a block of 16 words. */
  function Schedule<W>(o: WordOps<W>, block: seq<W>, n: nat): (w: seq<W>)
    requires |block| == 16 && n >= 16
    ensures |w| == n
  {
    if n == 16 then block
    else
      var w := Schedule(o, block, n - 1);
      w + [Extension(o, w, n - 1)]
  }

  /** The t-th word from those before it; sums are mod 2^32, so their order does not matter. */
  function Extension<W>(o: WordOps<W>, w: seq<W>, t: nat): W
    requires 16 <= t <= |w|
  {
    o.add(w[t - 16], o.add(o.add(o.smallSigma1(w[t - 2]), w[t - 7]), o.smallSigma0(w[t - 15])))
  }

  lemma {:induction false} ScheduleAt<W>(o: WordOps<W>, block: seq<W>, n: nat, t: nat)
    requires |block| == 16 && 16 <= t < n
    ensures Schedule(o, block, n)[t] == Extension(o, Schedule(o, block, n), t)
    decreases n
  {
    if t < n - 1 {
      ScheduleAt(o, block, n - 1, t);
    }
  }

  lemma {:induction false} ScheduleStart<W>(o: WordOps<W>, block: seq<W>, n: nat)
    requires |block| == 16 && 16 <= n
    ensures Schedule(o, block, n)[..16] == block
    decreases n
  {
    if n > 16 {
      ScheduleStart(o, block, n - 1);
    }
  }

  /** The variables after t rounds, with the constants k and the schedule w. */
  function Rounds<W>(o: WordOps<W>, k: seq<W>, w: seq<W>, s: Vars<W>, t: nat): Vars<W>
    requires t <= |k| == |w|
  {
    if t == 0 then s else Step(o, Rounds(o, k, w, s, t - 1), k[t - 1], w[t - 1])
  }

  /** The state after the block. */
  function Compress<W>(o: WordOps<W>, k: seq<W>, s: Vars<W>, block: seq<W>): Vars<W>
    requires |block| == 16 && |k| >= 16
  {
    var v := Rounds(o, k, Schedule(o, block, |k|), s, |k|);
    Vars(o.add(s.a, v.a), o.add(s.b, v.b), o.add(s.c, v.c), o.add(s.d, v.d),
      o.add(s.e, v.e), o.add(s.f, v.f), o.add(s.g, v.g), o.add(s.h, v.h))
  }

  /** Both sets of operations give the same words. */
  ghost predicate Agree<W(!new)>(o: WordOps<W>, p: WordOps<W>) {
    && (forall x, y :: o.add(x, y) == p.add(x, y))
    && (forall x, y, z :: o.ch(x, y, z) == p.ch(x, y, z))
    && (forall x, y, z :: o.maj(x, y, z) == p.maj(x, y, z))
    && (forall x :: o.bigSigma0(x) == p.bigSigma0(x)) && (forall x :: o.bigSigma1(x) == p.bigSigma1(x))
    && (forall x :: o.smallSigma0(x) == p.smallSigma0(x)) && (forall x :: o.smallSigma1(x) == p.smallSigma1(x))
  }

  lemma StepAgrees<W(!new)>(o: WordOps<W>, p: WordOps<W>, v: Vars<W>, k: W, w: W)
    requires Agree(o, p)
    ensures Step(o, v, k, w) == Step(p, v, k, w)
  {
  }

  lemma {:induction false} ScheduleAgrees<W(!new)>(o: WordOps<W>, p: WordOps<W>, block: seq<W>, n: nat)
    requires Agree(o, p) && |block| == 16 && n >= 16
    ensures Schedule(o, block, n) == Schedule(p, block, n)
  {
    if n > 16 {
      ScheduleAgrees(o, p, block, n - 1);
    }
  }

  lemma {:induction false} RoundsAgree<W(!new)>(o: WordOps<W>, p: WordOps<W>, k: seq<W>, w: seq<W>, s: Vars<W>, t: nat)
    requires Agree(o, p) && t <= |k| == |w|
    ensures Rounds(o, k, w, s, t) == Rounds(p, k, w, s, t)
  {
    if t > 0 {
      RoundsAgree(o, p, k, w, s, t - 1);
      StepAgrees(o, p, Rounds(o, k, w, s, t - 1), k[t - 1], w[t - 1]);
    }
  }

  /** The compression depends on what the operations compute only. */
  lemma CompressAgrees<W(!new)>(o: WordOps<W>, p: WordOps<W>, k: seq<W>, s: Vars<W>, block: seq<W>)
    requires Agree(o, p) && |block| == 16 && |k| >= 16
    ensures Compress(o, k, s, block) == Compress(p, k, s, block)
  {
    ScheduleAgrees(o, p, block, |k|);
    RoundsAgree(o, p, k, Schedule(o, block, |k|), s, |k|);
  }

  // ---------- The library's transformation ----------

  /** The Round macro: only two variables are written, and the next use of it names each one place further. */
  method Round<W>(o: WordOps<W>, a: W, b: W, c: W, d: W, e: W, f: W, g: W, h: W, k: W, w: W) returns (d': W, h': W)
    ensures Step(o, Vars(a, b, c, d, e, f, g, h), k, w) == Vars(h', a, b, c, d', e, f, g)
  {
    var t1 := o.add(o.add(o.add(o.add(h, o.bigSigma1(e)), o.ch(e, f, g)), k), w);
    var t2 := o.add(o.bigSigma0(a), o.maj(a, b, c));
    d' := o.add(d, t1);
    h' := o.add(t1, t2);
  }

  /** Eight rounds, after which every variable has its own name again. */
  method EightRounds<W>(o: WordOps<W>, v: Vars<W>, k: seq<W>, w: seq<W>, t: nat, ghost sch: seq<W>, ghost s: Vars<W>)
    returns (r: Vars<W>)
    requires t + 8 <= |k| == |sch| && w == sch[t..t + 8] && v == Rounds(o, k, sch, s, t)
    ensures r == Rounds(o, k, sch, s, t + 8)
  {
    var a, b, c, d, e, f, g, h := v.a, v.b, v.c, v.d, v.e, v.f, v.g, v.h;
    d, h := Round(o, a, b, c, d, e, f, g, h, k[t], w[0]);
    assert Vars(h, a, b, c, d, e, f, g) == Rounds(o, k, sch, s, t + 1);
    c, g := Round(o, h, a, b, c, d, e, f, g, k[t + 1], w[1]);
    assert Vars(g, h, a, b, c, d, e, f) == Rounds(o, k, sch, s, t + 2);
    b, f := Round(o, g, h, a, b, c, d, e, f, k[t + 2], w[2]);
    assert Vars(f, g, h, a, b, c, d, e) == Rounds(o, k, sch, s, t + 3);
    a, e := Round(o, f, g, h, a, b, c, d, e, k[t + 3], w[3]);
    assert Vars(e, f, g, h, a, b, c, d) == Rounds(o, k, sch, s, t + 4);
    h, d := Round(o, e, f, g, h, a, b, c, d, k[t + 4], w[4]);
    assert Vars(d, e, f, g, h, a, b, c) == Rounds(o, k, sch, s, t + 5);
    g, c := Round(o, d, e, f, g, h, a, b, c, k[t + 5], w[5]);
    assert Vars(c, d, e, f, g, h, a, b) == Rounds(o, k, sch, s, t + 6);
    f, b := Round(o, c, d, e, f, g, h, a, b, k[t + 6], w[6]);
    assert Vars(b, c, d, e, f, g, h, a) == Rounds(o, k, sch, s, t + 7);
    e, a := Round(o, b, c, d, e, f, g, h, a, k[t + 7], w[7]);
    r := Vars(a, b, c, d, e, f, g, h);
  }

  /** The place n before i among sixteen that are used in turn. */
  function Back(i: nat, n: nat): (p: nat)
    requires i < 16 && n < 16
    ensures p < 16
  {
    if i >= n then i - n else i + 16 - n
  }

  /** Of the sixteen words, those before i are of the next sixteen rounds already. */
  ghost predicate Rolling<W>(w: seq<W>, sch: seq<W>, base: nat, i: nat)
    requires i <= 16
  {
    |w| == 16 && base + 32 <= |sch| && w == sch[base + 16..base + 16 + i] + sch[base + i..base + 16]
  }

  ghost predicate IsSchedule<W>(o: WordOps<W>, sch: seq<W>) {
    forall t {:trigger Extension(o, sch, t)} :: 16 <= t < |sch| ==> sch[t] == Extension(o, sch, t)
  }

  /** One word of the schedule replaces the one of sixteen rounds before. */
  method NextWord<W>(o: WordOps<W>, w: seq<W>, i: nat, ghost sch: seq<W>, ghost base: nat) returns (r: seq<W>)
    requires i < 16 && Rolling(w, sch, base, i) && IsSchedule(o, sch)
    ensures Rolling(r, sch, base, i + 1)
  {
    WordBefore(w, sch, base, i, 2);
    WordBefore(w, sch, base, i, 7);
    WordBefore(w, sch, base, i, 15);
    OldWord(w, sch, base, i);
    assert sch[base + 16 + i] == Extension(o, sch, base + 16 + i);
    r := w[i := o.add(w[i], o.add(o.add(o.smallSigma1(w[Back(i, 2)]), w[Back(i, 7)]), o.smallSigma0(w[Back(i, 15)])))];
    Replaced(w, sch, base, i);
  }

  lemma WordBefore<W>(w: seq<W>, sch: seq<W>, base: nat, i: nat, n: nat)
    requires i < 16 && 0 < n < 16 && Rolling(w, sch, base, i)
    ensures w[Back(i, n)] == sch[base + 16 + i - n]
  {
  }

  lemma OldWord<W>(w: seq<W>, sch: seq<W>, base: nat, i: nat)
    requires i < 16 && Rolling(w, sch, base, i)
    ensures w[i] == sch[base + i]
  {
  }

  lemma Replaced<W>(w: seq<W>, sch: seq<W>, base: nat, i: nat)
    requires i < 16 && Rolling(w, sch, base, i)
    ensures Rolling(w[i := sch[base + 16 + i]], sch, base, i + 1)
  {
  }

  /** The next eight words, from place i on. */
  method EightWords<W>(o: WordOps<W>, w: seq<W>, i: nat, ghost sch: seq<W>, ghost base: nat) returns (r: seq<W>)
    requires i <= 8 && Rolling(w, sch, base, i) && IsSchedule(o, sch)
    ensures Rolling(r, sch, base, i + 8) && r[i..i + 8] == sch[base + 16 + i..base + 24 + i]
  {
    r := w;
    for j := i to i + 8
      invariant Rolling(r, sch, base, j)
    {
      r := NextWord(o, r, j, sch, base);
    }
  }

  /** The 64 rounds in eight groups; from the third on, the words are computed as they are needed. */
  method Transform<W>(o: WordOps<W>, k: seq<W>, s: Vars<W>, chunk: seq<W>) returns (r: Vars<W>)
    requires |chunk| == 16 && |k| == 64
    ensures r == Compress(o, k, s, chunk)
  {
    ghost var sch := Schedule(o, chunk, |k|);
    ScheduleStart(o, chunk, |k|);
    forall t | 16 <= t < |sch|
      ensures sch[t] == Extension(o, sch, t)
    {
      ScheduleAt(o, chunk, |k|, t);
    }
    var v := AllRounds(o, k, s, chunk, sch);
    r := Vars(o.add(s.a, v.a), o.add(s.b, v.b), o.add(s.c, v.c), o.add(s.d, v.d),
      o.add(s.e, v.e), o.add(s.f, v.f), o.add(s.g, v.g), o.add(s.h, v.h));
  }

  method AllRounds<W>(o: WordOps<W>, k: seq<W>, s: Vars<W>, chunk: seq<W>, ghost sch: seq<W>) returns (v: Vars<W>)
    requires |chunk| == 16 && |k| == |sch| == 64 && sch[..16] == chunk && IsSchedule(o, sch)
    ensures v == Rounds(o, k, sch, s, |k|)
  {
    var w := chunk;
    v := EightRounds(o, s, k, w[..8], 0, sch, s);
    v := EightRounds(o, v, k, w[8..], 8, sch, s);
    for group := 1 to 4
      invariant v == Rounds(o, k, sch, s, 16 * group) && w == sch[16 * group - 16..16 * group]
    {
      v, w := SixteenRounds(o, v, k, w, 16 * group, sch, s);
    }
  }

  /** Sixteen rounds on words that are computed eight at a time. */
  method SixteenRounds<W>(o: WordOps<W>, v: Vars<W>, k: seq<W>, w: seq<W>, t: nat, ghost sch: seq<W>, ghost s: Vars<W>)
    returns (r: Vars<W>, u: seq<W>)
    requires 16 <= t && t + 16 <= |k| == |sch| && IsSchedule(o, sch)
    requires w == sch[t - 16..t] && v == Rounds(o, k, sch, s, t)
    ensures u == sch[t..t + 16] && r == Rounds(o, k, sch, s, t + 16)
  {
    u := EightWords(o, w, 0, sch, t - 16);
    r := EightRounds(o, v, k, u[..8], t, sch, s);
    u := EightWords(o, u, 8, sch, t - 16);
    r := EightRounds(o, r, k, u[8..], t + 8, sch, s);
  }
}
