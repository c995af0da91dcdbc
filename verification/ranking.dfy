/**
 Dominance, utility and the lexicographic ranking key of the selector, and why a
 dominating candidate always has the smaller key.
 */
module Ranking {
  import opened Basics
  import opened CellContracts
  import opened HardFilters
  import Ordering
  import Rounding

  /** An eligible, constructor-approved assessment: every ranked metric is present. */
  predicate Rankable(c: Assessment) { c.Valid() && c.hardEligible }

  lemma {:induction false} RankableHasMemory(c: Assessment)
    requires Rankable(c)
    ensures c.TotalMemory().Some?
  {
  }

  function Memory(c: Assessment): nat
    requires Rankable(c)
  {
    RankableHasMemory(c);
    c.TotalMemory().value
  }

  /** No worse on every active objective and better on at least one. */
  predicate Dominates(left: Assessment, right: Assessment, p: Profile)
    requires Rankable(left) && Rankable(right)
  {
    && (p.qualityWeight > 0.0 ==> left.successRate.value >= right.successRate.value)
    && (p.latencyWeight > 0.0 ==> left.p95LatencyMs.value <= right.p95LatencyMs.value)
    && (p.memoryWeight > 0.0 ==> Memory(left) <= Memory(right))
    && ( || (p.qualityWeight > 0.0 && left.successRate.value > right.successRate.value)
         || (p.latencyWeight > 0.0 && left.p95LatencyMs.value < right.p95LatencyMs.value)
         || (p.memoryWeight > 0.0 && Memory(left) < Memory(right)))
  }

  lemma {:induction false} DominatesTransitive(a: Assessment, b: Assessment, c: Assessment, p: Profile)
    requires Rankable(a) && Rankable(b) && Rankable(c)
    requires Dominates(a, b, p) && Dominates(b, c, p)
    ensures Dominates(a, c, p)
  {
  }

  /** `max(0, 1 - value / reference)`. */
  function Score(value: real, reference: real): (s: real)
    requires 0.0 <= value && 0.0 < reference
    ensures 0.0 <= s <= 1.0
  {
    RatioNonNegative(value, reference);
    var s := 1.0 - value / reference;
    if s < 0.0 then 0.0 else s
  }

  lemma {:induction false} RatioNonNegative(value: real, reference: real)
    requires 0.0 <= value && 0.0 < reference
    ensures 0.0 <= value / reference
  {
  }

  lemma {:induction false} ScoreAntitone(x: real, y: real, reference: real)
    requires 0.0 <= x <= y && 0.0 < reference
    ensures Score(x, reference) >= Score(y, reference)
  {
    RatioNonNegative(y - x, reference);
    assert (y - x) / reference == y / reference - x / reference;
  }

  /** The weighted mean of the three scores. */
  function Blend(wq: real, q: real, wl: real, l: real, wm: real, m: real): real
    requires wq + wl + wm > 0.0
  {
    (wq * q + wl * l + wm * m) / (wq + wl + wm)
  }

  lemma {:induction false} Weighted(w: real, x: real, y: real, wx: real, wy: real)
    requires 0.0 <= w && (w > 0.0 ==> x <= y)
    requires wx == w * x && wy == w * y
    ensures wx <= wy
  {
    if w == 0.0 {
      assert wx == 0.0 && wy == 0.0;
    } else {
      NonNegativeProduct(w, y - x);
      assert w * (y - x) == w * y - w * x;
    }
  }

  lemma {:induction false} NonNegativeProduct(a: real, b: real)
    requires 0.0 <= a && 0.0 <= b
    ensures 0.0 <= a * b
  {
  }

  lemma {:induction false} DivideMonotone(x: real, y: real, w: real)
    requires x <= y && 0.0 < w
    ensures x / w <= y / w
  {
    RatioNonNegative(y - x, w);
    assert (y - x) / w == y / w - x / w;
  }

  lemma {:induction false} BlendMonotone(
      wq: real, q: real, q': real, wl: real, l: real, l': real, wm: real, m: real, m': real)
    requires wq >= 0.0 && wl >= 0.0 && wm >= 0.0 && wq + wl + wm > 0.0
    requires (wq > 0.0 ==> q <= q') && (wl > 0.0 ==> l <= l') && (wm > 0.0 ==> m <= m')
    ensures Blend(wq, q, wl, l, wm, m) <= Blend(wq, q', wl, l', wm, m')
  {
    var w, n, n' := wq + wl + wm, wq * q + wl * l + wm * m, wq * q' + wl * l' + wm * m';
    Weighted(wq, q, q', wq * q, wq * q');
    Weighted(wl, l, l', wl * l, wl * l');
    Weighted(wm, m, m', wm * m, wm * m');
    DivideMonotone(n, n', w);
  }

  lemma {:induction false} BlendConstant(wq: real, wl: real, wm: real)
    requires wq + wl + wm > 0.0
    ensures Blend(wq, 0.0, wl, 0.0, wm, 0.0) == 0.0 && Blend(wq, 1.0, wl, 1.0, wm, 1.0) == 1.0
  {
    assert wq * 1.0 + wl * 1.0 + wm * 1.0 == wq + wl + wm;
    assert (wq + wl + wm) / (wq + wl + wm) == 1.0;
  }

  function RawUtility(c: Assessment, p: Profile): real
    requires Rankable(c) && p.Valid()
  {
    Blend(p.qualityWeight, c.successRate.value,
          p.latencyWeight, Score(c.p95LatencyMs.value, p.latencyReferenceMs),
          p.memoryWeight, Score(Memory(c) as real, p.memoryReferenceBytes as real))
  }

  /** The utility lies in [0, 1], before and after rounding. */
  lemma {:induction false} UtilityInUnit(c: Assessment, p: Profile)
    requires Rankable(c) && p.Valid()
    ensures 0.0 <= RawUtility(c, p) <= 1.0
    ensures 0.0 <= Rounding.Round12(RawUtility(c, p)) <= 1.0
  {
    var q, l := c.successRate.value, Score(c.p95LatencyMs.value, p.latencyReferenceMs);
    var m := Score(Memory(c) as real, p.memoryReferenceBytes as real);
    BlendConstant(p.qualityWeight, p.latencyWeight, p.memoryWeight);
    BlendMonotone(p.qualityWeight, 0.0, q, p.latencyWeight, 0.0, l, p.memoryWeight, 0.0, m);
    BlendMonotone(p.qualityWeight, q, 1.0, p.latencyWeight, l, 1.0, p.memoryWeight, m, 1.0);
    Rounding.Round12Unit(RawUtility(c, p));
  }

  /** A candidate that is no worse on every active objective has at least the utility, before and
      after rounding. */
  lemma {:induction false} UtilityMonotone(a: Assessment, b: Assessment, p: Profile)
    requires Rankable(a) && Rankable(b) && p.Valid()
    requires p.qualityWeight > 0.0 ==> a.successRate.value >= b.successRate.value
    requires p.latencyWeight > 0.0 ==> a.p95LatencyMs.value <= b.p95LatencyMs.value
    requires p.memoryWeight > 0.0 ==> Memory(a) <= Memory(b)
    ensures RawUtility(a, p) >= RawUtility(b, p)
    ensures Rounding.Round12(RawUtility(a, p)) >= Rounding.Round12(RawUtility(b, p))
  {
    var la, lb := Score(a.p95LatencyMs.value, p.latencyReferenceMs), Score(b.p95LatencyMs.value, p.latencyReferenceMs);
    var ref := p.memoryReferenceBytes as real;
    var ma, mb := Score(Memory(a) as real, ref), Score(Memory(b) as real, ref);
    if p.latencyWeight > 0.0 { ScoreAntitone(a.p95LatencyMs.value, b.p95LatencyMs.value, p.latencyReferenceMs); }
    if p.memoryWeight > 0.0 { ScoreAntitone(Memory(a) as real, Memory(b) as real, ref); }
    BlendMonotone(p.qualityWeight, b.successRate.value, a.successRate.value,
                  p.latencyWeight, lb, la, p.memoryWeight, mb, ma);
    Rounding.Round12Monotone(RawUtility(b, p), RawUtility(a, p));
  }

  /** The ranked record; its constructor accepts it because the rounded utility is in [0, 1]. */
  function Rank(c: Assessment, p: Profile): (r: Assessment)
    requires Rankable(c) && p.Valid()
    ensures Rankable(r) && r.paretoEligible
  {
    UtilityInUnit(c, p);
    c.(paretoEligible := true, utility := Some(Rounding.Round12(RawUtility(c, p))))
  }

  // ----- the ranking key

  datatype Key = Key(scores: seq<real>, id: string)

  function When(condition: bool, x: real): seq<real> { if condition then [x] else [] }

  /** Active objectives in the order the key lists them, smaller is better. */
  function Objectives(c: Assessment, p: Profile): seq<real>
    requires Rankable(c)
  {
    When(p.qualityWeight > 0.0, -c.successRate.value)
    + (When(p.latencyWeight > 0.0, c.p95LatencyMs.value)
    + When(p.memoryWeight > 0.0, Memory(c) as real))
  }

  function RankingKey(c: Assessment, p: Profile): Key
    requires Rankable(c) && c.utility.Some?
  {
    Key([-c.utility.value] + Objectives(c, p), c.cellId)
  }

  /** The key a candidate gets once it is ranked. */
  function KeyOf(c: Assessment, p: Profile): Key
    requires Rankable(c) && p.Valid()
  {
    RankingKey(Rank(c, p), p)
  }

  predicate ScoresLess(a: seq<real>, b: seq<real>) {
    b != [] && (a == [] || a[0] < b[0] || (a[0] == b[0] && ScoresLess(a[1..], b[1..])))
  }

  /** Python's tuple comparison: scores first, then the cell id. */
  predicate KeyLess(a: Key, b: Key) {
    ScoresLess(a.scores, b.scores) || (a.scores == b.scores && Ordering.Less(a.id, b.id))
  }

  lemma {:induction false} ScoresTransitive(a: seq<real>, b: seq<real>, c: seq<real>)
    requires ScoresLess(a, b) && ScoresLess(b, c)
    ensures ScoresLess(a, c)
  {
    if a != [] && a[0] == b[0] && b[0] == c[0] { ScoresTransitive(a[1..], b[1..], c[1..]); }
  }

  lemma {:induction false} ScoresTotal(a: seq<real>, b: seq<real>)
    ensures ScoresLess(a, b) || a == b || ScoresLess(b, a)
    ensures !ScoresLess(a, a)
  {
    if a != [] {
      ScoresTotal(a[1..], if b == [] then [] else b[1..]);
      if b != [] { assert a == [a[0]] + a[1..] && b == [b[0]] + b[1..]; }
    }
  }

  lemma {:induction false} KeyTransitive(a: Key, b: Key, c: Key)
    requires KeyLess(a, b) && KeyLess(b, c)
    ensures KeyLess(a, c)
  {
    if ScoresLess(a.scores, b.scores) && ScoresLess(b.scores, c.scores) {
      ScoresTransitive(a.scores, b.scores, c.scores);
    } else if a.scores == b.scores && b.scores == c.scores {
      ScoresTotal(a.scores, a.scores);
      Ordering.LessTransitive(a.id, b.id, c.id);
    }
  }

  lemma {:induction false} KeyIrreflexive(a: Key)
    ensures !KeyLess(a, a)
  {
    ScoresTotal(a.scores, a.scores);
    Ordering.LessIrreflexive(a.id);
  }

  /** Two keys with different ids are always strictly ordered one way. */
  lemma {:induction false} KeyTotal(a: Key, b: Key)
    requires a.id != b.id
    ensures KeyLess(a, b) || KeyLess(b, a)
  {
    ScoresTotal(a.scores, b.scores);
    Ordering.LessTotal(a.id, b.id);
  }

  ghost predicate NoWorse(a: seq<real>, b: seq<real>) {
    |a| == |b| && forall i | 0 <= i < |a| :: a[i] <= b[i]
  }

  ghost predicate SomeBetter(a: seq<real>, b: seq<real>) {
    |a| == |b| && exists i :: 0 <= i < |a| && a[i] < b[i]
  }

  lemma {:induction false} PointwiseMeansLess(a: seq<real>, b: seq<real>)
    requires NoWorse(a, b) && SomeBetter(a, b)
    ensures ScoresLess(a, b)
  {
    if a[0] == b[0] {
      var i :| 0 <= i < |a| && a[i] < b[i];
      assert a[1..][i - 1] < b[1..][i - 1];
      PointwiseMeansLess(a[1..], b[1..]);
    }
  }

  lemma {:induction false} Appended(a: seq<real>, b: seq<real>, c: seq<real>, d: seq<real>)
    requires NoWorse(a, b) && NoWorse(c, d)
    ensures NoWorse(a + c, b + d)
    ensures SomeBetter(a, b) || SomeBetter(c, d) ==> SomeBetter(a + c, b + d)
  {
    if SomeBetter(a, b) {
      var i :| 0 <= i < |a| && a[i] < b[i];
      assert (a + c)[i] < (b + d)[i];
    } else if SomeBetter(c, d) {
      var i :| 0 <= i < |c| && c[i] < d[i];
      assert (a + c)[|a| + i] < (b + d)[|b| + i];
    }
  }

  lemma {:induction false} OneObjective(condition: bool, x: real, y: real)
    requires condition ==> x <= y
    ensures NoWorse(When(condition, x), When(condition, y))
    ensures condition && x < y ==> SomeBetter(When(condition, x), When(condition, y))
  {
    if condition && x < y { assert When(condition, x)[0] < When(condition, y)[0]; }
  }

  /** Dominance, read off the objective list. */
  lemma {:induction false} DominanceOrdersObjectives(a: Assessment, b: Assessment, p: Profile)
    requires Rankable(a) && Rankable(b) && Dominates(a, b, p)
    ensures NoWorse(Objectives(a, p), Objectives(b, p)) && SomeBetter(Objectives(a, p), Objectives(b, p))
  {
    var qa, qb := When(p.qualityWeight > 0.0, -a.successRate.value), When(p.qualityWeight > 0.0, -b.successRate.value);
    var la, lb := When(p.latencyWeight > 0.0, a.p95LatencyMs.value), When(p.latencyWeight > 0.0, b.p95LatencyMs.value);
    var ma, mb := When(p.memoryWeight > 0.0, Memory(a) as real), When(p.memoryWeight > 0.0, Memory(b) as real);
    OneObjective(p.qualityWeight > 0.0, -a.successRate.value, -b.successRate.value);
    OneObjective(p.latencyWeight > 0.0, a.p95LatencyMs.value, b.p95LatencyMs.value);
    OneObjective(p.memoryWeight > 0.0, Memory(a) as real, Memory(b) as real);
    Appended(la, lb, ma, mb);
    Appended(qa, qb, la + ma, lb + mb);
  }

  lemma {:induction false} RankKeepsObjectives(c: Assessment, p: Profile)
    requires Rankable(c) && p.Valid()
    ensures Objectives(Rank(c, p), p) == Objectives(c, p)
    ensures KeyOf(c, p) == Key([-Rounding.Round12(RawUtility(c, p))] + Objectives(c, p), c.cellId)
  {
    assert Memory(Rank(c, p)) == Memory(c);
  }

  /** Dominance forces the strictly smaller ranking key, clamped scores and rounding included. */
  lemma {:induction false} DominanceDecreasesKey(a: Assessment, b: Assessment, p: Profile)
    requires Rankable(a) && Rankable(b) && p.Valid()
    requires Dominates(a, b, p)
    ensures KeyLess(KeyOf(a, p), KeyOf(b, p))
  {
    var ua, ub := Rounding.Round12(RawUtility(a, p)), Rounding.Round12(RawUtility(b, p));
    assert ub <= ua by {
      UtilityMonotone(a, b, p);
      Rounding.Round12Monotone(RawUtility(b, p), RawUtility(a, p));
    }
    DominanceOrdersObjectives(a, b, p);
    Appended([-ua], [-ub], Objectives(a, p), Objectives(b, p));
    PointwiseMeansLess([-ua] + Objectives(a, p), [-ub] + Objectives(b, p));
    RankKeepsObjectives(a, p);
    RankKeepsObjectives(b, p);
  }
}
