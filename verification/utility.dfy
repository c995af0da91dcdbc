/**
 What the utility and the ranking key are worth: each metric's exact share of the utility, the
 error of rounding, and the key's order spelled out objective by objective.
 */
module Utility {
  import opened Basics
  import opened CellContracts
  import opened HardFilters
  import opened Ranking
  import Ordering
  import Rounding

  // ----- fractions

  lemma {:induction false} DivideDifference(x: real, y: real, d: real)
    requires d > 0.0
    ensures x / d - y / d == (x - y) / d
  {
  }

  lemma {:induction false} ProductDifference(w: real, x: real, y: real)
    ensures w * x - w * y == w * (x - y)
  {
  }

  // ----- one metric at a time

  /** A score falls by its share of the reference, down to zero at the reference. */
  lemma {:induction false} ScoreFalls(x: real, y: real, reference: real)
    requires 0.0 <= x <= y && 0.0 < reference
    ensures y <= reference ==> Score(x, reference) - Score(y, reference) == (y - x) / reference
    ensures reference <= x ==> Score(x, reference) == 0.0 == Score(y, reference)
  {
    DivideDifference(y, x, reference);
    RatioAgainstOne(x, reference);
    RatioAgainstOne(y, reference);
  }

  lemma {:induction false} RatioAgainstOne(x: real, reference: real)
    requires 0.0 < reference
    ensures x / reference <= 1.0 <==> x <= reference
    ensures x / reference >= 1.0 <==> x >= reference
  {
    var q := x / reference;
    assert q * reference == x;
    if q < 1.0 { assert (1.0 - q) * reference > 0.0; }
    if q > 1.0 { assert (q - 1.0) * reference > 0.0; }
  }

  lemma {:induction false} BlendDifference(
      wq: real, q: real, q': real, wl: real, l: real, l': real, wm: real, m: real, m': real)
    requires wq + wl + wm > 0.0
    ensures Blend(wq, q, wl, l, wm, m) - Blend(wq, q', wl, l', wm, m')
      == (wq * (q - q') + wl * (l - l') + wm * (m - m')) / (wq + wl + wm)
  {
    ProductDifference(wq, q, q');
    ProductDifference(wl, l, l');
    ProductDifference(wm, m, m');
    DivideDifference(wq * q + wl * l + wm * m, wq * q' + wl * l' + wm * m', wq + wl + wm);
  }

  /** What a falling score takes from the blend. */
  lemma {:induction false} WeightedFall(w: real, x: real, y: real, reference: real, total: real)
    requires 0.0 <= x <= y && 0.0 < reference && 0.0 < total
    ensures y <= reference ==>
      w * (Score(x, reference) - Score(y, reference)) / total == w * ((y - x) / reference) / total
    ensures reference <= x ==> w * (Score(x, reference) - Score(y, reference)) / total == 0.0
  {
    ScoreFalls(x, y, reference);
  }

  lemma {:induction false} BlendFall(
      wq: real, q: real, wl: real, l: real, wm: real, x: real, y: real, reference: real, total: real)
    requires 0.0 <= x <= y && 0.0 < reference && wq + wl + wm == total > 0.0
    ensures y <= reference ==>
      Blend(wq, q, wl, l, wm, Score(x, reference)) - Blend(wq, q, wl, l, wm, Score(y, reference))
      == wm * ((y - x) / reference) / total
    ensures reference <= x ==>
      Blend(wq, q, wl, l, wm, Score(x, reference)) == Blend(wq, q, wl, l, wm, Score(y, reference))
  {
    BlendDifference(wq, q, q, wl, l, l, wm, Score(x, reference), Score(y, reference));
    assert wq * (q - q) == 0.0 && wl * (l - l) == 0.0;
    WeightedFall(wm, x, y, reference, total);
  }

  /** The two cells agree on one metric. */
  predicate SameQuality(a: Assessment, b: Assessment)
    requires Rankable(a) && Rankable(b)
  {
    a.successRate == b.successRate
  }

  predicate SameLatency(a: Assessment, b: Assessment)
    requires Rankable(a) && Rankable(b)
  {
    a.p95LatencyMs == b.p95LatencyMs
  }

  predicate SameMemory(a: Assessment, b: Assessment)
    requires Rankable(a) && Rankable(b)
  {
    Memory(a) == Memory(b)
  }

  /** Quality counts in proportion to its weight. */
  lemma {:induction false} QualityShare(a: Assessment, b: Assessment, p: Profile)
    requires Rankable(a) && Rankable(b) && p.Valid() && SameLatency(a, b) && SameMemory(a, b)
    ensures RawUtility(a, p) - RawUtility(b, p)
      == p.qualityWeight * (a.successRate.value - b.successRate.value) / p.TotalWeight()
  {
    var l := Score(a.p95LatencyMs.value, p.latencyReferenceMs);
    var m := Score(Memory(a) as real, p.memoryReferenceBytes as real);
    BlendDifference(p.qualityWeight, a.successRate.value, b.successRate.value, p.latencyWeight, l, l,
                    p.memoryWeight, m, m);
  }

  /** Latency costs its share of the latency reference up to that reference, and nothing beyond. */
  lemma {:induction false} LatencyShare(a: Assessment, b: Assessment, p: Profile, x: real, y: real)
    requires Rankable(a) && Rankable(b) && p.Valid() && SameQuality(a, b) && SameMemory(a, b)
    requires x == a.p95LatencyMs.value <= b.p95LatencyMs.value == y
    ensures y <= p.latencyReferenceMs ==>
      RawUtility(a, p) - RawUtility(b, p) == p.latencyWeight * ((y - x) / p.latencyReferenceMs) / p.TotalWeight()
    ensures p.latencyReferenceMs <= x ==> RawUtility(a, p) == RawUtility(b, p)
  {
    var q, m := a.successRate.value, Score(Memory(a) as real, p.memoryReferenceBytes as real);
    BlendSwap(p.qualityWeight, q, p.latencyWeight, Score(x, p.latencyReferenceMs), p.memoryWeight, m);
    BlendSwap(p.qualityWeight, q, p.latencyWeight, Score(y, p.latencyReferenceMs), p.memoryWeight, m);
    BlendFall(p.qualityWeight, q, p.memoryWeight, m, p.latencyWeight, x, y, p.latencyReferenceMs, p.TotalWeight());
  }

  lemma {:induction false} BlendSwap(wq: real, q: real, wl: real, l: real, wm: real, m: real)
    requires wq + wl + wm > 0.0
    ensures wq + wm + wl == wq + wl + wm && Blend(wq, q, wl, l, wm, m) == Blend(wq, q, wm, m, wl, l)
  {
  }

  /** Memory costs its share of the memory reference in the same way; `x` and `y` are the bytes of
      the two cells and `reference` those of the reference, as reals. */
  lemma {:induction false} MemoryShare(
      a: Assessment, b: Assessment, p: Profile, x: real, y: real, reference: real)
    requires Rankable(a) && Rankable(b) && p.Valid() && SameQuality(a, b) && SameLatency(a, b)
    requires x == Memory(a) as real && y == Memory(b) as real && reference == p.memoryReferenceBytes as real
    requires x <= y
    ensures y <= reference ==>
      RawUtility(a, p) - RawUtility(b, p) == p.memoryWeight * ((y - x) / reference) / p.TotalWeight()
    ensures reference <= x ==> RawUtility(a, p) == RawUtility(b, p)
  {
    var q, l := a.successRate.value, Score(a.p95LatencyMs.value, p.latencyReferenceMs);
    BlendFall(p.qualityWeight, q, p.latencyWeight, l, p.memoryWeight, x, y, reference, p.TotalWeight());
  }

  /** At or beyond both references only quality counts, which fixes the scale of the utility. */
  lemma {:induction false} BeyondReferences(c: Assessment, p: Profile)
    requires Rankable(c) && p.Valid()
    requires c.p95LatencyMs.value >= p.latencyReferenceMs && Memory(c) >= p.memoryReferenceBytes
    ensures RawUtility(c, p) == p.qualityWeight * c.successRate.value / p.TotalWeight()
  {
    ScoreFalls(c.p95LatencyMs.value, c.p95LatencyMs.value, p.latencyReferenceMs);
    ScoreFalls(Memory(c) as real, Memory(c) as real, p.memoryReferenceBytes as real);
  }

  /** Rounding moves a value by at most half a unit of the twelfth decimal, to a multiple of that unit. */
  lemma {:induction false} RoundingError(x: real)
    ensures -0.5 <= (Rounding.Round12(x) - x) * Rounding.SCALE <= 0.5
    ensures Rounding.Round12(x) * Rounding.SCALE == Rounding.HalfEven(x * Rounding.SCALE) as real
  {
    var n := Rounding.HalfEven(x * Rounding.SCALE) as real;
    assert n / Rounding.SCALE * Rounding.SCALE == n;
  }

  /** The utility a ranked record carries. */
  lemma {:induction false} RankedUtility(c: Assessment, p: Profile)
    requires Rankable(c) && p.Valid()
    ensures var u := Rank(c, p).utility;
      u.Some? && -0.5 <= (u.value - RawUtility(c, p)) * Rounding.SCALE <= 0.5
    ensures Rank(c, p).(utility := c.utility, paretoEligible := c.paretoEligible) == c
  {
    RoundingError(RawUtility(c, p));
  }

  /** The total memory of an eligible cell is the sum over the pools it occupies. */
  lemma {:induction false} MemoryIs(c: Assessment)
    requires Rankable(c)
    ensures c.pool == Some(Host) ==> Memory(c) == c.peaks.host.value
    ensures c.pool == Some(Unified) ==> Memory(c) == c.peaks.unified.value
    ensures c.pool == Some(Accelerator) ==> Memory(c) == c.peaks.host.value + c.peaks.accelerator.value
  {
  }

  // ----- the order of keys

  lemma {:induction false} ConsLess(x: real, s: seq<real>, y: real, t: seq<real>)
    ensures ScoresLess([x] + s, [y] + t) <==> x < y || (x == y && ScoresLess(s, t))
    ensures [x] + s == [y] + t <==> x == y && s == t
  {
    assert ([x] + s)[1..] == s && ([y] + t)[1..] == t;
    assert ([x] + s)[0] == x && ([y] + t)[0] == y;
  }

  /** An objective that is not active is passed over. */
  lemma {:induction false} WhenLess(active: bool, x: real, s: seq<real>, y: real, t: seq<real>)
    ensures ScoresLess(When(active, x) + s, When(active, y) + t) <==>
      (active && x < y) || ((active ==> x == y) && ScoresLess(s, t))
    ensures When(active, x) + s == When(active, y) + t <==> (active ==> x == y) && s == t
  {
    if active { ConsLess(x, s, y, t); } else { assert [] + s == s && [] + t == t; }
  }

  /** First the active metrics in the order quality, latency, memory, each better or tied; then the id. */
  ghost predicate BreaksTie(a: Assessment, b: Assessment, p: Profile)
    requires Rankable(a) && Rankable(b)
  {
    var quality, latency, memory := p.qualityWeight > 0.0, p.latencyWeight > 0.0, p.memoryWeight > 0.0;
    || (quality && a.successRate.value > b.successRate.value)
    || ((quality ==> SameQuality(a, b))
        && (|| (latency && a.p95LatencyMs.value < b.p95LatencyMs.value)
            || ((latency ==> SameLatency(a, b))
                && (|| (memory && Memory(a) < Memory(b))
                    || ((memory ==> SameMemory(a, b)) && Ordering.LexicallyBefore(a.cellId, b.cellId))))))
  }

  lemma {:induction false} ObjectivesOrder(a: Assessment, b: Assessment, p: Profile)
    requires Rankable(a) && Rankable(b)
    ensures BreaksTie(a, b, p) <==>
      || ScoresLess(Objectives(a, p), Objectives(b, p))
      || (Objectives(a, p) == Objectives(b, p) && Ordering.Less(a.cellId, b.cellId))
  {
    var ma, mb := When(p.memoryWeight > 0.0, Memory(a) as real), When(p.memoryWeight > 0.0, Memory(b) as real);
    var la, lb := a.p95LatencyMs.value, b.p95LatencyMs.value;
    assert ma + [] == ma && mb + [] == mb;
    WhenLess(p.memoryWeight > 0.0, Memory(a) as real, [], Memory(b) as real, []);
    WhenLess(p.latencyWeight > 0.0, la, ma, lb, mb);
    WhenLess(p.qualityWeight > 0.0, -a.successRate.value, When(p.latencyWeight > 0.0, la) + ma,
             -b.successRate.value, When(p.latencyWeight > 0.0, lb) + mb);
    Ordering.LessIffLexical(a.cellId, b.cellId);
  }

  /** A cell precedes another exactly when its rounded utility is higher, or equal and the tie is
      broken its way. */
  lemma {:induction false} PrecedesIff(a: Assessment, b: Assessment, p: Profile)
    requires Rankable(a) && Rankable(b) && p.Valid()
    ensures KeyLess(KeyOf(a, p), KeyOf(b, p)) <==>
      var ua, ub := Rounding.Round12(RawUtility(a, p)), Rounding.Round12(RawUtility(b, p));
      ua > ub || (ua == ub && BreaksTie(a, b, p))
  {
    var ua, ub := Rounding.Round12(RawUtility(a, p)), Rounding.Round12(RawUtility(b, p));
    RankKeepsObjectives(a, p);
    RankKeepsObjectives(b, p);
    ConsLess(-ua, Objectives(a, p), -ub, Objectives(b, p));
    ObjectivesOrder(a, b, p);
  }

  /** Dominance is being no worse on every active objective and better on one. */
  lemma {:induction false} DominatesIffObjectives(a: Assessment, b: Assessment, p: Profile)
    requires Rankable(a) && Rankable(b)
    ensures Dominates(a, b, p) <==>
      NoWorse(Objectives(a, p), Objectives(b, p)) && SomeBetter(Objectives(a, p), Objectives(b, p))
  {
    if Dominates(a, b, p) { DominanceOrdersObjectives(a, b, p); }
    var qa, qb := When(p.qualityWeight > 0.0, -a.successRate.value), When(p.qualityWeight > 0.0, -b.successRate.value);
    var la, lb := When(p.latencyWeight > 0.0, a.p95LatencyMs.value), When(p.latencyWeight > 0.0, b.p95LatencyMs.value);
    var ma, mb := When(p.memoryWeight > 0.0, Memory(a) as real), When(p.memoryWeight > 0.0, Memory(b) as real);
    if NoWorse(Objectives(a, p), Objectives(b, p)) && SomeBetter(Objectives(a, p), Objectives(b, p)) {
      Split(qa, qb, la + ma, lb + mb);
      Split(la, lb, ma, mb);
      OneObjectiveBack(p.qualityWeight > 0.0, -a.successRate.value, -b.successRate.value);
      OneObjectiveBack(p.latencyWeight > 0.0, a.p95LatencyMs.value, b.p95LatencyMs.value);
      OneObjectiveBack(p.memoryWeight > 0.0, Memory(a) as real, Memory(b) as real);
    }
  }

  lemma {:induction false} OneObjectiveBack(condition: bool, x: real, y: real)
    requires NoWorse(When(condition, x), When(condition, y))
    ensures condition ==> x <= y
    ensures SomeBetter(When(condition, x), When(condition, y)) ==> condition && x < y
  {
    if condition { assert When(condition, x)[0] == x && When(condition, y)[0] == y; }
  }

  lemma {:induction false} Split(a: seq<real>, b: seq<real>, c: seq<real>, d: seq<real>)
    requires |a| == |b| && NoWorse(a + c, b + d)
    ensures NoWorse(a, b) && NoWorse(c, d)
    ensures SomeBetter(a + c, b + d) ==> SomeBetter(a, b) || SomeBetter(c, d)
  {
    var s, t := a + c, b + d;
    forall i | 0 <= i < |a| ensures a[i] <= b[i] { assert s[i] <= t[i]; }
    forall i | 0 <= i < |c| ensures c[i] <= d[i] { assert s[|a| + i] <= t[|a| + i]; }
    if SomeBetter(s, t) {
      var i :| 0 <= i < |s| && s[i] < t[i];
      if i < |a| { assert a[i] < b[i]; } else { assert c[i - |a|] < d[i - |a|]; }
    }
  }
}
