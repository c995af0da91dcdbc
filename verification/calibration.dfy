/**
 Expected calibration error by equal-width bins, and its exact bounds. `Ece` groups and sums
 the way the evaluation does; `CalibrationError` is the sum over all bins it must equal.
 */
module Calibration {
  import opened Basics
  import opened Grouping
  import opened Rounding

  /** A predicted probability and the 0/1 outcome. */
  datatype Sample = Sample(prediction: real, target: int)
  {
    predicate Valid() { 0.0 <= prediction <= 1.0 && 0 <= target <= 1 }
  }

  ghost predicate AllValid(samples: seq<Sample>) { forall s | s in samples :: s.Valid() }

  function Abs(x: real): real { if x < 0.0 then -x else x }

  function Gap(s: Sample): real { s.prediction - s.target as real }

  const GAP: Sample -> real := s => Gap(s)
  const ABSOLUTE: Sample -> real := s => Abs(Gap(s))
  const SQUARED: Sample -> real := s => Gap(s) * Gap(s)
  const PREDICTION: Sample -> real := (s: Sample) => s.prediction
  const TARGET: Sample -> real := (s: Sample) => s.target as real

  /** The bin of a prediction; 1 falls into the last one. */
  function Bin(prediction: real, bins: int): int { Min(bins - 1, (prediction * bins as real).Floor) }

  function Binning(bins: int): Sample -> int { (s: Sample) => Bin(s.prediction, bins) }

  /** How far predictions and outcomes of one bin are apart in total. */
  function BinGap(samples: seq<Sample>, key: Sample -> int, b: int): real { Total(Members(samples, key, b), GAP) }

  /** The distances of the bins 0 .. bins - 1. */
  function Gaps(samples: seq<Sample>, key: Sample -> int, bins: nat): (g: seq<real>)
    ensures |g| == bins && forall b | 0 <= b < bins :: g[b] == BinGap(samples, key, b)
  {
    seq(bins, b requires 0 <= b < bins => BinGap(samples, key, b))
  }

  function AbsoluteSum(g: seq<real>): real {
    if g == [] then 0.0 else var n := |g| - 1; AbsoluteSum(g[..n]) + Abs(g[n])
  }

  /** Expected calibration error before rounding. */
  function CalibrationError(samples: seq<Sample>, bins: nat): real {
    if samples == [] then 0.0 else AbsoluteSum(Gaps(samples, Binning(bins), bins)) / |samples| as real
  }

  function MeanAbsolute(samples: seq<Sample>): real {
    if samples == [] then 0.0 else Total(samples, ABSOLUTE) / |samples| as real
  }

  /** The Brier score before rounding. */
  function Brier(samples: seq<Sample>): real {
    if samples == [] then 0.0 else Total(samples, SQUARED) / |samples| as real
  }

  lemma {:induction false} BinInRange(p: real, bins: nat)
    requires 0.0 <= p <= 1.0 && bins >= 1
    ensures 0 <= Bin(p, bins) < bins
  {
    assert p * bins as real >= 0.0;
  }

  // ----- the bound by the mean absolute error

  /** `h` is `g` with `d` added at one bin, if that is in range. */
  ghost predicate ChangedAt(g: seq<real>, h: seq<real>, bin: int, d: real) {
    |g| == |h| && forall b | 0 <= b < |g| :: h[b] == g[b] + if b == bin then d else 0.0
  }

  lemma {:induction false} GapsChange(samples: seq<Sample>, s: Sample, key: Sample -> int, bins: nat)
    ensures ChangedAt(Gaps(samples, key, bins), Gaps(samples + [s], key, bins), key(s), Gap(s))
  {
    forall b | 0 <= b < bins
      ensures BinGap(samples + [s], key, b) == BinGap(samples, key, b) + if b == key(s) then Gap(s) else 0.0
    {
      MembersAdd(samples, s, key, b, GAP);
    }
  }

  lemma {:induction false} AbsoluteSumChange(g: seq<real>, h: seq<real>, bin: int, d: real)
    requires ChangedAt(g, h, bin, d)
    ensures AbsoluteSum(h) <= AbsoluteSum(g) + Abs(d)
    ensures !(0 <= bin < |g|) ==> AbsoluteSum(h) == AbsoluteSum(g)
  {
    if g != [] {
      var n := |g| - 1;
      AbsoluteSumChange(g[..n], h[..n], bin, d);
    }
  }

  lemma {:induction false} AbsoluteSumNonnegative(g: seq<real>)
    ensures AbsoluteSum(g) >= 0.0
    ensures (forall b | 0 <= b < |g| :: g[b] == 0.0) ==> AbsoluteSum(g) == 0.0
  {
    if g != [] { AbsoluteSumNonnegative(g[..|g| - 1]); }
  }

  lemma {:induction false} GapsBounded(samples: seq<Sample>, key: Sample -> int, bins: nat)
    ensures 0.0 <= AbsoluteSum(Gaps(samples, key, bins)) <= Total(samples, ABSOLUTE)
  {
    AbsoluteSumNonnegative(Gaps(samples, key, bins));
    if samples != [] {
      var front, s := samples[..|samples| - 1], samples[|samples| - 1];
      assert samples == front + [s];
      GapsBounded(front, key, bins);
      GapsChange(front, s, key, bins);
      AbsoluteSumChange(Gaps(front, key, bins), Gaps(front + [s], key, bins), key(s), Gap(s));
      TotalSplit(front, s, ABSOLUTE);
    }
  }

  lemma {:induction false} DivideBoth(a: real, b: real, n: real)
    requires a <= b && n > 0.0
    ensures a / n <= b / n
  {
  }

  /** 0 <= ECE <= mean |p - t|, for any number of bins. */
  lemma {:induction false} ErrorAtMostMeanAbsolute(samples: seq<Sample>, bins: nat)
    ensures 0.0 <= CalibrationError(samples, bins) <= MeanAbsolute(samples)
  {
    if samples != [] {
      var total := AbsoluteSum(Gaps(samples, Binning(bins), bins));
      GapsBounded(samples, Binning(bins), bins);
      DivideBoth(0.0, total, |samples| as real);
      DivideBoth(total, Total(samples, ABSOLUTE), |samples| as real);
    }
  }

  // ----- the bound by the Brier score

  /** One step of the inequality between the square of a sum and the sum of squares. */
  lemma {:induction false} SquareStep(sum: real, squares: real, x: real, n: real)
    requires n >= 0.0 && sum * sum <= n * squares && (n == 0.0 ==> sum == 0.0 && squares == 0.0)
    ensures (sum + x) * (sum + x) <= (n + 1.0) * (squares + x * x)
  {
    if n > 0.0 {
      var d := sum - n * x;
      assert d * d >= 0.0;
      assert d * d == sum * sum - 2.0 * n * (sum * x) + n * (n * (x * x));
      assert n * (squares + n * (x * x) - 2.0 * (sum * x)) >= 0.0;
      PositiveFactor(n, squares + n * (x * x) - 2.0 * (sum * x));
    }
  }

  lemma {:induction false} PositiveFactor(n: real, y: real)
    requires n > 0.0 && n * y >= 0.0
    ensures y >= 0.0
  {
    assert y == (n * y) / n;
  }

  lemma {:induction false} AbsoluteStep(sum: real, squares: real, g: real, n: real)
    requires n >= 0.0 && sum * sum <= n * squares && (n == 0.0 ==> sum == 0.0 && squares == 0.0)
    ensures (sum + Abs(g)) * (sum + Abs(g)) <= (n + 1.0) * (squares + g * g)
  {
    assert Abs(g) * Abs(g) == g * g;
    SquareStep(sum, squares, Abs(g), n);
  }

  lemma {:induction false} SumSquared(samples: seq<Sample>)
    ensures Total(samples, ABSOLUTE) * Total(samples, ABSOLUTE) <= |samples| as real * Total(samples, SQUARED)
    ensures samples == [] ==> Total(samples, ABSOLUTE) == 0.0 && Total(samples, SQUARED) == 0.0
  {
    if samples != [] {
      var n := |samples| - 1;
      SumSquared(samples[..n]);
      AbsoluteStep(Total(samples[..n], ABSOLUTE), Total(samples[..n], SQUARED), Gap(samples[n]), n as real);
      assert |samples| as real == n as real + 1.0;
    }
  }

  lemma {:induction false} SquareOfMean(sum: real, squares: real, n: real)
    requires n > 0.0 && sum * sum <= n * squares
    ensures (sum / n) * (sum / n) <= squares / n
  {
    var m := sum / n;
    assert m * n == sum;
    assert n * (n * (m * m)) <= n * squares;
    PositiveFactor(n, squares - n * (m * m));
    assert (n * (m * m)) / n == m * m;
    DivideBoth(n * (m * m), squares, n);
  }

  lemma {:induction false} SquareMonotone(a: real, b: real)
    requires 0.0 <= a <= b
    ensures a * a <= b * b
  {
    assert a * a <= a * b && a * b <= b * b;
  }

  lemma {:induction false} MeanSquared(samples: seq<Sample>)
    ensures MeanAbsolute(samples) * MeanAbsolute(samples) <= Brier(samples)
  {
    if samples != [] {
      SumSquared(samples);
      SquareOfMean(Total(samples, ABSOLUTE), Total(samples, SQUARED), |samples| as real);
    }
  }

  /** The square of the calibration error never exceeds the Brier score. */
  lemma {:induction false} ErrorSquaredAtMostBrier(samples: seq<Sample>, bins: nat)
    ensures CalibrationError(samples, bins) * CalibrationError(samples, bins) <= Brier(samples)
  {
    ErrorAtMostMeanAbsolute(samples, bins);
    SquareMonotone(CalibrationError(samples, bins), MeanAbsolute(samples));
    MeanSquared(samples);
  }

  // ----- refining the bins

  lemma {:induction false} CastProduct(a: nat, b: nat, ab: nat)
    requires ab == a * b
    ensures ab as real == a as real * b as real
  {
  }

  lemma {:induction false} Scaled(x: real, y: real, c: real)
    requires c > 0.0
    ensures x <= y ==> x * c <= y * c
    ensures x < y ==> x * c < y * c
  {
    if x < y { assert (y - x) * c > 0.0; }
  }

  lemma {:induction false} BelowMultiple(x: real, k: nat, m: nat, y: real, km: nat)
    requires m >= 1 && y == x * m as real && km == k * m
    ensures x < k as real ==> y < km as real
    ensures k as real <= x ==> km as real <= y
  {
    CastProduct(k, m, km);
    Scaled(x, k as real, m as real);
    Scaled(k as real, x, m as real);
  }

  lemma {:induction false} FloorBy(x: real, m: nat, y: real)
    requires m >= 1 && x >= 0.0 && y == x * m as real
    ensures x.Floor >= 0 && y.Floor / m == x.Floor
  {
    var f := x.Floor;
    var lo, hi := f * m, (f + 1) * m;
    BelowMultiple(x, f, m, y, lo);
    BelowMultiple(x, f + 1, m, y, hi);
    FloorBetween(y, lo, hi);
    QuotientIs(y.Floor, m, f);
  }

  lemma {:induction false} FloorBetween(y: real, lo: int, hi: int)
    requires lo as real <= y < hi as real
    ensures lo <= y.Floor < hi
  {
  }

  lemma {:induction false} NextMultiple(a: nat, b: nat, m: nat)
    ensures a < b ==> (a + 1) * m <= b * m
  {
    if a < b { assert (b - a - 1) * m >= 0; }
  }

  lemma {:induction false} QuotientIs(g: nat, m: nat, f: nat)
    requires m >= 1 && f * m <= g < (f + 1) * m
    ensures g / m == f
  {
    var q := g / m;
    assert q * m <= g < (q + 1) * m;
    NextMultiple(q, f, m);
    NextMultiple(f, q, m);
  }

  lemma {:induction false} BinBelowOne(p: real, bins: nat)
    requires 0.0 <= p < 1.0 && bins >= 1
    ensures Bin(p, bins) == (p * bins as real).Floor
  {
    var y := p * bins as real;
    UnitTimes(p, bins as real, y);
    FloorBetween(y, 0, bins);
  }

  lemma {:induction false} UnitTimes(p: real, n: real, y: real)
    requires 0.0 <= p < 1.0 && n > 0.0 && y == p * n
    ensures 0.0 <= y < n
  {
    BelowAll(p, n);
    assert p * n >= 0.0;
  }

  lemma {:induction false} BinOfOne(bins: nat)
    requires bins >= 1
    ensures Bin(1.0, bins) == bins - 1
  {
  }

  lemma {:induction false} FineScale(p: real, bins: nat, m: nat, fine: nat)
    requires fine == m * bins
    ensures p * fine as real == p * bins as real * m as real
  {
    CastProduct(m, bins, fine);
    Reassociate(p, bins as real, m as real);
  }

  /** Each fine bin lies in one coarse bin, also where 1 is clamped to the last bin. */
  lemma {:induction false} FineBinInCoarse(p: real, bins: nat, m: nat, fine: nat)
    requires 0.0 <= p <= 1.0 && bins >= 1 && m >= 1 && fine == m * bins
    ensures Bin(p, fine) / m == Bin(p, bins)
  {
    ProductPositive(m, bins);
    if p < 1.0 {
      BinBelowOne(p, bins);
      BinBelowOne(p, fine);
      FineScale(p, bins, m, fine);
      FloorBy(p * bins as real, m, p * fine as real);
    } else {
      BinOfOne(bins);
      BinOfOne(fine);
      LastMultiple(m, bins);
      QuotientIs(fine - 1, m, bins - 1);
    }
  }

  lemma {:induction false} ProductPositive(m: nat, k: nat)
    requires m >= 1 && k >= 1
    ensures m * k >= 1
  {
  }

  lemma {:induction false} Reassociate(p: real, b: real, m: real)
    ensures p * (m * b) == p * b * m
  {
  }

  lemma {:induction false} LastMultiple(m: nat, k: nat)
    requires m >= 1 && k >= 1
    ensures (k - 1) * m <= m * k - 1 < (k - 1 + 1) * m
  {
  }

  function Sum(g: seq<real>): real { if g == [] then 0.0 else var n := |g| - 1; Sum(g[..n]) + g[n] }

  lemma {:induction false} SumChange(g: seq<real>, h: seq<real>, bin: int, d: real)
    requires ChangedAt(g, h, bin, d)
    ensures Sum(h) == Sum(g) + if 0 <= bin < |g| then d else 0.0
  {
    if g != [] {
      var n := |g| - 1;
      SumChange(g[..n], h[..n], bin, d);
    }
  }

  lemma {:induction false} SumOfZeros(g: seq<real>)
    requires forall b | 0 <= b < |g| :: g[b] == 0.0
    ensures Sum(g) == 0.0
  {
    if g != [] { SumOfZeros(g[..|g| - 1]); }
  }

  lemma {:induction false} InBlock(fineBin: nat, m: nat, b: nat, start: nat)
    requires m >= 1 && start == b * m
    ensures fineBin / m == b <==> start <= fineBin < start + m
  {
    var q := fineBin / m;
    assert q * m <= fineBin < q * m + m;
    if start <= fineBin < start + m { QuotientIs(fineBin, m, b); }
  }

  lemma {:induction false} SampleInBlock(s: Sample, bins: nat, m: nat, fine: nat, b: nat, start: nat)
    requires s.Valid() && bins >= 1 && m >= 1 && fine == m * bins && start == b * m
    ensures Binning(bins)(s) == b <==> start <= Binning(fine)(s) < start + m
  {
    ProductPositive(m, bins);
    BinInRange(s.prediction, fine);
    FineBinInCoarse(s.prediction, bins, m, fine);
    InBlock(Bin(s.prediction, fine), m, b, start);
  }

  /** The bins of a fine key that make up one bin of a coarse key add up to it. */
  lemma {:induction false} BlockIsBin(
      samples: seq<Sample>, coarse: Sample -> int, fine: Sample -> int, b: int, start: nat, m: nat, bins: nat)
    requires start + m <= bins && forall s | s in samples :: coarse(s) == b <==> start <= fine(s) < start + m
    ensures Sum(Gaps(samples, fine, bins)[start..start + m]) == BinGap(samples, coarse, b)
  {
    if samples == [] {
      SumOfZeros(Gaps(samples, fine, bins)[start..start + m]);
    } else {
      var n := |samples| - 1;
      var front, s := samples[..n], samples[n];
      BlockIsBin(front, coarse, fine, b, start, m, bins);
      assert samples == front + [s];
      MembersAdd(front, s, coarse, b, GAP);
      GapsChange(front, s, fine, bins);
      SliceChange(Gaps(front, fine, bins), Gaps(samples, fine, bins), fine(s), Gap(s), start, m);
    }
  }

  lemma {:induction false} SliceChange(g: seq<real>, h: seq<real>, bin: int, d: real, start: nat, m: nat)
    requires ChangedAt(g, h, bin, d) && start + m <= |g|
    ensures Sum(h[start..start + m]) == Sum(g[start..start + m]) + if start <= bin < start + m then d else 0.0
  {
    SumChange(g[start..start + m], h[start..start + m], bin - start, d);
  }

  lemma {:induction false} BlockAtMostSum(g: seq<real>, start: nat, len: nat)
    requires start + len <= |g|
    ensures AbsoluteSum(g[..start]) + Abs(Sum(g[start..start + len])) <= AbsoluteSum(g[..start + len])
  {
    if len > 0 {
      BlockAtMostSum(g, start, len - 1);
      var block, upTo := g[start..start + len], g[..start + len];
      assert block[..len - 1] == g[start..start + len - 1] && upTo[..start + len - 1] == g[..start + len - 1];
    }
  }

  lemma {:induction false} GapsRefine(samples: seq<Sample>, bins: nat, m: nat, fine: nat, n: nat, nm: nat)
    requires AllValid(samples) && bins >= 1 && m >= 1 && fine == m * bins && nm == n * m && n <= bins && nm <= fine
    ensures AbsoluteSum(Gaps(samples, Binning(bins), bins)[..n])
      <= AbsoluteSum(Gaps(samples, Binning(fine), fine)[..nm])
  {
    if n > 0 {
      var start := (n - 1) * m;
      assert nm == start + m;
      GapsRefine(samples, bins, m, fine, n - 1, start);
      forall s | s in samples ensures Binning(bins)(s) == n - 1 <==> start <= Binning(fine)(s) < start + m {
        SampleInBlock(s, bins, m, fine, n - 1, start);
      }
      BlockIsBin(samples, Binning(bins), Binning(fine), n - 1, start, m, fine);
      BlockAtMostSum(Gaps(samples, Binning(fine), fine), start, m);
      var g := Gaps(samples, Binning(bins), bins);
      assert g[..n][..n - 1] == g[..n - 1];
    }
  }

  /** Splitting every bin into m equal parts never lowers the calibration error. */
  lemma {:induction false} RefiningNeverDecreases(samples: seq<Sample>, bins: nat, m: nat)
    requires AllValid(samples) && bins >= 1 && m >= 1
    ensures CalibrationError(samples, bins) <= CalibrationError(samples, m * bins)
    ensures Round12(CalibrationError(samples, bins)) <= Round12(CalibrationError(samples, m * bins))
  {
    if samples != [] {
      var fine := m * bins;
      var g, h := Gaps(samples, Binning(bins), bins), Gaps(samples, Binning(fine), fine);
      GapsRefine(samples, bins, m, fine, bins, fine);
      assert g[..bins] == g && h[..fine] == h;
      DivideBoth(AbsoluteSum(g), AbsoluteSum(h), |samples| as real);
    }
    Round12Monotone(CalibrationError(samples, bins), CalibrationError(samples, m * bins));
  }

  // ----- the computation

  predicate Within(order: seq<int>, hi: nat) { forall i | 0 <= i < |order| :: 0 <= order[i] < hi }

  /** Sum of |g| over a list of bins. */
  function ListedSum(g: seq<real>, order: seq<int>): real
    requires Within(order, |g|)
  {
    if order == [] then 0.0 else var n := |order| - 1; ListedSum(g, order[..n]) + Abs(g[order[n]])
  }

  lemma {:induction false} ListedWithout(g: seq<real>, order: seq<int>, i: nat)
    requires i < |order| && Within(order, |g|)
    ensures ListedSum(g, order) == ListedSum(g, order[..i] + order[i + 1..]) + Abs(g[order[i]])
  {
    var n := |order| - 1;
    if i == n {
      assert order[..i] + order[i + 1..] == order[..n];
    } else {
      var rest := order[..i] + order[i + 1..];
      ListedWithout(g, order[..n], i);
      assert rest[..|rest| - 1] == order[..n][..i] + order[..n][i + 1..];
      assert rest[|rest| - 1] == order[n];
    }
  }

  /** Bins past the listed ones do not matter. */
  lemma {:induction false} ListedPrefix(g: seq<real>, order: seq<int>, hi: nat)
    requires hi <= |g| && Within(order, hi)
    ensures ListedSum(g[..hi], order) == ListedSum(g, order)
  {
    if order != [] {
      var n := |order| - 1;
      ListedPrefix(g, order[..n], hi);
    }
  }

  predicate NoRepeat(order: seq<int>) { forall i, j | 0 <= i < j < |order| :: order[i] != order[j] }

  lemma {:induction false} RemoveAt(order: seq<int>, i: nat)
    requires NoRepeat(order) && i < |order|
    ensures NoRepeat(order[..i] + order[i + 1..])
    ensures forall b :: b in order[..i] + order[i + 1..] <==> b in order && b != order[i]
  {
    var rest := order[..i] + order[i + 1..];
    assert forall j | 0 <= j < |rest| :: rest[j] == order[if j < i then j else j + 1];
    forall b | b in order && b != order[i] ensures b in rest {
      var j :| 0 <= j < |order| && order[j] == b;
      assert rest[if j < i then j else j - 1] == b;
    }
  }

  /** Taking the last bin out of a list, if it is there. */
  lemma {:induction false} WithoutLast(g: seq<real>, order: seq<int>) returns (rest: seq<int>)
    requires g != [] && NoRepeat(order) && Within(order, |g|)
    ensures NoRepeat(rest) && Within(rest, |g| - 1)
    ensures forall b :: b in rest <==> b in order && b != |g| - 1
    ensures ListedSum(g, order) == ListedSum(g, rest) + if |g| - 1 in order then Abs(g[|g| - 1]) else 0.0
  {
    var n := |g| - 1;
    rest := order;
    if n in order {
      var i :| 0 <= i < |order| && order[i] == n;
      ListedWithout(g, order, i);
      RemoveAt(order, i);
      rest := order[..i] + order[i + 1..];
    }
    forall i | 0 <= i < |rest| ensures 0 <= rest[i] < n { assert rest[i] in rest; }
  }

  /** A duplicate-free list of bins that misses only empty ones gives the sum over all bins. */
  lemma {:induction false} ListedIsAll(g: seq<real>, order: seq<int>)
    requires NoRepeat(order) && Within(order, |g|)
    requires forall b | 0 <= b < |g| && b !in order :: g[b] == 0.0
    ensures ListedSum(g, order) == AbsoluteSum(g)
  {
    if g == [] {
      assert order == [];
    } else {
      var n := |g| - 1;
      var rest := WithoutLast(g, order);
      ListedIsAll(g[..n], rest);
      ListedPrefix(g, rest, n);
    }
  }

  lemma {:induction false} GapTotal(items: seq<Sample>)
    ensures Total(items, GAP) == Total(items, PREDICTION) - Total(items, TARGET)
  {
    if items != [] { GapTotal(items[..|items| - 1]); }
  }

  /** The weighted distance of two averages is the distance of the sums, shared by all. */
  lemma {:induction false} WeightedDistance(p: real, t: real, w: real, n: real)
    requires w > 0.0 && n > 0.0
    ensures w / n * Abs(p / w - t / w) == Abs(p - t) / n
  {
    var d := p / w - t / w;
    assert d * w == p - t;
    assert Abs(d) * w == Abs(p - t) by {
      if d < 0.0 { assert (-d) * w > 0.0; } else { assert d * w >= 0.0; }
    }
    assert w / n * Abs(d) == (Abs(d) * w) / n;
  }

  lemma {:induction false} DivideSum(a: real, b: real, n: real)
    requires n > 0.0
    ensures a / n + b / n == (a + b) / n
  {
  }

  /** What one group adds to the error. */
  method GroupShare(items: seq<Sample>, total: nat) returns (share: real)
    requires items != [] && total > 0
    ensures share == Abs(Total(items, GAP)) / total as real
  {
    var confidence := Total(items, PREDICTION) / |items| as real;
    var frequency := Total(items, TARGET) / |items| as real;
    share := |items| as real / total as real * Abs(confidence - frequency);
    GapTotal(items);
    WeightedDistance(Total(items, PREDICTION), Total(items, TARGET), |items| as real, total as real);
  }

  lemma {:induction false} MembersHaveKey(samples: seq<Sample>, bins: nat, b: int)
    requires AllValid(samples) && bins >= 1 && Members(samples, Binning(bins), b) != []
    ensures 0 <= b < bins
  {
    var n := |samples| - 1;
    assert samples[n] in samples;
    BinInRange(samples[n].prediction, bins);
    if Members(samples[..n], Binning(bins), b) != [] { MembersHaveKey(samples[..n], bins, b); }
  }

  lemma {:induction false} GroupsListAllBins(
      samples: seq<Sample>, bins: nat, order: seq<int>, groups: map<int, seq<Sample>>)
    requires AllValid(samples) && bins >= 1 && Grouped(samples, Binning(bins), order, groups)
    ensures Within(order, bins)
    ensures ListedSum(Gaps(samples, Binning(bins), bins), order) == AbsoluteSum(Gaps(samples, Binning(bins), bins))
  {
    forall i | 0 <= i < |order| ensures 0 <= order[i] < bins {
      assert order[i] in order;
      MembersHaveKey(samples, bins, order[i]);
    }
    ListedIsAll(Gaps(samples, Binning(bins), bins), order);
  }

  /** The loop over the groups. */
  method SumShares(order: seq<int>, groups: map<int, seq<Sample>>, total: nat, ghost g: seq<real>) returns (value: real)
    requires Within(order, |g|) && (order != [] ==> total > 0)
    requires forall i | 0 <= i < |order| ::
      order[i] in groups && groups[order[i]] != [] && g[order[i]] == Total(groups[order[i]], GAP)
    ensures total == 0 ==> value == 0.0
    ensures total > 0 ==> value == ListedSum(g, order) / total as real
  {
    value := 0.0;
    for i := 0 to |order|
      invariant total == 0 ==> value == 0.0
      invariant total > 0 ==> value == ListedSum(g, order[..i]) / total as real
    {
      var share := GroupShare(groups[order[i]], total);
      assert order[..i + 1][..i] == order[..i];
      DivideSum(ListedSum(g, order[..i]), Abs(g[order[i]]), total as real);
      value := value + share;
    }
    assert order[..|order|] == order;
  }

  /** Grouping by bin and summing group by group gives the calibration error, rounded. */
  method Ece(samples: seq<Sample>, bins: nat) returns (ece: real)
    requires AllValid(samples) && bins >= 1
    ensures ece == Round12(CalibrationError(samples, bins))
  {
    var order, groups := GroupBy(samples, Binning(bins));
    GroupsListAllBins(samples, bins, order, groups);
    forall i | 0 <= i < |order| ensures order[i] in groups && groups[order[i]] != [] && samples != [] {
      assert order[i] in order;
    }
    var value := SumShares(order, groups, |samples|, Gaps(samples, Binning(bins), bins));
    ece := Round12(value);
  }

  // ----- what the error is worth

  /** A bin holds the predictions from its lower edge up to the next one, and the last bin also 1. */
  lemma {:induction false} BinHolds(p: real, bins: nat)
    requires 0.0 <= p <= 1.0 && bins >= 1
    ensures Bin(p, bins) as real <= p * bins as real
    ensures p < 1.0 ==> p * bins as real < Bin(p, bins) as real + 1.0
    ensures p == 1.0 ==> Bin(p, bins) == bins - 1
  {
    if p < 1.0 { BelowAll(p, bins as real); }
  }

  lemma {:induction false} BelowAll(p: real, n: real)
    requires p < 1.0 && n > 0.0
    ensures p * n < n
  {
    assert (1.0 - p) * n > 0.0;
  }

  lemma {:induction false} MembersOfOneBin(samples: seq<Sample>, key: Sample -> int, b: int, k: int)
    requires forall s | s in samples :: key(s) == b
    ensures Members(samples, key, k) == if k == b then samples else []
  {
    if samples != [] {
      var n := |samples| - 1;
      assert samples[n] in samples && samples == samples[..n] + [samples[n]];
      MembersOfOneBin(samples[..n], key, b, k);
    }
  }

  lemma {:induction false} OnlyOne(g: seq<real>, b: nat)
    requires b < |g| && forall k | 0 <= k < |g| && k != b :: g[k] == 0.0
    ensures AbsoluteSum(g) == Abs(g[b])
  {
    var n := |g| - 1;
    if b == n { AbsoluteSumNonnegative(g[..n]); } else { OnlyOne(g[..n], b); }
  }

  /** With all samples in one bin, and so with a single bin, the error is the distance of the mean
      prediction from the mean outcome. */
  lemma {:induction false} OneBinError(samples: seq<Sample>, bins: nat, b: nat)
    requires samples != [] && b < bins && forall s | s in samples :: Binning(bins)(s) == b
    ensures CalibrationError(samples, bins)
      == Abs(Total(samples, PREDICTION) / |samples| as real - Total(samples, TARGET) / |samples| as real)
  {
    var key := Binning(bins);
    var g := Gaps(samples, key, bins);
    forall k | 0 <= k < bins ensures g[k] == if k == b then Total(samples, GAP) else 0.0 {
      MembersOfOneBin(samples, key, b, k);
    }
    OnlyOne(g, b);
    GapTotal(samples);
    DistanceOfMeans(Total(samples, PREDICTION), Total(samples, TARGET), |samples| as real);
  }

  lemma {:induction false} DistanceOfMeans(p: real, t: real, n: real)
    requires n > 0.0
    ensures Abs(p - t) / n == Abs(p / n - t / n)
  {
    WeightedDistance(p, t, n, n);
    assert n / n == 1.0;
  }

  lemma {:induction false} SingleBinError(samples: seq<Sample>)
    requires samples != [] && AllValid(samples)
    ensures CalibrationError(samples, 1)
      == Abs(Total(samples, PREDICTION) / |samples| as real - Total(samples, TARGET) / |samples| as real)
  {
    forall s | s in samples ensures Binning(1)(s) == 0 { BinInRange(s.prediction, 1); }
    OneBinError(samples, 1, 0);
  }

  lemma {:induction false} MembersAppend(a: seq<Sample>, c: seq<Sample>, key: Sample -> int, k: int)
    ensures Total(Members(a + c, key, k), GAP) == Total(Members(a, key, k), GAP) + Total(Members(c, key, k), GAP)
  {
    if c == [] {
      assert a + c == a;
    } else {
      var n := |c| - 1;
      MembersAppend(a, c[..n], key, k);
      assert a + c == (a + c[..n]) + [c[n]] && c == c[..n] + [c[n]];
      MembersAdd(a + c[..n], c[n], key, k, GAP);
      MembersAdd(c[..n], c[n], key, k, GAP);
    }
  }

  lemma {:induction false} NoMembers(samples: seq<Sample>, key: Sample -> int, k: int)
    requires forall s | s in samples :: key(s) != k
    ensures Members(samples, key, k) == []
  {
    if samples != [] {
      var n := |samples| - 1;
      assert samples[n] in samples && samples == samples[..n] + [samples[n]];
      NoMembers(samples[..n], key, k);
    }
  }

  lemma {:induction false} AbsoluteSumAdds(g: seq<real>, h: seq<real>, sum: seq<real>)
    requires |g| == |h| == |sum|
    requires forall k | 0 <= k < |g| :: sum[k] == g[k] + h[k] && (g[k] == 0.0 || h[k] == 0.0)
    ensures AbsoluteSum(sum) == AbsoluteSum(g) + AbsoluteSum(h)
  {
    if g != [] {
      var n := |g| - 1;
      AbsoluteSumAdds(g[..n], h[..n], sum[..n]);
    }
  }

  lemma {:induction false} DisjointGapsAdd(a: seq<Sample>, c: seq<Sample>, key: Sample -> int, bins: nat)
    requires forall s, t | s in a && t in c :: key(s) != key(t)
    ensures AbsoluteSum(Gaps(a + c, key, bins)) == AbsoluteSum(Gaps(a, key, bins)) + AbsoluteSum(Gaps(c, key, bins))
  {
    var g, h, sum := Gaps(a, key, bins), Gaps(c, key, bins), Gaps(a + c, key, bins);
    forall k | 0 <= k < bins ensures sum[k] == g[k] + h[k] && (g[k] == 0.0 || h[k] == 0.0) {
      MembersAppend(a, c, key, k);
      if s :| s in a && key(s) == k {
        NoMembers(c, key, k);
      } else {
        NoMembers(a, key, k);
      }
    }
    AbsoluteSumAdds(g, h, sum);
  }

  /** The distances of all bins, added up: the error times the number of samples. */
  function Distances(samples: seq<Sample>, bins: nat): real { AbsoluteSum(Gaps(samples, Binning(bins), bins)) }

  /** Samples that share no bin contribute independently: the distances add up. */
  lemma {:induction false} DisjointBinsAdd(a: seq<Sample>, c: seq<Sample>, bins: nat)
    requires a != [] && c != [] && forall s, t | s in a && t in c :: Binning(bins)(s) != Binning(bins)(t)
    ensures CalibrationError(a, bins) == Distances(a, bins) / |a| as real
    ensures CalibrationError(c, bins) == Distances(c, bins) / |c| as real
    ensures CalibrationError(a + c, bins) == (Distances(a, bins) + Distances(c, bins)) / |a + c| as real
  {
    DisjointGapsAdd(a, c, Binning(bins), bins);
  }
}
