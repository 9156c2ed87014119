/**
 * The multiplier calibrator of `src/lib/analytics.ts`: from tasks whose actual
 * hours were recorded, it proposes a new multiplier per complexity, weighting
 * recent evidence more heavily and clamping the result to a safe range.
 */
module Analytics {
  import opened Options
  import opened Rounding
  import opened Types
  import opened Filters

  const HalfLifeDays: real := 90.0
  const MinDataPoints: nat := 3
  const MinMultiplier: real := 0.5
  const MaxMultiplier: real := 5.0

  /** A task estimate with, possibly, the hours it really took. Complexity is a plain string. */
  datatype DataPoint = DataPoint(
    complexity: string,
    adjustedHours: real,
    actualHours: Option<real>,
    multiplierUsed: real,
    createdAt: int)

  datatype MultiplierSuggestion = MultiplierSuggestion(
    complexity: string,
    currentMultiplier: real,
    suggestedMultiplier: real,
    correction: real,
    dataPoints: nat)

  // ---------------------------------------------------------------- weights

  /**
   * `halfPow(t)` plays the part of `Math.pow(0.5, t)`: one at zero, always
   * positive, halved by each unit step, and strictly decreasing.
   */
  ghost predicate IsHalfPower(halfPow: real -> real) {
    && halfPow(0.0) == 1.0
    && (forall t :: 0.0 < halfPow(t))
    && (forall t :: HalvesAt(halfPow, t))
    && (forall s, t :: DecreasingOn(halfPow, s, t))
  }

  /** One more unit of exponent halves the value. */
  ghost predicate HalvesAt(halfPow: real -> real, t: real) {
    halfPow(t + 1.0) == halfPow(t) / 2.0
  }

  /** A larger exponent gives a smaller value. */
  ghost predicate DecreasingOn(halfPow: real -> real, s: real, t: real) {
    s < t ==> halfPow(t) < halfPow(s)
  }

  /** Age of an estimate in days at time `now` (both in milliseconds). */
  function AgeDays(createdAt: int, now: int): real {
    (now - createdAt) as real / MsPerDay as real
  }

  /** Recency weight: one half raised to the age in half-lives. */
  function RecencyWeight(createdAt: int, now: int, halfPow: real -> real): real {
    halfPow(AgeDays(createdAt, now) / HalfLifeDays)
  }

  /** Every weight is positive. */
  lemma RecencyWeightPositive(createdAt: int, now: int, halfPow: real -> real)
    requires IsHalfPower(halfPow)
    ensures 0.0 < RecencyWeight(createdAt, now, halfPow)
  {
  }

  /**
   * A fresh estimate weighs one; an estimate 90 days older weighs half as much;
   * and a past estimate weighs less than one.
   */
  lemma RecencyWeightFacts(halfPow: real -> real, createdAt: int, now: int)
    requires IsHalfPower(halfPow)
    ensures RecencyWeight(now, now, halfPow) == 1.0
    ensures RecencyWeight(createdAt - 90 * MsPerDay, now, halfPow) == RecencyWeight(createdAt, now, halfPow) / 2.0
    ensures createdAt <= now ==> RecencyWeight(createdAt, now, halfPow) <= 1.0
    ensures createdAt < now ==> RecencyWeight(createdAt, now, halfPow) < 1.0
  {
    assert AgeDays(now, now) == 0.0;
    var t := AgeDays(createdAt, now) / HalfLifeDays;
    assert AgeDays(createdAt - 90 * MsPerDay, now) / HalfLifeDays == t + 1.0;
    assert HalvesAt(halfPow, t);
    if createdAt <= now {
      assert DecreasingOn(halfPow, 0.0, t);
    }
  }

  /** A strictly older estimate weighs strictly less, so an older one never weighs more. */
  lemma RecencyWeightMonotone(halfPow: real -> real, older: int, newer: int, now: int)
    requires IsHalfPower(halfPow)
    ensures older < newer ==> RecencyWeight(older, now, halfPow) < RecencyWeight(newer, now, halfPow)
    ensures older <= newer ==> RecencyWeight(older, now, halfPow) <= RecencyWeight(newer, now, halfPow)
  {
    var s, t := AgeDays(newer, now) / HalfLifeDays, AgeDays(older, now) / HalfLifeDays;
    if older < newer {
      assert s < t;
      assert DecreasingOn(halfPow, s, t);
    }
  }

  /** Clamps `value` into [lo, hi] as `Math.min(hi, Math.max(lo, value))` does. */
  function Clamp(value: real, lo: real, hi: real): (r: real)
    ensures lo <= hi ==> lo <= r <= hi
    ensures lo <= value <= hi ==> r == value
    ensures value < lo && lo <= hi ==> r == lo
    ensures hi < value ==> r == hi
  {
    var low := if lo < value then value else lo;
    if hi < low then hi else low
  }

  // ---------------------------------------------------------------- grouping

  /** The test `dp.actualHours != null`. */
  function HasActuals(): DataPoint -> bool {
    (p: DataPoint) => p.actualHours.Some?
  }

  /** The test for the bucket of complexity string `c`. */
  function InBucket(c: string): DataPoint -> bool {
    (p: DataPoint) => p.actualHours.Some? && p.complexity == c
  }

  /** The points that have actual hours, in their input order, every copy kept. */
  function Eligible(points: seq<DataPoint>): (r: seq<DataPoint>)
    ensures r == Filter(points, HasActuals())
    ensures forall p :: p in r <==> p in points && p.actualHours.Some?
  {
    if |points| == 0 then []
    else
      var front := Eligible(points[..|points| - 1]);
      var p := points[|points| - 1];
      assert points == points[..|points| - 1] + [p];
      if p.actualHours.Some? then front + [p] else front
  }

  /** No value appears twice. */
  predicate Distinct<T(==)>(s: seq<T>) {
    forall i, j :: 0 <= i < j < |s| ==> s[i] != s[j]
  }

  /** The complexity strings of points with actual hours, each once, in order of first appearance. */
  function Keys(points: seq<DataPoint>): (r: seq<string>)
    ensures Distinct(r)
    ensures forall c :: c in r <==> exists p :: p in points && p.actualHours.Some? && p.complexity == c
  {
    if |points| == 0 then []
    else
      var front := Keys(points[..|points| - 1]);
      var p := points[|points| - 1];
      assert points == points[..|points| - 1] + [p];
      if p.actualHours.None? || p.complexity in front then front else front + [p.complexity]
  }

  /** The points with actual hours and complexity `c`, in their input order, every copy kept. */
  function Bucket(points: seq<DataPoint>, c: string): (r: seq<DataPoint>)
    ensures r == Filter(points, InBucket(c))
    ensures |r| == Count(points, InBucket(c))
    ensures forall p :: p in r <==> p in points && p.actualHours.Some? && p.complexity == c
  {
    FilterLength(points, InBucket(c));
    if |points| == 0 then []
    else
      var front := Bucket(points[..|points| - 1], c);
      var p := points[|points| - 1];
      assert points == points[..|points| - 1] + [p];
      if p.actualHours.Some? && p.complexity == c then front + [p] else front
  }

  /** Points without actual hours change neither the keys nor any bucket. */
  lemma {:induction false} EligibleKeepsGroups(points: seq<DataPoint>, c: string)
    ensures Keys(Eligible(points)) == Keys(points)
    ensures Bucket(Eligible(points), c) == Bucket(points, c)
    decreases |points|
  {
    if |points| > 0 {
      var front := points[..|points| - 1];
      var p := points[|points| - 1];
      EligibleKeepsGroups(front, c);
      var e := Eligible(front);
      if p.actualHours.Some? {
        assert (e + [p])[..|e + [p]| - 1] == e;
      }
    }
  }

  // ---------------------------------------------------------------- averaging

  /** A point enters the weighted average only with positive adjusted hours and recorded actual hours. */
  predicate Contributes(p: DataPoint) {
    p.adjustedHours > 0.0 && p.actualHours.Some?
  }

  /** How far off the estimate was: actual over adjusted hours. */
  function Ratio(p: DataPoint): real
    requires Contributes(p)
  {
    p.actualHours.value / p.adjustedHours
  }

  /** One term of the weighted average: a correction ratio and its weight. */
  datatype Term = Term(ratio: real, weight: real)

  /** The terms of the contributing points, in input order. */
  function Terms(points: seq<DataPoint>, now: int, halfPow: real -> real): seq<Term> {
    if |points| == 0 then []
    else
      var front := Terms(points[..|points| - 1], now, halfPow);
      var p := points[|points| - 1];
      if Contributes(p) then front + [Term(Ratio(p), RecencyWeight(p.createdAt, now, halfPow))]
      else front
  }

  /** A weighted sum of ratios together with the sum of the weights. */
  datatype Sums = Sums(weighted: real, total: real)

  /** Σ ratio·weight and Σ weight over `terms`. */
  function Totals(terms: seq<Term>): Sums {
    if |terms| == 0 then Sums(0.0, 0.0)
    else
      var front := Totals(terms[..|terms| - 1]);
      var t := terms[|terms| - 1];
      Sums(front.weighted + t.ratio * t.weight, front.total + t.weight)
  }

  /** The recency-weighted sum of ratios and the sum of weights, over contributing points. */
  function WeightedSums(points: seq<DataPoint>, now: int, halfPow: real -> real): Sums {
    Totals(Terms(points, now, halfPow))
  }

  /** There is a term exactly when some point contributes. */
  lemma {:induction false} TermsNonEmpty(points: seq<DataPoint>, now: int, halfPow: real -> real)
    ensures |Terms(points, now, halfPow)| > 0 <==> exists p :: p in points && Contributes(p)
    decreases |points|
  {
    if |points| > 0 {
      var front := points[..|points| - 1];
      var p := points[|points| - 1];
      assert points == front + [p];
      TermsNonEmpty(front, now, halfPow);
    }
  }

  /** Every term carries a positive weight. */
  lemma {:induction false} TermWeightsPositive(points: seq<DataPoint>, now: int, halfPow: real -> real)
    requires IsHalfPower(halfPow)
    ensures forall t :: t in Terms(points, now, halfPow) ==> 0.0 < t.weight
    decreases |points|
  {
    if |points| > 0 {
      var front := points[..|points| - 1];
      var p := points[|points| - 1];
      TermWeightsPositive(front, now, halfPow);
      RecencyWeightPositive(p.createdAt, now, halfPow);
    }
  }

  /** With positive weights, the total weight is positive exactly when there is a term. */
  lemma {:induction false} TotalsPositive(terms: seq<Term>)
    requires forall t :: t in terms ==> 0.0 < t.weight
    ensures 0.0 <= Totals(terms).total
    ensures 0.0 < Totals(terms).total <==> |terms| > 0
    decreases |terms|
  {
    if |terms| > 0 {
      var front := terms[..|terms| - 1];
      assert forall u :: u in front ==> u in terms;
      assert terms[|terms| - 1] in terms;
      TotalsPositive(front);
    }
  }

  /** The total weight is never negative, and it is positive exactly when some point contributes. */
  lemma WeightedTotalPositive(points: seq<DataPoint>, now: int, halfPow: real -> real)
    requires IsHalfPower(halfPow)
    ensures 0.0 <= WeightedSums(points, now, halfPow).total
    ensures 0.0 < WeightedSums(points, now, halfPow).total <==> exists p :: p in points && Contributes(p)
  {
    TermWeightsPositive(points, now, halfPow);
    TermsNonEmpty(points, now, halfPow);
    TotalsPositive(Terms(points, now, halfPow));
  }

  /** The loop that accumulates the two sums, as the calibrator writes it. */
  method AccumulateWeights(points: seq<DataPoint>, now: int, halfPow: real -> real)
      returns (weightedCorrectionSum: real, totalWeight: real)
    ensures Sums(weightedCorrectionSum, totalWeight) == WeightedSums(points, now, halfPow)
  {
    weightedCorrectionSum := 0.0;
    totalWeight := 0.0;
    var i := 0;
    while i < |points|
      invariant 0 <= i <= |points|
      invariant Sums(weightedCorrectionSum, totalWeight) == Totals(Terms(points[..i], now, halfPow))
    {
      var point := points[i];
      ghost var next := Totals(Terms(points[..i + 1], now, halfPow));
      AccumulateStep(points, i, now, halfPow);
      if point.adjustedHours > 0.0 && point.actualHours.Some? {
        var correction := Ratio(point);
        var weight := RecencyWeight(point.createdAt, now, halfPow);
        weightedCorrectionSum := weightedCorrectionSum + correction * weight;
        totalWeight := totalWeight + weight;
      }
      assert Sums(weightedCorrectionSum, totalWeight) == next;
      i := i + 1;
    }
    assert points[..i] == points;
  }

  /** One more point adds its ratio times its weight, and its weight, exactly when it contributes. */
  lemma AccumulateStep(points: seq<DataPoint>, i: int, now: int, halfPow: real -> real)
    requires 0 <= i < |points|
    ensures var sums, p := Totals(Terms(points[..i], now, halfPow)), points[i];
      Totals(Terms(points[..i + 1], now, halfPow)) ==
        if Contributes(p) then
          Sums(sums.weighted + Ratio(p) * RecencyWeight(p.createdAt, now, halfPow),
               sums.total + RecencyWeight(p.createdAt, now, halfPow))
        else sums
  {
    assert points[..i + 1][..i] == points[..i];
    var before := Terms(points[..i], now, halfPow);
    var p := points[i];
    if Contributes(p) {
      TotalsSnoc(before, Term(Ratio(p), RecencyWeight(p.createdAt, now, halfPow)));
    }
  }

  /** Appending a term adds its product and its weight to the two sums. */
  lemma TotalsSnoc(terms: seq<Term>, t: Term)
    ensures Totals(terms + [t]) == Sums(Totals(terms).weighted + t.ratio * t.weight, Totals(terms).total + t.weight)
  {
    var all := terms + [t];
    assert all[..|all| - 1] == terms;
    assert all[|all| - 1] == t;
  }

  /** The weighted sum lies between `lo` and `hi` times the total weight. */
  predicate SumsBetween(sums: Sums, lo: real, hi: real) {
    lo * sums.total <= sums.weighted <= hi * sums.total
  }

  /** Bounds on every ratio bound the weighted sum: lo·Σw <= Σ ratio·w <= hi·Σw. */
  lemma {:induction false} TotalsBetween(terms: seq<Term>, lo: real, hi: real)
    requires forall t :: t in terms ==> lo <= t.ratio <= hi && 0.0 < t.weight
    ensures SumsBetween(Totals(terms), lo, hi)
    decreases |terms|
  {
    if |terms| > 0 {
      var front := terms[..|terms| - 1];
      var t := terms[|terms| - 1];
      assert forall u :: u in front ==> u in terms;
      assert t in terms;
      TotalsBetween(front, lo, hi);
      assert terms == front + [t];
      TotalsSnoc(front, t);
      StepBetween(Totals(front), t, lo, hi);
    }
  }

  /** Adding a term whose ratio lies in [lo, hi] keeps the weighted sum in its bounds. */
  lemma StepBetween(sums: Sums, t: Term, lo: real, hi: real)
    requires SumsBetween(sums, lo, hi)
    requires lo <= t.ratio <= hi && 0.0 < t.weight
    ensures SumsBetween(Sums(sums.weighted + t.ratio * t.weight, sums.total + t.weight), lo, hi)
  {
    var r, w := t.ratio, t.weight;
    assert lo * w <= r * w <= hi * w;
    assert lo * (sums.total + w) == lo * sums.total + lo * w;
    assert hi * (sums.total + w) == hi * sums.total + hi * w;
  }

  /**
   * When every contributing ratio lies in [lo, hi] and some point contributes,
   * the weighted average lies in [lo, hi] too.
   */
  lemma WeightedAverageBetween(points: seq<DataPoint>, now: int, halfPow: real -> real, lo: real, hi: real)
    requires IsHalfPower(halfPow)
    requires forall p :: p in points && Contributes(p) ==> lo <= Ratio(p) <= hi
    requires exists p :: p in points && Contributes(p)
    ensures var sums := WeightedSums(points, now, halfPow);
      0.0 < sums.total && lo <= sums.weighted / sums.total <= hi
  {
    var terms := Terms(points, now, halfPow);
    TermRatiosBetween(points, now, halfPow, lo, hi);
    TermWeightsPositive(points, now, halfPow);
    WeightedTotalPositive(points, now, halfPow);
    TotalsBetween(terms, lo, hi);
    var sums := WeightedSums(points, now, halfPow);
    QuotientBetween(sums.weighted, sums.total, lo, hi);
  }

  /** Bounds on the contributing points' ratios carry over to the terms. */
  lemma {:induction false} TermRatiosBetween(points: seq<DataPoint>, now: int, halfPow: real -> real, lo: real, hi: real)
    requires forall p :: p in points && Contributes(p) ==> lo <= Ratio(p) <= hi
    ensures forall t :: t in Terms(points, now, halfPow) ==> lo <= t.ratio <= hi
    decreases |points|
  {
    if |points| > 0 {
      var front := points[..|points| - 1];
      assert forall q :: q in front ==> q in points;
      TermRatiosBetween(front, now, halfPow, lo, hi);
      var p := points[|points| - 1];
      assert p in points;
      var ft := Terms(front, now, halfPow);
      var terms := Terms(points, now, halfPow);
      if Contributes(p) {
        assert terms == ft + [Term(Ratio(p), RecencyWeight(p.createdAt, now, halfPow))];
        assert lo <= Ratio(p) <= hi;
      } else {
        assert terms == ft;
      }
    }
  }

  lemma QuotientBetween(x: real, w: real, lo: real, hi: real)
    requires 0.0 < w
    requires lo * w <= x <= hi * w
    ensures lo <= x / w <= hi
  {
    assert (x / w) * w == x;
  }

  /** The plain sum of the contributing ratios, and the number of contributing points. */
  function PlainSums(points: seq<DataPoint>): Sums {
    if |points| == 0 then Sums(0.0, 0.0)
    else
      var front := PlainSums(points[..|points| - 1]);
      var p := points[|points| - 1];
      if Contributes(p) then Sums(front.weighted + Ratio(p), front.total + 1.0) else front
  }

  /** Both sums multiplied by `w`. */
  function Scaled(sums: Sums, w: real): Sums {
    Sums(w * sums.weighted, w * sums.total)
  }

  /**
   * Points that share one date share one weight `w`, so both sums are the
   * plain ones scaled by `w`.
   */
  lemma {:induction false} CommonDateScalesSums(points: seq<DataPoint>, createdAt: int, now: int, halfPow: real -> real)
    requires forall p :: p in points ==> p.createdAt == createdAt
    ensures WeightedSums(points, now, halfPow) == Scaled(PlainSums(points), RecencyWeight(createdAt, now, halfPow))
    decreases |points|
  {
    var w := RecencyWeight(createdAt, now, halfPow);
    if |points| > 0 {
      var front := points[..|points| - 1];
      var p := points[|points| - 1];
      assert forall q :: q in front ==> q in points;
      CommonDateScalesSums(front, createdAt, now, halfPow);
      assert p in points;
      var terms := Terms(front, now, halfPow);
      var plain := PlainSums(front);
      if Contributes(p) {
        assert Terms(points, now, halfPow) == terms + [Term(Ratio(p), w)];
        TotalsSnoc(terms, Term(Ratio(p), w));
        assert PlainSums(points) == Sums(plain.weighted + Ratio(p), plain.total + 1.0);
        ScaleStep(w, plain, Ratio(p), Totals(terms), PlainSums(points), WeightedSums(points, now, halfPow));
      } else {
        assert Terms(points, now, halfPow) == terms;
      }
    } else {
      assert w * 0.0 == 0.0;
    }
  }

  /** Adding one more ratio at weight `w` to sums scaled by `w` keeps them scaled by `w`. */
  lemma ScaleStep(w: real, plain: Sums, ratio: real, prev: Sums, next: Sums, scaled: Sums)
    requires prev == Scaled(plain, w)
    requires next == Sums(plain.weighted + ratio, plain.total + 1.0)
    requires scaled == Sums(prev.weighted + ratio * w, prev.total + w)
    ensures scaled == Scaled(next, w)
  {
  }

  /**
   * Equal weights give the plain mean: when all points share one date and
   * some point contributes, the weighted average is the arithmetic mean of
   * the contributing ratios.
   */
  lemma EqualWeightsGiveMean(points: seq<DataPoint>, createdAt: int, now: int, halfPow: real -> real)
    requires IsHalfPower(halfPow)
    requires forall p :: p in points ==> p.createdAt == createdAt
    requires exists p :: p in points && Contributes(p)
    ensures var sums, plain := WeightedSums(points, now, halfPow), PlainSums(points);
      && 0.0 < plain.total && 0.0 < sums.total
      && sums.weighted / sums.total == plain.weighted / plain.total
  {
    RecencyWeightPositive(createdAt, now, halfPow);
    WeightedTotalPositive(points, now, halfPow);
    SharedWeightMean(points, createdAt, now, halfPow);
  }

  /** The arithmetic half of the lemma above, once both the weight and the weighted total are known positive. */
  lemma SharedWeightMean(points: seq<DataPoint>, createdAt: int, now: int, halfPow: real -> real)
    requires forall p :: p in points ==> p.createdAt == createdAt
    requires 0.0 < RecencyWeight(createdAt, now, halfPow)
    requires 0.0 < WeightedSums(points, now, halfPow).total
    ensures var sums, plain := WeightedSums(points, now, halfPow), PlainSums(points);
      && 0.0 < plain.total
      && sums.weighted / sums.total == plain.weighted / plain.total
  {
    CommonDateScalesSums(points, createdAt, now, halfPow);
    ScaledQuotient(WeightedSums(points, now, halfPow), PlainSums(points), RecencyWeight(createdAt, now, halfPow));
  }

  /** Scaling both sums by the same positive weight leaves their quotient alone. */
  lemma ScaledQuotient(sums: Sums, plain: Sums, w: real)
    requires sums == Scaled(plain, w)
    requires 0.0 < w && 0.0 < sums.total
    ensures 0.0 < plain.total
    ensures sums.weighted / sums.total == plain.weighted / plain.total
  {
    PositiveFactor(w, plain.total);
    var mean := plain.weighted / plain.total;
    assert plain.weighted == mean * plain.total;
    assert w * plain.weighted == mean * (w * plain.total);
  }

  /** A positive product with a positive first factor has a positive second factor. */
  lemma PositiveFactor(w: real, x: real)
    requires 0.0 < w && 0.0 < w * x
    ensures 0.0 < x
  {
  }

  /** A point that does not contribute leaves both sums as they were. */
  lemma NonContributingIgnored(points: seq<DataPoint>, p: DataPoint, now: int, halfPow: real -> real)
    requires !Contributes(p)
    ensures WeightedSums(points + [p], now, halfPow) == WeightedSums(points, now, halfPow)
  {
    assert (points + [p])[..|points|] == points;
  }

  // ---------------------------------------------------------------- suggestions

  /** The settings multiplier for a complexity string; 1.0 for a string it does not know. */
  function CurrentMultiplier(settings: Settings, c: string): (m: real)
    ensures c == ComplexityName(Simple) ==> m == settings.complexitySimple
    ensures c == ComplexityName(Medium) ==> m == settings.complexityMedium
    ensures c == ComplexityName(Complex) ==> m == settings.complexityComplex
    ensures c == ComplexityName(VeryComplex) ==> m == settings.complexityVeryComplex
    ensures (forall k: Complexity :: ComplexityName(k) != c) ==> m == 1.0
  {
    assert ComplexityName(Simple) == "simple" && ComplexityName(Medium) == "medium";
    assert ComplexityName(Complex) == "complex" && ComplexityName(VeryComplex) == "very-complex";
    if c == "simple" then settings.complexitySimple
    else if c == "medium" then settings.complexityMedium
    else if c == "complex" then settings.complexityComplex
    else if c == "very-complex" then settings.complexityVeryComplex
    else 1.0
  }

  /** The suggestion for one bucket, if it has enough evidence. */
  function SuggestFor(c: string, bucket: seq<DataPoint>, settings: Settings, now: int, halfPow: real -> real)
      : (r: Option<MultiplierSuggestion>)
    requires IsHalfPower(halfPow)
    ensures r.Some? <==> |bucket| >= MinDataPoints && exists p :: p in bucket && Contributes(p)
    ensures r.Some? ==>
      && r.value.complexity == c
      && r.value.dataPoints == |bucket|
      && r.value.currentMultiplier == CurrentMultiplier(settings, c)
      && MinMultiplier <= r.value.suggestedMultiplier <= MaxMultiplier
      && IsHundredth(r.value.suggestedMultiplier)
      && IsHundredth(r.value.correction)
  {
    if |bucket| < MinDataPoints then None
    else
      var sums := WeightedSums(bucket, now, halfPow);
      WeightedTotalPositive(bucket, now, halfPow);
      if sums.total <= 0.0 then None
      else
        var avgCorrection := sums.weighted / sums.total;
        var current := CurrentMultiplier(settings, c);
        Some(MultiplierSuggestion(
          complexity := c,
          currentMultiplier := current,
          suggestedMultiplier := ScaledMultiplier(current, avgCorrection),
          correction := Round2(avgCorrection),
          dataPoints := |bucket|))
  }

  /**
   * The current multiplier scaled by the correction, clamped to [0.5, 5.0]
   * and rounded to hundredths: the hundredth nearest to the product when the
   * product lies in range, and the nearer bound otherwise.
   */
  function ScaledMultiplier(current: real, correction: real): (r: real)
    ensures MinMultiplier <= r <= MaxMultiplier
    ensures IsHundredth(r)
    ensures MinMultiplier <= current * correction <= MaxMultiplier ==> r == Round2(current * correction)
    ensures current * correction < MinMultiplier ==> r == MinMultiplier
    ensures MaxMultiplier < current * correction ==> r == MaxMultiplier
  {
    var suggested := Clamp(current * correction, MinMultiplier, MaxMultiplier);
    SuggestedInRange(suggested);
    Round2OfHundredth(MinMultiplier);
    Round2OfHundredth(MaxMultiplier);
    Round2(suggested)
  }

  /** Rounding a value of [0.5, 5.0] to hundredths stays in [0.5, 5.0]. */
  lemma SuggestedInRange(x: real)
    requires MinMultiplier <= x <= MaxMultiplier
    ensures MinMultiplier <= Round2(x) <= MaxMultiplier
  {
    Round2Monotone(MinMultiplier, x);
    Round2Monotone(x, MaxMultiplier);
    Round2OfHundredth(MinMultiplier);
    Round2OfHundredth(MaxMultiplier);
  }

  /**
   * A suggestion reports the weighted mean of its bucket's ratios, rounded to
   * hundredths, and proposes the current multiplier scaled by that mean.
   */
  lemma SuggestionFromWeightedMean(c: string, bucket: seq<DataPoint>, settings: Settings, now: int, halfPow: real -> real)
    requires IsHalfPower(halfPow)
    requires SuggestFor(c, bucket, settings, now, halfPow).Some?
    ensures var s, sums := SuggestFor(c, bucket, settings, now, halfPow).value, WeightedSums(bucket, now, halfPow);
      && 0.0 < sums.total
      && s.correction == Round2(sums.weighted / sums.total)
      && s.suggestedMultiplier == ScaledMultiplier(s.currentMultiplier, sums.weighted / sums.total)
  {
    var sums := WeightedSums(bucket, now, halfPow);
    assert |bucket| >= MinDataPoints && sums.total > 0.0;
    var current := CurrentMultiplier(settings, c);
    var avg := sums.weighted / sums.total;
    assert SuggestFor(c, bucket, settings, now, halfPow).value.suggestedMultiplier == ScaledMultiplier(current, avg);
  }

  /**
   * The suggested correction is the weighted mean of the bucket's ratios:
   * when every usable ratio lies in [lo, hi], so does the correction, up to
   * rounding to hundredths.
   */
  lemma CorrectionWithinRatios(c: string, bucket: seq<DataPoint>, settings: Settings, now: int, halfPow: real -> real, lo: real, hi: real)
    requires IsHalfPower(halfPow)
    requires SuggestFor(c, bucket, settings, now, halfPow).Some?
    requires forall p :: p in bucket && Contributes(p) ==> lo <= Ratio(p) <= hi
    ensures var s := SuggestFor(c, bucket, settings, now, halfPow).value;
      Round2(lo) <= s.correction <= Round2(hi)
  {
    var sums := WeightedSums(bucket, now, halfPow);
    WeightedAverageBetween(bucket, now, halfPow, lo, hi);
    Round2Monotone(lo, sums.weighted / sums.total);
    Round2Monotone(sums.weighted / sums.total, hi);
  }

  /**
   * When every usable point took exactly its estimate, the correction is one
   * and the suggestion is the current multiplier, clamped to [0.5, 5.0] and
   * rounded to hundredths.
   */
  lemma AccurateEstimatesKeepMultiplier(c: string, bucket: seq<DataPoint>, settings: Settings, now: int, halfPow: real -> real)
    requires IsHalfPower(halfPow)
    requires SuggestFor(c, bucket, settings, now, halfPow).Some?
    requires forall p :: p in bucket && Contributes(p) ==> Ratio(p) == 1.0
    ensures var s := SuggestFor(c, bucket, settings, now, halfPow).value;
      && s.correction == 1.0
      && s.suggestedMultiplier == Round2(Clamp(CurrentMultiplier(settings, c), MinMultiplier, MaxMultiplier))
  {
    var sums := WeightedSums(bucket, now, halfPow);
    WeightedAverageBetween(bucket, now, halfPow, 1.0, 1.0);
    assert sums.weighted / sums.total == 1.0;
    Round2OfHundredth(1.0);
  }

  /** The present values of `opts`, in order. */
  function Somes(opts: seq<Option<MultiplierSuggestion>>): (r: seq<MultiplierSuggestion>)
    ensures forall x :: x in r <==> Some(x) in opts
  {
    if |opts| == 0 then []
    else
      var rest := Somes(opts[1..]);
      assert forall o :: o in opts <==> o == opts[0] || o in opts[1..];
      if opts[0].Some? then [opts[0].value] + rest else rest
  }

  /** Present values at distinct positions name distinct complexities, so the collected values do too. */
  lemma {:induction false} SomesDistinct(opts: seq<Option<MultiplierSuggestion>>)
    requires forall j, k :: 0 <= j < k < |opts| && opts[j].Some? && opts[k].Some? ==>
      opts[j].value.complexity != opts[k].value.complexity
    ensures forall i, j :: 0 <= i < j < |Somes(opts)| ==> Somes(opts)[i].complexity != Somes(opts)[j].complexity
    decreases |opts|
  {
    if |opts| > 0 {
      var tail := opts[1..];
      assert forall j, k :: 0 <= j < k < |tail| ==> tail[j] == opts[j + 1] && tail[k] == opts[k + 1];
      SomesDistinct(tail);
      var rest := Somes(tail);
      if opts[0].Some? {
        forall x | x in rest
          ensures x.complexity != opts[0].value.complexity
        {
          var k :| 0 <= k < |tail| && tail[k] == Some(x);
          assert opts[k + 1] == Some(x);
        }
        var r := Somes(opts);
        forall i, j | 0 <= i < j < |r|
          ensures r[i].complexity != r[j].complexity
        {
          assert r[j] == rest[j - 1];
          if i > 0 {
            assert r[i] == rest[i - 1];
          } else {
            assert r[j] in rest;
          }
        }
      }
    }
  }

  /** The suggestion, if any, for each key of `keys`. */
  function PerKey(keys: seq<string>, points: seq<DataPoint>, settings: Settings, now: int, halfPow: real -> real)
      : (opts: seq<Option<MultiplierSuggestion>>)
    requires IsHalfPower(halfPow)
    ensures |opts| == |keys|
    ensures forall j :: 0 <= j < |keys| ==> opts[j] == SuggestFor(keys[j], Bucket(points, keys[j]), settings, now, halfPow)
  {
    seq(|keys|, j requires 0 <= j < |keys| => SuggestFor(keys[j], Bucket(points, keys[j]), settings, now, halfPow))
  }

  /**
   * The calibrator: one suggestion per complexity string that has at least
   * three points with actual hours and at least one usable point among them,
   * in order of the strings' first appearance.
   */
  function ComputeMultiplierSuggestions(points: seq<DataPoint>, settings: Settings, now: int, halfPow: real -> real)
      : (r: seq<MultiplierSuggestion>)
    requires IsHalfPower(halfPow)
    // Each suggestion is the one its own bucket gives.
    ensures forall s :: s in r ==>
      SuggestFor(s.complexity, Bucket(points, s.complexity), settings, now, halfPow) == Some(s)
  {
    var keys := Keys(points);
    var opts := PerKey(keys, points, settings, now, halfPow);
    var r := Somes(opts);
    forall s | s in r
      ensures SuggestFor(s.complexity, Bucket(points, s.complexity), settings, now, halfPow) == Some(s)
    {
      var j :| 0 <= j < |opts| && opts[j] == Some(s);
    }
    r
  }

  /** Every suggested multiplier is a hundredth in [0.5, 5.0], and each reads its bucket and settings. */
  lemma SuggestionsBounded(points: seq<DataPoint>, settings: Settings, now: int, halfPow: real -> real)
    requires IsHalfPower(halfPow)
    ensures forall s :: s in ComputeMultiplierSuggestions(points, settings, now, halfPow) ==>
      && MinMultiplier <= s.suggestedMultiplier <= MaxMultiplier
      && IsHundredth(s.suggestedMultiplier)
      && s.dataPoints == |Bucket(points, s.complexity)| >= MinDataPoints
      && s.currentMultiplier == CurrentMultiplier(settings, s.complexity)
  {
  }

  /** At most one suggestion per complexity string. */
  lemma OneSuggestionPerComplexity(points: seq<DataPoint>, settings: Settings, now: int, halfPow: real -> real)
    requires IsHalfPower(halfPow)
    ensures var r := ComputeMultiplierSuggestions(points, settings, now, halfPow);
      forall i, j :: 0 <= i < j < |r| ==> r[i].complexity != r[j].complexity
  {
    var keys := Keys(points);
    var opts := PerKey(keys, points, settings, now, halfPow);
    SomesDistinct(opts);
  }

  /**
   * A complexity string gets a suggestion exactly when its bucket holds at
   * least three points and at least one of them has positive adjusted hours.
   */
  lemma SuggestionExactlyWhenEnoughEvidence(points: seq<DataPoint>, settings: Settings, now: int, halfPow: real -> real, c: string)
    requires IsHalfPower(halfPow)
    ensures (exists s :: s in ComputeMultiplierSuggestions(points, settings, now, halfPow) && s.complexity == c)
        <==> |Bucket(points, c)| >= MinDataPoints && exists p :: p in Bucket(points, c) && Contributes(p)
  {
    var keys := Keys(points);
    var opts := PerKey(keys, points, settings, now, halfPow);
    var bucket := Bucket(points, c);
    var o := SuggestFor(c, bucket, settings, now, halfPow);
    if |bucket| >= MinDataPoints && exists p :: p in bucket && Contributes(p) {
      assert bucket[0] in bucket;
      assert c in keys;
      var j :| 0 <= j < |keys| && keys[j] == c;
      assert opts[j] == o && o.Some?;
      assert o.value in Somes(opts);
    }
  }

  /** Points without actual hours have no effect at all on the suggestions. */
  lemma PointsWithoutActualsIgnored(points: seq<DataPoint>, settings: Settings, now: int, halfPow: real -> real)
    requires IsHalfPower(halfPow)
    ensures ComputeMultiplierSuggestions(Eligible(points), settings, now, halfPow)
         == ComputeMultiplierSuggestions(points, settings, now, halfPow)
  {
    forall c {
      EligibleKeepsGroups(points, c);
    }
    var keys := Keys(points);
    assert PerKey(keys, Eligible(points), settings, now, halfPow) == PerKey(keys, points, settings, now, halfPow);
  }

  /** Three fresh medium points that took 2, 1.5 and 1 times their estimate of five hours. */
  function FreshMediumPoints(now: int): seq<DataPoint> {
    [DataPoint("medium", 5.0, Some(10.0), 1.3, now),
     DataPoint("medium", 5.0, Some(7.5), 1.3, now),
     DataPoint("medium", 5.0, Some(5.0), 1.3, now)]
  }

  /** The three points share one complexity string, "medium". */
  lemma FreshMediumKeys(now: int)
    ensures Keys(FreshMediumPoints(now)) == ["medium"]
  {
    var points := FreshMediumPoints(now);
    var p1, p2 := points[0], points[1];
    assert points[..2] == [p1, p2] && [p1, p2][..1] == [p1] && [p1][..0] == [];
    assert Keys([p1]) == ["medium"];
    assert Keys([p1, p2]) == ["medium"];
  }

  /** All three points fall in the "medium" bucket. */
  lemma FreshMediumBucket(now: int)
    ensures Bucket(FreshMediumPoints(now), "medium") == FreshMediumPoints(now)
  {
    var points := FreshMediumPoints(now);
    assert forall p :: p in points ==> InBucket("medium")(p);
    FilterAllKept(points, InBucket("medium"));
  }

  /** All three weigh one, so the sums are the plain ones: 2 + 1.5 + 1 over three points. */
  lemma FreshMediumSums(now: int, halfPow: real -> real)
    requires IsHalfPower(halfPow)
    ensures WeightedSums(FreshMediumPoints(now), now, halfPow) == Sums(4.5, 3.0)
  {
    var points := FreshMediumPoints(now);
    var p1, p2 := points[0], points[1];
    assert points[..2] == [p1, p2] && [p1, p2][..1] == [p1] && [p1][..0] == [];
    CommonDateScalesSums(points, now, now, halfPow);
    RecencyWeightFacts(halfPow, now, now);
    assert PlainSums([p1]) == Sums(2.0, 1.0);
    assert PlainSums([p1, p2]) == Sums(3.5, 2.0);
  }

  /** The medium bucket's suggestion: mean correction 1.5 scales 1.3 to 1.95. */
  lemma FreshMediumSuggestion(now: int, halfPow: real -> real)
    requires IsHalfPower(halfPow)
    ensures SuggestFor("medium", FreshMediumPoints(now), DefaultSettings, now, halfPow)
      == Some(MultiplierSuggestion("medium", 1.3, 1.95, 1.5, 3))
  {
    FreshMediumSums(now, halfPow);
    Round2OfHundredth(1.95);
    Round2OfHundredth(1.5);
  }

  /**
   * Three fresh medium points that took 2, 1.5 and 1 times their estimate give
   * a mean correction of 1.5, and the default medium multiplier 1.3 becomes 1.95.
   */
  lemma CalibrationExample(now: int, halfPow: real -> real)
    requires IsHalfPower(halfPow)
    ensures ComputeMultiplierSuggestions(FreshMediumPoints(now), DefaultSettings, now, halfPow)
      == [MultiplierSuggestion("medium", 1.3, 1.95, 1.5, 3)]
  {
    var points := FreshMediumPoints(now);
    var expected := MultiplierSuggestion("medium", 1.3, 1.95, 1.5, 3);
    FreshMediumKeys(now);
    FreshMediumBucket(now);
    FreshMediumSuggestion(now, halfPow);
    var opts := PerKey(["medium"], points, DefaultSettings, now, halfPow);
    assert opts[0] == SuggestFor("medium", points, DefaultSettings, now, halfPow);
    assert opts == [Some(expected)];
    assert Somes(opts) == [expected] by {
      assert opts[1..] == [];
    }
  }
}
