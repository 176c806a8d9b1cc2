/** The interpolated percentile over exact reals, and its laws. */
module Percentile {
  import opened Domain
  import opened Ordering
  import opened Arithmetic
  import Grouping

  datatype StatisticsError = NoValues | BadProbability | UnequalInputs | RepeatsDiffer | BadDenominator

  function Ceiling(x: real): int {
    if x == x.Floor as real then x.Floor else x.Floor + 1
  }

  /** The mean of two values with weight f on the second. */
  function Blend(a: real, b: real, f: real): real {
    a * (1.0 - f) + b * f
  }

  /** The value at a fractional position of an ordered sequence. */
  function Interpolated(ordered: seq<real>, position: real): real
    requires ordered != [] && 0.0 <= position <= (|ordered| - 1) as real
  {
    var lower := position.Floor;
    var upper := Ceiling(position);
    if lower == upper then ordered[lower]
    else Blend(ordered[lower], ordered[upper], position - lower as real)
  }

  function Position(n: nat, probability: real): real {
    (n as real - 1.0) * probability
  }

  lemma ProductOrder(x: real, y: real, k: real)
    requires x <= y && k >= 0.0
    ensures x * k <= y * k
  {
  }

  lemma PositionInRange(n: nat, probability: real)
    requires n > 0 && 0.0 <= probability <= 1.0
    ensures 0.0 <= Position(n, probability) <= (n - 1) as real
  {
    ProductOrder(0.0, probability, n as real - 1.0);
    ProductOrder(probability, 1.0, n as real - 1.0);
  }

  /** The percentile of a non-empty sequence at a probability. */
  function Quantile(values: seq<real>, probability: real): real
    requires values != [] && 0.0 <= probability <= 1.0
  {
    SortKeeps(values);
    PositionInRange(|values|, probability);
    Interpolated(Sort(values), Position(|values|, probability))
  }

  function PercentileOf(values: seq<real>, probability: real): Result<real, StatisticsError> {
    if values == [] then Err(NoValues)
    else if !(0.0 <= probability <= 1.0) then Err(BadProbability)
    else Ok(Quantile(values, probability))
  }

  const LOW_TAIL := 0.025
  const HIGH_TAIL := 0.975

  // ----- interpolation -----

  /** A weighted mean of two ordered values lies between them and grows with the weight. */
  lemma BlendBounds(a: real, b: real, f: real, g: real)
    requires a <= b && 0.0 <= f <= g <= 1.0
    ensures a <= Blend(a, b, f) <= Blend(a, b, g) <= b
  {
    assert Blend(a, b, f) == a + (b - a) * f;
    assert Blend(a, b, g) == a + (b - a) * g;
    NonNegativeProduct(b - a, f);
    NonNegativeProduct(b - a, g - f);
    NonNegativeProduct(b - a, 1.0 - g);
  }

  lemma InterpolatedBetween(ordered: seq<real>, position: real)
    requires Sorted(ordered) && ordered != [] && 0.0 <= position <= (|ordered| - 1) as real
    ensures ordered[position.Floor] <= Interpolated(ordered, position) <= ordered[Ceiling(position)]
  {
    var lower, upper := position.Floor, Ceiling(position);
    if lower != upper {
      BlendBounds(ordered[lower], ordered[upper], position - lower as real, 1.0);
    }
  }

  lemma InterpolatedMonotone(ordered: seq<real>, x: real, y: real)
    requires Sorted(ordered) && ordered != [] && 0.0 <= x <= y <= (|ordered| - 1) as real
    ensures Interpolated(ordered, x) <= Interpolated(ordered, y)
  {
    InterpolatedBetween(ordered, x);
    InterpolatedBetween(ordered, y);
    if x.Floor == y.Floor && Ceiling(y) != y.Floor {
      var lower := x.Floor;
      BlendBounds(ordered[lower], ordered[lower + 1], x - lower as real, y - lower as real);
    }
  }

  lemma BlendBelow(a: real, b: real, c: real, d: real, f: real)
    requires a <= c && b <= d && 0.0 <= f <= 1.0
    ensures Blend(a, b, f) <= Blend(c, d, f)
  {
    NonNegativeProduct(c - a, 1.0 - f);
    NonNegativeProduct(d - b, f);
    assert Blend(c, d, f) - Blend(a, b, f) == (c - a) * (1.0 - f) + (d - b) * f;
  }

  lemma InterpolatedBelow(a: seq<real>, b: seq<real>, position: real)
    requires Below(a, b) && a != [] && 0.0 <= position <= (|a| - 1) as real
    ensures Interpolated(a, position) <= Interpolated(b, position)
  {
    var lower, upper := position.Floor, Ceiling(position);
    if lower != upper {
      var fraction := position - lower as real;
      BlendBelow(a[lower], a[upper], b[lower], b[upper], fraction);
    }
  }

  lemma FloorOf(x: real, n: int)
    requires n as real <= x < n as real + 1.0
    ensures x.Floor == n
  {
  }

  /** Reading the mirror image from the other end negates the value: floor and ceiling trade places. */
  lemma InterpolatedMirrored(ordered: seq<real>, position: real)
    requires ordered != [] && 0.0 <= position <= (|ordered| - 1) as real
    ensures Interpolated(Mirrored(ordered), (|ordered| - 1) as real - position) == -Interpolated(ordered, position)
  {
    var last := |ordered| - 1;
    var lower, upper := position.Floor, Ceiling(position);
    var other := last as real - position;
    FloorOf(other, last - upper);
    if lower != upper {
      assert Ceiling(other) == last - lower;
      var fraction := position - lower as real;
      assert other - other.Floor as real == 1.0 - fraction;
      assert Mirrored(ordered)[last - upper] == -ordered[upper];
      assert Mirrored(ordered)[last - lower] == -ordered[lower];
      BlendMirrored(ordered[lower], ordered[upper], fraction);
    }
  }

  lemma BlendMirrored(a: real, b: real, f: real)
    ensures Blend(-b, -a, 1.0 - f) == -Blend(a, b, f)
  {
  }

  // ----- percentile laws -----

  /** The percentile lies between any lower and upper bound of the data. */
  lemma QuantileWithinBounds(values: seq<real>, probability: real, low: real, high: real)
    requires values != [] && 0.0 <= probability <= 1.0
    requires forall v <- values :: low <= v <= high
    ensures low <= Quantile(values, probability) <= high
  {
    SortKeeps(values);
    PositionInRange(|values|, probability);
    InterpolatedBetween(Sort(values), Position(|values|, probability));
    forall i | 0 <= i < |values| ensures low <= Sort(values)[i] <= high {
      assert Sort(values)[i] in multiset(Sort(values));
      assert Sort(values)[i] in values;
    }
  }

  function NoMoreThan(limit: real): real -> bool { (v: real) => v <= limit }

  function NoLessThan(limit: real): real -> bool { (v: real) => v >= limit }

  /**
   * The percentile splits the data at its position: that many values and one more do not exceed
   * it, and as many as lie from the next position on do not fall below it.
   */
  lemma QuantileSplitsData(values: seq<real>, probability: real)
    requires values != [] && 0.0 <= probability <= 1.0
    ensures var q, position := Quantile(values, probability), Position(|values|, probability);
            && Grouping.Count(NoMoreThan(q), values) >= position.Floor + 1
            && Grouping.Count(NoLessThan(q), values) >= |values| - Ceiling(position)
  {
    var q, position, ordered := Quantile(values, probability), Position(|values|, probability), Sort(values);
    SortKeeps(values);
    PositionInRange(|values|, probability);
    InterpolatedBetween(ordered, position);
    SplitsOrdered(ordered, position, q);
    Grouping.CountIgnoresOrder(NoMoreThan(q), ordered, values);
    Grouping.CountIgnoresOrder(NoLessThan(q), ordered, values);
  }

  lemma SplitsOrdered(ordered: seq<real>, position: real, q: real)
    requires Sorted(ordered) && ordered != [] && 0.0 <= position <= (|ordered| - 1) as real
    requires ordered[position.Floor] <= q <= ordered[Ceiling(position)]
    ensures Grouping.Count(NoMoreThan(q), ordered) >= position.Floor + 1
    ensures Grouping.Count(NoLessThan(q), ordered) >= |ordered| - Ceiling(position)
  {
    Grouping.CountOfStretch(NoMoreThan(q), ordered, 0, position.Floor + 1);
    Grouping.CountOfStretch(NoLessThan(q), ordered, Ceiling(position), |ordered|);
  }

  lemma QuantileIgnoresOrder(a: seq<real>, b: seq<real>, probability: real)
    requires a != [] && multiset(a) == multiset(b) && 0.0 <= probability <= 1.0
    ensures b != [] && Quantile(a, probability) == Quantile(b, probability)
  {
    SortOfPermutation(a, b);
    SortKeeps(a);
    SortKeeps(b);
  }

  lemma QuantileMonotoneInProbability(values: seq<real>, p: real, q: real)
    requires values != [] && 0.0 <= p <= q <= 1.0
    ensures Quantile(values, p) <= Quantile(values, q)
  {
    SortKeeps(values);
    PositionInRange(|values|, p);
    PositionInRange(|values|, q);
    ProductOrder(p, q, |values| as real - 1.0);
    InterpolatedMonotone(Sort(values), Position(|values|, p), Position(|values|, q));
  }

  lemma QuantileMonotoneInData(a: seq<real>, b: seq<real>, probability: real)
    requires a != [] && Below(a, b) && 0.0 <= probability <= 1.0
    ensures Quantile(a, probability) <= Quantile(b, probability)
  {
    SortIsMonotone(a, b);
    SortKeeps(a);
    PositionInRange(|a|, probability);
    InterpolatedBelow(Sort(a), Sort(b), Position(|a|, probability));
  }

  lemma PositionOfComplement(n: nat, probability: real)
    requires n > 0
    ensures Position(n, 1.0 - probability) == (n - 1) as real - Position(n, probability)
  {
  }

  lemma MirroredAtComplement(ordered: seq<real>, probability: real)
    requires ordered != [] && 0.0 <= probability <= 1.0
    ensures 0.0 <= Position(|ordered|, probability) <= (|ordered| - 1) as real
    ensures 0.0 <= Position(|ordered|, 1.0 - probability) <= (|ordered| - 1) as real
    ensures Interpolated(Mirrored(ordered), Position(|ordered|, 1.0 - probability))
            == -Interpolated(ordered, Position(|ordered|, probability))
  {
    PositionInRange(|ordered|, probability);
    PositionInRange(|ordered|, 1.0 - probability);
    PositionOfComplement(|ordered|, probability);
    InterpolatedMirrored(ordered, Position(|ordered|, probability));
  }

  /** The percentile of negated data is the negated percentile at the complementary probability. */
  lemma QuantileOfNegation(values: seq<real>, probability: real)
    requires values != [] && 0.0 <= probability <= 1.0
    ensures Quantile(Negated(values), 1.0 - probability) == -Quantile(values, probability)
  {
    SortOfNegation(values);
    SortKeeps(values);
    MirroredAtComplement(Sort(values), probability);
  }

  // ----- interpolation is linear -----

  lemma BlendIsLinear(a: real, b: real, f: real)
    ensures Blend(a, b, f) == a + f * (b - a)
  {
    assert f * (b - a) == b * f - a * f;
  }

  lemma InterpolatedIsLinear(ordered: seq<real>, k: nat, f: real)
    requires k < |ordered| && 0.0 <= f < 1.0 && (f > 0.0 ==> k + 1 < |ordered|)
    ensures Interpolated(ordered, k as real + f)
            == if f == 0.0 then ordered[k] else ordered[k] + f * (ordered[k + 1] - ordered[k])
  {
    FloorOf(k as real + f, k);
    if f > 0.0 {
      BlendIsLinear(ordered[k], ordered[k + 1], f);
    }
  }

  lemma QuantileAtPosition(values: seq<real>, ordered: seq<real>, probability: real, k: nat, f: real)
    requires Sorted(ordered) && multiset(ordered) == multiset(values)
    requires k < |values| && 0.0 <= f < 1.0 && 0.0 <= probability <= 1.0
    requires Position(|values|, probability) == k as real + f
    ensures |ordered| == |values| && (f > 0.0 ==> k + 1 < |ordered|)
    ensures Quantile(values, probability)
            == if f == 0.0 then ordered[k] else ordered[k] + f * (ordered[k + 1] - ordered[k])
  {
    SortKeeps(values);
    SortedIsUnique(ordered, Sort(values));
    PositionInRange(|values|, probability);
    InterpolatedIsLinear(ordered, k, f);
  }

  /**
   * Between neighbouring order statistics the percentile moves in proportion to the position: at k
   * and a fraction f it has gone the share f of the way from the k-th value in order to the next.
   */
  lemma QuantileIsLinear(values: seq<real>, ordered: seq<real>, probability: real, k: nat, f: real)
    requires Sorted(ordered) && multiset(ordered) == multiset(values)
    requires k < |values| && 0.0 <= f < 1.0 && 0.0 <= probability <= 1.0
    requires (|values| as real - 1.0) * probability == k as real + f
    ensures |ordered| == |values| && (f > 0.0 ==> k + 1 < |ordered|)
    ensures Quantile(values, probability)
            == if f == 0.0 then ordered[k] else ordered[k] + f * (ordered[k + 1] - ordered[k])
  {
    QuantileAtPosition(values, ordered, probability, k, f);
  }

  lemma RescaledStep(a: real, b: real, c: real, d: real, f: real)
    ensures (c * a + d) + f * ((c * b + d) - (c * a + d)) == c * (a + f * (b - a)) + d
  {
    assert (c * b + d) - (c * a + d) == c * (b - a);
    assert f * (c * (b - a)) == c * (f * (b - a));
  }

  lemma InterpolatedRescaled(ordered: seq<real>, position: real, c: real, d: real)
    requires ordered != [] && 0.0 <= position <= (|ordered| - 1) as real
    ensures Interpolated(Rescaled(ordered, c, d), position) == c * Interpolated(ordered, position) + d
  {
    var k, f := position.Floor, position - position.Floor as real;
    InterpolatedIsLinear(ordered, k, f);
    InterpolatedIsLinear(Rescaled(ordered, c, d), k, f);
    if f > 0.0 {
      RescaledStep(ordered[k], ordered[k + 1], c, d, f);
    }
  }

  /** Measured in another unit, by any scale that is not negative and any shift, the percentile is the same one. */
  lemma QuantileRescaled(values: seq<real>, probability: real, c: real, d: real)
    requires values != [] && 0.0 <= probability <= 1.0 && c >= 0.0
    ensures Quantile(Rescaled(values, c, d), probability) == c * Quantile(values, probability) + d
  {
    if c == 0.0 {
      QuantileWithinBounds(Rescaled(values, c, d), probability, d, d);
    } else {
      SortRescaled(values, c, d);
      SortKeeps(values);
      PositionInRange(|values|, probability);
      InterpolatedRescaled(Sort(values), Position(|values|, probability), c, d);
    }
  }

  function UpTo(n: nat): seq<real> {
    seq(n, i => i as real)
  }

  /** On 0, 1, .., n - 1 the percentile is the position itself. */
  lemma QuantileOfPositions(n: nat, probability: real)
    requires n > 0 && 0.0 <= probability <= 1.0
    ensures Quantile(UpTo(n), probability) == (n as real - 1.0) * probability
  {
    PositionInRange(n, probability);
    var position := Position(n, probability);
    var k, f := position.Floor, position - position.Floor as real;
    QuantileIsLinear(UpTo(n), UpTo(n), probability, k, f);
  }
}
