/**
 * The seeded bootstrap procedures. A generator is any function from a position in its output to a
 * number; drawing below n takes the next number modulo n. What is proved holds for every generator.
 */
module Bootstrap {
  import opened Domain
  import opened Ordering
  import opened Percentile
  import Grouping

  type Draws = nat -> nat

  /** Seeding: every seed fixes its draws. */
  type Seeding = int -> Draws

  class Random {
    const draws: Draws
    var position: nat

    constructor (draws: Draws)
      ensures this.draws == draws && position == 0
    {
      this.draws, position := draws, 0;
    }

    method Randrange(n: nat) returns (r: nat)
      requires n > 0
      modifies this
      ensures position == old(position) + 1
      ensures r == draws(old(position)) % n
    {
      r := draws(position) % n;
      position := position + 1;
    }

    /** One element of xs for each element of xs, drawn with replacement. */
    method Choices<T>(xs: seq<T>) returns (chosen: seq<T>)
      modifies this
      ensures position == old(position) + |xs|
      ensures chosen == Chosen(xs, draws, old(position))
      ensures |chosen| == |xs| && forall k | 0 <= k < |xs| :: chosen[k] == xs[draws(old(position) + k) % |xs|]
    {
      chosen := [];
      for k := 0 to |xs|
        invariant position == old(position) + k
        invariant chosen == Chosen(xs, draws, old(position))[..k]
      {
        var r := Randrange(|xs|);
        chosen := chosen + [xs[r]];
      }
    }
  }

  function Chosen<T>(xs: seq<T>, draws: Draws, at: nat): seq<T> {
    seq(|xs|, k requires 0 <= k < |xs| => xs[draws(at + k) % |xs|])
  }

  datatype ConfidenceInterval = ConfidenceInterval(low: real, high: real, iterations: int, seed: int)

  /** The interval spanned by the tail percentiles of the samples. */
  function IntervalOf(samples: seq<real>, iterations: int, seed: int): Result<ConfidenceInterval, StatisticsError> {
    match (PercentileOf(samples, LOW_TAIL), PercentileOf(samples, HIGH_TAIL))
    case (Ok(low), Ok(high)) => Ok(ConfidenceInterval(low, high, iterations, seed))
    case (Err(error), _) => Err(error)
    case (_, Err(error)) => Err(error)
  }

  function Rounds(iterations: int): nat {
    if iterations <= 0 then 0 else iterations
  }

  function Sum(xs: seq<real>): real {
    if xs == [] then 0.0 else xs[0] + Sum(xs[1..])
  }

  function Mean(xs: seq<real>): real
    requires xs != []
  {
    Sum(xs) / |xs| as real
  }

  // ----- paired quality effect -----

  function Indicator(b: bool): real { if b then 1.0 else 0.0 }

  function Differences(baseline: seq<bool>, treatment: seq<bool>): seq<real>
    requires |baseline| == |treatment|
  {
    seq(|baseline|, i requires 0 <= i < |baseline| => Indicator(treatment[i]) - Indicator(baseline[i]))
  }

  /** The means of successive resamples, the first one drawn at position `at`. */
  function MeanSamples(differences: seq<real>, draws: Draws, at: nat, rounds: nat): seq<real>
    requires differences != []
    decreases rounds
  {
    if rounds == 0 then []
    else [Mean(Chosen(differences, draws, at))] + MeanSamples(differences, draws, at + |differences|, rounds - 1)
  }

  function PairedEffectInterval(baseline: seq<bool>, treatment: seq<bool>, iterations: int, seed: int, seeding: Seeding)
    : Result<ConfidenceInterval, StatisticsError>
  {
    if |baseline| != |treatment| || baseline == [] then Err(UnequalInputs)
    else
      var samples := MeanSamples(Differences(baseline, treatment), seeding(seed), 0, Rounds(iterations));
      IntervalOf(samples, iterations, seed)
  }

  method PairedQualityEffectCi(
    baseline: seq<bool>, treatment: seq<bool>, iterations: int, seed: int, seeding: Seeding)
    returns (interval: Result<ConfidenceInterval, StatisticsError>)
    ensures interval == PairedEffectInterval(baseline, treatment, iterations, seed, seeding)
  {
    if |baseline| != |treatment| || baseline == [] {
      return Err(UnequalInputs);
    }
    var rng := new Random(seeding(seed));
    var samples := ResampledMeans(Differences(baseline, treatment), rng, Rounds(iterations));
    return IntervalOf(samples, iterations, seed);
  }

  method ResampledMeans(differences: seq<real>, rng: Random, rounds: nat) returns (samples: seq<real>)
    requires differences != []
    modifies rng
    ensures samples == MeanSamples(differences, rng.draws, old(rng.position), rounds)
  {
    samples := [];
    ghost var all := MeanSamples(differences, rng.draws, rng.position, rounds);
    ghost var rest := all;
    for i := 0 to rounds
      invariant samples + rest == all
      invariant rest == MeanSamples(differences, rng.draws, rng.position, rounds - i)
    {
      var draw := rng.Choices(differences);
      rest := MeanSamples(differences, rng.draws, rng.position, rounds - i - 1);
      Assoc(samples, [Mean(draw)], rest);
      samples := samples + [Mean(draw)];
    }
    assert samples == all;
  }

  lemma {:induction false} SumOfNegation(xs: seq<real>)
    ensures Sum(Negated(xs)) == -Sum(xs)
  {
    if xs != [] {
      assert Negated(xs)[1..] == Negated(xs[1..]);
      SumOfNegation(xs[1..]);
    }
  }

  lemma NegatedCons(x: real, xs: seq<real>)
    ensures Negated([x] + xs) == [-x] + Negated(xs)
  {
  }

  lemma MeanOfNegation(differences: seq<real>, draws: Draws, at: nat)
    requires differences != []
    ensures Mean(Chosen(Negated(differences), draws, at)) == -Mean(Chosen(differences, draws, at))
  {
    var chosen := Chosen(differences, draws, at);
    assert Chosen(Negated(differences), draws, at) == Negated(chosen);
    SumOfNegation(chosen);
  }

  lemma {:induction false} MeanSamplesOfNegation(differences: seq<real>, draws: Draws, at: nat, rounds: nat)
    requires differences != []
    ensures MeanSamples(Negated(differences), draws, at, rounds)
            == Negated(MeanSamples(differences, draws, at, rounds))
    decreases rounds
  {
    if rounds > 0 {
      MeanOfNegation(differences, draws, at);
      MeanSamplesOfNegation(differences, draws, at + |differences|, rounds - 1);
      NegatedCons(Mean(Chosen(differences, draws, at)),
                  MeanSamples(differences, draws, at + |differences|, rounds - 1));
    }
  }

  function MirrorInterval(interval: ConfidenceInterval): ConfidenceInterval {
    interval.(low := -interval.high, high := -interval.low)
  }

  lemma IntervalOfNegation(samples: seq<real>, iterations: int, seed: int)
    requires samples != []
    ensures IntervalOf(Negated(samples), iterations, seed).value
            == MirrorInterval(IntervalOf(samples, iterations, seed).value)
  {
    QuantileOfNegation(samples, LOW_TAIL);
    QuantileOfNegation(samples, HIGH_TAIL);
  }

  /** Exchanging baseline and treatment under the same seed maps the interval [l, h] to [-h, -l]. */
  lemma PairedEffectSwaps(a: seq<bool>, b: seq<bool>, iterations: int, seed: int, seeding: Seeding)
    ensures var forward := PairedEffectInterval(a, b, iterations, seed, seeding);
            var backward := PairedEffectInterval(b, a, iterations, seed, seeding);
            match forward
            case Ok(interval) => backward == Ok(MirrorInterval(interval))
            case Err(error) => backward == Err(error)
  {
    if |a| == |b| && a != [] && iterations > 0 {
      assert Differences(b, a) == Negated(Differences(a, b));
      MeanSamplesOfNegation(Differences(a, b), seeding(seed), 0, iterations);
      IntervalOfNegation(MeanSamples(Differences(a, b), seeding(seed), 0, iterations), iterations, seed);
    }
  }

  ghost predicate AllZero(xs: seq<real>) {
    forall i | 0 <= i < |xs| :: xs[i] == 0.0
  }

  lemma {:induction false} SumOfZeros(xs: seq<real>)
    requires AllZero(xs)
    ensures Sum(xs) == 0.0
  {
    if xs != [] {
      SumOfZeros(xs[1..]);
    }
  }

  lemma {:induction false} MeanSamplesOfZeros(differences: seq<real>, draws: Draws, at: nat, rounds: nat)
    requires differences != [] && AllZero(differences)
    ensures |MeanSamples(differences, draws, at, rounds)| == rounds
    ensures AllZero(MeanSamples(differences, draws, at, rounds))
    decreases rounds
  {
    if rounds > 0 {
      SumOfZeros(Chosen(differences, draws, at));
      MeanSamplesOfZeros(differences, draws, at + |differences|, rounds - 1);
    }
  }

  /** Outcomes compared with themselves show no effect, under every seed. */
  lemma SameOutcomesShowNoEffect(outcomes: seq<bool>, iterations: int, seed: int, seeding: Seeding)
    requires outcomes != [] && iterations > 0
    ensures PairedEffectInterval(outcomes, outcomes, iterations, seed, seeding)
            == Ok(ConfidenceInterval(0.0, 0.0, iterations, seed))
  {
    var samples := MeanSamples(Differences(outcomes, outcomes), seeding(seed), 0, iterations);
    MeanSamplesOfZeros(Differences(outcomes, outcomes), seeding(seed), 0, iterations);
    QuantileWithinBounds(samples, LOW_TAIL, 0.0, 0.0);
    QuantileWithinBounds(samples, HIGH_TAIL, 0.0, 0.0);
  }

  /** Every interval is the right way round. */
  lemma IntervalIsOrdered(samples: seq<real>, iterations: int, seed: int)
    requires samples != []
    ensures var interval := IntervalOf(samples, iterations, seed).value;
            interval.low <= interval.high
  {
    QuantileMonotoneInProbability(samples, LOW_TAIL, HIGH_TAIL);
  }

  /** The interval runs from the 2.5th to the 97.5th percentile of the samples and names its resampling. */
  lemma IntervalSpansTheTails(samples: seq<real>, iterations: int, seed: int)
    requires samples != []
    ensures IntervalOf(samples, iterations, seed)
            == Ok(ConfidenceInterval(Quantile(samples, 0.025), Quantile(samples, 0.975), iterations, seed))
  {
  }

  /** Each mean is the mean of as many differences as there are, each the one its draw picks. */
  lemma {:induction false} MeansFollowTheDraws(differences: seq<real>, draws: Draws, at: nat, rounds: nat, k: nat)
    requires differences != [] && k < rounds
    ensures var n := |differences|;
            && |MeanSamples(differences, draws, at, rounds)| == rounds
            && MeanSamples(differences, draws, at, rounds)[k]
               == Sum(Chosen(differences, draws, at + k * n)) / n as real
    decreases rounds
  {
    var n := |differences|;
    if k == 0 {
      MeanSampleCount(differences, draws, at, rounds);
    } else {
      MeansFollowTheDraws(differences, draws, at + n, rounds - 1, k - 1);
      NextPlace(at, n, k);
    }
  }

  lemma {:induction false} MeanSampleCount(differences: seq<real>, draws: Draws, at: nat, rounds: nat)
    requires differences != []
    ensures |MeanSamples(differences, draws, at, rounds)| == rounds
    decreases rounds
  {
    if rounds > 0 {
      MeanSampleCount(differences, draws, at + |differences|, rounds - 1);
    }
  }

  /** Where the k-th resample of n draws begins. */
  function Place(at: nat, n: nat, k: nat): nat { at + k * n }

  lemma NextPlace(at: nat, n: nat, k: nat)
    requires k > 0
    ensures Place(at + n, n, k - 1) == Place(at, n, k)
  {
  }

  lemma OnePlaceOn(at: nat, n: nat, k: nat)
    ensures Place(at, n, k + 1) == Place(at, n, k) + n
  {
  }

  lemma {:induction false} SumWithin(xs: seq<real>, low: real, high: real)
    requires AllWithin(xs, low, high)
    ensures Grouping.Times(|xs|, low) <= Sum(xs)
    ensures Sum(xs) <= Grouping.Times(|xs|, high)
  {
    if xs != [] {
      SumWithin(xs[1..], low, high);
    }
  }

  lemma {:induction false} MeanSamplesWithin(
    differences: seq<real>, draws: Draws, at: nat, rounds: nat, low: real, high: real)
    requires differences != [] && AllWithin(differences, low, high)
    ensures |MeanSamples(differences, draws, at, rounds)| == rounds
    ensures AllWithin(MeanSamples(differences, draws, at, rounds), low, high)
    decreases rounds
  {
    if rounds > 0 {
      var chosen := Chosen(differences, draws, at);
      SumWithin(chosen, low, high);
      RatioAsMultiple(Sum(chosen), |chosen|, low, high);
      MeanSamplesWithin(differences, draws, at + |differences|, rounds - 1, low, high);
    }
  }

  /**
   * The interval lies between the least and the greatest difference of treatment over baseline, for
   * every seed: it starts at or above 0 when the treatment loses no item, and ends at or below 0 when
   * it wins none.
   */
  lemma PairedEffectWithinDifferences(
    baseline: seq<bool>, treatment: seq<bool>, iterations: int, seed: int, seeding: Seeding)
    requires PairedEffectInterval(baseline, treatment, iterations, seed, seeding).Ok?
    ensures var interval := PairedEffectInterval(baseline, treatment, iterations, seed, seeding).value;
            && |baseline| == |treatment|
            && -1.0 <= interval.low <= interval.high <= 1.0
            && ((forall i | 0 <= i < |baseline| :: baseline[i] ==> treatment[i]) ==> interval.low >= 0.0)
            && ((forall i | 0 <= i < |baseline| :: treatment[i] ==> baseline[i]) ==> interval.high <= 0.0)
            && interval.iterations == iterations && interval.seed == seed
  {
    var differences := Differences(baseline, treatment);
    var low := if forall i | 0 <= i < |baseline| :: baseline[i] ==> treatment[i] then 0.0 else -1.0;
    var high := if forall i | 0 <= i < |baseline| :: treatment[i] ==> baseline[i] then 0.0 else 1.0;
    var samples := MeanSamples(differences, seeding(seed), 0, Rounds(iterations));
    MeanSamplesWithin(differences, seeding(seed), 0, Rounds(iterations), low, high);
    QuantileWithinBounds(samples, LOW_TAIL, low, high);
    QuantileWithinBounds(samples, HIGH_TAIL, low, high);
    IntervalIsOrdered(samples, iterations, seed);
  }

  /** The interval runs from the 2.5th to the 97.5th percentile of as many samples as there are iterations. */
  ghost predicate SpansSamples(interval: ConfidenceInterval, samples: seq<real>, iterations: int, seed: int) {
    && samples != [] && |samples| == iterations
    && interval == ConfidenceInterval(Quantile(samples, 0.025), Quantile(samples, 0.975), iterations, seed)
  }

  /**
   * There is an interval exactly for as many treatments as baselines, at least one, and an iteration
   * count above 0; it spans the means of that many resamples, the k-th drawn with the seed's draws
   * from position k * n on.
   */
  lemma PairedIntervalSpansResamples(
    baseline: seq<bool>, treatment: seq<bool>, iterations: int, seed: int, seeding: Seeding)
    returns (samples: seq<real>)
    ensures PairedEffectInterval(baseline, treatment, iterations, seed, seeding).Ok?
            <==> |baseline| == |treatment| && baseline != [] && iterations > 0
    ensures PairedEffectInterval(baseline, treatment, iterations, seed, seeding).Ok? ==>
              && SpansSamples(PairedEffectInterval(baseline, treatment, iterations, seed, seeding).value,
                              samples, iterations, seed)
              && forall k | 0 <= k < iterations ::
                   samples[k]
                   == Sum(Chosen(Differences(baseline, treatment), seeding(seed), k * |baseline|)) / |baseline| as real
  {
    samples := [];
    if |baseline| == |treatment| && baseline != [] && iterations > 0 {
      var differences := Differences(baseline, treatment);
      samples := MeanSamples(differences, seeding(seed), 0, iterations);
      MeanSampleCount(differences, seeding(seed), 0, iterations);
      forall k | 0 <= k < iterations
        ensures samples[k] == Sum(Chosen(differences, seeding(seed), k * |baseline|)) / |baseline| as real
      {
        MeansFollowTheDraws(differences, seeding(seed), 0, iterations, k);
      }
      IntervalSpansTheTails(samples, iterations, seed);
    }
  }

  // ----- a metric over resampled clusters -----

  function Flattened(clusters: seq<seq<real>>): seq<real> {
    if clusters == [] then [] else clusters[0] + Flattened(clusters[1..])
  }

  /** Flattening keeps every value of every cluster, in order. */
  lemma {:induction false} FlattenedConcat(a: seq<seq<real>>, b: seq<seq<real>>)
    ensures Flattened(a + b) == Flattened(a) + Flattened(b)
  {
    if a == [] {
      assert a + b == b;
    } else {
      assert (a + b)[1..] == a[1..] + b;
      FlattenedConcat(a[1..], b);
      Assoc(a[0], Flattened(a[1..]), Flattened(b));
    }
  }

  lemma FlattenedOfOne(cluster: seq<real>)
    ensures Flattened([cluster]) == cluster
  {
    assert [cluster][1..] == [];
  }

  type Metric = seq<real> -> real

  function MetricSamples(clusters: seq<seq<real>>, metric: Metric, draws: Draws, at: nat, rounds: nat): seq<real>
    decreases rounds
  {
    if rounds == 0 then []
    else
      [metric(Flattened(Chosen(clusters, draws, at)))]
      + MetricSamples(clusters, metric, draws, at + |clusters|, rounds - 1)
  }

  function ClusteredInterval(clusters: seq<seq<real>>, metric: Metric, iterations: int, seed: int, seeding: Seeding)
    : Result<ConfidenceInterval, StatisticsError>
  {
    if clusters == [] || [] in clusters then Err(NoValues)
    else IntervalOf(MetricSamples(clusters, metric, seeding(seed), 0, Rounds(iterations)), iterations, seed)
  }

  /** One round more adds the sample of its own draws at the end. */
  lemma {:induction false} MetricSamplesGrow(
    clusters: seq<seq<real>>, metric: Metric, draws: Draws, at: nat, rounds: nat)
    ensures MetricSamples(clusters, metric, draws, at, rounds + 1)
            == MetricSamples(clusters, metric, draws, at, rounds)
               + [metric(Flattened(Chosen(clusters, draws, Place(at, |clusters|, rounds))))]
    decreases rounds
  {
    if rounds > 0 {
      NextPlace(at, |clusters|, rounds);
      MetricSamplesGrow(clusters, metric, draws, at + |clusters|, rounds - 1);
    }
  }

  method ResampledMetrics(clusters: seq<seq<real>>, metric: Metric, rng: Random, rounds: nat)
    returns (samples: seq<real>)
    modifies rng
    ensures samples == MetricSamples(clusters, metric, rng.draws, old(rng.position), rounds)
  {
    samples := [];
    ghost var start := rng.position;
    for i := 0 to rounds
      invariant rng.position == Place(start, |clusters|, i)
      invariant samples == MetricSamples(clusters, metric, rng.draws, start, i)
    {
      MetricSamplesGrow(clusters, metric, rng.draws, start, i);
      OnePlaceOn(start, |clusters|, i);
      var selected := rng.Choices(clusters);
      samples := samples + [metric(Flattened(selected))];
    }
  }

  method ClusteredMetricCi(clusters: seq<seq<real>>, metric: Metric, iterations: int, seed: int, seeding: Seeding)
    returns (interval: Result<ConfidenceInterval, StatisticsError>)
    ensures interval == ClusteredInterval(clusters, metric, iterations, seed, seeding)
  {
    if clusters == [] || [] in clusters {
      return Err(NoValues);
    }
    var rng := new Random(seeding(seed));
    var samples := ResampledMetrics(clusters, metric, rng, Rounds(iterations));
    return IntervalOf(samples, iterations, seed);
  }

  ghost predicate AllWithin(values: seq<real>, low: real, high: real) {
    forall i | 0 <= i < |values| :: low <= values[i] <= high
  }

  /** On non-empty data the metric stays within the bounds of the data. */
  ghost predicate StaysWithin(metric: Metric, low: real, high: real) {
    forall values | values != [] && AllWithin(values, low, high) :: low <= metric(values) <= high
  }

  lemma {:induction false} FlattenedWithin(clusters: seq<seq<real>>, low: real, high: real)
    requires forall i | 0 <= i < |clusters| :: clusters[i] != [] && AllWithin(clusters[i], low, high)
    ensures AllWithin(Flattened(clusters), low, high)
    ensures clusters != [] ==> Flattened(clusters) != []
  {
    if clusters != [] {
      FlattenedWithin(clusters[1..], low, high);
    }
  }

  lemma {:induction false} MetricSamplesWithin(
    clusters: seq<seq<real>>, metric: Metric, draws: Draws, at: nat, rounds: nat, low: real, high: real)
    requires clusters != [] && StaysWithin(metric, low, high)
    requires forall i | 0 <= i < |clusters| :: clusters[i] != [] && AllWithin(clusters[i], low, high)
    ensures |MetricSamples(clusters, metric, draws, at, rounds)| == rounds
    ensures forall v <- MetricSamples(clusters, metric, draws, at, rounds) :: low <= v <= high
    decreases rounds
  {
    if rounds > 0 {
      FlattenedWithin(Chosen(clusters, draws, at), low, high);
      MetricSamplesWithin(clusters, metric, draws, at + |clusters|, rounds - 1, low, high);
    }
  }

  /** Each sample is the metric over whole clusters, each the one its draw picks. */
  lemma {:induction false} MetricsFollowTheDraws(
    clusters: seq<seq<real>>, metric: Metric, draws: Draws, at: nat, rounds: nat, k: nat)
    requires clusters != [] && k < rounds
    ensures var n := |clusters|;
            && |MetricSamples(clusters, metric, draws, at, rounds)| == rounds
            && MetricSamples(clusters, metric, draws, at, rounds)[k]
               == metric(Flattened(Chosen(clusters, draws, at + k * n)))
    decreases rounds
  {
    var n := |clusters|;
    if k == 0 {
      MetricSampleCount(clusters, metric, draws, at, rounds);
    } else {
      MetricsFollowTheDraws(clusters, metric, draws, at + n, rounds - 1, k - 1);
      NextPlace(at, n, k);
    }
  }

  lemma {:induction false} MetricSampleCount(
    clusters: seq<seq<real>>, metric: Metric, draws: Draws, at: nat, rounds: nat)
    ensures |MetricSamples(clusters, metric, draws, at, rounds)| == rounds
    decreases rounds
  {
    if rounds > 0 {
      MetricSampleCount(clusters, metric, draws, at + |clusters|, rounds - 1);
    }
  }

  /**
   * There is an interval exactly for clusters that are there and not empty and an iteration count
   * above 0; it spans the metric over that many draws of whole clusters.
   */
  lemma ClusteredIntervalSpansResamples(
    clusters: seq<seq<real>>, metric: Metric, iterations: int, seed: int, seeding: Seeding)
    returns (samples: seq<real>)
    ensures ClusteredInterval(clusters, metric, iterations, seed, seeding).Ok?
            <==> clusters != [] && (forall cluster <- clusters :: cluster != []) && iterations > 0
    ensures ClusteredInterval(clusters, metric, iterations, seed, seeding).Ok? ==>
              && SpansSamples(ClusteredInterval(clusters, metric, iterations, seed, seeding).value,
                              samples, iterations, seed)
              && forall k | 0 <= k < iterations ::
                   samples[k] == metric(Flattened(Chosen(clusters, seeding(seed), k * |clusters|)))
  {
    samples := [];
    if clusters != [] && [] !in clusters && iterations > 0 {
      samples := MetricSamples(clusters, metric, seeding(seed), 0, iterations);
      MetricSampleCount(clusters, metric, seeding(seed), 0, iterations);
      forall k | 0 <= k < iterations
        ensures samples[k] == metric(Flattened(Chosen(clusters, seeding(seed), k * |clusters|)))
      {
        MetricsFollowTheDraws(clusters, metric, seeding(seed), 0, iterations, k);
      }
      IntervalSpansTheTails(samples, iterations, seed);
    }
  }

  /** The 95th percentile as a metric; it is never asked about empty data. */
  function P95Metric(values: seq<real>): real {
    if values == [] then 0.0 else Quantile(values, 0.95)
  }

  lemma P95StaysWithin(low: real, high: real)
    ensures StaysWithin(P95Metric, low, high)
  {
    forall values | values != [] && AllWithin(values, low, high) ensures low <= P95Metric(values) <= high {
      QuantileWithinBounds(values, 0.95, low, high);
    }
  }

  /**
   * Resampling whole repeats, the interval for a 95th percentile is ordered and lies within the
   * bounds of the measured values, for every seed and iteration count.
   */
  lemma ClusteredP95WithinData(
    clusters: seq<seq<real>>, iterations: int, seed: int, seeding: Seeding, low: real, high: real)
    requires ClusteredInterval(clusters, P95Metric, iterations, seed, seeding).Ok?
    requires forall i | 0 <= i < |clusters| :: AllWithin(clusters[i], low, high)
    ensures var interval := ClusteredInterval(clusters, P95Metric, iterations, seed, seeding).value;
            low <= interval.low <= interval.high <= high
  {
    var samples := MetricSamples(clusters, P95Metric, seeding(seed), 0, Rounds(iterations));
    P95StaysWithin(low, high);
    MetricSamplesWithin(clusters, P95Metric, seeding(seed), 0, Rounds(iterations), low, high);
    QuantileWithinBounds(samples, LOW_TAIL, low, high);
    QuantileWithinBounds(samples, HIGH_TAIL, low, high);
    IntervalIsOrdered(samples, iterations, seed);
  }

  // ----- ratio of sums over repeats -----

  function SumAt(amounts: map<int, real>, ids: seq<int>): real
    requires forall i | 0 <= i < |ids| :: ids[i] in amounts
  {
    if ids == [] then 0.0 else amounts[ids[0]] + SumAt(amounts, ids[1..])
  }

  function CountAt(counts: map<int, int>, ids: seq<int>): int
    requires forall i | 0 <= i < |ids| :: ids[i] in counts
  {
    if ids == [] then 0 else counts[ids[0]] + CountAt(counts, ids[1..])
  }

  /** Repeats whose counts are all positive, with an amount for each. */
  ghost predicate Ratios(amounts: map<int, real>, counts: map<int, int>, ids: seq<int>) {
    forall i | 0 <= i < |ids| :: ids[i] in amounts && ids[i] in counts && counts[ids[i]] > 0
  }

  lemma {:induction false} CountAtPositive(amounts: map<int, real>, counts: map<int, int>, ids: seq<int>)
    requires Ratios(amounts, counts, ids) && ids != []
    ensures CountAt(counts, ids) > 0
  {
    if |ids| > 1 {
      CountAtPositive(amounts, counts, ids[1..]);
    }
  }

  /** Every repeat's own ratio lies between the two bounds. */
  ghost predicate RatiosWithin(amounts: map<int, real>, counts: map<int, int>, ids: seq<int>, low: real, high: real)
    requires Ratios(amounts, counts, ids)
  {
    forall i | 0 <= i < |ids| :: low <= amounts[ids[i]] / counts[ids[i]] as real <= high
  }

  /** A ratio lies between two bounds exactly when the amount lies between that many copies of each. */
  lemma RatioAsMultiple(amount: real, count: nat, low: real, high: real)
    requires count > 0
    ensures low <= amount / count as real <= high
            <==> Grouping.Times(count, low) <= amount <= Grouping.Times(count, high)
  {
    Grouping.TimesIsProduct(count, low);
    Grouping.TimesIsProduct(count, high);
    Grouping.QuotientBound(amount, count as real, low);
    Grouping.QuotientBound(amount, count as real, high);
  }

  /** The mediant: pooled amounts over pooled counts stay within the bounds of the single ratios. */
  lemma {:induction false} PooledMultipleWithin(
    amounts: map<int, real>, counts: map<int, int>, ids: seq<int>, low: real, high: real)
    requires Ratios(amounts, counts, ids) && RatiosWithin(amounts, counts, ids, low, high)
    ensures CountAt(counts, ids) >= 0
    ensures Grouping.Times(CountAt(counts, ids), low) <= SumAt(amounts, ids)
            <= Grouping.Times(CountAt(counts, ids), high)
  {
    if ids != [] {
      PooledMultipleWithin(amounts, counts, ids[1..], low, high);
      var count: nat := counts[ids[0]];
      RatioAsMultiple(amounts[ids[0]], count, low, high);
      Grouping.TimesAdds(count, CountAt(counts, ids[1..]), low);
      Grouping.TimesAdds(count, CountAt(counts, ids[1..]), high);
    }
  }

  function PooledRatio(amounts: map<int, real>, counts: map<int, int>, ids: seq<int>): real
    requires forall i | 0 <= i < |ids| :: ids[i] in amounts && ids[i] in counts
    requires CountAt(counts, ids) > 0
  {
    SumAt(amounts, ids) / CountAt(counts, ids) as real
  }

  lemma PooledRatioWithin(amounts: map<int, real>, counts: map<int, int>, ids: seq<int>, low: real, high: real)
    requires Ratios(amounts, counts, ids) && ids != []
    requires RatiosWithin(amounts, counts, ids, low, high)
    ensures CountAt(counts, ids) > 0
    ensures low <= PooledRatio(amounts, counts, ids) <= high
  {
    CountAtPositive(amounts, counts, ids);
    PooledMultipleWithin(amounts, counts, ids, low, high);
    RatioAsMultiple(SumAt(amounts, ids), CountAt(counts, ids), low, high);
  }

  ghost predicate IdsOf(ids: seq<int>, amounts: map<int, real>) {
    && (forall i | 0 <= i < |ids| :: ids[i] in amounts)
    && (forall id <- amounts :: id in ids)
  }

  function RatioSample(amounts: map<int, real>, counts: map<int, int>, ids: seq<int>, draws: Draws, at: nat): real
    requires ids != [] && Ratios(amounts, counts, ids)
  {
    CountAtPositive(amounts, counts, Chosen(ids, draws, at));
    PooledRatio(amounts, counts, Chosen(ids, draws, at))
  }

  function RatioSamples(
    amounts: map<int, real>, counts: map<int, int>, ids: seq<int>, draws: Draws, at: nat, rounds: nat): seq<real>
    requires ids != [] && Ratios(amounts, counts, ids)
    decreases rounds
  {
    if rounds == 0 then []
    else
      [RatioSample(amounts, counts, ids, draws, at)]
      + RatioSamples(amounts, counts, ids, draws, at + |ids|, rounds - 1)
  }

  function SortedIds(amounts: map<int, real>): (ids: seq<int>)
    ensures IdsOf(ids, amounts)
    ensures |ids| == |amounts|
    ensures forall i, j | 0 <= i < j < |ids| :: ids[i] < ids[j]
  {
    Arranged(IntLeq, amounts.Keys)
  }

  function RatioInterval(
    amounts: map<int, real>, counts: map<int, int>, iterations: int, seed: int, seeding: Seeding)
    : Result<ConfidenceInterval, StatisticsError>
  {
    if amounts.Keys != counts.Keys || |amounts| == 0 then Err(RepeatsDiffer)
    else if exists id <- counts :: counts[id] <= 0 then Err(BadDenominator)
    else
      var samples := RatioSamples(amounts, counts, SortedIds(amounts), seeding(seed), 0, Rounds(iterations));
      IntervalOf(samples, iterations, seed)
  }

  method DrawRatio(amounts: map<int, real>, counts: map<int, int>, ids: seq<int>, rng: Random) returns (sample: real)
    requires ids != [] && Ratios(amounts, counts, ids)
    modifies rng
    ensures rng.position == old(rng.position) + |ids|
    ensures sample == RatioSample(amounts, counts, ids, rng.draws, old(rng.position))
  {
    var selected := rng.Choices(ids);
    CountAtPositive(amounts, counts, selected);
    sample := SumAt(amounts, selected) / CountAt(counts, selected) as real;
  }

  lemma {:induction false} RatioSamplesGrow(
    amounts: map<int, real>, counts: map<int, int>, ids: seq<int>, draws: Draws, at: nat, rounds: nat)
    requires ids != [] && Ratios(amounts, counts, ids)
    ensures RatioSamples(amounts, counts, ids, draws, at, rounds + 1)
            == RatioSamples(amounts, counts, ids, draws, at, rounds)
               + [RatioSample(amounts, counts, ids, draws, Place(at, |ids|, rounds))]
    decreases rounds
  {
    if rounds > 0 {
      NextPlace(at, |ids|, rounds);
      RatioSamplesGrow(amounts, counts, ids, draws, at + |ids|, rounds - 1);
    }
  }

  method ResampledRatios(amounts: map<int, real>, counts: map<int, int>, ids: seq<int>, rng: Random, rounds: nat)
    returns (samples: seq<real>)
    requires ids != [] && Ratios(amounts, counts, ids)
    modifies rng
    ensures samples == RatioSamples(amounts, counts, ids, rng.draws, old(rng.position), rounds)
  {
    samples := [];
    ghost var start := rng.position;
    for i := 0 to rounds
      invariant rng.position == Place(start, |ids|, i)
      invariant samples == RatioSamples(amounts, counts, ids, rng.draws, start, i)
    {
      RatioSamplesGrow(amounts, counts, ids, rng.draws, start, i);
      OnePlaceOn(start, |ids|, i);
      var sample := DrawRatio(amounts, counts, ids, rng);
      samples := samples + [sample];
    }
  }

  method RepeatRatioCi(amounts: map<int, real>, counts: map<int, int>, iterations: int, seed: int, seeding: Seeding)
    returns (interval: Result<ConfidenceInterval, StatisticsError>)
    ensures interval == RatioInterval(amounts, counts, iterations, seed, seeding)
  {
    if amounts.Keys != counts.Keys || |amounts| == 0 {
      return Err(RepeatsDiffer);
    }
    if exists id <- counts :: counts[id] <= 0 {
      return Err(BadDenominator);
    }
    var rng := new Random(seeding(seed));
    var samples := ResampledRatios(amounts, counts, SortedIds(amounts), rng, Rounds(iterations));
    return IntervalOf(samples, iterations, seed);
  }

  lemma {:induction false} RatioSamplesWithin(
    amounts: map<int, real>, counts: map<int, int>, ids: seq<int>, draws: Draws, at: nat, rounds: nat,
    low: real, high: real)
    requires ids != [] && Ratios(amounts, counts, ids) && RatiosWithin(amounts, counts, ids, low, high)
    ensures forall v <- RatioSamples(amounts, counts, ids, draws, at, rounds) :: low <= v <= high
    ensures |RatioSamples(amounts, counts, ids, draws, at, rounds)| == rounds
    decreases rounds
  {
    if rounds > 0 {
      var chosen := Chosen(ids, draws, at);
      CountAtPositive(amounts, counts, chosen);
      PooledRatioWithin(amounts, counts, chosen, low, high);
      RatioSamplesWithin(amounts, counts, ids, draws, at + |ids|, rounds - 1, low, high);
    }
  }

  /** Each sample is the amounts of the repeats its draws pick over their counts. */
  lemma {:induction false} RatiosFollowTheDraws(
    amounts: map<int, real>, counts: map<int, int>, ids: seq<int>, draws: Draws, at: nat, rounds: nat, k: nat)
    requires ids != [] && Ratios(amounts, counts, ids) && k < rounds
    ensures var n := |ids|;
            var selected := Chosen(ids, draws, at + k * n);
            && |RatioSamples(amounts, counts, ids, draws, at, rounds)| == rounds
            && CountAt(counts, selected) > 0
            && RatioSamples(amounts, counts, ids, draws, at, rounds)[k]
               == SumAt(amounts, selected) / CountAt(counts, selected) as real
    decreases rounds
  {
    var n := |ids|;
    if k == 0 {
      CountAtPositive(amounts, counts, Chosen(ids, draws, at));
      RatioSampleCount(amounts, counts, ids, draws, at, rounds);
    } else {
      RatiosFollowTheDraws(amounts, counts, ids, draws, at + n, rounds - 1, k - 1);
      NextPlace(at, n, k);
    }
  }

  lemma {:induction false} RatioSampleCount(
    amounts: map<int, real>, counts: map<int, int>, ids: seq<int>, draws: Draws, at: nat, rounds: nat)
    requires ids != [] && Ratios(amounts, counts, ids)
    ensures |RatioSamples(amounts, counts, ids, draws, at, rounds)| == rounds
    decreases rounds
  {
    if rounds > 0 {
      RatioSampleCount(amounts, counts, ids, draws, at + |ids|, rounds - 1);
    }
  }

  /** The k-th sample is what the repeats drawn for it amount to, over what they count. */
  ghost predicate IsPooledDraw(
    amounts: map<int, real>, counts: map<int, int>, ids: seq<int>, draws: Draws, sample: real, k: nat)
  {
    && Ratios(amounts, counts, ids)
    && var selected := Chosen(ids, draws, k * |ids|);
    CountAt(counts, selected) > 0 && sample == SumAt(amounts, selected) / CountAt(counts, selected) as real
  }

  ghost predicate ArePooledDraws(
    amounts: map<int, real>, counts: map<int, int>, ids: seq<int>, draws: Draws, samples: seq<real>)
  {
    forall k | 0 <= k < |samples| :: IsPooledDraw(amounts, counts, ids, draws, samples[k], k)
  }

  lemma RatioSamplesArePooledDraws(
    amounts: map<int, real>, counts: map<int, int>, ids: seq<int>, draws: Draws, rounds: nat)
    requires ids != [] && Ratios(amounts, counts, ids)
    ensures var samples := RatioSamples(amounts, counts, ids, draws, 0, rounds);
            |samples| == rounds && ArePooledDraws(amounts, counts, ids, draws, samples)
  {
    RatioSampleCount(amounts, counts, ids, draws, 0, rounds);
    var samples := RatioSamples(amounts, counts, ids, draws, 0, rounds);
    forall k | 0 <= k < rounds ensures IsPooledDraw(amounts, counts, ids, draws, samples[k], k) {
      RatiosFollowTheDraws(amounts, counts, ids, draws, 0, rounds, k);
    }
  }

  /**
   * There is an interval exactly for amounts and counts of the same repeats, at least one, all counts
   * positive, and an iteration count above 0.
   */
  lemma RatioIntervalExactly(
    amounts: map<int, real>, counts: map<int, int>, iterations: int, seed: int, seeding: Seeding)
    ensures RatioInterval(amounts, counts, iterations, seed, seeding).Ok?
            <==> && amounts.Keys == counts.Keys && |amounts| > 0
                 && (forall id <- counts :: counts[id] > 0) && iterations > 0
  {
  }

  /**
   * The interval spans the pooled ratios of as many draws of the repeats, in ascending order, as
   * there are iterations.
   */
  lemma RatioIntervalSpansResamples(
    amounts: map<int, real>, counts: map<int, int>, iterations: int, seed: int, seeding: Seeding)
    returns (samples: seq<real>)
    requires RatioInterval(amounts, counts, iterations, seed, seeding).Ok?
    ensures SpansSamples(RatioInterval(amounts, counts, iterations, seed, seeding).value, samples, iterations, seed)
    ensures ArePooledDraws(amounts, counts, SortedIds(amounts), seeding(seed), samples)
  {
    RatioIntervalExactly(amounts, counts, iterations, seed, seeding);
    samples := RatioSamples(amounts, counts, SortedIds(amounts), seeding(seed), 0, iterations);
    RatioSamplesArePooledDraws(amounts, counts, SortedIds(amounts), seeding(seed), iterations);
    IntervalSpansTheTails(samples, iterations, seed);
  }

  lemma RatioIntervalIsOrdered(
    amounts: map<int, real>, counts: map<int, int>, iterations: int, seed: int, seeding: Seeding)
    ensures var interval := RatioInterval(amounts, counts, iterations, seed, seeding);
            interval.Ok? ==> interval.value.low <= interval.value.high
  {
    if RatioInterval(amounts, counts, iterations, seed, seeding).Err? {
      return;
    }
    var samples := RatioSamples(amounts, counts, SortedIds(amounts), seeding(seed), 0, Rounds(iterations));
    IntervalIsOrdered(samples, iterations, seed);
  }

  /**
   * For every seed and iteration count the cost-per-correct interval is ordered and lies within
   * any bounds that hold for every repeat's own ratio, hence within the least and greatest ratio.
   */
  lemma RatioIntervalWithinRepeats(
    amounts: map<int, real>, counts: map<int, int>, iterations: int, seed: int, seeding: Seeding,
    low: real, high: real)
    requires forall id <- amounts :: id in counts && counts[id] > 0 && low <= amounts[id] / counts[id] as real <= high
    ensures var interval := RatioInterval(amounts, counts, iterations, seed, seeding);
            interval.Ok? ==> low <= interval.value.low <= interval.value.high <= high
  {
    if RatioInterval(amounts, counts, iterations, seed, seeding).Err? {
      return;
    }
    var ids := SortedIds(amounts);
    var samples := RatioSamples(amounts, counts, ids, seeding(seed), 0, Rounds(iterations));
    RatioSamplesWithin(amounts, counts, ids, seeding(seed), 0, Rounds(iterations), low, high);
    QuantileWithinBounds(samples, LOW_TAIL, low, high);
    QuantileWithinBounds(samples, HIGH_TAIL, low, high);
    IntervalIsOrdered(samples, iterations, seed);
  }
}
