/** Paired comparison of two completed runs and its fail-closed verdict. */
module Comparison {
  import opened Domain
  import opened Ordering
  import opened Percentile
  import opened Bootstrap
  import opened BenchmarkRecords
  import opened Grouping

  datatype Treatment = TreatmentA | TreatmentB

  function Other(treatment: Treatment): Treatment {
    if treatment == TreatmentA then TreatmentB else TreatmentA
  }

  type Key = (string, int)

  // ----- pairing -----

  datatype PairingError =
    | ItemSetsDiffer
    | DuplicateRecord(treatment: Treatment, key: Key)
    | NoTaskCorrect(treatment: Treatment, key: Key)
    | PairSetsDiffer
    | Resampling(error: StatisticsError)

  function ItemIds(records: seq<BenchmarkRecord>): set<string> {
    set record <- records :: record.itemId
  }

  function KeyOf(record: BenchmarkRecord): Key { (record.itemId, record.repeatIndex) }

  function IndexFrom(records: seq<BenchmarkRecord>, treatment: Treatment, pairs: map<Key, bool>)
    : Result<map<Key, bool>, PairingError>
    decreases |records|
  {
    if records == [] then Ok(pairs)
    else
      var key := KeyOf(records[0]);
      if key in pairs then Err(DuplicateRecord(treatment, key))
      else if records[0].taskCorrect.None? then Err(NoTaskCorrect(treatment, key))
      else IndexFrom(records[1..], treatment, pairs[key := records[0].taskCorrect.value])
  }

  method Indexed(records: seq<BenchmarkRecord>, treatment: Treatment)
    returns (indexed: Result<map<Key, bool>, PairingError>)
    ensures indexed == IndexFrom(records, treatment, map[])
  {
    var pairs: map<Key, bool> := map[];
    for i := 0 to |records|
      invariant IndexFrom(records, treatment, map[]) == IndexFrom(records[i..], treatment, pairs)
    {
      var key := KeyOf(records[i]);
      assert records[i..][1..] == records[i + 1..];
      if key in pairs {
        return Err(DuplicateRecord(treatment, key));
      }
      if records[i].taskCorrect.None? {
        return Err(NoTaskCorrect(treatment, key));
      }
      pairs := pairs[key := records[i].taskCorrect.value];
    }
    return Ok(pairs);
  }

  datatype QualityEffect = QualityEffect(
    estimate: real,
    pairedObservations: nat,
    uniqueItems: nat,
    interval: ConfidenceInterval)

  function SortedKeys(pairs: map<Key, bool>): (keys: seq<Key>)
    ensures |keys| == |pairs|
    ensures forall i | 0 <= i < |keys| :: keys[i] in pairs
    ensures forall key <- pairs :: key in keys
    ensures forall i, j | 0 <= i < j < |keys| :: keys[i] != keys[j] && KeyLeq(keys[i], keys[j])
  {
    KeyOrder();
    Arranged(KeyLeq, pairs.Keys)
  }

  function Verdicts(pairs: map<Key, bool>, keys: seq<Key>): seq<bool>
    requires forall i | 0 <= i < |keys| :: keys[i] in pairs
  {
    seq(|keys|, i requires 0 <= i < |keys| => pairs[keys[i]])
  }

  /** The effect of treatment B over treatment A on paired outcomes. */
  function EffectOf(baseline: seq<bool>, treatment: seq<bool>, items: nat, iterations: int, seed: int, seeding: Seeding)
    : Result<QualityEffect, PairingError>
    requires |baseline| == |treatment|
  {
    match PairedEffectInterval(baseline, treatment, iterations, seed, seeding)
    case Err(error) => Err(Resampling(error))
    case Ok(interval) =>
      Ok(QualityEffect(Sum(Differences(baseline, treatment)) / |baseline| as real, |baseline|, items, interval))
  }

  function PairedQualityOf(
    recordsA: seq<BenchmarkRecord>, recordsB: seq<BenchmarkRecord>, iterations: int, seed: int, seeding: Seeding)
    : Result<QualityEffect, PairingError>
  {
    if ItemIds(recordsA) != ItemIds(recordsB) then Err(ItemSetsDiffer)
    else
      match (IndexFrom(recordsA, TreatmentA, map[]), IndexFrom(recordsB, TreatmentB, map[]))
      case (Err(error), _) => Err(error)
      case (_, Err(error)) => Err(error)
      case (Ok(pairsA), Ok(pairsB)) =>
        if pairsA.Keys != pairsB.Keys then Err(PairSetsDiffer)
        else
          var keys := SortedKeys(pairsA);
          EffectOf(Verdicts(pairsA, keys), Verdicts(pairsB, keys), |ItemIds(recordsA)|, iterations, seed, seeding)
  }

  method PairedQuality(
    recordsA: seq<BenchmarkRecord>, recordsB: seq<BenchmarkRecord>, iterations: int, seed: int, seeding: Seeding)
    returns (effect: Result<QualityEffect, PairingError>)
    ensures effect == PairedQualityOf(recordsA, recordsB, iterations, seed, seeding)
  {
    if ItemIds(recordsA) != ItemIds(recordsB) {
      return Err(ItemSetsDiffer);
    }
    var indexedA := Indexed(recordsA, TreatmentA);
    if indexedA.Err? {
      return Err(indexedA.error);
    }
    var indexedB := Indexed(recordsB, TreatmentB);
    if indexedB.Err? {
      return Err(indexedB.error);
    }
    var pairsA, pairsB := indexedA.value, indexedB.value;
    if pairsA.Keys != pairsB.Keys {
      return Err(PairSetsDiffer);
    }
    var keys := SortedKeys(pairsA);
    var baseline, treatment := Verdicts(pairsA, keys), Verdicts(pairsB, keys);
    var interval := PairedQualityEffectCi(baseline, treatment, iterations, seed, seeding);
    if interval.Err? {
      return Err(Resampling(interval.error));
    }
    var estimate := Sum(Differences(baseline, treatment)) / |keys| as real;
    return Ok(QualityEffect(estimate, |keys|, |ItemIds(recordsA)|, interval.value));
  }

  // ----- cost deltas -----

  /** What a run's summary offers a comparison; None where the summary lacks a finite value. */
  datatype Summary = Summary(viewA: Option<real>, viewB: Option<real>, viewAInterval: Option<(real, real)>)

  datatype CostDelta = CostDelta(
    viewA: Option<real>,
    viewB: Option<real>,
    viewAInterval: Option<(real, real)>,
    complete: bool)

  function Minus(b: Option<real>, a: Option<real>): Option<real> {
    if a.Some? && b.Some? then Some(b.value - a.value) else None
  }

  function CostDeltaOf(a: Summary, b: Summary): CostDelta {
    var interval :=
      if a.viewAInterval.Some? && b.viewAInterval.Some?
      then Some((b.viewAInterval.value.0 - a.viewAInterval.value.1, b.viewAInterval.value.1 - a.viewAInterval.value.0))
      else None;
    CostDelta(Minus(b.viewA, a.viewA), Minus(b.viewB, a.viewB), interval,
              a.viewA.Some? && b.viewA.Some? && a.viewB.Some? && b.viewB.Some? && interval.Some?)
  }

  // ----- the verdict -----

  datatype Manifest = Manifest(
    publishable: bool,
    datasetChecksum: Option<string>,
    sloCell: Option<string>,
    workload: Option<string>,
    declaredRepeats: Option<int>,
    nonLocalPlacement: bool,
    iterations: int,
    seed: int)

  datatype CompletedRun = CompletedRun(records: seq<BenchmarkRecord>, manifest: Manifest, summary: Summary)

  datatype FailedCondition =
    | NotPublishable
    | ChecksumsDiffer
    | CellsDiffer
    | WorkloadsDiffer
    | TooFewRepeats(treatment: Treatment)
    | TooFewSuccesses(treatment: Treatment)
    | LocalPlacement(treatment: Treatment)
    | CostsIncomplete
    | NoDirection

  datatype Verdict = Verdict(direction: Option<Treatment>, failed: seq<FailedCondition>) {
    predicate Supported() { failed == [] }
  }

  predicate PresentAndEqual(a: Option<string>, b: Option<string>) {
    a.Some? && a.value != "" && a == b
  }

  function RepeatCount(records: seq<BenchmarkRecord>): nat {
    |set record <- records :: record.repeatIndex|
  }

  function Successes(records: seq<BenchmarkRecord>): nat {
    Count((record: BenchmarkRecord) => !HasFailed(record), records)
  }

  predicate EnoughRepeats(run: CompletedRun) {
    && RepeatCount(run.records) >= 3
    && run.manifest.declaredRepeats.Some?
    && run.manifest.declaredRepeats.value >= 3
  }

  predicate EnoughSuccesses(run: CompletedRun) {
    Successes(run.records) >= 200
  }

  function Direction(delta: Option<(real, real)>, quality: ConfidenceInterval): Option<Treatment> {
    if delta.None? then None
    else if delta.value.1 < 0.0 && quality.low >= 0.0 then Some(TreatmentB)
    else if delta.value.0 > 0.0 && quality.high <= 0.0 then Some(TreatmentA)
    else None
  }

  /** Both present, not empty, and the same. */
  predicate Matches(a: Option<string>, b: Option<string>) {
    match (a, b)
    case (Some(x), Some(y)) => x == y && x != ""
    case _ => false
  }

  ghost predicate HasRepeats(run: CompletedRun) {
    && |set record <- run.records :: record.repeatIndex| >= 3
    && match run.manifest.declaredRepeats
       case Some(declared) => declared >= 3
       case None => false
  }

  predicate Succeeded(record: BenchmarkRecord) { record.errorClass.None? }

  ghost predicate HasSuccesses(run: CompletedRun) {
    Count(Succeeded, run.records) >= 200
  }

  /** The cost interval and the quality interval favour the same treatment. */
  predicate SameDirection(delta: Option<(real, real)>, quality: ConfidenceInterval) {
    match delta
    case Some((low, high)) => (high < 0.0 && 0.0 <= quality.low) || (0.0 < low && quality.high <= 0.0)
    case None => false
  }

  /** Every gate of the verdict, in no particular order. */
  ghost predicate GatesPass(a: CompletedRun, b: CompletedRun, quality: ConfidenceInterval, costs: CostDelta) {
    && a.manifest.publishable && b.manifest.publishable
    && Matches(a.manifest.datasetChecksum, b.manifest.datasetChecksum)
    && Matches(a.manifest.sloCell, b.manifest.sloCell)
    && Matches(a.manifest.workload, b.manifest.workload)
    && HasRepeats(a) && HasRepeats(b) && HasSuccesses(a) && HasSuccesses(b)
    && a.manifest.nonLocalPlacement && b.manifest.nonLocalPlacement
    && costs.complete
    && SameDirection(costs.viewAInterval, quality)
  }

  lemma GatesInPlainTerms(run: CompletedRun)
    ensures EnoughRepeats(run) <==> HasRepeats(run)
    ensures EnoughSuccesses(run) <==> HasSuccesses(run)
  {
    CountOfSameTest((record: BenchmarkRecord) => !HasFailed(record), Succeeded, run.records);
  }

  /** The gates on what the two manifests declare together. */
  method ManifestGates(a: Manifest, b: Manifest) returns (failed: seq<FailedCondition>)
    ensures failed == SharedGates(a, b)
  {
    failed := [];
    if !a.publishable || !b.publishable {
      failed := failed + [NotPublishable];
    }
    if !PresentAndEqual(a.datasetChecksum, b.datasetChecksum) {
      failed := failed + [ChecksumsDiffer];
    }
    if !PresentAndEqual(a.sloCell, b.sloCell) {
      failed := failed + [CellsDiffer];
    }
    if !PresentAndEqual(a.workload, b.workload) {
      failed := failed + [WorkloadsDiffer];
    }
  }

  /** The evidence gates on one run, appended to what has failed so far. */
  method EvidenceGates(run: CompletedRun, treatment: Treatment, before: seq<FailedCondition>)
    returns (failed: seq<FailedCondition>)
    ensures failed == before + RunGates(run, treatment)
  {
    failed := before;
    if !EnoughRepeats(run) {
      failed := failed + [TooFewRepeats(treatment)];
    }
    if !EnoughSuccesses(run) {
      failed := failed + [TooFewSuccesses(treatment)];
    }
  }

  method PlacementGates(a: Manifest, b: Manifest, before: seq<FailedCondition>) returns (failed: seq<FailedCondition>)
    ensures failed == before + PlacementFailures(a, b)
  {
    failed := before;
    if !a.nonLocalPlacement {
      failed := failed + [LocalPlacement(TreatmentA)];
    }
    if !b.nonLocalPlacement {
      failed := failed + [LocalPlacement(TreatmentB)];
    }
  }

  method Claimability(a: CompletedRun, b: CompletedRun, quality: ConfidenceInterval, costs: CostDelta)
    returns (verdict: Verdict)
    ensures verdict == VerdictOf(a, b, quality, costs)
  {
    var failed := ManifestGates(a.manifest, b.manifest);
    failed := EvidenceGates(a, TreatmentA, failed);
    failed := EvidenceGates(b, TreatmentB, failed);
    failed := PlacementGates(a.manifest, b.manifest, failed);
    if !costs.complete {
      failed := failed + [CostsIncomplete];
    }
    var direction: Option<Treatment> := None;
    if costs.viewAInterval.Some? {
      var (low, high) := costs.viewAInterval.value;
      if high < 0.0 && quality.low >= 0.0 {
        direction := Some(TreatmentB);
      } else if low > 0.0 && quality.high <= 0.0 {
        direction := Some(TreatmentA);
      }
    }
    if direction.None? {
      failed := failed + [NoDirection];
    }
    return Verdict(direction, failed);
  }

  function When(condition: bool, failed: FailedCondition): seq<FailedCondition> {
    if condition then [failed] else []
  }

  function RunGates(run: CompletedRun, treatment: Treatment): seq<FailedCondition> {
    When(!EnoughRepeats(run), TooFewRepeats(treatment)) + When(!EnoughSuccesses(run), TooFewSuccesses(treatment))
  }

  function SharedGates(a: Manifest, b: Manifest): seq<FailedCondition> {
    When(!a.publishable || !b.publishable, NotPublishable)
    + When(!PresentAndEqual(a.datasetChecksum, b.datasetChecksum), ChecksumsDiffer)
    + When(!PresentAndEqual(a.sloCell, b.sloCell), CellsDiffer)
    + When(!PresentAndEqual(a.workload, b.workload), WorkloadsDiffer)
  }

  function PlacementFailures(a: Manifest, b: Manifest): seq<FailedCondition> {
    When(!a.nonLocalPlacement, LocalPlacement(TreatmentA)) + When(!b.nonLocalPlacement, LocalPlacement(TreatmentB))
  }

  function FailedGates(a: CompletedRun, b: CompletedRun, quality: ConfidenceInterval, costs: CostDelta)
    : seq<FailedCondition>
  {
    SharedGates(a.manifest, b.manifest)
    + RunGates(a, TreatmentA) + RunGates(b, TreatmentB)
    + PlacementFailures(a.manifest, b.manifest)
    + When(!costs.complete, CostsIncomplete)
    + When(Direction(costs.viewAInterval, quality).None?, NoDirection)
  }

  function VerdictOf(a: CompletedRun, b: CompletedRun, quality: ConfidenceInterval, costs: CostDelta): Verdict {
    Verdict(Direction(costs.viewAInterval, quality), FailedGates(a, b, quality, costs))
  }

  /** Support is claimed exactly when every gate passes: it fails closed. */
  lemma SupportedExactlyWhenAllGatesPass(
    a: CompletedRun, b: CompletedRun, quality: ConfidenceInterval, costs: CostDelta)
    ensures VerdictOf(a, b, quality, costs).Supported() <==> GatesPass(a, b, quality, costs)
  {
    GatesInPlainTerms(a);
    GatesInPlainTerms(b);
    assert RunGates(a, TreatmentA) == [] <==> EnoughRepeats(a) && EnoughSuccesses(a);
    assert RunGates(b, TreatmentB) == [] <==> EnoughRepeats(b) && EnoughSuccesses(b);
  }

  /** What each failed condition says. */
  ghost predicate Fails(
    condition: FailedCondition, a: CompletedRun, b: CompletedRun, quality: ConfidenceInterval, costs: CostDelta)
  {
    match condition
    case NotPublishable => !(a.manifest.publishable && b.manifest.publishable)
    case ChecksumsDiffer => !Matches(a.manifest.datasetChecksum, b.manifest.datasetChecksum)
    case CellsDiffer => !Matches(a.manifest.sloCell, b.manifest.sloCell)
    case WorkloadsDiffer => !Matches(a.manifest.workload, b.manifest.workload)
    case TooFewRepeats(treatment) => !HasRepeats(if treatment == TreatmentA then a else b)
    case TooFewSuccesses(treatment) => !HasSuccesses(if treatment == TreatmentA then a else b)
    case LocalPlacement(treatment) => !(if treatment == TreatmentA then a else b).manifest.nonLocalPlacement
    case CostsIncomplete => !costs.complete
    case NoDirection => !SameDirection(costs.viewAInterval, quality)
  }

  /** The verdict lists a condition exactly when it fails, under the treatment it fails for. */
  lemma FailuresListedExactly(
    a: CompletedRun, b: CompletedRun, quality: ConfidenceInterval, costs: CostDelta, condition: FailedCondition)
    ensures condition in VerdictOf(a, b, quality, costs).failed <==> Fails(condition, a, b, quality, costs)
  {
    GatesInPlainTerms(a);
    GatesInPlainTerms(b);
    SharedFailuresListedExactly(a.manifest, b.manifest, condition);
    RunFailuresListedExactly(a, TreatmentA, condition);
    RunFailuresListedExactly(b, TreatmentB, condition);
    PlacementFailuresListedExactly(a.manifest, b.manifest, condition);
    InOneOf(condition, SharedGates(a.manifest, b.manifest), RunGates(a, TreatmentA), RunGates(b, TreatmentB),
            PlacementFailures(a.manifest, b.manifest), When(!costs.complete, CostsIncomplete),
            When(Direction(costs.viewAInterval, quality).None?, NoDirection));
  }

  lemma InOneOf<T>(x: T, a: seq<T>, b: seq<T>, c: seq<T>, d: seq<T>, e: seq<T>, f: seq<T>)
    ensures x in a + b + c + d + e + f <==> x in a || x in b || x in c || x in d || x in e || x in f
  {
  }

  lemma SharedFailuresListedExactly(a: Manifest, b: Manifest, condition: FailedCondition)
    ensures condition in SharedGates(a, b)
            <==> || (condition == NotPublishable && !(a.publishable && b.publishable))
                 || (condition == ChecksumsDiffer && !PresentAndEqual(a.datasetChecksum, b.datasetChecksum))
                 || (condition == CellsDiffer && !PresentAndEqual(a.sloCell, b.sloCell))
                 || (condition == WorkloadsDiffer && !PresentAndEqual(a.workload, b.workload))
  {
  }

  lemma PlacementFailuresListedExactly(a: Manifest, b: Manifest, condition: FailedCondition)
    ensures condition in PlacementFailures(a, b)
            <==> || (condition == LocalPlacement(TreatmentA) && !a.nonLocalPlacement)
                 || (condition == LocalPlacement(TreatmentB) && !b.nonLocalPlacement)
  {
  }

  lemma RunFailuresListedExactly(run: CompletedRun, treatment: Treatment, condition: FailedCondition)
    ensures condition in RunGates(run, treatment)
            <==> || (condition == TooFewRepeats(treatment) && !EnoughRepeats(run))
                 || (condition == TooFewSuccesses(treatment) && !EnoughSuccesses(run))
  {
  }

  // ----- the whole comparison -----

  datatype Comparison = Comparison(quality: QualityEffect, costs: CostDelta, verdict: Verdict)

  function Compare(a: CompletedRun, b: CompletedRun, seeding: Seeding): Result<Comparison, PairingError> {
    var iterations :=
      if a.manifest.iterations <= b.manifest.iterations then a.manifest.iterations else b.manifest.iterations;
    match PairedQualityOf(a.records, b.records, iterations, a.manifest.seed, seeding)
    case Err(error) => Err(error)
    case Ok(quality) =>
      var costs := CostDeltaOf(a.summary, b.summary);
      Ok(Comparison(quality, costs, VerdictOf(a, b, quality.interval, costs)))
  }

  method BuildComparison(a: CompletedRun, b: CompletedRun, seeding: Seeding)
    returns (comparison: Result<Comparison, PairingError>)
    ensures comparison == Compare(a, b, seeding)
  {
    var iterations :=
      if a.manifest.iterations <= b.manifest.iterations then a.manifest.iterations else b.manifest.iterations;
    var quality := PairedQuality(a.records, b.records, iterations, a.manifest.seed, seeding);
    if quality.Err? {
      return Err(quality.error);
    }
    var costs := CostDeltaOf(a.summary, b.summary);
    var verdict := Claimability(a, b, quality.value.interval, costs);
    return Ok(Comparison(quality.value, costs, verdict));
  }

  // ----- which runs can be compared -----

  /** Every record is judged and no two stand for the same item and repeat. */
  ghost predicate Pairable(records: seq<BenchmarkRecord>) {
    && (forall i | 0 <= i < |records| :: records[i].taskCorrect.Some?)
    && (forall i, j | 0 <= i < j < |records| :: KeyOf(records[i]) != KeyOf(records[j]))
  }

  lemma {:induction false} IndexedExactly(records: seq<BenchmarkRecord>, treatment: Treatment, pairs: map<Key, bool>)
    ensures IndexFrom(records, treatment, pairs).Ok?
            <==> Pairable(records) && forall i | 0 <= i < |records| :: KeyOf(records[i]) !in pairs
    decreases |records|
  {
    if records != [] {
      var first := KeyOf(records[0]);
      assert records == [records[0]] + records[1..];
      if first !in pairs && records[0].taskCorrect.Some? {
        var more := pairs[first := records[0].taskCorrect.value];
        IndexedExactly(records[1..], treatment, more);
        assert (forall i | 0 <= i < |records[1..]| :: KeyOf(records[1..][i]) !in more)
               ==> forall i | 0 < i < |records| :: KeyOf(records[i]) != first && KeyOf(records[i]) !in pairs by {
          forall i | 0 < i < |records| && KeyOf(records[1..][i - 1]) !in more
            ensures KeyOf(records[i]) != first && KeyOf(records[i]) !in pairs
          {
          }
        }
      }
    }
  }

  function Keys(records: seq<BenchmarkRecord>): set<Key> {
    set record <- records :: KeyOf(record)
  }

  lemma IndexedKeys(records: seq<BenchmarkRecord>, treatment: Treatment)
    requires IndexFrom(records, treatment, map[]).Ok?
    ensures IndexFrom(records, treatment, map[]).value.Keys == Keys(records)
  {
    IndexHoldsRecords(records, treatment, map[]);
  }

  lemma SameKeysSameItems(a: seq<BenchmarkRecord>, b: seq<BenchmarkRecord>)
    requires Keys(a) == Keys(b)
    ensures ItemIds(a) == ItemIds(b)
  {
    ItemsOfKeys(a);
    ItemsOfKeys(b);
  }

  lemma ItemsOfKeys(records: seq<BenchmarkRecord>)
    ensures ItemIds(records) == set key <- Keys(records) :: key.0
  {
    forall record <- records ensures record.itemId in (set key <- Keys(records) :: key.0) {
      assert KeyOf(record) in Keys(records);
    }
  }

  lemma PairedExactly(a: seq<BenchmarkRecord>, b: seq<BenchmarkRecord>, iterations: int, seed: int, seeding: Seeding)
    ensures PairedQualityOf(a, b, iterations, seed, seeding).Ok?
            <==> Pairable(a) && Pairable(b) && Keys(a) == Keys(b) && a != [] && iterations > 0
  {
    IndexedExactly(a, TreatmentA, map[]);
    IndexedExactly(b, TreatmentB, map[]);
    if Pairable(a) && Pairable(b) {
      IndexedKeys(a, TreatmentA);
      IndexedKeys(b, TreatmentB);
      IndexCounts(a, TreatmentA, map[]);
      if Keys(a) == Keys(b) {
        SameKeysSameItems(a, b);
        var pairsA, pairsB := IndexFrom(a, TreatmentA, map[]).value, IndexFrom(b, TreatmentB, map[]).value;
        var keys := SortedKeys(pairsA);
        ResampledExactly(Verdicts(pairsA, keys), Verdicts(pairsB, keys), iterations, seed, seeding);
      }
    }
  }

  /**
   * Two runs can be compared exactly when both are judged without duplicates, they cover the same
   * items and repeats and at least one, and both ask for a resample.
   */
  lemma ComparableExactly(a: CompletedRun, b: CompletedRun, seeding: Seeding)
    ensures Compare(a, b, seeding).Ok?
            <==> && Pairable(a.records) && Pairable(b.records)
                 && Keys(a.records) == Keys(b.records) && a.records != []
                 && a.manifest.iterations > 0 && b.manifest.iterations > 0
  {
    var iterations :=
      if a.manifest.iterations <= b.manifest.iterations then a.manifest.iterations else b.manifest.iterations;
    PairedExactly(a.records, b.records, iterations, a.manifest.seed, seeding);
  }

  lemma ResampledExactly(
    baseline: seq<bool>, treatment: seq<bool>, iterations: int, seed: int, seeding: Seeding)
    ensures PairedEffectInterval(baseline, treatment, iterations, seed, seeding).Ok?
            <==> |baseline| == |treatment| && baseline != [] && iterations > 0
  {
  }

  // ----- whom the verdict names -----

  lemma DirectionIsTheCheaper(a: Summary, b: Summary, quality: ConfidenceInterval)
    ensures var named := Direction(CostDeltaOf(a, b).viewAInterval, quality);
            match (a.viewAInterval, b.viewAInterval)
            case (Some((leastA, greatestA)), Some((leastB, greatestB))) =>
              && (named == Some(TreatmentB) <==> greatestB < leastA && 0.0 <= quality.low)
              && (named == Some(TreatmentA)
                  <==> && greatestA < leastB && quality.high <= 0.0
                       && !(greatestB < leastA && 0.0 <= quality.low))
            case _ => named == None
  {
  }

  /**
   * The verdict names treatment B exactly when B's greatest cost is below A's least and the quality
   * interval does not start below 0; otherwise treatment A exactly when A's greatest cost is below
   * B's least and the quality interval does not end above 0; and nobody without both cost intervals.
   */
  lemma VerdictNamesTheCheaper(a: CompletedRun, b: CompletedRun, seeding: Seeding)
    requires Compare(a, b, seeding).Ok?
    ensures var named := Compare(a, b, seeding).value.verdict.direction;
            var quality := Compare(a, b, seeding).value.quality.interval;
            match (a.summary.viewAInterval, b.summary.viewAInterval)
            case (Some((leastA, greatestA)), Some((leastB, greatestB))) =>
              && (named == Some(TreatmentB) <==> greatestB < leastA && 0.0 <= quality.low)
              && (named == Some(TreatmentA)
                  <==> && greatestA < leastB && quality.high <= 0.0
                       && !(greatestB < leastA && 0.0 <= quality.low))
            case _ => named == None
  {
    DirectionIsTheCheaper(a.summary, b.summary, Compare(a, b, seeding).value.quality.interval);
  }

  /**
   * The costs compared are B's less A's: each view where both runs have it, and the interval holds
   * exactly what a cost from B's interval less one from A's can be when both are in order. They are
   * complete when nothing is missing.
   */
  lemma CostsAreDifferences(a: CompletedRun, b: CompletedRun, seeding: Seeding)
    requires Compare(a, b, seeding).Ok?
    ensures var costs := Compare(a, b, seeding).value.costs;
            && (costs.viewA.Some? <==> a.summary.viewA.Some? && b.summary.viewA.Some?)
            && (costs.viewA.Some? ==> a.summary.viewA.value + costs.viewA.value == b.summary.viewA.value)
            && (costs.viewB.Some? <==> a.summary.viewB.Some? && b.summary.viewB.Some?)
            && (costs.viewB.Some? ==> a.summary.viewB.value + costs.viewB.value == b.summary.viewB.value)
            && (costs.viewAInterval.Some? <==> a.summary.viewAInterval.Some? && b.summary.viewAInterval.Some?)
            && (costs.viewAInterval.Some? ==>
                  && a.summary.viewAInterval.value.1 + costs.viewAInterval.value.0 == b.summary.viewAInterval.value.0
                  && a.summary.viewAInterval.value.0 + costs.viewAInterval.value.1 == b.summary.viewAInterval.value.1)
            && (costs.complete <==> costs.viewA.Some? && costs.viewB.Some? && costs.viewAInterval.Some?)
  {
  }

  /** Every pair holds the verdict of the record with its key. */
  lemma {:induction false} IndexHoldsRecords(
    records: seq<BenchmarkRecord>, treatment: Treatment, pairs: map<Key, bool>)
    requires IndexFrom(records, treatment, pairs).Ok?
    ensures var indexed := IndexFrom(records, treatment, pairs).value;
            && (forall key <- pairs :: key in indexed && indexed[key] == pairs[key])
            && (forall record <- records ::
                  KeyOf(record) in indexed && record.taskCorrect == Some(indexed[KeyOf(record)]))
            && (forall key <- indexed :: key in pairs || exists record <- records :: KeyOf(record) == key)
    decreases |records|
  {
    if records != [] {
      var more := pairs[KeyOf(records[0]) := records[0].taskCorrect.value];
      IndexHoldsRecords(records[1..], treatment, more);
      assert records == [records[0]] + records[1..];
    }
  }

  /** No item and repeat that the first run got right went wrong in the second. */
  ghost predicate LosesNothing(from: seq<BenchmarkRecord>, to: seq<BenchmarkRecord>) {
    forall x <- from, y <- to | KeyOf(x) == KeyOf(y) && x.taskCorrect == Some(true) :: y.taskCorrect == Some(true)
  }

  lemma PairsLoseNothing(from: seq<BenchmarkRecord>, to: seq<BenchmarkRecord>, s: Treatment, t: Treatment, key: Key)
    requires IndexFrom(from, s, map[]).Ok? && IndexFrom(to, t, map[]).Ok?
    requires LosesNothing(from, to)
    requires key in IndexFrom(from, s, map[]).value && key in IndexFrom(to, t, map[]).value
    requires IndexFrom(from, s, map[]).value[key]
    ensures IndexFrom(to, t, map[]).value[key]
  {
    IndexHoldsRecords(from, s, map[]);
    IndexHoldsRecords(to, t, map[]);
    var x :| x in from && KeyOf(x) == key;
    var y :| y in to && KeyOf(y) == key;
  }

  lemma VerdictsLoseNothing(
    pairsA: map<Key, bool>, pairsB: map<Key, bool>, iterations: int, seed: int, seeding: Seeding)
    requires pairsA.Keys == pairsB.Keys
    ensures var keys := SortedKeys(pairsA);
            var interval :=
              PairedEffectInterval(Verdicts(pairsA, keys), Verdicts(pairsB, keys), iterations, seed, seeding);
            interval.Ok? ==>
              && ((forall key <- pairsA :: pairsA[key] ==> pairsB[key]) ==> interval.value.low >= 0.0)
              && ((forall key <- pairsA :: pairsB[key] ==> pairsA[key]) ==> interval.value.high <= 0.0)
              && interval.value.iterations == iterations && interval.value.seed == seed
  {
    var keys := SortedKeys(pairsA);
    if PairedEffectInterval(Verdicts(pairsA, keys), Verdicts(pairsB, keys), iterations, seed, seeding).Ok? {
      PairedEffectWithinDifferences(Verdicts(pairsA, keys), Verdicts(pairsB, keys), iterations, seed, seeding);
    }
  }

  lemma PairedQualityFavours(
    a: seq<BenchmarkRecord>, b: seq<BenchmarkRecord>, iterations: int, seed: int, seeding: Seeding)
    requires PairedQualityOf(a, b, iterations, seed, seeding).Ok?
    ensures var interval := PairedQualityOf(a, b, iterations, seed, seeding).value.interval;
            && (LosesNothing(a, b) ==> interval.low >= 0.0)
            && (LosesNothing(b, a) ==> interval.high <= 0.0)
            && interval.iterations == iterations && interval.seed == seed
  {
    var pairsA, pairsB := IndexFrom(a, TreatmentA, map[]).value, IndexFrom(b, TreatmentB, map[]).value;
    VerdictsLoseNothing(pairsA, pairsB, iterations, seed, seeding);
    if LosesNothing(a, b) {
      forall key | key in pairsA && pairsA[key] ensures pairsB[key] {
        PairsLoseNothing(a, b, TreatmentA, TreatmentB, key);
      }
    }
    if LosesNothing(b, a) {
      forall key | key in pairsA && pairsB[key] ensures pairsA[key] {
        PairsLoseNothing(b, a, TreatmentB, TreatmentA, key);
      }
    }
  }

  /**
   * The sign of the quality interval is B's gain over A: a B that loses nothing has no negative
   * bound, a B that wins nothing has no positive one. It is drawn with the smaller of the two
   * iteration counts under the first run's seed.
   */
  lemma QualityIntervalFavoursTheBetter(a: CompletedRun, b: CompletedRun, seeding: Seeding)
    requires Compare(a, b, seeding).Ok?
    ensures var interval := Compare(a, b, seeding).value.quality.interval;
            && (LosesNothing(a.records, b.records) ==> interval.low >= 0.0)
            && (LosesNothing(b.records, a.records) ==> interval.high <= 0.0)
            && interval.iterations <= a.manifest.iterations && interval.iterations <= b.manifest.iterations
            && interval.iterations in {a.manifest.iterations, b.manifest.iterations}
            && interval.seed == a.manifest.seed
  {
    var iterations :=
      if a.manifest.iterations <= b.manifest.iterations then a.manifest.iterations else b.manifest.iterations;
    PairedQualityFavours(a.records, b.records, iterations, a.manifest.seed, seeding);
  }

  // ----- what the estimate is -----

  function Affirmed(pairs: map<Key, bool>): set<Key> {
    set key <- pairs | pairs[key]
  }

  lemma OneMorePair(pairs: map<Key, bool>, key: Key, verdict: bool)
    requires key !in pairs
    ensures var more := pairs[key := verdict];
            |more| == |pairs| + 1 && |Affirmed(more)| == |Affirmed(pairs)| + if verdict then 1 else 0
  {
    var more := pairs[key := verdict];
    assert more.Keys == pairs.Keys + {key};
    assert Affirmed(more) == if verdict then Affirmed(pairs) + {key} else Affirmed(pairs);
  }

  /** Indexing loses no record: one pair each, and as many affirmative pairs as correct records. */
  lemma {:induction false} IndexCounts(records: seq<BenchmarkRecord>, treatment: Treatment, pairs: map<Key, bool>)
    requires IndexFrom(records, treatment, pairs).Ok?
    ensures var indexed := IndexFrom(records, treatment, pairs).value;
            && |indexed| == |pairs| + |records|
            && |Affirmed(indexed)| == |Affirmed(pairs)| + Count(IsCorrect, records)
    decreases |records|
  {
    if records != [] {
      var key, verdict := KeyOf(records[0]), records[0].taskCorrect.value;
      var more := pairs[key := verdict];
      IndexCounts(records[1..], treatment, more);
      OneMorePair(pairs, key, verdict);
    }
  }

  predicate IsTrue(b: bool) { b }

  /** Listing the pairs in any order without repetition counts the affirmative ones. */
  lemma {:induction false} VerdictsCount(pairs: map<Key, bool>, keys: seq<Key>)
    requires forall i | 0 <= i < |keys| :: keys[i] in pairs
    requires forall i, j | 0 <= i < j < |keys| :: keys[i] != keys[j]
    ensures Count(IsTrue, Verdicts(pairs, keys)) == |set key <- keys | key in pairs && pairs[key]|
  {
    if keys != [] {
      VerdictsCount(pairs, keys[1..]);
      assert Verdicts(pairs, keys)[1..] == Verdicts(pairs, keys[1..]);
      OneMoreKey(pairs, keys);
    }
  }

  lemma OneMoreKey(pairs: map<Key, bool>, keys: seq<Key>)
    requires keys != [] && keys[0] in pairs
    requires forall j | 0 < j < |keys| :: keys[0] != keys[j]
    ensures |set key <- keys | key in pairs && pairs[key]|
            == |set key <- keys[1..] | key in pairs && pairs[key]| + if pairs[keys[0]] then 1 else 0
  {
    var later := set key <- keys[1..] | key in pairs && pairs[key];
    var all := set key <- keys | key in pairs && pairs[key];
    assert keys[0] !in later;
    assert keys == [keys[0]] + keys[1..];
    assert all == if pairs[keys[0]] then later + {keys[0]} else later;
  }

  lemma {:induction false} DifferenceOfCounts(baseline: seq<bool>, treatment: seq<bool>)
    requires |baseline| == |treatment|
    ensures Sum(Differences(baseline, treatment))
            == Count(IsTrue, treatment) as real - Count(IsTrue, baseline) as real
  {
    if baseline != [] {
      assert Differences(baseline, treatment)[1..] == Differences(baseline[1..], treatment[1..]);
      DifferenceOfCounts(baseline[1..], treatment[1..]);
    }
  }

  lemma EffectEstimate(
    baseline: seq<bool>, treatment: seq<bool>, items: nat, iterations: int, seed: int, seeding: Seeding)
    requires |baseline| == |treatment|
    requires EffectOf(baseline, treatment, items, iterations, seed, seeding).Ok?
    ensures var effect := EffectOf(baseline, treatment, items, iterations, seed, seeding).value;
            var n := |baseline|;
            && effect.pairedObservations == n && n > 0
            && effect.estimate
               == Count(IsTrue, treatment) as real / n as real - Count(IsTrue, baseline) as real / n as real
  {
    DifferenceOfCounts(baseline, treatment);
    DifferenceOfQuotients(Count(IsTrue, treatment) as real, Count(IsTrue, baseline) as real, |baseline| as real);
  }

  lemma DifferenceOfQuotients(x: real, y: real, n: real)
    requires n > 0.0
    ensures (x - y) / n == x / n - y / n
  {
  }

  lemma IndexedVerdicts(records: seq<BenchmarkRecord>, treatment: Treatment, keys: seq<Key>)
    requires IndexFrom(records, treatment, map[]).Ok?
    requires keys == SortedKeys(IndexFrom(records, treatment, map[]).value)
    ensures |keys| == |records|
    ensures Count(IsTrue, Verdicts(IndexFrom(records, treatment, map[]).value, keys)) == Count(IsCorrect, records)
  {
    var pairs := IndexFrom(records, treatment, map[]).value;
    IndexCounts(records, treatment, map[]);
    VerdictsCount(pairs, keys);
    assert (set key <- keys | key in pairs && pairs[key]) == Affirmed(pairs);
  }

  function QualityRate(records: seq<BenchmarkRecord>): real
    requires records != []
  {
    Count(IsCorrect, records) as real / |records| as real
  }

  /** The paired estimate is treatment B's quality rate minus treatment A's, over equally many records. */
  lemma EstimateIsDifferenceOfRates(
    a: seq<BenchmarkRecord>, b: seq<BenchmarkRecord>, iterations: int, seed: int, seeding: Seeding)
    ensures var effect := PairedQualityOf(a, b, iterations, seed, seeding);
            effect.Ok? ==>
              && effect.value.pairedObservations == |a| == |b| && |a| > 0
              && effect.value.uniqueItems == |set record <- b :: record.itemId|
              && effect.value.estimate == QualityRate(b) - QualityRate(a)
  {
    if PairedQualityOf(a, b, iterations, seed, seeding).Err? {
      return;
    }
    var pairsA, pairsB := IndexFrom(a, TreatmentA, map[]).value, IndexFrom(b, TreatmentB, map[]).value;
    SameKeysSameOrder(pairsA, pairsB);
    var keys := SortedKeys(pairsA);
    IndexedVerdicts(a, TreatmentA, keys);
    IndexedVerdicts(b, TreatmentB, keys);
    EffectEstimate(Verdicts(pairsA, keys), Verdicts(pairsB, keys), |ItemIds(a)|, iterations, seed, seeding);
  }

  // ----- antisymmetry -----

  /** Which records can be indexed does not depend on the treatment they are indexed for. */
  lemma {:induction false} IndexIgnoresTreatment(
    records: seq<BenchmarkRecord>, s: Treatment, t: Treatment, pairs: map<Key, bool>)
    ensures IndexFrom(records, s, pairs).Ok? == IndexFrom(records, t, pairs).Ok?
    ensures IndexFrom(records, s, pairs).Ok? ==> IndexFrom(records, s, pairs) == IndexFrom(records, t, pairs)
    decreases |records|
  {
    if records != [] && KeyOf(records[0]) !in pairs && records[0].taskCorrect.Some? {
      IndexIgnoresTreatment(records[1..], s, t, pairs[KeyOf(records[0]) := records[0].taskCorrect.value]);
    }
  }

  function MirrorEffect(effect: QualityEffect): QualityEffect {
    effect.(estimate := -effect.estimate, interval := MirrorInterval(effect.interval))
  }

  lemma EffectSwaps(
    baseline: seq<bool>, treatment: seq<bool>, items: nat, iterations: int, seed: int, seeding: Seeding)
    requires |baseline| == |treatment|
    ensures match EffectOf(baseline, treatment, items, iterations, seed, seeding)
            case Ok(effect) =>
              EffectOf(treatment, baseline, items, iterations, seed, seeding) == Ok(MirrorEffect(effect))
            case Err(error) => EffectOf(treatment, baseline, items, iterations, seed, seeding) == Err(error)
  {
    PairedEffectSwaps(baseline, treatment, iterations, seed, seeding);
    if PairedEffectInterval(baseline, treatment, iterations, seed, seeding).Ok? {
      EstimateSwaps(baseline, treatment);
    }
  }

  lemma SameKeysSameOrder(pairsA: map<Key, bool>, pairsB: map<Key, bool>)
    requires pairsA.Keys == pairsB.Keys
    ensures SortedKeys(pairsA) == SortedKeys(pairsB)
  {
  }

  lemma EstimateSwaps(baseline: seq<bool>, treatment: seq<bool>)
    requires |baseline| == |treatment| > 0
    ensures Sum(Differences(treatment, baseline)) / |baseline| as real
            == -(Sum(Differences(baseline, treatment)) / |baseline| as real)
  {
    assert Differences(treatment, baseline) == Negated(Differences(baseline, treatment));
    SumOfNegation(Differences(baseline, treatment));
    NegatedQuotient(Sum(Differences(baseline, treatment)), |baseline| as real);
  }

  lemma NegatedQuotient(x: real, n: real)
    requires n > 0.0
    ensures (-x) / n == -(x / n)
  {
  }

  /** Swapping the runs negates the paired quality effect and mirrors its interval. */
  lemma PairedQualitySwaps(
    a: seq<BenchmarkRecord>, b: seq<BenchmarkRecord>, iterations: int, seed: int, seeding: Seeding)
    ensures var forward := PairedQualityOf(a, b, iterations, seed, seeding);
            var backward := PairedQualityOf(b, a, iterations, seed, seeding);
            match forward
            case Ok(effect) => backward == Ok(MirrorEffect(effect))
            case Err(_) => backward.Err?
  {
    IndexIgnoresTreatment(a, TreatmentA, TreatmentB, map[]);
    IndexIgnoresTreatment(b, TreatmentA, TreatmentB, map[]);
    var indexedA, indexedB := IndexFrom(a, TreatmentA, map[]), IndexFrom(b, TreatmentB, map[]);
    if indexedA.Ok? && indexedB.Ok? && indexedA.value.Keys == indexedB.value.Keys {
      SameKeysSameOrder(indexedA.value, indexedB.value);
      var keys := SortedKeys(indexedA.value);
      EffectSwaps(
        Verdicts(indexedA.value, keys), Verdicts(indexedB.value, keys), |ItemIds(a)|, iterations, seed, seeding);
    }
  }

  function Negation(x: Option<real>): Option<real> {
    if x.Some? then Some(-x.value) else None
  }

  function MirrorPair(interval: (real, real)): (real, real) { (-interval.1, -interval.0) }

  /** Both deltas negated, the interval mirrored, and equally complete. */
  ghost predicate OppositeCosts(forward: CostDelta, backward: CostDelta) {
    && backward.viewA == Negation(forward.viewA)
    && backward.viewB == Negation(forward.viewB)
    && backward.viewAInterval == Mirror(forward.viewAInterval)
    && backward.complete == forward.complete
  }

  function Mirror(interval: Option<(real, real)>): Option<(real, real)> {
    if interval.Some? then Some(MirrorPair(interval.value)) else None
  }

  lemma CostDeltaSwaps(a: Summary, b: Summary)
    ensures OppositeCosts(CostDeltaOf(a, b), CostDeltaOf(b, a))
  {
  }

  /** Both directions seem supported: a cost interval the wrong way round and no quality effect at all. */
  predicate Ambiguous(delta: Option<(real, real)>, quality: ConfidenceInterval) {
    && delta.Some? && delta.value.1 < 0.0 < delta.value.0
    && quality.low >= 0.0 && quality.high <= 0.0
  }

  function OtherDirection(direction: Option<Treatment>): Option<Treatment> {
    if direction.Some? then Some(Other(direction.value)) else None
  }

  /** Mirrored intervals support the other direction, exactly unless the evidence is ambiguous. */
  lemma DirectionSwapsExactly(delta: Option<(real, real)>, quality: ConfidenceInterval)
    ensures var swapped := Direction(Mirror(delta), MirrorInterval(quality));
            && (swapped == OtherDirection(Direction(delta, quality)) <==> !Ambiguous(delta, quality))
            && swapped.Some? == Direction(delta, quality).Some?
  {
  }

  /**
   * The comparison is antisymmetric: with equal seeds, swapping the runs succeeds or fails alike,
   * negates the estimate and the cost deltas, maps each interval [l, h] to [-h, -l], keeps the
   * supported status, and names the other treatment exactly unless the evidence is ambiguous.
   */
  lemma ComparisonIsAntisymmetric(a: CompletedRun, b: CompletedRun, seeding: Seeding)
    requires a.manifest.seed == b.manifest.seed
    ensures Compare(a, b, seeding).Ok? == Compare(b, a, seeding).Ok?
    ensures Compare(a, b, seeding).Ok? ==>
              var forward, backward := Compare(a, b, seeding).value, Compare(b, a, seeding).value;
              && backward.quality == MirrorEffect(forward.quality)
              && OppositeCosts(forward.costs, backward.costs)
              && backward.verdict.Supported() == forward.verdict.Supported()
              && (backward.verdict.direction == OtherDirection(forward.verdict.direction)
                  <==> !Ambiguous(forward.costs.viewAInterval, forward.quality.interval))
  {
    var iterations :=
      if a.manifest.iterations <= b.manifest.iterations then a.manifest.iterations else b.manifest.iterations;
    PairedQualitySwaps(a.records, b.records, iterations, a.manifest.seed, seeding);
    CostDeltaSwaps(a.summary, b.summary);
    if Compare(a, b, seeding).Ok? {
      var forward := Compare(a, b, seeding).value;
      VerdictSwaps(a, b, forward.quality.interval, forward.costs, CostDeltaOf(b.summary, a.summary));
    }
  }

  lemma VerdictSwaps(
    a: CompletedRun, b: CompletedRun, quality: ConfidenceInterval, costs: CostDelta, opposite: CostDelta)
    requires OppositeCosts(costs, opposite)
    ensures var forward := VerdictOf(a, b, quality, costs);
            var backward := VerdictOf(b, a, MirrorInterval(quality), opposite);
            && backward.Supported() == forward.Supported()
            && (backward.direction == OtherDirection(forward.direction) <==> !Ambiguous(costs.viewAInterval, quality))
  {
    DirectionSwapsExactly(costs.viewAInterval, quality);
    SupportedExactlyWhenAllGatesPass(a, b, quality, costs);
    SupportedExactlyWhenAllGatesPass(b, a, MirrorInterval(quality), opposite);
  }

  /** With each run's own cost interval the right way round, the evidence is never ambiguous. */
  lemma OrderedIntervalsAreUnambiguous(a: Summary, b: Summary, quality: ConfidenceInterval)
    requires a.viewAInterval.Some? ==> a.viewAInterval.value.0 <= a.viewAInterval.value.1
    requires b.viewAInterval.Some? ==> b.viewAInterval.value.0 <= b.viewAInterval.value.1
    ensures !Ambiguous(CostDeltaOf(a, b).viewAInterval, quality)
  {
  }

  /** The summary's cost interval, if it has one, is what the ratio bootstrap made of some repeats. */
  ghost predicate HasBootstrapInterval(summary: Summary, seeding: Seeding) {
    summary.viewAInterval.Some? ==>
      exists amounts, counts, iterations, seed ::
        var interval := RatioInterval(amounts, counts, iterations, seed, seeding);
        interval.Ok? && summary.viewAInterval.value == (interval.value.low, interval.value.high)
  }

  lemma BootstrapIntervalIsOrdered(summary: Summary, seeding: Seeding)
    requires HasBootstrapInterval(summary, seeding)
    ensures summary.viewAInterval.Some? ==> summary.viewAInterval.value.0 <= summary.viewAInterval.value.1
  {
    if summary.viewAInterval.None? {
      return;
    }
    var amounts, counts, iterations, seed :|
      var interval := RatioInterval(amounts, counts, iterations, seed, seeding);
      interval.Ok? && summary.viewAInterval.value == (interval.value.low, interval.value.high);
    RatioIntervalIsOrdered(amounts, counts, iterations, seed, seeding);
  }

  /** Between runs whose cost intervals come from the bootstrap, swapping always names the other treatment. */
  lemma ReportedRunsSwapDirection(a: CompletedRun, b: CompletedRun, seeding: Seeding)
    requires a.manifest.seed == b.manifest.seed
    requires HasBootstrapInterval(a.summary, seeding) && HasBootstrapInterval(b.summary, seeding)
    ensures Compare(b, a, seeding).Ok? == Compare(a, b, seeding).Ok?
    ensures Compare(a, b, seeding).Ok? ==>
              Compare(b, a, seeding).value.verdict.direction
              == OtherDirection(Compare(a, b, seeding).value.verdict.direction)
  {
    ComparisonIsAntisymmetric(a, b, seeding);
    if Compare(a, b, seeding).Err? {
      return;
    }
    BootstrapIntervalIsOrdered(a.summary, seeding);
    BootstrapIntervalIsOrdered(b.summary, seeding);
    OrderedIntervalsAreUnambiguous(a.summary, b.summary, Compare(a, b, seeding).value.quality.interval);
  }

  // ----- which cost intervals let the direction swap -----

  /** A cost interval the wrong way round about zero. */
  predicate Inverted(delta: Option<(real, real)>) {
    delta.Some? && delta.value.1 < 0.0 < delta.value.0
  }

  const ONE_ANSWER := BenchmarkRecord(
    "item", 1, Classification, None, None, 0.0, 0.0, None, 0.0, None, Some(true), None)

  /** A run of one correct answer with this summary. */
  function OneAnswerRun(summary: Summary): CompletedRun {
    CompletedRun([ONE_ANSWER], Manifest(false, None, None, None, None, false, 1, 0), summary)
  }

  /** A run's records compared with themselves show no quality effect. */
  lemma SameRecordsShowNoEffect(records: seq<BenchmarkRecord>, iterations: int, seed: int, seeding: Seeding)
    requires records != [] && iterations > 0 && IndexFrom(records, TreatmentA, map[]).Ok?
    ensures var effect := PairedQualityOf(records, records, iterations, seed, seeding);
            effect.Ok? && effect.value.interval == ConfidenceInterval(0.0, 0.0, iterations, seed)
  {
    IndexIgnoresTreatment(records, TreatmentA, TreatmentB, map[]);
    IndexCounts(records, TreatmentA, map[]);
    var pairs := IndexFrom(records, TreatmentA, map[]).value;
    SameOutcomesShowNoEffect(Verdicts(pairs, SortedKeys(pairs)), iterations, seed, seeding);
  }

  lemma OneAnswerIsIndexed()
    ensures IndexFrom([ONE_ANSWER], TreatmentA, map[]).Ok?
  {
    assert [ONE_ANSWER][1..] == [];
  }

  /** Two one-answer runs whose cost delta is inverted: both orders of the runs name treatment B. */
  lemma InvertedIntervalNamesBTwice(a: Summary, b: Summary, seeding: Seeding)
    requires Inverted(CostDeltaOf(a, b).viewAInterval)
    ensures var forward := Compare(OneAnswerRun(a), OneAnswerRun(b), seeding);
            var backward := Compare(OneAnswerRun(b), OneAnswerRun(a), seeding);
            && forward.Ok? && forward.value.verdict.direction == Some(TreatmentB)
            && backward.Ok? && backward.value.verdict.direction == Some(TreatmentB)
  {
    OneAnswerIsIndexed();
    SameRecordsShowNoEffect([ONE_ANSWER], 1, 0, seeding);
    CostDeltaSwaps(a, b);
  }

  /** Such summaries, with the first run's interval the wrong way round. */
  lemma WrongWayRoundIsInverted()
    ensures var a, b := Summary(None, None, Some((1.0, -1.0))), Summary(None, None, Some((0.0, 0.0)));
            Inverted(CostDeltaOf(a, b).viewAInterval)
  {
  }

  ghost predicate DirectionSwaps(a: CompletedRun, b: CompletedRun, seeding: Seeding) {
    Compare(a, b, seeding).Ok? ==>
      && Compare(b, a, seeding).Ok?
      && Compare(b, a, seeding).value.verdict.direction
         == OtherDirection(Compare(a, b, seeding).value.verdict.direction)
  }

  ghost predicate Carry(a: CompletedRun, b: CompletedRun, summaryA: Summary, summaryB: Summary) {
    a.summary == summaryA && b.summary == summaryB && a.manifest.seed == b.manifest.seed
  }

  /**
   * For two summaries, swapping any runs that carry them under one seed names the other treatment
   * if and only if the difference of their cost intervals is not inverted.
   */
  lemma SummariesDecideSwapping(summaryA: Summary, summaryB: Summary)
    ensures (forall a: CompletedRun, b: CompletedRun, seeding: Seeding ::
               Carry(a, b, summaryA, summaryB) ==> DirectionSwaps(a, b, seeding))
            <==> !Inverted(CostDeltaOf(summaryA, summaryB).viewAInterval)
  {
    if Inverted(CostDeltaOf(summaryA, summaryB).viewAInterval) {
      var seeding: Seeding := (seed: int) => (at: nat) => 0;
      InvertedIntervalNamesBTwice(summaryA, summaryB, seeding);
      assert Carry(OneAnswerRun(summaryA), OneAnswerRun(summaryB), summaryA, summaryB);
      assert !DirectionSwaps(OneAnswerRun(summaryA), OneAnswerRun(summaryB), seeding);
    } else {
      forall a: CompletedRun, b: CompletedRun, seeding: Seeding | Carry(a, b, summaryA, summaryB)
        ensures DirectionSwaps(a, b, seeding)
      {
        ComparisonIsAntisymmetric(a, b, seeding);
      }
    }
  }
}
