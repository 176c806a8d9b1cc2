/**
 * Service-level evaluation by traffic cell, and what eligible cells say about the whole run.
 * Rates and percentiles are exact reals.
 */
module Slo {
  import opened Domain
  import opened Percentile
  import opened BenchmarkRecords
  import opened Grouping

  /** A traffic cell: workload and quality tier. */
  datatype Cell = Cell(workload: Workload, tier: QualityTier)

  /** All cells in the order of their names, WL-01/balanced to WL-03/premium. */
  const CELLS: seq<Cell> := [
    Cell(Classification, Balanced), Cell(Classification, Economy), Cell(Classification, Premium),
    Cell(StructuredExtraction, Balanced), Cell(StructuredExtraction, Economy), Cell(StructuredExtraction, Premium),
    Cell(Generation, Balanced), Cell(Generation, Economy), Cell(Generation, Premium)]

  /** The quality target is read for objective workloads only. */
  datatype Target = Target(p95E2e: real, p95Ttft: real, maxErrorRate: real, minQualityRate: real)

  /** What the evaluation takes from the scenario. */
  datatype Scenario = Scenario(workload: Workload, qualityTier: QualityTier, stream: bool, publishable: bool)

  /** The targets a manifest embeds: one for each cell of a mix, or the scenario's own alone. */
  datatype EmbeddedSlo = EmbeddedSlo(cells: map<Cell, Target>, target: Target)

  function TargetsOf(slo: EmbeddedSlo, scenario: Scenario): map<Cell, Target> {
    if slo.cells != map[] then slo.cells else map[Cell(scenario.workload, scenario.qualityTier) := slo.target]
  }

  function CellOf(scenario: Scenario, record: BenchmarkRecord): Cell {
    Cell(record.workload, if record.qualityTier.Some? then record.qualityTier.value else scenario.qualityTier)
  }

  function CellKey(scenario: Scenario): BenchmarkRecord -> Cell {
    (record: BenchmarkRecord) => CellOf(scenario, record)
  }

  function Latencies(records: seq<BenchmarkRecord>): seq<real> {
    if records == [] then [] else [records[0].e2e] + Latencies(records[1..])
  }

  function FirstTokens(records: seq<BenchmarkRecord>): seq<real> {
    if records == [] then []
    else (if records[0].ttft.Some? then [records[0].ttft.value] else []) + FirstTokens(records[1..])
  }

  function P95(values: seq<real>): Option<real> {
    if values == [] then None else Some(Quantile(values, 0.95))
  }

  predicate AtMost(actual: Option<real>, target: real) {
    actual.Some? && actual.value <= target
  }

  function Rate(test: BenchmarkRecord -> bool, records: seq<BenchmarkRecord>): real
    requires records != []
  {
    Count(test, records) as real / |records| as real
  }

  datatype CellReport = CellReport(
    cell: Cell,
    sampleSize: nat,
    e2eP95: Option<real>,
    ttftP95: Option<real>,
    errorRate: real,
    qualityRate: Option<real>,
    eligible: bool)

  function EvaluateCell(group: seq<BenchmarkRecord>, cell: Cell, scenario: Scenario, target: Target): CellReport
    requires group != []
  {
    var e2e, ttft := P95(Latencies(group)), P95(FirstTokens(group));
    var errorRate := Rate(HasFailed, group);
    var objective := cell.workload != Generation;
    var quality := if objective then Some(Rate(IsCorrect, group)) else None;
    CellReport(cell, |group|, e2e, ttft, errorRate, quality,
               && AtMost(e2e, target.p95E2e)
               && (!scenario.stream || AtMost(ttft, target.p95Ttft))
               && errorRate <= target.maxErrorRate
               && (objective ==> quality.value >= target.minQualityRate)
               && !(scenario.publishable && |group| < 30))
  }

  /** The reports of the cells that carry traffic, or the first such cell without a target. */
  function ReportsFor(
    cells: seq<Cell>, records: seq<BenchmarkRecord>, scenario: Scenario, targets: map<Cell, Target>)
    : Result<seq<CellReport>, Cell>
  {
    if cells == [] then Ok([])
    else
      var group := GroupOf(CellKey(scenario), cells[0], records);
      if group == [] then ReportsFor(cells[1..], records, scenario, targets)
      else if cells[0] !in targets then Err(cells[0])
      else
        Preceded([EvaluateCell(group, cells[0], scenario, targets[cells[0]])],
                 ReportsFor(cells[1..], records, scenario, targets))
  }

  predicate AllEligible(reports: seq<CellReport>) {
    forall i | 0 <= i < |reports| :: reports[i].eligible
  }

  function SloOf(records: seq<BenchmarkRecord>, scenario: Scenario, targets: map<Cell, Target>)
    : Result<seq<CellReport>, Cell>
  {
    ReportsFor(CELLS, records, scenario, targets)
  }

  method Evaluate(records: seq<BenchmarkRecord>, scenario: Scenario, slo: EmbeddedSlo)
    returns (result: Result<seq<CellReport>, Cell>, eligible: bool)
    ensures result == SloOf(records, scenario, TargetsOf(slo, scenario))
    ensures slo.cells != map[] ==> result == SloOf(records, scenario, slo.cells)
    ensures slo.cells == map[] ==>
              result == SloOf(records, scenario, map[Cell(scenario.workload, scenario.qualityTier) := slo.target])
    ensures result.Ok? ==> (eligible <==> AllEligible(result.value))
  {
    var grouped: map<Cell, seq<BenchmarkRecord>> := map[];
    for i := 0 to |records|
      invariant Grouped(grouped, records[..i], scenario)
    {
      var cell := CellOf(scenario, records[i]);
      assert records[..i + 1] == records[..i] + [records[i]];
      GroupGrows(grouped, records[..i], records[i], scenario);
      grouped := grouped[cell := (if cell in grouped then grouped[cell] else []) + [records[i]]];
    }
    assert records[..|records|] == records;
    result, eligible := EvaluateGroups(CELLS, grouped, records, scenario, TargetsOf(slo, scenario));
  }

  method EvaluateGroups(
    cells: seq<Cell>, grouped: map<Cell, seq<BenchmarkRecord>>, ghost records: seq<BenchmarkRecord>,
    scenario: Scenario, targets: map<Cell, Target>)
    returns (result: Result<seq<CellReport>, Cell>, eligible: bool)
    requires Grouped(grouped, records, scenario)
    ensures result == ReportsFor(cells, records, scenario, targets)
    ensures result.Ok? ==> (eligible <==> AllEligible(result.value))
  {
    var perCell: seq<CellReport> := [];
    eligible := true;
    ghost var whole := ReportsFor(cells, records, scenario, targets);
    ghost var rest := whole;
    assert cells[0..] == cells;
    assert rest.Ok? ==> [] + rest.value == rest.value;
    for i := 0 to |cells|
      invariant rest == ReportsFor(cells[i..], records, scenario, targets)
      invariant whole == Preceded(perCell, rest)
      invariant eligible <==> AllEligible(perCell)
    {
      var cell := cells[i];
      ReportsFromPosition(cells, i, records, scenario, targets);
      GroupAt(grouped, records, scenario, cell);
      if cell in grouped {
        if cell !in targets {
          return Err(cell), false;
        }
        var report := EvaluateCell(grouped[cell], cell, scenario, targets[cell]);
        PrecededTwice(perCell, report, ReportsFor(cells[i + 1..], records, scenario, targets));
        AllEligibleAppend(perCell, report);
        perCell := perCell + [report];
        eligible := eligible && report.eligible;
      }
      rest := ReportsFor(cells[i + 1..], records, scenario, targets);
    }
    result := Ok(perCell);
    assert perCell + [] == perCell;
  }

  lemma ReportsFromPosition(
    cells: seq<Cell>, i: nat, records: seq<BenchmarkRecord>, scenario: Scenario, targets: map<Cell, Target>)
    requires i < |cells|
    ensures var group := GroupOf(CellKey(scenario), cells[i], records);
            var rest := ReportsFor(cells[i + 1..], records, scenario, targets);
            ReportsFor(cells[i..], records, scenario, targets)
            == if group == [] then rest
               else if cells[i] !in targets then Err(cells[i])
               else Preceded([EvaluateCell(group, cells[i], scenario, targets[cells[i]])], rest)
  {
    assert cells[i..][1..] == cells[i + 1..];
  }

  lemma GroupAt(grouped: map<Cell, seq<BenchmarkRecord>>, records: seq<BenchmarkRecord>, scenario: Scenario, cell: Cell)
    requires Grouped(grouped, records, scenario)
    ensures cell in grouped <==> GroupOf(CellKey(scenario), cell, records) != []
    ensures cell in grouped ==> grouped[cell] == GroupOf(CellKey(scenario), cell, records)
  {
  }

  function Preceded(reports: seq<CellReport>, rest: Result<seq<CellReport>, Cell>): Result<seq<CellReport>, Cell> {
    if rest.Err? then rest else Ok(reports + rest.value)
  }

  lemma AllEligibleAppend(reports: seq<CellReport>, report: CellReport)
    ensures AllEligible(reports + [report]) <==> AllEligible(reports) && report.eligible
  {
    assert (reports + [report])[|reports|] == report;
    assert forall i | 0 <= i < |reports| :: (reports + [report])[i] == reports[i];
  }

  lemma PrecededTwice(reports: seq<CellReport>, report: CellReport, rest: Result<seq<CellReport>, Cell>)
    ensures Preceded(reports, Preceded([report], rest)) == Preceded(reports + [report], rest)
  {
    if rest.Ok? {
      assert reports + ([report] + rest.value) == reports + [report] + rest.value;
    }
  }

  /** The grouping built so far: a non-empty group for each cell met, and no other. */
  ghost predicate Grouped(grouped: map<Cell, seq<BenchmarkRecord>>, records: seq<BenchmarkRecord>, scenario: Scenario) {
    forall cell ::
      var group := GroupOf(CellKey(scenario), cell, records);
      (cell in grouped <==> group != []) && (cell in grouped ==> grouped[cell] == group)
  }

  lemma {:induction false} GroupOfAppend<T, K>(key: T -> K, k: K, s: seq<T>, x: T)
    ensures GroupOf(key, k, s + [x]) == GroupOf(key, k, s) + (if key(x) == k then [x] else [])
  {
    if s == [] {
      assert s + [x] == [x] && [x][1..] == [];
    } else {
      assert (s + [x])[1..] == s[1..] + [x];
      GroupOfAppend(key, k, s[1..], x);
    }
  }

  lemma GroupGrows(
    grouped: map<Cell, seq<BenchmarkRecord>>, records: seq<BenchmarkRecord>, record: BenchmarkRecord,
    scenario: Scenario)
    requires Grouped(grouped, records, scenario)
    ensures var cell := CellOf(scenario, record);
            var group := (if cell in grouped then grouped[cell] else []) + [record];
            Grouped(grouped[cell := group], records + [record], scenario)
  {
    forall cell {
      GroupOfAppend(CellKey(scenario), cell, records, record);
    }
  }

  // ----- the cells partition the records -----

  lemma CellsAreDistinct()
    ensures Distinct(CELLS)
  {
  }

  lemma EveryCellListed(cell: Cell)
    ensures cell in CELLS
  {
    var index := (match cell.workload case Classification => 0 case StructuredExtraction => 3 case Generation => 6)
                 + (match cell.tier case Balanced => 0 case Economy => 1 case Premium => 2);
    assert CELLS[index] == cell;
  }

  function Nothing(record: BenchmarkRecord): real { 0.0 }

  lemma CountsOverCells(test: BenchmarkRecord -> bool, records: seq<BenchmarkRecord>, scenario: Scenario)
    ensures CountOverKeys(test, CellKey(scenario), CELLS, records) == Count(test, records)
  {
    CellsAreDistinct();
    forall i | 0 <= i < |records| ensures CellKey(scenario)(records[i]) in CELLS {
      EveryCellListed(CellOf(scenario, records[i]));
    }
    GroupsMakeTheWhole(Nothing, test, CellKey(scenario), CELLS, records);
  }

  function SampleSizes(reports: seq<CellReport>): nat {
    if reports == [] then 0 else reports[0].sampleSize + SampleSizes(reports[1..])
  }

  lemma {:induction false} SizesAreGroupCounts(
    cells: seq<Cell>, records: seq<BenchmarkRecord>, scenario: Scenario, targets: map<Cell, Target>)
    requires ReportsFor(cells, records, scenario, targets).Ok?
    ensures SampleSizes(ReportsFor(cells, records, scenario, targets).value)
            == CountOverKeys(Anything, CellKey(scenario), cells, records)
  {
    if cells != [] {
      SizesAreGroupCounts(cells[1..], records, scenario, targets);
      GroupCounts(Anything, CellKey(scenario), cells[0], records);
      AnythingCounts(GroupOf(CellKey(scenario), cells[0], records));
      var reports := ReportsFor(cells, records, scenario, targets).value;
      if GroupOf(CellKey(scenario), cells[0], records) != [] {
        assert reports[1..] == ReportsFor(cells[1..], records, scenario, targets).value;
      }
    }
  }

  /** Every record is evaluated in exactly one cell: the sample sizes sum to the record count. */
  lemma SampleSizesSumToRecords(records: seq<BenchmarkRecord>, scenario: Scenario, targets: map<Cell, Target>)
    requires SloOf(records, scenario, targets).Ok?
    ensures SampleSizes(SloOf(records, scenario, targets).value) == |records|
  {
    SizesAreGroupCounts(CELLS, records, scenario, targets);
    CountsOverCells(Anything, records, scenario);
    AnythingCounts(records);
  }

  // ----- record order does not matter -----

  function HasLatency(v: real): BenchmarkRecord -> bool {
    (record: BenchmarkRecord) => record.e2e == v
  }

  function HasFirstToken(v: real): BenchmarkRecord -> bool {
    (record: BenchmarkRecord) => record.ttft == Some(v)
  }

  lemma {:induction false} LatencyCounts(records: seq<BenchmarkRecord>, v: real)
    ensures multiset(Latencies(records))[v] == Count(HasLatency(v), records)
    ensures multiset(FirstTokens(records))[v] == Count(HasFirstToken(v), records)
  {
    if records != [] {
      LatencyCounts(records[1..], v);
    }
  }

  lemma P95IgnoresOrder(a: seq<real>, b: seq<real>)
    requires multiset(a) == multiset(b)
    ensures P95(a) == P95(b)
  {
    assert |multiset(a)| == |a| && |multiset(b)| == |b|;
    if a != [] {
      QuantileIgnoresOrder(a, b, 0.95);
    }
  }

  /** A cell's report depends on its records, not on their order. */
  lemma CellIgnoresOrder(
    a: seq<BenchmarkRecord>, b: seq<BenchmarkRecord>, cell: Cell, scenario: Scenario, target: Target)
    requires a != [] && b != [] && multiset(a) == multiset(b)
    ensures EvaluateCell(a, cell, scenario, target) == EvaluateCell(b, cell, scenario, target)
  {
    assert |multiset(a)| == |a| && |multiset(b)| == |b|;
    CountIgnoresOrder(HasFailed, a, b);
    CountIgnoresOrder(IsCorrect, a, b);
    forall v
      ensures multiset(Latencies(a))[v] == multiset(Latencies(b))[v]
      ensures multiset(FirstTokens(a))[v] == multiset(FirstTokens(b))[v]
    {
      LatencyCounts(a, v);
      LatencyCounts(b, v);
      CountIgnoresOrder(HasLatency(v), a, b);
      CountIgnoresOrder(HasFirstToken(v), a, b);
    }
    P95IgnoresOrder(Latencies(a), Latencies(b));
    P95IgnoresOrder(FirstTokens(a), FirstTokens(b));
  }

  lemma {:induction false} GroupMultiset<T, K>(key: T -> K, k: K, s: seq<T>, x: T)
    ensures multiset(GroupOf(key, k, s))[x] == if key(x) == k then multiset(s)[x] else 0
  {
    if s != [] {
      GroupMultiset(key, k, s[1..], x);
      assert s == [s[0]] + s[1..];
    }
  }

  lemma GroupIgnoresOrder(a: seq<BenchmarkRecord>, b: seq<BenchmarkRecord>, scenario: Scenario, cell: Cell)
    requires multiset(a) == multiset(b)
    ensures var groupA, groupB := GroupOf(CellKey(scenario), cell, a), GroupOf(CellKey(scenario), cell, b);
            multiset(groupA) == multiset(groupB) && |groupA| == |groupB|
  {
    var groupA, groupB := GroupOf(CellKey(scenario), cell, a), GroupOf(CellKey(scenario), cell, b);
    forall x ensures multiset(groupA)[x] == multiset(groupB)[x] {
      GroupMultiset(CellKey(scenario), cell, a, x);
      GroupMultiset(CellKey(scenario), cell, b, x);
    }
    assert |multiset(groupA)| == |groupA| && |multiset(groupB)| == |groupB|;
  }

  lemma {:induction false} ReportsIgnoreOrder(
    cells: seq<Cell>, a: seq<BenchmarkRecord>, b: seq<BenchmarkRecord>, scenario: Scenario, targets: map<Cell, Target>)
    requires multiset(a) == multiset(b)
    ensures ReportsFor(cells, a, scenario, targets) == ReportsFor(cells, b, scenario, targets)
  {
    if cells != [] {
      ReportsIgnoreOrder(cells[1..], a, b, scenario, targets);
      GroupIgnoresOrder(a, b, scenario, cells[0]);
      var groupA, groupB := GroupOf(CellKey(scenario), cells[0], a), GroupOf(CellKey(scenario), cells[0], b);
      if groupA != [] && cells[0] in targets {
        CellIgnoresOrder(groupA, groupB, cells[0], scenario, targets[cells[0]]);
      }
    }
  }

  /** The whole evaluation, verdict and figures and missing targets alike, ignores record order. */
  lemma SloIgnoresRecordOrder(
    a: seq<BenchmarkRecord>, b: seq<BenchmarkRecord>, scenario: Scenario, targets: map<Cell, Target>)
    requires multiset(a) == multiset(b)
    ensures SloOf(a, scenario, targets) == SloOf(b, scenario, targets)
  {
    ReportsIgnoreOrder(CELLS, a, b, scenario, targets);
  }

  // ----- eligible cells bound the pool -----

  predicate IsObjective(record: BenchmarkRecord) { record.workload != Generation }

  /** The reported cells' error targets are at most `maxError`, their quality targets at least `minQuality`. */
  ghost predicate TargetsWithin(
    reports: seq<CellReport>, targets: map<Cell, Target>, maxError: real, minQuality: real)
  {
    forall i | 0 <= i < |reports| :: TargetWithin(reports[i].cell, targets, maxError, minQuality)
  }

  predicate TargetWithin(cell: Cell, targets: map<Cell, Target>, maxError: real, minQuality: real) {
    && cell in targets && targets[cell].maxErrorRate <= maxError
    && (cell.workload != Generation ==> targets[cell].minQualityRate >= minQuality)
  }

  lemma {:induction false} GroupObjective(records: seq<BenchmarkRecord>, scenario: Scenario, cell: Cell)
    ensures GroupCount(IsObjective, CellKey(scenario), cell, records)
            == if cell.workload == Generation then 0 else GroupCount(Anything, CellKey(scenario), cell, records)
  {
    if records != [] {
      GroupObjective(records[1..], scenario, cell);
    }
  }

  lemma EligibleCellBounds(
    cell: Cell, records: seq<BenchmarkRecord>, scenario: Scenario, targets: map<Cell, Target>,
    maxError: real, minQuality: real)
    requires var group := GroupOf(CellKey(scenario), cell, records);
             group != [] ==>
               && TargetWithin(cell, targets, maxError, minQuality)
               && EvaluateCell(group, cell, scenario, targets[cell]).eligible
    ensures var key := CellKey(scenario);
            && GroupCount(HasFailed, key, cell, records) as real
               <= Times(GroupCount(Anything, key, cell, records), maxError)
            && GroupCount(IsCorrect, key, cell, records) as real
               >= Times(GroupCount(IsObjective, key, cell, records), minQuality)
  {
    var key := CellKey(scenario);
    var group := GroupOf(key, cell, records);
    GroupCounts(HasFailed, key, cell, records);
    GroupCounts(IsCorrect, key, cell, records);
    GroupCounts(Anything, key, cell, records);
    AnythingCounts(group);
    GroupObjective(records, scenario, cell);
    if group != [] {
      RateBound(Count(HasFailed, group), |group|, maxError);
      RateBound(Count(IsCorrect, group), |group|, minQuality);
    }
  }

  /** What holds of every report holds of the first cell's, if it has one, and of the reports of the rest. */
  lemma FirstAndRest(
    test: CellReport -> bool, cells: seq<Cell>, records: seq<BenchmarkRecord>, scenario: Scenario,
    targets: map<Cell, Target>)
    requires cells != []
    requires ReportsFor(cells, records, scenario, targets).Ok?
    requires forall i | 0 <= i < |ReportsFor(cells, records, scenario, targets).value| ::
               test(ReportsFor(cells, records, scenario, targets).value[i])
    ensures var group := GroupOf(CellKey(scenario), cells[0], records);
            group != [] ==> cells[0] in targets && test(EvaluateCell(group, cells[0], scenario, targets[cells[0]]))
    ensures var rest := ReportsFor(cells[1..], records, scenario, targets);
            && rest.Ok? && (forall i | 0 <= i < |rest.value| :: test(rest.value[i]))
            && |ReportsFor(cells, records, scenario, targets).value|
               == |rest.value| + if GroupOf(CellKey(scenario), cells[0], records) != [] then 1 else 0
  {
    var reports := ReportsFor(cells, records, scenario, targets).value;
    var group := GroupOf(CellKey(scenario), cells[0], records);
    if group != [] {
      var rest := ReportsFor(cells[1..], records, scenario, targets).value;
      assert reports == [EvaluateCell(group, cells[0], scenario, targets[cells[0]])] + rest;
      assert test(reports[0]);
      forall i | 0 <= i < |rest| ensures test(rest[i]) {
        assert reports[i + 1] == rest[i];
      }
    }
  }

  function PassesWithin(targets: map<Cell, Target>, maxError: real, minQuality: real): CellReport -> bool {
    (report: CellReport) => report.eligible && TargetWithin(report.cell, targets, maxError, minQuality)
  }

  lemma {:induction false} EligibleCellsBound(
    cells: seq<Cell>, records: seq<BenchmarkRecord>, scenario: Scenario, targets: map<Cell, Target>,
    maxError: real, minQuality: real)
    requires ReportsFor(cells, records, scenario, targets).Ok?
    requires forall i | 0 <= i < |ReportsFor(cells, records, scenario, targets).value| ::
               PassesWithin(targets, maxError, minQuality)(ReportsFor(cells, records, scenario, targets).value[i])
    ensures var key := CellKey(scenario);
            && CountOverKeys(HasFailed, key, cells, records) as real
               <= Times(CountOverKeys(Anything, key, cells, records), maxError)
            && CountOverKeys(IsCorrect, key, cells, records) as real
               >= Times(CountOverKeys(IsObjective, key, cells, records), minQuality)
  {
    if cells != [] {
      var key := CellKey(scenario);
      FirstAndRest(PassesWithin(targets, maxError, minQuality), cells, records, scenario, targets);
      EligibleCellsBound(cells[1..], records, scenario, targets, maxError, minQuality);
      EligibleCellBounds(cells[0], records, scenario, targets, maxError, minQuality);
      TimesAdds(
        GroupCount(Anything, key, cells[0], records), CountOverKeys(Anything, key, cells[1..], records), maxError);
      TimesAdds(GroupCount(IsObjective, key, cells[0], records),
                CountOverKeys(IsObjective, key, cells[1..], records), minQuality);
    }
  }

  /** A run that every cell with traffic passes, under these limits for the targets of those cells. */
  ghost predicate EligibleRun(
    records: seq<BenchmarkRecord>, scenario: Scenario, targets: map<Cell, Target>, maxError: real, minQuality: real)
  {
    && records != []
    && SloOf(records, scenario, targets).Ok?
    && AllEligible(SloOf(records, scenario, targets).value)
    && TargetsWithin(SloOf(records, scenario, targets).value, targets, maxError, minQuality)
  }

  /**
   * If every cell is eligible, the run's error rate is at most the largest target among its cells,
   * and its correct tasks are at least the smallest quality target's share of its objective records.
   */
  lemma EligibleCellsBoundThePool(
    records: seq<BenchmarkRecord>, scenario: Scenario, targets: map<Cell, Target>, maxError: real, minQuality: real)
    requires EligibleRun(records, scenario, targets, maxError, minQuality)
    ensures Rate(HasFailed, records) <= maxError
    ensures Count(IsCorrect, records) as real >= Times(Count(IsObjective, records), minQuality)
    ensures AllObjective(records) ==> Rate(IsCorrect, records) >= minQuality
  {
    EligibleCellsBound(CELLS, records, scenario, targets, maxError, minQuality);
    CountsOverCells(HasFailed, records, scenario);
    CountsOverCells(IsCorrect, records, scenario);
    CountsOverCells(IsObjective, records, scenario);
    CountsOverCells(Anything, records, scenario);
    AnythingCounts(records);
    RateBound(Count(HasFailed, records), |records|, maxError);
    RateBound(Count(IsCorrect, records), |records|, minQuality);
    if AllObjective(records) {
      ObjectiveCounts(records);
    }
  }

  ghost predicate AllObjective(records: seq<BenchmarkRecord>) {
    forall i | 0 <= i < |records| :: IsObjective(records[i])
  }

  lemma {:induction false} ObjectiveCounts(records: seq<BenchmarkRecord>)
    requires AllObjective(records)
    ensures Count(IsObjective, records) == |records|
  {
    if records != [] {
      ObjectiveCounts(records[1..]);
    }
  }

  // ----- when eligible cells bound the pooled quality rate -----

  /** The pooled quality rate of a report: none for a generation scenario. */
  function PooledQuality(records: seq<BenchmarkRecord>, scenario: Scenario): Option<real>
    requires records != []
  {
    if scenario.workload == Generation then None else Some(Rate(IsCorrect, records))
  }

  /** In a run whose records carry the scenario's own workload, eligible cells bound the pooled rate. */
  lemma OneWorkloadIsBounded(
    records: seq<BenchmarkRecord>, scenario: Scenario, targets: map<Cell, Target>, maxError: real, minQuality: real)
    requires EligibleRun(records, scenario, targets, maxError, minQuality)
    requires forall i | 0 <= i < |records| :: records[i].workload == scenario.workload
    ensures PooledQuality(records, scenario).Some? ==> PooledQuality(records, scenario).value >= minQuality
  {
    EligibleCellsBoundThePool(records, scenario, targets, maxError, minQuality);
  }

  lemma {:induction false} EligibleCellByCell(
    cells: seq<Cell>, records: seq<BenchmarkRecord>, scenario: Scenario, targets: map<Cell, Target>,
    maxError: real, minQuality: real)
    requires forall i | 0 <= i < |cells| ::
               var group := GroupOf(CellKey(scenario), cells[i], records);
               group != [] ==>
                 && TargetWithin(cells[i], targets, maxError, minQuality)
                 && EvaluateCell(group, cells[i], scenario, targets[cells[i]]).eligible
    ensures var reports := ReportsFor(cells, records, scenario, targets);
            && reports.Ok? && AllEligible(reports.value)
            && TargetsWithin(reports.value, targets, maxError, minQuality)
  {
    if cells != [] {
      var rest := cells[1..];
      forall i | 0 <= i < |rest| ensures rest[i] == cells[i + 1] {
      }
      EligibleCellByCell(rest, records, scenario, targets, maxError, minQuality);
    }
  }

  /** An immediate answer without an error, judged or not. */
  function Instant(workload: Workload, verdict: Option<bool>): BenchmarkRecord {
    BenchmarkRecord("item", 1, workload, None, None, 0.0, 0.0, None, 0.0, None, verdict, None)
  }

  const LOCAL_RUN := Scenario(Classification, Balanced, false, false)

  lemma InstantIsEligible(record: BenchmarkRecord, target: Target)
    requires record == Instant(Classification, Some(true)) || record == Instant(Generation, None)
    requires target == Target(0.0, 0.0, 0.0, 1.0)
    ensures EvaluateCell([record], CellOf(LOCAL_RUN, record), LOCAL_RUN, target).eligible
  {
    assert [record][1..] == [];
    assert Latencies([record]) == [0.0];
    QuantileWithinBounds([0.0], 0.95, 0.0, 0.0);
    assert Count(HasFailed, [record]) == 0;
    assert record.workload == Classification ==> Count(IsCorrect, [record]) == 1;
  }

  /** A record alone in its cell is eligible there. */
  ghost predicate PassesAlone(record: BenchmarkRecord, targets: map<Cell, Target>, minQuality: real) {
    var cell := CellOf(LOCAL_RUN, record);
    TargetWithin(cell, targets, 0.0, minQuality) && EvaluateCell([record], cell, LOCAL_RUN, targets[cell]).eligible
  }

  lemma AloneIsEligible(record: BenchmarkRecord, targets: map<Cell, Target>, minQuality: real)
    requires PassesAlone(record, targets, minQuality)
    ensures EligibleRun([record], LOCAL_RUN, targets, 0.0, minQuality)
  {
    var key := CellKey(LOCAL_RUN);
    assert [record][1..] == [];
    forall cell ensures GroupOf(key, cell, [record]) == if cell == key(record) then [record] else [] {
    }
    EligibleCellByCell(CELLS, [record], LOCAL_RUN, targets, 0.0, minQuality);
  }

  lemma TwoCellsAreEligible(a: BenchmarkRecord, b: BenchmarkRecord, targets: map<Cell, Target>, minQuality: real)
    requires PassesAlone(a, targets, minQuality) && PassesAlone(b, targets, minQuality)
    requires CellOf(LOCAL_RUN, a) != CellOf(LOCAL_RUN, b)
    ensures EligibleRun([a, b], LOCAL_RUN, targets, 0.0, minQuality)
  {
    var key := CellKey(LOCAL_RUN);
    assert [a, b][1..] == [b] && [b][1..] == [];
    forall cell
      ensures GroupOf(key, cell, [a, b]) == if cell == key(a) then [a] else if cell == key(b) then [b] else []
    {
      assert GroupOf(key, cell, [b]) == if cell == key(b) then [b] else [];
    }
    EligibleCellByCell(CELLS, [a, b], LOCAL_RUN, targets, 0.0, minQuality);
  }

  /**
   * One correct classification record and one generation record, both cells at quality target one:
   * every cell is eligible and half of the pool is correct.
   */
  lemma GenerationDilutesQuality()
    ensures var records := [Instant(Classification, Some(true)), Instant(Generation, None)];
            var target := Target(0.0, 0.0, 0.0, 1.0);
            var targets := map[Cell(Classification, Balanced) := target, Cell(Generation, Balanced) := target];
            && EligibleRun(records, LOCAL_RUN, targets, 0.0, 1.0)
            && PooledQuality(records, LOCAL_RUN) == Some(0.5)
  {
    var judged, free := Instant(Classification, Some(true)), Instant(Generation, None);
    var target := Target(0.0, 0.0, 0.0, 1.0);
    var targets := map[Cell(Classification, Balanced) := target, Cell(Generation, Balanced) := target];
    InstantIsEligible(judged, target);
    InstantIsEligible(free, target);
    TwoCellsAreEligible(judged, free, targets, 1.0);
    assert [judged, free][1..] == [free] && [free][1..] == [];
    assert Count(IsCorrect, [free]) == 0 && Count(IsCorrect, [judged, free]) == 1;
  }

  const FREE_TARGETS: map<Cell, Target> := map[Cell(Generation, Balanced) := Target(0.0, 0.0, 0.0, 1.0)]

  lemma GenerationAloneIsEligible(minQuality: real)
    ensures EligibleRun([Instant(Generation, None)], LOCAL_RUN, FREE_TARGETS, 0.0, minQuality)
    ensures Rate(IsCorrect, [Instant(Generation, None)]) == 0.0
  {
    var free := Instant(Generation, None);
    InstantIsEligible(free, Target(0.0, 0.0, 0.0, 1.0));
    AloneIsEligible(free, FREE_TARGETS, minQuality);
    assert [free][1..] == [];
    assert Count(IsCorrect, [free]) == 0;
  }

  /** An eligible run over these workloads, under these limits. */
  ghost predicate EligibleOver(
    workloads: set<Workload>, records: seq<BenchmarkRecord>, scenario: Scenario, targets: map<Cell, Target>,
    maxError: real, minQuality: real)
  {
    && (forall i | 0 <= i < |records| :: records[i].workload in workloads)
    && EligibleRun(records, scenario, targets, maxError, minQuality)
  }

  lemma UnboundedWithGeneration(workloads: set<Workload>, minQuality: real)
    returns (records: seq<BenchmarkRecord>, scenario: Scenario, targets: map<Cell, Target>, maxError: real)
    requires Generation in workloads && minQuality > 0.0
    ensures EligibleOver(workloads, records, scenario, targets, maxError, minQuality)
    ensures Rate(IsCorrect, records) < minQuality
  {
    GenerationAloneIsEligible(minQuality);
    records, scenario, targets, maxError := [Instant(Generation, None)], LOCAL_RUN, FREE_TARGETS, 0.0;
  }

  lemma BoundedWithoutGeneration(
    workloads: set<Workload>, records: seq<BenchmarkRecord>, scenario: Scenario, targets: map<Cell, Target>,
    maxError: real, minQuality: real)
    requires Generation !in workloads
    requires EligibleOver(workloads, records, scenario, targets, maxError, minQuality)
    ensures Rate(IsCorrect, records) >= minQuality
  {
    EligibleCellsBoundThePool(records, scenario, targets, maxError, minQuality);
  }

  /**
   * For records over a set of workloads and a positive quality target, eligible cells bound the
   * pooled quality rate of every run if and only if generation is not among the workloads.
   */
  lemma QualityIsBoundedExactlyWithoutGeneration(workloads: set<Workload>, minQuality: real)
    requires minQuality > 0.0
    ensures (forall records: seq<BenchmarkRecord>, scenario: Scenario, targets: map<Cell, Target>, maxError: real ::
               EligibleOver(workloads, records, scenario, targets, maxError, minQuality)
               ==> Rate(IsCorrect, records) >= minQuality)
            <==> Generation !in workloads
  {
    if Generation in workloads {
      var records, scenario, targets, maxError := UnboundedWithGeneration(workloads, minQuality);
      assert EligibleOver(workloads, records, scenario, targets, maxError, minQuality);
    } else {
      forall records: seq<BenchmarkRecord>, scenario: Scenario, targets: map<Cell, Target>, maxError: real |
        EligibleOver(workloads, records, scenario, targets, maxError, minQuality)
        ensures Rate(IsCorrect, records) >= minQuality
      {
        BoundedWithoutGeneration(workloads, records, scenario, targets, maxError, minQuality);
      }
    }
  }

  // ----- eligible cells meet their latency target -----

  function Within(limit: real): BenchmarkRecord -> bool {
    (record: BenchmarkRecord) => record.e2e <= limit
  }

  lemma {:induction false} LatenciesWithin(records: seq<BenchmarkRecord>, q: real, limit: real)
    requires q <= limit
    ensures |Latencies(records)| == |records|
    ensures Count(NoMoreThan(q), Latencies(records)) <= Count(Within(limit), records)
  {
    if records != [] {
      LatenciesWithin(records[1..], q, limit);
    }
  }

  /** In an eligible cell more than 95 in 100 of all records but one are within the latency target. */
  lemma EligibleCellIsFast(group: seq<BenchmarkRecord>, cell: Cell, scenario: Scenario, target: Target, limit: real)
    requires group != [] && target.p95E2e <= limit
    ensures EvaluateCell(group, cell, scenario, target).eligible ==>
              Count(Within(limit), group) as real > 0.95 * (|group| - 1) as real
  {
    var values := Latencies(group);
    var q := Quantile(values, 0.95);
    if q > target.p95E2e {
      return;
    }
    LatenciesWithin(group, q, limit);
    QuantileSplitsData(values, 0.95);
    assert Position(|values|, 0.95) == 0.95 * (|group| - 1) as real;
  }

  predicate LatencyTargetWithin(cell: Cell, targets: map<Cell, Target>, limit: real) {
    cell in targets && targets[cell].p95E2e <= limit
  }

  function PassesFast(targets: map<Cell, Target>, limit: real): CellReport -> bool {
    (report: CellReport) => report.eligible && LatencyTargetWithin(report.cell, targets, limit)
  }

  lemma {:induction false} EligibleCellsAreFast(
    cells: seq<Cell>, records: seq<BenchmarkRecord>, scenario: Scenario, targets: map<Cell, Target>, limit: real)
    requires ReportsFor(cells, records, scenario, targets).Ok?
    requires forall i | 0 <= i < |ReportsFor(cells, records, scenario, targets).value| ::
               PassesFast(targets, limit)(ReportsFor(cells, records, scenario, targets).value[i])
    ensures var key := CellKey(scenario);
            CountOverKeys(Within(limit), key, cells, records) as real
            >= 0.95 * (CountOverKeys(Anything, key, cells, records)
                       - |ReportsFor(cells, records, scenario, targets).value|) as real
  {
    if cells != [] {
      var key := CellKey(scenario);
      var group := GroupOf(key, cells[0], records);
      FirstAndRest(PassesFast(targets, limit), cells, records, scenario, targets);
      EligibleCellsAreFast(cells[1..], records, scenario, targets, limit);
      GroupCounts(Within(limit), key, cells[0], records);
      GroupCounts(Anything, key, cells[0], records);
      AnythingCounts(group);
      if group != [] {
        EligibleCellIsFast(group, cells[0], scenario, targets[cells[0]], limit);
      }
    }
  }

  /**
   * If every cell is eligible, at least 95 in 100 of the run's records, but for one record a cell
   * with traffic, are within the largest latency target of those cells.
   */
  lemma EligibleRunIsFast(
    records: seq<BenchmarkRecord>, scenario: Scenario, targets: map<Cell, Target>, limit: real)
    requires SloOf(records, scenario, targets).Ok? && AllEligible(SloOf(records, scenario, targets).value)
    requires forall i | 0 <= i < |SloOf(records, scenario, targets).value| ::
               LatencyTargetWithin(SloOf(records, scenario, targets).value[i].cell, targets, limit)
    ensures Count(Within(limit), records) as real
            >= 0.95 * (|records| - |SloOf(records, scenario, targets).value|) as real
  {
    EligibleCellsAreFast(CELLS, records, scenario, targets, limit);
    CountsOverCells(Within(limit), records, scenario);
    CountsOverCells(Anything, records, scenario);
    AnythingCounts(records);
  }

  // ----- what an eligible cell is -----

  lemma {:induction false} FirstTokensCount(group: seq<BenchmarkRecord>)
    ensures |FirstTokens(group)| == Count(HasStarted, group)
  {
    if group != [] {
      FirstTokensCount(group[1..]);
    }
  }

  lemma {:induction false} LatencyEach(group: seq<BenchmarkRecord>)
    ensures |Latencies(group)| == |group|
    ensures forall i | 0 <= i < |group| :: Latencies(group)[i] == group[i].e2e
  {
    if group != [] {
      LatencyEach(group[1..]);
    }
  }

  predicate HasStarted(record: BenchmarkRecord) { record.ttft.Some? }

  /**
   * A cell is eligible exactly when its 95th latency percentile meets the target; in a streamed
   * scenario some record has a first token and their 95th percentile meets its target; failures are
   * at most the allowed share of the records; correct answers, unless for generation, at least the
   * required share; and a publishable run has 30 records there.
   */
  lemma CellIsEligibleExactly(group: seq<BenchmarkRecord>, cell: Cell, scenario: Scenario, target: Target)
    requires group != []
    ensures |Latencies(group)| == |group| && forall i | 0 <= i < |group| :: Latencies(group)[i] == group[i].e2e
    ensures EvaluateCell(group, cell, scenario, target).eligible
            <==> && Quantile(Latencies(group), 0.95) <= target.p95E2e
                 && (scenario.stream ==>
                       && Count(HasStarted, group) > 0 && FirstTokens(group) != []
                       && Quantile(FirstTokens(group), 0.95) <= target.p95Ttft)
                 && Count(HasFailed, group) as real <= Times(|group|, target.maxErrorRate)
                 && (cell.workload != Generation ==>
                       Count(IsCorrect, group) as real >= Times(|group|, target.minQualityRate))
                 && (scenario.publishable ==> |group| >= 30)
  {
    LatencyEach(group);
    FirstTokensCount(group);
    RateBound(Count(HasFailed, group), |group|, target.maxErrorRate);
    RateBound(Count(IsCorrect, group), |group|, target.minQualityRate);
  }

  lemma RateTimesCount(count: nat, n: nat)
    requires n > 0
    ensures Times(n, count as real / n as real) == count as real
  {
    TimesIsProduct(n, count as real / n as real);
  }

  /** A report gives the cell's own figures, and a rate times its sample is the count it stands for. */
  lemma CellReportsItsFigures(group: seq<BenchmarkRecord>, cell: Cell, scenario: Scenario, target: Target)
    requires group != []
    ensures var report := EvaluateCell(group, cell, scenario, target);
            && report.cell == cell && report.sampleSize == |group|
            && report.e2eP95 == PercentileOption(Latencies(group))
            && report.ttftP95 == PercentileOption(FirstTokens(group))
            && Times(report.sampleSize, report.errorRate) == Count(HasFailed, group) as real
            && (report.qualityRate.Some? <==> cell.workload != Generation)
            && (report.qualityRate.Some? ==>
                  Times(report.sampleSize, report.qualityRate.value) == Count(IsCorrect, group) as real)
  {
    RateTimesCount(Count(HasFailed, group), |group|);
    RateTimesCount(Count(IsCorrect, group), |group|);
  }

  /** The 95th percentile as the statistics give it, or nothing where they give an error. */
  function PercentileOption(values: seq<real>): Option<real> {
    match PercentileOf(values, 0.95) case Ok(value) => Some(value) case Err(_) => None
  }

  function StartsWithin(limit: real): BenchmarkRecord -> bool {
    (record: BenchmarkRecord) => record.ttft.Some? && record.ttft.value <= limit
  }

  lemma {:induction false} FirstTokensWithin(records: seq<BenchmarkRecord>, q: real, limit: real)
    requires q <= limit
    ensures Count(NoMoreThan(q), FirstTokens(records)) <= Count(StartsWithin(limit), records)
  {
    if records != [] {
      FirstTokensWithin(records[1..], q, limit);
      if records[0].ttft.Some? {
        assert FirstTokens(records)[1..] == FirstTokens(records[1..]);
      } else {
        assert FirstTokens(records) == FirstTokens(records[1..]);
      }
    }
  }

  /**
   * In an eligible cell of a streamed scenario some record has a first token, and more than 95 in
   * 100 of all those that have one, but one, have it within the target.
   */
  lemma EligibleStreamStartsFast(
    group: seq<BenchmarkRecord>, cell: Cell, scenario: Scenario, target: Target, limit: real)
    requires group != [] && scenario.stream && target.p95Ttft <= limit
    ensures EvaluateCell(group, cell, scenario, target).eligible ==>
              && Count(HasStarted, group) > 0
              && Count(StartsWithin(limit), group) as real > 0.95 * (Count(HasStarted, group) - 1) as real
  {
    CellIsEligibleExactly(group, cell, scenario, target);
    FirstTokensCount(group);
    var values := FirstTokens(group);
    if values == [] || Quantile(values, 0.95) > target.p95Ttft {
      return;
    }
    FirstTokensWithin(group, Quantile(values, 0.95), limit);
    QuantileSplitsData(values, 0.95);
    assert Position(|values|, 0.95) == 0.95 * (|values| - 1) as real;
  }

  // ----- which records a cell holds -----

  /** The record's workload and tier are the cell's; a record without a tier has the scenario's. */
  function BelongsTo(cell: Cell, scenario: Scenario): BenchmarkRecord -> bool {
    (record: BenchmarkRecord) =>
      && record.workload == cell.workload
      && (match record.qualityTier case Some(tier) => tier == cell.tier case None => scenario.qualityTier == cell.tier)
  }

  lemma CellHoldsItsRecords(cell: Cell, records: seq<BenchmarkRecord>, scenario: Scenario)
    ensures var group := GroupOf(CellKey(scenario), cell, records);
            && |group| == Count(BelongsTo(cell, scenario), records)
            && forall record :: record in group <==> record in records && BelongsTo(cell, scenario)(record)
  {
    GroupSize(CellKey(scenario), cell, BelongsTo(cell, scenario), records);
    GroupHolds(CellKey(scenario), cell, records);
  }

  lemma {:induction false} ReportedCells(
    cells: seq<Cell>, records: seq<BenchmarkRecord>, scenario: Scenario, targets: map<Cell, Target>)
    ensures ReportsFor(cells, records, scenario, targets).Ok?
            <==> forall cell <- cells :: GroupOf(CellKey(scenario), cell, records) != [] ==> cell in targets
  {
    if cells != [] {
      ReportedCells(cells[1..], records, scenario, targets);
      assert cells == [cells[0]] + cells[1..];
    }
  }

  /** The evaluation finds every target it needs exactly when each record belongs to a cell that has one. */
  lemma EvaluatedExactlyWithTargets(records: seq<BenchmarkRecord>, scenario: Scenario, targets: map<Cell, Target>)
    ensures SloOf(records, scenario, targets).Ok?
            <==> forall record <- records :: exists cell <- targets :: BelongsTo(cell, scenario)(record)
  {
    ReportedCells(CELLS, records, scenario, targets);
    forall cell ensures cell in CELLS {
      EveryCellListed(cell);
    }
    forall cell
      ensures forall record :: record in GroupOf(CellKey(scenario), cell, records)
                               <==> record in records && BelongsTo(cell, scenario)(record)
    {
      CellHoldsItsRecords(cell, records, scenario);
    }
    if SloOf(records, scenario, targets).Ok? {
      forall record <- records ensures exists cell <- targets :: BelongsTo(cell, scenario)(record) {
        var cell := CellOf(scenario, record);
        assert BelongsTo(cell, scenario)(record);
        assert record in GroupOf(CellKey(scenario), cell, records);
      }
    } else {
      var cell :| cell in CELLS && GroupOf(CellKey(scenario), cell, records) != [] && cell !in targets;
      var record := GroupOf(CellKey(scenario), cell, records)[0];
      assert record in GroupOf(CellKey(scenario), cell, records);
      assert forall other | BelongsTo(other, scenario)(record) :: other == cell;
    }
  }
}
