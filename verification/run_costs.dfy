/**
 * The money part of a run report: per-repeat numerators, provider rows and the run totals, and
 * that they are the same money. Amounts are exact reals.
 */
module RunCosts {
  import opened Domain
  import opened Ordering
  import opened BenchmarkRecords
  import opened Grouping
  import opened Costing
  import opened Bootstrap

  function RepeatOf(record: BenchmarkRecord): int { record.repeatIndex }

  function RepeatIds(repeats: nat): seq<int> {
    seq(repeats, i requires 0 <= i < repeats => i + 1)
  }

  // ----- billed hours -----

  function EarliestStart(records: seq<BenchmarkRecord>): real
    requires records != []
  {
    if |records| == 1 then records[0].startedAt
    else
      var rest := EarliestStart(records[1..]);
      if records[0].startedAt <= rest then records[0].startedAt else rest
  }

  function LatestCompletion(records: seq<BenchmarkRecord>): real
    requires records != []
  {
    if |records| == 1 then records[0].completedAt
    else
      var rest := LatestCompletion(records[1..]);
      if records[0].completedAt >= rest then records[0].completedAt else rest
  }

  function SpanSeconds(records: seq<BenchmarkRecord>): real {
    if records == [] then 0.0 else LatestCompletion(records) - EarliestStart(records)
  }

  /** The hours billed for each repeat: its request span, but at least the minimum billing time. */
  function RepeatHours(records: seq<BenchmarkRecord>, rates: PrivateRates, repeats: nat): map<int, real> {
    map i | 1 <= i <= repeats ::
      var span := SpanSeconds(GroupOf(RepeatOf, i, records));
      (if span >= rates.minimumBillingSeconds as real then span else rates.minimumBillingSeconds as real) / 3600.0
  }

  lemma {:induction false} SpanEnds(records: seq<BenchmarkRecord>)
    requires records != []
    ensures forall i | 0 <= i < |records| ::
              EarliestStart(records) <= records[i].startedAt && records[i].completedAt <= LatestCompletion(records)
    ensures exists i | 0 <= i < |records| :: records[i].startedAt == EarliestStart(records)
    ensures exists i | 0 <= i < |records| :: records[i].completedAt == LatestCompletion(records)
  {
    if |records| == 1 {
      assert records[0].startedAt == EarliestStart(records) && records[0].completedAt == LatestCompletion(records);
    } else {
      SpanEnds(records[1..]);
      var i :| 0 <= i < |records[1..]| && records[1..][i].startedAt == EarliestStart(records[1..]);
      var j :| 0 <= j < |records[1..]| && records[1..][j].completedAt == LatestCompletion(records[1..]);
      assert records[i + 1].startedAt == EarliestStart(records[1..]);
      assert records[j + 1].completedAt == LatestCompletion(records[1..]);
      assert records[0].startedAt == EarliestStart(records) || records[i + 1].startedAt == EarliestStart(records);
      assert records[0].completedAt == LatestCompletion(records)
             || records[j + 1].completedAt == LatestCompletion(records);
    }
  }

  /**
   * A repeat is billed for the minimum or for its span, whichever is longer; the span reaches from
   * the start of one of its records to the completion of another and covers all of them.
   */
  lemma RepeatBilledForItsSpan(records: seq<BenchmarkRecord>, rates: PrivateRates, repeats: nat, i: int)
    requires 1 <= i <= repeats
    ensures var seconds := RepeatHours(records, rates, repeats)[i] * 3600.0;
            var group := GroupOf(RepeatOf, i, records);
            && seconds >= rates.minimumBillingSeconds as real
            && (forall x, y | 0 <= x < |group| && 0 <= y < |group| ::
                  group[y].completedAt - group[x].startedAt <= seconds)
            && (seconds > rates.minimumBillingSeconds as real ==>
                  exists x, y | 0 <= x < |group| && 0 <= y < |group| ::
                    group[y].completedAt - group[x].startedAt == seconds)
  {
    var group := GroupOf(RepeatOf, i, records);
    if group != [] {
      SpanEnds(group);
      var x :| 0 <= x < |group| && group[x].startedAt == EarliestStart(group);
      var y :| 0 <= y < |group| && group[y].completedAt == LatestCompletion(group);
      assert group[y].completedAt - group[x].startedAt == SpanSeconds(group);
    }
  }

  /** The run's billed hours: an operator's measurement, or else the sum over its repeats. */
  function BilledHours(measured: Option<real>, hours: map<int, real>, repeats: nat): real
    requires forall i | 1 <= i <= repeats :: i in hours
  {
    if measured.Some? then measured.value else SumAt(hours, RepeatIds(repeats))
  }

  function InputsFor(billedHours: real, gpuNodes: nat): PrivateRunInputs {
    PrivateRunInputs(billedHours * gpuNodes as real, billedHours, billedHours * gpuNodes as real, 0.0, 0.0)
  }

  // ----- per-repeat numerators and denominators -----

  function HourlyRate(rates: PrivateRates, gpuNodes: nat): real {
    rates.gpuHourly * gpuNodes as real + rates.cpuHourly + rates.storageHourly * gpuNodes as real
  }

  function PrivateNumerators(hours: map<int, real>, rates: PrivateRates, gpuNodes: nat): map<int, real> {
    map i | i in hours :: hours[i] * HourlyRate(rates, gpuNodes)
  }

  function ManagedNumerators(records: seq<BenchmarkRecord>, repeats: nat): map<int, real> {
    map i | 1 <= i <= repeats :: GroupSum(ManagedCost, RepeatOf, i, records)
  }

  function HybridNumerators(records: seq<BenchmarkRecord>, rates: PrivateRates, repeats: nat, gpuNodes: nat)
    : map<int, real>
  {
    var private := PrivateNumerators(RepeatHours(records, rates, repeats), rates, gpuNodes);
    var managed := ManagedNumerators(records, repeats);
    map i | 1 <= i <= repeats :: private[i] + managed[i]
  }

  function CorrectByRepeat(records: seq<BenchmarkRecord>, repeats: nat): map<int, int> {
    map i | 1 <= i <= repeats :: GroupCount(IsCorrect, RepeatOf, i, records)
  }

  lemma PrivateNumeratorIsOwn(hours: map<int, real>, rates: PrivateRates, gpuNodes: nat, i: int)
    requires i in hours
    ensures PrivateNumerators(hours, rates, gpuNodes)[i] == PrivateViewA(rates, InputsFor(hours[i], gpuNodes))
  {
    PrivateCostIsHoursTimesRate(rates, hours[i], gpuNodes);
  }

  /**
   * Each repeat's numerators are its own money: its hours at the run's private rates, the managed
   * cost of its records, and the two together; its denominator is its correct records.
   */
  lemma RepeatsCarryTheirOwnMoney(
    records: seq<BenchmarkRecord>, rates: PrivateRates, repeats: nat, gpuNodes: nat, i: int)
    requires 1 <= i <= repeats
    ensures var group, hours := GroupOf(RepeatOf, i, records), RepeatHours(records, rates, repeats);
            var private := PrivateViewA(rates, InputsFor(hours[i], gpuNodes));
            && PrivateNumerators(hours, rates, gpuNodes)[i] == private
            && ManagedNumerators(records, repeats)[i] == SumOf(ManagedCost, group)
            && HybridNumerators(records, rates, repeats, gpuNodes)[i] == private + SumOf(ManagedCost, group)
            && CorrectByRepeat(records, repeats)[i] == Count(IsCorrect, group)
  {
    PrivateNumeratorIsOwn(RepeatHours(records, rates, repeats), rates, gpuNodes, i);
    GroupSumIsSum(ManagedCost, RepeatOf, i, records);
    GroupCounts(IsCorrect, RepeatOf, i, records);
  }

  // ----- conservation: private -----

  lemma {:induction false} ScaledSum(hours: map<int, real>, scaled: map<int, real>, rate: real, ids: seq<int>)
    requires forall i | 0 <= i < |ids| :: ids[i] in hours && ids[i] in scaled
    requires forall i | 0 <= i < |ids| :: scaled[ids[i]] == hours[ids[i]] * rate
    ensures SumAt(scaled, ids) == SumAt(hours, ids) * rate
  {
    if ids != [] {
      ScaledSum(hours, scaled, rate, ids[1..]);
      Distributes(hours[ids[0]], SumAt(hours, ids[1..]), rate);
    }
  }

  lemma Distributes(x: real, y: real, k: real)
    ensures (x + y) * k == x * k + y * k
  {
  }

  lemma PrivateCostIsHoursTimesRate(rates: PrivateRates, billedHours: real, gpuNodes: nat)
    ensures PrivateViewA(rates, InputsFor(billedHours, gpuNodes)) == billedHours * HourlyRate(rates, gpuNodes)
    ensures PrivateViewA(rates, InputsFor(billedHours, gpuNodes))
            == billedHours * (gpuNodes as real * (rates.gpuHourly + rates.storageHourly) + rates.cpuHourly)
  {
    var n, h := gpuNodes as real, billedHours;
    assert HourlyRate(rates, gpuNodes) == n * (rates.gpuHourly + rates.storageHourly) + rates.cpuHourly;
    assert h * n * rates.gpuHourly == h * (rates.gpuHourly * n);
    assert h * n * rates.storageHourly == h * (rates.storageHourly * n);
    assert h * (rates.gpuHourly * n + rates.cpuHourly + rates.storageHourly * n)
           == h * (rates.gpuHourly * n) + h * rates.cpuHourly + h * (rates.storageHourly * n);
  }

  lemma PrivateNumeratorsSum(hours: map<int, real>, rates: PrivateRates, gpuNodes: nat, ids: seq<int>)
    requires forall i | 0 <= i < |ids| :: ids[i] in hours
    ensures SumAt(PrivateNumerators(hours, rates, gpuNodes), ids) == SumAt(hours, ids) * HourlyRate(rates, gpuNodes)
  {
    ScaledSum(hours, PrivateNumerators(hours, rates, gpuNodes), HourlyRate(rates, gpuNodes), ids);
  }

  lemma PrivateCostMatchesExactly(rates: PrivateRates, billed: real, gpuNodes: nat, amount: real, hours: real)
    requires amount == hours * HourlyRate(rates, gpuNodes)
    ensures amount == PrivateViewA(rates, InputsFor(billed, gpuNodes))
            <==> billed == hours || HourlyRate(rates, gpuNodes) == 0.0
  {
    PrivateCostIsHoursTimesRate(rates, billed, gpuNodes);
    var cost, rate := PrivateViewA(rates, InputsFor(billed, gpuNodes)), HourlyRate(rates, gpuNodes);
    ScaledEqual(amount, cost, hours, billed, rate);
  }

  lemma PrivateMoneyMatches(hours: map<int, real>, rates: PrivateRates, gpuNodes: nat, ids: seq<int>, billed: real)
    requires forall i | 0 <= i < |ids| :: ids[i] in hours
    ensures SumAt(PrivateNumerators(hours, rates, gpuNodes), ids) == PrivateViewA(rates, InputsFor(billed, gpuNodes))
            <==> billed == SumAt(hours, ids) || HourlyRate(rates, gpuNodes) == 0.0
  {
    PrivateNumeratorsSum(hours, rates, gpuNodes, ids);
    PrivateCostMatchesExactly(
      rates, billed, gpuNodes, SumAt(PrivateNumerators(hours, rates, gpuNodes), ids), SumAt(hours, ids));
  }

  /**
   * The private numerators of the repeats sum to the run's private cost exactly when the billed
   * hours are the sum of the repeats' hours, or private capacity costs nothing.
   */
  lemma PrivateMoneyConservedExactly(
    records: seq<BenchmarkRecord>, rates: PrivateRates, repeats: nat, gpuNodes: nat, measured: Option<real>)
    ensures var hours := RepeatHours(records, rates, repeats);
            var billed := BilledHours(measured, hours, repeats);
            SumAt(PrivateNumerators(hours, rates, gpuNodes), RepeatIds(repeats))
            == PrivateViewA(rates, InputsFor(billed, gpuNodes))
            <==> billed == BilledHours(None, hours, repeats) || HourlyRate(rates, gpuNodes) == 0.0
  {
    var hours := RepeatHours(records, rates, repeats);
    PrivateMoneyMatches(hours, rates, gpuNodes, RepeatIds(repeats), BilledHours(measured, hours, repeats));
  }

  lemma ScaledEqual(a: real, b: real, x: real, y: real, k: real)
    requires a == x * k && b == y * k
    ensures a == b <==> x == y || k == 0.0
  {
    assert a - b == (x - y) * k;
  }

  // ----- conservation: managed -----

  lemma {:induction false} NumeratorsAreGroups(
    f: BenchmarkRecord -> real, records: seq<BenchmarkRecord>, amounts: map<int, real>, ids: seq<int>)
    requires forall i | 0 <= i < |ids| :: ids[i] in amounts
    requires forall i | 0 <= i < |ids| :: amounts[ids[i]] == GroupSum(f, RepeatOf, ids[i], records)
    ensures SumAt(amounts, ids) == SumOverKeys(f, RepeatOf, ids, records)
  {
    if ids != [] {
      NumeratorsAreGroups(f, records, amounts, ids[1..]);
    }
  }

  lemma {:induction false} DenominatorsAreGroups(records: seq<BenchmarkRecord>, counts: map<int, int>, ids: seq<int>)
    requires forall i | 0 <= i < |ids| :: ids[i] in counts
    requires forall i | 0 <= i < |ids| :: counts[ids[i]] == GroupCount(IsCorrect, RepeatOf, ids[i], records)
    ensures CountAt(counts, ids) == CountOverKeys(IsCorrect, RepeatOf, ids, records)
  {
    if ids != [] {
      DenominatorsAreGroups(records, counts, ids[1..]);
    }
  }

  /** Every record belongs to one of the declared repeats. */
  ghost predicate RepeatsInRange(records: seq<BenchmarkRecord>, repeats: nat) {
    forall i | 0 <= i < |records| :: 1 <= records[i].repeatIndex <= repeats
  }

  lemma RepeatsCoverRecords(records: seq<BenchmarkRecord>, repeats: nat)
    requires RepeatsInRange(records, repeats)
    ensures forall i | 0 <= i < |records| :: RepeatOf(records[i]) in RepeatIds(repeats)
  {
    forall i | 0 <= i < |records| ensures RepeatOf(records[i]) in RepeatIds(repeats) {
      assert RepeatIds(repeats)[records[i].repeatIndex - 1] == records[i].repeatIndex;
    }
  }

  /** The managed numerators of the repeats sum to the managed aggregate, and their correct counts to the run's. */
  lemma ManagedMoneyConserved(records: seq<BenchmarkRecord>, repeats: nat)
    requires RepeatsInRange(records, repeats)
    ensures SumAt(ManagedNumerators(records, repeats), RepeatIds(repeats)) == SumOf(ManagedCost, records)
    ensures CountAt(CorrectByRepeat(records, repeats), RepeatIds(repeats)) == Count(IsCorrect, records)
  {
    RepeatsCoverRecords(records, repeats);
    NumeratorsAreGroups(ManagedCost, records, ManagedNumerators(records, repeats), RepeatIds(repeats));
    DenominatorsAreGroups(records, CorrectByRepeat(records, repeats), RepeatIds(repeats));
    GroupsMakeTheWhole(ManagedCost, IsCorrect, RepeatOf, RepeatIds(repeats), records);
  }

  // ----- provider rows -----

  function ProviderName(record: BenchmarkRecord): string {
    if record.provider.Some? && record.provider.value != "" then record.provider.value else "unknown"
  }

  datatype ProviderRow = ProviderRow(
    requests: nat,
    correct: nat,
    qualityRate: Option<real>,
    cost: real,
    perRequest: Option<real>,
    perCorrect: Option<real>)

  function RowCost(records: seq<BenchmarkRecord>, provider: string, privateTotal: real): real {
    if StartsWith("managed", provider) then GroupSum(CostOrZero, ProviderName, provider, records)
    else if StartsWith("private", provider) then privateTotal
    else 0.0
  }

  /** Whether the first record of a group was judged decides whether the group has a quality rate. */
  predicate IsJudged(group: seq<BenchmarkRecord>) {
    group != [] && group[0].taskCorrect.Some?
  }

  function RowFor(records: seq<BenchmarkRecord>, provider: string, privateTotal: real): ProviderRow {
    var requests := GroupCount(Anything, ProviderName, provider, records);
    var correct := GroupCount(IsCorrect, ProviderName, provider, records);
    var cost := RowCost(records, provider, privateTotal);
    ProviderRow(
      requests, correct,
      if IsJudged(GroupOf(ProviderName, provider, records)) then PerUnit(correct as real, requests) else None,
      cost, PerUnit(cost, requests), PerUnit(cost, correct))
  }

  function ProviderNames(records: seq<BenchmarkRecord>): (names: seq<string>)
    ensures Distinct(names)
    ensures forall name :: name in names <==> exists record <- records :: name == ProviderName(record)
  {
    StringOrder();
    Arranged(StringLeq, set record <- records :: ProviderName(record))
  }

  /** A row's figures times what they are given for: its cost by requests and correct tasks, its correct tasks. */
  lemma RowDivides(records: seq<BenchmarkRecord>, provider: string, privateTotal: real)
    ensures var row := RowFor(records, provider, privateTotal);
            var group := GroupOf(ProviderName, provider, records);
            && row.requests == |group| && row.correct == Count(IsCorrect, group)
            && IsShare(row.perRequest, row.cost, row.requests)
            && IsShare(row.perCorrect, row.cost, row.correct)
            && if group != [] && group[0].taskCorrect.Some?
               then IsShare(row.qualityRate, row.correct as real, row.requests)
               else row.qualityRate == None
  {
    var row := RowFor(records, provider, privateTotal);
    GroupCounts(Anything, ProviderName, provider, records);
    GroupCounts(IsCorrect, ProviderName, provider, records);
    AnythingCounts(GroupOf(ProviderName, provider, records));
    UnitTimesCount(row.cost, row.requests);
    UnitTimesCount(row.cost, row.correct);
    UnitTimesCount(row.correct as real, row.requests);
  }

  function RowRequests(records: seq<BenchmarkRecord>, names: seq<string>, privateTotal: real): nat {
    if names == [] then 0
    else RowFor(records, names[0], privateTotal).requests + RowRequests(records, names[1..], privateTotal)
  }

  function RowCorrect(records: seq<BenchmarkRecord>, names: seq<string>, privateTotal: real): nat {
    if names == [] then 0
    else RowFor(records, names[0], privateTotal).correct + RowCorrect(records, names[1..], privateTotal)
  }

  lemma {:induction false} RowCountsAreGroups(records: seq<BenchmarkRecord>, names: seq<string>, privateTotal: real)
    ensures RowRequests(records, names, privateTotal) == CountOverKeys(Anything, ProviderName, names, records)
    ensures RowCorrect(records, names, privateTotal) == CountOverKeys(IsCorrect, ProviderName, names, records)
  {
    if names != [] {
      RowCountsAreGroups(records, names[1..], privateTotal);
    }
  }

  /** The provider rows count every record once, and every correct one. */
  lemma RowsCoverRecords(records: seq<BenchmarkRecord>, privateTotal: real)
    ensures RowRequests(records, ProviderNames(records), privateTotal) == |records|
    ensures RowCorrect(records, ProviderNames(records), privateTotal) == Count(IsCorrect, records)
  {
    var names := ProviderNames(records);
    forall i | 0 <= i < |records| ensures ProviderName(records[i]) in names {
      assert records[i] in records;
    }
    RowCountsAreGroups(records, names, privateTotal);
    GroupsMakeTheWhole(ManagedCost, Anything, ProviderName, names, records);
    GroupsMakeTheWhole(ManagedCost, IsCorrect, ProviderName, names, records);
    AnythingCounts(records);
  }

  method BreakdownRow(records: seq<BenchmarkRecord>, provider: string, privateTotal: real) returns (row: ProviderRow)
    ensures row == RowFor(records, provider, privateTotal)
  {
    var group := GroupOf(ProviderName, provider, records);
    GroupCounts(Anything, ProviderName, provider, records);
    GroupCounts(IsCorrect, ProviderName, provider, records);
    GroupSumIsSum(CostOrZero, ProviderName, provider, records);
    AnythingCounts(group);
    var cost := 0.0;
    if StartsWith("managed", provider) {
      cost := SumOf(CostOrZero, group);
    } else if StartsWith("private", provider) {
      cost := privateTotal;
    }
    var correct := Count(IsCorrect, group);
    return ProviderRow(
        |group|, correct, if IsJudged(group) then PerUnit(correct as real, |group|) else None,
        cost, PerUnit(cost, |group|), PerUnit(cost, correct));
  }

  /** A row for each of these names and no other. */
  ghost predicate RowsOf(
    rows: map<string, ProviderRow>, names: seq<string>, records: seq<BenchmarkRecord>, privateTotal: real)
  {
    && (forall name :: name in rows <==> name in names)
    && (forall name <- rows :: rows[name] == RowFor(records, name, privateTotal))
  }

  lemma OneMoreRow(
    rows: map<string, ProviderRow>, names: seq<string>, name: string, records: seq<BenchmarkRecord>, privateTotal: real)
    requires RowsOf(rows, names, records, privateTotal)
    ensures RowsOf(rows[name := RowFor(records, name, privateTotal)], names + [name], records, privateTotal)
  {
  }

  lemma AllRowsAreNames(rows: map<string, ProviderRow>, records: seq<BenchmarkRecord>, privateTotal: real)
    requires RowsOf(rows, ProviderNames(records), records, privateTotal)
    ensures rows.Keys == set record <- records :: ProviderName(record)
    ensures forall name <- rows :: rows[name] == RowFor(records, name, privateTotal)
  {
  }

  method BreakdownRows(records: seq<BenchmarkRecord>, providers: seq<string>, privateTotal: real)
    returns (rows: map<string, ProviderRow>)
    ensures RowsOf(rows, providers, records, privateTotal)
  {
    rows := map[];
    for i := 0 to |providers|
      invariant RowsOf(rows, providers[..i], records, privateTotal)
    {
      assert providers[..i + 1] == providers[..i] + [providers[i]];
      OneMoreRow(rows, providers[..i], providers[i], records, privateTotal);
      var row := BreakdownRow(records, providers[i], privateTotal);
      rows := rows[providers[i] := row];
    }
    assert providers[..|providers|] == providers;
  }

  method ProviderBreakdown(records: seq<BenchmarkRecord>, privateTotal: real) returns (rows: map<string, ProviderRow>)
    ensures rows.Keys == set record <- records :: ProviderName(record)
    ensures forall name <- rows :: rows[name] == RowFor(records, name, privateTotal)
  {
    rows := BreakdownRows(records, ProviderNames(records), privateTotal);
    AllRowsAreNames(rows, records, privateTotal);
  }

  lemma {:induction false} GroupSumIsSum<K>(
    f: BenchmarkRecord -> real, key: BenchmarkRecord -> K, k: K, records: seq<BenchmarkRecord>)
    ensures GroupSum(f, key, k, records) == SumOf(f, GroupOf(key, k, records))
  {
    if records != [] {
      GroupSumIsSum(f, key, k, records[1..]);
      if key(records[0]) == k {
        assert GroupOf(key, k, records)[1..] == GroupOf(key, k, records[1..]);
      } else {
        assert GroupOf(key, k, records) == GroupOf(key, k, records[1..]);
      }
    }
  }

  lemma PrefixesDiffer(name: string)
    ensures !(StartsWith("managed", name) && StartsWith("private", name))
  {
    assert "managed"[0] != "private"[0];
  }

  lemma ManagedByName(record: BenchmarkRecord)
    ensures IsManaged(record) <==> StartsWith("managed", ProviderName(record))
  {
    assert "managed"[0] != "unknown"[0];
  }

  /** The managed bill of one provider name: all its recorded cost if the name is managed, else nothing. */
  lemma {:induction false} ManagedShare(records: seq<BenchmarkRecord>, provider: string)
    ensures GroupSum(ManagedCost, ProviderName, provider, records)
            == if StartsWith("managed", provider) then GroupSum(CostOrZero, ProviderName, provider, records) else 0.0
  {
    if records != [] {
      ManagedByName(records[0]);
      ManagedShare(records[1..], provider);
    }
  }

  function RowTotal(records: seq<BenchmarkRecord>, names: seq<string>, privateTotal: real): real {
    if names == [] then 0.0
    else RowCost(records, names[0], privateTotal) + RowTotal(records, names[1..], privateTotal)
  }

  function PrivateNames(names: seq<string>): nat {
    if names == [] then 0 else (if StartsWith("private", names[0]) then 1 else 0) + PrivateNames(names[1..])
  }

  lemma TimesOnceExactly(k: nat, x: real)
    ensures Times(k, x) == x <==> k == 1 || x == 0.0
  {
    TimesIsProduct(k, x);
    ScaledEqual(k as real * x, x, k as real, 1.0, x);
  }

  lemma {:induction false} RowsSplit(records: seq<BenchmarkRecord>, names: seq<string>, privateTotal: real)
    ensures RowTotal(records, names, privateTotal)
            == SumOverKeys(ManagedCost, ProviderName, names, records) + Times(PrivateNames(names), privateTotal)
  {
    if names != [] {
      RowsSplit(records, names[1..], privateTotal);
      ManagedShare(records, names[0]);
      if StartsWith("private", names[0]) {
        PrefixesDiffer(names[0]);
      }
    }
  }

  function ManagedRowTotal(records: seq<BenchmarkRecord>, names: seq<string>, privateTotal: real): real {
    if names == [] then 0.0
    else
      (if StartsWith("managed", names[0]) then RowCost(records, names[0], privateTotal) else 0.0)
      + ManagedRowTotal(records, names[1..], privateTotal)
  }

  lemma {:induction false} ManagedRowsAreGroups(records: seq<BenchmarkRecord>, names: seq<string>, privateTotal: real)
    ensures ManagedRowTotal(records, names, privateTotal) == SumOverKeys(ManagedCost, ProviderName, names, records)
  {
    if names != [] {
      ManagedRowsAreGroups(records, names[1..], privateTotal);
      ManagedShare(records, names[0]);
    }
  }

  /** The managed rows of the provider table sum to the managed aggregate. */
  lemma ManagedRowsConserved(records: seq<BenchmarkRecord>, privateTotal: real)
    ensures ManagedRowTotal(records, ProviderNames(records), privateTotal) == SumOf(ManagedCost, records)
  {
    ManagedRowsAreGroups(records, ProviderNames(records), privateTotal);
    NamesShareManagedCost(records);
  }

  lemma NamesShareManagedCost(records: seq<BenchmarkRecord>)
    ensures SumOverKeys(ManagedCost, ProviderName, ProviderNames(records), records) == SumOf(ManagedCost, records)
  {
    var names := ProviderNames(records);
    forall i | 0 <= i < |records| ensures ProviderName(records[i]) in names {
      assert records[i] in records;
    }
    GroupsMakeTheWhole(ManagedCost, IsCorrect, ProviderName, names, records);
  }

  lemma RowsTotal(records: seq<BenchmarkRecord>, privateTotal: real)
    ensures RowTotal(records, ProviderNames(records), privateTotal)
            == SumOf(ManagedCost, records) + Times(PrivateNames(ProviderNames(records)), privateTotal)
  {
    RowsSplit(records, ProviderNames(records), privateTotal);
    NamesShareManagedCost(records);
  }

  /**
   * Every private row carries the whole private total, so the table sums to the hybrid total
   * exactly when one private provider name occurs, or the private total is nothing.
   */
  lemma ProviderRowsConservedExactly(records: seq<BenchmarkRecord>, privateTotal: real)
    ensures RowTotal(records, ProviderNames(records), privateTotal) == SumOf(ManagedCost, records) + privateTotal
            <==> PrivateNames(ProviderNames(records)) == 1 || privateTotal == 0.0
  {
    var names := ProviderNames(records);
    RowsTotal(records, privateTotal);
    TimesOnceExactly(PrivateNames(names), privateTotal);
  }

  /** A record of one provider, correct, with this managed cost. */
  function ServedBy(provider: string, cost: Option<real>): BenchmarkRecord {
    BenchmarkRecord("item", 1, Classification, None, Some(provider), 0.0, 3600.0, None, 1.0, None, Some(true), cost)
  }

  lemma NamesOfOne(record: BenchmarkRecord)
    ensures ProviderNames([record]) == [ProviderName(record)]
  {
    assert record in [record];
    OnlyThese(ProviderNames([record]), ProviderName(record), ProviderName(record));
  }

  lemma NamesOfPair(a: BenchmarkRecord, b: BenchmarkRecord)
    requires ProviderName(a) != ProviderName(b)
    ensures ProviderNames([a, b]) in {[ProviderName(a), ProviderName(b)], [ProviderName(b), ProviderName(a)]}
  {
    assert a in [a, b] && b in [a, b];
    OnlyThese(ProviderNames([a, b]), ProviderName(a), ProviderName(b));
  }

  lemma {:induction false} NoMoreThanAllowed(names: seq<string>, allowed: set<string>)
    requires Distinct(names) && forall k | 0 <= k < |names| :: names[k] in allowed
    ensures |names| <= |allowed|
  {
    if names != [] {
      NoMoreThanAllowed(names[1..], allowed - {names[0]});
    }
  }

  lemma OnlyThese(names: seq<string>, x: string, y: string)
    requires Distinct(names)
    requires forall name :: name in names <==> name == x || name == y
    ensures x == y ==> names == [x]
    ensures x != y ==> names in {[x, y], [y, x]}
  {
    assert x in names && y in names;
    forall k | 0 <= k < |names| ensures names[k] in {x, y} {
      assert names[k] in names;
    }
    NoMoreThanAllowed(names, {x, y});
    if |names| == 2 {
      assert names == [names[0], names[1]];
    } else {
      assert names == [names[0]];
    }
  }

  /** Without a private record, billed private time is in no row. */
  lemma PrivateTotalLost(name: string, cost: real, privateTotal: real)
    requires StartsWith("managed", name)
    ensures var records := [ServedBy(name, Some(cost))];
            RowTotal(records, ProviderNames(records), privateTotal) == cost == SumOf(ManagedCost, records)
  {
    var record := ServedBy(name, Some(cost));
    PrefixesDiffer(name);
    ManagedByName(record);
    assert name != "" by { assert |"managed"| > 0; }
    NamesOfOne(record);
    RowsTotal([record], privateTotal);
    assert [record][1..] == [] && [name][1..] == [];
    assert PrivateNames([name]) == 0;
  }

  /** With two private names, billed private time is in both rows. */
  lemma PrivateTotalDoubled(first: string, second: string, privateTotal: real)
    requires StartsWith("private", first) && StartsWith("private", second) && first != second
    ensures var records := [ServedBy(first, None), ServedBy(second, None)];
            && RowTotal(records, ProviderNames(records), privateTotal) == privateTotal + privateTotal
            && SumOf(ManagedCost, records) == 0.0
  {
    var a, b := ServedBy(first, None), ServedBy(second, None);
    assert first != "" && second != "" by { assert |"private"| > 0; }
    NamesOfPair(a, b);
    RowsTotal([a, b], privateTotal);
    NothingManaged(first, second);
    BothPrivate(first, second);
    BothPrivate(second, first);
    assert Times(2, privateTotal) == privateTotal + Times(1, privateTotal);
  }

  lemma NothingManaged(first: string, second: string)
    requires StartsWith("private", first) && StartsWith("private", second)
    ensures SumOf(ManagedCost, [ServedBy(first, None), ServedBy(second, None)]) == 0.0
  {
    var a, b := ServedBy(first, None), ServedBy(second, None);
    assert [a, b][1..] == [b] && [b][1..] == [];
    assert SumOf(ManagedCost, [b]) == 0.0;
  }

  lemma BothPrivate(x: string, y: string)
    requires StartsWith("private", x) && StartsWith("private", y)
    ensures PrivateNames([x, y]) == 2
  {
    assert [x, y][1..] == [y] && [y][1..] == [];
    assert PrivateNames([y]) == 1;
  }

  /** The table against the run's total on two small runs, one managed and one with two private names. */
  lemma ProviderRowsLoseOrDouble()
    ensures var managed := [ServedBy("managed", Some(1.0))];
            RowTotal(managed, ProviderNames(managed), 5.0) == 1.0 && SumOf(ManagedCost, managed) + 5.0 == 6.0
    ensures var private := [ServedBy("private", None), ServedBy("private2", None)];
            RowTotal(private, ProviderNames(private), 5.0) == 10.0 && SumOf(ManagedCost, private) + 5.0 == 5.0
  {
    PrivateTotalLost("managed", 1.0, 5.0);
    PrivateTotalDoubled("private", "private2", 5.0);
  }

  /** An hour per repeat against two hours measured: the repeats' private cost is half the run's. */
  lemma MeasuredHoursPartFromRepeats()
    ensures var rates, records := PrivateRates(1.0, 0.0, 0.0, 0.0, 0.0, 1), [ServedBy("private-a", None)];
            var hours := RepeatHours(records, rates, 1);
            && SumAt(PrivateNumerators(hours, rates, 1), RepeatIds(1)) == 1.0
            && PrivateViewA(rates, InputsFor(BilledHours(Some(2.0), hours, 1), 1)) == 2.0
  {
    var rates, record := PrivateRates(1.0, 0.0, 0.0, 0.0, 0.0, 1), ServedBy("private-a", None);
    assert [record][1..] == [];
    assert GroupOf(RepeatOf, 1, [record]) == [record];
    var hours := RepeatHours([record], rates, 1);
    assert hours[1] == 1.0;
    assert RepeatIds(1) == [1] && RepeatIds(1)[1..] == [];
    PrivateNumeratorsSum(hours, rates, 1, RepeatIds(1));
    PrivateCostIsHoursTimesRate(rates, 2.0, 1);
  }

  // ----- the pooled figure -----

  lemma {:induction false} SumOfSums(a: map<int, real>, b: map<int, real>, both: map<int, real>, ids: seq<int>)
    requires forall i | 0 <= i < |ids| :: ids[i] in a && ids[i] in b && ids[i] in both
    requires forall i | 0 <= i < |ids| :: both[ids[i]] == a[ids[i]] + b[ids[i]]
    ensures SumAt(both, ids) == SumAt(a, ids) + SumAt(b, ids)
  {
    if ids != [] {
      SumOfSums(a, b, both, ids[1..]);
    }
  }

  /** With hours from the span estimate the hybrid numerators sum to the hybrid total. */
  lemma HybridMoneyConserved(records: seq<BenchmarkRecord>, rates: PrivateRates, repeats: nat, gpuNodes: nat)
    requires RepeatsInRange(records, repeats)
    ensures SumAt(HybridNumerators(records, rates, repeats, gpuNodes), RepeatIds(repeats))
            == HybridTotal(records, rates, repeats, gpuNodes, None)
  {
    var hours := RepeatHours(records, rates, repeats);
    PrivateMoneyConservedExactly(records, rates, repeats, gpuNodes, None);
    ManagedMoneyConserved(records, repeats);
    SumOfSums(PrivateNumerators(hours, rates, gpuNodes), ManagedNumerators(records, repeats),
              HybridNumerators(records, rates, repeats, gpuNodes), RepeatIds(repeats));
  }

  function HybridTotal(
    records: seq<BenchmarkRecord>, rates: PrivateRates, repeats: nat, gpuNodes: nat, measured: Option<real>): real
  {
    var billed := BilledHours(measured, RepeatHours(records, rates, repeats), repeats);
    PrivateViewA(rates, InputsFor(billed, gpuNodes)) + SumOf(ManagedCost, records)
  }

  /**
   * With billed hours from the span estimate and a correct task in every repeat, the pooled hybrid
   * cost per correct task lies within any bounds that hold for every repeat's own hybrid cost.
   */
  lemma PooledHybridCostWithinRepeats(
    records: seq<BenchmarkRecord>, rates: PrivateRates, repeats: nat, gpuNodes: nat, low: real, high: real)
    requires repeats > 0 && RepeatsInRange(records, repeats)
    requires forall i | 1 <= i <= repeats :: CorrectByRepeat(records, repeats)[i] > 0
    requires var hybrid := HybridNumerators(records, rates, repeats, gpuNodes);
             var correct := CorrectByRepeat(records, repeats);
             forall i | 1 <= i <= repeats :: low <= hybrid[i] / correct[i] as real <= high
    ensures Count(IsCorrect, records) > 0
    ensures low <= HybridTotal(records, rates, repeats, gpuNodes, None) / Count(IsCorrect, records) as real <= high
  {
    var ids := RepeatIds(repeats);
    var hybrid, correct := HybridNumerators(records, rates, repeats, gpuNodes), CorrectByRepeat(records, repeats);
    HybridMoneyConserved(records, rates, repeats, gpuNodes);
    ManagedMoneyConserved(records, repeats);
    PooledRatioWithin(hybrid, correct, ids, low, high);
  }
}
