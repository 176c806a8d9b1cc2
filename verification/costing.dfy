/** Managed aggregation and private view A: what a run's inference cost. */
module Costing {
  import opened Domain
  import opened BenchmarkRecords
  import opened Grouping

  datatype PrivateRates = PrivateRates(
    gpuHourly: real,
    cpuHourly: real,
    storageHourly: real,
    transferPerGb: real,
    lifecycleHourly: real,
    minimumBillingSeconds: nat)

  datatype PrivateRunInputs = PrivateRunInputs(
    gpuHours: real,
    cpuHours: real,
    storageHours: real,
    transferGb: real,
    lifecycleHours: real)

  datatype ManagedAggregate = ManagedAggregate(total: real, priced: nat, missing: nat)

  predicate StartsWith(prefix: string, name: string) { prefix <= name }

  predicate IsManaged(record: BenchmarkRecord) {
    record.provider.Some? && StartsWith("managed", record.provider.value)
  }

  function CostOrZero(record: BenchmarkRecord): real {
    if record.managedCost.Some? then record.managedCost.value else 0.0
  }

  /** What a record adds to the managed bill: nothing unless a managed provider served it. */
  function ManagedCost(record: BenchmarkRecord): real {
    if IsManaged(record) then CostOrZero(record) else 0.0
  }

  predicate IsPriced(record: BenchmarkRecord) { IsManaged(record) && record.managedCost.Some? }

  predicate LacksUsage(record: BenchmarkRecord) { IsManaged(record) && record.managedCost.None? }

  method AggregateManaged(records: seq<BenchmarkRecord>) returns (aggregate: ManagedAggregate)
    ensures aggregate.total == SumOf(ManagedCost, records)
    ensures aggregate.priced == Count(IsPriced, records)
    ensures aggregate.missing == Count(LacksUsage, records)
  {
    var total, priced, missing := 0.0, 0, 0;
    for i := 0 to |records|
      invariant total + SumOf(ManagedCost, records[i..]) == SumOf(ManagedCost, records)
      invariant priced + Count(IsPriced, records[i..]) == Count(IsPriced, records)
      invariant missing + Count(LacksUsage, records[i..]) == Count(LacksUsage, records)
    {
      var record := records[i];
      assert records[i..][1..] == records[i + 1..];
      if !IsManaged(record) {
        continue;
      }
      if record.managedCost.None? {
        missing := missing + 1;
        continue;
      }
      total := total + record.managedCost.value;
      priced := priced + 1;
    }
    return ManagedAggregate(total, priced, missing);
  }

  function PrivateViewA(rates: PrivateRates, inputs: PrivateRunInputs): real {
    inputs.gpuHours * rates.gpuHourly
    + inputs.cpuHours * rates.cpuHourly
    + inputs.storageHours * rates.storageHourly
    + inputs.transferGb * rates.transferPerGb
    + inputs.lifecycleHours * rates.lifecycleHourly
  }

  // ----- the two economic views of a run -----

  datatype SharedRates = SharedRates(
    gateway: real,
    network: real,
    controlPlane: real,
    storage: real,
    observability: real)

  function SharedPlatform(shared: SharedRates, hours: real): real {
    hours * shared.gateway + hours * shared.network + hours * shared.controlPlane
    + hours * shared.storage + hours * shared.observability
  }

  const MONTH_HOURS := 720.0

  /** What view B adds to a run's marginal cost: the platform, and its share of monthly operations. */
  function RunAdditions(shared: SharedRates, monthlyOperations: real, hours: real): real {
    SharedPlatform(shared, hours) + monthlyOperations * hours / MONTH_HOURS
  }

  datatype ViewCost = ViewCost(total: real, perRequest: Option<real>, perCorrect: Option<real>)

  function PerUnit(total: real, count: nat): Option<real> {
    if count == 0 then None else Some(total / count as real)
  }

  /** One view of a total; without a correct count, or with none correct, there is no cost per correct task. */
  function View(total: real, requests: nat, correct: Option<nat>): ViewCost {
    ViewCost(total, PerUnit(total, requests), PerUnit(total, if correct.Some? then correct.value else 0))
  }

  /** Both paths of a run and their combination, with the same addition to each. */
  datatype RunViews = RunViews(managed: ViewCost, private: ViewCost, hybrid: ViewCost)

  function ViewsOf(managed: real, private: real, additions: real, requests: nat, correct: Option<nat>): RunViews {
    RunViews(View(managed + additions, requests, correct), View(private + additions, requests, correct),
             View(private + managed + additions, requests, correct))
  }

  function Plus(a: Option<real>, b: Option<real>): Option<real> {
    if a.Some? && b.Some? then Some(a.value + b.value) else None
  }

  lemma UnitsAdd(x: real, y: real, count: nat)
    ensures PerUnit(x + y, count) == Plus(PerUnit(x, count), PerUnit(y, count))
  {
    if count > 0 {
      SumOfQuotients(x, y, count as real);
    }
  }

  lemma SumOfQuotients(x: real, y: real, n: real)
    requires n > 0.0
    ensures (x + y) / n == x / n + y / n
  {
  }

  /** In view A the combined cost per request and per correct task is the sum of the two paths' costs. */
  lemma HybridViewAIsSumOfPaths(managed: real, private: real, requests: nat, correct: Option<nat>)
    ensures var views := ViewsOf(managed, private, 0.0, requests, correct);
            && views.hybrid.total == views.private.total + views.managed.total
            && views.hybrid.perRequest == Plus(views.private.perRequest, views.managed.perRequest)
            && views.hybrid.perCorrect == Plus(views.private.perCorrect, views.managed.perCorrect)
  {
    UnitsAdd(private, managed, requests);
    UnitsAdd(private, managed, if correct.Some? then correct.value else 0);
  }

  /**
   * View B adds the same amount per request and per correct task to every path, so it leaves all
   * differences between the paths as they are in view A.
   */
  lemma ViewBAddsEqually(
    managed: real, private: real, shared: SharedRates, monthlyOperations: real, hours: real,
    requests: nat, correct: Option<nat>)
    ensures var additions := RunAdditions(shared, monthlyOperations, hours);
            var a := ViewsOf(managed, private, 0.0, requests, correct);
            var b := ViewsOf(managed, private, additions, requests, correct);
            var extra := View(additions, requests, correct);
            && b.managed.perRequest == Plus(a.managed.perRequest, extra.perRequest)
            && b.private.perRequest == Plus(a.private.perRequest, extra.perRequest)
            && b.managed.perCorrect == Plus(a.managed.perCorrect, extra.perCorrect)
            && b.private.perCorrect == Plus(a.private.perCorrect, extra.perCorrect)
            && b.hybrid.perRequest == Plus(a.hybrid.perRequest, extra.perRequest)
            && b.hybrid.perCorrect == Plus(a.hybrid.perCorrect, extra.perCorrect)
  {
    var additions := RunAdditions(shared, monthlyOperations, hours);
    var n := if correct.Some? then correct.value else 0;
    UnitsAdd(managed, additions, requests);
    UnitsAdd(private, additions, requests);
    UnitsAdd(managed, additions, n);
    UnitsAdd(private, additions, n);
    UnitsAdd(private + managed, additions, requests);
    UnitsAdd(private + managed, additions, n);
  }

  // ----- what the figures mean -----

  /** So much for each of the count makes the total; with nothing to count there is no figure. */
  ghost predicate IsShare(figure: Option<real>, total: real, count: nat) {
    && (figure.Some? <==> count > 0)
    && (figure.Some? ==> figure.value * count as real == total)
  }

  /** The view divides this total: so much a request times the requests is the total, and so for correct tasks. */
  ghost predicate Divides(view: ViewCost, total: real, requests: nat, correct: Option<nat>) {
    && view.total == total
    && IsShare(view.perRequest, total, requests)
    && IsShare(view.perCorrect, total, match correct case Some(count) => count case None => 0)
  }

  lemma UnitTimesCount(total: real, count: nat)
    ensures IsShare(PerUnit(total, count), total, count)
  {
  }

  lemma ViewDivides(total: real, requests: nat, correct: Option<nat>)
    ensures Divides(View(total, requests, correct), total, requests, correct)
  {
    UnitTimesCount(total, requests);
    UnitTimesCount(total, if correct.Some? then correct.value else 0);
  }

  /** Each path of a run divides its own cost with the additions by the run's requests and correct tasks. */
  lemma ViewsDivideTheirOwnTotals(managed: real, private: real, additions: real, requests: nat, correct: Option<nat>)
    ensures var views := ViewsOf(managed, private, additions, requests, correct);
            && Divides(views.managed, managed + additions, requests, correct)
            && Divides(views.private, private + additions, requests, correct)
            && Divides(views.hybrid, managed + private + additions, requests, correct)
  {
    ViewDivides(managed + additions, requests, correct);
    ViewDivides(private + additions, requests, correct);
    ViewDivides(private + managed + additions, requests, correct);
  }

  lemma MoreOf(hours: real, more: real, rate: real)
    ensures (hours + more) * rate == hours * rate + more * rate
  {
  }

  /** More of one resource costs that resource's own rate, and nothing used costs nothing. */
  lemma ResourcesAtTheirOwnRates(rates: PrivateRates, inputs: PrivateRunInputs, more: real)
    ensures PrivateViewA(rates, PrivateRunInputs(0.0, 0.0, 0.0, 0.0, 0.0)) == 0.0
    ensures var cost := PrivateViewA(rates, inputs);
            && PrivateViewA(rates, inputs.(gpuHours := inputs.gpuHours + more)) == cost + more * rates.gpuHourly
            && PrivateViewA(rates, inputs.(cpuHours := inputs.cpuHours + more)) == cost + more * rates.cpuHourly
            && PrivateViewA(rates, inputs.(storageHours := inputs.storageHours + more))
               == cost + more * rates.storageHourly
            && PrivateViewA(rates, inputs.(transferGb := inputs.transferGb + more)) == cost + more * rates.transferPerGb
            && PrivateViewA(rates, inputs.(lifecycleHours := inputs.lifecycleHours + more))
               == cost + more * rates.lifecycleHourly
  {
    MoreOf(inputs.gpuHours, more, rates.gpuHourly);
    MoreOf(inputs.cpuHours, more, rates.cpuHourly);
    MoreOf(inputs.storageHours, more, rates.storageHourly);
    MoreOf(inputs.transferGb, more, rates.transferPerGb);
    MoreOf(inputs.lifecycleHours, more, rates.lifecycleHourly);
  }

  /** A month of 720 hours bears all monthly operations and every platform rate; other spans in proportion. */
  lemma AdditionsInProportion(shared: SharedRates, monthlyOperations: real, hours: real)
    ensures var month := shared.gateway * 720.0 + shared.network * 720.0 + shared.controlPlane * 720.0
                         + shared.storage * 720.0 + shared.observability * 720.0 + monthlyOperations;
            && RunAdditions(shared, monthlyOperations, 720.0) == month
            && RunAdditions(shared, monthlyOperations, hours) == hours * (month / 720.0)
  {
    var rates := shared.gateway + shared.network + shared.controlPlane + shared.storage + shared.observability;
    assert hours * rates == hours * shared.gateway + hours * shared.network + hours * shared.controlPlane
                            + hours * shared.storage + hours * shared.observability;
    assert monthlyOperations * hours / 720.0 == hours * (monthlyOperations / 720.0);
  }
}
