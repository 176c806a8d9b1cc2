/**
 * The break-even grid: every volume, token profile, utilisation tier, quality case and economic
 * view, with the cheaper path of each row. Amounts are exact reals.
 */
module ScenarioGrid {
  import opened Domain
  import opened Capacity
  import opened Costing
  import opened Arithmetic

  datatype TokenProfile = TokenProfile(name: string, inputTokens: nat, outputTokens: nat)

  type Positive = n: int | n > 0 witness 1

  datatype Tier = Tier(name: string, requestsPerReplica: Positive, replicaHours: real)

  datatype GridConfig = GridConfig(
    volumes: seq<Positive>,
    profiles: seq<TokenProfile>,
    tiers: seq<Tier>,
    qualityPoints: seq<int>,
    gpuHourly: real,
    shared: SharedRates,
    operationsLow: real,
    operationsTypical: real,
    operationsHigh: real)

  datatype Path = Measured | ManagedPath | PrivatePath

  datatype QualityCase = QualityCase(path: Path, delta: int, managed: real, private: real)

  datatype View = ViewA | ViewBLow | ViewBTypical | ViewBHigh

  const VIEWS := [ViewA, ViewBLow, ViewBTypical, ViewBHigh]

  datatype Lower = ManagedLower | PrivateLower | EqualCost | Indeterminate

  /** What view B adds, component by component. */
  datatype Components = Components(
    gateway: real,
    network: real,
    controlPlane: real,
    storage: real,
    observability: real,
    operations: real)

  datatype GridRow = GridRow(
    view: View,
    volume: int,
    profile: string,
    tier: string,
    quality: QualityCase,
    replicas: int,
    managedTotal: real,
    privateTotal: real,
    components: Option<Components>,
    managedPerMillion: Option<real>,
    privatePerMillion: Option<real>,
    managedPerCorrect: Option<real>,
    privatePerCorrect: Option<real>,
    lower: Lower)

  // ----- one row -----

  function Clamp(rate: real): real {
    if rate < 0.0 then 0.0 else if rate > 1.0 then 1.0 else rate
  }

  /** The cases of one sensitivity point: the measured rates, or each path shifted and clamped. */
  function CasesFor(delta: int, managed: real, private: real): seq<QualityCase> {
    if delta == 0 then [QualityCase(Measured, 0, managed, private)]
    else
      var shift := delta as real / 100.0;
      [QualityCase(ManagedPath, delta, Clamp(managed + shift), private),
       QualityCase(PrivatePath, delta, managed, Clamp(private + shift))]
  }

  function QualityCases(points: seq<int>, managed: real, private: real): seq<QualityCase> {
    if points == [] then []
    else CasesFor(points[0], managed, private) + QualityCases(points[1..], managed, private)
  }

  function ManagedInference(volume: int, profile: TokenProfile, inputPrice: real, outputPrice: real): real {
    volume as real * (profile.inputTokens as real * inputPrice + profile.outputTokens as real * outputPrice) / 1000000.0
  }

  function ComponentsOf(config: GridConfig, view: View, tier: Tier): Option<Components> {
    if view == ViewA then None
    else
      var hours, shared := tier.replicaHours, config.shared;
      Some(Components(
        shared.gateway * hours, shared.network * hours, shared.controlPlane * hours, shared.storage * hours,
        shared.observability * hours,
        match view
        case ViewBLow => config.operationsLow
        case ViewBTypical => config.operationsTypical
        case _ => config.operationsHigh))
  }

  /** What view B adds to both paths; view A adds nothing. */
  function Addition(config: GridConfig, view: View, tier: Tier): real {
    match ComponentsOf(config, view, tier)
    case None => 0.0
    case Some(c) => c.gateway + c.network + c.controlPlane + c.storage + c.observability + c.operations
  }

  function PerMillion(total: real, tokens: nat): Option<real> {
    if tokens == 0 then None else Some(total * 1000000.0 / tokens as real)
  }

  function PerCorrect(total: real, correct: real): Option<real> {
    if correct == 0.0 then None else Some(total / correct)
  }

  function LowerCostPath(managedTotal: real, privateTotal: real, volume: int, managed: real, private: real): Lower {
    var managedCost := PerCorrect(managedTotal, volume as real * managed);
    var privateCost := PerCorrect(privateTotal, volume as real * private);
    if managedCost.None? || privateCost.None? then Indeterminate
    else if managedCost.value < privateCost.value then ManagedLower
    else if privateCost.value < managedCost.value then PrivateLower
    else EqualCost
  }

  datatype Prices = Prices(input: real, output: real)

  function PrivateCapacity(config: GridConfig, volume: Positive, tier: Tier): real {
    CeilDiv(volume, tier.requestsPerReplica) as real * tier.replicaHours * config.gpuHourly
  }

  function ManagedTotal(
    config: GridConfig, prices: Prices, volume: Positive, profile: TokenProfile, tier: Tier, view: View): real
  {
    ManagedInference(volume, profile, prices.input, prices.output) + Addition(config, view, tier)
  }

  function PrivateTotal(config: GridConfig, volume: Positive, tier: Tier, view: View): real {
    PrivateCapacity(config, volume, tier) + Addition(config, view, tier)
  }

  function RowFor(
    config: GridConfig, prices: Prices, volume: Positive, profile: TokenProfile, tier: Tier,
    quality: QualityCase, view: View): GridRow
  {
    var managedTotal := ManagedTotal(config, prices, volume, profile, tier, view);
    var privateTotal := PrivateTotal(config, volume, tier, view);
    var tokens := volume * (profile.inputTokens + profile.outputTokens);
    GridRow(view, volume, profile.name, tier.name, quality, CeilDiv(volume, tier.requestsPerReplica),
            managedTotal, privateTotal, ComponentsOf(config, view, tier),
            PerMillion(managedTotal, tokens), PerMillion(privateTotal, tokens),
            PerCorrect(managedTotal, volume as real * quality.managed),
            PerCorrect(privateTotal, volume as real * quality.private),
            LowerCostPath(managedTotal, privateTotal, volume, quality.managed, quality.private))
  }

  // ----- the grid -----

  /** The concatenation of f over s. */
  function FlatMap<S, T>(f: S -> seq<T>, s: seq<S>): seq<T> {
    if s == [] then [] else f(s[0]) + FlatMap(f, s[1..])
  }

  /** What every row of one grid shares. */
  datatype Setting = Setting(config: GridConfig, prices: Prices, cases: seq<QualityCase>)

  function ViewRow(setting: Setting, volume: Positive, profile: TokenProfile, tier: Tier, quality: QualityCase)
    : View -> seq<GridRow>
  {
    (view: View) => [RowFor(setting.config, setting.prices, volume, profile, tier, quality, view)]
  }

  function CaseRows(setting: Setting, volume: Positive, profile: TokenProfile, tier: Tier)
    : QualityCase -> seq<GridRow>
  {
    (quality: QualityCase) => FlatMap(ViewRow(setting, volume, profile, tier, quality), VIEWS)
  }

  function TierRows(setting: Setting, volume: Positive, profile: TokenProfile): Tier -> seq<GridRow> {
    (tier: Tier) => FlatMap(CaseRows(setting, volume, profile, tier), setting.cases)
  }

  function ProfileRows(setting: Setting, volume: Positive): TokenProfile -> seq<GridRow> {
    (profile: TokenProfile) => FlatMap(TierRows(setting, volume, profile), setting.config.tiers)
  }

  function VolumeRows(setting: Setting): Positive -> seq<GridRow> {
    (volume: Positive) => FlatMap(ProfileRows(setting, volume), setting.config.profiles)
  }

  function SettingFor(config: GridConfig, prices: Prices, managed: real, private: real): Setting {
    Setting(config, prices, QualityCases(config.qualityPoints, managed, private))
  }

  function Grid(config: GridConfig, prices: Prices, managed: real, private: real): seq<GridRow> {
    FlatMap(VolumeRows(SettingFor(config, prices, managed, private)), config.volumes)
  }

  lemma {:induction false} FlatMapSplits<S, T>(f: S -> seq<T>, a: seq<S>, b: seq<S>)
    ensures FlatMap(f, a + b) == FlatMap(f, a) + FlatMap(f, b)
  {
    if a == [] {
      assert a + b == b;
    } else {
      assert (a + b)[1..] == a[1..] + b;
      FlatMapSplits(f, a[1..], b);
    }
  }

  lemma FlatMapStep<S, T>(f: S -> seq<T>, s: seq<S>, i: nat)
    requires i < |s|
    ensures FlatMap(f, s[..i + 1]) == FlatMap(f, s[..i]) + f(s[i])
  {
    assert s[..i + 1] == s[..i] + [s[i]];
    FlatMapSplits(f, s[..i], [s[i]]);
    assert [s[i]][1..] == [];
  }

  method AppendCase(
    rows: seq<GridRow>, setting: Setting, volume: Positive, profile: TokenProfile, tier: Tier, quality: QualityCase)
    returns (more: seq<GridRow>)
    ensures more == rows + CaseRows(setting, volume, profile, tier)(quality)
  {
    more := rows;
    for j := 0 to |VIEWS|
      invariant more == rows + FlatMap(ViewRow(setting, volume, profile, tier, quality), VIEWS[..j])
    {
      ghost var rowOf := ViewRow(setting, volume, profile, tier, quality);
      FlatMapStep(rowOf, VIEWS, j);
      Assoc(rows, FlatMap(rowOf, VIEWS[..j]), rowOf(VIEWS[j]));
      more := more + [RowFor(setting.config, setting.prices, volume, profile, tier, quality, VIEWS[j])];
    }
    assert VIEWS[..|VIEWS|] == VIEWS;
  }

  method AppendTier(rows: seq<GridRow>, setting: Setting, volume: Positive, profile: TokenProfile, tier: Tier)
    returns (more: seq<GridRow>)
    ensures more == rows + TierRows(setting, volume, profile)(tier)
  {
    more := rows;
    var cases := setting.cases;
    for i := 0 to |cases|
      invariant more == rows + FlatMap(CaseRows(setting, volume, profile, tier), cases[..i])
    {
      ghost var rowsOf := CaseRows(setting, volume, profile, tier);
      FlatMapStep(rowsOf, cases, i);
      Assoc(rows, FlatMap(rowsOf, cases[..i]), rowsOf(cases[i]));
      more := AppendCase(more, setting, volume, profile, tier, cases[i]);
    }
    assert cases[..|cases|] == cases;
  }

  method AppendProfile(rows: seq<GridRow>, setting: Setting, volume: Positive, profile: TokenProfile)
    returns (more: seq<GridRow>)
    ensures more == rows + ProfileRows(setting, volume)(profile)
  {
    more := rows;
    var tiers := setting.config.tiers;
    for i := 0 to |tiers|
      invariant more == rows + FlatMap(TierRows(setting, volume, profile), tiers[..i])
    {
      ghost var rowsOf := TierRows(setting, volume, profile);
      FlatMapStep(rowsOf, tiers, i);
      Assoc(rows, FlatMap(rowsOf, tiers[..i]), rowsOf(tiers[i]));
      more := AppendTier(more, setting, volume, profile, tiers[i]);
    }
    assert tiers[..|tiers|] == tiers;
  }

  method AppendVolume(rows: seq<GridRow>, setting: Setting, volume: Positive) returns (more: seq<GridRow>)
    ensures more == rows + VolumeRows(setting)(volume)
  {
    more := rows;
    var profiles := setting.config.profiles;
    for i := 0 to |profiles|
      invariant more == rows + FlatMap(ProfileRows(setting, volume), profiles[..i])
    {
      ghost var rowsOf := ProfileRows(setting, volume);
      FlatMapStep(rowsOf, profiles, i);
      Assoc(rows, FlatMap(rowsOf, profiles[..i]), rowsOf(profiles[i]));
      more := AppendProfile(more, setting, volume, profiles[i]);
    }
    assert profiles[..|profiles|] == profiles;
  }

  method BuildCases(points: seq<int>, managed: real, private: real) returns (cases: seq<QualityCase>)
    ensures cases == QualityCases(points, managed, private)
  {
    cases := [];
    ghost var rest := QualityCases(points, managed, private);
    for i := 0 to |points|
      invariant rest == QualityCases(points[i..], managed, private)
      invariant cases + rest == QualityCases(points, managed, private)
    {
      var delta := points[i];
      assert points[i..][1..] == points[i + 1..];
      ghost var before := cases;
      rest := QualityCases(points[i + 1..], managed, private);
      if delta == 0 {
        cases := cases + [QualityCase(Measured, delta, managed, private)];
      } else {
        var shift := delta as real / 100.0;
        cases := cases + [QualityCase(ManagedPath, delta, Clamp(managed + shift), private),
                          QualityCase(PrivatePath, delta, managed, Clamp(private + shift))];
      }
      Assoc(before, CasesFor(delta, managed, private), rest);
    }
  }

  method BuildScenarioGrid(config: GridConfig, prices: Prices, managed: real, private: real)
    returns (rows: seq<GridRow>)
    ensures rows == Grid(config, prices, managed, private)
  {
    var cases := BuildCases(config.qualityPoints, managed, private);
    var setting := Setting(config, prices, cases);
    rows := [];
    for i := 0 to |config.volumes|
      invariant rows == FlatMap(VolumeRows(setting), config.volumes[..i])
    {
      FlatMapStep(VolumeRows(setting), config.volumes, i);
      rows := AppendVolume(rows, setting, config.volumes[i]);
    }
    assert config.volumes[..|config.volumes|] == config.volumes;
  }

  // ----- size and membership -----

  lemma {:induction false} FlatMapSize<S, T>(f: S -> seq<T>, s: seq<S>, n: nat)
    requires forall i | 0 <= i < |s| :: |f(s[i])| == n
    ensures |FlatMap(f, s)| == |s| * n
  {
    if s != [] {
      FlatMapSize(f, s[1..], n);
      assert |s| * n == n + (|s| - 1) * n;
    }
  }

  /** A row for every volume, profile, tier and quality case under each of the four views. */
  lemma GridSize(config: GridConfig, prices: Prices, managed: real, private: real)
    ensures |Grid(config, prices, managed, private)|
            == |config.volumes|
               * (|config.profiles|
                  * (|config.tiers| * (|QualityCases(config.qualityPoints, managed, private)| * 4)))
  {
    var setting := SettingFor(config, prices, managed, private);
    forall i | 0 <= i < |config.volumes|
      ensures |VolumeRows(setting)(config.volumes[i])|
              == |config.profiles| * (|config.tiers| * (|setting.cases| * 4))
    {
      VolumeSize(setting, config.volumes[i]);
    }
    FlatMapSize(VolumeRows(setting), config.volumes, |config.profiles| * (|config.tiers| * (|setting.cases| * 4)));
  }

  lemma VolumeSize(setting: Setting, volume: Positive)
    ensures |VolumeRows(setting)(volume)|
            == |setting.config.profiles| * (|setting.config.tiers| * (|setting.cases| * 4))
  {
    var profiles, tiers := setting.config.profiles, setting.config.tiers;
    forall i | 0 <= i < |profiles|
      ensures |ProfileRows(setting, volume)(profiles[i])| == |tiers| * (|setting.cases| * 4)
    {
      forall j | 0 <= j < |tiers| ensures |TierRows(setting, volume, profiles[i])(tiers[j])| == |setting.cases| * 4 {
        TierSize(setting, volume, profiles[i], tiers[j]);
      }
      FlatMapSize(TierRows(setting, volume, profiles[i]), tiers, |setting.cases| * 4);
    }
    FlatMapSize(ProfileRows(setting, volume), profiles, |tiers| * (|setting.cases| * 4));
  }

  lemma TierSize(setting: Setting, volume: Positive, profile: TokenProfile, tier: Tier)
    ensures |TierRows(setting, volume, profile)(tier)| == |setting.cases| * 4
  {
    var cases := setting.cases;
    forall i | 0 <= i < |cases| ensures |CaseRows(setting, volume, profile, tier)(cases[i])| == 4 {
      FlatMapSize(ViewRow(setting, volume, profile, tier, cases[i]), VIEWS, 1);
    }
    FlatMapSize(CaseRows(setting, volume, profile, tier), cases, 4);
  }

  function NonZero(points: seq<int>): nat {
    if points == [] then 0 else (if points[0] != 0 then 1 else 0) + NonZero(points[1..])
  }

  /** One case for each measured point and two for every other. */
  lemma {:induction false} CaseCount(points: seq<int>, managed: real, private: real)
    ensures |QualityCases(points, managed, private)| == |points| + NonZero(points)
  {
    if points != [] {
      CaseCount(points[1..], managed, private);
    }
  }

  // ----- view B never moves the crossover -----

  lemma QuotientOrder(x: real, y: real, c: real)
    requires c > 0.0
    ensures x / c < y / c <==> x < y
  {
    var p, q := x / c, y / c;
    assert p * c == x && q * c == y;
    assert (q - p) * c == y - x;
  }

  /** Adding the same amount to both totals leaves the cheaper path where it was. */
  lemma SameAdditionSameOrder(managedTotal: real, privateTotal: real, addition: real, volume: Positive, rate: real)
    requires rate >= 0.0
    ensures LowerCostPath(managedTotal + addition, privateTotal + addition, volume, rate, rate)
            == LowerCostPath(managedTotal, privateTotal, volume, rate, rate)
  {
    var correct := volume as real * rate;
    if correct != 0.0 {
      assert correct > 0.0;
      QuotientOrder(managedTotal + addition, privateTotal + addition, correct);
      QuotientOrder(privateTotal + addition, managedTotal + addition, correct);
      QuotientOrder(managedTotal, privateTotal, correct);
      QuotientOrder(privateTotal, managedTotal, correct);
    }
  }

  /**
   * With equal quality rates every view B sensitivity names the same cheaper path as view A, for
   * every volume, profile and tier: the shared platform cost never moves the crossover.
   */
  lemma ViewBNeverMovesCrossover(
    config: GridConfig, prices: Prices, volume: Positive, profile: TokenProfile, tier: Tier,
    quality: QualityCase, view: View)
    requires quality.managed == quality.private >= 0.0
    ensures RowFor(config, prices, volume, profile, tier, quality, view).lower
            == RowFor(config, prices, volume, profile, tier, quality, ViewA).lower
  {
    var managedTotal := ManagedInference(volume, profile, prices.input, prices.output);
    var privateTotal := PrivateCapacity(config, volume, tier);
    SameAdditionSameOrder(managedTotal, privateTotal, Addition(config, view, tier), volume, quality.managed);
    SameAdditionSameOrder(managedTotal, privateTotal, Addition(config, ViewA, tier), volume, quality.managed);
  }

  lemma {:induction false} FlatMapHolds<S, T>(f: S -> seq<T>, s: seq<S>, x: S, y: T)
    requires x in s && y in f(x)
    ensures y in FlatMap(f, s)
  {
    if !(x == s[0]) {
      FlatMapHolds(f, s[1..], x, y);
    }
  }

  lemma {:induction false} FlatMapOrigin<S, T>(f: S -> seq<T>, s: seq<S>, y: T) returns (x: S)
    requires y in FlatMap(f, s)
    ensures x in s && y in f(x)
  {
    if y in f(s[0]) {
      x := s[0];
    } else {
      x := FlatMapOrigin(f, s[1..], y);
    }
  }

  /** Every combination has its row in the grid. */
  lemma GridHoldsEveryRow(
    config: GridConfig, prices: Prices, managed: real, private: real,
    volume: Positive, profile: TokenProfile, tier: Tier, quality: QualityCase, view: View)
    requires volume in config.volumes && profile in config.profiles && tier in config.tiers
    requires quality in QualityCases(config.qualityPoints, managed, private)
    ensures RowFor(config, prices, volume, profile, tier, quality, view) in Grid(config, prices, managed, private)
  {
    var setting := SettingFor(config, prices, managed, private);
    var row := RowFor(config, prices, volume, profile, tier, quality, view);
    assert view in VIEWS by {
      assert VIEWS[0] == ViewA && VIEWS[1] == ViewBLow && VIEWS[2] == ViewBTypical && VIEWS[3] == ViewBHigh;
    }
    FlatMapHolds(ViewRow(setting, volume, profile, tier, quality), VIEWS, view, row);
    FlatMapHolds(CaseRows(setting, volume, profile, tier), setting.cases, quality, row);
    FlatMapHolds(TierRows(setting, volume, profile), config.tiers, tier, row);
    FlatMapHolds(ProfileRows(setting, volume), config.profiles, profile, row);
    FlatMapHolds(VolumeRows(setting), config.volumes, volume, row);
  }

  /** Every row of the grid is the row of one of its combinations. */
  lemma GridRowOrigin(config: GridConfig, prices: Prices, managed: real, private: real, row: GridRow)
    returns (volume: Positive, profile: TokenProfile, tier: Tier)
    requires row in Grid(config, prices, managed, private)
    ensures volume in config.volumes && profile in config.profiles && tier in config.tiers
    ensures row.quality in QualityCases(config.qualityPoints, managed, private)
    ensures row == RowFor(config, prices, volume, profile, tier, row.quality, row.view)
  {
    var setting := SettingFor(config, prices, managed, private);
    volume := FlatMapOrigin(VolumeRows(setting), config.volumes, row);
    profile := FlatMapOrigin(ProfileRows(setting, volume), config.profiles, row);
    tier := FlatMapOrigin(TierRows(setting, volume, profile), config.tiers, row);
    var quality := FlatMapOrigin(CaseRows(setting, volume, profile, tier), setting.cases, row);
    var view := FlatMapOrigin(ViewRow(setting, volume, profile, tier, quality), VIEWS, row);
  }

  // ----- what a row's figures mean -----

  /** The figure is the total's share of this many parts: none exactly when there are no parts. */
  ghost predicate IsShareOf(figure: Option<real>, total: real, parts: real) {
    && (figure.Some? <==> parts != 0.0)
    && (figure.Some? ==> figure.value * parts == total)
  }

  /** What the row's components add to both of its totals. */
  function AddedBy(components: Option<Components>): real {
    match components
    case None => 0.0
    case Some(Components(gateway, network, controlPlane, storage, observability, operations)) =>
      gateway + network + controlPlane + storage + observability + operations
  }

  /** View A has no components; view B has the platform at its hourly rates and its own monthly operations. */
  ghost predicate ComponentsFit(config: GridConfig, tier: Tier, view: View, components: Option<Components>) {
    && (components.None? <==> view == ViewA)
    && (components.Some? ==>
          && components.value.gateway == config.shared.gateway * tier.replicaHours
          && components.value.network == config.shared.network * tier.replicaHours
          && components.value.controlPlane == config.shared.controlPlane * tier.replicaHours
          && components.value.storage == config.shared.storage * tier.replicaHours
          && components.value.observability == config.shared.observability * tier.replicaHours
          && (view == ViewBLow ==> components.value.operations == config.operationsLow)
          && (view == ViewBTypical ==> components.value.operations == config.operationsTypical)
          && (view == ViewBHigh ==> components.value.operations == config.operationsHigh))
  }

  /** A million times the managed tokens' cost: each kind of token at its own price per million. */
  function TokenMoney(prices: Prices, volume: Positive, profile: TokenProfile): real {
    (volume * profile.inputTokens) as real * prices.input + (volume * profile.outputTokens) as real * prices.output
  }

  /**
   * The row's totals add up: the managed total without the additions is the tokens' money, and the
   * private total without them is the least sufficient replicas for their hours at the hourly rate.
   */
  ghost predicate AddsUp(
    config: GridConfig, prices: Prices, volume: Positive, profile: TokenProfile, tier: Tier, row: GridRow)
  {
    var added := AddedBy(row.components);
    && row.volume == volume && row.profile == profile.name && row.tier == tier.name
    && ComponentsFit(config, tier, row.view, row.components)
    && (row.managedTotal - added) * 1000000.0 == TokenMoney(prices, volume, profile)
    && row.privateTotal - added == row.replicas as real * tier.replicaHours * config.gpuHourly
    && (forall n: int :: n * tier.requestsPerReplica >= volume <==> n >= row.replicas)
  }

  /** The row's totals are shared out over all its tokens and over the correct tasks of each path. */
  ghost predicate SharesOut(volume: Positive, profile: TokenProfile, row: GridRow) {
    var tokens := volume * profile.inputTokens + volume * profile.outputTokens;
    && IsShareOf(row.managedPerMillion, row.managedTotal * 1000000.0, tokens as real)
    && IsShareOf(row.privatePerMillion, row.privateTotal * 1000000.0, tokens as real)
    && IsShareOf(row.managedPerCorrect, row.managedTotal, volume as real * row.quality.managed)
    && IsShareOf(row.privatePerCorrect, row.privateTotal, volume as real * row.quality.private)
  }

  lemma TokensAtTheirPrices(volume: Positive, profile: TokenProfile, prices: Prices)
    ensures ManagedInference(volume, profile, prices.input, prices.output) * 1000000.0
            == TokenMoney(prices, volume, profile)
  {
    var v, i, o := volume as real, profile.inputTokens as real, profile.outputTokens as real;
    assert (volume * profile.inputTokens) as real == v * i && (volume * profile.outputTokens) as real == v * o;
    assert v * (i * prices.input + o * prices.output) == v * i * prices.input + v * o * prices.output;
  }

  lemma SharesAreShares(total: real, tokens: nat, correct: real)
    ensures IsShareOf(PerMillion(total, tokens), total * 1000000.0, tokens as real)
    ensures IsShareOf(PerCorrect(total, correct), total, correct)
  {
  }

  lemma RowAddsUp(
    config: GridConfig, prices: Prices, volume: Positive, profile: TokenProfile, tier: Tier,
    quality: QualityCase, view: View)
    ensures AddsUp(config, prices, volume, profile, tier,
                   RowFor(config, prices, volume, profile, tier, quality, view))
  {
    TokensAtTheirPrices(volume, profile, prices);
    var row := RowFor(config, prices, volume, profile, tier, quality, view);
    assert row.managedTotal - AddedBy(row.components)
           == ManagedInference(volume, profile, prices.input, prices.output);
    forall n: int ensures n * tier.requestsPerReplica >= volume <==> n >= row.replicas {
      RequiredReplicasIsLeastSufficient(volume, tier.requestsPerReplica, n);
    }
  }

  lemma RowSharesOut(
    config: GridConfig, prices: Prices, volume: Positive, profile: TokenProfile, tier: Tier,
    quality: QualityCase, view: View)
    ensures SharesOut(volume, profile, RowFor(config, prices, volume, profile, tier, quality, view))
  {
    var managedTotal := ManagedTotal(config, prices, volume, profile, tier, view);
    var privateTotal := PrivateTotal(config, volume, tier, view);
    var tokens := volume * (profile.inputTokens + profile.outputTokens);
    assert tokens == volume * profile.inputTokens + volume * profile.outputTokens;
    SharesAreShares(managedTotal, tokens, volume as real * quality.managed);
    SharesAreShares(privateTotal, tokens, volume as real * quality.private);
  }

  /** Every row of the grid adds up and shares out for some volume, profile and tier of the configuration. */
  lemma GridRowsAddUp(config: GridConfig, prices: Prices, managed: real, private: real, row: GridRow)
    returns (volume: Positive, profile: TokenProfile, tier: Tier)
    requires row in Grid(config, prices, managed, private)
    ensures volume in config.volumes && profile in config.profiles && tier in config.tiers
    ensures AddsUp(config, prices, volume, profile, tier, row) && SharesOut(volume, profile, row)
  {
    volume, profile, tier := GridRowOrigin(config, prices, managed, private, row);
    RowAddsUp(config, prices, volume, profile, tier, row.quality, row.view);
    RowSharesOut(config, prices, volume, profile, tier, row.quality, row.view);
  }

  /**
   * With rates that are not negative, a row favours the path whose total is smaller when each is
   * weighed with the other path's rate, and neither when one of the rates is nothing.
   */
  lemma LowerByCrossProducts(
    managedTotal: real, privateTotal: real, volume: Positive, managed: real, private: real)
    requires managed >= 0.0 && private >= 0.0
    ensures var lower := LowerCostPath(managedTotal, privateTotal, volume, managed, private);
            && (lower == Indeterminate <==> managed == 0.0 || private == 0.0)
            && (managed > 0.0 && private > 0.0 ==>
                  && (lower == ManagedLower <==> managedTotal * private < privateTotal * managed)
                  && (lower == PrivateLower <==> privateTotal * managed < managedTotal * private))
  {
    var v := volume as real;
    if managed > 0.0 && private > 0.0 {
      assert v * managed > 0.0 && v * private > 0.0;
      CrossProducts(managedTotal, privateTotal, v, managed, private);
      CrossProducts(privateTotal, managedTotal, v, private, managed);
    }
  }

  lemma CrossProducts(a: real, b: real, v: real, m: real, p: real)
    requires v > 0.0 && m > 0.0 && p > 0.0
    ensures v * m > 0.0 && v * p > 0.0
    ensures a / (v * m) < b / (v * p) <==> a * p < b * m
  {
    assert v * m > 0.0 && v * p > 0.0;
    var x, y, k := a / (v * m), b / (v * p), v * m * p;
    assert x * (v * m) == a && y * (v * p) == b;
    assert a * p == x * k && b * m == y * k;
    assert k > 0.0 by { assert (v * m) * p > 0.0; }
    assert (y - x) * k == y * k - x * k;
    SameSign(y - x, k);
  }

  lemma SameSign(x: real, k: real)
    requires k > 0.0
    ensures x > 0.0 <==> x * k > 0.0
  {
    if x <= 0.0 {
      NonNegativeProduct(-x, k);
    }
  }

  /** A case shifts one path's rate by its points in a hundred, held within 0 and 1, and leaves the other alone. */
  lemma CasesShiftByTheirPoints(points: seq<int>, managed: real, private: real, quality: QualityCase)
    requires quality in QualityCases(points, managed, private)
    ensures quality.path == Measured <==> quality.delta == 0
    ensures quality.path != ManagedPath ==> quality.managed == managed
    ensures quality.path != PrivatePath ==> quality.private == private
    ensures quality.path == ManagedPath ==> IsShifted(quality.managed, managed, quality.delta)
    ensures quality.path == PrivatePath ==> IsShifted(quality.private, private, quality.delta)
  {
    CasesShiftOnePath(points, managed, private, quality);
  }

  ghost predicate IsShifted(rate: real, base: real, points: int) {
    var exact := (base * 100.0 + points as real) / 100.0;
    && 0.0 <= rate <= 1.0
    && (0.0 <= exact <= 1.0 ==> rate == exact)
    && (exact < 0.0 ==> rate == 0.0)
    && (exact > 1.0 ==> rate == 1.0)
  }

  ghost predicate SameCell(a: GridRow, b: GridRow) {
    a.volume == b.volume && a.profile == b.profile && a.tier == b.tier && a.quality == b.quality
  }

  /** When both base rates are the same, each measured row of the grid agrees with a view A row of its cell. */
  lemma MeasuredRowsAgreeWithViewA(config: GridConfig, prices: Prices, rate: real, row: GridRow)
    requires rate >= 0.0
    requires row in Grid(config, prices, rate, rate) && row.quality.path == Measured
    ensures exists other <- Grid(config, prices, rate, rate) ::
              other.view == ViewA && SameCell(other, row) && other.lower == row.lower
  {
    var volume, profile, tier := GridRowOrigin(config, prices, rate, rate, row);
    CasesShiftOnePath(config.qualityPoints, rate, rate, row.quality);
    ViewBNeverMovesCrossover(config, prices, volume, profile, tier, row.quality, row.view);
    GridHoldsEveryRow(config, prices, rate, rate, volume, profile, tier, row.quality, ViewA);
    var other := RowFor(config, prices, volume, profile, tier, row.quality, ViewA);
    assert SameCell(other, row) && other.view == ViewA;
  }

  // ----- quality sensitivity is monotone -----

  lemma ClampIsMonotone(x: real, y: real)
    requires x <= y
    ensures Clamp(x) <= Clamp(y)
  {
  }

  lemma {:induction false} CasesShiftOnePath(points: seq<int>, managed: real, private: real, quality: QualityCase)
    requires quality in QualityCases(points, managed, private)
    ensures quality in CasesFor(quality.delta, managed, private)
  {
    if points != [] && quality !in CasesFor(points[0], managed, private) {
      CasesShiftOnePath(points[1..], managed, private, quality);
    }
  }

  lemma ScaleCancels(p: real, q: real, c: real)
    requires c > 0.0 && q * c <= p * c
    ensures q <= p
  {
    assert (p - q) * c >= 0.0;
  }

  /** A better rate lowers the cost per correct task. */
  lemma BetterRateCostsLess(total: real, volume: Positive, low: real, high: real)
    requires total >= 0.0 && 0.0 < low <= high
    ensures volume as real * low > 0.0 && volume as real * high > 0.0
    ensures total / (volume as real * high) <= total / (volume as real * low)
  {
    var a, b := volume as real * low, volume as real * high;
    assert b - a == volume as real * (high - low);
    var p, q := total / a, total / b;
    assert p * a == total && q * b == total;
    assert p * (b - a) >= 0.0;
    ScaleCancels(p, q, b);
  }

  lemma ManagedStaysLower(
    managedTotal: real, privateTotal: real, volume: Positive, low: real, high: real, private: real)
    requires privateTotal >= 0.0 && private >= 0.0 && 0.0 <= low <= high
    requires LowerCostPath(managedTotal, privateTotal, volume, low, private) == ManagedLower
    ensures LowerCostPath(managedTotal, privateTotal, volume, high, private) == ManagedLower
  {
    RateIsPositive(volume, low);
    if managedTotal >= 0.0 {
      BetterRateCostsLess(managedTotal, volume, low, high);
    } else {
      RateIsPositive(volume, private);
      NegativeIsLower(managedTotal, privateTotal, volume as real * high, volume as real * private);
    }
  }

  /** A negative total costs less per correct task than one that is not, whatever is correct. */
  lemma NegativeIsLower(negative: real, other: real, x: real, y: real)
    requires negative < 0.0 <= other && x > 0.0 && y > 0.0
    ensures negative / x < other / y
  {
    var p, q := negative / x, other / y;
    assert p * x == negative && q * y == other;
    if p >= 0.0 {
      NonNegativeProduct(p, x);
    }
    if q < 0.0 {
      NonNegativeProduct(-q, y);
    }
  }

  lemma PrivateStaysLower(
    managedTotal: real, privateTotal: real, volume: Positive, managed: real, low: real, high: real)
    requires privateTotal >= 0.0 && 0.0 <= low <= high
    requires LowerCostPath(managedTotal, privateTotal, volume, managed, low) == PrivateLower
    ensures LowerCostPath(managedTotal, privateTotal, volume, managed, high) == PrivateLower
  {
    RateIsPositive(volume, low);
    BetterRateCostsLess(privateTotal, volume, low, high);
  }

  ghost predicate IsRate(rate: real) { 0.0 <= rate <= 1.0 }

  /** The managed path, favoured by both cases, wins still if it won; likewise the private path. */
  predicate WinnersStay(lower: QualityCase, higher: QualityCase, before: Lower, after: Lower) {
    && (lower.path != PrivatePath && higher.path != PrivatePath && before == ManagedLower ==> after == ManagedLower)
    && (lower.path != ManagedPath && higher.path != ManagedPath && before == PrivateLower ==> after == PrivateLower)
  }

  /** What the cost schema demands: no rate or duration is negative. Prices are anything. */
  ghost predicate NonNegativeRates(config: GridConfig) {
    && config.gpuHourly >= 0.0
    && config.shared.gateway >= 0.0 && config.shared.network >= 0.0 && config.shared.controlPlane >= 0.0
    && config.shared.storage >= 0.0 && config.shared.observability >= 0.0
    && config.operationsLow >= 0.0 && config.operationsTypical >= 0.0 && config.operationsHigh >= 0.0
    && forall i | 0 <= i < |config.tiers| :: config.tiers[i].replicaHours >= 0.0
  }

  /** Profiles and tiers are keyed by name. */
  ghost predicate KeyedByName(config: GridConfig) {
    && (forall i, j | 0 <= i < j < |config.profiles| :: config.profiles[i].name != config.profiles[j].name)
    && (forall i, j | 0 <= i < j < |config.tiers| :: config.tiers[i].name != config.tiers[j].name)
  }

  lemma AdditionIsNonNegative(config: GridConfig, view: View, tier: Tier)
    requires NonNegativeRates(config) && tier.replicaHours >= 0.0
    ensures Addition(config, view, tier) >= 0.0
  {
    NonNegativeProduct(tier.replicaHours, config.shared.gateway);
    NonNegativeProduct(tier.replicaHours, config.shared.network);
    NonNegativeProduct(tier.replicaHours, config.shared.controlPlane);
    NonNegativeProduct(tier.replicaHours, config.shared.storage);
    NonNegativeProduct(tier.replicaHours, config.shared.observability);
  }

  lemma PrivateTotalIsNonNegative(config: GridConfig, volume: Positive, tier: Tier, view: View)
    requires NonNegativeRates(config) && tier in config.tiers
    ensures PrivateTotal(config, volume, tier, view) >= 0.0
  {
    RequiredReplicasIsLeastSufficient(volume, tier.requestsPerReplica, 0);
    var replicas := CeilDiv(volume, tier.requestsPerReplica) as real;
    NonNegativeProduct(replicas, tier.replicaHours);
    NonNegativeProduct(replicas * tier.replicaHours, config.gpuHourly);
    AdditionIsNonNegative(config, view, tier);
  }

  /** Two rows of a grid for one volume, profile, tier and view come from the same inputs and share their totals. */
  lemma RowsShareTotals(
    config: GridConfig, prices: Prices, managed: real, private: real, a: GridRow, b: GridRow)
    requires NonNegativeRates(config) && KeyedByName(config)
    requires a in Grid(config, prices, managed, private) && b in Grid(config, prices, managed, private)
    requires SameSetting(a, b)
    ensures a.managedTotal == b.managedTotal && a.privateTotal == b.privateTotal >= 0.0
    ensures a.volume > 0
    ensures a.lower == LowerCostPath(a.managedTotal, a.privateTotal, a.volume, a.quality.managed, a.quality.private)
    ensures b.lower == LowerCostPath(b.managedTotal, b.privateTotal, b.volume, b.quality.managed, b.quality.private)
    ensures a.quality in QualityCases(config.qualityPoints, managed, private)
    ensures b.quality in QualityCases(config.qualityPoints, managed, private)
  {
    var volume, profile, tier := GridRowOrigin(config, prices, managed, private, a);
    var volume', profile', tier' := GridRowOrigin(config, prices, managed, private, b);
    SameNameSameProfile(config.profiles, profile, profile');
    SameNameSameTier(config.tiers, tier, tier');
    PrivateTotalIsNonNegative(config, volume, tier, a.view);
  }

  lemma SameNameSameProfile(profiles: seq<TokenProfile>, p: TokenProfile, q: TokenProfile)
    requires forall i, j | 0 <= i < j < |profiles| :: profiles[i].name != profiles[j].name
    requires p in profiles && q in profiles && p.name == q.name
    ensures p == q
  {
  }

  lemma SameNameSameTier(tiers: seq<Tier>, p: Tier, q: Tier)
    requires forall i, j | 0 <= i < j < |tiers| :: tiers[i].name != tiers[j].name
    requires p in tiers && q in tiers && p.name == q.name
    ensures p == q
  {
  }

  /** Rows that differ at most in their quality case. */
  ghost predicate SameSetting(a: GridRow, b: GridRow) {
    a.volume == b.volume && a.profile == b.profile && a.tier == b.tier && a.view == b.view
  }

  /**
   * Of two rows that differ in their quality case alone, the one with the larger sensitivity point
   * is still won by the path that is favoured and won the other: for all prices, clamping to [0, 1]
   * included.
   */
  lemma SensitivityIsMonotone(
    config: GridConfig, prices: Prices, managed: real, private: real, before: GridRow, after: GridRow)
    requires IsRate(managed) && IsRate(private)
    requires NonNegativeRates(config) && KeyedByName(config)
    requires before in Grid(config, prices, managed, private) && after in Grid(config, prices, managed, private)
    requires SameSetting(before, after) && before.quality.delta <= after.quality.delta
    ensures WinnersStay(before.quality, after.quality, before.lower, after.lower)
  {
    RowsShareTotals(config, prices, managed, private, before, after);
    CasesShiftOnePath(config.qualityPoints, managed, private, before.quality);
    CasesShiftOnePath(config.qualityPoints, managed, private, after.quality);
    SensitivityOnTotals(
      before.managedTotal, before.privateTotal, before.volume, managed, private, before.quality, after.quality);
  }

  lemma SensitivityOnTotals(
    managedTotal: real, privateTotal: real, volume: Positive, managed: real, private: real,
    lower: QualityCase, higher: QualityCase)
    requires privateTotal >= 0.0 && IsRate(managed) && IsRate(private)
    requires lower in CasesFor(lower.delta, managed, private) && higher in CasesFor(higher.delta, managed, private)
    requires lower.delta <= higher.delta
    ensures var before := LowerCostPath(managedTotal, privateTotal, volume, lower.managed, lower.private);
            var after := LowerCostPath(managedTotal, privateTotal, volume, higher.managed, higher.private);
            WinnersStay(lower, higher, before, after)
  {
    RatesFollowDeltas(managed, private, lower, higher);
    if lower.path != PrivatePath && higher.path != PrivatePath
       && LowerCostPath(managedTotal, privateTotal, volume, lower.managed, private) == ManagedLower {
      ManagedStaysLower(managedTotal, privateTotal, volume, lower.managed, higher.managed, private);
    }
    if lower.path != ManagedPath && higher.path != ManagedPath
       && LowerCostPath(managedTotal, privateTotal, volume, managed, lower.private) == PrivateLower {
      PrivateStaysLower(managedTotal, privateTotal, volume, managed, lower.private, higher.private);
    }
  }

  /** A larger sensitivity point gives its path a rate at least as high and leaves the other alone. */
  lemma RatesFollowDeltas(managed: real, private: real, lower: QualityCase, higher: QualityCase)
    requires IsRate(managed) && IsRate(private) && lower.delta <= higher.delta
    requires lower in CasesFor(lower.delta, managed, private) && higher in CasesFor(higher.delta, managed, private)
    ensures lower.path != PrivatePath && higher.path != PrivatePath ==>
              lower.private == higher.private == private && 0.0 <= lower.managed <= higher.managed
    ensures lower.path != ManagedPath && higher.path != ManagedPath ==>
              lower.managed == higher.managed == managed && 0.0 <= lower.private <= higher.private
  {
    ClampIsMonotone(managed + lower.delta as real / 100.0, managed + higher.delta as real / 100.0);
    ClampIsMonotone(private + lower.delta as real / 100.0, private + higher.delta as real / 100.0);
  }

  lemma RateIsPositive(volume: Positive, rate: real)
    requires rate >= 0.0 && volume as real * rate != 0.0
    ensures rate > 0.0
  {
  }
}
