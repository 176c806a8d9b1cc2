/** First-match policy routing and the load-time checks on routing rules. */
module Policy {
  import opened Domain

  datatype RoutingProvider = RoutingProvider(external: bool, provider: Option<string>)

  datatype RuleMatch = RuleMatch(
    dataClass: Option<seq<DataClass>>,
    workload: Option<seq<string>>,
    qualityTier: Option<seq<QualityTier>>)

  datatype RoutingRule = RoutingRule(name: string, when: RuleMatch, route: seq<string>)

  datatype FallbackConfig = FallbackConfig(
    on: seq<ErrorClass>,
    maxAttempts: nat,
    neverCrossDataPolicy: bool)

  datatype TimeoutConfig = TimeoutConfig(
    responseHeader: Duration,
    streamIdle: Duration,
    perAttempt: Duration,
    globalDeadline: Duration)

  datatype RoutingPolicy = RoutingPolicy(
    providers: map<string, RoutingProvider>,
    rules: seq<RoutingRule>,
    fallback: FallbackConfig,
    timeouts: TimeoutConfig)

  datatype RouteDecision = RouteDecision(ruleName: string, primary: string, fallbacks: seq<string>) {
    function Providers(): seq<string> { [primary] + fallbacks }
  }

  datatype Denial = NoPermittedProvider(rule: string) | NoMatchingRule

  /** A request as the router sees it. */
  datatype Request = Request(dataClass: DataClass, workload: string, qualityTier: QualityTier)

  predicate Known(policy: RoutingPolicy, names: seq<string>) {
    forall name <- names :: name in policy.providers
  }

  ghost predicate RoutesKnown(policy: RoutingPolicy) {
    forall rule <- policy.rules :: Known(policy, rule.route)
  }

  predicate Matches(rule: RoutingRule, request: Request) {
    && (rule.when.dataClass.Some? ==> request.dataClass in rule.when.dataClass.value)
    && (rule.when.workload.Some? ==> request.workload in rule.when.workload.value)
    && (rule.when.qualityTier.Some? ==> request.qualityTier in rule.when.qualityTier.value)
  }

  /** The names on a route whose routing entry is not external, in order. */
  function Internals(policy: RoutingPolicy, names: seq<string>): (kept: seq<string>)
    requires Known(policy, names)
    ensures forall name :: name in kept <==> name in names && !policy.providers[name].external
    ensures |kept| <= |names|
    ensures (forall name <- names :: !policy.providers[name].external) ==> kept == names
  {
    if names == [] then []
    else
      var rest := Internals(policy, names[1..]);
      if policy.providers[names[0]].external then rest else [names[0]] + rest
  }

  /** Filtering goes name by name and keeps their order. */
  lemma {:induction false} InternalsConcat(policy: RoutingPolicy, a: seq<string>, b: seq<string>)
    requires Known(policy, a) && Known(policy, b)
    ensures Known(policy, a + b)
    ensures Internals(policy, a + b) == Internals(policy, a) + Internals(policy, b)
  {
    if a == [] {
      assert a + b == b;
    } else {
      assert (a + b)[1..] == a[1..] + b;
      InternalsConcat(policy, a[1..], b);
    }
  }

  /** Looking names up one by one: those that are not external, or the first that is not configured. */
  function LookUpInternals(policy: RoutingPolicy, names: seq<string>): (found: Result<seq<string>, string>)
    ensures found.Ok? <==> Known(policy, names)
    ensures found.Ok? ==> found.value == Internals(policy, names)
    ensures found.Err? ==>
              exists k | 0 <= k < |names| ::
                found.error == names[k] && names[k] !in policy.providers && Known(policy, names[..k])
  {
    if names == [] then Ok([])
    else if names[0] !in policy.providers then
      assert names[..0] == [];
      Err(names[0])
    else
      assert names == [names[0]] + names[1..];
      var rest := LookUpInternals(policy, names[1..]);
      if rest.Err? then
        assert exists k | 0 <= k < |names| ::
            rest.error == names[k] && names[k] !in policy.providers && Known(policy, names[..k]) by {
          var k :| 0 <= k < |names[1..]| && rest.error == names[1..][k] && Known(policy, names[1..][..k]);
          assert names[..k + 1] == [names[0]] + names[1..][..k] && names[k + 1] == rest.error;
        }
        rest
      else if policy.providers[names[0]].external then rest
      else Ok([names[0]] + rest.value)
  }

  function RouteOf(policy: RoutingPolicy, rule: RoutingRule, dataClass: DataClass): seq<string>
    requires Known(policy, rule.route)
  {
    if dataClass == Restricted then Internals(policy, rule.route) else rule.route
  }

  function SelectAmong(policy: RoutingPolicy, rules: seq<RoutingRule>, request: Request)
    : Result<RouteDecision, Denial>
    requires forall rule <- rules :: Known(policy, rule.route)
  {
    if rules == [] then Err(NoMatchingRule)
    else if !Matches(rules[0], request) then SelectAmong(policy, rules[1..], request)
    else
      var route := RouteOf(policy, rules[0], request.dataClass);
      if route == [] then Err(NoPermittedProvider(rules[0].name))
      else Ok(RouteDecision(rules[0].name, route[0], route[1..]))
  }

  function SelectRoute(policy: RoutingPolicy, request: Request): Result<RouteDecision, Denial>
    requires RoutesKnown(policy)
  {
    SelectAmong(policy, policy.rules, request)
  }

  // ----- what the router decides -----

  /** Rule k is the one that decides: it matches and nothing before it does. */
  ghost predicate Decides(rules: seq<RoutingRule>, request: Request, k: nat) {
    && k < |rules|
    && Matches(rules[k], request)
    && forall j | 0 <= j < k :: !Matches(rules[j], request)
  }

  /** A missing condition lets everything through, any other what it lists. */
  predicate Lists<T(==)>(condition: Option<seq<T>>, value: T) {
    match condition
    case None => true
    case Some(values) => value in values
  }

  /** The rule that decides is the first whose three conditions all let the request through. */
  lemma DecidesByItsConditions(rules: seq<RoutingRule>, request: Request, k: nat)
    ensures Decides(rules, request, k)
            <==> && k < |rules|
                 && Lists(rules[k].when.dataClass, request.dataClass)
                 && Lists(rules[k].when.workload, request.workload)
                 && Lists(rules[k].when.qualityTier, request.qualityTier)
                 && forall j | 0 <= j < k ::
                      || !Lists(rules[j].when.dataClass, request.dataClass)
                      || !Lists(rules[j].when.workload, request.workload)
                      || !Lists(rules[j].when.qualityTier, request.qualityTier)
  {
    forall rule: RoutingRule
      ensures Matches(rule, request)
              <==> && Lists(rule.when.dataClass, request.dataClass)
                   && Lists(rule.when.workload, request.workload)
                   && Lists(rule.when.qualityTier, request.qualityTier)
    {
    }
  }

  lemma {:induction false} SelectAmongDecides(
    policy: RoutingPolicy, rules: seq<RoutingRule>, request: Request, k: nat)
    requires forall rule <- rules :: Known(policy, rule.route)
    requires Decides(rules, request, k)
    ensures SelectAmong(policy, rules, request) == SelectAmong(policy, [rules[k]], request)
  {
    if k > 0 {
      assert Decides(rules[1..], request, k - 1);
      SelectAmongDecides(policy, rules[1..], request, k - 1);
    } else {
      assert [rules[0]][0] == rules[0];
    }
  }

  lemma {:induction false} SelectAmongSkips(policy: RoutingPolicy, rules: seq<RoutingRule>, request: Request)
    requires forall rule <- rules :: Known(policy, rule.route)
    requires forall rule <- rules :: !Matches(rule, request)
    ensures SelectAmong(policy, rules, request) == Err(NoMatchingRule)
  {
    if rules != [] {
      SelectAmongSkips(policy, rules[1..], request);
    }
  }

  lemma {:induction false} DeciderExists(rules: seq<RoutingRule>, request: Request) returns (k: nat)
    requires exists rule <- rules :: Matches(rule, request)
    ensures Decides(rules, request, k)
  {
    if Matches(rules[0], request) {
      k := 0;
    } else {
      var rest := DeciderExists(rules[1..], request);
      k := rest + 1;
      forall j | 0 <= j < k ensures !Matches(rules[j], request) {
        if j > 0 { assert rules[j] == rules[1..][j - 1]; }
      }
    }
  }

  /**
   * The first matching rule alone settles the request. It is granted exactly when that rule
   * leaves a provider, and then carries the rule's route, minus external providers when the
   * data is restricted; otherwise the denial says whether a rule matched.
   */
  lemma FirstMatchDecides(policy: RoutingPolicy, request: Request, k: nat)
    requires RoutesKnown(policy)
    requires Decides(policy.rules, request, k)
    ensures var route := RouteOf(policy, policy.rules[k], request.dataClass);
            match SelectRoute(policy, request)
            case Ok(decision) =>
              decision.ruleName == policy.rules[k].name && decision.Providers() == route
            case Err(denial) =>
              route == [] && denial == NoPermittedProvider(policy.rules[k].name)
  {
    SelectAmongDecides(policy, policy.rules, request, k);
    var route := RouteOf(policy, policy.rules[k], request.dataClass);
    if route != [] {
      assert [route[0]] + route[1..] == route;
    }
  }

  /** A request no rule matches is denied for that reason, and for no other request is it given. */
  lemma FailsClosedExactlyWithoutRule(policy: RoutingPolicy, request: Request)
    requires RoutesKnown(policy)
    ensures SelectRoute(policy, request) == Err(NoMatchingRule)
            <==> forall rule <- policy.rules :: !Matches(rule, request)
  {
    if exists rule <- policy.rules :: Matches(rule, request) {
      var k := DeciderExists(policy.rules, request);
      FirstMatchDecides(policy, request, k);
    } else {
      SelectAmongSkips(policy, policy.rules, request);
    }
  }

  /** Restricted data is never routed to an external provider, whatever the rules say. */
  lemma RestrictedRouteIsInternal(policy: RoutingPolicy, request: Request)
    requires RoutesKnown(policy)
    requires request.dataClass == Restricted
    requires SelectRoute(policy, request).Ok?
    ensures forall name <- SelectRoute(policy, request).value.Providers() ::
              name in policy.providers && !policy.providers[name].external
  {
    FailsClosedExactlyWithoutRule(policy, request);
    var k := DeciderExists(policy.rules, request);
    FirstMatchDecides(policy, request, k);
    assert policy.rules[k] in policy.rules;
  }

  lemma SelectedIsKnown(policy: RoutingPolicy, request: Request)
    requires RoutesKnown(policy) && SelectRoute(policy, request).Ok?
    ensures Known(policy, SelectRoute(policy, request).value.Providers())
  {
    FailsClosedExactlyWithoutRule(policy, request);
    var k := DeciderExists(policy.rules, request);
    FirstMatchDecides(policy, request, k);
    assert Known(policy, policy.rules[k].route);
  }

  // ----- load-time validation -----

  datatype Validation =
    | Accepted
    | UnknownProviders(rule: string)
    | RestrictedExternally(rule: string)

  predicate CanMatchRestricted(rule: RoutingRule) {
    rule.when.dataClass.None? || Restricted in rule.when.dataClass.value
  }

  function ValidateRules(policy: RoutingPolicy, rules: seq<RoutingRule>): Validation {
    if rules == [] then Accepted
    else
      var rule := rules[0];
      if !Known(policy, rule.route) then UnknownProviders(rule.name)
      else if CanMatchRestricted(rule) && Internals(policy, rule.route) != rule.route
      then RestrictedExternally(rule.name)
      else ValidateRules(policy, rules[1..])
  }

  /** A rule that validation accepts: known names, and no way to send restricted data outside. */
  ghost predicate SoundRule(policy: RoutingPolicy, rule: RoutingRule) {
    && Known(policy, rule.route)
    && (Lists(rule.when.dataClass, Restricted) ==>
          forall name <- rule.route :: !policy.providers[name].external)
  }

  lemma SoundRuleCheck(policy: RoutingPolicy, rule: RoutingRule)
    ensures SoundRule(policy, rule)
            <==> Known(policy, rule.route)
                 && (CanMatchRestricted(rule) ==> Internals(policy, rule.route) == rule.route)
  {
  }

  lemma {:induction false} ValidationAcceptsExactlySoundRules(policy: RoutingPolicy, rules: seq<RoutingRule>)
    ensures ValidateRules(policy, rules) == Accepted <==> forall rule <- rules :: SoundRule(policy, rule)
  {
    if rules != [] {
      ValidationAcceptsExactlySoundRules(policy, rules[1..]);
      SoundRuleCheck(policy, rules[0]);
      assert rules == [rules[0]] + rules[1..];
    }
  }

  /** A rejection names the first rule that is not sound, for unknown providers before external ones. */
  lemma {:induction false} ValidationNamesFirstUnsound(policy: RoutingPolicy, rules: seq<RoutingRule>)
    returns (k: nat)
    requires ValidateRules(policy, rules) != Accepted
    ensures k < |rules| && !SoundRule(policy, rules[k])
    ensures forall j | 0 <= j < k :: SoundRule(policy, rules[j])
    ensures ValidateRules(policy, rules)
            == if exists name <- rules[k].route :: name !in policy.providers then UnknownProviders(rules[k].name)
               else RestrictedExternally(rules[k].name)
  {
    SoundRuleCheck(policy, rules[0]);
    if SoundRule(policy, rules[0]) {
      var later := ValidationNamesFirstUnsound(policy, rules[1..]);
      k := later + 1;
      forall j | 0 <= j < k ensures SoundRule(policy, rules[j]) {
        if j > 0 { assert rules[j] == rules[1..][j - 1]; }
      }
    } else {
      k := 0;
    }
  }

  lemma ValidatedRoutesAreKnown(policy: RoutingPolicy)
    requires ValidateRules(policy, policy.rules) == Accepted
    ensures RoutesKnown(policy)
  {
    ValidationAcceptsExactlySoundRules(policy, policy.rules);
    assert forall rule <- policy.rules :: SoundRule(policy, rule);
  }

  /** For an accepted policy the router's runtime filter removes nothing. */
  lemma ValidatedFilterRemovesNothing(policy: RoutingPolicy, request: Request, k: nat)
    requires ValidateRules(policy, policy.rules) == Accepted
    requires Decides(policy.rules, request, k)
    ensures RoutesKnown(policy)
    ensures RouteOf(policy, policy.rules[k], request.dataClass) == policy.rules[k].route
  {
    ValidationAcceptsExactlySoundRules(policy, policy.rules);
    assert SoundRule(policy, policy.rules[k]);
  }

  // ----- agreement with the provider document -----

  /** The provider document, reduced to the externality flag of each provider. */
  type ProviderDocument = map<string, bool>

  function BackingProvider(routeName: string, route: RoutingProvider): string {
    if route.provider.Some? && route.provider.value != "" then route.provider.value else routeName
  }

  /** What the gateway configuration check demands of every routing entry. */
  ghost predicate MatchesDocument(policy: RoutingPolicy, document: ProviderDocument) {
    forall name <- policy.providers ::
      var backing := BackingProvider(name, policy.providers[name]);
      backing in document && document[backing] == policy.providers[name].external
  }
}
