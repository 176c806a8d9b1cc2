/**
 * The chat-completions endpoint after authentication and validation: routing, execution, the
 * response and the counters. A streamed response is consumed to its end.
 */
module Gateway {
  import opened Domain
  import opened Policy
  import opened Fallback
  import opened Telemetry
  import opened FallbackSafety
  import opened FallbackSchedule
  import Wire

  datatype Response =
    | PolicyDenial(reason: Denial)
    | ErrorResponse(errorClass: ErrorClass, provider: string, route: string, fallbackCount: nat)
    | Completion(result: Option<ProviderResult>, provider: string, route: string, fallbackCount: nat)
    | EventStream(events: seq<Wire.Event>, provider: string, route: string, fallbackCount: nat)

  /** The provider blamed for a terminal error. */
  function ErrorProvider(attempts: seq<AttemptOutcome>, decision: RouteDecision): string {
    if attempts != [] then attempts[|attempts| - 1].provider else decision.primary
  }

  function TerminalErrors(attempts: seq<AttemptOutcome>, decision: RouteDecision, error: NormalizedError)
    : multiset<ErrorLabel>
  {
    if attempts == [] then multiset{ErrorLabel(decision.primary, error.errorClass)} else Errors(attempts)
  }

  /** The fallback count reported with a terminal error. */
  function ErrorFallbackCount(attempts: seq<AttemptOutcome>): nat {
    if attempts == [] then 0 else |attempts| - 1
  }

  function ErrorFor(run: Run, decision: RouteDecision): Response
    requires run.ending.Raised?
  {
    ErrorResponse(run.ending.error.errorClass, ErrorProvider(run.log, decision), decision.ruleName,
                  ErrorFallbackCount(run.log))
  }

  function ChatResponse(run: Run, decision: RouteDecision): Response {
    match run.ending
    case Completed(provider, index, answer) => Completion(answer, provider, decision.ruleName, index)
    case Raised(_, _) => ErrorFor(run, decision)
  }

  function ChunksOf(items: seq<Item>): seq<ProviderChunk> {
    seq(|items|, k requires 0 <= k < |items| => items[k].chunk)
  }

  /** The body of a streamed response: an event per telling chunk, then [DONE] or one error. */
  function BodyOf(run: Run): seq<Wire.Event> {
    Wire.EventsFor(ChunksOf(run.items))
    + match run.ending
      case Completed(_, _, _) => [Wire.Done]
      case Raised(error, _) => [Wire.Failure(Some(error.errorClass))]
  }

  function StreamResponse(run: Run, decision: RouteDecision): Response {
    if run.items == [] && run.ending.Raised? then ErrorFor(run, decision)
    else if run.items == [] then EventStream(BodyOf(run), decision.primary, decision.ruleName, 0)
    else EventStream(BodyOf(run), run.items[0].provider, decision.ruleName, run.items[0].index)
  }

  function ResponseFor(adapters: Adapters, run: Run, decision: RouteDecision): Response {
    if adapters.ChatAdapters? then ChatResponse(run, decision) else StreamResponse(run, decision)
  }

  function OutcomeOf(run: Run): Outcome {
    match run.ending
    case Completed(_, _, _) => Succeeded
    case Raised(error, _) => FailedWith(error.errorClass)
  }

  /** The provider under which a request is counted. */
  function CountedProvider(run: Run, decision: RouteDecision): string {
    if run.items != [] then run.items[|run.items| - 1].provider
    else match run.ending
      case Completed(provider, _, _) => provider
      case Raised(_, _) => ErrorProvider(run.log, decision)
  }

  function AfterRun(
    before: Counters, attempts: seq<AttemptOutcome>, provider: string, caller: Caller, outcome: Outcome): Counters
  {
    Counters(before.requests + multiset{RequestLabel(provider, caller, outcome)},
             before.errors + Errors(attempts), before.fallbacks + Transitions(attempts), before.denials)
  }

  /** A denial counts one request and one denial, and nothing for any provider. */
  function AfterDenial(before: Counters, caller: Caller): Counters {
    before.(requests := before.requests + multiset{RequestLabel("none", caller, Denied)}, denials := before.denials + 1)
  }

  class GatewayState {
    const executor: FallbackExecutor
    const metrics: Metrics

    constructor (executor: FallbackExecutor, metrics: Metrics)
      ensures this.executor == executor && this.metrics == metrics
    {
      this.executor, this.metrics := executor, metrics;
    }

    method RecordTerminalError(
      error: NormalizedError, attempts: seq<AttemptOutcome>, decision: RouteDecision, caller: Caller)
      returns (provider: string)
      modifies metrics
      ensures provider == ErrorProvider(attempts, decision)
      ensures metrics.providerErrorsTotal
              == old(metrics.providerErrorsTotal) + TerminalErrors(attempts, decision, error)
      ensures metrics.fallbackTotal == old(metrics.fallbackTotal) + Transitions(attempts)
      ensures metrics.requestsTotal
              == old(metrics.requestsTotal) + multiset{RequestLabel(provider, caller, FailedWith(error.errorClass))}
      ensures metrics.policyDeniedTotal == old(metrics.policyDeniedTotal)
    {
      metrics.RecordAttemptHistory(attempts);
      provider := if attempts != [] then attempts[|attempts| - 1].provider else decision.primary;
      if attempts == [] {
        metrics.CountError(ErrorLabel(provider, error.errorClass));
      }
      metrics.CountRequest(RequestLabel(provider, caller, FailedWith(error.errorClass)));
    }

    /** A finished history and its request are counted. */
    method CountOutcome(attempts: seq<AttemptOutcome>, provider: string, caller: Caller, outcome: Outcome)
      modifies metrics
      ensures metrics.Counts() == AfterRun(old(metrics.Counts()), attempts, provider, caller, outcome)
    {
      metrics.RecordAttemptHistory(attempts);
      metrics.CountRequest(RequestLabel(provider, caller, outcome));
    }

    method NonStreamed(
      loop: EventLoop, decision: RouteDecision, dataClass: DataClass, caller: Caller,
      behaviours: (string, nat) -> ChatBehaviour, deadline: real)
      returns (response: Response)
      requires Known(executor.policy, decision.Providers())
      modifies loop, metrics
      ensures var run := RunFrom(CallFor(executor.policy, decision, dataClass, deadline, ChatAdapters(behaviours)),
                                 0, old(loop.now));
              && response == ChatResponse(run, decision)
              && Recorded(loop, old(loop.journal), run)
              && Counted(metrics, old(metrics.Counts()), run, decision, caller)
    {
      ghost var call := CallFor(executor.policy, decision, dataClass, deadline, ChatAdapters(behaviours));
      ChatYieldsNothing(call, 0, loop.now);
      var result := executor.Chat(loop, decision, dataClass, behaviours, deadline);
      var (ending, attempts) := result.value;
      match ending {
        case Raised(error, _) =>
          var provider := RecordTerminalError(error, attempts, decision, caller);
          return ErrorResponse(error.errorClass, provider, decision.ruleName,
              if |attempts| <= 1 then 0 else |attempts| - 1);
        case Completed(provider, index, answer) =>
          CountOutcome(attempts, provider, caller, Succeeded);
          return Completion(answer, provider, decision.ruleName, index);
      }
    }

    method Streamed(
      loop: EventLoop, decision: RouteDecision, dataClass: DataClass, caller: Caller,
      behaviours: (string, nat) -> StreamBehaviour, deadline: real)
      returns (response: Response)
      requires Known(executor.policy, decision.Providers())
      modifies loop, metrics
      ensures var run := RunFrom(CallFor(executor.policy, decision, dataClass, deadline, StreamAdapters(behaviours)),
                                 0, old(loop.now));
              && response == StreamResponse(run, decision)
              && Recorded(loop, old(loop.journal), run)
              && Counted(metrics, old(metrics.Counts()), run, decision, caller)
    {
      ghost var call := CallFor(executor.policy, decision, dataClass, deadline, StreamAdapters(behaviours));
      ghost var run := RunFrom(call, 0, loop.now);
      LogBacksEnding(call, loop.now);
      var attemptLog := new AttemptLog();
      var result := executor.Stream(loop, decision, dataClass, behaviours, deadline, attemptLog);
      var (items, ending) := result.value;
      response := Respond(items, ending, attemptLog.entries, decision, caller, run);
    }

    /** The response once the executor is done; an error before the first item keeps its own status. */
    method Respond(
      items: seq<Item>, ending: Ending, attempts: seq<AttemptOutcome>, decision: RouteDecision, caller: Caller,
      ghost run: Run)
      returns (response: Response)
      requires run.items == items && run.ending == ending && run.log == attempts
      requires Backed(run)
      modifies metrics
      ensures response == StreamResponse(run, decision)
      ensures Counted(metrics, old(metrics.Counts()), run, decision, caller)
    {
      if items == [] && ending.Raised? {
        var provider := RecordTerminalError(ending.error, attempts, decision, caller);
        return ErrorResponse(ending.error.errorClass, provider, decision.ruleName,
            if |attempts| <= 1 then 0 else |attempts| - 1);
      }
      response := FinishStream(items, ending, attempts, decision, caller, run);
    }

    /** The streamed response and what is counted once its generator is done. */
    method FinishStream(
      items: seq<Item>, ending: Ending, attempts: seq<AttemptOutcome>, decision: RouteDecision, caller: Caller,
      ghost run: Run)
      returns (response: Response)
      requires run.items == items && run.ending == ending && run.log == attempts
      requires items != [] || ending.Completed?
      requires Backed(run)
      modifies metrics
      ensures response == StreamResponse(run, decision)
      ensures Counted(metrics, old(metrics.Counts()), run, decision, caller)
    {
      var events := WriteEvents(items, ending, run);
      var finalProvider :=
        if items != [] then items[|items| - 1].provider
        else if attempts != [] then attempts[|attempts| - 1].provider
        else decision.primary;
      var outcome := if ending.Raised? then FailedWith(ending.error.errorClass) else Succeeded;
      CountOutcome(attempts, finalProvider, caller, outcome);
      return EventStream(events,
          if items != [] then items[0].provider else decision.primary,
          decision.ruleName,
          if items != [] then items[0].index else 0);
    }

    /** What the generator yields for one chunk: an event if the chunk is final or has text. */
    method WriteChunk(events: seq<Wire.Event>, chunk: ProviderChunk) returns (more: seq<Wire.Event>)
      ensures more == events + Wire.EventFor(chunk)
    {
      var text := JoinText(chunk.delta);
      if chunk.isFinal {
        more := events + [Wire.CompletionChunk(text, Some(OrStop(chunk.finishReason)), chunk.usage)];
      } else if text != "" {
        more := events + [Wire.CompletionChunk(text, None, None)];
      } else {
        more := events;
      }
    }

    /** The generator behind the response body. */
    method WriteEvents(items: seq<Item>, ending: Ending, ghost run: Run) returns (events: seq<Wire.Event>)
      requires run.items == items && run.ending == ending
      ensures events == BodyOf(run)
    {
      events := [];
      ghost var chunks := ChunksOf(items);
      ghost var rest := Wire.EventsFor(chunks);
      for k := 0 to |items|
        invariant rest == Wire.EventsFor(chunks[k..])
        invariant events + rest == Wire.EventsFor(chunks)
      {
        assert chunks[k..][1..] == chunks[k + 1..];
        rest := Wire.EventsFor(chunks[k + 1..]);
        Assoc(events, Wire.EventFor(items[k].chunk), rest);
        events := WriteChunk(events, items[k].chunk);
      }
      assert events + [] == events;
      events := events + (if ending.Raised? then [Wire.Failure(Some(ending.error.errorClass))] else [Wire.Done]);
    }

    method Select(request: Request) returns (selection: Result<RouteDecision, Denial>)
      requires RoutesKnown(executor.policy)
      ensures selection == SelectRoute(executor.policy, request)
      ensures selection.Ok? ==> Known(executor.policy, selection.value.Providers())
    {
      selection := SelectRoute(executor.policy, request);
      if selection.Ok? {
        SelectedIsKnown(executor.policy, request);
      }
    }

    method Deny(reason: Denial, caller: Caller) returns (response: Response)
      modifies metrics
      ensures response == PolicyDenial(reason)
      ensures var before := old(metrics.Counts());
              metrics.Counts() == AfterDenial(before, caller)
    {
      metrics.CountDenial();
      metrics.CountRequest(RequestLabel("none", caller, Denied));
      return PolicyDenial(reason);
    }

    /** The response to a routed request, or the denial, and what is counted for it. */
    method Serve(
      loop: EventLoop, selection: Result<RouteDecision, Denial>, request: Request, caller: Caller, adapters: Adapters,
      deadline: real)
      returns (response: Response)
      requires selection.Ok? ==> Known(executor.policy, selection.value.Providers())
      modifies loop, metrics
      ensures Answered(loop, selection, request, caller, adapters, deadline, response,
                       old(loop.now), old(loop.journal), old(metrics.Counts()))
    {
      if selection.Err? {
        response := Deny(selection.error, caller);
        return;
      }
      response := Dispatch(loop, selection.value, request.dataClass, caller, adapters, deadline);
    }

    /** What answering a request leaves behind, given where routing sent it and the state before. */
    ghost predicate Answered(
      loop: EventLoop, selection: Result<RouteDecision, Denial>, request: Request, caller: Caller, adapters: Adapters,
      deadline: real, response: Response, start: real, journal: seq<Action>, before: Counters)
      reads loop, metrics
    {
      match selection
      case Err(reason) =>
        && response == PolicyDenial(reason)
        && loop.now == start && loop.journal == journal
        && metrics.Counts() == AfterDenial(before, caller)
      case Ok(decision) =>
        && Known(executor.policy, decision.Providers())
        && var run := RunFrom(CallFor(executor.policy, decision, request.dataClass, deadline, adapters), 0, start);
        && response == ResponseFor(adapters, run, decision)
        && Recorded(loop, journal, run)
        && Counted(metrics, before, run, decision, caller)
    }

    /**
     * Everything past authentication: route the request, run it, answer it and count it. Its
     * deadline is the global timeout after its arrival.
     */
    method ChatCompletions(
      loop: EventLoop, request: Request, caller: Caller, adapters: Adapters)
      returns (response: Response, ghost deadline: real)
      requires RoutesKnown(executor.policy)
      modifies loop, metrics
      ensures deadline == old(loop.now) + executor.policy.timeouts.globalDeadline
      ensures Answered(loop, SelectRoute(executor.policy, request), request, caller, adapters, deadline, response,
                       old(loop.now), old(loop.journal), old(metrics.Counts()))
      ensures |metrics.requestsTotal| == |old(metrics.requestsTotal)| + 1
      ensures CountsItsFallbacks(SelectRoute(executor.policy, request), request, adapters, deadline, old(loop.now),
                                 response, |old(metrics.fallbackTotal)|, |metrics.fallbackTotal|)
      ensures |old(loop.journal)| <= |loop.journal|
      ensures CountsTheRequest(SelectRoute(executor.policy, request), adapters, caller, response,
                               Starts(loop.journal[|old(loop.journal)|..]), old(metrics.Counts()), metrics.Counts())
      ensures EndsWithItsDeadline(SelectRoute(executor.policy, request), request, adapters, old(loop.now), deadline,
                                  loop.journal[|old(loop.journal)|..], loop.now, response)
    {
      var selection := Select(request);
      var due := loop.now + executor.policy.timeouts.globalDeadline;
      ghost var start, journal, before := loop.now, loop.journal, metrics.Counts();
      response := Serve(loop, selection, request, caller, adapters, due);
      AnsweredCounts(loop, selection, request, caller, adapters, due, response, start, journal, before);
      AnsweredInTime(loop, selection, request, caller, adapters, due, response, start, journal, before);
      AnsweredAndCounted(loop, selection, request, caller, adapters, due, response, start, journal, before);
      deadline := due;
    }

    /** What is counted for a request, told from its response and the attempts it started. */
    ghost predicate CountsTheRequest(
      selection: Result<RouteDecision, Denial>, adapters: Adapters, caller: Caller, response: Response,
      starts: seq<(nat, string)>, before: Counters, after: Counters)
    {
      match selection
      case Err(reason) =>
        && response == PolicyDenial(reason) && starts == []
        && after == Counters(before.requests + multiset{RequestLabel("none", caller, Denied)}, before.errors,
                             before.fallbacks, before.denials + 1)
      case Ok(decision) => CountsTheRun(decision, adapters, caller, response, starts, before, after)
    }

    lemma AnsweredAndCounted(
      loop: EventLoop, selection: Result<RouteDecision, Denial>, request: Request, caller: Caller, adapters: Adapters,
      deadline: real, response: Response, start: real, journal: seq<Action>, before: Counters)
      requires Answered(loop, selection, request, caller, adapters, deadline, response, start, journal, before)
      ensures |journal| <= |loop.journal|
      ensures CountsTheRequest(selection, adapters, caller, response, Starts(loop.journal[|journal|..]), before,
                               metrics.Counts())
    {
      if selection.Ok? {
        var call := CallFor(executor.policy, selection.value, request.dataClass, deadline, adapters);
        RunIsCounted(call, start, selection.value, caller, before, metrics.Counts());
        assert loop.journal[|journal|..] == RunFrom(call, 0, start).journal;
      } else {
        assert loop.journal[|journal|..] == [];
      }
    }

    /** The request kept to this deadline: nothing of it went on longer, and nothing of it was cut off sooner. */
    ghost predicate EndsWithItsDeadline(
      selection: Result<RouteDecision, Denial>, request: Request, adapters: Adapters, start: real, deadline: real,
      actions: seq<Action>, now: real, response: Response)
    {
      match selection
      case Err(_) => actions == [] && now == start
      case Ok(decision) =>
        && Known(executor.policy, decision.Providers())
        && KeepsTo(CallFor(executor.policy, decision, request.dataClass, deadline, adapters),
                   deadline, start, actions, now, response)
    }

    lemma AnsweredInTime(
      loop: EventLoop, selection: Result<RouteDecision, Denial>, request: Request, caller: Caller, adapters: Adapters,
      deadline: real, response: Response, start: real, journal: seq<Action>, before: Counters)
      requires Answered(loop, selection, request, caller, adapters, deadline, response, start, journal, before)
      ensures |journal| <= |loop.journal|
      ensures EndsWithItsDeadline(selection, request, adapters, start, deadline,
                                  loop.journal[|journal|..], loop.now, response)
    {
      if selection.Ok? {
        var call := CallFor(executor.policy, selection.value, request.dataClass, deadline, adapters);
        RunKeepsTo(call, start, selection.value);
        assert loop.journal[|journal|..] == RunFrom(call, 0, start).journal;
      }
    }

    /**
     * The fallback counter rises by the number in the response, exactly unless the stream's scripts
     * make it succeed without a chunk after a fallback; a denial leaves the counter alone.
     */
    ghost predicate CountsItsFallbacks(
      selection: Result<RouteDecision, Denial>, request: Request, adapters: Adapters, deadline: real, start: real,
      response: Response, before: nat, after: nat)
    {
      match selection
      case Err(_) => response.PolicyDenial? && after == before
      case Ok(decision) =>
        && Known(executor.policy, decision.Providers()) && !response.PolicyDenial?
        && var call := CallFor(executor.policy, decision, request.dataClass, deadline, adapters);
        after == before + response.fallbackCount
        <==> adapters.ChatAdapters? || !SilentSuccessAfterFallback(call, start)
    }

    lemma AnsweredCounts(
      loop: EventLoop, selection: Result<RouteDecision, Denial>, request: Request, caller: Caller, adapters: Adapters,
      deadline: real, response: Response, start: real, journal: seq<Action>, before: Counters)
      requires Answered(loop, selection, request, caller, adapters, deadline, response, start, journal, before)
      ensures |metrics.requestsTotal| == |before.requests| + 1
      ensures CountsItsFallbacks(selection, request, adapters, deadline, start, response,
                                 |before.fallbacks|, |metrics.fallbackTotal|)
    {
      if selection.Ok? {
        var call := CallFor(executor.policy, selection.value, request.dataClass, deadline, adapters);
        if adapters.ChatAdapters? {
          ChatFallbackCountAgrees(call, start, selection.value);
        } else {
          StreamFallbackCountAgreesExactly(call, start, selection.value);
        }
      }
    }

    method Dispatch(
      loop: EventLoop, decision: RouteDecision, dataClass: DataClass, caller: Caller, adapters: Adapters,
      deadline: real)
      returns (response: Response)
      requires Known(executor.policy, decision.Providers())
      modifies loop, metrics
      ensures var run := RunFrom(CallFor(executor.policy, decision, dataClass, deadline, adapters), 0, old(loop.now));
              && response == ResponseFor(adapters, run, decision)
              && Recorded(loop, old(loop.journal), run)
              && Counted(metrics, old(metrics.Counts()), run, decision, caller)
    {
      match adapters {
        case ChatAdapters(behaviours) =>
          response := NonStreamed(loop, decision, dataClass, caller, behaviours, deadline);
        case StreamAdapters(behaviours) =>
          response := Streamed(loop, decision, dataClass, caller, behaviours, deadline);
      }
    }
  }

  /** A completed run's log ends with its provider, and a started stream leaves a log. */
  ghost predicate Backed(run: Run) {
    && (run.ending.Completed? ==> run.log != [] && run.log[|run.log| - 1].provider == run.ending.provider)
    && (run.items != [] ==> run.log != [])
  }

  lemma LogBacksEnding(call: Call, now: real)
    ensures Backed(RunFrom(call, 0, now))
  {
    LogShape(call, 0, now);
  }

  function CountedErrors(run: Run, decision: RouteDecision): multiset<ErrorLabel> {
    if run.ending.Raised? then TerminalErrors(run.log, decision, run.ending.error) else Errors(run.log)
  }

  /** One request counted, one fallback per transition in the run's log, and the errors of the run. */
  ghost predicate Counted(
    metrics: Metrics, before: Counters, run: Run, decision: RouteDecision, caller: Caller)
    reads metrics
  {
    metrics.Counts() == Counters(
      before.requests + multiset{RequestLabel(CountedProvider(run, decision), caller, OutcomeOf(run))},
      before.errors + CountedErrors(run, decision),
      before.fallbacks + Transitions(run.log),
      before.denials)
  }

  // ----- the deadline of a request -----

  /** The action is over by the deadline, and an attempt or a sleep leaves time after it. */
  predicate DoneBy(action: Action, deadline: real) {
    match action
    case Started(_, _, at) => at < deadline
    case Awaited(_, _, _, until, _) => until <= deadline
    case Slept(_, _, _, until) => until < deadline
  }

  /** The response is what attempt i's own behaviour makes it. */
  ghost predicate AnsweredByItself(call: Call, i: nat, response: Response)
    requires i < |call.providers|
  {
    match EndOfItself(call, i)
    case Finished(answer) =>
      if call.adapters.ChatAdapters? then response.Completion? && response.result == answer
      else response.EventStream? && Wire.Done in response.events
    case Failed(error) =>
      || (response.ErrorResponse? && response.errorClass == error.errorClass)
      || (call.adapters.StreamAdapters? && response.EventStream?
          && Wire.Failure(Some(StreamStartedFailure)) in response.events)
  }

  /** A provider is started exactly when it has its turn before the deadline, and at its start time. */
  ghost predicate StartsInTurn(call: Call, start: real, actions: seq<Action>) {
    var starts := Starts(actions);
    && InOrder(call, 0, starts)
    && forall i: nat ::
         && (i < |starts| <==> HasItsTurn(call, 0, i, start))
         && (HasItsTurn(call, 0, i, start) ==>
               Started(i, call.providers[i], StartTime(call, 0, i, start)) in actions)
  }

  /**
   * Every attempt starts, and every wait and sleep ends, by the deadline; providers have their turns
   * up to the deadline; and while the clock has not reached it the response is the last provider's own.
   */
  ghost predicate KeepsTo(
    call: Call, deadline: real, start: real, actions: seq<Action>, now: real, response: Response)
  {
    && (forall k | 0 <= k < |actions| :: DoneBy(actions[k], deadline))
    && StartsInTurn(call, start, actions)
    && (now < deadline && call.providers != [] ==>
          Starts(actions) != [] && AnsweredByItself(call, |Starts(actions)| - 1, response))
  }

  lemma ActionsAreDone(call: Call, log: seq<AttemptOutcome>, actions: seq<Action>)
    requires Kept(call, 0, log, actions)
    ensures forall k | 0 <= k < |actions| :: DoneBy(actions[k], call.deadline)
  {
    forall k | 0 <= k < |actions| ensures DoneBy(actions[k], call.deadline) {
      assert InTime(call, actions[k]);
    }
  }

  lemma TurnsAreStarts(call: Call, start: real, run: Run)
    requires |Starts(run.journal)| == |run.log| && InOrder(call, 0, Starts(run.journal))
    requires forall i: nat :: TriedInTurn(call, 0, i, start, run)
    ensures StartsInTurn(call, start, run.journal)
  {
    forall i: nat
      ensures i < |Starts(run.journal)| <==> HasItsTurn(call, 0, i, start)
      ensures HasItsTurn(call, 0, i, start) ==>
          Started(i, call.providers[i], StartTime(call, 0, i, start)) in run.journal
    {
      assert TriedInTurn(call, 0, i, start, run);
    }
  }

  lemma AnswersByItself(call: Call, now: real, decision: RouteDecision)
    requires call.providers != [] && RunFrom(call, 0, now).now < call.deadline
    ensures var run := RunFrom(call, 0, now);
            && 0 < |run.log| <= |call.providers|
            && AnsweredByItself(call, |run.log| - 1, ResponseFor(call.adapters, run, decision))
  {
    LogShape(call, 0, now);
    EndsAsItsLastProvider(call, 0, now);
    ReportsItsProviders(call, 0, now);
    if call.adapters.ChatAdapters? {
      ChatYieldsNothing(call, 0, now);
    } else {
      ItemsFromLastAttempt(call, 0, now);
    }
  }

  lemma RunKeepsTo(call: Call, start: real, decision: RouteDecision)
    ensures var run := RunFrom(call, 0, start);
            KeepsTo(call, call.deadline, start, run.journal, run.now, ResponseFor(call.adapters, run, decision))
  {
    var run := RunFrom(call, 0, start);
    DeadlinesAreKept(call, 0, start);
    ActionsAreDone(call, run.log, run.journal);
    StartsMatchLog(call, 0, start);
    forall i: nat ensures TriedInTurn(call, 0, i, start, run) {
      TriedExactlyInTurn(call, 0, i, start);
    }
    TurnsAreStarts(call, start, run);
    if run.now < call.deadline && call.providers != [] {
      AnswersByItself(call, start, decision);
    }
  }

  // ----- who is named -----

  function LastProvider(log: seq<AttemptOutcome>, decision: RouteDecision): string {
    if log == [] then decision.primary else log[|log| - 1].provider
  }

  /**
   * However a run goes, its request is counted under the last provider tried, or the primary if
   * none was, and the response names that provider too, unless a stream succeeded without a chunk:
   * then it names the primary.
   */
  lemma LastProviderIsNamed(call: Call, now: real, decision: RouteDecision)
    ensures var run := RunFrom(call, 0, now);
            && CountedProvider(run, decision) == LastProvider(run.log, decision)
            && (call.adapters.ChatAdapters? ==> ChatResponse(run, decision).provider == LastProvider(run.log, decision))
            && (call.adapters.StreamAdapters? ==>
                  StreamResponse(run, decision).provider
                  == if run.items == [] && run.ending.Completed? then decision.primary
                     else LastProvider(run.log, decision))
  {
    LogShape(call, 0, now);
    if call.adapters.StreamAdapters? {
      ItemsFromLastAttempt(call, 0, now);
    } else {
      ChatYieldsNothing(call, 0, now);
    }
  }

  /** The outcome a client can tell from a response; a stream tells it with its last event. */
  function OutcomeTold(response: Response): Outcome {
    match response
    case PolicyDenial(_) => Denied
    case ErrorResponse(errorClass, _, _, _) => FailedWith(errorClass)
    case Completion(_, _, _, _) => Succeeded
    case EventStream(events, _, _, _) =>
      if events == [] then Denied
      else
        match events[|events| - 1]
        case Done => Succeeded
        case Failure(Some(errorClass)) => FailedWith(errorClass)
        case _ => Denied
  }

  /**
   * The outcome under which a request is counted is the one its response tells, and it is a success
   * exactly when the last attempt is logged as one. Every failed attempt is counted as an error, and
   * a request that tried nobody counts one timeout against the primary.
   */
  lemma CountedAsAnswered(call: Call, now: real, decision: RouteDecision)
    ensures var run := RunFrom(call, 0, now);
            var response, n := ResponseFor(call.adapters, run, decision), |run.log|;
            && OutcomeTold(response) == OutcomeOf(run)
            && (OutcomeOf(run).Succeeded? <==> n > 0 && run.log[n - 1].errorClass.None?)
            && !response.PolicyDenial? && response.route == decision.ruleName
            && (n > 0 ==> forall key: ErrorLabel :: CountedErrors(run, decision)[key] == |Failures(run.log, key)|)
            && (n == 0 ==> CountedErrors(run, decision) == multiset{ErrorLabel(decision.primary, Timeout)})
  {
    var run := RunFrom(call, 0, now);
    LogShape(call, 0, now);
    EndsAsItsLastProvider(call, 0, now);
    forall key: ErrorLabel ensures Errors(run.log)[key] == |Failures(run.log, key)| {
      ErrorsCountFailedAttempts(run.log, key);
    }
  }

  /** The provider started last, or the primary if none was. */
  function LastStarted(starts: seq<(nat, string)>, decision: RouteDecision): string {
    if starts == [] then decision.primary else starts[|starts| - 1].1
  }

  /**
   * A run counts one request under the provider started last and the outcome its response tells, an
   * error for every start but a successful last one, or one error if nothing was started, and a
   * fallback between every two starts. Its response names the route and the provider counted, or
   * the primary, without a fallback, where a stream succeeds without a chunk.
   */
  ghost predicate CountsTheRun(
    decision: RouteDecision, adapters: Adapters, caller: Caller, response: Response,
    starts: seq<(nat, string)>, before: Counters, after: Counters)
  {
    var n, outcome := |starts|, OutcomeTold(response);
    && outcome != Denied && response.route == decision.ruleName
    && after.requests == before.requests + multiset{RequestLabel(LastStarted(starts, decision), caller, outcome)}
    && |after.errors| == |before.errors| + (if n == 0 then 1 else if outcome.Succeeded? then n - 1 else n)
    && |after.fallbacks| == |before.fallbacks| + (if n == 0 then 0 else n - 1)
    && after.denials == before.denials
    && (|| response.provider == LastStarted(starts, decision)
        || (&& adapters.StreamAdapters? && outcome.Succeeded? && response.EventStream? && response.events == [Wire.Done]
            && response.provider == decision.primary && response.fallbackCount == 0))
  }

  lemma LastIsLastStarted(call: Call, now: real, decision: RouteDecision)
    ensures var run := RunFrom(call, 0, now);
            |Starts(run.journal)| == |run.log|
            && LastStarted(Starts(run.journal), decision) == LastProvider(run.log, decision)
  {
    StartsMatchLog(call, 0, now);
    LogShape(call, 0, now);
  }

  /** What the labels and sizes of a run's counts are, told from its response and its starts. */
  lemma CountsAreTold(call: Call, now: real, decision: RouteDecision)
    ensures var run := RunFrom(call, 0, now);
            var n, outcome := |Starts(run.journal)|, OutcomeTold(ResponseFor(call.adapters, run, decision));
            && outcome != Denied && OutcomeOf(run) == outcome
            && CountedProvider(run, decision) == LastStarted(Starts(run.journal), decision)
            && |CountedErrors(run, decision)| == (if n == 0 then 1 else if outcome.Succeeded? then n - 1 else n)
            && |Transitions(run.log)| == (if n == 0 then 0 else n - 1)
  {
    LastIsLastStarted(call, now, decision);
    LastProviderIsNamed(call, now, decision);
    CountedAsAnswered(call, now, decision);
    LogTransitions(call, now);
    LogShape(call, 0, now);
    ErrorsForAllButSuccess(RunFrom(call, 0, now).log);
  }

  lemma ProviderIsTold(call: Call, now: real, decision: RouteDecision)
    ensures var run := RunFrom(call, 0, now);
            var response := ResponseFor(call.adapters, run, decision);
            && !response.PolicyDenial? && response.route == decision.ruleName
            && (|| response.provider == LastStarted(Starts(run.journal), decision)
                || (&& call.adapters.StreamAdapters? && OutcomeTold(response).Succeeded? && response.EventStream?
                    && response.events == [Wire.Done]
                    && response.provider == decision.primary && response.fallbackCount == 0))
  {
    LastIsLastStarted(call, now, decision);
    LastProviderIsNamed(call, now, decision);
    CountedAsAnswered(call, now, decision);
  }

  lemma RunIsCounted(
    call: Call, now: real, decision: RouteDecision, caller: Caller, before: Counters, after: Counters)
    requires var run := RunFrom(call, 0, now);
             after == Counters(
               before.requests + multiset{RequestLabel(CountedProvider(run, decision), caller, OutcomeOf(run))},
               before.errors + CountedErrors(run, decision), before.fallbacks + Transitions(run.log), before.denials)
    ensures var run := RunFrom(call, 0, now);
            CountsTheRun(decision, call.adapters, caller, ResponseFor(call.adapters, run, decision),
                         Starts(run.journal), before, after)
  {
    CountsAreTold(call, now, decision);
    ProviderIsTold(call, now, decision);
  }

  // ----- counters against the reported fallback count -----

  lemma LogTransitions(call: Call, now: real)
    ensures var log := RunFrom(call, 0, now).log;
            |Transitions(log)| == if log == [] then 0 else |log| - 1
  {
    LogShape(call, 0, now);
    TransitionsJoinNeighbours(RunFrom(call, 0, now).log);
  }

  /** A non-streamed request reports exactly the fallbacks that were counted for it. */
  lemma ChatFallbackCountAgrees(call: Call, now: real, decision: RouteDecision)
    ensures var run := RunFrom(call, 0, now);
            ChatResponse(run, decision).fallbackCount == |Transitions(run.log)|
  {
    LogShape(call, 0, now);
    LogTransitions(call, now);
  }

  ghost predicate StreamCountAgrees(call: Call, now: real, decision: RouteDecision) {
    var run := RunFrom(call, 0, now);
    StreamResponse(run, decision).fallbackCount == |Transitions(run.log)|
  }

  /**
   * A streamed request reports exactly the fallbacks that were counted for it, unless its scripts
   * make it fall back to an attempt that succeeds without a chunk: then it reports none.
   */
  lemma StreamFallbackCountAgreesExactly(call: Call, now: real, decision: RouteDecision)
    requires call.adapters.StreamAdapters?
    ensures StreamCountAgrees(call, now, decision) <==> !SilentSuccessAfterFallback(call, now)
  {
    LogShape(call, 0, now);
    LogTransitions(call, now);
    ItemsFromLastAttempt(call, 0, now);
    SilentSuccessExactly(call, 0, now);
    if SilentSuccessAhead(call, 0, now) {
      SilentFirstExactly(call, now);
    }
  }

  /** A script that ends of itself without a chunk. */
  predicate IsSilent(script: StreamBehaviour) {
    script.ending == Exhausted && script.chunks == []
  }

  lemma {:induction false} NothingSilentAhead(call: Call, index: nat, now: real)
    requires call.adapters.StreamAdapters? && index <= |call.providers|
    requires forall i | index <= i < |call.providers| :: !IsSilent(call.adapters.stream(call.providers[i], i))
    ensures !SilentSuccessAhead(call, index, now)
    decreases |call.providers| - index
  {
    if index < |call.providers| {
      var opening := OpeningOf(call, index, now);
      if opening.Fails? {
        var onward := NextStep(call, index, opening.error, opening.later);
        if onward.Proceed? {
          NothingSilentAhead(call, index + 1, onward.now);
        }
      }
    }
  }

  /** Without a silent script behind the first, the counts agree whenever the request comes. */
  lemma SpeakingScriptsAgree(call: Call, now: real, decision: RouteDecision)
    requires call.adapters.StreamAdapters?
    requires forall i | 0 < i < |call.providers| :: !IsSilent(call.adapters.stream(call.providers[i], i))
    ensures StreamCountAgrees(call, now, decision)
  {
    StreamFallbackCountAgreesExactly(call, now, decision);
    if SilentSuccessAhead(call, 0, now) {
      var opening := OpeningOf(call, 0, now);
      if opening.Fails? {
        NothingSilentAhead(call, 1, NextStep(call, 0, opening.error, opening.later).now);
      }
    }
  }

  // ----- which scripts make the counts differ -----

  /** A provider that refuses at once with an error that is eligible for fallback. */
  const REFUSING := StreamBehaviour([], 0.0, Broken(Normalized(RateLimited)), 0.0)

  /** Two providers with time enough for the second: the first refuses, the second plays a script. */
  function RefusedThen(script: StreamBehaviour): Call {
    var time: Duration := script.lastWait + 1.0;
    Call(["a", "b"], FallbackConfig([RateLimited], 2, true), TimeoutConfig(time, time, time, time), time,
         StreamAdapters((provider: string, index: nat) => if index == 0 then REFUSING else script))
  }

  lemma SilentScriptMiscounts(script: StreamBehaviour, decision: RouteDecision)
    requires IsSilent(script)
    ensures var call, run := RefusedThen(script), RunFrom(RefusedThen(script), 0, 0.0);
            && SilentSuccessAfterFallback(call, 0.0)
            && StreamResponse(run, decision).fallbackCount == 0 && |Transitions(run.log)| == 1
  {
    var call := RefusedThen(script);
    assert OpeningOf(call, 0, 0.0) == Fails(Normalized(RateLimited), 0.0);
    assert NextStep(call, 0, Normalized(RateLimited), 0.0) == Proceed([], 0.0);
    assert OpeningOf(call, 1, 0.0) == Silent;
    SilentSuccessExactly(call, 0, 0.0);
    LogTransitions(call, 0.0);
    SilentFirstExactly(call, 0.0);
    LogShape(call, 0, 0.0);
  }

  /** Every attempt is refused or plays one of the allowed scripts. */
  ghost predicate Plays(call: Call, allowed: StreamBehaviour -> bool) {
    && call.adapters.StreamAdapters?
    && forall i | 0 <= i < |call.providers| ::
         var script := call.adapters.stream(call.providers[i], i);
         allowed(script) || (script.chunks == [] && script.ending.Broken?)
  }

  /**
   * Whatever scripts providers may play besides refusing, the counts agree on every request if and
   * only if none of those scripts is silent.
   */
  lemma CountsAgreeExactlyWithoutSilence(allowed: StreamBehaviour -> bool, decision: RouteDecision)
    ensures (forall call: Call, now: real :: Plays(call, allowed) ==> StreamCountAgrees(call, now, decision))
            <==> (forall script: StreamBehaviour :: allowed(script) ==> !IsSilent(script))
  {
    if forall script: StreamBehaviour :: allowed(script) ==> !IsSilent(script) {
      forall call: Call, now: real | Plays(call, allowed) ensures StreamCountAgrees(call, now, decision) {
        SpeakingScriptsAgree(call, now, decision);
      }
    } else {
      var script: StreamBehaviour :| allowed(script) && IsSilent(script);
      SilentScriptMiscounts(script, decision);
      assert Plays(RefusedThen(script), allowed);
      assert !StreamCountAgrees(RefusedThen(script), 0.0, decision);
    }
  }
}
