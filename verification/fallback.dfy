/**
 * The bounded fallback executor: a loop over the permitted providers with per-attempt budgets,
 * a global deadline, Retry-After waits and an attempt log.
 *
 * An adapter is a function from a provider name and an attempt number to a script of what that
 * attempt does and how long each step takes; every theorem holds for all such functions. Time is
 * one real clock. `RunFrom` says what a run does; the class below carries it out step by step.
 */
module Fallback {
  import opened Domain
  import opened Policy

  // ----- what adapters may do -----

  datatype ChatReply = Answer(result: ProviderResult) | Refusal(error: NormalizedError)

  /** A reply after `wait`; `settle` is the time until the executor reads the clock again. */
  datatype ChatBehaviour = ChatBehaviour(wait: Seconds, reply: ChatReply, settle: Seconds)

  /** A chunk that arrives after `wait` and that the consumer then holds for `pause`. */
  datatype TimedChunk = TimedChunk(wait: Seconds, chunk: ProviderChunk, pause: Seconds)

  datatype StreamEnding = Exhausted | Broken(error: NormalizedError)

  datatype StreamBehaviour = StreamBehaviour(
    chunks: seq<TimedChunk>,
    lastWait: Seconds,
    ending: StreamEnding,
    settle: Seconds)

  datatype Adapters =
    | ChatAdapters(chat: (string, nat) -> ChatBehaviour)
    | StreamAdapters(stream: (string, nat) -> StreamBehaviour)

  // ----- what a run leaves behind -----

  datatype Item = Item(provider: string, index: nat, chunk: ProviderChunk)

  /** Everything the executor does that takes time or reaches a provider. */
  datatype Action =
    | Started(index: nat, provider: string, at: real)
    | Awaited(index: nat, started: real, from: real, until: real, first: bool)
    | Slept(index: nat, hint: Seconds, from: real, until: real)

  /** Where an exception leaves the executor. */
  datatype Site = DeadlineCheck | AfterAttempt | MidStream | ClosingRaise

  datatype Ending =
    | Completed(provider: string, index: nat, answer: Option<ProviderResult>)
    | Raised(error: NormalizedError, site: Site)

  datatype Run = Run(
    items: seq<Item>,
    log: seq<AttemptOutcome>,
    journal: seq<Action>,
    ending: Ending,
    now: real)

  datatype Call = Call(
    providers: seq<string>,
    fallback: FallbackConfig,
    timeouts: TimeoutConfig,
    deadline: real,
    adapters: Adapters)

  function Min(a: real, b: real): real { if a <= b then a else b }

  /**
   * The decision's providers as the data policy leaves them, up to the attempt limit, or the name
   * that a filter could not look up.
   */
  function PermittedProviders(policy: RoutingPolicy, decision: RouteDecision, dataClass: DataClass)
    : (permitted: Result<seq<string>, string>)
    ensures Known(policy, decision.Providers()) ==> permitted.Ok?
  {
    var names :=
      if policy.fallback.neverCrossDataPolicy && dataClass == Restricted
      then LookUpInternals(policy, decision.Providers())
      else Ok(decision.Providers());
    if names.Err? then names
    else if |names.value| <= policy.fallback.maxAttempts then names
    else Ok(names.value[..policy.fallback.maxAttempts])
  }

  /** The call an executor with this policy makes for a decision it can look up. */
  function CallFor(
    policy: RoutingPolicy, decision: RouteDecision, dataClass: DataClass, deadline: real, adapters: Adapters): Call
    requires PermittedProviders(policy, decision, dataClass).Ok?
  {
    Call(PermittedProviders(policy, decision, dataClass).value, policy.fallback, policy.timeouts, deadline, adapters)
  }

  predicate Eligible(fallback: FallbackConfig, error: NormalizedError) {
    error.fallbackEligible && error.errorClass in fallback.on
  }

  function Failure(provider: string, error: NormalizedError): AttemptOutcome {
    AttemptOutcome(provider, Some(error.errorClass), error.retryAfter)
  }

  function Success(provider: string): AttemptOutcome {
    AttemptOutcome(provider, None, None)
  }

  // ----- one attempt -----

  datatype AttemptEnd = Finished(answer: Option<ProviderResult>) | Failed(error: NormalizedError)

  datatype Attempt = Attempt(items: seq<Item>, journal: seq<Action>, end: AttemptEnd, now: real)

  function ChatAttempt(call: Call, index: nat, now: real): Attempt
    requires call.adapters.ChatAdapters? && index < |call.providers|
  {
    var behaviour := call.adapters.chat(call.providers[index], index);
    var budget := Min(call.timeouts.perAttempt, call.deadline - now);
    var until := now + Min(behaviour.wait, budget);
    var end :=
      if behaviour.wait >= budget then Failed(Normalized(Timeout))
      else match behaviour.reply
        case Answer(result) => Finished(Some(result))
        case Refusal(error) => Failed(error);
    Attempt([], [Awaited(index, now, now, until, true)], end, until + behaviour.settle)
  }

  function IdleBudget(timeouts: TimeoutConfig, k: nat): Duration {
    if k == 0 then timeouts.responseHeader else timeouts.streamIdle
  }

  datatype Arrival = Spent | Late | Arrived

  datatype Waited = Waited(arrival: Arrival, journal: seq<Action>, now: real)

  /**
   * Waiting for one chunk under the least of the idle budget, the time left to the global
   * deadline and the time left to the attempt's own deadline. Without a budget nothing is awaited.
   */
  function WaitForChunk(call: Call, index: nat, k: nat, started: real, wait: Seconds, now: real): Waited {
    var budget := Min(Min(IdleBudget(call.timeouts, k), call.deadline - now),
                      started + call.timeouts.perAttempt - now);
    if budget <= 0.0 then Waited(Spent, [], now)
    else
      var until := now + Min(wait, budget);
      Waited(if wait >= budget then Late else Arrived, [Awaited(index, started, now, until, k == 0)], until)
  }

  function EndOf(ending: StreamEnding): AttemptEnd {
    match ending
    case Exhausted => Finished(None)
    case Broken(error) => Failed(error)
  }

  function Resume(items: seq<Item>, journal: seq<Action>, rest: Attempt): Attempt {
    Attempt(items + rest.items, journal + rest.journal, rest.end, rest.now)
  }

  /** The rest of a streaming attempt that began at `started` and has already yielded k chunks. */
  function Pull(call: Call, index: nat, behaviour: StreamBehaviour, k: nat, started: real, now: real): Attempt
    requires index < |call.providers| && k <= |behaviour.chunks|
    decreases |behaviour.chunks| - k
  {
    var wait := if k < |behaviour.chunks| then behaviour.chunks[k].wait else behaviour.lastWait;
    var waited := WaitForChunk(call, index, k, started, wait, now);
    if waited.arrival != Arrived then
      Attempt([], waited.journal, Failed(Normalized(Timeout)), waited.now + behaviour.settle)
    else if k == |behaviour.chunks| then
      Attempt([], waited.journal, EndOf(behaviour.ending), waited.now + behaviour.settle)
    else
      Resume([Item(call.providers[index], index, behaviour.chunks[k].chunk)], waited.journal,
             Pull(call, index, behaviour, k + 1, started, waited.now + behaviour.chunks[k].pause))
  }

  function AttemptAt(call: Call, index: nat, now: real): Attempt
    requires index < |call.providers|
  {
    match call.adapters
    case ChatAdapters(_) => ChatAttempt(call, index, now)
    case StreamAdapters(stream) =>
      Pull(call, index, stream(call.providers[index], index), 0, now, now)
  }

  // ----- what follows a failed attempt -----

  datatype Onward = Stop | Proceed(journal: seq<Action>, now: real)

  function WaitForRetryAfter(call: Call, index: nat, error: NormalizedError, now: real): Onward {
    match error.retryAfter
    case None => Proceed([], now)
    case Some(hint) =>
      var remaining := call.deadline - now;
      var delay := Min(hint, remaining);
      if remaining - delay <= 0.0 then Stop
      else Proceed([Slept(index, hint, now, now + delay)], now + delay)
  }

  function NextStep(call: Call, index: nat, error: NormalizedError, now: real): Onward {
    if index + 1 == |call.providers| || !Eligible(call.fallback, error) then Stop
    else WaitForRetryAfter(call, index, error, now)
  }

  // ----- a whole run -----

  function After(items: seq<Item>, log: seq<AttemptOutcome>, journal: seq<Action>, rest: Run): Run {
    Run(items + rest.items, log + rest.log, journal + rest.journal, rest.ending, rest.now)
  }

  /** One turn of the loop: it ends the run, or logs a failure and goes on at a later time. */
  datatype Turn = Halt(run: Run) | Next(entry: AttemptOutcome, journal: seq<Action>, now: real)

  function TurnAt(call: Call, index: nat, now: real): Turn
    requires index < |call.providers|
  {
    if call.deadline - now <= 0.0 then
      Halt(Run([], [], [], Raised(Normalized(Timeout), DeadlineCheck), now))
    else
      var provider := call.providers[index];
      var attempt := AttemptAt(call, index, now);
      var journal := [Started(index, provider, now)] + attempt.journal;
      match attempt.end
      case Finished(answer) =>
        Halt(Run(attempt.items, [Success(provider)], journal, Completed(provider, index, answer), attempt.now))
      case Failed(error) =>
        var entry := Failure(provider, error);
        if attempt.items != [] then
          Halt(Run(attempt.items, [entry], journal, Raised(Normalized(StreamStartedFailure), MidStream), attempt.now))
        else
          match NextStep(call, index, error, attempt.now)
          case Stop => Halt(Run([], [entry], journal, Raised(error, AfterAttempt), attempt.now))
          case Proceed(pause, later) => Next(entry, journal + pause, later)
  }

  function RunFrom(call: Call, index: nat, now: real): Run
    requires index <= |call.providers|
    decreases |call.providers| - index
  {
    if index == |call.providers| then
      Run([], [], [], Raised(Normalized(Timeout), ClosingRaise), now)
    else
      match TurnAt(call, index, now)
      case Halt(run) => run
      case Next(entry, journal, later) => After([], [entry], journal, RunFrom(call, index + 1, later))
  }

  // ----- the executor -----

  /** The clock of the process; awaiting and sleeping move it and are noted in the journal. */
  class EventLoop {
    var now: real
    ghost var journal: seq<Action>

    constructor (start: real)
      ensures now == start && journal == []
    {
      now, journal := start, [];
    }

    ghost method Note(action: Action)
      modifies this`journal
      ensures journal == old(journal) + [action]
    {
      journal := journal + [action];
    }

    /** Runs an operation that would take `wait` under a timeout of `budget`. */
    method Await(index: nat, started: real, first: bool, wait: Seconds, budget: real) returns (timedOut: bool)
      modifies this
      ensures timedOut == (wait >= budget)
      ensures now == old(now) + Min(wait, budget)
      ensures journal == old(journal) + [Awaited(index, started, old(now), now, first)]
    {
      timedOut := wait >= budget;
      var from := now;
      now := now + (if timedOut then budget else wait);
      Note(Awaited(index, started, from, now, first));
    }

    method Pass(duration: Seconds)
      modifies this`now
      ensures now == old(now) + duration
    {
      now := now + duration;
    }
  }

  /** The loop has lived through exactly this run since its journal read `earlier`. */
  ghost predicate Recorded(loop: EventLoop, earlier: seq<Action>, run: Run)
    reads loop
  {
    loop.now == run.now && loop.journal == earlier + run.journal
  }

  class AttemptLog {
    var entries: seq<AttemptOutcome>

    constructor ()
      ensures entries == []
    {
      entries := [];
    }

    method Append(entry: AttemptOutcome)
      modifies this
      ensures entries == old(entries) + [entry]
    {
      entries := entries + [entry];
    }
  }

  class FallbackExecutor {
    const policy: RoutingPolicy

    constructor (policy: RoutingPolicy)
      ensures this.policy == policy
    {
      this.policy := policy;
    }

    /** Waits out a Retry-After hint, or reports that the deadline leaves no time for it. */
    method WaitOut(loop: EventLoop, index: nat, error: NormalizedError, deadline: real, ghost call: Call)
      returns (proceed: bool)
      requires call.deadline == deadline
      modifies loop
      ensures match WaitForRetryAfter(call, index, error, old(loop.now))
              case Stop => !proceed && loop.now == old(loop.now) && loop.journal == old(loop.journal)
              case Proceed(pause, later) =>
                proceed && loop.now == later && loop.journal == old(loop.journal) + pause
      ensures match error.retryAfter
              case None => proceed && loop.now == old(loop.now)
              case Some(hint) =>
                && (proceed <==> old(loop.now) + hint < deadline)
                && (proceed ==>
                      && loop.now == old(loop.now) + hint
                      && loop.journal == old(loop.journal) + [Slept(index, hint, old(loop.now), loop.now)])
    {
      if error.retryAfter.None? {
        return true;
      }
      var hint := error.retryAfter.value;
      var remaining := deadline - loop.now;
      var delay := if hint <= remaining then hint else remaining;
      if remaining - delay <= 0.0 {
        return false;
      }
      ghost var from := loop.now;
      loop.Pass(delay);
      loop.Note(Slept(index, hint, from, loop.now));
      return true;
    }

    /** One attempt under its budget: the lesser of the attempt timeout and the time left. */
    method AttemptChat(loop: EventLoop, index: nat, behaviour: ChatBehaviour, deadline: real, ghost call: Call)
      returns (end: AttemptEnd)
      requires call.adapters.ChatAdapters? && index < |call.providers|
      requires call.deadline == deadline && call.timeouts == policy.timeouts
      requires behaviour == call.adapters.chat(call.providers[index], index)
      modifies loop
      ensures var attempt := ChatAttempt(call, index, old(loop.now));
              end == attempt.end && loop.now == attempt.now && loop.journal == old(loop.journal) + attempt.journal
    {
      var budget := Min(policy.timeouts.perAttempt, deadline - loop.now);
      var timedOut := loop.Await(index, loop.now, true, behaviour.wait, budget);
      loop.Pass(behaviour.settle);
      if timedOut {
        return Failed(Normalized(Timeout));
      }
      match behaviour.reply {
        case Answer(result) => return Finished(Some(result));
        case Refusal(error) => return Failed(error);
      }
    }

    /** A chat request for any decision; a failed lookup leaves before anything is tried. */
    method Chat(
      loop: EventLoop, decision: RouteDecision, dataClass: DataClass,
      behaviours: (string, nat) -> ChatBehaviour, deadline: real)
      returns (result: Result<(Ending, seq<AttemptOutcome>), string>)
      modifies loop
      ensures var permitted := PermittedProviders(policy, decision, dataClass);
              match permitted
              case Err(name) =>
                result == Err(name) && loop.now == old(loop.now) && loop.journal == old(loop.journal)
              case Ok(_) =>
                var call := CallFor(policy, decision, dataClass, deadline, ChatAdapters(behaviours));
                var run := RunFrom(call, 0, old(loop.now));
                Recorded(loop, old(loop.journal), run) && result == Ok((run.ending, run.log))
    {
      var permitted := PermittedProviders(policy, decision, dataClass);
      if permitted.Err? {
        return Err(permitted.error);
      }
      var ending, attempts := ChatInTurn(loop, permitted.value, behaviours, deadline);
      return Ok((ending, attempts));
    }

    method ChatInTurn(
      loop: EventLoop, providers: seq<string>, behaviours: (string, nat) -> ChatBehaviour, deadline: real)
      returns (ending: Ending, attempts: seq<AttemptOutcome>)
      modifies loop
      ensures var call := Call(providers, policy.fallback, policy.timeouts, deadline, ChatAdapters(behaviours));
              var run := RunFrom(call, 0, old(loop.now));
              Recorded(loop, old(loop.journal), run) && ending == run.ending && attempts == run.log
    {
      ghost var call := Call(providers, policy.fallback, policy.timeouts, deadline, ChatAdapters(behaviours));
      ghost var whole := RunFrom(call, 0, loop.now);
      ghost var rest := whole;
      attempts := [];
      for index := 0 to |providers|
        invariant rest == RunFrom(call, index, loop.now)
        invariant rest.ending == whole.ending && rest.now == whole.now
        invariant loop.journal + rest.journal == old(loop.journal) + whole.journal
        invariant attempts + rest.log == whole.log
      {
        if deadline - loop.now <= 0.0 {
          return Raised(Normalized(Timeout), DeadlineCheck), attempts;
        }
        var name := providers[index];
        ghost var before, start := loop.journal, [Started(index, name, loop.now)];
        ghost var attempt := AttemptAt(call, index, loop.now);
        loop.Note(start[0]);
        var end := AttemptChat(loop, index, behaviours(name, index), deadline, call);
        Assoc(before, start, attempt.journal);
        if end.Finished? {
          attempts := attempts + [Success(name)];
          return Completed(name, index, end.answer), attempts;
        }
        attempts := attempts + [Failure(name, end.error)];
        if index == |providers| - 1 || !Eligible(policy.fallback, end.error) {
          return Raised(end.error, AfterAttempt), attempts;
        }
        ghost var onward := WaitForRetryAfter(call, index, end.error, loop.now);
        var proceed := WaitOut(loop, index, end.error, deadline, call);
        if !proceed {
          return Raised(end.error, AfterAttempt), attempts;
        }
        rest := RunFrom(call, index + 1, loop.now);
        Assoc(before, start + attempt.journal, onward.journal);
        Assoc(before, start + attempt.journal + onward.journal, rest.journal);
        Assoc(attempts[..|attempts| - 1], [Failure(name, end.error)], rest.log);
      }
      return Raised(Normalized(Timeout), ClosingRaise), attempts;
    }

    method AwaitChunk(
      loop: EventLoop, index: nat, k: nat, started: real, wait: Seconds, deadline: real, ghost call: Call)
      returns (arrival: Arrival)
      requires call.deadline == deadline && call.timeouts == policy.timeouts
      modifies loop
      ensures var waited := WaitForChunk(call, index, k, started, wait, old(loop.now));
              && arrival == waited.arrival && loop.now == waited.now
              && loop.journal == old(loop.journal) + waited.journal
    {
      var budget := Min(Min(IdleBudget(policy.timeouts, k), deadline - loop.now),
                        started + policy.timeouts.perAttempt - loop.now);
      if budget <= 0.0 {
        return Spent;
      }
      var timedOut := loop.Await(index, started, k == 0, wait, budget);
      return if timedOut then Late else Arrived;
    }

    method AttemptStream(
      loop: EventLoop, name: string, index: nat, behaviour: StreamBehaviour, deadline: real, ghost call: Call)
      returns (items: seq<Item>, end: AttemptEnd)
      requires call.adapters.StreamAdapters? && index < |call.providers| && name == call.providers[index]
      requires call.deadline == deadline && call.timeouts == policy.timeouts
      requires behaviour == call.adapters.stream(name, index)
      modifies loop
      ensures var attempt := AttemptAt(call, index, old(loop.now));
              && items == attempt.items && end == attempt.end
              && loop.now == attempt.now && loop.journal == old(loop.journal) + attempt.journal
    {
      var started := loop.now;
      ghost var whole := AttemptAt(call, index, loop.now);
      ghost var rest := whole;
      items := [];
      var k := 0;
      while true
        invariant 0 <= k <= |behaviour.chunks|
        invariant rest == Pull(call, index, behaviour, k, started, loop.now)
        invariant items + rest.items == whole.items && rest.end == whole.end && rest.now == whole.now
        invariant loop.journal + rest.journal == old(loop.journal) + whole.journal
        decreases |behaviour.chunks| - k
      {
        var wait := if k < |behaviour.chunks| then behaviour.chunks[k].wait else behaviour.lastWait;
        ghost var before, waited := loop.journal, WaitForChunk(call, index, k, started, wait, loop.now);
        var arrival := AwaitChunk(loop, index, k, started, wait, deadline, call);
        if arrival != Arrived || k == |behaviour.chunks| {
          loop.Pass(behaviour.settle);
          return items, if arrival != Arrived then Failed(Normalized(Timeout)) else EndOf(behaviour.ending);
        }
        var item := Item(name, index, behaviour.chunks[k].chunk);
        loop.Pass(behaviour.chunks[k].pause);
        ghost var rest' := Pull(call, index, behaviour, k + 1, started, loop.now);
        Assoc(before, waited.journal, rest'.journal);
        Assoc(items, [item], rest'.items);
        items, rest, k := items + [item], rest', k + 1;
      }
    }

    /** A streamed request for any decision, consumed to its end. */
    method Stream(
      loop: EventLoop, decision: RouteDecision, dataClass: DataClass,
      behaviours: (string, nat) -> StreamBehaviour, deadline: real, attemptLog: AttemptLog)
      returns (result: Result<(seq<Item>, Ending), string>)
      modifies loop, attemptLog
      ensures var permitted := PermittedProviders(policy, decision, dataClass);
              match permitted
              case Err(name) =>
                && result == Err(name) && loop.now == old(loop.now) && loop.journal == old(loop.journal)
                && attemptLog.entries == old(attemptLog.entries)
              case Ok(_) =>
                var call := CallFor(policy, decision, dataClass, deadline, StreamAdapters(behaviours));
                var run := RunFrom(call, 0, old(loop.now));
                && Recorded(loop, old(loop.journal), run) && result == Ok((run.items, run.ending))
                && attemptLog.entries == old(attemptLog.entries) + run.log
    {
      var permitted := PermittedProviders(policy, decision, dataClass);
      if permitted.Err? {
        return Err(permitted.error);
      }
      var items, ending := StreamInTurn(loop, permitted.value, behaviours, deadline, attemptLog);
      return Ok((items, ending));
    }

    method StreamInTurn(
      loop: EventLoop, providers: seq<string>, behaviours: (string, nat) -> StreamBehaviour, deadline: real,
      attemptLog: AttemptLog)
      returns (items: seq<Item>, ending: Ending)
      modifies loop, attemptLog
      ensures var call := Call(providers, policy.fallback, policy.timeouts, deadline, StreamAdapters(behaviours));
              var run := RunFrom(call, 0, old(loop.now));
              && Recorded(loop, old(loop.journal), run) && items == run.items && ending == run.ending
              && attemptLog.entries == old(attemptLog.entries) + run.log
    {
      ghost var call := Call(providers, policy.fallback, policy.timeouts, deadline, StreamAdapters(behaviours));
      ghost var whole := RunFrom(call, 0, loop.now);
      ghost var rest := whole;
      for index := 0 to |providers|
        invariant rest == RunFrom(call, index, loop.now)
        invariant rest.items == whole.items && rest.ending == whole.ending && rest.now == whole.now
        invariant loop.journal + rest.journal == old(loop.journal) + whole.journal
        invariant attemptLog.entries + rest.log == old(attemptLog.entries) + whole.log
      {
        if deadline - loop.now <= 0.0 {
          return [], Raised(Normalized(Timeout), DeadlineCheck);
        }
        var name := providers[index];
        ghost var before, start := loop.journal, [Started(index, name, loop.now)];
        ghost var attempt := AttemptAt(call, index, loop.now);
        loop.Note(start[0]);
        var end;
        items, end := AttemptStream(loop, name, index, behaviours(name, index), deadline, call);
        Assoc(before, start, attempt.journal);
        if end.Finished? {
          attemptLog.Append(Success(name));
          return items, Completed(name, index, end.answer);
        }
        attemptLog.Append(Failure(name, end.error));
        if items != [] {
          return items, Raised(Normalized(StreamStartedFailure), MidStream);
        }
        if index == |providers| - 1 || !Eligible(policy.fallback, end.error) {
          return [], Raised(end.error, AfterAttempt);
        }
        ghost var onward := WaitForRetryAfter(call, index, end.error, loop.now);
        var proceed := WaitOut(loop, index, end.error, deadline, call);
        if !proceed {
          return [], Raised(end.error, AfterAttempt);
        }
        rest := RunFrom(call, index + 1, loop.now);
        Assoc(before, start + attempt.journal, onward.journal);
        Assoc(before, start + attempt.journal + onward.journal, rest.journal);
        Assoc(attemptLog.entries[..|attemptLog.entries| - 1], [Failure(name, end.error)], rest.log);
      }
      return [], Raised(Normalized(Timeout), ClosingRaise);
    }
  }
}
