/**
 * When a run of the fallback executor tries which provider, told from the providers' behaviours and
 * the clock alone, and how a Retry-After hint lies between two attempts.
 */
module FallbackSchedule {
  import opened Domain
  import opened Policy
  import opened Fallback
  import opened FallbackSafety

  // ----- what an attempt's first step makes of it -----

  function FirstWait(call: Call, i: nat): Seconds
    requires i < |call.providers|
  {
    match call.adapters
    case ChatAdapters(chat) => chat(call.providers[i], i).wait
    case StreamAdapters(stream) =>
      var script := stream(call.providers[i], i);
      if script.chunks == [] then script.lastWait else script.chunks[0].wait
  }

  /** How long the first wait may last, the deadline aside. */
  function FirstBudget(call: Call): Duration {
    if call.adapters.StreamAdapters? && call.timeouts.responseHeader <= call.timeouts.perAttempt
    then call.timeouts.responseHeader
    else call.timeouts.perAttempt
  }

  function Settling(call: Call, i: nat): Seconds
    requires i < |call.providers|
  {
    match call.adapters
    case ChatAdapters(chat) => chat(call.providers[i], i).settle
    case StreamAdapters(stream) => stream(call.providers[i], i).settle
  }

  /** The error with which an attempt fails before it hands anything over, the deadline aside. */
  function FirstFailure(call: Call, i: nat): Option<NormalizedError>
    requires i < |call.providers|
  {
    if FirstWait(call, i) >= FirstBudget(call) then Some(NormalizedError(Timeout, true, None))
    else
      match call.adapters
      case ChatAdapters(chat) =>
        (match chat(call.providers[i], i).reply
         case Refusal(error) => Some(error)
         case Answer(_) => None)
      case StreamAdapters(stream) =>
        var script := stream(call.providers[i], i);
        if script.chunks == [] && script.ending.Broken? then Some(script.ending.error) else None
  }

  /** The provider fails before anything is out, in a way that lets the next one try. */
  predicate HandsOver(call: Call, i: nat)
    requires i < |call.providers|
  {
    match FirstFailure(call, i)
    case None => false
    case Some(error) =>
      error.fallbackEligible && error.errorClass in call.fallback.on && i + 1 < |call.providers|
  }

  /** The time from the start of a failing attempt to the start of the next: its wait and then its hint. */
  function Spent(call: Call, i: nat): Seconds
    requires i < |call.providers|
  {
    var wait, budget := FirstWait(call, i), FirstBudget(call);
    (if wait >= budget then budget else wait)
    + Settling(call, i)
    + match FirstFailure(call, i)
      case Some(NormalizedError(_, _, Some(hint))) => hint
      case _ => 0.0
  }

  /** When attempt i starts in a run that is at attempt `index` now, if every attempt between hands over. */
  function StartTime(call: Call, index: nat, i: nat, now: real): (r: real)
    requires index <= i <= |call.providers|
    ensures now <= r
    decreases i - index
  {
    if index == i then now else StartTime(call, index + 1, i, now + Spent(call, index))
  }

  /** Every provider between hands over, and time is left when provider i has its turn. */
  ghost predicate HasItsTurn(call: Call, index: nat, i: nat, now: real)
    requires index <= i
  {
    && i < |call.providers|
    && (forall k | index <= k < i :: HandsOver(call, k))
    && StartTime(call, index, i, now) < call.deadline
  }

  // ----- who is tried, and when -----

  lemma AttemptOpensAsScripted(call: Call, index: nat, now: real)
    requires index < |call.providers| && now < call.deadline
    ensures var attempt := AttemptAt(call, index, now);
            var wait, budget := FirstWait(call, index), FirstBudget(call);
            var own := if wait >= budget then budget else wait;
            if call.deadline - now <= own then
              && attempt.items == [] && attempt.end == Failed(Normalized(Timeout)) && call.deadline <= attempt.now
            else
              match FirstFailure(call, index)
              case None => attempt.items != [] || attempt.end.Finished?
              case Some(error) =>
                && attempt.items == [] && attempt.end == Failed(error)
                && attempt.now == now + own + Settling(call, index)
  {
    if call.adapters.StreamAdapters? {
      var script := call.adapters.stream(call.providers[index], index);
      assert AttemptAt(call, index, now) == Pull(call, index, script, 0, now, now);
    }
  }

  /** A turn goes on exactly to the next start time, or past the deadline. */
  lemma TurnHandsOver(call: Call, index: nat, now: real)
    requires index < |call.providers| && now < call.deadline
    ensures match TurnAt(call, index, now)
            case Halt(run) =>
              |run.log| == 1 && (HandsOver(call, index) ==> call.deadline <= now + Spent(call, index))
            case Next(_, _, later) =>
              || (HandsOver(call, index) && later == now + Spent(call, index))
              || (call.deadline <= later
                  && (HandsOver(call, index) ==> call.deadline <= now + Spent(call, index)))
  {
    AttemptOpensAsScripted(call, index, now);
  }

  lemma LateTurnsAreNone(call: Call, index: nat, i: nat, now: real)
    requires index <= i && call.deadline <= now
    ensures !HasItsTurn(call, index, i, now)
  {
  }

  /** What a turn makes of the turns after it. */
  lemma TurnsBehind(call: Call, index: nat, i: nat, now: real)
    requires index < |call.providers| && index < i && now < call.deadline
    ensures match TurnAt(call, index, now)
            case Halt(run) => |run.log| == 1 && !HasItsTurn(call, index, i, now)
            case Next(_, _, later) =>
              if call.deadline <= later then !HasItsTurn(call, index, i, now)
              else
                && (HasItsTurn(call, index, i, now) <==> HasItsTurn(call, index + 1, i, later))
                && (i <= |call.providers| ==> StartTime(call, index, i, now) == StartTime(call, index + 1, i, later))
  {
    TurnHandsOver(call, index, now);
    if call.deadline <= now + Spent(call, index) {
      LateTurnsAreNone(call, index + 1, i, now + Spent(call, index));
    }
  }

  lemma FirstTurn(call: Call, index: nat, now: real)
    requires index < |call.providers| && now < call.deadline
    ensures var run := RunFrom(call, index, now);
            && HasItsTurn(call, index, index, now)
            && run.log != [] && run.journal != []
            && run.journal[0] == Started(index, call.providers[index], now)
  {
  }

  /** Provider i is tried, at its start time, exactly when it has its turn. */
  ghost predicate TriedInTurn(call: Call, index: nat, i: nat, now: real, run: Run)
    requires index <= i
  {
    && (i < index + |run.log| <==> HasItsTurn(call, index, i, now))
    && (HasItsTurn(call, index, i, now) ==>
          Started(i, call.providers[i], StartTime(call, index, i, now)) in run.journal)
  }

  /**
   * Who is tried and when, for every run, chat or stream, told from the behaviours and the clock: a
   * provider is tried exactly when every one before it hands over and its start time, which counts
   * each wait and each hint before it, is before the deadline; and it starts at that time.
   */
  lemma {:induction false} TriedExactlyInTurn(call: Call, index: nat, i: nat, now: real)
    requires index <= i && index <= |call.providers|
    ensures TriedInTurn(call, index, i, now, RunFrom(call, index, now))
    decreases |call.providers| - index
  {
    if call.deadline <= now {
      LateTurnsAreNone(call, index, i, now);
      NothingAfterDeadline(call, index, now);
    } else if index < |call.providers| {
      FirstTurn(call, index, now);
      if index < i {
        TurnsBehind(call, index, i, now);
        var turn := TurnAt(call, index, now);
        if turn.Next? {
          TriedBehindATurn(call, index, i, now);
        }
      }
    }
  }

  lemma {:induction false} TriedBehindATurn(call: Call, index: nat, i: nat, now: real)
    requires index < |call.providers| && index < i && now < call.deadline
    requires TurnAt(call, index, now).Next?
    ensures TriedInTurn(call, index, i, now, RunFrom(call, index, now))
    decreases |call.providers| - index, 0
  {
    TurnsBehind(call, index, i, now);
    var turn := TurnAt(call, index, now);
    if call.deadline <= turn.now {
      NothingAfterDeadline(call, index + 1, turn.now);
    } else {
      TriedExactlyInTurn(call, index + 1, i, turn.now);
    }
  }

  // ----- what lies between two attempts -----

  /** Waits alone, none begun before `from` and none ended after `until`. */
  ghost predicate WaitsWithin(journal: seq<Action>, from: real, until: real) {
    forall k | 0 <= k < |journal| ::
      journal[k].Awaited? && from <= journal[k].from <= journal[k].until <= until
  }

  lemma {:induction false} PullWaitsWithin(
    call: Call, index: nat, script: StreamBehaviour, k: nat, started: real, now: real)
    requires index < |call.providers| && k <= |script.chunks|
    ensures var attempt := Pull(call, index, script, k, started, now);
            now <= attempt.now && WaitsWithin(attempt.journal, now, attempt.now)
    decreases |script.chunks| - k
  {
    var waited := WaitForChunk(call, index, k, started, WaitAt(script, k), now);
    if waited.arrival == Arrived && k < |script.chunks| {
      PullWaitsWithin(call, index, script, k + 1, started, waited.now + script.chunks[k].pause);
    }
  }

  lemma AttemptWaitsWithin(call: Call, index: nat, now: real)
    requires index < |call.providers| && now < call.deadline
    ensures var attempt := AttemptAt(call, index, now);
            now <= attempt.now && WaitsWithin(attempt.journal, now, attempt.now)
  {
    if call.adapters.StreamAdapters? {
      PullWaitsWithin(call, index, call.adapters.stream(call.providers[index], index), 0, now, now);
    }
  }

  /**
   * Attempt i starts at position a and the next at b. Between them lie the waits of attempt i and
   * then, if and only if it was given a hint, one sleep as long as the hint that nothing overlaps.
   */
  ghost predicate HandedOver(journal: seq<Action>, i: nat, hint: Option<Seconds>, a: nat, b: nat) {
    && a < b < |journal|
    && journal[a].Started? && journal[a].index == i
    && journal[b].Started? && journal[b].index == i + 1
    && match hint
       case None => WaitsWithin(journal[a + 1..b], journal[a].at, journal[b].at)
       case Some(delay) =>
         && a < b - 1
         && journal[b - 1].Slept?
         && var slept := journal[b - 1];
         && slept == Slept(i, delay, slept.from, slept.from + delay)
         && slept.until <= journal[b].at
         && WaitsWithin(journal[a + 1..b - 1], journal[a].at, slept.from)
  }

  lemma HandedOverLater(journal: seq<Action>, rest: seq<Action>, i: nat, hint: Option<Seconds>, a: nat, b: nat)
    requires HandedOver(rest, i, hint, a, b)
    ensures HandedOver(journal + rest, i, hint, |journal| + a, |journal| + b)
  {
    var all, n := journal + rest, |journal|;
    assert all[n + a + 1..n + b] == rest[a + 1..b];
    if hint.Some? {
      assert all[n + a + 1..n + b - 1] == rest[a + 1..b - 1];
    }
  }

  lemma TurnIsHandedOver(call: Call, index: nat, now: real)
    requires index < |call.providers|
    requires TurnAt(call, index, now).Next?
    ensures var turn := TurnAt(call, index, now);
            && now < call.deadline
            && forall next: Action :: next.Started? && next.index == index + 1 && next.at == turn.now ==>
                 HandedOver(turn.journal + [next], index, turn.entry.retryAfter, 0, |turn.journal|)
  {
    AttemptWaitsWithin(call, index, now);
    var attempt, turn := AttemptAt(call, index, now), TurnAt(call, index, now);
    forall next: Action | next.Started? && next.index == index + 1 && next.at == turn.now
      ensures HandedOver(turn.journal + [next], index, turn.entry.retryAfter, 0, |turn.journal|)
    {
      var all, n := turn.journal + [next], |attempt.journal|;
      assert all[1..n + 1] == attempt.journal;
    }
  }

  lemma HandedOverStays(journal: seq<Action>, rest: seq<Action>, i: nat, hint: Option<Seconds>, a: nat, b: nat)
    requires HandedOver(journal, i, hint, a, b)
    ensures HandedOver(journal + rest, i, hint, a, b)
  {
    var all := journal + rest;
    assert all[a + 1..b] == journal[a + 1..b];
    if hint.Some? {
      assert all[a + 1..b - 1] == journal[a + 1..b - 1];
    }
  }

  lemma StartsFirst(call: Call, index: nat, now: real)
    requires index <= |call.providers| && RunFrom(call, index, now).log != []
    ensures var run := RunFrom(call, index, now);
            index < |call.providers| && run.journal != []
            && run.journal[0] == Started(index, call.providers[index], now)
  {
  }

  /** The journal puts attempt i and the next in their places. */
  ghost predicate IsHandedOver(journal: seq<Action>, i: nat, hint: Option<Seconds>) {
    exists a: nat, b: nat :: HandedOver(journal, i, hint, a, b)
  }

  lemma HandedOverToFirst(journal: seq<Action>, rest: seq<Action>, i: nat, hint: Option<Seconds>)
    requires rest != [] && HandedOver(journal + [rest[0]], i, hint, 0, |journal|)
    ensures IsHandedOver(journal + rest, i, hint)
  {
    HandedOverStays(journal + [rest[0]], rest[1..], i, hint, 0, |journal|);
    assert journal + [rest[0]] + rest[1..] == journal + rest;
  }

  lemma FirstIsHandedOver(call: Call, index: nat, now: real)
    requires index < |call.providers| && TurnAt(call, index, now).Next?
    requires RunFrom(call, index + 1, TurnAt(call, index, now).now).log != []
    ensures var turn := TurnAt(call, index, now);
            IsHandedOver(turn.journal + RunFrom(call, index + 1, turn.now).journal, index, turn.entry.retryAfter)
  {
    var turn := TurnAt(call, index, now);
    TurnIsHandedOver(call, index, now);
    StartsFirst(call, index + 1, turn.now);
    HandedOverToFirst(turn.journal, RunFrom(call, index + 1, turn.now).journal, index, turn.entry.retryAfter);
  }

  /** The hints of a run that began with attempt `index` are all waited out before the next attempt. */
  ghost predicate WaitsOut(run: Run, index: nat) {
    forall j: nat | j + 1 < |run.log| :: WaitsOutHint(run, index, j)
  }

  /** The hint of the run's j-th attempt is waited out before the next. */
  ghost predicate WaitsOutHint(run: Run, index: nat, j: nat)
    requires j < |run.log|
  {
    IsHandedOver(run.journal, index + j, run.log[j].retryAfter)
  }

  lemma OneMoreWaitedOut(run: Run, index: nat, entry: AttemptOutcome, journal: seq<Action>, rest: Run)
    requires run.log == [entry] + rest.log && run.journal == journal + rest.journal
    requires IsHandedOver(run.journal, index, entry.retryAfter) && WaitsOut(rest, index + 1)
    ensures WaitsOut(run, index)
  {
    forall j: nat | j + 1 < |run.log| ensures WaitsOutHint(run, index, j) {
      if j > 0 {
        assert WaitsOutHint(rest, index + 1, j - 1);
        var hint := rest.log[j - 1].retryAfter;
        var a: nat, b: nat :| HandedOver(rest.journal, index + j, hint, a, b);
        HandedOverLater(journal, rest.journal, index + j, hint, a, b);
      }
    }
  }

  /** A run that tries more than one provider goes on after its first turn, which is handed over. */
  lemma RunGoesOn(call: Call, index: nat, now: real)
    returns (entry: AttemptOutcome, journal: seq<Action>, later: real)
    requires index <= |call.providers| && |RunFrom(call, index, now).log| > 1
    ensures index < |call.providers|
    ensures var run, rest := RunFrom(call, index, now), RunFrom(call, index + 1, later);
            run.log == [entry] + rest.log && run.journal == journal + rest.journal
            && IsHandedOver(run.journal, index, entry.retryAfter)
  {
    var turn := TurnAt(call, index, now);
    FirstIsHandedOver(call, index, now);
    return turn.entry, turn.journal, turn.now;
  }

  lemma WaitsOutIfRestDoes(call: Call, index: nat, now: real) returns (later: real)
    requires index <= |call.providers| && |RunFrom(call, index, now).log| > 1
    ensures index < |call.providers|
    ensures WaitsOut(RunFrom(call, index + 1, later), index + 1) ==> WaitsOut(RunFrom(call, index, now), index)
  {
    var entry, journal;
    entry, journal, later := RunGoesOn(call, index, now);
    if WaitsOut(RunFrom(call, index + 1, later), index + 1) {
      OneMoreWaitedOut(RunFrom(call, index, now), index, entry, journal, RunFrom(call, index + 1, later));
    }
  }

  /**
   * Every hint is waited out. Between the starts of an attempt and its successor the journal holds
   * the waits of that attempt, and after them exactly the sleep that the logged hint asks for, so
   * the successor starts no earlier than the end of those waits plus the hint.
   */
  lemma {:induction false} HintsAreWaitedOut(call: Call, index: nat, now: real)
    requires index <= |call.providers|
    ensures WaitsOut(RunFrom(call, index, now), index)
    decreases |call.providers| - index
  {
    if |RunFrom(call, index, now).log| > 1 {
      var later := WaitsOutIfRestDoes(call, index, now);
      HintsAreWaitedOut(call, index + 1, later);
    }
  }
}
