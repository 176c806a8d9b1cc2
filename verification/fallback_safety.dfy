/** What every run of the fallback executor keeps: order, no replay, deadlines, data policy. */
module FallbackSafety {
  import opened Domain
  import opened Policy
  import opened Fallback

  // ----- attempts, log and ending -----

  /** The attempts started, in order, as (attempt number, provider). */
  function Starts(journal: seq<Action>): seq<(nat, string)> {
    if journal == [] then []
    else
      match journal[0]
      case Started(index, provider, _) => [(index, provider)] + Starts(journal[1..])
      case _ => Starts(journal[1..])
  }

  lemma {:induction false} StartsConcat(a: seq<Action>, b: seq<Action>)
    ensures Starts(a + b) == Starts(a) + Starts(b)
  {
    if a == [] {
      assert a + b == b;
    } else {
      assert (a + b)[1..] == a[1..] + b;
      StartsConcat(a[1..], b);
    }
  }

  /** The starts are attempts index, index + 1, ... at the providers of those positions. */
  ghost predicate InOrder(call: Call, index: nat, starts: seq<(nat, string)>) {
    && index + |starts| <= |call.providers|
    && forall j | 0 <= j < |starts| :: starts[j] == (index + j, call.providers[index + j])
  }

  /** What an attempt that yielded n chunks has handed over: its script's first n chunks. */
  function Delivered(call: Call, index: nat, n: nat): seq<Item>
    requires call.adapters.StreamAdapters? && index < |call.providers|
    requires n <= |call.adapters.stream(call.providers[index], index).chunks|
  {
    var chunks := call.adapters.stream(call.providers[index], index).chunks;
    seq(n, k requires 0 <= k < n => Item(call.providers[index], index, chunks[k].chunk))
  }

  /** The attempt's script ended of itself and every chunk of it was handed over. */
  ghost predicate Served(call: Call, index: nat, items: seq<Item>)
    requires call.adapters.StreamAdapters? && index < |call.providers|
  {
    var behaviour := call.adapters.stream(call.providers[index], index);
    behaviour.ending == Exhausted && items == Delivered(call, index, |behaviour.chunks|)
  }

  lemma DeliveredFrom(call: Call, index: nat, k: nat, n: nat)
    requires call.adapters.StreamAdapters? && index < |call.providers|
    requires k < n <= |call.adapters.stream(call.providers[index], index).chunks|
    ensures Delivered(call, index, n)[k..]
            == [Item(call.providers[index], index, call.adapters.stream(call.providers[index], index).chunks[k].chunk)]
               + Delivered(call, index, n)[k + 1..]
  {
  }

  lemma {:induction false} PullStartsNothing(
    call: Call, index: nat, behaviour: StreamBehaviour, k: nat, started: real, now: real)
    requires index < |call.providers| && k <= |behaviour.chunks|
    ensures Starts(Pull(call, index, behaviour, k, started, now).journal) == []
    decreases |behaviour.chunks| - k
  {
    var wait := if k < |behaviour.chunks| then behaviour.chunks[k].wait else behaviour.lastWait;
    var waited := WaitForChunk(call, index, k, started, wait, now);
    if waited.arrival == Arrived && k < |behaviour.chunks| {
      var later := waited.now + behaviour.chunks[k].pause;
      PullStartsNothing(call, index, behaviour, k + 1, started, later);
      StartsConcat(waited.journal, Pull(call, index, behaviour, k + 1, started, later).journal);
    }
  }

  lemma {:induction false} PullDelivers(
    call: Call, index: nat, behaviour: StreamBehaviour, k: nat, started: real, now: real)
    requires index < |call.providers| && k <= |behaviour.chunks|
    requires call.adapters.StreamAdapters? && behaviour == call.adapters.stream(call.providers[index], index)
    ensures var attempt := Pull(call, index, behaviour, k, started, now);
            && k + |attempt.items| <= |behaviour.chunks|
            && attempt.items == Delivered(call, index, k + |attempt.items|)[k..]
            && (attempt.end.Finished? ==>
                  attempt.end == Finished(None) && behaviour.ending == Exhausted
                  && k + |attempt.items| == |behaviour.chunks|)
    decreases |behaviour.chunks| - k
  {
    var wait := if k < |behaviour.chunks| then behaviour.chunks[k].wait else behaviour.lastWait;
    var waited := WaitForChunk(call, index, k, started, wait, now);
    if waited.arrival == Arrived && k < |behaviour.chunks| {
      var later := waited.now + behaviour.chunks[k].pause;
      PullDelivers(call, index, behaviour, k + 1, started, later);
      var rest := Pull(call, index, behaviour, k + 1, started, later);
      DeliveredFrom(call, index, k, k + 1 + |rest.items|);
    }
  }

  lemma AttemptDelivers(call: Call, index: nat, now: real)
    requires index < |call.providers|
    ensures var attempt := AttemptAt(call, index, now);
            && Starts(attempt.journal) == []
            && (call.adapters.ChatAdapters? ==> attempt.items == [])
            && (call.adapters.StreamAdapters? ==>
                  && |attempt.items| <= |call.adapters.stream(call.providers[index], index).chunks|
                  && attempt.items == Delivered(call, index, |attempt.items|)
                  && (attempt.end.Finished? ==> Served(call, index, attempt.items)))
  {
    if call.adapters.StreamAdapters? {
      PullDelivers(call, index, call.adapters.stream(call.providers[index], index), 0, now, now);
      PullStartsNothing(call, index, call.adapters.stream(call.providers[index], index), 0, now, now);
    }
  }

  /** Why a run that began at `index` ended by an exception at this site. */
  ghost predicate Explained(call: Call, index: nat, run: Run, error: NormalizedError, site: Site) {
    var n := |run.log|;
    match site
    case ClosingRaise =>
      n == 0 && index == |call.providers| && error == Normalized(Timeout)
    case DeadlineCheck =>
      && index + n < |call.providers| && error == Normalized(Timeout)
      && call.deadline <= run.now
      && (n > 0 ==> run.log[n - 1].errorClass.Some? && run.log[n - 1].errorClass.value in call.fallback.on)
    case MidStream =>
      n > 0 && error == Normalized(StreamStartedFailure)
    case AfterAttempt =>
      && n > 0 && run.log[n - 1] == Failure(run.log[n - 1].provider, error)
      && (|| index + n == |call.providers|
          || !error.fallbackEligible || error.errorClass !in call.fallback.on
          || (error.retryAfter.Some? && call.deadline <= run.now + error.retryAfter.value))
  }

  ghost predicate WellFormedLog(call: Call, index: nat, log: seq<AttemptOutcome>) {
    && index + |log| <= |call.providers|
    && (forall j | 0 <= j < |log| :: log[j].provider == call.providers[index + j])
    && (forall j | 0 <= j < |log| - 1 ::
          log[j].errorClass.Some? && log[j].errorClass.value in call.fallback.on)
  }

  ghost predicate WellEnded(call: Call, index: nat, run: Run) {
    var n := |run.log|;
    match run.ending
    case Completed(provider, i, _) =>
      && n > 0 && i == index + n - 1 && i < |call.providers|
      && provider == call.providers[i] && run.log[n - 1] == Success(provider)
    case Raised(error, site) =>
      && (n > 0 ==> run.log[n - 1].errorClass.Some?)
      && Explained(call, index, run, error, site)
      && (run.items != [] <==> site == MidStream)
  }

  ghost predicate FailedAt(call: Call, index: nat, entry: AttemptOutcome) {
    && index + 1 < |call.providers| && entry.provider == call.providers[index]
    && entry.errorClass.Some? && entry.errorClass.value in call.fallback.on
  }

  lemma TurnShape(call: Call, index: nat, now: real)
    requires index < |call.providers|
    ensures match TurnAt(call, index, now)
            case Halt(run) =>
              WellFormedLog(call, index, run.log) && WellEnded(call, index, run)
            case Next(entry, _, _) => FailedAt(call, index, entry)
  {
    AttemptDelivers(call, index, now);
  }

  lemma PrecededLog(call: Call, index: nat, entry: AttemptOutcome, log: seq<AttemptOutcome>)
    requires FailedAt(call, index, entry) && WellFormedLog(call, index + 1, log)
    ensures WellFormedLog(call, index, [entry] + log)
  {
    var whole := [entry] + log;
    forall j | 0 <= j < |whole|
      ensures whole[j].provider == call.providers[index + j]
      ensures j < |whole| - 1 ==> whole[j].errorClass.Some? && whole[j].errorClass.value in call.fallback.on
    {
      if j > 0 {
        assert whole[j] == log[j - 1];
      }
    }
  }

  lemma PrecededEnd(call: Call, index: nat, entry: AttemptOutcome, journal: seq<Action>, rest: Run)
    requires FailedAt(call, index, entry) && WellEnded(call, index + 1, rest)
    ensures WellEnded(call, index, After([], [entry], journal, rest))
  {
    var log := [entry] + rest.log;
    if rest.log != [] {
      assert log[|log| - 1] == rest.log[|rest.log| - 1];
    }
  }

  lemma {:induction false} LogShape(call: Call, index: nat, now: real)
    requires index <= |call.providers|
    ensures var run := RunFrom(call, index, now);
            WellFormedLog(call, index, run.log) && WellEnded(call, index, run)
    decreases |call.providers| - index
  {
    if index < |call.providers| {
      TurnShape(call, index, now);
      var turn := TurnAt(call, index, now);
      if turn.Next? {
        LogShape(call, index + 1, turn.now);
        var rest := RunFrom(call, index + 1, turn.now);
        PrecededLog(call, index, turn.entry, rest.log);
        PrecededEnd(call, index, turn.entry, turn.journal, rest);
      }
    }
  }

  lemma TurnStarts(call: Call, index: nat, now: real)
    requires index < |call.providers|
    ensures match TurnAt(call, index, now)
            case Halt(run) =>
              |Starts(run.journal)| == |run.log| && InOrder(call, index, Starts(run.journal))
            case Next(_, journal, _) => Starts(journal) == [(index, call.providers[index])]
  {
    if now < call.deadline {
      AttemptDelivers(call, index, now);
      var start := Started(index, call.providers[index], now);
      var attempt := AttemptAt(call, index, now);
      assert Starts([start]) == [(index, call.providers[index])];
      StartsConcat([start], attempt.journal);
      var turn := TurnAt(call, index, now);
      if turn.Next? {
        var onward := NextStep(call, index, attempt.end.error, attempt.now);
        StartsConcat([start] + attempt.journal, onward.journal);
      }
    }
  }

  lemma OneMoreInOrder(call: Call, index: nat, starts: seq<(nat, string)>)
    requires index < |call.providers| && InOrder(call, index + 1, starts)
    ensures InOrder(call, index, [(index, call.providers[index])] + starts)
  {
  }

  lemma {:induction false} StartsMatchLog(call: Call, index: nat, now: real)
    requires index <= |call.providers|
    ensures var run := RunFrom(call, index, now);
            |Starts(run.journal)| == |run.log| && InOrder(call, index, Starts(run.journal))
    decreases |call.providers| - index
  {
    if index < |call.providers| {
      TurnStarts(call, index, now);
      var turn := TurnAt(call, index, now);
      if turn.Next? {
        StartsMatchLog(call, index + 1, turn.now);
        var rest := RunFrom(call, index + 1, turn.now);
        StartsConcat(turn.journal, rest.journal);
        OneMoreInOrder(call, index, Starts(rest.journal));
      }
    }
  }

  /** Whatever a run hands over is the start of what its last attempt produced, all of it on success. */
  ghost predicate FromLastAttempt(call: Call, index: nat, run: Run)
    requires call.adapters.StreamAdapters?
  {
    run.items != [] || run.ending.Completed? ==>
      && 0 < |run.log| && index + |run.log| <= |call.providers|
      && var i := index + |run.log| - 1;
      && |run.items| <= |call.adapters.stream(call.providers[i], i).chunks|
      && run.items == Delivered(call, i, |run.items|)
      && (run.ending.Completed? ==> Served(call, i, run.items))
  }

  lemma {:induction false} ItemsFromLastAttempt(call: Call, index: nat, now: real)
    requires index <= |call.providers|
    requires call.adapters.StreamAdapters?
    ensures FromLastAttempt(call, index, RunFrom(call, index, now))
    decreases |call.providers| - index
  {
    if index < |call.providers| {
      AttemptDelivers(call, index, now);
      var turn := TurnAt(call, index, now);
      if turn.Next? {
        ItemsFromLastAttempt(call, index + 1, turn.now);
      }
    }
  }

  /**
   * A stream never replays. Providers are tried in order, each once, as a prefix of the permitted
   * list and one log entry apiece; every item comes from the last of them, in the order it produced
   * them and under its own number; every attempt before the last failed with a configured class.
   */
  lemma StreamNeverReplays(call: Call, now: real)
    requires call.adapters.StreamAdapters?
    ensures var run := RunFrom(call, 0, now);
            var n := |run.log|;
            && n <= |call.providers|
            && |Starts(run.journal)| == n && InOrder(call, 0, Starts(run.journal))
            && (forall j | 0 <= j < n :: run.log[j].provider == call.providers[j])
            && (forall j | 0 <= j < n - 1 ::
                  run.log[j].errorClass.Some? && run.log[j].errorClass.value in call.fallback.on)
            && (run.items != [] ==>
                  && n > 0
                  && |run.items| <= |call.adapters.stream(call.providers[n - 1], n - 1).chunks|
                  && run.items == Delivered(call, n - 1, |run.items|))
  {
    StartsMatchLog(call, 0, now);
    LogShape(call, 0, now);
    ItemsFromLastAttempt(call, 0, now);
  }

  /** Once a chunk is out, the run succeeds with that provider or fails as a started stream, never otherwise. */
  lemma StartedStreamEndsOnce(call: Call, now: real)
    requires call.adapters.StreamAdapters?
    requires RunFrom(call, 0, now).items != []
    ensures var run := RunFrom(call, 0, now);
            && 0 < |run.log| <= |call.providers|
            && match run.ending
               case Completed(provider, index, _) =>
                 && index == |run.log| - 1 && provider == run.log[index].provider
                 && run.log[index].errorClass.None? && Served(call, index, run.items)
               case Raised(error, _) =>
                 && error == Normalized(StreamStartedFailure)
                 && run.log[|run.log| - 1].errorClass.Some?
  {
    LogShape(call, 0, now);
    ItemsFromLastAttempt(call, 0, now);
  }

  /** The raise after the loop is reached exactly when no provider is permitted. */
  lemma ClosingRaiseExactlyWhenNonePermitted(call: Call, now: real)
    ensures var run := RunFrom(call, 0, now);
            run.ending.Raised? && run.ending.site == ClosingRaise <==> call.providers == []
  {
    LogShape(call, 0, now);
  }

  /**
   * A run stops short of the permitted list only for a reason: it succeeded, a stream had started,
   * the error was not eligible, the hint reached past the deadline, or the deadline had come.
   */
  lemma StopsShortOnlyForAReason(call: Call, now: real)
    requires |RunFrom(call, 0, now).log| < |call.providers|
    ensures var run := RunFrom(call, 0, now);
            match run.ending
            case Completed(_, index, _) => index == |run.log| - 1
            case Raised(error, DeadlineCheck) => error == Normalized(Timeout) && call.deadline <= run.now
            case Raised(error, MidStream) => run.items != []
            case Raised(error, AfterAttempt) =>
              || !error.fallbackEligible || error.errorClass !in call.fallback.on
              || (error.retryAfter.Some? && call.deadline <= run.now + error.retryAfter.value)
            case Raised(_, ClosingRaise) => false
  {
    LogShape(call, 0, now);
  }

  // ----- streams that succeed without a chunk -----

  /** What a script's first step makes of an attempt that starts now: a chunk, an empty success or a failure. */
  datatype Opening = Speaks | Silent | Fails(error: NormalizedError, later: real)

  function OpeningOf(call: Call, index: nat, now: real): Opening
    requires call.adapters.StreamAdapters? && index < |call.providers|
  {
    var behaviour := call.adapters.stream(call.providers[index], index);
    var wait := if behaviour.chunks != [] then behaviour.chunks[0].wait else behaviour.lastWait;
    var budget := Min(Min(call.timeouts.responseHeader, call.deadline - now), call.timeouts.perAttempt);
    if wait >= budget then Fails(Normalized(Timeout), now + budget + behaviour.settle)
    else if behaviour.chunks != [] then Speaks
    else match behaviour.ending
      case Exhausted => Silent
      case Broken(error) => Fails(error, now + wait + behaviour.settle)
  }

  /**
   * From attempt `index` on, attempts fail over without a chunk until one succeeds without a chunk.
   * This looks at the scripts and the clock alone.
   */
  predicate SilentSuccessAhead(call: Call, index: nat, now: real)
    requires call.adapters.StreamAdapters? && index <= |call.providers|
    decreases |call.providers| - index
  {
    && index < |call.providers| && now < call.deadline
    && match OpeningOf(call, index, now)
       case Speaks => false
       case Silent => true
       case Fails(error, later) =>
         match NextStep(call, index, error, later)
         case Stop => false
         case Proceed(_, resumed) => SilentSuccessAhead(call, index + 1, resumed)
  }

  /** The first attempt fails over, and a later one succeeds without a chunk. */
  predicate SilentSuccessAfterFallback(call: Call, now: real)
    requires call.adapters.StreamAdapters?
  {
    SilentSuccessAhead(call, 0, now) && !OpeningOf(call, 0, now).Silent?
  }

  lemma AttemptOpens(call: Call, index: nat, now: real)
    requires call.adapters.StreamAdapters? && index < |call.providers| && now < call.deadline
    ensures var attempt := AttemptAt(call, index, now);
            match OpeningOf(call, index, now)
            case Speaks => attempt.items != []
            case Silent => attempt.items == [] && attempt.end.Finished?
            case Fails(error, later) => attempt.items == [] && attempt.end == Failed(error) && attempt.now == later
  {
    var behaviour := call.adapters.stream(call.providers[index], index);
    assert AttemptAt(call, index, now) == Pull(call, index, behaviour, 0, now, now);
  }

  /** A stream succeeds without a chunk exactly when its scripts and the clock make it. */
  lemma {:induction false} SilentSuccessExactly(call: Call, index: nat, now: real)
    requires call.adapters.StreamAdapters? && index <= |call.providers|
    ensures var run := RunFrom(call, index, now);
            run.ending.Completed? && run.items == [] <==> SilentSuccessAhead(call, index, now)
    decreases |call.providers| - index
  {
    if index < |call.providers| && now < call.deadline {
      AttemptOpens(call, index, now);
      var turn := TurnAt(call, index, now);
      if turn.Next? {
        SilentSuccessExactly(call, index + 1, turn.now);
      }
    }
  }

  /** Such a run leaves one entry exactly when the very first attempt is the silent one. */
  lemma SilentFirstExactly(call: Call, now: real)
    requires call.adapters.StreamAdapters? && SilentSuccessAhead(call, 0, now)
    ensures |RunFrom(call, 0, now).log| == 1 <==> OpeningOf(call, 0, now).Silent?
  {
    AttemptOpens(call, 0, now);
    var turn := TurnAt(call, 0, now);
    if turn.Next? {
      SilentSuccessExactly(call, 1, turn.now);
      LogShape(call, 1, turn.now);
    }
  }

  // ----- what a run reports of its providers -----

  function WaitAt(script: StreamBehaviour, k: nat): Seconds {
    if k < |script.chunks| then script.chunks[k].wait else script.lastWait
  }

  /** The time from an attempt's start to its k-th wait, when everything before arrived. */
  function Elapsed(script: StreamBehaviour, k: nat): real
    requires k <= |script.chunks|
  {
    if k == 0 then 0.0 else Elapsed(script, k - 1) + script.chunks[k - 1].wait + script.chunks[k - 1].pause
  }

  /** The k-th wait lasts its idle budget or goes on to the end of the attempt timeout. */
  predicate Overruns(timeouts: TimeoutConfig, script: StreamBehaviour, k: nat)
    requires k <= |script.chunks|
  {
    || WaitAt(script, k) >= (if k == 0 then timeouts.responseHeader else timeouts.streamIdle)
    || Elapsed(script, k) + WaitAt(script, k) >= timeouts.perAttempt
  }

  /** Some wait of the script overruns a budget of its own. */
  predicate TooSlow(timeouts: TimeoutConfig, script: StreamBehaviour) {
    exists k: nat | k <= |script.chunks| :: Overruns(timeouts, script, k)
  }

  /** How an attempt ends by its provider's behaviour alone, the deadline aside: a timeout if it is too slow. */
  function EndOfItself(call: Call, index: nat): AttemptEnd
    requires index < |call.providers|
  {
    match call.adapters
    case ChatAdapters(chat) =>
      var behaviour := chat(call.providers[index], index);
      if behaviour.wait >= call.timeouts.perAttempt then Failed(Normalized(Timeout))
      else (match behaviour.reply case Answer(result) => Finished(Some(result)) case Refusal(error) => Failed(error))
    case StreamAdapters(stream) =>
      var script := stream(call.providers[index], index);
      if TooSlow(call.timeouts, script) then Failed(Normalized(Timeout))
      else (match script.ending case Exhausted => Finished(None) case Broken(error) => Failed(error))
  }

  function EntryFor(provider: string, end: AttemptEnd): AttemptOutcome {
    match end
    case Finished(_) => AttemptOutcome(provider, None, None)
    case Failed(error) => AttemptOutcome(provider, Some(error.errorClass), error.retryAfter)
  }

  /** The attempt ended by itself, or was timed out by the deadline, which is over by `over`. */
  ghost predicate EndsAsBehaved(call: Call, index: nat, end: AttemptEnd, over: real)
    requires index < |call.providers|
  {
    end == EndOfItself(call, index) || (end == Failed(Normalized(Timeout)) && call.deadline <= over)
  }

  lemma {:induction false} PullEndsAsScripted(
    call: Call, index: nat, script: StreamBehaviour, k: nat, started: real, now: real)
    requires index < |call.providers| && k <= |script.chunks| && now == started + Elapsed(script, k)
    requires forall j: nat | j < k :: !Overruns(call.timeouts, script, j)
    ensures var attempt := Pull(call, index, script, k, started, now);
            var n := k + |attempt.items|;
            && now <= attempt.now && n <= |script.chunks|
            && (forall j: nat | j < n :: !Overruns(call.timeouts, script, j))
            && (|| (&& attempt.end == EndOf(script.ending) && n == |script.chunks|
                    && !Overruns(call.timeouts, script, n))
                || (&& attempt.end == Failed(Normalized(Timeout))
                    && (Overruns(call.timeouts, script, n) || call.deadline <= attempt.now)))
    decreases |script.chunks| - k
  {
    var waited := WaitForChunk(call, index, k, started, WaitAt(script, k), now);
    if waited.arrival == Arrived {
      assert !Overruns(call.timeouts, script, k);
      if k < |script.chunks| {
        PullEndsAsScripted(call, index, script, k + 1, started, waited.now + script.chunks[k].pause);
      }
    } else {
      assert Overruns(call.timeouts, script, k) || call.deadline <= waited.now;
    }
  }

  lemma AttemptEndsAsBehaved(call: Call, index: nat, now: real)
    requires index < |call.providers|
    ensures var attempt := AttemptAt(call, index, now);
            EndsAsBehaved(call, index, attempt.end, attempt.now)
            && (now < call.deadline ==> now <= attempt.now)
  {
    if call.adapters.StreamAdapters? {
      PullEndsAsScripted(call, index, call.adapters.stream(call.providers[index], index), 0, now, now);
    }
  }

  /** The entry a provider's own behaviour leaves. */
  function OwnEntry(call: Call, index: nat): AttemptOutcome
    requires index < |call.providers|
  {
    EntryFor(call.providers[index], EndOfItself(call, index))
  }

  ghost predicate CutShort(call: Call, index: nat, entry: AttemptOutcome, over: real)
    requires index < |call.providers|
  {
    entry == AttemptOutcome(call.providers[index], Some(Timeout), None) && call.deadline <= over
  }

  /**
   * Every entry is what its provider's own behaviour leaves; the last alone may be a timeout that
   * the deadline brought about.
   */
  ghost predicate LogTells(call: Call, index: nat, log: seq<AttemptOutcome>, over: real) {
    && index + |log| <= |call.providers|
    && (forall j | 0 <= j < |log| - 1 :: log[j] == OwnEntry(call, index + j))
    && (log != [] ==>
          var last := |log| - 1;
          log[last] == OwnEntry(call, index + last) || CutShort(call, index + last, log[last], over))
  }

  lemma OneMoreTells(call: Call, index: nat, log: seq<AttemptOutcome>, over: real)
    requires index < |call.providers| && LogTells(call, index + 1, log, over)
    ensures LogTells(call, index, [OwnEntry(call, index)] + log, over)
  {
    var all := [OwnEntry(call, index)] + log;
    forall j | 0 <= j < |all| - 1 ensures all[j] == OwnEntry(call, index + j) {
      if j > 0 {
        assert log[j - 1] == OwnEntry(call, index + 1 + (j - 1));
      }
    }
    if log != [] {
      assert all[|all| - 1] == log[|log| - 1];
    }
  }

  lemma TurnTells(call: Call, index: nat, now: real)
    requires index < |call.providers|
    ensures match TurnAt(call, index, now)
            case Halt(run) =>
              && now <= run.now && |run.log| <= 1
              && (run.log != [] ==>
                    run.log[0] == OwnEntry(call, index) || CutShort(call, index, run.log[0], run.now))
            case Next(entry, _, later) =>
              now <= later && (entry == OwnEntry(call, index) || CutShort(call, index, entry, later))
  {
    AttemptEndsAsBehaved(call, index, now);
  }

  lemma NothingAfterDeadline(call: Call, index: nat, now: real)
    requires index <= |call.providers| && call.deadline <= now
    ensures RunFrom(call, index, now).log == [] && RunFrom(call, index, now).now == now
  {
  }

  /**
   * A run reports what its providers did, chat or stream: every entry before the last is exactly
   * what that provider's own behaviour leaves, and so is the last unless the deadline cut it short.
   */
  lemma {:induction false} ReportsItsProviders(call: Call, index: nat, now: real)
    requires index <= |call.providers|
    ensures var run := RunFrom(call, index, now);
            now <= run.now && LogTells(call, index, run.log, run.now)
    decreases |call.providers| - index
  {
    if index < |call.providers| {
      TurnTells(call, index, now);
      var turn := TurnAt(call, index, now);
      if turn.Next? {
        var rest := RunFrom(call, index + 1, turn.now);
        if call.deadline <= turn.now {
          NothingAfterDeadline(call, index + 1, turn.now);
        } else {
          ReportsItsProviders(call, index + 1, turn.now);
          OneMoreTells(call, index, rest.log, rest.now);
        }
      }
    }
  }

  /** What a run ends with is how its last attempt ended. */
  ghost predicate EndsAsLast(call: Call, last: nat, ending: Ending, over: real)
    requires last < |call.providers|
  {
    match ending
    case Completed(_, _, answer) => EndOfItself(call, last) == Finished(answer)
    case Raised(error, AfterAttempt) => EndsAsBehaved(call, last, Failed(error), over)
    case Raised(_, MidStream) => call.adapters.StreamAdapters?
    case Raised(_, site) => site == DeadlineCheck
  }

  /**
   * The answer comes unchanged from the last provider tried, and a final error is that provider's
   * own or the timeout that stopped it; a run that tried nobody ends in a timeout.
   */
  lemma {:induction false} EndsAsItsLastProvider(call: Call, index: nat, now: real)
    requires index <= |call.providers|
    ensures var run := RunFrom(call, index, now);
            && index + |run.log| <= |call.providers|
            && (run.log != [] ==> EndsAsLast(call, index + |run.log| - 1, run.ending, run.now))
            && (run.log == [] ==> run.ending.Raised? && run.ending.error == Normalized(Timeout))
    decreases |call.providers| - index
  {
    if index < |call.providers| {
      AttemptDelivers(call, index, now);
      AttemptEndsAsBehaved(call, index, now);
      var turn := TurnAt(call, index, now);
      if turn.Next? {
        EndsAsItsLastProvider(call, index + 1, turn.now);
      }
    }
  }

  /** The run's items end where the script of attempt i stops of itself, or the deadline stopped it. */
  ghost predicate StopsWhereItsScriptDoes(call: Call, i: nat, run: Run)
    requires call.adapters.StreamAdapters?
  {
    && i < |call.providers|
    && var script, n := call.adapters.stream(call.providers[i], i), |run.items|;
    && n <= |script.chunks|
    && (forall j: nat | j < n :: !Overruns(call.timeouts, script, j))
    && (n == |script.chunks| || Overruns(call.timeouts, script, n) || call.deadline <= run.now)
  }

  lemma TurnStops(call: Call, index: nat, now: real)
    requires index < |call.providers| && call.adapters.StreamAdapters?
    ensures var run := RunFrom(call, index, now);
            match TurnAt(call, index, now)
            case Halt(_) => |run.log| <= 1 && (run.log != [] ==> StopsWhereItsScriptDoes(call, index, run))
            case Next(_, _, later) =>
              call.deadline <= later ==> |run.log| == 1 && StopsWhereItsScriptDoes(call, index, run)
  {
    PullEndsAsScripted(call, index, call.adapters.stream(call.providers[index], index), 0, now, now);
    AttemptDelivers(call, index, now);
    var turn := TurnAt(call, index, now);
    if turn.Next? && call.deadline <= turn.now {
      NothingAfterDeadline(call, index + 1, turn.now);
    }
  }

  /**
   * A stream hands over every chunk that arrives in time and none after it: all before the last
   * attempt's first wait that overruns, all of its script if none does, or fewer once the deadline
   * has come.
   */
  lemma {:induction false} DeliversWhatArrives(call: Call, index: nat, now: real)
    requires index <= |call.providers| && call.adapters.StreamAdapters?
    ensures var run := RunFrom(call, index, now);
            run.log != [] ==> StopsWhereItsScriptDoes(call, index + |run.log| - 1, run)
    decreases |call.providers| - index
  {
    if index < |call.providers| {
      TurnStops(call, index, now);
      var turn := TurnAt(call, index, now);
      if turn.Next? && turn.now < call.deadline {
        DeliversWhatArrives(call, index + 1, turn.now);
      }
    }
  }

  // ----- deadlines -----

  /** The action keeps to the global deadline, its attempt's own deadline and its idle budget. */
  ghost predicate InTime(call: Call, action: Action) {
    match action
    case Started(_, _, at) => at < call.deadline
    case Awaited(_, started, from, until, first) =>
      && started <= from <= until <= call.deadline
      && from < call.deadline
      && until <= started + call.timeouts.perAttempt
      && (call.adapters.StreamAdapters? ==>
            until - from <= if first then call.timeouts.responseHeader else call.timeouts.streamIdle)
    case Slept(_, hint, from, until) => until == from + hint && until < call.deadline
  }

  ghost predicate WaitsInTime(call: Call, journal: seq<Action>) {
    forall i | 0 <= i < |journal| :: InTime(call, journal[i]) && journal[i].Awaited?
  }

  lemma WaitsConcat(call: Call, a: seq<Action>, b: seq<Action>)
    requires WaitsInTime(call, a) && WaitsInTime(call, b)
    ensures WaitsInTime(call, a + b)
  {
    forall i | 0 <= i < |a + b| ensures InTime(call, (a + b)[i]) && (a + b)[i].Awaited? {
      assert (a + b)[i] == if i < |a| then a[i] else b[i - |a|];
    }
  }

  lemma {:induction false} PullInTime(
    call: Call, index: nat, behaviour: StreamBehaviour, k: nat, started: real, now: real)
    requires index < |call.providers| && k <= |behaviour.chunks|
    requires call.adapters.StreamAdapters?
    requires started <= now
    ensures WaitsInTime(call, Pull(call, index, behaviour, k, started, now).journal)
    decreases |behaviour.chunks| - k
  {
    var wait := if k < |behaviour.chunks| then behaviour.chunks[k].wait else behaviour.lastWait;
    var waited := WaitForChunk(call, index, k, started, wait, now);
    if waited.arrival == Arrived && k < |behaviour.chunks| {
      var later := waited.now + behaviour.chunks[k].pause;
      PullInTime(call, index, behaviour, k + 1, started, later);
      WaitsConcat(call, waited.journal, Pull(call, index, behaviour, k + 1, started, later).journal);
    }
  }

  /** Every sleep of a run was asked for by the hint its attempt left in the log. */
  ghost predicate SleptAsAsked(log: seq<AttemptOutcome>, index: nat, action: Action) {
    action.Slept? ==>
      index <= action.index < index + |log| && log[action.index - index].retryAfter == Some(action.hint)
  }

  /** Every action is in time and every sleep was asked for. */
  ghost predicate Kept(call: Call, index: nat, log: seq<AttemptOutcome>, journal: seq<Action>) {
    forall i | 0 <= i < |journal| :: InTime(call, journal[i]) && SleptAsAsked(log, index, journal[i])
  }

  lemma KeptOnward(
    call: Call, index: nat, entry: AttemptOutcome, journal: seq<Action>, log: seq<AttemptOutcome>, rest: seq<Action>)
    requires Kept(call, index, [entry], journal) && Kept(call, index + 1, log, rest)
    ensures Kept(call, index, [entry] + log, journal + rest)
  {
    forall i | 0 <= i < |journal + rest|
      ensures InTime(call, (journal + rest)[i]) && SleptAsAsked([entry] + log, index, (journal + rest)[i])
    {
      if i < |journal| {
        assert SleptAsAsked([entry], index, journal[i]);
      } else {
        assert SleptAsAsked(log, index + 1, rest[i - |journal|]);
      }
    }
  }

  lemma AttemptInTime(call: Call, index: nat, now: real)
    requires index < |call.providers| && now < call.deadline
    ensures WaitsInTime(call, AttemptAt(call, index, now).journal)
  {
    if call.adapters.StreamAdapters? {
      PullInTime(call, index, call.adapters.stream(call.providers[index], index), 0, now, now);
    }
  }

  lemma AttemptKept(call: Call, index: nat, start: Action, waits: seq<Action>, log: seq<AttemptOutcome>)
    requires start.Started? && InTime(call, start) && WaitsInTime(call, waits)
    ensures Kept(call, index, log, [start] + waits)
  {
    forall i | 0 <= i <= |waits|
      ensures InTime(call, ([start] + waits)[i]) && SleptAsAsked(log, index, ([start] + waits)[i])
    {
      assert ([start] + waits)[i] == if i == 0 then start else waits[i - 1];
    }
  }

  lemma SleepKept(call: Call, index: nat, entry: AttemptOutcome, journal: seq<Action>, pause: seq<Action>)
    requires Kept(call, index, [entry], journal) && Kept(call, index, [entry], pause)
    ensures Kept(call, index, [entry], journal + pause)
  {
    forall i | 0 <= i < |journal + pause|
      ensures InTime(call, (journal + pause)[i]) && SleptAsAsked([entry], index, (journal + pause)[i])
    {
      assert (journal + pause)[i] == if i < |journal| then journal[i] else pause[i - |journal|];
    }
  }

  lemma TurnInTime(call: Call, index: nat, now: real)
    requires index < |call.providers|
    ensures match TurnAt(call, index, now)
            case Halt(run) => Kept(call, index, run.log, run.journal)
            case Next(entry, journal, _) => Kept(call, index, [entry], journal)
  {
    if now < call.deadline {
      AttemptInTime(call, index, now);
      var start, attempt := [Started(index, call.providers[index], now)], AttemptAt(call, index, now);
      if attempt.end.Failed? {
        var entry := Failure(call.providers[index], attempt.end.error);
        AttemptKept(call, index, start[0], attempt.journal, [entry]);
        var onward := NextStep(call, index, attempt.end.error, attempt.now);
        if onward.Proceed? {
          SleepKept(call, index, entry, start + attempt.journal, onward.journal);
        }
      } else {
        AttemptKept(call, index, start[0], attempt.journal, [Success(call.providers[index])]);
      }
    }
  }

  /**
   * Deadline safety, for chat and stream alike: no attempt starts at or after the deadline, every
   * wait ends by it, by its attempt's own deadline and within its idle budget, and each sleep
   * lasts exactly the logged hint and ends strictly before the deadline.
   */
  lemma {:induction false} DeadlinesAreKept(call: Call, index: nat, now: real)
    requires index <= |call.providers|
    ensures var run := RunFrom(call, index, now);
            Kept(call, index, run.log, run.journal)
    decreases |call.providers| - index
  {
    if index < |call.providers| {
      TurnInTime(call, index, now);
      var turn := TurnAt(call, index, now);
      if turn.Next? {
        DeadlinesAreKept(call, index + 1, turn.now);
        var rest := RunFrom(call, index + 1, turn.now);
        KeptOnward(call, index, turn.entry, turn.journal, rest.log, rest.journal);
      }
    }
  }

  // ----- the data policy -----

  /**
   * The permitted providers are the first of the decision's, up to the attempt limit and in order;
   * only for restricted data under the executor's own policy are external ones left out first.
   */
  lemma PermittedExactly(policy: RoutingPolicy, decision: RouteDecision, dataClass: DataClass)
    ensures var names, permitted := decision.Providers(), PermittedProviders(policy, decision, dataClass);
            if policy.fallback.neverCrossDataPolicy && dataClass == Restricted then
              && (permitted.Ok? <==> forall name <- names :: name in policy.providers)
              && (permitted.Ok? ==> FirstOf(Internals(policy, names), policy.fallback.maxAttempts, permitted.value))
            else permitted.Ok? && FirstOf(names, policy.fallback.maxAttempts, permitted.value)
  {
  }

  ghost predicate FirstOf(names: seq<string>, limit: nat, taken: seq<string>) {
    taken <= names && (|taken| == limit || (|names| <= limit && taken == names))
  }

  predicate IsInternal(policy: RoutingPolicy, name: string) {
    name in policy.providers && !policy.providers[name].external
  }

  ghost predicate StaysInside(policy: RoutingPolicy, run: Run) {
    && (forall start <- Starts(run.journal) :: IsInternal(policy, start.1))
    && (forall item <- run.items :: IsInternal(policy, item.provider))
    && (forall entry <- run.log :: IsInternal(policy, entry.provider))
  }

  lemma RunStaysInside(policy: RoutingPolicy, call: Call, now: real)
    requires forall name <- call.providers :: IsInternal(policy, name)
    ensures StaysInside(policy, RunFrom(call, 0, now))
  {
    StartsMatchLog(call, 0, now);
    LogShape(call, 0, now);
    var run := RunFrom(call, 0, now);
    forall item <- run.items ensures IsInternal(policy, item.provider) {
      if call.adapters.StreamAdapters? {
        ItemsFromLastAttempt(call, 0, now);
      } else {
        ChatYieldsNothing(call, 0, now);
      }
    }
  }

  lemma {:induction false} ChatYieldsNothing(call: Call, index: nat, now: real)
    requires index <= |call.providers| && call.adapters.ChatAdapters?
    ensures RunFrom(call, index, now).items == []
    decreases |call.providers| - index
  {
    if index < |call.providers| {
      var turn := TurnAt(call, index, now);
      if turn.Next? {
        ChatYieldsNothing(call, index + 1, turn.now);
      }
    }
  }

  /**
   * The executor alone keeps restricted data inside, however the decision was built: a name that is
   * not configured ends the request before anything is tried, and otherwise no external provider is
   * started, logged or delivered from.
   */
  lemma ExecutorKeepsRestrictedInside(
    policy: RoutingPolicy, decision: RouteDecision, deadline: real, adapters: Adapters, now: real)
    requires policy.fallback.neverCrossDataPolicy
    ensures match PermittedProviders(policy, decision, Restricted)
            case Err(name) => name in decision.Providers() && name !in policy.providers
            case Ok(_) =>
              StaysInside(policy, RunFrom(CallFor(policy, decision, Restricted, deadline, adapters), 0, now))
    ensures PermittedProviders(policy, decision, Restricted).Ok? <==> Known(policy, decision.Providers())
  {
    if PermittedProviders(policy, decision, Restricted).Ok? {
      RunStaysInside(policy, CallFor(policy, decision, Restricted, deadline, adapters), now);
    }
  }

  /** Routing followed by execution keeps restricted data inside, even with the executor's filter off. */
  lemma RoutedRestrictedStaysInside(
    policy: RoutingPolicy, request: Request, deadline: real, adapters: Adapters, now: real)
    requires RoutesKnown(policy)
    requires request.dataClass == Restricted
    requires SelectRoute(policy, request).Ok?
    ensures Known(policy, SelectRoute(policy, request).value.Providers())
    ensures StaysInside(policy,
              RunFrom(CallFor(policy, SelectRoute(policy, request).value, Restricted, deadline, adapters), 0, now))
  {
    RestrictedRouteIsInternal(policy, request);
    RunStaysInside(policy, CallFor(policy, SelectRoute(policy, request).value, Restricted, deadline, adapters), now);
  }

  /**
   * For a validated configuration the two runtime filters remove nothing: the permitted list is
   * the deciding rule's route cut at the attempt limit. What is called for restricted data is also
   * marked not external in the provider document.
   */
  lemma ValidatedConfigurationNeedsNoFilter(
    policy: RoutingPolicy, document: ProviderDocument, request: Request, k: nat)
    requires ValidateRules(policy, policy.rules) == Accepted
    requires MatchesDocument(policy, document)
    requires Decides(policy.rules, request, k)
    requires policy.rules[k].route != []
    ensures RoutesKnown(policy)
    ensures var route := policy.rules[k].route;
            && SelectRoute(policy, request).Ok?
            && Known(policy, SelectRoute(policy, request).value.Providers())
            && var permitted := PermittedProviders(policy, SelectRoute(policy, request).value, request.dataClass).value;
            && permitted
               == (if |route| <= policy.fallback.maxAttempts then route else route[..policy.fallback.maxAttempts])
            && (request.dataClass == Restricted ==>
                  forall name <- permitted ::
                    && name in policy.providers
                    && var backing := BackingProvider(name, policy.providers[name]);
                    && backing in document && !document[backing])
  {
    ValidatedFilterRemovesNothing(policy, request, k);
    FirstMatchDecides(policy, request, k);
    ValidationAcceptsExactlySoundRules(policy, policy.rules);
    assert SoundRule(policy, policy.rules[k]);
    var route := policy.rules[k].route;
    assert forall name <- route :: name in policy.providers;
    if request.dataClass == Restricted {
      assert forall name <- route :: !policy.providers[name].external;
    }
  }
}
