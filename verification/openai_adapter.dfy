/**
 * The OpenAI-compatible streaming adapter: upstream lines in, provider chunks out. Lines are
 * given already split and parsed; `Script` is the adapter's output as the executor meets it.
 */
module OpenAIAdapter {
  import opened Domain
  import opened Fallback

  /** A "usage" value: not an object, or its fields where None stands for absent or not an integer. */
  datatype UsagePayload =
    | NotAnObject
    | Fields(prompt: Option<nat>, completion: Option<nat>, reasoning: Option<int>)

  /** The first choice of an event; None stands for absent or not a string. */
  datatype UpstreamChoice = UpstreamChoice(content: Option<string>, finishReason: Option<string>)

  datatype UpstreamLine =
    | NotData
    | DoneMark
    | Garbage
    | NonObject
    | Event(usage: Option<UsagePayload>, choice: Option<UpstreamChoice>)

  datatype TimedLine = TimedLine(line: UpstreamLine, wait: Seconds, pause: Seconds)

  /** One upstream response: refused with an error, or lines and then a clean or broken end. */
  datatype Upstream = Upstream(
    refusal: Option<NormalizedError>,
    lines: seq<TimedLine>,
    dropped: bool,
    lastWait: Seconds,
    lastPause: Seconds,
    settle: Seconds)

  function UsageFromPayload(payload: UsagePayload): NormalizedUsage {
    match payload
    case NotAnObject => UNAVAILABLE
    case Fields(prompt, completion, reasoning) =>
      if prompt.None? || completion.None? then UNAVAILABLE
      else if reasoning.Some? && 0 <= reasoning.value <= completion.value then
        NormalizedUsage(Some(completion.value - reasoning.value), prompt, completion, Some(reasoning.value))
      else
        NormalizedUsage(completion, prompt, completion, None)
  }

  /**
   * Usage is all or nothing: it is available exactly when both counts were reported, and then they
   * are the billed ones and the visible and reasoning parts make up the billed output. A reasoning
   * part is there exactly when the reported one fits into the completion, and then it is that one.
   */
  lemma UsageAddsUp(payload: UsagePayload)
    ensures var usage := UsageFromPayload(payload);
            && (usage == UNAVAILABLE <==> !(payload.Fields? && payload.prompt.Some? && payload.completion.Some?))
            && (usage != UNAVAILABLE ==>
                  && usage.billedInput == payload.prompt && usage.billedOutput == payload.completion
                  && usage.visibleOutput.Some?
                  && usage.visibleOutput.value + (if usage.reasoning.Some? then usage.reasoning.value else 0)
                     == payload.completion.value
                  && (usage.reasoning.Some? <==>
                        payload.reasoning.Some? && 0 <= payload.reasoning.value <= payload.completion.value)
                  && (usage.reasoning.Some? ==> usage.reasoning.value == payload.reasoning.value))
  {
  }

  /** What the event loop carries between lines; `wait` is the time since the last chunk. */
  datatype State = State(wait: Seconds, sequence: nat, usage: NormalizedUsage, finishReason: Option<string>)

  const INITIAL := State(0.0, 0, UNAVAILABLE, None)

  datatype Script = Script(chunks: seq<TimedChunk>, ending: StreamEnding, lastWait: Seconds)

  predicate HasText(line: UpstreamLine) {
    line.Event? && line.choice.Some? && line.choice.value.content.Some? && line.choice.value.content.value != ""
  }

  function Noted(state: State, timed: TimedLine): State {
    var line := timed.line;
    State(
      state.wait + timed.wait,
      state.sequence,
      if line.Event? && line.usage.Some? then UsageFromPayload(line.usage.value) else state.usage,
      if line.Event? && line.choice.Some? && line.choice.value.finishReason.Some?
      then line.choice.value.finishReason else state.finishReason)
  }

  function TextChunk(state: State, text: string): ProviderChunk {
    ProviderChunk(state.sequence, [Some(text)], false, None, None)
  }

  function FinalChunk(state: State): ProviderChunk {
    ProviderChunk(state.sequence, [], true, Some(OrStop(state.finishReason)), Some(state.usage))
  }

  function Close(state: State, extra: Seconds, pause: Seconds): Script {
    Script([TimedChunk(state.wait + extra, FinalChunk(state), pause)], Exhausted, 0.0)
  }

  function Decode(upstream: Upstream, lines: seq<TimedLine>, state: State): Script {
    if lines == [] then
      if upstream.dropped then Script([], Broken(Normalized(Timeout)), state.wait + upstream.lastWait)
      else Close(state, upstream.lastWait, upstream.lastPause)
    else
      match lines[0].line
      case NotData => Decode(upstream, lines[1..], Noted(state, lines[0]))
      case DoneMark => Close(state, lines[0].wait, upstream.lastPause)
      case Garbage => Script([], Broken(Normalized(MalformedResponse)), state.wait + lines[0].wait)
      case NonObject => Script([], Broken(Normalized(MalformedResponse)), state.wait + lines[0].wait)
      case Event(_, _) =>
        var noted := Noted(state, lines[0]);
        if HasText(lines[0].line) then
          var chunk := TextChunk(state, lines[0].line.choice.value.content.value);
          var rest := Decode(upstream, lines[1..], noted.(wait := 0.0, sequence := state.sequence + 1));
          rest.(chunks := [TimedChunk(noted.wait, chunk, lines[0].pause)] + rest.chunks)
        else
          Decode(upstream, lines[1..], noted)
  }

  /** The behaviour of one streaming attempt against this upstream. */
  function BehaviourOf(upstream: Upstream): StreamBehaviour {
    if upstream.refusal.Some? then
      StreamBehaviour([], upstream.lastWait, Broken(upstream.refusal.value), upstream.settle)
    else
      var script := Decode(upstream, upstream.lines, INITIAL);
      StreamBehaviour(script.chunks, script.lastWait, script.ending, upstream.settle)
  }

  /** The event loop itself. */
  method Stream(upstream: Upstream) returns (behaviour: StreamBehaviour)
    ensures behaviour == BehaviourOf(upstream)
  {
    if upstream.refusal.Some? {
      return StreamBehaviour([], upstream.lastWait, Broken(upstream.refusal.value), upstream.settle);
    }
    var chunks: seq<TimedChunk> := [];
    var wait: Seconds, sequence, usage := 0.0, 0, UNAVAILABLE;
    var finishReason: Option<string> := None;
    var last: Seconds := upstream.lastWait;
    var done := false;
    ghost var whole := Decode(upstream, upstream.lines, INITIAL);
    ghost var rest := whole;
    for i := 0 to |upstream.lines|
      invariant !done && last == upstream.lastWait
      invariant rest == Decode(upstream, upstream.lines[i..], State(wait, sequence, usage, finishReason))
      invariant whole == rest.(chunks := chunks + rest.chunks)
    {
      var line := upstream.lines[i].line;
      assert upstream.lines[i..][1..] == upstream.lines[i + 1..];
      if line.DoneMark? {
        last, done := upstream.lines[i].wait, true;
        break;
      }
      wait := wait + upstream.lines[i].wait;
      if line.Garbage? || line.NonObject? {
        return StreamBehaviour(chunks, wait, Broken(Normalized(MalformedResponse)), upstream.settle);
      }
      if line.Event? {
        if line.usage.Some? {
          usage := UsageFromPayload(line.usage.value);
        }
        if line.choice.Some? {
          if line.choice.value.finishReason.Some? {
            finishReason := line.choice.value.finishReason;
          }
          if line.choice.value.content.Some? && line.choice.value.content.value != "" {
            var chunk := ProviderChunk(sequence, [Some(line.choice.value.content.value)], false, None, None);
            var timed := TimedChunk(wait, chunk, upstream.lines[i].pause);
            wait, sequence := 0.0, sequence + 1;
            ghost var rest' :=
              Decode(upstream, upstream.lines[i + 1..], State(wait, sequence, usage, finishReason));
            Assoc(chunks, [timed], rest'.chunks);
            chunks := chunks + [timed];
          }
        }
      }
      rest := Decode(upstream, upstream.lines[i + 1..], State(wait, sequence, usage, finishReason));
    }
    if upstream.dropped && !done {
      return StreamBehaviour(chunks, wait + last, Broken(Normalized(Timeout)), upstream.settle);
    }
    var final := ProviderChunk(sequence, [], true, Some(OrStop(finishReason)), Some(usage));
    return StreamBehaviour(
      chunks + [TimedChunk(wait + last, final, upstream.lastPause)], 0.0, Exhausted, upstream.settle);
  }

  // ----- what the upstream said -----

  /** The lines the adapter reads: those before the first [DONE]. */
  function BeforeDone(lines: seq<TimedLine>): seq<UpstreamLine> {
    if lines == [] || lines[0].line.DoneMark? then []
    else [lines[0].line] + BeforeDone(lines[1..])
  }

  /** The lines before the first [DONE] or the first that is malformed. */
  function BeforeBreak(lines: seq<TimedLine>): seq<UpstreamLine> {
    if lines == [] || lines[0].line in {DoneMark, Garbage, NonObject} then []
    else [lines[0].line] + BeforeBreak(lines[1..])
  }

  function Contents(lines: seq<UpstreamLine>): string {
    if lines == [] then ""
    else (match lines[0] case Event(_, Some(UpstreamChoice(Some(text), _))) => text case _ => "") + Contents(lines[1..])
  }

  predicate SetsFinish(line: UpstreamLine) {
    line.Event? && line.choice.Some? && line.choice.value.finishReason.Some?
  }

  predicate SetsUsage(line: UpstreamLine) {
    line.Event? && line.usage.Some?
  }

  /** The last finish reason any line gives, an empty one included; `before` if none does. */
  function LastFinish(lines: seq<UpstreamLine>, before: Option<string>): Option<string> {
    if lines == [] then before
    else LastFinish(lines[1..], if SetsFinish(lines[0]) then lines[0].choice.value.finishReason else before)
  }

  function LastUsage(lines: seq<UpstreamLine>, before: NormalizedUsage): NormalizedUsage {
    if lines == [] then before
    else LastUsage(lines[1..], if SetsUsage(lines[0]) then UsageFromPayload(lines[0].usage.value) else before)
  }

  function ChunkText(chunks: seq<TimedChunk>): string {
    if chunks == [] then "" else JoinText(chunks[0].chunk.delta) + ChunkText(chunks[1..])
  }

  /** A script that ends of itself is text chunks in order followed by exactly one final chunk. */
  ghost predicate EndsWithFinal(chunks: seq<TimedChunk>, sequence: nat, finish: string, usage: NormalizedUsage) {
    && chunks != []
    && (forall k | 0 <= k < |chunks| - 1 :: IsText(chunks[k].chunk) && chunks[k].chunk.sequence == sequence + k)
    && chunks[|chunks| - 1].chunk == ProviderChunk(sequence + |chunks| - 1, [], true, Some(finish), Some(usage))
  }

  predicate IsText(chunk: ProviderChunk) {
    && !chunk.isFinal && chunk.finishReason.None? && chunk.usage.None?
    && |chunk.delta| == 1 && chunk.delta[0].Some? && chunk.delta[0].value != ""
  }

  lemma PrependText(
    chunk: TimedChunk, rest: seq<TimedChunk>, sequence: nat, finish: string, usage: NormalizedUsage)
    requires IsText(chunk.chunk) && chunk.chunk.sequence == sequence
    requires EndsWithFinal(rest, sequence + 1, finish, usage)
    ensures EndsWithFinal([chunk] + rest, sequence, finish, usage)
  {
  }

  lemma TextOfFirst(chunk: TimedChunk, rest: seq<TimedChunk>, text: string)
    requires chunk.chunk.delta == [Some(text)]
    ensures ChunkText([chunk] + rest) == text + ChunkText(rest)
  {
    assert ([chunk] + rest)[1..] == rest;
    JoinTextOfOne(Some(text));
  }

  lemma ContentsOfFirst(lines: seq<TimedLine>)
    requires lines != [] && lines[0].line !in {DoneMark, Garbage, NonObject}
    ensures var first := lines[0].line;
            Contents(BeforeBreak(lines))
            == (if HasText(first) then first.choice.value.content.value else "") + Contents(BeforeBreak(lines[1..]))
  {
    assert BeforeBreak(lines)[1..] == BeforeBreak(lines[1..]);
  }

  lemma {:induction false} TextUpToBreak(upstream: Upstream, lines: seq<TimedLine>, state: State)
    ensures ChunkText(Decode(upstream, lines, state).chunks) == Contents(BeforeBreak(lines))
  {
    if lines != [] && (lines[0].line.Event? || lines[0].line.NotData?) {
      var noted := Noted(state, lines[0]);
      ContentsOfFirst(lines);
      if HasText(lines[0].line) {
        var next := noted.(wait := 0.0, sequence := state.sequence + 1);
        var text := lines[0].line.choice.value.content.value;
        TextUpToBreak(upstream, lines[1..], next);
        TextOfFirst(TimedChunk(noted.wait, TextChunk(state, text), lines[0].pause),
                    Decode(upstream, lines[1..], next).chunks, text);
      } else {
        TextUpToBreak(upstream, lines[1..], noted);
      }
    }
  }

  lemma {:induction false} CleanEndReadsAll(upstream: Upstream, lines: seq<TimedLine>, state: State)
    requires Decode(upstream, lines, state).ending == Exhausted
    ensures BeforeBreak(lines) == BeforeDone(lines)
  {
    if lines != [] && (lines[0].line.Event? || lines[0].line.NotData?) {
      var noted := Noted(state, lines[0]);
      var next := if HasText(lines[0].line) then noted.(wait := 0.0, sequence := state.sequence + 1) else noted;
      CleanEndReadsAll(upstream, lines[1..], next);
    }
  }

  lemma {:induction false} BreakComesFirst(lines: seq<TimedLine>)
    ensures Contents(BeforeBreak(lines)) <= Contents(BeforeDone(lines))
  {
    if lines != [] && (lines[0].line.Event? || lines[0].line.NotData?) {
      assert BeforeDone(lines)[1..] == BeforeDone(lines[1..]);
      assert BeforeBreak(lines)[1..] == BeforeBreak(lines[1..]);
      BreakComesFirst(lines[1..]);
    }
  }

  /**
   * Whatever the lines, the script's text is what they contain up to the end mark or the first
   * malformed line, so all of it on a clean end.
   */
  lemma DecodeKeepsText(upstream: Upstream, lines: seq<TimedLine>, state: State)
    ensures var script := Decode(upstream, lines, state);
            && ChunkText(script.chunks) == Contents(BeforeBreak(lines))
            && ChunkText(script.chunks) <= Contents(BeforeDone(lines))
            && (script.ending == Exhausted ==> ChunkText(script.chunks) == Contents(BeforeDone(lines)))
  {
    TextUpToBreak(upstream, lines, state);
    BreakComesFirst(lines);
    if Decode(upstream, lines, state).ending == Exhausted {
      CleanEndReadsAll(upstream, lines, state);
    }
  }

  /** A clean end closes with the last finish reason, defaulted to "stop", and the last usage. */
  lemma {:induction false} DecodeCloses(upstream: Upstream, lines: seq<TimedLine>, state: State)
    requires Decode(upstream, lines, state).ending == Exhausted
    ensures var read := BeforeDone(lines);
            EndsWithFinal(Decode(upstream, lines, state).chunks, state.sequence,
                          OrStop(LastFinish(read, state.finishReason)), LastUsage(read, state.usage))
  {
    if lines != [] && (lines[0].line.Event? || lines[0].line.NotData?) {
      var noted := Noted(state, lines[0]);
      var read, later := BeforeDone(lines), BeforeDone(lines[1..]);
      assert read[1..] == later;
      if HasText(lines[0].line) {
        var next := noted.(wait := 0.0, sequence := state.sequence + 1);
        DecodeCloses(upstream, lines[1..], next);
        var chunk := TimedChunk(noted.wait, TextChunk(state, lines[0].line.choice.value.content.value), lines[0].pause);
        PrependText(chunk, Decode(upstream, lines[1..], next).chunks, state.sequence,
                    OrStop(LastFinish(later, noted.finishReason)), LastUsage(later, noted.usage));
      } else {
        DecodeCloses(upstream, lines[1..], noted);
      }
    }
  }

  // ----- when its chunks come -----

  /** When the chunks of a script arrive, and its failure if it has one. */
  function ScriptTimes(script: Script, t: real): seq<real>
    decreases |script.chunks|
  {
    if script.chunks == [] then if script.ending.Broken? then [t + script.lastWait] else []
    else
      var arrival := t + script.chunks[0].wait;
      [arrival] + ScriptTimes(script.(chunks := script.chunks[1..]), arrival + script.chunks[0].pause)
  }

  /** When the upstream's lines with text arrive, and the line or the end that finishes the stream. */
  function UpstreamTimes(upstream: Upstream, lines: seq<TimedLine>, t: real): seq<real>
    decreases |lines|
  {
    if lines == [] then [t + upstream.lastWait]
    else
      var arrival := t + lines[0].wait;
      match lines[0].line
      case DoneMark | Garbage | NonObject => [arrival]
      case Event(_, Some(UpstreamChoice(Some(text), _))) =>
        if text == "" then UpstreamTimes(upstream, lines[1..], arrival)
        else [arrival] + UpstreamTimes(upstream, lines[1..], arrival + lines[0].pause)
      case _ => UpstreamTimes(upstream, lines[1..], arrival)
  }

  /**
   * Decoding takes no time of its own: each chunk comes when its line does, after whatever lines and
   * pauses lie before it.
   */
  lemma {:induction false} DecodeKeepsTime(upstream: Upstream, lines: seq<TimedLine>, state: State, t: real)
    ensures ScriptTimes(Decode(upstream, lines, state), t) == UpstreamTimes(upstream, lines, t + state.wait)
    decreases |lines|
  {
    if lines != [] && lines[0].line.Event? && HasText(lines[0].line) {
      var noted := Noted(state, lines[0]);
      var next := noted.(wait := 0.0, sequence := state.sequence + 1);
      var script, rest := Decode(upstream, lines, state), Decode(upstream, lines[1..], next);
      assert script.chunks[1..] == rest.chunks;
      DecodeKeepsTime(upstream, lines[1..], next, t + noted.wait + lines[0].pause);
    } else if lines != [] && (lines[0].line.Event? || lines[0].line.NotData?) {
      DecodeKeepsTime(upstream, lines[1..], Noted(state, lines[0]), t);
    }
  }

  // ----- when the end is clean, and which reason and usage win -----

  /**
   * The script ends of itself exactly when nothing read is malformed and the stream was not cut off;
   * otherwise it ends as malformed, or as a timeout that lets another provider try.
   */
  lemma {:induction false} CleanEndExactly(upstream: Upstream, lines: seq<TimedLine>, state: State)
    ensures Decode(upstream, lines, state).ending == Exhausted
            <==> && (forall line <- BeforeDone(lines) :: !line.Garbage? && !line.NonObject?)
                 && (upstream.dropped ==> |BeforeDone(lines)| < |lines|)
    ensures Decode(upstream, lines, state).ending.Broken? ==>
              Decode(upstream, lines, state).ending.error
              == if exists line <- BeforeDone(lines) :: line.Garbage? || line.NonObject?
                 then NormalizedError(MalformedResponse, false, None)
                 else NormalizedError(Timeout, true, None)
  {
    if lines != [] && !lines[0].line.DoneMark? {
      var read := BeforeDone(lines);
      assert read == [lines[0].line] + BeforeDone(lines[1..]);
      if lines[0].line.Event? || lines[0].line.NotData? {
        var noted := Noted(state, lines[0]);
        var next := if HasText(lines[0].line) then noted.(wait := 0.0, sequence := state.sequence + 1) else noted;
        CleanEndExactly(upstream, lines[1..], next);
      } else {
        assert lines[0].line in read;
      }
    }
  }

  /** Every finish reason given, in order, empty ones included. */
  function FinishReasons(lines: seq<UpstreamLine>): seq<string> {
    if lines == [] then []
    else
      (match lines[0] case Event(_, Some(UpstreamChoice(_, Some(reason)))) => [reason] case _ => [])
      + FinishReasons(lines[1..])
  }

  function UsagePayloads(lines: seq<UpstreamLine>): seq<UsagePayload> {
    if lines == [] then []
    else (match lines[0] case Event(Some(payload), _) => [payload] case _ => []) + UsagePayloads(lines[1..])
  }

  lemma {:induction false} LastFinishIsLast(lines: seq<UpstreamLine>, before: Option<string>)
    ensures var reasons := FinishReasons(lines);
            LastFinish(lines, before) == if reasons == [] then before else Some(reasons[|reasons| - 1])
  {
    if lines != [] {
      LastFinishIsLast(lines[1..], if SetsFinish(lines[0]) then lines[0].choice.value.finishReason else before);
    }
  }

  lemma {:induction false} LastUsageIsLast(lines: seq<UpstreamLine>, before: NormalizedUsage)
    ensures var payloads := UsagePayloads(lines);
            LastUsage(lines, before)
            == if payloads == [] then before else UsageFromPayload(payloads[|payloads| - 1])
  {
    if lines != [] {
      LastUsageIsLast(lines[1..], if SetsUsage(lines[0]) then UsageFromPayload(lines[0].usage.value) else before);
    }
  }

  /** The last element that satisfies a test. */
  function LastWhere<T>(test: T -> bool, s: seq<T>): Option<T> {
    if s == [] then None
    else if test(s[|s| - 1]) then Some(s[|s| - 1])
    else LastWhere(test, s[..|s| - 1])
  }

  lemma {:induction false} LastWhereFinds<T(!new)>(test: T -> bool, s: seq<T>)
    ensures match LastWhere(test, s)
            case None => forall x <- s :: !test(x)
            case Some(x) => x in s && test(x)
  {
    if s != [] && !test(s[|s| - 1]) {
      LastWhereFinds(test, s[..|s| - 1]);
      assert s == s[..|s| - 1] + [s[|s| - 1]];
    }
  }

  function LastNonEmptyReason(lines: seq<UpstreamLine>): Option<string> {
    LastWhere((reason: string) => reason != "", FinishReasons(lines))
  }

  /**
   * The reason delivered is the last non-empty one, or "stop", exactly unless an empty reason
   * comes last after a different non-empty one: an empty string replaces what was noted before.
   */
  lemma FinishReasonExactly(lines: seq<UpstreamLine>)
    ensures var reasons := FinishReasons(lines);
            OrStop(LastFinish(lines, None)) == OrStop(LastNonEmptyReason(lines))
            <==> (|| reasons == []
                  || reasons[|reasons| - 1] != ""
                  || LastNonEmptyReason(lines) in {None, Some("stop")})
  {
    LastFinishIsLast(lines, None);
    LastWhereFinds((reason: string) => reason != "", FinishReasons(lines));
  }

  lemma EmptyReasonOverwrites()
    ensures var given := (reason: string) => Event(None, Some(UpstreamChoice(None, Some(reason))));
            var lines := [given("length"), given("")];
            LastNonEmptyReason(lines) == Some("length") && OrStop(LastFinish(lines, None)) == "stop"
  {
    var first := Event(None, Some(UpstreamChoice(None, Some("length"))));
    var second := Event(None, Some(UpstreamChoice(None, Some(""))));
    assert [first, second][1..] == [second];
    assert FinishReasons([second]) == [""];
    assert FinishReasons([first, second]) == ["length", ""];
    assert ["length", ""][..1] == ["length"];
    LastFinishIsLast([first, second], None);
  }

  predicate Reports(payload: UsagePayload) {
    payload.Fields? && payload.prompt.Some? && payload.completion.Some?
  }

  function LastReport(lines: seq<UpstreamLine>): Option<(nat, nat)> {
    var last: Option<UsagePayload> := LastWhere(Reports, UsagePayloads(lines));
    if last.Some? && Reports(last.value) then Some((last.value.prompt.value, last.value.completion.value)) else None
  }

  function BilledPair(usage: NormalizedUsage): Option<(nat, nat)> {
    if usage.billedInput.Some? && usage.billedOutput.Some?
    then Some((usage.billedInput.value, usage.billedOutput.value)) else None
  }

  /**
   * The usage delivered is the last reported pair exactly unless an unreadable usage value
   * comes last after a readable one: it resets what was noted before.
   */
  lemma UsageExactly(lines: seq<UpstreamLine>)
    ensures var payloads := UsagePayloads(lines);
            BilledPair(LastUsage(lines, UNAVAILABLE)) == LastReport(lines)
            <==> (|| payloads == []
                  || Reports(payloads[|payloads| - 1])
                  || forall payload <- payloads :: !Reports(payload))
  {
    LastUsageIsLast(lines, UNAVAILABLE);
    LastWhereFinds(Reports, UsagePayloads(lines));
  }

  lemma UnreadableUsageResets()
    ensures var lines := [Event(Some(Fields(Some(3), Some(5), None)), None), Event(Some(NotAnObject), None)];
            LastReport(lines) == Some((3, 5)) && LastUsage(lines, UNAVAILABLE) == UNAVAILABLE
  {
    var report := Fields(Some(3), Some(5), None);
    var first, second := Event(Some(report), None), Event(Some(NotAnObject), None);
    assert [first, second][1..] == [second];
    assert UsagePayloads([second]) == [NotAnObject];
    assert UsagePayloads([first, second]) == [report, NotAnObject];
    assert [report, NotAnObject][..1] == [report];
    LastUsageIsLast([first, second], UNAVAILABLE);
  }
}
