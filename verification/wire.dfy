/** The gateway's server-sent events and the benchmark client that reads them back. */
module Wire {
  import opened Domain

  datatype Totals = Totals(prompt: nat, completion: nat, total: nat)

  datatype Choice = Choice(content: Option<string>, finishReason: Option<string>)

  datatype Event =
    | Chunk(choice: Option<Choice>, usage: Option<Totals>)
    | Failure(code: Option<ErrorClass>)
    | Done

  // ----- printing -----

  function UsagePayload(usage: NormalizedUsage): Option<Totals> {
    if usage.billedInput.None? || usage.billedOutput.None? then None
    else Some(Totals(usage.billedInput.value, usage.billedOutput.value,
                     usage.billedInput.value + usage.billedOutput.value))
  }

  /** One completion chunk: no content when the text is empty, no usage when none was reported. */
  function CompletionChunk(text: string, finishReason: Option<string>, usage: Option<NormalizedUsage>): Event {
    Chunk(Some(Choice(if text != "" then Some(text) else None, finishReason)),
          if usage.Some? then UsagePayload(usage.value) else None)
  }

  /** The event for a chunk, if it deserves one. */
  function EventFor(chunk: ProviderChunk): seq<Event> {
    var text := JoinText(chunk.delta);
    if chunk.isFinal then [CompletionChunk(text, Some(OrStop(chunk.finishReason)), chunk.usage)]
    else if text != "" then [CompletionChunk(text, None, None)]
    else []
  }

  function EventsFor(chunks: seq<ProviderChunk>): seq<Event> {
    if chunks == [] then [] else EventFor(chunks[0]) + EventsFor(chunks[1..])
  }

  /**
   * A line of the response body as the client meets it. `Unusable` is JSON of a shape that the
   * client's own code does not survive, such as an error that is no object.
   */
  datatype Line = NotData | Garbage | Unusable | Carries(event: Event)

  /** Each event is a data line followed by a blank one. */
  function Print(events: seq<Event>): seq<Line> {
    if events == [] then [] else [Carries(events[0]), NotData] + Print(events[1..])
  }

  // ----- reading -----

  datatype Parsed = Parsed(
    output: string,
    usage: Option<Totals>,
    error: Option<ErrorClass>,
    finishReason: Option<string>)

  const NOTHING := Parsed("", None, None, None)

  function ReadLine(parsed: Parsed, line: Line): Parsed {
    match line
    case NotData => parsed
    case Unusable => parsed
    case Garbage => parsed.(error := Some(MalformedResponse))
    case Carries(Done) => parsed
    case Carries(Failure(code)) => parsed.(error := Some(if code.Some? then code.value else MalformedResponse))
    case Carries(Chunk(choice, usage)) =>
      var text := if choice.Some? && choice.value.content.Some? then choice.value.content.value else "";
      var finish := if choice.Some? && choice.value.finishReason.Some? then choice.value.finishReason.value else "";
      Parsed(
        parsed.output + text,
        if usage.Some? then usage else parsed.usage,
        parsed.error,
        if finish != "" then Some(finish) else parsed.finishReason)
  }

  function ReadFrom(parsed: Parsed, lines: seq<Line>): Parsed
    decreases |lines|
  {
    if lines == [] then parsed else ReadFrom(ReadLine(parsed, lines[0]), lines[1..])
  }

  predicate Usable(lines: seq<Line>) {
    forall i | 0 <= i < |lines| :: !lines[i].Unusable?
  }

  /** What the client makes of a body, or nothing when a line makes it fail. */
  method StreamText(lines: seq<Line>) returns (parsed: Option<Parsed>)
    ensures parsed == if Usable(lines) then Some(ReadFrom(NOTHING, lines)) else None
  {
    var output := "";
    var usage: Option<Totals> := None;
    var streamError: Option<ErrorClass> := None;
    var finishReason: Option<string> := None;
    for i := 0 to |lines|
      invariant Usable(lines[..i])
      invariant ReadFrom(NOTHING, lines) == ReadFrom(Parsed(output, usage, streamError, finishReason), lines[i..])
    {
      var line := lines[i];
      assert lines[i..][1..] == lines[i + 1..] && output + "" == output;
      if line.NotData? || line == Carries(Done) {
        continue;
      }
      if line.Unusable? {
        return None;
      }
      if line.Garbage? {
        streamError := Some(MalformedResponse);
        continue;
      }
      var event := line.event;
      if event.Failure? {
        streamError := Some(if event.code.Some? then event.code.value else MalformedResponse);
        continue;
      }
      if event.choice.Some? {
        if event.choice.value.content.Some? && event.choice.value.content.value != "" {
          output := output + event.choice.value.content.value;
        }
        if event.choice.value.finishReason.Some? && event.choice.value.finishReason.value != "" {
          finishReason := event.choice.value.finishReason;
        }
      }
      if event.usage.Some? {
        usage := event.usage;
      }
    }
    return Some(Parsed(output, usage, streamError, finishReason));
  }

  // ----- reading back what was printed -----

  lemma {:induction false} ReadConcat(parsed: Parsed, a: seq<Line>, b: seq<Line>)
    ensures ReadFrom(parsed, a + b) == ReadFrom(ReadFrom(parsed, a), b)
    decreases |a|
  {
    if a == [] {
      assert a + b == b;
    } else {
      assert (a + b)[1..] == a[1..] + b;
      ReadConcat(ReadLine(parsed, a[0]), a[1..], b);
    }
  }

  lemma {:induction false} PrintConcat(a: seq<Event>, b: seq<Event>)
    ensures Print(a + b) == Print(a) + Print(b)
  {
    if a == [] {
      assert a + b == b;
    } else {
      assert (a + b)[1..] == a[1..] + b;
      PrintConcat(a[1..], b);
    }
  }

  /** What is printed the client can use. */
  lemma {:induction false} PrintedIsUsable(events: seq<Event>)
    ensures Usable(Print(events))
  {
    if events != [] {
      PrintedIsUsable(events[1..]);
    }
  }

  function TextOf(chunks: seq<ProviderChunk>): string {
    if chunks == [] then "" else JoinText(chunks[0].delta) + TextOf(chunks[1..])
  }

  predicate IsTextOnly(chunk: ProviderChunk) {
    !chunk.isFinal && chunk.usage.None?
  }

  lemma ReadPair(parsed: Parsed, line: Line)
    ensures ReadFrom(parsed, [line, NotData]) == ReadLine(parsed, line)
  {
    assert [line, NotData][1..] == [NotData] && [NotData][1..] == [];
    assert ReadFrom(ReadLine(parsed, line), [NotData]) == ReadFrom(ReadLine(parsed, line), []);
  }

  /** What a chunk adds to what the client has read: its text, and on the last one reason and usage. */
  lemma ReadChunk(parsed: Parsed, chunk: ProviderChunk)
    ensures var after := ReadFrom(parsed, Print(EventFor(chunk)));
            && after.output == parsed.output + JoinText(chunk.delta)
            && after.error == parsed.error
            && (IsTextOnly(chunk) ==> after.usage == parsed.usage && after.finishReason == parsed.finishReason)
            && (chunk.isFinal ==>
                  && after.finishReason == Some(if chunk.finishReason in {None, Some("")} then "stop"
                                                else chunk.finishReason.value)
                  && after.usage
                     == match chunk.usage
                        case Some(NormalizedUsage(_, Some(prompt), Some(completion), _)) =>
                          Some(Totals(prompt, completion, prompt + completion))
                        case _ => parsed.usage)
  {
    var events := EventFor(chunk);
    assert parsed.output + "" == parsed.output;
    if events != [] {
      assert events[1..] == [] && Print([]) == [];
      assert Print(events) == [Carries(events[0]), NotData];
      ReadPair(parsed, Carries(events[0]));
    }
  }

  ghost predicate AllText(chunks: seq<ProviderChunk>) {
    forall i | 0 <= i < |chunks| :: IsTextOnly(chunks[i])
  }

  /** Reading what was printed for some chunks reads the first chunk's events before the rest. */
  lemma ReadFirst(parsed: Parsed, chunks: seq<ProviderChunk>)
    requires chunks != []
    ensures ReadFrom(parsed, Print(EventsFor(chunks)))
            == ReadFrom(ReadFrom(parsed, Print(EventFor(chunks[0]))), Print(EventsFor(chunks[1..])))
  {
    var head, tail := EventFor(chunks[0]), EventsFor(chunks[1..]);
    PrintConcat(head, tail);
    ReadConcat(parsed, Print(head), Print(tail));
  }

  /** Chunks, printed and read back, add exactly their text; text chunks add nothing else. */
  lemma {:induction false} ReadChunks(parsed: Parsed, chunks: seq<ProviderChunk>)
    ensures var after := ReadFrom(parsed, Print(EventsFor(chunks)));
            && after.output == parsed.output + TextOf(chunks)
            && after.error == parsed.error
            && (AllText(chunks) ==> after.usage == parsed.usage && after.finishReason == parsed.finishReason)
    decreases |chunks|
  {
    if chunks == [] {
      assert parsed.output + "" == parsed.output;
    } else {
      ReadFirst(parsed, chunks);
      ReadChunk(parsed, chunks[0]);
      ReadChunks(ReadFrom(parsed, Print(EventFor(chunks[0]))), chunks[1..]);
      Assoc(parsed.output, JoinText(chunks[0].delta), TextOf(chunks[1..]));
    }
  }

  lemma {:induction false} EventsConcat(a: seq<ProviderChunk>, b: seq<ProviderChunk>)
    ensures EventsFor(a + b) == EventsFor(a) + EventsFor(b)
  {
    if a == [] {
      assert a + b == b;
    } else {
      assert (a + b)[1..] == a[1..] + b;
      EventsConcat(a[1..], b);
      Assoc(EventFor(a[0]), EventsFor(a[1..]), EventsFor(b));
    }
  }

  lemma {:induction false} TextConcat(a: seq<ProviderChunk>, b: seq<ProviderChunk>)
    ensures TextOf(a + b) == TextOf(a) + TextOf(b)
  {
    if a == [] {
      assert a + b == b;
    } else {
      assert (a + b)[1..] == a[1..] + b;
      TextConcat(a[1..], b);
      Assoc(JoinText(a[0].delta), TextOf(a[1..]), TextOf(b));
    }
  }

  /** Text chunks and then a final chunk: the final one alone sets the reason and the usage. */
  lemma ReadFinal(parsed: Parsed, texts: seq<ProviderChunk>, final: ProviderChunk)
    requires AllText(texts)
    requires final.isFinal
    ensures var after := ReadFrom(parsed, Print(EventsFor(texts + [final])));
            && after.finishReason == Some(if final.finishReason in {None, Some("")} then "stop"
                                          else final.finishReason.value)
            && after.usage
               == match final.usage
                  case Some(NormalizedUsage(_, Some(prompt), Some(completion), _)) =>
                    Some(Totals(prompt, completion, prompt + completion))
                  case _ => parsed.usage
  {
    EventsConcat(texts, [final]);
    assert [final][1..] == [] && EventFor(final) + EventsFor([]) == EventFor(final);
    PrintConcat(EventsFor(texts), EventFor(final));
    ReadConcat(parsed, Print(EventsFor(texts)), Print(EventFor(final)));
    ReadChunks(parsed, texts);
    ReadChunk(ReadFrom(parsed, Print(EventsFor(texts))), final);
  }

  /** A text-only run of chunks and one closing event read back as their text and what the event adds. */
  lemma ReadBody(parsed: Parsed, chunks: seq<ProviderChunk>, last: Event)
    ensures ReadFrom(parsed, Print(EventsFor(chunks) + [last]))
            == ReadLine(ReadFrom(parsed, Print(EventsFor(chunks))), Carries(last))
  {
    PrintConcat(EventsFor(chunks), [last]);
    assert Print([]) == [] && [last][1..] == [];
    assert Print([last]) == [Carries(last), NotData];
    ReadConcat(parsed, Print(EventsFor(chunks)), Print([last]));
    ReadPair(ReadFrom(parsed, Print(EventsFor(chunks))), Carries(last));
  }
}
