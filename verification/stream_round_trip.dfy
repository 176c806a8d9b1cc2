/**
 * The whole streaming pipeline: upstream lines through the adapter, the executor, the gateway's
 * events and the benchmark client. What the client reads is stated from the upstream lines alone.
 */
module StreamRoundTrip {
  import opened Domain
  import opened Policy
  import opened Fallback
  import opened FallbackSafety
  import opened OpenAIAdapter
  import opened Gateway
  import Telemetry
  import Wire

  type Upstreams = (string, nat) -> Upstream

  function AdaptersFor(upstreams: Upstreams): Adapters {
    StreamAdapters((provider: string, index: nat) => BehaviourOf(upstreams(provider, index)))
  }

  function Bare(chunks: seq<TimedChunk>): seq<ProviderChunk> {
    seq(|chunks|, k requires 0 <= k < |chunks| => chunks[k].chunk)
  }

  /** What the client makes of a streamed body. */
  function ClientReads(run: Run): Wire.Parsed {
    Wire.ReadFrom(Wire.NOTHING, Wire.Print(BodyOf(run)))
  }

  /** The client survives every streamed body of the gateway, however the run went. */
  lemma ClientSurvivesEveryRun(call: Call, now: real)
    ensures Wire.Usable(Wire.Print(BodyOf(RunFrom(call, 0, now))))
  {
    Wire.PrintedIsUsable(BodyOf(RunFrom(call, 0, now)));
  }

  lemma {:induction false} BareText(chunks: seq<TimedChunk>)
    ensures Wire.TextOf(Bare(chunks)) == ChunkText(chunks)
  {
    if chunks != [] {
      assert Bare(chunks)[1..] == Bare(chunks[1..]);
      BareText(chunks[1..]);
    }
  }

  lemma DeliveredChunks(call: Call, index: nat, n: nat)
    requires call.adapters.StreamAdapters? && index < |call.providers|
    requires n <= |call.adapters.stream(call.providers[index], index).chunks|
    ensures ChunksOf(Delivered(call, index, n))
            == Bare(call.adapters.stream(call.providers[index], index).chunks)[..n]
  {
  }

  /** The client reads a complete script as its text, its reason and its usage, and no error. */
  lemma CompleteScriptReadsBack(chunks: seq<TimedChunk>, finish: string, usage: NormalizedUsage)
    requires EndsWithFinal(chunks, 0, finish, usage) && finish != ""
    ensures Wire.ReadFrom(Wire.NOTHING, Wire.Print(Wire.EventsFor(Bare(chunks)) + [Wire.Done]))
            == Wire.Parsed(
                 ChunkText(chunks),
                 match usage
                 case NormalizedUsage(_, Some(prompt), Some(completion), _) =>
                   Some(Wire.Totals(prompt, completion, prompt + completion))
                 case _ => None,
                 None,
                 Some(finish))
  {
    var bare := Bare(chunks);
    var texts, final := bare[..|bare| - 1], bare[|bare| - 1];
    assert bare == texts + [final];
    Wire.ReadBody(Wire.NOTHING, bare, Wire.Done);
    Wire.ReadFinal(Wire.NOTHING, texts, final);
    Wire.ReadChunks(Wire.NOTHING, bare);
    BareText(chunks);
    assert "" + ChunkText(chunks) == ChunkText(chunks);
  }

  /** The last finish reason the lines give, or "stop" if they give none or an empty one last. */
  function ReasonToRead(lines: seq<UpstreamLine>): string {
    var reasons := FinishReasons(lines);
    if reasons == [] || reasons[|reasons| - 1] == "" then "stop" else reasons[|reasons| - 1]
  }

  /** The last usage value's prompt and completion tokens and their sum, if it has both. */
  function TotalsToRead(lines: seq<UpstreamLine>): Option<Wire.Totals> {
    var payloads := UsagePayloads(lines);
    if payloads == [] then None
    else
      match payloads[|payloads| - 1]
      case Fields(Some(prompt), Some(completion), _) => Some(Wire.Totals(prompt, completion, prompt + completion))
      case _ => None
  }

  lemma ServedUpstreamReadsBack(upstream: Upstream)
    requires BehaviourOf(upstream).ending == Exhausted
    ensures var read := BeforeDone(upstream.lines);
            Wire.ReadFrom(Wire.NOTHING,
              Wire.Print(Wire.EventsFor(Bare(BehaviourOf(upstream).chunks)) + [Wire.Done]))
            == Wire.Parsed(Contents(read), TotalsToRead(read), None, Some(ReasonToRead(read)))
  {
    DecodeKeepsText(upstream, upstream.lines, INITIAL);
    DecodeCloses(upstream, upstream.lines, INITIAL);
    var read := BeforeDone(upstream.lines);
    LastFinishIsLast(read, None);
    LastUsageIsLast(read, UNAVAILABLE);
    CompleteScriptReadsBack(BehaviourOf(upstream).chunks, ReasonToRead(read), LastUsage(read, UNAVAILABLE));
  }

  /**
   * End to end: when the run succeeds, the client reads exactly the text the serving upstream
   * sent before [DONE], its last finish reason or "stop", and the prompt tokens, completion tokens
   * and their sum from its last usage value, or no usage when that value lacks one of the two;
   * whatever the other upstreams did and however long anything took.
   */
  lemma SuccessfulStreamRoundTrip(call: Call, upstreams: Upstreams, now: real)
    requires call.adapters == AdaptersFor(upstreams)
    requires RunFrom(call, 0, now).ending.Completed?
    ensures var run := RunFrom(call, 0, now);
            var read := BeforeDone(upstreams(run.ending.provider, run.ending.index).lines);
            ClientReads(run) == Wire.Parsed(Contents(read), TotalsToRead(read), None, Some(ReasonToRead(read)))
  {
    var run := RunFrom(call, 0, now);
    LogShape(call, 0, now);
    ItemsFromLastAttempt(call, 0, now);
    var i := run.ending.index;
    var upstream := upstreams(call.providers[i], i);
    var behaviour := BehaviourOf(upstream);
    assert call.adapters.stream(call.providers[i], i) == behaviour;
    DeliveredChunks(call, i, |behaviour.chunks|);
    assert ChunksOf(run.items) == Bare(behaviour.chunks);
    ServedUpstreamReadsBack(upstream);
  }

  /** The client reads a script cut off after n chunks as the text of those chunks and the error. */
  lemma PartialScriptReadsBack(chunks: seq<TimedChunk>, n: nat)
    requires n <= |chunks|
    ensures var parsed := Wire.ReadFrom(Wire.NOTHING,
              Wire.Print(Wire.EventsFor(Bare(chunks)[..n]) + [Wire.Failure(Some(StreamStartedFailure))]));
            && parsed.output == ChunkText(chunks[..n])
            && parsed.output <= ChunkText(chunks)
            && parsed.error == Some(StreamStartedFailure)
  {
    CutBodyReadsBack(Bare(chunks)[..n]);
    SentTextIsPrefix(chunks, n);
  }

  lemma CutBodyReadsBack(sent: seq<ProviderChunk>)
    ensures var parsed := Wire.ReadFrom(Wire.NOTHING,
              Wire.Print(Wire.EventsFor(sent) + [Wire.Failure(Some(StreamStartedFailure))]));
            parsed.output == Wire.TextOf(sent) && parsed.error == Some(StreamStartedFailure)
  {
    Wire.ReadBody(Wire.NOTHING, sent, Wire.Failure(Some(StreamStartedFailure)));
    Wire.ReadChunks(Wire.NOTHING, sent);
    assert "" + Wire.TextOf(sent) == Wire.TextOf(sent);
  }

  lemma SentTextIsPrefix(chunks: seq<TimedChunk>, n: nat)
    requires n <= |chunks|
    ensures Wire.TextOf(Bare(chunks)[..n]) == ChunkText(chunks[..n]) <= ChunkText(chunks)
  {
    var sent, rest := Bare(chunks)[..n], Bare(chunks)[n..];
    assert Bare(chunks[..n]) == sent;
    BareText(chunks[..n]);
    assert Bare(chunks) == sent + rest;
    Wire.TextConcat(sent, rest);
    BareText(chunks);
  }

  /**
   * A stream that fails after it started gives the client the text of every chunk that was handed
   * over, a prefix of the upstream's text, and the error code of a started stream, and its body
   * never carries [DONE].
   */
  lemma FailedStreamDeliversPrefix(call: Call, upstreams: Upstreams, now: real)
    requires call.adapters == AdaptersFor(upstreams)
    requires RunFrom(call, 0, now).items != [] && RunFrom(call, 0, now).ending.Raised?
    ensures var run := RunFrom(call, 0, now);
            var first := run.items[0];
            && ClientReads(run).output <= Contents(BeforeDone(upstreams(first.provider, first.index).lines))
            && ClientReads(run).output == TextDelivered(run.items)
            && ClientReads(run).error == Some(StreamStartedFailure)
            && Wire.Done !in BodyOf(run)
  {
    var run := RunFrom(call, 0, now);
    LogShape(call, 0, now);
    ItemsFromLastAttempt(call, 0, now);
    var i := |run.log| - 1;
    var upstream := upstreams(call.providers[i], i);
    var chunks := BehaviourOf(upstream).chunks;
    assert call.adapters.stream(call.providers[i], i) == BehaviourOf(upstream);
    DeliveredChunks(call, i, |run.items|);
    PartialScriptReadsBack(chunks, |run.items|);
    if upstream.refusal.None? {
      DecodeKeepsText(upstream, upstream.lines, INITIAL);
    }
    DeliveredText(call, i, |run.items|);
    EventsAreChunks(ChunksOf(run.items));
  }

  /** The text of the items a run handed over, in order. */
  function TextDelivered(items: seq<Item>): string {
    if items == [] then "" else TextDelivered(items[..|items| - 1]) + JoinText(items[|items| - 1].chunk.delta)
  }

  lemma {:induction false} DeliveredText(call: Call, index: nat, n: nat)
    requires call.adapters.StreamAdapters? && index < |call.providers|
    requires n <= |call.adapters.stream(call.providers[index], index).chunks|
    ensures TextDelivered(Delivered(call, index, n))
            == ChunkText(call.adapters.stream(call.providers[index], index).chunks[..n])
  {
    var chunks := call.adapters.stream(call.providers[index], index).chunks;
    if n > 0 {
      DeliveredText(call, index, n - 1);
      assert Delivered(call, index, n)[..n - 1] == Delivered(call, index, n - 1);
      assert Bare(chunks[..n]) == Bare(chunks[..n - 1]) + [chunks[n - 1].chunk];
      Wire.TextConcat(Bare(chunks[..n - 1]), [chunks[n - 1].chunk]);
      BareText(chunks[..n]);
      BareText(chunks[..n - 1]);
      assert [chunks[n - 1].chunk][1..] == [];
    }
  }

  lemma {:induction false} EventsAreChunks(chunks: seq<ProviderChunk>)
    ensures forall event <- Wire.EventsFor(chunks) :: event.Chunk?
  {
    if chunks != [] {
      EventsAreChunks(chunks[1..]);
    }
  }

  /** This adapter never plays a silent script, so the reported count is always right. */
  lemma AdapterStreamsReportTheirFallbacks(call: Call, upstreams: Upstreams, now: real, decision: RouteDecision)
    requires call.adapters == AdaptersFor(upstreams)
    ensures var run := RunFrom(call, 0, now);
            StreamResponse(run, decision).fallbackCount == |Telemetry.Transitions(run.log)|
  {
    forall i | 0 < i < |call.providers| ensures !IsSilent(call.adapters.stream(call.providers[i], i)) {
      var upstream := upstreams(call.providers[i], i);
      assert call.adapters.stream(call.providers[i], i) == BehaviourOf(upstream);
      if BehaviourOf(upstream).ending == Exhausted {
        DecodeCloses(upstream, upstream.lines, INITIAL);
      }
    }
    SpeakingScriptsAgree(call, now, decision);
  }
}
