/** Provider-neutral values shared by routing, execution, streaming and telemetry. */
module Domain {

  datatype Option<+T> = None | Some(value: T)

  datatype Result<+T, +E> = Ok(value: T) | Err(error: E)

  type Seconds = s: real | s >= 0.0

  type Duration = s: real | s > 0.0 witness 1.0

  datatype DataClass = Public | Internal | Confidential | Restricted

  datatype QualityTier = Economy | Balanced | Premium

  datatype ErrorClass =
    | InvalidRequest
    | Auth
    | RateLimited
    | Timeout
    | Provider5xx
    | PolicyDenied
    | StreamStartedFailure
    | MalformedResponse

  /** A failure after normalisation. Adapters may build one with any flags. */
  datatype NormalizedError = NormalizedError(
    errorClass: ErrorClass,
    fallbackEligible: bool,
    retryAfter: Option<Seconds>)

  /** The gateway's own errors take eligibility from the class table and carry no hint. */
  function Normalized(errorClass: ErrorClass): NormalizedError {
    NormalizedError(errorClass, errorClass in {RateLimited, Timeout, Provider5xx}, None)
  }

  /** Token counts; None means the provider did not report the component. */
  datatype NormalizedUsage = NormalizedUsage(
    visibleOutput: Option<nat>,
    billedInput: Option<nat>,
    billedOutput: Option<nat>,
    reasoning: Option<nat>)

  const UNAVAILABLE := NormalizedUsage(None, None, None, None)

  datatype ProviderChunk = ProviderChunk(
    sequence: nat,
    delta: seq<Option<string>>,
    isFinal: bool,
    finishReason: Option<string>,
    usage: Option<NormalizedUsage>)

  datatype ProviderResult = ProviderResult(
    output: seq<Option<string>>,
    finishReason: Option<string>,
    usage: NormalizedUsage)

  /** One provider attempt within a routed request; None marks the attempt that succeeded. */
  datatype AttemptOutcome = AttemptOutcome(
    provider: string,
    errorClass: Option<ErrorClass>,
    retryAfter: Option<Seconds>)

  /** The text of a list of content parts; a part without text counts as empty. */
  function JoinText(parts: seq<Option<string>>): string {
    if parts == [] then ""
    else (if parts[0].Some? then parts[0].value else "") + JoinText(parts[1..])
  }

  /** Joining keeps every part, in order and once. */
  lemma {:induction false} JoinTextConcat(a: seq<Option<string>>, b: seq<Option<string>>)
    ensures JoinText(a + b) == JoinText(a) + JoinText(b)
  {
    if a == [] {
      assert a + b == b;
    } else {
      assert (a + b)[1..] == a[1..] + b;
      JoinTextConcat(a[1..], b);
    }
  }

  lemma JoinTextOfOne(part: Option<string>)
    ensures JoinText([part]) == match part case Some(text) => text case None => ""
  {
    assert [part][1..] == [];
  }

  /** A reason that is missing or empty reads as "stop". */
  function OrStop(reason: Option<string>): string {
    if reason.Some? && reason.value != "" then reason.value else "stop"
  }

  lemma Assoc<T>(a: seq<T>, b: seq<T>, c: seq<T>)
    ensures a + (b + c) == a + b + c
  {
  }
}
