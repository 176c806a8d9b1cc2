# Inference gateway: a model and its proofs

A Dafny model of an inference gateway and of the benchmark tooling beside it. It states what the
program promises and proves it for every policy, adapter behaviour, clock run, random draw and
data set. `dafny verify dfyconfig.toml` checks the whole project.

How the model is laid out:

- **Routing and execution.** `policy.dfy` is first-match routing and the load-time checks.
  `fallback.dfy` is the bounded fallback executor: a function `RunFrom` says what a run does, and a
  class that moves a clock, keeps a journal and appends to an attempt log is proved to do exactly
  that. An adapter is any function from a provider and an attempt number to a timed script.
  `fallback_safety.dfy` proves what every run keeps, `fallback_schedule.dfy` who is tried and when.
- **Streaming and telemetry.** `openai_adapter.dfy` turns upstream lines into chunks, `gateway.dfy`
  routes a request, runs it, answers it and counts it, `wire.dfy` prints events and reads them back
  as the benchmark client does, and `stream_round_trip.dfy` composes all of them. `telemetry.dfy`
  keeps a counter family as a multiset of its labels.
- **Statistics and comparison.** `ordering.dfy`, `percentile.dfy`, `bootstrap.dfy`, `comparison.dfy`.
- **Money and service levels.** `grouping.dfy`, `benchmark_records.dfy`, `costing.dfy`,
  `run_costs.dfy`, `slo.dfy`.
- **Capacity and the break-even grid.** `arithmetic.dfy`, `capacity.dfy`, `scenario_grid.dfy`.
- **Evaluators, request mix, checksums.** `label_extraction.dfy`, `evaluators.dfy`,
  `request_mix.dfy`, `checksums.dfy`.

Code that loops and updates is a method or a class here, proved equal to a function or a property
of its input; the lemmas are then about that function.

Where the code does not do what its names, documents or figures suggest, the model follows the code,
gives an input that shows it, and states exactly when the promise holds:

- An empty finish reason replaces an earlier non-empty one (`EmptyReasonOverwrites`,
  `FinishReasonExactly`).
- An unreadable usage value discards an earlier report (`UnreadableUsageResets`, `UsageExactly`).
- A stream that succeeds without a single chunk after a fallback reports no fallback while one is
  counted (`SilentScriptMiscounts`, `StreamFallbackCountAgreesExactly`,
  `CountsAgreeExactlyWithoutSilence`); the adapter modelled here never does that
  (`AdapterStreamsReportTheirFallbacks`).
- The direction of a comparison need not swap with the runs when the difference of their cost
  intervals is the wrong way round (`WrongWayRoundIsInverted`, `InvertedIntervalNamesBTwice`,
  `SummariesDecideSwapping`); intervals the bootstrap produces never make it so
  (`ReportedRunsSwapDirection`).
- Every private row of the provider table carries the whole private total, so the table loses or
  doubles it unless exactly one private name occurs (`ProviderRowsLoseOrDouble`,
  `ProviderRowsConservedExactly`).
- Measured hours replace the run's billed hours but not its repeats', whose private numerators then
  sum to another figure (`MeasuredHoursPartFromRepeats`, `PrivateMoneyConservedExactly`).
- Generation records count towards the pooled quality rate but face no quality check
  (`GenerationDilutesQuality`, `QualityIsBoundedExactlyWithoutGeneration`); the benchmark client
  writes one workload a run, and such runs are bounded (`OneWorkloadIsBounded`).
- A cost polyline that starts on a multiple of the replica capacity begins with a slope, which
  misses the cost at the next volume (`SlopeMissesCeiling`, `SegmentsProperExactly`,
  `PolylineTracesCeilingExactly`).
- With given labels, a guess that is none of them costs accuracy but no label's recall
  (`UnlistedGuessCostsNoRecall`, `CountsSumToPredictions`, `ClassScoreExactly`), and a label given
  twice is summed twice (`RepeatedLabelSumsTwice`, `DistinctLabelsSumOnce`).
- An empty expected record matches in whole but scores no field f1 (`EmptyRecordScoresNothing`,
  `FieldScoreExactly`).

## Model

| member | source | states |
|---|---|---|
| Policy.Internals | src/inference_gateway/routing/policy.py:62-63 | keeps exactly the names that are not external, and the whole route when none is |
| Policy.InternalsConcat | src/inference_gateway/routing/policy.py:62-63 | filtering a route goes name by name and keeps the order of the rest |
| Policy.LookUpInternals | src/inference_gateway/routing/fallback.py:82 | looking names up gives the names that are not external, or the first that is not configured |
| Policy.DecidesByItsConditions | src/inference_gateway/routing/policy.py:44-49 | the deciding rule is the first of whose data-class, workload and tier conditions each is missing or lists the request's value |
| Policy.FirstMatchDecides | src/inference_gateway/routing/policy.py:58-72 | the first matching rule alone settles a request: granted exactly when it leaves a provider, with that route in order, else denied naming that rule |
| Policy.FailsClosedExactlyWithoutRule | src/inference_gateway/routing/policy.py:52-72 | a request is denied for want of a rule if and only if no rule matches it |
| Policy.RestrictedRouteIsInternal | src/inference_gateway/routing/policy.py:61-68 | whatever the rules say, a granted restricted request has only internal providers |
| Policy.SelectedIsKnown | src/inference_gateway/routing/policy.py:58-68 | a granted route names only configured providers |
| Policy.ValidationAcceptsExactlySoundRules | src/inference_gateway/config/schema.py:225-243 | load-time validation accepts if and only if every route is known and no rule that can match restricted data has an external provider |
| Policy.ValidationNamesFirstUnsound | src/inference_gateway/config/schema.py:225-243 | a rejection names the first rule that is not sound, for unknown providers before external ones |
| Policy.ValidatedRoutesAreKnown | src/inference_gateway/config/schema.py:226-231 | accepted policies satisfy what routing and execution demand of provider names |
| Policy.ValidatedFilterRemovesNothing | src/inference_gateway/config/schema.py:233-242 | for an accepted policy the router's restricted-data filter changes no route |
| Fallback.EventLoop.Await | src/inference_gateway/routing/fallback.py:180-181 | a budgeted await ends after the lesser of its duration and its budget, and times out exactly when the duration reaches the budget |
| Fallback.FallbackExecutor.WaitOut | src/inference_gateway/routing/fallback.py:56-65 | with a hint, goes on exactly when the hint ends before the deadline, having slept the whole of it and noted that sleep; otherwise stops; without a hint goes on at once |
| Fallback.FallbackExecutor.AttemptChat | src/inference_gateway/routing/fallback.py:102-113 | one chat attempt under the lesser of attempt timeout and time left, with its outcome, clock and journal |
| Fallback.FallbackExecutor.Chat | src/inference_gateway/routing/fallback.py:88-133 | for any decision: a failed lookup ends it before anything is tried, else it does exactly the run `RunFrom` over the permitted providers |
| Fallback.FallbackExecutor.ChatInTurn | src/inference_gateway/routing/fallback.py:95-133 | the chat loop does exactly the run `RunFrom`: ending, attempt history, clock and every timed action |
| Fallback.FallbackExecutor.AwaitChunk | src/inference_gateway/routing/fallback.py:163-181 | one chunk wait under the least of idle budget, global and attempt deadlines; nothing is awaited without a budget |
| Fallback.FallbackExecutor.AttemptStream | src/inference_gateway/routing/fallback.py:157-194 | one streaming attempt: the items it yields, how it ends and all its waits |
| Fallback.FallbackExecutor.Stream | src/inference_gateway/routing/fallback.py:135-222 | for any decision: a failed lookup ends it before anything is tried or logged, else it does exactly the run `RunFrom` over the permitted providers |
| Fallback.FallbackExecutor.StreamInTurn | src/inference_gateway/routing/fallback.py:149-222 | the streaming loop does exactly the run `RunFrom` and appends that run's history to the caller's log |
| FallbackSafety.LogShape | src/inference_gateway/routing/fallback.py:97-133 | in every run all entries but the last are failures of configured classes at successive providers, and the ending is explained by the last entry |
| FallbackSafety.StartsMatchLog | src/inference_gateway/routing/fallback.py:97-127 | attempts start in list order, each once, one log entry per start |
| FallbackSafety.ItemsFromLastAttempt | src/inference_gateway/routing/fallback.py:152-206 | what a stream hands over is the beginning of the last attempt's script, all of it on success |
| FallbackSafety.StreamNeverReplays | src/inference_gateway/routing/fallback.py:148-222 | providers are tried as a prefix of the permitted list; all items come from the last of them, in its order and under its number |
| FallbackSafety.StartedStreamEndsOnce | src/inference_gateway/routing/fallback.py:182-216 | once a chunk is out the run succeeds with that provider and its whole script, or fails as a started stream |
| FallbackSafety.ClosingRaiseExactlyWhenNonePermitted | src/inference_gateway/routing/fallback.py:133 | the raise after the loop happens if and only if no provider is permitted |
| FallbackSafety.StopsShortOnlyForAReason | src/inference_gateway/routing/fallback.py:114-132 | a run leaves permitted providers untried only after success, a started stream, an ineligible error, a hint past the deadline, or the deadline itself |
| FallbackSchedule.TriedExactlyInTurn | src/inference_gateway/routing/fallback.py:97-132 | for every run: a provider is tried, and at its start time, if and only if each one before it fails before a chunk with an eligible configured error and its start time, the sum of all waits and hints before it, is before the deadline |
| FallbackSchedule.HintsAreWaitedOut | src/inference_gateway/routing/fallback.py:56-65 | from log and journal alone: between an attempt and its successor lie that attempt's waits and then, if and only if its entry has a hint, one sleep of exactly the hint, begun after the waits and ended by the successor's start |
| FallbackSafety.ReportsItsProviders | src/inference_gateway/routing/fallback.py:101-127 | chat or stream: every history entry before the last is exactly what that provider's own behaviour leaves, a timeout only if it was too slow for a budget of its own; the last may instead be a timeout by the deadline |
| FallbackSafety.EndsAsItsLastProvider | src/inference_gateway/routing/fallback.py:113-133 | an answer comes unchanged from the last provider tried, a final error is its own or the timeout that stopped it, and a run that tried nobody ends in a timeout |
| FallbackSafety.DeliversWhatArrives | src/inference_gateway/routing/fallback.py:160-185 | a stream hands over every chunk before the last attempt's first wait that overruns its idle or attempt budget, the whole script if none does, or fewer only once the clock has reached the deadline |
| FallbackSafety.SilentSuccessExactly | src/inference_gateway/routing/fallback.py:181-184 | a stream succeeds without a chunk if and only if the scripts and the clock make every earlier attempt fail over in silence and one end of itself in silence |
| FallbackSafety.ChatYieldsNothing | src/inference_gateway/routing/fallback.py:88-133 | a chat run hands over no stream items |
| FallbackSafety.DeadlinesAreKept | src/inference_gateway/routing/fallback.py:56-65 | no attempt starts at or after the deadline; every wait ends by the global, attempt and idle limits; each sleep is exactly a logged hint and ends before the deadline |
| FallbackSafety.RunStaysInside | src/inference_gateway/routing/fallback.py:94-101 | a run over internal providers starts, logs and delivers from internal providers only |
| FallbackSafety.PermittedExactly | src/inference_gateway/routing/fallback.py:79-83 | the permitted list is the decision's providers in order up to the attempt limit; external ones are left out first exactly for restricted data under the executor's own policy |
| FallbackSafety.ExecutorKeepsRestrictedInside | src/inference_gateway/routing/fallback.py:79-83 | with the data policy on and for any decision, however built: an unconfigured name ends a restricted request before anything is tried, and otherwise no external provider is reached |
| FallbackSafety.RoutedRestrictedStaysInside | src/inference_gateway/routing/policy.py:61-68 | routing then execution never calls an external provider for restricted data, even with the executor's filter off |
| FallbackSafety.ValidatedConfigurationNeedsNoFilter | src/inference_gateway/config/schema.py:252-262 | for a validated configuration the permitted list is the rule's route cut at the attempt limit, and restricted data goes to providers the provider document also marks internal |
| OpenAIAdapter.Stream | src/inference_gateway/adapters/openai_compat.py:189-264 | the event loop produces exactly the script `Decode` gives for the lines, waits included |
| OpenAIAdapter.DecodeKeepsText | src/inference_gateway/adapters/openai_compat.py:208-248 | for all lines, the chunks' text is exactly the contents up to [DONE] or the first malformed line |
| OpenAIAdapter.DecodeKeepsTime | src/inference_gateway/adapters/openai_compat.py:208-264 | each chunk comes when its line does, and the final chunk or the failure when its line or the end does, whatever waits and pauses lie before |
| OpenAIAdapter.DecodeCloses | src/inference_gateway/adapters/openai_compat.py:230-264 | a clean end is numbered text chunks and one final chunk with the last noted reason and usage |
| OpenAIAdapter.CleanEndExactly | src/inference_gateway/adapters/openai_compat.py:208-256 | the stream ends cleanly if and only if nothing read is malformed and it was not cut off before [DONE]; otherwise as malformed, or as a timeout that is eligible for fallback |
| OpenAIAdapter.FinishReasonExactly | src/inference_gateway/adapters/openai_compat.py:238-240 | the delivered reason is the last non-empty one or "stop", if and only if no empty reason comes last after a different one |
| OpenAIAdapter.EmptyReasonOverwrites | src/inference_gateway/adapters/openai_compat.py:238-240 | an input on which an empty reason replaces an earlier one |
| OpenAIAdapter.UsageExactly | src/inference_gateway/adapters/openai_compat.py:230-231 | the delivered usage is the last reported pair, if and only if no unreadable usage comes last after a readable one |
| OpenAIAdapter.UnreadableUsageResets | src/inference_gateway/adapters/openai_compat.py:55-61 | an input on which an unreadable usage value discards an earlier report |
| OpenAIAdapter.UsageAddsUp | src/inference_gateway/adapters/openai_compat.py:55-82 | usage is available exactly when both counts are; its visible and reasoning parts make up the billed output, and the reasoning part is the reported one exactly when that fits into the completion |
| Domain.JoinTextConcat | src/inference_gateway/api/routes.py:466 | joining content parts keeps every part in order |
| Domain.JoinTextOfOne | src/inference_gateway/api/routes.py:466 | a part without text joins as nothing, any other as its text |
| Wire.StreamText | src/inference_gateway/benchmark/harness.py:80-114 | the client's loop computes `ReadFrom` of the lines, or fails exactly when some line has a shape it cannot use |
| Wire.PrintedIsUsable | src/inference_gateway/api/schemas.py:131-153 | no line the gateway prints makes the client fail |
| Wire.ReadChunk | src/inference_gateway/api/schemas.py:95-153 | one chunk, printed and read back, adds its text; the final chunk sets its reason, or "stop" for none or an empty one, and the prompt tokens, completion tokens and their sum when both counts are there |
| Wire.ReadChunks | src/inference_gateway/benchmark/harness.py:88-114 | any chunks, printed and read back, add exactly their text and no error; text chunks set neither reason nor usage |
| Wire.ReadFinal | src/inference_gateway/api/schemas.py:95-102 | after text chunks the final chunk alone sets that reason and those totals |
| Wire.ReadBody | src/inference_gateway/api/routes.py:484-499 | a body reads as its chunks and then its closing event |
| StreamRoundTrip.ClientSurvivesEveryRun | src/inference_gateway/benchmark/harness.py:88-114 | the client survives the streamed body of every run |
| StreamRoundTrip.CompleteScriptReadsBack | src/inference_gateway/api/routes.py:459-484 | a complete script reads back as its text, its reason, its prompt, completion and total tokens, and no error |
| StreamRoundTrip.SuccessfulStreamRoundTrip | src/inference_gateway/api/routes.py:447-484 | upstream to client: on success the client reads exactly the serving upstream's text before [DONE], its last reason or "stop", and from its last usage value (p, c) the totals (p, c, p + c), or none when that value lacks one of the two |
| StreamRoundTrip.PartialScriptReadsBack | src/inference_gateway/api/routes.py:485-499 | a script cut off after any number of chunks reads back as the text of those chunks and an error |
| StreamRoundTrip.FailedStreamDeliversPrefix | src/inference_gateway/api/routes.py:485-499 | a started stream that fails gives the client the text of every chunk handed over, a prefix of the upstream's, the started-failure code and no [DONE] |
| StreamRoundTrip.AdapterStreamsReportTheirFallbacks | src/inference_gateway/api/routes.py:526-537 | through this adapter the reported fallback count is always the counted one |
| Telemetry.Metrics.RecordAttemptHistory | src/inference_gateway/api/routes.py:304-319 | the recorder adds exactly the history's errors and fallbacks to the counters |
| Telemetry.ErrorsCountFailedAttempts | src/inference_gateway/api/routes.py:308-313 | each error label rises by the number of attempts that failed at that provider with that class |
| Telemetry.TransitionsCountHandovers | src/inference_gateway/api/routes.py:314-319 | each fallback label rises by the number of neighbouring attempts it describes |
| Telemetry.TransitionsJoinNeighbours | src/inference_gateway/api/routes.py:308-319 | a history whose attempts failed but perhaps the last counts one fallback fewer than its attempts |
| Telemetry.ErrorsForAllButSuccess | src/inference_gateway/api/routes.py:308-313 | such a history counts one error for each attempt but a last one that succeeded |
| Gateway.GatewayState.RecordTerminalError | src/inference_gateway/api/routes.py:322-360 | a terminal error counts one request, the history, and its own class when there is no history |
| Gateway.GatewayState.NonStreamed | src/inference_gateway/api/routes.py:363-416 | response, clock, journal and counters of a non-streamed request are those of its run |
| Gateway.GatewayState.Streamed | src/inference_gateway/api/routes.py:419-445 | the same for a streamed request consumed to its end |
| Gateway.GatewayState.Respond | src/inference_gateway/api/routes.py:435-445 | an error before the first item is an error response; otherwise the stream is written and counted |
| Gateway.GatewayState.FinishStream | src/inference_gateway/api/routes.py:500-538 | after the body one request is counted under the serving provider, with the first item's provider and number in the headers |
| Gateway.GatewayState.WriteChunk | src/inference_gateway/api/routes.py:466-483 | a chunk gives an event exactly when it is final or has text |
| Gateway.GatewayState.WriteEvents | src/inference_gateway/api/routes.py:458-499 | the body is the chunks' events and then [DONE] or one error |
| Gateway.GatewayState.Deny | src/inference_gateway/api/routes.py:242-260 | a denial counts one request and one policy denial, and nothing for any provider |
| Gateway.GatewayState.CountOutcome | src/inference_gateway/api/routes.py:500-515 | a finished run counts its history and one request |
| Gateway.GatewayState.ChatCompletions | src/inference_gateway/api/routes.py:240-301 | a request that reaches routing is denied, counting one denial under "none", or run until its arrival plus the global timeout: attempts start and waits and sleeps end by then, providers have their turns up to then, and before then the response is the last provider's own; one request, one error per failed attempt and one fallback per handover are counted, as the response tells them, the reported fallback number exactly unless a stream succeeds in silence after a fallback |
| Gateway.RunKeepsTo | src/inference_gateway/api/routes.py:266-271 | in every run each start, wait and sleep keeps to the deadline, a provider is started exactly when it has its turn before it, and a run the clock did not stop is answered as its last provider's own behaviour has it |
| Gateway.AnswersByItself | src/inference_gateway/routing/fallback.py:100-127 | a run that ends before the deadline is answered with the last provider's own result or error, or as a started stream |
| Gateway.GatewayState.Dispatch | src/inference_gateway/api/routes.py:275-301 | stream and chat requests are both answered and counted by their run |
| Gateway.LastProviderIsNamed | src/inference_gateway/api/routes.py:322-325 | every request is counted under the last provider tried, and the response names it, unless a stream succeeded without a chunk |
| Gateway.CountedAsAnswered | src/inference_gateway/api/routes.py:322-360 | the counted outcome is the one the response tells, a success exactly when the last attempt is logged as one; every failed attempt counts its error, and a request that tried nobody one timeout against the primary |
| Gateway.RunIsCounted | src/inference_gateway/api/routes.py:304-360 | from the response and the starts: one request under the provider started last, an error for every start but a successful last one, a fallback between every two, and the route and that provider in the response |
| Gateway.LogTransitions | src/inference_gateway/api/routes.py:308-319 | every run's history counts one fallback between each two attempts |
| Gateway.ChatFallbackCountAgrees | src/inference_gateway/api/routes.py:68-80 | success or error, a non-streamed request reports exactly the fallbacks counted for it |
| Gateway.StreamFallbackCountAgreesExactly | src/inference_gateway/api/routes.py:526-537 | a streamed request reports the counted fallbacks, if and only if its scripts do not make it fall back to an attempt that succeeds without a chunk |
| Gateway.SpeakingScriptsAgree | src/inference_gateway/api/routes.py:526-537 | without a silent script behind the first provider the counts agree on every clock |
| Gateway.SilentScriptMiscounts | src/inference_gateway/api/routes.py:526-537 | for every silent script, a request that reports no fallback and counts one |
| Gateway.CountsAgreeExactlyWithoutSilence | src/inference_gateway/api/routes.py:526-537 | whatever scripts providers may play besides refusing, the counts agree on every request if and only if none of the scripts is silent |
| Ordering.SortKeeps | src/inference_gateway/benchmark/statistics.py:28 | sorting orders the values and keeps each as often as it occurs |
| Ordering.SortOfNegation | src/inference_gateway/benchmark/statistics.py:28 | sorting negated values is the mirror image of sorting the values |
| Ordering.SortIsMonotone | src/inference_gateway/benchmark/statistics.py:28 | raising values pointwise raises the sorted sequence pointwise |
| Ordering.SortMapped | src/inference_gateway/benchmark/statistics.py:28 | sorting commutes with every map that keeps the order |
| Percentile.InterpolatedMirrored | src/inference_gateway/benchmark/statistics.py:29-35 | reading the mirror image at the complementary position negates the value: floor and ceiling trade places |
| Percentile.QuantileWithinBounds | src/inference_gateway/benchmark/statistics.py:23-35 | the percentile lies between any bounds of the data |
| Percentile.QuantileIgnoresOrder | src/inference_gateway/benchmark/statistics.py:23-35 | the percentile depends on the values, not their order |
| Percentile.QuantileMonotoneInProbability | src/inference_gateway/benchmark/statistics.py:29-35 | the percentile grows with the probability |
| Percentile.QuantileMonotoneInData | src/inference_gateway/benchmark/statistics.py:23-35 | the percentile grows with the data, pointwise |
| Percentile.QuantileOfNegation | src/inference_gateway/benchmark/statistics.py:23-35 | the percentile of negated data is the negated percentile at the complementary probability |
| Percentile.QuantileSplitsData | src/inference_gateway/benchmark/statistics.py:29-35 | as many values as its position says do not exceed the percentile, and as many do not fall below it; where between them it lies is `QuantileIsLinear` |
| Percentile.QuantileIsLinear | src/inference_gateway/benchmark/statistics.py:29-35 | at position k + f the percentile is the k-th value in order plus the share f of the step to the next, for every sorted arrangement of the data |
| Percentile.QuantileRescaled | src/inference_gateway/benchmark/statistics.py:23-35 | the percentile commutes with x -> c * x + d for every c >= 0 |
| Percentile.QuantileOfPositions | src/inference_gateway/benchmark/statistics.py:29-35 | on 0, 1, .., n - 1 the percentile is the position (n - 1) * p itself |
| Bootstrap.Random.Choices | src/inference_gateway/benchmark/statistics.py:85 | a resample of the same size, one draw per element |
| Bootstrap.PairedQualityEffectCi | src/inference_gateway/benchmark/statistics.py:42-69 | the paired bootstrap computes the tail percentiles of the resampled means, or its input error |
| Bootstrap.ClusteredMetricCi | src/inference_gateway/benchmark/statistics.py:72-97 | the clustered bootstrap computes the tail percentiles of the metric over resampled clusters |
| Bootstrap.RepeatRatioCi | src/inference_gateway/benchmark/statistics.py:100-128 | the ratio bootstrap computes the tail percentiles of pooled ratios, or the error its guards give |
| Bootstrap.PairedEffectSwaps | src/inference_gateway/benchmark/statistics.py:42-69 | under one seed, exchanging baseline and treatment maps [l, h] to [-h, -l] and keeps errors |
| Bootstrap.PairedEffectWithinDifferences | src/inference_gateway/benchmark/statistics.py:51-58 | for every seed the interval is ordered within [-1, 1], starts at or above 0 when the treatment loses no item, ends at or below 0 when it wins none, and carries its iteration count and seed |
| Bootstrap.PairedIntervalSpansResamples | src/inference_gateway/benchmark/statistics.py:42-69 | the interval exists exactly for non-empty equal-length inputs and positive iterations; it runs from the 2.5th to the 97.5th percentile of as many means as iterations, the k-th over the draws from k * n on |
| Bootstrap.ClusteredIntervalSpansResamples | src/inference_gateway/benchmark/statistics.py:72-97 | the same for a metric over draws of whole non-empty clusters |
| Bootstrap.RatioIntervalExactly | src/inference_gateway/benchmark/statistics.py:107-110 | the ratio interval exists exactly for amounts and positive counts of the same repeats, at least one, and positive iterations |
| Bootstrap.RatioIntervalSpansResamples | src/inference_gateway/benchmark/statistics.py:111-128 | it spans as many pooled ratios as iterations, the k-th of the repeats in ascending order drawn from k * n on |
| Bootstrap.IntervalIsOrdered | src/inference_gateway/benchmark/statistics.py:38-39 | low never exceeds high |
| Bootstrap.FlattenedConcat | src/inference_gateway/benchmark/statistics.py:86 | flattening drawn clusters keeps every value of each, in order |
| Bootstrap.ClusteredP95WithinData | src/inference_gateway/benchmark/statistics.py:81-88 | for every seed the interval of a 95th percentile lies within the bounds of the measurements |
| Bootstrap.PooledRatioWithin | src/inference_gateway/benchmark/statistics.py:116-118 | the mediant: a pooled ratio lies within the bounds of the single ratios |
| Bootstrap.RatioIntervalIsOrdered | src/inference_gateway/benchmark/statistics.py:111-120 | a computed cost-per-correct interval is the right way round |
| Bootstrap.RatioIntervalWithinRepeats | src/inference_gateway/benchmark/statistics.py:100-128 | for every seed and iteration count the interval lies between the least and greatest per-repeat ratio |
| Comparison.Indexed | src/inference_gateway/benchmark/comparison.py:59-71 | indexing gives the pairs, or the first duplicate or unjudged record |
| Comparison.PairedQuality | src/inference_gateway/benchmark/comparison.py:42-99 | pairing computes estimate, counts and interval, or the error of the first guard that fails |
| Comparison.IndexCounts | src/inference_gateway/benchmark/comparison.py:59-71 | indexing loses no record: one pair each, as many affirmative as correct records |
| Comparison.EstimateIsDifferenceOfRates | src/inference_gateway/benchmark/comparison.py:88-95 | the estimate is B's quality rate minus A's over equally many records |
| Comparison.PairedQualitySwaps | src/inference_gateway/benchmark/comparison.py:42-99 | swapping runs under one seed negates the estimate and mirrors the interval, and fails alike |
| Comparison.CostDeltaSwaps | src/inference_gateway/benchmark/comparison.py:169-208 | swapping runs negates both cost deltas and mirrors their interval |
| Comparison.Claimability | src/inference_gateway/benchmark/comparison.py:266-343 | the verdict lists its failed gates in order and names the direction: exactly `VerdictOf`, whose direction `VerdictNamesTheCheaper` states |
| Comparison.VerdictNamesTheCheaper | src/inference_gateway/benchmark/comparison.py:323-330 | on the comparison and the two summaries: B is named if and only if its greatest cost is below A's least and the quality interval starts at or above 0; A likewise, unless B already is; nobody without both cost intervals |
| Comparison.CostsAreDifferences | src/inference_gateway/benchmark/comparison.py:169-208 | each cost delta added to A's cost gives B's, its interval likewise from the opposite bounds, and costs are complete exactly when nothing is missing |
| Comparison.QualityIntervalFavoursTheBetter | src/inference_gateway/benchmark/comparison.py:79-99 | a B that loses no item and repeat A got right has no negative bound, one that wins none no positive one; iterations are the smaller count and the seed is A's |
| Comparison.ComparableExactly | src/inference_gateway/benchmark/comparison.py:49-87 | two runs compare if and only if both are judged without duplicates, cover the same items and repeats, at least one, and ask for a resample |
| Comparison.SupportedExactlyWhenAllGatesPass | src/inference_gateway/benchmark/comparison.py:275-332 | support is claimed if and only if every gate passes, each gate spelled out in the runs' own values: 3 repeats, 200 successes, present and equal declarations, one direction |
| Comparison.FailuresListedExactly | src/inference_gateway/benchmark/comparison.py:275-330 | a condition is listed if and only if it fails, under the treatment it fails for |
| Comparison.DirectionSwapsExactly | src/inference_gateway/benchmark/comparison.py:323-330 | mirrored intervals support the other treatment, if and only if the evidence is not ambiguous |
| Comparison.BuildComparison | src/inference_gateway/benchmark/comparison.py:378-428 | the comparison uses the smaller iteration count and A's seed |
| Comparison.InvertedIntervalNamesBTwice | src/inference_gateway/benchmark/comparison.py:323-328 | for every pair of summaries with an inverted cost delta, two runs whose comparison names treatment B in both orders |
| Comparison.WrongWayRoundIsInverted | src/inference_gateway/benchmark/comparison.py:180-184 | two summaries with an inverted cost delta |
| Comparison.SummariesDecideSwapping | src/inference_gateway/benchmark/comparison.py:323-330 | for two summaries, the direction swaps with the runs that carry them, whatever their records, if and only if the cost delta is not inverted |
| Comparison.ComparisonIsAntisymmetric | src/inference_gateway/benchmark/comparison.py:378-428 | swapping runs with equal seeds fails alike, negates the estimate and both cost deltas, mirrors both intervals, keeps the status and swaps the direction exactly unless ambiguous |
| Comparison.OrderedIntervalsAreUnambiguous | src/inference_gateway/benchmark/comparison.py:180-184 | with each run's own interval ordered the evidence is never ambiguous |
| Comparison.ReportedRunsSwapDirection | src/inference_gateway/benchmark/comparison.py:307-332 | between runs whose cost intervals come from the ratio bootstrap, swapping always names the other treatment |
| Costing.AggregateManaged | src/inference_gateway/costing/engine.py:40-59 | total, priced and missing counts over the managed records only |
| Costing.HybridViewAIsSumOfPaths | src/inference_gateway/benchmark/report.py:500-524 | combined cost per request and per correct answer is the sum of the two paths' costs |
| Costing.ViewBAddsEqually | src/inference_gateway/costing/engine.py:92-193 | view B adds the same platform share per request and per correct answer to every path and to both combined, so differences between paths stay as in view A |
| Costing.ViewsDivideTheirOwnTotals | src/inference_gateway/costing/engine.py:92-119 | each path's cost per request times the requests, and per correct task times the correct tasks, is its own total with the additions; a figure is missing exactly when there is nothing to divide by |
| Costing.ResourcesAtTheirOwnRates | src/inference_gateway/costing/engine.py:60-68 | more of one private resource costs that resource's own rate |
| Costing.AdditionsInProportion | src/inference_gateway/costing/engine.py:76-88 | 720 hours bear every platform rate for 720 hours and all monthly operations, other spans in proportion |
| RunCosts.PrivateMoneyConservedExactly | src/inference_gateway/benchmark/report.py:552-562 | the repeats' private numerators sum to the run's private cost, if and only if billed hours are the span estimate or capacity is free |
| RunCosts.MeasuredHoursPartFromRepeats | src/inference_gateway/benchmark/report.py:473-489 | a run with measured hours whose repeats carry half its private cost |
| RunCosts.RepeatBilledForItsSpan | src/inference_gateway/benchmark/report.py:465-472 | a repeat is billed for the minimum or for the span that covers all its records, whichever is longer |
| RunCosts.RepeatsCarryTheirOwnMoney | src/inference_gateway/benchmark/report.py:552-585 | a repeat's numerators are the private cost of its own hours and the managed cost of its own records, its denominator its own correct records |
| RunCosts.ManagedMoneyConserved | src/inference_gateway/benchmark/report.py:563-585 | the repeats' managed numerators sum to the aggregate and their correct counts to the run's |
| RunCosts.ProviderBreakdown | src/inference_gateway/benchmark/report.py:328-357 | the table has one row per provider name with that name's requests, correct answers, quality rate, cost and unit costs |
| RunCosts.RowDivides | src/inference_gateway/benchmark/report.py:334-357 | a row's unit costs times what they are given for are its cost, its quality rate times its requests its correct answers, with a rate exactly when its first record is judged |
| RunCosts.RowsCoverRecords | src/inference_gateway/benchmark/report.py:331-335 | the rows' requests sum to the records and their correct answers to the run's |
| RunCosts.ManagedRowsConserved | src/inference_gateway/benchmark/report.py:334-340 | the managed rows sum to the managed aggregate |
| RunCosts.ProviderRowsConservedExactly | src/inference_gateway/benchmark/report.py:342-343 | all rows sum to the combined total, if and only if exactly one private name occurs or the private total is zero |
| RunCosts.ProviderRowsLoseOrDouble | src/inference_gateway/benchmark/report.py:336-347 | a managed run whose rows lack the private total, and a run with two private names whose rows hold it twice |
| RunCosts.HybridMoneyConserved | src/inference_gateway/benchmark/report.py:577-579 | the repeats' combined numerators sum to the run's combined cost |
| RunCosts.PooledHybridCostWithinRepeats | src/inference_gateway/benchmark/report.py:552-585 | with a correct answer in every repeat the pooled combined cost lies within the per-repeat minimum and maximum |
| Slo.Evaluate | src/inference_gateway/benchmark/report.py:127-193 | with the manifest's cell targets or its single one, grouping and evaluation give the cells' reports in name order, or the first cell without a target, and the overall verdict |
| Slo.EvaluateGroups | src/inference_gateway/benchmark/report.py:144-170 | the loop over the grouped cells gives those reports and that verdict |
| Slo.SampleSizesSumToRecords | src/inference_gateway/benchmark/report.py:138-161 | the cells partition the records: sample sizes sum to their number |
| Slo.CellIgnoresOrder | src/inference_gateway/benchmark/report.py:196-241 | a cell's figures and eligibility do not depend on record order |
| Slo.CellIsEligibleExactly | src/inference_gateway/benchmark/report.py:196-241 | a cell is eligible if and only if the 95th latency percentile, in a streamed scenario the 95th first-token percentile of at least one record, the failures and, but for generation, the correct answers meet their targets, with 30 records when publishable |
| Slo.CellReportsItsFigures | src/inference_gateway/benchmark/report.py:204-234 | the reported percentiles are those of the cell's latencies and first tokens, and its rates times its sample its failures and correct answers |
| Slo.CellHoldsItsRecords | src/inference_gateway/benchmark/report.py:138-142 | a cell holds exactly the records of its workload whose tier, or the scenario's for want of one, is the cell's |
| Slo.EvaluatedExactlyWithTargets | src/inference_gateway/benchmark/report.py:144-147 | the evaluation finds its targets if and only if every record belongs to a cell that has one |
| Slo.SloIgnoresRecordOrder | src/inference_gateway/benchmark/report.py:127-193 | nor does the whole evaluation, missing targets included |
| Slo.EligibleCellsBoundThePool | src/inference_gateway/benchmark/report.py:172-190 | all cells eligible: the largest error target among cells with traffic bounds the pooled error rate, the smallest quality target bounds the correct answers by the objective records, and the pooled quality rate when all records are objective |
| Slo.OneWorkloadIsBounded | src/inference_gateway/benchmark/harness.py:352 | for records of the scenario's own workload, as the client writes them, eligible cells bound the pooled quality rate |
| Slo.QualityIsBoundedExactlyWithoutGeneration | src/inference_gateway/benchmark/report.py:227-234 | over a set of workloads, eligible cells bound the pooled quality rate of every run if and only if generation is not among them |
| Slo.GenerationDilutesQuality | src/inference_gateway/benchmark/report.py:227-234 | an eligible run of two records at quality target one whose pooled rate is one half |
| Slo.EligibleCellIsFast | src/inference_gateway/benchmark/report.py:204-213 | in an eligible cell more than 95 in 100 of all records but one meet the latency target |
| Slo.EligibleStreamStartsFast | src/inference_gateway/benchmark/report.py:214-219 | in an eligible cell of a streamed scenario some record has a first token, and more than 95 in 100 of those that have one, but one, have it within the target |
| Slo.EligibleRunIsFast | src/inference_gateway/benchmark/report.py:190 | all cells eligible: at least 95 in 100 of the run's records, but for one a cell with traffic, meet the largest latency target of those cells |
| Capacity.RequiredReplicasIsLeastSufficient | src/inference_gateway/costing/scenario_grid.py:42-45 | for positive inputs alone there is a replica count; it suffices for the volume and no smaller count does |
| Capacity.PrivateSteps | scripts/decision-brief-charts.py:81-94 | the loop ends with the polyline: start, two vertices per multiple, end |
| Capacity.VertexCount | scripts/decision-brief-charts.py:85-93 | two vertices and two more for each multiple of capacity strictly inside |
| Capacity.SegmentsProperExactly | scripts/decision-brief-charts.py:85-93 | all segments are level or one-replica jumps at multiples, if and only if the start is no multiple of capacity or replicas are free |
| Capacity.PolylineTracesCeilingExactly | scripts/decision-brief-charts.py:81-94 | read from the left the polyline is the cost of the required replicas at every volume, with the exact condition on its start |
| Capacity.SlopeMissesCeiling | scripts/decision-brief-charts.py:85-86 | every polyline that starts on a multiple misses the replica cost one volume later, given capacity and room for a slope |
| ScenarioGrid.BuildCases | src/inference_gateway/costing/scenario_grid.py:57-80 | the quality cases are the measured one or one per path, shifted and clamped |
| ScenarioGrid.BuildScenarioGrid | src/inference_gateway/costing/scenario_grid.py:48-242 | the nested loops build the grid, row for row in order |
| ScenarioGrid.GridSize | src/inference_gateway/costing/scenario_grid.py:81-168 | volumes times profiles times tiers times quality cases times four rows |
| ScenarioGrid.CaseCount | src/inference_gateway/costing/scenario_grid.py:57-80 | one case for each zero point and two for every other |
| ScenarioGrid.GridHoldsEveryRow | src/inference_gateway/costing/scenario_grid.py:81-168 | every combination has its row |
| ScenarioGrid.GridRowOrigin | src/inference_gateway/costing/scenario_grid.py:81-168 | every row is that of one of its combinations |
| ScenarioGrid.GridRowsAddUp | src/inference_gateway/costing/scenario_grid.py:81-160 | every row: without the platform, a million times the managed total is input tokens at the input price plus output tokens at the output price, the private total the least sufficient replicas at hours times rate; components are theirs, and per-million and per-correct figures times tokens and correct tasks give the totals |
| ScenarioGrid.LowerByCrossProducts | src/inference_gateway/costing/scenario_grid.py:155-168 | the lower path is the one whose total times the other path's rate is smaller; none exactly when a rate is zero |
| ScenarioGrid.CasesShiftByTheirPoints | src/inference_gateway/costing/scenario_grid.py:57-80 | a case moves its own path's rate by its points in a hundred, held within 0 and 1, and no other |
| ScenarioGrid.ViewBNeverMovesCrossover | src/inference_gateway/costing/scenario_grid.py:117-168 | with equal quality every view B sensitivity names the same cheaper path as view A |
| ScenarioGrid.MeasuredRowsAgreeWithViewA | src/inference_gateway/benchmark/report.py:629-638 | in a grid built from one quality rate each measured row agrees with a view A row of its cell |
| ScenarioGrid.SensitivityIsMonotone | src/inference_gateway/costing/scenario_grid.py:58-80 | for all prices: of two rows that differ in their quality case, the one with the larger point is still won by the favoured path that won the other, clamping included |
| RequestMix.ProfileFor | src/inference_gateway/benchmark/harness.py:374-385 | the selected profile is the one that owns the slot; selection is never exhausted |
| RequestMix.OwnsItsSlots | src/inference_gateway/benchmark/harness.py:380-384 | a position owns exactly its weight of consecutive slots after those before it |
| RequestMix.ClosedForm | src/inference_gateway/benchmark/harness.py:380-384 | how often the first n requests select a position, for every n |
| RequestMix.WindowIsExact | src/inference_gateway/benchmark/harness.py:380-384 | any window of total-weight requests selects each position exactly its weight of times |
| LabelExtraction.ExtractLabel | src/inference_gateway/benchmark/evaluators.py:30-53 | the backward scan gives `Extracted` of the lines |
| LabelExtraction.LastMentionDecides | src/inference_gateway/benchmark/evaluators.py:40-53 | the answer is that of the last line mentioning a label, whatever stands before or after |
| LabelExtraction.ExtractedExactly | src/inference_gateway/benchmark/evaluators.py:40-53 | a label is extracted if and only if some line mentions it alone, bare or without a negation, and no line after it mentions any |
| LabelExtraction.NoMentionNoAnswer | src/inference_gateway/benchmark/evaluators.py:40-53 | without a mention there is no answer |
| LabelExtraction.SoleContentExactly | src/inference_gateway/benchmark/evaluators.py:48 | text strips to a one-word label if and only if that word is its only content |
| LabelExtraction.BareAnswerIsExtracted | src/inference_gateway/benchmark/evaluators.py:56-68 | with one-word labels, a response accepted as a bare label is extracted as that same label |
| Evaluators.Tally | src/inference_gateway/benchmark/evaluators.py:90-98 | each cell counts its pairs, other guesses are kept apart, and the first unlisted truth is the error |
| Evaluators.PerClass | src/inference_gateway/benchmark/evaluators.py:99-124 | each label's score is that of its counts, summed label by label |
| Evaluators.DistinctLabelsSumOnce | src/inference_gateway/benchmark/evaluators.py:100-107 | for labels given once each those sums are what the pairs say about the label |
| Evaluators.RepeatedLabelSumsTwice | src/inference_gateway/benchmark/evaluators.py:102-104 | an input with a label given twice whose one wrong guess is two false positives |
| Evaluators.ClassificationMetrics | src/inference_gateway/benchmark/evaluators.py:82-131 | matrix, unknown guesses, scores and accuracy in terms of the pairs, or the input error |
| Evaluators.DataLabelsListAll | src/inference_gateway/benchmark/evaluators.py:89 | labels taken from the data leave no truth and no guess unlisted |
| Evaluators.RightConfusedOrUnlisted | src/inference_gateway/benchmark/evaluators.py:94-98 | every prediction is right, confuses two labels, or is none of the labels |
| Evaluators.CellsSumToPredictions | src/inference_gateway/benchmark/evaluators.py:90-98 | matrix cells and unknown guesses sum to the predictions |
| Evaluators.CountsSumToPredictions | src/inference_gateway/benchmark/evaluators.py:100-107 | true positives sum to the right answers; false positives and false negatives each to the wrong ones less the unknown |
| Evaluators.DataLabelsCountEverything | src/inference_gateway/benchmark/evaluators.py:89-107 | with labels omitted both sum to the predictions less the right answers |
| Evaluators.ClassScoreExactly | src/inference_gateway/benchmark/evaluators.py:108-124 | f1 in closed form and when it is one; support exceeds recall's base by the unknown guesses |
| Evaluators.PrecisionOfGuessesRecallOfTruths | src/inference_gateway/benchmark/evaluators.py:108-119 | precision times all guesses of the label, and recall times the listed guesses where it was true, are the right ones |
| Evaluators.UnlistedCountsGuesses | src/inference_gateway/benchmark/evaluators.py:94-98 | a guess is kept apart as often as it was made, if it is none of the labels |
| Evaluators.UnlistedGuessCostsNoRecall | src/inference_gateway/benchmark/evaluators.py:94-125 | an input that is half right with recall and f1 one |
| Evaluators.FieldScoreExactly | src/inference_gateway/benchmark/evaluators.py:188-215 | field f1 is twice the matches over both field counts, and one if and only if the whole record matches and something was expected |
| Evaluators.FieldPrecisionAndRecall | src/inference_gateway/benchmark/evaluators.py:188-215 | precision times the given fields and recall times the expected ones are the matches; required fields are exact when every expected one matches, the record when it is the expected one |
| Evaluators.UnparsedScoresNothing | src/inference_gateway/benchmark/evaluators.py:164-187 | what is no object scores nothing, and only what is no JSON is called invalid |
| Evaluators.EmptyRecordScoresNothing | src/inference_gateway/benchmark/evaluators.py:203-205 | nothing expected and nothing given: the whole record is right and field f1 zero |
| Checksums.HashFile | src/inference_gateway/benchmark/datasets.py:38-43 | hashing block by block is hashing the whole content |
| Checksums.DigestLines | src/inference_gateway/benchmark/generators.py:39-42 | one digest line per listed file |
| Checksums.Finish | src/inference_gateway/benchmark/generators.py:35-43 | the metadata file is written and listed, and the checksum file covers everything listed in name order: exactly `FinishedFiles` |
| Checksums.SortedNamesKeep | src/inference_gateway/benchmark/generators.py:40 | files are listed in name order, each as often as it was given |
| Checksums.ListingOrderDoesNotMatter | src/inference_gateway/benchmark/generators.py:40-43 | the checksum file does not depend on the order in which files were listed |
| Checksums.VerifyChecksum | src/inference_gateway/benchmark/datasets.py:46-63 | the line loop gives `Check` of what each name opens: the aggregate hash, or the first line that is invalid, missing or different |
| Checksums.WrittenLines | src/inference_gateway/benchmark/datasets.py:48 | splitting the written text gives back the written lines |
| Checksums.VerifyAcceptsExactlyUnchangedFiles | src/inference_gateway/benchmark/datasets.py:46-63 | the written file is accepted if and only if every listed file is present with the same hash, and then yields the hash of the checksum file itself |
| Checksums.FinishedFilesVerifyExactly | src/inference_gateway/benchmark/generators.py:38-43 | for any list of one-line names, what `Finish` wrote is accepted exactly while every listed file has the hash written down; at once, that is unless the checksum file was listed and its own hash changed |

## Left out

Abstractions that hold throughout:

- Decimal and floating-point rounding: amounts, rates, percentiles and times are exact reals, so conservation and antisymmetry are claims about the intended arithmetic.
- HTTP, JSON, YAML, Unicode normalisation and regular expressions: lines, events, words, labels and configuration arrive parsed, and the negation pattern is an arbitrary predicate on lines.
- Task scheduling, cancellation and client disconnects: a budgeted await is one step of the clock, and a streamed response is read to its end.
- The wall clock and the event loop's clock are one clock here; a timed-out await ends exactly at its budget, and an operation that takes exactly its budget times out.
- The pseudo-random generator: any function from a position to a number, so nothing is said about statistical coverage.
- Missing adapters: an adapter is there for every permitted provider, as it is for every configured one; the executor's policy lookup of an unconfigured name is modelled, the gateway routes only what an accepted policy configures (`ValidatedRoutesAreKnown`).
- Negative token counts: usage counts are natural numbers.

Parts of the modelled files that the model does not have:

- Authentication, header parsing, body validation, HTTP statuses, the Retry-After response header, messages and the access log.
- Latency, time-to-first-token, token, cost and routing-decision metrics.
- The non-streaming and request-building halves of the adapters, the Anthropic and mock adapters, and the completion payload of a non-streamed response beyond the provider's result.
- The validators for workload identifiers, timeouts against the global deadline, model aliases and pricing.
- Finding costs and intervals in summary files (`_view_a_cost`, `_view_b_cost`, `_view_a_ci`), provider modes, latency deltas and the writing of comparison files: a comparison starts from the values found.
- Token counts and costs per million tokens in run views, and text columns of tables.
- The informational aggregate of the service-level payload, its target and check rows, dispersion rows and report rendering.
- Stripping of code fences, normalisation of field values, and prediction text kept for reports.
- The dataset generators other than their common finishing step, and loading of datasets after the checksum.
- Manifests, publishing scripts, charts other than the step polyline, and deployment files.

Contracts stated more narrowly than the code allows:

- ScenarioGrid.BuildScenarioGrid: volumes and replica capacities are positive by type, as the configuration schema demands, so the capacity error is modelled only in `RequiredReplicas`.
- RequestMix.ProfileFor: weights are between 1 and 1000 by type, as the scenario schema demands.
- Slo.Evaluate: a manifest has a single target besides its cell targets; the lookup error when it has neither is not modelled.
- Capacity.PrivateSteps: requires a positive capacity; the division error for zero is not modelled.
