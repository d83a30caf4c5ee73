# Verification of the proxy's state machines and transformations

A Dafny 4.11 model of the hard logic of the Go proxy, with proofs. Time is an
integer, JSON values are datatypes, goroutines are interleaved steps. Code that
updates state in place is a class or a method with loops, proved against a
function; what the code is for is then proved about that function.

- **Metrics and circuit breaker.** `CircuitBreaker` is the closed / open /
  half-open machine of one key. `RequestLedger` is the request history without
  positions; `KeyMetrics` is the object with the history, the index map into it,
  the counters and the breaker; `KeyLedgers` and `MetricsManager` are all keys
  together, with lookup, merging of legacy keys and runs. `HistoryBuckets` is the
  chart aggregation; `BreakerRuns` tells what the breaker does over whole runs.
- **Rate-limiting dispatcher.** `Dispatcher`: any number of acquirers, one
  runner, a token channel, two queues and idle shutdown; `DispatcherProgress`
  proves that everyone can be served.
- **apply_patch.** `ApplyPatch` prints and parses, `PatchRoundTrip` proves that
  they undo each other, `PatchExactly` for exactly which operations, and
  `PatchMeaning` what the text says about files. `CodexProxy` is the
  proxy-argument layer on top, `ProxyMeaning` what its arguments say.
- **Protocol transformations.** `ToolCallOrder` reorders tool replies, and
  `ToolReplies` proves when every caller gets its own.
  `ChatToResponses` (streaming), `ChatMessages` (non-streaming) and `ChatUsage`
  convert chat completions; `ChatStreams`, `ChatToolStreams` and `ChatAgreement`
  prove that both conversions agree. `ClaudeToResponses` and `ClaudeStreams` do
  the same for Claude streams. In both, the events are judged by a client that is
  defined on its own, without the functions of the converter.
- **Index and buffer structures.** `ChannelLog` and `ChannelLogRuns` are the ring
  buffers per channel with their location map; `WriteBuffer` is the SQLite write
  buffer, and `WriteBufferProgress` proves what its flushes commit and that
  closing comes to an end.
- **Supporting state machines.** `KeyLists` and `KeyListRuns` (API key lists),
  `CapabilityJobs` and `JobMeaning` (job recomputation), `RoundRobin` and
  `ResultAssembly` (test queue and results).

`TextLines`, `ToolIndexes` and `Common` hold what several of these share.

Some promises turned out to hold only under a condition. Each has a lemma with
the exact condition and a lemma with an input that fails it:
`FinalizeSettlesExactly` and `MergedAwayIsCountedTwice`;
`MergeIsConsistentExactly` and `MergeBreaksConsistency`;
`DroppedIsTheCurrentInterval` and `LateRecordIsDropped`;
`PatchExactly.RoundTripExactly` and `BrokenPathIsCut`;
`RepliesFollowExactlyWhen` and `SharedIDLosesTheReply`;
`StreamAgreesWithMessage` and `SkippedIndexIsMisplaced`;
`RecomputeIsIdempotent` and `EmptyJobStartsLate`;
`ApartExactlyWhen` and `UpdatedKeyStaysDisabled`.

## Model

| member | source | states |
|---|---|---|
| KeyLedgers.EveryIndexPointsAtItsConnect | backend-go/internal/metrics/channel_metrics.go:979-1155 | over every run of connect, finalize, cancel, direct record, expiry, reset, deletion and merging of legacy keys: a request that still waits owns exactly one record over all keys, and it is the record the id-th connect of the run created |
| KeyLedgers.FinalizeSettlesExactly | backend-go/internal/metrics/channel_metrics.go:1026-1050 | for every open request, whoever holds it: a finalize settles its record if and only if, under the lookup, the identity key holds it, or a variant does and no identity key exists; otherwise the record stays open and the outcome is recorded afresh |
| KeyLedgers.MergedAwayIsCountedTwice | backend-go/internal/metrics/channel_metrics.go:630-679 | a run in which that happens: the result of an endpoint that has another endpoint's identity key as a legacy variant merges the open record away, and the finalize records its outcome a second time |
| KeyLedgers.OutcomeRewrites | backend-go/internal/metrics/channel_metrics.go:1047-1083 | a finalize that reaches its request rewrites exactly the record its connect created into the outcome, under the connect's model and time; all other records of all keys stay, up to promotion |
| KeyLedgers.CancelDeletes | backend-go/internal/metrics/channel_metrics.go:1135-1154 | a cancel that reaches its request deletes exactly the record its connect created; all other records of all keys stay, up to promotion |
| KeyLedgers.CancelUnreachedMerges | backend-go/internal/metrics/channel_metrics.go:1119-1145 | a cancel that does not reach its request changes nothing but to merge the variants under its lookup, if any key of the lookup exists |
| KeyLedgers.OpenRecordsShowTheirConnects | backend-go/internal/metrics/channel_metrics.go:990-995 | over every run, the record of a request that still waits shows the model and time of its own connect, counted as a success without tokens |
| KeyLedgers.OpenUntilClosed | backend-go/internal/metrics/channel_metrics.go:979-1155 | over every run, the open requests are exactly those that connected and were not closed since: by their own outcome or cancel, by expiry, by a reset of the key holding them or by its deletion |
| KeyLedgers.OnlyOldRequestsExpire | backend-go/internal/metrics/channel_metrics.go:1224-1279 | a request closed by age connected at least a day before |
| KeyLedgers.ConnectKeeps | backend-go/internal/metrics/channel_metrics.go:979-1004 | a connect under a fresh id opens its request and closes exactly those that expire from the promoted key, all of them old; every open record stays tied to its own connect |
| KeyLedgers.OutcomeKeeps | backend-go/internal/metrics/channel_metrics.go:1022-1116 | a finalize closes exactly its own request when it reaches it, and otherwise exactly what expires; every open record stays tied to its own connect |
| KeyLedgers.CancelKeeps | backend-go/internal/metrics/channel_metrics.go:1119-1155 | a client cancel closes exactly its own request when it reaches it, and otherwise nothing; every open record stays tied to its own connect |
| KeyLedgers.DirectKeeps | backend-go/internal/metrics/channel_metrics.go:902-970 | a result nobody announced closes exactly what expires from the promoted key, all of it old; every open record stays tied to its own connect |
| KeyLedgers.ResetKeeps | backend-go/internal/metrics/channel_metrics.go:1851-1874 | a reset closes exactly the open requests of the first matching key; the others stay tied to their own connects |
| KeyLedgers.PromoteKeeps | backend-go/internal/metrics/channel_metrics.go:630-679 | merging legacy variants into the identity key loses no open request and invents none |
| MetricsManager.MetricsManager.constructor | backend-go/internal/metrics/channel_metrics.go:179-193 | a new manager has no keys and no request ids |
| MetricsManager.MetricsManager.GetOrCreateKey | backend-go/internal/metrics/channel_metrics.go:630-679 | the merge loop over the key objects leaves the identity key with all variants' histories, in lookup order, and no variant |
| MetricsManager.MetricsManager.FirstMatching | backend-go/internal/metrics/channel_metrics.go:440-447 | the lookup loop finds the first key of the list that exists |
| MetricsManager.MetricsManager.FindPending | backend-go/internal/metrics/channel_metrics.go:617-627 | the lookup loop finds the first key whose index holds the request, that is, whose ledger has its open record |
| MetricsManager.MetricsManager.MergeVariants | backend-go/internal/metrics/channel_metrics.go:637-668 | variant by variant, the first one found collects the histories of the others, which disappear |
| MetricsManager.MetricsManager.RecordRequestConnectedAt | backend-go/internal/metrics/channel_metrics.go:979-1004 | issues the next id, appends its record to the history of the promoted key, expires old records, and keeps all keys valid |
| MetricsManager.MetricsManager.RecordRequestFinalizeOutcome | backend-go/internal/metrics/channel_metrics.go:1022-1116 | the histories of all keys afterwards: the record of its request rewritten, or the outcome recorded afresh when there is none to rewrite |
| MetricsManager.MetricsManager.RecordRequestFinalizeClientCancel | backend-go/internal/metrics/channel_metrics.go:1119-1155 | the histories of all keys afterwards: the record of its request removed, or nothing changed beyond promotion |
| MetricsManager.MetricsManager.RecordResult | backend-go/internal/metrics/channel_metrics.go:895-970 | the histories of all keys afterwards: a settled record appended to the promoted key |
| MetricsManager.MetricsManager.ResetKey | backend-go/internal/metrics/channel_metrics.go:1851-1874 | the histories of all keys afterwards: the first matching key's emptied, the others unchanged |
| MetricsManager.MetricsManager.Forget | backend-go/internal/metrics/channel_metrics.go:1877-1991 | drops the given keys and leaves the others as they are |
| KeyMetrics.KeyMetrics.CleanupHistory | backend-go/internal/metrics/channel_metrics.go:1224-1263 | drops exactly the leading records that are not after the cutoff; every surviving index still points at its own record |
| KeyMetrics.KeyMetrics.AppendToHistory | backend-go/internal/metrics/channel_metrics.go:1266-1279 | appends a record, open or settled, and expires old ones, keeping the index map exact |
| KeyMetrics.KeyMetrics.Connect | backend-go/internal/metrics/channel_metrics.go:979-1004 | appends the open record of a request and advances a due breaker; counts nothing yet |
| KeyMetrics.KeyMetrics.SettleRecord | backend-go/internal/metrics/channel_metrics.go:1047-1083 | rewrites the one record the index points at and forgets the index |
| KeyMetrics.KeyMetrics.RemoveRecord | backend-go/internal/metrics/channel_metrics.go:1135-1154 | cuts the one record the index points at out of the history and moves later indexes down |
| KeyMetrics.KeyMetrics.FinalizeOutcome | backend-go/internal/metrics/channel_metrics.go:1047-1116 | settles the record, counts the outcome once, as a success or a failure with its time, and tells the breaker; requests = successes + failures + cancels |
| KeyMetrics.KeyMetrics.FinalizeClientCancel | backend-go/internal/metrics/channel_metrics.go:1135-1154 | removes the record and counts a request that is neither success nor failure; the breaker is untouched |
| KeyMetrics.KeyMetrics.RecordDirect | backend-go/internal/metrics/channel_metrics.go:902-970 | counts an unannounced outcome as a success or a failure and appends its record |
| KeyMetrics.KeyMetrics.MergeFrom | backend-go/internal/metrics/channel_metrics.go:486-547 | adds another key: counts sum, the history and index map concatenate exactly, the breaker takes maxima |
| KeyMetrics.KeyMetrics.ResetKey | backend-go/internal/metrics/channel_metrics.go:1851-1874 | zeroes counts, history, index map and breaker |
| KeyMetrics.KeyMetrics.HandleBreakerSuccess | backend-go/internal/metrics/channel_metrics.go:840-861 | closes an open breaker, counts half-open successes up to the target, and zeroes the failure run |
| KeyMetrics.KeyMetrics.HandleBreakerFailure | backend-go/internal/metrics/channel_metrics.go:863-887 | only retryable failures count; half-open re-opens with a longer backoff, closed opens when broken |
| KeyMetrics.KeyMetrics.TryAcquireProbe | backend-go/internal/metrics/channel_metrics.go:2561-2575 | hands out the probe exactly when the breaker is half-open without one, or open with its retry time reached; otherwise nothing changes |
| KeyMetrics.KeyMetrics.BreakerFailureRate | backend-go/internal/metrics/channel_metrics.go:726-737 | the loop computes failures over window length |
| KeyMetrics.KeyMetrics.IsKeyCircuitBroken | backend-go/internal/metrics/channel_metrics.go:1180-1192 | three consecutive failures, or a full enough window at the threshold |
| RequestLedger.MatchesShifted | backend-go/internal/metrics/channel_metrics.go:1239-1251 | dropping a prefix and shifting the indexes keeps the index map exact in both directions |
| RequestLedger.MatchesCut | backend-go/internal/metrics/channel_metrics.go:1146-1154 | deleting one record and moving later indexes down keeps the index map exact in both directions |
| RequestLedger.MatchesMerged | backend-go/internal/metrics/channel_metrics.go:520-529 | offsetting another key's indexes keeps the index map exact in both directions |
| RequestLedger.SettleAt | backend-go/internal/metrics/channel_metrics.go:1053-1083 | settling a request changes the one position that waits for it |
| RequestLedger.RemoveAt | backend-go/internal/metrics/channel_metrics.go:1146-1147 | removing a request cuts the one position that waits for it |
| RequestLedger.ExpireAt | backend-go/internal/metrics/channel_metrics.go:1229-1237 | the dropped prefix is everything in front of the first fresh record |
| RequestLedger.SettledSays | backend-go/internal/metrics/channel_metrics.go:1053-1083 | a settled record says its outcome: a success its tokens, a failure no tokens and its class, retryable if none was given; model and time are those of the connect |
| RequestLedger.DirectSays | backend-go/internal/metrics/channel_metrics.go:902-970 | so does the record of an unannounced outcome, under its own time and without a model |
| CircuitBreaker.AlwaysConsistent | backend-go/internal/metrics/channel_metrics.go:792-887 | every reachable unmerged breaker: an open one has a retry time min(base*2^level, max) after its opening and no successes counted; half-open has no retry time and fewer successes than the target; closed has no timestamps, no backoff and fewer than three failures; a probe is in flight only half-open. What time does to them is in BreakerRuns |
| CircuitBreaker.LevelCountsHalfOpenFailures | backend-go/internal/metrics/channel_metrics.go:863-887 | the backoff level is the number of half-open failures since last closed |
| CircuitBreaker.WindowIsLastOutcomes | backend-go/internal/metrics/channel_metrics.go:719-724 | the window is the last windowSize relevant outcomes since the last reset or closing |
| CircuitBreaker.WindowTailIsCounter | backend-go/internal/metrics/channel_metrics.go:719-724 | its trailing failure run is min(consecutive failures, windowSize) |
| CircuitBreaker.ThreeFailuresOpen | backend-go/internal/metrics/channel_metrics.go:863-887 | three retryable failures with no success or reset between them leave closed, whatever else happens in between |
| CircuitBreaker.OtherFailuresNeverOpen | backend-go/internal/metrics/channel_metrics.go:681-696 | runs without a retryable failure or a forced probe never leave closed |
| CircuitBreaker.MergeBreaksConsistency | backend-go/internal/metrics/channel_metrics.go:486-547 | a concrete pair of consistent breakers whose merge is not consistent |
| CircuitBreaker.MergeIsConsistentExactly | backend-go/internal/metrics/channel_metrics.go:486-547 | a merge of consistent breakers is consistent if and only if they are not one open and one half-open, and of two open ones the later-opened has no shorter backoff |
| CircuitBreaker.NextBackoffDuration | backend-go/internal/metrics/channel_metrics.go:739-754 | the doubling loop yields min(base*2^level, max) and never overflows 64 bits |
| BreakerRuns.StaysOpenUntilRetry | backend-go/internal/metrics/channel_metrics.go:807-887 | from any reachable open breaker: whatever looks, probe requests and failures happen before its retry time, it stays open with the same times and level, and no probe is granted |
| BreakerRuns.RetryTimeOpensTheProbe | backend-go/internal/metrics/channel_metrics.go:822-838 | a look at an open breaker makes it half-open if and only if the retry time is reached, and the first to ask then gets the probe; before it nothing changes |
| BreakerRuns.OneProbeAtATime | backend-go/internal/metrics/channel_metrics.go:2561-2588 | as long as the breaker stays half-open, nobody is granted the probe between its grant and its release |
| BreakerRuns.ReleaseFreesTheProbe | backend-go/internal/metrics/channel_metrics.go:2578-2588 | after a release, or when the breaker is forced half-open, the next one to ask is granted the probe |
| BreakerRuns.ClosesAfterTarget | backend-go/internal/metrics/channel_metrics.go:840-861 | over any run without a setback a half-open breaker closes with the success that completes the target, and not before |
| BreakerRuns.SuccessMeans | backend-go/internal/metrics/channel_metrics.go:840-861 | a success closes an open breaker whose retry time has not come, and counts towards the target if it has |
| BreakerRuns.ProbeFailureReopens | backend-go/internal/metrics/channel_metrics.go:863-887 | a retryable failure while probing reopens the breaker for the backoff of the next level |
| BreakerRuns.OpensExactlyWhen | backend-go/internal/metrics/channel_metrics.go:863-1192 | over every run, a retryable failure opens a closed breaker if and only if it is the third in a row, or the window counts at least max(3, windowSize/2) outcomes and the failures among them reach the threshold |
| BreakerRuns.BackoffDoubles | backend-go/internal/metrics/channel_metrics.go:739-754 | each level doubles the backoff, up to the cap |
| BreakerRuns.MergeKeepsTheWorse | backend-go/internal/metrics/channel_metrics.go:486-547 | a merge keeps the worse state, the later times, the larger counts, and the last windowSize of both windows, the source being later |
| HistoryBuckets.GetAllKeysHistoricalStats | backend-go/internal/metrics/channel_metrics.go:2822-2887 | each data point counts exactly the records of its interval inside the window, with its success rate; invalid arguments give none |
| HistoryBuckets.DroppedIsTheCurrentInterval | backend-go/internal/metrics/channel_metrics.go:2832-2862 | the bucket sums equal the in-window counts, except that exactly the current interval is missing when the duration is at least an interval and now mod interval is below duration mod interval |
| HistoryBuckets.LateRecordIsDropped | backend-go/internal/metrics/channel_metrics.go:2832-2862 | such a chart: 90 seconds in one-minute buckets, in the first half of a minute, show nothing of that minute |
| HistoryBuckets.DividingIntervalLosesNothing | backend-go/internal/metrics/channel_metrics.go:2832-2862 | with an interval that divides or exceeds the duration no record is dropped |
| HistoryBuckets.BucketsTile | backend-go/internal/metrics/channel_metrics.go:2846-2862 | n consecutive buckets together count one stretch of time, each record once |
| HistoryBuckets.Reach | backend-go/internal/metrics/channel_metrics.go:2832-2841 | the buckets reach the end of the window, or stop exactly one interval short, and when |
| HistoryBuckets.TallyMeans | backend-go/internal/metrics/channel_metrics.go:2850-2862 | requests, successes and failures of an interval are the numbers of its records, by outcome |
| HistoryBuckets.RateMeans | backend-go/internal/metrics/channel_metrics.go:2870-2880 | the rate is the percentage of successes among the requests, 0 without requests |
| HistoryBuckets.EveryKeyCounts | backend-go/internal/metrics/channel_metrics.go:2846-2862 | the chart counts the records of every key, each once |
| HistoryBuckets.WindowMeans | backend-go/internal/metrics/channel_metrics.go:2832-2836 | the window starts with the interval of a duration ago and ends with the interval of now |
| HistoryBuckets.PointsMean | backend-go/internal/metrics/channel_metrics.go:2837-2841 | one point more than whole intervals fit into the duration, and never fewer than two |
| Dispatcher.TokensCountRequests | backend-go/internal/handlers/capability_test_dispatcher.go:143-184 | in every reachable interleaving the tokens are the acquirers between token and enqueue plus all queued and pending requests, plus one during a pop |
| Dispatcher.EnqueueNeverBlocks | backend-go/internal/handlers/capability_test_dispatcher.go:157-175 | whoever holds a token finds room in its queue |
| Dispatcher.TokenRemovalsNeverMiss | backend-go/internal/handlers/capability_test_dispatcher.go:164-210 | the non-blocking token removals always find a token |
| Dispatcher.PopNeverFails | backend-go/internal/handlers/capability_test_dispatcher.go:275-284 | the pop never indexes an empty list |
| Dispatcher.ClassIsFIFO | backend-go/internal/handlers/capability_test_dispatcher.go:186-284 | requests of a class are settled and granted in the order they were queued |
| Dispatcher.NobodyIsStranded | backend-go/internal/handlers/capability_test_dispatcher.go:143-273 | a waiting acquirer is still in the system, signalled, or cancelled; once closed it is not waiting in vain |
| Dispatcher.ClosesOnlyWhenEmpty | backend-go/internal/handlers/capability_test_dispatcher.go:250-261 | the runner closes only after the idle time, with no reader, token or request left |
| Dispatcher.ClosesWhenIdle | backend-go/internal/handlers/capability_test_dispatcher.go:250-261 | when that is so and the idle time has passed, it does close |
| Dispatcher.NormalYieldsToPriority | backend-go/internal/handlers/capability_test_dispatcher.go:202-233 | a normal request is popped only when every priority request queued before the drain ended is settled |
| Dispatcher.GrantsAreSpaced | backend-go/internal/handlers/capability_test_dispatcher.go:202-233 | consecutive grants are at least the earlier grant's interval apart; cancelled requests consume no time |
| Dispatcher.WindowBound | backend-go/internal/handlers/capability_test_dispatcher.go:202-233 | a window of length W with intervals of at least d holds at most W/d + 1 grants |
| Dispatcher.SafeAfter | backend-go/internal/handlers/capability_test_dispatcher.go:143-296 | every reachable state keeps all invariants: tokens, order of each class, spacing, the log of grants, and what each acquirer was told |
| Dispatcher.AnswersAreEarned | backend-go/internal/handlers/capability_test_dispatcher.go:143-184 | in every reachable interleaving: an acquirer that was told to send has exactly one grant of its own request in the log, one that gave up has a context that is over, one that was refused arrived after closing |
| Dispatcher.NobodyIsGrantedTwice | backend-go/internal/handlers/capability_test_dispatcher.go:202-233 | no two grants are for the same acquirer, so the window bound limits what callers send |
| Dispatcher.CancelledIsNeverGranted | backend-go/internal/handlers/capability_test_dispatcher.go:212-214 | over every later run a request whose context ended before its turn is never granted |
| Dispatcher.DueRequestIsServed | backend-go/internal/handlers/capability_test_dispatcher.go:201-233 | once its time has come, the runner takes the foremost pending request, gives its token back and signals it unless its context is over |
| Dispatcher.SignalIsScheduled | backend-go/internal/handlers/capability_test_dispatcher.go:216-231 | after a signal the next one may come exactly one interval later, six seconds if none is given |
| DispatcherProgress.EveryoneIsServed | backend-go/internal/handlers/capability_test_dispatcher.go:186-273 | from every reachable state, unless readers keep the runner from the lock, the runner alone can serve everything as time passes: each class settled in order, all tokens given back, every waiting acquirer signalled unless its context is over |
| DispatcherProgress.NobodyIsKept | backend-go/internal/handlers/capability_test_dispatcher.go:157-184 | a signalled acquirer can take its grant, and one whose context is over can leave wherever it stands |
| DispatcherProgress.ClosesAfterQuiet | backend-go/internal/handlers/capability_test_dispatcher.go:250-261 | over every run the runner closes no sooner than an idle time after the last request was queued, taken in or signalled or grant taken |
| DispatcherProgress.NewRunnerStays | backend-go/internal/handlers/capability_test_dispatcher.go:43-53 | nor sooner than an idle time after its start |
| DispatcherProgress.IdleRunnerCloses | backend-go/internal/handlers/capability_test_dispatcher.go:234-261 | with nothing to do and no reader it closes in the end |
| ApplyPatch.BuildApplyPatchInput | backend-go/internal/converters/codex_tools.go:579-628 | the printing loops write the lines of each operation between the begin and end markers; what those lines say is in PatchMeaning.PatchSays |
| ApplyPatch.ParseApplyPatchOperations | backend-go/internal/converters/codex_tools.go:746-827 | the parsing loop over lines with a current operation computes the fold the round-trip lemmas speak about; what is read from hunk and content lines is in PatchMeaning.ReadHunkMeans and ReadAddedMeans |
| ApplyPatch.WriteAddedContent | backend-go/internal/converters/codex_tools.go:630-640 | content is written line by line with a plus in front, a final newline counting as the end of its line |
| PatchRoundTrip.ParseOfPrinted | backend-go/internal/converters/codex_tools.go:579-640 | for every list of operations with one-line fields, parsing the printed text gives the normal form, replace_file expanded to delete then add; it fails exactly when nothing is printed |
| PatchExactly.RoundTripExactly | backend-go/internal/converters/codex_tools.go:579-827 | for every list of operations, a printed patch is read back as its normal form if and only if no path, move target or line text contains a line break, and no hunk context has anything behind its first line but white lines that do not start with a blank |
| PatchExactly.BrokenPathIsCut | backend-go/internal/converters/codex_tools.go:746-827 | such a patch: an add_file whose path holds a line break comes back with the path cut off there |
| PatchRoundTrip.TextLine | backend-go/internal/converters/codex_tools.go:757-822 | no file content and no hunk text can be mistaken for a marker or header |
| PatchRoundTrip.ParsePrintParse | backend-go/internal/converters/codex_tools.go:746-827 | whatever text the parser accepts, printing its operations and parsing again returns the same operations |
| PatchRoundTrip.PrintParsePrint | backend-go/internal/converters/codex_tools.go:579-640 | printing, parsing and printing again reproduces the text, for clean operations |
| PatchMeaning.PatchSays | backend-go/internal/converters/codex_tools.go:579-642 | a printed patch between its markers, operation by operation: the header names what happens to the file, each hunk expects exactly the texts that are not added and leaves exactly those that are not removed, added lines leave exactly the content |
| PatchMeaning.PrintedHunkMeans | backend-go/internal/converters/codex_tools.go:978-989 | a printed hunk expects the context and removed texts and leaves the context and added ones |
| PatchMeaning.AddedLinesMean | backend-go/internal/converters/codex_tools.go:630-642 | the lines of an added file leave its content with the last line ended, and expect nothing |
| PatchMeaning.ReadHunkMeans | backend-go/internal/converters/codex_tools.go:799-820 | the lines read from a hunk body expect and leave what the raw lines do |
| PatchMeaning.ReadAddedMeans | backend-go/internal/converters/codex_tools.go:790-798 | the content read for an added file is what its raw lines leave |
| CodexProxy.BuildSingleOpArgs | backend-go/internal/converters/codex_tools.go:924-949 | the single-operation arguments carry exactly the fields of the operation's kind |
| CodexProxy.BuildBatchOps | backend-go/internal/converters/codex_tools.go:951-976 | the batch arguments carry every operation with all its fields |
| CodexProxy.ApplyPatchInputFromProxyArguments | backend-go/internal/converters/codex_tools.go:644-700 | the patch text rebuilt from proxy arguments, or the arguments unchanged where they cannot be used |
| CodexProxy.ParseHunksFromRaw | backend-go/internal/converters/codex_tools.go:707-743 | hunks and line operations read back from JSON values |
| CodexProxy.RegisterPatchTool | backend-go/internal/converters/codex_tools.go:52-112 | registering the tool makes all its proxy names known and disturbs no other tool |
| CodexProxy.BuildCustomToolCallHistoryArguments | backend-go/internal/converters/codex_tools.go:887-913 | chooses the single or batch proxy and its arguments for a history replay |
| CodexProxy.ReconstructCustomToolCallInput | backend-go/internal/converters/codex_tools.go:843-866 | rebuilds the tool input from the proxy name and arguments |
| CodexProxy.BatchRoundTrip | backend-go/internal/converters/codex_tools.go:707-976 | reading back the batch arguments gives the same operations |
| CodexProxy.SingleAndBatchAgree | backend-go/internal/converters/codex_tools.go:652-700 | the single-operation and batch encodings of one operation rebuild the same text |
| CodexProxy.ReplayAndReconstruct | backend-go/internal/converters/codex_tools.go:843-913 | for every input, replay and reconstruction give the canonical text of what was parsed, or lose an unparseable input |
| CodexProxy.CanonicalPatchSurvivesReplay | backend-go/internal/converters/codex_tools.go:843-976 | every canonical patch text survives history replay unchanged |
| CodexProxy.ProxyNamesDiffer | backend-go/internal/converters/codex_tools.go:868-883 | proxy names never collide with each other or with the tool |
| ProxyMeaning.HistorySays | backend-go/internal/converters/codex_tools.go:887-976 | a replayed call names the proxy of its operation, or the batch, and its arguments hold the fields of each operation under their names on the wire; an input that is no patch is kept beside an empty batch |
| ProxyMeaning.SingleIsRead | backend-go/internal/converters/codex_tools.go:652-700 | the operation read from single-operation arguments has the path, content and target given there, empty where they are no text |
| ProxyMeaning.OthersPassThrough | backend-go/internal/converters/codex_tools.go:843-866 | any other tool, and arguments that are no object, hand back the input field or the arguments |
| ProxyMeaning.ProxyByName | backend-go/internal/converters/codex_tools.go:868-885 | an undeclared proxy is known by the end of its name |
| ToolCallOrder.NormalizeOpenAIToolCallMessageOrder | backend-go/internal/converters/responses_converter.go:356-397 | the nested loops with the shrinking id set compute the reordering the lemmas speak about |
| ToolCallOrder.CollectReplies | backend-go/internal/converters/responses_converter.go:371-392 | one scan takes the first reply to each pending id and defers everything else in order |
| ToolCallOrder.NormalizePermutes | backend-go/internal/converters/responses_converter.go:356-397 | the result is a permutation of the input |
| ToolCallOrder.NormalizeKeepsClasses | backend-go/internal/converters/responses_converter.go:356-397 | the messages that are not tool replies keep their order |
| ToolCallOrder.NormalizeIdempotent | backend-go/internal/converters/responses_converter.go:356-397 | reordering again changes nothing |
| ToolReplies.RepliesFollowExactlyWhen | backend-go/internal/converters/responses_converter.go:356-442 | every assistant message whose ids are all answered later ends up immediately followed by one reply per id, if and only if behind each such message every one of its ids has at least as many replies as there are such messages using it from there on |
| ToolReplies.EndsOnce | backend-go/internal/converters/responses_converter.go:356-397 | every message, also one that occurs twice, ends up in exactly one place |
| ToolReplies.UniqueCallsAreFollowedByReplies | backend-go/internal/converters/responses_converter.go:356-442 | in particular this holds when no call id is used by two assistant messages |
| ToolReplies.SharedIDLosesTheReply | backend-go/internal/converters/responses_converter.go:356-442 | with one reply for two callers the second loses it to the first: a concrete input |
| ToolReplies.ReusedIDIsServed | backend-go/internal/converters/responses_converter.go:356-442 | an id used again after its first call was answered satisfies the condition: a concrete input |
| ChatAgreement.StreamAgreesWithMessage | backend-go/internal/converters/chat_to_responses.go:134-1196 | for any chunking of a canonical stream with one usage object: id, output array and token counts are those of the non-streaming conversion of its message; the output spells out the reasoning, the text and the calls that were streamed, and the usage tells what the usage object says; a strict client accepts all other events, and the completed one if and only if the tool indexes have no gap |
| ChatAgreement.OutputIsPositioned | backend-go/internal/converters/chat_to_responses.go:717-806 | the streamed output_index of each item is its position in the final array, and nothing else is in it, if and only if the tool indexes have no gap |
| ChatAgreement.SkippedIndexIsMisplaced | backend-go/internal/converters/chat_to_responses.go:717-806 | a call at index 1 without one at index 0 stands at position 0 of the final array: a concrete input |
| ChatAgreement.RestReaches | backend-go/internal/converters/chat_to_responses.go:134-494 | by induction over chunks, converter state and client state are functions of what the stream has told so far |
| ChatStreams.ReasoningMoves | backend-go/internal/converters/chat_to_responses.go:230-265 | a reasoning delta opens its item once and is streamed under index 0 |
| ChatStreams.ContentMoves | backend-go/internal/converters/chat_to_responses.go:267-313 | content closes the reasoning item first, opens the message once, and is streamed under the right index |
| ChatToolStreams.ToolMoves | backend-go/internal/converters/chat_to_responses.go:315-393 | a tool fragment closes reasoning and text, announces its call once, and streams its arguments under the call's index, with and without tool compatibility |
| ChatToolStreams.CallsClose | backend-go/internal/converters/chat_to_responses.go:574-655 | closing the calls in index order finishes each announced item once, with its streamed arguments or rebuilt input |
| ChatToolStreams.AllMove | backend-go/internal/converters/chat_to_responses.go:395-407 | finishing closes everything that is open, once |
| ChatToResponses.Converter.Convert | backend-go/internal/converters/chat_to_responses.go:134-494 | one chunk: opening, parts in order, usage; a chunk without choices is ignored even if it carries usage |
| ChatToResponses.Converter.HandleToolCall | backend-go/internal/converters/chat_to_responses.go:315-393 | one tool_calls entry: ids, names and arguments per index, item announced when due |
| ChatToResponses.Converter.HandleContent | backend-go/internal/converters/chat_to_responses.go:267-313 | one content delta |
| ChatToResponses.Converter.HandleReasoning | backend-go/internal/converters/chat_to_responses.go:230-265 | one reasoning delta |
| ChatToResponses.Converter.CloseFuncBlocks | backend-go/internal/converters/chat_to_responses.go:574-655 | the closing events of all calls, in ascending index order |
| ChatToResponses.Converter.CloseTextBlock | backend-go/internal/converters/chat_to_responses.go:534-571 | the closing events of the message item |
| ChatToResponses.Converter.CloseReasoningBlock | backend-go/internal/converters/chat_to_responses.go:497-531 | the closing events of the reasoning item |
| ChatToResponses.Converter.AddToolCallItemIfNeeded | backend-go/internal/converters/chat_to_responses.go:65-96 | announces an item once id and name are known |
| ChatToResponses.Converter.GenerateCompletedEvents | backend-go/internal/converters/chat_to_responses.go:658-873 | closes what is open and emits the final output and usage |
| ToolIndexes.SortedIndexes | backend-go/internal/converters/chat_to_responses.go:579-591 | the exchange sort yields the map's indexes in ascending order, each once |
| ChatMessages.ConvertOpenAIChatToResponsesNonStream | backend-go/internal/converters/chat_to_responses.go:876-1196 | reasoning first, then the message, then the tool calls; without choices neither output nor usage is filled in |
| ChatMessages.Arrange | backend-go/internal/converters/chat_to_responses.go:1003-1054 | inserting reasoning and message in front of the calls gives the documented order and message id |
| ChatMessages.ResponseSpells | backend-go/internal/converters/chat_to_responses.go:876-1196 | for every completion with choices: the output is the joined reasoning, the joined text and all calls in order, each with its ids, name, namespace and arguments, or rebuilt input for a proxy, and the usage tells what the usage object says |
| ChatUsage.Counters.Take | backend-go/internal/converters/chat_to_responses.go:410-491 | a usage object updates the counters: OpenAI fields, Claude fields on top, Gemini fields last; what is reported of them is in ChatUsage.ReportTells |
| ChatUsage.NonStreamUsage | backend-go/internal/converters/chat_to_responses.go:1056-1193 | the non-streaming conversion reports the same usage as the streaming counters would, and it tells what the usage object says |
| ChatUsage.ReportTells | backend-go/internal/converters/chat_to_responses.go:410-491 | what the report says of a usage object: with OpenAI counts alone, input is the prompt less the cache, not below 0, and output the completion; Claude counts override both where present, and Gemini counts those; the cache and reasoning details likewise |
| ChatUsage.AbsentFieldsKeep | backend-go/internal/converters/chat_to_responses.go:410-491 | a usage object without a field leaves the count of that field as it was |
| ChatUsage.Counters.Summarize | backend-go/internal/converters/chat_to_responses.go:808-869 | the usage of response.completed |
| ChatUsage.InputAndCacheAreThePrompt | backend-go/internal/converters/chat_to_responses.go:104-125 | normalised input plus cache is the prompt again if and only if the cache does not exceed it |
| ChatUsage.TotalIsTheSum | backend-go/internal/converters/chat_to_responses.go:111-125 | with any cache count the total is input, output and cache together, which for OpenAI counts is prompt plus completion |
| ClaudeStreams.NestedStreamsConvert | backend-go/internal/converters/claude_to_responses.go:37-156 | every well-nested stream converts to events a strict client accepts (sequence numbers 1,2,3, at most one open item, consecutive indexes, done text and item text equal to the deltas put together, an empty object for a tool call whose deltas are blank); a complete one ends with its blocks as items, minus empty text and reasoning, and its last token counts |
| ClaudeStreams.ItemIDMeans | backend-go/internal/converters/claude_to_responses.go:175-345 | an item is named after its kind, the response and the decimal numeral of its index; a tool call that has a call id, after that |
| ClaudeStreams.IDsDiffer | backend-go/internal/converters/claude_to_responses.go:175-269 | within a response no two messages or summaries share an id |
| ClaudeStreams.HandledTells | backend-go/internal/converters/claude_to_responses.go:72-153 | each chunk of a nested stream keeps converter, client and the blocks told so far in step |
| ClaudeStreams.CloseFollows | backend-go/internal/converters/claude_to_responses.go:208-391 | closing any item is accepted and adds exactly the item whose text was streamed |
| ClaudeStreams.StartFollows | backend-go/internal/converters/claude_to_responses.go:175-345 | starting any item takes the next index and is accepted |
| ClaudeStreams.EndConcludes | backend-go/internal/converters/claude_to_responses.go:393-414 | the final event lists the visible items in order with input, output and total tokens |
| ClaudeToResponses.Converter.Convert | backend-go/internal/converters/claude_to_responses.go:37-156 | one chunk, with the opening events on the first |
| ClaudeToResponses.Converter.StartReasoning | backend-go/internal/converters/claude_to_responses.go:175-196 | opens a reasoning item under the next index |
| ClaudeToResponses.Converter.CloseReasoning | backend-go/internal/converters/claude_to_responses.go:208-246 | closes it, recording it only when not empty |
| ClaudeToResponses.Converter.StartText | backend-go/internal/converters/claude_to_responses.go:248-269 | opens a message item under the next index |
| ClaudeToResponses.Converter.CloseText | backend-go/internal/converters/claude_to_responses.go:281-323 | closes it, recording it only when not empty |
| ClaudeToResponses.Converter.StartToolUse | backend-go/internal/converters/claude_to_responses.go:325-345 | opens a tool call under the next index, named after its call id or, without one, after the response |
| ClaudeToResponses.Converter.CloseToolUse | backend-go/internal/converters/claude_to_responses.go:357-391 | closes it with the streamed arguments, an empty object in place of blank ones; that the done text is what the deltas said is in ClaudeStreams.NestedStreamsConvert |
| ChannelLog.ChannelLogStore.Record | backend-go/internal/metrics/channel_log.go:67-82 | appends to the channel's buffer, keeps the last 50, and tracks the request unless finished |
| ChannelLog.ChannelLogStore.RemoveAndShift | backend-go/internal/metrics/channel_log.go:85-127 | the loops over both maps compute the deletion of one position |
| ChannelLog.ChannelLogStore.Update | backend-go/internal/metrics/channel_log.go:166-197 | finds the request by its tracked channel, or says whether it was evicted or deleted |
| ChannelLog.ChannelLogStore.Get | backend-go/internal/metrics/channel_log.go:137-152 | newest first |
| ChannelLog.CompleteLog | backend-go/internal/handlers/common/channel_log_helper.go:90-135 | an evicted log is written again in its final state; a deleted one is not |
| ChannelLog.RemoveDeletesOnePosition | backend-go/internal/metrics/channel_log.go:85-127 | afterwards each position holds the buffer and the open requests of the position it came from, renumbered |
| ChannelLogRuns.EveryRunKeeps | backend-go/internal/metrics/channel_log.go:67-197 | over every run: buffers hold the last 50 requests recorded in their channel, no request is logged twice or recorded in two channels, a stored log is tracked if and only if it is unfinished, and a tracked request is tracked at its current channel, which has a buffer |
| ChannelLogRuns.AlwaysSound | backend-go/internal/metrics/channel_log.go:67-197 | so it is for every run of a new store |
| ChannelLogRuns.UpdateFindsExactly | backend-go/internal/metrics/channel_log.go:166-197 | an update finds a log if and only if an unfinished log of the request is stored, reports an eviction if and only if the request is tracked but not stored, and a deletion if and only if it is not tracked |
| ChannelLogRuns.UpdateTouchesOnlyItsLog | backend-go/internal/metrics/channel_log.go:166-197 | an update changes exactly its request's log, never one in a channel that inherited the index |
| ChannelLogRuns.FinishedLogsNeverChange | backend-go/internal/metrics/channel_log.go:67-197 | over any later run a finished log is as it was, at whatever index, or gone |
| ChannelLogRuns.RemovedRequestsNeverReturn | backend-go/internal/metrics/channel_log.go:85-127 | a request recorded in a removed channel, finished or not, evicted or not, never shows up in any channel again |
| WriteBuffer.NothingIsLostOrReordered | backend-go/internal/metrics/sqlite_store.go:562-605 | in every interleaving the accepted records, in arrival order, are the settled batches, what is in flight, and the buffer; only a batch put back onto an overflowing buffer is dropped |
| WriteBuffer.CloseCommitsEverything | backend-go/internal/metrics/sqlite_store.go:974-988 | if no insert fails, everything accepted is committed exactly once and in order when Close returns |
| WriteBuffer.CommittedIsAPrefix | backend-go/internal/metrics/sqlite_store.go:588-605 | if no insert fails, what is not committed yet is in flight or buffered |
| WriteBuffer.FlushesAreNotStacked | backend-go/internal/metrics/sqlite_store.go:572-584 | at most one asynchronous flush is scheduled or running |
| WriteBufferProgress.FlushCommitsWhatWasThere | backend-go/internal/metrics/sqlite_store.go:1010-1083 | in every interleaving: once whoever took the flush lock, a query in particular, is done, everything accepted before it took the lock is committed, in order, if no insert has failed |
| WriteBufferProgress.FailedBatchIsPutBack | backend-go/internal/metrics/sqlite_store.go:600-605 | a batch whose insert failed goes back in front of the buffer, or is dropped when ten batches wait there; nothing is committed |
| WriteBufferProgress.CloseCanReturn | backend-go/internal/metrics/sqlite_store.go:920-988 | from every reachable state before the last flush, whatever failed so far: if inserts succeed from then on, Close can return with every accepted record settled in order, all of them committed unless one failed |
| WriteBufferProgress.CloseWaitsForFlushes | backend-go/internal/metrics/sqlite_store.go:974-988 | when Close returns, the loop has stopped and no counted asynchronous flush is under way |
| WriteBufferProgress.FullBufferIsFlushed | backend-go/internal/metrics/sqlite_store.go:562-584 | a record that fills the batch gets an asynchronous flush unless one is under way, and that empties the buffer |
| WriteBufferProgress.TimerFlushes | backend-go/internal/metrics/sqlite_store.go:920-940 | a tick of the timer loop empties the buffer, and the loop waits again |
| WriteBufferProgress.QueryFlushes | backend-go/internal/metrics/sqlite_store.go:1063-1083 | so does a query |
| WriteBuffer.SharedBuffer.Append | backend-go/internal/metrics/sqlite_store.go:562-570 | appends unless closed, and says whether the batch size is reached; the same step as in the interleaved system |
| WriteBuffer.SharedBuffer.RequeueRecords | backend-go/internal/metrics/sqlite_store.go:1085-1099 | puts a failed batch back in front, or drops it when the buffer has reached ten batches; the same step as in the interleaved system |
| WriteBuffer.SharedBuffer.Take | backend-go/internal/metrics/sqlite_store.go:588-598 | takes the whole buffer; the same step as in the interleaved system |
| WriteBuffer.SharedBuffer.TryMark | backend-go/internal/metrics/sqlite_store.go:572-584 | the compare-and-swap is won exactly when no asynchronous flush is under way; the same step as in the interleaved system |
| KeyListRuns.NoKeyIsEverLost | backend-go/internal/config/config.go:487-676 | from a new channel, every run keeps active keys distinct and apart from historical ones and every disabled key active or historical; the keys known are exactly all that were ever brought |
| KeyListRuns.BlacklistThenRestore | backend-go/internal/config/config.go:487-585 | restoring a key just blacklisted moves it to the end and leaves history, and a blacklist that did not have it, as they were |
| KeyListRuns.RemoveThenAdd | backend-go/internal/config/config_messages.go:272-359 | adding back a removed key moves it to the end, clears its blacklist entries and leaves the history as it was |
| KeyListRuns.MoveKeepsOrder | backend-go/internal/config/config_messages.go:362-414 | moving a key puts it first or last, leaves the others in their order and the other lists alone; an unknown key is not moved |
| KeyListRuns.UpdateLeavesDisabledKeys | backend-go/internal/config/config_messages.go:130-170 | after an update a key is active and disabled at once if and only if the update names a disabled key |
| KeyListRuns.ApartExactlyWhen | backend-go/internal/config/config_messages.go:130-170 | over every run from a new channel, no key is ever active and disabled at once if and only if no update of the run names a key disabled at the time |
| KeyListRuns.UpdatedKeyStaysDisabled | backend-go/internal/config/config_messages.go:130-170 | such a run: blacklist, update, blacklist and restore of one key leave it active and disabled |
| KeyListRuns.BlacklistKeeps | backend-go/internal/config/config.go:487-541 | a blacklisted key leaves the active list for the end of the blacklist and of the history; the other active keys stay, in order; a key that is not active changes nothing |
| KeyLists.Upstream.BlacklistKey | backend-go/internal/config/config.go:487-541 | the three lists after a blacklist |
| KeyLists.Upstream.RestoreKey | backend-go/internal/config/config.go:544-585 | the three lists after a restore; fails exactly when the key is not disabled |
| KeyLists.Upstream.RestoreAllKeys | backend-go/internal/config/config.go:589-622 | restores every disabled key and reports how many entries there were |
| KeyLists.Upstream.RestoreDisabledKeys | backend-go/internal/config/config.go:625-676 | restores the wanted disabled keys, the empty name excepted, and lists them |
| KeyLists.Upstream.AddAPIKey | backend-go/internal/config/config_messages.go:272-314 | the three lists after an add; fails exactly when the key is active |
| KeyLists.Upstream.RemoveAPIKey | backend-go/internal/config/config_messages.go:317-359 | the lists after a removal; fails exactly when the key is not active |
| KeyLists.Upstream.MoveAPIKeyToTop | backend-go/internal/config/config_messages.go:362-386 | the key first, the others in order |
| KeyLists.Upstream.MoveAPIKeyToBottom | backend-go/internal/config/config_messages.go:389-414 | the key last, the others in order |
| KeyLists.Upstream.UpdateKeys | backend-go/internal/config/config_messages.go:130-170 | retired keys join the history, returning ones leave it, the new list is deduplicated; a single-key replacement resets metrics and ends a suspension |
| KeyLists.DeduplicateStrings | backend-go/internal/config/config_utils.go:14-27 | first occurrences, in order |
| CapabilityJobs.RecomputeIsIdempotent | backend-go/internal/handlers/capability_test_jobs.go:412-559 | recomputing twice is recomputing once in every field, unless every protocol comes to an end, not all of them cancelled, while no model counts as run and the start time is unset; then, and only then, the second time sets the start time |
| CapabilityJobs.OnlyEmptyJobsStartLate | backend-go/internal/handlers/capability_test_jobs.go:505-507 | when every model's status is the derived one, that happens exactly to open jobs without protocols whose start time is unset |
| CapabilityJobs.EmptyJobStartsLate | backend-go/internal/handlers/capability_test_jobs.go:505-507 | a job without protocols gets its start time only at the second recomputation: a concrete input |
| CapabilityJobs.CancelledForever | backend-go/internal/handlers/capability_test_jobs.go:416-445 | over every series of changes to its results, each followed by recomputation, a cancelled job stays cancelled, with no compatible protocols and its finish time kept |
| CapabilityJobs.ProgressAddsUp | backend-go/internal/handlers/capability_test_jobs.go:480-503 | every model is counted once under its own status; total = queued + running + completed + idle and completed = success + failed + skipped |
| CapabilityJobs.DoneJobIsSettled | backend-go/internal/handlers/capability_test_jobs.go:412-559 | a job that is done has no running model, and queued ones only under a cancelled protocol |
| CapabilityJobs.CompatibleAreTheWorkingOnes | backend-go/internal/handlers/capability_test_jobs.go:458-502 | the compatible protocols are exactly those with outcome success or partial, sorted |
| CapabilityJobs.ProtocolIdempotent | backend-go/internal/handlers/capability_test_jobs.go:561-637 | recomputing a protocol twice is recomputing it once |
| CapabilityJobs.CapabilityTestJob.Recompute | backend-go/internal/handlers/capability_test_jobs.go:412-559 | the in-place recomputation of a job |
| CapabilityJobs.RecomputeCapabilityProtocol | backend-go/internal/handlers/capability_test_jobs.go:561-637 | the loop over the models and the case analysis |
| JobMeaning.OpenOrCalledOff | backend-go/internal/handlers/capability_test_jobs.go:561-637 | a protocol that was cancelled or whose models all were is cancelled and failed; with a running model it is running, partial if one succeeded; waiting or without any result it is queued |
| JobMeaning.EndedByResults | backend-go/internal/handlers/capability_test_jobs.go:588-637 | a protocol whose models have all ended is completed if one succeeded, partially if another failed or was cancelled, else failed, or cancelled when nothing but cancellations came out |
| JobMeaning.ProtocolFields | backend-go/internal/handlers/capability_test_jobs.go:561-637 | the success count is the number of successful models; an error is cleared exactly by completion |
| JobMeaning.TestedModelIs | backend-go/internal/handlers/capability_test_jobs.go:575-586 | the tested model is the first that succeeded and has a name, or the one from before |
| JobMeaning.JobMeans | backend-go/internal/handlers/capability_test_jobs.go:505-559 | a job runs if a protocol or model does, waits if a protocol does, is cancelled if all are, and otherwise is completed if a protocol worked and failed if none did |
| JobMeaning.JobTimes | backend-go/internal/handlers/capability_test_jobs.go:505-559 | start and finish times: kept once set, the finish cleared while the job is open |
| JobMeaning.CancelledMeans | backend-go/internal/handlers/capability_test_jobs.go:416-445 | recomputing a cancelled job only counts its models, stops what runs and notes when it ended |
| RoundRobin.BuildRoundRobinQueue | backend-go/internal/handlers/capability_test_runner.go:39-61 | the nested loops build round after round |
| RoundRobin.QueueHoldsEachTestOnce | backend-go/internal/handlers/capability_test_runner.go:39-61 | each (protocol, index) stands in the queue exactly once, in the protocol's own order |
| RoundRobin.EveryPrefixIsFair | backend-go/internal/handlers/capability_test_runner.go:39-61 | in every prefix no protocol is more than one ahead of one that still has tests to come |
| ResultAssembly.RunRoundRobinTests | backend-go/internal/handlers/capability_test_runner.go:383-513 | for distinct models, any earlier results and any abort point: every slot holds its own model's result, the success count is the number of successful slots, the representative model is one of them, what ran is a prefix of the queue, and service was fair |
| ResultAssembly.Prefill | backend-go/internal/handlers/capability_test_runner.go:383-409 | what an earlier job found working is filled in and counted |
| ResultAssembly.FilterModels | backend-go/internal/handlers/capability_test_runner.go:411-429 | the models left, each with its place in the full list |
| ResultAssembly.Execute | backend-go/internal/handlers/capability_test_runner.go:475-494 | a result goes into the empty slot of its own model |
| ResultAssembly.Backfill | backend-go/internal/handlers/capability_test_runner.go:496-513 | what was not reached is marked skipped; results and counts stay |

## Left out

- HTTP handlers, authentication, routing, logging, the frontend and process wiring: input and output only.
- SQL text, schema migration, retention cleanup and deletions: the database is an append of a batch that may fail.
- JSON text, event-stream framing and number parsing: values are datatypes, and encoding is taken to be undone by decoding.
- Loading metrics from the store, key hashing and base-URL variants: a lookup is any list of distinct opaque keys.
- Persisting circuit states, ActiveRequests, recentResults and the API-key mask of a key: written but not read by the modelled logic, or logging.
- MetricsManager.MetricsManager.RecordRequestConnectedAt: its contract speaks of histories and ids; that the breaker advances is in KeyMetrics.KeyMetrics.Connect only.
- MetricsManager.MetricsManager.RecordRequestFinalizeOutcome: its contract speaks of histories; counters and breaker are in KeyMetrics.KeyMetrics.FinalizeOutcome and RecordDirect only.
- MetricsManager.MetricsManager.RecordRequestFinalizeClientCancel: its contract speaks of histories; the request count is in KeyMetrics.KeyMetrics.FinalizeClientCancel only.
- MetricsManager.MetricsManager.RecordResult: its contract speaks of histories; counters and breaker are in KeyMetrics.KeyMetrics.RecordDirect only.
- MetricsManager.MetricsManager.ResetKey: its contract speaks of histories; counters and breaker are in KeyMetrics.KeyMetrics.ResetKey only.
- Wrap-around of the 64-bit request counter, token counts and bucket counts: integers are unbounded there; the backoff loop is modelled in 64 bits.
- Floating point: failure thresholds and success rates are real numbers.
- NormalizeApplyPatchInput: a heuristic repair that is not idempotent.
- CodexProxy.ReconstructCustomToolCallInput: exec_command and other plain custom tools keep their JSON input field only; their argument repair is not modelled.
- Chat streams that are not canonical (reasoning after text, repeated tool ids): the code reuses output indexes there, so the ordering is a precondition.
- ChatAgreement.StreamAgreesWithMessage: assumes exactly one usage object in a chunk with choices, and compares with the non-streaming message under the same response id, because ids made up from the clock differ.
- The echoed request fields of response.completed (instructions, tools, temperature and so on): copied through.
- ChatToResponses.Converter.Convert: the Codex tool context is a parameter; building it from the request is modelled only for the patch tool in CodexProxy.
- Claude streams that are not well nested, such as a delta of another kind than its block: the converter then opens an item without closing the last.
- Dispatcher: that everyone can be served is proved, not that the scheduler lets the runner do so. While it waits for the write lock of its idle check and readers hold the lock, it does not empty the queues.
- Dispatcher: the runner's loop is a transition system rather than a method, because its steps interleave with the acquirers'.
- Blocked sends, timers and the select statement of the dispatcher are single steps; the order in which a select picks among ready cases is arbitrary.
- The dispatcher pool, its garbage collection, the capability cache and session cleanup: easy members.
- ChannelLog.ChannelLogStore.Record: logs are values, so the aliasing of log pointers between buffers is not captured; logs are never nil.
- ChannelLog.CompleteLog: times, durations and the classification of error texts into failed or cancelled are parameters.
- WriteBuffer: a batch insert is one atomic step that succeeds or fails; deletions that share the flush lock are left out.
- KeyLists.Upstream.RestoreKey: the failed-key cache, timestamps and saving the configuration are left out; so is a save that fails after the lists changed.
- The Responses, Chat, Gemini and Images copies of the key methods: the same logic as Messages.
- CapabilityJobs: names, reasons, latencies and error texts of models are reduced to what recomputation reads.
- ResultAssembly.RunRoundRobinTests: latencies and job updates are left out, and the original index is looked up when an item runs instead of being written into the queue first; models of a protocol must be distinct and named, because a repeated model is counted twice in one slot.
- KeyMetrics.KeyMetrics.MergeBreakerOf: the breaker invariants are proved for unmerged keys; for merged ones only the exact condition of MergeIsConsistentExactly.
