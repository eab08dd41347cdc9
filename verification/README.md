# Verified models of the trading system's core algorithms

This project models the algorithms and state machines at the core of the system and proves what every run of them
keeps. Each model follows its source file: code that updates fields is a class with those fields, loops are loops
with invariants, and each such method is proved equal to a function on values. The properties are then proved
about that function, for all inputs, all runs or all reachable states. What each step does is also stated on its own
inputs, without naming the function that does it.

| module | what it models |
|---|---|
| `ExternalSort`, `CsvColumns`, `StableMerging`, `StableSorting`, `PythonText` | the chunked external merge sort of materialized bar files, on texts |
| `DailyAggregation`, `SessionRuns` | the streaming per-instrument daily aggregator and its batch reading |
| `ClockBuckets`, `RollUp`, `AggregateRows` | clock buckets over local days of any length, and roll-up between timeframes |
| `StreamProtocol` | the WebSocket client's sequence numbers, gap buffer, replay and resync |
| `RateLimiting`, `ReplayCache` | the request budget and the bounded cache of JWT ids (section 4.1.7 of RFC 7519) |
| `RegimeGate`, `GateVerdict` | the trailing regime gate, from bars to its verdict |
| `CampaignApproval` | the research campaign's run, approve, stop and resume commands on their state record |
| `ProductionPullback`, `ProductionSteps` | the production VWAP pullback strategy |
| `FactorResearch`, `ResearchSteps`, `TrendFeatures` | sizing, scaling out and trend features of the research VWAP strategy |
| `MicrotrendAcd`, `MicrotrendSteps`, `OpeningRange` | the two-source microtrend and ACD switch, and what its opening range covers |
| `BusinessSessions`, `SubsetDifferences` | business-day offsets and the structural comparison of decoded JSON |
| `TsmomTargets`, `ExposureCap` | the exposure cap and dead band of the momentum strategy |
| `Deques`, `Intents`, `Optional`, `Reals`, `Sequences` | trimmed deques, strategy intents, optional values, extremes of real numbers |

Prices, volumes and quantities are reals, times are integers (or reals for the rate limiter), local days are given by
the UTC instants of their midnights, and dates are ordinals. The clock, indicator values, filter verdicts, what the
campaign engine answers and what a token's signature check yields are inputs.

Some properties one would expect do not hold of the code. Where that is so the model follows the code, one lemma gives
a concrete failing input and another says exactly when the property holds:

| expected | fails for | holds exactly when |
|---|---|---|
| the external sort sorts the file | `ExternalSort.CutRowExample` | `ExternalSort.ExternalSortIff` |
| each sequence number is delivered once, in order | `StreamProtocol.DeliveredTwice` | `StreamProtocol.RunAscendsIff` |
| a delivery releases its buffered successor | `StreamProtocol.LeftWaiting` | `StreamProtocol.SettledAfter` |
| delivered numbers have no gaps | `StreamProtocol.GapAppears` | `StreamProtocol.RunGapFreeIff` |
| a resume launches the proposal that was recorded | `CampaignApproval.AnotherProposalLaunches` | `CampaignApproval.LaunchIsForRecordedIff` |
| a position never grows between entry and close | `FactorResearch.ExampleGrows` | `FactorResearch.NeverGrowsIff` |
| the target lies beyond the entry | `FactorResearch.ExampleCollapses` | `FactorResearch.TargetAheadIff` |
| stop and target strictly bracket the entry | `FactorResearch.ExampleCollapses` | `FactorResearch.BracketedIff` |
| the opening range is the first bars of the session | `OpeningRange.EntryDelaysRange` | `OpeningRange.CompletesInTimeIff` |
| business-day offsets add up | `BusinessSessions.SaturdayDoesNotReturn` | `BusinessSessions.OffsetsAddUpIff` |
| a value is a subset of itself | `SubsetDifferences.NaNDiffersFromItself` | `SubsetDifferences.ReflexiveIff` |
| the strategy holds the targets it computes | `ExposureCap.CapCanBeExceeded` | `TsmomTargets.FollowsIff` |
| total exposure stays within the cap | `ExposureCap.CapCanBeExceeded` | `ExposureCap.RunCapKeptIff` |

Where code and documentation disagree the code is followed: the docstring of
strategies/research/precious_metal_tsmom_vol.py speaks of volatility-scaled targets, but lines 165-174 give the full quantity
or nothing and volatility only has to be positive.

Checking the project: `dafny verify dfyconfig.toml`.

## Model

| member | source | states |
|---|---|---|
| `ExternalSort.ExternalSortIff` | scripts/materialize_historical_timeframes.py:639-747 | main result: for every text and chunk size, the file ends up stably sorted by (timestamp, instrument, symbol) if and only if no row sorts above an unterminated last row |
| `ExternalSort.ExternalSortIsStableSort` | scripts/materialize_historical_timeframes.py:639-747 | when no cut row moves up, the whole output text is the header followed by one stable sort of all rows |
| `ExternalSort.CutRowLosesARow` | scripts/materialize_historical_timeframes.py:639-747 | when a cut row does move up it is glued to its successor: the output has fewer rows than the input, for every chunk size |
| `ExternalSort.CutRowExample` | scripts/materialize_historical_timeframes.py:639-747 | a concrete file of two rows that comes out with fewer |
| `ExternalSort.TerminatedFileNeverCut` | scripts/materialize_historical_timeframes.py:651-669 | a file whose text ends in a line terminator never has a cut row |
| `ExternalSort.ChunkSizeIrrelevant` | scripts/materialize_historical_timeframes.py:639-691 | two chunk sizes give the same file, unless a row sorts above an unterminated last row |
| `ExternalSort.KeyOrder` | scripts/materialize_historical_timeframes.py:742-747 | the composite key order is total, transitive and antisymmetric, so ties are exactly equal keys |
| `ExternalSort.LinesOfJoin` | scripts/materialize_historical_timeframes.py:694-698 | writing rows end to end and reading them line by line gives the same rows back |
| `ExternalSort.ConcatChunks` | scripts/materialize_historical_timeframes.py:653-669 | the chunks put end to end are the rows, for every chunk size |
| `ExternalSort.SortKeepsReadable` | scripts/materialize_historical_timeframes.py:694-698 | sorting a chunk leaves rows that survive a write and a read exactly when its cut row does not move up |
| `ExternalSort.HeapPop` | scripts/materialize_historical_timeframes.py:717-718 | a pop returns a least (key, file index, line) entry and removes exactly it |
| `ExternalSort.OpenChunks` | scripts/materialize_historical_timeframes.py:709-715 | the heap holds exactly one entry per file with lines left: its next line |
| `ExternalSort.PopLine` | scripts/materialize_historical_timeframes.py:717-729 | writing the popped line and pushing its successor leaves the merge of the remaining lines to be written |
| `ExternalSort.MergeSortedChunks` | scripts/materialize_historical_timeframes.py:701-739 | the heap loop writes the k-way merge of the files |
| `ExternalSort.WriteSortedChunks` | scripts/materialize_historical_timeframes.py:653-669 | the reading loop writes each chunk of non-blank rows, stably sorted, to a file of its own |
| `ExternalSort.SortCsvFile` | scripts/materialize_historical_timeframes.py:639-691 | the whole run of the sort equals its functional reading and meets the if-and-only-if above |
| `CsvColumns.OutputInColumnOrder` | scripts/materialize_historical_timeframes.py:639-747 | main result: the rows of the sorted file are in the order of their first, fourth and tenth columns |
| `CsvColumns.SortsWrittenFile` | scripts/materialize_historical_timeframes.py:639-747 | a header line and terminated rows, written to a file, come out as the header and the rows in stable order |
| `CsvColumns.SplitOfJoin` | scripts/materialize_historical_timeframes.py:742-743 | splitting a row gives back the fields it was joined from, empty ones too |
| `CsvColumns.JoinOfSplit` | scripts/materialize_historical_timeframes.py:742-743 | every line is the join of its fields, which hold no comma |
| `CsvColumns.StripEnds` | scripts/materialize_historical_timeframes.py:743-743 | exactly the line terminators at the end are stripped |
| `CsvColumns.KeyOfRow` | scripts/materialize_historical_timeframes.py:742-747 | the key of a row of ten columns is its first, fourth and tenth column |
| `CsvColumns.RowsComparedIff` | scripts/materialize_historical_timeframes.py:742-747 | two rows compare as timestamp, then instrument, then symbol |
| `CsvColumns.BlankLinesDropped` | scripts/materialize_historical_timeframes.py:654-656 | exactly the blank lines are left out, the others stay in order |
| `CsvColumns.ChunkSizes` | scripts/materialize_historical_timeframes.py:658-669 | chunks are not empty, not larger than the size, and all but the last exactly as large |
| `PythonText.TextLeqIff` | scripts/materialize_historical_timeframes.py:742-747 | text order: a prefix comes first, otherwise the first difference decides |
| `StableMerging.MergeIsStableSort` | scripts/materialize_historical_timeframes.py:701-739 | merging sorted files, ties to the earlier file, is the stable sort of their concatenation |
| `StableMerging.MergeOfSortedPieces` | scripts/materialize_historical_timeframes.py:639-739 | sorting pieces and merging them is one stable sort of the whole |
| `StableSorting.StableSortCorrect` | scripts/materialize_historical_timeframes.py:694-698 | the stable sort is sorted, a permutation, and keeps ties in input order |
| `StableSorting.StableSortUnique` | scripts/materialize_historical_timeframes.py:694-698 | those properties determine the result: two sorted sequences with the same ties in the same order are equal |
| `DailyAggregation.MaterializeDaily` | scripts/materialize_historical_timeframes.py:424-467 | main result: for every interleaved stream and every instrument the output is one bar per maximal session run, with the first open, the highest high, the lowest low, the last close, the summed volume, the interval of the calendar and the partial flag of exactly the incomplete runs; the volume of session-tagged bars is conserved |
| `DailyAggregation.DailyAggregator.constructor` | scripts/materialize_historical_timeframes.py:401-405 | an empty dictionary of running states, for which nothing was seen and nothing emitted |
| `DailyAggregation.DailyAggregator.Update` | scripts/materialize_historical_timeframes.py:509-533 | one bar updates the dictionary; it completes the running session of its instrument exactly when it belongs to another one, and what it then emits is the daily bar of that run |
| `DailyAggregation.DailyAggregator.UpdateStates` | scripts/materialize_historical_timeframes.py:509-533 | the branches on the dictionary have the effect of the specification step, with the insertion order kept |
| `DailyAggregation.Scan` | scripts/materialize_historical_timeframes.py:424-446 | the scan over the stream keeps the dictionary and the output those of everything seen |
| `DailyAggregation.DailyAggregator.Flush` | scripts/materialize_historical_timeframes.py:453-467 | emitted bars followed by the flush are the daily bars of the maximal runs, for every instrument, with all volume accounted for |
| `DailyAggregation.AdvanceTracks` | scripts/materialize_historical_timeframes.py:509-602 | one more bar of an instrument keeps its running state the summary of the open run and its output the closed runs |
| `DailyAggregation.StepTracksAll` | scripts/materialize_historical_timeframes.py:509-533 | one bar keeps every instrument at once equal to its own batch reading |
| `DailyAggregation.OtherStepTracks` | scripts/materialize_historical_timeframes.py:509-533 | a bar of another instrument or without a session changes neither state nor output of an instrument |
| `DailyAggregation.StepConserves` | scripts/materialize_historical_timeframes.py:509-533 | one step neither creates nor loses volume between stream, running states and output |
| `DailyAggregation.SummaryGrows` | scripts/materialize_historical_timeframes.py:565-579 | updating the running state with a bar is summarizing the longer run |
| `DailyAggregation.SummaryIsDailyBar` | scripts/materialize_historical_timeframes.py:581-602 | the bar made of a running state is the daily bar of its run, field by field |
| `DailyAggregation.DailyBarsAreDaily` | scripts/materialize_historical_timeframes.py:509-602 | the daily bars of an instrument are those of its maximal session runs |
| `DailyAggregation.CompletedIsDaily` | scripts/materialize_historical_timeframes.py:509-533 | a bar completes a session exactly when it belongs to another one, and completes it to its daily bar |
| `DailyAggregation.FlushCompletes` | scripts/materialize_historical_timeframes.py:453-467 | what was emitted plus the flush is one summary bar per maximal run |
| `DailyAggregation.ForeignBarHasNoEffect` | scripts/materialize_historical_timeframes.py:509-533 | inserting a bar of another instrument, or an untagged bar, anywhere in the stream leaves an instrument's daily bars unchanged |
| `SessionRuns.RunsAreMaximal` | scripts/materialize_historical_timeframes.py:509-533 | the runs of a stream partition it into uniform pieces whose neighbours differ |
| `SessionRuns.RunsUnique` | scripts/materialize_historical_timeframes.py:509-533 | there is only one such partition |
| `ClockBuckets.BucketContains` | scripts/verify_rust_materialize_golden.py:368-374 | a bucket contains its instant within one width and starts on the same local day, whatever the length of the day |
| `ClockBuckets.BucketMonotone` | scripts/verify_rust_materialize_golden.py:368-374 | later instants never fall in earlier buckets, across midnights too |
| `ClockBuckets.BucketIdempotent` | scripts/verify_rust_materialize_golden.py:368-374 | a bucket start is its own bucket start |
| `ClockBuckets.BucketOfBucket` | scripts/verify_rust_materialize_golden.py:368-374 | the coarse bucket of a fine bucket start is the coarse bucket, when the fine width divides the coarse one |
| `ClockBuckets.BucketShape` | scripts/verify_rust_materialize_golden.py:368-374 | a bucket starts a whole number of widths after the local midnight, although the source floors to seconds first |
| `RollUp.ClockRollUp` | scripts/verify_rust_materialize_golden.py:305-343 | main result: aggregating to m-minute rows and these to k*m-minute rows equals aggregating straight to k*m minutes, all fields, all instruments, days of any length |
| `AggregateRows.AggregateIs` | scripts/verify_rust_materialize_golden.py:305-343 | main result: every row of an aggregate has the open and symbol of the earliest row of its bucket and instrument, the close of the latest, the extremes and the total volume; rows ascend strictly by bucket and instrument; every input row has its row |
| `AggregateRows.GroupFilters` | scripts/verify_rust_materialize_golden.py:336-339 | a group holds exactly the rows of its key, in input order |
| `AggregateRows.SummarizeSumsUp` | scripts/verify_rust_materialize_golden.py:315-331 | the summary of a group in time order sums up the group as it came |
| `RollUp.RollUpHomomorphism` | scripts/verify_rust_materialize_golden.py:305-343 | the same for every pair of bucketings of which one refines the other |
| `RollUp.ClockRefines` | scripts/verify_rust_materialize_golden.py:368-374 | clock bucketing refines its multiples and maps each bucket into one coarse bucket |
| `RollUp.CoarseIsFlattenedFine` | scripts/verify_rust_materialize_golden.py:305-343 | the time-ordered rows of a coarse bucket are the time-ordered rows of its fine buckets end to end, ties included |
| `RollUp.SummarizeFlattened` | scripts/verify_rust_materialize_golden.py:315-331 | summarizing the concatenation of pieces is summarizing their summaries |
| `RollUp.Extremes` | scripts/verify_rust_materialize_golden.py:325-326 | the high and the low bound every row of the bucket and are attained |
| `RollUp.KeysFacts` | scripts/verify_rust_materialize_golden.py:336-339 | the dictionary has each (bucket, instrument) key once, exactly for the keys of the rows |
| `RollUp.AggregateSorted` | scripts/verify_rust_materialize_golden.py:332-343 | the final sort of the aggregate leaves it as it is |
| `RollUp.GroupRows` | scripts/verify_rust_materialize_golden.py:336-339 | the grouping loop files every row under its key, in input order |
| `RollUp.AggregateFixtureRows` | scripts/verify_rust_materialize_golden.py:305-332 | the aggregation of one bucket, with its final sort, equals the functional aggregate |
| `RollUp.SummarizeGroups` | scripts/verify_rust_materialize_golden.py:310-331 | grouping, sorting the keys and summarizing each group equals the functional aggregate |
| `RollUp.AggregateBuckets` | scripts/verify_rust_materialize_golden.py:335-343 | the nested loops over buckets and instruments equal the functional aggregate |
| `RollUp.AggregateClockRows` | scripts/verify_rust_materialize_golden.py:335-343 | clock aggregation equals the functional aggregate for the clock bucketing |
| `StreamProtocol.RunOrderly` | frontend/src/ws/stream-client.ts:140-214 | main result: in every run a delivery not marked replayed carries lastSequence+1 unless there was none, and within a segment each delivery follows on from the one before |
| `StreamProtocol.RunLosesNothing` | frontend/src/ws/stream-client.ts:140-214 | main result: in every run each live event that arrived early since the last resync is still pending or its number was delivered since, and what is pending under a number is the last event that arrived early with it |
| `StreamProtocol.RunGapFreeIff` | frontend/src/ws/stream-client.ts:140-214 | the numbers delivered since the last resync or reset form a gap-free interval throughout if and only if every replayed number is adjacent to those before it |
| `StreamProtocol.GapFreeIff` | frontend/src/ws/stream-client.ts:178-202 | the same for any chain of deliveries |
| `StreamProtocol.RunAscendsIff` | frontend/src/ws/stream-client.ts:140-214 | main result: deliveries since the last resync or reset are strictly increasing, so each number once and lastSequence never back, if and only if every replayed number after the first delivery is above lastSequence |
| `StreamProtocol.AscendsIff` | frontend/src/ws/stream-client.ts:178-202 | the same for any chain of deliveries |
| `StreamProtocol.ReplayBatchDelivers` | frontend/src/ws/stream-client.ts:191-214 | after an uninterrupted replay of L+1..M every number in it was delivered, none is pending, lastSequence >= M and its successor is not pending |
| `StreamProtocol.SettledAfter` | frontend/src/ws/stream-client.ts:191-202 | a delivery leaves its successor waiting exactly when it was live and the successor was buffered |
| `StreamProtocol.GapAppears` | frontend/src/ws/stream-client.ts:178-202 | a live 1 and a replayed 5 are delivered with a gap between them |
| `StreamProtocol.LeftWaiting` | frontend/src/ws/stream-client.ts:191-202 | messages 1, 3, 2 leave number 3 waiting although it is next |
| `StreamProtocol.DeliveredTwice` | frontend/src/ws/stream-client.ts:194-202 | a concrete run that delivers a number twice and moves lastSequence backwards: delivery is at least once |
| `StreamProtocol.Flush` | frontend/src/ws/stream-client.ts:204-214 | the flush terminates and leaves nothing deliverable |
| `StreamProtocol.FlushEffect` | frontend/src/ws/stream-client.ts:204-214 | a flush delivers exactly the buffered numbers of the contiguous interval after lastSequence and leaves the rest buffered |
| `StreamProtocol.StepOrderly` | frontend/src/ws/stream-client.ts:103-214 | every input keeps deliveries in order |
| `StreamProtocol.StepLosesNothing` | frontend/src/ws/stream-client.ts:103-214 | every input keeps buffered numbers accounted for |
| `StreamProtocol.DeliveredIff` | frontend/src/ws/stream-client.ts:171-202 | a message is delivered, first and with the position before it, exactly when it is no resync and is replayed, expected or the first |
| `StreamProtocol.RequestedIff` | frontend/src/ws/stream-client.ts:129-189 | a replay is asked for, from lastSequence or 0, exactly on opening and on an early event while open |
| `StreamProtocol.ResyncAndReset` | frontend/src/ws/stream-client.ts:103-176 | a resync forgets position and buffer; setting the position delivers what follows on from it |
| `StreamProtocol.StreamClient.constructor` | frontend/src/ws/stream-client.ts:39-57 | a new client has no sequence number, no buffer and no deliveries |
| `StreamProtocol.StreamClient.RequestReplay` | frontend/src/ws/stream-client.ts:129-138 | a replay is requested from lastSequence, or 0, only while the socket is open |
| `StreamProtocol.StreamClient.ApplyAndFlush` | frontend/src/ws/stream-client.ts:194-202 | delivery, then a flush only for a replayed event; mutual recursion with the flush terminates |
| `StreamProtocol.StreamClient.FlushPending` | frontend/src/ws/stream-client.ts:204-214 | the loop equals the recursive flush |
| `StreamProtocol.StreamClient.HandleMessage` | frontend/src/ws/stream-client.ts:140-192 | a frame extends the run by one message, so every theorem about runs holds of the client |
| `StreamProtocol.StreamClient.SetLastSequence` | frontend/src/ws/stream-client.ts:103-106 | setting the position extends the run by one reset |
| `StreamProtocol.StreamClient.OnOpen` | frontend/src/ws/stream-client.ts:67-72 | opening extends the run by one opening |
| `StreamProtocol.StreamClient.OnClose` | frontend/src/ws/stream-client.ts:78-86 | closing extends the run by one closing |
| `RateLimiting.WithinBudget` | backend/src/qts/api/security.py:246-257 | main result: for every non-decreasing clock and call sequence each (principal, kind) has at most its budget of acceptances in every half-open 60-second interval |
| `RateLimiting.RefusalIff` | backend/src/qts/api/security.py:246-257 | a request is refused exactly when its budget's worth of acceptances lies in the last 60 seconds, and then exactly that many |
| `RateLimiting.KeysNeverShared` | backend/src/qts/api/security.py:247-251 | distinct (principal, kind) pairs never share a window, whatever the ids contain |
| `RateLimiting.RunRepresents` | backend/src/qts/api/security.py:246-257 | the trimmed deques show, from now on, what the whole acceptance history would show |
| `RateLimiting.KindIff` | backend/src/qts/api/security.py:247-247 | which scopes are safety, write and read |
| `RateLimiting.LogIs` | backend/src/qts/api/security.py:246-257 | every call is recorded under its own principal, kind and time |
| `RateLimiting.ConsumeWithinBudget` | backend/src/qts/api/security.py:246-257 | one call keeps the bound for every principal, kind and interval |
| `RateLimiting.RateLimiter.constructor` | backend/src/qts/api/security.py:198-199 | no windows yet |
| `RateLimiting.RateLimiter.ConsumeBudget` | backend/src/qts/api/security.py:246-257 | the popping loop and the append have the effect of the specification step and return its verdict |
| `ReplayCache.CacheHoldsLast` | backend/src/qts/api/security.py:166-172 | main result: in every run the cache holds, in order and without duplicates, the last min(n, capacity) admitted jtis |
| `ReplayCache.ReadmittedOnlyAfterEviction` | backend/src/qts/api/security.py:166-172 | a jti is admitted twice only after at least `capacity` distinct other jtis in between |
| `ReplayCache.ReplayedIff` | backend/src/qts/api/security.py:166-172 | a valid token is rejected as replayed exactly when its jti is among the last `capacity` admitted |
| `ReplayCache.VerdictIff` | backend/src/qts/api/security.py:150-172 | the verdict on a token after any run: invalid, expired, replayed or admitted, each exactly when, and what is then remembered |
| `ReplayCache.AdmittedWereGenuine` | backend/src/qts/api/security.py:150-172 | only well-formed, signed, unexpired tokens ever get their jti admitted |
| `ReplayCache.JwtVerifier.constructor` | backend/src/qts/api/security.py:133-140 | an empty cache with a positive capacity |
| `ReplayCache.JwtVerifier.VerifyToken` | backend/src/qts/api/security.py:150-172 | the order of the checks, the insertion and the eviction loop have the effect of the specification step |
| `RegimeGate.TrailingReturnTelescopes` | examples/strategies/vwap_pullback_v2.py:239-257 | main result: for positive opens and closes the compounded return over the k retained sessions is the return from close n-k to close n |
| `RegimeGate.IsReturnIff` | examples/strategies/vwap_pullback_v2.py:395-399 | that is the quotient close_n / close_(n-k) - 1 |
| `RegimeGate.NoLookahead` | examples/strategies/vwap_pullback_v2.py:284-341 | main result: any number of further bars of ongoing sessions leave the verdict unchanged |
| `RegimeGate.GateSeesFinishedSessionsOnly` | examples/strategies/vwap_pullback_v2.py:284-341 | streams that agree on finished sessions get the same verdict |
| `RegimeGate.RetainedSessions` | examples/strategies/vwap_pullback_v2.py:284-352 | each symbol's deque is the last `lookback` summaries of its own finished sessions |
| `GateVerdict.VerdictIff` | examples/strategies/vwap_pullback_v2.py:301-373 | main result: after any run of ticks new entries are refused exactly when the rule is on, there are symbols and each has enough finished sessions, their averages of range and Asian share and their compounded returns are on the blocking side, and so is the rule's own churn or volatility |
| `GateVerdict.RetainedReturn` | examples/strategies/vwap_pullback_v2.py:309-341 | with positive prices the compounded return in that verdict is last close over first, less one |
| `GateVerdict.SummariesDescribe` | examples/strategies/vwap_pullback_v2.py:239-257 | the features kept are those of the sessions: range over open, Asian share of volume, change from close to close, range over change |
| `GateVerdict.MeanBounds` | examples/strategies/vwap_pullback_v2.py:390-392 | a mean compares with a bound as the sum with so many times the bound |
| `GateVerdict.SumConcat` | examples/strategies/vwap_pullback_v2.py:390-392 | summing adds up the parts of a list |
| `GateVerdict.VolatilityAgrees` | examples/strategies/vwap_pullback_v2.py:402-406 | a realized volatility is the root of the mean squared distance from the mean |
| `RegimeGate.ObservesSessions` | examples/strategies/vwap_pullback_v2.py:217-257 | the streaming state equals the batch reading of the sessions: open accumulator, previous close and retained summaries |
| `RegimeGate.SessionGrows` | examples/strategies/vwap_pullback_v2.py:231-237 | updating the accumulator is reading the longer session |
| `RegimeGate.SessionEnds` | examples/strategies/vwap_pullback_v2.py:343-352 | finalizing appends the summary of the finished session and trims to `lookback` |
| `RegimeGate.SummariesCarryReturns` | examples/strategies/vwap_pullback_v2.py:239-257 | with positive prices only the first session has no summary and the others carry close-to-close returns |
| `RegimeGate.GrowthTelescopes` | examples/strategies/vwap_pullback_v2.py:395-399 | compounding linked returns gives the return from the first close to the last |
| `RegimeGate.CompoundReturn` | examples/strategies/vwap_pullback_v2.py:395-399 | the loop computes the compounded return |
| `GateVerdict.TrailingRegimeGate.constructor` | examples/strategies/vwap_pullback_v2.py:279-282 | one fresh state per watched symbol |
| `GateVerdict.TrailingRegimeGate.Update` | examples/strategies/vwap_pullback_v2.py:284-299 | a bar extends the run by one tick |
| `GateVerdict.TrailingRegimeGate.FinalizeCurrent` | examples/strategies/vwap_pullback_v2.py:343-352 | the trimming loop keeps the last `lookback` summaries |
| `GateVerdict.TrailingRegimeGate.AllowsNewEntries` | examples/strategies/vwap_pullback_v2.py:301-307 | the verdict is that of the retained sessions of the run so far: refused exactly as VerdictIff states |
| `CampaignApproval.NoLaunchUntilPendingAgain` | scripts/run_research.py:1269-1316 | main result: after a stop, or a resume that wrote its state, no resume launches the engine until a manual run recorded a pending state again |
| `CampaignApproval.ResumeLaunchHistory` | scripts/run_research.py:1125-1172 | main result: every launch by resume reads a record last written by a full approval, for the number of generations of an earlier manual run, with only decisions in between |
| `CampaignApproval.WhoLaunchesManyGenerations` | scripts/run_research.py:1133-1136 | only an automatic run launches more than one generation, or a resume that goes back to a manual run that recorded a pending state and to a full approval that wrote last, with only decisions writing in between |
| `CampaignApproval.LaunchIsForRecordedIff` | scripts/run_research.py:1202-1247 | the record a resume launches from names the proposal of the pending run exactly when the approval was given with that hash |
| `CampaignApproval.AnyApprovalLaunches` | scripts/run_research.py:1202-1247 | any full approval lets a resume launch what a manual run left pending, whatever proposal it is of |
| `CampaignApproval.AnotherProposalLaunches` | scripts/run_research.py:1202-1247 | a concrete history in which a proposal other than the recorded one is approved and launched |
| `CampaignApproval.RelaunchIff` | scripts/run_research.py:1284-1316 | a resume can be repeated exactly when the first launch failed |
| `CampaignApproval.WritesIff` | scripts/run_research.py:1125-1316 | which commands write the record, and that the others leave it |
| `CampaignApproval.LaunchedIs` | scripts/run_research.py:1133-1136 | a run launches one generation when approval is manual and as many as asked for otherwise; decisions and stops launch nothing |
| `CampaignApproval.ResumedRecordIs` | scripts/run_research.py:1303-1312 | the record a finished resume leaves names the engine's status and the campaign, generations and generation id of the run it goes back to |
| `CampaignApproval.HistoryRemembered` | scripts/run_research.py:1815-1843 | in every history the record remembers its last writer, field by field, and the run it belongs to |
| `CampaignApproval.ExecuteRemembers` | scripts/run_research.py:1125-1316 | every command keeps that, which needs each to keep or drop exactly its own fields |
| `CampaignApproval.Campaign.constructor` | scripts/run_research.py:1837-1842 | no state record yet |
| `CampaignApproval.Campaign.WriteState` | scripts/run_research.py:1815-1834 | the record is replaced by status, reason and the given fields and nothing else |
| `CampaignApproval.Campaign.RunCampaign` | scripts/run_research.py:1125-1172 | the run command has the effect of the specification step and keeps the history invariant |
| `CampaignApproval.Campaign.ApproveNextGeneration` | scripts/run_research.py:1202-1247 | the decision keeps exactly the five listed fields of the record; a hash mismatch writes nothing |
| `CampaignApproval.Campaign.StopCampaign` | scripts/run_research.py:1269-1282 | a stop drops everything but its reason |
| `CampaignApproval.Campaign.ResumeCampaign` | scripts/run_research.py:1284-1316 | all checks precede the launch, and a finished launch rewrites the record without its data paths |
| `ProductionPullback.RunKeepsPosition` | strategies/production/vwap_production_pullback.py:352-479 | main result: in every run intents alternate between an entry of the configured size and a close, the strategy is entered exactly after an entry, stop and target strictly bracket the entry, and idle means cleared |
| `ProductionPullback.EntryFollowsArming` | strategies/production/vwap_production_pullback.py:381-446 | main result: every entry comes on a gate-allowed bar at most 2*max_bars_in_wait_state processed bars after arming, in the armed direction |
| `ProductionPullback.OpenPositionUntouched` | strategies/production/vwap_production_pullback.py:447-461 | a processed bar leaves the position open exactly when it touches neither stop nor target, crosses no VWAP it must not, and is not near the session close |
| `ProductionPullback.RunKeepsArming` | strategies/production/vwap_production_pullback.py:381-446 | in every run a waiting phase goes back to an arming bar, in one direction, with its wait counted |
| `ProductionPullback.OnBarKeeps` | strategies/production/vwap_production_pullback.py:352-479 | one bar keeps what holds in each phase and relates its intent to the phases |
| `ProductionPullback.OnBarWaits` | strategies/production/vwap_production_pullback.py:390-446 | how one bar may enter and prolong the waiting phases |
| `ProductionSteps.ArmsIff` | strategies/production/vwap_production_pullback.py:381-388 | main result: an idle strategy is armed exactly by an allowed bar in hours, long above a VWAP that rises over the lookback of its session, short below one that does not |
| `ProductionSteps.HistoryIs` | strategies/production/vwap_production_pullback.py:586-603 | in every run the VWAP history is the last values of the current session |
| `ProductionSteps.PullbackIff` | strategies/production/vwap_production_pullback.py:390-419 | when the wait for the pullback is given up, goes on to the rejection or continues, by the bar's own prices |
| `ProductionSteps.RejectionIff` | strategies/production/vwap_production_pullback.py:421-479 | when the wait for the rejection is given up, ends in an entry or continues, and the prices and intent of the entry on both sides |
| `ProductionSteps.CloseHours` | strategies/production/vwap_production_pullback.py:623-629 | positions are closed from half past four to five |
| `ProductionSteps.UnprocessedKeeps` | strategies/production/vwap_production_pullback.py:352-366 | a bar that is not processed changes nothing but the session fields |
| `ProductionPullback.PullbackStrategy.constructor` | strategies/production/vwap_production_pullback.py:286-310 | the strategy starts idle |
| `ProductionPullback.PullbackStrategy.Observe` | strategies/production/vwap_production_pullback.py:352-379 | one bar has the effect and the intent of the specification step, and the phase invariant is kept |
| `ProductionPullback.PullbackStrategy.TakeStepIdle` | strategies/production/vwap_production_pullback.py:381-388 | arming on the slope side of the VWAP |
| `ProductionPullback.PullbackStrategy.TakeStepPullback` | strategies/production/vwap_production_pullback.py:390-419 | waiting for the touch, with time-out, hours and broken thesis |
| `ProductionPullback.PullbackStrategy.TakeStepRejection` | strategies/production/vwap_production_pullback.py:421-445 | waiting for the rejection, with the pullback extreme and the entry |
| `ProductionPullback.PullbackStrategy.TakeStepEntered` | strategies/production/vwap_production_pullback.py:447-461 | the exits, in order |
| `ProductionPullback.PullbackStrategy.OpenPosition` | strategies/production/vwap_production_pullback.py:463-479 | entry price, stop, target and the entry intent |
| `ProductionPullback.PullbackStrategy.UpdateSessionState` | strategies/production/vwap_production_pullback.py:586-597 | the VWAP history is cleared on a new session and trimmed to the lookback |
| `ProductionPullback.PullbackStrategy.Exit` | strategies/production/vwap_production_pullback.py:631-634 | a close intent, then a reset |
| `ProductionPullback.PullbackStrategy.ResetState` | strategies/production/vwap_production_pullback.py:646-654 | all position and waiting fields are cleared, the session fields are not |
| `FactorResearch.NeverGrowsIff` | strategies/research/vwap_factor_research.py:838-984 | main result: the magnitude asked for never increases between entry and close, in any run of well-formed bars, if and only if every entry size the sizing rule can produce is safe for the configured reductions |
| `FactorResearch.UnsafeSizeGrows` | strategies/research/vwap_factor_research.py:838-984 | for every unsafe entry size a run of well-formed bars in which the position grows |
| `FactorResearch.ExampleGrows` | strategies/research/vwap_factor_research.py:838-984 | a concrete configuration in which a position grows |
| `FactorResearch.TargetAheadIff` | strategies/research/vwap_factor_research.py:942-984 | main result: the target lies strictly beyond the entry in every run if and only if no break-even partial can be followed by a reduced target |
| `FactorResearch.TargetCollapses` | strategies/research/vwap_factor_research.py:1005-1013 | for every entry size that takes a partial, in a configuration that allows it, a run that ends with stop, target and entry at one price |
| `FactorResearch.ExampleCollapses` | strategies/research/vwap_factor_research.py:1005-1013 | a concrete configuration in which that happens |
| `FactorResearch.CollapsedCloses` | strategies/research/vwap_factor_research.py:838-866 | such a position is closed by whatever bar comes next |
| `FactorResearch.BracketedIff` | strategies/research/vwap_factor_research.py:868-984 | main result: stop and target strictly bracket the entry in every run if and only if no partial moves the stop to break-even |
| `FactorResearch.StopReachesEntry` | strategies/research/vwap_factor_research.py:967-984 | for every entry size that takes a partial, with break-even on, a run that moves the stop to the entry |
| `FactorResearch.RunMatchesIntents` | strategies/research/vwap_factor_research.py:838-984 | main result: in every run the position is open exactly between a target and a close, all targets of a position are on one side, and what is held is the last target asked for |
| `ResearchSteps.RunEntersIff` | strategies/research/vwap_factor_research.py:812-912 | main result: in every run an entry happens exactly on a signal bar while flat whose size is positive, and what is asked for is positive exactly for a long signal |
| `ResearchSteps.EntersIff` | strategies/research/vwap_factor_research.py:868-912 | entry price, stop, target, partial target and intent of an entry, on both sides, by arithmetic on the bar and the configuration |
| `ResearchSteps.EntrySizeIs` | strategies/research/vwap_factor_research.py:1048-1077 | the size by rule: fixed, reduced on the sigma and momentum condition, or the greatest whole number within the risk budget |
| `ResearchSteps.AffordsOne` | strategies/research/vwap_factor_research.py:1064-1077 | that whole number is unique |
| `ResearchSteps.ExcursionIs` | strategies/research/vwap_factor_research.py:914-931 | the excursions of a position, on both sides |
| `ResearchSteps.ClosesIff` | strategies/research/vwap_factor_research.py:747-866 | a position is closed exactly near the session close, on a VWAP cross, for lack of progress, at its stop, or at a target that no partial precedes |
| `ResearchSteps.StaysAs` | strategies/research/vwap_factor_research.py:838-984 | what the partial and the no-progress action otherwise make of it, on both sides |
| `ResearchSteps.PartialIs` | strategies/research/vwap_factor_research.py:970-972 | what is taken off is the whole number of contracts in the fraction |
| `FactorResearch.SimpleConfigsNeverGrow` | strategies/research/vwap_factor_research.py:838-984 | in particular with the no-progress action off or `exit`, or with a fixed size and one target |
| `FactorResearch.SafeSizesNeverGrow` | strategies/research/vwap_factor_research.py:838-984 | safe sizes never grow, in any run |
| `FactorResearch.RunKeeps` | strategies/research/vwap_factor_research.py:838-984 | every open position of every run: stop at its place, partial target at its distance, target beyond the entry unless it collapsed, held quantity one of entry size, runner or reduced quantity, on the side of the position |
| `FactorResearch.StepKeeps` | strategies/research/vwap_factor_research.py:838-866 | one bar keeps that and does not grow a position of safe size |
| `FactorResearch.RiskWithinBudget` | strategies/research/vwap_factor_research.py:1064-1077 | the risk-budget size never risks more than the budget and is maximal unless capped or rejected |
| `FactorResearch.PartialConserves` | strategies/research/vwap_factor_research.py:967-975 | partial and runner add up to the entry size; from one whole contract on the runner lies strictly between 0 and it, below that nothing is taken off |
| `FactorResearch.ExcursionKeeps` | strategies/research/vwap_factor_research.py:914-931 | a bar that does not touch the stop is less than one unit adverse, and one that reaches the partial target is at least that much favourable |
| `FactorResearch.StalledMeans` | strategies/research/vwap_factor_research.py:933-954 | when a position can be found stalled, before and after its partial |
| `FactorResearch.FactorStrategy.constructor` | strategies/research/vwap_factor_research.py:657-704 | no position |
| `FactorResearch.FactorStrategy.Observe` | strategies/research/vwap_factor_research.py:747-770 | one bar has the effect and the intent of the specification step; the position invariant and the match of position and intents are kept |
| `FactorResearch.FactorStrategy.TakeStepEntered` | strategies/research/vwap_factor_research.py:838-866 | the exits, the partial and the no-progress action, in order |
| `FactorResearch.FactorStrategy.EnterPosition` | strategies/research/vwap_factor_research.py:868-912 | the entry, or nothing when the size is not positive |
| `FactorResearch.FactorStrategy.UpdateExcursion` | strategies/research/vwap_factor_research.py:914-931 | bar count and extreme excursions in units of risk |
| `FactorResearch.FactorStrategy.ApplyPartialRunner` | strategies/research/vwap_factor_research.py:967-984 | the partial, with the stop moved to the entry if configured |
| `FactorResearch.FactorStrategy.ApplyNoProgressAction` | strategies/research/vwap_factor_research.py:942-954 | the no-progress action, once |
| `FactorResearch.FactorStrategy.Exit` | strategies/research/vwap_factor_research.py:1625-1628 | a close intent, then no position |
| `TrendFeatures.TrendAgeIsLongestSuffix` | strategies/research/vwap_factor_research.py:1574-1591 | main result: the online direction and age over the trimmed history are those of the longest suffix of strict same-direction moves of the whole session series |
| `TrendFeatures.AgeIsMaximal` | strategies/research/vwap_factor_research.py:1574-1591 | no longer suffix marches in one direction |
| `TrendFeatures.HistoryIsTrimmed` | strategies/research/vwap_factor_research.py:1520-1528 | the history is the last values of the series |
| `TrendFeatures.EfficiencyBounded` | strategies/research/vwap_factor_research.py:1729-1742 | trend efficiency, when defined, lies in [-1, 1], for every window and side |
| `TrendFeatures.PathBoundsNet` | strategies/research/vwap_factor_research.py:1729-1742 | the net move never exceeds the path |
| `TrendFeatures.EfficiencyIs` | strategies/research/vwap_factor_research.py:1729-1742 | efficiency is defined exactly when the window is there and moved, and times the path it is the net move in the direction of the position |
| `TrendFeatures.WholePathIff` | strategies/research/vwap_factor_research.py:1729-1742 | the net move is the whole path exactly when the window never falls |
| `TrendFeatures.EfficiencyOfWholeSeries` | strategies/research/vwap_factor_research.py:1729-1742 | the trimmed history gives the efficiency of the whole series |
| `TrendFeatures.PathLength` | strategies/research/vwap_factor_research.py:1735-1738 | the summation over adjacent moves computes the path |
| `TrendFeatures.SessionTrend.constructor` | strategies/research/vwap_factor_research.py:612-626 | no history and no trend |
| `TrendFeatures.SessionTrend.UpdateTrendAge` | strategies/research/vwap_factor_research.py:1574-1591 | direction and age after one more VWAP value |
| `TrendFeatures.SessionTrend.Append` | strategies/research/vwap_factor_research.py:1516-1528 | the trend update, the append and the trim together |
| `MicrotrendAcd.RunKeepsDiscipline` | strategies/research/precious_metal_microtrend_acd_switch.py:190-207 | main result: in every run one source owns the position with that source's fields, entries and closes alternate, and no position stays open once its holding count reaches the limit |
| `MicrotrendAcd.RunKeepsHistory` | strategies/research/precious_metal_microtrend_acd_switch.py:190-297 | main result: in every run no position outlives its session, entries per source and session respect their caps, and microtrend entries of a session keep their distance from each other and from microtrend exits |
| `MicrotrendAcd.OnBarKeeps` | strategies/research/precious_metal_microtrend_acd_switch.py:190-207 | one bar keeps the position discipline |
| `MicrotrendAcd.OnBarHistory` | strategies/research/precious_metal_microtrend_acd_switch.py:190-233 | one bar keeps sessions, caps and spacing |
| `MicrotrendAcd.NewSessionHistory` | strategies/research/precious_metal_microtrend_acd_switch.py:209-233 | a new session starts with clean counters, which agrees with the log of entries |
| `MicrotrendAcd.MicroEnteringHistory` | strategies/research/precious_metal_microtrend_acd_switch.py:286-297 | an entry that is not blocked keeps cap, distance and cooldown |
| `MicrotrendAcd.HoldKeeps` | strategies/research/precious_metal_microtrend_acd_switch.py:366-402 | one bar of holding leaves the position under its limit or closed |
| `MicrotrendAcd.RollLedger` | strategies/research/precious_metal_microtrend_acd_switch.py:209-233 | a session change closes the position of its own source and clears the counters |
| `MicrotrendSteps.HeldIff` | strategies/research/precious_metal_microtrend_acd_switch.py:366-402 | a held position stays open exactly when the bar touches neither its stop nor its target, both measured from the entry, and its holding limit is not reached |
| `MicrotrendSteps.MicroEntersIff` | strategies/research/precious_metal_microtrend_acd_switch.py:235-308 | a microtrend entry happens exactly on an allowed signal, under the cap, far enough from the last entry and exit, with a wide enough opening range; its side, price and intent |
| `MicrotrendSteps.AcdEntersIff` | strategies/research/precious_metal_microtrend_acd_switch.py:334-364 | an ACD entry happens exactly when the range is complete, in time, under the cap, and the close leaves it by the buffer on an allowed side; its side, price and intent |
| `MicrotrendSteps.SessionChangeCloses` | strategies/research/precious_metal_microtrend_acd_switch.py:209-233 | a session change closes an open position on the spot |
| `OpeningRange.CompletesInTimeIff` | strategies/research/precious_metal_microtrend_acd_switch.py:322-337 | main result: the ACD opening range is complete after the first bars of every session, in every run, if and only if microtrend entries have to wait for it |
| `OpeningRange.RangeIsFirstBars` | strategies/research/precious_metal_microtrend_acd_switch.py:299-337 | in that case the range is, in every run, the highest high and lowest low of the first bars of the session |
| `OpeningRange.RangeCompleteIff` | strategies/research/precious_metal_microtrend_acd_switch.py:322-333 | after the first bars of a session the range is complete exactly when no position was held on, or opened by the microtrend source on, any of them |
| `OpeningRange.CountersAgree` | strategies/research/precious_metal_microtrend_acd_switch.py:322-333 | in every run each bar of the session has entered the range count or was skipped |
| `OpeningRange.EntryDelaysRange` | strategies/research/precious_metal_microtrend_acd_switch.py:235-333 | a microtrend entry on the first bar keeps that bar out of the range, for every configuration that allows it |
| `MicrotrendAcd.MicrotrendAcdSwitch.constructor` | strategies/research/precious_metal_microtrend_acd_switch.py:155-169 | no session, no position |
| `MicrotrendAcd.MicrotrendAcdSwitch.Observe` | strategies/research/precious_metal_microtrend_acd_switch.py:190-207 | one bar has the effect of the specification step, and discipline, sessions, caps and spacing are kept |
| `MicrotrendAcd.MicrotrendAcdSwitch.RollMicroSession` | strategies/research/precious_metal_microtrend_acd_switch.py:209-223 | session roll of the microtrend half |
| `MicrotrendAcd.MicrotrendAcdSwitch.RollAcdSession` | strategies/research/precious_metal_microtrend_acd_switch.py:225-233 | session roll of the ACD half |
| `MicrotrendAcd.MicrotrendAcdSwitch.EvaluateMicroEntry` | strategies/research/precious_metal_microtrend_acd_switch.py:235-308 | the blocks, the opening-range quality and the signal before a microtrend entry |
| `MicrotrendAcd.MicrotrendAcdSwitch.EvaluateAcdEntry` | strategies/research/precious_metal_microtrend_acd_switch.py:322-364 | the opening range and the breakout or failure entry |
| `MicrotrendAcd.MicrotrendAcdSwitch.ManagePosition` | strategies/research/precious_metal_microtrend_acd_switch.py:366-402 | the distances of the source that owns the position |
| `MicrotrendAcd.MicrotrendAcdSwitch.HoldPosition` | strategies/research/precious_metal_microtrend_acd_switch.py:366-402 | stop, target and holding limit |
| `MicrotrendAcd.MicrotrendAcdSwitch.EnterPosition` | strategies/research/precious_metal_microtrend_acd_switch.py:404-429 | the entry fields, the counters of the microtrend half and the intent |
| `MicrotrendAcd.MicrotrendAcdSwitch.ClosePosition` | strategies/research/precious_metal_microtrend_acd_switch.py:431-442 | the close intent and the cleared fields, with the exit index of the microtrend half |
| `BusinessSessions.BusinessSessionOffset` | scripts/verify_rust_core_migration.py:792-800 | main result: the walk terminates on the one date exactly |n| business days away, which is a business day unless n is 0 |
| `BusinessSessions.OffsetCrosses` | scripts/verify_rust_core_migration.py:792-800 | counting business days determines the offset uniquely |
| `BusinessSessions.OffsetsAddUp` | scripts/verify_rust_core_migration.py:792-800 | from a business day offsets add up, whatever their signs |
| `BusinessSessions.OffsetsAddUpIff` | scripts/verify_rust_core_migration.py:792-800 | from any date two offsets add up exactly when it is a business day, the first is zero, or the sum keeps the sign of the first |
| `BusinessSessions.SaturdayDoesNotReturn` | scripts/verify_rust_core_migration.py:792-800 | a Saturday moved one on and one back ends on Friday |
| `BusinessSessions.WeekdayAnchor` | scripts/verify_rust_core_migration.py:792-800 | the first of January 2024 was a Monday, and weekdays follow on |
| `SubsetDifferences.EmptyIffSubset` | scripts/verify_rust_core_migration.py:819-840 | main result: no difference is reported exactly for the inductive subset relation |
| `SubsetDifferences.ReportedIff` | scripts/verify_rust_core_migration.py:819-840 | main result: a difference is listed exactly when walking its path down both sides ends at a pair with that fault |
| `SubsetDifferences.ReportedOnce` | scripts/verify_rust_core_migration.py:819-840 | no difference is listed twice |
| `SubsetDifferences.ReflexiveIff` | scripts/verify_rust_core_migration.py:819-840 | a value is within itself exactly when no number in it is NaN |
| `SubsetDifferences.NaNDiffersFromItself` | scripts/verify_rust_core_migration.py:819-840 | a list that holds a NaN is reported to differ from itself |
| `SubsetDifferences.Transitive` | scripts/verify_rust_core_migration.py:819-840 | the subset relation is transitive |
| `SubsetDifferences.AntisymmetricIff` | scripts/verify_rust_core_migration.py:819-840 | two values are within each other exactly when they are equal in Python's sense |
| `SubsetDifferences.LeafEqualIff` | scripts/verify_rust_core_migration.py:838-839 | which leaves are equal: booleans are 0 and 1, and a NaN equals nothing |
| `SubsetDifferences.CollectDifferences` | scripts/verify_rust_core_migration.py:819-840 | the loops collect that list |
| `TsmomTargets.RunBound` | strategies/research/precious_metal_tsmom_vol.py:122-138 | main result: in every run the total exposure is at most the cap plus one threshold per symbol, and the recorded targets are those the orders left in force |
| `TsmomTargets.ExposureBound` | strategies/research/precious_metal_tsmom_vol.py:199-213 | the bound after any sequence of rebalances |
| `TsmomTargets.FollowsIff` | strategies/research/precious_metal_tsmom_vol.py:199-213 | the strategy holds exactly the targets it computes, in every run, if and only if the possible targets are at least a threshold apart |
| `ExposureCap.RunCapKeptIff` | strategies/research/precious_metal_tsmom_vol.py:122-213 | main result: in every run of the strategy the exposure stays within the cap if and only if no level crowds another and no symbol can be parked below the threshold |
| `ExposureCap.CapKeptIff` | strategies/research/precious_metal_tsmom_vol.py:153-213 | the same after every sequence of rebalances |
| `ExposureCap.CrowdingExceeds` | strategies/research/precious_metal_tsmom_vol.py:153-213 | for every configuration with two levels closer than the threshold, of which the smaller can be entered, a run that exceeds the cap |
| `ExposureCap.ParkingExceeds` | strategies/research/precious_metal_tsmom_vol.py:153-213 | for every configuration whose smallest level is below the threshold and can be reached, a run that parks all symbols but one and exceeds the cap |
| `ExposureCap.NarrowKeepsCap` | strategies/research/precious_metal_tsmom_vol.py:153-213 | long only, with a narrow band of levels around the threshold, one rebalance sets the targets or only closes, so the cap is kept |
| `ExposureCap.LevelsDescend` | strategies/research/precious_metal_tsmom_vol.py:153-163 | more active symbols never get a larger share |
| `ExposureCap.RoundsHappen` | strategies/research/precious_metal_tsmom_vol.py:122-138 | every sequence of rebalances is that of some run of bars |
| `ExposureCap.CapCanBeExceeded` | strategies/research/precious_metal_tsmom_vol.py:199-213 | a concrete configuration with three symbols in which the cap is exceeded and the targets are not followed |
| `TsmomTargets.TargetsTotal` | strategies/research/precious_metal_tsmom_vol.py:153-163 | the targets together are exactly what was asked for, or the cap if that is less |
| `TsmomTargets.TargetsAreLevels` | strategies/research/precious_metal_tsmom_vol.py:153-163 | every symbol is flat or gets the same share, on the side of its signal |
| `TsmomTargets.TargetIsSigned` | strategies/research/precious_metal_tsmom_vol.py:165-174 | a raw target is the full quantity or nothing, by the strength of the score |
| `TsmomTargets.RebalancesIff` | strategies/research/precious_metal_tsmom_vol.py:122-138 | a bar counts when its time is new and rebalances exactly when the count is a multiple of the interval, all histories are there and their time was not decided on yet |
| `TsmomTargets.EqualShare` | strategies/research/precious_metal_tsmom_vol.py:159-163 | above the cap the active symbols share it equally |
| `TsmomTargets.OrdersHeld` | strategies/research/precious_metal_tsmom_vol.py:199-213 | the orders sent put exactly the settled targets in force |
| `TsmomTargets.ComputeTargets` | strategies/research/precious_metal_tsmom_vol.py:153-163 | the loops compute the scaled targets |
| `TsmomTargets.TsmomStrategy.constructor` | strategies/research/precious_metal_tsmom_vol.py:92-98 | all targets zero |
| `TsmomTargets.TsmomStrategy.ApplyTargets` | strategies/research/precious_metal_tsmom_vol.py:199-213 | the loop settles each symbol and sends one order per change |
| `TsmomTargets.TsmomStrategy.Observe` | strategies/research/precious_metal_tsmom_vol.py:122-138 | one bar has the effect of the specification step, and the recorded targets stay what the orders say |

## Left out

- The clock branch of the materialization scan and `BarAggregator`, whose source is not part of this model.
- File handling, CSV quoting, progress output, process pools and command-line parsing: no logic of their own. The key is taken by splitting at commas, as the source does.
- Platform newline translation when a chunk file is written: the chunk text is taken as it is.
- `heapq` itself: the heap is a set of entries and `HeapPop` promises what `heappop` does, a least entry.
- The errors `_DailyAggregationState.updated` raises for a foreign bar: its only caller never passes one, which the model has as a precondition.
- Decimal context rounding and integer widths: prices and quantities are reals, and JavaScript sequence numbers are unbounded integers.
- Time-zone database lookups: a calendar is any strictly increasing sequence of midnights. `RollUp.Clock` leaves instants before the first known midnight where they are.
- The 1d reference of scripts/verify_rust_materialize_golden.py, which only groups by session date.
- WebSocket heartbeats, reconnect timers and re-entrant callbacks: `onMessage` does not call back into the client.
- Token parsing, HMAC and base64: one verdict each. A jti counts as admitted when it enters the cache, even if building the principal fails afterwards.
- Concurrent requests: the limiter and the cache are updated one call at a time, as on one event loop.
- The square root in the gate's realized volatility is a given function.
- The audit log, the campaign engine and other output roots: one state record per history, and an absent key reads as null.
- Indicator values, the production gate's verdict and the entry confirmations: inputs of each bar.
- ProductionPullback.PullbackStrategy.UpdateSessionState: the volume-weighted sums behind the session sigma are not kept, because they feed only the confirmations.
- FactorResearch.FactorStrategy.Observe: the waiting phases before an entry are one input, the signal, because they are those of `ProductionPullback`; bars on which indicators are not ready or the ATR is not positive do not reach it.
- The factor filters of the research strategy: one arbitrary input per bar.
- MicrotrendAcd.MicrotrendAcdSwitch.EvaluateMicroEntry: returns, ATR, volume ratio and VWAP distance are one optional signal per bar, because every property holds for any such signal.
- Momentum scores and volatilities of the momentum strategy: one arbitrary pair per symbol and rebalance.
- Dates outside Python's range: ordinals are unbounded.
- The wording of difference messages: a difference is its path and its problem.
- Constructor validation and diagnostics: the validated ranges are preconditions.
- React components, HTTP routes, data-transfer mappers, the example and rotation strategies: thin wrappers or one-branch rules.
