# goDASH rate adaptation and playback, modelled in Dafny

goDASH is a headless DASH video client written in Go. Each time it downloads a
segment, it measures the throughput and hands the measurement to one of several
rate-adaptation strategies. The strategy chooses the representation ("rung") of
the next segment from the bitrate ladder, where index 0 is the highest quality.
The player then updates its buffer model, its QoE counters and its
per-segment log.

This project models that core:

- the shared selection primitive and the estimators;
- the eight strategies: conventional, mean, geometric, exponential, elastic,
  logistic, BBA and ARBITER+;
- one iteration of the player's `streamLoop` for one track, and the loop
  itself;
- the retroactive chunk replacement;
- the manifest-derived arithmetic and string helpers;
- the flag and stream-duration checks of `main.go`;
- the small utility and logging helpers.

It also proves what the code promises about these.

Modelling conventions:

- **Go numbers.** Go's integer division and remainder truncate toward zero
  (`GoNum.Quo`, `GoNum.Rem`). Floating-point values are modelled as exact
  reals, plus the non-finite IEEE outcomes that change a decision: NaN and
  ±Inf (`GoNum.Float64`). Go's `int(float64)` on amd64 is `GoNum.ToInt`,
  which gives -2^63 for NaN, for ±Inf and for out-of-range values.
- **Exits and panics.** A fatal exit (`StopApp`, `os.Exit`, `log.Fatal`) is
  `Err(Fatal(..))`. A runtime panic is `Err(Panic(..))`: an index out of
  range, an integer division by zero, or `make` with a negative length.
- **Classes.** A strategy that keeps state between calls is a class. Its
  history `*thrList`, rung `*repRate` and package variables are fields, and
  each method states the new state through a specification function. Loops
  are proved equal to those functions.
- **Inputs in place of I/O.** Wall-clock times, the random pick, `math.Exp`,
  segment sizes obtained by HTTP, the nested streaming call and the player's
  hand-off to the rate-adaptation strategy (`adapt: AdaptInput -> int`) are
  inputs or function parameters.
- **The stop flag.** After the loop over the tracks, streamLoop calls
  `GetNextSegmentDuration` with `segmentDurationTotal` (player/player.go:1040).
  The loop's own total (player/player.go:495) is out of scope there, so the
  call reads the package-level variable of player/player.go:88, which is never
  assigned and stays 0. The model computes the flag that way (`Player.StopPlayer`).
  For one MPD, the flag is set exactly when one segment is longer than the
  whole stream (`Player.StopPlayerMeaning`). The end of a normal stream comes
  from the test at player/player.go:983-995.
- **Call shapes.** The Go call sites do not all match their callees'
  signatures. `streamLoop` takes a slice of `StreamStruct`s
  (player/player.go:441), but `GetHlsSegment`'s function parameter `f` is
  declared with an older signature of 29 parameters and one log map
  (hlsfunc/hlsFunctions.go:63-69, 98-100). `PrintPlayOutLog` takes a slice of
  log maps (logging/debug.go:388), while player/player.go:691 passes one map.
  The model uses one shape for each: the re-fetch is a function from the
  re-fetch arguments, the five shared globals and one log map to the new
  globals and log map (`HlsFunctions.Replay`); `PrintPlayOutLog` works on a
  sequence of logs (`Debug.PlayOutLog`), and the player applies its marking to
  its one track log (`Player.PlayedMarked`).
- **Codec names.** The audio class `RepRateCodecAudio` is the string
  "Audio/MP4". global/globalVar.go:51-61 declares the video codec names but
  not this constant, so the string is an assumption; only its difference from
  the video codec names matters to the proofs.

## Model

| member | source | states |
|---|---|---|
| CalcFunctions.Max | DashApp/src/goDASH/utils/calcFunctions.go:27-32 | the result is at least both arguments and equals one of them |
| CalcFunctions.MaxFloat | DashApp/src/goDASH/utils/calcFunctions.go:35-40 | the result is the larger argument |
| CalcFunctions.Min | DashApp/src/goDASH/utils/calcFunctions.go:43-48 | the result is at most both arguments and equals one of them |
| CalcFunctions.Abs | DashApp/src/goDASH/utils/calcFunctions.go:51-56 | the result is non-negative: x for x >= 0, -x otherwise |
| AppFunctions.FindInStringArray | utils/appFunctions.go:84-93 | (true, i) for the first i holding the item, and (false, -1) exactly when no position holds it |
| AppFunctions.FindInIntArray | utils/appFunctions.go:98-107 | the same first-match contract for ints |
| AppFunctions.CheckStringVal | utils/appFunctions.go:110-120 | the value is overwritten exactly when the override is non-empty, and kept otherwise |
| AppFunctions.CheckIntVal | utils/appFunctions.go:123-133 | the value is overwritten exactly when the override is non-zero |
| AppFunctions.CheckFloatVal | utils/appFunctions.go:136-146 | the value is overwritten exactly when the override is non-zero |
| HelperFunctions.CalculateThroughtput | algorithms/helperFunctions.go:34-36 | for a positive time, the result is segmentSize·1000/time rounded down, while it fits in 64 bits; a zero time gives -2^63, from int of ±Inf or NaN |
| HelperFunctions.TruncOfQuotient | algorithms/helperFunctions.go:34-36 | int(a/b) of non-negative integers is their integer quotient |
| HelperFunctions.FirstBelow | algorithms/helperFunctions.go:51-92 | the first index in [from, N-1) with a bitrate strictly below thr; -1 means every such rung is at or above thr |
| HelperFunctions.SelectedRung | algorithms/helperFunctions.go:43-112 | if some rung 0..N-2 is strictly below thr, the first such rung; otherwise the caller's lowest index. The result is always the lowest index or below N-1 |
| HelperFunctions.SelectRepRateWithThroughtput | algorithms/helperFunctions.go:43-112 | the loop returns SelectedRung; the len-1 branch is dead (an `assert false` there verifies) |
| HelperFunctions.SelectionMonotone | algorithms/helperFunctions.go:84-92 | when the fallback is the last rung, a larger throughput never selects a larger index |
| HelperFunctions.FixtureSelection | DashApp/src/goDASH/algorithms/average_test.go:50-58 | int(17403129.9) = 17403129, which selects rung 2 of the 13-rung ladder |
| HelperFunctions.ThroughputSamples | algorithms/helperFunctions.go:118-133 | `window` entries: the min(window, len) most recent samples in order, then zeros; a negative window is the `make` panic |
| HelperFunctions.SmartConvHelperFromFile | algorithms/helperFunctions.go:158-170 | the summing loop equals LookaheadPasses, the IEEE test (8·Σ sizes)/(lastDuration/1000·window) <= estRate |
| HelperFunctions.LookaheadCheckMeaning | algorithms/helperFunctions.go:158-170 | for a positive window and duration, the check passes iff 8·Σ sizes·1000 <= estRate·lastDuration·window |
| HelperFunctions.LookaheadEmptyWindowFails | algorithms/helperFunctions.go:158-170 | an empty window computes 0/0 = NaN, so the check fails |
| HelperFunctions.FloatMin | algorithms/helperFunctions.go:176-182 | the result is at most both arguments and equals one of them |
| HelperFunctions.LastSamples | algorithms/helperFunctions.go:188-200 | the harmonic window is the last min(num, len) samples |
| HelperFunctions.HarmonicAverage | algorithms/helperFunctions.go:188-212 | the accumulation loop leaves count / Σ 1/x over the last num samples, in float64 |
| HelperFunctions.ReciprocalSumFinite | algorithms/helperFunctions.go:204-206 | with non-zero samples the float64 sum is the exact Σ 1/x |
| HelperFunctions.ReciprocalSumZero | algorithms/helperFunctions.go:204-206 | a zero sample makes the reciprocal sum +Inf |
| HelperFunctions.HarmonicWithZero | algorithms/helperFunctions.go:204-207 | a window holding a zero sample has harmonic mean 0 |
| HelperFunctions.HarmonicSingle | algorithms/helperFunctions.go:188-212 | the harmonic mean of one sample is that sample |
| HelperFunctions.HarmonicFixture | DashApp/src/goDASH/algorithms/average_test.go:185-189 | the last five fixture samples give a harmonic mean between 24544673.17 and 24544673.18 |
| HelperFunctions.HarmonicBounds | algorithms/helperFunctions.go:188-212 | for positive samples the harmonic mean lies between the smallest and the largest sample |
| HelperFunctions.ExpWindowSize | algorithms/helperFunctions.go:218-225 | ExpAverage takes `window` samples, or all of them when there are fewer or window < 0 |
| HelperFunctions.NewestFirst | algorithms/helperFunctions.go:218-225 | the window holds the newest samples, newest first |
| HelperFunctions.ExpAverage | algorithms/helperFunctions.go:218-246 | its two loops compute ExpAverageOf: Σ sample·ratio·(1-ratio)^(n-1-i) / (1-(1-ratio)^n) |
| HelperFunctions.GeometricSeries | algorithms/helperFunctions.go:226-243 | the partial sums of the unnormalised weights form a telescoping geometric series |
| HelperFunctions.WeightsAddUp | algorithms/helperFunctions.go:226-243 | the unnormalised weights add up to weightSum = 1-(1-ratio)^n |
| HelperFunctions.WeightsSumToOne | algorithms/helperFunctions.go:226-243 | with a non-zero weightSum every weight is finite and the weights sum to 1 |
| HelperFunctions.OldestWeightLargest | algorithms/helperFunctions.go:226-243 | for 0 < ratio < 1, the oldest sample in the window carries the largest weight |
| HelperFunctions.ExpAverageSingle | algorithms/helperFunctions.go:218-246 | the average of one sample with a non-zero ratio is that sample |
| HelperFunctions.ExpWindow | algorithms/helperFunctions.go:218-225 | position i of the window is the i-th newest sample |
| Conventional.ConventionalAbr.Conventional | algorithms/conventional.go:25-47 | `thr` becomes the raw sample on the first call and (8·thr)/10 + (2·newThr)/10 afterwards; the history gains exactly that smoothed value; the rung is SelectedRung(thr) |
| Conventional.SmoothedMix | algorithms/conventional.go:42 | for non-negative inputs, the smoothed value is the exact 80/20 mix rounded down by less than 2 |
| Conventional.SmoothedBetween | algorithms/conventional.go:42 | the smoothed value never exceeds the larger input and is at most one below the smaller |
| Conventional.SentinelReachable | algorithms/conventional.go:25-42 | the smoothed value can itself become -1, which re-arms the first-call branch |
| Average.MeanAverage | algorithms/average.go:50-59 | the accumulation loop leaves Σ s / len(s) in float64, NaN for no samples |
| Average.MeanAverageRung | algorithms/average.go:26-46 | with one sample the rung is selected on the raw sample, otherwise on int(mean) |
| Average.MeanAverageAbr.MeanAverageAlgo | algorithms/average.go:26-46 | the history gains newThr last and the rung is MeanAverageRung of the new history |
| Average.SumBounds | algorithms/average.go:50-59 | a sum is bounded by n times the bounds of its terms |
| Average.MeanBetween | algorithms/average.go:50-59 | the mean of a non-empty history lies between its smallest and largest sample |
| Average.MeanOfNothing | algorithms/average.go:50-59 | no samples give NaN, which int() turns into -2^63 |
| Average.MeanFixture | DashApp/src/goDASH/algorithms/average_test.go:43-58 | the mean of the ten fixture samples is 17403129.9 and selects rung 2 |
| Average.MeanFixtureAppend | DashApp/src/goDASH/algorithms/average_test.go:62-70 | appending 26106059 leaves it as the last sample and selects rung 2 |
| Geometric.IntRoot | DashApp/src/goDASH/algorithms/geometric.go:54-64 | the rounded-down n-th root: r^n <= p < (r+1)^n |
| Geometric.IntRootUnique | DashApp/src/goDASH/algorithms/geometric.go:54-64 | that root is unique |
| Geometric.GeomAverage | DashApp/src/goDASH/algorithms/geometric.go:54-64 | the product loop followed by int(Pow(product, 1/n)) gives GeomAverageInt: 1 for no samples, the sample for one, -2^63 for a negative product, otherwise the floor of the n-th root |
| Geometric.GeomAverageRung | DashApp/src/goDASH/algorithms/geometric.go:31-50 | with one sample the rung is selected on the raw sample, otherwise on int(geometric mean) |
| Geometric.GeomAverageAbr.GeomAverageAlgo | DashApp/src/goDASH/algorithms/geometric.go:31-50 | the history gains newThr last and the rung is GeomAverageRung of the new history |
| Geometric.ProductBounds | DashApp/src/goDASH/algorithms/geometric.go:54-64 | a product of terms in [lo, hi] with lo >= 0 lies in [lo^n, hi^n] |
| Geometric.GeomBetween | DashApp/src/goDASH/algorithms/geometric.go:54-64 | for two or more samples in [lo, hi], the selected value lies between lo and hi |
| Geometric.GeomSingle | DashApp/src/goDASH/algorithms/geometric.go:54-64 | a single sample is its own geometric mean |
| Geometric.GeomNegativeProduct | DashApp/src/goDASH/algorithms/geometric.go:54-64 | a negative product gives NaN, hence -2^63 |
| Geometric.GeomFixture | DashApp/src/goDASH/algorithms/average_test.go:88-94 | int of the fixture's geometric mean is 14545303, which selects rung 3 |
| Geometric.GeomFixtureAppend | DashApp/src/goDASH/algorithms/average_test.go:97-106 | appending 26106059 leaves it last and selects rung 2 |
| Exponential.EmwaRung | algorithms/exponential.go:35-55 | one sample selects on the raw sample; otherwise selects on int(ExpAverage); the result is the lowest index or below N-1 |
| Exponential.EmwaAbr.EMWAAverageAlgo | algorithms/exponential.go:35-55 | the history gains exactly newThr last, no earlier sample changes, and the rung is EmwaRung |
| Exponential.ZeroRatioSelectsFallback | algorithms/exponential.go:49-54 | with the default ratio 0 and a non-zero window, two or more samples average to NaN, so the fallback index is selected |
| Elastic.RateEstimate | algorithms/elastic.go:36-57 | the estimate is the harmonic mean of the last five samples, or of all when fewer |
| Elastic.ElasticAbr.ElasticAlgo | algorithms/elastic.go:30-64 | the history gains newThr; the integrator grows by IntegratorStep; the rung is SelectedRung(int(estimate / (1 - kP·(buffer/1000) - kI·integrator))) |
| Elastic.EstimateOfOneSample | algorithms/elastic.go:36-57 | with one sample the estimate is that sample |
| Elastic.EstimateIgnoresOlderSamples | algorithms/elastic.go:36-57 | samples older than the last five do not change the estimate |
| Elastic.IntegratorDirection | algorithms/elastic.go:59 | for a non-negative step, the integrator grows while the buffer is above its maximum and shrinks while it is below |
| Elastic.NeutralController | algorithms/elastic.go:60 | below one second of buffer and with an empty integrator, the target is the estimate |
| Elastic.DenominatorFalls | algorithms/elastic.go:60 | with kP >= 0, the denominator never grows with the buffer |
| Elastic.TargetGrowsWithBuffer | algorithms/elastic.go:60 | with kP >= 0 and a positive denominator, a fuller buffer never lowers the target |
| Logistic.LowestBitrate | algorithms/logistic.go:173-183 | the running-minimum loop returns the smallest entry; an empty list panics |
| Logistic.HighestBitrate | algorithms/logistic.go:187-196 | the running-maximum loop returns the largest entry; an empty list panics |
| Logistic.ExtremesUnique | algorithms/logistic.go:173-196 | any entry bounding all the others is that minimum or maximum |
| Logistic.CurveBounds | algorithms/logistic.go:111-127 | for 0 < low <= high and expTerm in [0, 1], the curve is finite and lies in [low, high]: low at expTerm 1, high at expTerm 0 |
| Logistic.LadderExtremes | algorithms/logistic.go:111-127 | a ladder of positive bitrates satisfies CurveBounds' precondition in kbit/s |
| Logistic.Remap | algorithms/logistic.go:137-147 | opt 0 maps to lowest when last <= lowest and to last-1 otherwise; any other opt maps to opt or opt-1 |
| Logistic.RemapOnLadder | algorithms/logistic.go:96-147 | for indices on the ladder, the remapped index stays on the ladder |
| Logistic.RemapCanJump | algorithms/logistic.go:137-147 | from rung 5 of 13, an opt of 1 is returned unchanged: moves are not limited to one rung |
| Logistic.OptimalIndex | algorithms/logistic.go:109-128 | a nearly full buffer (int(buffer/1000) >= 0.97·max) gives 0; otherwise the rung selected for the logistic target; an empty ladder panics |
| Logistic.OptimalRateIndex | algorithms/logistic.go:109-128 | the method computes OptimalIndex |
| Logistic.LogisticFunction | algorithms/logistic.go:78-166 | the result is LogisticIndex: OptimalIndex remapped with rateU = max(last-1, highest) and rateL = min(last+1, lowest) |
| Logistic.CalculateSelectedIndex | algorithms/logistic.go:58-71 | LogisticFunction with the current rung as the last one |
| Logistic.FullBufferSelectsLowest | algorithms/logistic.go:109-141 | a nearly full buffer gives lowest from last <= lowest, and last-1 otherwise |
| Logistic.LogisticOnLadder | algorithms/logistic.go:78-166 | with indices on the ladder, the result never panics and lies on the ladder |
| Logistic.LogisticAbr.Logistic | algorithms/logistic.go:39-51 | the history gains newThr last; the rung becomes LogisticIndex of the current rung, and a panic leaves it unchanged |
| Bba.WindowSplitTotal | algorithms/bba2.go:193-205 | the large and small parts of the reservoir window add up to its total size |
| Bba.AllLarge | algorithms/bba2.go:193-205 | a window with every size above average is all large |
| Bba.Reservoir | algorithms/bba2.go:169-222 | panics exactly for a zero segment duration or a last rung off the ladder |
| Bba.Bba1UpdateReservoir | algorithms/bba2.go:169-222 | the splitting loop computes Reservoir: window min(2·max·1000/segDur, mpdDur/segDur - index), then the clamp |
| Bba.ClampBounds | algorithms/bba2.go:209-221 | a finite reservoir ends between 2·segDur and 0.6·max·1000 |
| Bba.ZeroRateReservoir | algorithms/bba2.go:209-221 | 0/0 passes both clamp tests as NaN and gives the reservoir -2^63 |
| Bba.VraaOptIndex | algorithms/bba2.go:245-260 | a buffer at 90% of maximum gives opt 0; otherwise the rung selected on the rate map; an empty ladder panics |
| Bba.Vraa | algorithms/bba2.go:224-289 | bba1VRAA's index: VraaOptIndex remapped as in the logistic strategy |
| Bba.VraaOptRateIndex | algorithms/bba2.go:245-260 | the method computes VraaOptIndex |
| Bba.Bba1VRAA | algorithms/bba2.go:224-289 | the method computes Vraa |
| Bba.BbaAbr.CalculateSelectedIndexBba | algorithms/bba2.go:35-167 | the history gains newThr last; the result is BbaIndex of the reservoir, or the reservoir's or rate map's panic |
| Bba.SlowBelowReservoir | algorithms/bba2.go:82-100 | below the reservoir, a slow download (downloadTime > lastDuration) selects the last rung |
| Bba.NotSlowBelowReservoir | algorithms/bba2.go:100-115 | below the reservoir and not slow, the result is last, last-1 or 0, and never a lower quality than last |
| Bba.FastAboveReservoir | algorithms/bba2.go:117-145 | at or above the reservoir, a fast download never exceeds max(last-1, 0), and otherwise never exceeds the last rung |
| Bba.SlowAboveReservoir | algorithms/bba2.go:117-125 | at or above the reservoir, a slow download takes the rate map's index |
| Bba.CushionSelectsLowest | algorithms/bba2.go:245-271 | a buffer at 90% of maximum gives the lowest rung from a rung at or above it |
| ArbiterPlus.FactorBounds | algorithms/arbiterPlus.go:68-96 | fullness lies in [0, 1] and is 1 from a full buffer on; the buffering factor lies in [0.75, 1.15] |
| ArbiterPlus.Damped | algorithms/arbiterPlus.go:100-115 | the damped index never rises in quality above the target and is at most two rungs above the last; panics only when the one-rung test reads outside the ladder |
| ArbiterPlus.SwitchControl | algorithms/arbiterPlus.go:100-115 | the switching-control block computes Damped |
| ArbiterPlus.Lookahead | algorithms/arbiterPlus.go:122-139 | the first passing rung from the target down, else lowest; never above the target in quality and never past lowest |
| ArbiterPlus.LookaheadLoop | algorithms/arbiterPlus.go:129-139 | the while loop computes Lookahead |
| ArbiterPlus.ArbiterAbr.CalculateSelectedIndexArbiter | algorithms/arbiterPlus.go:47-145 | the history gains newThr last; the result is ArbiterIndex: EWMA·factor, damping, then lookahead |
| ArbiterPlus.SwitchUpBounded | algorithms/arbiterPlus.go:106-139 | the final index is at most two rungs above the last in quality |
| ArbiterPlus.EmptyWindowSelectsLowest | algorithms/arbiterPlus.go:122-139 | an empty lookahead window makes every check fail, so lowest is selected |
| ArbiterPlus.LastSegmentWindow | algorithms/arbiterPlus.go:123-126 | the window min(mpdDur/lastDur - lastIndex, 5) is empty at the last segment |
| Debug.Get | logging/debug.go:394 | a Go map read: the stored record, or the zero record for a missing key |
| Debug.CheckInputHeader | logging/debug.go:361-384 | an "on"/"On"/"ON" header appends the width format and sets the value; otherwise "%s" is appended and the value kept; exactly one fragment per call |
| Debug.MarkUpToEntries | logging/debug.go:390-434 | after the loop, each due segment in 1..upto is played and every other entry is as it was |
| Debug.MarkStep | logging/debug.go:394-434 | segment k is marked exactly when it was due in the original log |
| Debug.MarkKeepsKeys | logging/debug.go:431-434 | marking inserts no key when segments 1..upto are present |
| Debug.EmittedMembers | logging/debug.go:390-394 | (k, L) is emitted iff 1 <= k <= upto and segment k of log L is due |
| Debug.EmittedOrdered | logging/debug.go:390-392 | rows come out by segment number, then by log index |
| Debug.RepeatEmitsNothing | logging/debug.go:394-434 | a repeat call at the same time emits nothing |
| Debug.MarkOnlySetsPlayed | logging/debug.go:431-434 | marking changes only Played, and only from false to true |
| Debug.RowOf | logging/debug.go:400-414 | the stall is printed as its absolute value and the rates in kbit/s (divided by 1000) |
| Debug.PlayOutLog.PrintPlayOutLog | logging/debug.go:388-438 | the emitted rows are EmittedUpTo and the logs become MarkAll of the old ones; an empty slice of logs panics |
| Debug.PlayOutLog.PlayOutSegment | logging/debug.go:392-434 | one pass of the outer loop emits RowDue for segment k and extends the marking of every log to segment k |
| HlsFunctions.Shifted | hlsfunc/hlsFunctions.go:125-136 | the log with the buffer levels of keys chunkReplace < a < segmentNumber lowered by bufferDifference |
| HlsFunctions.ChangeBufferLevels | hlsfunc/hlsFunctions.go:125-136 | the loop rewrites the map in place to Shifted of the old map |
| HlsFunctions.ShiftedEntries | hlsfunc/hlsFunctions.go:128-134 | only BufferLevel of keys strictly inside the range changes, by exactly -bufferDifference; other fields and keys are untouched |
| HlsFunctions.EmptyRangeChangesNothing | hlsfunc/hlsFunctions.go:128 | nothing changes when segmentNumber <= chunkReplace + 1 |
| HlsFunctions.MissingKeyInserted | hlsfunc/hlsFunctions.go:131-133 | a missing key in the range becomes the zero record with BufferLevel -bufferDifference |
| HlsFunctions.ShiftBack | hlsfunc/hlsFunctions.go:125-136 | shifting by d and then by -d restores a log whose range is present |
| HlsFunctions.ReplayArguments | hlsfunc/hlsFunctions.go:72-107 | fails exactly when the chunk's MPD index is outside the URL or MPD list or that MPD has no representation 0 in adaptation set 0; the re-fetch is byte-range exactly when that representation's base URL differs from repRateBaseURL; it runs with initBuffer 0 and hls off; its buffer starts from chunk-1's level; its duration is chunk-1's start plus one segment |
| HlsFunctions.GetHlsSegment | hlsfunc/hlsFunctions.go:63-121 | bufferDifference is the chunk's level before the re-fetch minus after it; returns the replay's log and the elapsed time |
| HlsFunctions.ReplacementShift | hlsfunc/hlsFunctions.go:110-134 | each later chunk's level moves by exactly what the re-fetch changed at the replaced chunk, so a chunk the re-fetch left alone keeps its distance from the replaced chunk |
| Player.Replaced | player/player.go:516-560 | no replacement due leaves the track as it was; otherwise the log and the five shared globals (waitToPlayCounter, stallTime, playPosition, nStalls, nSwitches) are those the nested re-fetch left, the log is shifted between the chunk and the current segment, the buffer drops by runtime + bufferDifference, and segment number, rung and duration total are kept |
| Player.StallOf | player/player.go:690-700 | 0 while the buffer covers the run time, else the negative shortfall |
| Player.Refill | player/player.go:702-717 | a playing track drains, not below 0, then gains one segment; a buffering track only gains one |
| Player.Excess | player/player.go:720-729 | the sleep is the excess over maxBuffer·1000, or 0 |
| Player.Counters | player/player.go:806-850 | the stall count rises only when stallTime > 0; the switch count rises iff the bitrate differs from the previous segment's |
| Player.ClampRep | player/player.go:629-632 | an index below highest is raised to it; otherwise it is unchanged |
| Player.PlayOut | player/player.go:681-740 | the buffer update of one download: stall, refill, cap, counter, duration and play position; a playing track without hls marks the segments due at the arrival time as played |
| Player.MarkPlayOut | player/player.go:689-692 | the marking loop leaves PlayedMarked of the old log: each segment 1..len due at currentTime is played and nothing else changes |
| Player.Record | player/player.go:806-995 | the record stored under the segment number, the strategy's index and the end test |
| Player.BufferCapped | player/player.go:720-729 | after a download the buffer is at most maxBuffer·1000, and there is a sleep exactly when the refill exceeded it |
| Player.PlayingBufferFloor | player/player.go:706-729 | a playing step leaves at least min(one segment, maxBuffer)·1000 |
| Player.StallRule | player/player.go:690-717 | a playing step records 0 or the negative shortfall; a buffering step keeps the old value |
| Player.StallsNeverCounted | player/player.go:697-820 | with stall times never positive, the stall count never moves |
| Player.SwitchCount | player/player.go:821-827 | the switch count grows by one exactly on a bitrate change |
| Player.Progress | player/player.go:733-980 | each download advances segmentNumber by 1 and the duration by one segment; playPosition is set only with extended logging after start |
| Player.RecordStored | player/player.go:858-901 | the stored record describes the download and is unplayed; every other key keeps its fields, and its Played flag becomes true exactly when the play-out marking of this download found it due |
| Player.NextIndexValid | player/player.go:905-975 | the next index is the strategy's, and it is a valid ladder index |
| Player.StopBeforeDownload | player/player.go:616-625 | the iteration returns early exactly when the next segment would pass the stream duration on the last track |
| Player.DownloadStep | player/player.go:629-995 | an invalid clamped index is the index panic; a successful download advances the segment number by one and leaves a valid ladder index |
| Player.Step | player/player.go:497-995 | an invalid current index is the index panic; an early return keeps the segment number and happens only on the last track; a download advances it by one |
| Player.StepProgress | player/player.go:733-980 | a download advances the segment number by one and the duration total by one segment; an early return changes neither |
| Player.StreamAdvance | player/player.go:983-1051 | unrolling one iteration: a failure ends the stream with it, an early return or a finished/stopped track ends it, otherwise the rest of the stream follows |
| Player.ReplacementOnlyAtSix | player/player.go:516-523 | outside segment 6 of a video track with hls "on", the replacement changes nothing |
| Player.ReplacementEffect | player/player.go:516-560 | when it fires, the log and the shared globals are the re-fetch's and the buffer drops by runtime + bufferDifference; the shift between chunks 5 and 6 covers no key |
| Player.Stream | player/player.go:441-1051 | the recursion as a fold over iterations: stop on failure, early return, last track finished, or the stop flag GetNextSegmentDuration computes |
| Player.StopPlayerMeaning | player/player.go:1036-1046 | the stop flag is set exactly when one segment is longer than the stream; a zero segment duration is the division panic |
| Player.StreamProgress | player/player.go:733-980 | over the whole stream, each download advances the segment number and the duration by one segment |
| Player.StreamEnds | player/player.go:983-1053 | a stream that ends early does so past the end on the last track, or after a download when one segment is longer than the stream; one that uses every input did not reach the end |
| Player.StreamEndsPastEnd | player/player.go:983-1053 | from a non-negative start and segment duration, a stream that ends has run past the stream duration |
| Player.StreamSleepsNonNegative | player/player.go:720-729 | every sleep of the stream is non-negative |
| Player.StreamState.StreamSegment | player/player.go:497-995 | one iteration on the track's fields, the shared globals and the log map, updated in place, equals Step, including the globals the nested re-fetch changes and the play-out marking |
| Player.StreamState.ReplaceChunk | player/player.go:516-560 | the fields, the globals and the log become Replaced of the old state, or the failure is returned |
| Player.StreamState.ReplaceDueChunk | player/player.go:523-560 | with the replacement due, the fields, the globals and the log become Replaced of the old state, or the re-fetch's failure is returned |
| Player.StreamState.ApplyReplacement | player/player.go:526-560 | the globals become the re-fetch's, the buffer drops by run time plus difference, and the log is shifted; nothing else changes |
| Player.StreamState.BufferSegment | player/player.go:681-740 | the fields and the log become PlayOut of the old state, the marking included, and its sleep is returned |
| Player.StreamState.FillBuffer | player/player.go:681-717 | a playing track is marked, records its stall and drains then refills; a buffering track only refills; the wait counter rises by one |
| Player.StreamState.RecordSegment | player/player.go:806-995 | the fields and the log become Record of the old state, or the failure is returned |
| Player.StreamState.DownloadSegment | player/player.go:629-995 | the fields and the log become DownloadStep of the old state |
| Player.StreamState.StreamLoop | player/player.go:441-1051 | the loop over the iterations equals Stream |
| MpdParsing.PlayableUpTo | http/mpdParsing.go:292-311 | the usable MPD indexes and their segment numbers, with equal lengths |
| MpdParsing.PlayableCharacterised | http/mpdParsing.go:292-311 | index i is listed iff (last % (d·1000) == 0 or total % (d·1000) == 0) and total + d·1000 <= streamDuration; ascending; number total/(d·1000)+1 |
| MpdParsing.GetPlayableSegmentMPDindex | http/mpdParsing.go:292-311 | the loop returns PlayableUpTo; a zero duration is the division panic |
| MpdParsing.GetNextSegmentDuration | http/mpdParsing.go:245-288 | stopApp iff no index is usable; otherwise the index and number come from the same position pick mod count |
| MpdParsing.NextSegmentUsable | http/mpdParsing.go:245-311 | a chosen MPD is usable and continues its own numbering; stop iff none is usable |
| MpdParsing.CodecClassCases | http/mpdParsing.go:786-805 | "avc" wins; audio iff no video family and mp4a or ac-3; Unknown iff none |
| MpdParsing.CodecsOf | http/mpdParsing.go:775-814 | each set's class from its first representation; index j when it matches the codec or is audio, else -1; audio iff any set is audio |
| MpdParsing.GetCodec | http/mpdParsing.go:762-827 | one CodecRow per MPD; audioContent iff some set of some MPD is audio; a missing period or representation panics |
| MpdParsing.GetNextSegment | http/mpdParsing.go:895-909 | template media with $Number$ replaced; fails exactly on a bad adaptation set or quality index |
| MpdParsing.TemplateNumberSubstituted | http/mpdParsing.go:895-909 | prefix$Number$suffix becomes prefix, decimal number, suffix (ISO/IEC 23009-1 section 5.3.9.4.4) |
| MpdParsing.SplitByteRange | http/mpdParsing.go:1183-1206 | Ok gives the integers of the two parts of "a-b"; a non-integer first or second part is fatal; a range without '-' is the index panic on the second part |
| MpdParsing.ByteRangeRoundTrip | http/mpdParsing.go:1183-1206 | "a-b" for non-negative a and b splits back into (a, b) |
| MpdParsing.GetNextByteRangeURL | http/mpdParsing.go:1168-1179 | the representation's base URL and the parsed range of media range segNumber-1 |
| MpdParsing.HeightIndex | http/mpdParsing.go:913-944 | the first index of the greatest bandwidth among representations no taller than maxHeight, or -1 when none has a positive bandwidth |
| MpdParsing.GetMPDheightIndex | http/mpdParsing.go:913-944 | the running-max loop returns HeightIndex |
| MpdParsing.GetMaxListIndex | http/mpdParsing.go:948-952 | the index of the last representation |
| MpdParsing.GetRepresentationBandwidth | http/mpdParsing.go:956-961 | the bandwidths, in order |
| MpdParsing.NoHoursIsFatal | http/mpdParsing.go:1039-1093 | "PT<rest>" without an hour part keeps "PT", so the minute parse is fatal |
| MpdParsing.HoursMinutesSeconds | http/mpdParsing.go:1039-1093 | "PT<h>H<m>M<secs>" gives the minutes in seconds when m > 0, else the hours in seconds when h > 0, plus the whole seconds of secs |
| MpdParsing.HoursStage | http/mpdParsing.go:1046-1068 | with an hour part, the hour stage leaves the text after "H" and the hours in seconds |
| MpdParsing.HoursOfDigits | http/mpdParsing.go:1049-1062 | the hour figure reads back as the decimal number written |
| MpdParsing.MinutesStage | http/mpdParsing.go:1071-1085 | "<m>M<secs>" keeps m·60 when m > 0, otherwise the earlier total, and passes secs on |
| MpdParsing.SecondsWithFraction | http/mpdParsing.go:1085-1092 | "<s>.<fraction>" contributes s seconds |
| MpdParsing.SecondsWithoutFraction | http/mpdParsing.go:1085-1092 | "<s>S" without a fraction contributes nothing, as Atoi fails on the "S" |
| MpdParsing.URLList | http/mpdParsing.go:1097-1106 | at least one piece |
| MpdParsing.URLListRoundTrip | http/mpdParsing.go:1097-1106 | a bracketed comma-joined list of comma-free URLs splits back into those URLs |
| MpdParsing.ReadURLArray | http/mpdParsing.go:1115-1150 | more than one URL is fatal; otherwise the one trimmed URL |
| MpdParsing.ReadURLArrayRejectsLists | http/mpdParsing.go:1127-1131 | two or more URLs are rejected |
| MpdParsing.DurationsUpTo | http/mpdParsing.go:965-1035 | each MPD's segment duration, or a failure from some MPD |
| MpdParsing.SegmentDurationNeedsRepresentation | http/mpdParsing.go:965-1035 | a duration needs adaptation set and representation 0, a non-zero byte-range timescale, and the set template when the representation's lacks a value; every failure is a panic |
| MpdParsing.DurationsFailureSticks | http/mpdParsing.go:965-1035 | a failure on an earlier MPD is the failure of the whole list |
| MpdParsing.SegmentDurations | http/mpdParsing.go:965-1035 | the loop returns DurationsUpTo |
| MpdParsing.SegmentDetails | http/mpdParsing.go:965-1035 | presentation duration / segment duration of the chosen MPD, and every duration |
| MpdParsing.MaxStreamDuration | http/mpdParsing.go:850-874 | a non-zero request is kept; otherwise segDur·(maxSegments-1) + the last segment's duration |
| MpdParsing.MaxStreamDurationCoversLast | http/mpdParsing.go:850-874 | for an unset request the result fails exactly when the last segment's duration does, is at least that duration, and is segDur·maxSegments when the last segment is as long as the others |
| MpdParsing.LadderIndexes | http/mpdParsing.go:838-874 | Ok iff the ceiling's bandwidth exceeds the last rung's; fatal iff it does not |
| MpdParsing.GetMPDValues | http/mpdParsing.go:831-888 | the duration, ceiling, last index, durations, ladder and max buffer, each as the helpers define; the base URL of adaptation set 0; a bad MPD index or a missing adaptation set 0 is the index panic |
| MpdParsing.MPDValuesLadder | http/mpdParsing.go:850-874 | 0 <= highest <= lowest = N-1, bandwidth[highest] > bandwidth[lowest], and a request is kept |
| UrlParsing.GetRepresentationBaseURL | http/urlParsing.go:462-464 | Representation[0].BaseURL of the adaptation set |
| UrlParsing.JoinURL | http/urlParsing.go:473-488 | an append containing "http" is returned unchanged |
| UrlParsing.JoinURLReplacesFileName | http/urlParsing.go:478-484 | for dir/name with name not in dir, a relative append replaces the file name |
| UrlParsing.RangeHeadersReadBack | http/urlParsing.go:256-411 | RangeHeader is "bytes=start-end" (getURLBody) and ByteRangeBodyHeader "bytes=start-(end-1)" (GetURLByteRangeBody), both read back by SplitByteRange (RFC 7233 section 2.1) |
| UrlParsing.CreateFile | http/urlParsing.go:512-525 | the saved path starts with fileLocation/ |
| UrlParsing.PlainSegmentKeepsName | http/urlParsing.go:512-525 | a plain segment keeps its path base |
| UrlParsing.ByteRangeSegmentName | http/urlParsing.go:512-525 | a video byte-range segment stem.ext becomes stem_segment<n>.m4s, prefixed with <dur>sec_ when asked |
| UrlParsing.WithoutHeaderSize | http/urlParsing.go:546-560 | the size after the first mdat marker, or the whole size |
| UrlParsing.Kbps | http/urlParsing.go:560-566 | ((eff·8)/segDur, integer)/1024, bounded as a floor; a zero duration panics |
| ConfigParsing.RecupParameters | logging/configParsing.go:80-105 | each parameter is the config field of the same name |
| ConfigParsing.RecupURLsFromConfig | logging/configParsing.go:132-152 | the trimmed comma pieces; always at least one, so the nil exit is dead |
| ConfigParsing.TrimmedURLsShape | logging/configParsing.go:135-142 | no trimmed URL holds a comma or has white space at either end |
| ConfigParsing.Configure | logging/configParsing.go:62-77 | splitting the joined URL string on ',' gives the trimmed URLs back |
| GodashMain.Reversed | main.go:372-384 | the ladder turned around, same length |
| GodashMain.ReverseRepresentations | main.go:372-382 | the array becomes Reversed(original) followed by its old tail; a short array is the index panic |
| GodashMain.ReversedLadderDescends | main.go:359-385 | an ascending ladder descends once turned around |
| GodashMain.ReversedTwice | main.go:372-382 | turning twice gives the ladder back, renumbered from 1 |
| GodashMain.WithAdaptationSet | main.go:384 | only that adaptation set of MPD 0 is replaced |
| GodashMain.NormaliseLadder | main.go:358-385 | an ascending ladder has its adaptation set replaced by the reversed one; otherwise the list is unchanged |
| GodashMain.StreamDuration | main.go:691-746 | a negative or too-long request is fatal; 0 becomes mpdDur·1000, others request·1000 |
| GodashMain.MpdStreamDurationIsMaxStreamDuration | main.go:715-728 | the inline MpdStreamDuration equals MaxStreamDuration for an unset request, and fails as GetSegmentDetails does |
| GodashMain.LastSegmentAdded | main.go:724-728 | main.go's formula segmentDuration·(maxSegments-1) + last is the unset-request branch of MaxStreamDuration |
| GodashMain.StreamDurationWithinMpd | main.go:724-745 | the duration never exceeds the MPD's, and a request is honoured |
| GodashMain.ValidatedMeaning | main.go:555-833 | Validated passes iff every value is valid; hlsBool iff hls is "on" and not audio only; saveFilesBool iff store is on or collaborating |
| GodashMain.CheckFlags | main.go:555-833 | the checks in main.go's order compute Validated |

## Left out

- Network and transport are not modelled: `getURLBody`, `GetURLByteRangeBody`, `getURLProgressively`, `GetContentLengthHeader` and `SmartConvHelper`. Segment sizes are a function parameter instead.
- XML unmarshalling is not modelled. The MPD is a cut-down datatype.
- The segment-header caches, all log and file writing, and the printed text are not modelled.
- Wall-clock times are inputs, and the sleep is an output value.
- `rand.Int` is the parameter `pick`.
- Floating point is exact real arithmetic, apart from NaN and ±Inf. Float fixtures are checked to two decimals.
- CalcFunctions.MaxFloat and HelperFunctions.FloatMin: take exact reals, so NaN operands are not modelled. In Go a comparison with NaN is false, so `MaxFloat` would return its first argument and `FloatMin` its second.
- `math.Exp` is the parameter `expTerm`. `math.Pow` in `geomAverage` is the exact integer root of the unbounded product, so a float64 product overflow is not modelled.
- The EWMA fixtures of `DashApp/src/goDASH/algorithms/average_test.go:110-173` weight the newest sample most. That contradicts the code of `ExpAverage`, which the model follows.
- QoE models, P2P, hashing, the progressive strategy, the uncalled `suddenDropHappening`, CLI flag parsing, and `StopApp`/`IsFlagSet`/`WriteFile`/`RecoverPanic` are not modelled.
- GodashMain.ValidatedMeaning: `collabPrint` is the boolean `collabPrintOn`, so the fatal exit on a value other than "on" or "off" (main.go:665-671) is not modelled; it belongs to the P2P set-up left out above.
- The debug logging inside the strategies is not modelled.
- Go's 64-bit integer wrap-around is not modelled outside the float-to-int conversion. Integers are unbounded.
- HelperFunctions.HarmonicAverage: requires `num >= 0`. A negative count would be a slice-bounds panic, but the only caller passes 5.
- Debug.PlayOutLog.PrintPlayOutLog: requires the first log to hold exactly the keys 1..n, as the player stores them. Otherwise the loop bound could grow while marking inserts keys.
- Player.StreamState.StreamLoop: covers one track of one MPD. The walk over the mime-type list between tracks is an input, and the MPD switch block of `streamLoop` (player/player.go:565-611: a new `mpdListIndex`, the re-read `GetMPDValues`, the codec check and the new adaptation set) is not modelled, so every iteration keeps the same TrackConfig.
- Player.Stream: the same restriction; the recursion is over one track and one MPD, without the MPD switch of player/player.go:565-611.
- Player.Record: stores the record fields the rest of the model reads. The QoE running sums of player/player.go:806-850 (segRates, sumSegRate, totalStallDur, rateChange, sumRateChange, rateDifference) and the record fields codec, width, height, fps, rtt, protocol, kbps and the HLS replaced flag (SegReplace) are not modelled.
- Player.Record: the rate-adaptation strategy is the parameter `adapt: AdaptInput -> int`, a stateless total function that every iteration of `Player.Stream` and `Player.StreamState.StreamLoop` shares. The strategy history that player/player.go:908-975 carries between iterations (`thrList`, `repRate` and the Elastic integrator `staticAlgParameter`) is not modelled. Neither is a strategy panic ending the stream, such as BBA's division by a zero segment duration (`Err(DivideByZero)` in the BBA model). So a run is not tied to any one of the modelled strategies.
- Player.StreamState.StreamLoop: `Iteration.nextSegmentNumber` is an input. It only reaches the replacement's outcome, which the loop does not use; in Go, the value is overwritten by the next stop test (player/player.go:1040-1042).
- Player.Replaced: the nested `streamLoop` call is an input function from the re-fetch arguments, the five shared globals and the log to the new globals and log. What the nested iteration does to the strategy's own history and to the other tracks' logs is not modelled.
- Player.PlayedMarked: the play-out marking reads the log length once; `PrintPlayOutLog` re-reads `len(mapSegments[0])` on each pass, which differs only when marking inserts a key, that is when a key in 1..len(log) is missing from the log.

Where the code differs from what its documentation suggests, the model follows the code:

- `harmonicAverage` averages the last `num` samples, not the first.
- The logistic and BBA remapping can move more than one rung at a time (`Logistic.RemapCanJump`).
- The geometric fixture's mean, 14545303, selects rung 3.
