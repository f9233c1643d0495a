# VocalMagic auto-tune core in Dafny

VocalMagic is a real-time auto-tune. Audio arrives as a stream of chunks and passes through a pipeline of processors:

1. an overlap windower lengthens each chunk with the tail of the previous ones;
2. a pitch detector estimates the fundamental frequency. The detector is either spectral (FFT bins, argmax or harmonic grouping) or YIN (difference function, cumulative-mean normalisation, threshold-then-descend scan, parabolic refinement);
3. a frequency getter picks the target: a fixed frequency, or the nearest entry of a note table;
4. the chunk is resampled by the factor `detected / target`, which shifts its pitch.

This project models that core. Each module follows one part of the program:

| module | file | models |
|---|---|---|
| `Common` | common.dfy | Python's slicing, `int()`, `//` and `round`; `WaveID`; a `Result` type for the exceptions |
| `Extended` | extended.dfy | numpy's division, which can yield infinities and NaN; used by YIN |
| `Services` | services.dfy | `snap_nearest_index`, `adjust_chunk_size`, the resampling helpers, `NOTE_FREQUENCIES` |
| `Harmonics` | harmonics.dfy | `base_frequency_indexes`, `loudest_base_frequency_index`, `loudest_harmonic_of_loudest_base` |
| `Windows` | windows.dfy | the overlap processors and decorators, the noise gate, the mono mix |
| `Analytics` | analytics.dfy | the spectral analysers and their cached band indices |
| `Yin` | yin.dfy | `pitch_detection/yin.py` |
| `Detectors` | detectors.dfy | `YinPitchDetector` |
| `Extractors` | extractors.dfy | the Simple and Harmonic frequency extractors, and the selection step of the matching pitch detectors |
| `FrequencyGetters` | getters.dfy | the fixed and nearest frequency getters |
| `Shifting` | shifting.dfy | manipulators, pitch handlers, the YIN pitch shifters |
| `Pipelines` | pipelines.dfy | `AudioProcessingPipeline` |
| `Streams` | streams.dfy | `AudioStream` and `AudioStreamDecorator` |

Code written as a loop or as a mutating object is imperative Dafny.

- The nested scan of `base_frequency_indexes`, the dictionary accumulation of the two `loudest_*` functions, `snap_nearest_index`, `get_wave_duration` and the pipeline loops are `method`s. Each is proved against a function or predicate of its inputs.
- These are classes whose methods carry `modifies` clauses:
  - `AudioOverlapProcessor` and `AudioOverlapper`, with their rolling buffers;
  - the analyser, with its `cached_property` memos;
  - the harmonic extractor, with its `_cached_indexes`;
  - the pipeline;
  - the stream state machine.
- Expressions are functions over datatypes.

Python exceptions are `Err` values of `Common.Result`. A division by zero is `ZeroDivision`. `options[0]` on an empty list is `IndexOutOfRange`. `np.zeros` of a negative size and `resample` of a negative `num` are `NegativeDimension`.

Samples and frequencies are exact `real`s. Floating-point rounding and signed zeros are not modelled. The special values a division by zero produces in numpy (infinity, NaN) are modelled where they reach a decision: the YIN running average on silence. Where instead they only reach a later `int()`, which raises, they become an `Err` at the division.

External numerics are parameters of the model:

- The FFT (`np.fft.rfft`) is a function `rfft` that is assumed to return `n // 2 + 1` bins.
- `abs` on complex numbers is a function `modulus` that returns the non-negative square root of the squared norm.
- `scipy.signal.resample` is a function `resample(chunk, num)` that is assumed to return exactly `num` samples.
- `calculate_frequency` is a function from key number to frequency.

Three behaviours of the code that are easy to misread, and that the model keeps:

- `base_frequency_indexes` records the **smallest** qualifying lower bin, not the largest. Its inner loop runs `j` upwards and stops at the first match.
- The ranged analyser's band is **inclusive** of `max_freq`: `searchsorted(..., side='right')` keeps the bins equal to it, so the band is `[min_freq, max_freq]` and not `[min_freq, max_freq)`.
- A detected frequency of 0 is **not** intercepted by the shifters. It is passed to the getter, which snaps it to the table entry nearest 0, and the stretch factor becomes 0. Under the `resample` assumption above the result is then an empty chunk; that follows from the assumption, and scipy itself may raise for `num=0` instead.

## Model

| member | source | states |
|---|---|---|
| Common.MakeWaveID | source/dataclasses.py:6-10 | a `WaveID` built from frequency and amplitude has phase 0 |
| Common.Trunc | source/services.py:23 | `int()` of a real truncates toward zero: the result is the integer between 0 and `x` that is nearest `x` |
| Common.FloorDiv | source/window_managers.py:8-9 | Python's `//`: a result `q` with `q*b <= a < q*b + b` for positive `b`, and the mirror image for negative `b` |
| Common.RoundHalfEven | source/services.py:33 | Python's `round`: within one half of `x`, and even on an exact tie |
| Common.SliceBound | pitch_detection/yin.py:7 | a Python slice index: clipped to `[0, n]`, with a negative index counting from the end |
| Common.Slice | pitch_detection/yin.py:7 | `s[start:stop]` is the subsequence between the two normalised bounds, and empty when they cross |
| Common.Tail | src/window_managers.py:27 | `s[-k:]` is the last `k` elements for `k > 0`, and the WHOLE sequence for `k == 0` |
| Common.ArgMax | source/frequency_extractor.py:17 | `np.argmax`: an index of a maximal element, with every earlier element strictly smaller |
| Services.NearestIndex | source/services.py:72-83 | reference definition of the nearest option: no option is closer, and every earlier option is strictly farther |
| Services.SnapNearestIndex | source/services.py:72-83 | the loop of `snap_nearest_index` (identical in src/services.py:22-33): fails exactly on an empty table, and otherwise returns `NearestIndex`, an index in range whose distance is minimal and lowest on ties |
| Services.SnapSingleton | src/services.py:22-33 | a one-entry table always yields index 0 |
| Services.SnapMidpointTakesLowerIndex | src/services.py:29 | the strict `<` breaks ties towards the lower index: 150 against `[100, 200, 300]` gives 0, and 151 gives 1 |
| Services.AdjustChunkSize | source/services.py:86-91 | the result has exactly `chunk_size` samples; a shorter chunk is zero-padded at the end, a longer one keeps its prefix; a negative size follows the slice semantics |
| Services.ResampleAudio | source/services.py:22-23 | the output length is `int(chunk_size * factor)`; a negative length fails |
| Services.ResampleToSize | src/services.py:36-37 | the output length is `int(len(chunk) * factor)`; factor 1 keeps the length, factor 0 gives an empty chunk |
| Services.StretchFactor | src/pitch_shifter.py:24 | `detected / target`: fails exactly for a zero target, equals 1 when detected equals target, and 0 when detected is 0 |
| Services.NoteFrequencies | source/services.py:94 | the note table has 73 entries, entry `k` being the frequency of key `16 + k` (also src/services.py:50) |
| Harmonics.BaseScan | source/services.py:30-35 | the inner loop from `j`: a returned base is the first qualifying lower bin from `j`; no base means no bin from `j` qualifies; a zero-frequency candidate met before any match makes `round` fail |
| Harmonics.BaseFrequencyIndexes | source/services.py:26-37 | the nested loops: one entry per frequency, each equal to `BaseScan` from 0, so each is `None` or the smallest qualifying `j < i`; it fails exactly when some scan fails |
| Harmonics.BaseScanIsSmallestBase | source/services.py:30-35 | the scan's result is the smallest qualifying base, not the largest |
| Harmonics.GroupSumAbsent | source/services.py:59-60 | a group that never occurred sums to 0, which is what `setdefault(base, 0)` starts from |
| Harmonics.GroupOrderMembers | source/services.py:59 | the dictionary keys are exactly the anchored bases seen so far |
| Harmonics.GroupOrderIsInsertionOrder | source/services.py:59 | key order is first-insertion order: a key listed earlier was inserted at an earlier bin |
| Harmonics.LoudestMember | source/services.py:62-63 | the recorded loudest harmonic of a group is a member of that group |
| Harmonics.LoudestMemberIsLoudest | source/services.py:62-63 | the recorded member has the largest magnitude of its group, and, because of the strict `>`, the earliest index on ties |
| Harmonics.NewGroupIsEmpty | source/services.py:59-63 | a base not yet inserted has sum 0 and no loudest member |
| Harmonics.SumsStep | source/services.py:58-60 | one loop iteration keeps the dictionary of sums equal to the per-group sums over the bins seen |
| Harmonics.LoudestStepUnanchored | source/services.py:58 | an unanchored bin changes no loudest member |
| Harmonics.LoudestStepAnchored | source/services.py:62-63 | the update of `loudest_harmonics` keeps it equal to the per-group loudest member |
| Harmonics.GroupSums | source/services.py:68 | the values `max` ranges over, one group sum per key, in key order |
| Harmonics.FirstLoudestGroupWins | source/services.py:65-69 | `max` over the keys picks a group of maximal sum, and of the tied groups the first-inserted one |
| Harmonics.AccumulateGroups | source/services.py:57-63 | the accumulating loop succeeds exactly when every anchored bin has a magnitude, and then tracks the sums and loudest members of every group |
| Harmonics.AccumulateBin | source/services.py:58-63 | one iteration: fails exactly when an anchored bin has no magnitude, and otherwise extends both trackers by one bin |
| Harmonics.LoudestHarmonicOfLoudestBase | source/services.py:53-69 | `None` exactly when no bin is anchored; otherwise the loudest harmonic of the loudest group, with the first group and earliest bin winning ties; a magnitude missing for an anchored bin is `IndexOutOfRange` |
| Harmonics.SelectionIsLoudest | source/services.py:65-69 | the dictionary is empty exactly when no bin is anchored; otherwise the selected value is the loudest member of a loudest group |
| Harmonics.KeyOrderMembers | source/services.py:43-48 | the keys of `loudest_base_frequency_index`'s dictionary, `None` included, are exactly the bases that occur |
| Harmonics.LastUnanchored | source/services.py:47-48 | the `None` key holds the magnitude of the LAST unanchored bin, because it is overwritten rather than summed |
| Harmonics.SumStep | source/services.py:44-48 | one iteration keeps the dictionary equal to the per-key values: sums for bases, last magnitude for `None` |
| Harmonics.LoudestBaseFrequencyIndex | source/services.py:40-50 | fails on empty input or a missing magnitude; otherwise returns a base that occurs in the input, whose value is maximal, and which is the first-inserted key among ties |
| Windows.OverlapLayout | source/window_managers.py:8-12 | overlap factor `desired // chunk`, overlap `chunk * factor`, window `overlap + chunk`; a zero chunk size fails, and so does a negative overlap |
| Windows.LayoutFitsDesiredLength | source/window_managers.py:9-12 | for a positive chunk size the layout exists exactly when the desired length is non-negative, and then the overlap is at most the desired length and the window exceeds it |
| Windows.DecreaseWindow | src/window_managers.py:36-37 | `chunk[-desired:]`: the trailing `desired` samples; the whole chunk when it is shorter or when `desired` is 0 |
| Windows.DecreaseWindowIdempotent | src/window_managers.py:37 | cutting a window down twice is cutting it once |
| Windows.Windows | source/window_managers.py:14-17 | the windows `concatenate` emits for a sequence of items, one per item |
| Windows.WindowEndsWithItem | source/window_managers.py:15 | every window ends with its item, after the previous buffer |
| Windows.DecreaseUndoesOverlap | source/window_managers.py:36-37 | cutting a window back to its item's length returns the item: the decrease decorator inverts the increase |
| Windows.SteadyWindowLength | source/window_managers.py:12-16 | with a positive overlap and items of one length, every window has length `overlap + chunk` |
| Windows.ZeroOverlapWindowsGrow | source/window_managers.py:16 | with overlap 0 the `-0` slice keeps the whole window as the buffer, so each window is the previous one plus the new item |
| Windows.AudioOverlapProcessor.constructor | src/window_managers.py:8-15 | a new processor is unprimed: all sizes and the buffer are `None` |
| Windows.AudioOverlapProcessor.Prime | src/window_managers.py:17-21 | sets the factor `output // chunk`, the overlap, a zero buffer and the window size; a zero chunk fails before any field changes, a negative overlap fails after factor and overlap are stored |
| Windows.AudioOverlapProcessor.Process | src/window_managers.py:23-28 | primes only on the first call, with that chunk's length; every call returns `buffer ++ chunk` and keeps the last `overlap_size` samples, the whole window when the overlap is 0; an empty first chunk divides by zero and changes nothing, and an output size below zero leaves a negative overlap, no buffer and the chunk size unset, and fails |
| Windows.AudioOverlapper.constructor | source/window_managers.py:9-12 | the sizes are the layout's, and the buffer is `overlap_size` zeros |
| Windows.AudioOverlapper.Create | source/window_managers.py:7-12 | a zero frequency resolution fails; otherwise the overlapper has the layout for the desired length `sample_rate // frequency_resolution` |
| Windows.AudioOverlapper.Concatenate | source/window_managers.py:14-17 | returns the old buffer followed by the item, and keeps its `Tail` of `overlap_size` samples |
| Windows.IncreasedChunkSize | source/window_managers.py:21-24 | the decorated stream advertises exactly the window size of the layout `AudioOverlapper.Create` builds from the desired length and the chunk size, and fails exactly when and as that layout fails; a zero resolution divides by zero; a size is at least the chunk size and, for a positive chunk, longer than the desired length |
| Windows.SumAbs | src/window_managers.py:65 | the sum of absolute values is non-negative |
| Windows.SumAbsZeros | src/window_managers.py:67 | silence has absolute sum 0 |
| Windows.NoiseGate | src/window_managers.py:64-67 | keeps the length; the chunk unchanged when its mean absolute value exceeds the threshold, otherwise zeros |
| Windows.NoiseGateIdempotent | src/window_managers.py:64-67 | gating a gated chunk changes nothing |
| Windows.Mono | src/window_managers.py:52-57 | 1-D or single-column input is returned unchanged; multi-column frames become the per-row channel mean |
| Windows.MonoOfIdenticalChannels | src/window_managers.py:53-54 | frames whose channels all carry the same sample mix down to exactly that sample |
| Analytics.RfftFreq | source/analytics.py:14-16 | `rfftfreq(n, 1/sr)`: `n // 2 + 1` bins, bin `k` at `k * sr / n`; a zero length or rate fails, and a negative length gives an empty axis |
| Analytics.RfftFreqAscending | source/analytics.py:16 | the bins start at 0 and strictly ascend, which makes `searchsorted` meaningful |
| Analytics.CountBelow | source/analytics.py:40-41 | `searchsorted(min_freq)` (left side) is a count within the range |
| Analytics.CountAtMost | source/analytics.py:44-45 | `searchsorted(max_freq, side='right')` is a count within the range |
| Analytics.CountBelowSplits | source/analytics.py:41 | on an ascending range a bin is below `min_freq` exactly when its index is below the left insertion point |
| Analytics.CountAtMostSplits | source/analytics.py:45 | on an ascending range a bin is at most `max_freq` exactly when its index is below the right insertion point |
| Analytics.DefaultBand | source/analytics.py:34 | the ranged analyser's band defaults to 85 to 1100 Hz |
| Analytics.BandIsInclusive | source/analytics.py:39-49 | the slice between the two insertion points holds exactly the in-band bins, both ends included, and only those |
| Analytics.SliceOfBandBins | source/analytics.py:48-49 | every frequency of `frequency_range[min_index:max_index]` lies in `[min_freq, max_freq]` |
| Analytics.Magnitudes | source/analytics.py:25 | one non-negative magnitude per bin, the modulus of its complex value |
| Analytics.Analysis | source/analytics.py:18-26 | `analyse` of both analysers (the ranged one at 51-59): the frequency axis depends only on the constructor's chunk size; an empty chunk fails; the spectrum is cut to the band's indices; range, spectrum and magnitudes are index-aligned when the chunk has the configured length |
| Analytics.RangedAnalysisInBand | source/analytics.py:51-59 | a ranged analysis succeeds for positive sizes, and its frequencies ascend and all lie in the band |
| Analytics.AudioAnalyser.MinIndexOf | source/analytics.py:39-41 | the band's lower index is a valid cut of the frequency axis |
| Analytics.AudioAnalyser.MaxIndexOf | source/analytics.py:43-45 | the band's upper index is a valid cut of the frequency axis |
| Analytics.AudioAnalyser.constructor | source/analytics.py:10-12 | a new analyser has its sizes and band (defaults at 34-37) and no cached property |
| Analytics.AudioAnalyser.FrequencyRange | source/analytics.py:14-16 | returns `RfftFreq` of the constructor's sizes, computed once and then read from the cache, touching no other cache |
| Analytics.AudioAnalyser.MinIndex | source/analytics.py:39-41 | returns `MinIndexOf`, cached after the first success |
| Analytics.AudioAnalyser.MaxIndex | source/analytics.py:43-45 | returns `MaxIndexOf`, cached after the first success |
| Analytics.AudioAnalyser.RangedFrequencyRange | source/analytics.py:47-49 | returns the in-band slice of the axis, cached after the first success |
| Analytics.AudioAnalyser.Analyse | source/analytics.py:51-59 | returns `Analysis` of the chunk under the analyser's sizes and band, filling the caches but leaving the analyser valid |
| Extended.Sign | pitch_detection/yin.py:15 | the sign of a value, between -1 and 1: for a finite value 0 exactly at zero and positive exactly when the value is |
| Extended.Neg | pitch_detection/yin.py:28 | negation of a finite value is exact, and only NaN negates to NaN |
| Extended.Add | pitch_detection/yin.py:41 | finite sums are exact, NaN propagates, and infinities of opposite sign add to NaN |
| Extended.Sub | pitch_detection/yin.py:28 | finite differences are exact and NaN propagates |
| Extended.Mul | pitch_detection/yin.py:15 | finite products are exact and NaN propagates |
| Extended.Div | pitch_detection/yin.py:15 | finite quotients by a non-zero divisor are exact; a finite value over 0 is NaN for 0 and otherwise the infinity of its sign, with no exception; NaN propagates |
| Extended.LessTransitive | pitch_detection/yin.py:20-21 | numpy's `<` is transitive, NaN never taking part |
| Yin.SumSquares | pitch_detection/yin.py:8 | a sum of squares is non-negative |
| Yin.LagDifferences | pitch_detection/yin.py:7 | `x[:-lag] - x[lag:]`: entry `i` is `x[i] - x[i + lag]` |
| Yin.DifferenceFunction | pitch_detection/yin.py:4-8 | the difference at a lag is non-negative, and 0 at lag 0 |
| Yin.SumSquaresOfLagDifferences | pitch_detection/yin.py:7-8 | the sum of squares of the first `m` lag differences is the lag sum over `i < m` |
| Yin.DifferenceIsLagSum | pitch_detection/yin.py:7-8 | for `0 < lag <= n // 2` the difference is the sum over `i < n // 2 - lag` of `(x[i] - x[i + lag])^2` |
| Yin.Differences | pitch_detection/yin.py:33 | the `diff` list has `n // 2` entries, each the non-negative difference at its lag |
| Yin.AverageEntry | pitch_detection/yin.py:12-15 | entry `i >= 1` is `diff[i] * i / cumsum[i]` for a non-zero cumulative sum; a zero sum yields NaN for `0/0` and an infinity otherwise |
| Yin.RunningAverage | pitch_detection/yin.py:11-15 | the running average has one entry per lag, at least one, and entry 0 is 1 |
| Yin.RunningAverageEntries | pitch_detection/yin.py:12-15 | every later entry is its `AverageEntry` |
| Yin.RunningAverageOfNonNegative | pitch_detection/yin.py:13-15 | over non-negative differences no entry is infinite: each is finite or NaN |
| Yin.FirstBelow | pitch_detection/yin.py:19-20 | the first index at or after `i` below the threshold, or none when every entry from `i` is not below it (NaN included) |
| Yin.DescendFrom | pitch_detection/yin.py:21-22 | the inner `while` stops at an index in range at or after its start |
| Yin.DescentIsMaximalRun | pitch_detection/yin.py:21-22 | the running average strictly decreases along the descent, and the stop is the last index or a point where the next entry is not smaller |
| Yin.WaveDuration | pitch_detection/yin.py:18-24 | -1 exactly when no entry `i >= 1` is below the threshold, and otherwise an index in `[1, len)` |
| Yin.GetWaveDuration | pitch_detection/yin.py:18-24 | the loop computes `WaveDuration` |
| Yin.DescentStaysBelow | pitch_detection/yin.py:20-22 | a descent that starts below a bound stays below it |
| Yin.WaveDurationIsLocalDescent | pitch_detection/yin.py:19-23 | a found duration is reached from the first below-threshold index by a strict descent, is below the threshold, and is a local stop |
| Yin.QuadraticInterpolation | pitch_detection/yin.py:27-28 | the parabola vertex offset for finite neighbours with non-zero curvature; NaN in, NaN out |
| Yin.VertexWithinHalfSample | pitch_detection/yin.py:28 | at a point of strict descent that stops there, the curvature is positive and the vertex offset lies within half a sample |
| Yin.FlatNeighbourhoodIsNaN | pitch_detection/yin.py:28 | three equal values give `0/0`, so the refinement is NaN |
| Yin.ShortChunkHasNoPitch | pitch_detection/yin.py:31-38 | a chunk of under four samples has no pitch |
| Yin.YinPitchCases | pitch_detection/yin.py:37-43 | no pitch exactly when the duration is -1; otherwise the pitch is `sample_rate / d`, refined only when `1 < d < window - 1` |
| Yin.RefinementWithinHalfSample | pitch_detection/yin.py:40-41 | when the refinement applies to finite neighbours, the refined duration is within half a sample of `d` |
| Yin.RefinedPitchOf | pitch_detection/yin.py:40-43 | the refined pitch is `sample_rate` over a duration within half a sample of `d` |
| Yin.RefinedPitchIsNearDuration | pitch_detection/yin.py:40-43 | the same for the pitch of a chunk, whose window is `n // 2` |
| Yin.PitchOfIsNonNegative | pitch_detection/yin.py:37-43 | for a non-negative sample rate the pitch is never negative and never infinite |
| Yin.YinPitchIsNonNegative | pitch_detection/yin.py:31-43 | for a non-negative sample rate the pitch of any chunk is absent, NaN, or a number at least 0 |
| Yin.YinPitchDetection | pitch_detection/yin.py:31-43 | `yin_pitch_detection` computes `YinPitch` |
| Detectors.YinPitchDetector.ExtractBaseFrequency | pitch_detection/pitch_detectors.py:54-56 | amplitude 1 and phase 0; no pitch becomes frequency 0; a finite non-zero pitch is reported as is; a NaN or infinite pitch is an error |
| Detectors.DefaultYinPitchDetector | pitch_detection/pitch_detectors.py:50-52 | the threshold defaults to 0.1 |
| Detectors.ShortChunkReportsZero | pitch_detection/pitch_detectors.py:55-56 | a chunk of under four samples is reported as frequency 0, amplitude 1 |
| Detectors.DetectedFrequencyIsNonNegative | pitch_detection/pitch_detectors.py:55-56 | a reported frequency is non-negative, and no chunk yields an infinite pitch |
| Extractors.SimpleWaveID | source/frequency_extractor.py:16-20 | no magnitudes fails; otherwise the first loudest bin's frequency and `magnitude / chunk_size` (also `SimplePitchDetector`, pitch_detection/pitch_detectors.py:21-26) |
| Extractors.SimpleWaveIDOfAnalysis | source/frequency_extractor.py:17-20 | on an analysis of a full chunk the extraction succeeds with a non-negative amplitude |
| Extractors.HarmonicFrequencyExtractor.constructor | source/frequency_extractor.py:24-26 | a new extractor has its lenience and no cached base map |
| Extractors.HarmonicFrequencyExtractor.HarmonicIndexes | source/frequency_extractor.py:28-31 | the first call computes and caches the base map; every later call returns the cache whatever frequencies it is given (also `HarmonicPitchDetector`, pitch_detection/pitch_detectors.py:35-38) |
| Extractors.HarmonicFrequencyExtractor.ExtractWaveID | source/frequency_extractor.py:33-37 | the wave comes from the loudest harmonic of the loudest group under the cached map, which stays fixed once filled; the map is filled when every base scan succeeds, and with it a wave is found whenever the magnitudes cover it, some bin is anchored, the chosen harmonic has a frequency and the chunk size is not zero, while a zero chunk size divides by zero (also pitch_detection/pitch_detectors.py:40-46) |
| Extractors.HarmonicWaveID | source/frequency_extractor.py:35-37 | a magnitude missing for an anchored bin fails, and no anchored bin is `NoAnchoredBin`; a result is the frequency and amplitude of the loudest harmonic of the loudest group; with the magnitudes covering the map, some bin anchored and the chosen harmonic inside the frequency axis, it succeeds exactly when the chunk size is not zero and otherwise divides by zero |
| FrequencyGetters.NearestEntry | source/frequency_getters.py:26 | the returned frequency is a table entry at minimal distance, the first such entry on ties |
| FrequencyGetters.FrequencyGetter.TargetFrequency | source/frequency_getters.py:13-26 | the fixed getter ignores its input; the nearest getter returns `NearestEntry`, 0 included, and fails on an empty table |
| FrequencyGetters.NearestOfEntryIsItself | source/frequency_getters.py:26 | a table entry snaps to itself |
| Shifting.ShiftTo | source/pitch_shifter.py:25-26 | factor `detected / target`, output of `int(len * factor)` samples from `resample`; a zero target fails; equal frequencies keep the length, a detected 0 gives an empty chunk |
| Shifting.Retune | src/pitch_shifter.py:23-25 | the target is the getter's answer for the detected frequency, and the chunk is shifted to it |
| Shifting.RetuneOnEntryKeepsLength | source/manipulators.py:30-32 | a detected frequency that is a table entry has factor 1 and keeps the chunk length |
| Shifting.Manipulator.Manipulate | source/manipulators.py:20-32 | both manipulators retune with their getter, ignoring the analytics argument; the mono-tone output has `int(len * detected / frequency)` samples |
| Shifting.PitchHandler.Handle | source/pitch_handler.py:32-45 | both handlers retune with their getter; the mono-tone output has `int(len * f0 / frequency)` samples |
| Shifting.PitchHandler.Process | source/pitch_handler.py:18-20 | detects once on the chunk and hands that chunk and its wave to `Handle`; a failing detector fails |
| Shifting.YinPitchShifter.Process | src/pitch_shifter.py:21-25 | detects with the default YIN detector and retunes with the getter (also source/pitch_shifter.py:22-26) |
| Shifting.NoPitchShiftsToEmpty | src/pitch_shifter.py:22-25 | no pitch with a non-zero target for 0 yields an empty chunk |
| Shifting.ShortChunkShiftsToEmpty | source/pitch_shifter.py:22-26 | a chunk of under four samples under a fixed non-zero target becomes empty |
| Shifting.FixedTargetLength | source/pitch_shifter.py:23-26 | under a fixed getter the target does not depend on the input and the output has `int(len * f0 / target)` samples |
| Pipelines.Stages | src/pipelines.py:12-13 | the chunks the loop hands on when no processor has state or raises: one more than there are processors, starting with the input, each the next processor applied to the one before |
| Pipelines.StagesAreFolds | src/pipelines.py:12-13 | stage `k` is the fold of the first `k` processors |
| Pipelines.FoldConcat | src/pipelines.py:11-14 | running one list of processors and then another is running their concatenation |
| Pipelines.FoldIsNested | src/pipelines.py:11-14 | the fold in insertion order is `p_n(...p_1(x))` |
| Pipelines.EmptyPipelineIsIdentity | src/pipelines.py:11-14 | an empty pipeline returns its input |
| Pipelines.Pass | src/pipelines.py:11-14 | one `process` call leaves one state per processor |
| Pipelines.PassStopsAtError | src/pipelines.py:12-13 | once a processor raises, the call fails with that error and the later processors keep their state |
| Pipelines.PassOfStatelessIsFold | src/pipelines.py:11-14 | with processors that have no state and never raise, a call changes no state and returns the fold in insertion order |
| Pipelines.RunAll | src/pipelines.py:16-18 | a run without an error yields one output per chunk, and a run with one yields fewer outputs than chunks; one state per processor remains |
| Pipelines.RunAllOutput | src/pipelines.py:16-18 | output `k` is what `process` returned for chunk `k`, called on the states the earlier chunks left, and those chunks all went through |
| Pipelines.RunAllFailure | src/pipelines.py:16-18 | a failed run stopped at the chunk after its last output: that chunk's call raised the error and left the final states |
| Pipelines.RunAllStopsAtError | src/pipelines.py:17-18 | no chunk is read after one raised: a longer source changes nothing |
| Pipelines.RunAllOfStatelessIsFold | src/pipelines.py:16-18 | with processors that have no state and never raise, a run fails never, changes no state, and output `k` is the fold over chunk `k` |
| Pipelines.AudioProcessingPipeline.constructor | src/pipelines.py:5-6 | a new pipeline has no processors (also source/pipelines.py:5-6) |
| Pipelines.AudioProcessingPipeline.AddProcessor | src/pipelines.py:8-9 | appends the processor and its state at the end, keeping the earlier processors in place |
| Pipelines.AudioProcessingPipeline.Process | src/pipelines.py:11-14 | returns `Pass`: each processor in insertion order updates its own state and hands its chunk on, and the first error ends the call (also source/pipelines.py:11-14) |
| Pipelines.AudioProcessingPipeline.Run | src/pipelines.py:16-18 | returns `RunAll`: the chunks in source order, each processed on the states the earlier ones left, until one raises |
| Streams.PullAt | src/base.py:37 | past its last answer the underlying iterable is exhausted |
| Streams.Step | src/base.py:29-41 | `__next__` as a function: a closed stream raises `StopIteration` and pulls nothing; otherwise one pull, a chunk becoming `current` and being returned, an end or interrupt closing the stream and being raised again; reachability is kept |
| Streams.ClosedStreamIsStuck | src/base.py:33-34 | a closed stream stays closed and raises `StopIteration` on every call |
| Streams.Terminal | src/base.py:43-46 | the first pull that is not a chunk |
| Streams.DrainStopsAtTerminal | src/base.py:43-49 | `run` ends closed right after the first non-chunk pull, raising `KeyboardInterrupt` for an interrupt and `StopIteration` for the end, with the last chunk as `current` |
| Streams.DrainOfClosedStream | src/base.py:43-46 | `run` on a closed stream raises `StopIteration` at once |
| Streams.AudioStream.State | src/base.py:8-14 | the part of the stream that `__next__` changes |
| Streams.AudioStream.constructor | shared/base.py:6-13 | a new stream is open, not closing, with no current chunk and no iterable (also src/base.py:8-14) |
| Streams.AudioStream.Close | src/base.py:20-21 | sets `is_closed` and nothing else; closing a closed stream changes nothing |
| Streams.AudioStream.StartClosing | src/base.py:23-24 | sets `is_closing` and nothing else |
| Streams.AudioStream.Next | src/base.py:29-41 | the state change and outcome are `Step`, and the iterable is created on the first call (also shared/base.py:28-40) |
| Streams.AudioStream.Run | src/base.py:43-49 | the loop's outcome and final state are `Drain` (also shared/base.py:42-48) |
| Streams.AudioStreamDecorator.constructor | shared/base.py:55-57 | the decorator wraps the stream and inherits its sample rate and chunk size |
| Streams.AudioStreamDecorator.Next | shared/base.py:59-61 | pulls once from the wrapped stream; returns `transform` of its chunk but keeps the untransformed chunk as `current`; an exception from the wrapped stream closes the decorator and is passed on; a closed decorator pulls nothing |
| Streams.AudioStreamDecorator.StartClosing | shared/base.py:63-65 | marks the wrapped stream and the decorator as closing, and changes nothing else |

## Left out

- `np.fft.rfft`, `np.fft.rfftfreq`'s floating-point evaluation, `abs` on complex numbers and `scipy.signal.resample` are foreign numerics. They are parameters with length, and for the modulus sign and norm, contracts only. What `resample` puts in the samples is not modelled.
- `scipy.signal.resample` with `num == 0` is taken to return an empty chunk.
- `LowPassFilter` and `BandPassFilterAudioProcessor` (src/window_managers.py) wrap scipy's `butter` and `lfilter`; they are not modelled.
- `calculate_frequency` uses a fractional power. It is a parameter of `Services.NoteFrequencies`, and only the table's size and keys are stated.
- Floating-point rounding, signed zeros and overflow are not modelled.
- The sample-level `int16` conversion of the output path is part of I/O.
- Not modelled: the I/O and threading files (microphone, WAV and noise input streams; device and WAV outputs), the command line of `auto_tune.py`, and the sine generator of src/services.py. They have no logic of their own.
- pitch_detection/fft.py, source/pitch_detectors.py and source/pitch_shifters.py are not part of this model.
  - The first two construct an `AudioOverlapProcessor` that source/window_managers.py does not define.
  - The third calls `resample_audio` without its `chunk_size`.
  - Their band and selection logic is that of source/analytics.py and source/frequency_extractor.py, which are modelled.
- `SimplePitchDetector` and `HarmonicPitchDetector` build an `FFTAnalyser` from pitch_detection/fft.py. Their selection steps are modelled with the analytics as input, by `Extractors.SimpleWaveID` and `Extractors.HarmonicFrequencyExtractor`.
- source/auto_tuner.py chains modelled parts and is not modelled itself.
- src/frequency_getters.py is not part of this model. The src shifter is modelled with the getters of source/frequency_getters.py.
- `get_running_average` is modelled for `window_size == len(diff)`, the only way `yin_pitch_detection` calls it.
- `__copy__`, `__del__` and `get_current` are Python mechanics or plain accessors.
- `AudioStream.iterable()` is abstract. The model gives the iterable as the sequence of answers it gives to successive pulls.
- A `KeyboardInterrupt` is modelled as one of those answers, so it arrives between pulls and not at an arbitrary moment.
- Remaining stream limitations:
  - `Streams.AudioStreamDecorator` wraps an `AudioStream`; a decorator around another decorator is not modelled.
  - The decorator's inherited `run` is not modelled apart from the stream's.
  - `transform` is a pure function of the chunk, so the mutable buffer of `IncreaseWindowSizeDecorator` is modelled by `Windows.AudioOverlapper.Concatenate` and not through the decorator.
  - `DecreaseWindowSizeDecorator` is the decorator with `Windows.DecreaseWindow` as its transform.
- Pipelines.AudioProcessingPipeline.Run: returns the processed chunks, which the source discards, and takes the source as a finite sequence of chunks rather than iterating a stream until it raises.
- Pipelines.AudioProcessingPipeline: each processor owns one state. One processor object added twice, or two processors sharing an object, is not modelled. An exception is an `Err` value and not a Python exception.
- Detectors.YinPitchDetector.ExtractBaseFrequency: a NaN or infinite pitch is an error here. The source builds a `WaveID` with that frequency, and the `int()` of every shifter raises on it later.
- Extractors.HarmonicWaveID: when no bin is anchored, the source indexes numpy arrays with `None`, which adds an axis instead of raising. The model reports `NoAnchoredBin` in that case. A zero chunk size is `ZeroDivision` here; numpy would yield an infinite or NaN amplitude. The same holds for Extractors.HarmonicFrequencyExtractor.ExtractWaveID, which calls it.
- Extractors.SimpleWaveID: a zero chunk size is `ZeroDivision` here. numpy would yield an infinite or NaN amplitude.
- Shifting.ShiftTo: a zero target is `ZeroDivision` here. The source raises in the division or in the `int()` of the infinite factor.
- Shifting.ShiftTo: a factor that asks for 0 samples gives an empty chunk because of the `resample` assumption; scipy may raise there instead. The same holds for the empty results stated by Shifting.NoPitchShiftsToEmpty and Shifting.ShortChunkShiftsToEmpty.
- Shifting.PitchHandler: the injected `stretch_algorithm` of source/pitch_handler.py:14-16 is fixed to `ResampleStretchAlgorithm`, the only implementation (source/audio_stretchers.py:13-15). Other stretch algorithms are not modelled.
- Analytics.CountBelow, Analytics.CountAtMost: they model `np.searchsorted` on the ascending axis a positive sample rate gives, which numpy requires. On the descending axis of a negative sample rate numpy's binary search returns a different index, and that is not modelled.
- Windows.Mono: only 1-D inputs and rectangular 2-D inputs are modelled, not arrays of more dimensions.
