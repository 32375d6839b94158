# AudioMark runner and keyword-spotting conformance test, in Dafny

This project models two programs of the AudioMark benchmark.

- **The runner** (`main.c`). It initialises the audio pipeline. It then
  calibrates an iteration count: it doubles the count (a `uint32_t`, starting
  at 1) and times that many runs, until one timed span reaches 1e6
  microseconds. Next it scales the count so that the measurement lasts about
  11 seconds, with at least 10 iterations. It times that many runs, turns the
  count and the span into a score, and releases the pipeline. Every run
  failure ends the program with -1.
- **The keyword-spotting conformance test** (`tests/test_kws.c`). It feeds 93
  audio frames to the network. Each frame that completes an inference is
  paired with the next row of a 73-row golden table. A pair where both rows
  are all negative is noise. Every other pair is scored: each row's 12 int8
  class scores are shifted into probabilities, and the two probability rows
  are compared by their Jensen-Shannon divergence. The divergences are
  summed, maximised, and counted against a per-row threshold. A verdict then
  applies five checks: some inferences, exactly 73 inferences, maximum, share
  of violations, and mean.

## How it is modelled

The modules are:

- `CTypes` (`c_types.dfy`): the C types `uint32_t` and `uint64_t` as
  ranges of integers.
- `Float32` (`float32.dfy`): float32 values as exact reals plus +inf, -inf
  and NaN. Addition, multiplication, division and the comparisons follow
  IEEE 754 for the non-finite values, so NaN compares false.
- `KwsRows` (`kws_rows.dfy`): the rows, the normalisation, and the noise test.
- `KwsDivergence` (`kws_divergence.dfy`): the divergence. The base-2
  logarithm is a parameter, so every property holds whatever it is.
- `KwsValidator` (`kws_validator.dfy`): the frame loop and the verdict.
- `AudioMarkRunner` (`audiomark_runner.dfy`): the runner.

The specification functions and the methods that follow them:

- `Run` (a fold of `Step` over the frames) and `Judge` specify the test.
  `Validate` is the imperative loop, proved equal to
  `Judge(Run(frames, golden, log2))`.
- `Jsd` and `Normalized` specify the two numeric helpers. `JensenShannon`
  and `NormalizeQ8` are the loops over arrays.
- In the runner, a `Platform` object stands for the pipeline and the clock.
  It holds the sequence of clock readings, which run calls fail, and whether
  initialisation fails. It counts how many of each the runner consumes.
- Every runner method states its new counters and results in terms of those
  sequences.
- `Calibrated` describes how calibration ended: the passes it took, the
  last count and span, and the run calls it made.
- `CalibrationEnded` describes the calibration of the whole benchmark for
  each outcome: the passes, all but the last short, and the count and span
  of the last pass, which was long unless calibration failed. Together with
  `RunsMade` it fixes the number of passes (`FirstLongPassUnique`).
- `RunsMade` describes the run calls of the whole benchmark for each
  outcome: how many there were, and that all but a final failing one
  succeeded.
- `Completed` describes a scored run: how many calibration passes it took,
  the calibrated count and span, the scaled count, the measured span, and
  the score.

Deliberate choices in the model:

- The test is modelled as its comments intend: a signed noise test, and the
  golden row read only on inference frames while rows remain. The test as
  written differs in both respects; see "## Findings".
- A row of all -128 has sum 0. Its reciprocal is +inf, so every
  probability is 0 × inf = NaN, and so is the divergence. A NaN divergence
  never raises the maximum or the violation count. It makes the sum and the
  mean NaN, so the mean check can no longer fire. This behaviour is
  modelled and proved.
- The calibration loop's exit test `dt < 1e6f` converts `dt` to float. The
  conversion is exact below 2^24 and 1e6 is representable, so the model
  compares integers.
- Calibration terminates only if some pass stops it: a pass that is long
  enough, or one in which a run fails. This is the precondition
  `exists k :: StoppingPass(...)` of `Calibrate` and `Benchmark`.
  `AudioMarkMain` needs it only when initialisation succeeds, since a failed
  initialisation returns before calibrating. It holds, for instance,
  whenever the very first run fails (`FirstRunFailureStops`).
- The score formula multiplies by 1/1.5. A pipeline that runs exactly at
  the pace of the audio therefore scores 4000/9 ≈ 444.4, not 1000
  (`ScoreAtRealTimePace`). The comment at `main.c:134-139` reads as if such
  a pipeline scores 1000. The model follows the code.

## Model

| member | source | states |
|---|---|---|
| KwsRows.RowSum | tests/test_kws.c:75-80 | The shifted sum of a row (each entry + 128) lies in [0, 255 × length]. |
| KwsRows.RowSumZeroIff | tests/test_kws.c:75-82 | The shifted sum is 0 exactly when every entry is -128; this is the case in which `1.0f / sum` divides by zero. |
| KwsRows.NormalizeQ8 | tests/test_kws.c:73-85 | After the two loops, the output array holds each shifted entry times the float reciprocal of the shifted sum, i.e. `Normalized(row)`. |
| KwsRows.NormalizedIsDistribution | tests/test_kws.c:72-85 | With a positive sum, every normalised entry is a number in [0, 1] and the entries total exactly 1. This is the promise of the comment on line 72. |
| KwsRows.NormalizedDegenerate | tests/test_kws.c:82-84 | With sum 0, every normalised entry is NaN (0 × +inf). |
| KwsRows.NotSilentHasPositiveSum | tests/test_kws.c:131-147 | A row with a nonnegative score has shifted sum at least 128, so a non-noise row normalises to a distribution. |
| KwsRows.NoiseCheck | tests/test_kws.c:131-147 | The maxima start at -127 and take in all 12 entries of each row. The test says noise exactly when both rows are all negative (`IsNoise`). |
| KwsRows.NoiseCheckAsWritten | tests/test_kws.c:132-139 | With `uint32_t` maxima (declared on lines 98-99), the test `A < 0 && B < 0` never holds: no frame is ever noise. |
| KwsRows.AllNegativePairIsNoise | tests/test_kws.c:139-146 | A pair of all -1 rows is noise for the signed test. It is the witness that the unsigned test diverges from it. |
| KwsDivergence.Floored | tests/test_kws.c:62-63 | An entry that compares <= 0 becomes EPS; a positive entry is kept; NaN stays NaN; a floored number is positive. |
| KwsDivergence.LogArgumentsPositive | tests/test_kws.c:62-66 | Every argument given to log2f (p, q and their mean m) is positive. |
| KwsDivergence.JensenShannon | tests/test_kws.c:56-70 | The loop over the two arrays returns `Jsd(P, Q, log2)`: the half-terms of each entry added to the running total in order. |
| KwsDivergence.JsdPrefixSymmetric | tests/test_kws.c:59-68 | After any number of entries, the running total for (P, Q) equals the one for (Q, P). |
| KwsDivergence.JsdSymmetric | tests/test_kws.c:56-70 | The divergence is symmetric. |
| KwsDivergence.JsdPrefixSelf | tests/test_kws.c:59-68 | Comparing a row of numbers with itself adds only zero terms: every prefix total is 0. |
| KwsDivergence.JsdSelfIsZero | tests/test_kws.c:56-70 | A row of numbers has divergence exactly 0 from itself. |
| KwsDivergence.JsdPrefixNaN | tests/test_kws.c:59-68 | Once a NaN entry has been added, the running total stays NaN. |
| KwsDivergence.JsdNaN | tests/test_kws.c:56-70 | A NaN entry in either row makes the divergence NaN. |
| KwsValidator.CountInferences | tests/test_kws.c:124-127 | The number of frames that complete an inference is at most the number of frames. |
| KwsValidator.ScoreFrame | tests/test_kws.c:131-170 | One pass of the loop body yields `Step`. A frame without an inference changes nothing. An inference frame advances the counter and the cursor together. It is scored against the golden row under the cursor unless both rows are noise or the table is used up. A scored frame adds to the sum, raises the maximum when it compares greater, and counts as a violation when it compares greater than ROW_JSD_THRESH. |
| KwsValidator.Verdict | tests/test_kws.c:173-211 | The verdict is `Judge`: 0/0 gives NaN, and each check that fires appends its failure in order. The exit code is -1 exactly when some check failed. |
| KwsValidator.Validate | tests/test_kws.c:124-211 | Over the 93 frames and 73 golden rows, the result is `Judge(Run(frames, golden, log2))`. The reported inference count is the number of inference frames. The exit code is -1 exactly when the failure list is nonempty. |
| KwsValidator.RunCursor | tests/test_kws.c:141-145 | After any prefix of frames, the inference counter and the golden cursor both equal the number of inference frames. So the k-th inference is compared with golden row k, noise or not (lines 141-145, 153, 168). |
| KwsValidator.NoiseFrameConsumesRow | tests/test_kws.c:139-146 | A noise inference frame counts as an inference and consumes its golden row but leaves the sum, maximum and violations unchanged. |
| KwsValidator.ViolationsBounded | tests/test_kws.c:161-166 | The violation count never exceeds the inference count, so the violation ratio is at most 1 when there are inferences. |
| KwsValidator.MaxDominates | tests/test_kws.c:162-163 | The recorded maximum is a number or +inf and at least 0. No scored divergence compares greater than it. |
| KwsValidator.MaxIsAScore | tests/test_kws.c:162-163 | The recorded maximum is its initial 0 (line 105) or one of the scored divergences. |
| KwsValidator.CountMismatchFails | tests/test_kws.c:173-183 | A run without exactly 73 inferences fails with CountMismatch and exit code -1; a run with no inference also reports NoInferences. |
| KwsValidator.LargeDivergenceFails | tests/test_kws.c:191-196 | Any single scored divergence above MAX_JSD_THRESH fails the run on the divergence check, whatever the other rows score. |
| KwsValidator.NaNSumPersists | tests/test_kws.c:161 | Once a scored divergence is NaN, the sum is NaN at the end of the run. |
| KwsValidator.NaNSilencesMean | tests/test_kws.c:188-198 | A NaN divergence makes the mean NaN, and then the mean check cannot fire. |
| KwsValidator.DegenerateRowGivesNaN | tests/test_kws.c:157-159 | A scored frame whose produced or golden row is all -128 has a NaN divergence. |
| KwsValidator.IdenticalRowScoresZero | tests/test_kws.c:157-159 | A scored frame whose produced row equals its golden row has divergence exactly 0. |
| KwsValidator.IdenticalRowsScoreZero | tests/test_kws.c:161-166 | If every inference's produced row equals its golden row, the sum, the maximum and the violation count end at 0. |
| KwsValidator.IdenticalRowsPass | tests/test_kws.c:173-211 | Produced rows equal to the golden rows over exactly 73 inferences pass: no failure, exit code 0, mean, maximum and violations 0. |
| KwsValidator.AsWrittenReadsInBoundsIff | tests/test_kws.c:133 | As written, the golden row under the cursor is read on every frame. All those reads stay inside the table exactly when the frames before the last complete fewer than 73 inferences. |
| KwsValidator.PassingRunReadsPastTable | tests/test_kws.c:133 | A run with exactly 73 inferences whose last frame completes none reads row 73 of a 73-row table, as written. |
| AudioMarkRunner.Platform.Microseconds | main.c:73 | Each clock reading returns the next reading of the clock sequence and consumes it. |
| AudioMarkRunner.Platform.Run | main.c:76 | Each run call returns whether the next run fails and consumes it. |
| AudioMarkRunner.Platform.Initialize | main.c:96 | Initialisation returns whether it fails and is counted. |
| AudioMarkRunner.Platform.Release | main.c:147 | Release is counted. |
| AudioMarkRunner.Elapsed | main.c:83 | `t1 - t0` in `uint64_t`: the true difference when the clock did not go back, the difference plus 2^64 when it did. |
| AudioMarkRunner.TimeAudiomarkRun | main.c:66-85 | Two clock readings are consumed and dt is their `uint64_t` difference. Without failure, exactly `iterations` runs are made and all succeed. With a failure, the runs stop at the first failing one, and every earlier run succeeded. |
| AudioMarkRunner.DoubledCountBelow32 | main.c:104-106 | After k < 32 doublings of 1 the `uint32_t` count is 2^k. |
| AudioMarkRunner.DoubledCountFrom32 | main.c:106 | From the 32nd doubling on, the `uint32_t` count is 0. |
| AudioMarkRunner.CalibrationRunsBelow32 | main.c:104-108 | The first n ≤ 31 calibration passes make 2 + 4 + … + 2^n = 2^(n+1) - 2 runs when none fails. |
| AudioMarkRunner.CalibrationRunsFrom31 | main.c:104-108 | From pass 31 on, calibration has made 2^32 - 2 runs and makes no more: the wrapped count is 0. |
| AudioMarkRunner.FirstRunFailureStops | main.c:107-111 | If the first run fails, the first calibration pass stops the search, whatever the clock shows. |
| AudioMarkRunner.LatePassesNeverFail | main.c:104-112 | From the 32nd pass on, no pass can stop the search by failing, since it makes no run; only a long span can. |
| AudioMarkRunner.CalibrationPass | main.c:106-112 | One pass doubles the count to `DoubledCount(k + 1)` and times that many runs in two clock readings. A failing or long pass ends the search in the state `Calibrated` describes. Any other pass leaves the state of k + 1 short passes whose `CalibrationRuns(k + 1)` runs all succeeded, and is not the pass that stops the search. |
| AudioMarkRunner.Calibrate | main.c:104-112 | The result satisfies `Calibrated`. The loop makes `passes` ≥ 1 passes and ends with count `DoubledCount(passes)`. It consumes two clock readings per pass, and dt is the span of the last pass. Every earlier pass was short. On success the last span is at least 1e6 µs, and exactly `CalibrationRuns(passes)` runs were made, all of which succeeded. On failure the runs stop at the first failing one, inside the last pass: more than `CalibrationRuns(passes) - iterations` runs and at most `CalibrationRuns(passes)`. |
| AudioMarkRunner.QuotientBounds | main.c:121-122 | The integer quotient q of n by d is the one with q·d ≤ n < q·d + d. |
| AudioMarkRunner.ScaledCountTruncatesProduct | main.c:121-122 | The integer quotient of count × 11e6 by dt is the truncation of count × (11e6 / dt). The scaled `uint32_t` count is that truncation modulo 2^32. |
| AudioMarkRunner.ScaleIterations | main.c:121-123 | The scaled count, raised to 10 when it is below, is `MeasurementCount(calibrated, dt)`. |
| AudioMarkRunner.MeasurementCountBounds | main.c:120-123 | After a calibration span of at least 1e6 µs, the scaled count is at most 11 × the calibrated count. When that bound fits in `uint32_t`, the measurement count lies between 10 and the larger of 10 and that bound. |
| AudioMarkRunner.ComputeScore | main.c:140-141 | The float operations `sec = dt / 1e6; iterations / sec * 1000 * (1 / 1.5)` give `Score(iterations, dt)`. A zero span gives +inf, or NaN with no iteration. |
| AudioMarkRunner.ScoreLinearInIterations | main.c:140-141 | Over the same span, the score is additive in the iteration count. |
| AudioMarkRunner.ScoreInverseInTime | main.c:140-141 | Stretching the span by a factor c divides the score by c. |
| AudioMarkRunner.ScoreAtRealTimePace | main.c:134-141 | One iteration per 1.5 s (the pace of the audio stream) scores exactly 4000/9. |
| AudioMarkRunner.Measure | main.c:121-132 | The count is scaled to `MeasurementCount` (at least 10) and timed in one span of two clock readings. On success all those runs are made and succeed, and the outcome carries the count, the span and its `Score`. On failure at least one and at most `MeasurementCount` runs were made; the last failed and every earlier one succeeded. |
| AudioMarkRunner.FirstLongPassUnique | main.c:104-112 | Two pass counts that both end on a long pass after only short ones are equal: a calibration that did not fail stops at the first long pass. |
| AudioMarkRunner.BenchmarkRuns | main.c:104-132 | A calibration ending as `Calibrated` says, followed by the measurement, gives the run calls of `RunsMade` and the calibration of `CalibrationEnded`. |
| AudioMarkRunner.Benchmark | main.c:104-141 | Calibration then measurement. A calibration failure skips the measurement and its two clock readings. For every outcome the calibration satisfies `CalibrationEnded`: `passes` ≥ 1 passes, all but the last short, the count `DoubledCount(passes)` and the span of the last pass, at least 1e6 µs unless calibration failed. The run calls satisfy `RunsMade`: a scored run made `CalibrationRuns(passes)` + its measured count runs, all successful; a failure stopped at the first failing run, inside the last calibration pass or inside the measurement. A scored outcome is `Completed`: the calibrated count and span, the scaled count, the measured span right after, and the score. |
| AudioMarkRunner.AudioMarkMain | main.c:87-149 | Initialisation failure returns -1, with no release, run or clock reading. Every other path releases once. The exit code is 0 exactly when the run is scored. A scored run satisfies `Completed` and has consumed 2 × passes + 2 clock readings. Every outcome after initialisation satisfies `CalibrationEnded` and `RunsMade`: all passes but the last are short, the last is long unless calibration failed, and the runs stop at the first failing run. The traces need a stopping calibration pass only when initialisation succeeds. |

## Left out

- The audio pipeline (`ee_audiomark_initialize`, `ee_audiomark_run`, `ee_audiomark_release`) and the network (`ee_kws_f32`) are not modelled. Their results are inputs: the `Platform` sequences for the runner, and the frames (class row and new-inference flag) for the test.
- `th_microseconds` is not modelled. Its readings are an arbitrary sequence of `uint64_t` values, and the runner consumes them in order.
- `log2f` is a parameter of the divergence. Its numerics are not modelled, so the claim on line 55 that the result lies in [0, 1] is not proved.
- Float32 rounding is not modelled: finite values are exact reals. Signed zero is not modelled.
- AudioMarkRunner.ScaleIterations: the float products `11e6f / dt` and `(float)iterations * scale` are exact reals. Above 2^24 a float cannot represent every integer, and rounding is not captured.
- AudioMarkRunner.ScaledCount: the conversion of an out-of-range float to `uint32_t` is undefined in C. The model reduces it modulo 2^32.
- AudioMarkRunner.Calibrate: termination relies on the precondition that some calibration pass stops the search, by a long span or a failing run. With a clock that never shows such a span and runs that never fail, the program runs forever; the 32nd doubling wraps the count to 0, and the passes then time no runs (`LatePassesNeverFail`). Such inputs are outside the model.
- Logging (`AUDIOMARK_LOG_*`, `printf`), `memcpy` of the input frames, `malloc` of the network memory and its failure path (`tests/test_kws.c:110-115`), and the XDAIS buffer setup are not modelled.

## Findings

| source | as written | input that shows it | evidently intended | confidence | as-written member | corrected member |
|---|---|---|---|---|---|---|
| tests/test_kws.c:132-139 | The maxima `A` and `B` are declared `uint32_t` (lines 98-99), so `A < 0 && B < 0` never holds. The noise skip is dead, and every inference frame is scored. | Produced and golden rows of all -1: the comment calls the pair noise, but the test scores it. | Signed maxima: the frame is noise when both rows are all negative. | not executed | KwsRows.NoiseCheckAsWritten | KwsRows.NoiseCheck |
| tests/test_kws.c:133 | `p_expected[idx_check]` is read on every frame, before the inference flag is checked. After the 73rd inference, every later frame reads row 73 of a 73-row table. | 93 frames with exactly 73 inferences, the last frame completing none (the expected passing run when the last inference falls before frame 93). | Read the golden row only on inference frames while rows remain. | not executed | KwsValidator.PassingRunReadsPastTable | KwsValidator.Validate |
