# Calibration and smoothing of 8-beam LiDAR frames

This project models `calibrate_and_filter.py`, which calibrates and smooths each frame
from an 8-segment LiDAR:

- **Setup.** This runs once. The baseline samples, taken facing a flat surface, are
  averaged beam by beam. The average is then made symmetric over the mirrored pairs
  (0,7), (1,6), (2,5) and (3,4), where both beams of a pair take the pair's mean. Each
  beam's offset is its average minus the symmetric value. Eight moving-average windows of
  capacity 5 start out empty.
- **Per frame.** The offsets are subtracted from the raw readings. Interior beams 1..6
  then go through a spike filter, in place and left to right: a beam more than 0.1 away
  from the mean of its two neighbours is replaced by that mean. Each beam's filtered value
  is then pushed onto that beam's window, and the output for the beam is the window mean.

The module-level state of the source becomes one class, `CalibrationFilter`:

- `offsets` is a `const` field, set by the constructor and never changed.
- `windows` holds the eight deques as `seq<seq<real>>`.
- The ghost field `history` lists every filtered frame pushed so far.
- `Valid()` ties each window to the last five values of its own beam in `history`.

The outlier loop works on an `array<real>`. It is proved equal to `Filtered`, a
step-by-step function in which each step reads the frame as the earlier steps left it.

Distances are exact `real`s.

### The outlier filter works in place

The loop at calibrate_and_filter.py:41-45 overwrites `calibrated[i]` as it goes and
takes no copy of the frame first. So beam i is tested against beam i-1 as the previous
iteration left it, and against beam i+1 before that beam's own iteration. Filtering
beams from a copy taken before the loop would give different results on some frames.
The model follows the code.

- `FilteredAt` states this rule for every interior beam.
- `FilteredAdjacentSpikes` proves the in-place result on `[0,0,1,1,0,0,0,0]`: beam 1
  becomes 0.5, and beam 2 is tested against that 0.5 and becomes 0.75. Only the
  in-place result is proved. A filter reading the copy would test beam 2 against the
  original 0 on its left and give 0.5; the model has no such filter.
- `FilteredSingleSpike` proves what one spike does: `[1,1,1,5,1,1,1,1]` filters to
  `[1,1,3,2,1.5,1.25,1.125,1]`. Beam 2 sees the unfiltered spike as its right neighbour,
  and each replacement feeds the next test, so the spike spreads instead of being
  removed.

The code raises no errors of its own. The shapes it relies on are stated as
preconditions.

## Model

| member | source | states |
|---|---|---|
| `CalibrateAndFilter.AverageBaseline` | calibrate_and_filter.py:12-15 | returns 8 values; entry k is the arithmetic mean, over all baseline samples, of column k |
| `CalibrateAndFilter.ColumnSumStep` | calibrate_and_filter.py:15 | the column-k sum over the first n+1 samples is the sum over the first n plus sample n's beam k |
| `CalibrateAndFilter.PairsAreMirrored` | calibrate_and_filter.py:19 | the declared pairs are exactly (q, 7-q) for q = 0..3, so together they cover all 8 beams |
| `CalibrateAndFilter.Symmetrise` | calibrate_and_filter.py:17-22 | after the loop over the pairs, every beam k holds the mean of avg[k] and avg[7-k] (no beam keeps its own average), and both beams of each pair hold the same value |
| `CalibrateAndFilter.OffsetsAntisymmetric` | calibrate_and_filter.py:18-25 | offset[k] = avg[k] - sym[k] equals (avg[k] - avg[7-k]) / 2, and the two offsets of a pair sum to zero |
| `CalibrateAndFilter.CalibrationFilter.constructor` | calibrate_and_filter.py:7-29 | offsets are the column means minus the pair means, equal to half of each pair's difference and opposite within a pair; all 8 windows are empty and nothing has been pushed yet |
| `CalibrateAndFilter.FilterOutliers` | calibrate_and_filter.py:40-45 | the in-place loop leaves the array equal to the sequential left-to-right filter applied to its old contents |
| `CalibrateAndFilter.CalibrateFrame` | calibrate_and_filter.py:37-45 | offset subtraction followed by the in-place filter yields `Filtered` of `raw[k] - offsets[k]` |
| `CalibrateAndFilter.FilterThroughFrame` | calibrate_and_filter.py:41-45 | after the loop has visited beams 0..n-1, beams 0 and 7 and every beam from n on still hold their calibrated values |
| `CalibrateAndFilter.FilterThroughStable` | calibrate_and_filter.py:41-45 | later iterations of the loop never rewrite a beam an earlier iteration has passed |
| `CalibrateAndFilter.FilteredBoundary` | calibrate_and_filter.py:41-42 | beams 0 and 7 leave the filter unchanged, whatever their values |
| `CalibrateAndFilter.FilteredAt` | calibrate_and_filter.py:41-45 | for interior beam i, with na = 0.5 * (filtered[i-1] + calibrated[i+1]), the filtered value is na when the distance between calibrated[i] and na is above 0.1, and calibrated[i] otherwise |
| `CalibrateAndFilter.FilteredReplacedIff` | calibrate_and_filter.py:43-45 | interior beam i changes exactly when it is more than 0.1 from na, and afterwards lies within 0.1 of na |
| `CalibrateAndFilter.FilterThroughNoSpikes` | calibrate_and_filter.py:41-45 | if no interior beam is more than 0.1 from its neighbours' mean, every prefix of the loop leaves the frame unchanged |
| `CalibrateAndFilter.FilteredNoSpikes` | calibrate_and_filter.py:41-45 | a frame without spikes passes through the filter unchanged |
| `CalibrateAndFilter.FilteredSingleSpike` | calibrate_and_filter.py:41-45 | the frame [1,1,1,5,1,1,1,1] filters to [1,1,3,2,1.5,1.25,1.125,1]: the spike spreads to both sides |
| `CalibrateAndFilter.FilteredAdjacentSpikes` | calibrate_and_filter.py:41-45 | the frame [0,0,1,1,0,0,0,0] filters to [0,0.5,0.75,0.375,0.1875,0,0,0]; beam 2 reads the replaced beam 1 |
| `CalibrateAndFilter.Sum` | calibrate_and_filter.py:51 | the sum of the window's values, first to last (the numerator of `np.mean`); a window of non-negative distances has a non-negative sum |
| `CalibrateAndFilter.Mean` | calibrate_and_filter.py:51 | `np.mean` of a non-empty window: the mean times the window length is the window's sum, and a window of non-negative distances has a non-negative mean |
| `CalibrateAndFilter.Abs` | calibrate_and_filter.py:44 | `abs`: non-negative, and equal to x or -x |
| `CalibrateAndFilter.Calibrate` | calibrate_and_filter.py:38 | `raw - offsets`: 8 values, each of which plus its beam's offset gives back the raw reading |
| `CalibrateAndFilter.FilterStep` | calibrate_and_filter.py:43-45 | one iteration at interior beam i: every other beam is unchanged; beam i changes exactly when it is more than 0.1 from its neighbours' mean `0.5 * (c[i-1] + c[i+1])`, and afterwards lies within 0.1 of that mean |
| `CalibrateAndFilter.FilterThrough` | calibrate_and_filter.py:41-45 | the frame after the loop has run for beams 0..n-1, each iteration reading the frame as the earlier ones left it and only beams 1..6 tested; still 8 values |
| `CalibrateAndFilter.Filtered` | calibrate_and_filter.py:41-45 | the frame after the whole loop over the 8 beams; still 8 values (what it computes beam by beam is in the lemmas below) |
| `CalibrateAndFilter.Push` | calibrate_and_filter.py:50 | `append` on a `deque(maxlen=5)`: a full window drops its oldest value before appending; the new value is last, the kept values are the newest of the old window in order, and a window of at most 5 stays at most 5 |
| `CalibrateAndFilter.SumConstant` | calibrate_and_filter.py:51 | the sum of n copies of v is n * v |
| `CalibrateAndFilter.MeanConstant` | calibrate_and_filter.py:51 | the mean of a non-empty window holding only v is v |
| `CalibrateAndFilter.MeanSingleton` | calibrate_and_filter.py:51 | the mean of a one-value window is that value |
| `CalibrateAndFilter.ColumnAppend` | calibrate_and_filter.py:50 | appending a frame to the history appends exactly that frame's beam k to column k |
| `CalibrateAndFilter.PushLast` | calibrate_and_filter.py:28-29 | appending to a deque of maxlen 5 that holds the last 5 values of a history gives the last 5 values of the extended history, and the result never has more than 5 values |
| `CalibrateAndFilter.ConvergesAfterRepeats` | calibrate_and_filter.py:48-51 | once the last 5 frames all carry v on beam i, beam i's window mean is exactly v |
| `CalibrateAndFilter.OldestEvicted` | calibrate_and_filter.py:28-29 | with more than 5 frames pushed, the oldest frame no longer affects any window |
| `CalibrateAndFilter.WindowsOfPush` | calibrate_and_filter.py:48-50 | pushing each beam of a frame onto its own window keeps every window equal to the last 5 values of its beam over the extended history, with at most 5 values |
| `CalibrateAndFilter.CalibrationFilter.Process` | calibrate_and_filter.py:31-53 | the filtered frame `Filtered(raw - offsets)` is appended to the history; each window gets its own beam's value, with eviction when full, and keeps at most 5 values; the output has 8 values, each the mean of its beam's window, that is, of the last min(5, calls) filtered values; on the first call the output is the filtered frame itself |

## Left out

- `Calibrated.py` is not part of this model. It holds the vendor SDK connection and
  callbacks, ROS point-cloud publishing, the RViz launch and debug printing. Its one fact
  that concerns the core is that frames reach `calibrate_and_filter` only when exactly 8
  segments were detected (Calibrated.py:24). This becomes the precondition
  `|raw| == Beams` of `Process`.
- `Sample.py` is not part of this model. It does serial-port reading, CSV writing and
  timed sampling.
- CalibrateAndFilter.CalibrationFilter.Process: requires exactly 8 readings. It does not model numpy
  broadcasting on other lengths: a 1-element frame would be spread over all beams, and
  other lengths raise an error. The only caller never passes such frames.
- CalibrateAndFilter.CalibrationFilter.constructor: requires a non-empty baseline of 8-value samples. It does
  not model numpy's NaN mean of an empty baseline or its error on ragged rows.
- The example baseline values and the demo frame (calibrate_and_filter.py:7-11 and 56-60)
  are left out. They are float literals whose exact-real average differs from numpy's
  rounded one. The demo's point, that the first call returns the filtered frame, is an
  `ensures` of `Process`. The demo's `print` is I/O.
- IEEE-754 rounding: the model computes with exact reals. Float rounding could flip a
  comparison against the 0.1 threshold that lies within rounding error, and in floats the
  paired offsets cancel only approximately.
- Concurrency: the SDK calls the callback from its data thread. The model assumes that
  calls to `Process` come one after another.
