/** Per-beam calibration and smoothing of 8-beam LiDAR distance frames.
    Distances are exact reals; the source computes in IEEE-754 doubles. */
module CalibrateAndFilter {

  /** Number of beams in a frame. */
  const Beams: nat := 8
  /** Capacity of each beam's moving-average window. */
  const WindowSize: nat := 5
  /** A beam further than this from its neighbours' mean is a spike. */
  const Threshold: real := 0.1
  /** The mirrored beam pairs that a flat target lights up alike. */
  const Pairs: seq<(nat, nat)> := [(0, 7), (1, 6), (2, 5), (3, 4)]

  /** The beam opposite beam k across the sensor's axis of symmetry. */
  function Mirror(k: nat): (m: nat)
    requires k < Beams
    ensures m < Beams
  {
    Beams - 1 - k
  }

  lemma PairsAreMirrored()
    ensures forall q :: 0 <= q < |Pairs| ==> Pairs[q].0 == q && Pairs[q].1 == Mirror(q)
  {
  }

  // ---------------------------------------------------------------------------
  // Arithmetic helpers

  function Abs(x: real): (r: real)
    ensures r >= 0.0 && (r == x || r == -x)
  {
    if x < 0.0 then -x else x
  }

  /** Sum of a sequence, adding the elements from the first to the last. */
  function Sum(s: seq<real>): (r: real)
    ensures (forall k :: 0 <= k < |s| ==> s[k] >= 0.0) ==> r >= 0.0
  {
    if s == [] then 0.0 else Sum(s[..|s| - 1]) + s[|s| - 1]
  }

  /** Arithmetic mean, as numpy's mean computes it on a non-empty array. */
  function Mean(s: seq<real>): (r: real)
    requires |s| > 0
    ensures r * |s| as real == Sum(s)
    ensures (forall k :: 0 <= k < |s| ==> s[k] >= 0.0) ==> r >= 0.0
  {
    Sum(s) / |s| as real
  }

  lemma {:induction false} SumAppend(s: seq<real>, x: real)
    ensures Sum(s + [x]) == Sum(s) + x
  {
  }

  lemma {:induction false} SumConstant(s: seq<real>, v: real)
    requires forall k :: 0 <= k < |s| ==> s[k] == v
    ensures Sum(s) == |s| as real * v
  {
    if s != [] {
      SumConstant(s[..|s| - 1], v);
    }
  }

  /** The mean of a window holding one value repeated is that value. */
  lemma MeanConstant(s: seq<real>, v: real)
    requires |s| > 0
    requires forall k :: 0 <= k < |s| ==> s[k] == v
    ensures Mean(s) == v
  {
    SumConstant(s, v);
  }

  lemma MeanSingleton(x: real)
    ensures Mean([x]) == x
  {
    MeanConstant([x], x);
  }

  // ---------------------------------------------------------------------------
  // Frames and columns

  /** Every row is a frame of exactly Beams distances. */
  ghost predicate IsFrames(rows: seq<seq<real>>)
  {
    forall n :: 0 <= n < |rows| ==> |rows[n]| == Beams
  }

  /** The readings of beam k across all rows, in row order. */
  function Column(rows: seq<seq<real>>, k: nat): (col: seq<real>)
    requires forall n :: 0 <= n < |rows| ==> k < |rows[n]|
    ensures |col| == |rows|
    ensures forall n :: 0 <= n < |rows| ==> col[n] == rows[n][k]
  {
    seq(|rows|, n requires 0 <= n < |rows| => rows[n][k])
  }

  lemma ColumnAppend(rows: seq<seq<real>>, row: seq<real>, k: nat)
    requires forall n :: 0 <= n < |rows| ==> k < |rows[n]|
    requires k < |row|
    ensures Column(rows + [row], k) == Column(rows, k) + [row[k]]
  {
  }

  /** Taking one more sample adds that sample's beam k to the column sum. */
  lemma ColumnSumStep(samples: seq<seq<real>>, n: nat, k: nat)
    requires IsFrames(samples) && n < |samples| && k < Beams
    ensures Sum(Column(samples[..n + 1], k)) == Sum(Column(samples[..n], k)) + samples[n][k]
  {
    assert samples[..n + 1] == samples[..n] + [samples[n]];
    ColumnAppend(samples[..n], samples[n], k);
    SumAppend(Column(samples[..n], k), samples[n][k]);
  }

  // ---------------------------------------------------------------------------
  // Setup: baseline average, symmetrisation, offsets

  /** Column-wise average of the baseline samples, as `mean(axis=0)` gives it:
      the column sums are accumulated sample by sample, then divided. */
  method AverageBaseline(samples: seq<seq<real>>) returns (avg: seq<real>)
    requires |samples| > 0 && IsFrames(samples)
    ensures |avg| == Beams
    ensures forall k :: 0 <= k < Beams ==> avg[k] == Mean(Column(samples, k))
  {
    var sums: seq<real> := seq(Beams, _ => 0.0);
    for n := 0 to |samples|
      invariant |sums| == Beams
      invariant forall k :: 0 <= k < Beams ==> sums[k] == Sum(Column(samples[..n], k))
    {
      var row := samples[n];
      var prev := sums;
      sums := seq(Beams, k requires 0 <= k < Beams => prev[k] + row[k]);
      forall k | 0 <= k < Beams
        ensures sums[k] == Sum(Column(samples[..n + 1], k))
      {
        ColumnSumStep(samples, n, k);
      }
    }
    assert samples[..|samples|] == samples;
    avg := seq(Beams, k requires 0 <= k < Beams => sums[k] / |samples| as real);
  }

  /** Both beams of every pair take the mean of the pair's two averages.
      The pairs cover all beams, so no entry keeps its average. */
  method Symmetrise(avg: seq<real>) returns (sym: seq<real>)
    requires |avg| == Beams
    ensures |sym| == Beams
    ensures forall k :: 0 <= k < Beams ==> sym[k] == (avg[k] + avg[Mirror(k)]) / 2.0
    ensures forall k :: 0 <= k < Beams ==> sym[k] == sym[Mirror(k)]
  {
    PairsAreMirrored();
    sym := avg;
    for p := 0 to |Pairs|
      invariant |sym| == Beams
      invariant forall k :: 0 <= k < Beams ==>
        sym[k] == if k < p || Mirror(k) < p then (avg[k] + avg[Mirror(k)]) / 2.0 else avg[k]
    {
      var (i, j) := Pairs[p];
      var meanVal := (avg[i] + avg[j]) / 2.0;
      sym := sym[i := meanVal][j := meanVal];
    }
  }

  /** Offsets of a mirrored pair are opposite: half the difference of the pair's averages. */
  lemma OffsetsAntisymmetric(avg: seq<real>, sym: seq<real>, k: nat)
    requires |avg| == Beams && |sym| == Beams && k < Beams
    requires forall m :: 0 <= m < Beams ==> sym[m] == (avg[m] + avg[Mirror(m)]) / 2.0
    ensures avg[k] - sym[k] == (avg[k] - avg[Mirror(k)]) / 2.0
    ensures (avg[k] - sym[k]) + (avg[Mirror(k)] - sym[Mirror(k)]) == 0.0
  {
  }

  // ---------------------------------------------------------------------------
  // Per-frame calibration and outlier filter

  /** Raw frame minus the per-beam offsets. */
  function Calibrate(raw: seq<real>, offsets: seq<real>): (c: seq<real>)
    requires |raw| == Beams && |offsets| == Beams
    ensures |c| == Beams
    ensures forall k :: 0 <= k < Beams ==> c[k] + offsets[k] == raw[k]
  {
    seq(Beams, k requires 0 <= k < Beams => raw[k] - offsets[k])
  }

  /** One step of the outlier filter at interior beam i: replace it by its
      neighbours' mean when it is more than Threshold away from that mean. */
  function FilterStep(c: seq<real>, i: nat): (r: seq<real>)
    requires |c| == Beams && 0 < i < Beams - 1
    ensures |r| == Beams
    ensures forall k :: 0 <= k < Beams && k != i ==> r[k] == c[k]
    ensures r[i] != c[i] <==> Abs(c[i] - 0.5 * (c[i - 1] + c[i + 1])) > Threshold
    ensures Abs(r[i] - 0.5 * (c[i - 1] + c[i + 1])) <= Threshold
  {
    var neighbourAvg := 0.5 * (c[i - 1] + c[i + 1]);
    if Abs(c[i] - neighbourAvg) > Threshold then c[i := neighbourAvg] else c
  }

  /** The frame after the filter loop has visited beams 0 .. n-1, each step
      reading the frame as the previous steps left it. */
  function FilterThrough(c: seq<real>, n: nat): (r: seq<real>)
    requires |c| == Beams && n <= Beams
    ensures |r| == Beams
  {
    if n == 0 then c
    else
      var d := FilterThrough(c, n - 1);
      if 0 < n - 1 < Beams - 1 then FilterStep(d, n - 1) else d
  }

  /** The frame after the whole filter loop. */
  function Filtered(c: seq<real>): (r: seq<real>)
    requires |c| == Beams
    ensures |r| == Beams
  {
    FilterThrough(c, Beams)
  }

  /** The first n steps touch only the interior beams below n. */
  lemma {:induction false} FilterThroughFrame(c: seq<real>, n: nat)
    requires |c| == Beams && n <= Beams
    ensures |FilterThrough(c, n)| == Beams
    ensures forall k :: 0 <= k < Beams && (k == 0 || k >= n || k == Beams - 1) ==>
      FilterThrough(c, n)[k] == c[k]
  {
    if n > 0 {
      FilterThroughFrame(c, n - 1);
    }
  }

  /** Steps after the n-th never rewrite beams below n. */
  lemma {:induction false} FilterThroughStable(c: seq<real>, n: nat, m: nat)
    requires |c| == Beams && n <= m <= Beams
    ensures |FilterThrough(c, n)| == |FilterThrough(c, m)| == Beams
    ensures forall k :: 0 <= k < n ==> FilterThrough(c, m)[k] == FilterThrough(c, n)[k]
  {
    FilterThroughFrame(c, n);
    FilterThroughFrame(c, m);
    if n < m {
      FilterThroughStable(c, n, m - 1);
    }
  }

  /** Boundary beams leave the filter unchanged, whatever their magnitude. */
  lemma FilteredBoundary(c: seq<real>)
    requires |c| == Beams
    ensures |Filtered(c)| == Beams
    ensures Filtered(c)[0] == c[0] && Filtered(c)[Beams - 1] == c[Beams - 1]
  {
    FilterThroughFrame(c, Beams);
  }

  /** The sequential filter at interior beam i: the test uses the already
      filtered left neighbour and the still unfiltered right neighbour. */
  lemma FilteredAt(c: seq<real>, i: nat)
    requires |c| == Beams && 0 < i < Beams - 1
    ensures |Filtered(c)| == Beams
    ensures var neighbourAvg := 0.5 * (Filtered(c)[i - 1] + c[i + 1]);
      Filtered(c)[i] == if Abs(c[i] - neighbourAvg) > Threshold then neighbourAvg else c[i]
  {
    var before := FilterThrough(c, i);
    FilterThroughFrame(c, i);
    FilterThroughStable(c, i, Beams);
    FilterThroughStable(c, i + 1, Beams);
    assert FilterThrough(c, i + 1) == FilterStep(before, i);
  }

  /** Beam i is replaced exactly when it lies beyond Threshold of its neighbours' mean,
      and after the filter it lies within Threshold of that mean. */
  lemma FilteredReplacedIff(c: seq<real>, i: nat)
    requires |c| == Beams && 0 < i < Beams - 1
    ensures |Filtered(c)| == Beams
    ensures var neighbourAvg := 0.5 * (Filtered(c)[i - 1] + c[i + 1]);
      && (Filtered(c)[i] != c[i] <==> Abs(c[i] - neighbourAvg) > Threshold)
      && Abs(Filtered(c)[i] - neighbourAvg) <= Threshold
  {
    FilteredAt(c, i);
  }

  /** No interior beam of c is a spike. */
  ghost predicate NoSpikes(c: seq<real>)
    requires |c| == Beams
  {
    forall i :: 0 < i < Beams - 1 ==> Abs(c[i] - 0.5 * (c[i - 1] + c[i + 1])) <= Threshold
  }

  lemma {:induction false} FilterThroughNoSpikes(c: seq<real>, n: nat)
    requires |c| == Beams && n <= Beams && NoSpikes(c)
    ensures FilterThrough(c, n) == c
  {
    if n > 0 {
      FilterThroughNoSpikes(c, n - 1);
    }
  }

  /** A frame without spikes passes through the filter unchanged. */
  lemma FilteredNoSpikes(c: seq<real>)
    requires |c| == Beams && NoSpikes(c)
    ensures Filtered(c) == c
  {
    FilterThroughNoSpikes(c, Beams);
  }

  /** A single spike at beam 3 is already seen by beam 2 as its unfiltered right
      neighbour, and every replacement feeds the next test: the spike spreads. */
  lemma FilteredSingleSpike()
    ensures Filtered([1.0, 1.0, 1.0, 5.0, 1.0, 1.0, 1.0, 1.0])
         == [1.0, 1.0, 3.0, 2.0, 1.5, 1.25, 1.125, 1.0]
  {
    var c := [1.0, 1.0, 1.0, 5.0, 1.0, 1.0, 1.0, 1.0];
    assert FilterThrough(c, 2) == c;
    assert FilterThrough(c, 3) == [1.0, 1.0, 3.0, 5.0, 1.0, 1.0, 1.0, 1.0];
    assert FilterThrough(c, 4) == [1.0, 1.0, 3.0, 2.0, 1.0, 1.0, 1.0, 1.0];
    assert FilterThrough(c, 5) == [1.0, 1.0, 3.0, 2.0, 1.5, 1.0, 1.0, 1.0];
    assert FilterThrough(c, 6) == [1.0, 1.0, 3.0, 2.0, 1.5, 1.25, 1.0, 1.0];
    assert FilterThrough(c, 7) == [1.0, 1.0, 3.0, 2.0, 1.5, 1.25, 1.125, 1.0];
  }

  /** Two adjacent spikes: beam 2 is tested against the replaced beam 1 (0.5),
      so it becomes 0.75, not the 0.5 a read-before-write snapshot would give. */
  lemma FilteredAdjacentSpikes()
    ensures Filtered([0.0, 0.0, 1.0, 1.0, 0.0, 0.0, 0.0, 0.0])
         == [0.0, 0.5, 0.75, 0.375, 0.1875, 0.0, 0.0, 0.0]
  {
    var c := [0.0, 0.0, 1.0, 1.0, 0.0, 0.0, 0.0, 0.0];
    assert FilterThrough(c, 2) == [0.0, 0.5, 1.0, 1.0, 0.0, 0.0, 0.0, 0.0];
    assert FilterThrough(c, 3) == [0.0, 0.5, 0.75, 1.0, 0.0, 0.0, 0.0, 0.0];
    assert FilterThrough(c, 4) == [0.0, 0.5, 0.75, 0.375, 0.0, 0.0, 0.0, 0.0];
    assert FilterThrough(c, 5) == [0.0, 0.5, 0.75, 0.375, 0.1875, 0.0, 0.0, 0.0];
    assert FilterThrough(c, 6) == [0.0, 0.5, 0.75, 0.375, 0.1875, 0.0, 0.0, 0.0];
    assert FilterThrough(c, 7) == [0.0, 0.5, 0.75, 0.375, 0.1875, 0.0, 0.0, 0.0];
  }

  /** The outlier loop, in place and left to right. */
  method FilterOutliers(c: array<real>)
    requires c.Length == Beams
    modifies c
    ensures c[..] == Filtered(old(c[..]))
  {
    for i := 0 to Beams
      invariant c[..] == FilterThrough(old(c[..]), i)
    {
      if 0 < i < Beams - 1 {
        var neighbourAvg := 0.5 * (c[i - 1] + c[i + 1]);
        if Abs(c[i] - neighbourAvg) > Threshold {
          c[i] := neighbourAvg;
        }
      }
    }
  }

  // ---------------------------------------------------------------------------
  // Bounded moving-average windows

  /** Append to a deque of maximum length WindowSize: a full window drops its oldest value. */
  function Push(w: seq<real>, x: real): (r: seq<real>)
    ensures |r| == if |w| < WindowSize then |w| + 1 else |w|
    ensures |w| <= WindowSize ==> |r| <= WindowSize
    ensures r[|r| - 1] == x
    ensures r[..|r| - 1] == w[|w| + 1 - |r|..]
  {
    if |w| < WindowSize then w + [x] else w[1..] + [x]
  }

  /** The last min(n, |s|) values of s, oldest first. */
  function Last(s: seq<real>, n: nat): (r: seq<real>)
    ensures |r| == if |s| <= n then |s| else n
    ensures s[|s| - |r|..] == r
  {
    if |s| <= n then s else s[|s| - n..]
  }

  /** Pushing onto the window of a history gives the window of the extended history. */
  lemma PushLast(s: seq<real>, x: real)
    ensures Push(Last(s, WindowSize), x) == Last(s + [x], WindowSize)
    ensures |Push(Last(s, WindowSize), x)| <= WindowSize
  {
  }

  /** Once the last WindowSize frames of a history all carry v on beam i,
      beam i's window mean is exactly v. */
  lemma ConvergesAfterRepeats(history: seq<seq<real>>, i: nat, v: real)
    requires IsFrames(history) && i < Beams && |history| >= WindowSize
    requires forall n :: |history| - WindowSize <= n < |history| ==> history[n][i] == v
    ensures Mean(Last(Column(history, i), WindowSize)) == v
  {
    var w := Last(Column(history, i), WindowSize);
    forall k | 0 <= k < |w| ensures w[k] == v {
      assert w[k] == Column(history, i)[|history| - WindowSize + k];
    }
    MeanConstant(w, v);
  }

  /** Once more than WindowSize frames have been pushed, the oldest one no longer
      influences any window. */
  lemma OldestEvicted(history: seq<seq<real>>, i: nat)
    requires IsFrames(history) && i < Beams && |history| > WindowSize
    ensures Last(Column(history, i), WindowSize) == Last(Column(history[1..], i), WindowSize)
  {
  }

  /** Window i holds the last WindowSize values of beam i over the history. */
  ghost predicate WindowsOf(history: seq<seq<real>>, windows: seq<seq<real>>)
  {
    && IsFrames(history)
    && |windows| == Beams
    && forall i :: 0 <= i < Beams ==> windows[i] == Last(Column(history, i), WindowSize)
  }

  /** Pushing each beam of frame f onto its own window keeps the windows in step
      with the history extended by f. */
  lemma WindowsOfPush(history: seq<seq<real>>, windows: seq<seq<real>>, f: seq<real>, next: seq<seq<real>>)
    requires WindowsOf(history, windows) && |f| == Beams && |next| == Beams
    requires forall i :: 0 <= i < Beams ==> next[i] == Push(windows[i], f[i])
    ensures WindowsOf(history + [f], next)
    ensures forall i :: 0 <= i < Beams ==> |next[i]| <= WindowSize
  {
    forall i | 0 <= i < Beams
      ensures next[i] == Last(Column(history + [f], i), WindowSize)
      ensures |next[i]| <= WindowSize
    {
      ColumnAppend(history, f, i);
      PushLast(Column(history, i), f[i]);
    }
  }

  /** Offset subtraction followed by the in-place outlier filter. */
  method CalibrateFrame(raw: seq<real>, offsets: seq<real>) returns (f: seq<real>)
    requires |raw| == Beams && |offsets| == Beams
    ensures f == Filtered(Calibrate(raw, offsets))
  {
    var calibrated := new real[Beams](k requires 0 <= k < Beams => raw[k] - offsets[k]);
    assert calibrated[..] == Calibrate(raw, offsets);
    FilterOutliers(calibrated);
    f := calibrated[..];
  }

  // ---------------------------------------------------------------------------
  // The stateful filter

  class CalibrationFilter {
    /** Per-beam offsets, fixed at construction. */
    const offsets: seq<real>
    /** One moving-average window per beam, oldest value first. */
    var windows: seq<seq<real>>
    /** Every filtered frame pushed so far, oldest first. */
    ghost var history: seq<seq<real>>

    ghost predicate Valid()
      reads this
    {
      |offsets| == Beams && WindowsOf(history, windows)
    }

    /** Setup from the baseline samples: average, symmetrise, subtract,
        and start with empty windows. */
    constructor (baseline: seq<seq<real>>)
      requires |baseline| > 0 && IsFrames(baseline)
      ensures Valid() && history == []
      ensures forall k :: 0 <= k < Beams ==> |windows[k]| == 0
      ensures forall k :: 0 <= k < Beams ==>
        offsets[k] == Mean(Column(baseline, k))
                      - (Mean(Column(baseline, k)) + Mean(Column(baseline, Mirror(k)))) / 2.0
      ensures forall k :: 0 <= k < Beams ==>
        offsets[k] == (Mean(Column(baseline, k)) - Mean(Column(baseline, Mirror(k)))) / 2.0
      ensures forall k :: 0 <= k < Beams ==> offsets[k] + offsets[Mirror(k)] == 0.0
    {
      var avg := AverageBaseline(baseline);
      var sym := Symmetrise(avg);
      offsets := seq(Beams, k requires 0 <= k < Beams => avg[k] - sym[k]);
      windows := seq(Beams, _ => []);
      history := [];
      new;
      forall k | 0 <= k < Beams
        ensures offsets[k] == (avg[k] - avg[Mirror(k)]) / 2.0
        ensures offsets[k] + offsets[Mirror(k)] == 0.0
      {
        OffsetsAntisymmetric(avg, sym, k);
      }
    }

    /** Calibrate one raw frame, filter its spikes, push each beam onto its
        own window and output the window means. */
    method Process(raw: seq<real>) returns (smoothed: seq<real>)
      requires Valid() && |raw| == Beams
      modifies this
      ensures Valid()
      ensures history == old(history) + [Filtered(Calibrate(raw, offsets))]
      ensures |windows| == Beams
      ensures forall i :: 0 <= i < Beams ==>
        windows[i] == Push(old(windows[i]), Filtered(Calibrate(raw, offsets))[i])
      ensures forall i :: 0 <= i < Beams ==> |windows[i]| <= WindowSize
      ensures |smoothed| == Beams
      ensures forall i :: 0 <= i < Beams ==> smoothed[i] == Mean(windows[i])
      ensures forall i :: 0 <= i < Beams ==>
        smoothed[i] == Mean(Last(Column(history, i), WindowSize))
      ensures old(history) == [] ==> smoothed == Filtered(Calibrate(raw, offsets))
    {
      var f := CalibrateFrame(raw, offsets);
      ghost var before := windows;
      smoothed := [];
      for i := 0 to Beams
        invariant |windows| == Beams && |smoothed| == i && history == old(history)
        invariant forall k :: 0 <= k < i ==>
          windows[k] == Push(before[k], f[k]) && smoothed[k] == Mean(windows[k])
        invariant forall k :: i <= k < Beams ==> windows[k] == before[k]
      {
        windows := windows[i := Push(windows[i], f[i])];
        smoothed := smoothed + [Mean(windows[i])];
      }
      WindowsOfPush(history, before, f, windows);
      if history == [] {
        forall i | 0 <= i < Beams ensures smoothed[i] == f[i] {
          MeanSingleton(f[i]);
        }
      }
      history := history + [f];
    }
  }
}
