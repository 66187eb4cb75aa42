/**
 * Beam-profile projection engine: reduces a grayscale frame to a 1-D
 * profile along one axis, optionally rescales it so that its maximum is 1,
 * and summarises the profile (mean, variance, extremes, first peak and the
 * Full Width at Half Maximum with linearly interpolated crossings).
 *
 * Samples are exact reals, not IEEE doubles.
 */
module Projection {
  import opened Wrappers
  import opened SeqMath

  /** How the samples along the collapsed axis become one value. */
  datatype ProjectionMode = Sum | Min | Max | Average

  /** A 2-D grayscale image, row-major: `g[row][column]`. */
  type Grid = seq<seq<real>>

  /** Non-empty and rectangular: every row has the first row's non-zero width. */
  predicate IsGrid(g: Grid)
  {
    |g| > 0 && |g[0]| > 0 && forall i :: 0 <= i < |g| ==> |g[i]| == |g[0]|
  }

  function Height(g: Grid): nat
  {
    |g|
  }

  function Width(g: Grid): nat
    requires IsGrid(g)
  {
    |g[0]|
  }

  /** Column `j` read top to bottom. */
  function Column(g: Grid, j: nat): (c: seq<real>)
    requires IsGrid(g) && j < Width(g)
    ensures |c| == Height(g)
    ensures forall i :: 0 <= i < |g| ==> c[i] == g[i][j]
  {
    seq(|g|, i requires 0 <= i < |g| => g[i][j])
  }

  /**
   * The samples that collapse into position `k` of the projection:
   * column `k` when rows are collapsed (axis 0), row `k` when columns are (axis 1).
   */
  function Line(g: Grid, axis: int, k: nat): (l: seq<real>)
    requires IsGrid(g) && (axis == 0 || axis == 1)
    requires k < (if axis == 0 then Width(g) else Height(g))
    ensures |l| == (if axis == 0 then Height(g) else Width(g))
  {
    if axis == 0 then Column(g, k) else g[k]
  }

  /**
   * One collapsed value, as numpy's `sum`, `min`, `max` or `mean` gives it:
   * the total, the smallest or largest sample, or the value that times the
   * line's length is its total.
   */
  function Reduce(line: seq<real>, mode: ProjectionMode): (v: real)
    requires |line| > 0
    ensures mode == Sum ==> v == SeqMath.Sum(line)
    ensures mode == Min ==> v == MinOf(line)
    ensures mode == Max ==> v == MaxOf(line)
    ensures mode == Average ==> v * |line| as real == SeqMath.Sum(line)
  {
    match mode
    case Sum => SeqMath.Sum(line)
    case Min => MinOf(line)
    case Max => MaxOf(line)
    case Average => SeqMath.Sum(line) / |line| as real
  }

  /**
   * `calculate_projection`: axis 0 gives one value per column, axis 1 one per
   * row. SUM is the exact total of the collapsed line, MIN and MAX are values
   * of that line bounding it from below and above, AVERAGE is the total over
   * the line's length.
   */
  function CalculateProjection(g: Grid, axis: int, mode: ProjectionMode): (r: seq<real>)
    requires IsGrid(g) && (axis == 0 || axis == 1)
    ensures |r| == (if axis == 0 then Width(g) else Height(g))
    ensures mode == Sum ==> forall k :: 0 <= k < |r| ==> r[k] == SeqMath.Sum(Line(g, axis, k))
    ensures mode == Average ==>
      forall k :: 0 <= k < |r| ==> r[k] * |Line(g, axis, k)| as real == SeqMath.Sum(Line(g, axis, k))
    ensures mode == Min ==> forall k :: 0 <= k < |r| ==>
      r[k] in Line(g, axis, k) && forall i :: 0 <= i < |Line(g, axis, k)| ==> r[k] <= Line(g, axis, k)[i]
    ensures mode == Max ==> forall k :: 0 <= k < |r| ==>
      r[k] in Line(g, axis, k) && forall i :: 0 <= i < |Line(g, axis, k)| ==> Line(g, axis, k)[i] <= r[k]
  {
    var n := if axis == 0 then Width(g) else Height(g);
    seq(n, k requires 0 <= k < n => Reduce(Line(g, axis, k), mode))
  }

  /** The grid with rows and columns exchanged. */
  function Transpose(g: Grid): (t: Grid)
    requires IsGrid(g)
    ensures IsGrid(t) && Height(t) == Width(g) && Width(t) == Height(g)
    ensures forall j, i :: 0 <= j < Width(g) && 0 <= i < Height(g) ==> t[j][i] == g[i][j]
  {
    seq(Width(g), j requires 0 <= j < Width(g) => Column(g, j))
  }

  /** Collapsing columns (axis 1) is collapsing rows (axis 0) of the transposed grid. */
  lemma ProjectionAxesAgree(g: Grid, mode: ProjectionMode)
    requires IsGrid(g)
    ensures CalculateProjection(g, 1, mode) == CalculateProjection(Transpose(g), 0, mode)
  {
    var t := Transpose(g);
    forall k | 0 <= k < Height(g)
      ensures Line(g, 1, k) == Line(t, 0, k)
    {
      assert Line(g, 1, k) == Column(t, k);
    }
  }

  /** Element-wise sum of two equally long rows. */
  function AddRows(a: seq<real>, b: seq<real>): (r: seq<real>)
    requires |a| == |b|
    ensures |r| == |a|
    ensures forall j :: 0 <= j < |a| ==> r[j] == a[j] + b[j]
  {
    seq(|a|, j requires 0 <= j < |a| => a[j] + b[j])
  }

  /** The rows of `g` added together as vectors, top to bottom. */
  function RowTotal(g: Grid): (r: seq<real>)
    requires IsGrid(g)
    ensures |r| == Width(g)
  {
    if |g| == 1 then g[0] else AddRows(RowTotal(g[..|g| - 1]), g[|g| - 1])
  }

  /** SUM over axis 0 is the vector sum of the rows. */
  lemma {:induction false} SumProjectionAddsRows(g: Grid)
    requires IsGrid(g)
    ensures CalculateProjection(g, 0, Sum) == RowTotal(g)
  {
    if |g| > 1 {
      var front := g[..|g| - 1];
      SumProjectionAddsRows(front);
      forall j | 0 <= j < Width(g)
        ensures CalculateProjection(g, 0, Sum)[j] == RowTotal(g)[j]
      {
        assert Column(g, j)[..|g| - 1] == Column(front, j);
        calc {
          CalculateProjection(g, 0, Sum)[j];
          SeqMath.Sum(Column(g, j));
          SeqMath.Sum(Column(front, j)) + g[|g| - 1][j];
          CalculateProjection(front, 0, Sum)[j] + g[|g| - 1][j];
          RowTotal(front)[j] + g[|g| - 1][j];
        }
      }
    } else {
      forall j | 0 <= j < Width(g)
        ensures CalculateProjection(g, 0, Sum)[j] == RowTotal(g)[j]
      {
        var c := Column(g, j);
        assert c[..0] == [];
        assert SeqMath.Sum(c) == g[0][j];
        assert Line(g, 0, j) == c;
      }
    }
  }

  /** The number of samples collapsed into each projection value. */
  function Collapsed(g: Grid, axis: int): nat
    requires IsGrid(g) && (axis == 0 || axis == 1)
  {
    if axis == 0 then Height(g) else Width(g)
  }

  /** AVERAGE is SUM divided by the collapsed dimension, element by element. */
  lemma AverageIsSumOverCount(g: Grid, axis: int)
    requires IsGrid(g) && (axis == 0 || axis == 1)
    ensures var avg, total := CalculateProjection(g, axis, Average), CalculateProjection(g, axis, Sum);
      |avg| == |total| &&
      forall k :: 0 <= k < |avg| ==>
        avg[k] == total[k] / Collapsed(g, axis) as real &&
        avg[k] * Collapsed(g, axis) as real == total[k]
  {
    var avg, total := CalculateProjection(g, axis, Average), CalculateProjection(g, axis, Sum);
    forall k | 0 <= k < |avg|
      ensures avg[k] == total[k] / Collapsed(g, axis) as real
    {
      assert |Line(g, axis, k)| == Collapsed(g, axis);
    }
  }

  /**
   * `normalize_projection`: a profile whose maximum is positive is divided by
   * that maximum, so its new maximum is exactly 1 and every sample keeps its
   * ratio to it; otherwise the profile is returned unchanged. The input, a
   * value, is never modified.
   */
  function NormalizeProjection(data: seq<real>): (r: seq<real>)
    requires |data| > 0
    ensures |r| == |data|
    ensures MaxOf(data) > 0.0 ==>
      MaxOf(r) == 1.0 && forall k :: 0 <= k < |data| ==> r[k] == data[k] / MaxOf(data)
    ensures MaxOf(data) <= 0.0 ==> r == data
  {
    var m := MaxOf(data);
    if m > 0.0 then
      DivideByMaxIsOne(data);
      Divide(data, m)
    else
      data
  }

  /** Normalising twice is normalising once. */
  lemma NormalizeIdempotent(data: seq<real>)
    requires |data| > 0
    ensures NormalizeProjection(NormalizeProjection(data)) == NormalizeProjection(data)
  {
    var r := NormalizeProjection(data);
    if MaxOf(data) > 0.0 {
      assert NormalizeProjection(r) == r by {
        assert forall k :: 0 <= k < |r| ==> NormalizeProjection(r)[k] * 1.0 == r[k];
      }
    }
  }

  // ---------------------------------------------------------------------
  // Full Width at Half Maximum
  // ---------------------------------------------------------------------

  /** The result of `calculate_fwhm`: (fwhm, left_pos, right_pos), each possibly None. */
  type FwhmTriple = (Option<real>, Option<real>, Option<real>)

  /**
   * The level halfway between the first peak's value and the baseline (the
   * minimum): never below the minimum nor above the peak.
   */
  function HalfMax(s: seq<real>): (h: real)
    requires |s| > 0
    ensures MinOf(s) <= h <= s[ArgMax(s)] == MaxOf(s)
  {
    (s[ArgMax(s)] + MinOf(s)) / 2.0
  }

  /** Rising through `h` between samples `i-1` and `i`. */
  predicate RisesThrough(s: seq<real>, h: real, i: nat)
    requires 1 <= i < |s|
  {
    s[i - 1] <= h <= s[i]
  }

  /** Falling through `h` between samples `i` and `i+1`. */
  predicate FallsThrough(s: seq<real>, h: real, i: nat)
    requires i + 1 < |s|
  {
    s[i] >= h >= s[i + 1]
  }

  /** The first step met scanning leftward from `i` down to 1 that rises through `h`. */
  function LeftScan(s: seq<real>, h: real, i: nat): (r: Option<nat>)
    requires i < |s|
    ensures r.Some? ==>
      1 <= r.value <= i && RisesThrough(s, h, r.value) &&
      forall m :: r.value < m <= i ==> !RisesThrough(s, h, m)
    ensures r.None? ==> forall m :: 1 <= m <= i ==> !RisesThrough(s, h, m)
    decreases i
  {
    if i == 0 then None
    else if RisesThrough(s, h, i) then Some(i)
    else LeftScan(s, h, i - 1)
  }

  /** The first step met scanning rightward from `i` up to `|s|-2` that falls through `h`. */
  function RightScan(s: seq<real>, h: real, i: nat): (r: Option<nat>)
    requires i < |s|
    ensures r.Some? ==>
      i <= r.value < |s| - 1 && FallsThrough(s, h, r.value) &&
      forall m :: i <= m < r.value ==> !FallsThrough(s, h, m)
    ensures r.None? ==> forall m :: i <= m < |s| - 1 ==> !FallsThrough(s, h, m)
    decreases |s| - i
  {
    if i + 1 >= |s| then None
    else if FallsThrough(s, h, i) then Some(i)
    else RightScan(s, h, i + 1)
  }

  /**
   * Where the line through samples `i-1` and `i` meets `h`. On a step that
   * rises through `h` it lies within the step, at its peak-side end `i` when
   * the step is flat.
   */
  function LeftCrossingAt(s: seq<real>, h: real, i: nat): (x: real)
    requires 1 <= i < |s|
    ensures RisesThrough(s, h, i) ==> (i - 1) as real <= x <= i as real
    ensures s[i - 1] == s[i] ==> x == i as real
  {
    if s[i] != s[i - 1] then
      StepFraction(h, s[i - 1], s[i]);
      (i - 1) as real + (h - s[i - 1]) / (s[i] - s[i - 1])
    else i as real
  }

  /**
   * Where the line through samples `i` and `i+1` meets `h`. On a step that
   * falls through `h` it lies within the step, at its peak-side end `i` when
   * the step is flat.
   */
  function RightCrossingAt(s: seq<real>, h: real, i: nat): (x: real)
    requires i + 1 < |s|
    ensures FallsThrough(s, h, i) ==> i as real <= x <= (i + 1) as real
    ensures s[i] == s[i + 1] ==> x == i as real
  {
    if s[i] != s[i + 1] then
      StepFraction(s[i] - h + s[i + 1], s[i + 1], s[i]);
      i as real + (s[i] - h) / (s[i] - s[i + 1])
    else i as real
  }

  /** A level between the two ends of a non-flat step sits at a fraction in [0, 1] along it. */
  lemma StepFraction(h: real, lo: real, hi: real)
    requires lo != hi
    ensures lo <= h <= hi ==> 0.0 <= (h - lo) / (hi - lo) <= 1.0
  {
    if lo <= h <= hi {
      FractionInUnit(h - lo, hi - lo);
    }
  }

  /**
   * Specification of `calculate_fwhm`. Fewer than three samples give no
   * result; otherwise the crossings nearest the first peak on each side are
   * interpolated, and the result is present only when both are found.
   */
  function Fwhm(s: seq<real>): (r: FwhmTriple)
    ensures |s| < 3 ==> r == (None, None, None)
    ensures r.0.Some? <==> r.1.Some?
    ensures r.1.Some? <==> r.2.Some?
    ensures r.0.Some? ==> r.0.value == r.2.value - r.1.value
  {
    if |s| < 3 then (None, None, None) else CrossingsAround(s, HalfMax(s), ArgMax(s))
  }

  /**
   * Both crossings of `h` nearest index `p`, and their distance, or nothing
   * if either is missing: present exactly when both scans find a step.
   */
  function CrossingsAround(s: seq<real>, h: real, p: nat): (r: FwhmTriple)
    requires p < |s|
    ensures r.0.Some? <==> LeftScan(s, h, p).Some? && RightScan(s, h, p).Some?
    ensures r.1.Some? <==> r.0.Some?
    ensures r.2.Some? <==> r.0.Some?
    ensures r.0.Some? ==> r.0.value == r.2.value - r.1.value
  {
    match (LeftScan(s, h, p), RightScan(s, h, p))
    case (Some(i), Some(j)) =>
      var left, right := LeftCrossingAt(s, h, i), RightCrossingAt(s, h, j);
      (Some(right - left), Some(left), Some(right))
    case _ => (None, None, None)
  }

  /**
   * `calculate_fwhm` as the Python function runs it: two index loops scanning outward
   * from the first peak, each stopping at the first bracketing pair.
   */
  method CalculateFwhm(data: seq<real>) returns (fwhm: Option<real>, leftPos: Option<real>, rightPos: Option<real>)
    ensures (fwhm, leftPos, rightPos) == Fwhm(data)
  {
    if |data| < 3 {
      return None, None, None;
    }

    var peakIdx := ArgMax(data);
    var peakVal := data[peakIdx];
    var minVal := MinOf(data);
    var halfMax := (peakVal + minVal) / 2.0;
    assert halfMax == HalfMax(data);

    leftPos := None;
    var i := peakIdx;
    while i > 0
      invariant i <= peakIdx
      invariant LeftScan(data, halfMax, i) == LeftScan(data, halfMax, peakIdx)
      invariant leftPos == None
    {
      if data[i - 1] <= halfMax <= data[i] {
        // linear interpolation between samples i-1 and i
        leftPos := Some(LeftCrossingAt(data, halfMax, i));
        break;
      }
      i := i - 1;
    }
    assert LeftScan(data, halfMax, peakIdx) == if i == 0 then None else Some(i);
    assert leftPos == if i == 0 then None else Some(LeftCrossingAt(data, halfMax, i));

    rightPos := None;
    var j := peakIdx;
    while j < |data| - 1
      invariant peakIdx <= j < |data|
      invariant RightScan(data, halfMax, j) == RightScan(data, halfMax, peakIdx)
      invariant rightPos == None
    {
      if data[j] >= halfMax >= data[j + 1] {
        // linear interpolation between samples j and j+1
        rightPos := Some(RightCrossingAt(data, halfMax, j));
        break;
      }
      j := j + 1;
    }
    assert RightScan(data, halfMax, peakIdx) == if j == |data| - 1 then None else Some(j);
    assert rightPos == if j == |data| - 1 then None else Some(RightCrossingAt(data, halfMax, j));

    if leftPos.Some? && rightPos.Some? {
      fwhm := Some(rightPos.value - leftPos.value);
    } else {
      fwhm, leftPos, rightPos := None, None, None;
    }
  }

  /**
   * When present, the crossings are interpolated on the bracketing steps
   * nearest the first peak, one on each side of it and inside the profile,
   * so the width is non-negative.
   */
  lemma FwhmCrossings(s: seq<real>)
    requires Fwhm(s).0.Some?
    ensures |s| >= 3
    ensures var p, h, left, right := ArgMax(s), HalfMax(s), Fwhm(s).1.value, Fwhm(s).2.value;
      0.0 <= left <= p as real <= right <= (|s| - 1) as real && Fwhm(s).0.value >= 0.0 &&
      (exists i :: 1 <= i <= p && RisesThrough(s, h, i) && left == LeftCrossingAt(s, h, i) &&
         forall m :: i < m <= p ==> !RisesThrough(s, h, m)) &&
      (exists j :: p <= j < |s| - 1 && FallsThrough(s, h, j) && right == RightCrossingAt(s, h, j) &&
         forall m :: p <= m < j ==> !FallsThrough(s, h, m))
  {
    var p, h := ArgMax(s), HalfMax(s);
    var i, j := LeftScan(s, h, p).value, RightScan(s, h, p).value;
    assert Fwhm(s).1.value == LeftCrossingAt(s, h, i);
    assert Fwhm(s).2.value == RightCrossingAt(s, h, j);
  }

  /** From a sample at or above `h`, the leftward scan succeeds iff some earlier sample is at or below `h`. */
  lemma {:induction false} LeftScanFinds(s: seq<real>, h: real, i: nat)
    requires i < |s| && h <= s[i]
    ensures LeftScan(s, h, i).Some? <==> exists m :: 0 <= m < i && s[m] <= h
    decreases i
  {
    if i > 0 {
      if RisesThrough(s, h, i) {
        assert s[i - 1] <= h;
      } else {
        LeftScanFinds(s, h, i - 1);
      }
    }
  }

  /** From a sample at or above `h`, the rightward scan succeeds iff some later sample is at or below `h`. */
  lemma {:induction false} RightScanFinds(s: seq<real>, h: real, i: nat)
    requires i < |s| && h <= s[i]
    ensures RightScan(s, h, i).Some? <==> exists m :: i < m < |s| && s[m] <= h
    decreases |s| - i
  {
    if i + 1 < |s| {
      if FallsThrough(s, h, i) {
        assert s[i + 1] <= h;
      } else {
        RightScanFinds(s, h, i + 1);
      }
    }
  }

  /**
   * A profile of three or more samples has an FWHM exactly when some sample
   * before the first peak and some sample after it lie at or below the
   * half-maximum level.
   */
  lemma FwhmPresentIff(s: seq<real>)
    requires |s| >= 3
    ensures Fwhm(s).0.Some? <==>
      (exists m :: 0 <= m < ArgMax(s) && s[m] <= HalfMax(s)) &&
      (exists m :: ArgMax(s) < m < |s| && s[m] <= HalfMax(s))
  {
    var p, h := ArgMax(s), HalfMax(s);
    assert h <= s[p];
    LeftScanFinds(s, h, p);
    RightScanFinds(s, h, p);
  }

  /** A peak at either end of the profile leaves one side without a crossing. */
  lemma EdgePeakHasNoFwhm(s: seq<real>)
    requires |s| > 0 && (ArgMax(s) == 0 || ArgMax(s) == |s| - 1)
    ensures Fwhm(s) == (None, None, None)
  {
  }

  /** A flat profile peaks at index 0, so it has no FWHM. */
  lemma FlatProfileHasNoFwhm(s: seq<real>)
    requires |s| > 0 && forall k :: 0 <= k < |s| ==> s[k] == s[0]
    ensures ArgMax(s) == 0
    ensures Fwhm(s) == (None, None, None)
  {
    ArgMaxUnique(s, 0);
  }

  /** A strictly decreasing profile peaks at index 0, so it has no FWHM. */
  lemma DecreasingProfileHasNoFwhm(s: seq<real>)
    requires |s| > 0 && forall i, j :: 0 <= i < j < |s| ==> s[j] < s[i]
    ensures ArgMax(s) == 0
    ensures Fwhm(s) == (None, None, None)
  {
    ArgMaxUnique(s, 0);
  }

  /** A triangular peak on a zero baseline: half maximum 2, crossings at 1 and 3. */
  lemma TriangleFwhm()
    ensures Fwhm([0.0, 2.0, 4.0, 2.0, 0.0]) == (Some(2.0), Some(1.0), Some(3.0))
  {
    var s := [0.0, 2.0, 4.0, 2.0, 0.0];
    ArgMaxUnique(s, 2);
    MinOfUnique(s, 0.0);
    assert HalfMax(s) == 2.0;
    assert LeftScan(s, 2.0, 2) == Some(2);
    assert RightScan(s, 2.0, 2) == Some(2);
    assert LeftCrossingAt(s, 2.0, 2) == 1.0 + 0.0 / 2.0 == 1.0;
    assert RightCrossingAt(s, 2.0, 2) == 2.0 + 2.0 / 2.0 == 3.0;
    assert Fwhm(s) == CrossingsAround(s, 2.0, 2);
  }

  /** The profile of `test_fwhm_edge_peak` in tests/test_projection.py peaks at index 0 and gets no FWHM. */
  lemma DescendingExampleHasNoFwhm()
    ensures Fwhm([100.0, 80.0, 60.0, 40.0, 20.0]) == (None, None, None)
  {
    DecreasingProfileHasNoFwhm([100.0, 80.0, 60.0, 40.0, 20.0]);
  }

  // ---------------------------------------------------------------------
  // FWHM under positive rescaling (what normalisation does)
  // ---------------------------------------------------------------------

  lemma {:induction false} LeftScanScaled(s: seq<real>, h: real, c: real, i: nat)
    requires c > 0.0 && i < |s|
    ensures LeftScan(Divide(s, c), h / c, i) == LeftScan(s, h, i)
    decreases i
  {
    if i > 0 {
      DivideMonotone(s[i - 1], h, c);
      DivideMonotone(h, s[i], c);
      LeftScanScaled(s, h, c, i - 1);
    }
  }

  lemma {:induction false} RightScanScaled(s: seq<real>, h: real, c: real, i: nat)
    requires c > 0.0 && i < |s|
    ensures RightScan(Divide(s, c), h / c, i) == RightScan(s, h, i)
    decreases |s| - i
  {
    if i + 1 < |s| {
      DivideMonotone(s[i + 1], h, c);
      DivideMonotone(h, s[i], c);
      RightScanScaled(s, h, c, i + 1);
    }
  }

  lemma LeftCrossingScaled(s: seq<real>, h: real, c: real, i: nat)
    requires c > 0.0 && 1 <= i < |s|
    ensures LeftCrossingAt(Divide(s, c), h / c, i) == LeftCrossingAt(s, h, i)
  {
    DivideMonotone(s[i], s[i - 1], c);
    if s[i] != s[i - 1] {
      ScaledRatio(h, s[i - 1], s[i], s[i - 1], c);
    }
  }

  lemma RightCrossingScaled(s: seq<real>, h: real, c: real, i: nat)
    requires c > 0.0 && i + 1 < |s|
    ensures RightCrossingAt(Divide(s, c), h / c, i) == RightCrossingAt(s, h, i)
  {
    DivideMonotone(s[i], s[i + 1], c);
    if s[i] != s[i + 1] {
      ScaledRatio(s[i], h, s[i], s[i + 1], c);
    }
  }

  lemma CrossingsAroundScaled(s: seq<real>, h: real, c: real, p: nat)
    requires c > 0.0 && p < |s|
    ensures CrossingsAround(Divide(s, c), h / c, p) == CrossingsAround(s, h, p)
  {
    LeftScanScaled(s, h, c, p);
    RightScanScaled(s, h, c, p);
    var left, right := LeftScan(s, h, p), RightScan(s, h, p);
    if left.Some? && right.Some? {
      LeftCrossingScaled(s, h, c, left.value);
      RightCrossingScaled(s, h, c, right.value);
    }
  }

  lemma HalfMaxScaled(s: seq<real>, c: real)
    requires |s| > 0 && c > 0.0
    ensures ArgMax(Divide(s, c)) == ArgMax(s)
    ensures HalfMax(Divide(s, c)) == HalfMax(s) / c
  {
    var d, p := Divide(s, c), ArgMax(s);
    DivideMaxAndArgMax(s, c);
    var x, y, x', y' := s[p], MinOf(s), d[p], MinOf(d);
    var h, h' := HalfMax(s), HalfMax(d);
    assert h == (x + y) / 2.0 && h' == (x' + y') / 2.0;
    MidpointOfQuotients(x, y, x', y', c, h, h');
  }

  lemma MidpointOfQuotients(x: real, y: real, x': real, y': real, c: real, h: real, h': real)
    requires c > 0.0 && x' == x / c && y' == y / c
    requires h == (x + y) / 2.0 && h' == (x' + y') / 2.0
    ensures h' == h / c
  {
    ScaledMidpoint(x, y, c);
  }

  /** Dividing every sample by the same positive number leaves the FWHM triple unchanged. */
  lemma FwhmScaleInvariant(s: seq<real>, c: real)
    requires c > 0.0
    ensures Fwhm(Divide(s, c)) == Fwhm(s)
  {
    if |s| >= 3 {
      HalfMaxScaled(s, c);
      CrossingsAroundScaled(s, HalfMax(s), c, ArgMax(s));
    }
  }

  /** Normalisation moves neither the first peak nor the FWHM crossings. */
  lemma NormalizeKeepsPeakAndFwhm(data: seq<real>)
    requires |data| > 0
    ensures ArgMax(NormalizeProjection(data)) == ArgMax(data)
    ensures Fwhm(NormalizeProjection(data)) == Fwhm(data)
  {
    var m := MaxOf(data);
    if m > 0.0 {
      DivideMaxAndArgMax(data, m);
      FwhmScaleInvariant(data, m);
    }
  }

  // ---------------------------------------------------------------------
  // Statistics
  // ---------------------------------------------------------------------

  /**
   * `ProjectionStats`. The Python dataclass keeps the standard deviation, which needs a
   * square root; this model keeps its square, the population variance.
   */
  datatype ProjectionStats = ProjectionStats(
    mean: real,
    variance: real,
    minVal: real,
    maxVal: real,
    fwhm: Option<real>,
    fwhmLeft: Option<real>,
    fwhmRight: Option<real>,
    peakPos: nat)

  /** numpy `mean`: lies between the smallest and the largest sample. */
  function Mean(s: seq<real>): (mu: real)
    requires |s| > 0
    ensures MinOf(s) <= mu <= MaxOf(s)
  {
    SumBounds(s, MinOf(s), MaxOf(s));
    QuotientBounds(SeqMath.Sum(s), |s| as real, MinOf(s), MaxOf(s));
    SeqMath.Sum(s) / |s| as real
  }

  /** (s[k] - mu)², sample by sample. */
  function SquaredDeviations(s: seq<real>, mu: real): (r: seq<real>)
    ensures |r| == |s|
    ensures forall k :: 0 <= k < |s| ==> r[k] == Square(s[k] - mu)
  {
    seq(|s|, k requires 0 <= k < |s| => Square(s[k] - mu))
  }

  /** Population variance (divides by N), the square of numpy's default `std`. */
  function Variance(s: seq<real>): (v: real)
    requires |s| > 0
    ensures v >= 0.0
  {
    var sq := SquaredDeviations(s, Mean(s));
    SumBounds(sq, 0.0, MaxOf(sq));
    assert SeqMath.Sum(sq) >= 0.0;
    QuotientNonNegative(SeqMath.Sum(sq), |s| as real);
    SeqMath.Sum(sq) / |s| as real
  }

  /** Normalising a profile with a positive maximum divides its mean by that maximum. */
  lemma NormalizeScalesMean(data: seq<real>)
    requires |data| > 0 && MaxOf(data) > 0.0
    ensures Mean(NormalizeProjection(data)) == Mean(data) / MaxOf(data)
  {
    var m, n := MaxOf(data), |data| as real;
    assert NormalizeProjection(data) == Divide(data, m);
    SumDivide(data, m);
    QuotientSwap(SeqMath.Sum(data), m, n);
  }

  /** A flat profile has zero variance: every sample is the mean. */
  lemma FlatProfileHasZeroVariance(s: seq<real>)
    requires |s| > 0 && forall k :: 0 <= k < |s| ==> s[k] == s[0]
    ensures Mean(s) == s[0]
    ensures Variance(s) == 0.0
  {
    MinOfUnique(s, s[0]);
    MaxOfUnique(s, s[0]);
    var sq := SquaredDeviations(s, Mean(s));
    assert forall k :: 0 <= k < |s| ==> sq[k] == Square(0.0) == 0.0;
    SumBounds(sq, 0.0, 0.0);
  }

  /**
   * `calculate_stats`: mean between the extremes, extremes bounding and
   * occurring in the profile, the first argmax as peak position, and the
   * FWHM fields exactly as `calculate_fwhm` gives them.
   */
  function CalculateStats(data: seq<real>): (st: ProjectionStats)
    requires |data| > 0
    ensures st.minVal <= st.mean <= st.maxVal
    ensures st.variance >= 0.0
    ensures st.minVal in data && st.maxVal in data
    ensures forall k :: 0 <= k < |data| ==> st.minVal <= data[k] <= st.maxVal
    ensures st.peakPos < |data| && data[st.peakPos] == st.maxVal
    ensures forall k :: 0 <= k < st.peakPos ==> data[k] < st.maxVal
    ensures (st.fwhm, st.fwhmLeft, st.fwhmRight) == Fwhm(data)
  {
    var (fwhm, fwhmLeft, fwhmRight) := Fwhm(data);
    ProjectionStats(
      mean := Mean(data),
      variance := Variance(data),
      minVal := MinOf(data),
      maxVal := MaxOf(data),
      fwhm := fwhm,
      fwhmLeft := fwhmLeft,
      fwhmRight := fwhmRight,
      peakPos := ArgMax(data))
  }

  lemma SumOfFive(s: seq<real>)
    requires |s| == 5
    ensures SeqMath.Sum(s) == s[0] + s[1] + s[2] + s[3] + s[4]
  {
    assert s[..1][..0] == [];
    assert SeqMath.Sum(s[..1]) == s[0];
    assert s[..2][..1] == s[..1];
    assert SeqMath.Sum(s[..2]) == s[0] + s[1];
    assert s[..3][..2] == s[..2];
    assert SeqMath.Sum(s[..3]) == s[0] + s[1] + s[2];
    assert s[..4][..3] == s[..3];
    assert SeqMath.Sum(s[..4]) == s[0] + s[1] + s[2] + s[3];
  }

  /** The statistics of the ramp 1..5: mean 3, variance 2, extremes 1 and 5, peak at the end, no FWHM. */
  lemma RampStats()
    ensures CalculateStats([1.0, 2.0, 3.0, 4.0, 5.0]) ==
      ProjectionStats(3.0, 2.0, 1.0, 5.0, None, None, None, 4)
  {
    var s := [1.0, 2.0, 3.0, 4.0, 5.0];
    MinOfUnique(s, 1.0);
    MaxOfUnique(s, 5.0);
    ArgMaxUnique(s, 4);
    SumOfFive(s);
    assert Mean(s) == 15.0 / 5.0 == 3.0;
    var sq := SquaredDeviations(s, 3.0);
    assert sq == [4.0, 1.0, 0.0, 1.0, 4.0];
    SumOfFive(sq);
    assert Variance(s) == 10.0 / 5.0 == 2.0;
    EdgePeakHasNoFwhm(s);
    assert Fwhm(s) == (None, None, None);
  }

  // ---------------------------------------------------------------------
  // Frames and the per-axis analyzer
  // ---------------------------------------------------------------------

  /** An 8-bit camera sample. */
  newtype uint8 = x: int | 0 <= x < 256

  /** A camera frame: height × width samples, or height × width × channels. */
  datatype Frame =
    | Mono(samples: seq<seq<uint8>>)
    | MultiChannel(pixels: seq<seq<seq<uint8>>>)

  /** What numpy can index: non-empty and rectangular, with a channel 0 in every pixel. */
  predicate IsFrame(f: Frame)
  {
    match f
    case Mono(v) =>
      |v| > 0 && |v[0]| > 0 && forall i :: 0 <= i < |v| ==> |v[i]| == |v[0]|
    case MultiChannel(px) =>
      |px| > 0 && |px[0]| > 0 &&
      (forall i :: 0 <= i < |px| ==> |px[i]| == |px[0]|) &&
      forall i, j :: 0 <= i < |px| && 0 <= j < |px[i]| ==> |px[i][j]| > 0
  }

  function FrameHeight(f: Frame): nat
  {
    match f
    case Mono(v) => |v|
    case MultiChannel(px) => |px|
  }

  function FrameWidth(f: Frame): nat
    requires IsFrame(f)
  {
    match f
    case Mono(v) => |v[0]|
    case MultiChannel(px) => |px[0]|
  }

  /** Channel 0 of a pixel, or the sample itself in a single-channel frame. */
  function Channel0(f: Frame, i: nat, j: nat): uint8
    requires IsFrame(f) && i < FrameHeight(f) && j < FrameWidth(f)
  {
    match f
    case Mono(v) => v[i][j]
    case MultiChannel(px) => px[i][j][0]
  }

  /**
   * `_to_grayscale`: same shape as the frame, every value is channel 0 of
   * its pixel (no averaging over channels), as a real.
   */
  function ToGrayscale(f: Frame): (g: Grid)
    requires IsFrame(f)
    ensures IsGrid(g) && Height(g) == FrameHeight(f) && Width(g) == FrameWidth(f)
    ensures forall i, j :: 0 <= i < Height(g) && 0 <= j < Width(g) ==>
      g[i][j] == Channel0(f, i, j) as real && 0.0 <= g[i][j] < 256.0
  {
    var h, w := FrameHeight(f), FrameWidth(f);
    seq(h, i requires 0 <= i < h =>
      seq(w, j requires 0 <= j < w => Channel0(f, i, j) as real))
  }

  /** Only channel 0 matters: frames that agree on it have the same grayscale image. */
  lemma GrayscaleIgnoresOtherChannels(f: Frame, f': Frame)
    requires IsFrame(f) && IsFrame(f')
    requires FrameHeight(f) == FrameHeight(f') && FrameWidth(f) == FrameWidth(f')
    requires forall i, j :: 0 <= i < FrameHeight(f) && 0 <= j < FrameWidth(f) ==>
      Channel0(f, i, j) == Channel0(f', i, j)
    ensures ToGrayscale(f) == ToGrayscale(f')
  {
    var g, g' := ToGrayscale(f), ToGrayscale(f');
    forall i | 0 <= i < |g|
      ensures g[i] == g'[i]
    {
    }
  }

  /** The profile an analyzer produces for one axis: the projection, normalised if asked. */
  function AxisProfile(gray: Grid, axis: int, mode: ProjectionMode, normalize: bool): seq<real>
    requires IsGrid(gray) && (axis == 0 || axis == 1)
  {
    var raw := CalculateProjection(gray, axis, mode);
    if normalize then NormalizeProjection(raw) else raw
  }

  /**
   * `ProjectionAnalyzer`: the mode and normalise flag for one axis, which its
   * owner reassigns directly; analysis itself never changes them.
   */
  class ProjectionAnalyzer {
    var mode: ProjectionMode
    var normalize: bool

    constructor (mode: ProjectionMode, normalize: bool)
      ensures this.mode == mode && this.normalize == normalize
    {
      this.mode := mode;
      this.normalize := normalize;
    }

    /** The defaults: AVERAGE, not normalised. */
    constructor Default()
      ensures mode == Average && !normalize
    {
      mode := Average;
      normalize := false;
    }

    /**
     * `analyze_x`: rows of channel 0 collapsed into one value per column,
     * normalised when asked, statistics of that final profile. Normalising
     * moves neither the peak nor the FWHM, caps the maximum and the mean at 1,
     * and makes the maximum exactly 1 when the raw maximum is positive.
     */
    method AnalyzeX(frame: Frame) returns (data: seq<real>, stats: ProjectionStats)
      requires IsFrame(frame)
      ensures data == AxisProfile(ToGrayscale(frame), 0, mode, normalize)
      ensures |data| == FrameWidth(frame)
      ensures stats == CalculateStats(data)
      ensures var raw := CalculateProjection(ToGrayscale(frame), 0, mode);
        stats.peakPos == ArgMax(raw) &&
        (stats.fwhm, stats.fwhmLeft, stats.fwhmRight) == Fwhm(raw) &&
        (normalize ==> stats.mean <= stats.maxVal <= 1.0) &&
        (normalize && MaxOf(raw) > 0.0 ==> stats.maxVal == 1.0)
    {
      var gray := ToGrayscale(frame);
      data := CalculateProjection(gray, 0, mode);
      if normalize {
        NormalizeKeepsPeakAndFwhm(data);
        data := NormalizeProjection(data);
      }
      stats := CalculateStats(data);
    }

    /** `analyze_y`: as AnalyzeX, with columns collapsed into one value per row. */
    method AnalyzeY(frame: Frame) returns (data: seq<real>, stats: ProjectionStats)
      requires IsFrame(frame)
      ensures data == AxisProfile(ToGrayscale(frame), 1, mode, normalize)
      ensures |data| == FrameHeight(frame)
      ensures stats == CalculateStats(data)
      ensures var raw := CalculateProjection(ToGrayscale(frame), 1, mode);
        stats.peakPos == ArgMax(raw) &&
        (stats.fwhm, stats.fwhmLeft, stats.fwhmRight) == Fwhm(raw) &&
        (normalize ==> stats.mean <= stats.maxVal <= 1.0) &&
        (normalize && MaxOf(raw) > 0.0 ==> stats.maxVal == 1.0)
    {
      var gray := ToGrayscale(frame);
      data := CalculateProjection(gray, 1, mode);
      if normalize {
        NormalizeKeepsPeakAndFwhm(data);
        data := NormalizeProjection(data);
      }
      stats := CalculateStats(data);
    }
  }
}
