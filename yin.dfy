/** The YIN fundamental-frequency estimator of pitch_detection/yin.py: the difference
    function, its cumulative-mean normalisation, the threshold-then-descend scan for
    the wave duration, and the parabolic refinement of that duration. Samples are
    exact reals; the divisions by zero numpy performs silently are `Extended` values. */
module Yin {
  import opened Common
  import opened Extended

  function Square(r: real): (q: real)
    ensures q >= 0.0
  {
    r * r
  }

  /** The sum of the squares of `s`, as `np.sum(d ** 2)` computes it. */
  function SumSquares(s: seq<real>): (r: real)
    ensures r >= 0.0
  {
    if s == [] then 0.0 else SumSquares(s[..|s| - 1]) + Square(s[|s| - 1])
  }

  /** `audio_chunk[:-lag] - audio_chunk[lag:]` for a positive lag: both slices hold
      `len - lag` samples, or none when the lag is longer than the chunk. */
  function LagDifferences(x: Chunk, lag: nat): (d: seq<real>)
    requires lag > 0
    ensures |d| == if |x| > lag then |x| - lag else 0
    ensures forall i :: 0 <= i < |d| ==> d[i] == x[i] - x[i + lag]
  {
    var a, b := Slice(x, 0, -(lag as int)), Slice(x, lag, |x|);
    seq(|a|, i requires 0 <= i < |a| => a[i] - b[i])
  }

  /** `difference_function(audio_chunk, lag)`: zero at lag 0, and otherwise the
      squared lag differences over the first `len // 2 - lag` positions. */
  function DifferenceFunction(x: Chunk, lag: nat): (r: real)
    ensures r >= 0.0
    ensures lag == 0 ==> r == 0.0
  {
    if lag == 0 then 0.0
    else SumSquares(Slice(LagDifferences(x, lag), 0, |x| / 2 - lag))
  }

  /** Reference definition: the sum of `(x[i] - x[i + lag])²` over `i < m`. */
  function LagSum(x: Chunk, lag: nat, m: nat): real
    requires m + lag <= |x|
  {
    if m == 0 then 0.0 else LagSum(x, lag, m - 1) + Square(x[m - 1] - x[m - 1 + lag])
  }

  lemma {:induction false} SumSquaresOfLagDifferences(d: seq<real>, x: Chunk, lag: nat, m: nat)
    requires m <= |d| && m + lag <= |x|
    requires forall i :: 0 <= i < m ==> d[i] == x[i] - x[i + lag]
    ensures SumSquares(d[..m]) == LagSum(x, lag, m)
  {
    if m > 0 {
      SumSquaresOfLagDifferences(d, x, lag, m - 1);
      assert d[..m][..m - 1] == d[..m - 1];
    }
  }

  /** For every lag the scan uses (`0 < lag <= len // 2`) the difference function is
      the sum of squared differences over the first `len // 2 - lag` positions. */
  lemma DifferenceIsLagSum(x: Chunk, lag: nat)
    requires 0 < lag <= |x| / 2
    ensures DifferenceFunction(x, lag) == LagSum(x, lag, |x| / 2 - lag)
  {
    var d := LagDifferences(x, lag);
    assert Slice(d, 0, |x| / 2 - lag) == d[..|x| / 2 - lag];
    SumSquaresOfLagDifferences(d, x, lag, |x| / 2 - lag);
  }

  /** `[difference_function(audio_chunk, lag) for lag in range(len // 2)]`. */
  function Differences(x: Chunk): (d: seq<real>)
    ensures |d| == |x| / 2
    ensures forall lag :: 0 <= lag < |d| ==> d[lag] == DifferenceFunction(x, lag) && d[lag] >= 0.0
  {
    seq(|x| / 2, lag requires 0 <= lag => DifferenceFunction(x, lag))
  }

  /** `diff[1:i + 1].sum()`, the cumulative sum `get_running_average` divides by. */
  function CumulativeSum(diff: seq<real>, i: nat): real
    requires 1 <= i < |diff|
  {
    Sum(diff[1..i + 1])
  }

  lemma DivideByMean(a: real, s: real, i: nat)
    requires s != 0.0 && i > 0
    ensures s * (1.0 / i as real) != 0.0
    ensures a / (s * (1.0 / i as real)) == a * i as real / s
  {
    var n := i as real;
    assert s * (1.0 / n) == s / n;
    assert (a / (s / n)) * s == a * n;
  }

  /** Entry `i >= 1` of the running average: `diff[i]` over the mean of `diff[1..i]`. */
  function AverageEntry(diff: seq<real>, i: nat): (e: Ext)
    requires 1 <= i < |diff|
    ensures CumulativeSum(diff, i) != 0.0 ==> e == Finite(diff[i] * i as real / CumulativeSum(diff, i))
    ensures CumulativeSum(diff, i) == 0.0 ==> !e.Finite? && (e.NaN? <==> diff[i] == 0.0)
  {
    var s := CumulativeSum(diff, i);
    if s != 0.0 then
      DivideByMean(diff[i], s, i);
      Div(Finite(diff[i]), Mul(Finite(s), Finite(1.0 / i as real)))
    else
      Div(Finite(diff[i]), Mul(Finite(s), Finite(1.0 / i as real)))
  }

  /** `get_running_average(diff, len(diff))`: a leading 1, then `diff[i]` divided by the
      mean of `diff[1..i]`; a zero mean gives NaN or an infinity instead of raising. */
  function RunningAverage(diff: seq<real>): (ra: seq<Ext>)
    ensures |ra| == if |diff| == 0 then 1 else |diff|
    ensures ra[0] == Finite(1.0)
  {
    var n := if |diff| == 0 then 0 else |diff| - 1;
    [Finite(1.0)] + seq(n, k requires 0 <= k < n => AverageEntry(diff, k + 1))
  }

  /** Every entry after the first is `diff[i] * i / (diff[1] + ... + diff[i])`, or a NaN
      or infinity when that sum is zero. */
  lemma RunningAverageEntries(diff: seq<real>)
    ensures forall i :: 1 <= i < |diff| ==> RunningAverage(diff)[i] == AverageEntry(diff, i)
  {
  }

  lemma {:induction false} SumOfNonNegatives(s: seq<real>)
    requires forall k :: 0 <= k < |s| ==> s[k] >= 0.0
    ensures Sum(s) >= 0.0
    ensures |s| > 0 ==> Sum(s) >= s[|s| - 1]
  {
    if s != [] {
      SumOfNonNegatives(s[..|s| - 1]);
    }
  }

  /** Over non-negative differences (which the difference function always returns) a
      zero mean only arises with a zero entry, so there are no infinities: every entry
      of the running average is a number or NaN. */
  lemma RunningAverageOfNonNegative(diff: seq<real>)
    requires forall k :: 0 <= k < |diff| ==> diff[k] >= 0.0
    ensures forall i :: 0 <= i < |RunningAverage(diff)| ==> RunningAverage(diff)[i].Finite? || RunningAverage(diff)[i].NaN?
  {
    var ra := RunningAverage(diff);
    RunningAverageEntries(diff);
    forall i | 1 <= i < |diff|
      ensures ra[i].Finite? || ra[i].NaN?
    {
      SumOfNonNegatives(diff[1..i + 1]);
      assert ra[i] == AverageEntry(diff, i);
    }
  }

  /** The first index from `i` on whose value is below `threshold`. */
  function FirstBelow(ra: seq<Ext>, threshold: real, i: nat): (r: Option<nat>)
    decreases |ra| - i
    ensures r.None? <==> forall k :: i <= k < |ra| ==> !Less(ra[k], Finite(threshold))
    ensures r.Some? ==> i <= r.value < |ra| && Less(ra[r.value], Finite(threshold)) &&
                        forall k :: i <= k < r.value ==> !Less(ra[k], Finite(threshold))
  {
    if i >= |ra| then None
    else if Less(ra[i], Finite(threshold)) then Some(i)
    else FirstBelow(ra, threshold, i + 1)
  }

  /** Where the strictly descending run that starts at `i` ends. */
  function DescendFrom(ra: seq<Ext>, i: nat): (r: nat)
    requires i < |ra|
    decreases |ra| - i
    ensures i <= r < |ra|
  {
    if i + 1 < |ra| && Less(ra[i + 1], ra[i]) then DescendFrom(ra, i + 1) else i
  }

  /** The descent from `i` is strictly decreasing and ends at the last entry or where
      the next entry is not smaller. */
  lemma {:induction false} DescentIsMaximalRun(ra: seq<Ext>, i: nat)
    requires i < |ra|
    decreases |ra| - i
    ensures var r := DescendFrom(ra, i);
            (forall k :: i <= k < r ==> Less(ra[k + 1], ra[k])) &&
            (r + 1 == |ra| || !Less(ra[r + 1], ra[r]))
  {
    if i + 1 < |ra| && Less(ra[i + 1], ra[i]) {
      DescentIsMaximalRun(ra, i + 1);
    }
  }

  /** What `get_wave_duration` returns: -1 when no entry after the first is below the
      threshold, otherwise the bottom of the descent from the first one that is. */
  function WaveDuration(ra: seq<Ext>, threshold: real): (d: int)
    ensures d == -1 || 1 <= d < |ra|
    ensures d == -1 <==> forall k :: 1 <= k < |ra| ==> !Less(ra[k], Finite(threshold))
  {
    match FirstBelow(ra, threshold, 1)
    case None => -1
    case Some(f) => DescendFrom(ra, f)
  }

  /** `get_wave_duration`: the outer loop finds the first entry below the threshold,
      the inner loop walks down while the next entry is strictly smaller. */
  method GetWaveDuration(runningAverage: seq<Ext>, threshold: real) returns (d: int)
    ensures d == WaveDuration(runningAverage, threshold)
  {
    var i := 1;
    while i < |runningAverage|
      invariant 1 <= i
      invariant FirstBelow(runningAverage, threshold, 1) == FirstBelow(runningAverage, threshold, i)
    {
      if Less(runningAverage[i], Finite(threshold)) {
        var j := i;
        while j + 1 < |runningAverage| && Less(runningAverage[j + 1], runningAverage[j])
          invariant i <= j < |runningAverage|
          invariant DescendFrom(runningAverage, j) == DescendFrom(runningAverage, i)
        {
          j := j + 1;
        }
        return j;
      }
      i := i + 1;
    }
    return -1;
  }

  lemma {:induction false} DescentStaysBelow(ra: seq<Ext>, i: nat, bound: Ext)
    requires i < |ra| && Less(ra[i], bound)
    decreases |ra| - i
    ensures Less(ra[DescendFrom(ra, i)], bound)
  {
    if i + 1 < |ra| && Less(ra[i + 1], ra[i]) {
      LessTransitive(ra[i + 1], ra[i], bound);
      DescentStaysBelow(ra, i + 1, bound);
    }
  }

  /** A found duration starts at the first entry below the threshold, descends strictly
      from there, stops where the next entry is not smaller, and is itself below the
      threshold. */
  lemma WaveDurationIsLocalDescent(ra: seq<Ext>, threshold: real)
    requires WaveDuration(ra, threshold) != -1
    ensures var d, f := WaveDuration(ra, threshold), FirstBelow(ra, threshold, 1).value;
            1 <= f <= d < |ra| &&
            (forall k :: 1 <= k < f ==> !Less(ra[k], Finite(threshold))) &&
            (forall k :: f <= k < d ==> Less(ra[k + 1], ra[k])) &&
            (d + 1 == |ra| || !Less(ra[d + 1], ra[d])) &&
            Less(ra[d], Finite(threshold))
  {
    DescentIsMaximalRun(ra, FirstBelow(ra, threshold, 1).value);
    DescentStaysBelow(ra, FirstBelow(ra, threshold, 1).value, Finite(threshold));
  }

  /** `quadratic_interpolation(prev, mid, next)`: the offset of the vertex of the
      parabola through three neighbouring points. */
  function QuadraticInterpolation(prev: Ext, mid: Ext, next: Ext): (r: Ext)
    ensures prev.Finite? && mid.Finite? && next.Finite? && prev.v - 2.0 * mid.v + next.v != 0.0 ==>
              r == Finite(0.5 * (prev.v - next.v) / (prev.v - 2.0 * mid.v + next.v))
    ensures prev.NaN? || mid.NaN? || next.NaN? ==> r.NaN?
  {
    Div(Mul(Finite(0.5), Sub(prev, next)), Add(Sub(prev, Mul(Finite(2.0), mid)), next))
  }

  /** When the middle point is strictly below one neighbour and not above the other,
      the vertex lies within half a sample of the middle. */
  lemma VertexWithinHalfSample(prev: real, mid: real, next: real)
    requires prev > mid && next >= mid
    ensures prev - 2.0 * mid + next > 0.0
    ensures QuadraticInterpolation(Finite(prev), Finite(mid), Finite(next)).Finite?
    ensures var off := QuadraticInterpolation(Finite(prev), Finite(mid), Finite(next)).v;
            -0.5 <= off <= 0.5
  {
    var den := prev - 2.0 * mid + next;
    var off := 0.5 * (prev - next) / den;
    assert -den <= prev - next <= den;
    assert off * den == 0.5 * (prev - next);
  }

  /** Three equal points have no vertex offset to report: `0/0` is NaN. */
  lemma FlatNeighbourhoodIsNaN(v: real)
    ensures QuadraticInterpolation(Finite(v), Finite(v), Finite(v)).NaN?
  {
    assert v - 2.0 * v + v == 0.0;
  }

  /** The pitch `yin_pitch_detection` derives from a running average over a window:
      `None` without a duration; otherwise `sample_rate` over the duration, refined by
      the vertex offset when both of its neighbours lie inside the window. */
  function PitchOf(ra: seq<Ext>, window: int, sampleRate: int, threshold: real): (r: Option<Ext>)
    requires window <= |ra|
  {
    var d := WaveDuration(ra, threshold);
    if d == -1 then None
    else if 1 < d < window - 1 then
      Some(Div(Finite(sampleRate as real), Add(Finite(d as real), QuadraticInterpolation(ra[d - 1], ra[d], ra[d + 1]))))
    else Some(Finite(sampleRate as real / d as real))
  }

  /** What `yin_pitch_detection(audio_chunk, sample_rate, threshold)` returns. */
  function YinPitch(x: Chunk, sampleRate: int, threshold: real): (r: Option<Ext>)
  {
    PitchOf(RunningAverage(Differences(x)), |x| / 2, sampleRate, threshold)
  }

  /** A chunk of fewer than four samples has a running average of at most one entry,
      so the scan finds nothing. */
  lemma ShortChunkHasNoPitch(x: Chunk, sampleRate: int, threshold: real)
    requires |x| < 4
    ensures YinPitch(x, sampleRate, threshold) == None
  {
    assert |RunningAverage(Differences(x))| <= 1;
  }

  /** `None` exactly when no entry of the running average after the first is below the
      threshold; a duration at either edge of the window is used unrefined. */
  lemma YinPitchCases(x: Chunk, sampleRate: int, threshold: real)
    ensures var ra := RunningAverage(Differences(x));
            YinPitch(x, sampleRate, threshold).None? <==> forall k :: 1 <= k < |ra| ==> !Less(ra[k], Finite(threshold))
    ensures var d := WaveDuration(RunningAverage(Differences(x)), threshold);
            d != -1 && !(1 < d < |x| / 2 - 1) ==> YinPitch(x, sampleRate, threshold) == Some(Finite(sampleRate as real / d as real))
  {
  }

  /** Over a running average without infinities, a duration with numbers on both
      sides is itself a number and the vertex offset lies within half a sample. */
  lemma {:induction false} RefinementWithinHalfSample(ra: seq<Ext>, threshold: real)
    requires forall i :: 0 <= i < |ra| ==> ra[i].Finite? || ra[i].NaN?
    requires var d := WaveDuration(ra, threshold);
             1 < d < |ra| - 1 && ra[d - 1].Finite? && ra[d + 1].Finite?
    ensures var d := WaveDuration(ra, threshold);
            ra[d].Finite? &&
            var off := QuadraticInterpolation(ra[d - 1], ra[d], ra[d + 1]);
            off.Finite? && -0.5 <= off.v <= 0.5
  {
    var d := WaveDuration(ra, threshold);
    WaveDurationIsLocalDescent(ra, threshold);
    var f := FirstBelow(ra, threshold, 1).value;
    assert ra[d].Finite?;
    if d == f {
      assert !Less(ra[d - 1], Finite(threshold));
    } else {
      assert Less(ra[d], ra[d - 1]);
    }
    VertexWithinHalfSample(ra[d - 1].v, ra[d].v, ra[d + 1].v);
  }

  lemma RefinedDivision(sampleRate: int, d: int, off: real)
    requires d >= 1 && -0.5 <= off <= 0.5
    ensures Div(Finite(sampleRate as real), Add(Finite(d as real), Finite(off))) == Finite(sampleRate as real / (d as real + off))
  {
    assert d as real + off != 0.0;
  }

  /** A refined pitch: the duration `d` is a number, its vertex offset `off` lies
      within half a sample, and the pitch is `sample_rate / (d + off)`. */
  predicate RefinedNearDuration(ra: seq<Ext>, window: int, sampleRate: int, threshold: real)
    requires window <= |ra|
  {
    var d := WaveDuration(ra, threshold);
    1 < d < window - 1 && ra[d].Finite? &&
    var off := QuadraticInterpolation(ra[d - 1], ra[d], ra[d + 1]);
    off.Finite? && -0.5 <= off.v <= 0.5 &&
    PitchOf(ra, window, sampleRate, threshold) == Some(Finite(sampleRate as real / (d as real + off.v)))
  }

  lemma RefinedPitchOf(ra: seq<Ext>, window: int, sampleRate: int, threshold: real)
    requires window <= |ra|
    requires forall i :: 0 <= i < |ra| ==> ra[i].Finite? || ra[i].NaN?
    requires var d := WaveDuration(ra, threshold);
             1 < d < window - 1 && ra[d - 1].Finite? && ra[d + 1].Finite?
    ensures RefinedNearDuration(ra, window, sampleRate, threshold)
  {
    var d := WaveDuration(ra, threshold);
    RefinementWithinHalfSample(ra, threshold);
    var off := QuadraticInterpolation(ra[d - 1], ra[d], ra[d + 1]);
    assert off == Finite(off.v);
    RefinedDivision(sampleRate, d, off.v);
  }

  /** When the neighbours of a refined duration `d` are numbers, the pitch is
      `sample_rate / (d + off)` with `|off| <= 1/2`, and so a finite number. */
  lemma RefinedPitchIsNearDuration(x: Chunk, sampleRate: int, threshold: real)
    requires var ra, d := RunningAverage(Differences(x)), WaveDuration(RunningAverage(Differences(x)), threshold);
             1 < d < |x| / 2 - 1 && ra[d - 1].Finite? && ra[d + 1].Finite?
    ensures |x| / 2 == |RunningAverage(Differences(x))|
    ensures YinPitch(x, sampleRate, threshold) == PitchOf(RunningAverage(Differences(x)), |x| / 2, sampleRate, threshold)
    ensures RefinedNearDuration(RunningAverage(Differences(x)), |x| / 2, sampleRate, threshold)
  {
    RunningAverageOfNonNegative(Differences(x));
    RefinedPitchOf(RunningAverage(Differences(x)), |x| / 2, sampleRate, threshold);
  }

  /** Over a running average without infinities and with a non-negative sample rate,
      a pitch is never infinite and never negative: it is absent, NaN, or a number at
      least 0. */
  lemma PitchOfIsNonNegative(ra: seq<Ext>, window: int, sampleRate: int, threshold: real)
    requires window <= |ra| && sampleRate >= 0
    requires forall i :: 0 <= i < |ra| ==> ra[i].Finite? || ra[i].NaN?
    ensures var p := PitchOf(ra, window, sampleRate, threshold);
            p.None? || p.value.NaN? || (p.value.Finite? && p.value.v >= 0.0)
  {
    var d := WaveDuration(ra, threshold);
    if d != -1 && 1 < d < window - 1 {
      if ra[d - 1].Finite? && ra[d + 1].Finite? {
        RefinedPitchOf(ra, window, sampleRate, threshold);
        var off := QuadraticInterpolation(ra[d - 1], ra[d], ra[d + 1]);
        assert d as real + off.v > 0.0;
      } else {
        assert QuadraticInterpolation(ra[d - 1], ra[d], ra[d + 1]).NaN?;
      }
    } else if d != -1 {
      assert sampleRate as real / d as real >= 0.0;
    }
  }

  /** With a non-negative sample rate YIN reports no pitch, NaN, or a pitch of at least 0. */
  lemma YinPitchIsNonNegative(x: Chunk, sampleRate: int, threshold: real)
    requires sampleRate >= 0
    ensures var p := YinPitch(x, sampleRate, threshold);
            p.None? || p.value.NaN? || (p.value.Finite? && p.value.v >= 0.0)
  {
    RunningAverageOfNonNegative(Differences(x));
    PitchOfIsNonNegative(RunningAverage(Differences(x)), |x| / 2, sampleRate, threshold);
  }

  /** `yin_pitch_detection(audio_chunk, sample_rate, threshold)`. */
  method YinPitchDetection(audioChunk: Chunk, sampleRate: int, threshold: real) returns (r: Option<Ext>)
    ensures r == YinPitch(audioChunk, sampleRate, threshold)
  {
    var window := |audioChunk| / 2;
    var diff := seq(window, lag requires 0 <= lag => DifferenceFunction(audioChunk, lag));
    var runningAvg := RunningAverage(diff);
    var waveDuration := GetWaveDuration(runningAvg, threshold);
    if waveDuration == -1 {
      return None;
    }
    var duration := Finite(waveDuration as real);
    if 1 < waveDuration < window - 1 {
      duration := Add(duration, QuadraticInterpolation(runningAvg[waveDuration - 1], runningAvg[waveDuration], runningAvg[waveDuration + 1]));
      return Some(Div(Finite(sampleRate as real), duration));
    }
    return Some(Finite(sampleRate as real / waveDuration as real));
  }
}
