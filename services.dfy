/** The helpers of source/services.py and src/services.py: nearest-value snapping
    (identical in both files), chunk padding, the length contract of resampling,
    and the size of the piano-note table. */
module Services {
  import opened Common

  /** How close each option is to `value`, as a score where larger is closer. */
  function Closeness(value: real, options: seq<real>): (c: seq<real>)
    ensures |c| == |options|
    ensures forall k :: 0 <= k < |options| ==> c[k] == -Abs(value - options[k])
  {
    seq(|options|, k requires 0 <= k < |options| => -Abs(value - options[k]))
  }

  /** Reference definition of `snap_nearest_index`: the first index of an option at
      least distance from `value`. */
  function NearestIndex(value: real, options: seq<real>): (r: nat)
    requires |options| > 0
    ensures r < |options|
    ensures forall k :: 0 <= k < |options| ==> Abs(value - options[r]) <= Abs(value - options[k])
    ensures forall k :: 0 <= k < r ==> Abs(value - options[k]) > Abs(value - options[r])
  {
    var c := Closeness(value, options);
    var r := ArgMax(c);
    assert forall k :: 0 <= k < |options| ==> c[k] <= c[r];
    r
  }

  /** `snap_nearest_index`: a linear scan that moves to a later option only when it
      is strictly closer, so the lowest index wins ties; `options[0]` raises on an
      empty table. */
  method SnapNearestIndex(value: real, options: seq<real>) returns (r: Result<nat>)
    ensures r.Err? <==> options == []
    ensures r.Err? ==> r.error == IndexOutOfRange
    ensures r.Ok? ==> r.value == NearestIndex(value, options)
    ensures r.Ok? ==> r.value < |options|
    ensures r.Ok? ==> forall k :: 0 <= k < |options| ==> Abs(value - options[r.value]) <= Abs(value - options[k])
    ensures r.Ok? ==> forall k :: 0 <= k < r.value ==> Abs(value - options[k]) > Abs(value - options[r.value])
  {
    if |options| == 0 {
      return Err(IndexOutOfRange);
    }
    var nearestIndex := 0;
    var smallestDiff := Abs(value - options[0]);
    for i := 1 to |options|
      invariant nearestIndex < i
      invariant smallestDiff == Abs(value - options[nearestIndex])
      invariant forall k :: 0 <= k < i ==> smallestDiff <= Abs(value - options[k])
      invariant forall k :: 0 <= k < nearestIndex ==> Abs(value - options[k]) > smallestDiff
    {
      var currentDiff := Abs(value - options[i]);
      if currentDiff < smallestDiff {
        nearestIndex := i;
        smallestDiff := currentDiff;
      }
    }
    return Ok(nearestIndex);
  }

  /** On a table of one entry every value snaps to index 0. */
  lemma SnapSingleton(value: real, option: real)
    ensures NearestIndex(value, [option]) == 0
  {
  }

  /** The midpoint between two entries resolves to the lower index: 150 between 100 and 200. */
  lemma {:induction false} SnapMidpointTakesLowerIndex()
    ensures NearestIndex(150.0, [100.0, 200.0, 300.0]) == 0
    ensures NearestIndex(149.0, [100.0, 200.0, 300.0]) == 0
    ensures NearestIndex(151.0, [100.0, 200.0, 300.0]) == 1
  {
    var t := [100.0, 200.0, 300.0];
    var a, b, c := NearestIndex(150.0, t), NearestIndex(149.0, t), NearestIndex(151.0, t);
    assert Abs(150.0 - t[0]) == 50.0 && Abs(150.0 - t[1]) == 50.0 && Abs(150.0 - t[2]) == 150.0;
    assert Abs(149.0 - t[0]) == 49.0 && Abs(149.0 - t[1]) == 51.0 && Abs(149.0 - t[2]) == 151.0;
    assert Abs(151.0 - t[0]) == 51.0 && Abs(151.0 - t[1]) == 49.0 && Abs(151.0 - t[2]) == 149.0;
  }

  /** `adjust_chunk_size`: zero-pad a short chunk at the end, keep the prefix of a long
      one. A negative size slices from the end, as Python's `chunk[:size]` does. */
  function AdjustChunkSize(chunk: Chunk, chunkSize: int): (r: Chunk)
    ensures chunkSize >= 0 ==> |r| == chunkSize
    ensures |chunk| <= chunkSize ==> r[..|chunk|] == chunk && forall k :: |chunk| <= k < |r| ==> r[k] == 0.0
    ensures 0 <= chunkSize <= |chunk| ==> r == chunk[..chunkSize]
    ensures chunkSize < 0 ==> r == chunk[..if |chunk| + chunkSize < 0 then 0 else |chunk| + chunkSize]
  {
    if |chunk| < chunkSize then chunk + Zeros(chunkSize - |chunk|)
    else if |chunk| > chunkSize then Slice(chunk, 0, chunkSize)
    else chunk
  }

  /** What is kept of scipy's `resample(x, num)`: for a non-negative `num` it returns
      exactly `num` samples. */
  ghost predicate IsResampler(resample: (Chunk, nat) -> Chunk)
  {
    forall x, num :: |resample(x, num)| == num
  }

  /** `resample_audio(item, chunk_size, factor)`: resample to `int(chunk_size * factor)`
      samples; a negative size raises. */
  function ResampleAudio(resample: (Chunk, nat) -> Chunk, item: Chunk, chunkSize: int, factor: real): (r: Result<Chunk>)
    requires IsResampler(resample)
    ensures r.Err? <==> chunkSize as real * factor <= -1.0
    ensures r.Err? ==> r.error == NegativeDimension
    ensures r.Ok? ==> |r.value| == Trunc(chunkSize as real * factor)
    ensures r.Ok? && chunkSize as real * factor >= 0.0 ==>
              |r.value| as real <= chunkSize as real * factor < |r.value| as real + 1.0
  {
    var num := Trunc(chunkSize as real * factor);
    if num < 0 then Err(NegativeDimension) else Ok(resample(item, num))
  }

  /** `resample_to_size(chunk, factor)`, and equally `ResampleStretchAlgorithm.stretch`
      and the inline resample of both pitch shifters: the size is `int(len(chunk) * factor)`. */
  function ResampleToSize(resample: (Chunk, nat) -> Chunk, chunk: Chunk, factor: real): (r: Result<Chunk>)
    requires IsResampler(resample)
    ensures factor >= 0.0 ==> r.Ok? && |r.value| == Trunc(|chunk| as real * factor)
    ensures factor == 1.0 ==> r.Ok? && |r.value| == |chunk|
    ensures factor == 0.0 ==> r.Ok? && r.value == []
    ensures r.Err? <==> |chunk| as real * factor <= -1.0
  {
    ResampleAudio(resample, chunk, |chunk|, factor)
  }

  /** The stretch factor `detected / target` of every pitch shift; dividing by a
      zero target raises (or yields inf/nan, which the following `int()` rejects). */
  function StretchFactor(detected: real, target: real): (r: Result<real>)
    ensures r.Err? <==> target == 0.0
    ensures r.Err? ==> r.error == ZeroDivision
    ensures r.Ok? ==> r.value * target == detected
    ensures r.Ok? && detected == target ==> r.value == 1.0
    ensures r.Ok? && detected == 0.0 ==> r.value == 0.0
  {
    if target == 0.0 then Err(ZeroDivision) else Ok(detected / target)
  }

  /** `NOTE_FREQUENCIES`: the frequency of every piano key from 16 to 88, one entry per
      key. `calculate_frequency` (a fractional power of two) is kept opaque. */
  function NoteFrequencies(calculateFrequency: int -> real): (table: seq<real>)
    ensures |table| == 73
    ensures forall k :: 0 <= k < |table| ==> table[k] == calculateFrequency(16 + k)
  {
    seq(89 - 16, k => calculateFrequency(16 + k))
  }
}
