/** Window management: the overlap buffers of src/window_managers.py
    (`AudioOverlapProcessor`) and source/window_managers.py (`AudioOverlapper`), the
    trailing-slice window decrease of both files, the noise gate and the mono mix-down. */
module Windows {
  import opened Common

  /** The sizes an overlapper derives from the window length it wants and the length
      of its input chunks. */
  datatype Layout = Layout(overlapFactor: int, overlapSize: int, windowSize: int)

  /** `overlap_factor = desired // chunk_size`, `overlap_size = chunk_size * overlap_factor`,
      window size `overlap_size + chunk_size`; a zero chunk size divides by zero and a
      negative overlap size is rejected by `np.zeros`. */
  function OverlapLayout(desiredLength: int, chunkSize: int): (r: Result<Layout>)
    ensures chunkSize == 0 ==> r == Err(ZeroDivision)
    ensures chunkSize != 0 ==>
              (r.Err? <==> chunkSize * FloorDiv(desiredLength, chunkSize) < 0) &&
              (r.Err? ==> r.error == NegativeDimension)
    ensures r.Ok? ==>
              r.value.overlapFactor == FloorDiv(desiredLength, chunkSize) &&
              r.value.overlapSize == chunkSize * r.value.overlapFactor &&
              r.value.overlapSize >= 0 &&
              r.value.windowSize == r.value.overlapSize + chunkSize
  {
    if chunkSize == 0 then Err(ZeroDivision)
    else
      var factor := FloorDiv(desiredLength, chunkSize);
      var size := chunkSize * factor;
      if size < 0 then Err(NegativeDimension) else Ok(Layout(factor, size, size + chunkSize))
  }

  /** For positive chunks the overlap is the largest multiple of the chunk length that
      fits in the desired length, so the window is at least the desired length and
      less than one chunk longer. */
  lemma LayoutFitsDesiredLength(desiredLength: int, chunkSize: int)
    requires chunkSize > 0
    ensures OverlapLayout(desiredLength, chunkSize).Ok? <==> desiredLength >= 0
    ensures OverlapLayout(desiredLength, chunkSize).Ok? ==>
              var l := OverlapLayout(desiredLength, chunkSize).value;
              l.overlapSize <= desiredLength < l.windowSize
  {
    var factor := FloorDiv(desiredLength, chunkSize);
    assert factor * chunkSize <= desiredLength < factor * chunkSize + chunkSize;
    MulSign(factor, chunkSize);
    MulSign(factor + 1, chunkSize);
    assert (factor + 1) * chunkSize == factor * chunkSize + chunkSize;
    assert chunkSize * factor == factor * chunkSize;
  }

  /** The sign of a product with a positive factor. */
  lemma MulSign(a: int, b: int)
    requires b > 0
    ensures a >= 0 <==> a * b >= 0
    ensures a <= 0 <==> a * b <= 0
  {
  }

  /** `audio_chunk[-desired_chunk_size:]`: the trailing samples, but `-0` keeps all of them. */
  function DecreaseWindow(chunk: Chunk, desiredChunkSize: int): (r: Chunk)
    ensures 0 < desiredChunkSize <= |chunk| ==> |r| == desiredChunkSize && r == chunk[|chunk| - desiredChunkSize..]
    ensures desiredChunkSize > |chunk| ==> r == chunk
    ensures desiredChunkSize == 0 ==> r == chunk
    ensures desiredChunkSize < 0 ==> r == chunk[Min(-desiredChunkSize, |chunk|)..]
  {
    Tail(chunk, desiredChunkSize)
  }

  /** Decreasing twice to the same size is decreasing once. */
  lemma DecreaseWindowIdempotent(chunk: Chunk, desiredChunkSize: int)
    requires desiredChunkSize >= 0
    ensures DecreaseWindow(DecreaseWindow(chunk, desiredChunkSize), desiredChunkSize) == DecreaseWindow(chunk, desiredChunkSize)
  {
  }

  /** The windows an overlap buffer produces for a run of chunks, starting from `buffer`. */
  function Windows(buffer: Chunk, overlapSize: nat, items: seq<Chunk>): (ws: seq<Chunk>)
    ensures |ws| == |items|
    decreases |items|
  {
    if items == [] then []
    else
      var w := buffer + items[0];
      [w] + Windows(Tail(w, overlapSize), overlapSize, items[1..])
  }

  /** Every window ends with the chunk it was made for. */
  lemma {:induction false} WindowEndsWithItem(buffer: Chunk, overlapSize: nat, items: seq<Chunk>, k: nat)
    requires k < |items|
    ensures var w := Windows(buffer, overlapSize, items)[k];
            |items[k]| <= |w| && w[|w| - |items[k]|..] == items[k]
    decreases k
  {
    if k > 0 {
      var w := buffer + items[0];
      WindowEndsWithItem(Tail(w, overlapSize), overlapSize, items[1..], k - 1);
      assert items[1..][k - 1] == items[k];
    }
  }

  /** Cutting a window back to the chunk length returns the newest chunk: a decrease
      after an increase of the same size is the identity on the stream's items. */
  lemma DecreaseUndoesOverlap(buffer: Chunk, overlapSize: nat, items: seq<Chunk>, k: nat)
    requires k < |items| && |items[k]| > 0
    ensures DecreaseWindow(Windows(buffer, overlapSize, items)[k], |items[k]|) == items[k]
  {
    WindowEndsWithItem(buffer, overlapSize, items, k);
  }

  /** With a positive overlap, a buffer of `overlap_size` samples and chunks of one
      length, every window has the same length `overlap_size + chunk length`. */
  lemma {:induction false} SteadyWindowLength(buffer: Chunk, overlapSize: nat, items: seq<Chunk>, chunkLength: nat)
    requires overlapSize > 0 && |buffer| == overlapSize
    requires forall k :: 0 <= k < |items| ==> |items[k]| == chunkLength
    ensures forall k :: 0 <= k < |items| ==> |Windows(buffer, overlapSize, items)[k]| == overlapSize + chunkLength
    decreases |items|
  {
    if items != [] {
      var w := buffer + items[0];
      assert |Tail(w, overlapSize)| == overlapSize;
      SteadyWindowLength(Tail(w, overlapSize), overlapSize, items[1..], chunkLength);
      var ws := Windows(buffer, overlapSize, items);
      forall k | 0 <= k < |items|
        ensures |ws[k]| == overlapSize + chunkLength
      {
        if k > 0 {
          assert ws[k] == Windows(Tail(w, overlapSize), overlapSize, items[1..])[k - 1];
        }
      }
    }
  }

  /** With a zero overlap the buffer is the whole window, so each window is the
      previous one extended by the new chunk. */
  lemma {:induction false} ZeroOverlapWindowsGrow(buffer: Chunk, items: seq<Chunk>)
    ensures forall k :: 0 <= k < |items| - 1 ==>
              Windows(buffer, 0, items)[k + 1] == Windows(buffer, 0, items)[k] + items[k + 1]
    decreases |items|
  {
    if items != [] {
      var w := buffer + items[0];
      ZeroOverlapWindowsGrow(w, items[1..]);
      var ws, rest := Windows(buffer, 0, items), Windows(w, 0, items[1..]);
      assert ws == [w] + rest;
      forall k | 0 <= k < |items| - 1
        ensures ws[k + 1] == ws[k] + items[k + 1]
      {
        assert items[1..][k] == items[k + 1];
        if k == 0 {
          assert rest[0] == Tail(w, 0) + items[1..][0];
        } else {
          var j := k - 1;
          assert 0 <= j < |items[1..]| - 1;
          assert rest[j + 1] == rest[j] + items[1..][j + 1];
        }
      }
    }
  }

  /** `AudioOverlapProcessor` of src/window_managers.py: primed from the length of the
      first chunk it sees, then a rolling overlap buffer. `None` fields are `None`. */
  class AudioOverlapProcessor {
    const sampleRate: int
    const outputChunkSize: int
    var overlapFactor: Option<int>
    var overlapSize: Option<int>
    var buffer: Option<Chunk>
    var chunkSize: Option<int>

    /** A primed processor has all its sizes. */
    predicate Valid()
      reads this
    {
      buffer.Some? ==> overlapFactor.Some? && overlapSize.Some? && chunkSize.Some?
    }

    constructor(outputChunkSize: int, sampleRate: int)
      ensures this.outputChunkSize == outputChunkSize && this.sampleRate == sampleRate
      ensures overlapFactor == None && overlapSize == None && buffer == None && chunkSize == None
      ensures Valid()
    {
      this.sampleRate := sampleRate;
      this.outputChunkSize := outputChunkSize;
      overlapFactor := None;
      overlapSize := None;
      buffer := None;
      chunkSize := None;
    }

    /** `prime(chunk_size)`: the factor and overlap are stored before `np.zeros` can
        reject a negative overlap, so a failed prime leaves them set and the buffer unset. */
    method Prime(newChunkSize: int) returns (r: Result<()>)
      modifies this
      requires Valid()
      ensures Valid()
      ensures newChunkSize == 0 ==>
                r == Err(ZeroDivision) &&
                overlapFactor == old(overlapFactor) && overlapSize == old(overlapSize) &&
                buffer == old(buffer) && chunkSize == old(chunkSize)
      ensures newChunkSize != 0 ==>
                overlapFactor == Some(FloorDiv(outputChunkSize, newChunkSize)) &&
                overlapSize == Some(newChunkSize * FloorDiv(outputChunkSize, newChunkSize))
      ensures newChunkSize != 0 && overlapSize.value < 0 ==>
                r == Err(NegativeDimension) && buffer == old(buffer) && chunkSize == old(chunkSize)
      ensures r.Ok? <==> newChunkSize != 0 && overlapSize.value >= 0
      ensures r.Ok? ==>
                buffer == Some(Zeros(overlapSize.value)) &&
                chunkSize == Some(overlapSize.value + newChunkSize)
    {
      if newChunkSize == 0 {
        return Err(ZeroDivision);
      }
      overlapFactor := Some(FloorDiv(outputChunkSize, newChunkSize));
      overlapSize := Some(newChunkSize * overlapFactor.value);
      if overlapSize.value < 0 {
        return Err(NegativeDimension);
      }
      buffer := Some(Zeros(overlapSize.value));
      chunkSize := Some(overlapSize.value + newChunkSize);
      return Ok(());
    }

    /** `process(audio_chunk)`: prime on the first call only, then emit buffer ++ chunk
        and keep its last `overlap_size` samples. */
    method Process(audioChunk: Chunk) returns (r: Result<Chunk>)
      modifies this
      requires Valid()
      ensures Valid()
      ensures old(buffer).Some? ==>
                overlapFactor == old(overlapFactor) && overlapSize == old(overlapSize) &&
                chunkSize == old(chunkSize)
      ensures old(buffer).Some? ==>
                r == Ok(old(buffer).value + audioChunk) &&
                buffer == Some(Tail(r.value, overlapSize.value))
      ensures old(buffer).None? && |audioChunk| == 0 ==>
                r == Err(ZeroDivision) &&
                overlapFactor == old(overlapFactor) && overlapSize == old(overlapSize) &&
                buffer == old(buffer) && chunkSize == old(chunkSize)
      ensures old(buffer).None? && |audioChunk| > 0 ==>
                var layout := OverlapLayout(outputChunkSize, |audioChunk|);
                overlapFactor == Some(FloorDiv(outputChunkSize, |audioChunk|)) &&
                (layout.Err? ==>
                   r == Err(NegativeDimension) && buffer == None && chunkSize == old(chunkSize) &&
                   overlapSize == Some(|audioChunk| * FloorDiv(outputChunkSize, |audioChunk|)) &&
                   overlapSize.value < 0) &&
                (layout.Ok? ==>
                   overlapSize == Some(layout.value.overlapSize) &&
                   chunkSize == Some(layout.value.windowSize) &&
                   r == Ok(Zeros(layout.value.overlapSize) + audioChunk) &&
                   buffer == Some(Tail(r.value, layout.value.overlapSize)))
    {
      if buffer.None? {
        var primed := Prime(|audioChunk|);
        if primed.Err? {
          return Err(primed.error);
        }
      }
      var chunk := buffer.value + audioChunk;
      buffer := Some(Tail(chunk, overlapSize.value));
      return Ok(chunk);
    }
  }

  /** `AudioOverlapper` of source/window_managers.py: the sizes are fixed when it is built. */
  class AudioOverlapper {
    const overlapFactor: int
    const overlapSize: nat
    const chunkSize: int
    var buffer: Chunk

    constructor(layout: Layout)
      requires layout.overlapSize >= 0
      ensures overlapFactor == layout.overlapFactor && overlapSize == layout.overlapSize
      ensures chunkSize == layout.windowSize && buffer == Zeros(layout.overlapSize)
    {
      overlapFactor := layout.overlapFactor;
      overlapSize := layout.overlapSize;
      chunkSize := layout.windowSize;
      buffer := Zeros(layout.overlapSize);
    }

    /** `AudioOverlapper(frequency_resolution, chunk_size, sample_rate)`: the desired
        window is `sample_rate // frequency_resolution` samples. */
    static method Create(frequencyResolution: int, chunkSize: int, sampleRate: int) returns (r: Result<AudioOverlapper>)
      ensures frequencyResolution == 0 ==> r == Err(ZeroDivision)
      ensures frequencyResolution != 0 ==>
                var layout := OverlapLayout(FloorDiv(sampleRate, frequencyResolution), chunkSize);
                (r.Err? <==> layout.Err?) &&
                (r.Err? ==> r.error == layout.error) &&
                (r.Ok? ==>
                   fresh(r.value) &&
                   r.value.overlapFactor == layout.value.overlapFactor &&
                   r.value.overlapSize == layout.value.overlapSize &&
                   r.value.chunkSize == layout.value.windowSize &&
                   r.value.buffer == Zeros(layout.value.overlapSize))
    {
      if frequencyResolution == 0 {
        return Err(ZeroDivision);
      }
      var desiredChunkLength := FloorDiv(sampleRate, frequencyResolution);
      var layout := OverlapLayout(desiredChunkLength, chunkSize);
      if layout.Err? {
        return Err(layout.error);
      }
      var overlapper := new AudioOverlapper(layout.value);
      return Ok(overlapper);
    }

    /** `concatenate(stream_item)`: emit buffer ++ item and keep its last `overlap_size` samples. */
    method Concatenate(streamItem: Chunk) returns (chunk: Chunk)
      modifies this
      ensures chunk == old(buffer) + streamItem
      ensures buffer == Tail(chunk, overlapSize)
    {
      chunk := buffer + streamItem;
      buffer := Tail(chunk, overlapSize);
    }
  }

  /** `IncreaseWindowSizeDecorator.chunk_size`: the decorated stream advertises the
      window size of the overlapper it builds, which `AudioOverlapper.Create` fails or
      succeeds with alike. */
  function IncreasedChunkSize(frequencyResolution: int, chunkSize: int, sampleRate: int): (r: Result<int>)
    ensures frequencyResolution == 0 ==> r == Err(ZeroDivision)
    ensures frequencyResolution != 0 ==>
              var layout := OverlapLayout(FloorDiv(sampleRate, frequencyResolution), chunkSize);
              (r.Err? <==> layout.Err?) &&
              (r.Err? ==> r.error == layout.error) &&
              (r.Ok? ==> r.value == layout.value.windowSize)
    ensures r.Ok? ==> r.value >= chunkSize
    ensures r.Ok? && chunkSize > 0 ==> r.value > FloorDiv(sampleRate, frequencyResolution)
  {
    if frequencyResolution == 0 then Err(ZeroDivision)
    else
      var layout :- OverlapLayout(FloorDiv(sampleRate, frequencyResolution), chunkSize);
      LayoutFitsDesiredLengthIfPositive(FloorDiv(sampleRate, frequencyResolution), chunkSize);
      Ok(layout.windowSize)
  }

  lemma LayoutFitsDesiredLengthIfPositive(desiredLength: int, chunkSize: int)
    ensures chunkSize > 0 && OverlapLayout(desiredLength, chunkSize).Ok? ==>
              desiredLength < OverlapLayout(desiredLength, chunkSize).value.windowSize
  {
    if chunkSize > 0 {
      LayoutFitsDesiredLength(desiredLength, chunkSize);
    }
  }

  /** `sum(|x|)` of a chunk. */
  function SumAbs(s: Chunk): (r: real)
    ensures r >= 0.0
  {
    if s == [] then 0.0 else SumAbs(s[..|s| - 1]) + Abs(s[|s| - 1])
  }

  lemma {:induction false} SumAbsZeros(n: nat)
    ensures SumAbs(Zeros(n)) == 0.0
  {
    if n > 0 {
      assert Zeros(n)[..n - 1] == Zeros(n - 1);
      SumAbsZeros(n - 1);
    }
  }

  /** `SimpleNoiseGateAudioProcessor.process`: the chunk passes when its mean absolute
      value exceeds the threshold and is silenced otherwise. The mean of an empty chunk
      is NaN, which compares false, so an empty chunk gives an empty chunk. */
  function NoiseGate(chunk: Chunk, threshold: real): (r: Chunk)
    ensures |r| == |chunk|
    ensures |chunk| > 0 && SumAbs(chunk) / |chunk| as real > threshold ==> r == chunk
    ensures |chunk| > 0 && SumAbs(chunk) / |chunk| as real <= threshold ==> r == Zeros(|chunk|)
  {
    if |chunk| > 0 && SumAbs(chunk) / |chunk| as real > threshold then chunk
    else Zeros(|chunk|)
  }

  /** Gating a gated chunk changes nothing. */
  lemma NoiseGateIdempotent(chunk: Chunk, threshold: real)
    ensures NoiseGate(NoiseGate(chunk, threshold), threshold) == NoiseGate(chunk, threshold)
  {
    SumAbsZeros(|chunk|);
  }

  /** A numpy array of samples: one-dimensional, or rows of `channels` columns. */
  datatype Signal = Samples(s: seq<real>) | Frames(rows: seq<seq<real>>, channels: nat)

  /** A 2-D array is rectangular. */
  predicate Rectangular(x: Signal)
  {
    x.Frames? ==> forall i :: 0 <= i < |x.rows| ==> |x.rows[i]| == x.channels
  }

  /** `MonoAudioProcessor.process`: average across columns for 2-D input of more than
      one column; anything else is returned as it is. */
  function Mono(x: Signal): (r: Signal)
    requires Rectangular(x)
    ensures x.Samples? || x.channels <= 1 ==> r == x
    ensures x.Frames? && x.channels > 1 ==>
              r.Samples? && |r.s| == |x.rows| &&
              forall i :: 0 <= i < |x.rows| ==> r.s[i] == Sum(x.rows[i]) / x.channels as real
  {
    if x.Frames? && x.channels > 1 then
      Samples(seq(|x.rows|, i requires 0 <= i < |x.rows| => Sum(x.rows[i]) / x.channels as real))
    else x
  }

  lemma {:induction false} SumConstant(s: seq<real>, v: real)
    requires forall j :: 0 <= j < |s| ==> s[j] == v
    ensures Sum(s) == |s| as real * v
  {
    if s != [] {
      SumConstant(s[..|s| - 1], v);
    }
  }

  /** A multi-channel signal whose channels all carry the same samples mixes down to
      those samples. */
  lemma MonoOfIdenticalChannels(rows: seq<seq<real>>, channels: nat, samples: seq<real>)
    requires channels > 1 && |rows| == |samples|
    requires forall i :: 0 <= i < |rows| ==> |rows[i]| == channels
    requires forall i, j :: 0 <= i < |rows| && 0 <= j < channels ==> rows[i][j] == samples[i]
    ensures Mono(Frames(rows, channels)) == Samples(samples)
  {
    forall i | 0 <= i < |rows|
      ensures Sum(rows[i]) / channels as real == samples[i]
    {
      SumConstant(rows[i], samples[i]);
    }
  }
}
