/** Spectral analysis of source/analytics.py: the bin frequencies of a real FFT, the
    band edges found by `searchsorted`, and the analytics record of a chunk, with
    the FFT itself and the complex modulus taken as given functions. */
module Analytics {
  import opened Common

  datatype Complex = Complex(re: real, im: real)

  /** The `AudioAnalytics` record. */
  datatype AudioAnalytics = AudioAnalytics(
    chunkSize: int,
    sampleRate: int,
    frequencyRange: seq<real>,
    complexSpectrum: seq<Complex>,
    magnitudes: seq<real>)

  /** What is kept of `np.fft.rfft`: a spectrum of `n // 2 + 1` bins for `n` samples. */
  ghost predicate IsRfft(rfft: Chunk -> seq<Complex>)
  {
    forall x :: |x| > 0 ==> |rfft(x)| == |x| / 2 + 1
  }

  /** What is kept of `np.abs` on a complex number: the non-negative square root of
      `re² + im²`. */
  ghost predicate IsModulus(modulus: Complex -> real)
  {
    forall c :: modulus(c) >= 0.0 && modulus(c) * modulus(c) == c.re * c.re + c.im * c.im
  }

  /** The centre frequency of FFT bin `k` for `n` samples at `sampleRate`. */
  function BinFrequency(k: int, n: int, sampleRate: int): real
    requires n != 0
  {
    k as real * (sampleRate as real / n as real)
  }

  /** `np.fft.rfftfreq(n, d=1/sample_rate)`: bin `k` of `n // 2 + 1` is `k * sample_rate / n`.
      `1 / sample_rate` and `1 / (n * d)` divide by zero when either is zero; the bins are
      `arange(0, n // 2 + 1)`, which is empty for a negative `n`. */
  function RfftFreq(n: int, sampleRate: int): (r: Result<seq<real>>)
    ensures r.Err? <==> n == 0 || sampleRate == 0
    ensures r.Err? ==> r.error == ZeroDivision
    ensures r.Ok? && n > 0 ==> |r.value| == n / 2 + 1
    ensures r.Ok? && n < 0 ==> r.value == []
    ensures r.Ok? ==> n != 0 && forall k :: 0 <= k < |r.value| ==> r.value[k] == BinFrequency(k, n, sampleRate)
  {
    if sampleRate == 0 || n == 0 then Err(ZeroDivision)
    else
      var bins := FloorDiv(n, 2) + 1;
      if bins <= 0 then Ok([])
      else Ok(seq(bins, k => BinFrequency(k, n, sampleRate)))
  }

  predicate Ascending(a: seq<real>)
  {
    forall i, j :: 0 <= i < j < |a| ==> a[i] < a[j]
  }

  /** For a positive chunk size and sample rate the bins start at 0 and ascend. */
  lemma RfftFreqAscending(n: int, sampleRate: int)
    requires n > 0 && sampleRate > 0
    ensures RfftFreq(n, sampleRate).Ok?
    ensures Ascending(RfftFreq(n, sampleRate).value)
    ensures RfftFreq(n, sampleRate).value[0] == 0.0
  {
    var a := RfftFreq(n, sampleRate).value;
    var step := sampleRate as real / n as real;
    assert step > 0.0;
    forall i, j | 0 <= i < j < |a|
      ensures a[i] < a[j]
    {
      ScaleIsIncreasing(i as real, j as real, step);
    }
  }

  lemma ScaleIsIncreasing(x: real, y: real, step: real)
    requires x < y && step > 0.0
    ensures x * step < y * step
  {
    assert y * step - x * step == (y - x) * step;
  }

  /** The number of entries below `v`: `np.searchsorted(a, v)` (side 'left') on an ascending
      `a`, which numpy requires and `CountBelowSplits` characterises. */
  function CountBelow(a: seq<real>, v: real): (c: nat)
    ensures c <= |a|
  {
    if a == [] then 0 else CountBelow(a[..|a| - 1], v) + (if a[|a| - 1] < v then 1 else 0)
  }

  /** The number of entries at most `v`: `np.searchsorted(a, v, side='right')` on an ascending
      `a`, which numpy requires and `CountAtMostSplits` characterises. */
  function CountAtMost(a: seq<real>, v: real): (c: nat)
    ensures c <= |a|
  {
    if a == [] then 0 else CountAtMost(a[..|a| - 1], v) + (if a[|a| - 1] <= v then 1 else 0)
  }

  /** On an ascending sequence the count below `v` is the leftmost insertion point:
      the entries before it are below `v` and the rest are not. */
  lemma {:induction false} CountBelowSplits(a: seq<real>, v: real)
    requires Ascending(a)
    ensures forall k :: 0 <= k < |a| ==> (a[k] < v <==> k < CountBelow(a, v))
  {
    if a != [] {
      var init := a[..|a| - 1];
      assert Ascending(init);
      CountBelowSplits(init, v);
      if a[|a| - 1] < v {
        assert forall k :: 0 <= k < |init| ==> init[k] < v;
      }
    }
  }

  /** On an ascending sequence the count at most `v` is the rightmost insertion point. */
  lemma {:induction false} CountAtMostSplits(a: seq<real>, v: real)
    requires Ascending(a)
    ensures forall k :: 0 <= k < |a| ==> (a[k] <= v <==> k < CountAtMost(a, v))
  {
    if a != [] {
      var init := a[..|a| - 1];
      assert Ascending(init);
      CountAtMostSplits(init, v);
      if a[|a| - 1] <= v {
        assert forall k :: 0 <= k < |init| ==> init[k] <= v;
      }
    }
  }

  /** The two band edges of `RangedAudioAnalyser`. */
  datatype Band = Band(minFreq: real, maxFreq: real)

  /** The defaults of `RangedAudioAnalyser`: 85 Hz to 1100 Hz. */
  function DefaultBand(): (b: Band)
    ensures b.minFreq == 85.0 && b.maxFreq == 1100.0
  {
    Band(85.0, 1100.0)
  }

  /** `frequency_range[min_index:max_index]` is exactly the bins inside the closed band:
      both edges included. */
  lemma BandIsInclusive(freqs: seq<real>, band: Band)
    requires Ascending(freqs)
    ensures var lo, hi := CountBelow(freqs, band.minFreq), CountAtMost(freqs, band.maxFreq);
            forall k :: 0 <= k < |freqs| ==> (band.minFreq <= freqs[k] <= band.maxFreq <==> lo <= k < hi)
    ensures forall f :: f in Slice(freqs, CountBelow(freqs, band.minFreq), CountAtMost(freqs, band.maxFreq)) ==>
              band.minFreq <= f <= band.maxFreq
  {
    CountBelowSplits(freqs, band.minFreq);
    CountAtMostSplits(freqs, band.maxFreq);
    SliceOfBandBins(freqs, band, CountBelow(freqs, band.minFreq), CountAtMost(freqs, band.maxFreq));
  }

  /** When the bins inside the band are exactly those from `lo` up to `hi`, the slice
      between them holds band frequencies only. */
  lemma SliceOfBandBins(freqs: seq<real>, band: Band, lo: nat, hi: nat)
    requires lo <= |freqs| && hi <= |freqs|
    requires forall k :: 0 <= k < |freqs| ==> (band.minFreq <= freqs[k] <= band.maxFreq <==> lo <= k < hi)
    ensures forall f :: f in Slice(freqs, lo, hi) ==> band.minFreq <= f <= band.maxFreq
  {
    var sl := Slice(freqs, lo, hi);
    forall f | f in sl
      ensures band.minFreq <= f <= band.maxFreq
    {
      var k :| 0 <= k < |sl| && sl[k] == f;
      assert freqs[lo + k] == f;
    }
  }

  /** `np.abs` of every bin. */
  function Magnitudes(spectrum: seq<Complex>, modulus: Complex -> real): (m: seq<real>)
    requires IsModulus(modulus)
    ensures |m| == |spectrum|
    ensures forall k :: 0 <= k < |m| ==> m[k] >= 0.0 && m[k] * m[k] == spectrum[k].re * spectrum[k].re + spectrum[k].im * spectrum[k].im
  {
    seq(|spectrum|, k requires 0 <= k < |spectrum| => modulus(spectrum[k]))
  }

  /** What `analyse` returns: for a plain analyser the whole spectrum, for a ranged one
      the bins `min_index..max_index`. The FFT runs first and rejects an empty chunk;
      the frequency range, computed next, depends on the constructor's chunk size only. */
  function Analysis(chunkSize: int, sampleRate: int, band: Option<Band>, audioChunk: Chunk,
                    rfft: Chunk -> seq<Complex>, modulus: Complex -> real): (r: Result<AudioAnalytics>)
    requires IsRfft(rfft) && IsModulus(modulus)
    ensures |audioChunk| == 0 ==> r == Err(InvalidLength)
    ensures |audioChunk| > 0 ==> (r.Err? <==> RfftFreq(chunkSize, sampleRate).Err?)
    ensures r.Ok? ==>
              var a := r.value;
              var freqs := RfftFreq(chunkSize, sampleRate).value;
              a.chunkSize == chunkSize && a.sampleRate == sampleRate &&
              |a.magnitudes| == |a.complexSpectrum| &&
              (forall k :: 0 <= k < |a.magnitudes| ==> a.magnitudes[k] == modulus(a.complexSpectrum[k]) && a.magnitudes[k] >= 0.0) &&
              (band.None? ==> a.frequencyRange == freqs && a.complexSpectrum == rfft(audioChunk)) &&
              (band.Some? ==>
                 var lo, hi := CountBelow(freqs, band.value.minFreq), CountAtMost(freqs, band.value.maxFreq);
                 a.frequencyRange == Slice(freqs, lo, hi) && a.complexSpectrum == Slice(rfft(audioChunk), lo, hi))
    ensures r.Ok? && |audioChunk| == chunkSize ==> |r.value.frequencyRange| == |r.value.complexSpectrum|
  {
    if |audioChunk| == 0 then Err(InvalidLength)
    else
      var spectrum := rfft(audioChunk);
      var freqs :- RfftFreq(chunkSize, sampleRate);
      match band
      case None => Ok(AudioAnalytics(chunkSize, sampleRate, freqs, spectrum, Magnitudes(spectrum, modulus)))
      case Some(b) =>
        var lo, hi := CountBelow(freqs, b.minFreq), CountAtMost(freqs, b.maxFreq);
        var ranged := Slice(spectrum, lo, hi);
        Ok(AudioAnalytics(chunkSize, sampleRate, Slice(freqs, lo, hi), ranged, Magnitudes(ranged, modulus)))
  }

  /** With a positive chunk size and sample rate a ranged analysis holds exactly the
      in-band bins, in ascending order. */
  lemma RangedAnalysisInBand(chunkSize: int, sampleRate: int, band: Band, audioChunk: Chunk,
                             rfft: Chunk -> seq<Complex>, modulus: Complex -> real)
    requires IsRfft(rfft) && IsModulus(modulus)
    requires chunkSize > 0 && sampleRate > 0 && |audioChunk| > 0
    ensures Analysis(chunkSize, sampleRate, Some(band), audioChunk, rfft, modulus).Ok?
    ensures var fr := Analysis(chunkSize, sampleRate, Some(band), audioChunk, rfft, modulus).value.frequencyRange;
            Ascending(fr) && forall k :: 0 <= k < |fr| ==> band.minFreq <= fr[k] <= band.maxFreq
  {
    RfftFreqAscending(chunkSize, sampleRate);
    var freqs := RfftFreq(chunkSize, sampleRate).value;
    BandIsInclusive(freqs, band);
    var fr := Analysis(chunkSize, sampleRate, Some(band), audioChunk, rfft, modulus).value.frequencyRange;
    forall k | 0 <= k < |fr|
      ensures band.minFreq <= fr[k] <= band.maxFreq
    {
      assert fr[k] in fr;
    }
  }

  /** `AudioAnalyser` (no band) and `RangedAudioAnalyser` (a band): `frequency_range`,
      `min_index`, `max_index` and `ranged_frequency_range` are cached properties,
      computed on first use and kept for the life of the analyser. */
  class AudioAnalyser {
    const chunkSize: int
    const sampleRate: int
    const band: Option<Band>
    var frequencyRangeCache: Option<seq<real>>
    var minIndexCache: Option<nat>
    var maxIndexCache: Option<nat>
    var rangedFrequencyRangeCache: Option<seq<real>>

    /** Every cached value is the value of its property. */
    predicate Valid()
      reads this
    {
      (frequencyRangeCache.Some? ==> RfftFreq(chunkSize, sampleRate) == Ok(frequencyRangeCache.value)) &&
      (minIndexCache.Some? ==> band.Some? && MinIndexOf() == Ok(minIndexCache.value)) &&
      (maxIndexCache.Some? ==> band.Some? && MaxIndexOf() == Ok(maxIndexCache.value)) &&
      (rangedFrequencyRangeCache.Some? ==> band.Some? && RangedFrequencyRangeOf() == Ok(rangedFrequencyRangeCache.value)) &&
      (minIndexCache.Some? || maxIndexCache.Some? || rangedFrequencyRangeCache.Some? ==> frequencyRangeCache.Some?)
    }

    /** The value of `min_index`. */
    function MinIndexOf(): (r: Result<nat>)
      requires band.Some?
      ensures r.Ok? ==> RfftFreq(chunkSize, sampleRate).Ok? && r.value <= |RfftFreq(chunkSize, sampleRate).value|
    {
      var freqs :- RfftFreq(chunkSize, sampleRate);
      Ok(CountBelow(freqs, band.value.minFreq))
    }

    /** The value of `max_index`. */
    function MaxIndexOf(): (r: Result<nat>)
      requires band.Some?
      ensures r.Ok? ==> RfftFreq(chunkSize, sampleRate).Ok? && r.value <= |RfftFreq(chunkSize, sampleRate).value|
    {
      var freqs :- RfftFreq(chunkSize, sampleRate);
      Ok(CountAtMost(freqs, band.value.maxFreq))
    }

    /** The value of `ranged_frequency_range`. */
    function RangedFrequencyRangeOf(): (r: Result<seq<real>>)
      requires band.Some?
    {
      var freqs :- RfftFreq(chunkSize, sampleRate);
      Ok(Slice(freqs, CountBelow(freqs, band.value.minFreq), CountAtMost(freqs, band.value.maxFreq)))
    }

    constructor(chunkSize: int, sampleRate: int, band: Option<Band>)
      ensures this.chunkSize == chunkSize && this.sampleRate == sampleRate && this.band == band
      ensures frequencyRangeCache == None && minIndexCache == None && maxIndexCache == None
      ensures rangedFrequencyRangeCache == None
      ensures Valid()
    {
      this.chunkSize := chunkSize;
      this.sampleRate := sampleRate;
      this.band := band;
      frequencyRangeCache := None;
      minIndexCache := None;
      maxIndexCache := None;
      rangedFrequencyRangeCache := None;
    }

    /** `frequency_range`: computed once; a failure is not cached. */
    method FrequencyRange() returns (r: Result<seq<real>>)
      requires Valid()
      modifies this
      ensures Valid()
      ensures r == RfftFreq(chunkSize, sampleRate)
      ensures old(frequencyRangeCache).Some? ==> frequencyRangeCache == old(frequencyRangeCache)
      ensures r.Ok? ==> frequencyRangeCache == Some(r.value)
      ensures r.Err? ==> frequencyRangeCache == None
      ensures minIndexCache == old(minIndexCache) && maxIndexCache == old(maxIndexCache)
      ensures rangedFrequencyRangeCache == old(rangedFrequencyRangeCache)
    {
      if frequencyRangeCache.None? {
        var freqs := RfftFreq(chunkSize, sampleRate);
        if freqs.Err? {
          return freqs;
        }
        frequencyRangeCache := Some(freqs.value);
      }
      return Ok(frequencyRangeCache.value);
    }

    /** `min_index = searchsorted(frequency_range, min_freq)`. */
    method MinIndex() returns (r: Result<nat>)
      requires Valid() && band.Some?
      modifies this
      ensures Valid()
      ensures r == MinIndexOf()
      ensures old(minIndexCache).Some? ==> minIndexCache == old(minIndexCache)
      ensures r.Ok? ==> minIndexCache == Some(r.value) && frequencyRangeCache.Some?
      ensures maxIndexCache == old(maxIndexCache) && rangedFrequencyRangeCache == old(rangedFrequencyRangeCache)
    {
      if minIndexCache.None? {
        var freqs :- FrequencyRange();
        minIndexCache := Some(CountBelow(freqs, band.value.minFreq));
      }
      return Ok(minIndexCache.value);
    }

    /** `max_index = searchsorted(frequency_range, max_freq, side='right')`. */
    method MaxIndex() returns (r: Result<nat>)
      requires Valid() && band.Some?
      modifies this
      ensures Valid()
      ensures r == MaxIndexOf()
      ensures old(maxIndexCache).Some? ==> maxIndexCache == old(maxIndexCache)
      ensures r.Ok? ==> maxIndexCache == Some(r.value) && frequencyRangeCache.Some?
      ensures minIndexCache == old(minIndexCache) && rangedFrequencyRangeCache == old(rangedFrequencyRangeCache)
    {
      if maxIndexCache.None? {
        var freqs :- FrequencyRange();
        maxIndexCache := Some(CountAtMost(freqs, band.value.maxFreq));
      }
      return Ok(maxIndexCache.value);
    }

    /** `ranged_frequency_range = frequency_range[min_index:max_index]`. */
    method RangedFrequencyRange() returns (r: Result<seq<real>>)
      requires Valid() && band.Some?
      modifies this
      ensures Valid()
      ensures r == RangedFrequencyRangeOf()
      ensures r.Ok? ==> rangedFrequencyRangeCache == Some(r.value)
      ensures old(rangedFrequencyRangeCache).Some? ==> rangedFrequencyRangeCache == old(rangedFrequencyRangeCache)
    {
      if rangedFrequencyRangeCache.None? {
        var freqs :- FrequencyRange();
        var lo := MinIndex();
        var hi := MaxIndex();
        rangedFrequencyRangeCache := Some(Slice(freqs, lo.value, hi.value));
      }
      return Ok(rangedFrequencyRangeCache.value);
    }

    /** `analyse(audio_chunk)`: the FFT of the chunk, then the (cached) frequency axis. */
    method Analyse(audioChunk: Chunk, rfft: Chunk -> seq<Complex>, modulus: Complex -> real) returns (r: Result<AudioAnalytics>)
      requires Valid() && IsRfft(rfft) && IsModulus(modulus)
      modifies this
      ensures Valid()
      ensures r == Analysis(chunkSize, sampleRate, band, audioChunk, rfft, modulus)
    {
      if |audioChunk| == 0 {
        return Err(InvalidLength);
      }
      var complexSpectrum := rfft(audioChunk);
      if band.None? {
        var freqs :- FrequencyRange();
        return Ok(AudioAnalytics(chunkSize, sampleRate, freqs, complexSpectrum, Magnitudes(complexSpectrum, modulus)));
      }
      var lo :- MinIndex();
      var hi := MaxIndex();
      var ranged := Slice(complexSpectrum, lo, hi.value);
      var freqs := RangedFrequencyRange();
      return Ok(AudioAnalytics(chunkSize, sampleRate, freqs.value, ranged, Magnitudes(ranged, modulus)));
    }
  }
}
