/** The frequency extractors of source/frequency_extractor.py, which turn the analytics
    of one chunk into a `WaveID`; the Simple and Harmonic pitch detectors of
    pitch_detection/pitch_detectors.py perform the same selection on their own
    analytics. */
module Extractors {
  import opened Common
  import opened Analytics
  import opened Harmonics

  /** Bin `i` is the first bin of largest magnitude. */
  predicate FirstLoudestBin(mags: seq<real>, i: nat)
  {
    i < |mags| &&
    (forall j :: 0 <= j < |mags| ==> mags[j] <= mags[i]) &&
    (forall j :: 0 <= j < i ==> mags[j] < mags[i])
  }

  /** The wave of bin `i`: its frequency and its magnitude scaled by the chunk size. */
  predicate WaveOfBin(a: AudioAnalytics, i: nat, w: WaveID)
  {
    i < |a.frequencyRange| && i < |a.magnitudes| &&
    w.frequency == a.frequencyRange[i] && w.amplitude * a.chunkSize as real == a.magnitudes[i] && w.phase == 0.0
  }

  /** `SimpleFrequencyExtractor.extract_wave_id` (and `SimplePitchDetector`): `argmax`
      raises on no magnitudes, `frequency_range[index]` on a short axis, and a zero
      chunk size gives an infinite or NaN amplitude. */
  function SimpleWaveID(a: AudioAnalytics): (r: Result<WaveID>)
    ensures |a.magnitudes| == 0 ==> r == Err(EmptySequence)
    ensures |a.magnitudes| > 0 && a.chunkSize != 0 && |a.frequencyRange| >= |a.magnitudes| ==> r.Ok?
    ensures r.Ok? ==> a.chunkSize != 0 && exists i :: FirstLoudestBin(a.magnitudes, i) && WaveOfBin(a, i, r.value)
  {
    if |a.magnitudes| == 0 then Err(EmptySequence)
    else
      var i := ArgMax(a.magnitudes);
      if i >= |a.frequencyRange| then Err(IndexOutOfRange)
      else if a.chunkSize == 0 then Err(ZeroDivision)
      else
        var w := MakeWaveID(a.frequencyRange[i], a.magnitudes[i] / a.chunkSize as real);
        assert FirstLoudestBin(a.magnitudes, i) && WaveOfBin(a, i, w);
        Ok(w)
  }

  /** On the analytics of a full chunk from a plain analyser with a positive chunk size
      and sample rate, the simple extractor always succeeds with a non-negative
      amplitude. */
  lemma SimpleWaveIDOfAnalysis(chunkSize: int, sampleRate: int, audioChunk: Chunk,
                               rfft: Chunk -> seq<Complex>, modulus: Complex -> real)
    requires IsRfft(rfft) && IsModulus(modulus)
    requires chunkSize > 0 && sampleRate > 0 && |audioChunk| == chunkSize
    ensures Analysis(chunkSize, sampleRate, None, audioChunk, rfft, modulus).Ok?
    ensures var w := SimpleWaveID(Analysis(chunkSize, sampleRate, None, audioChunk, rfft, modulus).value);
            w.Ok? && w.value.amplitude >= 0.0
  {
    var a := Analysis(chunkSize, sampleRate, None, audioChunk, rfft, modulus).value;
    assert |a.magnitudes| == |a.frequencyRange| == chunkSize / 2 + 1;
    var i := ArgMax(a.magnitudes);
    assert SimpleWaveID(a) == Ok(MakeWaveID(a.frequencyRange[i], a.magnitudes[i] / chunkSize as real));
    assert a.magnitudes[i] >= 0.0;
  }

  /** The entries that `base_frequency_indexes(freqs, lenience)` returns. */
  predicate BaseIndexesOf(freqs: seq<real>, lenience: real, bases: seq<Option<nat>>)
  {
    |bases| == |freqs| && forall i :: 0 <= i < |freqs| ==> Ok(bases[i]) == BaseScan(freqs, i, 0, lenience)
  }

  /** `HarmonicFrequencyExtractor` (and `HarmonicPitchDetector`): the base indexes are
      computed from the first frequency axis it sees and reused for every later chunk. */
  class HarmonicFrequencyExtractor {
    const lenience: real
    var cachedIndexes: Option<seq<Option<nat>>>
    ghost var cachedFrequencies: seq<real>

    /** The cache holds the base indexes of the axis it was computed from. */
    ghost predicate Valid()
      reads this
    {
      cachedIndexes.Some? ==> BaseIndexesOf(cachedFrequencies, lenience, cachedIndexes.value)
    }

    /** `lenience` defaults to 1. */
    constructor(lenience: real)
      ensures this.lenience == lenience && cachedIndexes == None && Valid()
    {
      this.lenience := lenience;
      cachedIndexes := None;
      cachedFrequencies := [];
    }

    /** `harmonic_indexes(frequencies)`: the cached indexes when there are any, whatever
        `frequencies` is now; otherwise `base_frequency_indexes`, cached on success. */
    method HarmonicIndexes(frequencies: seq<real>) returns (r: Result<seq<Option<nat>>>)
      requires Valid()
      modifies this
      ensures Valid()
      ensures old(cachedIndexes).Some? ==>
                r == Ok(old(cachedIndexes).value) && cachedIndexes == old(cachedIndexes) &&
                cachedFrequencies == old(cachedFrequencies)
      ensures old(cachedIndexes).None? && r.Ok? ==>
                BaseIndexesOf(frequencies, lenience, r.value) && cachedIndexes == Some(r.value) &&
                cachedFrequencies == frequencies
      ensures old(cachedIndexes).None? && r.Err? ==>
                r.error == NonFiniteRound && cachedIndexes == None &&
                exists i :: 0 <= i < |frequencies| && BaseScan(frequencies, i, 0, lenience).Err?
      ensures r.Ok? ==> cachedIndexes == Some(r.value)
    {
      if cachedIndexes.None? {
        var indexes := BaseFrequencyIndexes(frequencies, lenience);
        if indexes.Err? {
          return indexes;
        }
        cachedIndexes := Some(indexes.value);
        cachedFrequencies := frequencies;
      }
      return Ok(cachedIndexes.value);
    }

    /** `extract_wave_id(analytics)`: the loudest bin of the loudest harmonic group of
        the cached indexes. No anchored bin leaves no index to report. */
    method ExtractWaveID(a: AudioAnalytics) returns (r: Result<WaveID>)
      requires Valid()
      modifies this
      ensures Valid()
      ensures old(cachedIndexes).Some? ==> cachedIndexes == old(cachedIndexes) && cachedFrequencies == old(cachedFrequencies)
      ensures old(cachedIndexes).None? && cachedIndexes.Some? ==> cachedFrequencies == a.frequencyRange
      ensures cachedIndexes.None? ==> r.Err? && r.error == NonFiniteRound
      ensures cachedIndexes.Some? ==>
                var bases := cachedIndexes.value;
                (!Covered(bases, a.magnitudes, |bases|) ==> r == Err(IndexOutOfRange)) &&
                (Covered(bases, a.magnitudes, |bases|) && (forall k :: 0 <= k < |bases| ==> bases[k].None?) ==>
                   r == Err(NoAnchoredBin))
      ensures r.Ok? ==>
                cachedIndexes.Some? && Covered(cachedIndexes.value, a.magnitudes, |cachedIndexes.value|) &&
                exists i :: LoudestOfLoudestGroup(cachedIndexes.value, a.magnitudes, i) && WaveOfBin(a, i, r.value)
      ensures old(cachedIndexes).Some? ||
              (forall i :: 0 <= i < |a.frequencyRange| ==> BaseScan(a.frequencyRange, i, 0, lenience).Ok?) ==>
                cachedIndexes.Some?
      ensures cachedIndexes.Some? ==>
                var bases := cachedIndexes.value;
                Covered(bases, a.magnitudes, |bases|) && (exists k :: 0 <= k < |bases| && bases[k].Some?) &&
                (forall i: nat :: LoudestOfLoudestGroup(bases, a.magnitudes, i) ==> i < |a.frequencyRange|) ==>
                  (a.chunkSize != 0 ==> r.Ok?) && (a.chunkSize == 0 ==> r == Err(ZeroDivision))
    {
      var indexes :- HarmonicIndexes(a.frequencyRange);
      r := HarmonicWaveID(indexes, a);
    }
  }

  /** The selection step of `extract_wave_id` once the base indexes are known:
      `loudest_harmonic_of_loudest_base`, then the frequency and scaled magnitude of the
      bin it picks. */
  method HarmonicWaveID(bases: seq<Option<nat>>, a: AudioAnalytics) returns (r: Result<WaveID>)
    ensures !Covered(bases, a.magnitudes, |bases|) ==> r == Err(IndexOutOfRange)
    ensures Covered(bases, a.magnitudes, |bases|) && (forall k :: 0 <= k < |bases| ==> bases[k].None?) ==>
              r == Err(NoAnchoredBin)
    ensures r.Ok? ==>
              Covered(bases, a.magnitudes, |bases|) &&
              exists i :: LoudestOfLoudestGroup(bases, a.magnitudes, i) && WaveOfBin(a, i, r.value)
    ensures Covered(bases, a.magnitudes, |bases|) && (exists k :: 0 <= k < |bases| && bases[k].Some?) &&
            (forall i: nat :: LoudestOfLoudestGroup(bases, a.magnitudes, i) ==> i < |a.frequencyRange|) ==>
              (a.chunkSize != 0 ==> r.Ok?) && (a.chunkSize == 0 ==> r == Err(ZeroDivision))
  {
    var i := LoudestHarmonicOfLoudestBase(bases, a.magnitudes);
    if i.Err? {
      return Err(i.error);
    }
    if i.value.None? {
      return Err(NoAnchoredBin);
    }
    var index := i.value.value;
    if index >= |a.frequencyRange| {
      return Err(IndexOutOfRange);
    }
    if a.chunkSize == 0 {
      return Err(ZeroDivision);
    }
    var w := MakeWaveID(a.frequencyRange[index], a.magnitudes[index] / a.chunkSize as real);
    assert WaveOfBin(a, index, w);
    return Ok(w);
  }
}
