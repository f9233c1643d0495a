/** `YinPitchDetector` of pitch_detection/pitch_detectors.py: the YIN estimate of a chunk
    as a `WaveID` of amplitude 1, with "no pitch" reported as frequency 0. */
module Detectors {
  import opened Common
  import opened Extended
  import opened Yin

  /** A detector fixed to a sample rate and a YIN threshold. */
  datatype YinPitchDetector = YinPitchDetector(sampleRate: int, threshold: real)
  {
    /** `extract_base_frequency`: `WaveID(frequency or 0, 1.0)`. A NaN or infinite pitch
        is carried by the source into a `WaveID` and rejected by the next `int()`; the
        model reports it here. */
    function ExtractBaseFrequency(audioChunk: Chunk): (r: Result<WaveID>)
      ensures r.Ok? ==> r.value.amplitude == 1.0 && r.value.phase == 0.0
      ensures YinPitch(audioChunk, sampleRate, threshold).None? ==> r == Ok(MakeWaveID(0.0, 1.0))
      ensures r.Ok? && r.value.frequency != 0.0 ==> YinPitch(audioChunk, sampleRate, threshold) == Some(Finite(r.value.frequency))
      ensures r.Err? <==> YinPitch(audioChunk, sampleRate, threshold).Some? && !YinPitch(audioChunk, sampleRate, threshold).value.Finite?
      ensures r.Err? ==> r.error == (if YinPitch(audioChunk, sampleRate, threshold).value.NaN? then NotANumber else Infinite)
    {
      match YinPitch(audioChunk, sampleRate, threshold)
      case None => Ok(MakeWaveID(0.0, 1.0))
      case Some(Finite(f)) => Ok(MakeWaveID(f, 1.0))
      case Some(NaN) => Err(NotANumber)
      case Some(_) => Err(Infinite)
    }
  }

  /** `YinPitchDetector(sample_rate)`: the threshold defaults to 0.1. */
  function DefaultYinPitchDetector(sampleRate: int): (d: YinPitchDetector)
    ensures d.sampleRate == sampleRate && d.threshold == 0.1
  {
    YinPitchDetector(sampleRate, 0.1)
  }

  /** Fewer than four samples never carry a pitch: the detector reports frequency 0. */
  lemma ShortChunkReportsZero(detector: YinPitchDetector, audioChunk: Chunk)
    requires |audioChunk| < 4
    ensures detector.ExtractBaseFrequency(audioChunk) == Ok(MakeWaveID(0.0, 1.0))
  {
    ShortChunkHasNoPitch(audioChunk, detector.sampleRate, detector.threshold);
  }

  /** With a non-negative sample rate every reported frequency is non-negative, and no
      pitch is ever infinite: the duration is at least 1 and a refinement moves it by at
      most half a sample. */
  lemma DetectedFrequencyIsNonNegative(detector: YinPitchDetector, audioChunk: Chunk)
    requires detector.sampleRate >= 0
    ensures detector.ExtractBaseFrequency(audioChunk).Ok? ==> detector.ExtractBaseFrequency(audioChunk).value.frequency >= 0.0
    ensures detector.ExtractBaseFrequency(audioChunk) != Err(Infinite)
  {
    YinPitchIsNonNegative(audioChunk, detector.sampleRate, detector.threshold);
  }
}
