/** Pitch shifting by resampling: the manipulators of source/manipulators.py, the pitch
    handlers of source/pitch_handler.py and the YIN pitch shifters of src/pitch_shifter.py
    and source/pitch_shifter.py. All of them stretch a chunk by `detected / target` and
    resample it to `int(len(chunk) * factor)` samples; they differ in where the detected
    pitch and the target come from. */
module Shifting {
  import opened Common
  import opened Extended
  import opened Services
  import opened Analytics
  import opened FrequencyGetters
  import opened Yin
  import opened Detectors

  /** Stretch `chunk` from `detected` to `target`: `resample(chunk, int(len * detected / target))`. */
  function ShiftTo(resample: (Chunk, nat) -> Chunk, chunk: Chunk, detected: real, target: real): (r: Result<Chunk>)
    requires IsResampler(resample)
    ensures target == 0.0 ==> r == Err(ZeroDivision)
    ensures target != 0.0 ==> (r.Ok? <==> |chunk| as real * (detected / target) > -1.0)
    ensures r.Ok? ==> target != 0.0 && |r.value| == Trunc(|chunk| as real * (detected / target)) && r.value == resample(chunk, |r.value|)
    ensures target != 0.0 && detected == target ==> r.Ok? && |r.value| == |chunk|
    ensures target != 0.0 && detected == 0.0 ==> r == Ok([])
  {
    match StretchFactor(detected, target)
    case Err(e) => Err(e)
    case Ok(factor) =>
      var out := ResampleToSize(resample, chunk, factor);
      var x := |chunk| as real * factor;
      assert out.Err? <==> x <= -1.0;
      assert out.Ok? <==> x > -1.0;
      assert factor == detected / target;
      assert x == |chunk| as real * (detected / target);
      out
  }

  /** Shift `chunk` from `detected` to the target `getter` chooses for it. */
  function Retune(getter: FrequencyGetter, resample: (Chunk, nat) -> Chunk, chunk: Chunk, detected: real): (r: Result<Chunk>)
    requires IsResampler(resample)
    ensures getter.TargetFrequency(detected).Err? ==> r == Err(IndexOutOfRange)
    ensures getter.TargetFrequency(detected).Ok? ==> r == ShiftTo(resample, chunk, detected, getter.TargetFrequency(detected).value)
  {
    var target :- getter.TargetFrequency(detected);
    ShiftTo(resample, chunk, detected, target)
  }

  /** A pitch that is already a non-zero table entry is left as it is: factor 1, so the
      chunk keeps its length. */
  lemma RetuneOnEntryKeepsLength(selection: seq<real>, resample: (Chunk, nat) -> Chunk, chunk: Chunk, detected: real)
    requires IsResampler(resample) && detected in selection && detected != 0.0
    ensures var r := Retune(NearestFrequencyGetter(selection), resample, chunk, detected);
            r.Ok? && |r.value| == |chunk|
  {
    NearestOfEntryIsItself(selection, detected);
  }

  /** The source's manipulators. */
  datatype Manipulator = MonoToneManipulator(frequency: real) | AutoTuneManipulator(frequencies: seq<real>)
  {
    /** The target each manipulator aims for: one frequency, or the nearest of a table. */
    function Getter(): (g: FrequencyGetter)
      ensures MonoToneManipulator? ==> g == FixedFrequencyGetter(frequency)
      ensures AutoTuneManipulator? ==> g == NearestFrequencyGetter(frequencies)
    {
      match this
      case MonoToneManipulator(f) => FixedFrequencyGetter(f)
      case AutoTuneManipulator(fs) => NearestFrequencyGetter(fs)
    }

    /** `manipulate(audio_chunk, analytics, wave_id)`: `analytics` is never read. */
    function Manipulate(resample: (Chunk, nat) -> Chunk, audioChunk: Chunk, analytics: AudioAnalytics, waveId: WaveID): (r: Result<Chunk>)
      requires IsResampler(resample)
      ensures r == Retune(Getter(), resample, audioChunk, waveId.frequency)
      ensures MonoToneManipulator? && r.Ok? ==> |r.value| == Trunc(|audioChunk| as real * (waveId.frequency / frequency))
    {
      Retune(Getter(), resample, audioChunk, waveId.frequency)
    }
  }

  /** The source's pitch handlers; `stretch_algorithm` is `ResampleStretchAlgorithm`. */
  datatype PitchHandler = MonoTonePitchHandler(frequency: real) | SelectionPitchHandler(frequencySelection: seq<real>)
  {
    function Getter(): (g: FrequencyGetter)
      ensures MonoTonePitchHandler? ==> g == FixedFrequencyGetter(frequency)
      ensures SelectionPitchHandler? ==> g == NearestFrequencyGetter(frequencySelection)
    {
      match this
      case MonoTonePitchHandler(f) => FixedFrequencyGetter(f)
      case SelectionPitchHandler(fs) => NearestFrequencyGetter(fs)
    }

    /** `handle(audio_chunk, f0)`. */
    function Handle(resample: (Chunk, nat) -> Chunk, audioChunk: Chunk, f0: WaveID): (r: Result<Chunk>)
      requires IsResampler(resample)
      ensures r == Retune(Getter(), resample, audioChunk, f0.frequency)
      ensures MonoTonePitchHandler? && r.Ok? ==> |r.value| == Trunc(|audioChunk| as real * (f0.frequency / frequency))
    {
      Retune(Getter(), resample, audioChunk, f0.frequency)
    }

    /** `process(audio_chunk)`: detect, then handle the chunk with what was detected.
        The detector is a parameter; an exception it raises ends the call. */
    function Process(detect: Chunk -> Result<WaveID>, resample: (Chunk, nat) -> Chunk, audioChunk: Chunk): (r: Result<Chunk>)
      requires IsResampler(resample)
      ensures detect(audioChunk).Err? ==> r == Err(detect(audioChunk).error)
      ensures detect(audioChunk).Ok? ==> r == Handle(resample, audioChunk, detect(audioChunk).value)
    {
      var f0 :- detect(audioChunk);
      Handle(resample, audioChunk, f0)
    }
  }

  /** `YinPitchShifter`: a YIN detector at the default threshold and a getter. */
  datatype YinPitchShifter = YinPitchShifter(frequencyGetter: FrequencyGetter, sampleRate: int)
  {
    function Detector(): (d: YinPitchDetector)
      ensures d == DefaultYinPitchDetector(sampleRate)
    {
      DefaultYinPitchDetector(sampleRate)
    }

    /** `process(audio_chunk)`: detect `f0`, ask the getter for the target of
        `f0.frequency`, and resample by `f0 / target`. */
    function Process(resample: (Chunk, nat) -> Chunk, audioChunk: Chunk): (r: Result<Chunk>)
      requires IsResampler(resample)
      ensures Detector().ExtractBaseFrequency(audioChunk).Err? ==> r.Err?
      ensures Detector().ExtractBaseFrequency(audioChunk).Ok? ==>
                r == Retune(frequencyGetter, resample, audioChunk, Detector().ExtractBaseFrequency(audioChunk).value.frequency)
    {
      var f0 :- Detector().ExtractBaseFrequency(audioChunk);
      Retune(frequencyGetter, resample, audioChunk, f0.frequency)
    }
  }

  /** When YIN finds no pitch the detected frequency is 0, and any non-zero target
      stretches the chunk to nothing. */
  lemma NoPitchShiftsToEmpty(shifter: YinPitchShifter, resample: (Chunk, nat) -> Chunk, audioChunk: Chunk)
    requires IsResampler(resample)
    requires YinPitch(audioChunk, shifter.sampleRate, 0.1).None?
    requires shifter.frequencyGetter.TargetFrequency(0.0).Ok? && shifter.frequencyGetter.TargetFrequency(0.0).value != 0.0
    ensures shifter.Process(resample, audioChunk) == Ok([])
  {
  }

  /** A chunk of fewer than four samples has no pitch, so with a fixed non-zero target it
      comes out empty. */
  lemma ShortChunkShiftsToEmpty(target: real, sampleRate: int, resample: (Chunk, nat) -> Chunk, audioChunk: Chunk)
    requires IsResampler(resample) && |audioChunk| < 4 && target != 0.0
    ensures YinPitchShifter(FixedFrequencyGetter(target), sampleRate).Process(resample, audioChunk) == Ok([])
  {
    ShortChunkHasNoPitch(audioChunk, sampleRate, 0.1);
  }

  /** A detected pitch equal to a non-zero fixed target leaves the length unchanged, and
      any other detected pitch `f` gives `int(len * f / target)` samples. */
  lemma FixedTargetLength(target: real, sampleRate: int, resample: (Chunk, nat) -> Chunk, audioChunk: Chunk)
    requires IsResampler(resample) && target != 0.0
    requires DefaultYinPitchDetector(sampleRate).ExtractBaseFrequency(audioChunk).Ok?
    ensures var f := DefaultYinPitchDetector(sampleRate).ExtractBaseFrequency(audioChunk).value.frequency;
            var r := YinPitchShifter(FixedFrequencyGetter(target), sampleRate).Process(resample, audioChunk);
            (r.Ok? <==> |audioChunk| as real * (f / target) > -1.0) &&
            (r.Ok? ==> |r.value| == Trunc(|audioChunk| as real * (f / target))) &&
            (f == target ==> r.Ok? && |r.value| == |audioChunk|)
  {
    var shifter := YinPitchShifter(FixedFrequencyGetter(target), sampleRate);
    var f := DefaultYinPitchDetector(sampleRate).ExtractBaseFrequency(audioChunk).value.frequency;
    assert shifter.Process(resample, audioChunk) == Retune(FixedFrequencyGetter(target), resample, audioChunk, f);
    assert Retune(FixedFrequencyGetter(target), resample, audioChunk, f) == ShiftTo(resample, audioChunk, f, target);
  }
}
