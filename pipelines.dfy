/** The processing pipeline of src/pipelines.py and source/pipelines.py: an ordered
    list of processors that each audio chunk runs through, first added first. */
module Pipelines {
  import opened Common

  /** The chunk-to-chunk part of an `AudioProcessor`'s `process(audio_chunk) -> audio_chunk`,
      for a processor with no state of its own that never raises. */
  type Processor = Chunk -> Chunk

  /** A processor object as the pipeline sees it: `process` reads and updates the object's
      own state `S` as it turns a chunk into the next one, and may raise, modelled as `Err`.
      The state it leaves is kept even when it raises. */
  type Step<!S> = (S, Chunk) -> (S, Result<Chunk>)

  /** A stateless, non-raising processor as a step. */
  function Stateless<S>(p: Processor): Step<S>
  {
    (s: S, x: Chunk) => (s, Ok(p(x)))
  }

  /** The chunk after the processors `ps` ran on `x` in list order: the last one is
      applied to what the others made. */
  function Fold(ps: seq<Processor>, x: Chunk): Chunk
  {
    if ps == [] then x else ps[|ps| - 1](Fold(ps[..|ps| - 1], x))
  }

  /** The same chain read from the front, `p_n(...p_2(p_1(x)))`: the first processor
      sees the input and hands its output to the rest. */
  function Nested(ps: seq<Processor>, x: Chunk): Chunk
  {
    if ps == [] then x else Nested(ps[1..], ps[0](x))
  }

  /** What each processor is handed: stage `k` is the input of processor `k`, and the
      stage after the last is the output. */
  function Stages(ps: seq<Processor>, x: Chunk): (st: seq<Chunk>)
    ensures |st| == |ps| + 1
    ensures st[0] == x
    ensures forall k :: 0 <= k < |ps| ==> st[k + 1] == ps[k](st[k])
  {
    if ps == [] then [x] else Stages(ps[..|ps| - 1], x) + [ps[|ps| - 1](Fold(ps[..|ps| - 1], x))]
  }

  /** The last stage is the output, and every stage is the fold of a prefix. */
  lemma {:induction false} StagesAreFolds(ps: seq<Processor>, x: Chunk)
    ensures forall k :: 0 <= k <= |ps| ==> Stages(ps, x)[k] == Fold(ps[..k], x)
  {
    if ps != [] {
      var init := ps[..|ps| - 1];
      StagesAreFolds(init, x);
      forall k | 0 <= k <= |ps|
        ensures Stages(ps, x)[k] == Fold(ps[..k], x)
      {
        if k < |ps| {
          assert ps[..k] == init[..k];
        } else {
          assert ps[..k] == ps;
        }
      }
    }
  }

  /** Running a chain and then another is running the concatenated chain. */
  lemma {:induction false} FoldConcat(ps: seq<Processor>, qs: seq<Processor>, x: Chunk)
    ensures Fold(ps + qs, x) == Fold(qs, Fold(ps, x))
  {
    if qs == [] {
      assert ps + qs == ps;
    } else {
      var init := qs[..|qs| - 1];
      assert (ps + qs)[..|ps + qs| - 1] == ps + init;
      FoldConcat(ps, init, x);
    }
  }

  /** The fold in list order agrees with the nested application read from the front. */
  lemma {:induction false} FoldIsNested(ps: seq<Processor>, x: Chunk)
    ensures Fold(ps, x) == Nested(ps, x)
  {
    if ps != [] {
      FoldConcat([ps[0]], ps[1..], x);
      assert [ps[0]] + ps[1..] == ps;
      assert Fold([ps[0]], x) == ps[0](x) by {
        assert [ps[0]][..0] == [];
      }
      FoldIsNested(ps[1..], ps[0](x));
    }
  }

  /** An empty pipeline hands its input back unchanged. */
  lemma EmptyPipelineIsIdentity(x: Chunk)
    ensures Fold([], x) == x
  {
  }

  /** One `process` call on processors `steps` whose objects are in `states`: their states
      afterwards and the chunk the last one returned, or the error of the first one that
      raised; the processors after that one are not called and keep their state. */
  function Pass<S>(steps: seq<Step<S>>, states: seq<S>, x: Chunk): (r: (seq<S>, Result<Chunk>))
    requires |steps| == |states|
    ensures |r.0| == |states|
  {
    if steps == [] then ([], Ok(x))
    else
      var n := |steps| - 1;
      var (before, y) := Pass(steps[..n], states[..n], x);
      if y.Err? then (before + [states[n]], y)
      else
        var (s, z) := steps[n](states[n], y.value);
        (before + [s], z)
  }

  /** Once the first `k` processors raise, the rest of the chain changes nothing: the
      error is the call's result and the later processors keep their state. */
  lemma {:induction false} PassStopsAtError<S>(steps: seq<Step<S>>, states: seq<S>, x: Chunk, k: nat)
    requires |steps| == |states| && k <= |steps|
    requires Pass(steps[..k], states[..k], x).1.Err?
    ensures Pass(steps, states, x) ==
              (Pass(steps[..k], states[..k], x).0 + states[k..], Pass(steps[..k], states[..k], x).1)
  {
    if k == |steps| {
      assert steps[..k] == steps && states[..k] == states && states[k..] == [];
      var prefix := Pass(steps, states, x);
      assert prefix.0 + states[k..] == prefix.0;
    } else {
      var n := |steps| - 1;
      assert steps[..n][..k] == steps[..k] && states[..n][..k] == states[..k];
      PassStopsAtError(steps[..n], states[..n], x, k);
      var prefix := Pass(steps[..k], states[..k], x);
      assert Pass(steps[..n], states[..n], x) == (prefix.0 + states[..n][k..], prefix.1);
      assert Pass(steps, states, x) == (prefix.0 + states[..n][k..] + [states[n]], prefix.1);
      assert prefix.0 + states[..n][k..] + [states[n]] == prefix.0 + states[k..];
    }
  }

  /** With stateless, non-raising processors a pass is the fold: no state changes and the
      output is the processors applied in insertion order. */
  lemma {:induction false} PassOfStatelessIsFold<S>(steps: seq<Step<S>>, ps: seq<Processor>, states: seq<S>, x: Chunk)
    requires |steps| == |ps| == |states|
    requires forall i :: 0 <= i < |steps| ==> steps[i] == Stateless(ps[i])
    ensures Pass(steps, states, x) == (states, Ok(Fold(ps, x)))
  {
    if steps != [] {
      var n := |steps| - 1;
      PassOfStatelessIsFold(steps[..n], ps[..n], states[..n], x);
      assert states[..n] + [states[n]] == states;
    }
  }

  /** `run` over a finite source: the processors' states afterwards, the chunks `process`
      returned in source order, and the error of the chunk that raised, after which no
      chunk is read. */
  function RunAll<S>(steps: seq<Step<S>>, states: seq<S>, chunks: seq<Chunk>): (r: (seq<S>, seq<Chunk>, Option<Error>))
    requires |steps| == |states|
    ensures |r.0| == |states|
    ensures r.2.None? ==> |r.1| == |chunks|
    ensures r.2.Some? ==> |r.1| < |chunks|
  {
    if chunks == [] then (states, [], None)
    else
      var n := |chunks| - 1;
      var (st, outs, failure) := RunAll(steps, states, chunks[..n]);
      if failure.Some? then (st, outs, failure)
      else
        var (st', y) := Pass(steps, st, chunks[n]);
        if y.Err? then (st', outs, Some(y.error)) else (st', outs + [y.value], None)
  }

  /** Output `k` is what the chain returned for chunk `k`, run on the states the earlier
      chunks left, which all went through without an error. */
  lemma {:induction false} RunAllOutput<S>(steps: seq<Step<S>>, states: seq<S>, chunks: seq<Chunk>, k: nat)
    requires |steps| == |states|
    requires k < |RunAll(steps, states, chunks).1|
    ensures RunAll(steps, states, chunks[..k]).2 == None
    ensures RunAll(steps, states, chunks[..k]).1 == RunAll(steps, states, chunks).1[..k]
    ensures Pass(steps, RunAll(steps, states, chunks[..k]).0, chunks[k]).1 == Ok(RunAll(steps, states, chunks).1[k])
  {
    var n := |chunks| - 1;
    var before := RunAll(steps, states, chunks[..n]);
    assert chunks[..n][..k] == chunks[..k] by {
      assert k <= n;
    }
    if before.2.Some? || Pass(steps, before.0, chunks[n]).1.Err? {
      RunAllOutput(steps, states, chunks[..n], k);
    } else if k < |before.1| {
      RunAllOutput(steps, states, chunks[..n], k);
      assert (before.1 + [Pass(steps, before.0, chunks[n]).1.value])[..k] == before.1[..k];
    } else {
      assert chunks[..k] == chunks[..n];
      assert RunAll(steps, states, chunks).1[..k] == before.1;
    }
  }

  /** A run that failed read exactly one chunk past its outputs: the chunks before it went
      through, and that chunk's pass raised the error and left the final states. */
  lemma {:induction false} RunAllFailure<S>(steps: seq<Step<S>>, states: seq<S>, chunks: seq<Chunk>)
    requires |steps| == |states|
    requires RunAll(steps, states, chunks).2.Some?
    ensures var (st, outs, failure) := RunAll(steps, states, chunks);
            var before := RunAll(steps, states, chunks[..|outs|]);
            before.2 == None && before.1 == outs &&
            Pass(steps, before.0, chunks[|outs|]) == (st, Err(failure.value))
  {
    var n := |chunks| - 1;
    var before := RunAll(steps, states, chunks[..n]);
    if before.2.Some? {
      RunAllFailure(steps, states, chunks[..n]);
      assert chunks[..n][..|before.1|] == chunks[..|before.1|];
    } else {
      assert chunks[..|before.1|] == chunks[..n];
    }
  }

  /** No chunk is read after one raised: extending the source changes nothing. */
  lemma {:induction false} RunAllStopsAtError<S>(steps: seq<Step<S>>, states: seq<S>, chunks: seq<Chunk>, k: nat)
    requires |steps| == |states| && k <= |chunks|
    requires RunAll(steps, states, chunks[..k]).2.Some?
    ensures RunAll(steps, states, chunks) == RunAll(steps, states, chunks[..k])
  {
    if k == |chunks| {
      assert chunks[..k] == chunks;
    } else {
      var n := |chunks| - 1;
      assert chunks[..n][..k] == chunks[..k];
      RunAllStopsAtError(steps, states, chunks[..n], k);
    }
  }

  /** With stateless, non-raising processors a run processes every chunk independently:
      output `k` is the fold of the processors over chunk `k`, and no state changes. */
  lemma {:induction false} RunAllOfStatelessIsFold<S>(steps: seq<Step<S>>, ps: seq<Processor>, states: seq<S>, chunks: seq<Chunk>)
    requires |steps| == |ps| == |states|
    requires forall i :: 0 <= i < |steps| ==> steps[i] == Stateless(ps[i])
    ensures RunAll(steps, states, chunks).2 == None
    ensures RunAll(steps, states, chunks).0 == states
    ensures forall k :: 0 <= k < |chunks| ==> RunAll(steps, states, chunks).1[k] == Fold(ps, chunks[k])
  {
    if chunks != [] {
      var n := |chunks| - 1;
      RunAllOfStatelessIsFold(steps, ps, states, chunks[..n]);
      PassOfStatelessIsFold(steps, ps, states, chunks[n]);
    }
  }

  /** `AudioProcessingPipeline`: the processors in insertion order, each with the state of
      its own object. */
  class AudioProcessingPipeline<S> {
    var steps: seq<Step<S>>
    var states: seq<S>

    /** Every processor has exactly one state. */
    predicate Valid()
      reads this
    {
      |steps| == |states|
    }

    constructor()
      ensures Valid() && steps == [] && states == []
    {
      steps := [];
      states := [];
    }

    /** `add_processor`: appends at the end and keeps the earlier processors in place. */
    method AddProcessor(step: Step<S>, state: S)
      requires Valid()
      modifies this
      ensures Valid()
      ensures steps == old(steps) + [step] && states == old(states) + [state]
    {
      steps := steps + [step];
      states := states + [state];
    }

    /** `process`: hands the chunk to each processor in turn, in insertion order; an
        error of one ends the call with the later processors not called. */
    method Process(audioData: Chunk) returns (r: Result<Chunk>)
      requires Valid()
      modifies this
      ensures Valid() && steps == old(steps)
      ensures (states, r) == Pass(steps, old(states), audioData)
    {
      r := Ok(audioData);
      var i := 0;
      while i < |steps| && r.Ok?
        invariant 0 <= i <= |steps|
        invariant Valid() && steps == old(steps)
        invariant (states[..i], r) == Pass(steps[..i], old(states)[..i], audioData)
        invariant states[i..] == old(states)[i..]
      {
        assert steps[..i + 1][..i] == steps[..i];
        assert old(states)[..i + 1][..i] == old(states)[..i];
        assert states[i] == old(states)[i] by {
          assert states[i..][0] == old(states)[i..][0];
        }
        ghost var before := states[..i];
        var (s, y) := steps[i](states[i], r.value);
        states := states[i := s];
        r := y;
        i := i + 1;
        assert steps[..i][i - 1] == steps[i - 1] && old(states)[..i][i - 1] == old(states)[i - 1];
        assert states[..i] == before + [s];
      }
      if i < |steps| {
        PassStopsAtError(steps, old(states), audioData, i);
        assert states == states[..i] + states[i..];
      } else {
        assert steps[..i] == steps && old(states)[..i] == old(states) && states[..i] == states;
      }
    }

    /** `run`: processes the chunks of the source one after the other, in source order,
        until one raises. The source drops the results; here they are returned, with the
        error, so that order and stopping can be stated. */
    method Run(audioSource: seq<Chunk>) returns (processed: seq<Chunk>, failure: Option<Error>)
      requires Valid()
      modifies this
      ensures Valid() && steps == old(steps)
      ensures (states, processed, failure) == RunAll(steps, old(states), audioSource)
    {
      processed := [];
      failure := None;
      var k := 0;
      while k < |audioSource| && failure.None?
        invariant 0 <= k <= |audioSource|
        invariant Valid() && steps == old(steps)
        invariant (states, processed, failure) == RunAll(steps, old(states), audioSource[..k])
      {
        assert audioSource[..k + 1][..k] == audioSource[..k];
        var out := Process(audioSource[k]);
        if out.Err? {
          failure := Some(out.error);
        } else {
          processed := processed + [out.value];
        }
        k := k + 1;
      }
      if k < |audioSource| {
        RunAllStopsAtError(steps, old(states), audioSource, k);
      } else {
        assert audioSource[..k] == audioSource;
      }
    }
  }
}
