/** The audio streams of src/base.py and shared/base.py: an iterator over audio chunks
    that pulls from an underlying iterable, created on the first pull, and closes itself
    when that iterable ends or is interrupted. */
module Streams {
  import opened Common

  /** What one `next()` on the underlying iterable does: yield a chunk, raise
      `StopIteration`, or raise `KeyboardInterrupt`. */
  datatype Pull = Item(chunk: Chunk) | End | Interrupt

  /** What one `next()` on a stream does for its caller. */
  datatype Outcome = Yielded(item: Chunk) | StopIteration | KeyboardInterrupt

  /** The underlying iterable, given by the pulls it answers in turn; past the last one
      it is exhausted. */
  function PullAt(events: seq<Pull>, position: nat): (p: Pull)
    ensures position >= |events| ==> p == End
    ensures position < |events| ==> p == events[position]
  {
    if position < |events| then events[position] else End
  }

  /** The part of a stream that `__next__` changes: whether `_cached_iterable` exists,
      `is_closed`, `current`, and how many pulls the iterable has answered. */
  datatype StreamState = StreamState(created: bool, closed: bool, current: Option<Chunk>, position: nat)

  /** A state a stream can be in: nothing is pulled before the iterable exists, and an
      open stream has pulled nothing after the end. */
  predicate Reachable(events: seq<Pull>, s: StreamState)
  {
    (!s.created ==> s.position == 0 && s.current == None) &&
    (!s.closed ==> s.position <= |events|) &&
    s.position <= |events| + 1
  }

  /** One `__next__`: a closed stream raises `StopIteration` without touching the
      iterable; otherwise the pulled chunk becomes `current` and is returned, and an end
      or an interrupt closes the stream and is raised again. */
  function Step(events: seq<Pull>, s: StreamState): (r: (Outcome, StreamState))
    ensures r.1.created
    ensures s.closed ==> r.0 == StopIteration && r.1 == s.(created := true)
    ensures !s.closed ==> r.1.position == s.position + 1
    ensures !s.closed ==> (r.0.Yielded? <==> PullAt(events, s.position).Item?)
    ensures r.0.Yielded? ==> r.1.current == Some(r.0.item) && r.0.item == PullAt(events, s.position).chunk && !r.1.closed
    ensures !r.0.Yielded? ==> r.1.closed && r.1.current == s.current
    ensures r.0 == KeyboardInterrupt <==> !s.closed && PullAt(events, s.position) == Interrupt
    ensures Reachable(events, s) ==> Reachable(events, r.1)
  {
    var s1 := s.(created := true);
    if s.closed then (StopIteration, s1)
    else match PullAt(events, s.position)
      case Item(c) => (Yielded(c), s1.(current := Some(c), position := s.position + 1))
      case End => (StopIteration, s1.(closed := true, position := s.position + 1))
      case Interrupt => (KeyboardInterrupt, s1.(closed := true, position := s.position + 1))
  }

  /** A closed stream stays where it is: every further `__next__` raises `StopIteration`. */
  lemma ClosedStreamIsStuck(events: seq<Pull>, s: StreamState)
    requires s.closed && s.created
    ensures Step(events, s) == (StopIteration, s)
  {
  }

  /** The first pull at or after `position` that is not a chunk. */
  function Terminal(events: seq<Pull>, position: nat): (t: nat)
    ensures position <= t
    ensures !PullAt(events, t).Item?
    ensures forall k :: position <= k < t ==> PullAt(events, k).Item?
    ensures position <= |events| ==> t <= |events|
    decreases |events| - position
  {
    if PullAt(events, position).Item? then Terminal(events, position + 1) else position
  }

  /** `run`: `__next__` again and again until it raises. */
  function Drain(events: seq<Pull>, s: StreamState): (r: (Outcome, StreamState))
    decreases |events| - s.position
  {
    var (o, s') := Step(events, s);
    if o.Yielded? then Drain(events, s') else (o, s')
  }

  /** `run` ends closed, with the first exception the iterable raises: `KeyboardInterrupt`
      when it is interrupted before it ends, and otherwise `StopIteration`; `current` is
      the last chunk it yielded. */
  lemma {:induction false} DrainStopsAtTerminal(events: seq<Pull>, s: StreamState)
    requires !s.closed && s.created
    ensures var (o, s') := Drain(events, s);
            var t := Terminal(events, s.position);
            s'.closed && s'.created && s'.position == t + 1 &&
            (o == KeyboardInterrupt <==> PullAt(events, t) == Interrupt) &&
            (o == StopIteration <==> PullAt(events, t) == End) &&
            s'.current == (if t == s.position then s.current else Some(PullAt(events, t - 1).chunk))
    decreases |events| - s.position
  {
    var (o, s1) := Step(events, s);
    if o.Yielded? {
      DrainStopsAtTerminal(events, s1);
    }
  }

  /** A closed stream's `run` raises `StopIteration` at once. */
  lemma DrainOfClosedStream(events: seq<Pull>, s: StreamState)
    requires s.closed
    ensures Drain(events, s) == (StopIteration, s.(created := true))
  {
  }

  class AudioStream {
    const sampleRate: int
    const chunkSize: int
    /** What `iterable()` yields, pull by pull. */
    const events: seq<Pull>
    var isClosed: bool
    var isClosing: bool
    var current: Option<Chunk>
    /** Whether `_cached_iterable` has been created. */
    var iterableCreated: bool
    /** How many pulls the iterable has answered. */
    var position: nat

    function State(): (s: StreamState)
      reads this
      ensures s.created == iterableCreated && s.closed == isClosed && s.current == current && s.position == position
    {
      StreamState(iterableCreated, isClosed, current, position)
    }

    predicate Valid()
      reads this
    {
      Reachable(events, State())
    }

    /** `__init__`: open, not closing, no current chunk and no iterable yet. */
    constructor(sampleRate: int, chunkSize: int, events: seq<Pull>)
      ensures this.sampleRate == sampleRate && this.chunkSize == chunkSize && this.events == events
      ensures !isClosed && !isClosing && current == None && !iterableCreated && position == 0
      ensures Valid()
    {
      this.sampleRate := sampleRate;
      this.chunkSize := chunkSize;
      this.events := events;
      isClosed := false;
      isClosing := false;
      current := None;
      iterableCreated := false;
      position := 0;
    }

    /** `close`: sets `is_closed` and nothing else, so closing twice is closing once. */
    method Close()
      modifies this
      ensures isClosed
      ensures isClosing == old(isClosing) && current == old(current)
      ensures iterableCreated == old(iterableCreated) && position == old(position)
      ensures old(isClosed) ==> State() == old(State())
      ensures old(Valid()) ==> Valid()
    {
      isClosed := true;
    }

    /** `start_closing`: sets `is_closing` and nothing else. */
    method StartClosing()
      modifies this
      ensures isClosing
      ensures State() == old(State())
    {
      isClosing := true;
    }

    /** `__next__`. */
    method Next() returns (r: Outcome)
      requires Valid()
      modifies this
      ensures Valid()
      ensures (r, State()) == Step(events, old(State()))
      ensures isClosing == old(isClosing)
    {
      if !iterableCreated {
        iterableCreated := true;
      }
      if isClosed {
        return StopIteration;
      }
      var p := PullAt(events, position);
      position := position + 1;
      match p {
        case Item(c) =>
          current := Some(c);
          r := Yielded(c);
        case End =>
          isClosed := true;
          r := StopIteration;
        case Interrupt =>
          isClosed := true;
          r := KeyboardInterrupt;
      }
    }

    /** `run`: pulls until an exception; on `KeyboardInterrupt` it closes (already done
        by `__next__`) and raises again, and `StopIteration` reaches the caller. */
    method Run() returns (r: Outcome)
      requires Valid()
      modifies this
      ensures Valid()
      ensures (r, State()) == Drain(events, old(State()))
      ensures isClosing == old(isClosing)
    {
      r := Next();
      while r.Yielded?
        invariant Valid()
        invariant Drain(events, old(State())) == (if r.Yielded? then Drain(events, State()) else (r, State()))
        invariant isClosing == old(isClosing)
        invariant r.Yielded? ==> !isClosed
        decreases |events| - position
      {
        r := Next();
      }
    }
  }

  /** An `AudioStreamDecorator`: a stream whose iterable is another stream, and whose
      `__next__` hands on `transform` of what that stream yields. */
  class AudioStreamDecorator {
    const stream: AudioStream
    const transform: Chunk -> Chunk
    const sampleRate: int
    const chunkSize: int
    var isClosed: bool
    var isClosing: bool
    var current: Option<Chunk>
    var iterableCreated: bool

    /** `__init__`: takes the wrapped stream's sample rate and chunk size. */
    constructor(stream: AudioStream, transform: Chunk -> Chunk)
      ensures this.stream == stream && this.transform == transform
      ensures sampleRate == stream.sampleRate && chunkSize == stream.chunkSize
      ensures !isClosed && !isClosing && current == None && !iterableCreated
    {
      this.stream := stream;
      this.transform := transform;
      sampleRate := stream.sampleRate;
      chunkSize := stream.chunkSize;
      isClosed := false;
      isClosing := false;
      current := None;
      iterableCreated := false;
    }

    /** `__next__`: the inherited pull, from the wrapped stream, then `transform`. The
        decorator's `current` is the chunk before `transform`, since it is set first. */
    method Next() returns (r: Outcome)
      requires stream.Valid()
      modifies this, stream
      ensures stream.Valid()
      ensures iterableCreated && isClosing == old(isClosing) && stream.isClosing == old(stream.isClosing)
      ensures old(isClosed) ==> r == StopIteration && isClosed && current == old(current) &&
                                stream.State() == old(stream.State())
      ensures !old(isClosed) ==>
                var (o, s) := Step(stream.events, old(stream.State()));
                stream.State() == s &&
                r == (if o.Yielded? then Yielded(transform(o.item)) else o) &&
                current == (if o.Yielded? then Some(o.item) else old(current)) &&
                isClosed == !o.Yielded?
    {
      iterableCreated := true;
      if isClosed {
        return StopIteration;
      }
      var o := stream.Next();
      if o.Yielded? {
        current := Some(o.item);
        r := Yielded(transform(o.item));
      } else {
        isClosed := true;
        r := o;
      }
    }

    /** `start_closing`: marks the wrapped stream and then the decorator as closing. */
    method StartClosing()
      modifies this, stream
      ensures isClosing && stream.isClosing
      ensures isClosed == old(isClosed) && current == old(current) && iterableCreated == old(iterableCreated)
      ensures stream.State() == old(stream.State())
    {
      stream.StartClosing();
      isClosing := true;
    }
  }
}
