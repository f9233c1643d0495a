/** Values shared by every part of the model: optional values, the exceptions the
    Python code raises, the detected-wave record, and Python's own arithmetic and
    slicing rules written out over unbounded integers and exact reals. */
module Common {

  /** Python's `None` or a value. */
  datatype Option<+T> = None | Some(value: T)

  /** The exceptions of the Python code that the model tells apart. */
  datatype Error =
    | ZeroDivision       // ZeroDivisionError, or a division by zero whose inf/nan makes the next int() raise
    | IndexOutOfRange    // IndexError
    | EmptySequence      // ValueError from max() or argmax() of nothing
    | InvalidLength      // ValueError from an FFT of no samples
    | NegativeDimension  // ValueError from a negative array size (np.zeros, resample)
    | NotANumber         // a NaN frequency, which the next int() rejects
    | Infinite           // an infinite frequency, which the next int() rejects
    | NonFiniteRound     // round() of inf or nan
    | NoAnchoredBin      // no bin has a harmonic base, so there is no index to report

  /** A value or the exception that was raised instead. */
  datatype Result<+T> = Ok(value: T) | Err(error: Error) {
    predicate IsFailure() { Err? }
    function PropagateFailure<U>(): Result<U>
      requires Err?
    {
      Err(error)
    }
    function Extract(): T
      requires Ok?
    {
      value
    }
  }

  /** A chunk of audio samples. */
  type Chunk = seq<real>

  /** The detected fundamental of one analysis window (`WaveID`); `phase` defaults to 0. */
  datatype WaveID = WaveID(frequency: real, amplitude: real, phase: real)

  function MakeWaveID(frequency: real, amplitude: real): (w: WaveID)
    ensures w.frequency == frequency && w.amplitude == amplitude && w.phase == 0.0
  {
    WaveID(frequency, amplitude, 0.0)
  }

  function Abs(x: real): (r: real)
    ensures r >= 0.0 && (r == x || r == -x)
  {
    if x < 0.0 then -x else x
  }

  function Min(a: int, b: int): int { if a <= b then a else b }

  function Zeros(n: nat): (z: Chunk)
    ensures |z| == n && forall k :: 0 <= k < n ==> z[k] == 0.0
  {
    seq(n, _ => 0.0)
  }

  /** Python's `int(x)` on a float: truncation toward zero. */
  function Trunc(x: real): (r: int)
    ensures 0.0 <= x ==> 0 <= r && r as real <= x < r as real + 1.0
    ensures x < 0.0 ==> r <= 0 && r as real - 1.0 < x <= r as real
  {
    if x >= 0.0 then x.Floor else -((-x).Floor)
  }

  /** Python's `a // b` on integers: the quotient rounded toward minus infinity. */
  function FloorDiv(a: int, b: int): (q: int)
    requires b != 0
    ensures b > 0 ==> q * b <= a < q * b + b
    ensures b < 0 ==> q * b >= a > q * b + b
  {
    if b > 0 then a / b else (-a) / (-b)
  }

  /** Python's built-in `round(x)`: nearest integer, ties to the even neighbour. */
  function RoundHalfEven(x: real): (r: int)
    ensures -0.5 <= x - r as real <= 0.5
    ensures x - r as real == 0.5 || x - r as real == -0.5 ==> r % 2 == 0
  {
    var f := x.Floor;
    var frac := x - f as real;
    if frac < 0.5 then f
    else if frac > 0.5 then f + 1
    else if f % 2 == 0 then f else f + 1
  }

  /** Where Python puts a slice bound `i` in a sequence of length `n`. */
  function SliceBound(i: int, n: nat): (k: nat)
    ensures k <= n
    ensures 0 <= i <= n ==> k == i
    ensures i > n ==> k == n
    ensures i < 0 ==> k == (if i + n < 0 then 0 else i + n)
  {
    if i < 0 then (if i + n < 0 then 0 else i + n) else if i > n then n else i
  }

  /** Python's `s[start:stop]` for any integers, negative ones counting from the end. */
  function Slice<T>(s: seq<T>, start: int, stop: int): (r: seq<T>)
    ensures var a, b := SliceBound(start, |s|), SliceBound(stop, |s|);
            r == if a < b then s[a..b] else []
  {
    var a, b := SliceBound(start, |s|), SliceBound(stop, |s|);
    if a < b then s[a..b] else []
  }

  /** Python's `s[-k:]`: the last `k` elements when `k > 0`, and the WHOLE of `s` when
      `k == 0`, because `-0` is `0`. */
  function Tail<T>(s: seq<T>, k: int): (r: seq<T>)
    ensures k > 0 ==> r == s[|s| - Min(k, |s|)..]
    ensures k == 0 ==> r == s
    ensures k < 0 ==> r == s[Min(-k, |s|)..]
  {
    Slice(s, -k, |s|)
  }

  /** The first index of a largest element: `np.argmax`, and `max` over an ordered
      collection, both of which keep the first maximum they meet. */
  function ArgMax(s: seq<real>): (k: nat)
    requires |s| > 0
    ensures k < |s|
    ensures forall j :: 0 <= j < |s| ==> s[j] <= s[k]
    ensures forall j :: 0 <= j < k ==> s[j] < s[k]
  {
    if |s| == 1 then 0
    else
      var k := ArgMax(s[..|s| - 1]);
      if s[|s| - 1] > s[k] then |s| - 1 else k
  }

  /** `sum(s)` of a finite sequence. */
  function Sum(s: seq<real>): real
  {
    if s == [] then 0.0 else Sum(s[..|s| - 1]) + s[|s| - 1]
  }
}
