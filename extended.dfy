/** The special values of floating-point arithmetic over exact reals: numpy divides
    by zero without raising and yields an infinity or NaN instead, and those values
    then flow through the YIN scan. Rounding and signed zeros are not modelled; a
    zero divisor counts as +0. */
module Extended {

  datatype Ext = Finite(v: real) | PosInf | NegInf | NaN

  /** The sign of a number that is not NaN: -1, 0 or 1. */
  function Sign(a: Ext): (s: int)
    requires !a.NaN?
    ensures -1 <= s <= 1
    ensures a.Finite? ==> (s == 0 <==> a.v == 0.0) && (s > 0 <==> a.v > 0.0)
  {
    match a
    case PosInf => 1
    case NegInf => -1
    case Finite(x) => if x > 0.0 then 1 else if x < 0.0 then -1 else 0
  }

  /** The infinity of sign `s`. */
  function Inf(s: int): Ext
  {
    if s > 0 then PosInf else NegInf
  }

  function Neg(a: Ext): (r: Ext)
    ensures a.Finite? ==> r == Finite(-a.v)
    ensures r.NaN? <==> a.NaN?
  {
    match a
    case Finite(x) => Finite(-x)
    case PosInf => NegInf
    case NegInf => PosInf
    case NaN => NaN
  }

  /** Addition: opposite infinities give NaN. */
  function Add(a: Ext, b: Ext): (r: Ext)
    ensures a.Finite? && b.Finite? ==> r == Finite(a.v + b.v)
    ensures a.NaN? || b.NaN? ==> r.NaN?
    ensures (a == PosInf && b == NegInf) || (a == NegInf && b == PosInf) ==> r.NaN?
  {
    if a.NaN? || b.NaN? then NaN
    else if a.Finite? && b.Finite? then Finite(a.v + b.v)
    else if a.Finite? then b
    else if b.Finite? then a
    else if a == b then a
    else NaN
  }

  function Sub(a: Ext, b: Ext): (r: Ext)
    ensures a.Finite? && b.Finite? ==> r == Finite(a.v - b.v)
    ensures a.NaN? || b.NaN? ==> r.NaN?
  {
    Add(a, Neg(b))
  }

  /** Multiplication: an infinity times zero gives NaN. */
  function Mul(a: Ext, b: Ext): (r: Ext)
    ensures a.Finite? && b.Finite? ==> r == Finite(a.v * b.v)
    ensures a.NaN? || b.NaN? ==> r.NaN?
  {
    if a.NaN? || b.NaN? then NaN
    else if a.Finite? && b.Finite? then Finite(a.v * b.v)
    else if Sign(a) * Sign(b) == 0 then NaN
    else Inf(Sign(a) * Sign(b))
  }

  /** Division: `0/0` and `inf/inf` give NaN, any other number over zero an infinity
      of its own sign, and a finite number over an infinity zero. */
  function Div(a: Ext, b: Ext): (r: Ext)
    ensures a.Finite? && b.Finite? && b.v != 0.0 ==> r == Finite(a.v / b.v)
    ensures a.Finite? && b == Finite(0.0) ==> (r.NaN? <==> a.v == 0.0) && (a.v > 0.0 ==> r == PosInf) && (a.v < 0.0 ==> r == NegInf)
    ensures a.NaN? || b.NaN? ==> r.NaN?
  {
    if a.NaN? || b.NaN? then NaN
    else if a.Finite? && b.Finite? then
      (if b.v != 0.0 then Finite(a.v / b.v) else if a.v == 0.0 then NaN else Inf(Sign(a)))
    else if a.Finite? then Finite(0.0)
    else if b.Finite? then Inf(Sign(a) * (if b.v < 0.0 then -1 else 1))
    else NaN
  }

  /** The `<` comparison: false whenever NaN takes part. */
  predicate Less(a: Ext, b: Ext)
  {
    match (a, b)
    case (NaN, _) => false
    case (_, NaN) => false
    case (NegInf, NegInf) => false
    case (NegInf, _) => true
    case (_, NegInf) => false
    case (PosInf, _) => false
    case (_, PosInf) => true
    case (Finite(x), Finite(y)) => x < y
  }

  /** `<` orders the values that are not NaN, so chains of it compose. */
  lemma LessTransitive(a: Ext, b: Ext, c: Ext)
    requires Less(a, b) && Less(b, c)
    ensures Less(a, c)
  {
  }
}
