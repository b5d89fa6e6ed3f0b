/** Python floats as far as the timers need them: a real number or one of
    the IEEE 754 special values. Rounding is not modelled: finite values are
    exact reals. */
module Floats {

  datatype Float = Finite(value: real) | PosInf | NegInf | NaN

  const Zero: Float := Finite(0.0)

  /** `x - d` for a finite `d`: infinities and NaN absorb the subtraction. */
  function Minus(x: Float, d: real): Float
  {
    match x
    case Finite(v) => Finite(v - d)
    case _ => x
  }

  /** `x <= 0.0` under IEEE 754: false for NaN and for +inf, true for -inf. */
  predicate AtMostZero(x: Float)
  {
    match x
    case Finite(v) => v <= 0.0
    case PosInf => false
    case NegInf => true
    case NaN => false
  }

  /** `d > x` for a finite `d` under IEEE 754: false for NaN and for +inf. */
  predicate Exceeds(d: real, x: Float)
  {
    match x
    case Finite(v) => d > v
    case PosInf => false
    case NegInf => true
    case NaN => false
  }
}
