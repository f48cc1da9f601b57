/** The part of Java `double` arithmetic that the measurement guard depends
    on: a value is either a number (modelled as a real) or NaN, and NaN
    propagates through products and sums. */
module Doubles {

  datatype Double = Num(val: real) | NaN

  predicate IsNaN(x: Double) {
    x.NaN?
  }

  /** `c * x` for a unit-conversion constant `c`. */
  function Scale(c: real, x: Double): Double
  {
    match x
    case NaN => NaN
    case Num(v) => Num(c * v)
  }

  /** `x + y`. */
  function Add(x: Double, y: Double): Double
  {
    if x.NaN? || y.NaN? then NaN else Num(x.val + y.val)
  }
}
