/**
 * Floating-point values as the analysis code tests them: a finite value (taken as an exact
 * real) or a value for which std::isfinite is false (an infinity or a NaN).
 */
module Floats {

  datatype Float = Num(v: real) | NonFinite

  predicate IsFinite(x: Float) {
    x.Num?
  }

  /** IEEE multiplication, with the rounding and the overflow of finite values left out. */
  function Mul(a: Float, b: Float): (r: Float)
    ensures r.Num? <==> a.Num? && b.Num?
    ensures r.Num? ==> r.v == a.v * b.v
  {
    if a.Num? && b.Num? then Num(a.v * b.v) else NonFinite
  }
}
