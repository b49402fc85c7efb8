/**
  The cells of the echogram matrices. The detectors hold them as float64 values, and it
  relies on the IEEE 754 rule that every ordered comparison with NaN is false: a NaN
  cell is never a peak, never above a threshold and never inside an echo envelope.
  A cell is therefore a finite real or NaN; NaN stands for every non-finite value.
*/
module Samples {

  datatype Db = NaN | Val(v: real)

  /** The value written into masked cells by the ESP3-style detector (`TS[mask] = -999.0`). */
  const Sentinel: real := -999.0

  /** `x > t` for a finite `t`. */
  predicate Above(x: Db, t: real) {
    x.Val? && x.v > t
  }

  /** `x >= t` for a finite `t`. */
  predicate AtLeast(x: Db, t: real) {
    x.Val? && x.v >= t
  }

  /** `x <= t` for a finite `t`. */
  predicate AtMost(x: Db, t: real) {
    x.Val? && x.v <= t
  }

  /** `x > y` between two cells. */
  predicate Greater(x: Db, y: Db) {
    x.Val? && y.Val? && x.v > y.v
  }

  /** `x >= y` between two cells. */
  predicate NotLess(x: Db, y: Db) {
    x.Val? && y.Val? && x.v >= y.v
  }

  /** `x + y`; NaN if either operand is. */
  function Plus(x: Db, y: Db): (r: Db)
    ensures r.Val? <==> x.Val? && y.Val?
  {
    if x.Val? && y.Val? then Val(x.v + y.v) else NaN
  }

  /** `x - y`; NaN if either operand is. */
  function Minus(x: Db, y: Db): (r: Db)
    ensures r.Val? <==> x.Val? && y.Val?
  {
    if x.Val? && y.Val? then Val(x.v - y.v) else NaN
  }
}
