/**
 * JavaScript numbers as far as the tools' comparisons and slices can tell
 * them apart: a finite value, the two infinities, and NaN.  `Number(arg)`
 * of a command-line argument can be any of them.
 */
module JsNumbers {
  import Seqs

  datatype JsNumber = Num(r: real) | PosInf | NegInf | NaN

  /** `Number.isFinite(x)`. */
  predicate IsFinite(x: JsNumber) { x.Num? }

  /** `Math.min(a, b)` for a finite `a`: NaN when `b` is NaN. */
  function JsMin(a: real, b: JsNumber): JsNumber {
    match b
    case Num(y) => Num(if a <= y then a else y)
    case PosInf => Num(a)
    case NegInf => NegInf
    case NaN => NaN
  }

  /** `Math.max(a, b)` for a finite `a`: NaN when `b` is NaN. */
  function JsMax(a: real, b: JsNumber): JsNumber {
    match b
    case Num(y) => Num(if a >= y then a else y)
    case PosInf => PosInf
    case NegInf => Num(a)
    case NaN => NaN
  }

  /** `x < t` for a finite `x`: false whenever `t` is NaN. */
  predicate LessThan(x: real, t: JsNumber) {
    match t
    case Num(y) => x < y
    case PosInf => true
    case NegInf => false
    case NaN => false
  }

  /** Truncation toward zero, as `ToIntegerOrInfinity` does for a finite value. */
  function Trunc(r: real): (n: int)
    ensures r >= 0.0 ==> n as real <= r < n as real + 1.0
    ensures r < 0.0 ==> n as real - 1.0 < r <= n as real && n <= 0
  {
    if r >= 0.0 then r.Floor else -((-r).Floor)
  }

  /**
   * `s.slice(0, end)`: NaN counts as 0, the infinities as the two ends,
   * and a finite value is truncated toward zero, a negative one counting
   * from the end.
   */
  function SliceToJs<T>(s: seq<T>, end: JsNumber): (r: seq<T>)
    ensures |r| <= |s| && r == s[..|r|]
    ensures end == PosInf ==> r == s
    ensures end == NaN || end == NegInf ==> r == []
  {
    match end
    case PosInf => s
    case NegInf => []
    case NaN => []
    case Num(x) => Seqs.SliceTo(s, Trunc(x))
  }
}
