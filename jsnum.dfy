/** The IEEE values a JavaScript division can produce when nothing guards
    its divisor, with the comparisons and `Math.min` the screens apply to
    them. Finite values are exact reals; rounding is not modelled. */
module JsNum {

  datatype Num = Finite(v: real) | PosInf | NegInf | NaN

  /** `a / b`: a finite quotient for a non-zero divisor; for a zero divisor
      an infinity carrying the dividend's sign, or NaN for `0 / 0`. */
  function Div(a: real, b: real): (r: Num)
    ensures b != 0.0 ==> r == Finite(a / b)
    ensures b == 0.0 ==> (r.PosInf? <==> a > 0.0) && (r.NegInf? <==> a < 0.0) && (r.NaN? <==> a == 0.0)
  {
    if b != 0.0 then Finite(a / b)
    else if a > 0.0 then PosInf
    else if a < 0.0 then NegInf
    else NaN
  }

  /** `x * k` for a positive constant `k`. */
  function Scale(x: Num, k: real): (r: Num)
    requires k > 0.0
    ensures x.Finite? <==> r.Finite?
    ensures x.Finite? ==> r.v == x.v * k
    ensures !x.Finite? ==> r == x
  {
    match x
    case Finite(v) => Finite(v * k)
    case _ => x
  }

  /** `x > c`: NaN compares false, the infinities as expected. */
  predicate Gt(x: Num, c: real) {
    match x
    case Finite(v) => v > c
    case PosInf => true
    case NegInf => false
    case NaN => false
  }

  /** `x <= c`: NaN compares false here too. */
  predicate Le(x: Num, c: real) {
    match x
    case Finite(v) => v <= c
    case PosInf => false
    case NegInf => true
    case NaN => false
  }

  /** `Math.min(x, c)`: NaN if either is NaN. */
  function Min(x: Num, c: real): (r: Num)
    ensures x.NaN? <==> r.NaN?
    ensures x.Finite? ==> r == Finite(if x.v <= c then x.v else c)
    ensures x.PosInf? ==> r == Finite(c)
    ensures x.NegInf? ==> r == NegInf
  {
    match x
    case Finite(v) => Finite(if v <= c then v else c)
    case PosInf => Finite(c)
    case NegInf => NegInf
    case NaN => NaN
  }
}
