/**
 * The few JavaScript value rules the modelled code relies on: the
 * difference between `undefined`, `null` and a present value, the `??`
 * operator, string truthiness, and the IEEE results of dividing by zero.
 */
module Js {

  /** A loosely-typed field of a server record: absent, `null`, or a value. */
  datatype Js<+T> = Undefined | Null | Val(v: T) {

    /** `undefined` and `null` are the values `??` and `?.` skip. */
    predicate Nullish() {
      !Val?
    }

    /** `this ?? default`. */
    function OrElse(default: T): (r: T)
      ensures Val? ==> r == v
      ensures Nullish() ==> r == default
    {
      if Val? then v else default
    }
  }

  /** `!!s` for a string: only the empty string is falsy. */
  predicate Truthy(s: string) {
    s != ""
  }

  /** `!!x` for an optional string (`string | null | undefined`). */
  predicate TruthyJs(x: Js<string>) {
    x.Val? && Truthy(x.v)
  }

  /** A JavaScript number, kept exact: a real, an infinity or NaN. */
  datatype Num = Finite(r: real) | PosInf | NegInf | NaN

  /** `a / b` on integers under IEEE rules: division by zero gives an infinity or NaN. */
  function Div(a: int, b: int): (q: Num)
    ensures b != 0 ==> q.Finite? && q.r * (b as real) == a as real
    ensures b == 0 && a > 0 ==> q == PosInf
    ensures b == 0 && a < 0 ==> q == NegInf
    ensures b == 0 && a == 0 ==> q == NaN
  {
    if b != 0 then Finite(a as real / b as real)
    else if a > 0 then PosInf
    else if a < 0 then NegInf
    else NaN
  }

  /** `x * k` for a positive constant `k`: infinities and NaN are absorbing. */
  function Scale(x: Num, k: real): (y: Num)
    requires k > 0.0
    ensures x.Finite? <==> y.Finite?
    ensures x.Finite? ==> y.r == x.r * k
    ensures !x.Finite? ==> y == x
  {
    match x
    case Finite(r) => Finite(r * k)
    case _ => x
  }

  /** `x >= c`: false for NaN, true for +Infinity, false for -Infinity. */
  predicate AtLeast(x: Num, c: real) {
    match x
    case Finite(r) => r >= c
    case PosInf => true
    case NegInf => false
    case NaN => false
  }
}
