/**
  The JavaScript values the two components inspect, and JavaScript's notion of
  truthiness, which drives every `&&`, `||` and `? :` test in them.
  Numbers are reals (NaN kept separately); objects and arrays are one opaque case.
 */
module Js {

  datatype Value =
    | Undefined
    | Null
    | Bool(b: bool)
    | Num(x: real)
    | NaN
    | Str(s: string)
    | Obj

  /** JavaScript's ToBoolean: the falsy values are undefined, null, false, 0, NaN and "". */
  predicate Truthy(v: Value)
  {
    match v
    case Undefined => false
    case Null => false
    case Bool(b) => b
    case Num(x) => x != 0.0
    case NaN => false
    case Str(s) => s != ""
    case Obj => true
  }

  /** `v || 0`: the value itself when truthy, the number 0 otherwise. */
  function OrZero(v: Value): (r: Value)
    ensures Truthy(v) ==> r == v
    ensures !Truthy(v) ==> r == Num(0.0)
  {
    if Truthy(v) then v else Num(0.0)
  }

  /** Applying the default twice changes nothing, and the result is never undefined, null, NaN or "". */
  lemma OrZeroSettles(v: Value)
    ensures OrZero(OrZero(v)) == OrZero(v)
    ensures Truthy(OrZero(v)) || OrZero(v) == Num(0.0)
  {
  }
}
