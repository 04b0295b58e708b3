/** How calculateMetrics reads one loosely typed input field. */
module Coercion {

  /** A raw field of the input record, as `parseFloat` sees it: absent, not
      parseable as a number, or a (finite) number. Number syntax itself is
      kept abstract. */
  datatype Value = Missing | NotANumber | Num(x: real)

  /** The values JavaScript's `||` treats as false once parsed: an absent
      field and NaN both parse to NaN, and NaN and 0 are falsy. */
  predicate Falsy(v: Value) {
    v.Missing? || v.NotANumber? || v == Num(0.0)
  }

  /** The inner helper `num`: `parseFloat(v) || 0`. */
  function AsNumber(v: Value): (r: real)
    ensures r == 0.0 <==> Falsy(v)
    ensures !Falsy(v) ==> r == v.x
  {
    match v
    case Num(x) => x
    case _ => 0.0
  }

  /** `x || fallback` applied to a number that is never NaN: only zero is
      replaced. */
  function Or(x: real, fallback: real): (r: real)
    ensures r == x || r == fallback
    ensures x != 0.0 ==> r == x
    ensures fallback != 0.0 ==> r != 0.0
  {
    if x != 0.0 then x else fallback
  }
}
