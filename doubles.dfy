/** Java's `double`, as far as the reducers need it: a number or NaN.
    Finite values are modelled as `real`; rounding and infinities are not
    modelled. `Min` and `Max` are `Math.min` and `Math.max`. */
module Doubles {

  /** A double that is either NaN or a (finite) number. */
  datatype Num = NaN | Fin(r: real)

  /** `Double.MAX_VALUE`, exactly: (2^53 - 1) * 2^971. */
  const MaxValue: real := 179769313486231570814527423731704356798070567525844996598917476803157260780028538760589558632766878171540458953514382464234321326889464182768467546703537516986049910576551282076245490090389328944075868508455133942304583236903222948165808559332123348274797826204144723168738177180919299881250404026184124858368.0

  /** `Math.min`: NaN as soon as either argument is NaN, otherwise the
      smaller argument. */
  function Min(a: Num, b: Num): (m: Num)
    ensures m.NaN? <==> a.NaN? || b.NaN?
    ensures m.Fin? ==> m.r <= a.r && m.r <= b.r && (m == a || m == b)
  {
    if a.NaN? || b.NaN? then NaN
    else if a.r <= b.r then a
    else b
  }

  /** `Math.max`: NaN as soon as either argument is NaN, otherwise the
      larger argument. */
  function Max(a: Num, b: Num): (m: Num)
    ensures m.NaN? <==> a.NaN? || b.NaN?
    ensures m.Fin? ==> a.r <= m.r && b.r <= m.r && (m == a || m == b)
  {
    if a.NaN? || b.NaN? then NaN
    else if a.r >= b.r then a
    else b
  }
}
