/** The Celsius quantity's conversion table (rust/ast_utils/src/temperature/celsius.rs). */
module TemperatureCelsius {
  import opened Traits
  import opened AstMath
  import opened TemperatureUnits

  /** Celsius::convert_scalar: every target succeeds (the source's `_` arm cannot be reached)
      and the result is the same absolute temperature. */
  function ConvertScalar(value: real, to: TemperatureUnit): (r: Result<real>)
    ensures r.Ok?
    ensures KelvinOf(to, r.value) == KelvinOf(Celsius, value)
    ensures to == Celsius ==> r.value == value
  {
    match to
    case Celsius => Ok(value)
    case Fahrenheit => Ok(32.0 + 9.0 / 5.0 * value)
    case Kelvin => Ok(273.15 + value)
  }

  /** The conversions the Celsius tests and exercises check. */
  lemma CelsiusKnownPoints()
    ensures ConvertScalar(0.0, Celsius) == Ok(0.0) && ConvertScalar(1.0, Celsius) == Ok(1.0)
    ensures WithinTestTolerance(100.0, ConvertScalar(37.7777777778, Fahrenheit).value)
    ensures ConvertScalar(0.0, Kelvin) == Ok(273.15)
    ensures ConvertScalar(100.0, Fahrenheit) == Ok(212.0)
  {
  }
}
