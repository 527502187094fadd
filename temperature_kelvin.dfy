/** The Kelvin quantity's conversion table (rust/ast_utils/src/temperature/kelvin.rs). */
module TemperatureKelvin {
  import opened Traits
  import opened AstMath
  import opened TemperatureUnits

  /** Kelvin::convert_scalar: every target succeeds and the result is the same absolute
      temperature. */
  function ConvertScalar(value: real, to: TemperatureUnit): (r: Result<real>)
    ensures r.Ok?
    ensures KelvinOf(to, r.value) == KelvinOf(Kelvin, value)
    ensures to == Kelvin ==> r.value == value
  {
    match to
    case Kelvin => Ok(value)
    case Fahrenheit => Ok(value * (9.0 / 5.0) - 459.67)
    case Celsius => Ok(value - 273.15)
  }

  /** The conversions the Kelvin tests check. */
  lemma KelvinKnownPoints()
    ensures ConvertScalar(0.0, Kelvin) == Ok(0.0) && ConvertScalar(1.0, Kelvin) == Ok(1.0)
    ensures WithinTestTolerance(8.3299999, ConvertScalar(260.0, Fahrenheit).value)
    ensures ConvertScalar(273.15, Celsius) == Ok(0.0)
  {
  }
}
