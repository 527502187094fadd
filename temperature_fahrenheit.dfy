/** The Fahrenheit quantity's conversion table (rust/ast_utils/src/temperature/fahrenheit.rs). */
module TemperatureFahrenheit {
  import opened Traits
  import opened AstMath
  import opened TemperatureUnits

  /** Fahrenheit::convert_scalar: every target succeeds and the result is the same absolute
      temperature. */
  function ConvertScalar(value: real, to: TemperatureUnit): (r: Result<real>)
    ensures r.Ok?
    ensures KelvinOf(to, r.value) == KelvinOf(Fahrenheit, value)
    ensures to == Fahrenheit ==> r.value == value
  {
    match to
    case Fahrenheit => Ok(value)
    case Celsius => Ok(5.0 / 9.0 * (value - 32.0))
    case Kelvin => Ok((459.67 + value) * 5.0 / 9.0)
  }

  /** The conversions the Fahrenheit tests and exercises check. */
  lemma FahrenheitKnownPoints()
    ensures ConvertScalar(0.0, Fahrenheit) == Ok(0.0) && ConvertScalar(1.0, Fahrenheit) == Ok(1.0)
    ensures WithinTestTolerance(37.7777777778, ConvertScalar(100.0, Celsius).value)
    ensures WithinTestTolerance(255.372222222222, ConvertScalar(0.0, Kelvin).value)
    ensures ConvertScalar(32.0, Celsius) == Ok(0.0)
  {
  }
}
