/** The temperature unit tags of rust/ast_utils/src/temperature.rs, their display labels,
    and the reference the conversion tables are checked against: the absolute temperature,
    in kelvin, that a value of each unit stands for. */
module TemperatureUnits {

  /** TemperatureUnit: the three temperature tags. */
  datatype TemperatureUnit = Celsius | Fahrenheit | Kelvin

  /** The Display label of a temperature tag. */
  function Label(u: TemperatureUnit): string
  {
    match u
    case Celsius => "celsius"
    case Fahrenheit => "fahrenheit"
    case Kelvin => "kelvin"
  }

  /** No two tags share a label. */
  lemma LabelInjective(u: TemperatureUnit, w: TemperatureUnit)
    ensures Label(u) == Label(w) <==> u == w
  {
    if u != w {
      assert Label(u)[0] != Label(w)[0];
    }
  }

  /** The absolute temperature of a value: Celsius is offset by 273.15, Fahrenheit is
      offset by 459.67 and scaled by 5/9, Kelvin is absolute already. */
  function KelvinOf(u: TemperatureUnit, value: real): real
  {
    match u
    case Celsius => value + 273.15
    case Fahrenheit => (value + 459.67) * 5.0 / 9.0
    case Kelvin => value
  }

  /** Within one unit, the absolute temperature determines the value. */
  lemma KelvinOfInjective(u: TemperatureUnit, x: real, y: real)
    ensures KelvinOf(u, x) == KelvinOf(u, y) <==> x == y
  {
  }

  /** The fixed points of the scales: absolute zero, the freezing and the boiling point of
      water. */
  lemma ScaleFixedPoints()
    ensures KelvinOf(Celsius, -273.15) == 0.0 && KelvinOf(Fahrenheit, -459.67) == 0.0
    ensures KelvinOf(Celsius, 0.0) == KelvinOf(Fahrenheit, 32.0) == 273.15
    ensures KelvinOf(Celsius, 100.0) == KelvinOf(Fahrenheit, 212.0) == 373.15
  {
  }
}
