/** The temperature family of rust/ast_utils/src/temperature.rs: the quantity behind
    `Box<dyn HasConvertableUnit<Unit = TemperatureUnit>>`, TemperatureFactory::build and
    TemperatureConverter. */
module Temperature {
  import opened Traits
  import opened AstMath
  import opened TemperatureUnits
  import TemperatureCelsius
  import TemperatureFahrenheit
  import TemperatureKelvin

  /** A temperature quantity: the value and the tag of one of the per-unit structs. */
  datatype Quantity = Quantity(unit: TemperatureUnit, value: real)
  {
    /** HasConvertableUnit::scalar */
    function Scalar(): real
    {
      value
    }

    /** HasConvertableUnit::unit */
    function Unit(): TemperatureUnit
    {
      unit
    }

    /** HasConvertableUnit::convert_scalar: the table of the quantity's unit. It always
        succeeds, with the same absolute temperature. */
    function ConvertScalar(to: TemperatureUnit): (r: Result<real>)
      ensures r.Ok?
      ensures KelvinOf(to, r.value) == KelvinOf(unit, value)
      ensures to == unit ==> r.value == value
    {
      match unit
      case Celsius => TemperatureCelsius.ConvertScalar(value, to)
      case Fahrenheit => TemperatureFahrenheit.ConvertScalar(value, to)
      case Kelvin => TemperatureKelvin.ConvertScalar(value, to)
    }
  }

  /** TemperatureFactory::build: the quantity of the given unit holding the given value. */
  function Build(value: real, unit: TemperatureUnit): (q: Quantity)
    ensures q.Unit() == unit && q.Scalar() == value
  {
    Quantity(unit, value)
  }

  /** TemperatureConverter: holds the source temperature. */
  datatype Converter = Converter(temperature: Quantity)
  {
    /** TemperatureConverter::new */
    static function New(value: real, unit: TemperatureUnit): (c: Converter)
      ensures c.temperature.Unit() == unit && c.temperature.Scalar() == value
    {
      Converter(Build(value, unit))
    }

    /** CanConvertUnit::convert: the scalar of the target unit rebuilt in that unit. Since
        every table is total, the error branch is never taken. */
    function Convert(to: TemperatureUnit): (r: Result<Quantity>)
      ensures r.Ok?
      ensures r.value.Unit() == to && r.value.Scalar() == temperature.ConvertScalar(to).value
      ensures KelvinOf(to, r.value.Scalar()) == KelvinOf(temperature.Unit(), temperature.Scalar())
    {
      var s := temperature.ConvertScalar(to);
      if s.Ok? then Ok(Build(s.value, to)) else Err("failed to convert the temperature")
    }
  }

  /** Converting and converting back gives the original value, for every pair of units. */
  lemma {:induction false} RoundTrip(a: TemperatureUnit, value: real, b: TemperatureUnit)
    ensures Quantity(b, Quantity(a, value).ConvertScalar(b).value).ConvertScalar(a).value == value
  {
    var r := Quantity(a, value).ConvertScalar(b).value;
    var s := Quantity(b, r).ConvertScalar(a).value;
    KelvinOfInjective(a, s, value);
  }

  /** Conversions compose: going through any intermediate unit gives the direct result. */
  lemma {:induction false} PathIndependent(a: TemperatureUnit, value: real, b: TemperatureUnit, c: TemperatureUnit)
    ensures Quantity(b, Quantity(a, value).ConvertScalar(b).value).ConvertScalar(c)
        == Quantity(a, value).ConvertScalar(c)
  {
    var r := Quantity(a, value).ConvertScalar(b).value;
    var s := Quantity(b, r).ConvertScalar(c).value;
    var t := Quantity(a, value).ConvertScalar(c).value;
    KelvinOfInjective(c, s, t);
  }

  /** The converter tests and the temperature exercises. */
  lemma ConverterKnownPoints()
    ensures Converter.New(1.0, Celsius).Convert(Celsius) == Ok(Quantity(Celsius, 1.0))
    ensures Converter.New(-273.15, Celsius).Convert(Kelvin) == Ok(Quantity(Kelvin, 0.0))
    ensures Converter.New(32.0, Fahrenheit).Convert(Celsius) == Ok(Quantity(Celsius, 0.0))
    ensures Converter.New(300.0, Kelvin).Convert(Celsius) == Ok(Quantity(Celsius, 26.85))
    ensures IsClose(212.0, Floor(Converter.New(100.0, Celsius).Convert(Fahrenheit).value.Scalar(), 6))
  {
    FloorSixPlaces(212.0, 212000000);
  }
}
