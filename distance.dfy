/** The distance family of rust/ast_utils/src/distance.rs: the quantity behind
    `Box<dyn HasConvertableUnit<Unit = DistanceUnit>>`, DistanceFactory::build and
    DistanceConverter. A quantity is a tag and a value; its convert_scalar dispatches to the
    table of its unit. The Kilometer table is the one in rust/ast_utils/src/converters/kilometer.rs. */
module Distance {
  import opened Primitives
  import opened Traits
  import opened AstMath
  import opened DistanceUnits
  import DistanceMillimeter
  import DistanceCentimeter
  import DistanceMeter
  import ConvertersKilometer
  import DistanceInch
  import DistanceFeet
  import DistanceMile
  import DistanceAstronomicalUnit
  import DistanceLightYear
  import DistanceParsec
  import ConvertersMeter

  /** A distance quantity: the value and the tag of one of the per-unit structs. */
  datatype Quantity = Quantity(unit: DistanceUnit, value: real)
  {
    /** HasConvertableUnit::scalar */
    function Scalar(): real
    {
      value
    }

    /** HasConvertableUnit::unit */
    function Unit(): DistanceUnit
    {
      unit
    }

    /** HasConvertableUnit::convert_scalar: the table of the quantity's unit. It succeeds
        exactly for the pairs the tables define, and for a zero value in the tables that
        short-circuit zero; a result is always the same length. */
    function ConvertScalar(to: DistanceUnit): (r: Result<real>)
      ensures r.Ok? <==> (value == 0.0 && ShortCircuitsZero(unit)) || HasRule(unit, to)
      ensures r.Ok? ==> SameLength(unit, value, to, r.value)
      ensures to == unit ==> r == Ok(value)
      ensures value == 0.0 && r.Ok? ==> r.value == 0.0
    {
      match unit
      case Millimeter => DistanceMillimeter.ConvertScalar(value, to)
      case Centimeter => DistanceCentimeter.ConvertScalar(value, to)
      case Meter => DistanceMeter.ConvertScalar(value, to)
      case Kilometer => ConvertersKilometer.ConvertScalar(value, to)
      case Inch => DistanceInch.ConvertScalar(value, to)
      case Feet => DistanceFeet.ConvertScalar(value, to)
      case Mile => DistanceMile.ConvertScalar(value, to)
      case AstronomicalUnit => DistanceAstronomicalUnit.ConvertScalar(value, to)
      case LightYear => DistanceLightYear.ConvertScalar(value, to)
      case Parsec => DistanceParsec.ConvertScalar(value, to)
    }
  }

  /** DistanceFactory::build: the quantity of the given unit holding the given value. */
  function Build(value: real, unit: DistanceUnit): (q: Quantity)
    ensures q.Unit() == unit && q.Scalar() == value
  {
    Quantity(unit, value)
  }

  /** DistanceConverter: holds the source quantity. */
  datatype Converter = Converter(distance: Quantity)
  {
    /** DistanceConverter::new */
    static function New(value: real, unit: DistanceUnit): (c: Converter)
      ensures c.distance.Unit() == unit && c.distance.Scalar() == value
    {
      Converter(Build(value, unit))
    }

    /** CanConvertUnit::convert: one table lookup, then the result rebuilt in the target
        unit. It fails exactly when the source table has no answer; nothing is tried
        through an intermediate unit. */
    function Convert(to: DistanceUnit): (r: Result<Quantity>)
      ensures r.Ok? <==> distance.ConvertScalar(to).Ok?
      ensures r.Ok? ==> r.value.Unit() == to && r.value.Scalar() == distance.ConvertScalar(to).value
      ensures r.Ok? ==> SameLength(distance.Unit(), distance.Scalar(), to, r.value.Scalar())
      ensures r.Err? ==> r.msg == "failed to convert the distance"
    {
      var s := distance.ConvertScalar(to);
      if s.Ok? then Ok(Build(s.value, to)) else Err("failed to convert the distance")
    }
  }

  /** Converting a quantity to its own unit gives it back unchanged. */
  lemma SelfConversionIdentity(value: real, unit: DistanceUnit)
    ensures Converter.New(value, unit).Convert(unit) == Ok(Build(value, unit))
  {
  }

  /** Between terrestrial units a conversion multiplies by the ratio of the unit lengths. */
  lemma {:induction false} TerrestrialScale(from: DistanceUnit, value: real, to: DistanceUnit)
    requires Terrestrial(from) && Terrestrial(to) && HasRule(from, to)
    ensures Quantity(from, value).ConvertScalar(to)
        == Ok(value * KilometersPer(from) / KilometersPer(to))
  {
    var r := Quantity(from, value).ConvertScalar(to).value;
    DivideBack(r, value * KilometersPer(from), KilometersPer(to));
  }

  /** Going to a terrestrial unit and back again, where both rules exist, gives the exact
      original value. */
  lemma {:induction false} TerrestrialRoundTrip(a: DistanceUnit, value: real, b: DistanceUnit)
    requires Terrestrial(a) && Terrestrial(b) && HasRule(a, b) && HasRule(b, a)
    ensures Quantity(a, value).ConvertScalar(b).Ok?
    ensures Quantity(b, Quantity(a, value).ConvertScalar(b).value).ConvertScalar(a) == Ok(value)
  {
    var r := Quantity(a, value).ConvertScalar(b).value;
    var s := Quantity(b, r).ConvertScalar(a).value;
    assert SameLength(a, s, a, value);
    SameLengthDetermines(a, s, a, value, s);
    CancelFactor(s, value, KilometersPer(a));
  }

  /** Between the astronomical units the rounded rates do not invert exactly, but a round
      trip stays within one part in a thousand. */
  lemma AstronomicalRoundTrip(a: DistanceUnit, value: real, b: DistanceUnit)
    requires !Terrestrial(a) && !Terrestrial(b)
    ensures Quantity(a, value).ConvertScalar(b).Ok?
    ensures var s := Quantity(b, Quantity(a, value).ConvertScalar(b).value).ConvertScalar(a);
      s.Ok? && Abs(s.value - value) <= Abs(value) / 1000.0
  {
  }

  /** The rounded rates the astronomical tables multiply by. */
  lemma AstronomicalRates(value: real)
    ensures Quantity(AstronomicalUnit, value).ConvertScalar(Mile) == Ok(value * 92900000.0)
    ensures Quantity(AstronomicalUnit, value).ConvertScalar(Kilometer) == Ok(value * 149600000.0)
    ensures Quantity(AstronomicalUnit, value).ConvertScalar(Parsec) == Ok(value * 0.000004848)
    ensures Quantity(AstronomicalUnit, value).ConvertScalar(LightYear) == Ok(value * 0.00001581)
    ensures Quantity(LightYear, value).ConvertScalar(Mile) == Ok(value * 5879000000000.0)
    ensures Quantity(LightYear, value).ConvertScalar(Kilometer) == Ok(value * 9461000000000.0)
    ensures Quantity(LightYear, value).ConvertScalar(Parsec) == Ok(value * 0.3066)
    ensures Quantity(LightYear, value).ConvertScalar(AstronomicalUnit) == Ok(value * 63241.0)
    ensures Quantity(Parsec, value).ConvertScalar(Kilometer) == Ok(value * 30860000000000.0)
    ensures Quantity(Parsec, value).ConvertScalar(Mile) == Ok(value * 19170000000000.0)
    ensures Quantity(Parsec, value).ConvertScalar(AstronomicalUnit) == Ok(value * 206300.0)
    ensures Quantity(Parsec, value).ConvertScalar(LightYear) == Ok(value * 3.261564)
  {
  }

  /** The rate pairs of the astronomical units are not each other's inverses:
      one light year to astronomical units and back is 0.99984021 light years. */
  lemma AstronomicalRatesInexact()
    ensures Quantity(LightYear, 1.0).ConvertScalar(AstronomicalUnit) == Ok(63241.0)
    ensures Quantity(AstronomicalUnit, 63241.0).ConvertScalar(LightYear) == Ok(0.99984021)
  {
  }

  /** There is no multi-hop fallback: feet reach metres and metres reach kilometres, but the
      converter still refuses feet to kilometres, whatever the value, zero included. */
  lemma NoMultiHop(value: real)
    ensures Converter.New(value, Feet).Convert(Meter).Ok?
    ensures Converter.New(value * 0.3048, Meter).Convert(Kilometer).Ok?
    ensures Converter.New(value, Feet).Convert(Kilometer) == Err("failed to convert the distance")
  {
  }

  /** The older Meter table of rust/ast_utils/src/converters/meter.rs agrees with the
      distance family's Meter table on the metric targets, and only there. */
  lemma LegacyMeterAgrees(value: real, to: DistanceUnit)
    ensures to in {Millimeter, Centimeter, Meter, Kilometer}
        ==> ConvertersMeter.ConvertScalar(value, to) == DistanceMeter.ConvertScalar(value, to)
    ensures to == Feet ==>
      ConvertersMeter.ConvertScalar(value, to).Err? && DistanceMeter.ConvertScalar(value, to) == Ok(value / 0.3048)
    ensures ConvertersMeter.ConvertScalar(0.0, to).Ok? <==> to in {Millimeter, Centimeter, Meter, Kilometer}
  {
    if to in {Millimeter, Centimeter, Meter, Kilometer} && value != 0.0 {
      SameLengthDetermines(Meter, value, to,
        ConvertersMeter.ConvertScalar(value, to).value, DistanceMeter.ConvertScalar(value, to).value);
    }
  }

  /** The conversions the converter's own tests exercise. */
  lemma ConverterKnownPoints()
    ensures Converter.New(1.0, Millimeter).Convert(Millimeter) == Ok(Quantity(Millimeter, 1.0))
    ensures Converter.New(10.0, Millimeter).Convert(Centimeter) == Ok(Quantity(Centimeter, 1.0))
    ensures Converter.New(1000.0, Millimeter).Convert(Meter) == Ok(Quantity(Meter, 1.0))
    ensures Converter.New(1000000.0, Millimeter).Convert(Kilometer) == Ok(Quantity(Kilometer, 1.0))
    ensures Converter.New(25.4, Millimeter).Convert(Inch) == Ok(Quantity(Inch, 1.0))
    ensures Converter.New(0.3048, Meter).Convert(Feet) == Ok(Quantity(Feet, 1.0))
    ensures Converter.New(1.609344, Kilometer).Convert(Mile) == Ok(Quantity(Mile, 1.0))
  {
    Pow10Exact(10.0, -1);
    Pow10Exact(1000.0, -3);
    Pow10Exact(1000000.0, -6);
  }

  /** The scalar of a successful conversion, rounded down to six places as the exercises
      compare it. */
  function Rounded(r: Result<Quantity>): real
  {
    if r.Ok? then Floor(r.value.Scalar(), 6) else 0.0
  }

  /** The distance exercises whose rules exist: each converts, and its scalar rounded down to
      six places is close to the expected value. */
  lemma ExerciseDistancePoints()
    ensures var r := Converter.New(5.0, Millimeter).Convert(Inch); r.Ok? && IsClose(0.196850, Rounded(r))
    ensures var r := Converter.New(10.0, Inch).Convert(Millimeter); r.Ok? && IsClose(254.0, Rounded(r))
    ensures var r := Converter.New(30.0, Meter).Convert(Feet); r.Ok? && IsClose(98.425196, Rounded(r))
    ensures var r := Converter.New(25.0, Feet).Convert(Meter); r.Ok? && IsClose(7.62, Rounded(r))
    ensures var r := Converter.New(100.0, Mile).Convert(Kilometer); r.Ok? && IsClose(160.9344, Rounded(r))
    ensures var r := Converter.New(88.0, Kilometer).Convert(Mile); r.Ok? && IsClose(54.680664, Rounded(r))
    ensures var r := Converter.New(12.0, LightYear).Convert(Mile); r.Ok? && IsClose(70548000000000.0, Rounded(r))
    ensures var r := Converter.New(5.0, LightYear).Convert(Parsec); r.Ok? && IsClose(1.533, Rounded(r))
    ensures var r := Converter.New(3.0, Parsec).Convert(LightYear); r.Ok? && IsClose(9.784692, Rounded(r))
    ensures var r := Converter.New(2.0, AstronomicalUnit).Convert(Mile); r.Ok? && IsClose(185800000.0, Rounded(r))
  {
    FloorSixPlaces(5.0 / 25.4, 196850);
    FloorSixPlaces(10.0 * 25.4, 254000000);
    FloorSixPlaces(30.0 / 0.3048, 98425196);
    FloorSixPlaces(25.0 * 0.3048, 7620000);
    FloorSixPlaces(100.0 * 1.609344, 160934400);
    FloorSixPlaces(88.0 / 1.609344, 54680664);
    FloorSixPlaces(12.0 * 5879000000000.0, 70548000000000000000);
    FloorSixPlaces(5.0 * 0.3066, 1533000);
    FloorSixPlaces(3.0 * 3.261564, 9784692);
    FloorSixPlaces(2.0 * 92900000.0, 185800000000000);
  }
}
