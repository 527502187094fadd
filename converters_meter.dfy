/** The older Meter quantity's conversion table, kept beside the distance family (rust/ast_utils/src/converters/meter.rs). */
module ConvertersMeter {
  import opened Traits
  import opened DistanceUnits

  /** The older Meter::convert_scalar: metric targets only (no Feet rule) and no special case
      for zero. */
  function ConvertScalar(value: real, to: DistanceUnit): (r: Result<real>)
    ensures r.Ok? <==> to in {Millimeter, Centimeter, Meter, Kilometer}
    ensures r.Ok? ==> SameLength(Meter, value, to, r.value)
    ensures to == Meter ==> r == Ok(value)
    ensures r.Err? ==> r.msg == "Can not convert from meter"
  {
    match to
    case Millimeter => Pow10Exact(value, 3); Ok(Pow10(value, 3))
    case Centimeter => Pow10Exact(value, 2); Ok(Pow10(value, 2))
    case Meter => Ok(value)
    case Kilometer => Pow10Exact(value, -3); Ok(Pow10(value, -3))
    case _ => Err("Can not convert from meter")
  }
}
