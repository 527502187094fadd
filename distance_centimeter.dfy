/** The Centimeter quantity's conversion table (rust/ast_utils/src/distance/centimeter.rs). */
module DistanceCentimeter {
  import opened Traits
  import opened DistanceUnits

  /** Centimeter::convert_scalar: metric targets only, with no special case for zero. */
  function ConvertScalar(value: real, to: DistanceUnit): (r: Result<real>)
    ensures r.Ok? <==> HasRule(Centimeter, to)
    ensures r.Ok? ==> SameLength(Centimeter, value, to, r.value)
    ensures to == Centimeter ==> r == Ok(value)
    ensures r.Err? ==> r.msg == "Can not convert from Centimeter"
  {
    match to
    case Millimeter => Pow10Exact(value, 1); Ok(Pow10(value, 1))
    case Centimeter => Ok(value)
    case Meter => Pow10Exact(value, -2); Ok(Pow10(value, -2))
    case Kilometer => Pow10Exact(value, -5); Ok(Pow10(value, -5))
    case _ => Err("Can not convert from Centimeter")
  }
}
