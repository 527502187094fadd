/** The AstronomicalUnit quantity's conversion table (rust/ast_utils/src/distance/astronomical_unit.rs). */
module DistanceAstronomicalUnit {
  import opened Traits
  import opened DistanceUnits

  /** AstronomicalUnit::convert_scalar: fixed, rounded multipliers to Mile, Kilometer, Parsec
      and LightYear, with no special case for zero. */
  function ConvertScalar(value: real, to: DistanceUnit): (r: Result<real>)
    ensures r.Ok? <==> HasRule(AstronomicalUnit, to)
    ensures r.Ok? ==> SameLength(AstronomicalUnit, value, to, r.value)
    ensures to == AstronomicalUnit ==> r == Ok(value)
    ensures r.Err? ==> r.msg == "not convertable from Astronomical Unit"
  {
    match to
    case AstronomicalUnit => Ok(value)
    case Mile => Ok(value * 92900000.0)
    case Kilometer => Ok(value * 149600000.0)
    case Parsec => Ok(value * 0.000004848)
    case LightYear => Ok(value * 0.00001581)
    case _ => Err("not convertable from Astronomical Unit")
  }
}
