/** The LightYear quantity's conversion table (rust/ast_utils/src/distance/light_year.rs). */
module DistanceLightYear {
  import opened Traits
  import opened DistanceUnits

  /** LightYear::convert_scalar: fixed, rounded multipliers to Mile, Kilometer, Parsec and
      AstronomicalUnit, with no special case for zero. */
  function ConvertScalar(value: real, to: DistanceUnit): (r: Result<real>)
    ensures r.Ok? <==> HasRule(LightYear, to)
    ensures r.Ok? ==> SameLength(LightYear, value, to, r.value)
    ensures to == LightYear ==> r == Ok(value)
    ensures r.Err? ==> r.msg == "not convertable from LightYear"
  {
    match to
    case LightYear => Ok(value)
    case Mile => Ok(value * 5879000000000.0)
    case Kilometer => Ok(value * 9461000000000.0)
    case Parsec => Ok(value * 0.3066)
    case AstronomicalUnit => Ok(value * 63241.0)
    case _ => Err("not convertable from LightYear")
  }
}
