/** The Feet quantity's conversion table (rust/ast_utils/src/distance/feet.rs). */
module DistanceFeet {
  import opened Traits
  import opened DistanceUnits

  /** Feet::convert_scalar: itself and Meter (times 0.3048) only, with no special case for zero. */
  function ConvertScalar(value: real, to: DistanceUnit): (r: Result<real>)
    ensures r.Ok? <==> HasRule(Feet, to)
    ensures r.Ok? ==> SameLength(Feet, value, to, r.value)
    ensures to == Feet ==> r == Ok(value)
    ensures r.Err? ==> r.msg == "not convertable from Feet"
  {
    match to
    case Feet => Ok(value)
    case Meter => Ok(value * 0.3048)
    case _ => Err("not convertable from Feet")
  }
}
