/** The Inch quantity's conversion table (rust/ast_utils/src/distance/inch.rs). */
module DistanceInch {
  import opened Traits
  import opened DistanceUnits

  /** Inch::convert_scalar: itself and Millimeter (times 25.4) only, with no special case for zero. */
  function ConvertScalar(value: real, to: DistanceUnit): (r: Result<real>)
    ensures r.Ok? <==> HasRule(Inch, to)
    ensures r.Ok? ==> SameLength(Inch, value, to, r.value)
    ensures to == Inch ==> r == Ok(value)
    ensures r.Err? ==> r.msg == "not convertable from Inch"
  {
    match to
    case Inch => Ok(value)
    case Millimeter => Ok(value * 25.4)
    case _ => Err("not convertable from Inch")
  }
}
