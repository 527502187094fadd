/** The Mile quantity's conversion table (rust/ast_utils/src/distance/mile.rs). */
module DistanceMile {
  import opened Traits
  import opened DistanceUnits

  /** Mile::convert_scalar: a zero value is Ok(0.0) for every target; otherwise itself and
      Kilometer (times 1.609344) only. */
  function ConvertScalar(value: real, to: DistanceUnit): (r: Result<real>)
    ensures r.Ok? <==> value == 0.0 || HasRule(Mile, to)
    ensures r.Ok? ==> SameLength(Mile, value, to, r.value)
    ensures to == Mile ==> r == Ok(value)
    ensures value == 0.0 ==> r == Ok(0.0)
    ensures r.Err? ==> r.msg == "not convertable from Mile"
  {
    if value == 0.0 then Ok(0.0)
    else
      match to
      case Mile => Ok(value)
      case Kilometer => Ok(value * 1.609344)
      case _ => Err("not convertable from Mile")
  }
}
