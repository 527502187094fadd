/** The Parsec quantity's conversion table (rust/ast_utils/src/distance/parsec.rs). */
module DistanceParsec {
  import opened Traits
  import opened DistanceUnits

  /** Parsec::convert_scalar: fixed, rounded multipliers to Kilometer, Mile, AstronomicalUnit
      and LightYear, with no special case for zero. */
  function ConvertScalar(value: real, to: DistanceUnit): (r: Result<real>)
    ensures r.Ok? <==> HasRule(Parsec, to)
    ensures r.Ok? ==> SameLength(Parsec, value, to, r.value)
    ensures to == Parsec ==> r == Ok(value)
    ensures r.Err? ==> r.msg == "not convertable from Parsec"
  {
    match to
    case Parsec => Ok(value)
    case Kilometer => Ok(value * 30860000000000.0)
    case Mile => Ok(value * 19170000000000.0)
    case AstronomicalUnit => Ok(value * 206300.0)
    case LightYear => Ok(value * 3.261564)
    case _ => Err("not convertable from Parsec")
  }
}
