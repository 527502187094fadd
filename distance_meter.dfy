/** The Meter quantity's conversion table (rust/ast_utils/src/distance/meter.rs). */
module DistanceMeter {
  import opened Traits
  import opened DistanceUnits

  /** Meter::convert_scalar: a zero value is Ok(0.0) for every target; otherwise the metric
      targets scale by powers of ten and Feet divides by 0.3048. */
  function ConvertScalar(value: real, to: DistanceUnit): (r: Result<real>)
    ensures r.Ok? <==> value == 0.0 || HasRule(Meter, to)
    ensures r.Ok? ==> SameLength(Meter, value, to, r.value)
    ensures to == Meter ==> r == Ok(value)
    ensures value == 0.0 ==> r == Ok(0.0)
    ensures r.Err? ==> r.msg == "not convertable from Meter"
  {
    if value == 0.0 then Ok(0.0)
    else
      match to
      case Millimeter => Pow10Exact(value, 3); Ok(Pow10(value, 3))
      case Centimeter => Pow10Exact(value, 2); Ok(Pow10(value, 2))
      case Meter => Ok(value)
      case Kilometer => Pow10Exact(value, -3); Ok(Pow10(value, -3))
      case Feet => Ok(value / 0.3048)
      case _ => Err("not convertable from Meter")
  }
}
