/** The Millimeter quantity's conversion table (rust/ast_utils/src/distance/millimeter.rs). */
module DistanceMillimeter {
  import opened Traits
  import opened DistanceUnits

  /** Millimeter::convert_scalar: a zero value is Ok(0.0) for every target; otherwise the
      metric targets scale by powers of ten and Inch divides by 25.4. */
  function ConvertScalar(value: real, to: DistanceUnit): (r: Result<real>)
    ensures r.Ok? <==> value == 0.0 || HasRule(Millimeter, to)
    ensures r.Ok? ==> SameLength(Millimeter, value, to, r.value)
    ensures to == Millimeter ==> r == Ok(value)
    ensures value == 0.0 ==> r == Ok(0.0)
    ensures r.Err? ==> r.msg == "Millimeter misses some distances"
  {
    if value == 0.0 then Ok(0.0)
    else
      match to
      case Millimeter => Ok(value)
      case Centimeter => Pow10Exact(value, -1); Ok(Pow10(value, -1))
      case Meter => Pow10Exact(value, -3); Ok(Pow10(value, -3))
      case Kilometer => Pow10Exact(value, -6); Ok(Pow10(value, -6))
      case Inch => Ok(value / 25.4)
      case _ => Err("Millimeter misses some distances")
  }
}
