/** The Kilometer quantity's conversion table (rust/ast_utils/src/converters/kilometer.rs). */
module ConvertersKilometer {
  import opened Traits
  import opened DistanceUnits

  /** Kilometer::convert_scalar: a zero value is Ok(0.0) for every target; otherwise the
      metric targets scale by powers of ten and Mile divides by 1.609344. */
  function ConvertScalar(value: real, to: DistanceUnit): (r: Result<real>)
    ensures r.Ok? <==> value == 0.0 || HasRule(Kilometer, to)
    ensures r.Ok? ==> SameLength(Kilometer, value, to, r.value)
    ensures to == Kilometer ==> r == Ok(value)
    ensures value == 0.0 ==> r == Ok(0.0)
    ensures r.Err? ==> r.msg == "Can not convert from Kilometer"
  {
    if value == 0.0 then Ok(0.0)
    else
      match to
      case Millimeter => Pow10Exact(value, 6); Ok(Pow10(value, 6))
      case Centimeter => Pow10Exact(value, 5); Ok(Pow10(value, 5))
      case Meter => Pow10Exact(value, 3); Ok(Pow10(value, 3))
      case Kilometer => Ok(value)
      case Mile => Ok(value / 1.609344)
      case _ => Err("Can not convert from Kilometer")
  }
}
