/** The metric-only converter of rust/ast_utils/src/converters.rs: MetricUnit and the 4x4
    table of ToMetricDistance::to_metric. */
module Converters {
  import opened Primitives
  import opened Traits

  /** MetricUnit: the four metric distance tags. */
  datatype MetricUnit = Millimeter | Centimeter | Meter | Kilometer

  /** The length of one unit in millimetres. */
  function MillimetersPer(u: MetricUnit): (k: real)
    ensures k >= 1.0
  {
    match u
    case Millimeter => 1.0
    case Centimeter => 10.0
    case Meter => 1000.0
    case Kilometer => 1000000.0
  }

  /** to_metric: `value` in `from` re-expressed in `to`. Every entry is Ok. The Millimeter,
      Centimeter and Meter rows preserve the length; the Kilometer row divides for every
      target, so it rescales as if `value` were given in `to` and asked for in kilometres. */
  function ToMetric(from: MetricUnit, value: real, to: MetricUnit): (r: Result<real>)
    ensures r.Ok?
    ensures from != Kilometer ==> r.value * MillimetersPer(to) == value * MillimetersPer(from)
    ensures from == Kilometer ==> r.value * MillimetersPer(Kilometer) == value * MillimetersPer(to)
    ensures from == to ==> r.value == value
  {
    match from
    case Millimeter =>
      (match to
       case Millimeter => Ok(value)
       case Centimeter => Ok(value / 10.0)
       case Meter => Ok(value / 1000.0)
       case Kilometer => Ok(value / 1000000.0))
    case Centimeter =>
      (match to
       case Millimeter => Ok(value * 10.0)
       case Centimeter => Ok(value)
       case Meter => Ok(value / 100.0)
       case Kilometer => Ok(value / 100000.0))
    case Meter =>
      (match to
       case Millimeter => Ok(value * 1000.0)
       case Centimeter => Ok(value * 100.0)
       case Meter => Ok(value)
       case Kilometer => Ok(value / 1000.0))
    case Kilometer =>
      (match to
       case Millimeter => Ok(value / 1000000.0)
       case Centimeter => Ok(value / 100000.0)
       case Meter => Ok(value / 1000.0)
       case Kilometer => Ok(value))
  }

  /** The Kilometer row is the Kilometer column read backwards: km to `to` gives what
      `to` to km gives. */
  lemma KilometerRowReversed(value: real, to: MetricUnit)
    ensures ToMetric(Kilometer, value, to) == ToMetric(to, value, Kilometer)
  {
    var r, s := ToMetric(Kilometer, value, to).value, ToMetric(to, value, Kilometer).value;
    if to != Kilometer {
      CancelFactor(r, s, MillimetersPer(Kilometer));
    }
  }

  /** The table preserves the length exactly when the row is not Kilometer, the target is
      Kilometer itself, or the value is zero. */
  lemma PreservesLengthIff(from: MetricUnit, value: real, to: MetricUnit)
    ensures ToMetric(from, value, to).value * MillimetersPer(to) == value * MillimetersPer(from)
        <==> from != Kilometer || to == Kilometer || value == 0.0
  {
    if from == Kilometer && to != Kilometer && value != 0.0 {
      var r := ToMetric(from, value, to).value;
      assert r * MillimetersPer(Kilometer) == value * MillimetersPer(to);
      Unequal(value, MillimetersPer(to), MillimetersPer(Kilometer), r);
    }
  }

  /** When r k = v m with v != 0 and m < k, the reverse scaling r m = v k cannot hold too. */
  lemma Unequal(v: real, m: real, k: real, r: real)
    requires v != 0.0 && 1.0 <= m < k && r * k == v * m
    ensures r * m != v * k
  {
  }

  /** Outside the Kilometer row, every going-and-returning pair gives the original value back. */
  lemma {:induction false} RoundTrip(a: MetricUnit, value: real, b: MetricUnit)
    requires a != Kilometer && b != Kilometer
    ensures ToMetric(b, ToMetric(a, value, b).value, a).value == value
  {
    var r := ToMetric(a, value, b).value;
    var s := ToMetric(b, r, a).value;
    assert s * MillimetersPer(a) == value * MillimetersPer(a);
    CancelFactor(s, value, MillimetersPer(a));
  }

  /** Ten millimetres are one centimetre. */
  lemma KnownPoint()
    ensures ToMetric(Millimeter, 10.0, Centimeter) == Ok(1.0)
  {
  }
}
