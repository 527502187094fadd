/** The distance unit tags of rust/ast_utils/src/distance.rs, their display labels, and the
    reference the per-unit conversion tables are checked against: the length of one unit in
    kilometres and the graph of (source, target) pairs the tables define. */
module DistanceUnits {
  import opened Primitives

  /** DistanceUnit: the ten distance tags. */
  datatype DistanceUnit =
    | Millimeter | Centimeter | Meter | Kilometer | Inch | Feet | Mile
    | LightYear | AstronomicalUnit | Parsec

  /** The Display label of a distance tag. */
  function Label(u: DistanceUnit): string
  {
    match u
    case Millimeter => "millimeter"
    case Centimeter => "centimeter"
    case Meter => "meter"
    case Kilometer => "kilometer"
    case Inch => "inch"
    case Feet => "feet"
    case Mile => "mile"
    case LightYear => "light year"
    case AstronomicalUnit => "astronomical unit"
    case Parsec => "parsec"
  }

  /** No two tags share a label, and no label is empty. */
  lemma LabelInjective(u: DistanceUnit, w: DistanceUnit)
    ensures Label(u) == Label(w) <==> u == w
    ensures |Label(u)| > 0
  {
    if Label(u) == Label(w) {
      LabelHeads(u);
      LabelHeads(w);
    }
  }

  /** The first characters and the lengths of the labels tell every tag apart. */
  lemma LabelHeads(u: DistanceUnit)
    ensures |Label(u)| >= 4
    ensures var l := Label(u);
      match u
      case Millimeter => l[0] == 'm' && |l| == 10 && l[1] == 'i' && l[2] == 'l'
      case Centimeter => l[0] == 'c'
      case Meter => l[0] == 'm' && |l| == 5
      case Kilometer => l[0] == 'k'
      case Inch => l[0] == 'i'
      case Feet => l[0] == 'f'
      case Mile => l[0] == 'm' && |l| == 4
      case LightYear => l[0] == 'l'
      case AstronomicalUnit => l[0] == 'a'
      case Parsec => l[0] == 'p'
  {
  }

  /** The length of one unit in kilometres: the international inch, foot and mile,
      the IAU astronomical unit and the light year and parsec derived from it. */
  function KilometersPer(u: DistanceUnit): (k: real)
    ensures k > 0.0
  {
    match u
    case Millimeter => 0.000001
    case Centimeter => 0.00001
    case Meter => 0.001
    case Kilometer => 1.0
    case Inch => 0.0000254
    case Feet => 0.0003048
    case Mile => 1.609344
    case AstronomicalUnit => 149597870.7
    case LightYear => 9460730472580.8
    case Parsec => 30856775814913.673
  }

  /** The units whose relations to each other are exact by definition. */
  predicate Terrestrial(u: DistanceUnit)
  {
    !(u == LightYear || u == AstronomicalUnit || u == Parsec)
  }

  /** `value` in `from` and `result` in `to` are the same length: exactly so between
      terrestrial units, and to within one part in a thousand when an astronomical unit is
      involved, since the tables use rounded rates for those. */
  predicate SameLength(from: DistanceUnit, value: real, to: DistanceUnit, result: real)
  {
    var a := value * KilometersPer(from);
    var b := result * KilometersPer(to);
    if Terrestrial(from) && Terrestrial(to) then b == a else Abs(b - a) <= Abs(a) / 1000.0
  }

  /** The (source, target) pairs for which a table has a rule. Each unit converts to itself;
      beyond that the graph is sparse and not symmetric. */
  predicate HasRule(from: DistanceUnit, to: DistanceUnit)
  {
    from == to ||
    match from
    case Millimeter => to in {Centimeter, Meter, Kilometer, Inch}
    case Centimeter => to in {Millimeter, Meter, Kilometer}
    case Meter => to in {Millimeter, Centimeter, Kilometer, Feet}
    case Kilometer => to in {Millimeter, Centimeter, Meter, Mile}
    case Inch => to == Millimeter
    case Feet => to == Meter
    case Mile => to == Kilometer
    case AstronomicalUnit => to in {Mile, Kilometer, Parsec, LightYear}
    case LightYear => to in {Mile, Kilometer, Parsec, AstronomicalUnit}
    case Parsec => to in {Kilometer, Mile, AstronomicalUnit, LightYear}
  }

  /** The tables that answer Ok(0.0) for a zero value before looking at the target. */
  predicate ShortCircuitsZero(u: DistanceUnit)
  {
    u == Millimeter || u == Meter || u == Kilometer || u == Mile
  }

  /** The same length, stated twice, is the same value: measuring in a unit is injective. */
  lemma {:induction false} SameLengthDetermines(from: DistanceUnit, value: real, to: DistanceUnit, r: real, s: real)
    requires Terrestrial(from) && Terrestrial(to)
    requires SameLength(from, value, to, r) && SameLength(from, value, to, s)
    ensures r == s
  {
    CancelFactor(r, s, KilometersPer(to));
  }


  /** Exact sameness between terrestrial units runs both ways and composes. */
  lemma {:induction false} SameLengthSymmetricTransitive(a: DistanceUnit, x: real, b: DistanceUnit, y: real, c: DistanceUnit, z: real)
    requires Terrestrial(a) && Terrestrial(b) && Terrestrial(c)
    requires SameLength(a, x, b, y)
    ensures SameLength(b, y, a, x)
    ensures SameLength(b, y, c, z) ==> SameLength(a, x, c, z)
  {
  }
}
