/** The angular unit tags of rust/ast_utils/src/angular.rs, their display labels, and the
    reference the angle conversions are checked against: the angle a scalar stands for,
    in degrees. */
module AngularUnits {
  import opened Primitives

  /** AngularUnit: degrees-minutes-seconds, hours-minutes-seconds and radians. */
  datatype AngularUnit = DMS | HMS | Radian

  /** The Display label of an angular tag. */
  function Label(u: AngularUnit): string
  {
    match u
    case DMS => "dms"
    case HMS => "hms"
    case Radian => "rad"
  }

  /** No two tags share a label. */
  lemma LabelInjective(u: AngularUnit, w: AngularUnit)
    ensures Label(u) == Label(w) <==> u == w
  {
    if u != w {
      assert Label(u)[0] != Label(w)[0];
    }
  }

  /** The angle, in degrees, that a decimal scalar of the given unit stands for: decimal
      degrees, decimal hours of fifteen degrees, or radians. */
  function DegreesOf(u: AngularUnit, value: real): real
  {
    match u
    case DMS => value
    case HMS => 15.0 * value
    case Radian => value * 180.0 / PI
  }

  /** Two angles in degrees that differ by a whole number of full turns. */
  predicate SameDirection(a: real, b: real)
  {
    ((a - b) / 360.0).Floor as real == (a - b) / 360.0
  }

  /** Degrees to radians and back cancel. */
  lemma RadiansOfDegrees(d: real)
    ensures DegreesOf(Radian, d * PI / 180.0) == d
  {
    var p: real := PI;
    assert d * p / 180.0 * 180.0 / p == d * (p / p);
  }

  /** Being the same direction is reflexive, symmetric and transitive. */
  lemma {:induction false} SameDirectionEquivalence(a: real, b: real, c: real)
    ensures SameDirection(a, a)
    ensures SameDirection(a, b) ==> SameDirection(b, a)
    ensures SameDirection(a, b) && SameDirection(b, c) ==> SameDirection(a, c)
  {
    if SameDirection(a, b) {
      var k := ((a - b) / 360.0).Floor;
      WholeNegated((a - b) / 360.0, k);
      assert (b - a) / 360.0 == -((a - b) / 360.0);
      if SameDirection(b, c) {
        var j := ((b - c) / 360.0).Floor;
        assert (a - c) / 360.0 == (a - b) / 360.0 + (b - c) / 360.0;
        WholeSum((a - b) / 360.0, k, (b - c) / 360.0, j);
      }
    }
  }

  lemma WholeNegated(x: real, k: int)
    requires x == k as real
    ensures (-x).Floor == -k
  {
  }

  lemma WholeSum(x: real, k: int, y: real, j: int)
    requires x == k as real && y == j as real
    ensures (x + y).Floor as real == x + y
  {
    assert x + y == (k + j) as real;
  }
}
