/** The radian angle of rust/ast_utils/src/angular/radian.rs. */
module AngularRadian {
  import opened Primitives
  import opened Traits
  import opened AstMath
  import U = AngularUnits

  /** Radian: an angle held as its value in radians. */
  datatype Radian = Radian(value: real)
  {
    /** Radian::new */
    static function New(value: real): (r: Radian)
      ensures r.Scalar() == value
    {
      Radian(value)
    }

    /** scalar: the stored value. */
    function Scalar(): real
    {
      value
    }

    /** unit: always Radian. */
    function Unit(): (u: U.AngularUnit)
      ensures u == U.Radian
    {
      U.Radian
    }

    /** convert_scalar: every target succeeds. Radian keeps the value; DMS and HMS take the
        same direction as decimal degrees wrapped into [0, 360) and decimal hours wrapped
        into [0, 24). */
    function ConvertScalar(to: U.AngularUnit): (r: Result<real>)
      ensures r.Ok?
      ensures to == U.Radian ==> r.value == value
      ensures to == U.DMS ==>
        0.0 <= r.value < 360.0 && U.SameDirection(U.DegreesOf(U.DMS, r.value), U.DegreesOf(U.Radian, value))
      ensures to == U.HMS ==>
        0.0 <= r.value < 24.0 && U.SameDirection(U.DegreesOf(U.HMS, r.value), U.DegreesOf(U.Radian, value))
    {
      match to
      case Radian => Ok(value)
      case DMS =>
        DegreesWrap(value * 180.0 / PI);
        Ok(RemEuclid(value * 180.0 / PI, 360.0))
      case HMS =>
        HoursWrap(value, PI);
        Ok(RemEuclid(value * 12.0 / PI, 24.0))
    }
  }

  /** A remainder mod 360 degrees is the same direction as the degrees. */
  lemma DegreesWrap(x: real)
    ensures U.SameDirection(RemEuclid(x, 360.0), x)
  {
    var w := RemEuclid(x, 360.0);
    var k := ((x - w) / 360.0).Floor;
    U.WholeNegated((x - w) / 360.0, k);
    assert (w - x) / 360.0 == -((x - w) / 360.0);
  }

  /** Radians v to hours mod 24, taken as degrees, is the same direction as v in degrees. */
  lemma HoursWrap(v: real, p: real)
    requires p == PI
    ensures U.SameDirection(15.0 * RemEuclid(v * 12.0 / p, 24.0), U.DegreesOf(U.Radian, v))
  {
    var x := v * 12.0 / p;
    HoursSameDirection(x, RemEuclid(x, 24.0));
    assert 15.0 * x == v * 180.0 / p;
  }

  /** A remainder mod 24 hours, taken as degrees, is the same direction as the hours. */
  lemma HoursSameDirection(x: real, w: real)
    requires ((x - w) / 24.0).Floor as real == (x - w) / 24.0
    ensures U.SameDirection(15.0 * w, 15.0 * x)
  {
    var k := ((x - w) / 24.0).Floor;
    U.WholeNegated((x - w) / 24.0, k);
    assert (15.0 * w - 15.0 * x) / 360.0 == -((x - w) / 24.0);
  }

  /** c / PI for a positive c, bracketed through the bounds on PI. */
  lemma QuotientByPi(c: real, lo: real, hi: real)
    requires 0.0 < lo <= hi && lo * 3.141592654 <= c <= hi * 3.141592653
    ensures lo <= c / PI <= hi
  {
    var p: real := PI;
    var x := c / p;
    assert x * p == c;
    if x < lo {
      MulRightStrict(x, lo, p);
      MulRightStrict(p, 3.141592654, lo);
      assert false;
    }
    if x > hi {
      MulRightStrict(hi, x, p);
      MulRightStrict(3.141592653, p, hi);
      assert false;
    }
  }

  /** The wraps and conversions the Radian tests check. */
  lemma RadianKnownPoints()
    ensures Radian.New(0.0).ConvertScalar(U.Radian) == Ok(0.0)
    ensures WithinTestTolerance(57.2957795, Radian.New(1.0).ConvertScalar(U.DMS).value)
    ensures Radian.New(2.0 * PI).ConvertScalar(U.DMS) == Ok(0.0)
    ensures Radian.New(PI).ConvertScalar(U.HMS) == Ok(12.0)
  {
    QuotientByPi(180.0, 57.2957795, 57.2957796);
    RemEuclidUnique(1.0 * 180.0 / PI, 360.0, 0, 180.0 / PI);
    var p: real := PI;
    assert 2.0 * p * 180.0 / p == 360.0;
    RemEuclidUnique(360.0, 360.0, 1, 0.0);
    assert p * 12.0 / p == 12.0;
    RemEuclidUnique(12.0, 24.0, 0, 12.0);
  }
}
