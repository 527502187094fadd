/** The degrees-minutes-seconds angle of rust/ast_utils/src/angular/dms.rs. */
module AngularDms {
  import opened Primitives
  import opened Traits
  import opened AstMath
  import opened AngularUnits

  /** The part of an hour the HMS carry loses per leftover second of arc: a leftover of
      `second % 15` is carried as 4 (second % 15) thousandths of a second of time instead
      of 4 (second % 15) sixtieths. */
  const CarryShortfall: real := 47.0 / 2700000.0

  /** DMS: whole degrees, minutes and seconds of arc. */
  datatype Dms = Dms(degree: i16, minute: u8, second: u8)
  {
    /** DMS::new: the three components, refused (the source panics) when the degree exceeds
        359 or a minute or second exceeds 59. Negative degrees are accepted. */
    static function New(degree: i16, minute: u8, second: u8): (r: Result<Dms>)
      ensures r.Ok? <==> degree <= 359 && minute <= 59 && second <= 59
      ensures r.Ok? ==> r.value == Dms(degree, minute, second)
      ensures r.Err? ==> r.msg == "Degree must be smaller than 360, minut and second smaller than 60"
    {
      if degree > 359 || minute > 59 || second > 59 then
        Err("Degree must be smaller than 360, minut and second smaller than 60")
      else
        Ok(Dms(degree, minute, second))
    }

    /** DMS::from_decimal: the whole degrees of |val| (the sign is multiplied back in, which
        makes the degree non-negative either way), then whole minutes and whole seconds of
        the remaining fraction, each truncated. It does not go through `new`. */
    static function FromDecimal(val: real): (d: Dms)
      ensures d.degree >= 0 && d.minute <= 59 && d.second <= 59
      ensures Abs(val) < 32768.0 ==> d.degree == Trunc(Abs(val))
    {
      var sign := RealSignum(val);
      var dec := Abs(val);
      var degrees := Trunc(val) as real;
      var minFac := 60.0 * Frac(dec);
      var minutes := Trunc(minFac) as real;
      var seconds := 60.0 * Frac(minFac);
      Dms(AsI16(sign * degrees), AsU8(minutes), AsU8(seconds))
    }

    /** scalar: the decimal degrees, signed by the degree component. A zero degree makes the
        whole value zero, whatever the minutes and seconds. */
    function Scalar(): (v: real)
      ensures degree == 0 ==> v == 0.0
      ensures degree > 0 ==> v == degree as real + minute as real / 60.0 + second as real / 3600.0
      ensures degree < 0 ==> v == -(-(degree as real) + minute as real / 60.0 + second as real / 3600.0)
    {
      var sign := IntSignum(degree);
      var deg := IntAbs(degree) as real;
      var dm := if second != 0 then second as real / 60.0 else 0.0;
      var totalMinutes := minute as real + dm;
      var decimalDegs := totalMinutes / 60.0;
      sign as real * (deg + decimalDegs)
    }

    /** unit: always DMS. */
    function Unit(): (u: AngularUnit)
      ensures u == DMS
    {
      DMS
    }

    /** The HMS arm of convert_scalar: truncating division and remainder by 15 of each
        component, the remainders carried as 4 minutes, 4 seconds and 4 "milliseconds".
        Its value is the components' degrees over 15, short by CarryShortfall per leftover
        second of arc. */
    function HoursDecimal(): (h: real)
      ensures h == (degree as real + minute as real / 60.0 + second as real / 3600.0) / 15.0
                   - (second % 15) as real * CarryShortfall
    {
      var hrs := TruncDiv(degree, 15);
      var leftoverMins := 4 * TruncRem(degree, 15);
      var min := minute / 15;
      var leftoverSecs := 4 * (minute % 15);
      var secs := second / 15;
      var leftoverMillis := 4 * (second % 15);
      hrs as real + (min + leftoverMins) as real / 60.0
        + (secs + leftoverSecs) as real / 3600.0
        + leftoverMillis as real / (3600.0 * 1000.0)
    }

    /** convert_scalar: Radian takes the decimal degrees times PI / 180, HMS the integer
        carry, and DMS itself is refused. */
    function ConvertScalar(to: AngularUnit): (r: Result<real>)
      ensures r.Ok? <==> to != DMS
      ensures to == Radian ==> r.Ok? && DegreesOf(Radian, r.value) == Scalar()
      ensures to == HMS ==> r == Ok(HoursDecimal())
      ensures r.Err? ==> r.msg == "not convertiable from DMS"
    {
      var value := Scalar();
      match to
      case Radian => RadiansOfDegrees(value); Ok(value * PI / 180.0)
      case HMS => Ok(HoursDecimal())
      case _ => Err("not convertiable from DMS")
    }
  }

  /** For a positive degree the HMS carry is exact, a fifteenth of the decimal degrees,
      exactly when the seconds are a multiple of 15. */
  lemma HoursExactIff(d: Dms)
    requires d.degree > 0
    ensures d.ConvertScalar(HMS).Ok?
    ensures DegreesOf(HMS, d.ConvertScalar(HMS).value) == d.Scalar() <==> d.second % 15 == 0
  {
  }

  /** Below zero degrees the minutes and seconds are carried with the wrong sign:
      -20 degrees 30 minutes is -20.5 degrees, but goes to -1.3 hours rather than
      -1.3666... hours. */
  lemma HoursOfNegativeDegree()
    ensures Dms(-20, 30, 0).Scalar() == -20.5
    ensures Dms(-20, 30, 0).ConvertScalar(HMS) == Ok(-1.3)
  {
  }

  /** from_decimal of a non-negative value, given its whole degrees k, the whole minutes m
      of the remaining fraction and the whole seconds s of what is left after those. */
  lemma {:induction false} FromDecimalAt(val: real, k: int, m: int, s: int)
    requires 0 <= k < 32768 && k as real <= val < k as real + 1.0
    requires 0 <= m && m as real <= 60.0 * (val - k as real) < m as real + 1.0
    requires 0 <= s && s as real <= 60.0 * (60.0 * (val - k as real) - m as real) < s as real + 1.0
    ensures Dms.FromDecimal(val) == Dms(k, m, s)
  {
    FracOfSplit(val, k);
    var minFac := 60.0 * Frac(val);
    FracOfSplit(minFac, m);
    FracOfSplit(60.0 * Frac(minFac), s);
  }

  /** A well-formed DMS with a positive degree survives scalar and from_decimal unchanged. */
  lemma {:induction false} FromDecimalOfScalar(d: Dms)
    requires d.degree > 0 && d.minute <= 59 && d.second <= 59
    ensures Dms.FromDecimal(d.Scalar()) == d
  {
    var f := d.minute as real / 60.0 + d.second as real / 3600.0;
    assert d.Scalar() == d.degree as real + f;
    FromDecimalAt(d.Scalar(), d.degree, d.minute, d.second);
  }

  /** from_decimal truncates to whole seconds: from one degree up to the i16 range, the
      decimal degrees it stands for are at most the input and less than a second of arc below. */
  lemma {:induction false} ScalarOfFromDecimal(val: real)
    requires 1.0 <= val < 32768.0
    ensures var v := Dms.FromDecimal(val).Scalar(); v <= val < v + 1.0 / 3600.0
  {
    var k := Trunc(val);
    FracOfSplit(val, k);
    var minFac := 60.0 * Frac(val);
    var m := Trunc(minFac);
    FracOfSplit(minFac, m);
    var seconds := 60.0 * Frac(minFac);
    var s := Trunc(seconds);
    FracOfSplit(seconds, s);
    var d := Dms.FromDecimal(val);
    assert d == Dms(k, m, s);
    assert val == k as real + m as real / 60.0 + seconds / 3600.0;
  }

  /** from_decimal drops the sign: a negative input decomposes like its magnitude. */
  lemma FromDecimalDropsSign(val: real)
    ensures Dms.FromDecimal(-val) == Dms.FromDecimal(val)
  {
    assert Abs(-val) == Abs(val);
    FracEven(val);
  }

  /** from_decimal does not go through new's range check: 400 decimal degrees give a
      400-degree DMS that new refuses. */
  lemma FromDecimalSkipsRangeCheck()
    ensures Dms.FromDecimal(400.0) == Dms(400, 0, 0)
    ensures Dms.New(400, 0, 0).Err?
  {
    FromDecimalAt(400.0, 400, 0, 0);
  }

  /** Under one degree, in either direction, from_decimal gives a zero degree and so a
      quantity whose scalar is zero. */
  lemma FromDecimalBelowOneDegree(val: real)
    requires -1.0 < val < 1.0
    ensures Dms.FromDecimal(val).degree == 0
    ensures Dms.FromDecimal(val).Scalar() == 0.0
  {
  }

  /** The decompositions and conversions the DMS tests and exercises check. */
  lemma DmsKnownPoints()
    ensures WithinTestTolerance(24.221667, Dms(24, 13, 18).Scalar())
    ensures Dms.FromDecimal(24.221667) == Dms(24, 13, 18)
    ensures Dms(180, 0, 0).ConvertScalar(Radian) == Ok(PI)
    ensures WithinTestTolerance(3.368062222, Dms(50, 31, 21).ConvertScalar(HMS).value)
    ensures Dms.FromDecimal(-0.508334) == Dms(0, 30, 30)
    ensures Dms.FromDecimal(10.2958) == Dms(10, 17, 44)
    ensures IsClose(13.069444, Floor(Dms(13, 4, 10).Scalar(), 6))
  {
    FromDecimalAt(24.221667, 24, 13, 18);
    FromDecimalAt(0.508334, 0, 30, 30);
    FromDecimalDropsSign(0.508334);
    FromDecimalAt(10.2958, 10, 17, 44);
    FloorSixPlaces(Dms(13, 4, 10).Scalar(), 13069444);
  }
}
