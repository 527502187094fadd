/** The hours-minutes-seconds angle of rust/ast_utils/src/angular/hms.rs. */
module AngularHms {
  import opened Primitives
  import opened Traits
  import opened AstMath
  import opened AngularUnits

  /** HMS: whole hours, minutes and seconds of time. */
  datatype Hms = Hms(hour: i8, minute: u8, second: u8)
  {
    /** HMS::new: the three components, refused (the source panics) when |hour|, the
        minute or the second exceeds 59. */
    static function New(hour: i8, minute: u8, second: u8): (r: Result<Hms>)
      ensures r.Ok? <==> -59 <= hour <= 59 && minute <= 59 && second <= 59
      ensures r.Ok? ==> r.value == Hms(hour, minute, second)
      ensures r.Err? ==> r.msg == "Hour, minute and second must be smaller than 60"
    {
      if IntAbs(hour) > 59 || minute > 59 || second > 59 then
        Err("Hour, minute and second must be smaller than 60")
      else
        Ok(Hms(hour, minute, second))
    }

    /** HMS::from_decimal: the whole hours of |val| wrapped into a day and signed like val,
        then whole minutes and whole seconds of the remaining fraction, each truncated, all
        passed through `new`, which never refuses them. */
    static function FromDecimal(val: real): (h: Hms)
      ensures New(h.hour, h.minute, h.second) == Ok(h)
      ensures IntAbs(h.hour) == Trunc(Abs(val)) % 24
      ensures val >= 0.0 ==> h.hour >= 0
      ensures val < 0.0 ==> h.hour <= 0
      ensures h.minute <= 59 && h.second <= 59
    {
      var sign := RealSignum(val);
      var v := Abs(val);
      var hrs := Trunc(v);
      var minFac := 60.0 * Frac(v);
      var minutes := Trunc(minFac) as real;
      var seconds := 60.0 * Frac(minFac);
      RemEuclidOfDay(hrs);
      var hour := AsI8(sign * RemEuclid(hrs as real, 24.0));
      assert IntAbs(hour) == hrs % 24;
      New(hour, AsU8(minutes), AsU8(seconds)).value
    }

    /** to_decimal: the decimal hours, signed by the hour component. A zero hour makes the
        whole value zero, whatever the minutes and seconds. */
    function ToDecimal(): (v: real)
      ensures hour == 0 ==> v == 0.0
      ensures hour > 0 ==> v == hour as real + minute as real / 60.0 + second as real / 3600.0
      ensures hour < 0 ==> v == -(-(hour as real) + minute as real / 60.0 + second as real / 3600.0)
    {
      var sign := IntSignum(hour);
      var hrs := IntAbs(hour) as real;
      var dm := if second != 0 then second as real / 60.0 else 0.0;
      var totalMinutes := minute as real + dm;
      var decimalHrs := totalMinutes / 60.0;
      sign as real * (hrs + decimalHrs)
    }

    /** to_tuple: the stored components, from which the same HMS is rebuilt. */
    function ToTuple(): (t: (i8, u8, u8))
      ensures Hms(t.0, t.1, t.2) == this
    {
      (hour, minute, second)
    }

    /** scalar: the decimal hours of to_decimal. */
    function Scalar(): (v: real)
      ensures v == ToDecimal()
    {
      ToDecimal()
    }

    /** unit: always HMS. */
    function Unit(): (u: AngularUnit)
      ensures u == HMS
    {
      HMS
    }

    /** The DMS arm of convert_scalar: the hours times 15 wrapped into [0, 360), plus the
        minutes and seconds times 15 as minutes and seconds of arc, signed like the scalar.
        For a positive hour it is the same direction as the decimal hours, and under a day
        exactly the same angle; a zero hour still counts the minutes and seconds. A
        negative hour is wrapped to a positive angle first and the minutes and seconds are
        added to it before the sign is applied, so the result is the negation of (an angle
        equivalent to) 15 hour + the minutes and seconds of arc. */
    function DegreesDecimal(): (d: real)
      ensures hour > 0 ==> SameDirection(d, DegreesOf(HMS, ToDecimal()))
      ensures 0 < hour < 24 ==> d == DegreesOf(HMS, ToDecimal())
      ensures hour == 0 ==> d == minute as real / 4.0 + second as real / 240.0
      ensures hour >= 0 ==> d >= 0.0
      ensures hour < 0 ==> d <= 0.0
      ensures hour < 0 ==>
        SameDirection(-d, 15.0 * hour as real + minute as real / 4.0 + second as real / 240.0)
      ensures -24 < hour < 0 ==>
        d == -(360.0 + 15.0 * hour as real + minute as real / 4.0 + second as real / 240.0)
      ensures hour != 0 ==> 0.0 <= Abs(d) - minute as real / 4.0 - second as real / 240.0 < 360.0
    {
      var value := ToDecimal();
      var sign := RealSignum(value);
      var secs := second as real * 15.0;
      var mins := minute as real * 15.0;
      var hrs := hour as real * 15.0;
      var dmsDecimal := RemEuclid(hrs, 360.0) + mins / 60.0 + secs / 3600.0;
      HourWrap(hour, mins / 60.0 + secs / 3600.0);
      assert hour > 0 ==> sign == 1.0;
      assert hour < 0 ==> sign == -1.0;
      sign * dmsDecimal
    }

    /** convert_scalar: every target succeeds. HMS keeps the scalar, Radian takes it times
        PI / 12, and DMS takes DegreesDecimal. */
    function ConvertScalar(to: AngularUnit): (r: Result<real>)
      ensures r.Ok?
      ensures to == HMS ==> r.value == Scalar()
      ensures to == Radian ==> DegreesOf(Radian, r.value) == DegreesOf(HMS, Scalar())
      ensures to == DMS ==> r.value == DegreesDecimal()
    {
      var value := Scalar();
      match to
      case HMS => Ok(value)
      case Radian => RadiansOfDegrees(15.0 * value); Ok(value * PI / 12.0)
      case DMS => Ok(DegreesDecimal())
    }
  }

  /** A whole number of hours wraps into a day as the integer remainder. */
  lemma RemEuclidOfDay(n: nat)
    ensures RemEuclid(n as real, 24.0) == (n % 24) as real
  {
    var q := n / 24;
    assert n as real == q as real * 24.0 + (n % 24) as real;
    RemEuclidUnique(n as real, 24.0, q, (n % 24) as real);
  }

  /** What wrapping 15 hour degrees into [0, 360) does, by the sign and size of hour. */
  lemma HourWrap(hour: int, t: real)
    ensures SameDirection(RemEuclid(hour as real * 15.0, 360.0) + t, hour as real * 15.0 + t)
    ensures 0 < hour < 24 ==> RemEuclid(hour as real * 15.0, 360.0) == hour as real * 15.0
    ensures hour == 0 ==> RemEuclid(hour as real * 15.0, 360.0) == 0.0
    ensures -24 < hour < 0 ==> RemEuclid(hour as real * 15.0, 360.0) == 360.0 + hour as real * 15.0
  {
    var x := hour as real * 15.0;
    WrapSameDirection(x, RemEuclid(x, 360.0), t);
    if 0 <= hour < 24 {
      RemEuclidUnique(x, 360.0, 0, x);
    } else if -24 < hour < 0 {
      RemEuclidUnique(x, 360.0, -1, 360.0 + x);
    }
  }

  /** Replacing x by its remainder w mod 360 and adding the same t keeps the direction. */
  lemma WrapSameDirection(x: real, w: real, t: real)
    requires ((x - w) / 360.0).Floor as real == (x - w) / 360.0
    ensures SameDirection(w + t, x + t)
  {
    var k := ((x - w) / 360.0).Floor;
    WholeNegated((x - w) / 360.0, k);
    assert (w + t - (x + t)) / 360.0 == -((x - w) / 360.0);
  }

  /** Below zero hours the wrap goes the wrong way: -1 hour is -15 degrees, but converts
      to -345 degrees. */
  lemma DegreesOfNegativeHour()
    ensures DegreesOf(HMS, Hms(-1, 0, 0).Scalar()) == -15.0
    ensures Hms(-1, 0, 0).ConvertScalar(DMS) == Ok(-345.0)
  {
    RemEuclidUnique(-15.0, 360.0, -1, 345.0);
  }

  /** Within a day below zero, the DMS arm of convert_scalar points the same way as the
      hours it converts only at -12 hours: elsewhere it is off by 360 + 30 hour degrees. */
  lemma {:induction false} NegativeHourDirection(h: Hms)
    requires -24 < h.hour < 0
    ensures SameDirection(h.ConvertScalar(DMS).value, DegreesOf(HMS, h.Scalar())) <==> h.hour == -12
  {
    var a := h.ConvertScalar(DMS).value;
    var b := DegreesOf(HMS, h.Scalar());
    var hr := h.hour as real;
    assert a - b == -360.0 - 30.0 * hr;
    assert (a - b) / 360.0 == -1.0 - hr / 12.0;
    if SameDirection(a, b) {
      var k := ((a - b) / 360.0).Floor;
      assert hr == -12.0 * (k as real + 1.0);
      assert h.hour == -12 * (k + 1);
    }
  }

  /** from_decimal of a non-negative value, given its whole hours k, the whole minutes m of
      the remaining fraction and the whole seconds s of what is left: the hours wrap into a
      day, the minutes and seconds are kept. */
  lemma {:induction false} FromDecimalAt(val: real, k: int, m: int, s: int)
    requires 0 <= k && k as real <= val < k as real + 1.0
    requires 0 <= m && m as real <= 60.0 * (val - k as real) < m as real + 1.0
    requires 0 <= s && s as real <= 60.0 * (60.0 * (val - k as real) - m as real) < s as real + 1.0
    ensures Hms.FromDecimal(val) == Hms(k % 24, m, s)
  {
    FracOfSplit(val, k);
    var minFac := 60.0 * Frac(val);
    FracOfSplit(minFac, m);
    FracOfSplit(60.0 * Frac(minFac), s);
    RemEuclidOfDay(k);
  }

  /** from_decimal of a negative value mirrors that of its magnitude in the hour. */
  lemma {:induction false} FromDecimalNegated(val: real, neg: real)
    requires val > 0.0 && neg == -val
    ensures var h := Hms.FromDecimal(val);
      Hms.FromDecimal(neg) == Hms(-h.hour, h.minute, h.second)
  {
    assert Abs(neg) == Abs(val);
    AsI8Negated(RemEuclid(Trunc(Abs(val)) as real, 24.0));
  }

  /** Truncating a negated remainder under a day to an i8 negates the truncation. */
  lemma AsI8Negated(w: real)
    requires 0.0 <= w < 24.0
    ensures AsI8(-1.0 * w) == -AsI8(1.0 * w)
  {
  }

  /** A well-formed HMS with a non-zero hour within a day survives to_decimal and
      from_decimal unchanged. */
  lemma {:induction false} FromDecimalOfToDecimal(h: Hms)
    requires h.hour != 0 && -24 < h.hour < 24 && h.minute <= 59 && h.second <= 59
    ensures Hms.FromDecimal(h.ToDecimal()) == h
  {
    if h.hour > 0 {
      PositiveRoundTrip(h);
    } else {
      NegativeRoundTrip(h);
    }
  }

  /** The round trip for an hour in (-24, 0), through the positive hour's. */
  lemma {:induction false} NegativeRoundTrip(h: Hms)
    requires -24 < h.hour < 0 && h.minute <= 59 && h.second <= 59
    ensures Hms.FromDecimal(h.ToDecimal()) == h
  {
    var g := Hms(-h.hour, h.minute, h.second);
    PositiveRoundTrip(g);
    FromDecimalNegated(g.ToDecimal(), h.ToDecimal());
  }

  /** The round trip for an hour in (0, 24): the decimal hours decompose into the same
      hours, minutes and seconds. */
  lemma {:induction false} PositiveRoundTrip(h: Hms)
    requires 0 < h.hour < 24 && h.minute <= 59 && h.second <= 59
    ensures Hms.FromDecimal(h.ToDecimal()) == h
  {
    var a := h.ToDecimal();
    assert 60.0 * (a - h.hour as real) == h.minute as real + h.second as real / 60.0;
    FromDecimalAt(a, h.hour, h.minute, h.second);
  }

  /** from_decimal truncates to whole seconds: from one hour up to a day, the decimal hours
      of the result are at most the input and less than a second of time below. */
  lemma {:induction false} ScalarOfFromDecimal(val: real)
    requires 1.0 <= val < 24.0
    ensures var v := Hms.FromDecimal(val).Scalar(); v <= val < v + 1.0 / 3600.0
  {
    var k := Trunc(val);
    FracOfSplit(val, k);
    var minFac := 60.0 * Frac(val);
    var m := Trunc(minFac);
    FracOfSplit(minFac, m);
    var seconds := 60.0 * Frac(minFac);
    var s := Trunc(seconds);
    FracOfSplit(seconds, s);
    var h := Hms.FromDecimal(val);
    assert h.hour == k % 24 == k;
    assert h == Hms(k, m, s);
    assert val == k as real + m as real / 60.0 + seconds / 3600.0;
  }

  /** The decompositions and conversions the HMS tests and exercises check. */
  lemma HmsKnownPoints()
    ensures Hms.FromDecimal(12.508334).ToTuple() == (12, 30, 30)
    ensures WithinTestTolerance(12.508334, Hms(12, 30, 30).ConvertScalar(HMS).value)
    ensures Hms(12, 0, 0).ConvertScalar(Radian) == Ok(PI)
    ensures Hms(12, 30, 30).ConvertScalar(DMS) == Ok(187.625)
    ensures IsClose(10.419722, Floor(Hms(10, 25, 11).Scalar(), 6))
    ensures Hms.FromDecimal(20.352).ToTuple() == (20, 21, 7)
  {
    FromDecimalAt(12.508334, 12, 30, 30);
    FromDecimalAt(20.352, 20, 21, 7);
    HourWrap(12, 0.5 * 15.0 + 30.0 * 15.0 / 3600.0);
    FloorSixPlaces(Hms(10, 25, 11).Scalar(), 10419722);
  }

  /** Past a day the hours wrap and the minutes and seconds are kept, on either side of
      zero: 49.25 hours is 1 h 15 m, -49.25 hours is -1 h 15 m. */
  lemma PastADayPoints()
    ensures Hms.FromDecimal(49.25) == Hms(1, 15, 0)
    ensures Hms.FromDecimal(-49.25) == Hms(-1, 15, 0)
    ensures Hms.FromDecimal(300.0) == Hms(12, 0, 0)
  {
    FromDecimalAt(49.25, 49, 15, 0);
    FromDecimalNegated(49.25, -49.25);
    FromDecimalAt(300.0, 300, 0, 0);
  }
}
