/** The angular family of rust/ast_utils/src/angular.rs: the quantity behind
    `Box<dyn HasConvertableUnit<Unit = AngularUnit>>`, AngularFactory::build and
    AngularConverter. */
module Angular {
  import opened Primitives
  import opened Traits
  import opened AstMath
  import opened AngularUnits
  import opened AngularDms
  import opened AngularHms
  import R = AngularRadian

  /** An angular quantity: one of the three per-unit structs. */
  datatype Angle = DmsAngle(dms: Dms) | HmsAngle(hms: Hms) | RadianAngle(radian: R.Radian)
  {
    /** HasConvertableUnit::scalar of the held struct. */
    function Scalar(): real
    {
      match this
      case DmsAngle(d) => d.Scalar()
      case HmsAngle(h) => h.Scalar()
      case RadianAngle(r) => r.Scalar()
    }

    /** HasConvertableUnit::unit of the held struct. */
    function Unit(): (u: AngularUnit)
      ensures u == DMS <==> DmsAngle?
      ensures u == HMS <==> HmsAngle?
      ensures u == Radian <==> RadianAngle?
    {
      match this
      case DmsAngle(d) => d.Unit()
      case HmsAngle(h) => h.Unit()
      case RadianAngle(r) => r.Unit()
    }

    /** HasConvertableUnit::convert_scalar of the held struct: it fails only from DMS to DMS,
        keeps the scalar from HMS or Radian to the same unit and keeps the angle into
        radians; DMS to HMS carries the components, HMS to DMS wraps the hours first and
        Radian to DMS or HMS wraps into one turn. */
    function ConvertScalar(to: AngularUnit): (r: Result<real>)
      ensures r.Err? <==> Unit() == DMS && to == DMS
      ensures to == Radian && r.Ok? ==> DegreesOf(Radian, r.value) == DegreesOf(Unit(), Scalar())
      ensures to == Unit() && to != DMS ==> r == Ok(Scalar())
      ensures DmsAngle? && to == HMS ==> r == Ok(dms.HoursDecimal())
      ensures HmsAngle? && to == DMS ==> r == Ok(hms.DegreesDecimal())
      ensures RadianAngle? && to != Radian ==>
        r.Ok? && 0.0 <= r.value < (if to == DMS then 360.0 else 24.0)
        && SameDirection(DegreesOf(to, r.value), DegreesOf(Radian, Scalar()))
    {
      match this
      case DmsAngle(d) => d.ConvertScalar(to)
      case HmsAngle(h) => h.ConvertScalar(to)
      case RadianAngle(r) => r.ConvertScalar(to)
    }
  }

  /** AngularFactory::build: DMS and HMS decompose the decimal value into whole components,
      Radian keeps it. The result has the requested unit. */
  function Build(value: real, unit: AngularUnit): (a: Angle)
    ensures a.Unit() == unit
    ensures unit == Radian ==> a.Scalar() == value
    ensures unit == DMS ==> a == DmsAngle(Dms.FromDecimal(value))
    ensures unit == HMS ==> a == HmsAngle(Hms.FromDecimal(value))
  {
    match unit
    case DMS => DmsAngle(Dms.FromDecimal(value))
    case HMS => HmsAngle(Hms.FromDecimal(value))
    case Radian => RadianAngle(R.Radian.New(value))
  }

  /** Building a DMS or HMS quantity truncates to whole seconds: its scalar is at most the
      value and within one second of it, from one degree up to the i16 range for DMS and from
      one hour up to a day for HMS. */
  lemma BuildTruncatesToSeconds(value: real, unit: AngularUnit)
    requires unit == DMS ==> 1.0 <= value < 32768.0
    requires unit == HMS ==> 1.0 <= value < 24.0
    ensures var s := Build(value, unit).Scalar(); s <= value < s + 1.0 / 3600.0
  {
    match unit
    case DMS => AngularDms.ScalarOfFromDecimal(value);
    case HMS => AngularHms.ScalarOfFromDecimal(value);
    case Radian =>
  }

  /** AngularConverter: holds the source angle. */
  datatype Converter = Converter(angle: Angle)
  {
    /** AngularConverter::new */
    static function New(value: real, unit: AngularUnit): (c: Converter)
      ensures c.angle == Build(value, unit)
    {
      Converter(Build(value, unit))
    }

    /** CanConvertUnit::convert: the scalar of the target unit, then a quantity built from
        it in the target unit (decomposed again for DMS and HMS). */
    function Convert(to: AngularUnit): (r: Result<Angle>)
      ensures r.Ok? <==> angle.ConvertScalar(to).Ok?
      ensures r.Ok? ==> r.value.Unit() == to && r.value == Build(angle.ConvertScalar(to).value, to)
      ensures r.Err? ==> r.msg == "Failed to convert angle"
    {
      var s := angle.ConvertScalar(to);
      if s.Ok? then Ok(Build(s.value, to)) else Err("Failed to convert angle")
    }
  }

  /** The converter fails exactly from DMS to DMS, whatever the value. */
  lemma ConvertFailsIff(value: real, from: AngularUnit, to: AngularUnit)
    ensures Converter.New(value, from).Convert(to).Err? <==> from == DMS && to == DMS
  {
  }

  /** Radians converted to radians come back unchanged. */
  lemma RadianSelfConversion(value: real)
    ensures Converter.New(value, Radian).Convert(Radian) == Ok(Build(value, Radian))
  {
  }

  /** The converter test from 187.625 decimal degrees to radians. */
  lemma ConvertDegreesToRadiansPoint()
    ensures var r := Converter.New(187.625, DMS).Convert(Radian);
      r.Ok? && r.value.Unit() == Radian && WithinTestTolerance(3.274674, r.value.Scalar())
  {
    AngularDms.FromDecimalAt(187.625, 187, 37, 30);
  }

  /** The converter test from 12.508333 decimal hours to radians; the hours decompose as
      12 h 30 m 29 s. */
  lemma ConvertHoursToRadiansPoint()
    ensures var r := Converter.New(12.508333, HMS).Convert(Radian);
      r.Ok? && r.value.Unit() == Radian && WithinTestTolerance(3.274601, r.value.Scalar())
  {
    AngularHms.FromDecimalAt(12.508333, 12, 30, 29);
  }

  /** The converter test from 3.274601 radians to hours, where rebuilding the HMS quantity
      truncates to 12 h 30 m 28 s, about 12.507777 rather than 12.508. */
  lemma ConvertRadiansToHoursPoint()
    ensures var r := Converter.New(3.274601, Radian).Convert(HMS);
      r.Ok? && r.value == HmsAngle(Hms(12, 30, 28)) && WithinTestTolerance(12.507777, r.value.Scalar())
  {
    RadianToHoursPoint();
  }

  /** 3.274601 radians is 12.5080544... hours, which decomposes as 12 h 30 m 28 s. */
  lemma RadianToHoursPoint()
    ensures Converter.New(3.274601, Radian).Convert(HMS) == Ok(HmsAngle(Hms(12, 30, 28)))
  {
    var x := 3.274601 * 12.0 / PI;
    R.QuotientByPi(3.274601 * 12.0, 12.508054457, 12.508054462);
    RemEuclidUnique(x, 24.0, 0, x);
    assert R.Radian(3.274601).ConvertScalar(HMS) == Ok(x);
    HoursNearTwelveAndAHalf(x);
  }

  /** Any number of hours this close to 12.508054 decomposes as 12 h 30 m 28 s. */
  lemma HoursNearTwelveAndAHalf(x: real)
    requires 12.508054457 <= x <= 12.508054462
    ensures Hms.FromDecimal(x) == Hms(12, 30, 28)
  {
    AngularHms.FromDecimalAt(x, 12, 30, 28);
  }

  /** The angular exercise from 180 degrees to radians, rounded down to six places. */
  lemma ExerciseDegreesToRadians()
    ensures var r := Converter.New(180.0, DMS).Convert(Radian);
      r.Ok? && IsClose(3.141592, Floor(r.value.Scalar(), 6))
  {
    AngularDms.FromDecimalAt(180.0, 180, 0, 0);
    var d := Dms(180, 0, 0);
    assert d.Scalar() == 180.0;
    assert d.ConvertScalar(Radian) == Ok(PI);
    assert Converter.New(180.0, DMS).Convert(Radian) == Ok(RadianAngle(R.Radian.New(PI)));
    FloorSixPlaces(PI, 3141592);
  }

  /** The angular exercise from 2.5 radians to degrees, rounded down to six places. */
  lemma ExerciseRadiansToDegrees()
    ensures var r := Converter.New(2.5, Radian).Convert(DMS);
      r.Ok? && IsClose(143.239444, Floor(r.value.Scalar(), 6))
  {
    RadianToDegreesPoint();
    FloorSixPlaces(Dms(143, 14, 22).Scalar(), 143239444);
  }

  /** The angular exercise from 2 hours to degrees, rounded down to six places. */
  lemma ExerciseHoursToDegrees()
    ensures var r := Converter.New(2.0, HMS).Convert(DMS);
      r.Ok? && IsClose(30.0, Floor(r.value.Scalar(), 6))
  {
    AngularHms.FromDecimalAt(2.0, 2, 0, 0);
    assert Hms.FromDecimal(2.0) == Hms(2, 0, 0);
    assert Hms(2, 0, 0).DegreesDecimal() == 30.0;
    AngularDms.FromDecimalAt(30.0, 30, 0, 0);
    assert Converter.New(2.0, HMS).Convert(DMS) == Ok(DmsAngle(Dms(30, 0, 0)));
    FloorSixPlaces(30.0, 30000000);
  }

  /** The angular exercise from 156.3 degrees to hours, over exact reals: 156.3 decomposes
      as 156 d 18 m 0 s, the integer carry gives 10.42 hours, which rebuilds as
      10 h 25 m 12 s. */
  lemma ExerciseDegreesToHours()
    ensures Converter.New(156.3, DMS).Convert(HMS) == Ok(HmsAngle(Hms(10, 25, 12)))
    ensures Floor(Hms(10, 25, 12).Scalar(), 6) == 10.42
  {
    AngularDms.FromDecimalAt(156.3, 156, 18, 0);
    assert Dms(156, 18, 0).HoursDecimal() == 10.42;
    AngularHms.FromDecimalAt(10.42, 10, 25, 12);
    FloorSixPlaces(10.42, 10420000);
  }

  /** 2.5 radians is 143.2394487... degrees, which decomposes as 143 d 14 m 22 s. */
  lemma RadianToDegreesPoint()
    ensures Converter.New(2.5, Radian).Convert(DMS) == Ok(DmsAngle(Dms(143, 14, 22)))
  {
    var x := 2.5 * 180.0 / PI;
    R.QuotientByPi(2.5 * 180.0, 143.239448763, 143.23944881);
    RemEuclidUnique(x, 360.0, 0, x);
    AngularDms.FromDecimalAt(x, 143, 14, 22);
  }
}
