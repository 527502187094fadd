# Unit conversions of ast_utils, in Dafny

This project models the unit-conversion engine of the Rust crate `rust/ast_utils`. The engine has three families: distance, angular and temperature. Each family has:

- a closed enum of unit tags with display labels;
- one quantity type per unit, offering `scalar()`, `unit()` and a per-unit `convert_scalar(to)` table that answers `Ok(f64)` or `Err(&str)`;
- a factory that builds a quantity from a value and a tag;
- a converter whose `convert(to)` looks up the scalar in the source table and rebuilds it in the target unit.

The model also covers:

- the metric-only `to_metric` table of `converters.rs`;
- the legacy Meter table in `converters/meter.rs`;
- the helpers of `ast_math.rs`: `frac`, `is_close` and `floor`.

Every source file is pure code with no loops and no mutation. The model is therefore made of datatypes, functions and lemmas:

- The heap-allocated trait objects `Box<dyn HasConvertableUnit<…>>` become one tagged datatype per family: `Distance.Quantity`, `Angular.Angle` and `Temperature.Quantity`.
- An `f64` is a `real`. The `i8`, `i16` and `u8` fields are subset types of `int`. Float-to-integer `as` casts truncate toward zero and saturate.
- Rust's truncating integer `/` and `%` are written out as `Primitives.TruncDiv` and `Primitives.TruncRem`.
- `std::f64::consts::PI` is a constant known only to lie strictly between 3.141592653 and 3.141592654.

The tables are checked against independent reference definitions, not against themselves:

- `DistanceUnits.KilometersPer` gives the length of one unit from the international inch, foot and mile, the IAU astronomical unit, and the light year and parsec derived from it.
  - `DistanceUnits.SameLength` requires a table result to be exactly the same length between terrestrial units.
  - When an astronomical unit is involved, it allows a difference of one part in a thousand, since those tables use rounded rates.
  - `DistanceUnits.HasRule` is the graph of (source, target) pairs the tables define. It is sparse and asymmetric, as written.
- `AngularUnits.DegreesOf` gives the angle in degrees that a decimal scalar of each unit stands for. `AngularUnits.SameDirection` says two angles differ by whole turns.
- `TemperatureUnits.KelvinOf` gives the absolute temperature of a value of each unit.

Where the code and its tests disagree, the model follows the code. It proves the behaviour as written, including these quirks:

- `DMS::from_decimal` drops the sign.
- A zero degree or a zero hour makes the whole scalar zero.
- The DMS-to-HMS carry is short by `4·(second % 15)·(1/60 − 1/1000)` seconds.
- HMS-to-DMS goes the wrong way for negative hours. Between -24 h and 0 h it lands on the same direction as the hours only at -12 h (`AngularHms.NegativeHourDirection`).
- The Kilometer row of `to_metric` divides for every target.

## Model

| member | source | states |
|---|---|---|
| Primitives.Abs | rust/ast_utils/src/angular/dms.rs:27 | f64::abs is non-negative and equals x or -x |
| Primitives.Trunc | rust/ast_utils/src/angular/dms.rs:29-32 | f64::trunc rounds toward zero: for x >= 0 the greatest whole number not above x, for x < 0 the least not below |
| Primitives.RemEuclid | rust/ast_utils/src/angular/radian.rs:30-31 | f64::rem_euclid by a positive m lies in [0, m) and differs from x by a whole multiple of m |
| Primitives.RemEuclidUnique | rust/ast_utils/src/angular/radian.rs:30-31 | the remainder is the only r in [0, m) with x = k·m + r for a whole k |
| Primitives.TruncDiv | rust/ast_utils/src/angular/dms.rs:81-85 | integer `/` by a positive divisor: the remainder is smaller than the divisor in magnitude and has the dividend's sign |
| Primitives.TruncRem | rust/ast_utils/src/angular/dms.rs:82-86 | integer `%`: a = b·(a / b) + r with \|r\| < b and r signed like a |
| Primitives.TruncDivDiffersFromEuclidean | rust/ast_utils/src/angular/dms.rs:81-82 | Rust's -20 / 15 and -20 % 15 are -1 and -5, where Euclidean division gives -2 and 10 |
| Primitives.AsU8 | rust/ast_utils/src/angular/dms.rs:38-39 | `as u8` of a float whose truncation fits in a u8 is that truncation |
| Primitives.AsI8 | rust/ast_utils/src/angular/hms.rs:37 | `as i8` of a float whose truncation fits in an i8 is that truncation |
| Primitives.AsI16 | rust/ast_utils/src/angular/dms.rs:37 | `as i16` of a float whose truncation fits is that truncation; above the range it saturates at 32767 |
| Traits.Pow10Exact | rust/ast_utils/src/traits.rs:22-27 | x.pow10(n) is x·10^n for n >= 0 and x / 10^-n for n < 0 |
| Traits.Pow10Identities | rust/ast_utils/src/traits.rs:22-27 | x.pow10(0) is x and 0.pow10(n) is 0 for every n |
| Traits.Pow10Compose | rust/ast_utils/src/traits.rs:22-27 | x.pow10(a).pow10(b) is x.pow10(a + b) |
| Traits.Pow10Inverse | rust/ast_utils/src/traits.rs:22-27 | scaling by 10^n and then by 10^-n gives x back |
| Traits.Pow10Linear | rust/ast_utils/src/traits.rs:22-27 | x.pow10(n) is x times 1.pow10(n) |
| Traits.Pow10Step | rust/ast_utils/src/traits.rs:22-27 | raising the exponent by one multiplies by ten, for exponents of either sign |
| AstMath.Frac | rust/ast_utils/src/ast_math.rs:14-16 | frac(x) lies in [0, 1) and \|x\| minus it is the whole part of \|x\| |
| AstMath.FracEven | rust/ast_utils/src/ast_math.rs:14-16 | frac(-x) = frac(x) |
| AstMath.FracOfSplit | rust/ast_utils/src/ast_math.rs:14-16 | for k <= x < k + 1 with k >= 0, trunc(x) is k and frac(x) is x - k |
| AstMath.FracExamples | rust/ast_utils/src/ast_math.rs:11-12 | frac(1.5) = frac(-1.5) = 0.5 |
| AstMath.IsCloseReflexiveSymmetric | rust/ast_utils/src/ast_math.rs:29-31 | is_close (tolerance EPS = 5e-8) is reflexive and symmetric |
| AstMath.MultiplierIsExp10 | rust/ast_utils/src/ast_math.rs:35 | floor's multiplier for scale <= 18 is the integer 10^scale as a float |
| AstMath.Floor | rust/ast_utils/src/ast_math.rs:34-37 | floor(v, s) <= v |
| AstMath.FloorSpec | rust/ast_utils/src/ast_math.rs:34-37 | floor(v, s) is a whole number of units 10^-s, and v - floor(v, s) < 10^-s |
| AstMath.FloorIdempotent | rust/ast_utils/src/ast_math.rs:34-37 | floor(floor(v, s), s) = floor(v, s) |
| AstMath.FloorMonotonic | rust/ast_utils/src/ast_math.rs:34-37 | x <= y implies floor(x, s) <= floor(y, s) |
| AstMath.FloorSixPlaces | rust/ast_utils/src/ast_math.rs:34-37 | a value whose millionths lie in [k, k + 1) floors at six places to k millionths |
| DistanceUnits.LabelInjective | rust/ast_utils/src/distance.rs:40-57 | the ten display labels are non-empty and pairwise distinct |
| DistanceUnits.SameLengthDetermines | rust/ast_utils/src/distance.rs:26-38 | between terrestrial units, the value in a unit that has a given length is unique |
| DistanceUnits.SameLengthSymmetricTransitive | rust/ast_utils/src/distance.rs:26-38 | exact sameness of length between terrestrial units is symmetric and transitive |
| DistanceMillimeter.ConvertScalar | rust/ast_utils/src/distance/millimeter.rs:28-43 | zero gives Ok(0.0) for every target; otherwise Ok exactly on the cm, m, km and inch rules, with the same length; mm to mm is the identity; every other target fails with the table's message |
| DistanceCentimeter.ConvertScalar | rust/ast_utils/src/distance/centimeter.rs:24-32 | Ok exactly on the mm, m and km rules (zero included: no short-circuit), with the same length; cm to cm is the identity; otherwise the table's error |
| DistanceMeter.ConvertScalar | rust/ast_utils/src/distance/meter.rs:24-39 | zero gives Ok(0.0) for every target; otherwise Ok exactly on the mm, cm, km and feet rules, with the same length; m to m is the identity; otherwise the table's error |
| ConvertersKilometer.ConvertScalar | rust/ast_utils/src/converters/kilometer.rs:26-41 | zero gives Ok(0.0) for every target; otherwise Ok exactly on the mm, cm, m and mile rules, with the same length; km to km is the identity; otherwise the table's error |
| DistanceInch.ConvertScalar | rust/ast_utils/src/distance/inch.rs:28-36 | Ok exactly for inch and millimetre, with the same length; inch to inch is the identity; otherwise the table's error |
| DistanceFeet.ConvertScalar | rust/ast_utils/src/distance/feet.rs:28-36 | Ok exactly for feet and metres, with the same length; feet to feet is the identity; 0 ft to km is still an error |
| DistanceMile.ConvertScalar | rust/ast_utils/src/distance/mile.rs:28-40 | zero gives Ok(0.0) for every target; otherwise Ok exactly for mile and kilometre, with the same length; otherwise the table's error |
| DistanceAstronomicalUnit.ConvertScalar | rust/ast_utils/src/distance/astronomical_unit.rs:24-35 | Ok exactly for AU, mile, km, parsec and light year, within 0.1% of the same length; AU to AU is the identity; terrestrial targets fail, zero included |
| DistanceLightYear.ConvertScalar | rust/ast_utils/src/distance/light_year.rs:24-35 | Ok exactly for light year, mile, km, parsec and AU, within 0.1% of the same length; identity on itself; terrestrial targets fail |
| DistanceParsec.ConvertScalar | rust/ast_utils/src/distance/parsec.rs:24-35 | Ok exactly for parsec, km, mile, AU and light year, within 0.1% of the same length; identity on itself; terrestrial targets fail |
| ConvertersMeter.ConvertScalar | rust/ast_utils/src/converters/meter.rs:26-36 | Ok exactly for the four metric targets, with the same length, whatever the value; m to m is the identity; feet fails |
| Distance.Quantity.ConvertScalar | rust/ast_utils/src/distance.rs:61-79 | the table of the quantity's unit: Ok exactly on a rule or on a zero value of a short-circuiting table, with the same length; identity on its own unit |
| Distance.Build | rust/ast_utils/src/distance.rs:61-79 | the built quantity has the requested unit and scalar, for all ten tags |
| Distance.Converter.New | rust/ast_utils/src/distance.rs:85-90 | the converter holds a quantity with the given unit and scalar |
| Distance.Converter.Convert | rust/ast_utils/src/distance.rs:95-106 | fails exactly when the source table fails, with "failed to convert the distance"; on success gives a quantity in the target unit with the table's scalar, of the same length |
| Distance.SelfConversionIdentity | rust/ast_utils/src/distance.rs:114-123 | converting to the quantity's own unit gives it back unchanged |
| Distance.TerrestrialScale | rust/ast_utils/src/distance/millimeter.rs:35-40 | between terrestrial units a defined conversion multiplies by the ratio of the two unit lengths |
| Distance.TerrestrialRoundTrip | rust/ast_utils/src/distance/centimeter.rs:26-28 | a - b - a between terrestrial units with both rules (mm/cm, m/ft, in/mm, mile/km, …) gives the exact original value |
| Distance.AstronomicalRoundTrip | rust/ast_utils/src/distance/light_year.rs:27-34 | a round trip between two astronomical units succeeds and stays within 0.1% of the original |
| Distance.AstronomicalRates | rust/ast_utils/src/distance/astronomical_unit.rs:27-33 | the twelve rounded multipliers of the AU, light-year and parsec tables |
| Distance.AstronomicalRatesInexact | rust/ast_utils/src/distance/light_year.rs:32 | 1 ly goes to 63241 AU, which goes back to 0.99984021 ly |
| Distance.NoMultiHop | rust/ast_utils/src/distance.rs:95-106 | feet reach metres and metres reach kilometres, yet feet to kilometres fails for every value |
| Distance.LegacyMeterAgrees | rust/ast_utils/src/converters/meter.rs:29-35 | the legacy Meter table equals the distance family's on the metric targets, lacks Feet, and has no zero short-circuit |
| Distance.ConverterKnownPoints | rust/ast_utils/src/distance.rs:114-189 | 1 mm→1 mm, 10 mm→1 cm, 1000 mm→1 m, 1e6 mm→1 km, 25.4 mm→1 in, 0.3048 m→1 ft, 1.609344 km→1 mile, exactly |
| Distance.ExerciseDistancePoints | rust/ast_utils/tests/chapter2_exercises_test.rs:8-98 | the ten distance exercises whose rules exist convert, and their scalars floored at six places are within EPS of the expected values |
| Converters.ToMetric | rust/ast_utils/src/converters.rs:21-48 | total on the 4×4 grid; rows mm, cm and m preserve the length; the km row rescales as if the value were in the target unit; the diagonal is the identity |
| Converters.KilometerRowReversed | rust/ast_utils/src/converters.rs:41-46 | km→to gives exactly what to→km gives |
| Converters.PreservesLengthIff | rust/ast_utils/src/converters.rs:21-48 | an entry preserves the length iff its row is not km, its target is km, or the value is zero |
| Converters.RoundTrip | rust/ast_utils/src/converters.rs:23-40 | outside the km row every a - b - a round trip gives the original value |
| Converters.KnownPoint | rust/ast_utils/src/converters.rs:66-73 | 10 mm is 1 cm |
| AngularUnits.LabelInjective | rust/ast_utils/src/angular.rs:19-29 | the labels "dms", "hms" and "rad" tell the tags apart |
| AngularUnits.RadiansOfDegrees | rust/ast_utils/src/angular/dms.rs:79 | d·PI/180 radians is d degrees |
| AngularUnits.SameDirectionEquivalence | rust/ast_utils/src/angular/radian.rs:30-31 | differing by whole turns is reflexive, symmetric and transitive |
| AngularDms.Dms.New | rust/ast_utils/src/angular/dms.rs:12-22 | refuses (panics) iff degree > 359, minute > 59 or second > 59, with no lower bound on the degree |
| AngularDms.Dms.FromDecimal | rust/ast_utils/src/angular/dms.rs:24-41 | the degree is never negative and is trunc(\|val\|) in the i16 range; minute and second lie in [0, 59] |
| AngularDms.Dms.Scalar | rust/ast_utils/src/angular/dms.rs:48-68 | the decimal degrees signed by the degree; zero whenever the degree is zero |
| AngularDms.Dms.Unit | rust/ast_utils/src/angular/dms.rs:71-73 | always DMS |
| AngularDms.Dms.HoursDecimal | rust/ast_utils/src/angular/dms.rs:80-92 | the integer carry is the components' degrees over 15, short by 47/2700000 hours per leftover second % 15 |
| AngularDms.Dms.ConvertScalar | rust/ast_utils/src/angular/dms.rs:75-96 | Ok iff the target is not DMS; the radian result is the scalar in degrees; HMS is the integer carry; DMS fails with the source's message |
| AngularDms.HoursExactIff | rust/ast_utils/src/angular/dms.rs:80-92 | for a positive degree the carry is exactly a fifteenth of the degrees iff second % 15 = 0 |
| AngularDms.HoursOfNegativeDegree | rust/ast_utils/src/angular/dms.rs:81-91 | -20° 30′ is -20.5° but converts to -1.3 h, not -1.3666… h |
| AngularDms.FromDecimalAt | rust/ast_utils/src/angular/dms.rs:24-41 | a non-negative value with whole degrees k, whole minutes m and whole seconds s decomposes as (k, m, s) |
| AngularDms.FromDecimalOfScalar | rust/ast_utils/src/angular/dms.rs:24-68 | a well-formed DMS with a positive degree survives scalar then from_decimal |
| AngularDms.ScalarOfFromDecimal | rust/ast_utils/src/angular/dms.rs:24-41 | for 1 <= val < 32768 the decomposition is at most val and less than one second of arc below |
| AngularDms.FromDecimalDropsSign | rust/ast_utils/src/angular/dms.rs:25-37 | from_decimal(-v) = from_decimal(v) |
| AngularDms.FromDecimalSkipsRangeCheck | rust/ast_utils/src/angular/dms.rs:24-41 | 400.0 decomposes to a 400-degree DMS that new refuses |
| AngularDms.FromDecimalBelowOneDegree | rust/ast_utils/src/angular/dms.rs:24-68 | for \|val\| < 1 the degree is zero, and so is the scalar |
| AngularDms.DmsKnownPoints | rust/ast_utils/src/angular/dms.rs:104-129 | the DMS tests and exercises: (24,13,18) ≈ 24.221667 and back, 180° → PI, (50,31,21) → 3.368062222 h, -0.508334 → (0,30,30), 10.2958 → (10,17,44), (13,4,10) floored ≈ 13.069444 |
| AngularHms.Hms.New | rust/ast_utils/src/angular/hms.rs:12-22 | refuses (panics) iff \|hour\| > 59, minute > 59 or second > 59 |
| AngularHms.Hms.FromDecimal | rust/ast_utils/src/angular/hms.rs:24-41 | \|hour\| is trunc(\|val\|) mod 24, signed like val; minute and second in [0, 59]; new never refuses the result |
| AngularHms.Hms.ToDecimal | rust/ast_utils/src/angular/hms.rs:43-61 | the decimal hours signed by the hour; zero whenever the hour is zero |
| AngularHms.Hms.ToTuple | rust/ast_utils/src/angular/hms.rs:63-65 | the stored fields, from which the same HMS is rebuilt |
| AngularHms.Hms.Scalar | rust/ast_utils/src/angular/hms.rs:72-74 | the scalar is to_decimal |
| AngularHms.Hms.Unit | rust/ast_utils/src/angular/hms.rs:76-78 | always HMS |
| AngularHms.Hms.DegreesDecimal | rust/ast_utils/src/angular/hms.rs:86-95 | for a positive hour the same direction as 15 × the decimal hours, exactly equal under a day; a zero hour still counts minutes and seconds; a negative hour gives a result ≤ 0 whose negation is the same direction as 15·hour + minutes/4 + seconds/240, exactly -(360 + 15·hour + minutes/4 + seconds/240) between -24 h and 0 h; for every non-zero hour the wrapped hour part, abs(d) − minutes/4 − seconds/240, lies in [0, 360) |
| AngularHms.Hms.ConvertScalar | rust/ast_utils/src/angular/hms.rs:80-97 | every target succeeds; HMS is the scalar, Radian is the same angle as the decimal hours, DMS is DegreesDecimal |
| AngularHms.RemEuclidOfDay | rust/ast_utils/src/angular/hms.rs:37 | a whole number of hours wraps into a day as the integer remainder mod 24 |
| AngularHms.HourWrap | rust/ast_utils/src/angular/hms.rs:92 | wrapping 15·hour into [0, 360): always the same direction, unchanged for 0 < hour < 24, zero for a zero hour, 360 + 15·hour for -24 < hour < 0 |
| AngularHms.DegreesOfNegativeHour | rust/ast_utils/src/angular/hms.rs:86-95 | -1 h is -15° but converts to -345° |
| AngularHms.NegativeHourDirection | rust/ast_utils/src/angular/hms.rs:86-95 | for -24 < hour < 0 the DMS result is the same direction as 15 × the decimal hours exactly when the hour is -12 |
| AngularHms.FromDecimalAt | rust/ast_utils/src/angular/hms.rs:24-41 | a non-negative value with whole hours k, minutes m and seconds s decomposes as (k mod 24, m, s) |
| AngularHms.FromDecimalNegated | rust/ast_utils/src/angular/hms.rs:24-41 | from_decimal(-v) negates the hour of from_decimal(v) and keeps minute and second |
| AngularHms.FromDecimalOfToDecimal | rust/ast_utils/src/angular/hms.rs:24-61 | a well-formed HMS with a non-zero hour in (-24, 24) survives to_decimal then from_decimal |
| AngularHms.PositiveRoundTrip | rust/ast_utils/src/angular/hms.rs:24-61 | the round trip for an hour in (0, 24) |
| AngularHms.NegativeRoundTrip | rust/ast_utils/src/angular/hms.rs:24-61 | the round trip for an hour in (-24, 0) |
| AngularHms.ScalarOfFromDecimal | rust/ast_utils/src/angular/hms.rs:24-41 | for 1 <= val < 24 the decomposition is at most val and less than one second of time below |
| AngularHms.PastADayPoints | rust/ast_utils/src/angular/hms.rs:24-41 | past a day the hour wraps and the minutes and seconds are kept: 49.25 → (1,15,0), -49.25 → (-1,15,0), 300 → (12,0,0) |
| AngularHms.HmsKnownPoints | rust/ast_utils/src/angular/hms.rs:104-133 | the HMS tests and exercises: 12.508334 → (12,30,30), (12,30,30) ≈ 12.508334, 12 h → PI, (12,30,30) → 187.625°, (10,25,11) floored ≈ 10.419722, 20.352 → (20,21,7) |
| AngularRadian.Radian.New | rust/ast_utils/src/angular/radian.rs:8-12 | the scalar is the given value |
| AngularRadian.Radian.Unit | rust/ast_utils/src/angular/radian.rs:21-23 | always Radian |
| AngularRadian.Radian.ConvertScalar | rust/ast_utils/src/angular/radian.rs:25-34 | every target succeeds; Radian keeps the value; DMS lies in [0, 360) and HMS in [0, 24), each the same direction as the angle |
| AngularRadian.DegreesWrap | rust/ast_utils/src/angular/radian.rs:30 | x rem_euclid 360 is the same direction as x |
| AngularRadian.HoursWrap | rust/ast_utils/src/angular/radian.rs:31 | (v·12/PI) rem_euclid 24, taken as degrees, is the same direction as v radians |
| AngularRadian.RadianKnownPoints | rust/ast_utils/src/angular/radian.rs:42-67 | 0 → 0 rad, 1 rad ≈ 57.2957795°, 2·PI wraps to 0°, PI → 12 h |
| Angular.Angle.Unit | rust/ast_utils/src/angular.rs:43-45 | the unit of the held struct identifies its variant |
| Angular.Angle.ConvertScalar | rust/ast_utils/src/angular.rs:62 | fails exactly from DMS to DMS; a radian result is the same angle; HMS or Radian to its own unit is the scalar; DMS to HMS is the DMS carry; HMS to DMS is the HMS wrap; Radian to DMS or HMS lies in one turn and is the same direction |
| Angular.Build | rust/ast_utils/src/angular.rs:34-40 | DMS and HMS decompose the value with from_decimal, Radian keeps it; the unit is the requested tag |
| Angular.BuildTruncatesToSeconds | rust/ast_utils/src/angular.rs:34-40 | a built DMS or HMS quantity's scalar is at most the value and within one second of it |
| Angular.Converter.New | rust/ast_utils/src/angular.rs:48-52 | the converter holds the built angle |
| Angular.Converter.Convert | rust/ast_utils/src/angular.rs:58-69 | fails exactly when the source convert_scalar fails, with "Failed to convert angle"; otherwise the angle built from the scalar in the target unit |
| Angular.ConvertFailsIff | rust/ast_utils/src/angular.rs:62-69 | the converter fails iff it goes from DMS to DMS, whatever the value |
| Angular.RadianSelfConversion | rust/ast_utils/src/angular.rs:62-66 | radians to radians come back unchanged |
| Angular.ConvertDegreesToRadiansPoint | rust/ast_utils/src/angular.rs:78-86 | 187.625 DMS converts to about 3.274674 rad, tagged Radian |
| Angular.ConvertHoursToRadiansPoint | rust/ast_utils/src/angular.rs:89-101 | 12.508333 HMS (rebuilt as 12 h 30 m 29 s) converts to about 3.274601 rad |
| Angular.ConvertRadiansToHoursPoint | rust/ast_utils/src/angular.rs:104-116 | 3.274601 rad converts to an HMS rebuilt as 12 h 30 m 28 s, about 12.507777 h rather than 12.508 |
| Angular.RadianToHoursPoint | rust/ast_utils/src/angular.rs:104-116 | 3.274601 rad to HMS is exactly HMS(12, 30, 28) |
| Angular.ExerciseDegreesToRadians | rust/ast_utils/tests/chapter2_exercises_test.rs:108-115 | 180 DMS to radians, floored at six places, is within EPS of 3.141592 |
| Angular.ExerciseRadiansToDegrees | rust/ast_utils/tests/chapter2_exercises_test.rs:118-125 | 2.5 rad to DMS, floored at six places, is within EPS of 143.239444 |
| Angular.RadianToDegreesPoint | rust/ast_utils/tests/chapter2_exercises_test.rs:118-125 | 2.5 rad to DMS is exactly DMS(143, 14, 22) |
| Angular.ExerciseDegreesToHours | rust/ast_utils/tests/chapter2_exercises_test.rs:138-145 | over exact reals 156.3 DMS converts to HMS(10, 25, 12), whose scalar floored at six places is 10.42 |
| Angular.ExerciseHoursToDegrees | rust/ast_utils/tests/chapter2_exercises_test.rs:128-135 | 2 HMS to DMS, floored at six places, is within EPS of 30 |
| TemperatureUnits.LabelInjective | rust/ast_utils/src/temperature.rs:19-29 | the labels "celsius", "fahrenheit" and "kelvin" tell the tags apart |
| TemperatureCelsius.ConvertScalar | rust/ast_utils/src/temperature/celsius.rs:24-33 | every target succeeds, with the same absolute temperature; identity on Celsius |
| TemperatureCelsius.CelsiusKnownPoints | rust/ast_utils/src/temperature/celsius.rs:41-71 | 0 and 1 °C keep their value, 37.7777777778 °C ≈ 100 °F, 0 °C = 273.15 K, 100 °C = 212 °F |
| TemperatureFahrenheit.ConvertScalar | rust/ast_utils/src/temperature/fahrenheit.rs:24-32 | every target succeeds, with the same absolute temperature; identity on Fahrenheit |
| TemperatureFahrenheit.FahrenheitKnownPoints | rust/ast_utils/src/temperature/fahrenheit.rs:40-78 | 0 and 1 °F keep their value, 100 °F ≈ 37.7777777778 °C, 0 °F ≈ 255.372222 K, 32 °F = 0 °C |
| TemperatureKelvin.ConvertScalar | rust/ast_utils/src/temperature/kelvin.rs:24-32 | every target succeeds, with the same absolute temperature; identity on Kelvin |
| TemperatureKelvin.KelvinKnownPoints | rust/ast_utils/src/temperature/kelvin.rs:40-70 | 0 and 1 K keep their value, 260 K ≈ 8.33 °F, 273.15 K = 0 °C |
| Temperature.Quantity.ConvertScalar | rust/ast_utils/src/temperature.rs:64 | the table of the quantity's unit: always Ok, with the same absolute temperature |
| Temperature.Build | rust/ast_utils/src/temperature.rs:34-43 | the built quantity has the requested unit and scalar |
| Temperature.Converter.New | rust/ast_utils/src/temperature.rs:51-54 | the converter holds a quantity with the given unit and scalar |
| Temperature.Converter.Convert | rust/ast_utils/src/temperature.rs:60-71 | never fails; the result has the target unit and the table's scalar, with the same absolute temperature |
| Temperature.RoundTrip | rust/ast_utils/src/temperature/celsius.rs:29-30 | a - b - a gives the original value for every pair of units |
| Temperature.PathIndependent | rust/ast_utils/src/temperature.rs:60-71 | converting through any intermediate unit gives the direct result |
| Temperature.ConverterKnownPoints | rust/ast_utils/src/temperature.rs:79-121 | 1 °C to °C, -273.15 °C = 0 K, 32 °F = 0 °C, 300 K = 26.85 °C exactly; 100 °C to °F floored ≈ 212 |

## Left out

- Floating point: values are exact reals. IEEE-754 rounding, NaN, infinities and the distinction between -0.0 and +0.0 in `f64::signum` are not modelled.
- `powi` is modelled as an exact power of ten (`Traits.Pow10`), not as a floating-point approximation.
- PI is known only to lie in (3.141592653, 3.141592654). Facts that need more digits are stated within a tolerance.
- `fmt::Display` and `write!`: only the label of each tag is modelled.
- `Box<dyn HasConvertableUnit<…>>`: the heap indirection becomes one tagged datatype per family, so `unit()` returns a value, not a reference.
- That `convert(&self)` leaves the stored quantity unchanged holds by construction: every model value is immutable.
- `ToMetricDistance::from_metric` is `todo!()` in `converters.rs:50-52` and is not modelled.
- The live `distance::kilometer` module is not part of this model. Its place is taken by the Kilometer table of `converters/kilometer.rs`.
- The panics of `DMS::new` and `HMS::new` become `Err` results.
- `i8::abs` overflows on an hour of -128 in `HMS::new`. The model's integer absolute value does not overflow, so its `New` refuses -128 as out of range.
- AngularDms.Dms.Scalar: `i16::abs` in `dms.rs:52` overflows on a degree of -32768, which `DMS::new` accepts: Rust panics there in a debug build and gives -32768 (so a positive scalar) in a release build. The model's integer absolute value gives 32768, so its scalar is -(32768 + minutes/60 + seconds/3600). No decimal value reaches this degree, since `from_decimal` drops the sign.
- AstMath.Floor: its own ensures states only `floor(v, s) <= v`. `AstMath.FloorSpec` states the rest. The scale is limited to 18, since `10i64.pow(scale)` overflows above that.
- The unreachable `_` arms of the Celsius and Radian tables, and the `checked_div(15).unwrap_or(0)` / `checked_rem(15).unwrap_or(0)` fallbacks (a division by the constant 15 never fails), are not modelled as separate cases.
- Tests that do not match the code are not turned into properties:
  - km → AU in `distance.rs:191-200`: the Kilometer table has no AU rule.
  - 1 pc → 3.262 ly in `distance.rs:202-211`: the rate is 3.261564, outside the test tolerance.
  - The exercises Mile → light year and Mile → AU: the Mile table has neither rule.
  - The exercises that call `DMS::to_tuple` and `DMS::to_decimal`, which `dms.rs` does not define.
  - The 156.3° DMS → HMS exercise expects 10.419722. Under f64 rounding, the seconds of `HMS::from_decimal(10.42)` truncate to 11 rather than 12, since 60 × the fraction left after the whole minutes falls just below 12. Over reals the result is 10 h 25 m 12 s, and floored it is 10.42, as `Angular.ExerciseDegreesToHours` states.
- DistanceAstronomicalUnit.ConvertScalar, DistanceLightYear.ConvertScalar and DistanceParsec.ConvertScalar: their contracts state the result only to within one part in a thousand of the true length. The exact rounded multipliers are stated separately by `Distance.AstronomicalRates`.
- `unit_test_helpers.rs` is used only for its 1e-6 test tolerance (`AstMath.WithinTestTolerance`).
- The `rust/chapter2` GUI program is not part of this model.
