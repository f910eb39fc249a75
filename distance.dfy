/** Distance units. The metric family (Meter and its subclasses Millimeter, Centimeter,
    Kilometer) derives everything from `meters`; the imperial family (Feet and its subclasses
    Mile, Yard, Inch) derives everything from `feet`. Each function is a class's property for a
    present magnitude `x`. */
module Distance {

  datatype DistUnit = Meter | Millimeter | Centimeter | Kilometer | Feet | Mile | Yard | Inch

  /** The class name. */
  function ClassName(u: DistUnit): string {
    match u
    case Meter => "Meter"
    case Millimeter => "Millimeter"
    case Centimeter => "Centimeter"
    case Kilometer => "Kilometer"
    case Feet => "Feet"
    case Mile => "Mile"
    case Yard => "Yard"
    case Inch => "Inch"
  }

  predicate Metric(u: DistUnit) {
    u == Meter || u == Millimeter || u == Centimeter || u == Kilometer
  }

  /** The family's own base magnitude: meters for the metric classes, feet for the
      imperial ones, scaled from the stored value. */
  function Base(u: DistUnit, x: real): real {
    match u
    case Meter => x
    case Millimeter => x / 1000.0
    case Centimeter => x / 100.0
    case Kilometer => x * 1000.0
    case Feet => x
    case Mile => x * 5280.0
    case Yard => x * 3.0
    case Inch => x / 12.0
  }

  /** `meters`: the metric base; the imperial classes multiply their `feet` by 1609.344
      as written (see CorrectedMeters). */
  function ToMeters(u: DistUnit, x: real): real {
    if Metric(u) then Base(u, x) else Base(u, x) * 1609.344
  }

  /** `feet`: the imperial base; metric classes use 3.28084 ft per meter. */
  function ToFeet(u: DistUnit, x: real): real {
    if Metric(u) then Base(u, x) * 3.28084 else Base(u, x)
  }

  function ToKilometers(u: DistUnit, x: real): real {
    ToMeters(u, x) / 1000.0
  }

  function ToCentimeters(u: DistUnit, x: real): real {
    ToMeters(u, x) * 100.0
  }

  function ToMillimeters(u: DistUnit, x: real): real {
    ToMeters(u, x) * 1000.0
  }

  function ToMiles(u: DistUnit, x: real): real {
    if Metric(u) then ToKilometers(u, x) * 0.6213711922 else ToFeet(u, x) / 5280.0
  }

  function ToInches(u: DistUnit, x: real): real {
    if Metric(u) then ToMeters(u, x) * 39.37 else ToFeet(u, x) * 12.0
  }

  function ToYards(u: DistUnit, x: real): real {
    if Metric(u) then ToMeters(u, x) * 1.0936132983 else ToFeet(u, x) / 3.0
  }

  /** The accessor named after unit `w`, read from a quantity of class `u` holding `x`. */
  function In(u: DistUnit, w: DistUnit, x: real): real {
    match w
    case Meter => ToMeters(u, x)
    case Millimeter => ToMillimeters(u, x)
    case Centimeter => ToCentimeters(u, x)
    case Kilometer => ToKilometers(u, x)
    case Feet => ToFeet(u, x)
    case Mile => ToMiles(u, x)
    case Yard => ToYards(u, x)
    case Inch => ToInches(u, x)
  }

  /** Every class reads back its own magnitude (`Kilometer(x).kilometers == x`, `Mile(x).miles == x`, ...). */
  lemma OwnUnit(u: DistUnit, x: real)
    ensures In(u, u, x) == x
  {
  }

  /** Within one family every conversion is undone exactly by the reverse one. */
  lemma RoundTripWithinFamily(u: DistUnit, w: DistUnit, x: real)
    requires Metric(u) == Metric(w)
    ensures In(w, u, In(u, w, x)) == x
  {
  }

  /** The metric family: km = m/1000, cm = 100 m, mm = 1000 m, and the fixed
      metric-to-imperial factors. */
  lemma MetricScales(u: DistUnit, x: real)
    requires Metric(u)
    ensures ToKilometers(u, x) * 1000.0 == ToMeters(u, x)
    ensures ToCentimeters(u, x) == 100.0 * ToMeters(u, x)
    ensures ToMillimeters(u, x) == 1000.0 * ToMeters(u, x)
    ensures ToMiles(u, x) == ToMeters(u, x) / 1000.0 * 0.6213711922
    ensures ToFeet(u, x) == ToMeters(u, x) * 3.28084
    ensures ToInches(u, x) == ToMeters(u, x) * 39.37
    ensures ToYards(u, x) == ToMeters(u, x) * 1.0936132983
  {
  }

  /** The imperial family: inches = 12 ft, yards = ft/3, miles = ft/5280. */
  lemma ImperialScales(u: DistUnit, x: real)
    requires !Metric(u)
    ensures ToInches(u, x) == 12.0 * ToFeet(u, x)
    ensures ToYards(u, x) * 3.0 == ToFeet(u, x)
    ensures ToMiles(u, x) * 5280.0 == ToFeet(u, x)
  {
  }

  /** One mile is 5280 ft, 1760 yd and 63360 in; one foot is 12 in. */
  lemma OneMile()
    ensures ToFeet(Mile, 1.0) == 5280.0 && ToYards(Mile, 1.0) == 1760.0 && ToInches(Mile, 1.0) == 63360.0
    ensures ToInches(Feet, 1.0) == 12.0
  {
  }

  /** One meter is 0.001 km, 100 cm and 1000 mm; one millimeter is 0.001 m and 1e-6 km. */
  lemma OneMeter()
    ensures ToKilometers(Meter, 1.0) == 0.001 && ToCentimeters(Meter, 1.0) == 100.0
    ensures ToMillimeters(Meter, 1.0) == 1000.0
    ensures ToMeters(Millimeter, 1.0) == 0.001 && ToKilometers(Millimeter, 1.0) == 0.000001
  {
  }

  /** As written, the imperial `meters` treats a foot as 1609.344 m (the meters in a mile):
      one foot reports 1609.344 m, one mile 8497336.32 m, and meters -> feet -> meters
      multiplies by about 5280 instead of returning the start value. */
  lemma FeetMetersAsWritten()
    ensures ToMeters(Feet, 1.0) == 1609.344
    ensures ToMeters(Mile, 1.0) == 8497336.32
    ensures In(Feet, Meter, In(Meter, Feet, 1.0)) == 3.28084 * 1609.344
    ensures In(Feet, Meter, In(Meter, Feet, 1.0)) > 5000.0
  {
  }

  /** `meters` with 0.3048 m per foot for the imperial family, as the code evidently
      intends: metric classes unchanged, and a foot, mile, yard and inch are 0.3048,
      1609.344, 0.9144 and 0.0254 m. */
  function CorrectedMeters(u: DistUnit, x: real): (r: real)
    ensures Metric(u) ==> r == ToMeters(u, x)
    ensures u == Feet ==> r == 0.3048 * x
    ensures u == Mile ==> r == 1609.344 * x
    ensures u == Yard ==> r == 0.9144 * x
    ensures u == Inch ==> r == 0.0254 * x
  {
    if Metric(u) then ToMeters(u, x) else ToFeet(u, x) * 0.3048
  }

  /** `a` is `b` within 1e-5 relative. */
  predicate Close(a: real, b: real) {
    (a - b) * (a - b) <= (0.00001 * b) * (0.00001 * b)
  }

  /** A scale factor within 1e-5 of 1 keeps every value close. */
  lemma ScaledClose(k: real, m: real)
    requires -0.00001 <= k - 1.0 <= 0.00001
    ensures Close(k * m, m)
  {
    assert (k * m - m) * (k * m - m) == (k - 1.0) * (k - 1.0) * (m * m);
    assert (0.00001 * m) * (0.00001 * m) == 0.0000000001 * (m * m);
    var d := if k >= 1.0 then k - 1.0 else 1.0 - k;
    assert (k - 1.0) * (k - 1.0) == d * d;
    assert d * d <= d * 0.00001 <= 0.00001 * 0.00001;
    assert (k - 1.0) * (k - 1.0) * (m * m) <= 0.0000000001 * (m * m);
  }

  /** With the corrected factor a mile is exactly 1609.344 m and a foot 30.48 cm. For every
      metric class u and imperial class w, reading a u quantity in w's unit and taking the
      corrected meters of that w quantity gives back u's meters within 1e-5 relative; and
      reading a w quantity's corrected meters back through a Meter in w's unit gives back
      its magnitude within 1e-5 relative. */
  lemma CorrectedMetersAgree(u: DistUnit, w: DistUnit, x: real)
    requires Metric(u) && !Metric(w)
    ensures CorrectedMeters(Mile, 1.0) == 1609.344
    ensures CorrectedMeters(Feet, 1.0) * 100.0 == 30.48
    ensures Close(CorrectedMeters(w, In(u, w, x)), ToMeters(u, x))
    ensures Close(In(Meter, w, CorrectedMeters(w, x)), x)
  {
    var m := ToMeters(u, x);
    var k, j;
    match w {
      case Feet =>
        k, j := 3.28084 * 0.3048, 0.3048 * 3.28084;
        assert In(Meter, w, CorrectedMeters(w, x)) == j * x;
      case Mile =>
        k, j := 0.6213711922 * 1.609344, 1.609344 * 0.6213711922;
        assert In(Meter, w, CorrectedMeters(w, x)) == 1609.344 * x / 1000.0 * 0.6213711922;
      case Yard =>
        k, j := 1.0936132983 * 0.9144, 0.9144 * 1.0936132983;
        assert In(Meter, w, CorrectedMeters(w, x)) == j * x;
      case Inch =>
        k, j := 39.37 * 0.0254, 0.0254 * 39.37;
        assert In(Meter, w, CorrectedMeters(w, x)) == j * x;
    }
    assert CorrectedMeters(w, In(u, w, x)) == k * m;
    ScaledClose(k, m);
    ScaledClose(j, x);
  }
}
