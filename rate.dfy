/** Precipitation-rate units. Every rate class defines `cmph`; the base class derives
    `mmph` and `inph` from it. */
module Rate {

  datatype RateUnit = CentimetersPerHour | MillimetersPerHour | InchesPerHour

  /** The class name; the centimeter class is spelled "CentimersPerHour". */
  function ClassName(u: RateUnit): string {
    match u
    case CentimetersPerHour => "CentimersPerHour"
    case MillimetersPerHour => "MillimetersPerHour"
    case InchesPerHour => "InchesPerHour"
  }

  /** `cmph` of a class holding `x`. */
  function ToCmph(u: RateUnit, x: real): real {
    match u
    case CentimetersPerHour => x
    case MillimetersPerHour => x * 0.1
    case InchesPerHour => x * 2.54
  }

  /** `mmph`, shared by every rate. */
  function ToMmph(u: RateUnit, x: real): real {
    ToCmph(u, x) * 10.0
  }

  /** `inph`, shared by every rate. */
  function ToInph(u: RateUnit, x: real): real {
    ToCmph(u, x) * 0.393700787
  }

  function In(u: RateUnit, w: RateUnit, x: real): real {
    match w
    case CentimetersPerHour => ToCmph(u, x)
    case MillimetersPerHour => ToMmph(u, x)
    case InchesPerHour => ToInph(u, x)
  }

  /** `x` and `y` agree within the 1e-5 relative tolerance the tests compare with. */
  predicate Close(x: real, y: real) {
    (x - y) * (x - y) <= (0.00001 * y) * (0.00001 * y)
  }

  /** mm/h and cm/h read back their own magnitude exactly; in/h does within 1e-5 relative,
      because 2.54 and 0.393700787 are not exact inverses. */
  lemma OwnUnit(x: real)
    ensures In(MillimetersPerHour, MillimetersPerHour, x) == x
    ensures In(CentimetersPerHour, CentimetersPerHour, x) == x
    ensures Close(In(InchesPerHour, InchesPerHour, x), x)
  {
    var r := In(InchesPerHour, InchesPerHour, x);
    assert r - x == x * (2.54 * 0.393700787 - 1.0);
    assert (r - x) * (r - x) == (x * x) * ((2.54 * 0.393700787 - 1.0) * (2.54 * 0.393700787 - 1.0));
  }

  /** One mm/h is 0.1 cm/h and about 0.03937 in/h. */
  lemma OneMillimeterPerHour()
    ensures ToCmph(MillimetersPerHour, 1.0) == 0.1
    ensures Close(ToInph(MillimetersPerHour, 1.0), 0.03937)
  {
  }

  /** Reading any rate in mm/h and building a MillimetersPerHour from the reading keeps the
      same `cmph`, so the mm/h -> in/h conversion of that reading equals the original's. */
  lemma ViaMillimeters(u: RateUnit, x: real)
    ensures ToCmph(MillimetersPerHour, ToMmph(u, x)) == ToCmph(u, x)
    ensures ToInph(MillimetersPerHour, ToMmph(u, x)) == ToInph(u, x)
  {
  }
}
