/** Velocity units: MetersPerSecond, MilesPerHour, and KilometersPerHour, which defines only
    `mps` and so leaves `kph` and `mph` abstract (the class cannot be instantiated). */
module Velocity {

  datatype VelUnit = MetersPerSecond | KilometersPerHour | MilesPerHour

  /** The class name. */
  function ClassName(u: VelUnit): string {
    match u
    case MetersPerSecond => "MetersPerSecond"
    case KilometersPerHour => "KilometersPerHour"
    case MilesPerHour => "MilesPerHour"
  }

  /** A class that defines all three accessors. */
  predicate Concrete(u: VelUnit) {
    u != KilometersPerHour
  }

  /** `mps`: KilometersPerHour multiplies its value by 3.6, MilesPerHour divides by 2.237. */
  function ToMps(u: VelUnit, x: real): real {
    match u
    case MetersPerSecond => x
    case KilometersPerHour => x * 3.6
    case MilesPerHour => x / 2.237
  }

  /** `kph`: MetersPerSecond divides its `mps` by 3.6 as written; MilesPerHour uses 1.609344. */
  function ToKph(u: VelUnit, x: real): real
    requires Concrete(u)
  {
    match u
    case MetersPerSecond => ToMps(u, x) / 3.6
    case MilesPerHour => x * 1.609344
  }

  /** `mph`: MetersPerSecond uses 2.237 mph per m/s. */
  function ToMph(u: VelUnit, x: real): real
    requires Concrete(u)
  {
    match u
    case MetersPerSecond => ToMps(u, x) * 2.237
    case MilesPerHour => x
  }

  function In(u: VelUnit, w: VelUnit, x: real): real
    requires Concrete(u)
  {
    match w
    case MetersPerSecond => ToMps(u, x)
    case KilometersPerHour => ToKph(u, x)
    case MilesPerHour => ToMph(u, x)
  }

  /** Every concrete class reads back its own magnitude. */
  lemma OwnUnit(u: VelUnit, x: real)
    requires Concrete(u)
    ensures In(u, u, x) == x
  {
  }

  /** m/s -> mph -> m/s and mph -> m/s -> mph return the start value exactly. */
  lemma MpsMphRoundTrip(x: real)
    ensures ToMps(MilesPerHour, ToMph(MetersPerSecond, x)) == x
    ensures ToMph(MetersPerSecond, ToMps(MilesPerHour, x)) == x
  {
  }

  /** As written, one m/s reports 1/3.6 km/h (the tests expect 3.6), and the two concrete
      classes disagree on `kph` for one and the same speed by a factor over 12. */
  lemma MpsKphAsWritten()
    ensures ToKph(MetersPerSecond, 1.0) * 3.6 == 1.0
    ensures ToKph(MilesPerHour, 1.0) > 12.0 * ToKph(MetersPerSecond, ToMps(MilesPerHour, 1.0))
  {
  }

  /** `kph` with MetersPerSecond multiplying by 3.6, as the code evidently intends. */
  function CorrectedKph(u: VelUnit, x: real): (r: real)
    requires Concrete(u)
    ensures u == MetersPerSecond ==> r == 3.6 * x
    ensures u == MilesPerHour ==> r == ToKph(u, x)
  {
    match u
    case MetersPerSecond => ToMps(u, x) * 3.6
    case MilesPerHour => x * 1.609344
  }

  /** With the corrected factor one m/s is 3.6 km/h, and both concrete classes report the
      same `kph` for one speed to within 1e-4 relative (2.237 and 1.609344 are rounded). */
  lemma CorrectedKphAgrees(x: real)
    ensures CorrectedKph(MetersPerSecond, 1.0) == 3.6
    ensures var viaMps := CorrectedKph(MetersPerSecond, ToMps(MilesPerHour, x));
      var direct := CorrectedKph(MilesPerHour, x);
      (viaMps - direct) * (viaMps - direct) <= (0.0001 * direct) * (0.0001 * direct)
  {
    var viaMps := CorrectedKph(MetersPerSecond, ToMps(MilesPerHour, x));
    var direct := CorrectedKph(MilesPerHour, x);
    assert viaMps * 2.237 == 3.6 * x;
    assert (viaMps - direct) * 2.237 == x * (3.6 - 1.609344 * 2.237);
    assert 2.237 * 2.237 * ((viaMps - direct) * (viaMps - direct))
      == (x * x) * ((3.6 - 1.609344 * 2.237) * (3.6 - 1.609344 * 2.237));
  }
}
