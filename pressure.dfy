/** Pressure units: Pascal, its subclass Hectorpascal (which scales its argument by 1000
    when constructed) and InchesMercury. Each function is a class's property for a present
    stored magnitude `x`. */
module Pressure {

  datatype PresUnit = Pascal | Hectorpascal | InchesMercury

  /** The class name. */
  function ClassName(u: PresUnit): string {
    match u
    case Pascal => "Pascal"
    case Hectorpascal => "Hectorpascal"
    case InchesMercury => "InchesMercury"
  }

  /** Pascals per inch of mercury, the constant the code uses. */
  const PascalsPerInHg: real := 3386.3886666667

  /** The magnitude a class stores when constructed from `arg`: Hectorpascal keeps 1000 * arg. */
  function Stored(u: PresUnit, arg: real): (x: real)
    ensures u == Hectorpascal ==> x == 1000.0 * arg
    ensures u != Hectorpascal ==> x == arg
  {
    if u == Hectorpascal then arg * 1000.0 else arg
  }

  /** `Pa`: the stored value for the Pascal family; InchesMercury divides by the factor as written. */
  function ToPa(u: PresUnit, x: real): real {
    match u
    case InchesMercury => x / PascalsPerInHg
    case _ => x
  }

  /** `hPa`: Pascals over 1000 in both families. */
  function ToHPa(u: PresUnit, x: real): real {
    match u
    case InchesMercury => ToPa(u, x) / 1000.0
    case _ => x / 1000.0
  }

  /** `inHg`. */
  function ToInHg(u: PresUnit, x: real): real {
    match u
    case InchesMercury => x
    case _ => x / PascalsPerInHg
  }

  function In(u: PresUnit, w: PresUnit, x: real): real {
    match w
    case Pascal => ToPa(u, x)
    case Hectorpascal => ToHPa(u, x)
    case InchesMercury => ToInHg(u, x)
  }

  /** A class built from `arg` reads `arg` back in its own unit: `Pascal(x).Pa`,
      `Hectorpascal(x).hPa` and `InchesMercury(x).inHg` are all x. */
  lemma OwnUnit(u: PresUnit, arg: real)
    ensures In(u, u, Stored(u, arg)) == arg
  {
  }

  /** `Hectorpascal(x)` reports x hPa and 1000 x Pa; in every class hPa is Pa / 1000. */
  lemma HectorpascalScales(u: PresUnit, arg: real)
    ensures ToHPa(Hectorpascal, Stored(Hectorpascal, arg)) == arg
    ensures ToPa(Hectorpascal, Stored(Hectorpascal, arg)) == 1000.0 * arg
    ensures ToHPa(u, Stored(u, arg)) * 1000.0 == ToPa(u, Stored(u, arg))
  {
  }

  /** As written, InchesMercury's `Pa` divides by the Pascals-per-inch factor, so one
      standard atmosphere (29.92 inHg) reports under 0.01 Pa, and Pa -> inHg -> Pa
      shrinks any non-zero pressure. */
  lemma InHgToPaAsWritten(x: real)
    requires x != 0.0
    ensures ToPa(InchesMercury, 29.92) < 0.01
    ensures In(InchesMercury, Pascal, In(Pascal, InchesMercury, x)) != x
  {
    var back := In(InchesMercury, Pascal, In(Pascal, InchesMercury, x));
    assert back * (PascalsPerInHg * PascalsPerInHg) == x;
  }

  /** `Pa` with InchesMercury multiplying by the factor, as the code evidently intends. */
  function CorrectedPa(u: PresUnit, x: real): (r: real)
    ensures u != InchesMercury ==> r == ToPa(u, x)
    ensures u == InchesMercury ==> r / PascalsPerInHg == x
  {
    match u
    case InchesMercury => x * PascalsPerInHg
    case _ => x
  }

  /** With the corrected factor, Pa -> inHg -> Pa and inHg -> Pa -> inHg are exact, and
      29.92 inHg is about 101.32 kPa. */
  lemma CorrectedPaRoundTrip(x: real)
    ensures CorrectedPa(InchesMercury, ToInHg(Pascal, x)) == x
    ensures ToInHg(Pascal, CorrectedPa(InchesMercury, x)) == x
    ensures 101320.0 < CorrectedPa(InchesMercury, 29.92) < 101321.0
  {
  }

  /** As written, a hectopascal is taken as 1000 Pa (Hectorpascal scales by 1000 and
      Pascal's `hPa` divides by 1000): one hectopascal reports about 0.2953 inHg, and the
      standard 1013.25 hPa at sea level reports over 299 inHg. */
  lemma HectopascalAsWritten()
    ensures ToPa(Hectorpascal, Stored(Hectorpascal, 1.0)) == 1000.0
    ensures 0.295 < ToInHg(Hectorpascal, Stored(Hectorpascal, 1.0)) < 0.296
    ensures ToInHg(Hectorpascal, Stored(Hectorpascal, 1013.25)) > 299.0
  {
  }

  /** The stored magnitude with 100 Pa per hectopascal, as evidently intended. */
  function CorrectedStored(u: PresUnit, arg: real): (x: real)
    ensures u == Hectorpascal ==> x == 100.0 * arg
    ensures u != Hectorpascal ==> x == Stored(u, arg)
  {
    if u == Hectorpascal then arg * 100.0 else arg
  }

  /** `hPa` as Pascals over 100, on top of the corrected `Pa`. */
  function CorrectedHPa(u: PresUnit, x: real): (r: real)
    ensures r * 100.0 == CorrectedPa(u, x)
  {
    CorrectedPa(u, x) / 100.0
  }

  /** With 100 Pa per hectopascal, `Hectorpascal(x)` reads back x hPa and 100 x Pa, one
      hectopascal is about 0.0295 inHg, and 1013.25 hPa is about 29.92 inHg. */
  lemma CorrectedHectopascal(arg: real)
    ensures CorrectedHPa(Hectorpascal, CorrectedStored(Hectorpascal, arg)) == arg
    ensures CorrectedPa(Hectorpascal, CorrectedStored(Hectorpascal, arg)) == 100.0 * arg
    ensures 0.02952 < ToInHg(Hectorpascal, CorrectedStored(Hectorpascal, 1.0)) < 0.02953
    ensures 29.92 < ToInHg(Hectorpascal, CorrectedStored(Hectorpascal, 1013.25)) < 29.93
  {
  }
}
