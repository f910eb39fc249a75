/** Volume units. The Liter family (Liter, Milliliter) is based on liters; Gallon is a
    subclass of Liter that is based on gallons, with Pint, Quart and FluidOunceUS below it.
    The base class derives `ml`, `pint`, `quart` and `us_oz`. */
module Volume {

  datatype VolUnit = Liter | Milliliter | Gallon | Pint | Quart | FluidOunceUS

  /** The class name. */
  function ClassName(u: VolUnit): string {
    match u
    case Liter => "Liter"
    case Milliliter => "Milliliter"
    case Gallon => "Gallon"
    case Pint => "Pint"
    case Quart => "Quart"
    case FluidOunceUS => "FluidOunceUS"
  }

  predicate GallonBased(u: VolUnit) {
    u == Gallon || u == Pint || u == Quart || u == FluidOunceUS
  }

  /** `gal` of a Gallon-family class: its value over 1, 8, 4 or 128. */
  function GallonsOf(u: VolUnit, x: real): real
    requires GallonBased(u)
  {
    match u
    case Gallon => x
    case Pint => x / 8.0
    case Quart => x / 4.0
    case FluidOunceUS => x / 128.0
  }

  /** `L`: the Liter family scales its value; the Gallon family uses 3.785411784 L per gallon. */
  function ToL(u: VolUnit, x: real): real {
    match u
    case Liter => x
    case Milliliter => x / 1000.0
    case _ => GallonsOf(u, x) * 3.785411784
  }

  /** `gal`: the Liter family uses 0.2641720524 gallons per liter. */
  function ToGal(u: VolUnit, x: real): real {
    if GallonBased(u) then GallonsOf(u, x) else ToL(u, x) * 0.2641720524
  }

  function ToMl(u: VolUnit, x: real): real {
    ToL(u, x) * 1000.0
  }

  function ToPint(u: VolUnit, x: real): real {
    ToGal(u, x) * 8.0
  }

  function ToQuart(u: VolUnit, x: real): real {
    ToGal(u, x) * 4.0
  }

  function ToUsOz(u: VolUnit, x: real): real {
    ToGal(u, x) * 128.0
  }

  function In(u: VolUnit, w: VolUnit, x: real): real {
    match w
    case Liter => ToL(u, x)
    case Milliliter => ToMl(u, x)
    case Gallon => ToGal(u, x)
    case Pint => ToPint(u, x)
    case Quart => ToQuart(u, x)
    case FluidOunceUS => ToUsOz(u, x)
  }

  /** Every class reads back its own magnitude (`Pint(x).pint == x`, `Milliliter(x).ml == x`, ...). */
  lemma OwnUnit(u: VolUnit, x: real)
    ensures In(u, u, x) == x
  {
  }

  /** Within the Gallon family every conversion is undone exactly (pint -> gal -> pint, ...),
      and so is ml -> L -> ml within the Liter family. */
  lemma RoundTripWithinFamily(u: VolUnit, w: VolUnit, x: real)
    requires GallonBased(u) == GallonBased(w)
    ensures In(w, u, In(u, w, x)) == x
  {
  }

  /** One gallon is 8 pt, 4 qt and 128 oz; one pint is 0.5 qt and 16 oz; one fluid ounce is
      0.0625 pt, 0.03125 qt and 0.0078125 gal. */
  lemma Examples()
    ensures ToPint(Gallon, 1.0) == 8.0 && ToQuart(Gallon, 1.0) == 4.0 && ToUsOz(Gallon, 1.0) == 128.0
    ensures ToQuart(Pint, 1.0) == 0.5 && ToUsOz(Pint, 1.0) == 16.0
    ensures ToPint(FluidOunceUS, 1.0) == 0.0625 && ToQuart(FluidOunceUS, 1.0) == 0.03125
    ensures ToGal(FluidOunceUS, 1.0) == 0.0078125
  {
  }

  /** Liter -> gallon -> liter comes back within 1e-5 relative: 0.2641720524 and
      3.785411784 are rounded inverses. */
  lemma LiterGallonRoundTrip(x: real)
    ensures var back := ToL(Gallon, ToGal(Liter, x));
      (back - x) * (back - x) <= (0.00001 * x) * (0.00001 * x)
  {
    var back := ToL(Gallon, ToGal(Liter, x));
    var e := 0.2641720524 * 3.785411784 - 1.0;
    assert back - x == x * e;
    assert (back - x) * (back - x) == (x * x) * (e * e);
  }
}
