/** Temperature units: Celsius, Fahrenheit and Kelvin (Kelvin is a subclass of Celsius).
    The functions give each class's conversion properties for a present magnitude `x`;
    absence is handled once, by the quantity layer. */
module Temperature {

  datatype TempUnit = Celsius | Fahrenheit | Kelvin

  /** The class name. */
  function ClassName(u: TempUnit): string {
    match u
    case Celsius => "Celsius"
    case Fahrenheit => "Fahrenheit"
    case Kelvin => "Kelvin"
  }

  /** `degC` of a quantity of class `u` holding `x`. */
  function DegC(u: TempUnit, x: real): real {
    match u
    case Celsius => x
    case Fahrenheit => (x - 32.0) / 1.8
    case Kelvin => x - 273.15
  }

  /** `degF` of a quantity of class `u` holding `x`; Kelvin goes through its own `degC`. */
  function DegF(u: TempUnit, x: real): real {
    match u
    case Celsius => x * 1.8 + 32.0
    case Fahrenheit => x
    case Kelvin => DegC(Kelvin, x) * 1.8 + 32.0
  }

  /** `degK` of a quantity of class `u` holding `x`; Fahrenheit goes through its own `degC`. */
  function DegK(u: TempUnit, x: real): real {
    match u
    case Celsius => x + 273.15
    case Fahrenheit => DegC(Fahrenheit, x) + 273.15
    case Kelvin => x
  }

  /** The accessor named after unit `w`, read from a quantity of class `u` holding `x`. */
  function In(u: TempUnit, w: TempUnit, x: real): real {
    match w
    case Celsius => DegC(u, x)
    case Fahrenheit => DegF(u, x)
    case Kelvin => DegK(u, x)
  }

  /** Every class reads back its own magnitude. */
  lemma OwnUnit(u: TempUnit, x: real)
    ensures In(u, u, x) == x
  {
  }

  /** Whatever the class, the three accessors describe one temperature:
      Fahrenheit is 1.8 times Celsius plus 32 and Kelvin is Celsius plus 273.15. */
  lemma ScalesAgree(u: TempUnit, x: real)
    ensures DegF(u, x) == DegC(u, x) * 1.8 + 32.0
    ensures DegK(u, x) == DegC(u, x) + 273.15
  {
  }

  /** Reading a `u` quantity in unit `w`, then building a `w` quantity from that reading
      and reading it in `u`, gives back the original magnitude exactly (C->F->C, C->K->C, ...). */
  lemma RoundTrip(u: TempUnit, w: TempUnit, x: real)
    ensures In(w, u, In(u, w, x)) == x
  {
  }

  /** The magnitude of a given Celsius temperature in class `u`. */
  function FromCelsius(u: TempUnit, c: real): (r: real)
    ensures DegC(u, r) == c
  {
    match u
    case Celsius => c
    case Fahrenheit => c * 1.8 + 32.0
    case Kelvin => c + 273.15
  }

  /** 0 C, 32 F and 273.15 K all report 0 / 32 / 273.15. */
  lemma Freezing(u: TempUnit)
    ensures DegC(u, FromCelsius(u, 0.0)) == 0.0
    ensures DegF(u, FromCelsius(u, 0.0)) == 32.0
    ensures DegK(u, FromCelsius(u, 0.0)) == 273.15
  {
  }

  /** 100 C, 212 F and 373.15 K all report 100 / 212 / 373.15. */
  lemma Boiling(u: TempUnit)
    ensures FromCelsius(Fahrenheit, 100.0) == 212.0 && FromCelsius(Kelvin, 100.0) == 373.15
    ensures DegC(u, FromCelsius(u, 100.0)) == 100.0
    ensures DegF(u, FromCelsius(u, 100.0)) == 212.0
    ensures DegK(u, FromCelsius(u, 100.0)) == 373.15
  {
  }
}
