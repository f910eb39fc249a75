/** The older flat unit module. Its conversion classes use the same formulas and hierarchy
    as the unit package (so they share its attribute table), but its base class does not
    intercept attribute reads of an absent value, its only in-place operators are `+=` and
    `-=` with no operand class check, `!=` is defined as `not ==`, and `str` is just the
    value. Its comparisons `==`, `<`, `<=`, `>`, `>=` are written exactly as the package's,
    so `Quantities.Eq`, `Lt`, `Le`, `Gt` and `Ge` describe both. */
module LegacyUnits {
  import opened Wrappers
  import Temperature
  import Distance
  import Pressure
  import Velocity
  import opened Quantities
  import UnitFactories

  /** The classes the flat module defines: the base class and the temperature, distance,
      pressure and velocity classes (its volume kind has no concrete class). */
  predicate LegacyUnit(u: Unit) {
    u.Plain? || u.Temp? || u.Dist? || u.Pres? || u.Vel?
  }

  /** Whether class `u` has attribute `a` at all. */
  predicate HasAttr(u: Unit, a: Attr) {
    Property(u, a, 0.0).Some?
  }

  /** The accessors that return the stored value itself rather than computing with it. */
  predicate ReturnsStored(u: Unit, a: Attr) {
    OwnAttr(u) == Some(a) &&
    u in {Temp(Temperature.Celsius), Temp(Temperature.Fahrenheit), Temp(Temperature.Kelvin),
          Dist(Distance.Meter), Dist(Distance.Feet), Pres(Pressure.Pascal),
          Pres(Pressure.InchesMercury), Vel(Velocity.MetersPerSecond), Vel(Velocity.MilesPerHour)}
  }

  /** Reading attribute `a` without interception: a present value converts exactly as in the
      package; with an absent value an accessor that returns the stored value gives None and
      every accessor that computes raises TypeError. */
  function LegacyGetAttr(q: Qty, a: Attr): (r: Result<Option<real>>)
    requires LegacyUnit(q.unit)
    ensures q.value.Some? ==> r == GetAttr(q, a)
    ensures !HasAttr(q.unit, a) ==> r == Err(AttributeError)
    ensures q.value.None? && HasAttr(q.unit, a) ==>
      (r == Ok(None) <==> ReturnsStored(q.unit, a)) && (r.Err? ==> r.error == TypeError)
  {
    if !HasAttr(q.unit, a) then Err(AttributeError)
    else if q.value.Some? then Ok(Property(q.unit, a, q.value.value))
    else if ReturnsStored(q.unit, a) then Ok(None)
    else Err(TypeError)
  }

  /** `self.value += v` / `self.value -= v` where `v` is the operand's value if it is any
      quantity, otherwise the operand itself; an absent side raises TypeError. */
  function LegacyCombine(op: Op, a: Qty, b: Operand): (r: Result<real>)
    requires op == Add || op == Sub
    ensures r.Err? <==> a.value.None? || ValueOf(b).None?
    ensures r.Err? ==> r.error == TypeError
    ensures r.Ok? && op == Add ==> r.value - ValueOf(b).value == a.value.value
    ensures r.Ok? && op == Sub ==> r.value + ValueOf(b).value == a.value.value
  {
    if a.value.None? || ValueOf(b).None? then Err(TypeError)
    else Apply(op, a.value.value, ValueOf(b).value)
  }

  /** Where the package accepts the operand the two modules agree; the flat module also
      accepts a quantity of any other class and mixes the magnitudes. */
  lemma LegacyCombineAgrees(op: Op, a: Qty, b: Operand, x: real, y: real)
    requires op == Add || op == Sub
    ensures Accepts(a.unit, b) ==> LegacyCombine(op, a, b) == Combine(op, a, b)
    ensures LegacyCombine(Add, Qty(Temp(Temperature.Celsius), Some(x)), Other(Qty(Dist(Distance.Meter), Some(y)))) == Ok(x + y)
    ensures Combine(Add, Qty(Temp(Temperature.Celsius), Some(x)), Other(Qty(Dist(Distance.Meter), Some(y)))) == Err(TypeError)
  {
    OperandKinds(Qty(Temp(Temperature.Celsius), Some(x)), Qty(Dist(Distance.Meter), Some(y)));
  }

  /** The argument of an in-place operator: a scalar or a quantity object of this module. */
  datatype LegacyArg = Value(x: Option<real>) | Instance(obj: Quantity)

  class Quantity {
    const unit: Unit
    var value: Option<real>

    constructor Init(unit: Unit, value: Option<real>)
      ensures this.unit == unit && this.value == value
    {
      this.unit := unit;
      this.value := value;
    }

    function Snapshot(): Qty
      reads this
    {
      Qty(unit, value)
    }

    /** `+=` and `-=`: on success only this object's value changes, to the combined value,
        and the object is returned; on a TypeError nothing changes. */
    method InPlace(op: Op, other: LegacyArg) returns (r: Result<Quantity>)
      requires op == Add || op == Sub
      modifies this
      ensures var c := LegacyCombine(op, old(Snapshot()), old(LegacyOperand(other)));
        (c.Ok? ==> value == Some(c.value) && r == Ok(this))
        && (c.Err? ==> value == old(value) && r == Err(TypeError))
      ensures other.Instance? && other.obj != this ==> other.obj.value == old(other.obj.value)
    {
      var c := LegacyCombine(op, Snapshot(), LegacyOperand(other));
      if c.Ok? {
        value := Some(c.value);
        r := Ok(this);
      } else {
        r := Err(TypeError);
      }
    }
  }

  function LegacyOperand(b: LegacyArg): Operand
    reads if b.Instance? then {b.obj} else {}
  {
    match b
    case Value(x) => Scalar(x)
    case Instance(q) => Other(q.Snapshot())
  }

  /** `!=` is `not ==`, which gives the same answer as the package's `!=`. */
  function LegacyNe(a: Qty, b: Operand): (r: bool)
    ensures r == Ne(a, b)
    ensures r <==> ValueOf(b) != a.value
  {
    !Eq(a, b)
  }

  /** `str(q)` is just the value's text, which is what the package prints too, since no
      package class has a symbol. */
  function LegacyStr(q: Qty, show: real -> string): (s: string)
    ensures s == Str(q, show)
    ensures q.value.None? ==> s == "None"
  {
    ValueText(q.value, show)
  }

  datatype LegacyFactory =
    | M | Meter | Km | Cm | Mm | Mile | Inch | Ft | Foot | Feet
    | DegC | DegF | DegK
    | HPa | Pa | Pascal | InHg
    | Mps | Kph | Mph

  function LegacyFactoryName(f: LegacyFactory): string {
    match f
    case M => "m"
    case Meter => "meter"
    case Km => "km"
    case Cm => "cm"
    case Mm => "mm"
    case Mile => "mile"
    case Inch => "inch"
    case Ft => "ft"
    case Foot => "foot"
    case Feet => "feet"
    case DegC => "degC"
    case DegF => "degF"
    case DegK => "degK"
    case HPa => "hPa"
    case Pa => "Pa"
    case Pascal => "pascal"
    case InHg => "inHg"
    case Mps => "mps"
    case Kph => "kph"
    case Mph => "mph"
  }

  function LegacyFactoryClass(f: LegacyFactory): (u: Unit)
    ensures LegacyUnit(u) && u != Plain
  {
    match f
    case M => Dist(Distance.Meter)
    case Meter => Dist(Distance.Meter)
    case Km => Dist(Distance.Kilometer)
    case Cm => Dist(Distance.Centimeter)
    case Mm => Dist(Distance.Millimeter)
    case Mile => Dist(Distance.Mile)
    case Inch => Dist(Distance.Inch)
    case Ft => Dist(Distance.Feet)
    case Foot => Dist(Distance.Feet)
    case Feet => Dist(Distance.Feet)
    case DegC => Temp(Temperature.Celsius)
    case DegF => Temp(Temperature.Fahrenheit)
    case DegK => Temp(Temperature.Kelvin)
    case HPa => Pres(Pressure.Hectorpascal)
    case Pa => Pres(Pressure.Pascal)
    case Pascal => Pres(Pressure.Pascal)
    case InHg => Pres(Pressure.InchesMercury)
    case Mps => Vel(Velocity.MetersPerSecond)
    case Kph => Vel(Velocity.KilometersPerHour)
    case Mph => Vel(Velocity.MilesPerHour)
  }

  /** Calling legacy factory `f`: construction behaves as in the package (Hectorpascal scales
      by 1000, KilometersPerHour is abstract). */
  function LegacyMake(f: LegacyFactory, v: Option<real>): (r: Result<Qty>)
    ensures r.Ok? ==> r.value.unit == LegacyFactoryClass(f)
  {
    New(LegacyFactoryClass(f), v)
  }

  /** The flat module's factory with the same name as package factory `f`, if any: every
      package factory but `mi` has one. */
  function Counterpart(f: UnitFactories.Factory): (r: Option<LegacyFactory>)
    ensures r.None? <==> f == UnitFactories.Mi
    ensures r.Some? ==> LegacyFactoryName(r.value) == UnitFactories.FactoryName(f)
  {
    match f
    case M => Some(M)
    case Meter => Some(Meter)
    case Km => Some(Km)
    case Cm => Some(Cm)
    case Mm => Some(Mm)
    case Mi => None
    case Mile => Some(Mile)
    case Inch => Some(Inch)
    case Ft => Some(Ft)
    case DegC => Some(DegC)
    case DegF => Some(DegF)
    case DegK => Some(DegK)
    case HPa => Some(HPa)
    case Pa => Some(Pa)
    case InHg => Some(InHg)
    case Mps => Some(Mps)
    case Kph => Some(Kph)
    case Mph => Some(Mph)
  }

  /** A factory name both modules export builds the same class in both; `mi` is exported
      only by the package, and `foot`, `feet` and `pascal` only by the flat module. */
  lemma FactoriesCorrespond(f: UnitFactories.Factory, g: LegacyFactory)
    ensures UnitFactories.FactoryName(f) == LegacyFactoryName(g) ==>
      UnitFactories.FactoryClass(f) == LegacyFactoryClass(g)
    ensures LegacyFactoryName(g) != UnitFactories.FactoryName(UnitFactories.Mi)
    ensures g in {Foot, Feet, Pascal} ==> UnitFactories.FactoryName(f) != LegacyFactoryName(g)
  {
  }

  /** Through the flat module, C -> F -> C and m/s -> mph -> m/s are exact, and an absent
      Celsius value reads as None in Celsius but raises TypeError in Fahrenheit. */
  lemma LegacyRoundTrips(x: real)
    ensures var f := LegacyGetAttr(Qty(Temp(Temperature.Celsius), Some(x)), TempAttr(Temperature.Fahrenheit)).value.value;
      LegacyGetAttr(Qty(Temp(Temperature.Fahrenheit), Some(f)), TempAttr(Temperature.Celsius)) == Ok(Some(x))
    ensures var m := LegacyGetAttr(Qty(Vel(Velocity.MetersPerSecond), Some(x)), VelAttr(Velocity.MilesPerHour)).value.value;
      LegacyGetAttr(Qty(Vel(Velocity.MilesPerHour), Some(m)), VelAttr(Velocity.MetersPerSecond)) == Ok(Some(x))
    ensures LegacyGetAttr(Qty(Temp(Temperature.Celsius), None), TempAttr(Temperature.Celsius)) == Ok(None)
    ensures LegacyGetAttr(Qty(Temp(Temperature.Celsius), None), TempAttr(Temperature.Fahrenheit)) == Err(TypeError)
  {
    Temperature.RoundTrip(Temperature.Celsius, Temperature.Fahrenheit, x);
    Velocity.MpsMphRoundTrip(x);
  }
}
