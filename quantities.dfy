/** The quantity base class: a possibly-absent magnitude tagged with its unit class.
    Attribute reads of an absent quantity are intercepted and yield None; arithmetic builds
    a new base quantity or updates the receiver in place; a quantity operand must be an
    instance of the receiver's class; comparisons look only at the stored magnitudes. */
module Quantities {
  import opened Wrappers
  import Temperature
  import Distance
  import Pressure
  import Velocity
  import Rate
  import Volume

  /** The class of a quantity: the base class itself or one concrete unit class. */
  datatype Unit =
    | Plain
    | Temp(t: Temperature.TempUnit)
    | Dist(d: Distance.DistUnit)
    | Pres(p: Pressure.PresUnit)
    | Vel(v: Velocity.VelUnit)
    | Rate(r: Rate.RateUnit)
    | Vol(l: Volume.VolUnit)

  /** The class name that `repr` shows (the rate class spells its name "CentimersPerHour"). */
  function Name(u: Unit): string {
    match u
    case Plain => "Quantity"
    case Temp(t) => Temperature.ClassName(t)
    case Dist(d) => Distance.ClassName(d)
    case Pres(p) => Pressure.ClassName(p)
    case Vel(v) => Velocity.ClassName(v)
    case Rate(r) => Rate.ClassName(r)
    case Vol(l) => Volume.ClassName(l)
  }

  // ---------------------------------------------------------------------------------------
  // Class hierarchy

  /** Distance from the base class along the chain of concrete superclasses. */
  function Depth(u: Unit): nat {
    match u
    case Plain => 0
    case Temp(t) => if t == Temperature.Kelvin then 2 else 1
    case Dist(d) => if d == Distance.Meter || d == Distance.Feet then 1 else 2
    case Pres(p) => if p == Pressure.Hectorpascal then 2 else 1
    case Vol(l) =>
      if l == Volume.Liter then 1
      else if l == Volume.Milliliter || l == Volume.Gallon then 2
      else 3
    case _ => 1
  }

  /** The nearest concrete superclass, or the base class (abstract kinds such as Distance
      or Rate cannot be instantiated and so never decide an instance check). */
  function Parent(u: Unit): (p: Unit)
    requires u != Plain
    ensures Depth(p) + 1 == Depth(u)
  {
    match u
    case Temp(t) => if t == Temperature.Kelvin then Temp(Temperature.Celsius) else Plain
    case Dist(d) =>
      if d == Distance.Meter || d == Distance.Feet then Plain
      else if Distance.Metric(d) then Dist(Distance.Meter)
      else Dist(Distance.Feet)
    case Pres(p) => if p == Pressure.Hectorpascal then Pres(Pressure.Pascal) else Plain
    case Vol(l) =>
      if l == Volume.Liter then Plain
      else if l == Volume.Milliliter || l == Volume.Gallon then Vol(Volume.Liter)
      else Vol(Volume.Gallon)
    case _ => Plain
  }

  /** `isinstance(x, sup)` for an object of class `sub`. */
  predicate IsInstance(sub: Unit, sup: Unit)
    decreases Depth(sub)
  {
    sub == sup || (sub != Plain && IsInstance(Parent(sub), sup))
  }

  /** Every quantity is an instance of the base class. */
  lemma {:induction false} AllAreQuantities(u: Unit)
    ensures IsInstance(u, Plain)
    decreases Depth(u)
  {
    if u != Plain {
      AllAreQuantities(Parent(u));
    }
  }

  /** An instance of a class is at least as deep as that class, and equally deep only when
      the two classes are the same. */
  lemma {:induction false} InstanceDepth(sub: Unit, sup: Unit)
    requires IsInstance(sub, sup)
    ensures Depth(sup) <= Depth(sub)
    ensures Depth(sup) == Depth(sub) ==> sub == sup
    decreases Depth(sub)
  {
    if sub != sup {
      InstanceDepth(Parent(sub), sup);
    }
  }

  /** The instance relation is a partial order: transitive and antisymmetric. */
  lemma {:induction false} InstanceOrder(a: Unit, b: Unit, c: Unit)
    ensures IsInstance(a, b) && IsInstance(b, c) ==> IsInstance(a, c)
    ensures IsInstance(a, b) && IsInstance(b, a) ==> a == b
    decreases Depth(a)
  {
    if IsInstance(a, b) && IsInstance(b, a) {
      InstanceDepth(a, b);
      InstanceDepth(b, a);
    }
    if a != b && IsInstance(a, b) && IsInstance(b, c) {
      InstanceOrder(Parent(a), b, c);
    }
  }

  /** The kind (temperature, distance, ...) a unit class belongs to. */
  function KindOf(u: Unit): nat {
    match u
    case Plain => 0
    case Temp(_) => 1
    case Dist(_) => 2
    case Pres(_) => 3
    case Vel(_) => 4
    case Rate(_) => 5
    case Vol(_) => 6
  }

  /** Besides the base class, an object is an instance only of classes of its own kind. */
  lemma {:induction false} InstanceKeepsKind(sub: Unit, sup: Unit)
    requires IsInstance(sub, sup) && sup != Plain
    ensures KindOf(sub) == KindOf(sup)
    decreases Depth(sub)
  {
    if sub != sup {
      var p := Parent(sub);
      if p == Plain {
        InstanceDepth(p, sup);
      } else {
        InstanceKeepsKind(p, sup);
      }
    }
  }

  // ---------------------------------------------------------------------------------------
  // Values, construction and attributes

  /** A snapshot of a quantity: its class and its stored magnitude. */
  datatype Qty = Qty(unit: Unit, value: Option<real>)

  /** Whether the class can be instantiated: KilometersPerHour leaves `kph` and `mph`
      abstract, and Weight has no concrete class at all. */
  predicate Instantiable(u: Unit) {
    u != Vel(Velocity.KilometersPerHour)
  }

  /** Constructing class `u` from `arg`: an abstract class raises TypeError, Hectorpascal
      multiplies its argument by 1000 (so an absent argument raises TypeError), and every
      other class stores its argument unchanged. */
  function New(u: Unit, arg: Option<real>): (r: Result<Qty>)
    ensures r.Err? <==> !Instantiable(u) || (u == Pres(Pressure.Hectorpascal) && arg.None?)
    ensures r.Err? ==> r.error == TypeError
    ensures r.Ok? ==> r.value.unit == u
    ensures r.Ok? && u != Pres(Pressure.Hectorpascal) ==> r.value.value == arg
    ensures r.Ok? && u == Pres(Pressure.Hectorpascal) ==> r.value.value == Some(1000.0 * arg.value)
  {
    if !Instantiable(u) then Err(TypeError)
    else if u == Pres(Pressure.Hectorpascal) then
      if arg.None? then Err(TypeError) else Ok(Qty(u, Some(arg.value * 1000.0)))
    else Ok(Qty(u, arg))
  }

  /** A conversion attribute, named by the unit it converts to (`degC`, `meters`, `hPa`,
      `mps`, `cmph`, `L`, ...). */
  datatype Attr =
    | TempAttr(t: Temperature.TempUnit)
    | DistAttr(d: Distance.DistUnit)
    | PresAttr(p: Pressure.PresUnit)
    | VelAttr(v: Velocity.VelUnit)
    | RateAttr(r: Rate.RateUnit)
    | VolAttr(l: Volume.VolUnit)

  /** The attribute named after a unit class's own unit. */
  function OwnAttr(u: Unit): Option<Attr> {
    match u
    case Plain => None
    case Temp(t) => Some(TempAttr(t))
    case Dist(d) => Some(DistAttr(d))
    case Pres(p) => Some(PresAttr(p))
    case Vel(v) => Some(VelAttr(v))
    case Rate(r) => Some(RateAttr(r))
    case Vol(l) => Some(VolAttr(l))
  }

  /** The attribute `a` of class `u` for a present stored magnitude `x`, or None when the
      class has no such property. */
  function Property(u: Unit, a: Attr, x: real): Option<real> {
    match (u, a)
    case (Temp(t), TempAttr(w)) => Some(Temperature.In(t, w, x))
    case (Dist(d), DistAttr(w)) => Some(Distance.In(d, w, x))
    case (Pres(p), PresAttr(w)) => Some(Pressure.In(p, w, x))
    case (Vel(v), VelAttr(w)) =>
      if Velocity.Concrete(v) then Some(Velocity.In(v, w, x))
      else if w == Velocity.MetersPerSecond then Some(Velocity.ToMps(v, x))
      else None
    case (Rate(r), RateAttr(w)) => Some(Rate.In(r, w, x))
    case (Vol(l), VolAttr(w)) => Some(Volume.In(l, w, x))
    case _ => None
  }

  /** Reading attribute `a`: an absent quantity yields None for every attribute (the
      interception runs before the lookup); a present one raises AttributeError when its
      class lacks the attribute and otherwise converts. */
  function GetAttr(q: Qty, a: Attr): (r: Result<Option<real>>)
    ensures q.value.None? ==> r == Ok(None)
    ensures q.value.Some? ==> (r.Err? <==> Property(q.unit, a, q.value.value).None?)
    ensures r.Err? ==> r.error == AttributeError
  {
    if q.value.None? then Ok(None)
    else match Property(q.unit, a, q.value.value)
      case None => Err(AttributeError)
      case Some(y) => Ok(Some(y))
  }

  /** Every class that can be built reads back, in its own unit, the argument it was built
      from (`Celsius(x).degC`, `Kilometer(x).kilometers`, `Hectorpascal(x).hPa`, `Pint(x).pint`,
      `MillimetersPerHour(x).mmph` are all x), except InchesPerHour, whose `inph` comes back
      only within 1e-5 relative. */
  lemma ConstructThenReadOwnUnit(u: Unit, x: real)
    requires u != Plain && Instantiable(u) && u != Rate(Rate.InchesPerHour)
    ensures New(u, Some(x)).Ok?
    ensures GetAttr(New(u, Some(x)).value, OwnAttr(u).value) == Ok(Some(x))
  {
    match u
    case Temp(t) => Temperature.OwnUnit(t, x);
    case Dist(d) => Distance.OwnUnit(d, x);
    case Pres(p) => Pressure.OwnUnit(p, x);
    case Vel(v) => Velocity.OwnUnit(v, x);
    case Rate(r) => Rate.OwnUnit(x);
    case Vol(l) => Volume.OwnUnit(l, x);
  }

  /** Attributes belong to their kind: a present quantity raises AttributeError for every
      attribute of another kind, and the base class has no conversion attributes at all. */
  lemma ForeignAttributeRaises(q: Qty, a: Attr)
    requires q.value.Some?
    requires q.unit == Plain || (q.unit.Temp? != a.TempAttr?) || (q.unit.Dist? != a.DistAttr?)
      || (q.unit.Pres? != a.PresAttr?) || (q.unit.Vel? != a.VelAttr?)
      || (q.unit.Rate? != a.RateAttr?) || (q.unit.Vol? != a.VolAttr?)
    ensures GetAttr(q, a) == Err(AttributeError)
  {
  }

  /** `symbol` is None for every class: the symbol enumeration has no members. It is
      intercepted like any attribute, so an absent quantity also reports None. */
  function Symbol(q: Qty): (r: Option<string>)
    ensures r.None?
  {
    None
  }

  // ---------------------------------------------------------------------------------------
  // Arithmetic

  /** The right-hand side of an operator: a plain scalar (possibly None) or a quantity. */
  datatype Operand = Scalar(x: Option<real>) | Other(q: Qty)

  datatype Op = Add | Sub | Mul | Div

  /** The magnitude an operand carries. */
  function ValueOf(b: Operand): Option<real> {
    match b
    case Scalar(x) => x
    case Other(q) => q.value
  }

  /** Whether `_other_value` of a receiver of class `u` accepts the operand. */
  predicate Accepts(u: Unit, b: Operand) {
    b.Scalar? || IsInstance(b.q.unit, u)
  }

  /** `_other_value`: a scalar passes through; a quantity must be an instance of the
      receiver's class and then gives its stored value (possibly None). */
  function OtherValue(u: Unit, b: Operand): (r: Result<Option<real>>)
    ensures r.Ok? <==> Accepts(u, b)
    ensures r.Ok? ==> r.value == ValueOf(b)
    ensures r.Err? ==> r.error == TypeError
  {
    match b
    case Scalar(x) => Ok(x)
    case Other(q) => if IsInstance(q.unit, u) then Ok(q.value) else Err(TypeError)
  }

  /** One arithmetic step on two present magnitudes; true division by zero raises. */
  function Apply(op: Op, x: real, y: real): (r: Result<real>)
    ensures r.Err? <==> op == Div && y == 0.0
    ensures r.Err? ==> r.error == ZeroDivisionError
    ensures r.Ok? && op == Add ==> r.value - y == x
    ensures r.Ok? && op == Sub ==> r.value + y == x
    ensures r.Ok? && op == Mul ==> r.value == x * y
    ensures r.Ok? && op == Div ==> r.value * y == x
  {
    match op
    case Add => Ok(x + y)
    case Sub => Ok(x - y)
    case Mul => Ok(x * y)
    case Div => if y == 0.0 then Err(ZeroDivisionError) else Ok(x / y)
  }

  /** The magnitude `self.value <op> self._other_value(other)`. With an absent receiver the
      intercepted `_other_value` lookup yields None, and calling it raises TypeError; a
      rejected or absent operand raises TypeError too, so no number is ever produced from
      an absent side. */
  function Combine(op: Op, a: Qty, b: Operand): (r: Result<real>)
    ensures a.value.None? || !Accepts(a.unit, b) || ValueOf(b).None? ==> r == Err(TypeError)
    ensures a.value.Some? && Accepts(a.unit, b) && ValueOf(b).Some?
      ==> r == Apply(op, a.value.value, ValueOf(b).value)
  {
    if a.value.None? then Err(TypeError)
    else
      var y :- OtherValue(a.unit, b);
      if y.None? then Err(TypeError) else Apply(op, a.value.value, y.value)
  }

  /** `a <op> b`: a new quantity of the base class holding the combined magnitude. */
  function Binary(op: Op, a: Qty, b: Operand): (r: Result<Qty>)
    ensures r.Ok? <==> Combine(op, a, b).Ok?
    ensures r.Ok? ==> r.value.unit == Plain && r.value.value == Some(Combine(op, a, b).value)
    ensures r.Err? ==> r.error == Combine(op, a, b).error
  {
    var y :- Combine(op, a, b);
    Ok(Qty(Plain, Some(y)))
  }

  /** The operand check is asymmetric: an instance of a subclass is accepted on the right
      of its superclass but not the other way round, and the magnitudes are then combined
      as they are, whatever unit each one is in. */
  lemma SubclassOperand(x: real, y: real)
    ensures Combine(Add, Qty(Temp(Temperature.Celsius), Some(x)), Other(Qty(Temp(Temperature.Kelvin), Some(y)))) == Ok(x + y)
    ensures Combine(Add, Qty(Temp(Temperature.Kelvin), Some(x)), Other(Qty(Temp(Temperature.Celsius), Some(y)))) == Err(TypeError)
    ensures Combine(Add, Qty(Vol(Volume.Liter), Some(x)), Other(Qty(Vol(Volume.Pint), Some(y)))) == Ok(x + y)
  {
    assert IsInstance(Vol(Volume.Gallon), Vol(Volume.Liter));
  }

  /** A receiver of a unit class never accepts a quantity of another kind, nor a plain base
      quantity; a base receiver accepts every quantity. */
  lemma OperandKinds(a: Qty, b: Qty)
    ensures a.unit == Plain ==> Accepts(a.unit, Other(b))
    ensures a.unit != Plain && (b.unit == Plain || KindOf(a.unit) != KindOf(b.unit))
      ==> !Accepts(a.unit, Other(b))
  {
    if a.unit == Plain {
      AllAreQuantities(b.unit);
    } else if IsInstance(b.unit, a.unit) {
      InstanceKeepsKind(b.unit, a.unit);
      if b.unit == Plain {
        InstanceDepth(b.unit, a.unit);
      }
    }
  }

  /** Adding then subtracting the same accepted present operand restores the magnitude,
      and so does multiplying then dividing by a non-zero one. */
  lemma InverseOperations(a: Qty, b: Operand)
    requires a.value.Some? && Accepts(a.unit, b) && ValueOf(b).Some?
    ensures var s := Binary(Add, a, b).value;
      Binary(Sub, s, Scalar(ValueOf(b))) == Ok(Qty(Plain, a.value))
    ensures ValueOf(b).value != 0.0 ==>
      var p := Binary(Mul, a, b).value;
      Binary(Div, p, Scalar(ValueOf(b))) == Ok(Qty(Plain, a.value))
  {
    var x, y := a.value.value, ValueOf(b).value;
    if y != 0.0 {
      assert Apply(Mul, x, y).Ok?;
      assert Apply(Mul, x, y).value == x * y;
      assert Apply(Mul, x, y) == Ok(x * y);
      assert Combine(Mul, a, b) == Ok(x * y);
      var p := Binary(Mul, a, b).value;
      assert p == Qty(Plain, Some(x * y));
      assert (x * y) / y == x;
      assert Apply(Div, x * y, y) == Ok(x);
    }
  }

  /** The argument of an in-place operator: a scalar or a quantity object. */
  datatype Arg = Num(x: Option<real>) | Obj(obj: Quantity)

  /** A quantity object: the class is fixed, the magnitude is updated by the in-place
      operators. */
  class Quantity {
    const unit: Unit
    var value: Option<real>

    /** The object built by class `u`'s constructor around an already-checked magnitude. */
    constructor Init(unit: Unit, value: Option<real>)
      ensures this.unit == unit && this.value == value
    {
      this.unit := unit;
      this.value := value;
    }

    function Snapshot(): Qty
      reads this
    {
      Qty(unit, value)
    }

    /** Instantiates class `u` from `arg`, raising as `New` says. */
    static method Create(u: Unit, arg: Option<real>) returns (r: Result<Quantity>)
      ensures r.Ok? <==> New(u, arg).Ok?
      ensures r.Err? ==> r.error == New(u, arg).error
      ensures r.Ok? ==> fresh(r.value) && r.value.Snapshot() == New(u, arg).value
    {
      var q :- New(u, arg);
      var obj := new Quantity.Init(q.unit, q.value);
      r := Ok(obj);
    }

    /** `self <op> other`: a fresh base-class object; neither operand changes. */
    method BinaryOp(op: Op, other: Arg) returns (r: Result<Quantity>)
      ensures r.Ok? <==> Binary(op, Snapshot(), OperandOf(other)).Ok?
      ensures r.Err? ==> r.error == Binary(op, Snapshot(), OperandOf(other)).error
      ensures r.Ok? ==> fresh(r.value) && r.value.Snapshot() == Binary(op, Snapshot(), OperandOf(other)).value
    {
      var q :- Binary(op, Snapshot(), OperandOf(other));
      var obj := new Quantity.Init(q.unit, q.value);
      r := Ok(obj);
    }

    /** `self <op>= other` (`+=`, `-=`, `*=`, `/=`): on success only this object's magnitude
      changes, to the combined magnitude, and the object itself is returned; on an error
      nothing changes. A quantity operand keeps its value unless it is this same object. */
    method InPlace(op: Op, other: Arg) returns (r: Result<Quantity>)
      modifies this
      ensures var c := Combine(op, old(Snapshot()), old(OperandOf(other)));
        (c.Ok? ==> value == Some(c.value) && r == Ok(this))
        && (c.Err? ==> value == old(value) && r == Err(c.error))
      ensures other.Obj? && other.obj != this ==> other.obj.value == old(other.obj.value)
    {
      var c := Combine(op, Snapshot(), OperandOf(other));
      if c.Ok? {
        value := Some(c.value);
        r := Ok(this);
      } else {
        r := Err(c.error);
      }
    }
  }

  /** The operand an in-place or binary argument stands for, as of now. */
  function OperandOf(b: Arg): Operand
    reads if b.Obj? then {b.obj} else {}
  {
    match b
    case Num(x) => Scalar(x)
    case Obj(q) => Other(q.Snapshot())
  }

  // ---------------------------------------------------------------------------------------
  // Comparisons

  /** `==`: `other == self.value`, a comparison of magnitudes (None equals None). */
  function Eq(a: Qty, b: Operand): bool {
    ValueOf(b) == a.value
  }

  /** `!=`: `other != self.value`. */
  function Ne(a: Qty, b: Operand): bool {
    ValueOf(b) != a.value
  }

  /** `<`: `other > self.value`, which raises TypeError when either magnitude is absent. */
  function Lt(a: Qty, b: Operand): Result<bool> {
    if a.value.None? || ValueOf(b).None? then Err(TypeError)
    else Ok(ValueOf(b).value > a.value.value)
  }

  /** `>`: `other < self.value`. */
  function Gt(a: Qty, b: Operand): Result<bool> {
    if a.value.None? || ValueOf(b).None? then Err(TypeError)
    else Ok(ValueOf(b).value < a.value.value)
  }

  /** `<=`: `self < other or self == other`; an error from `<` propagates. */
  function Le(a: Qty, b: Operand): (r: Result<bool>)
    ensures a.value.None? || ValueOf(b).None? ==> r == Err(TypeError)
    ensures a.value.Some? && ValueOf(b).Some? ==> r == Ok(a.value.value <= ValueOf(b).value)
  {
    var lt :- Lt(a, b);
    Ok(lt || Eq(a, b))
  }

  /** `>=`: `self > other or self == other`. */
  function Ge(a: Qty, b: Operand): (r: Result<bool>)
    ensures a.value.None? || ValueOf(b).None? ==> r == Err(TypeError)
    ensures a.value.Some? && ValueOf(b).Some? ==> r == Ok(a.value.value >= ValueOf(b).value)
  {
    var gt :- Gt(a, b);
    Ok(gt || Eq(a, b))
  }

  /** For present magnitudes exactly one of `<`, `==`, `>` holds, `<=` is the negation of
      `>`, and `!=` is the negation of `==` in all cases (absent magnitudes included); no
      comparison checks the operand's class. */
  lemma Trichotomy(a: Qty, b: Operand)
    ensures Ne(a, b) == !Eq(a, b)
    ensures a.value.Some? && ValueOf(b).Some? ==>
      Lt(a, b).Ok? && Gt(a, b).Ok?
      && (if Lt(a, b).value then 1 else 0) + (if Eq(a, b) then 1 else 0) + (if Gt(a, b).value then 1 else 0) == 1
      && Le(a, b) == Ok(!Gt(a, b).value) && Ge(a, b) == Ok(!Lt(a, b).value)
  {
  }

  /** Equality between two quantities is symmetric, and an absent quantity equals None. */
  lemma EqualitySymmetric(a: Qty, b: Qty)
    ensures Eq(a, Other(b)) == Eq(b, Other(a))
    ensures a.value.None? ==> Eq(a, Scalar(None))
  {
  }

  // ---------------------------------------------------------------------------------------
  // Conversions to text and numbers

  /** `str(value)`: "None" for an absent magnitude, otherwise the number's text. */
  function ValueText(v: Option<real>, show: real -> string): string {
    match v
    case None => "None"
    case Some(x) => show(x)
  }

  /** `str(q)`: the value's text, followed by a space and the symbol when there is one. */
  function Str(q: Qty, show: real -> string): (s: string)
    ensures s == ValueText(q.value, show)
  {
    match Symbol(q)
    case None => ValueText(q.value, show)
    case Some(sym) => ValueText(q.value, show) + " " + sym
  }

  /** The unit symbols the package's tests expect `str` to show: the three temperature
      scales, millimeters per hour and the six volume classes. The tests give no symbol for
      any other class, and none is assumed here. */
  function IntendedSymbol(u: Unit): Option<string> {
    match u
    case Temp(t) =>
      Some(match t case Celsius => "°C" case Fahrenheit => "°F" case Kelvin => "K")
    case Rate(r) => if r == Rate.MillimetersPerHour then Some("mm/h") else None
    case Vol(l) =>
      Some(match l
           case Liter => "L" case Milliliter => "mL" case Gallon => "gal"
           case Pint => "pt" case Quart => "qt" case FluidOunceUS => "fl oz")
    case _ => None
  }

  /** `str(q)` once each class reports its symbol: the value's text, then a space and the
      symbol. An absent quantity intercepts `symbol` too, so it still shows "None" alone. */
  function CorrectedStr(q: Qty, show: real -> string): (s: string)
    ensures q.value.None? ==> s == "None"
    ensures q.value.Some? && IntendedSymbol(q.unit).Some? ==>
      s == show(q.value.value) + " " + IntendedSymbol(q.unit).value
    ensures q.value.Some? && IntendedSymbol(q.unit).None? ==> s == show(q.value.value)
  {
    if q.value.Some? && IntendedSymbol(q.unit).Some? then
      ValueText(q.value, show) + " " + IntendedSymbol(q.unit).value
    else ValueText(q.value, show)
  }

  /** The code as written and the corrected `str` agree exactly for absent quantities and
      for classes without a symbol; for every other quantity the written text lacks the
      symbol. */
  lemma StrLacksSymbol(q: Qty, show: real -> string)
    ensures Str(q, show) == CorrectedStr(q, show) <==> q.value.None? || IntendedSymbol(q.unit).None?
    ensures q.value.Some? && IntendedSymbol(q.unit).Some? ==>
      CorrectedStr(q, show) == Str(q, show) + " " + IntendedSymbol(q.unit).value
  {
    if q.value.Some? && IntendedSymbol(q.unit).Some? {
      assert |CorrectedStr(q, show)| > |Str(q, show)|;
    }
  }

  /** The corrected `str` gives the texts the temperature and rate tests expect, when the
      number's text is Python's; the text as written is the bare number. */
  lemma CorrectedStrExamples(show: real -> string)
    requires show(0.0) == "0" && show(1.0) == "1" && show(32.0) == "32" && show(273.15) == "273.15"
    ensures CorrectedStr(Qty(Temp(Temperature.Celsius), Some(0.0)), show) == "0 °C"
    ensures CorrectedStr(Qty(Temp(Temperature.Fahrenheit), Some(32.0)), show) == "32 °F"
    ensures CorrectedStr(Qty(Temp(Temperature.Kelvin), Some(273.15)), show) == "273.15 K"
    ensures CorrectedStr(Qty(Rate(Rate.MillimetersPerHour), Some(1.0)), show) == "1 mm/h"
    ensures Str(Qty(Temp(Temperature.Celsius), Some(0.0)), show) == "0"
  {
    assert "0" + " " + "°C" == "0 °C";
    assert "32" + " " + "°F" == "32 °F";
    assert "273.15" + " " + "K" == "273.15 K";
    assert "1" + " " + "mm/h" == "1 mm/h";
  }

  /** The corrected `str` of one unit of each volume class, as the volume tests expect:
      "1 L", "1 mL", "1 gal", "1 pt", "1 qt" and "1 fl oz". */
  lemma CorrectedStrVolumes(show: real -> string)
    requires show(1.0) == "1"
    ensures CorrectedStr(Qty(Vol(Volume.Liter), Some(1.0)), show) == "1 L"
    ensures CorrectedStr(Qty(Vol(Volume.Milliliter), Some(1.0)), show) == "1 mL"
    ensures CorrectedStr(Qty(Vol(Volume.Gallon), Some(1.0)), show) == "1 gal"
    ensures CorrectedStr(Qty(Vol(Volume.Pint), Some(1.0)), show) == "1 pt"
    ensures CorrectedStr(Qty(Vol(Volume.Quart), Some(1.0)), show) == "1 qt"
    ensures CorrectedStr(Qty(Vol(Volume.FluidOunceUS), Some(1.0)), show) == "1 fl oz"
  {
    assert "1" + " " + "L" == "1 L";
    assert "1" + " " + "mL" == "1 mL";
    assert "1" + " " + "gal" == "1 gal";
    assert "1" + " " + "pt" == "1 pt";
    assert "1" + " " + "qt" == "1 qt";
    assert "1" + " " + "fl oz" == "1 fl oz";
  }

  /** `repr(q)`: "ClassName(value)". The class lookup is intercepted too, so an absent
      quantity raises AttributeError. */
  function Repr(q: Qty, show: real -> string): (r: Result<string>)
    ensures r.Ok? <==> q.value.Some?
    ensures r.Err? ==> r.error == AttributeError
    ensures r.Ok? ==> (|r.value| == |Name(q.unit)| + |show(q.value.value)| + 2
                       && r.value[..|Name(q.unit)|] == Name(q.unit)
                       && r.value[|Name(q.unit)|] == '(' && r.value[|r.value| - 1] == ')')
  {
    if q.value.None? then Err(AttributeError)
    else Ok(Name(q.unit) + "(" + show(q.value.value) + ")")
  }

  /** `float(q)`: the magnitude; TypeError when absent. */
  function ToFloat(q: Qty): (r: Result<real>)
    ensures r.Ok? <==> q.value.Some?
    ensures r.Ok? ==> r.value == q.value.value
    ensures r.Err? ==> r.error == TypeError
  {
    if q.value.None? then Err(TypeError) else Ok(q.value.value)
  }

  /** Truncation toward zero, as Python's `int()` of a float. */
  function Truncate(x: real): (n: int)
    ensures x >= 0.0 ==> 0 <= n && n as real <= x < n as real + 1.0
    ensures x < 0.0 ==> n <= 0 && n as real - 1.0 < x <= n as real
  {
    if x >= 0.0 then x.Floor else -((-x).Floor)
  }

  /** `int(q)`: the magnitude truncated toward zero; TypeError when absent. */
  function ToInt(q: Qty): (r: Result<int>)
    ensures r.Ok? <==> q.value.Some?
    ensures r.Err? ==> r.error == TypeError
    ensures r.Ok? ==> r.value == Truncate(q.value.value)
  {
    if q.value.None? then Err(TypeError) else Ok(Truncate(q.value.value))
  }
}
