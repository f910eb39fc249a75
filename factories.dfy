/** The unit package's factory functions: one constructor call each, for the distance,
    temperature, pressure and velocity classes only. */
module UnitFactories {
  import opened Wrappers
  import Temperature
  import Distance
  import Pressure
  import Velocity
  import opened Quantities

  datatype Factory =
    | M | Meter | Km | Cm | Mm | Mi | Mile | Inch | Ft
    | DegC | DegF | DegK
    | HPa | Pa | InHg
    | Mps | Kph | Mph

  /** The function's name as exported. */
  function FactoryName(f: Factory): string {
    match f
    case M => "m"
    case Meter => "meter"
    case Km => "km"
    case Cm => "cm"
    case Mm => "mm"
    case Mi => "mi"
    case Mile => "mile"
    case Inch => "inch"
    case Ft => "ft"
    case DegC => "degC"
    case DegF => "degF"
    case DegK => "degK"
    case HPa => "hPa"
    case Pa => "Pa"
    case InHg => "inHg"
    case Mps => "mps"
    case Kph => "kph"
    case Mph => "mph"
  }

  /** The class each factory instantiates. */
  function FactoryClass(f: Factory): Unit {
    match f
    case M => Dist(Distance.Meter)
    case Meter => Dist(Distance.Meter)
    case Km => Dist(Distance.Kilometer)
    case Cm => Dist(Distance.Centimeter)
    case Mm => Dist(Distance.Millimeter)
    case Mi => Dist(Distance.Mile)
    case Mile => Dist(Distance.Mile)
    case Inch => Dist(Distance.Inch)
    case Ft => Dist(Distance.Feet)
    case DegC => Temp(Temperature.Celsius)
    case DegF => Temp(Temperature.Fahrenheit)
    case DegK => Temp(Temperature.Kelvin)
    case HPa => Pres(Pressure.Hectorpascal)
    case Pa => Pres(Pressure.Pascal)
    case InHg => Pres(Pressure.InchesMercury)
    case Mps => Vel(Velocity.MetersPerSecond)
    case Kph => Vel(Velocity.KilometersPerHour)
    case Mph => Vel(Velocity.MilesPerHour)
  }

  /** Calling factory `f` with `v`. */
  function Make(f: Factory, v: Option<real>): (r: Result<Qty>)
    ensures r.Ok? ==> r.value.unit == FactoryClass(f)
  {
    New(FactoryClass(f), v)
  }

  /** Every factory the package exports, in the order it defines them. */
  const Factories: seq<Factory> :=
    [M, Meter, Km, Cm, Mm, Mi, Mile, Inch, Ft, DegC, DegF, DegK, HPa, Pa, InHg, Mps, Kph, Mph]

  lemma Listed(f: Factory)
    ensures exists i :: 0 <= i < |Factories| && Factories[i] == f
  {
    match f
    case M => assert Factories[0] == f;
    case Meter => assert Factories[1] == f;
    case Km => assert Factories[2] == f;
    case Cm => assert Factories[3] == f;
    case Mm => assert Factories[4] == f;
    case Mi => assert Factories[5] == f;
    case Mile => assert Factories[6] == f;
    case Inch => assert Factories[7] == f;
    case Ft => assert Factories[8] == f;
    case DegC => assert Factories[9] == f;
    case DegF => assert Factories[10] == f;
    case DegK => assert Factories[11] == f;
    case HPa => assert Factories[12] == f;
    case Pa => assert Factories[13] == f;
    case InHg => assert Factories[14] == f;
    case Mps => assert Factories[15] == f;
    case Kph => assert Factories[16] == f;
    case Mph => assert Factories[17] == f;
  }

  /** The first factory of `fs` named `name`, or AttributeError when none is. */
  function Find(name: string, fs: seq<Factory>): (r: Result<Factory>)
    ensures r.Ok? ==> FactoryName(r.value) == name
    ensures r.Err? <==> forall i :: 0 <= i < |fs| ==> FactoryName(fs[i]) != name
    ensures r.Err? ==> r.error == AttributeError
  {
    if |fs| == 0 then Err(AttributeError)
    else if FactoryName(fs[0]) == name then Ok(fs[0])
    else
      var r := Find(name, fs[1..]);
      assert forall i :: 1 <= i < |fs| ==> fs[i] == fs[1..][i - 1];
      r
  }

  /** The unit classes the package imports into its namespace: every temperature, pressure
      and velocity class, and every distance class but Yard. */
  predicate Imported(u: Unit) {
    u.Temp? || (u.Dist? && u.d != Distance.Yard) || u.Pres? || u.Vel?
  }

  /** The imported classes, in import order. */
  const ImportedClasses: seq<Unit> := [
    Dist(Distance.Centimeter), Dist(Distance.Feet), Dist(Distance.Inch),
    Dist(Distance.Kilometer), Dist(Distance.Meter), Dist(Distance.Mile),
    Dist(Distance.Millimeter), Pres(Pressure.Hectorpascal), Pres(Pressure.InchesMercury),
    Pres(Pressure.Pascal), Temp(Temperature.Celsius), Temp(Temperature.Fahrenheit),
    Temp(Temperature.Kelvin), Vel(Velocity.KilometersPerHour), Vel(Velocity.MetersPerSecond),
    Vel(Velocity.MilesPerHour)]

  lemma ImportedListed(u: Unit)
    requires Imported(u)
    ensures exists i :: 0 <= i < |ImportedClasses| && ImportedClasses[i] == u
  {
    match u
    case Dist(d) =>
      match d {
      case Centimeter => assert ImportedClasses[0] == u;
      case Feet => assert ImportedClasses[1] == u;
      case Inch => assert ImportedClasses[2] == u;
      case Kilometer => assert ImportedClasses[3] == u;
      case Meter => assert ImportedClasses[4] == u;
      case Mile => assert ImportedClasses[5] == u;
      case Millimeter => assert ImportedClasses[6] == u;
      }
    case Pres(p) =>
      match p {
      case Hectorpascal => assert ImportedClasses[7] == u;
      case InchesMercury => assert ImportedClasses[8] == u;
      case Pascal => assert ImportedClasses[9] == u;
      }
    case Temp(t) =>
      match t {
      case Celsius => assert ImportedClasses[10] == u;
      case Fahrenheit => assert ImportedClasses[11] == u;
      case Kelvin => assert ImportedClasses[12] == u;
      }
    case Vel(v) =>
      match v {
      case KilometersPerHour => assert ImportedClasses[13] == u;
      case MetersPerSecond => assert ImportedClasses[14] == u;
      case MilesPerHour => assert ImportedClasses[15] == u;
      }
  }

  /** The first class of `us` named `name`, or AttributeError when none is. */
  function FindClass(name: string, us: seq<Unit>): (r: Result<Unit>)
    ensures r.Ok? ==> Name(r.value) == name && r.value in us
    ensures r.Err? <==> forall i :: 0 <= i < |us| ==> Name(us[i]) != name
    ensures r.Err? ==> r.error == AttributeError
  {
    if |us| == 0 then Err(AttributeError)
    else if Name(us[0]) == name then Ok(us[0])
    else
      var r := FindClass(name, us[1..]);
      assert forall i :: 1 <= i < |us| ==> us[i] == us[1..][i - 1];
      r
  }

  /** What a name of the package namespace is bound to: a factory or an imported class. */
  datatype Member = FactoryFn(f: Factory) | UnitClass(u: Unit)

  lemma NoFactoryNamed(name: string)
    requires Find(name, Factories).Err?
    ensures forall f: Factory :: FactoryName(f) != name
  {
    forall f: Factory ensures FactoryName(f) != name {
      Listed(f);
    }
  }

  lemma NoClassNamed(name: string)
    requires FindClass(name, ImportedClasses).Err?
    ensures forall u: Unit :: Imported(u) ==> Name(u) != name
  {
    forall u: Unit | Imported(u) ensures Name(u) != name {
      ImportedListed(u);
    }
  }

  lemma ListedImported(u: Unit)
    requires u in ImportedClasses
    ensures Imported(u)
  {
  }

  /** `units.<name>`: the factory or imported class the package binds to that name;
      AttributeError exactly when it binds neither. */
  function Lookup(name: string): (r: Result<Member>)
    ensures r.Ok? && r.value.FactoryFn? ==> FactoryName(r.value.f) == name
    ensures r.Ok? && r.value.UnitClass? ==> Imported(r.value.u) && Name(r.value.u) == name
    ensures r.Err? <==> (forall f: Factory :: FactoryName(f) != name)
                        && (forall u: Unit :: Imported(u) ==> Name(u) != name)
    ensures r.Err? ==> r.error == AttributeError
  {
    var found := Find(name, Factories);
    if found.Ok? then Ok(FactoryFn(found.value))
    else
      NoFactoryNamed(name);
      var cls := FindClass(name, ImportedClasses);
      if cls.Ok? then
        ListedImported(cls.value);
        Ok(UnitClass(cls.value))
      else
        NoClassNamed(name);
        Err(AttributeError)
  }

  /** Every factory is found again under its own name. */
  lemma LookupNames(f: Factory)
    ensures Lookup(FactoryName(f)) == Ok(FactoryFn(f))
  {
    Listed(f);
    var found := Find(FactoryName(f), Factories);
    assert found.Ok?;
    Synonyms(f, found.value);
  }

  lemma NotFactoryName(f: Factory)
    ensures FactoryName(f) != "mmph" && FactoryName(f) != "Yard" && FactoryName(f) != "Meter"
  {
    match f
    case M =>
    case Meter =>
    case Km =>
    case Cm =>
    case Mm =>
    case Mi =>
    case Mile =>
    case Inch =>
    case Ft =>
    case DegC =>
    case DegF =>
    case DegK =>
    case HPa =>
    case Pa =>
    case InHg =>
    case Mps =>
    case Kph =>
    case Mph =>
  }

  lemma ImportedNames(u: Unit)
    requires Imported(u)
    ensures Name(u) != "mmph" && Name(u) != "Yard"
    ensures Name(u) == "Meter" ==> u == Dist(Distance.Meter)
  {
    match u
    case Dist(d) =>
    case Pres(p) =>
    case Temp(t) =>
    case Vel(v) =>
  }

  /** The package binds no precipitation-rate factory such as `mmph`, and no Yard class,
      while `units.Meter` is the imported class. */
  lemma LookupMissingNames()
    ensures Lookup("mmph") == Err(AttributeError)
    ensures Lookup("Yard") == Err(AttributeError)
    ensures Lookup("Meter") == Ok(UnitClass(Dist(Distance.Meter)))
  {
    Unbound("mmph");
    Unbound("Yard");
    MeterBound();
  }

  lemma Unbound(name: string)
    requires name == "mmph" || name == "Yard"
    ensures Lookup(name) == Err(AttributeError)
  {
    forall f: Factory ensures FactoryName(f) != name {
      NotFactoryName(f);
    }
    forall u: Unit | Imported(u) ensures Name(u) != name {
      ImportedNames(u);
    }
  }

  lemma MeterBound()
    ensures Lookup("Meter") == Ok(UnitClass(Dist(Distance.Meter)))
  {
    forall f: Factory ensures FactoryName(f) != "Meter" {
      NotFactoryName(f);
    }
    var r := Lookup("Meter");
    assert Name(Dist(Distance.Meter)) == "Meter";
    assert r.Ok? && r.value.UnitClass?;
    ImportedNames(r.value.u);
  }

  /** Each factory wraps its argument unchanged in its class, except that `hPa` stores 1000
      times its argument (and raises TypeError on None) and `kph` always raises TypeError
      because its class is abstract. */
  lemma FactoriesWrap(f: Factory, v: Option<real>)
    ensures f != HPa && f != Kph ==> Make(f, v) == Ok(Qty(FactoryClass(f), v))
    ensures f == HPa && v.Some? ==> Make(f, v) == Ok(Qty(Pres(Pressure.Hectorpascal), Some(1000.0 * v.value)))
    ensures f == HPa && v.None? ==> Make(f, v) == Err(TypeError)
    ensures f == Kph ==> Make(f, v) == Err(TypeError)
  {
  }

  /** `m` and `meter` are synonyms, as are `mi` and `mile`; all other factories build
      different classes, and all the names differ. */
  lemma Synonyms(f: Factory, g: Factory)
    ensures FactoryClass(M) == FactoryClass(Meter) && FactoryClass(Mi) == FactoryClass(Mile)
    ensures FactoryClass(f) == FactoryClass(g) <==>
      f == g || {f, g} == {M, Meter} || {f, g} == {Mi, Mile}
    ensures FactoryName(f) == FactoryName(g) <==> f == g
  {
  }

  /** Only the distance, temperature, pressure and velocity kinds have factories. */
  lemma ExportedKinds(f: Factory)
    ensures FactoryClass(f).Dist? || FactoryClass(f).Temp? || FactoryClass(f).Pres? || FactoryClass(f).Vel?
  {
  }

  /** `degF(32).degC == 0`, `degC(100).degF == 212` and `degK(273.15).degC == 0`. */
  lemma TemperatureFactories()
    ensures GetAttr(Make(DegF, Some(32.0)).value, TempAttr(Temperature.Celsius)) == Ok(Some(0.0))
    ensures GetAttr(Make(DegC, Some(100.0)).value, TempAttr(Temperature.Fahrenheit)) == Ok(Some(212.0))
    ensures GetAttr(Make(DegK, Some(273.15)).value, TempAttr(Temperature.Celsius)) == Ok(Some(0.0))
  {
  }

  /** `hPa(x).hPa == x` and `hPa(x).Pa == 1000 x`. */
  lemma HectopascalFactory(x: real)
    ensures GetAttr(Make(HPa, Some(x)).value, PresAttr(Pressure.Hectorpascal)) == Ok(Some(x))
    ensures GetAttr(Make(HPa, Some(x)).value, PresAttr(Pressure.Pascal)) == Ok(Some(1000.0 * x))
  {
  }
}
