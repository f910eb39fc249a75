/** Weight: an abstract kind whose concrete classes would supply `kg` and `lbs`; the base
    class derives `g`, `mg`, `oz` and `ton`. No concrete weight class exists, so a class is
    represented by its two abstract accessors. Because the base class intercepts every
    attribute of an absent quantity, each derived accessor is absent exactly when the stored
    value is. */
module Weight {
  import opened Wrappers

  /** The `kg` and `lbs` a concrete subclass would define over its stored value. */
  datatype WeightClass = WeightClass(kg: real -> real, lbs: real -> real)

  /** `g`: kilograms times 1000. */
  function Grams(c: WeightClass, value: Option<real>): Option<real> {
    match value
    case None => None
    case Some(v) => Some(c.kg(v) * 1000.0)
  }

  /** `mg`: grams times 0.001, as written. */
  function Milligrams(c: WeightClass, value: Option<real>): Option<real> {
    match value
    case None => None
    case Some(v) => Some(Grams(c, value).value * 0.001)
  }

  /** `oz`: pounds times 16. */
  function Ounces(c: WeightClass, value: Option<real>): Option<real> {
    match value
    case None => None
    case Some(v) => Some(c.lbs(v) * 16.0)
  }

  /** `ton`: pounds times 2000, as written. */
  function Tons(c: WeightClass, value: Option<real>): Option<real> {
    match value
    case None => None
    case Some(v) => Some(c.lbs(v) * 2000.0)
  }

  /** Every derived accessor is absent exactly when the stored value is, and otherwise
      g = 1000 kg and oz = 16 lbs. */
  lemma DerivedAccessors(c: WeightClass, value: Option<real>)
    ensures value.None? <==> Grams(c, value).None?
    ensures value.None? <==> Milligrams(c, value).None?
    ensures value.None? <==> Ounces(c, value).None?
    ensures value.None? <==> Tons(c, value).None?
    ensures value.Some? ==> Grams(c, value).value == 1000.0 * c.kg(value.value)
    ensures value.Some? ==> Ounces(c, value).value == 16.0 * c.lbs(value.value)
  {
  }

  /** As written, `mg` equals `kg` (g * 0.001 undoes the 1000) and `ton` is 2000 lbs, so one
      kilogram reports 1 mg and one pound 2000 tons, where the tests expect 1e6 mg and
      0.0005 ton. */
  lemma MgTonAsWritten(c: WeightClass, v: real)
    ensures Milligrams(c, Some(v)) == Some(c.kg(v))
    ensures c.kg(v) == 1.0 ==> Milligrams(c, Some(v)) == Some(1.0)
    ensures c.lbs(v) == 1.0 ==> Tons(c, Some(v)) == Some(2000.0)
  {
  }

  /** `mg` as grams times 1000, as the code evidently intends. */
  function CorrectedMilligrams(c: WeightClass, value: Option<real>): (r: Option<real>)
    ensures r.None? <==> value.None?
    ensures value.Some? ==> r == Some(1000000.0 * c.kg(value.value))
  {
    match value
    case None => None
    case Some(v) => Some(Grams(c, value).value * 1000.0)
  }

  /** `ton` as pounds over 2000, as the code evidently intends. */
  function CorrectedTons(c: WeightClass, value: Option<real>): (r: Option<real>)
    ensures r.None? <==> value.None?
    ensures value.Some? ==> r.value * 2000.0 == c.lbs(value.value)
  {
    match value
    case None => None
    case Some(v) => Some(c.lbs(v) / 2000.0)
  }

  /** With the corrections a kilogram is 1e6 mg, a pound 0.0005 ton and an ounce
      (1/16 lb) 0.00003125 ton, the values the tests expect. */
  lemma CorrectedExamples(c: WeightClass, v: real)
    ensures c.kg(v) == 1.0 ==> CorrectedMilligrams(c, Some(v)) == Some(1000000.0)
    ensures c.lbs(v) == 1.0 ==> CorrectedTons(c, Some(v)) == Some(0.0005)
    ensures c.lbs(v) == 0.0625 ==> CorrectedTons(c, Some(v)) == Some(0.00003125)
  {
  }
}
