/** The three declared properties of the leg, their names, and the meta-bean's
    name index: `metaPropertyGet` and the ordered `metaPropertyMap` keys. */
module LegProperties {
  import opened Wrappers
  import opened Domain

  datatype Property = AccrualPeriods | PaymentPeriods | Calculation

  /** The properties in declaration order. */
  const Declared: seq<Property> := [AccrualPeriods, PaymentPeriods, Calculation]

  function Name(p: Property): string {
    match p
    case AccrualPeriods => "accrualPeriods"
    case PaymentPeriods => "paymentPeriods"
    case Calculation => "calculation"
  }

  /** `Meta.metaPropertyGet`: the property declared under `name`, if any. */
  function MetaPropertyGet(name: string): (r: Option<Property>)
    ensures forall p :: r == Some(p) <==> Name(p) == name
  {
    if name == "accrualPeriods" then Some(AccrualPeriods)
    else if name == "paymentPeriods" then Some(PaymentPeriods)
    else if name == "calculation" then Some(Calculation)
    else None
  }

  /** `metaProperty(name)`: the lookup that fails on an unknown name. */
  function MetaProperty(name: string): (r: Result<Property, Error>)
    ensures r.Failure? <==> (forall p :: Name(p) != name)
    ensures r.Failure? ==> r.error == UnknownProperty(name)
    ensures r.Success? ==> Name(r.value) == name
  {
    match MetaPropertyGet(name)
    case None => Failure(UnknownProperty(name))
    case Some(p) => Success(p)
  }

  /** The keys of the meta-property map, in declaration order. */
  function PropertyNames(): (names: seq<string>)
    ensures |names| == |Declared|
    ensures forall i :: 0 <= i < |names| ==> MetaPropertyGet(names[i]) == Some(Declared[i])
    ensures forall i, j :: 0 <= i < j < |names| ==> names[i] != names[j]
  {
    [Name(AccrualPeriods), Name(PaymentPeriods), Name(Calculation)]
  }

  /** Every property appears exactly once in declaration order. */
  lemma DeclaredIsComplete(p: Property)
    ensures exists i :: 0 <= i < |Declared| && Declared[i] == p
    ensures forall i, j :: 0 <= i < j < |Declared| ==> Declared[i] != Declared[j]
  {
    match p
    case AccrualPeriods => assert Declared[0] == p;
    case PaymentPeriods => assert Declared[1] == p;
    case Calculation => assert Declared[2] == p;
  }

  /** A Java `Object` as the generic accessors see it. */
  datatype PropertyValue =
    | Null
    | AccrualValue(schedule: PeriodicSchedule)
    | PaymentValue(payment: PaymentSchedule)
    | CalculationValue(calculation: OvernightRateCalculation)
    | OtherObject   // an instance of some other class

  /** Whether the cast to `p`'s declared type succeeds; a null always casts. */
  predicate Casts(p: Property, v: PropertyValue) {
    match p
    case AccrualPeriods => v.Null? || v.AccrualValue?
    case PaymentPeriods => v.Null? || v.PaymentValue?
    case Calculation => v.Null? || v.CalculationValue?
  }
}
