/** Generic access by property name on a finished leg (`Meta.propertyGet` and
    `Meta.propertySet`). */
module MetaBean {
  import opened Wrappers
  import opened Domain
  import opened LegProperties
  import opened SwapLeg

  /** The getter for `p`, as the `Object` it returns. */
  function Getter(x: OvernightRateSwapLeg, p: Property): PropertyValue {
    match p
    case AccrualPeriods => AccrualValue(x.accrualPeriods)
    case PaymentPeriods => PaymentValue(x.paymentPeriods)
    case Calculation => CalculationValue(x.calculation)
  }

  /** `propertyGet`: a known name reads its getter; an unknown one is null in
      quiet mode and an unknown-property error otherwise. */
  function PropertyGet(x: OvernightRateSwapLeg, name: string, quiet: bool): (r: Result<PropertyValue, Error>)
    ensures name == "accrualPeriods" ==> r == Success(AccrualValue(x.accrualPeriods))
    ensures name == "paymentPeriods" ==> r == Success(PaymentValue(x.paymentPeriods))
    ensures name == "calculation" ==> r == Success(CalculationValue(x.calculation))
    ensures MetaPropertyGet(name).None? ==> r == if quiet then Success(Null) else Failure(UnknownProperty(name))
  {
    match MetaPropertyGet(name)
    case Some(p) => Success(Getter(x, p))
    case None => if quiet then Success(Null) else Failure(UnknownProperty(name))
  }

  /** Reading the declared names in order gives the three fields in order,
      and a known name never reads null. */
  lemma PropertyGetInOrder(x: OvernightRateSwapLeg, quiet: bool)
    ensures forall i :: 0 <= i < |PropertyNames()| ==>
      PropertyGet(x, PropertyNames()[i], quiet) == Success(Getter(x, Declared[i]))
    ensures forall p :: PropertyGet(x, Name(p), quiet).Success? && !PropertyGet(x, Name(p), quiet).value.Null?
  {
  }

  /** `propertySet`: the name is resolved first; a finished leg is never
      written, so the call is silent in quiet mode and fails otherwise. */
  function PropertySet(x: OvernightRateSwapLeg, name: string, value: PropertyValue, quiet: bool): (r: Outcome<Error>)
    ensures MetaPropertyGet(name).None? ==> r == Fail(UnknownProperty(name))
    ensures MetaPropertyGet(name).Some? ==> r == if quiet then Pass else Fail(Unsupported(name))
  {
    match MetaProperty(name)
    case Failure(e) => Fail(e)
    case Success(_) => if quiet then Pass else Fail(Unsupported(name))
  }

  /** No write succeeds unless it is quiet, and the outcome depends on neither
      the leg nor the value. */
  lemma PropertySetNeverWrites(x: OvernightRateSwapLeg, y: OvernightRateSwapLeg, name: string,
                               v: PropertyValue, w: PropertyValue, quiet: bool)
    ensures PropertySet(x, name, v, false).Fail?
    ensures PropertySet(x, name, v, quiet) == PropertySet(y, name, w, quiet)
    ensures PropertySet(x, name, v, quiet).Pass? <==> quiet && MetaPropertyGet(name).Some?
  {
  }
}
