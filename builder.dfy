/** The mutable `OvernightRateSwapLeg.Builder`: three slots that may hold
    null, set by typed or generic setters, validated by `build()`. */
module SwapLegBuilder {
  import opened Wrappers
  import opened Domain
  import opened LegProperties
  import opened BeanServices
  import opened SwapLeg
  import opened MetaBean

  const BuilderPrefix: string := "OvernightRateSwapLeg.Builder{"

  class Builder {
    var accrualPeriods: Option<PeriodicSchedule>
    var paymentPeriods: Option<PaymentSchedule>
    var calculation: Option<OvernightRateCalculation>

    /** The slot of `p`, as the `Object` that `get` returns. */
    function Slot(p: Property): PropertyValue
      reads this
    {
      match p
      case AccrualPeriods => if accrualPeriods.Some? then AccrualValue(accrualPeriods.value) else Null
      case PaymentPeriods => if paymentPeriods.Some? then PaymentValue(paymentPeriods.value) else Null
      case Calculation => if calculation.Some? then CalculationValue(calculation.value) else Null
    }

    /** An empty builder: every slot null. */
    constructor ()
      ensures accrualPeriods == None && paymentPeriods == None && calculation == None
    {
      accrualPeriods, paymentPeriods, calculation := None, None, None;
    }

    /** A builder holding a snapshot of `bean`'s three fields. */
    constructor Copy(bean: OvernightRateSwapLeg)
      ensures accrualPeriods == Some(bean.accrualPeriods)
      ensures paymentPeriods == Some(bean.paymentPeriods)
      ensures calculation == Some(bean.calculation)
    {
      accrualPeriods := Some(bean.accrualPeriods);
      paymentPeriods := Some(bean.paymentPeriods);
      calculation := Some(bean.calculation);
    }

    /** `get(name)`: the slot of the named property, or an unknown-property error. */
    method Get(name: string) returns (r: Result<PropertyValue, Error>)
      ensures MetaPropertyGet(name).None? ==> r == Failure(UnknownProperty(name))
      ensures forall p :: name == Name(p) ==> r == Success(Slot(p))
    {
      if name == "accrualPeriods" {
        r := Success(if accrualPeriods.Some? then AccrualValue(accrualPeriods.value) else Null);
      } else if name == "paymentPeriods" {
        r := Success(if paymentPeriods.Some? then PaymentValue(paymentPeriods.value) else Null);
      } else if name == "calculation" {
        r := Success(if calculation.Some? then CalculationValue(calculation.value) else Null);
      } else {
        r := Failure(UnknownProperty(name));
      }
    }

    /** `set(name, value)`: store `value` in the named slot after the cast to
      the slot's type; null is stored without a check. */
    method Set(name: string, value: PropertyValue) returns (r: Result<Builder, Error>)
      modifies this
      ensures r.Success? ==> r.value == this
      ensures MetaPropertyGet(name).None? ==> r == Failure(UnknownProperty(name)) && unchanged(this)
      ensures forall p :: name == Name(p) && !Casts(p, value) ==> r == Failure(ClassCast(name)) && unchanged(this)
      ensures forall p :: name == Name(p) && Casts(p, value) ==>
        r.Success? && Slot(p) == value && forall q :: q != p ==> Slot(q) == old(Slot(q))
    {
      match MetaPropertyGet(name) {
        case None =>
          r := Failure(UnknownProperty(name));
        case Some(AccrualPeriods) =>
          match value {
            case Null => accrualPeriods := None; r := Success(this);
            case AccrualValue(s) => accrualPeriods := Some(s); r := Success(this);
            case _ => r := Failure(ClassCast(name));
          }
        case Some(PaymentPeriods) =>
          match value {
            case Null => paymentPeriods := None; r := Success(this);
            case PaymentValue(s) => paymentPeriods := Some(s); r := Success(this);
            case _ => r := Failure(ClassCast(name));
          }
        case Some(Calculation) =>
          match value {
            case Null => calculation := None; r := Success(this);
            case CalculationValue(s) => calculation := Some(s); r := Success(this);
            case _ => r := Failure(ClassCast(name));
          }
      }
    }

    /** `setString(name, text)`: resolve the name, convert the text to the
      property's type with `parse`, then `set`. */
    method SetString(name: string, text: string, parse: (Property, string) -> Result<PropertyValue, Error>)
      returns (r: Result<Builder, Error>)
      modifies this
      ensures MetaPropertyGet(name).None? ==> r == Failure(UnknownProperty(name)) && unchanged(this)
      ensures forall p :: name == Name(p) && parse(p, text).Failure? ==>
        r == Failure(parse(p, text).error) && unchanged(this)
      ensures forall p :: name == Name(p) && parse(p, text).Success? && Casts(p, parse(p, text).value) ==>
        r == Success(this) && Slot(p) == parse(p, text).value && forall q :: q != p ==> Slot(q) == old(Slot(q))
      ensures forall p :: name == Name(p) && parse(p, text).Success? && !Casts(p, parse(p, text).value) ==>
        r == Failure(ClassCast(name)) && unchanged(this)
    {
      match MetaProperty(name) {
        case Failure(e) =>
          r := Failure(e);
        case Success(p) =>
          match parse(p, text) {
            case Failure(e) => r := Failure(e);
            case Success(v) => r := Set(Name(p), v);
          }
      }
    }

    /** `accrualPeriods(v)`: rejects null, otherwise sets only its own slot. */
    method SetAccrualPeriods(v: Option<PeriodicSchedule>) returns (r: Result<Builder, Error>)
      modifies this
      ensures v.None? ==> r == Failure(NullArgument("accrualPeriods")) && unchanged(this)
      ensures v.Some? ==> r == Success(this) && accrualPeriods == v
      ensures paymentPeriods == old(paymentPeriods) && calculation == old(calculation)
    {
      if v.None? {
        r := Failure(NullArgument("accrualPeriods"));
      } else {
        accrualPeriods := v;
        r := Success(this);
      }
    }

    /** `paymentPeriods(v)`: rejects null, otherwise sets only its own slot. */
    method SetPaymentPeriods(v: Option<PaymentSchedule>) returns (r: Result<Builder, Error>)
      modifies this
      ensures v.None? ==> r == Failure(NullArgument("paymentPeriods")) && unchanged(this)
      ensures v.Some? ==> r == Success(this) && paymentPeriods == v
      ensures accrualPeriods == old(accrualPeriods) && calculation == old(calculation)
    {
      if v.None? {
        r := Failure(NullArgument("paymentPeriods"));
      } else {
        paymentPeriods := v;
        r := Success(this);
      }
    }

    /** `calculation(v)`: rejects null, otherwise sets only its own slot. */
    method SetCalculation(v: Option<OvernightRateCalculation>) returns (r: Result<Builder, Error>)
      modifies this
      ensures v.None? ==> r == Failure(NullArgument("calculation")) && unchanged(this)
      ensures v.Some? ==> r == Success(this) && calculation == v
      ensures accrualPeriods == old(accrualPeriods) && paymentPeriods == old(paymentPeriods)
    {
      if v.None? {
        r := Failure(NullArgument("calculation"));
      } else {
        calculation := v;
        r := Success(this);
      }
    }

    /** `build()`: the private constructor applied to the current slots; the
      builder itself is left as it is and may be reused. */
    method Build() returns (r: Result<OvernightRateSwapLeg, Error>)
      ensures r.Success? <==> Missing(accrualPeriods, paymentPeriods, calculation) == []
      ensures r.Success? ==>
                accrualPeriods == Some(r.value.accrualPeriods) && paymentPeriods == Some(r.value.paymentPeriods)
                && calculation == Some(r.value.calculation)
      ensures r.Failure? ==> r.error == NullArgument(Name(Missing(accrualPeriods, paymentPeriods, calculation)[0]))
    {
      r := Create(accrualPeriods, paymentPeriods, calculation);
    }

    /** The texts of the three slots, "null" for an empty one. */
    function SlotTexts(ops: FieldOps): seq<string>
      reads this
    {
      [TextOrNull(accrualPeriods, ops.accrualText), TextOrNull(paymentPeriods, ops.paymentText),
       TextOrNull(calculation, ops.calculationText)]
    }

    /** `toString`, appended piece by piece as the generated code does. */
    method ToText(ops: FieldOps) returns (s: string)
      ensures s == Layout(BuilderPrefix, Entries(SlotTexts(ops)))
    {
      var a := TextOrNull(accrualPeriods, ops.accrualText);
      var b := TextOrNull(paymentPeriods, ops.paymentText);
      var c := TextOrNull(calculation, ops.calculationText);
      var buf := "OvernightRateSwapLeg.Builder{";
      buf := buf + "accrualPeriods" + ['='] + a + [','] + [' '];
      buf := buf + "paymentPeriods" + ['='] + b + [','] + [' '];
      buf := buf + "calculation" + ['='] + c;
      buf := buf + ['}'];
      s := buf;
      AppendedLayout(BuilderPrefix, a, b, c);
    }
  }

  /** `builder()`: a fresh empty builder. */
  method NewBuilder() returns (b: Builder)
    ensures fresh(b)
    ensures b.accrualPeriods == None && b.paymentPeriods == None && b.calculation == None
  {
    b := new Builder();
  }

  /** `toBuilder()`: a fresh builder seeded with the leg's fields. */
  method ToBuilder(x: OvernightRateSwapLeg) returns (b: Builder)
    ensures fresh(b)
    ensures b.accrualPeriods == Some(x.accrualPeriods)
    ensures b.paymentPeriods == Some(x.paymentPeriods)
    ensures b.calculation == Some(x.calculation)
    ensures forall p :: b.Slot(p) == Getter(x, p)
  {
    b := new Builder.Copy(x);
  }

  //-------------------------------------------------------------------------
  // Properties that span several calls

  /** `x.toBuilder().build()` gives back `x`. */
  method RoundTrip(x: OvernightRateSwapLeg) returns (y: Result<OvernightRateSwapLeg, Error>)
    ensures y == Success(x)
  {
    var b := ToBuilder(x);
    y := b.Build();
  }

  /** A built leg is a snapshot: a later change to the builder shows only in
      the next build. */
  method BuildIsSnapshot(x: OvernightRateSwapLeg, c: OvernightRateCalculation)
    returns (first: Result<OvernightRateSwapLeg, Error>, second: Result<OvernightRateSwapLeg, Error>)
    ensures first == Success(x)
    ensures second == Success(x.(calculation := c))
  {
    var b := ToBuilder(x);
    first := b.Build();
    var _ := b.SetCalculation(Some(c));
    second := b.Build();
  }

  /** What the generic `set` stores, the generic `get` reads back; a failed
      cast leaves the slot's earlier value in place. */
  method SetThenGet(b: Builder, name: string, v: PropertyValue) returns (g: Result<PropertyValue, Error>)
    modifies b
    ensures MetaPropertyGet(name).None? ==> g == Failure(UnknownProperty(name))
    ensures forall p :: name == Name(p) && Casts(p, v) ==> g == Success(v)
    ensures forall p :: name == Name(p) && !Casts(p, v) ==> g == Success(old(b.Slot(p)))
  {
    var _ := b.Set(name, v);
    g := b.Get(name);
  }

  /** The generic `set` does not null-check, so clearing one slot of a copy
      makes `build()` fail naming exactly that property. */
  method ClearThenBuild(x: OvernightRateSwapLeg, p: Property) returns (r: Result<OvernightRateSwapLeg, Error>)
    ensures r == Failure(NullArgument(Name(p)))
  {
    var b := ToBuilder(x);
    var _ := b.Set(Name(p), Null);
    assert b.Slot(AccrualPeriods) == (if p == AccrualPeriods then Null else Getter(x, AccrualPeriods));
    assert b.Slot(PaymentPeriods) == (if p == PaymentPeriods then Null else Getter(x, PaymentPeriods));
    assert b.Slot(Calculation) == (if p == Calculation then Null else Getter(x, Calculation));
    r := b.Build();
  }

  /** A copy builder reads by name exactly what the meta-bean reads from the leg. */
  method CopyReadsLikeMeta(x: OvernightRateSwapLeg, name: string) returns (r: Result<PropertyValue, Error>)
    ensures r == PropertyGet(x, name, false)
  {
    var b := ToBuilder(x);
    r := b.Get(name);
  }

  /** A copy builder renders the leg's fields in the same layout, under its own
      prefix, so the two texts never coincide. */
  method CopyRendersLikeLeg(x: OvernightRateSwapLeg, ops: FieldOps) returns (builderText: string, legText: string)
    ensures LegPrefix <= legText && BuilderPrefix <= builderText
    ensures builderText == BuilderPrefix + legText[|LegPrefix|..]
    ensures builderText != legText
  {
    var b := ToBuilder(x);
    builderText := b.ToText(ops);
    legText := SwapLeg.ToText(x, ops);
    assert b.SlotTexts(ops) == FieldTexts(x, ops);
    assert builderText[20] == '.' && legText[20] == '{';
  }
}
