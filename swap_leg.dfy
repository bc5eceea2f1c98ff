/** The immutable leg value `OvernightRateSwapLeg`: validated construction,
    the delegating accessors, expansion, equals, hashCode and toString. */
module SwapLeg {
  import opened Wrappers
  import opened JavaInt
  import opened Domain
  import opened LegProperties
  import opened BeanServices

  /** A leg holds exactly three non-null, never-reassigned fields. */
  datatype OvernightRateSwapLeg = OvernightRateSwapLeg(
    accrualPeriods: PeriodicSchedule,
    paymentPeriods: PaymentSchedule,
    calculation: OvernightRateCalculation)

  //-------------------------------------------------------------------------
  // Construction

  /** The properties whose values are null, in declaration order. */
  function Missing(a: Option<PeriodicSchedule>, b: Option<PaymentSchedule>,
                   c: Option<OvernightRateCalculation>): seq<Property>
  {
    (if a.None? then [AccrualPeriods] else [])
    + (if b.None? then [PaymentPeriods] else [])
    + (if c.None? then [Calculation] else [])
  }

  /** The private constructor: each argument is null-checked in declaration
      order before any field is assigned. */
  function Create(a: Option<PeriodicSchedule>, b: Option<PaymentSchedule>,
                  c: Option<OvernightRateCalculation>): (r: Result<OvernightRateSwapLeg, Error>)
    ensures r.Success? <==> Missing(a, b, c) == []
    ensures r.Success? ==>
              a == Some(r.value.accrualPeriods) && b == Some(r.value.paymentPeriods) && c == Some(r.value.calculation)
    ensures r.Failure? ==> r.error == NullArgument(Name(Missing(a, b, c)[0]))
  {
    if a.None? then Failure(NullArgument("accrualPeriods"))
    else if b.None? then Failure(NullArgument("paymentPeriods"))
    else if c.None? then Failure(NullArgument("calculation"))
    else Success(OvernightRateSwapLeg(a.value, b.value, c.value))
  }

  /** Constructing from a leg's own fields gives back that leg. */
  lemma CreateFromFields(x: OvernightRateSwapLeg)
    ensures Create(Some(x.accrualPeriods), Some(x.paymentPeriods), Some(x.calculation)) == Success(x)
  {
  }

  //-------------------------------------------------------------------------
  // Delegating accessors

  function StartDate(x: OvernightRateSwapLeg, c: Collaborators): LocalDate {
    c.startDate(x.accrualPeriods)
  }

  function EndDate(x: OvernightRateSwapLeg, c: Collaborators): LocalDate {
    c.endDate(x.accrualPeriods)
  }

  function Currency(x: OvernightRateSwapLeg, c: Collaborators): Domain.Currency {
    c.currency(c.notional(x.calculation))
  }

  /** `getStartDate` asks the accrual schedule, so legs with the same schedule
      share a start date whatever their payment schedule and calculation. */
  lemma StartDateReadsSchedule(x: OvernightRateSwapLeg, y: OvernightRateSwapLeg, c: Collaborators)
    ensures x.accrualPeriods == y.accrualPeriods ==> StartDate(x, c) == StartDate(y, c)
    ensures StartDate(x, c) == c.startDate(x.accrualPeriods)
  {
  }

  /** `getEndDate` asks the accrual schedule in the same way. */
  lemma EndDateReadsSchedule(x: OvernightRateSwapLeg, y: OvernightRateSwapLeg, c: Collaborators)
    ensures x.accrualPeriods == y.accrualPeriods ==> EndDate(x, c) == EndDate(y, c)
    ensures EndDate(x, c) == c.endDate(x.accrualPeriods)
  {
  }

  /** `getCurrency` is the currency of the calculation's notional, so legs
      with the same calculation share a currency whatever their schedules. */
  lemma CurrencyReadsNotional(x: OvernightRateSwapLeg, y: OvernightRateSwapLeg, c: Collaborators)
    ensures x.calculation == y.calculation ==> Currency(x, c) == Currency(y, c)
    ensures Currency(x, c) == c.currency(c.notional(x.calculation))
  {
  }

  //-------------------------------------------------------------------------
  // Expansion

  /** `toExpanded`: make the schedule, compute its accrual periods, assemble
      the payment periods; any collaborator's exception ends the expansion. */
  function ToExpanded(x: OvernightRateSwapLeg, c: Collaborators): (r: Result<ExpandedSwapLeg, Error>)
    ensures r.Success? ==> r.value.notionalExchange == c.noExchange
    ensures var s := c.createSchedule(x.accrualPeriods);
            s.Failure? ==> r == Failure(Raised(s.error))
    ensures var s := c.createSchedule(x.accrualPeriods);
            s.Success? ==>
              var a := c.createAccrualPeriods(x.calculation, s.value);
              && (a.Failure? ==> r == Failure(Raised(a.error)))
              && (a.Success? ==>
                    var p := c.createPaymentPeriods(x.paymentPeriods, a.value, s.value);
                    && (p.Failure? ==> r == Failure(Raised(p.error)))
                    && (p.Success? ==> r == Success(ExpandedSwapLeg(p.value, c.noExchange))))
  {
    match c.createSchedule(x.accrualPeriods)
    case Failure(e) => Failure(Raised(e))
    case Success(schedule) =>
      match c.createAccrualPeriods(x.calculation, schedule)
      case Failure(e) => Failure(Raised(e))
      case Success(accruals) =>
        match c.createPaymentPeriods(x.paymentPeriods, accruals, schedule)
        case Failure(e) => Failure(Raised(e))
        case Success(payments) => Success(ExpandedSwapLeg(payments, c.noExchange))
  }

  /** Fail-fast: once a step fails, the later collaborators are never
      consulted, so replacing them cannot change the outcome. */
  lemma ExpansionFailsFast(x: OvernightRateSwapLeg, c: Collaborators, d: Collaborators)
    requires c.createSchedule(x.accrualPeriods) == d.createSchedule(x.accrualPeriods)
    requires c.createSchedule(x.accrualPeriods).Failure?
    ensures ToExpanded(x, c) == ToExpanded(x, d)
    ensures ToExpanded(x, c) == Failure(Raised(c.createSchedule(x.accrualPeriods).error))
  {
  }

  /** With a schedule `s`, two accrual records and a payment step that turns
      each accrual record into one payment period, the expanded leg has
      exactly two payment periods, in the order of the records. */
  lemma ExpansionExample(x: OvernightRateSwapLeg, s: Schedule, a1: RateAccrualPeriod, a2: RateAccrualPeriod,
                         pay: RateAccrualPeriod -> PaymentPeriod, c: Collaborators)
    requires c.createSchedule(x.accrualPeriods) == Success(s)
    requires c.createAccrualPeriods(x.calculation, s) == Success([a1, a2])
    requires forall acc: seq<RateAccrualPeriod> ::
      c.createPaymentPeriods(x.paymentPeriods, acc, s) == Success(seq(|acc|, i requires 0 <= i < |acc| => pay(acc[i])))
    ensures ToExpanded(x, c) == Success(ExpandedSwapLeg([pay(a1), pay(a2)], c.noExchange))
  {
    var acc := [a1, a2];
    assert seq(|acc|, i requires 0 <= i < |acc| => pay(acc[i])) == [pay(a1), pay(a2)];
  }

  //-------------------------------------------------------------------------
  // Equality

  /** The argument of `equals(Object)`. */
  datatype Other =
    | Itself                             // the very same reference
    | NullReference
    | OtherClass                         // an object of any other class
    | Instance(leg: OvernightRateSwapLeg)  // another OvernightRateSwapLeg object

  /** `equals`: the same reference, or another leg whose three fields are equal. */
  predicate Equals(x: OvernightRateSwapLeg, obj: Other, ops: FieldOps): (r: bool)
    ensures obj.Itself? ==> r
    ensures obj.NullReference? || obj.OtherClass? ==> !r
    ensures obj.Instance? ==>
      (r <==> && FieldEqual(x.accrualPeriods, obj.leg.accrualPeriods, ops.accrualEquals)
              && FieldEqual(x.paymentPeriods, obj.leg.paymentPeriods, ops.paymentEquals)
              && FieldEqual(x.calculation, obj.leg.calculation, ops.calculationEquals))
  {
    match obj
    case Itself => true
    case Instance(o) =>
      && FieldEqual(x.accrualPeriods, o.accrualPeriods, ops.accrualEquals)
      && FieldEqual(x.paymentPeriods, o.paymentPeriods, ops.paymentEquals)
      && FieldEqual(x.calculation, o.calculation, ops.calculationEquals)
    case _ => false
  }

  lemma EqualsReflexive(x: OvernightRateSwapLeg, ops: FieldOps)
    ensures Equals(x, Itself, ops)
    ensures Equals(x, Instance(x), ops)
    ensures !Equals(x, NullReference, ops) && !Equals(x, OtherClass, ops)
  {
  }

  lemma EqualsSymmetric(x: OvernightRateSwapLeg, y: OvernightRateSwapLeg, ops: FieldOps)
    requires Lawful(ops)
    ensures Equals(x, Instance(y), ops) <==> Equals(y, Instance(x), ops)
  {
  }

  lemma EqualsTransitive(x: OvernightRateSwapLeg, y: OvernightRateSwapLeg, z: OvernightRateSwapLeg, ops: FieldOps)
    requires Lawful(ops)
    requires Equals(x, Instance(y), ops) && Equals(y, Instance(z), ops)
    ensures Equals(x, Instance(z), ops)
  {
  }

  //-------------------------------------------------------------------------
  // Hashing

  /** The field hashes in declaration order. */
  function FieldHashes(x: OvernightRateSwapLeg, ops: FieldOps): seq<int32> {
    [ops.accrualHash(x.accrualPeriods), ops.paymentHash(x.paymentPeriods), ops.calculationHash(x.calculation)]
  }

  /** `hashCode`, step by step; `classHash` is `getClass().hashCode()`. */
  method HashCode(x: OvernightRateSwapLeg, classHash: int32, ops: FieldOps) returns (hash: int32)
    ensures hash == HashFold(classHash, FieldHashes(x, ops))
    ensures hash == Wrap(classHash * 32768 + ops.accrualHash(x.accrualPeriods) * 1024
                         + ops.paymentHash(x.paymentPeriods) * 32 + ops.calculationHash(x.calculation))
  {
    ghost var hs := FieldHashes(x, ops);
    hash := classHash;
    hash := Add(hash, Add(Mul(hash, 31), ops.accrualHash(x.accrualPeriods)));
    ghost var h1 := hash;
    assert HashFold(classHash, hs) == HashFold(h1, hs[1..]);
    hash := Add(hash, Add(Mul(hash, 31), ops.paymentHash(x.paymentPeriods)));
    ghost var h2 := hash;
    assert HashFold(h1, hs[1..]) == HashFold(h2, hs[2..]) by { assert hs[1..][1..] == hs[2..]; }
    hash := Add(hash, Add(Mul(hash, 31), ops.calculationHash(x.calculation)));
    assert HashFold(h2, hs[2..]) == HashFold(hash, []) by { assert hs[2..][1..] == []; }
    HashFoldOfThree(classHash, hs[0], hs[1], hs[2]);
  }

  /** Equal legs have equal hash codes. */
  lemma {:induction false} EqualsAgreesWithHash(x: OvernightRateSwapLeg, y: OvernightRateSwapLeg,
                                                classHash: int32, ops: FieldOps)
    requires Lawful(ops)
    requires Equals(x, Instance(y), ops)
    ensures HashFold(classHash, FieldHashes(x, ops)) == HashFold(classHash, FieldHashes(y, ops))
  {
    assert FieldHashes(x, ops) == FieldHashes(y, ops);
  }

  //-------------------------------------------------------------------------
  // Rendering

  const LegPrefix: string := "OvernightRateSwapLeg{"

  /** The texts of the three fields in declaration order. */
  function FieldTexts(x: OvernightRateSwapLeg, ops: FieldOps): seq<string> {
    [ops.accrualText(x.accrualPeriods), ops.paymentText(x.paymentPeriods), ops.calculationText(x.calculation)]
  }

  /** `toString`, appended piece by piece as the generated code does. */
  method ToText(x: OvernightRateSwapLeg, ops: FieldOps) returns (s: string)
    ensures s == Layout(LegPrefix, Entries(FieldTexts(x, ops)))
  {
    var a, b, c := ops.accrualText(x.accrualPeriods), ops.paymentText(x.paymentPeriods), ops.calculationText(x.calculation);
    var buf := "OvernightRateSwapLeg{";
    buf := buf + "accrualPeriods" + ['='] + a + [','] + [' '];
    buf := buf + "paymentPeriods" + ['='] + b + [','] + [' '];
    buf := buf + "calculation" + ['='] + c;
    buf := buf + ['}'];
    s := buf;
    AppendedLayout(LegPrefix, a, b, c);
  }
}
