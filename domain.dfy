/** The collaborator value types of a swap leg, kept abstract, and the
    behaviour the leg consumes from them: their own equals, hashCode and
    toString, the date and currency accessors, and the three expansion steps
    (schedule generation, accrual calculation, payment assembly). */
module Domain {
  import opened Wrappers
  import opened JavaInt

  /** The accrual schedule definition (the `accrualPeriods` field). */
  type PeriodicSchedule(==, !new)
  /** The payment schedule definition (the `paymentPeriods` field). */
  type PaymentSchedule(==, !new)
  /** The overnight rate calculation (the `calculation` field). */
  type OvernightRateCalculation(==, !new)

  type LocalDate(==)
  type Currency(==)
  /** What `OvernightRateCalculation.getNotional()` returns. */
  type Notional(==)
  /** The concrete dated schedule that `PeriodicSchedule.createSchedule()` makes. */
  type Schedule(==)
  type RateAccrualPeriod(==)
  type PaymentPeriod(==)
  type NotionalExchange(==)
  /** A runtime exception raised by a collaborator. */
  type RuntimeFailure(==)

  /** The exceptions this core raises or lets through. */
  datatype Error =
    | NullArgument(argument: string)    // a required value was null
    | UnknownProperty(name: string)     // NoSuchElementException("Unknown property: " + name)
    | ClassCast(name: string)           // a generic value of the wrong class for property `name`
    | Unsupported(name: string)         // UnsupportedOperationException("Property cannot be written: " + name)
    | Raised(failure: RuntimeFailure)   // a collaborator's exception, passed on unchanged

  /** Each field type's own `equals`, `hashCode` and `toString`. */
  datatype FieldOps = FieldOps(
    accrualEquals: (PeriodicSchedule, PeriodicSchedule) -> bool,
    paymentEquals: (PaymentSchedule, PaymentSchedule) -> bool,
    calculationEquals: (OvernightRateCalculation, OvernightRateCalculation) -> bool,
    accrualHash: PeriodicSchedule -> int32,
    paymentHash: PaymentSchedule -> int32,
    calculationHash: OvernightRateCalculation -> int32,
    accrualText: PeriodicSchedule -> string,
    paymentText: PaymentSchedule -> string,
    calculationText: OvernightRateCalculation -> string)

  /** The collaborators' methods that the leg calls. */
  datatype Collaborators = Collaborators(
    startDate: PeriodicSchedule -> LocalDate,
    endDate: PeriodicSchedule -> LocalDate,
    notional: OvernightRateCalculation -> Notional,
    currency: Notional -> Currency,
    createSchedule: PeriodicSchedule -> Result<Schedule, RuntimeFailure>,
    createAccrualPeriods: (OvernightRateCalculation, Schedule) -> Result<seq<RateAccrualPeriod>, RuntimeFailure>,
    createPaymentPeriods: (PaymentSchedule, seq<RateAccrualPeriod>, Schedule) -> Result<seq<PaymentPeriod>, RuntimeFailure>,
    noExchange: NotionalExchange)

  /** The resolved leg that `toExpanded` produces. */
  datatype ExpandedSwapLeg = ExpandedSwapLeg(
    paymentPeriods: seq<PaymentPeriod>,
    notionalExchange: NotionalExchange)

  /** `equals` on a field type is an equivalence relation and agrees with its
      `hashCode`, as Java's contract for `Object` asks. */
  ghost predicate LawfulEquality<T(!new)>(eq: (T, T) -> bool, hash: T -> int32) {
    && (forall x :: eq(x, x))
    && (forall x, y :: eq(x, y) ==> eq(y, x))
    && (forall x, y, z :: eq(x, y) && eq(y, z) ==> eq(x, z))
    && (forall x, y :: eq(x, y) ==> hash(x) == hash(y))
  }

  ghost predicate Lawful(ops: FieldOps) {
    && LawfulEquality(ops.accrualEquals, ops.accrualHash)
    && LawfulEquality(ops.paymentEquals, ops.paymentHash)
    && LawfulEquality(ops.calculationEquals, ops.calculationHash)
  }

  /** Null-safe comparison of two non-null field values: the same reference,
      or equal by the type's own `equals`. */
  predicate FieldEqual<T(==)>(a: T, b: T, eq: (T, T) -> bool) {
    a == b || eq(a, b)
  }

  /** Null-safe rendering: "null" for a null reference, else the value's own text. */
  function TextOrNull<T>(o: Option<T>, text: T -> string): string {
    match o
    case None => "null"
    case Some(v) => text(v)
  }
}
