# OvernightRateSwapLeg, modelled in Dafny

`OvernightRateSwapLeg` is a generated Joda-Beans immutable value type for one
leg of an interest-rate swap that pays an overnight rate. This project models
the leg's three required fields (`accrualPeriods`, `paymentPeriods`,
`calculation`) and the parts of the type built around them:

- the validated private constructor;
- structural `equals`;
- the generated `hashCode` in Java `int` arithmetic;
- the `OvernightRateSwapLeg{...}` rendering;
- the start date, end date and currency accessors, which delegate to the fields;
- `toExpanded`, which expands the leg through its three collaborators;
- the meta-bean's lookup by name and its generic read and write;
- the mutable `Builder`, with its typed and generic setters, `get`,
  `setString`, `build` and `toString`.

Layout, one module per component:

| file | module | what it holds |
|---|---|---|
| wrappers.dfy | Wrappers | Option (a Java reference that may be null), Result, Outcome |
| java_int.dfy | JavaInt | `int32`, Java's wrap-around `+` and `*`, and congruence lemmas |
| domain.dfy | Domain | the collaborator types, kept abstract; `Error`; their `equals`/`hashCode`/`toString` (`FieldOps`) and the methods the leg calls (`Collaborators`) |
| properties.dfy | LegProperties | the three properties, their names, the name lookup, the generic `Object` (`PropertyValue`) |
| services.dfy | BeanServices | the hash combination and the `Type{name=value, ...}` layout, defined over the ordered property list |
| swap_leg.dfy | SwapLeg | the leg datatype and its operations |
| meta_bean.dfy | MetaBean | `propertyGet` / `propertySet` on a finished leg |
| builder.dfy | SwapLegBuilder | the `Builder` class, `builder()`, `toBuilder()`, and properties that span several calls |

Modelling choices:

- **Null.** A Java null is `None`. A leg's fields are never null, so the
  datatype holds plain values. The builder's slots and the setters'
  arguments are `Option`s.
- **Generic values.** The `Object` of the generic accessors is
  `PropertyValue`. It is null, a value of one of the three field types, or an
  object of another class. A value of the wrong class fails the cast in
  `set` with `ClassCast`, and no slot changes.
- **Exceptions.** Exceptions are `Error` values in a `Result` or
  `Outcome`. A collaborator's runtime exception (`RuntimeFailure`) reaches the
  caller unchanged, wrapped as `Raised`.
- **Collaborators.** The collaborators' own `equals`, `hashCode`,
  `toString` and methods are function-valued parameters. They are not
  interpreted.
- **Class hash.** `getClass().hashCode()` is an identity hash chosen by the
  JVM, so it is the parameter `classHash`.
- **Immutability.** A leg is a Dafny datatype value, so nothing can change it
  after construction. This models its `final` fields. A later change to a
  builder therefore cannot reach a leg it built (`BuildIsSnapshot`).
- **Library behaviour.** Several helpers belong to the Joda-Beans library and
  are not part of this model. They are modelled by their documented contracts:
  - `JodaBeanUtils.notNull` fails with `NullArgument(name)`;
  - `JodaBeanUtils.equal` is true for the same reference, otherwise it uses the field's `equals`;
  - `JodaBeanUtils.toString` gives "null" for null;
  - `DirectMetaBean.metaProperty` fails with `UnknownProperty` on an unknown name;
  - `DirectMetaBean.propertyGet` gives null for an unknown name in quiet mode and `UnknownProperty` otherwise.

Three behaviours of the code worth stating:

- **Builder rendering.** An empty builder slot renders as `null`; there is no
  separate "unset" marker.
- **Hash stability.** The hash starts from `getClass().hashCode()`, an
  identity hash, so its value can differ from one JVM run to the next.
- **Typing in generic sets.** Passing a value of the wrong class to the
  generic `set` fails at the Java cast, and no slot changes.

## Model

| member | source | states |
|---|---|---|
| JavaInt.Wrap | modules/finance/src/main/java/com/opengamma/platform/finance/swap/OvernightRateSwapLeg.java:255-260 | the Java `int` an overflowing result becomes: congruent to it modulo 2^32, and equal to it when it fits |
| JavaInt.HashStep | modules/finance/src/main/java/com/opengamma/platform/finance/swap/OvernightRateSwapLeg.java:257-259 | one generated step `hash += hash * 31 + h` in wrapping `int`s equals `hash * 32 + h` modulo 2^32 |
| BeanServices.HashFoldIsPolynomial | modules/finance/src/main/java/com/opengamma/platform/finance/swap/OvernightRateSwapLeg.java:254-261 | folding field hashes step by step equals the exact base-32 polynomial of the seed and the hashes, reduced mod 2^32 |
| BeanServices.HashFoldOfThree | modules/finance/src/main/java/com/opengamma/platform/finance/swap/OvernightRateSwapLeg.java:254-261 | for three fields the hash is `seed*32^3 + h1*32^2 + h2*32 + h3` modulo 2^32 |
| BeanServices.HashFoldIsOrderSensitive | modules/finance/src/main/java/com/opengamma/platform/finance/swap/OvernightRateSwapLeg.java:256-259 | swapping the first two field hashes changes the result whenever they differ by less than 2^21 |
| BeanServices.LayoutOfDeclared | modules/finance/src/main/java/com/opengamma/platform/finance/swap/OvernightRateSwapLeg.java:264-271 | the rendering lists properties by name, in declaration order: `prefix accrualPeriods=a, paymentPeriods=b, calculation=c}` |
| BeanServices.AppendedLayout | modules/finance/src/main/java/com/opengamma/platform/finance/swap/OvernightRateSwapLeg.java:265-270 | the pieces appended one `append` at a time (name, '=', text, ',', ' ', …, '}') form exactly that layout |
| LegProperties.MetaPropertyGet | modules/finance/src/main/java/com/opengamma/platform/finance/swap/OvernightRateSwapLeg.java:315-325 | a name resolves to a property iff it is that property's name, so unknown names resolve to nothing |
| LegProperties.MetaProperty | modules/finance/src/main/java/com/opengamma/platform/finance/swap/OvernightRateSwapLeg.java:383 | the resolving lookup fails with an unknown-property error exactly when no property has the name |
| LegProperties.PropertyNames | modules/finance/src/main/java/com/opengamma/platform/finance/swap/OvernightRateSwapLeg.java:302-306 | the meta-property map keys: three distinct names, each resolving to the property declared at the same position |
| LegProperties.DeclaredIsComplete | modules/finance/src/main/java/com/opengamma/platform/finance/swap/OvernightRateSwapLeg.java:302-306 | every property occurs in the declaration order exactly once |
| SwapLeg.Create | modules/finance/src/main/java/com/opengamma/platform/finance/swap/OvernightRateSwapLeg.java:166-176 | construction succeeds iff no argument is null, the leg's getters then return the arguments, and a failure names the first null argument in declaration order |
| SwapLeg.CreateFromFields | modules/finance/src/main/java/com/opengamma/platform/finance/swap/OvernightRateSwapLeg.java:166-176 | constructing from a leg's own fields gives back that leg |
| SwapLeg.StartDateReadsSchedule | modules/finance/src/main/java/com/opengamma/platform/finance/swap/OvernightRateSwapLeg.java:101-103 | the start date is the accrual schedule's start date, so it depends on that schedule alone |
| SwapLeg.EndDateReadsSchedule | modules/finance/src/main/java/com/opengamma/platform/finance/swap/OvernightRateSwapLeg.java:114-116 | the end date is the accrual schedule's end date, so it depends on that schedule alone |
| SwapLeg.CurrencyReadsNotional | modules/finance/src/main/java/com/opengamma/platform/finance/swap/OvernightRateSwapLeg.java:124-126 | the currency is that of the calculation's notional, so it depends on the calculation alone |
| SwapLeg.ToExpanded | modules/finance/src/main/java/com/opengamma/platform/finance/swap/OvernightRateSwapLeg.java:134-142 | expansion is payment assembly over the accrual periods of the created schedule, carries the no-exchange marker, and fails with the first collaborator's exception unchanged |
| SwapLeg.ExpansionExample | modules/finance/src/main/java/com/opengamma/platform/finance/swap/OvernightRateSwapLeg.java:135-141 | with a payment step that maps each accrual record to one payment period, two accrual records expand to exactly two payment periods in order, with the no-exchange marker |
| SwapLeg.ExpansionFailsFast | modules/finance/src/main/java/com/opengamma/platform/finance/swap/OvernightRateSwapLeg.java:135-137 | once schedule creation fails, the later collaborators do not affect the outcome |
| SwapLeg.Equals | modules/finance/src/main/java/com/opengamma/platform/finance/swap/OvernightRateSwapLeg.java:241-252 | true for the same reference, false for null or an object of another class, and for another leg true iff its three fields are pairwise equal (same reference or the field's `equals`) |
| SwapLeg.EqualsReflexive | modules/finance/src/main/java/com/opengamma/platform/finance/swap/OvernightRateSwapLeg.java:241-252 | a leg equals itself (by reference and as another instance with the same fields) and never equals null or another class |
| SwapLeg.EqualsSymmetric | modules/finance/src/main/java/com/opengamma/platform/finance/swap/OvernightRateSwapLeg.java:245-249 | with lawful field equality, equality is symmetric |
| SwapLeg.EqualsTransitive | modules/finance/src/main/java/com/opengamma/platform/finance/swap/OvernightRateSwapLeg.java:245-249 | with lawful field equality, equality is transitive |
| SwapLeg.EqualsAgreesWithHash | modules/finance/src/main/java/com/opengamma/platform/finance/swap/OvernightRateSwapLeg.java:241-261 | equal legs have equal hash codes when each field's hash agrees with its equality |
| SwapLeg.HashCode | modules/finance/src/main/java/com/opengamma/platform/finance/swap/OvernightRateSwapLeg.java:254-261 | the three in-place updates of `hash` compute the fold of the field hashes in declaration order, i.e. `classHash*32768 + hA*1024 + hP*32 + hC` modulo 2^32 |
| SwapLeg.ToText | modules/finance/src/main/java/com/opengamma/platform/finance/swap/OvernightRateSwapLeg.java:263-272 | the appended text is the layout `OvernightRateSwapLeg{accrualPeriods=…, paymentPeriods=…, calculation=…}` |
| MetaBean.PropertyGet | modules/finance/src/main/java/com/opengamma/platform/finance/swap/OvernightRateSwapLeg.java:368-379 | each known name reads its getter's value; an unknown name is null in quiet mode and an unknown-property error otherwise |
| MetaBean.PropertyGetInOrder | modules/finance/src/main/java/com/opengamma/platform/finance/swap/OvernightRateSwapLeg.java:369-377 | reading the declared names in order yields the three fields in order, never null |
| MetaBean.PropertySet | modules/finance/src/main/java/com/opengamma/platform/finance/swap/OvernightRateSwapLeg.java:381-388 | the name is resolved first (unknown-property error), then the write is silently ignored if quiet and refused as unsupported otherwise |
| MetaBean.PropertySetNeverWrites | modules/finance/src/main/java/com/opengamma/platform/finance/swap/OvernightRateSwapLeg.java:381-388 | a non-quiet write always fails, only a quiet write to a known name passes, and neither the leg nor the value matters |
| SwapLegBuilder.Builder.constructor | modules/finance/src/main/java/com/opengamma/platform/finance/swap/OvernightRateSwapLeg.java:405-406 | a new builder has all three slots null |
| SwapLegBuilder.Builder.Copy | modules/finance/src/main/java/com/opengamma/platform/finance/swap/OvernightRateSwapLeg.java:412-416 | the copy constructor snapshots each of the leg's fields into its slot |
| SwapLegBuilder.Builder.Get | modules/finance/src/main/java/com/opengamma/platform/finance/swap/OvernightRateSwapLeg.java:419-431 | a known name reads its slot (null if empty), an unknown one fails with an unknown-property error |
| SwapLegBuilder.Builder.Set | modules/finance/src/main/java/com/opengamma/platform/finance/swap/OvernightRateSwapLeg.java:433-449 | a known name with a value that casts updates exactly that slot and returns the same builder; a failed cast or unknown name changes nothing |
| SwapLegBuilder.Builder.SetString | modules/finance/src/main/java/com/opengamma/platform/finance/swap/OvernightRateSwapLeg.java:457-461 | resolves the name, then converts the text; an unknown name, a conversion error or a failed cast changes nothing, otherwise the converted value is set as by `set` |
| SwapLegBuilder.Builder.SetAccrualPeriods | modules/finance/src/main/java/com/opengamma/platform/finance/swap/OvernightRateSwapLeg.java:489-493 | rejects null leaving the builder unchanged, otherwise sets only the accrual slot |
| SwapLegBuilder.Builder.SetPaymentPeriods | modules/finance/src/main/java/com/opengamma/platform/finance/swap/OvernightRateSwapLeg.java:500-504 | rejects null leaving the builder unchanged, otherwise sets only the payment slot |
| SwapLegBuilder.Builder.SetCalculation | modules/finance/src/main/java/com/opengamma/platform/finance/swap/OvernightRateSwapLeg.java:511-515 | rejects null leaving the builder unchanged, otherwise sets only the calculation slot |
| SwapLegBuilder.Builder.Build | modules/finance/src/main/java/com/opengamma/platform/finance/swap/OvernightRateSwapLeg.java:475-481 | fails iff some slot is null, naming the first null slot in declaration order; otherwise the leg's fields are the slots |
| SwapLegBuilder.Builder.ToText | modules/finance/src/main/java/com/opengamma/platform/finance/swap/OvernightRateSwapLeg.java:518-527 | the appended text is the layout under the prefix `OvernightRateSwapLeg.Builder{`, empty slots as "null" |
| SwapLegBuilder.NewBuilder | modules/finance/src/main/java/com/opengamma/platform/finance/swap/OvernightRateSwapLeg.java:162-164 | `builder()` gives a fresh builder with every slot null |
| SwapLegBuilder.ToBuilder | modules/finance/src/main/java/com/opengamma/platform/finance/swap/OvernightRateSwapLeg.java:236-238 | `toBuilder()` gives a fresh builder whose slots read like the leg's getters |
| SwapLegBuilder.RoundTrip | modules/finance/src/main/java/com/opengamma/platform/finance/swap/OvernightRateSwapLeg.java:236-238 | `x.toBuilder().build()` gives back `x` |
| SwapLegBuilder.BuildIsSnapshot | modules/finance/src/main/java/com/opengamma/platform/finance/swap/OvernightRateSwapLeg.java:173-175 | a leg built before a setter call is unaffected by it; the next build reflects it |
| SwapLegBuilder.SetThenGet | modules/finance/src/main/java/com/opengamma/platform/finance/swap/OvernightRateSwapLeg.java:420-449 | on any builder, the generic `get` after the generic `set` reads back the stored value; after a failed cast it reads the slot's earlier value; an unknown name fails with an unknown-property error |
| SwapLegBuilder.ClearThenBuild | modules/finance/src/main/java/com/opengamma/platform/finance/swap/OvernightRateSwapLeg.java:434-448 | storing null through the generic `set` into one slot of a copy makes `build()` fail naming exactly that property |
| SwapLegBuilder.CopyReadsLikeMeta | modules/finance/src/main/java/com/opengamma/platform/finance/swap/OvernightRateSwapLeg.java:412-431 | a copy builder's `get` answers exactly as the meta-bean's `propertyGet` on the leg |
| SwapLegBuilder.CopyRendersLikeLeg | modules/finance/src/main/java/com/opengamma/platform/finance/swap/OvernightRateSwapLeg.java:519-527 | a copy builder renders the leg's text under its own prefix, so the two renderings never coincide |

## Left out

- Name dispatch: the source switches on `String.hashCode()`, so any string whose hash collides with a property name is accepted too. The model matches exact names.
- `set(MetaProperty, Object)`, `setString(MetaProperty, String)` and `setAll(Map)`: these delegate to the Joda-Beans base builder, which is not part of this model.
- `setString` conversion: the string-to-value conversion is the parameter `parse`; Joda's converters are not part of this model.
- `meta()`, `metaBean()`, `Meta.builder()`, `beanType()`, `property(name)` and the meta-property accessors: these return library objects (meta-beans and property handles) with no behaviour stated in this file.
- Static registration of the meta-bean and the singleton initialisation: class loading, no observable behaviour.
- `Serializable` and `serialVersionUID`: persistence.
- Schedule generation, accrual calculation and payment assembly: uninterpreted collaborators. Their date and day-count logic is in other files.
- `ExpandedSwapLeg.builder()...build()`: its own validation is not part of this model. The expanded leg is a datatype of the payment periods and the notional exchange.
- SwapLegBuilder.Builder.Get, SwapLegBuilder.Builder.Set, SwapLegBuilder.Builder.SetString, MetaBean.PropertyGet, MetaBean.PropertySet: a null property name (a `NullPointerException` from `propertyName.hashCode()` at lines 316, 370, 421 and 435, and through `metaProperty` at lines 383 and 459) is not modelled, because names are `string`s; nor is a `propertyGet` on a bean of another class (the `ClassCastException` at lines 372-376), because the bean parameter is a leg.
- Exception messages: an `Error` carries the offending name, not the message text.
