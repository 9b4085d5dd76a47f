/**
 * The four shipment variants (`StandardShipment`, `ExpressShipment`,
 * `OvernightShipment`, `BulkShipment`) and the `ShipmentType` enumeration that
 * names them. A variant only decides the delivery-plausibility rule
 * (`validateExpectedDelivery`) and when that rule is consulted
 * (`isViolationRelevant`); both are functions of the shipment's fields.
 */
module Variants {
  import opened Optional
  import opened Text
  import opened Model

  datatype ShipmentType = STANDARD | EXPRESS | OVERNIGHT | BULK

  /** The name of each enumeration constant. */
  function TypeName(t: ShipmentType): (name: string)
    ensures |name| > 0
  {
    match t
    case STANDARD => "STANDARD"
    case EXPRESS => "EXPRESS"
    case OVERNIGHT => "OVERNIGHT"
    case BULK => "BULK"
  }

  /** `ShipmentType.valueOf(name)`: the constant with exactly that name; `None`
      stands for the `IllegalArgumentException` thrown for any other string. */
  function TypeFromName(name: string): (t: Option<ShipmentType>)
    ensures t.Some? ==> TypeName(t.value) == name
  {
    if name == "STANDARD" then Some(STANDARD)
    else if name == "EXPRESS" then Some(EXPRESS)
    else if name == "OVERNIGHT" then Some(OVERNIGHT)
    else if name == "BULK" then Some(BULK)
    else None
  }

  /** Every constant is found under its own name, so the enumeration has
      exactly the four constants and `valueOf` inverts `name`. */
  lemma TypeNameRoundTrip(t: ShipmentType)
    ensures TypeFromName(TypeName(t)) == Some(t)
  {
  }

  // ---------------------------------------------------------------------------
  // Delivery plausibility
  // ---------------------------------------------------------------------------

  /** `TimeUnit.DAYS.toMillis(1)` and `toMillis(3)`. */
  const ONE_DAY_MS: int := 86_400_000
  const THREE_DAYS_MS: int := 259_200_000

  /** The latest delivery a variant promises, as a delay after creation. */
  function MaxDelay(t: ShipmentType): Option<int> {
    match t
    case EXPRESS => Some(THREE_DAYS_MS)
    case OVERNIGHT => Some(ONE_DAY_MS)
    case _ => None
  }

  /** The earliest delivery a variant allows, as a delay after creation. */
  function MinDelay(t: ShipmentType): Option<int> {
    match t
    case BULK => Some(THREE_DAYS_MS)
    case _ => None
  }

  /** A delivery time inside the variant's window, both ends included. */
  predicate WithinPromise(t: ShipmentType, created: int, delivery: int) {
    && (MinDelay(t).Some? ==> created + MinDelay(t).value <= delivery)
    && (MaxDelay(t).Some? ==> delivery <= created + MaxDelay(t).value)
  }

  /** The message each variant reports, assembled from its parts: Express
      "An express shipment ... more than 3 days ...", Overnight
      "An overnight shipment ... later than 24 hours ...", Bulk
      "A bulk shipment ... fewer than 3 days ...". Standard shipments never
      report one, so Standard has no message. */
  function ViolationMessage(t: ShipmentType): string
    requires t != STANDARD
  {
    Article(t) + " " + Subject(t) + " was updated to include a delivery date " + Bound(t) + " after it was created."
  }

  function Article(t: ShipmentType): string {
    if t == BULK then "A" else "An"
  }

  function Subject(t: ShipmentType): string {
    match t
    case STANDARD => "standard shipment"
    case EXPRESS => "express shipment"
    case OVERNIGHT => "overnight shipment"
    case BULK => "bulk shipment"
  }

  function Bound(t: ShipmentType): string
    requires t != STANDARD
  {
    match t
    case EXPRESS => "more than 3 days"
    case OVERNIGHT => "later than 24 hours"
    case BULK => "fewer than 3 days"
  }

  /** Every message names its variant. */
  lemma MessageNamesVariant(t: ShipmentType)
    requires t != STANDARD
    ensures Contains(ViolationMessage(t), Subject(t))
  {
    var head := Article(t) + " ";
    var subject := Subject(t);
    var middle := " was updated to include a delivery date ";
    var bound := Bound(t);
    ContainsAtEnd(head, subject);
    ContainsExtended(head + subject, middle, subject);
    ContainsExtended(head + subject + middle, bound, subject);
    ContainsExtended(head + subject + middle + bound, " after it was created.", subject);
  }

  /** `validateExpectedDelivery()`: a message when an expected delivery is set
      and lies outside the variant's window, otherwise `None`. Standard never
      complains; Express and Overnight complain about a late date, Bulk about
      an early one. */
  function ValidateExpectedDelivery(t: ShipmentType, created: int, expected: Option<int>): (msg: Option<string>)
    ensures msg.Some? <==> expected.Some? && !WithinPromise(t, created, expected.value)
    ensures msg.Some? ==> msg.value == ViolationMessage(t)
  {
    match t
    case STANDARD => None
    case EXPRESS =>
      if expected.Some? && expected.value > created + THREE_DAYS_MS then Some(ViolationMessage(t)) else None
    case OVERNIGHT =>
      if expected.Some? && expected.value > created + ONE_DAY_MS then Some(ViolationMessage(t)) else None
    case BULK =>
      if expected.Some? && expected.value < created + THREE_DAYS_MS then Some(ViolationMessage(t)) else None
  }

  /** `isViolationRelevant()`: never for Standard; for the other variants
      whenever the status is not DELAYED. */
  function IsViolationRelevant(t: ShipmentType, status: ShipmentStatus): (relevant: bool)
    ensures relevant ==> t != STANDARD
    ensures t != STANDARD ==> (relevant <==> status != DELAYED)
  {
    match t
    case STANDARD => false
    case _ => status != DELAYED
  }

  /** Standard shipments never report a violation and never consider one
      relevant, whatever their dates and status. */
  lemma StandardNeverViolates(created: int, expected: Option<int>, status: ShipmentStatus)
    ensures ValidateExpectedDelivery(STANDARD, created, expected).None?
    ensures !IsViolationRelevant(STANDARD, status)
  {
  }

  /** Without an expected delivery no variant reports a violation. */
  lemma NoDateNoViolation(t: ShipmentType, created: int)
    ensures ValidateExpectedDelivery(t, created, None).None?
  {
  }

  /** Express: exactly three days after creation is accepted, four days is
      reported with a message that mentions an express shipment. */
  lemma ExpressBoundary(created: int)
    ensures ValidateExpectedDelivery(EXPRESS, created, Some(created + THREE_DAYS_MS)).None?
    ensures var m := ValidateExpectedDelivery(EXPRESS, created, Some(created + 4 * ONE_DAY_MS));
      m.Some? && Contains(m.value, "express shipment")
  {
    MessageNamesVariant(EXPRESS);
  }

  /** Overnight: exactly one day after creation is accepted, two days is
      reported with a message that mentions an overnight shipment. */
  lemma OvernightBoundary(created: int)
    ensures ValidateExpectedDelivery(OVERNIGHT, created, Some(created + ONE_DAY_MS)).None?
    ensures var m := ValidateExpectedDelivery(OVERNIGHT, created, Some(created + 2 * ONE_DAY_MS));
      m.Some? && Contains(m.value, "overnight shipment")
  {
    MessageNamesVariant(OVERNIGHT);
  }

  /** Bulk: exactly three days after creation is accepted, two days is too
      soon and reported with a message that mentions a bulk shipment. */
  lemma BulkBoundary(created: int)
    ensures ValidateExpectedDelivery(BULK, created, Some(created + THREE_DAYS_MS)).None?
    ensures var m := ValidateExpectedDelivery(BULK, created, Some(created + 2 * ONE_DAY_MS));
      m.Some? && Contains(m.value, "bulk shipment")
  {
    MessageNamesVariant(BULK);
  }
}
