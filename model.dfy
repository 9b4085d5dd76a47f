/**
 * The value types of the `model` package: the shipment status enumeration,
 * the history record `ShippingUpdate`, the update event `UpdateData` and the
 * wire payload it is built from.
 */
module Model {
  import opened Optional
  import opened Text

  // ---------------------------------------------------------------------------
  // ShipmentStatus
  // ---------------------------------------------------------------------------

  datatype ShipmentStatus = CREATED | SHIPPED | DELIVERED | DELAYED | LOST | CANCELED

  /** `ShipmentStatus.toString()`: the constant's name. */
  function StatusName(s: ShipmentStatus): (name: string)
    ensures |name| > 0
  {
    match s
    case CREATED => "CREATED"
    case SHIPPED => "SHIPPED"
    case DELIVERED => "DELIVERED"
    case DELAYED => "DELAYED"
    case LOST => "LOST"
    case CANCELED => "CANCELED"
  }

  /** Distinct statuses have distinct names, so a history record's status
      strings determine the statuses they were written from. */
  lemma StatusNameInjective(a: ShipmentStatus, b: ShipmentStatus)
    ensures StatusName(a) == StatusName(b) <==> a == b
  {
  }

  // ---------------------------------------------------------------------------
  // ShippingUpdate: one history record (a Kotlin data class, so equality is
  // structural, exactly as for a Dafny datatype)
  // ---------------------------------------------------------------------------

  datatype ShippingUpdate = ShippingUpdate(
    previousStatus: string,
    newStatus: string,
    timestamp: int,
    location: Option<string>,
    notes: Option<string>)

  /** The data-class constructor with its default arguments: empty statuses,
      timestamp 0 and no location or notes. */
  function NewShippingUpdate(previousStatus: string := "", newStatus: string := "", timestamp: int := 0,
                             location: Option<string> := None, notes: Option<string> := None): (u: ShippingUpdate)
    ensures u.previousStatus == previousStatus && u.newStatus == newStatus && u.timestamp == timestamp
    ensures u.location == location && u.notes == notes
  {
    ShippingUpdate(previousStatus, newStatus, timestamp, location, notes)
  }

  /** Omitted arguments take their defaults. */
  lemma ShippingUpdateDefaults(prev: string, next: string, t: int)
    ensures NewShippingUpdate() == ShippingUpdate("", "", 0, None, None)
    ensures NewShippingUpdate(prev, next, t) == ShippingUpdate(prev, next, t, None, None)
  {
  }

  // ---------------------------------------------------------------------------
  // UpdateData: one update event
  // ---------------------------------------------------------------------------

  /** The fields are private in the source and read through getters; here the
      getters `getShipmentId`, `getTimestamp` and `getOtherInfo` are the
      datatype's own destructors, which return the constructor arguments. */
  datatype UpdateData = UpdateData(updateType: string, shipmentId: string, timestamp: int, otherInfo: Option<string>)
  {
    /** `getUpdateType()`: the stored type in its upper-case normal form. */
    function GetUpdateType(): (r: string)
      ensures Uppercase(r) == r
      ensures EqualIgnoringCase(r, updateType)
    {
      UppercaseIdempotent(updateType);
      UppercaseIdentifiesCaseVariants(Uppercase(updateType), updateType);
      Uppercase(updateType)
    }

    /** `isValid()`: a non-blank type, a non-blank shipment id and a positive timestamp. */
    predicate IsValid() {
      !IsBlank(updateType) && !IsBlank(shipmentId) && timestamp > 0
    }
  }

  /** Case variants of one event type report the same type. */
  lemma UpdateTypeCaseInsensitive(u: UpdateData, v: UpdateData)
    requires EqualIgnoringCase(u.updateType, v.updateType)
    ensures u.GetUpdateType() == v.GetUpdateType()
  {
    UppercaseIdentifiesCaseVariants(u.updateType, v.updateType);
  }

  /** Validity read through `trim`: the type and id each keep a character once
      surrounding whitespace is removed, and the timestamp is positive. */
  lemma {:induction false} ValidIffTrimmedFieldsPresent(u: UpdateData)
    ensures u.IsValid() <==> Trim(u.updateType) != [] && Trim(u.shipmentId) != [] && u.timestamp > 0
  {
    TrimEmptyIffBlank(u.updateType);
    TrimEmptyIffBlank(u.shipmentId);
  }

  /** Validity never depends on `otherInfo`. */
  lemma ValidityIgnoresOtherInfo(u: UpdateData, info: Option<string>)
    ensures u.(otherInfo := info).IsValid() == u.IsValid()
  {
  }

  /** The three invalid events of the strategy tests: an empty type, an id of
      three spaces, a zero timestamp. */
  lemma InvalidEvents()
    ensures !UpdateData("", "SHIP123", 1234567890, None).IsValid()
    ensures !UpdateData("SHIPPED", "   ", 1234567890, None).IsValid()
    ensures !UpdateData("SHIPPED", "SHIP123", 0, None).IsValid()
    ensures UpdateData("SHIPPED", "SHIP123", 1234567890, None).IsValid()
  {
    assert !IsWhitespace("SHIP123"[0]);
    assert !IsWhitespace("SHIPPED"[0]);
  }

  // ---------------------------------------------------------------------------
  // ShipmentUpdatePayload: the wire form of an event
  // ---------------------------------------------------------------------------

  datatype ShipmentUpdatePayload = ShipmentUpdatePayload(updateType: string, shipmentId: string, timestamp: int, otherInfo: Option<string>)
}
