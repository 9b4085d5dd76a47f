/**
 * A shipment: the mutable record the store holds and the strategies update in
 * place. `ShipmentState` is its value (the fields at one moment); the class
 * `Shipment` is the object, whose `id`, `variant` and `createdTimestamp` are
 * fixed at construction. `CreateShipment` is `ShipmentFactory.create`.
 */
module Shipments {
  import opened Optional
  import opened Model
  import V = Variants

  /** The fields of a shipment at one moment. `violations` lists the messages
      handed to `recordViolation`, in the order of the calls. */
  datatype ShipmentState = ShipmentState(
    id: string,
    variant: V.ShipmentType,
    createdTimestamp: int,
    status: ShipmentStatus,
    expectedDeliveryDate: Option<int>,
    currentLocation: Option<string>,
    updateHistory: seq<ShippingUpdate>,
    notes: seq<string>,
    violations: seq<string>)

  /** A shipment built from its four leading constructor arguments: no
      location, no history, no notes. */
  function Initial(variant: V.ShipmentType, id: string, status: ShipmentStatus, createdTimestamp: int,
                   expectedDeliveryDate: Option<int>): (st: ShipmentState)
    ensures st.id == id && st.variant == variant && st.status == status
    ensures st.createdTimestamp == createdTimestamp && st.expectedDeliveryDate == expectedDeliveryDate
    ensures st.currentLocation == None && st.updateHistory == [] && st.notes == [] && st.violations == []
  {
    ShipmentState(id, variant, createdTimestamp, status, expectedDeliveryDate, None, [], [], [])
  }

  class Shipment {
    const id: string
    const variant: V.ShipmentType
    const createdTimestamp: int
    var status: ShipmentStatus
    var expectedDeliveryDate: Option<int>
    var currentLocation: Option<string>
    var updateHistory: seq<ShippingUpdate>
    var notes: seq<string>
    var violations: seq<string>

    /** The primary constructor of each variant class, with its defaults. */
    constructor (variant: V.ShipmentType, id: string, status: ShipmentStatus, createdTimestamp: int,
                 expectedDeliveryDate: Option<int> := None, currentLocation: Option<string> := None,
                 updateHistory: seq<ShippingUpdate> := [], notes: seq<string> := [])
      ensures State() == ShipmentState(id, variant, createdTimestamp, status, expectedDeliveryDate,
                                       currentLocation, updateHistory, notes, [])
    {
      this.id := id;
      this.variant := variant;
      this.createdTimestamp := createdTimestamp;
      this.status := status;
      this.expectedDeliveryDate := expectedDeliveryDate;
      this.currentLocation := currentLocation;
      this.updateHistory := updateHistory;
      this.notes := notes;
      this.violations := [];
    }

    /** The shipment's current value. */
    function State(): ShipmentState
      reads this
    {
      ShipmentState(id, variant, createdTimestamp, status, expectedDeliveryDate, currentLocation,
                    updateHistory, notes, violations)
    }

    /** `addUpdate`: appends one record to the history. */
    method AddUpdate(update: ShippingUpdate)
      modifies this
      ensures State() == old(State()).(updateHistory := old(updateHistory) + [update])
    {
      updateHistory := updateHistory + [update];
    }

    /** `addNote`: appends one note. */
    method AddNote(note: string)
      modifies this
      ensures State() == old(State()).(notes := old(notes) + [note])
    {
      notes := notes + [note];
    }

    /** `recordViolation`: its body is not part of this model; the call is
      recorded and nothing else about the shipment changes. */
    method RecordViolation(message: string)
      modifies this
      ensures State() == old(State()).(violations := old(violations) + [message])
    {
      violations := violations + [message];
    }

    /** `validateExpectedDelivery()` of the shipment's variant. */
    function ValidateExpectedDelivery(): Option<string>
      reads this
    {
      V.ValidateExpectedDelivery(variant, createdTimestamp, expectedDeliveryDate)
    }

    /** `isViolationRelevant()` of the shipment's variant. */
    function IsViolationRelevant(): bool
      reads this
    {
      V.IsViolationRelevant(variant, status)
    }
  }

  /** `ShipmentFactory.create`: a new object of the variant named by `kind`,
      built from the four given fields alone. */
  method CreateShipment(kind: V.ShipmentType, id: string, status: ShipmentStatus, createdTimestamp: int,
                        expectedDeliveryDate: Option<int>) returns (s: Shipment)
    ensures fresh(s)
    ensures s.State() == Initial(kind, id, status, createdTimestamp, expectedDeliveryDate)
  {
    s := new Shipment(kind, id, status, createdTimestamp, expectedDeliveryDate);
  }
}
