/**
 * The strategies as the source runs them: each `processUpdate` changes the
 * shipment object in place, and `execute` runs it against the store and
 * appends the record. Each method is proved to follow its function in
 * `Rules`, where the properties of the rules are proved.
 */
module Strategies {
  import opened Optional
  import opened Text
  import opened Model
  import opened Shipments
  import opened Store
  import R = Rules

  /** ShippedStrategy.processUpdate. */
  method ProcessShipped(s: Shipment?, u: UpdateData)
    modifies s
    ensures s != null ==> s.State() == R.Shipped(old(s.State()), u)
  {
    if s == null { return; }
    var newExpectedDelivery := ParseOptLong(u.otherInfo);
    if newExpectedDelivery.None? { return; }
    s.expectedDeliveryDate := newExpectedDelivery;
    s.status := SHIPPED;
    if s.IsViolationRelevant() {
      var message := s.ValidateExpectedDelivery();
      if message.Some? {
        s.RecordViolation(message.value);
      }
    }
  }

  /** LocationStrategy.processUpdate. */
  method ProcessLocation(s: Shipment?, u: UpdateData)
    modifies s
    ensures s != null ==> s.State() == R.Location(old(s.State()), u)
  {
    if s == null { return; }
    s.currentLocation := u.otherInfo;
  }

  /** DelayedStrategy.processUpdate. */
  method ProcessDelayed(s: Shipment?, u: UpdateData)
    modifies s
    ensures s != null ==> s.State() == R.Delayed(old(s.State()), u)
  {
    if s == null { return; }
    s.status := DELAYED;
    s.expectedDeliveryDate := ParseOptLong(u.otherInfo);
  }

  /** DeliveredStrategy.processUpdate. */
  method ProcessDelivered(s: Shipment?, u: UpdateData)
    modifies s
    ensures s != null ==> s.State() == R.Delivered(old(s.State()), u)
  {
    if s == null { return; }
    s.status := DELIVERED;
  }

  /** CanceledStrategy.processUpdate. */
  method ProcessCanceled(s: Shipment?, u: UpdateData)
    modifies s
    ensures s != null ==> s.State() == R.Canceled(old(s.State()), u)
  {
    if s == null { return; }
    s.status := CANCELED;
  }

  /** LostStrategy.processUpdate. */
  method ProcessLost(s: Shipment?, u: UpdateData)
    modifies s
    ensures s != null ==> s.State() == R.Lost(old(s.State()), u)
  {
    if s == null { return; }
    s.status := LOST;
  }

  /** NoteAddedStrategy.processUpdate. */
  method ProcessNoteAdded(s: Shipment?, u: UpdateData)
    modifies s
    ensures s != null ==> s.State() == R.NoteAdded(old(s.State()), u)
  {
    if s == null { return; }
    if u.otherInfo.Some? {
      s.AddNote(u.otherInfo.value);
    }
  }

  /** CreatedStrategy.processUpdate: an existing shipment is left alone;
      otherwise a new one of the chosen variant is built and stored. */
  method ProcessCreated(server: TrackingServer, s: Shipment?, u: UpdateData)
    requires server.Valid()
    modifies server
    ensures server.Valid()
    ensures s != null ==> server.shipments == old(server.shipments)
    ensures s == null ==> server.Contents() == old(server.Contents())[u.shipmentId := R.NewShipment(u)]
    ensures s == null ==> server.shipments.Keys == old(server.shipments.Keys) + {u.shipmentId}
    ensures s == null ==> fresh(server.shipments[u.shipmentId])
    ensures s == null ==> forall id :: id in old(server.shipments) && id != u.shipmentId ==>
              server.shipments[id] == old(server.shipments[id])
  {
    if s != null { return; }
    var kind := R.ChosenType(u.otherInfo);
    var created := CreateShipment(kind, u.shipmentId, CREATED, u.timestamp, None);
    server.AddShipment(created);
  }

  /** `processUpdate` of strategy `k` on an existing shipment. */
  method ProcessUpdate(k: R.Strategy, server: TrackingServer, s: Shipment, u: UpdateData)
    requires server.Valid()
    modifies server, s
    ensures server.shipments == old(server.shipments)
    ensures s.State() == R.ProcessUpdate(k, old(s.State()), u)
  {
    match k
    case CreatedStrategy => ProcessCreated(server, s, u);
    case ShippedStrategy => ProcessShipped(s, u);
    case LocationStrategy => ProcessLocation(s, u);
    case DeliveredStrategy => ProcessDelivered(s, u);
    case DelayedStrategy => ProcessDelayed(s, u);
    case CanceledStrategy => ProcessCanceled(s, u);
    case LostStrategy => ProcessLost(s, u);
    case NoteAddedStrategy => ProcessNoteAdded(s, u);
  }

  /** The part of `execute` after the shipment was found: run the strategy,
      append the record, store the shipment again. Only that shipment's
      state changes, to what `Rules.ExecuteOnExisting` says. */
  method ExecuteOnExisting(k: R.Strategy, server: TrackingServer, s: Shipment, u: UpdateData)
    requires server.Valid() && u.shipmentId in server.shipments && s == server.shipments[u.shipmentId]
    modifies server, s
    ensures server.Valid() && server.shipments == old(server.shipments)
    ensures server.Contents() == old(server.Contents())[u.shipmentId := R.ExecuteOnExisting(k, old(s.State()), u)]
  {
    ProcessAndRecord(k, server, s, u);
    server.UpdateShipment(s);
    assert forall id :: id in server.shipments && id != u.shipmentId ==> server.shipments[id] != s;
  }

  /** Runs the strategy on the shipment and appends the record of the change. */
  method ProcessAndRecord(k: R.Strategy, server: TrackingServer, s: Shipment, u: UpdateData)
    requires server.Valid()
    modifies server, s
    ensures server.shipments == old(server.shipments)
    ensures s.State() == R.ExecuteOnExisting(k, old(s.State()), u)
  {
    var previousStatus := s.status;
    ProcessUpdate(k, server, s, u);
    var record := R.CreateShippingUpdate(s.State(), previousStatus, u);
    s.AddUpdate(record);
  }

  /** `execute` of strategy `k`. `rejected` stands for the exception thrown by
      `validateUpdate`, raised exactly for an invalid event, with nothing
      changed. Every stored object stays stored under its id: an existing
      shipment is updated in place. */
  method Execute(k: R.Strategy, server: TrackingServer, u: UpdateData) returns (rejected: bool)
    requires server.Valid()
    modifies server, server.shipments.Values
    ensures server.Valid()
    ensures rejected <==> !u.IsValid()
    ensures server.Contents() == R.Execute(k, old(server.Contents()), u)
    ensures forall id :: id in old(server.shipments) ==>
              id in server.shipments && server.shipments[id] == old(server.shipments[id])
  {
    if !u.IsValid() {
      return true;
    }
    rejected := false;
    var s := server.GetShipment(u.shipmentId);
    if s == null {
      if k == R.CreatedStrategy {
        ProcessCreated(server, null, u);
      }
      return;
    }
    ExecuteOnExisting(k, server, s, u);
  }
}
