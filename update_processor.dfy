/**
 * `UpdateProcessor`: turns a payload into an event, finds the strategy for
 * its type and executes it; a missing strategy or a rejected event changes
 * nothing (the source logs and carries on).
 */
module UpdateProcessing {
  import opened Optional
  import opened Model
  import opened Store
  import R = Rules
  import SF = StrategyFactory
  import Strategies

  /** The event built from a payload, field for field. */
  function ToUpdateData(p: ShipmentUpdatePayload): (u: UpdateData)
    ensures u.updateType == p.updateType && u.shipmentId == p.shipmentId
    ensures u.timestamp == p.timestamp && u.otherInfo == p.otherInfo
  {
    UpdateData(p.updateType, p.shipmentId, p.timestamp, p.otherInfo)
  }

  /** What `process` does to the store's value. */
  function Processed(store: map<string, Shipments.ShipmentState>, p: ShipmentUpdatePayload): map<string, Shipments.ShipmentState> {
    var u := ToUpdateData(p);
    match SF.Create(u.GetUpdateType())
    case None => store
    case Some(k) => R.Execute(k, store, u)
  }

  /** `process`. */
  method Process(server: TrackingServer, payload: ShipmentUpdatePayload)
    requires server.Valid()
    modifies server, server.shipments.Values
    ensures server.Valid()
    ensures server.Contents() == Processed(old(server.Contents()), payload)
  {
    var u := ToUpdateData(payload);
    var strategy := SF.Create(u.GetUpdateType());
    if strategy.Some? {
      var rejected := Strategies.Execute(strategy.value, server, u);
    }
  }

  /** A payload whose type names no strategy, or whose fields are not all
      present, leaves the store as it was. */
  lemma IgnoredPayloads(store: map<string, Shipments.ShipmentState>, p: ShipmentUpdatePayload)
    ensures (forall k :: !Text.EqualIgnoringCase(p.updateType, SF.Name(k))) ==> Processed(store, p) == store
    ensures !ToUpdateData(p).IsValid() ==> Processed(store, p) == store
  {
    var u := ToUpdateData(p);
    if SF.Create(u.GetUpdateType()).Some? {
      var k := SF.Create(u.GetUpdateType()).value;
      Text.UppercaseIdentifiesCaseVariants(p.updateType, u.GetUpdateType());
      Text.UppercaseIdempotent(p.updateType);
      Text.UppercaseIdentifiesCaseVariants(u.GetUpdateType(), SF.Name(k));
      Text.UppercaseIdentifiesCaseVariants(p.updateType, SF.Name(k));
    }
  }

  /** A payload whose type is a strategy's name, in any letter case, acts as
      that strategy's `execute`. */
  lemma PayloadRunsNamedStrategy(store: map<string, Shipments.ShipmentState>, p: ShipmentUpdatePayload, k: R.Strategy)
    requires Text.EqualIgnoringCase(p.updateType, SF.Name(k))
    ensures Processed(store, p) == R.Execute(k, store, ToUpdateData(p))
  {
    var u := ToUpdateData(p);
    Text.UppercaseIdempotent(p.updateType);
    Text.UppercaseIdentifiesCaseVariants(p.updateType, SF.Name(k));
    Text.UppercaseIdentifiesCaseVariants(u.GetUpdateType(), p.updateType);
    SF.CreateFindsEveryStrategy(k, u.GetUpdateType());
  }

  /** A CREATED payload, in any letter case, for an id not yet stored and with
      all fields present, stores a new CREATED shipment of the variant named
      by `otherInfo` and touches nothing else. */
  lemma CreatedPayloadAddsShipment(store: map<string, Shipments.ShipmentState>, p: ShipmentUpdatePayload)
    requires Text.EqualIgnoringCase(p.updateType, "CREATED")
    requires ToUpdateData(p).IsValid() && p.shipmentId !in store
    ensures var after := Processed(store, p);
      && after.Keys == store.Keys + {p.shipmentId}
      && after[p.shipmentId].status == Model.CREATED
      && after[p.shipmentId].createdTimestamp == p.timestamp
      && after[p.shipmentId].variant == R.ChosenType(p.otherInfo)
      && forall id :: id in store ==> after[id] == store[id]
  {
    PayloadRunsNamedStrategy(store, p, R.CreatedStrategy);
  }
}
