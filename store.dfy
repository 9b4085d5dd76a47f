/**
 * `TrackingServer`: the store of shipments, keyed by id. The shipments are
 * objects; the store hands them out and the strategies update them in place.
 * `Contents()` is the store's value: the state of each stored shipment.
 */
module Store {
  import opened Shipments

  class TrackingServer {
    var shipments: map<string, Shipment>

    /** An empty store. */
    constructor ()
      ensures shipments == map[] && Valid()
    {
      shipments := map[];
    }

    /** Every shipment is stored under its own id. As ids never change, two
        keys never share an object. */
    ghost predicate Valid()
      reads this, shipments.Values
    {
      forall id :: id in shipments ==> shipments[id].id == id
    }

    /** The state of every stored shipment, by id. */
    ghost function Contents(): map<string, ShipmentState>
      reads this, shipments.Values
    {
      map id | id in shipments :: shipments[id].State()
    }

    /** `getShipment`: the object stored under `id`, or null. */
    function GetShipment(id: string): (s: Shipment?)
      reads this, shipments.Values
      ensures s != null <==> id in shipments
      ensures s != null ==> s == shipments[id] && (Valid() ==> s.id == id)
    {
      if id in shipments then shipments[id] else null
    }

    /** `getAllShipments`: every stored shipment, once each, in some order. */
    method GetAllShipments() returns (all: seq<Shipment>)
      requires Valid()
      ensures |all| == |shipments|
      ensures forall s :: s in all <==> s in shipments.Values
      ensures forall i, j :: 0 <= i < j < |all| ==> all[i] != all[j]
    {
      all := [];
      var left := shipments.Keys;
      while left != {}
        invariant left <= shipments.Keys
        invariant |all| + |left| == |shipments|
        invariant forall s :: s in all <==> exists id :: id in shipments.Keys - left && shipments[id] == s
        invariant forall i :: 0 <= i < |all| ==> all[i].id in shipments.Keys - left
        invariant forall i, j :: 0 <= i < j < |all| ==> all[i] != all[j]
        decreases |left|
      {
        var id :| id in left;
        all := all + [shipments[id]];
        left := left - {id};
      }
      assert shipments.Keys - left == shipments.Keys;
    }

    /** `addShipment`: stores the shipment under its id, replacing any shipment
        held there. */
    method AddShipment(shipment: Shipment)
      requires Valid()
      modifies this
      ensures Valid()
      ensures shipments == old(shipments)[shipment.id := shipment]
      ensures Contents() == old(Contents())[shipment.id := shipment.State()]
    {
      shipments := shipments[shipment.id := shipment];
    }

    /** `updateShipment`: stores the shipment under its id again. */
    method UpdateShipment(shipment: Shipment)
      requires Valid()
      modifies this
      ensures Valid()
      ensures shipments == old(shipments)[shipment.id := shipment]
      ensures Contents() == old(Contents())[shipment.id := shipment.State()]
    {
      shipments := shipments[shipment.id := shipment];
    }

    /** `remove`: true exactly when a shipment was stored under `id`, which is
        then gone; every other shipment stays. */
    method Remove(id: string) returns (removed: bool)
      requires Valid()
      modifies this
      ensures Valid()
      ensures removed <==> id in old(shipments)
      ensures shipments == old(shipments) - {id}
      ensures Contents() == old(Contents()) - {id}
    {
      removed := id in shipments;
      shipments := shipments - {id};
    }

    /** `clearAllShipments`: the store is empty. */
    method ClearAllShipments()
      modifies this
      ensures Valid() && shipments == map[] && Contents() == map[]
    {
      shipments := map[];
    }
  }
}
