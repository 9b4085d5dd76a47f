/**
 * `ConnectionManager`: which shipment ids each connected client session
 * tracks, and the fan-out of a changed shipment to the sessions tracking it.
 * A session is an object; what the server sends it is kept as the sequence
 * of shipment states it received (the JSON encoding is not modelled).
 */
module Hub {
  import opened Shipments

  /** A client session; `frames` are the shipment snapshots sent to it. */
  class Session {
    var frames: seq<ShipmentState>

    constructor ()
      ensures frames == []
    {
      frames := [];
    }

    /** `send`: one more frame. */
    method Send(frame: ShipmentState)
      modifies this
      ensures frames == old(frames) + [frame]
    {
      frames := frames + [frame];
    }
  }

  type Connections = map<Session, set<string>>

  /** `onJoin`: the session starts with no tracked ids, whatever it had. */
  function Joined(c: Connections, s: Session): (r: Connections)
    ensures r.Keys == c.Keys + {s} && r[s] == {}
    ensures forall t :: t in c && t != s ==> r[t] == c[t]
  {
    c[s := {}]
  }

  /** `onLeave`: the session is forgotten. */
  function Left(c: Connections, s: Session): (r: Connections)
    ensures r.Keys == c.Keys - {s}
    ensures forall t :: t in c && t != s ==> r[t] == c[t]
  {
    c - {s}
  }

  /** `subscribe`: adds the id for a joined session; ignored otherwise. */
  function Subscribed(c: Connections, s: Session, id: string): (r: Connections)
    ensures r.Keys == c.Keys
    ensures s in c ==> r[s] == c[s] + {id}
    ensures forall t :: t in c && t != s ==> r[t] == c[t]
  {
    if s in c then c[s := c[s] + {id}] else c
  }

  /** `unsubscribe`: removes the id for a joined session; ignored otherwise. */
  function Unsubscribed(c: Connections, s: Session, id: string): (r: Connections)
    ensures r.Keys == c.Keys
    ensures s in c ==> r[s] == c[s] - {id}
    ensures forall t :: t in c && t != s ==> r[t] == c[t]
  {
    if s in c then c[s := c[s] - {id}] else c
  }

  /** The sessions a change of shipment `id` is sent to. */
  function Recipients(c: Connections, id: string): set<Session> {
    set s | s in c && id in c[s]
  }

  /** After subscribing, a joined session receives the id's changes; a session
      that has not joined stays unknown and receives nothing. Subscribing
      twice is subscribing once. */
  lemma SubscribeMakesRecipient(c: Connections, s: Session, id: string)
    ensures s in c ==> s in Recipients(Subscribed(c, s, id), id)
    ensures s !in c ==> Subscribed(c, s, id) == c && s !in Recipients(c, id)
    ensures Subscribed(Subscribed(c, s, id), s, id) == Subscribed(c, s, id)
  {
  }

  /** After unsubscribing, a session no longer receives the id's changes, and
      every other session receives exactly what it did before. */
  lemma UnsubscribeStopsDelivery(c: Connections, s: Session, id: string)
    ensures s !in Recipients(Unsubscribed(c, s, id), id)
    ensures Recipients(Unsubscribed(c, s, id), id) == Recipients(c, id) - {s}
  {
  }

  /** Subscribing to one id does not change who receives another id. */
  lemma SubscribeOnlyThatId(c: Connections, s: Session, id: string, other: string)
    requires other != id
    ensures Recipients(Subscribed(c, s, id), other) == Recipients(c, other)
  {
    var r := Subscribed(c, s, id);
    forall t | t in r ensures (other in r[t]) <==> (other in c[t]) {
    }
  }

  /** Joining again drops the session's subscriptions; a session that left
      receives nothing. */
  lemma RejoinAndLeaveStopDelivery(c: Connections, s: Session, id: string)
    ensures s !in Recipients(Joined(c, s), id)
    ensures s !in Recipients(Left(c, s), id)
    ensures Recipients(Left(c, s), id) == Recipients(c, id) - {s}
  {
  }

  class ConnectionManager {
    var connections: Connections

    constructor ()
      ensures connections == map[]
    {
      connections := map[];
    }

    /** `onJoin`. */
    method OnJoin(session: Session)
      modifies this
      ensures connections == Joined(old(connections), session)
    {
      connections := connections[session := {}];
    }

    /** `onLeave`. */
    method OnLeave(session: Session)
      modifies this
      ensures connections == Left(old(connections), session)
    {
      connections := connections - {session};
    }

    /** `subscribe`. */
    method Subscribe(session: Session, shipmentId: string)
      modifies this
      ensures connections == Subscribed(old(connections), session, shipmentId)
    {
      if session in connections {
        connections := connections[session := connections[session] + {shipmentId}];
      }
    }

    /** `unsubscribe`. */
    method Unsubscribe(session: Session, shipmentId: string)
      modifies this
      ensures connections == Unsubscribed(old(connections), session, shipmentId)
    {
      if session in connections {
        connections := connections[session := connections[session] - {shipmentId}];
      }
    }

    /** `notifyShipmentUpdated`: the shipment's current state goes, once, to
      every session tracking its id, and to no other. */
    method NotifyShipmentUpdated(shipment: Shipment)
      modifies connections.Keys
      ensures forall s :: s in connections ==>
        s.frames == old(s.frames) + (if s in Recipients(connections, shipment.id) then [shipment.State()] else [])
    {
      var snapshot := shipment.State();
      var left := connections.Keys;
      while left != {}
        invariant left <= connections.Keys
        invariant shipment.State() == snapshot
        invariant forall s :: s in connections && s !in left ==>
          s.frames == old(s.frames) + (if s in Recipients(connections, shipment.id) then [snapshot] else [])
        invariant forall s :: s in left ==> s.frames == old(s.frames)
        decreases |left|
      {
        var s :| s in left;
        if shipment.id in connections[s] {
          s.Send(snapshot);
        }
        left := left - {s};
      }
    }
  }
}
