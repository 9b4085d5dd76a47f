/**
 * `client/TrackerViewHelper`: the client's map of tracked shipments, keyed by
 * id, and the guarded rules by which fetched and pushed shipment copies enter,
 * replace and leave it. The copies arrive from the server (an HTTP fetch or a
 * WebSocket frame); here they arrive as values.
 */
module TrackerView {
  import opened Optional
  import opened Text
  import opened Shipments

  type Tracked = map<string, ShipmentState>

  /** Every copy is filed under its own id. */
  predicate KeyedById(m: Tracked) {
    forall id :: id in m ==> m[id].id == id
  }

  /** `onShipmentCreated`: adds the copy only when its id is not yet tracked. */
  function Created(m: Tracked, st: ShipmentState): (r: Tracked)
    ensures st.id in m ==> r == m
    ensures st.id !in m ==> r.Keys == m.Keys + {st.id} && r[st.id] == st
    ensures forall id :: id in m ==> id in r && r[id] == m[id]
  {
    if st.id !in m then m[st.id := st] else m
  }

  /** `onShipmentUpdated`: replaces the copy only when its id is tracked;
      an untracked id is not added. */
  function Updated(m: Tracked, st: ShipmentState): (r: Tracked)
    ensures r.Keys == m.Keys
    ensures st.id in m ==> r[st.id] == st
    ensures forall id :: id in m && id != st.id ==> r[id] == m[id]
  {
    if st.id in m then m[st.id := st] else m
  }

  /** `stopTracking`: the id is no longer tracked. */
  function Stopped(m: Tracked, id: string): (r: Tracked)
    ensures r.Keys == m.Keys - {id}
    ensures forall other :: other in r ==> r[other] == m[other]
  {
    m - {id}
  }

  /** `onShipmentNotFound`: stops tracking a tracked id; otherwise nothing. */
  function NotFound(m: Tracked, id: string): Tracked {
    if id in m then Stopped(m, id) else m
  }

  /** `trackShipment`: a blank or already tracked id is ignored; otherwise the
      fetched copy, if the fetch succeeded, goes through `onShipmentCreated`. */
  function Track(m: Tracked, id: string, fetched: Option<ShipmentState>): Tracked {
    if IsBlank(id) || id in m then m
    else match fetched
      case None => m
      case Some(st) => Created(m, st)
  }

  /** Each rule keeps every copy filed under its own id. */
  lemma RulesKeepKeys(m: Tracked, st: ShipmentState, id: string, fetched: Option<ShipmentState>)
    requires KeyedById(m)
    ensures KeyedById(Created(m, st)) && KeyedById(Updated(m, st))
    ensures KeyedById(Stopped(m, id)) && KeyedById(NotFound(m, id))
    ensures KeyedById(Track(m, id, fetched))
  {
  }

  /** A blank id, or one already tracked, never changes the map, whatever the
      fetch returns. */
  lemma TrackGuard(m: Tracked, id: string, fetched: Option<ShipmentState>)
    requires IsBlank(id) || id in m
    ensures Track(m, id, fetched) == m
  {
  }

  /** Tracking a new, non-blank id with a successful fetch of that id adds it,
      and nothing else changes. */
  lemma TrackNewId(m: Tracked, st: ShipmentState)
    requires !IsBlank(st.id) && st.id !in m
    ensures Track(m, st.id, Some(st)) == m[st.id := st]
  {
  }

  /** Repeating `onShipmentCreated` changes nothing, so the size stays. */
  lemma CreatedTwice(m: Tracked, st: ShipmentState)
    ensures Created(Created(m, st), st) == Created(m, st)
    ensures |Created(Created(m, st), st)| == |Created(m, st)|
  {
  }

  /** An update never starts tracking, and after an update the tracked copy
      is the pushed one. */
  lemma UpdateNeverAdds(m: Tracked, st: ShipmentState)
    ensures st.id !in m ==> Updated(m, st) == m
    ensures st.id in m ==> Updated(m, st)[st.id] == st
    ensures |Updated(m, st)| == |m|
  {
  }

  /** A not-found report for any id acts exactly as stopping the tracking. */
  lemma NotFoundIsStop(m: Tracked, id: string)
    ensures NotFound(m, id) == Stopped(m, id)
  {
  }

  /** Stopping is final for later pushes: an update after a stop does not
      bring the id back. */
  lemma StopThenUpdate(m: Tracked, st: ShipmentState)
    ensures st.id !in Updated(Stopped(m, st.id), st)
  {
  }

  class TrackerViewHelper {
    var trackedShipmentData: Tracked

    constructor ()
      ensures trackedShipmentData == map[]
    {
      trackedShipmentData := map[];
    }

    /** `trackShipment`, with the outcome of the fetch as `fetched`. */
    method TrackShipment(id: string, fetched: Option<ShipmentState>)
      modifies this
      ensures trackedShipmentData == Track(old(trackedShipmentData), id, fetched)
    {
      if IsBlank(id) || id in trackedShipmentData {
        return;
      }
      if fetched.Some? {
        OnShipmentCreated(fetched.value);
      }
    }

    /** `stopTracking`. */
    method StopTracking(id: string)
      modifies this
      ensures trackedShipmentData == Stopped(old(trackedShipmentData), id)
    {
      trackedShipmentData := trackedShipmentData - {id};
    }

    /** `onShipmentUpdated`. */
    method OnShipmentUpdated(shipment: ShipmentState)
      modifies this
      ensures trackedShipmentData == Updated(old(trackedShipmentData), shipment)
    {
      if shipment.id in trackedShipmentData {
        trackedShipmentData := trackedShipmentData[shipment.id := shipment];
      }
    }

    /** `onShipmentCreated`. */
    method OnShipmentCreated(shipment: ShipmentState)
      modifies this
      ensures trackedShipmentData == Created(old(trackedShipmentData), shipment)
    {
      if shipment.id !in trackedShipmentData {
        trackedShipmentData := trackedShipmentData[shipment.id := shipment];
      }
    }

    /** `onShipmentNotFound`. */
    method OnShipmentNotFound(shipmentId: string)
      modifies this
      ensures trackedShipmentData == NotFound(old(trackedShipmentData), shipmentId)
    {
      if shipmentId in trackedShipmentData {
        StopTracking(shipmentId);
      }
    }
  }
}
