/**
 * What each strategy of the `strategy` package does, as functions on shipment
 * values and on the whole store. The imperative strategies are proved to
 * follow these functions; the properties of the rules are proved here.
 */
module Rules {
  import opened Optional
  import opened Text
  import opened Model
  import opened Variants
  import opened Shipments

  /** The eight concrete strategy classes. */
  datatype Strategy =
    | CreatedStrategy | ShippedStrategy | LocationStrategy | DeliveredStrategy
    | DelayedStrategy | CanceledStrategy | LostStrategy | NoteAddedStrategy

  // ---------------------------------------------------------------------------
  // CreatedStrategy on an absent shipment
  // ---------------------------------------------------------------------------

  /** The variant a CREATED event asks for: `otherInfo` upper-cased and looked
      up as a `ShipmentType` name; STANDARD when it is absent or names no type. */
  function ChosenType(otherInfo: Option<string>): (t: ShipmentType)
    ensures (otherInfo.Some? && EqualIgnoringCase(otherInfo.value, TypeName(t))) || t == STANDARD
  {
    match otherInfo
    case None => STANDARD
    case Some(info) =>
      match TypeFromName(Uppercase(info))
      case None => STANDARD
      case Some(t) =>
        UppercaseIdentifiesCaseVariants(info, TypeName(t));
        UppercaseOfUpper(TypeName(t));
        t
  }

  /** A name that equals a type's name up to letter case selects that type. */
  lemma ChosenTypeMatchesName(info: string, t: ShipmentType)
    requires EqualIgnoringCase(info, TypeName(t))
    ensures ChosenType(Some(info)) == t
  {
    UppercaseIdentifiesCaseVariants(info, TypeName(t));
    UppercaseOfUpper(TypeName(t));
  }

  /** The shipment a CREATED event builds when none exists. */
  function NewShipment(u: UpdateData): (st: ShipmentState)
    ensures st.id == u.shipmentId && st.status == CREATED && st.createdTimestamp == u.timestamp
    ensures st.expectedDeliveryDate == None && st.variant == ChosenType(u.otherInfo)
    ensures st.currentLocation == None && st.updateHistory == [] && st.notes == []
  {
    Initial(ChosenType(u.otherInfo), u.shipmentId, CREATED, u.timestamp, None)
  }

  // ---------------------------------------------------------------------------
  // processUpdate of each strategy on an existing shipment
  // ---------------------------------------------------------------------------

  /** ShippedStrategy: with a parsable `otherInfo`, sets the expected delivery
      and SHIPPED, then records the variant's violation if it is relevant. */
  function Shipped(st: ShipmentState, u: UpdateData): ShipmentState {
    match ParseOptLong(u.otherInfo)
    case None => st
    case Some(d) =>
      var next := st.(expectedDeliveryDate := Some(d), status := SHIPPED);
      if IsViolationRelevant(next.variant, next.status) then
        match ValidateExpectedDelivery(next.variant, next.createdTimestamp, next.expectedDeliveryDate)
        case Some(m) => next.(violations := next.violations + [m])
        case None => next
      else next
  }

  /** LocationStrategy: the location becomes `otherInfo`, absent or not. */
  function Location(st: ShipmentState, u: UpdateData): ShipmentState {
    st.(currentLocation := u.otherInfo)
  }

  /** DelayedStrategy: DELAYED, with the parsed `otherInfo` (or nothing) as the
      expected delivery. */
  function Delayed(st: ShipmentState, u: UpdateData): ShipmentState {
    st.(status := DELAYED, expectedDeliveryDate := ParseOptLong(u.otherInfo))
  }

  /** DeliveredStrategy: DELIVERED. */
  function Delivered(st: ShipmentState, u: UpdateData): ShipmentState {
    st.(status := DELIVERED)
  }

  /** CanceledStrategy: CANCELED. */
  function Canceled(st: ShipmentState, u: UpdateData): ShipmentState {
    st.(status := CANCELED)
  }

  /** LostStrategy: LOST. */
  function Lost(st: ShipmentState, u: UpdateData): ShipmentState {
    st.(status := LOST)
  }

  /** NoteAddedStrategy: a present `otherInfo` becomes the last note. */
  function NoteAdded(st: ShipmentState, u: UpdateData): ShipmentState {
    match u.otherInfo
    case None => st
    case Some(n) => st.(notes := st.notes + [n])
  }

  /** `processUpdate` of strategy `k` on an existing shipment. CreatedStrategy
      leaves an existing shipment as it is. */
  function ProcessUpdate(k: Strategy, st: ShipmentState, u: UpdateData): ShipmentState {
    match k
    case CreatedStrategy => st
    case ShippedStrategy => Shipped(st, u)
    case LocationStrategy => Location(st, u)
    case DeliveredStrategy => Delivered(st, u)
    case DelayedStrategy => Delayed(st, u)
    case CanceledStrategy => Canceled(st, u)
    case LostStrategy => Lost(st, u)
    case NoteAddedStrategy => NoteAdded(st, u)
  }

  // ---------------------------------------------------------------------------
  // The execute template
  // ---------------------------------------------------------------------------

  /** `createShippingUpdate`: the record of one applied event. The note is
      `otherInfo` exactly when the event's type is NOTEADDED. */
  function CreateShippingUpdate(after: ShipmentState, previousStatus: ShipmentStatus, u: UpdateData): ShippingUpdate {
    ShippingUpdate(StatusName(previousStatus), StatusName(after.status), u.timestamp, after.currentLocation,
                   if u.GetUpdateType() == "NOTEADDED" then u.otherInfo else None)
  }

  /** `execute` on a shipment that exists: run the strategy, then append one
      record describing the change. */
  function ExecuteOnExisting(k: Strategy, st: ShipmentState, u: UpdateData): ShipmentState {
    var after := ProcessUpdate(k, st, u);
    after.(updateHistory := after.updateHistory + [CreateShippingUpdate(after, st.status, u)])
  }

  /** `execute` on the whole store, as a map from id to shipment value. An
      invalid event changes nothing (the source throws); an absent shipment is
      created by CreatedStrategy and ignored by every other strategy. */
  function Execute(k: Strategy, store: map<string, ShipmentState>, u: UpdateData): map<string, ShipmentState> {
    if !u.IsValid() then store
    else if u.shipmentId !in store then
      if k == CreatedStrategy then store[u.shipmentId := NewShipment(u)] else store
    else store[u.shipmentId := ExecuteOnExisting(k, store[u.shipmentId], u)]
  }

  /** A store whose keys are the ids of the shipments under them. */
  predicate KeyedById(store: map<string, ShipmentState>) {
    forall id :: id in store ==> store[id].id == id
  }

  // ---------------------------------------------------------------------------
  // Properties of the strategies
  // ---------------------------------------------------------------------------

  /** No strategy changes a shipment's identity, its variant, its creation
      time or its history; only `execute` adds to the history. */
  lemma ProcessKeepsIdentity(k: Strategy, st: ShipmentState, u: UpdateData)
    ensures var after := ProcessUpdate(k, st, u);
      && after.id == st.id && after.variant == st.variant
      && after.createdTimestamp == st.createdTimestamp && after.updateHistory == st.updateHistory
  {
  }

  /** ShippedStrategy. Without a parsable `otherInfo` nothing changes.
      Otherwise the status is SHIPPED whatever it was, the expected delivery is
      the parsed value, location and notes stay, and a violation is recorded
      exactly when the variant is not Standard and the new date falls outside
      its window (relevance is tested after the status became SHIPPED). */
  lemma ShippedEffect(st: ShipmentState, u: UpdateData)
    ensures ParseOptLong(u.otherInfo).None? ==> Shipped(st, u) == st
    ensures ParseOptLong(u.otherInfo).Some? ==>
      var d := ParseOptLong(u.otherInfo).value;
      var after := Shipped(st, u);
      && after.status == SHIPPED && after.expectedDeliveryDate == Some(d)
      && after.currentLocation == st.currentLocation && after.notes == st.notes
      && after.violations == st.violations +
           (if st.variant != STANDARD && !WithinPromise(st.variant, st.createdTimestamp, d)
            then [ViolationMessage(st.variant)] else [])
  {
  }

  /** LocationStrategy: only the location changes, to `otherInfo` verbatim;
      repeating the event changes nothing more. */
  lemma LocationEffect(st: ShipmentState, u: UpdateData)
    ensures Location(st, u) == st.(currentLocation := u.otherInfo)
    ensures Location(Location(st, u), u) == Location(st, u)
  {
  }

  /** DelayedStrategy: DELAYED from any status; a parsable `otherInfo` is the
      new expected delivery, anything else clears it; location and notes stay;
      repeating the event changes nothing more. */
  lemma DelayedEffect(st: ShipmentState, u: UpdateData)
    ensures var after := Delayed(st, u);
      && after.status == DELAYED
      && after.expectedDeliveryDate == ParseOptLong(u.otherInfo)
      && after.currentLocation == st.currentLocation && after.notes == st.notes
    ensures Delayed(Delayed(st, u), u) == Delayed(st, u)
  {
  }

  /** Delivered, Canceled and Lost set their status from any prior status,
      including DELIVERED, ignore the event's type and `otherInfo`, leave every
      other field alone and are idempotent. */
  lemma TerminalStatusEffects(st: ShipmentState, u: UpdateData, v: UpdateData)
    ensures Delivered(st, u) == st.(status := DELIVERED) == Delivered(st, v)
    ensures Canceled(st, u) == st.(status := CANCELED) == Canceled(st, v)
    ensures Lost(st, u) == st.(status := LOST) == Lost(st, v)
    ensures Delivered(Delivered(st, u), u) == Delivered(st, u)
    ensures Canceled(Canceled(st, u), u) == Canceled(st, u)
    ensures Lost(Lost(st, u), u) == Lost(st, u)
  {
  }

  /** NoteAddedStrategy: a present `otherInfo`, blank or not, is appended as
      the last note after the earlier ones in order; status, location and
      expected delivery stay. */
  lemma NoteAddedEffect(st: ShipmentState, u: UpdateData)
    ensures u.otherInfo.None? ==> NoteAdded(st, u) == st
    ensures u.otherInfo.Some? ==>
      var after := NoteAdded(st, u);
      && |after.notes| == |st.notes| + 1
      && after.notes[..|st.notes|] == st.notes && after.notes[|st.notes|] == u.otherInfo.value
      && after.status == st.status && after.currentLocation == st.currentLocation
      && after.expectedDeliveryDate == st.expectedDeliveryDate
  {
  }

  // ---------------------------------------------------------------------------
  // Properties of execute
  // ---------------------------------------------------------------------------

  /** On an existing shipment, the part of `execute` that runs once the event
      has passed validation appends exactly one record: from the
      status before to the status after, at the event's time, at the location
      after, with the note only for NOTEADDED events; earlier records stay. */
  lemma ExecuteAppendsOneRecord(k: Strategy, st: ShipmentState, u: UpdateData)
    ensures var after := ExecuteOnExisting(k, st, u);
      var rec := after.updateHistory[|st.updateHistory|];
      && |after.updateHistory| == |st.updateHistory| + 1
      && after.updateHistory[..|st.updateHistory|] == st.updateHistory
      && rec.previousStatus == StatusName(st.status)
      && rec.newStatus == StatusName(after.status)
      && after.status == ProcessUpdate(k, st, u).status
      && rec.timestamp == u.timestamp
      && rec.location == after.currentLocation
      && (rec.notes.Some? ==> u.GetUpdateType() == "NOTEADDED")
      && (u.GetUpdateType() == "NOTEADDED" ==> rec.notes == u.otherInfo)
  {
    ProcessKeepsIdentity(k, st, u);
  }

  /** Re-issuing CREATED for an existing shipment leaves its status, creation
      time and variant as they were, yet still appends a record. */
  lemma CreatedAgainOnlyRecords(st: ShipmentState, u: UpdateData)
    ensures var after := ExecuteOnExisting(CreatedStrategy, st, u);
      && after.status == st.status && after.createdTimestamp == st.createdTimestamp
      && after.variant == st.variant && |after.updateHistory| == |st.updateHistory| + 1
  {
  }

  /** `execute` on the store. An invalid event, or an absent shipment with any
      strategy but CreatedStrategy, leaves the store as it was; CreatedStrategy
      adds the new shipment, with no record; an existing shipment is replaced
      by its executed value; no other entry changes and keys stay ids. */
  lemma ExecuteOnStore(k: Strategy, store: map<string, ShipmentState>, u: UpdateData)
    requires KeyedById(store)
    ensures var after := Execute(k, store, u);
      && KeyedById(after)
      && (!u.IsValid() ==> after == store)
      && (u.IsValid() && u.shipmentId !in store && k != CreatedStrategy ==> after == store)
      && (u.IsValid() && u.shipmentId !in store && k == CreatedStrategy ==>
            after == store[u.shipmentId := NewShipment(u)] && after[u.shipmentId].updateHistory == [])
      && (u.IsValid() && u.shipmentId in store ==>
            after.Keys == store.Keys && after[u.shipmentId] == ExecuteOnExisting(k, store[u.shipmentId], u))
      && (forall id :: id != u.shipmentId ==> (id in after <==> id in store))
      && (forall id :: id in store && id != u.shipmentId ==> after[id] == store[id])
  {
    if u.IsValid() && u.shipmentId in store {
      ProcessKeepsIdentity(k, store[u.shipmentId], u);
    }
  }

  /** Replaying events one after another on an existing shipment. */
  function Replay(st: ShipmentState, events: seq<(Strategy, UpdateData)>): ShipmentState
    decreases |events|
  {
    if events == [] then st
    else Replay(ExecuteOnExisting(events[0].0, st, events[0].1), events[1..])
  }

  /** After N events the history has grown by exactly N records and the
      earlier records are untouched. */
  lemma {:induction false} ReplayGrowsHistory(st: ShipmentState, events: seq<(Strategy, UpdateData)>)
    ensures |Replay(st, events).updateHistory| == |st.updateHistory| + |events|
    ensures Replay(st, events).updateHistory[..|st.updateHistory|] == st.updateHistory
    decreases |events|
  {
    if events != [] {
      var next := ExecuteOnExisting(events[0].0, st, events[0].1);
      ExecuteAppendsOneRecord(events[0].0, st, events[0].1);
      ReplayGrowsHistory(next, events[1..]);
      assert Replay(st, events).updateHistory[..|st.updateHistory|]
          == Replay(st, events).updateHistory[..|next.updateHistory|][..|st.updateHistory|];
    }
  }

  /** Replaying a prefix and then the rest is replaying everything. */
  lemma {:induction false} ReplaySplit(st: ShipmentState, events: seq<(Strategy, UpdateData)>, i: nat)
    requires i <= |events|
    ensures Replay(st, events) == Replay(Replay(st, events[..i]), events[i..])
    decreases i
  {
    if i > 0 {
      var next := ExecuteOnExisting(events[0].0, st, events[0].1);
      ReplaySplit(next, events[1..], i - 1);
      assert events[1..][..i - 1] == events[1..i];
      assert events[..i][1..] == events[1..i];
      assert events[1..][i - 1..] == events[i..];
    }
  }

  /** The record written for the i-th event names, as its new status, the
      status the shipment had right after that event. */
  lemma RecordOfEachEvent(st: ShipmentState, events: seq<(Strategy, UpdateData)>, i: nat)
    requires i < |events|
    ensures |Replay(st, events).updateHistory| > |st.updateHistory| + i
    ensures Replay(st, events).updateHistory[|st.updateHistory| + i].newStatus
         == StatusName(Replay(st, events[..i + 1]).status)
  {
    var mid := Replay(st, events[..i]);
    var step := Replay(st, events[..i + 1]);
    ReplayGrowsHistory(st, events[..i]);
    ReplaySplit(st, events[..i + 1], i);
    assert events[..i + 1][..i] == events[..i];
    assert events[..i + 1][i..] == [events[i]];
    ExecuteAppendsOneRecord(events[i].0, mid, events[i].1);
    assert step == ExecuteOnExisting(events[i].0, mid, events[i].1);
    ReplaySplit(st, events, i + 1);
    ReplayGrowsHistory(step, events[i + 1..]);
    assert |mid.updateHistory| == |st.updateHistory| + i;
    assert Replay(st, events).updateHistory[..|step.updateHistory|] == step.updateHistory;
  }
}
