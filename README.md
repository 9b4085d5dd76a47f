# Shipment tracking server — a Dafny model of the update pipeline

This project models the core of a Kotlin shipment tracking server. The server keeps a store of shipments keyed
by id. It applies update events ("CREATED", "SHIPPED", "LOCATION", "DELIVERED", "DELAYED", "CANCELED",
"LOST", "NOTEADDED") to those shipments through one strategy class per event type. It pushes changed
shipments to the WebSocket sessions that track them. A file processor feeds simulation files of
comma-separated update lines into the pipeline, and the desktop client keeps its own map of tracked
shipment copies.

How the model is organised:

- `Optional` and `Text`. `Text` holds the parts of the Kotlin standard library the pipeline relies on:
  - `isWhitespace`, `isBlank` and `trim`;
  - `uppercase`;
  - `split(",")`;
  - `toLongOrNull`.
- `Model` holds the value types:
  - the `ShipmentStatus` enumeration;
  - the history record `ShippingUpdate`;
  - the event `UpdateData`;
  - the wire payload.
- `Variants` holds `ShipmentType` and the four variants' delivery-plausibility rules and relevance gates.
- `Shipments` holds the shipment object:
  - a `class` whose strategy-owned fields are updated in place;
  - its value `ShipmentState`;
  - `ShipmentFactory.create`.
- `Rules` holds each strategy's effect and the `execute` template as functions on shipment values and
  store values. All properties of the strategies are proved there.
- `StrategyFactory` holds the case-insensitive strategy table.
- `Store` holds the `TrackingServer` object, a map from id to shipment object.
- `Strategies` holds the strategies as the source runs them. They mutate the shipment object and the
  store, and each is proved to follow its function in `Rules`.
- `UpdateProcessing` holds `UpdateProcessor.process`.
- `Hub` holds `ConnectionManager`: the sessions, their tracked ids and the fan-out of a changed shipment.
- `FileProcessing` holds `util/FileProcessor`:
  - line validation;
  - the FIFO queue of trimmed valid lines;
  - the counters.
- `TrackerView` holds the client's `TrackerViewHelper`: its guarded map of tracked shipment copies.

The model follows the code, including where its behaviour may surprise a reader:

- **No EXCEPTION status.** The status enumeration has only CREATED, SHIPPED, DELIVERED, DELAYED, LOST and
  CANCELED.
- **Strategies do not check the current status.**
  - Delivered, Canceled, Lost and Delayed apply from any status, including DELIVERED.
  - ShippedStrategy sets SHIPPED whatever the status was. It then consults `isViolationRelevant` on the
    new status.
- **Absent shipments.** A non-creation event for an id that is not stored is logged and ignored.
- **CREATED for a stored id.** The shipment is left as it is, yet `execute` still appends a history record
  for it.
- **Violations are recorded, not rejected.** A shipment whose new delivery date breaks its variant's promise
  still gets the date. The violation message is only handed to `recordViolation`.

## Model

Source paths are relative to the repository root.

| member | source | states |
|---|---|---|
| Text.IsWhitespace | composeApp/src/desktopMain/kotlin/org/example/project/util/FileProcessor.kt:79 | Kotlin's `Char.isWhitespace` set, written out; the lemmas below about `isBlank` and `trim` are stated over it |
| Text.IsBlank | composeApp/src/desktopMain/kotlin/org/example/project/model/UpdateData.kt:14 | `isBlank`: every character is whitespace; `Text.TrimEmptyIffBlank` ties it to `trim` in both directions |
| Text.Trim | composeApp/src/desktopMain/kotlin/org/example/project/util/FileProcessor.kt:84-86 | `trim`; what it keeps and cuts is stated by `Text.TrimSpec`, and `Text.TrimIdempotent` and `Text.TrimEmptyIffBlank` hold of it |
| Text.TrimSpec | composeApp/src/desktopMain/kotlin/org/example/project/util/FileProcessor.kt:84-86 | `trim` keeps an infix that neither starts nor ends with whitespace, and everything it cuts from either end is whitespace |
| Text.TrimEmptyIffBlank | composeApp/src/desktopMain/kotlin/org/example/project/util/FileProcessor.kt:79 | a string is blank exactly when trimming leaves nothing |
| Text.TrimKeepsBlankness | composeApp/src/desktopMain/kotlin/org/example/project/util/FileProcessor.kt:84-89 | a trimmed field is blank exactly when the untrimmed field is |
| Text.TrimIdempotent | composeApp/src/desktopMain/kotlin/org/example/project/util/FileProcessor.kt:53 | trimming twice is trimming once |
| Text.Uppercase | composeApp/src/desktopMain/kotlin/org/example/project/model/UpdateData.kt:10 | the result has the input's length and each ASCII letter upper-cased, every other character kept; `Text.UppercaseIdentifiesCaseVariants` says which strings it identifies |
| Text.UpperCharIdentifiesCaseVariants | composeApp/src/desktopMain/kotlin/org/example/project/model/UpdateData.kt:10 | two characters upper-case alike exactly when they are equal or the two cases of one ASCII letter |
| Text.UppercaseIdentifiesCaseVariants | composeApp/src/desktopMain/kotlin/org/example/project/model/UpdateData.kt:10 | two strings have the same upper-case form exactly when they have the same length and each pair of characters is equal or the two cases of one ASCII letter |
| Text.Split | composeApp/src/desktopMain/kotlin/org/example/project/util/FileProcessor.kt:81 | a split has at least one field and no field contains the delimiter |
| Text.JoinSplit | composeApp/src/desktopMain/kotlin/org/example/project/util/FileProcessor.kt:81 | gluing the fields of a split back together with the delimiter gives the original line |
| Text.SplitJoin | composeApp/src/desktopMain/kotlin/org/example/project/util/FileProcessor.kt:81 | splitting delimiter-free fields glued with the delimiter gives the fields back |
| Text.ParseLong | composeApp/src/desktopMain/kotlin/org/example/project/util/FileProcessor.kt:90 | `toLongOrNull` yields a value only for a non-empty string and only within the 64-bit `Long` range |
| Text.ParseLongExact | composeApp/src/desktopMain/kotlin/org/example/project/util/FileProcessor.kt:90 | `toLongOrNull` yields `n` exactly when the string is an optional `+` or `-` followed by at least one digit, the sign and digits stand for `n` and `n` fits in a `Long`; every other string yields nothing |
| Text.ParseLongExamples | composeApp/src/desktopMain/kotlin/org/example/project/strategy/ShippedStrategy.kt:10 | "+5", "007" and "-0" parse to 5, 7 and 0; the empty string, a lone sign, an underscore and a leading space give nothing |
| Text.ParseShowRoundTrip | composeApp/src/desktopMain/kotlin/org/example/project/util/FileProcessor.kt:90 | every `Long` written in decimal parses back to itself |
| Model.StatusNameInjective | composeApp/src/desktopMain/kotlin/org/example/project/model/ShipmentStatus.kt:6-13 | two statuses have the same name exactly when they are the same status |
| Model.NewShippingUpdate | composeApp/src/desktopMain/kotlin/org/example/project/model/ShippingUpdate.kt:9-15 | each field of the record is the argument given for it |
| Model.ShippingUpdateDefaults | composeApp/src/desktopMain/kotlin/org/example/project/model/ShippingUpdate.kt:10-14 | omitted arguments default to empty statuses, timestamp 0 and no location or notes |
| Model.UpdateData.GetUpdateType | composeApp/src/desktopMain/kotlin/org/example/project/model/UpdateData.kt:10 | the reported type is in upper-case normal form and equals the stored type up to letter case |
| Model.UpdateTypeCaseInsensitive | composeApp/src/desktopMain/kotlin/org/example/project/model/UpdateData.kt:10 | events whose types differ only in letter case report the same type |
| Model.UpdateData.IsValid | composeApp/src/desktopMain/kotlin/org/example/project/model/UpdateData.kt:14 | `isValid`; `Model.ValidIffTrimmedFieldsPresent` characterises it through `trim`, `Model.ValidityIgnoresOtherInfo` frees it from `otherInfo`, and `Model.InvalidEvents` gives the tested cases |
| Model.ValidIffTrimmedFieldsPresent | composeApp/src/desktopMain/kotlin/org/example/project/model/UpdateData.kt:14 | an event is valid exactly when its type and id keep a character after trimming and its timestamp is positive |
| Model.ValidityIgnoresOtherInfo | composeApp/src/desktopMain/kotlin/org/example/project/model/UpdateData.kt:14 | validity never depends on `otherInfo` |
| Model.InvalidEvents | composeApp/src/desktopMain/kotlin/org/example/project/model/UpdateData.kt:14 | an empty type, a blank id and a zero timestamp each make an event invalid; a complete event is valid |
| Variants.TypeFromName | composeApp/src/desktopMain/kotlin/org/example/project/strategy/CreatedStrategy.kt:16 | `valueOf` returns only a constant whose name is exactly the given string |
| Variants.TypeNameRoundTrip | composeApp/src/desktopMain/kotlin/org/example/project/ShipmentFactory.kt:3-5 | every constant is found under its own name |
| Variants.ValidateExpectedDelivery | composeApp/src/desktopMain/kotlin/org/example/project/ExpressShipment.kt:16-21 | a message is reported exactly when a delivery date is set and lies outside the variant's window (Express at most 3 days, Overnight at most 1 day, Bulk at least 3 days after creation, Standard unbounded), and it is that variant's message |
| Variants.MessageNamesVariant | composeApp/src/desktopMain/kotlin/org/example/project/OvernightShipment.kt:19 | the violation message of each of Express, Overnight and Bulk names its variant; Standard has none |
| Variants.IsViolationRelevant | composeApp/src/desktopMain/kotlin/org/example/project/BulkShipment.kt:24-26 | never for Standard; for every other variant exactly when the status is not DELAYED |
| Variants.StandardNeverViolates | composeApp/src/desktopMain/kotlin/org/example/project/StandardShipment.kt:15-16 | a Standard shipment never reports a violation and never finds one relevant, whatever its dates and status |
| Variants.NoDateNoViolation | composeApp/src/desktopMain/kotlin/org/example/project/BulkShipment.kt:19 | without an expected delivery no variant reports a violation |
| Variants.ExpressBoundary | composeApp/src/desktopTest/kotlin/org/example/project/model/ShipmentSubclassesTest.kt:78-103 | exactly 3 days after creation is accepted; 4 days is reported with a message mentioning an express shipment |
| Variants.OvernightBoundary | composeApp/src/desktopTest/kotlin/org/example/project/model/ShipmentSubclassesTest.kt:125-150 | exactly 1 day after creation is accepted; 2 days is reported with a message mentioning an overnight shipment |
| Variants.BulkBoundary | composeApp/src/desktopTest/kotlin/org/example/project/model/ShipmentSubclassesTest.kt:31-56 | exactly 3 days after creation is accepted; 2 days is too soon and is reported with a message mentioning a bulk shipment |
| Shipments.Initial | composeApp/src/desktopMain/kotlin/org/example/project/StandardShipment.kt:6-14 | a shipment built from its leading arguments has no location, history, notes or violations |
| Shipments.Shipment.constructor | composeApp/src/desktopMain/kotlin/org/example/project/StandardShipment.kt:6-14 | every field takes its argument or its default |
| Shipments.Shipment.AddUpdate | composeApp/src/desktopTest/kotlin/org/example/project/model/ShipmentTest.kt:49-61 | the record is appended after the earlier history and nothing else changes |
| Shipments.Shipment.AddNote | composeApp/src/desktopTest/kotlin/org/example/project/model/ShipmentTest.kt:63-75 | the note is appended after the earlier notes and nothing else changes |
| Shipments.Shipment.RecordViolation | composeApp/src/desktopMain/kotlin/org/example/project/strategy/ShippedStrategy.kt:17 | the call site is modelled: the message is appended to a `violations` log; that no other field changes is an assumption of this model, as the method's body is not part of it |
| Shipments.CreateShipment | composeApp/src/desktopMain/kotlin/org/example/project/ShipmentFactory.kt:8-15 | a new object of the requested variant carrying the given id, status, creation time and expected delivery, with everything else empty |
| Rules.ChosenType | composeApp/src/desktopMain/kotlin/org/example/project/strategy/CreatedStrategy.kt:16 | the chosen variant is the one `otherInfo` names up to letter case, or STANDARD |
| Rules.ChosenTypeMatchesName | composeApp/src/desktopMain/kotlin/org/example/project/strategy/CreatedStrategy.kt:16 | an `otherInfo` equal to a variant's name in any letter case selects that variant |
| Rules.NewShipment | composeApp/src/desktopMain/kotlin/org/example/project/strategy/CreatedStrategy.kt:16-18 | a created shipment carries the event's id and timestamp, is CREATED, has the chosen variant and has no date, location, history or notes |
| Rules.Shipped | composeApp/src/desktopMain/kotlin/org/example/project/strategy/ShippedStrategy.kt:8-20 | ShippedStrategy's effect; stated by `Rules.ShippedEffect` and followed by `Strategies.ProcessShipped` |
| Rules.Location | composeApp/src/desktopMain/kotlin/org/example/project/strategy/LocationStrategy.kt:7-10 | LocationStrategy's effect; stated by `Rules.LocationEffect` and followed by `Strategies.ProcessLocation` |
| Rules.Delayed | composeApp/src/desktopMain/kotlin/org/example/project/strategy/DelayedStrategy.kt:8-12 | DelayedStrategy's effect; stated by `Rules.DelayedEffect` and followed by `Strategies.ProcessDelayed` |
| Rules.Delivered | composeApp/src/desktopMain/kotlin/org/example/project/strategy/DeliveredStrategy.kt:8-11 | DeliveredStrategy's effect; stated by `Rules.TerminalStatusEffects` and followed by `Strategies.ProcessDelivered` |
| Rules.Canceled | composeApp/src/desktopMain/kotlin/org/example/project/strategy/CanceledStrategy.kt:8-11 | CanceledStrategy's effect; stated by `Rules.TerminalStatusEffects` and followed by `Strategies.ProcessCanceled` |
| Rules.Lost | composeApp/src/desktopMain/kotlin/org/example/project/strategy/LostStrategy.kt:8-11 | LostStrategy's effect; stated by `Rules.TerminalStatusEffects` and followed by `Strategies.ProcessLost` |
| Rules.NoteAdded | composeApp/src/desktopMain/kotlin/org/example/project/strategy/NoteAddedStrategy.kt:7-10 | NoteAddedStrategy's effect; stated by `Rules.NoteAddedEffect` and followed by `Strategies.ProcessNoteAdded` |
| Rules.ProcessUpdate | composeApp/src/desktopMain/kotlin/org/example/project/strategy/AbstractUpdateStrategy.kt:31 | `processUpdate` of each strategy on a stored shipment, CreatedStrategy leaving it as it is; `Rules.ProcessKeepsIdentity` holds of every case and `Strategies.ProcessUpdate` follows it |
| Rules.CreateShippingUpdate | composeApp/src/desktopMain/kotlin/org/example/project/strategy/AbstractUpdateStrategy.kt:35-43 | the record of one applied event; its fields are stated by `Rules.ExecuteAppendsOneRecord` |
| Rules.ExecuteOnExisting | composeApp/src/desktopMain/kotlin/org/example/project/strategy/AbstractUpdateStrategy.kt:24-28 | `execute` after validation on a stored shipment; stated by `Rules.ExecuteAppendsOneRecord` and `Rules.CreatedAgainOnlyRecords`, followed by `Strategies.ProcessAndRecord` |
| Rules.Execute | composeApp/src/desktopMain/kotlin/org/example/project/strategy/AbstractUpdateStrategy.kt:11-29 | `execute` on the whole store; stated by `Rules.ExecuteOnStore` and followed by `Strategies.Execute` |
| Rules.Replay | composeApp/src/desktopMain/kotlin/org/example/project/strategy/AbstractUpdateStrategy.kt:24-28 | a run of events, each already past validation, executed on one stored shipment; stated by `Rules.ReplayGrowsHistory`, `Rules.ReplaySplit` and `Rules.RecordOfEachEvent` |
| Rules.ProcessKeepsIdentity | composeApp/src/desktopMain/kotlin/org/example/project/strategy/AbstractUpdateStrategy.kt:24-27 | no strategy changes a shipment's id, variant, creation time or history; only `execute` appends to the history |
| Rules.ShippedEffect | composeApp/src/desktopMain/kotlin/org/example/project/strategy/ShippedStrategy.kt:8-20 | without a parsable `otherInfo` nothing changes; otherwise SHIPPED with the parsed date, location and notes kept, and one violation logged exactly when the variant is not Standard and the date breaks its window |
| Rules.LocationEffect | composeApp/src/desktopMain/kotlin/org/example/project/strategy/LocationStrategy.kt:7-10 | only the location changes, to `otherInfo` verbatim, and repeating the event changes nothing more |
| Rules.DelayedEffect | composeApp/src/desktopMain/kotlin/org/example/project/strategy/DelayedStrategy.kt:8-12 | DELAYED from any status, with the parsed `otherInfo` or no date as expected delivery; location and notes kept; idempotent |
| Rules.TerminalStatusEffects | composeApp/src/desktopMain/kotlin/org/example/project/strategy/DeliveredStrategy.kt:8-11 | Delivered, Canceled and Lost set their status from any status, ignore the event, change no other field and are idempotent |
| Rules.NoteAddedEffect | composeApp/src/desktopMain/kotlin/org/example/project/strategy/NoteAddedStrategy.kt:7-10 | a present `otherInfo` becomes the last note after the earlier ones; an absent one changes nothing; status, location and date are kept |
| Rules.ExecuteAppendsOneRecord | composeApp/src/desktopMain/kotlin/org/example/project/strategy/AbstractUpdateStrategy.kt:24-43 | for an event that passed validation, `execute` on a stored shipment appends exactly one record: the status before, the status after, the event's time, the location after, and a note exactly for NOTEADDED events |
| Rules.CreatedAgainOnlyRecords | composeApp/src/desktopMain/kotlin/org/example/project/strategy/CreatedStrategy.kt:11-15 | CREATED for a stored shipment keeps its status, creation time and variant, yet the history still grows by one |
| Rules.ExecuteOnStore | composeApp/src/desktopMain/kotlin/org/example/project/strategy/AbstractUpdateStrategy.kt:11-29 | an invalid event, or an absent id with any strategy but Created, leaves the store unchanged; Created adds the new shipment with no record; a stored shipment is replaced by its executed value; no other entry changes and every key stays its shipment's id |
| Rules.ReplayGrowsHistory | composeApp/src/desktopMain/kotlin/org/example/project/strategy/AbstractUpdateStrategy.kt:26-27 | after N events that each passed validation, executed on a stored shipment, the history has grown by exactly N records and the earlier records are untouched |
| Rules.ReplaySplit | composeApp/src/desktopMain/kotlin/org/example/project/strategy/AbstractUpdateStrategy.kt:11-29 | for events that passed validation, replaying a prefix of them and then the rest is replaying all of them |
| Rules.RecordOfEachEvent | composeApp/src/desktopMain/kotlin/org/example/project/strategy/AbstractUpdateStrategy.kt:35-43 | among events that passed validation, the record written for the i-th event names as its new status the status the shipment had right after that event |
| StrategyFactory.Create | composeApp/src/desktopMain/kotlin/org/example/project/strategy/UpdateStrategyFactory.kt:14 | a strategy is found only when the requested name equals its name up to letter case |
| StrategyFactory.CreateFindsEveryStrategy | composeApp/src/desktopMain/kotlin/org/example/project/strategy/UpdateStrategyFactory.kt:4-14 | each of the eight strategies is found under its own name in any letter case |
| StrategyFactory.CreateDefinedIffKnownName | composeApp/src/desktopMain/kotlin/org/example/project/strategy/UpdateStrategyFactory.kt:4-14 | a name finds a strategy exactly when it equals one of the eight names up to letter case |
| StrategyFactory.CreateIgnoresCase | composeApp/src/desktopMain/kotlin/org/example/project/strategy/UpdateStrategyFactory.kt:14 | names differing only in letter case find the same strategy or both find none |
| StrategyFactory.UnknownNames | composeApp/src/desktopMain/kotlin/org/example/project/strategy/UpdateStrategyFactory.kt:4-13 | "NOTE_ADDED", "CREATED " with a trailing space, the empty name and "EXCEPTION" find no strategy |
| StrategyFactory.CreateOfUpperName | composeApp/src/desktopMain/kotlin/org/example/project/strategy/UpdateStrategyFactory.kt:4-14 | for an upper-case type the strategy found is exactly the one whose name it is |
| Store.TrackingServer.constructor | composeApp/src/desktopMain/kotlin/org/example/project/server/TrackingServer.kt:11 | the store starts empty |
| Store.TrackingServer.GetShipment | composeApp/src/desktopMain/kotlin/org/example/project/server/TrackingServer.kt:18 | an object is returned exactly when the id is stored, it is the very object stored under that id, and under the store invariant its id is `id` |
| Store.TrackingServer.GetAllShipments | composeApp/src/desktopMain/kotlin/org/example/project/server/TrackingServer.kt:17 | every stored shipment, each once, and nothing else |
| Store.TrackingServer.AddShipment | composeApp/src/desktopMain/kotlin/org/example/project/server/TrackingServer.kt:19-25 | the shipment is stored under its id, replacing what was there, and keys stay ids |
| Store.TrackingServer.UpdateShipment | composeApp/src/desktopMain/kotlin/org/example/project/server/TrackingServer.kt:26-31 | the shipment is stored again under its id and keys stay ids |
| Store.TrackingServer.Remove | composeApp/src/desktopMain/kotlin/org/example/project/server/TrackingServer.kt:32 | true exactly when the id was stored; the id is then gone and every other entry stays |
| Store.TrackingServer.ClearAllShipments | composeApp/src/desktopMain/kotlin/org/example/project/server/TrackingServer.kt:33 | the store is empty |
| Strategies.ProcessShipped | composeApp/src/desktopMain/kotlin/org/example/project/strategy/ShippedStrategy.kt:8-20 | the shipment's new state is what `Rules.Shipped` gives, and a null shipment is ignored |
| Strategies.ProcessLocation | composeApp/src/desktopMain/kotlin/org/example/project/strategy/LocationStrategy.kt:7-10 | the shipment's new state is what `Rules.Location` gives |
| Strategies.ProcessDelayed | composeApp/src/desktopMain/kotlin/org/example/project/strategy/DelayedStrategy.kt:8-12 | the shipment's new state is what `Rules.Delayed` gives |
| Strategies.ProcessDelivered | composeApp/src/desktopMain/kotlin/org/example/project/strategy/DeliveredStrategy.kt:8-11 | the shipment's new state is what `Rules.Delivered` gives |
| Strategies.ProcessCanceled | composeApp/src/desktopMain/kotlin/org/example/project/strategy/CanceledStrategy.kt:8-11 | the shipment's new state is what `Rules.Canceled` gives |
| Strategies.ProcessLost | composeApp/src/desktopMain/kotlin/org/example/project/strategy/LostStrategy.kt:8-11 | the shipment's new state is what `Rules.Lost` gives |
| Strategies.ProcessNoteAdded | composeApp/src/desktopMain/kotlin/org/example/project/strategy/NoteAddedStrategy.kt:7-10 | the shipment's new state is what `Rules.NoteAdded` gives |
| Strategies.ProcessCreated | composeApp/src/desktopMain/kotlin/org/example/project/strategy/CreatedStrategy.kt:11-20 | a stored shipment leaves the store untouched; otherwise a fresh object with `Rules.NewShipment`'s state is stored under the event's id and every other entry keeps its object |
| Strategies.ProcessUpdate | composeApp/src/desktopMain/kotlin/org/example/project/strategy/AbstractUpdateStrategy.kt:25 | running strategy `k` on a stored shipment gives `Rules.ProcessUpdate` and leaves the store's map unchanged |
| Strategies.ProcessAndRecord | composeApp/src/desktopMain/kotlin/org/example/project/strategy/AbstractUpdateStrategy.kt:24-27 | the shipment ends in the state `Rules.ExecuteOnExisting` gives: the strategy's effect plus one record |
| Strategies.ExecuteOnExisting | composeApp/src/desktopMain/kotlin/org/example/project/strategy/AbstractUpdateStrategy.kt:24-28 | only the executed shipment's state changes in the store, to `Rules.ExecuteOnExisting`, and the map of objects is unchanged |
| Strategies.Execute | composeApp/src/desktopMain/kotlin/org/example/project/strategy/AbstractUpdateStrategy.kt:11-29 | rejected exactly for an invalid event; the store's value becomes `Rules.Execute`; every stored object stays stored under its id, so an existing shipment is updated in place |
| UpdateProcessing.ToUpdateData | composeApp/src/desktopMain/kotlin/org/example/project/server/UpdateProcessor.kt:12-17 | the event carries the payload's fields unchanged |
| UpdateProcessing.Processed | composeApp/src/desktopMain/kotlin/org/example/project/server/UpdateProcessor.kt:10-23 | what `process` makes of the store; stated by `UpdateProcessing.IgnoredPayloads`, `UpdateProcessing.PayloadRunsNamedStrategy` and `UpdateProcessing.CreatedPayloadAddsShipment` |
| UpdateProcessing.Process | composeApp/src/desktopMain/kotlin/org/example/project/server/UpdateProcessor.kt:10-23 | the store's value becomes what the strategy named by the payload's type makes of it, and is unchanged when no strategy is named |
| UpdateProcessing.IgnoredPayloads | composeApp/src/desktopMain/kotlin/org/example/project/server/UpdateProcessor.kt:18-22 | a payload naming no strategy, or with a blank type or id or a non-positive timestamp, leaves the store as it was |
| UpdateProcessing.PayloadRunsNamedStrategy | composeApp/src/desktopMain/kotlin/org/example/project/server/UpdateProcessor.kt:18 | a payload whose type is a strategy's name in any letter case acts as that strategy's `execute` |
| UpdateProcessing.CreatedPayloadAddsShipment | composeApp/src/desktopMain/kotlin/org/example/project/server/UpdateProcessor.kt:10-23 | a valid CREATED payload for a new id adds exactly that shipment, CREATED at the payload's time with the variant named by `otherInfo`, and keeps every other entry |
| Hub.Session.Send | composeApp/src/desktopMain/kotlin/org/example/project/ConnectionManager.kt:48 | the session receives one more frame after the earlier ones |
| Hub.Joined | composeApp/src/desktopMain/kotlin/org/example/project/ConnectionManager.kt:24-27 | the session is known with no tracked ids, whatever it had; other sessions are unchanged |
| Hub.Left | composeApp/src/desktopMain/kotlin/org/example/project/ConnectionManager.kt:29-32 | the session is forgotten; other sessions are unchanged |
| Hub.Subscribed | composeApp/src/desktopMain/kotlin/org/example/project/ConnectionManager.kt:34-37 | a known session gains the id; an unknown session is ignored; other sessions are unchanged |
| Hub.Unsubscribed | composeApp/src/desktopMain/kotlin/org/example/project/ConnectionManager.kt:39-42 | a known session loses the id; an unknown session is ignored; other sessions are unchanged |
| Hub.SubscribeMakesRecipient | composeApp/src/desktopMain/kotlin/org/example/project/ConnectionManager.kt:34-37 | a joined session that subscribes receives that id's changes; an unknown one receives nothing; subscribing twice is subscribing once |
| Hub.UnsubscribeStopsDelivery | composeApp/src/desktopMain/kotlin/org/example/project/ConnectionManager.kt:39-42 | after unsubscribing a session no longer receives the id's changes, and every other session receives what it did before |
| Hub.SubscribeOnlyThatId | composeApp/src/desktopMain/kotlin/org/example/project/ConnectionManager.kt:34-37 | subscribing to one id does not change who receives another id |
| Hub.RejoinAndLeaveStopDelivery | composeApp/src/desktopMain/kotlin/org/example/project/ConnectionManager.kt:24-32 | joining again drops a session's subscriptions, and a session that left receives nothing |
| Hub.ConnectionManager.constructor | composeApp/src/desktopMain/kotlin/org/example/project/ConnectionManager.kt:14 | no session is connected at first |
| Hub.ConnectionManager.OnJoin | composeApp/src/desktopMain/kotlin/org/example/project/ConnectionManager.kt:24-27 | the connections become `Joined` of the old ones |
| Hub.ConnectionManager.OnLeave | composeApp/src/desktopMain/kotlin/org/example/project/ConnectionManager.kt:29-32 | the connections become `Left` of the old ones |
| Hub.ConnectionManager.Subscribe | composeApp/src/desktopMain/kotlin/org/example/project/ConnectionManager.kt:34-37 | the connections become `Subscribed` of the old ones |
| Hub.ConnectionManager.Unsubscribe | composeApp/src/desktopMain/kotlin/org/example/project/ConnectionManager.kt:39-42 | the connections become `Unsubscribed` of the old ones |
| Hub.ConnectionManager.NotifyShipmentUpdated | composeApp/src/desktopMain/kotlin/org/example/project/ConnectionManager.kt:44-51 | every session tracking the shipment's id receives its current state exactly once, and no other session receives anything |
| FileProcessing.ValidateUpdateLine | composeApp/src/desktopMain/kotlin/org/example/project/util/FileProcessor.kt:78-91 | `validateUpdateLine`; characterised by `FileProcessing.ValidateUpdateLineFields` and `FileProcessing.ThreeFieldLine` |
| FileProcessing.ValidateUpdateLineFields | composeApp/src/desktopMain/kotlin/org/example/project/util/FileProcessor.kt:78-91 | a line is valid exactly when it has at least three comma-separated fields, the first two are not blank and the trimmed third is a `Long`; the separate blank-line test follows from that |
| FileProcessing.ThreeFieldLine | composeApp/src/desktopMain/kotlin/org/example/project/util/FileProcessor.kt:78-91 | a line of three comma-free fields is valid exactly when type and id are not blank and the trimmed timestamp is a `Long` |
| FileProcessing.BuiltLineIsValid | composeApp/src/desktopMain/kotlin/org/example/project/util/FileProcessor.kt:78-91 | `type,id,timestamp` written from a non-blank type and id and any `Long` is valid |
| FileProcessing.RejectedShapes | composeApp/src/desktopTest/kotlin/org/example/project/strategy/FileProcessorTest.kt:94-100 | the empty line, a one-field line and a line with an empty second field are rejected |
| FileProcessing.NonNumericTimestamp | composeApp/src/desktopTest/kotlin/org/example/project/strategy/FileProcessorTest.kt:100 | the line "CREATED,123,abc", whose timestamp is not a number, is rejected |
| FileProcessing.Enqueued | composeApp/src/desktopMain/kotlin/org/example/project/util/FileProcessor.kt:43-64 | the queue `loadAllUpdates` builds: never longer than the file; its entries and order are stated by `FileProcessing.EnqueuedMembers` and `FileProcessing.EnqueuedAppend` |
| FileProcessing.EnqueuedAppend | composeApp/src/desktopMain/kotlin/org/example/project/util/FileProcessor.kt:50-56 | queuing works line by line: two runs of lines give their two queues one after the other |
| FileProcessing.EnqueuedMembers | composeApp/src/desktopMain/kotlin/org/example/project/util/FileProcessor.kt:50-56 | an entry is queued exactly when it is the trimmed form of a line the filter keeps |
| FileProcessing.QueuedLinesAreValid | composeApp/src/desktopMain/kotlin/org/example/project/util/FileProcessor.kt:52-53 | every queued entry is the trimmed form of a valid line, is its own trim and is not blank |
| FileProcessing.FileProcessor.constructor | composeApp/src/desktopMain/kotlin/org/example/project/util/FileProcessor.kt:10-15 | no file name, an empty queue and zero counters |
| FileProcessing.FileProcessor.LoadAllUpdates | composeApp/src/desktopMain/kotlin/org/example/project/util/FileProcessor.kt:43-64 | the queue becomes the valid lines, trimmed, in file order; the total is their count and the other counters restart at zero |
| FileProcessing.FileProcessor.LoadFile | composeApp/src/desktopMain/kotlin/org/example/project/util/FileProcessor.kt:27-41 | the name is always recorded; true exactly when the file opens, and then its lines are loaded; otherwise queue and counters stay |
| FileProcessing.FileProcessor.GetNextUpdate | composeApp/src/desktopMain/kotlin/org/example/project/util/FileProcessor.kt:66-74 | the oldest queued line leaves the queue and both counters grow by one; on an empty queue nothing is returned and nothing changes |
| FileProcessing.FileProcessor.HasMoreUpdates | composeApp/src/desktopMain/kotlin/org/example/project/util/FileProcessor.kt:76 | true exactly when a line is still queued |
| FileProcessing.FileProcessor.IsEmpty | composeApp/src/desktopMain/kotlin/org/example/project/util/FileProcessor.kt:95 | the opposite of `hasMoreUpdates` |
| FileProcessing.FileProcessor.Reset | composeApp/src/desktopMain/kotlin/org/example/project/util/FileProcessor.kt:100-107 | no file name, an empty queue and zero counters |
| FileProcessing.DrainAll | composeApp/src/desktopMain/kotlin/org/example/project/util/FileProcessor.kt:66-76 | calling `getNextUpdate` until the queue is empty yields the queued lines in order, keeps the file name and the total, and counts every loaded line as processed |
| TrackerView.Created | composeApp/src/desktopMain/kotlin/org/example/project/client/TrackerViewHelper.kt:142-147 | a copy with an untracked id is added; a tracked id keeps its copy; no tracked copy is lost or replaced |
| TrackerView.Updated | composeApp/src/desktopMain/kotlin/org/example/project/client/TrackerViewHelper.kt:135-141 | the tracked ids stay the same; a tracked id gets the pushed copy; every other copy stays |
| TrackerView.Stopped | composeApp/src/desktopMain/kotlin/org/example/project/client/TrackerViewHelper.kt:121-129 | the id is no longer tracked and every other copy stays |
| TrackerView.NotFound | composeApp/src/desktopMain/kotlin/org/example/project/client/TrackerViewHelper.kt:148-152 | `onShipmentNotFound`; `TrackerView.NotFoundIsStop` shows it acts as stopping the tracking |
| TrackerView.Track | composeApp/src/desktopMain/kotlin/org/example/project/client/TrackerViewHelper.kt:104-119 | `trackShipment` with the fetch's outcome; stated by `TrackerView.TrackGuard` and `TrackerView.TrackNewId` |
| TrackerView.RulesKeepKeys | composeApp/src/desktopMain/kotlin/org/example/project/client/TrackerViewHelper.kt:135-152 | every rule keeps each copy filed under its own id |
| TrackerView.TrackGuard | composeApp/src/desktopMain/kotlin/org/example/project/client/TrackerViewHelper.kt:105 | a blank or already tracked id never changes the map, whatever the fetch returns |
| TrackerView.TrackNewId | composeApp/src/desktopMain/kotlin/org/example/project/client/TrackerViewHelper.kt:104-119 | tracking a new non-blank id whose fetch succeeds adds exactly that copy |
| TrackerView.CreatedTwice | composeApp/src/desktopMain/kotlin/org/example/project/client/TrackerViewHelper.kt:142-147 | repeating `onShipmentCreated` changes nothing |
| TrackerView.UpdateNeverAdds | composeApp/src/desktopMain/kotlin/org/example/project/client/TrackerViewHelper.kt:135-141 | an update for an untracked id changes nothing, an update of a tracked id leaves the pushed copy tracked, and an update never changes how many ids are tracked |
| TrackerView.NotFoundIsStop | composeApp/src/desktopMain/kotlin/org/example/project/client/TrackerViewHelper.kt:148-152 | a not-found report acts exactly as stopping the tracking |
| TrackerView.StopThenUpdate | composeApp/src/desktopMain/kotlin/org/example/project/client/TrackerViewHelper.kt:121-141 | after a stop, a pushed update does not bring the id back |
| TrackerView.TrackerViewHelper.constructor | composeApp/src/desktopMain/kotlin/org/example/project/client/TrackerViewHelper.kt:46 | nothing is tracked at first |
| TrackerView.TrackerViewHelper.TrackShipment | composeApp/src/desktopMain/kotlin/org/example/project/client/TrackerViewHelper.kt:104-119 | the map becomes `Track` of the old map, the id and the fetch's outcome |
| TrackerView.TrackerViewHelper.StopTracking | composeApp/src/desktopMain/kotlin/org/example/project/client/TrackerViewHelper.kt:121-129 | the map becomes `Stopped` of the old map |
| TrackerView.TrackerViewHelper.OnShipmentUpdated | composeApp/src/desktopMain/kotlin/org/example/project/client/TrackerViewHelper.kt:135-141 | the map becomes `Updated` of the old map |
| TrackerView.TrackerViewHelper.OnShipmentCreated | composeApp/src/desktopMain/kotlin/org/example/project/client/TrackerViewHelper.kt:142-147 | the map becomes `Created` of the old map |
| TrackerView.TrackerViewHelper.OnShipmentNotFound | composeApp/src/desktopMain/kotlin/org/example/project/client/TrackerViewHelper.kt:148-152 | the map becomes `NotFound` of the old map |

## Left out

- Hub.ConnectionManager.NotifyShipmentUpdated: every send succeeds in the model. In the source a `send` that throws (for example on a closed session) leaves the `forEach`, so the sessions after it receive no frame; that failure path is not modelled.
- Network, WebSocket and HTTP I/O are not modelled.
  - A session's outgoing frames are a sequence of shipment states.
  - The client's fetch arrives as an `Option` value.
  - JSON encoding and decoding, the reconnect loop, status toasts and the client's `track,`/`untrack,` frames are left out.
- Concurrency is not modelled.
  - The store runs as one object without the coroutine scope.
  - The store's `coroutineScope.launch { notifyShipmentUpdated }` calls in `addShipment` and `updateShipment` are not wired to the hub. `NotifyShipmentUpdated` is modelled and proved on its own.
- The observer mechanism is not modelled: `addObserver`, `removeObserver`, `notifyShipmentCreated` and the observer callbacks fired from the shipment.
- Shipments.Shipment.RecordViolation: the body of `recordViolation` is not part of this model, as the base shipment class is not. The model appends the message to a `violations` log field and ASSUMES the call leaves status, expected delivery, location, notes and history unchanged. The frames of `Rules.ShippedEffect` ("location and notes kept" when a violation is raised) and the exact new state of `Strategies.ProcessShipped` rest on that assumption.
- File opening, reading and closing are not modelled.
  - A file arrives as its sequence of lines, or as nothing when it cannot be opened.
  - An I/O error part-way through reading is not modelled.
  - `close`, `getTotalUpdates` and `getFileName` are left out; the last two read a field.
- Date formatting (`getFormattedTimestamp` and the UI's date strings) is left out.
- Integer widths:
  - Timestamps and counters are unbounded integers, so 64-bit `Long` overflow in `createdTimestamp + 3 days` and 32-bit `Int` overflow of the counters are not modelled. `toLongOrNull` itself does enforce the `Long` range.
  - Text.ParseLong: accepts ASCII digits only; Kotlin's `toLongOrNull` also accepts other Unicode decimal digits.
- Text.Uppercase / Text.UpperChar: only ASCII letters are upper-cased, one character for one. Kotlin's `uppercase()` also maps non-ASCII letters, some onto ASCII letters (`ſ` becomes `S`) and some onto longer strings (`ß` becomes `SS`, which changes the length). So names spelled with such letters dispatch differently in the model: `Model.UpdateData.GetUpdateType`, `StrategyFactory.Create`, `UpdateProcessing.Processed` and `Rules.ChosenType` find no strategy for "loſt", where the source finds LostStrategy, and choose STANDARD for "expreſs", where the source chooses EXPRESS.
- FileProcessing.Enqueued: the function's own contract states only a length bound. What the queue holds is stated by `FileProcessing.EnqueuedMembers` and `FileProcessing.EnqueuedAppend`.
- A concrete accepted line such as `CREATED,123,456` is not stated as a lemma of its own. Acceptance of every line of that shape is `FileProcessing.BuiltLineIsValid`.
- The exception thrown by `validateUpdate` is the `rejected` result of `Strategies.Execute`. The logging done by `UpdateProcessor.process`, the strategies and the server is left out.
- The legacy root-package copies of the strategies, store, processor, simulator and shipment class are not part of this model. Neither are the desktop UI and the server's HTTP routes.
