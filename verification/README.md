# StreamMates local backends, modelled in Dafny

StreamMates replaces two backend services with browser-local stand-ins. This
project models both and proves properties about them.

- **Document store** (`services/mongo.ts`): a MongoDB-style `rooms`
  collection. It is an ordered sequence of schema-free documents kept in one
  persisted snapshot. `findOne` returns the first document whose fields strictly
  equal every key of the query. `insertOne` appends. `updateOne` finds the first
  match, then applies `$set`, `$push` and `$pull` in that order. Loading a
  missing or unparseable snapshot yields an empty database.
- **Signalling bus** (`services/mockSocket.ts`): one browser context's
  session (user, room) and listener registry. It also covers the handler that
  answers `system:ping` and delivers room-scoped envelopes to listeners,
  `emit`/`on`/`off`/`connect`/`disconnect`, and the `checkRoom` handshake. That
  handshake settles once: `true` on the first matching `system:pong`, `false` on
  timeout.

Files:

- `json.dfy`: `Options.Option`, plus `Json.Value` (null, bool, integer,
  string, array, object). It also defines JavaScript truthiness and the strict
  equality the store relies on. Every call deserialises the documents afresh, so
  an array or object from the caller never equals a stored field. Only
  primitives can compare equal.
- `document_store.dfy` and `document_store_lemmas.dfy`: the storage slot, the
  collection operations, the update operators, and the properties relating them.
- `signal_bus.dfy` and `signal_bus_lemmas.dfy`: the session, the registry, the
  inbound handler, sequences of bus operations, and two-context delivery.
- `room_probe.dfy` and `room_probe_lemmas.dfy`: `checkRoom` as a state machine
  whose inputs are arriving envelopes and the timeout.

State is never mutated. Every operation takes the storage slot or session and
returns the new one, together with what it produced: the result value, the
envelopes it posts, and the listener calls it makes, in order.

Where the code departs from the usual description of these services, the
model follows the code:

- `updateOne` can also reject, when a field named by `$pull` holds an array.
  Then a `null` condition throws a TypeError when its `.id` is read. With a
  truthy `condition.id`, an array element that is `null` throws too. A
  non-array field is never read, so neither case arises there. When it
  throws, nothing is persisted (`UpdateOutcome.Rejected`).
- The insert-then-find round trip only holds under two conditions. No earlier
  document may match the query, and the query may name only primitive values.
  A query built from a document with an array field never finds that document
  (`InsertThenFind`, `NonPrimitiveQueryMatchesNothing`).
- A session connected with the empty room id counts as "not in a room" for
  `emit`, delivery and `disconnect`, since those test truthiness. It still
  answers pings addressed to the empty room id, because that test is strict
  equality (`PingAnsweredByRoomMembers`).
- The join announcement uses the `userId` captured at `connect`. It goes to
  whatever room is current when the timer fires, so it is sent nowhere after a
  `disconnect` (`JoinAnnouncement`).

## Model

| member | source | states |
|---|---|---|
| DocumentStore.LoadData | services/mongo.ts:110-116 | a missing or unparseable stored value loads as the empty database; a stored snapshot loads as itself |
| DocumentStore.Init | services/mongo.ts:103-108 | the constructor seeds a snapshot exactly when the slot holds nothing (missing or empty text), leaves any other slot, unparseable text included, as it is, and never changes what a load returns |
| DocumentStore.PersistData | services/mongo.ts:118-120 | a write overwrites the slot so that the next load returns exactly the database written |
| DocumentStore.GetData | services/mongo.ts:29-31 | each read materialises the whole collection from the slot: the stored collection, or the empty one when nothing usable is stored |
| DocumentStore.SaveData | services/mongo.ts:33-37 | a write replaces the whole snapshot, and loading it back yields exactly the collection written |
| DocumentStore.MatchLoop | services/mongo.ts:42-45 | the per-key loop accepts a document iff every query key is present in it with a primitive value equal to the query's; the empty query accepts everything |
| DocumentStore.FirstMatch | services/mongo.ts:58-63 | `findIndex` yields -1 iff no document matches, otherwise a matching index before which nothing matches |
| DocumentStore.FindOne | services/mongo.ts:39-47 | `null` iff no document matches; otherwise the document at the first matching position |
| DocumentStore.InsertOne | services/mongo.ts:49-54 | returns the document itself; the collection grows by one with the document last and every earlier document unchanged |
| DocumentStore.ApplySet | services/mongo.ts:69-72 | `$set` adds or overwrites exactly its keys and leaves every other key of the document as it was |
| DocumentStore.ApplyPush | services/mongo.ts:74-81 | `$push` appends its value to a field only when that field holds an array; no field is created and all others are unchanged |
| DocumentStore.PullById | services/mongo.ts:90 | the filter throws iff the array holds `null`; otherwise every element whose `id` strictly equals the pulled id is gone and every other element is kept with its multiplicity |
| DocumentStore.PullField | services/mongo.ts:86-91 | a non-array field is untouched; on an array, a `null` condition throws, a condition with a missing or falsy `id` leaves it as it is, and a truthy `id` filters it, throwing iff the array holds `null` |
| DocumentStore.ApplyPull | services/mongo.ts:83-94 | `$pull` throws iff some named array field's condition throws; otherwise only named array fields with a truthy `condition.id` change, and no key is added or removed |
| DocumentStore.ApplyUpdate | services/mongo.ts:69-94 | only `$pull` can throw; the result has the document's keys plus those `$set` adds; a key no operator names keeps its value; a key only `$set` names takes `$set`'s value |
| DocumentStore.UpdateOne | services/mongo.ts:56-99 | `false` iff nothing matches, and then nothing is written; a rejection writes nothing and happens only when an operator throws on the first match; on `true` only the first matching document changes, to the updated one, and the length is kept |
| DocumentStoreLemmas.EmptyQueryFindsFirst | services/mongo.ts:39-47 | `findOne({})` is the first document of a non-empty collection and `null` on an empty one |
| DocumentStoreLemmas.NonPrimitiveQueryMatchesNothing | services/mongo.ts:40-46 | a query naming an array or object value finds nothing, and `updateOne` with it returns `false` and writes nothing |
| DocumentStoreLemmas.FirstMatchAppend | services/mongo.ts:49-63 | appending keeps an existing first match and otherwise adds the new last position when it matches |
| DocumentStoreLemmas.InsertThenFind | services/mongo.ts:39-54 | after `insertOne`, `findOne` returns the earlier first match if any, else the inserted document if it matches, else `null` |
| DocumentStoreLemmas.InsertThenFindRoundTrip | services/mongo.ts:39-54 | a primitive-valued query that matches the inserted document, and no earlier document, finds a document equal to the inserted one on a fresh load |
| DocumentStoreLemmas.SetThenPush | services/mongo.ts:69-81 | `$set` runs before `$push`: a value pushed onto a key that `$set` just wrote lands at the end of the array `$set` wrote |
| DocumentStoreLemmas.PushThenPull | services/mongo.ts:76-91 | `$push` runs before `$pull`: on an array field, a truthy-id pull filters the array with the pushed value already appended; the update succeeds when `$pull` names only that key |
| DocumentStoreLemmas.SetThenPull | services/mongo.ts:69-91 | `$set` runs before `$pull`: the pull filters the array `$set` wrote, whatever the field held before; the update succeeds when `$pull` names only that key |
| DocumentStoreLemmas.UpdatePerKey | services/mongo.ts:68-94 | an update throws exactly when some `$pull` key throws on its value after `$set` and `$push`; otherwise every key present after `$set` is in the result, holding its `$set` (or original) value, pushed onto if `$push` names it, then pulled from if `$pull` names it, and no other key appears |
| DocumentStoreLemmas.PushIgnoresNonArrays | services/mongo.ts:75-81 | pushing onto a missing or non-array field neither creates nor changes it |
| DocumentStoreLemmas.PullByIdConcat | services/mongo.ts:90 | filtering distributes over concatenation, so kept elements keep their relative order |
| DocumentStoreLemmas.PullByIdIdempotent | services/mongo.ts:90 | pulling the same id again removes nothing more |
| DocumentStoreLemmas.PullByIdKeepsUnmatched | services/mongo.ts:90 | an array with no element carrying the id comes back unchanged |
| DocumentStoreLemmas.FalsyConditionKeepsField | services/mongo.ts:87-91 | a condition whose `id` is missing or falsy (`0`, `""`, `false`, `null`) leaves the array field unchanged |
| DocumentStoreLemmas.OperatorCompositionExample | services/mongo.ts:69-81 | `{id:1, tags:["a"]}` with `$set {name:"x"}` and `$push {tags:"b"}` becomes `{id:1, tags:["a","b"], name:"x"}` |
| DocumentStoreLemmas.PullExample | services/mongo.ts:84-94 | pulling id `"a"` from `tags: [{id:"a"},{id:"b"}]` leaves `tags: [{id:"b"}]` |
| DocumentStoreLemmas.SaveThenLoad | services/mongo.ts:33-37 | saving replaces the whole snapshot: the slot written does not depend on what it held before |
| DocumentStoreLemmas.InitIdempotent | services/mongo.ts:103-108 | seeding twice is seeding once, and seeding does not change what `findOne` returns for any query |
| SignalBus.Invoke | services/mockSocket.ts:124 | `forEach` makes one call per registered callback, in list order, each with the data |
| SignalBus.Trigger | services/mockSocket.ts:121-126 | `trigger` calls exactly the event's registered callbacks, in registration order, each with the data; an unknown event calls nothing |
| SignalBus.Without | services/mockSocket.ts:116 | the filtered list holds exactly the other callbacks |
| SignalBus.On | services/mockSocket.ts:106-111 | `on` appends the callback after the event's existing callbacks; the session and other events' lists are unchanged |
| SignalBus.Off | services/mockSocket.ts:113-118 | `off` drops that callback from the event's list and nothing else; other events are untouched, and an unregistered event leaves the registry as it was |
| SignalBus.Emit | services/mockSocket.ts:95-103 | `emit` posts nothing outside a room; in a room it posts exactly `{roomId, event, data}` and calls no local listener |
| SignalBus.Connect | services/mockSocket.ts:74-78 | `connect` sets user and room and keeps the registry |
| SignalBus.JoinTimerFires | services/mockSocket.ts:80-82 | the delayed join posts `user:joined {userId}` into the current room, or nothing when not in a room |
| SignalBus.Disconnect | services/mockSocket.ts:85-92 | `disconnect` posts `user:left {userId}` into the old room only when in one, then clears the user, room and registry |
| SignalBus.OnMessage | services/mockSocket.ts:17-41 | a ping never reaches listeners, and draws a pong `{responderId: userId}` for its room iff that is the session's room; any other envelope runs that event's listeners only when in a room and addressed to it, and posts nothing |
| SignalBusLemmas.OnThenDeliver | services/mockSocket.ts:106-126 | after `on`, delivery makes the earlier calls and then the new callback's call last; other events deliver as before |
| SignalBusLemmas.OffThenDeliver | services/mockSocket.ts:113-126 | after `off`, delivery makes the same calls in the same order minus the removed callback's; other events deliver as before |
| SignalBusLemmas.OnThenOff | services/mockSocket.ts:106-118 | registering a new callback and removing it restores the event's list |
| SignalBusLemmas.DisconnectSilences | services/mockSocket.ts:85-92 | after `disconnect` no envelope runs a listener or draws a reply, and a second `disconnect` posts nothing |
| SignalBusLemmas.RunWithin | services/mockSocket.ts:17-126 | over any sequence of bus operations, every listener called was in the registry at the start or was registered by an `on` of the sequence |
| SignalBusLemmas.DisconnectForgetsListeners | services/mockSocket.ts:85-92 | after `disconnect`, no listener registered before it is ever called again |
| SignalBusLemmas.PeerDelivery | services/mockSocket.ts:95-103 | an event emitted in a room runs, once each and in order, the listeners of another context joined to that room, and none of the listeners of a context never connected, whatever it has registered with `on` |
| SignalBusLemmas.PingAnsweredByRoomMembers | services/mockSocket.ts:23-33 | a ping is answered iff the session's room equals the pinged room; a session without a room never answers; one connected to `""` answers pings for `""` |
| SignalBusLemmas.JoinAnnouncement | services/mockSocket.ts:74-83 | the join announcement goes into the connected room unless that id is empty, and nowhere once disconnected |
| RoomProbe.Start | services/mockSocket.ts:45-62 | `checkRoom` starts unsettled with its handler attached and timer armed, and posts a ping for the room |
| RoomProbe.Step | services/mockSocket.ts:50-70 | one input keeps the probe valid and never changes a settled value; a matching pong settles `true`, the timeout settles `false`, and anything else leaves it waiting |
| RoomProbeLemmas.FeedValid | services/mockSocket.ts:45-71 | over any inputs the probe stays valid and removes its handler at most once |
| RoomProbeLemmas.SettledStaysSettled | services/mockSocket.ts:52-56 | once settled, later inputs neither change the value nor remove the handler again |
| RoomProbeLemmas.WaitingFollowsDecision | services/mockSocket.ts:50-70 | a waiting probe settles with the value of the first deciding input |
| RoomProbeLemmas.CheckRoomResolvesOnce | services/mockSocket.ts:45-71 | `true` iff a pong for the room comes before the timeout, `false` iff the timeout comes first; the handler is removed once exactly when settled |
| RoomProbeLemmas.CheckRoomSettlementIsFinal | services/mockSocket.ts:50-70 | whatever follows a settling prefix keeps the settled value and the single removal |
| RoomProbeLemmas.TimeoutDecides | services/mockSocket.ts:65-70 | whenever the timeout has fired, the probe has settled |
| RoomProbeLemmas.LateTimeoutIsInert | services/mockSocket.ts:65-70 | a timeout after a successful pong resolves nothing and removes nothing |

## Left out

- The `BroadcastChannel` transport is browser I/O. Posted envelopes are an output sequence. Cross-context delivery, its ordering, and the channel not echoing to the sender are not modelled.
- `setTimeout` timing is not modelled. The 300 ms join delay becomes the separate `JoinTimerFires` step. The 1500 ms timeout (its comment says 2 seconds) becomes the `Timeout` input.
- `localStorage`, `JSON.parse` and `JSON.stringify` are not modelled as text. The slot is absent, unparseable, or a well-formed snapshot.
- A parseable snapshot of the wrong shape (`"null"`, `"{}"`) would make the operations throw. It is not modelled.
- A snapshot's top-level keys other than `rooms`, which `saveData` would carry along, are not modelled.
- The promise wrappers are not modelled. The store is synchronous underneath.
- Races between contexts on the shared storage slot or channel are not modelled. They are concurrency, not sequential behaviour.
- `console.log`, the module-level singletons and the `collection` factory are not modelled.
- The `Room`/`User` types are not part of this model. Documents are opaque field maps, and stored collection entries are always objects.
- Numbers are integers only. NaN and -0 under `!==` are floating point.
- `undefined` as a query or `$set` value is not modelled.
- Value semantics replaces JavaScript aliasing. A `$push` onto an array installed by `$set` also mutates the caller's array. One array given under two `$set` keys receives the push under both. A `$pull` id that is the very object held by a pushed element would compare equal. None of this is modelled.
- What listener callbacks do when called is outside the model. They are opaque identities.
- The alternative `room:check` / `room:available` discovery handshake is not part of this model.
- SignalBus.Off: its own contract states list membership only. The order the remaining callbacks keep is stated by `OffThenDeliver`.
- SignalBus.Without: its own contract states membership only. The kept order is stated by `OffThenDeliver` through `InvokeWithout`.
