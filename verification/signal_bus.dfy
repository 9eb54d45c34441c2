/**
 The room-scoped signalling bus of one browser context: its session
 (user and room), its listener registry, and the handler it installs on the
 shared broadcast channel.

 The broadcast transport is not modelled: every operation returns the
 envelopes it posts and the callbacks it runs, in order, as `Effects`.
 Callbacks are opaque identities; what they do when run is outside the model.
 */
module SignalBus {
  import opened Options
  import opened Json

  /** The identity of a listener callback (`off` removes by reference). */
  type CallbackId = nat

  /** The unit of transport on the shared channel. */
  datatype Envelope = Envelope(roomId: string, event: string, data: Value)

  /** The bus's state; `roomId` is `None` for `null`. */
  datatype Session = Session(userId: string, roomId: Option<string>, listeners: map<string, seq<CallbackId>>)

  /** One call `cb(data)` of a registered listener. */
  datatype Invocation = Invocation(callback: CallbackId, data: Value)

  /** What a step does beyond changing the session: envelopes posted, listeners run. */
  datatype Effects = Effects(posts: seq<Envelope>, calls: seq<Invocation>)

  const NoEffects := Effects([], [])

  const PingEvent := "system:ping"
  const PongEvent := "system:pong"
  const JoinedEvent := "user:joined"
  const LeftEvent := "user:left"

  /** A freshly constructed or disconnected bus. */
  const Initial := Session("", None, map[])

  /** `this.roomId` is truthy: set, and not the empty string. */
  predicate InRoom(s: Session) {
    s.roomId.Some? && s.roomId.value != ""
  }

  /** The callbacks registered for an event, in registration order. */
  function Registered(s: Session, event: string): seq<CallbackId> {
    if event in s.listeners then s.listeners[event] else []
  }

  /** The payload `{userId}` carried by the join and leave announcements. */
  function UserPayload(userId: string): Value {
    Obj(map["userId" := Str(userId)])
  }

  /** The reply to a ping: addressed to the pinged room, naming the responder. */
  function Pong(roomId: string, responderId: string): Envelope {
    Envelope(roomId, PongEvent, Obj(map["responderId" := Str(responderId)]))
  }

  // ---------------------------------------------------------------------------
  // Listener registry
  // ---------------------------------------------------------------------------

  /** `callbacks.forEach(cb => cb(data))`. */
  function Invoke(cbs: seq<CallbackId>, data: Value): (calls: seq<Invocation>)
    ensures |calls| == |cbs|
    ensures forall i :: 0 <= i < |cbs| ==> calls[i] == Invocation(cbs[i], data)
  {
    if |cbs| == 0 then [] else [Invocation(cbs[0], data)] + Invoke(cbs[1..], data)
  }

  /** Runs the listeners registered for an event with the given data (`trigger`). */
  function Trigger(s: Session, event: string, data: Value): (calls: seq<Invocation>)
    ensures |calls| == |Registered(s, event)|
    ensures forall i :: 0 <= i < |calls| ==> calls[i].callback == Registered(s, event)[i] && calls[i].data == data
  {
    Invoke(Registered(s, event), data)
  }

  /** `cbs.filter(c => c !== cb)`. */
  function Without(cbs: seq<CallbackId>, cb: CallbackId): (r: seq<CallbackId>)
    ensures forall c :: c in r <==> c in cbs && c != cb
    ensures |r| <= |cbs|
  {
    if |cbs| == 0 then []
    else if cbs[0] == cb then Without(cbs[1..], cb)
    else [cbs[0]] + Without(cbs[1..], cb)
  }

  /** `on`: appends the callback to the end of that event's list. */
  function On(s: Session, event: string, cb: CallbackId): (r: Session)
    ensures r.userId == s.userId && r.roomId == s.roomId
    ensures r.listeners.Keys == s.listeners.Keys + {event}
    ensures |Registered(r, event)| == |Registered(s, event)| + 1
    ensures Registered(r, event)[|Registered(s, event)|] == cb
    ensures forall i :: 0 <= i < |Registered(s, event)| ==> Registered(r, event)[i] == Registered(s, event)[i]
    ensures forall e :: e in s.listeners && e != event ==> r.listeners[e] == s.listeners[e]
  {
    s.(listeners := s.listeners[event := Registered(s, event) + [cb]])
  }

  /** `off`: removes every registration of that callback for that event; an unknown event is left alone. */
  function Off(s: Session, event: string, cb: CallbackId): (r: Session)
    ensures r.userId == s.userId && r.roomId == s.roomId
    ensures r.listeners.Keys == s.listeners.Keys
    ensures event !in s.listeners ==> r == s
    ensures forall c :: c in Registered(r, event) <==> c in Registered(s, event) && c != cb
    ensures forall e :: e in s.listeners && e != event ==> r.listeners[e] == s.listeners[e]
  {
    if event in s.listeners then s.(listeners := s.listeners[event := Without(s.listeners[event], cb)]) else s
  }

  // ---------------------------------------------------------------------------
  // Session operations
  // ---------------------------------------------------------------------------

  /** `emit`: one envelope into the current room, or nothing outside a room; never a local call. */
  function Emit(s: Session, event: string, data: Value): (e: Effects)
    ensures e.calls == []
    ensures InRoom(s) <==> e.posts != []
    ensures InRoom(s) ==> e.posts == [Envelope(s.roomId.value, event, data)]
  {
    if !InRoom(s) then NoEffects
    else Effects([Envelope(s.roomId.value, event, data)], [])
  }

  /** `connect`: records the user and room; the registry is kept. The join announcement is `JoinTimerFires`. */
  function Connect(s: Session, userId: string, roomId: string): (r: Session)
    ensures r.userId == userId && r.roomId == Some(roomId)
    ensures r.listeners == s.listeners
  {
    Session(userId, Some(roomId), s.listeners)
  }

  /**
   The delayed announcement `connect` schedules: `emit('user:joined', {userId})`
   with the user captured at connect time and the room current when it fires.
   */
  function JoinTimerFires(s: Session, userId: string): (e: Effects)
    ensures e.calls == []
    ensures e.posts != [] <==> InRoom(s)
    ensures InRoom(s) ==> e.posts == [Envelope(s.roomId.value, JoinedEvent, UserPayload(userId))]
  {
    Emit(s, JoinedEvent, UserPayload(userId))
  }

  /** `disconnect`: announces the leave only when in a room, then clears the session and every listener. */
  function Disconnect(s: Session): (r: (Session, Effects))
    ensures r.0 == Initial
    ensures r.1.calls == []
    ensures r.1.posts != [] <==> InRoom(s)
    ensures InRoom(s) ==> r.1.posts == [Envelope(s.roomId.value, LeftEvent, UserPayload(s.userId))]
  {
    (Initial, Emit(s, LeftEvent, UserPayload(s.userId)))
  }

  // ---------------------------------------------------------------------------
  // Inbound handler
  // ---------------------------------------------------------------------------

  /**
   The channel's message handler. A ping is answered with a pong exactly when
   its room is the session's room, and is never passed to listeners; any other
   envelope runs that event's listeners only when the session is in a room and
   the envelope is addressed to it.
   */
  function OnMessage(s: Session, env: Envelope): (e: Effects)
    ensures env.event == PingEvent ==> e.calls == []
    ensures env.event == PingEvent ==> (e.posts != [] <==> s.roomId == Some(env.roomId))
    ensures e.posts != [] ==> e.posts == [Pong(env.roomId, s.userId)]
    ensures env.event != PingEvent ==> e.posts == []
    ensures e.calls != [] ==> InRoom(s) && env.roomId == s.roomId.value
    ensures env.event != PingEvent && InRoom(s) && env.roomId == s.roomId.value ==>
              e.calls == Trigger(s, env.event, env.data)
  {
    if env.event == PingEvent then
      if s.roomId == Some(env.roomId) then Effects([Pong(env.roomId, s.userId)], []) else NoEffects
    else if InRoom(s) && env.roomId == s.roomId.value then
      Effects([], Trigger(s, env.event, env.data))
    else NoEffects
  }

  // ---------------------------------------------------------------------------
  // Sequences of operations on one bus
  // ---------------------------------------------------------------------------

  /** Everything that can happen to one bus: a caller's request, an inbound envelope, the join timer. */
  datatype Op =
    | ConnectOp(userId: string, roomId: string)
    | DisconnectOp
    | EmitOp(event: string, data: Value)
    | OnOp(event: string, cb: CallbackId)
    | OffOp(event: string, cb: CallbackId)
    | Receive(env: Envelope)
    | JoinTimer(userId: string)

  function Apply(s: Session, op: Op): (Session, Effects) {
    match op
    case ConnectOp(u, r) => (Connect(s, u, r), NoEffects)
    case DisconnectOp => Disconnect(s)
    case EmitOp(event, data) => (s, Emit(s, event, data))
    case OnOp(event, cb) => (On(s, event, cb), NoEffects)
    case OffOp(event, cb) => (Off(s, event, cb), NoEffects)
    case Receive(env) => (s, OnMessage(s, env))
    case JoinTimer(u) => (s, JoinTimerFires(s, u))
  }

  /** Runs the operations in order, collecting every effect. */
  function Run(s: Session, ops: seq<Op>): (Session, Effects)
    decreases |ops|
  {
    if |ops| == 0 then (s, NoEffects)
    else
      var (s1, e1) := Apply(s, ops[0]);
      var (s2, e2) := Run(s1, ops[1..]);
      (s2, Effects(e1.posts + e2.posts, e1.calls + e2.calls))
  }
}
