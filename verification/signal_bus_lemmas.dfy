/**
 Properties of the signalling bus that relate several operations: delivery
 order after `on`, what `off` takes away, what `disconnect` leaves behind, and
 delivery between two contexts joined to the same room.
 */
module SignalBusLemmas {
  import opened Options
  import opened Json
  import opened SignalBus

  // ---------------------------------------------------------------------------
  // on / off against delivery
  // ---------------------------------------------------------------------------

  lemma {:induction false} InvokeAppend(cbs: seq<CallbackId>, cb: CallbackId, data: Value)
    ensures Invoke(cbs + [cb], data) == Invoke(cbs, data) + [Invocation(cb, data)]
  {
    if |cbs| > 0 {
      assert (cbs + [cb])[1..] == cbs[1..] + [cb];
      InvokeAppend(cbs[1..], cb, data);
    } else {
      assert cbs + [cb] == [cb];
    }
  }

  /** An envelope addressed to the session's room is delivered to the event's listeners. */
  predicate Deliverable(s: Session, env: Envelope) {
    env.event != PingEvent && InRoom(s) && env.roomId == s.roomId.value
  }

  /**
   A callback registered with `on` runs last, after every callback registered
   before it for the same event; listeners of other events run as before.
   */
  lemma OnThenDeliver(s: Session, event: string, cb: CallbackId, env: Envelope)
    requires Deliverable(s, env)
    ensures env.event == event ==>
              OnMessage(On(s, event, cb), env).calls == OnMessage(s, env).calls + [Invocation(cb, env.data)]
    ensures env.event != event ==> OnMessage(On(s, event, cb), env) == OnMessage(s, env)
  {
    if env.event == event {
      InvokeAppend(Registered(s, event), cb, env.data);
    } else {
      assert Registered(On(s, event, cb), env.event) == Registered(s, env.event);
    }
  }

  /** The invocations left after removing every call of one callback. */
  function DropCalls(calls: seq<Invocation>, cb: CallbackId): (r: seq<Invocation>)
    ensures forall c :: c in r <==> c in calls && c.callback != cb
  {
    if |calls| == 0 then []
    else if calls[0].callback == cb then DropCalls(calls[1..], cb)
    else [calls[0]] + DropCalls(calls[1..], cb)
  }

  lemma {:induction false} InvokeWithout(cbs: seq<CallbackId>, cb: CallbackId, data: Value)
    ensures Invoke(Without(cbs, cb), data) == DropCalls(Invoke(cbs, data), cb)
  {
    if |cbs| > 0 {
      InvokeWithout(cbs[1..], cb, data);
      assert Invoke(cbs, data)[1..] == Invoke(cbs[1..], data);
      if cbs[0] != cb {
        assert ([cbs[0]] + Without(cbs[1..], cb))[1..] == Without(cbs[1..], cb);
      }
    }
  }

  /**
   After `off`, delivering an envelope runs exactly the calls it ran before,
   in the same order, minus the calls of the removed callback; other events
   are unaffected.
   */
  lemma OffThenDeliver(s: Session, event: string, cb: CallbackId, env: Envelope)
    requires Deliverable(s, env)
    ensures env.event == event ==> OnMessage(Off(s, event, cb), env).calls == DropCalls(OnMessage(s, env).calls, cb)
    ensures env.event != event ==> OnMessage(Off(s, event, cb), env) == OnMessage(s, env)
  {
    if env.event == event {
      InvokeWithout(Registered(s, event), cb, env.data);
      if event !in s.listeners {
        assert Registered(Off(s, event, cb), event) == [] == Without([], cb);
      }
    } else {
      assert Registered(Off(s, event, cb), env.event) == Registered(s, env.event);
    }
  }

  lemma {:induction false} WithoutAbsent(cbs: seq<CallbackId>, cb: CallbackId)
    requires cb !in cbs
    ensures Without(cbs, cb) == cbs
  {
    if |cbs| > 0 {
      WithoutAbsent(cbs[1..], cb);
      assert [cbs[0]] + cbs[1..] == cbs;
    }
  }

  lemma {:induction false} WithoutAppend(cbs: seq<CallbackId>, cb: CallbackId)
    ensures Without(cbs + [cb], cb) == Without(cbs, cb)
  {
    if |cbs| == 0 {
      assert cbs + [cb] == [cb];
      assert [cb][1..] == [];
    } else {
      assert (cbs + [cb])[1..] == cbs[1..] + [cb];
      WithoutAppend(cbs[1..], cb);
    }
  }

  /** Registering a new callback and removing it again restores that event's list. */
  lemma OnThenOff(s: Session, event: string, cb: CallbackId)
    requires cb !in Registered(s, event)
    ensures Registered(Off(On(s, event, cb), event, cb), event) == Registered(s, event)
  {
    WithoutAppend(Registered(s, event), cb);
    WithoutAbsent(Registered(s, event), cb);
  }

  // ---------------------------------------------------------------------------
  // disconnect
  // ---------------------------------------------------------------------------

  /** After `disconnect` nothing inbound runs a listener or draws a reply, and a second `disconnect` posts nothing. */
  lemma DisconnectSilences(s: Session, env: Envelope)
    ensures OnMessage(Disconnect(s).0, env) == NoEffects
    ensures Disconnect(Disconnect(s).0).1 == NoEffects
  {
  }

  /** Every callback in the registry belongs to `allowed`. */
  predicate RegistryWithin(s: Session, allowed: set<CallbackId>) {
    forall event, cb :: event in s.listeners && cb in s.listeners[event] ==> cb in allowed
  }

  /** The callbacks registered by the `on` operations of a sequence. */
  function Registrations(ops: seq<Op>): set<CallbackId> {
    if |ops| == 0 then {}
    else (if ops[0].OnOp? then {ops[0].cb} else {}) + Registrations(ops[1..])
  }

  /** Each operation keeps the registry inside what was allowed plus what it registers itself. */
  lemma ApplyWithin(s: Session, op: Op, allowed: set<CallbackId>)
    requires RegistryWithin(s, allowed)
    ensures RegistryWithin(Apply(s, op).0, allowed + if op.OnOp? then {op.cb} else {})
    ensures forall c :: c in Apply(s, op).1.calls ==> c.callback in allowed
  {
    match op
    case OffOp(event, cb) =>
      var r := Off(s, event, cb);
      forall e, c | e in r.listeners && c in r.listeners[e]
        ensures c in allowed
      {
        if e == event {
          assert c in Registered(r, event);
        }
      }
    case OnOp(event, cb) =>
      var r := On(s, event, cb);
      forall e, c | e in r.listeners && c in r.listeners[e]
        ensures c in allowed + {cb}
      {
        if e == event {
          assert c in Registered(s, event) + [cb];
        }
      }
    case Receive(env) =>
      forall c | c in OnMessage(s, env).calls
        ensures c.callback in allowed
      {
        var calls := OnMessage(s, env).calls;
        var i :| 0 <= i < |calls| && calls[i] == c;
        assert c.callback in Registered(s, env.event);
      }
    case _ =>
  }

  /**
   Over any sequence of operations, every listener that runs was registered
   beforehand or by one of the sequence's own `on` operations.
   */
  lemma {:induction false} RunWithin(s: Session, ops: seq<Op>, allowed: set<CallbackId>)
    requires RegistryWithin(s, allowed)
    ensures forall c :: c in Run(s, ops).1.calls ==> c.callback in allowed + Registrations(ops)
    decreases |ops|
  {
    if |ops| > 0 {
      var op := ops[0];
      var extra: set<CallbackId> := if op.OnOp? then {op.cb} else {};
      ApplyWithin(s, op, allowed);
      RunWithin(Apply(s, op).0, ops[1..], allowed + extra);
    }
  }

  /**
   Once the bus is disconnected, no listener registered before the disconnect
   ever runs again: only callbacks registered afterwards can be called.
   */
  lemma DisconnectForgetsListeners(s: Session, ops: seq<Op>)
    ensures forall c :: c in Run(s, [DisconnectOp] + ops).1.calls ==> c.callback in Registrations(ops)
  {
    var all := [DisconnectOp] + ops;
    assert all[1..] == ops;
    assert RegistryWithin(Initial, {});
    RunWithin(Initial, ops, {});
    var (s1, e1) := Apply(s, DisconnectOp);
    assert s1 == Initial && e1.calls == [];
  }

  // ---------------------------------------------------------------------------
  // Two contexts
  // ---------------------------------------------------------------------------

  /**
   A context in a room emits an event; another context joined to the same room
   runs its listeners for that event with the data, in order, exactly once each;
   a context never connected runs none of its listeners, whatever it registered.
   */
  lemma PeerDelivery(sender: Session, receiver: Session, idle: Session, event: string, data: Value)
    requires InRoom(sender) && receiver.roomId == sender.roomId
    requires idle.roomId.None?
    requires event != PingEvent
    ensures |Emit(sender, event, data).posts| == 1
    ensures OnMessage(receiver, Emit(sender, event, data).posts[0]).calls == Trigger(receiver, event, data)
    ensures OnMessage(receiver, Emit(sender, event, data).posts[0]).posts == []
    ensures OnMessage(idle, Emit(sender, event, data).posts[0]) == NoEffects
  {
  }

  /**
   A ping for a room is answered by a context joined to it, and only by such a
   context; a context connected with the empty room id is not in a room for
   `emit`, but still answers pings addressed to the empty room id.
   */
  lemma PingAnsweredByRoomMembers(s: Session, roomId: string, data: Value)
    ensures OnMessage(s, Envelope(roomId, PingEvent, data)).posts
            == if s.roomId == Some(roomId) then [Pong(roomId, s.userId)] else []
    ensures s.roomId.None? ==> OnMessage(s, Envelope(roomId, PingEvent, data)) == NoEffects
    ensures s.roomId == Some("") ==> !InRoom(s) && OnMessage(s, Envelope("", PingEvent, data)).posts == [Pong("", s.userId)]
  {
  }

  /**
   The join announcement goes to the room current when the timer fires: into
   the connected room if still there, and nowhere after a `disconnect`.
   */
  lemma JoinAnnouncement(s: Session, userId: string, roomId: string)
    ensures JoinTimerFires(Connect(s, userId, roomId), userId).posts
            == if roomId != "" then [Envelope(roomId, JoinedEvent, UserPayload(userId))] else []
    ensures JoinTimerFires(Disconnect(Connect(s, userId, roomId)).0, userId) == NoEffects
  {
  }
}
