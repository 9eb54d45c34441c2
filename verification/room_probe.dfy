/**
 The room-discovery handshake `checkRoom(roomId)`: a temporary handler is
 attached to the shared channel, a ping is posted for the room, and the
 returned promise settles `true` on the first matching pong or `false` when
 the timeout fires first. Either path detaches the handler exactly once.

 The timer is not modelled as time: its firing is one of the inputs.
 */
module RoomProbe {
  import opened Options
  import opened Json
  import opened SignalBus

  /** One pending `checkRoom` call. */
  datatype Probe = Probe(
    roomId: string,
    resolved: bool,         // the handshake's own `resolved` flag
    attached: bool,         // the pong handler is still registered on the channel
    timerPending: bool,     // the timeout has not fired yet
    outcome: Option<bool>,  // the value the promise settled with, if any
    detaches: nat)          // how many times the handler has been removed

  /** What can happen to a pending probe: an envelope arrives, or the timeout fires. */
  datatype Input = Message(env: Envelope) | Timeout

  /** The ping `checkRoom` posts. */
  function PingFor(roomId: string): Envelope {
    Envelope(roomId, PingEvent, Obj(map[]))
  }

  /** Attaching the handler, posting the ping and arming the timer. */
  function Start(roomId: string): (r: (Probe, Envelope))
    ensures r.0.roomId == roomId && r.0.attached && r.0.timerPending
    ensures r.0.outcome.None? && r.0.detaches == 0 && !r.0.resolved
    ensures r.1.roomId == roomId && r.1.event == PingEvent
  {
    (Probe(roomId, false, true, true, None, 0), PingFor(roomId))
  }

  /** Resolving a promise that has already settled has no effect. */
  function Settle(outcome: Option<bool>, v: bool): Option<bool> {
    if outcome.None? then Some(v) else outcome
  }

  /** A pong for the probed room. */
  predicate Answers(roomId: string, env: Envelope) {
    env.roomId == roomId && env.event == PongEvent
  }

  /** The states a probe can be in: still waiting (handler attached) or settled (handler removed once). */
  predicate Valid(p: Probe) {
    && (p.attached ==> p.detaches == 0 && p.outcome.None? && !p.resolved && p.timerPending)
    && (!p.attached ==> p.detaches == 1 && p.outcome.Some?)
    && (p.resolved <==> p.outcome.Some? && p.outcome.value)
    && (p.outcome.Some? && !p.outcome.value ==> !p.timerPending)
  }

  /**
   One input. The handler sees messages only while attached; the timer fires
   at most once and does nothing when the handshake has already resolved.
   */
  function Step(p: Probe, input: Input): (r: Probe)
    ensures r.roomId == p.roomId
    ensures Valid(p) ==> Valid(r)
    ensures p.outcome.Some? ==> r.outcome == p.outcome
    ensures p.detaches <= r.detaches <= p.detaches + 1
    ensures Valid(p) && p.outcome.None? && input.Message? ==>
              r.outcome == (if Answers(p.roomId, input.env) then Some(true) else None)
    ensures Valid(p) && p.outcome.None? && input.Timeout? ==> r.outcome == Some(false)
  {
    match input
    case Message(env) =>
      if p.attached && Answers(p.roomId, env) then
        p.(resolved := true, attached := false, detaches := p.detaches + 1, outcome := Settle(p.outcome, true))
      else p
    case Timeout =>
      if !p.timerPending then p
      else if !p.resolved then
        p.(timerPending := false, attached := false, detaches := p.detaches + 1, outcome := Settle(p.outcome, false))
      else p.(timerPending := false)
  }

  /** Feeds the inputs to the probe in order. */
  function Feed(p: Probe, inputs: seq<Input>): Probe
    decreases |inputs|
  {
    if |inputs| == 0 then p else Feed(Step(p, inputs[0]), inputs[1..])
  }

  /**
   The reference outcome: the first input that decides the handshake, a pong
   for the room (`true`) or the timeout (`false`); `None` if neither came.
   */
  function Decision(roomId: string, inputs: seq<Input>): Option<bool>
    decreases |inputs|
  {
    if |inputs| == 0 then None
    else match inputs[0]
      case Timeout => Some(false)
      case Message(env) => if Answers(roomId, env) then Some(true) else Decision(roomId, inputs[1..])
  }
}
