/**
 The resolve-once guarantee of `checkRoom`: over any order of arriving
 envelopes and the timeout, the promise settles once, with the value of the
 first deciding input, and the handler is removed exactly once.
 */
module RoomProbeLemmas {
  import opened Options
  import opened Json
  import opened SignalBus
  import opened RoomProbe

  /** Running two stretches of input is running their concatenation. */
  lemma {:induction false} FeedConcat(p: Probe, a: seq<Input>, b: seq<Input>)
    ensures Feed(p, a + b) == Feed(Feed(p, a), b)
    decreases |a|
  {
    if |a| > 0 {
      assert (a + b)[0] == a[0];
      assert (a + b)[1..] == a[1..] + b;
      FeedConcat(Step(p, a[0]), a[1..], b);
    } else {
      assert a + b == b;
    }
  }

  /** A probe stays in a valid state, and never removes its handler more than once. */
  lemma {:induction false} FeedValid(p: Probe, inputs: seq<Input>)
    requires Valid(p)
    ensures Valid(Feed(p, inputs))
    ensures Feed(p, inputs).detaches <= 1
    decreases |inputs|
  {
    if |inputs| > 0 {
      FeedValid(Step(p, inputs[0]), inputs[1..]);
    }
  }

  /** Once the promise has settled, no later input changes its value or removes the handler again. */
  lemma {:induction false} SettledStaysSettled(p: Probe, inputs: seq<Input>)
    requires Valid(p) && p.outcome.Some?
    ensures Feed(p, inputs).outcome == p.outcome
    ensures Feed(p, inputs).detaches == 1
    decreases |inputs|
  {
    if |inputs| > 0 {
      SettledStaysSettled(Step(p, inputs[0]), inputs[1..]);
    }
  }

  /** A waiting probe settles with the value of the first deciding input. */
  lemma {:induction false} WaitingFollowsDecision(p: Probe, inputs: seq<Input>)
    requires Valid(p) && p.outcome.None?
    ensures Feed(p, inputs).outcome == Decision(p.roomId, inputs)
    decreases |inputs|
  {
    if |inputs| > 0 {
      var next := Step(p, inputs[0]);
      if next.outcome.None? {
        WaitingFollowsDecision(next, inputs[1..]);
      } else {
        SettledStaysSettled(next, inputs[1..]);
      }
    }
  }

  /**
   `checkRoom(roomId)` resolves `true` exactly when a pong for the room arrives
   before the timeout, `false` exactly when the timeout comes first, and
   removes its handler exactly once when it settles (never before).
   */
  lemma CheckRoomResolvesOnce(roomId: string, inputs: seq<Input>)
    ensures Feed(Start(roomId).0, inputs).outcome == Decision(roomId, inputs)
    ensures Feed(Start(roomId).0, inputs).detaches == (if Decision(roomId, inputs).Some? then 1 else 0)
  {
    var p := Start(roomId).0;
    WaitingFollowsDecision(p, inputs);
    FeedValid(p, inputs);
  }

  /**
   The first settlement is final: whatever arrives after a prefix that settled
   the probe leaves the outcome and the single removal as they were.
   */
  lemma CheckRoomSettlementIsFinal(roomId: string, before: seq<Input>, after: seq<Input>)
    requires Feed(Start(roomId).0, before).outcome.Some?
    ensures Feed(Start(roomId).0, before + after).outcome == Feed(Start(roomId).0, before).outcome
    ensures Feed(Start(roomId).0, before + after).detaches == 1
  {
    var p := Start(roomId).0;
    FeedValid(p, before);
    FeedConcat(p, before, after);
    SettledStaysSettled(Feed(p, before), after);
  }

  /** Whenever the timeout has fired, the probe has settled. */
  lemma {:induction false} TimeoutDecides(roomId: string, inputs: seq<Input>)
    requires Timeout in inputs
    ensures Decision(roomId, inputs).Some?
    decreases |inputs|
  {
    if inputs[0] != Timeout {
      assert Timeout in inputs[1..];
      TimeoutDecides(roomId, inputs[1..]);
    }
  }

  /** A timeout after a successful pong resolves nothing and removes nothing. */
  lemma LateTimeoutIsInert(p: Probe)
    requires Valid(p) && p.resolved
    ensures Step(p, Timeout).outcome == Some(true)
    ensures Step(p, Timeout).detaches == p.detaches == 1
    ensures !Step(p, Timeout).attached
  {
  }
}
