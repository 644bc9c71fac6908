/** The stream executor's pause/drain state machine. `queueFull()` answers
    with the `paused` flag itself, so `checkPause` can clear the flag but
    never set it: an executor that starts unpaused stays unpaused and its
    drain handler is never called. Message execution itself (`doExecute`)
    lives in the executor base class, which is not part of this model; the
    message id it returns is a parameter, and the result handler's future is
    the entry `futures[id]`. */
module StreamExecution {
  import opened Common

  const FAILURE_MESSAGE: string := "Processing failed."
  const TIMEOUT_MESSAGE: string := "Processing timed out."

  /** A drain handler, identified by a token. */
  type Handler = nat

  /** The state of the future handed to a result handler. */
  datatype Outcome = Pending | Succeeded(result: Json) | Failed(message: string)

  /** The drain calls `checkPause` makes from a given pause flag and handler. */
  function Drain(paused: bool, handler: Option<Handler>): (calls: seq<Handler>)
    ensures |calls| <= 1
    ensures |calls| == 1 <==> paused && handler.Some?
    ensures |calls| == 1 ==> calls[0] == handler.value
  {
    if paused && handler.Some? then [handler.value] else []
  }

  class StreamExecutor {
    var paused: bool
    var drainHandler: Option<Handler>
    /** The drain handlers called so far, in call order. */
    var drained: seq<Handler>
    /** The future of each executed message, by message id. */
    var futures: map<nat, Outcome>

    /** The executor never pauses and so never drains. */
    ghost predicate Quiet()
      reads this
    {
      !paused && drained == []
    }

    constructor ()
      ensures !paused && drainHandler == None && drained == [] && futures == map[]
      ensures Quiet()
    {
      paused := false;
      drainHandler := None;
      drained := [];
      futures := map[];
    }

    /** `queueFull()`: the pause flag. */
    function QueueFull(): (full: bool)
      reads this
      ensures full <==> paused
    {
      paused
    }

    /** `drainHandler(h)`: replaces the handler, nothing else. */
    method SetDrainHandler(h: Option<Handler>)
      modifies this
      ensures drainHandler == h
      ensures paused == old(paused) && drained == old(drained) && futures == old(futures)
    {
      drainHandler := h;
    }

    /** `checkPause()`: a paused executor unpauses and calls its drain
        handler, if any, exactly once; an unpaused one stays unpaused. Either
        way the executor ends unpaused. */
    method CheckPause()
      modifies this
      ensures !paused
      ensures old(paused) && old(drainHandler).Some? ==> drained == old(drained) + [old(drainHandler).value]
      ensures !old(paused) || old(drainHandler).None? ==> drained == old(drained)
      ensures drained == old(drained) + Drain(old(paused), old(drainHandler))
      ensures drainHandler == old(drainHandler) && futures == old(futures)
    {
      if paused {
        if QueueFull() {
          paused := false;
          if drainHandler.Some? {
            drained := drained + [drainHandler.value];
          }
        }
      } else if QueueFull() {
        // Java sets `paused = true` here; `queueFull()` is the flag, which is
        // false on this branch, so the branch is dead.
        assert false;
      }
    }

    /** `execute(args, tag, handler)`: a new pending future for the message
        `id` issued by `doExecute`, then `checkPause`. */
    method Execute(id: nat)
      modifies this
      ensures futures == old(futures)[id := Pending]
      ensures drainHandler == old(drainHandler) && !paused
      ensures drained == old(drained) + Drain(old(paused), old(drainHandler))
      ensures old(Quiet()) ==> Quiet()
    {
      futures := futures[id := Pending];
      CheckPause();
    }

    /** The result callback: the future succeeds with the result, then `checkPause`. */
    method OnResult(id: nat, result: Json)
      modifies this
      ensures futures == old(futures)[id := Succeeded(result)]
      ensures drainHandler == old(drainHandler) && !paused
      ensures drained == old(drained) + Drain(old(paused), old(drainHandler))
      ensures old(Quiet()) ==> Quiet()
    {
      futures := futures[id := Succeeded(result)];
      CheckPause();
    }

    /** The failure callback: the future fails with the fixed failure, then `checkPause`. */
    method OnFailure(id: nat)
      modifies this
      ensures futures == old(futures)[id := Failed(FAILURE_MESSAGE)]
      ensures drainHandler == old(drainHandler) && !paused
      ensures drained == old(drained) + Drain(old(paused), old(drainHandler))
      ensures old(Quiet()) ==> Quiet()
    {
      futures := futures[id := Failed(FAILURE_MESSAGE)];
      CheckPause();
    }

    /** The timeout callback: the future fails with the fixed timeout, then `checkPause`. */
    method OnTimeout(id: nat)
      modifies this
      ensures futures == old(futures)[id := Failed(TIMEOUT_MESSAGE)]
      ensures drainHandler == old(drainHandler) && !paused
      ensures drained == old(drained) + Drain(old(paused), old(drainHandler))
      ensures old(Quiet()) ==> Quiet()
    {
      futures := futures[id := Failed(TIMEOUT_MESSAGE)];
      CheckPause();
    }
  }
}
