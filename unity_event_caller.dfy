/**
 * `UnityEventCaller`: a two-state switch that fires its main event when
 * switched on and its reset event when switched off. What the events do is
 * outside the model; the switch records which of them it fired, in order.
 */
module Toggle {

  /** An invocation of one of the two `UnityEvent`s. */
  datatype Fired = MainFired | ResetFired

  class UnityEventCaller {
    /** Whether `mainEvent` is set; invoking a missing event does nothing. */
    const hasMain: bool
    /** Whether `resetEvent` is set. */
    const hasReset: bool
    /** `isOn` */
    var isOn: bool
    /** The events fired so far, oldest first. */
    var fired: seq<Fired>

    constructor (hasMain: bool, hasReset: bool)
      ensures this.hasMain == hasMain && this.hasReset == hasReset
      ensures !isOn && fired == []
    {
      this.hasMain := hasMain;
      this.hasReset := hasReset;
      isOn := false;
      fired := [];
    }

    /** What switching to `on` fires: the matching event, when it is set. */
    function Firing(on: bool): (e: seq<Fired>)
    {
      if on then (if hasMain then [MainFired] else [])
      else (if hasReset then [ResetFired] else [])
    }

    /** `InvokeMain`: fires the main event, if set, and leaves the switch on. */
    method InvokeMain()
      modifies this`isOn, this`fired
      ensures isOn
      ensures fired == old(fired) + Firing(true)
      ensures hasMain ==> fired == old(fired) + [MainFired]
      ensures !hasMain ==> fired == old(fired)
    {
      if hasMain {
        fired := fired + [MainFired];
      }
      isOn := true;
    }

    /** `InvokeReset`: fires the reset event, if set, and leaves the switch off. */
    method InvokeReset()
      modifies this`isOn, this`fired
      ensures !isOn
      ensures fired == old(fired) + Firing(false)
      ensures hasReset ==> fired == old(fired) + [ResetFired]
      ensures !hasReset ==> fired == old(fired)
    {
      if hasReset {
        fired := fired + [ResetFired];
      }
      isOn := false;
    }

    /** `SetState(on)`: fires the matching event even when already in that state. */
    method SetState(on: bool)
      modifies this`isOn, this`fired
      ensures isOn == on
      ensures fired == old(fired) + Firing(on)
    {
      if on {
        InvokeMain();
      } else {
        InvokeReset();
      }
    }

    /** `TrySetState(on)`: does nothing when already in that state, and is `SetState(on)` otherwise. */
    method TrySetState(on: bool)
      modifies this`isOn, this`fired
      ensures isOn == on
      ensures old(isOn) == on ==> fired == old(fired)
      ensures old(isOn) != on ==> fired == old(fired) + Firing(on)
    {
      if isOn != on {
        SetState(on);
      }
    }

    /** `ToggleState`: switches to the opposite state, firing its event. */
    method ToggleState()
      modifies this`isOn, this`fired
      ensures isOn == !old(isOn)
      ensures fired == old(fired) + Firing(!old(isOn))
    {
      SetState(!isOn);
    }

    /**
     * What two calls of `ToggleState` fire from state `on`: `Firing(!on)`,
     * then `Firing(on)`. Whichever state they start from, each set event
     * fires exactly once, and the switch is back where it started.
     */
    lemma ToggleTwice(on: bool)
      ensures multiset(Firing(!on) + Firing(!!on)) == multiset(Firing(true)) + multiset(Firing(false))
      ensures |Firing(!on) + Firing(!!on)| == (if hasMain then 1 else 0) + (if hasReset then 1 else 0)
    {
    }
  }
}
