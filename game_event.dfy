/**
 * The event registry of `GameEvent` and `GameEventListener`: an event keeps
 * a duplicate-free list of listeners, notifies them from the last
 * registered to the first, and latches that it has been invoked; a
 * listener registers while enabled and answers a notification at once or,
 * when it has a delay, by scheduling a deferred response.
 *
 * What a response does is outside the registry; a listener counts how
 * often its response ran and how many deferred responses are scheduled.
 */
module Events {
  import opened SeqOps

  class GameEvent {
    /** `eventListeners` */
    var listeners: seq<GameEventListener>
    /** `_invoked`, read through `Invoked` */
    var invoked: bool
    /** The listeners notified so far, in notification order. */
    ghost var notified: seq<GameEventListener>

    ghost predicate Valid()
      reads this
    {
      NoDup(listeners)
    }

    constructor ()
      ensures Valid()
      ensures listeners == [] && !invoked && notified == []
    {
      listeners := [];
      invoked := false;
      notified := [];
    }

    /** `RegisterListener`: appends the listener unless it is already registered. */
    method RegisterListener(listener: GameEventListener)
      requires Valid()
      modifies this`listeners
      ensures Valid()
      ensures listener in listeners
      ensures old(listener in listeners) ==> listeners == old(listeners)
      ensures old(listener !in listeners) ==> listeners == old(listeners) + [listener]
    {
      if listener !in listeners {
        AppendNoDup(listeners, listener);
        listeners := listeners + [listener];
      }
    }

    /** `UnregisterListener`: removes the listener when it is registered; the others keep their order. */
    method UnregisterListener(listener: GameEventListener)
      requires Valid()
      modifies this`listeners
      ensures Valid()
      ensures listener !in listeners
      ensures listeners == RemoveFirst(old(listeners), listener)
      ensures multiset(listeners) == multiset(old(listeners)) - multiset{listener}
    {
      RemoveFirstNoDup(listeners, listener);
      if listener in listeners {
        listeners := RemoveFirst(listeners, listener);
      }
    }

    /**
     * `Invoke`/`InvokeLocal`: every registered listener is notified once,
     * from the last registered to the first; then the latch is set. The
     * list itself is not changed.
     */
    method Invoke()
      requires Valid()
      modifies this`invoked, this`notified, set l | l in listeners
      ensures Valid() && invoked
      ensures listeners == old(listeners)
      ensures notified == old(notified) + Reversed(listeners)
      ensures forall k :: 0 <= k < |listeners| ==>
                listeners[k].Answered(old(listeners[k].responses), old(listeners[k].pending))
    {
      var i := |listeners| - 1;
      while i >= 0
        invariant -1 <= i < |listeners|
        invariant notified == old(notified) + Reversed(listeners)[..|listeners| - 1 - i]
        invariant forall k :: i < k < |listeners| ==>
                    listeners[k].Answered(old(listeners[k].responses), old(listeners[k].pending))
        invariant forall k :: 0 <= k <= i ==>
                    listeners[k].responses == old(listeners[k].responses) && listeners[k].pending == old(listeners[k].pending)
      {
        listeners[i].OnEventInvoked();
        notified := notified + [listeners[i]];
        i := i - 1;
      }
      invoked := true;
    }
  }

  class GameEventListener {
    /** `Event` */
    const event: GameEvent
    /** `Delay`, in seconds */
    const delay: real
    /** `CheckTriggered` */
    const checkTriggered: bool
    /** Whether `Response` is set; `Response?.Invoke()` does nothing otherwise. */
    const hasResponse: bool
    /** How many times the response has run. */
    var responses: nat
    /** Deferred responses started by `StartCoroutine` and not yet run or stopped. */
    var pending: nat

    constructor (event: GameEvent, delay: real, checkTriggered: bool, hasResponse: bool)
      ensures this.event == event && this.delay == delay
      ensures this.checkTriggered == checkTriggered && this.hasResponse == hasResponse
      ensures responses == 0 && pending == 0
    {
      this.event := event;
      this.delay := delay;
      this.checkTriggered := checkTriggered;
      this.hasResponse := hasResponse;
      responses := 0;
      pending := 0;
    }

    /** One notification was answered since the counters were `responses0` and `pending0`. */
    ghost predicate Answered(responses0: nat, pending0: nat)
      reads this
    {
      if delay > 0.0 then responses == responses0 && pending == pending0 + 1
      else responses == responses0 + (if hasResponse then 1 else 0) && pending == pending0
    }

    /** `OnEventInvoked`: the response runs now when there is no delay, and is scheduled otherwise. */
    method OnEventInvoked()
      modifies this
      ensures Answered(old(responses), old(pending))
    {
      if delay > 0.0 {
        pending := pending + 1;
      } else if hasResponse {
        responses := responses + 1;
      }
    }

    /** `DelayedResponse` reaching the end of its wait: the scheduled response runs. */
    method DelayedResponse()
      requires pending > 0
      modifies this
      ensures pending == old(pending) - 1
      ensures responses == old(responses) + (if hasResponse then 1 else 0)
    {
      pending := pending - 1;
      if hasResponse {
        responses := responses + 1;
      }
    }

    /**
     * `OnEnable`: registers with the event, then answers at once when
     * `CheckTriggered` holds and the event has already been invoked.
     */
    method OnEnable()
      requires event.Valid()
      modifies event`listeners, this
      ensures event.Valid() && this in event.listeners
      ensures old(this in event.listeners) ==> event.listeners == old(event.listeners)
      ensures old(this !in event.listeners) ==> event.listeners == old(event.listeners) + [this]
      ensures checkTriggered && event.invoked ==> Answered(old(responses), old(pending))
      ensures !(checkTriggered && event.invoked) ==> responses == old(responses) && pending == old(pending)
    {
      event.RegisterListener(this);
      if checkTriggered && event.invoked {
        OnEventInvoked();
      }
    }

    /** `OnDisable`: stops every scheduled response and unregisters from the event. */
    method OnDisable()
      requires event.Valid()
      modifies event`listeners, this
      ensures event.Valid() && this !in event.listeners
      ensures event.listeners == RemoveFirst(old(event.listeners), this)
      ensures pending == 0 && responses == old(responses)
    {
      pending := 0;
      event.UnregisterListener(this);
    }
  }
}
