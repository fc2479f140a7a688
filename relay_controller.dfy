/** The request handlers and the delayed-toggle task body, acting in place on the
    relay line and the `toggle_task` slot. Each method is proved to leave exactly the
    state the matching function of `DelayedToggle` describes. */
module Controller {
  import opened DelayedToggle

  class RelayController {
    /** Logical level of the relay line (`GPIO.input` / `GPIO.output`). */
    var relayOn: bool
    /** Every delayed-toggle task created so far; the last one is the slot. */
    var tasks: seq<TaskStatus>

    function Snapshot(): State
      reads this
    {
      State(relayOn, tasks)
    }

    /** At most one task is pending, and it is the slot's. */
    ghost predicate Valid()
      reads this
    {
      SingleSlot(Snapshot())
    }

    constructor (initiallyOn: bool)
      ensures Valid()
      ensures Snapshot() == Initial(initiallyOn)
    {
      relayOn := initiallyOn;
      tasks := [];
    }

    /** `cancel_existing_task`. */
    method CancelExisting()
      requires Valid()
      modifies this
      ensures Valid()
      ensures Snapshot() == AfterCancel(old(Snapshot()))
      ensures relayOn == old(relayOn) && NonePending(Snapshot())
    {
      if |tasks| > 0 && tasks[|tasks| - 1].Pending? {
        tasks := tasks[|tasks| - 1 := Cancelled];
      }
    }

    /** `turn_relay_on`. */
    method TurnOn(delay: Option<int>) returns (message: string)
      requires Valid()
      modifies this
      ensures Valid()
      ensures Snapshot() == AfterTurnOn(old(Snapshot()), delay)
      ensures relayOn && message == OnMessage
    {
      CancelExisting();
      relayOn := true;
      if Truthy(delay) {
        tasks := tasks + [Pending(delay.value)];
      }
      message := OnMessage;
    }

    /** `turn_relay_off`. */
    method TurnOff(delay: Option<int>) returns (message: string)
      requires Valid()
      modifies this
      ensures Valid()
      ensures Snapshot() == AfterTurnOff(old(Snapshot()), delay)
      ensures !relayOn && message == OffMessage
    {
      CancelExisting();
      relayOn := false;
      if Truthy(delay) {
        tasks := tasks + [Pending(delay.value)];
      }
      message := OffMessage;
    }

    /** `toggle_relay`. */
    method Toggle(delay: Option<int>) returns (message: string)
      requires Valid()
      modifies this
      ensures Valid()
      ensures Snapshot() == AfterToggle(old(Snapshot()), delay)
      ensures relayOn == !old(relayOn) && message == ToggleMessage(old(relayOn))
    {
      CancelExisting();
      var current := relayOn;
      relayOn := !current;
      var newStateName := StateLabel(!current);
      if Truthy(delay) {
        tasks := tasks + [Pending(delay.value)];
      }
      message := "Relay toggled to " + newStateName;
    }

    /** `toggle_relay_state_after` waking from its sleep: task `i` must still be pending,
        and the invariant makes it the slot's. */
    method Fire(i: nat)
      requires Valid()
      requires i < |tasks| && tasks[i].Pending?
      modifies this
      ensures Valid()
      ensures Snapshot() == AfterFire(old(Snapshot()), i)
      ensures i == |tasks| - 1 && relayOn == !old(relayOn) && NonePending(Snapshot())
    {
      var current := relayOn;
      relayOn := !current;
      tasks := tasks[i := Done];
    }
  }

  /** A client of the handlers: started with the relay off, `/relay/on?toggle_back_after=2`
      answers "Relay turned on" and switches the relay on, and the task it creates switches
      it off again when it wakes. */
  method ClientAutoOff() returns (message: string, onAfterRequest: bool, onAfterWake: bool)
    ensures message == "Relay turned on" && onAfterRequest && !onAfterWake
  {
    var relay := new RelayController(false);
    message := relay.TurnOn(Some(2));
    onAfterRequest := relay.relayOn;
    relay.Fire(0);
    onAfterWake := relay.relayOn;
  }

  /** A client that turns the relay on with a delay and off again before the task wakes:
      the first task ends cancelled, the slot holds no pending task, so nothing can switch
      the relay back on. */
  method ClientOnThenOff(initiallyOn: bool, delay: int)
    returns (message: string, firstTask: TaskStatus, slotPending: bool, finalOn: bool)
    requires delay != 0
    ensures message == "Relay turned off" && firstTask == Cancelled
    ensures !slotPending && !finalOn
  {
    var relay := new RelayController(initiallyOn);
    var _ := relay.TurnOn(Some(delay));
    message := relay.TurnOff(None);
    firstTask := relay.tasks[0];
    slotPending := relay.tasks[|relay.tasks| - 1].Pending?;
    finalOn := relay.relayOn;
  }
}
