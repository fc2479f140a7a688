/** The single-slot delayed-toggle controller of the relay service, as a state machine
    over values. A `State` holds the relay's logical level and the history of every
    delayed-toggle task created so far; the module-level `toggle_task` slot is the last
    task of that history. Each `After…` function gives the state a handler or the task
    body leaves behind, and `Run` plays a sequence of events. */
module DelayedToggle {

  datatype Option<T> = None | Some(value: T)

  /** Life cycle of one delayed-toggle task: it sleeps (`Pending`), then either wakes
      and flips the relay (`Done`) or is cancelled first (`Cancelled`). */
  datatype TaskStatus = Pending(delay: int) | Done | Cancelled

  /** The relay level and every task ever created, oldest first. */
  datatype State = State(relayOn: bool, tasks: seq<TaskStatus>)

  /** What can happen to the controller: one of the three requests, with its
      already-parsed `toggle_back_after` query parameter, or the wake-up of task `task`. */
  datatype Event = TurnOnRequest(delay: Option<int>)
                 | TurnOffRequest(delay: Option<int>)
                 | ToggleRequest(delay: Option<int>)
                 | Wake(task: nat)

  const OnMessage: string := "Relay turned on"
  const OffMessage: string := "Relay turned off"

  /** The state before any request: the relay at whatever level the line starts at, and
      the slot still empty. */
  function Initial(relayOn: bool): State {
    State(relayOn, [])
  }

  /** The slot holds a task that is not yet done. */
  predicate SlotPending(s: State) {
    |s.tasks| > 0 && s.tasks[|s.tasks| - 1].Pending?
  }

  predicate NonePending(s: State) {
    forall i :: 0 <= i < |s.tasks| ==> !s.tasks[i].Pending?
  }

  /** Every pending task is the one in the slot. */
  predicate SingleSlot(s: State) {
    forall i :: 0 <= i < |s.tasks| && s.tasks[i].Pending? ==> i == |s.tasks| - 1
  }

  /** Python truthiness of the optional integer delay: `None` and `0` are false, every
      other integer, negative ones included, is true. */
  predicate Truthy(delay: Option<int>)
    ensures Truthy(delay) <==> delay != None && delay != Some(0)
    ensures delay.Some? && delay.value < 0 ==> Truthy(delay)
  {
    delay.Some? && delay.value != 0
  }

  /** Label of a relay level, as used in the toggle response and the task's log line. */
  function StateLabel(on: bool): (name: string)
    ensures name == "on" <==> on
    ensures name == "off" <==> !on
  {
    if on then "on" else "off"
  }

  /** The toggle response, built from the level read before the flip. */
  function ToggleMessage(prior: bool): (m: string)
    ensures m == "Relay toggled to on" <==> !prior
    ensures m == "Relay toggled to off" <==> prior
  {
    "Relay toggled to " + StateLabel(!prior)
  }

  /** Number of tasks still pending. */
  function PendingCount(tasks: seq<TaskStatus>): nat {
    if tasks == [] then 0
    else PendingCount(tasks[..|tasks| - 1]) + (if tasks[|tasks| - 1].Pending? then 1 else 0)
  }

  /** `cancel_existing_task`: cancel the slot's task if there is one that is not done. */
  function AfterCancel(s: State): (t: State)
    ensures t.relayOn == s.relayOn
    ensures |t.tasks| == |s.tasks|
    ensures !SlotPending(t)
    ensures !SlotPending(s) ==> t == s
    ensures SlotPending(s) ==>
      t.tasks[|t.tasks| - 1] == Cancelled &&
      forall i :: 0 <= i < |s.tasks| - 1 ==> t.tasks[i] == s.tasks[i]
    ensures SingleSlot(s) ==> NonePending(t)
  {
    if SlotPending(s) then State(s.relayOn, s.tasks[|s.tasks| - 1 := Cancelled]) else s
  }

  /** The shared tail of the handlers: create a task into the slot when the delay is truthy. */
  function Schedule(s: State, delay: Option<int>): (t: State)
    ensures t.relayOn == s.relayOn
    ensures |s.tasks| <= |t.tasks| && t.tasks[..|s.tasks|] == s.tasks
    ensures |t.tasks| == |s.tasks| + 1 <==> Truthy(delay)
    ensures Truthy(delay) ==> t.tasks[|s.tasks|] == Pending(delay.value)
    ensures !Truthy(delay) ==> t == s
  {
    if Truthy(delay) then State(s.relayOn, s.tasks + [Pending(delay.value)]) else s
  }

  /** `turn_relay_on`: cancel, write the relay high, maybe schedule. */
  function AfterTurnOn(s: State, delay: Option<int>): (t: State)
    ensures t.relayOn
    ensures SlotPending(t) <==> Truthy(delay)
    ensures Truthy(delay) ==> t.tasks == AfterCancel(s).tasks + [Pending(delay.value)]
    ensures !Truthy(delay) ==> t.tasks == AfterCancel(s).tasks
    ensures SingleSlot(s) ==> SingleSlot(t)
    ensures SingleSlot(s) && !Truthy(delay) ==> NonePending(t)
  {
    var c := AfterCancel(s);
    Schedule(State(true, c.tasks), delay)
  }

  /** `turn_relay_off`: cancel, write the relay low, maybe schedule. */
  function AfterTurnOff(s: State, delay: Option<int>): (t: State)
    ensures !t.relayOn
    ensures SlotPending(t) <==> Truthy(delay)
    ensures Truthy(delay) ==> t.tasks == AfterCancel(s).tasks + [Pending(delay.value)]
    ensures !Truthy(delay) ==> t.tasks == AfterCancel(s).tasks
    ensures SingleSlot(s) ==> SingleSlot(t)
    ensures SingleSlot(s) && !Truthy(delay) ==> NonePending(t)
  {
    var c := AfterCancel(s);
    Schedule(State(false, c.tasks), delay)
  }

  /** `toggle_relay`: cancel, read the relay, write its negation, maybe schedule. */
  function AfterToggle(s: State, delay: Option<int>): (t: State)
    ensures t.relayOn == !s.relayOn
    ensures SlotPending(t) <==> Truthy(delay)
    ensures Truthy(delay) ==> t.tasks == AfterCancel(s).tasks + [Pending(delay.value)]
    ensures !Truthy(delay) ==> t.tasks == AfterCancel(s).tasks
    ensures SingleSlot(s) ==> SingleSlot(t)
    ensures SingleSlot(s) && !Truthy(delay) ==> NonePending(t)
  {
    var c := AfterCancel(s);
    var current := c.relayOn;
    Schedule(State(!current, c.tasks), delay)
  }

  /** `toggle_relay_state_after` once its sleep is over: read the relay at that moment,
      write the negation and finish. Only a task that is still pending can wake. */
  function AfterFire(s: State, i: nat): (t: State)
    requires i < |s.tasks| && s.tasks[i].Pending?
    ensures t.relayOn == !s.relayOn
    ensures |t.tasks| == |s.tasks| && t.tasks[i] == Done
    ensures forall j :: 0 <= j < |s.tasks| && j != i ==> t.tasks[j] == s.tasks[j]
    ensures SingleSlot(s) ==> i == |s.tasks| - 1 && NonePending(t)
  {
    var current := s.relayOn;
    State(!current, s.tasks[i := Done])
  }

  /** One event. A wake-up of a task that is not pending does not happen: it leaves the
      state as it is. */
  function Step(s: State, e: Event): State {
    match e
    case TurnOnRequest(d) => AfterTurnOn(s, d)
    case TurnOffRequest(d) => AfterTurnOff(s, d)
    case ToggleRequest(d) => AfterToggle(s, d)
    case Wake(i) => if i < |s.tasks| && s.tasks[i].Pending? then AfterFire(s, i) else s
  }

  /** Events in the order the event loop runs them. */
  function Run(s: State, events: seq<Event>): State
    decreases |events|
  {
    if events == [] then s else Run(Step(s, events[0]), events[1..])
  }

  /** No request arrives: the events are wake-ups only. */
  predicate OnlyWakes(events: seq<Event>) {
    forall k :: 0 <= k < |events| ==> events[k].Wake?
  }
}
