# Relay delayed-toggle controller

A model of the core of PiRelayControl, a small HTTP service that drives one relay. The
relay is reached through one GPIO output line. Three requests switch it: `/relay/on`,
`/relay/off` and `/relay/toggle`. Each takes one optional `toggle_back_after` delay. A
handler first cancels the delayed-toggle task held in the single module-level slot
`toggle_task`, if that task is not done. It then writes the relay. If the delay is truthy,
it creates a new task into the slot. When its sleep ends, the task reads the relay at that
moment and writes the negation.

The model has three modules:

- `DelayedToggle` (`delayed_toggle.dfy`) describes the controller as values. A `State`
  holds the relay level and the history of every task created. Each task is `Pending`,
  `Done` or `Cancelled`. The slot is the last task of the history. The functions
  `AfterCancel`, `AfterTurnOn`, `AfterTurnOff`, `AfterToggle` and `AfterFire` give the state
  each operation leaves behind. `Step` and `Run` play a sequence of requests and wake-ups.
- `Controller` (`relay_controller.dfy`) holds the class `RelayController`. Its fields
  `relayOn` and `tasks` are updated in place, as the handlers update the GPIO line and the
  global slot. Each method is proved to produce the state its `DelayedToggle` function
  gives. Each method also keeps the invariant that only the slot's task can be pending.
- `DelayedToggleProperties` (`properties.dfy`) proves what holds across whole runs.

The handlers contain no `await`, so cancel, write and schedule run without interruption.
The task's only suspension point is its `asyncio.sleep`. A sequential model is therefore
faithful. A wake-up is an explicit event `Wake(i)` or a call `Fire(i)`. It is enabled only
for a task that is still pending. The invariant proves that such a task is always the one
in the slot.

Facts about the code that the model keeps:

- Every route takes the single `toggle_back_after` parameter.
- There is no status route.
- Any truthy delay schedules a task, a negative one included; only `None` and `0` do
  not (app.py:48, 59, 72).
- Cancelling never clears `toggle_task`. The slot keeps referring to the cancelled or
  finished task until a new one replaces it (app.py:35-39).

## Model

| member | source | states |
|---|---|---|
| DelayedToggle.StateLabel | app.py:70 | the label is "on" exactly for the on level and "off" exactly for the off level; used for the toggle response at app.py:70 as well as the task's log line at app.py:31 |
| DelayedToggle.Truthy | app.py:48 | the `if toggle_back_after:` test, shared by the three handlers (app.py:48, 59, 72): `None` and `0` are false, every other integer, negative ones included, is true |
| DelayedToggle.Schedule | app.py:48-49 | the handlers' shared tail (app.py:48-49, 59-60, 72-73): the relay is untouched and the old history is kept; one `Pending` task with the given delay is appended exactly when the delay is truthy, otherwise nothing changes |
| DelayedToggle.ToggleMessage | app.py:68-74 | the toggle response is "Relay toggled to on" exactly when the level read before the flip was off, and "Relay toggled to off" exactly when it was on |
| DelayedToggle.AfterCancel | app.py:35-39 | cancelling never touches the relay; it marks the slot's task cancelled when it is pending and keeps every other task; with the slot empty, done or cancelled it changes nothing; afterwards nothing is pending when only the slot could be |
| DelayedToggle.AfterTurnOn | app.py:42-50 | the relay reads on; the old slot task is cancelled; a new pending task is in the slot exactly when the delay is truthy; otherwise the history is the cancelled one and nothing is pending; the single-slot invariant is kept |
| DelayedToggle.AfterTurnOff | app.py:53-61 | the relay reads off; same cancel, then maybe schedule, behaviour and invariant as turning on |
| DelayedToggle.AfterToggle | app.py:64-74 | the relay reads the negation of its level before the request; same cancel, then maybe schedule, behaviour and invariant |
| DelayedToggle.AfterFire | app.py:27-32 | a waking task writes the negation of the level it reads at wake-up, becomes `Done` and leaves every other task alone; under the invariant it is the slot's task and nothing is pending afterwards |
| Controller.RelayController.constructor | app.py:20 | the slot starts empty with the relay at its initial level, and the invariant holds |
| Controller.RelayController.CancelExisting | app.py:35-39 | the new state is `AfterCancel` of the old one; the relay is unchanged and nothing is pending |
| Controller.RelayController.TurnOn | app.py:42-50 | the new state is `AfterTurnOn` of the old one; the relay is on and the response is exactly "Relay turned on" |
| Controller.RelayController.TurnOff | app.py:53-61 | the new state is `AfterTurnOff` of the old one; the relay is off and the response is exactly "Relay turned off" |
| Controller.RelayController.Toggle | app.py:64-74 | the new state is `AfterToggle` of the old one; the relay is negated and the response is `ToggleMessage` of the prior level |
| Controller.RelayController.Fire | app.py:27-32 | the new state is `AfterFire` of the old one; the woken task is the slot's, the relay is negated and nothing is pending |
| Controller.ClientAutoOff | app.py:42-50 | started off, turning on with delay 2 answers "Relay turned on" and reads on; the task's wake-up switches the relay off |
| Controller.ClientOnThenOff | app.py:42-61 | turning on with a truthy delay and then off without one answers "Relay turned off"; the first task is cancelled, the slot is not pending and the relay is off |
| DelayedToggleProperties.SingleSlotAtMostOne | app.py:20 | under the single-slot invariant at most one task is pending, and exactly one is pending when the slot's task is |
| DelayedToggleProperties.StepKeepsSingleSlot | app.py:35-74 | every request and every wake-up keeps the invariant that a pending task is the slot's |
| DelayedToggleProperties.RunKeepsSingleSlot | app.py:35-74 | any sequence of events keeps that invariant |
| DelayedToggleProperties.AtMostOnePending | app.py:20-74 | from start-up, after any sequence of requests and wake-ups, at most one task is pending, and it is the slot's |
| DelayedToggleProperties.RequestCancelsSlot | app.py:35-74 | every request leaves the previously pending slot task cancelled |
| DelayedToggleProperties.CancelIdempotent | app.py:35-39 | cancelling twice equals cancelling once; cancelling with nothing pending in the slot changes nothing |
| DelayedToggleProperties.NoDelayNoTask | app.py:42-74 | a request without a truthy delay creates no task and leaves nothing pending; the slot keeps the old, now finished or cancelled, task |
| DelayedToggleProperties.FinishedTaskStaysFinished | app.py:27-39 | a done or cancelled task keeps its status forever, and the history only grows |
| DelayedToggleProperties.WakesWithoutPendingChangeNothing | app.py:27-30 | with nothing pending, any number of wake-ups leave the state unchanged |
| DelayedToggleProperties.SupersededTaskNeverFires | app.py:27-74 | a task created by one request is cancelled by the next request and stays cancelled whatever follows, so it never writes the relay |
| DelayedToggleProperties.OnThenOffStaysOff | app.py:42-61 | from any reachable state (all satisfy the single-slot invariant, `AtMostOnePending`), on with a truthy delay, then off without one, then any wake-ups: the relay is off, nothing is pending, the first task is cancelled |
| DelayedToggleProperties.ScheduledTaskTogglesBack | app.py:27-74 | the task a request schedules negates, on waking, the level the request wrote and leaves nothing pending; after a toggle this restores the level from before the request |
| DelayedToggleProperties.AutoOffScenario | app.py:27-50 | started off, on with delay 2 gives the relay on with one pending task; its wake-up gives the relay off with the task done |
| DelayedToggleProperties.PlainToggleStaysOn | app.py:64-74 | started off, a toggle without a delay answers "Relay toggled to on", creates no task, and no later wake-up switches the relay back |

## Left out

- HTTP routing, query parsing and the `RelayResponse` response model are framework plumbing. The delay is an already-parsed `Option<int>`, and a handler returns its message string.
- GPIO mode setup, the `RELAY_PIN` environment variable and `GPIO.cleanup` at shutdown are hardware and process I/O. The line is the boolean field `relayOn`, with any initial level.
- Logging calls and the logging configuration are observability side effects only. The task's log label is `StateLabel`, shared with the toggle response.
- Real time and the event loop are not modelled. The length of the sleep is not modelled, and delays are opaque integers. A wake-up is an explicit event. The model does not decide which pending task the loop wakes or when. It only proves that the task is always the slot's.
- Concurrent dispatch of requests is not modelled. Each handler runs to completion without suspension, so requests are sequential events.
- The history `tasks` keeps every task ever created, not only the slot's. The slot is its last element. The older entries make it possible to state what became of superseded tasks.
