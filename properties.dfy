/** What the single-slot protocol guarantees across whole runs of requests and
    wake-ups. */
module DelayedToggleProperties {
  import opened DelayedToggle

  /** A history where every task is finished or cancelled has no pending task to count. */
  lemma {:induction false} NoPendingCountsZero(tasks: seq<TaskStatus>)
    requires forall i :: 0 <= i < |tasks| ==> !tasks[i].Pending?
    ensures PendingCount(tasks) == 0
  {
    if tasks != [] {
      NoPendingCountsZero(tasks[..|tasks| - 1]);
    }
  }

  /** The single-slot invariant means literally "at most one pending task", and the
      count is one exactly when the slot's task is pending. */
  lemma SingleSlotAtMostOne(s: State)
    requires SingleSlot(s)
    ensures PendingCount(s.tasks) <= 1
    ensures PendingCount(s.tasks) == 1 <==> SlotPending(s)
  {
    if s.tasks != [] {
      var older := s.tasks[..|s.tasks| - 1];
      NoPendingCountsZero(older);
    }
  }

  /** Any event keeps the invariant: a request cancels the old slot task before it may
      create the next, and only the slot's task can wake. */
  lemma StepKeepsSingleSlot(s: State, e: Event)
    requires SingleSlot(s)
    ensures SingleSlot(Step(s, e))
  {
  }

  lemma {:induction false} RunKeepsSingleSlot(s: State, events: seq<Event>)
    requires SingleSlot(s)
    ensures SingleSlot(Run(s, events))
    decreases |events|
  {
    if events != [] {
      StepKeepsSingleSlot(s, events[0]);
      RunKeepsSingleSlot(Step(s, events[0]), events[1..]);
    }
  }

  /** From start-up, across any sequence of requests and wake-ups, at most one created
      task is pending, and a pending task is the one in the slot. */
  lemma AtMostOnePending(initiallyOn: bool, events: seq<Event>)
    ensures var t := Run(Initial(initiallyOn), events);
      SingleSlot(t) && PendingCount(t.tasks) <= 1 &&
      (PendingCount(t.tasks) == 1 <==> SlotPending(t))
  {
    RunKeepsSingleSlot(Initial(initiallyOn), events);
    SingleSlotAtMostOne(Run(Initial(initiallyOn), events));
  }

  /** Every request cancels the slot's task when it is not done. */
  lemma RequestCancelsSlot(s: State, e: Event)
    requires !e.Wake? && SlotPending(s)
    ensures |Step(s, e).tasks| >= |s.tasks|
    ensures Step(s, e).tasks[|s.tasks| - 1] == Cancelled
  {
  }

  /** Cancelling when the slot is empty, finished or already cancelled changes nothing,
      and so cancelling twice is the same as cancelling once. */
  lemma CancelIdempotent(s: State)
    ensures AfterCancel(AfterCancel(s)) == AfterCancel(s)
    ensures !SlotPending(s) ==> AfterCancel(s) == s
  {
  }

  /** Without a truthy delay a request leaves nothing pending, while the slot keeps
      referring to the old finished or cancelled task. */
  lemma NoDelayNoTask(s: State, e: Event)
    requires SingleSlot(s) && !e.Wake? && !Truthy(e.delay)
    ensures NonePending(Step(s, e))
    ensures Step(s, e).tasks == AfterCancel(s).tasks
  {
  }

  /** A finished or cancelled task never changes again, whatever happens next; the
      history only grows. */
  lemma {:induction false} FinishedTaskStaysFinished(s: State, events: seq<Event>, k: nat)
    requires k < |s.tasks| && !s.tasks[k].Pending?
    ensures |Run(s, events).tasks| >= |s.tasks|
    ensures Run(s, events).tasks[k] == s.tasks[k]
    decreases |events|
  {
    if events != [] {
      var next := Step(s, events[0]);
      assert |next.tasks| >= |s.tasks| && next.tasks[k] == s.tasks[k];
      FinishedTaskStaysFinished(next, events[1..], k);
    }
  }

  /** When nothing is pending, wake-ups find nothing to run. */
  lemma {:induction false} WakesWithoutPendingChangeNothing(s: State, events: seq<Event>)
    requires NonePending(s) && OnlyWakes(events)
    ensures Run(s, events) == s
    decreases |events|
  {
    if events != [] {
      assert Step(s, events[0]) == s;
      WakesWithoutPendingChangeNothing(s, events[1..]);
    }
  }

  /** A request that arrives before a scheduled task wakes supersedes it: the task is
      cancelled and never writes the relay, whatever happens afterwards. */
  lemma SupersededTaskNeverFires(s: State, first: Event, second: Event, later: seq<Event>)
    requires SingleSlot(s)
    requires !first.Wake? && Truthy(first.delay)
    requires !second.Wake?
    ensures var k := |s.tasks|;
      var t := Run(Step(Step(s, first), second), later);
      k < |t.tasks| && t.tasks[k] == Cancelled
  {
    var s1 := Step(s, first);
    var s2 := Step(s1, second);
    assert s1.tasks[|s.tasks|] == Pending(first.delay.value);
    assert s2.tasks[|s.tasks|] == Cancelled;
    FinishedTaskStaysFinished(s2, later, |s.tasks|);
  }

  /** Turning the relay on with a delay and then off without one before the task wakes
      leaves it off for good: the first task is cancelled and no wake-up flips the relay. */
  lemma OnThenOffStaysOff(s: State, d: Option<int>, offDelay: Option<int>, wakes: seq<Event>)
    requires SingleSlot(s) && Truthy(d) && !Truthy(offDelay) && OnlyWakes(wakes)
    ensures var t := Run(AfterTurnOff(AfterTurnOn(s, d), offDelay), wakes);
      !t.relayOn && NonePending(t) && |s.tasks| < |t.tasks| && t.tasks[|s.tasks|] == Cancelled
  {
    var s2 := AfterTurnOff(AfterTurnOn(s, d), offDelay);
    WakesWithoutPendingChangeNothing(s2, wakes);
  }

  /** The task a request schedules, when it wakes before any other request, reads the
      level the request wrote and switches it back; nothing is pending afterwards. After a
      toggle this restores the level seen before the request. */
  lemma ScheduledTaskTogglesBack(s: State, e: Event)
    requires SingleSlot(s) && !e.Wake? && Truthy(e.delay)
    ensures var scheduled := Step(s, e);
      var i := |scheduled.tasks| - 1;
      var t := Step(scheduled, Wake(i));
      t.relayOn == !scheduled.relayOn && t.tasks[i] == Done && NonePending(t)
    ensures e.ToggleRequest? ==> Step(Step(s, e), Wake(|s.tasks|)).relayOn == s.relayOn
  {
  }

  /** Started with the relay off, `/relay/on?toggle_back_after=2` switches the relay on
      and schedules one task; when that task wakes the relay is off again and nothing is
      pending. */
  lemma AutoOffScenario()
    ensures Run(Initial(false), [TurnOnRequest(Some(2))]) == State(true, [Pending(2)])
    ensures Run(Initial(false), [TurnOnRequest(Some(2)), Wake(0)]) == State(false, [Done])
  {
  }

  /** Started with the relay off, `/relay/toggle` without a delay switches it on, creates
      no task, and no later wake-up switches it back. */
  lemma {:induction false} PlainToggleStaysOn(wakes: seq<Event>)
    requires OnlyWakes(wakes)
    ensures ToggleMessage(Initial(false).relayOn) == "Relay toggled to on"
    ensures Run(Initial(false), [ToggleRequest(None)] + wakes) == State(true, [])
  {
    var s := Initial(false);
    var events := [ToggleRequest(None)] + wakes;
    assert events[1..] == wakes;
    WakesWithoutPendingChangeNothing(Step(s, events[0]), wakes);
  }
}
