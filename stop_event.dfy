/**
 * The broadcast stop event (`stop_event`) and its read-only view
 * (`stop_listener`).
 *
 * The event is a steady timer used as a one-shot latch: an expiry at the
 * clock's maximum means "pending" (no wait ever completes by itself), an
 * expiry at the minimum means "triggered" (it lies in the past, so every
 * wait completes at once). Re-setting the expiry cancels every pending wait,
 * and because a wait on the event discards the timer's error code, a waiter
 * cancelled by `trigger` and one that starts after it both just complete.
 *
 * The timer is a class of its own so that a listener can hold a reference
 * to the very timer inside its event, as the source's `timer_` member does.
 * Waiters are numbered in the order they register; `waiting` holds the ones
 * not yet completed.
 */
module StopEvents {

  /** The expiries the timer takes: the clock's minimum, its epoch (a
      freshly constructed timer's default) and its maximum. */
  datatype Expiry = Min | Default | Max

  /** The abstract value of a timer: its expiry, how many waits were ever
      registered on it, and which of those are still pending. */
  datatype TimerState = TimerState(expiry: Expiry, registered: nat, waiting: set<nat>)

  /** The waiter numbers handed out while `n` waits were registered. */
  function Ids(n: nat): (r: set<nat>)
    ensures forall i: nat :: i in r <==> i < n
  {
    if n == 0 then {} else Ids(n - 1) + {n - 1}
  }

  /** `expires_at(e)`: the new expiry is `e`, and every pending wait is
      cancelled, i.e. completes. */
  function AfterExpiresAt(t: TimerState, e: Expiry): TimerState
  {
    TimerState(e, t.registered, {})
  }

  /** `async_wait`: the new waiter gets the next number; it stays pending
      only when the expiry lies in the future, which only `Max` does. */
  function AfterAsyncWait(t: TimerState): TimerState
  {
    if t.expiry == Max then
      TimerState(t.expiry, t.registered + 1, t.waiting + {t.registered})
    else
      TimerState(t.expiry, t.registered + 1, t.waiting)
  }

  /** Waiter `id` was registered and has completed. */
  predicate Completed(t: TimerState, id: nat)
  {
    id < t.registered && id !in t.waiting
  }

  /** The timer of a freshly constructed event: expiry at the maximum and
      nobody waiting. */
  function PendingEvent(): TimerState
  {
    TimerState(Max, 0, {})
  }

  /** `stop_event::trigger`. */
  function AfterTrigger(t: TimerState): TimerState
  {
    AfterExpiresAt(t, Min)
  }

  /** `stop_event::triggered`. */
  predicate IsTriggered(t: TimerState)
  {
    t.expiry == Min
  }

  /** What holds of an event's timer at every point: it is pending or
      triggered, a triggered timer has nobody waiting, and only registered
      waiters can be waiting. */
  ghost predicate WellFormed(t: TimerState)
  {
    && t.expiry != Default
    && (t.expiry == Min ==> t.waiting == {})
    && t.waiting <= Ids(t.registered)
  }

  lemma TriggerIdempotent(t: TimerState)
    ensures AfterTrigger(AfterTrigger(t)) == AfterTrigger(t)
    ensures IsTriggered(AfterTrigger(t))
  {
  }

  lemma TriggerWakesEveryWaiter(t: TimerState, id: nat)
    requires id < t.registered
    ensures Completed(AfterTrigger(t), id)
  {
  }

  lemma WaitCompletesAtOnceIffTriggered(t: TimerState)
    requires WellFormed(t)
    ensures WellFormed(AfterAsyncWait(t))
    ensures Completed(AfterAsyncWait(t), t.registered) <==> IsTriggered(t)
  {
  }

  /** The two things anybody does with an event: trigger it or wait on it. */
  datatype EventOp = TriggerOp | WaitOp

  function Apply(t: TimerState, op: EventOp): TimerState
  {
    match op
    case TriggerOp => AfterTrigger(t)
    case WaitOp => AfterAsyncWait(t)
  }

  /** The timer after the operations `ops`, in order. */
  function Run(t: TimerState, ops: seq<EventOp>): TimerState
    decreases |ops|
  {
    if ops == [] then t else Run(Apply(t, ops[0]), ops[1..])
  }

  function CountWaits(ops: seq<EventOp>): nat
  {
    if ops == [] then 0 else (if ops[0] == WaitOp then 1 else 0) + CountWaits(ops[1..])
  }

  /** No operation takes a triggered event back to pending or leaves a
      waiter pending on it. */
  lemma {:induction false} StaysTriggered(t: TimerState, ops: seq<EventOp>)
    requires IsTriggered(t) && t.waiting == {}
    ensures IsTriggered(Run(t, ops)) && Run(t, ops).waiting == {}
    ensures Run(t, ops).registered == t.registered + CountWaits(ops)
    decreases |ops|
  {
    if ops != [] {
      StaysTriggered(Apply(t, ops[0]), ops[1..]);
    }
  }

  /**
   * Fan-out: starting from a pending event whose every registered waiter is
   * still waiting, a run that contains a trigger leaves the event triggered
   * with every waiter (registered before or after the trigger) completed;
   * a run without a trigger completes no waiter at all.
   */
  lemma {:induction false} FanOut(t: TimerState, ops: seq<EventOp>)
    requires t.expiry == Max && t.waiting == Ids(t.registered)
    ensures Run(t, ops).registered == t.registered + CountWaits(ops)
    ensures TriggerOp in ops ==> IsTriggered(Run(t, ops)) && Run(t, ops).waiting == {}
    ensures TriggerOp !in ops ==>
              Run(t, ops).expiry == Max && Run(t, ops).waiting == Ids(Run(t, ops).registered)
    decreases |ops|
  {
    if ops != [] {
      assert ops == [ops[0]] + ops[1..];
      var next := Apply(t, ops[0]);
      if ops[0] == TriggerOp {
        StaysTriggered(next, ops[1..]);
      } else {
        assert next.waiting == Ids(next.registered);
        FanOut(next, ops[1..]);
      }
    }
  }

  /** A `steady_timer`, reduced to its expiry and its waiters. */
  class Timer {
    var expiry: Expiry
    var registered: nat
    var waiting: set<nat>

    function State(): TimerState
      reads this
    {
      TimerState(expiry, registered, waiting)
    }

    constructor()
      ensures State() == TimerState(Default, 0, {})
    {
      expiry, registered, waiting := Default, 0, {};
    }

    method ExpiresAt(e: Expiry)
      modifies this
      ensures State() == AfterExpiresAt(old(State()), e)
    {
      expiry := e;
      waiting := {};
    }

    method AsyncWait() returns (id: nat)
      modifies this
      ensures id == old(registered)
      ensures State() == AfterAsyncWait(old(State()))
    {
      id := registered;
      if expiry == Max {
        waiting := waiting + {id};
      }
      registered := registered + 1;
    }
  }

  /** `stop_event`: owns its timer. */
  class StopEvent {
    const timer: Timer

    ghost predicate Valid()
      reads timer
    {
      WellFormed(timer.State())
    }

    function State(): TimerState
      reads timer
    {
      timer.State()
    }

    constructor()
      ensures fresh(timer) && Valid()
      ensures State() == PendingEvent() && !Triggered()
    {
      var t := new Timer();
      t.ExpiresAt(Max);
      timer := t;
    }

    /** `trigger`: the one mutator; moves to triggered and completes every
        pending wait. */
    method Trigger()
      requires Valid()
      modifies timer
      ensures Valid() && Triggered()
      ensures State() == AfterTrigger(old(State()))
      ensures forall id :: 0 <= id < State().registered ==> Completed(State(), id)
    {
      timer.ExpiresAt(Min);
    }

    predicate Triggered()
      reads timer
    {
      timer.expiry == Min
    }

    /** `operator()`: registers a wait, which completes at once exactly when
        the event is already triggered and otherwise at the next trigger. */
    method Wait() returns (id: nat)
      requires Valid()
      modifies timer
      ensures Valid() && State() == AfterAsyncWait(old(State()))
      ensures id == old(State().registered)
      ensures Completed(State(), id) <==> old(Triggered())
      ensures Triggered() == old(Triggered())
    {
      id := timer.AsyncWait();
    }
  }

  /** `stop_listener`: a non-owning view that refers to its event's timer. */
  class StopListener {
    const timer: Timer
    ghost const event: StopEvent

    ghost predicate Valid()
    {
      timer == event.timer
    }

    constructor(e: StopEvent)
      ensures Valid() && event == e
      ensures e.State() == old(e.State())
    {
      timer := e.timer;
      event := e;
    }

    predicate Triggered()
      reads timer
    {
      timer.expiry == Min
    }

    method Wait() returns (id: nat)
      requires Valid() && event.Valid()
      modifies timer
      ensures event.Valid() && event.State() == AfterAsyncWait(old(event.State()))
      ensures id == old(event.State().registered)
      ensures Completed(event.State(), id) <==> old(event.Triggered())
    {
      id := timer.AsyncWait();
    }
  }

  /** A listener reports exactly what its event reports, at every point. */
  lemma ListenerAgrees(l: StopListener)
    requires l.Valid()
    ensures l.Triggered() == l.event.Triggered()
  {
  }

  /** Any two listeners on one event agree with each other. */
  lemma ListenersAgree(a: StopListener, b: StopListener)
    requires a.Valid() && b.Valid() && a.event == b.event
    ensures a.Triggered() == b.Triggered()
  {
  }
}
