/**
 * The process-wide stop state and its two handles.
 *
 * `detail::program_stop_state` holds a stop event, a return code and a
 * message; the first signal with a nonzero code latches them. A
 * `program_stop_source` (which signals) and every `program_stop_sink` built
 * from it (which reads the outcome when the run loop has ended) share one
 * state object through a `shared_ptr`; here they share one heap object.
 */
module Shutdown {
  import opened StopEvents

  /** A request to stop: the code the process should exit with and why. */
  datatype StopRequest = StopRequest(code: int, message: string)

  /** The abstract value of a `program_stop_state`. */
  datatype StopRecord = StopRecord(retcode: int, message: string, event: TimerState)

  function FreshRecord(): StopRecord
  {
    StopRecord(0, "", PendingEvent())
  }

  /** `program_stop_state::signal`: takes effect only while the return code
      is still 0. */
  function SignalStep(r: StopRecord, s: StopRequest): StopRecord
  {
    if r.retcode == 0 then StopRecord(s.code, s.message, AfterTrigger(r.event)) else r
  }

  /** The state after the signals `signals`, in order. */
  function SignalAll(r: StopRecord, signals: seq<StopRequest>): StopRecord
    decreases |signals|
  {
    if signals == [] then r else SignalAll(SignalStep(r, signals[0]), signals[1..])
  }

  /** The invariant of the state: a nonzero return code has triggered the
      event. */
  ghost predicate Consistent(r: StopRecord)
  {
    WellFormed(r.event) && (r.retcode != 0 ==> IsTriggered(r.event))
  }

  lemma FreshIsConsistent()
    ensures Consistent(FreshRecord()) && !IsTriggered(FreshRecord().event)
  {
  }

  lemma SignalKeepsConsistent(r: StopRecord, s: StopRequest)
    requires Consistent(r)
    ensures Consistent(SignalStep(r, s))
  {
  }

  /** Once the return code is nonzero, no signal changes anything. */
  lemma {:induction false} LatchedIgnoresSignals(r: StopRecord, signals: seq<StopRequest>)
    requires r.retcode != 0
    ensures SignalAll(r, signals) == r
    decreases |signals|
  {
    if signals != [] {
      LatchedIgnoresSignals(SignalStep(r, signals[0]), signals[1..]);
    }
  }

  /** First nonzero signal wins: from an unlatched state, the outcome of a
      run of signals is the code and message of its first nonzero signal,
      and the event is triggered. */
  lemma {:induction false} FirstNonzeroWins(r: StopRecord, signals: seq<StopRequest>, k: nat)
    requires r.retcode == 0
    requires k < |signals| && signals[k].code != 0
    requires forall j :: 0 <= j < k ==> signals[j].code == 0
    ensures SignalAll(r, signals).retcode == signals[k].code
    ensures SignalAll(r, signals).message == signals[k].message
    ensures IsTriggered(SignalAll(r, signals).event)
    decreases k
  {
    var next := SignalStep(r, signals[0]);
    if k == 0 {
      LatchedIgnoresSignals(next, signals[1..]);
    } else {
      FirstNonzeroWins(next, signals[1..], k - 1);
    }
  }

  /** Signals with code 0 do not latch: each one overwrites the message and
      (re)triggers the event, and the return code stays 0. */
  lemma {:induction false} ZeroCodesDoNotLatch(r: StopRecord, signals: seq<StopRequest>)
    requires r.retcode == 0 && signals != []
    requires forall j :: 0 <= j < |signals| ==> signals[j].code == 0
    ensures SignalAll(r, signals) == StopRecord(0, signals[|signals| - 1].message, AfterTrigger(r.event))
    decreases |signals|
  {
    var next := SignalStep(r, signals[0]);
    if |signals| > 1 {
      ZeroCodesDoNotLatch(next, signals[1..]);
    }
  }

  /** `detail::program_stop_state`. */
  class ProgramStopState {
    const event: StopEvent
    var message: string
    var retcode: int

    ghost function Record(): StopRecord
      reads this, event.timer
    {
      StopRecord(retcode, message, event.State())
    }

    ghost predicate Valid()
      reads this, event.timer
    {
      Consistent(Record())
    }

    constructor()
      ensures Valid() && fresh(event) && fresh(event.timer)
      ensures Record() == FreshRecord()
    {
      event := new StopEvent();
      message := "";
      retcode := 0;
    }

    method Signal(code: int, msg: string)
      requires Valid()
      modifies this, event.timer
      ensures Valid()
      ensures Record() == SignalStep(old(Record()), StopRequest(code, msg))
    {
      if retcode == 0 {
        retcode := code;
        message := msg;
        event.Trigger();
      }
    }

    /** `async_wait`: waits on the state's event. */
    method Wait() returns (id: nat)
      requires Valid()
      modifies event.timer
      ensures Valid() && retcode == old(retcode) && message == old(message)
      ensures event.State() == AfterAsyncWait(old(event.State()))
      ensures Completed(event.State(), id) <==> old(event.Triggered())
    {
      id := event.Wait();
    }
  }

  /** `program_stop_source`: the handle that signals. Its state is null only
      after the handle has been moved from. */
  class ProgramStopSource {
    var state: ProgramStopState?

    ghost function Repr(): set<object>
      reads this
    {
      if state == null then {} else {state, state.event.timer}
    }

    ghost predicate Valid()
      reads this, Repr()
    {
      state != null ==> state.Valid()
    }

    /** Creates a fresh shared state. */
    constructor()
      ensures Valid() && state != null && fresh(state) && fresh(state.event.timer)
      ensures state.Record() == FreshRecord()
    {
      state := new ProgramStopState();
    }

    /** The copy constructor: both copies share one state. */
    constructor Copy(other: ProgramStopSource)
      ensures state == other.state
    {
      state := other.state;
    }

    /** The move constructor: takes the state and leaves `other` empty. */
    constructor Move(other: ProgramStopSource)
      modifies other
      ensures state == old(other.state) && other.state == null
    {
      state := other.state;
      new;
      other.state := null;
    }

    /** `signal(code, message)`: forwards to the shared state, or does
        nothing when there is none. */
    method Signal(code: int, msg: string)
      requires Valid()
      modifies Repr()
      ensures Valid() && state == old(state)
      ensures state != null ==> state.Record() == SignalStep(old(state.Record()), StopRequest(code, msg))
    {
      if state != null {
        state.Signal(code, msg);
      }
    }

    /** `signal(exception)`: the same as signalling code 127 with the
        exception's text. */
    method SignalException(what: string)
      requires Valid()
      modifies Repr()
      ensures Valid() && state == old(state)
      ensures state != null ==> state.Record() == SignalStep(old(state.Record()), StopRequest(127, what))
    {
      Signal(127, what);
    }
  }

  /** `program_stop_sink`: the handle that reads; it refers to the state of
      the source it was built from and has no operation that signals. */
  class ProgramStopSink {
    const state: ProgramStopState?

    constructor(source: ProgramStopSource)
      ensures state == source.state
      ensures source.state != null ==> source.state.Record() == old(source.state.Record())
    {
      state := source.state;
    }

    method Retcode() returns (code: int)
      requires state != null
      ensures code == state.retcode
    {
      code := state.retcode;
    }

    method Message() returns (msg: string)
      requires state != null
      ensures msg == state.message
    {
      msg := state.message;
    }

    /** `operator()`: waits on the shared state's event. */
    method Wait() returns (id: nat)
      requires state != null && state.Valid()
      modifies state.event.timer
      ensures state.Valid() && state.retcode == old(state.retcode) && state.message == old(state.message)
      ensures state.event.State() == AfterAsyncWait(old(state.event.State()))
      ensures Completed(state.event.State(), id) <==> old(state.event.Triggered())
    {
      id := state.Wait();
    }
  }

  /**
   * Two copies of a source and a sink on one state: whatever is signalled
   * first with a nonzero code through either copy is what the sink reads.
   */
  method SignalThroughCopies(a: ProgramStopSource, b: ProgramStopSource, sink: ProgramStopSink,
                             first: StopRequest, second: StopRequest)
    returns (code: int, msg: string)
    requires a.Valid() && a.state != null && a.state.retcode == 0
    requires b.state == a.state && sink.state == a.state
    modifies a.Repr()
    ensures first.code != 0 ==> code == first.code && msg == first.message
    ensures first.code == 0 ==> code == second.code && msg == second.message
  {
    a.Signal(first.code, first.message);
    b.Signal(second.code, second.message);
    code := sink.Retcode();
    msg := sink.Message();
  }

  /** What a program's `main` reports once its run loop has returned. */
  datatype ProcessExit = ProcessExit(code: int, stderr: string)

  /** `main`'s epilogue: exit with the stop code, and write
      "<program>: <message>" to standard error only when that code is
      nonzero. */
  function ExitStatus(program: string, retcode: int, message: string): (r: ProcessExit)
    ensures r.code == retcode
    ensures r.stderr == "" <==> retcode == 0
    ensures retcode != 0 ==> r.stderr == program + ": " + message + "\n"
  {
    if retcode != 0 then ProcessExit(retcode, program + ": " + message + "\n") else ProcessExit(retcode, "")
  }
}
