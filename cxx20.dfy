/**
 * cxx20.cpp: a self-contained variant of the server with its own stop
 * state. Its `latch` and `read_latch` are the same timer-based event and
 * view as `stop_event` and `stop_listener`, so they are modelled by
 * `StopEvent` and `StopListener`. Its `program_stop` holds a latch, a code
 * and a message; `stopped()` is the latch's `triggered()`.
 *
 * As written, `stop` never triggers the latch (see `StopStepAsWritten`);
 * the rest of this module uses the evidently intended `StopStep`, which
 * triggers it.
 */
module Cxx20 {
  import opened AsioErrors
  import opened StopEvents
  import opened Shutdown
  import opened Interrupt

  /** The abstract value of a `program_stop`. */
  datatype StopValue = StopValue(code: int, message: string, latch: TimerState)

  function FreshStop(): StopValue
  {
    StopValue(0, "", PendingEvent())
  }

  /** `stop(retcode, msg)` as written: overwrites while not stopped, and
      leaves the latch alone. */
  function StopStepAsWritten(p: StopValue, req: StopRequest): StopValue
  {
    if !IsTriggered(p.latch) then StopValue(req.code, req.message, p.latch) else p
  }

  /** `stop(retcode, msg)` as intended: the first stop records its code and
      message and triggers the latch, so later stops are ignored. */
  function StopStep(p: StopValue, req: StopRequest): StopValue
  {
    if !IsTriggered(p.latch) then StopValue(req.code, req.message, AfterTrigger(p.latch)) else p
  }

  function StopAllAsWritten(p: StopValue, reqs: seq<StopRequest>): StopValue
    decreases |reqs|
  {
    if reqs == [] then p else StopAllAsWritten(StopStepAsWritten(p, reqs[0]), reqs[1..])
  }

  function StopAll(p: StopValue, reqs: seq<StopRequest>): StopValue
    decreases |reqs|
  {
    if reqs == [] then p else StopAll(StopStep(p, reqs[0]), reqs[1..])
  }

  /** As written, from a state that is not stopped, the last of any run of
      stops wins and the program is never stopped: `stopped()` stays false
      and waiters on the latch are never woken. */
  lemma {:induction false} AsWrittenLastStopWins(p: StopValue, reqs: seq<StopRequest>)
    requires !IsTriggered(p.latch) && reqs != []
    ensures StopAllAsWritten(p, reqs) ==
              StopValue(reqs[|reqs| - 1].code, reqs[|reqs| - 1].message, p.latch)
    ensures !IsTriggered(StopAllAsWritten(p, reqs).latch)
    decreases |reqs|
  {
    if |reqs| > 1 {
      AsWrittenLastStopWins(StopStepAsWritten(p, reqs[0]), reqs[1..]);
    }
  }

  /** The concrete case: Ctrl-C stops with 4, then the listener fails and
      stops with 127; the program reports the failure, not the interrupt,
      and is still not stopped. */
  lemma AsWrittenInterruptOverwritten()
    ensures StopAllAsWritten(FreshStop(), [StopRequest(4, "interrupted"), StopRequest(127, "accept failed")]) ==
              StopValue(127, "accept failed", PendingEvent())
  {
    AsWrittenLastStopWins(FreshStop(), [StopRequest(4, "interrupted"), StopRequest(127, "accept failed")]);
  }

  /** With the latch triggered by `stop`, the first stop wins and the
      program is stopped from then on. */
  lemma {:induction false} FirstStopWins(p: StopValue, reqs: seq<StopRequest>)
    requires !IsTriggered(p.latch) && reqs != []
    ensures StopAll(p, reqs) == StopValue(reqs[0].code, reqs[0].message, AfterTrigger(p.latch))
    ensures IsTriggered(StopAll(p, reqs).latch)
  {
    StoppedIgnoresStops(StopStep(p, reqs[0]), reqs[1..]);
  }

  lemma {:induction false} StoppedIgnoresStops(p: StopValue, reqs: seq<StopRequest>)
    requires IsTriggered(p.latch)
    ensures StopAll(p, reqs) == p
    decreases |reqs|
  {
    if reqs != [] {
      StoppedIgnoresStops(StopStep(p, reqs[0]), reqs[1..]);
    }
  }

  /** `program_stop`. */
  class ProgramStop {
    const latch: StopEvent
    var code: int
    var message: string

    function Value(): StopValue
      reads this, latch.timer
    {
      StopValue(code, message, latch.State())
    }

    ghost predicate Valid()
      reads latch.timer
    {
      latch.Valid()
    }

    constructor()
      ensures Valid() && fresh(latch) && fresh(latch.timer)
      ensures Value() == FreshStop() && !Stopped()
    {
      latch := new StopEvent();
      code := 0;
      message := "";
    }

    /** `stopped()`: the latch's `triggered()`. */
    predicate Stopped()
      reads latch.timer
    {
      latch.Triggered()
    }

    /** `operator read_latch()`: a view on this stop's latch. */
    method ReadLatch() returns (l: StopListener)
      ensures fresh(l) && l.Valid() && l.event == latch
      ensures l.Triggered() == Stopped()
    {
      l := new StopListener(latch);
    }

    /** `stop(retcode, msg)` exactly as written. */
    method StopAsWritten(retcode: int, msg: string)
      modifies this
      ensures Value() == StopStepAsWritten(old(Value()), StopRequest(retcode, msg))
      ensures Stopped() == old(Stopped())
    {
      if !Stopped() {
        code := retcode;
        message := msg;
      }
    }

    /** `stop(retcode, msg)` as intended: also triggers the latch. */
    method Stop(retcode: int, msg: string)
      requires Valid()
      modifies this, latch.timer
      ensures Valid() && Stopped()
      ensures Value() == StopStep(old(Value()), StopRequest(retcode, msg))
    {
      if !Stopped() {
        code := retcode;
        message := msg;
        latch.Trigger();
      }
    }

    /** `stop(exception)`: the same as stopping with code 127 and the
        exception's text. */
    method StopException(what: string)
      requires Valid()
      modifies this, latch.timer
      ensures Valid() && Stopped()
      ensures Value() == StopStep(old(Value()), StopRequest(127, what))
    {
      Stop(127, what);
    }

    /** `operator()`: waits on the latch. */
    method Wait() returns (id: nat)
      requires Valid()
      modifies latch.timer
      ensures Valid() && latch.State() == AfterAsyncWait(old(latch.State()))
      ensures Completed(latch.State(), id) <==> old(Stopped())
    {
      id := latch.Wait();
    }
  }

  // ---------------------------------------------------------------------
  // listen

  /** The outcome of `acceptor.async_accept(sock, as_tuple) || pstop`:
      the accept completed with its error code, or the latch fired first
      because another task stopped the program with `request`. */
  datatype AcceptRace = Accepted(ec: ErrorCode) | LatchFired(request: StopRequest)

  /** What `listen` does with an accept's error code. */
  datatype AcceptAction = Spawn | Retry | Leave | Fail(ec: Failure)

  function AcceptDecision(ec: ErrorCode): (a: AcceptAction)
    ensures a == Spawn <==> ec == NoError
    ensures a == Retry <==> ec == ConnectionAborted
    ensures a == Leave <==> ec == OperationAborted
    ensures a.Fail? <==> ec.OtherError?
    ensures a.Fail? ==> a.ec == ec
  {
    if ec == NoError then Spawn
    else if ec == ConnectionAborted then Retry
    else if ec == OperationAborted then Leave
    else Fail(ec)
  }

  /** A run of the accept loop: how many rounds it began (each prints
      "accepting..."), how many connections it spawned, how it ended, and
      the other task's stop that fired the latch, if that ended it. */
  datatype LoopRun = LoopRun(rounds: nat, spawned: nat, end: TaskEnd, stoppedBy: Option<StopRequest>)

  /** A race outcome after which the loop goes round again: a connection
      was accepted, or the accept was aborted by the peer. */
  predicate Continues(race: AcceptRace)
  {
    race.Accepted? && (AcceptDecision(race.ec) == Spawn || AcceptDecision(race.ec) == Retry)
  }

  function Spawns(race: AcceptRace): nat
  {
    if race.Accepted? && race.ec == NoError then 1 else 0
  }

  function CountSpawns(races: seq<AcceptRace>): nat
  {
    if races == [] then 0 else Spawns(races[0]) + CountSpawns(races[1..])
  }

  /** The accept loop entered while the program is not stopped. A fired
      latch means the program is now stopped, so the loop condition ends
      the loop. */
  function AcceptLoopSpec(races: seq<AcceptRace>): LoopRun
    decreases |races|
  {
    if races == [] then LoopRun(1, 0, Suspended, None)
    else if Continues(races[0]) then
      var rest := AcceptLoopSpec(races[1..]);
      LoopRun(rest.rounds + 1, rest.spawned + Spawns(races[0]), rest.end, rest.stoppedBy)
    else
      match races[0]
      case LatchFired(req) => LoopRun(1, 0, Returned, Some(req))
      case Accepted(ec) =>
        if ec == OperationAborted then LoopRun(1, 0, Returned, None)
        else LoopRun(1, 0, Threw(ec), None)
  }

  /** The accept loop, which does not run at all when the program is
      already stopped. */
  function LoopSpec(stopped: bool, races: seq<AcceptRace>): LoopRun
  {
    if stopped then LoopRun(0, 0, Returned, None) else AcceptLoopSpec(races)
  }

  /** `listen`: a failure to set up the acceptor (`setup` is the error the
      setup calls threw, `NoError` if none) leaves before the loop. */
  function ListenSpec(stopped: bool, setup: ErrorCode, races: seq<AcceptRace>): LoopRun
  {
    if setup != NoError then LoopRun(0, 0, Threw(setup), None) else LoopSpec(stopped, races)
  }

  function Accepting(n: nat): (r: seq<string>)
    ensures |r| == n && forall i :: 0 <= i < n ==> r[i] == "accepting...\n"
  {
    seq(n, _ => "accepting...\n")
  }

  /** Everything `listen` prints for a run of its loop. */
  function ListenLines(run: LoopRun): seq<string>
  {
    ["creating acceptor\n"] + Accepting(run.rounds) +
      match run.end
      case Returned => ["listen: exit\n"]
      case Threw(ec) => ["listen: exception: " + Message(ec) + "\n"]
      case Suspended => []
  }

  /** Continuing outcomes only add rounds and spawns: what follows them
      decides how the loop ends. */
  lemma {:induction false} AcceptLoopSkips(races: seq<AcceptRace>, k: nat)
    requires k <= |races|
    requires forall j :: 0 <= j < k ==> Continues(races[j])
    ensures AcceptLoopSpec(races).rounds == k + AcceptLoopSpec(races[k..]).rounds
    ensures AcceptLoopSpec(races).spawned == CountSpawns(races[..k]) + AcceptLoopSpec(races[k..]).spawned
    ensures AcceptLoopSpec(races).end == AcceptLoopSpec(races[k..]).end
    ensures AcceptLoopSpec(races).stoppedBy == AcceptLoopSpec(races[k..]).stoppedBy
    decreases k
  {
    if k > 0 {
      AcceptLoopSkips(races[1..], k - 1);
      assert races[1..][k - 1..] == races[k..];
      assert races[..k][1..] == races[1..][..k - 1];
    }
  }

  /**
   * The accept loop is decided by the first outcome that does not go round
   * again: a stop by another task or `operation_aborted` leaves the loop
   * normally, any other error is thrown out of it. Before that, one
   * connection is spawned per successful accept.
   */
  lemma ListenDecidedBy(races: seq<AcceptRace>, k: nat)
    requires k < |races| && !Continues(races[k])
    requires forall j :: 0 <= j < k ==> Continues(races[j])
    ensures AcceptLoopSpec(races).rounds == k + 1
    ensures AcceptLoopSpec(races).spawned == CountSpawns(races[..k])
    ensures races[k].LatchFired? ==>
              AcceptLoopSpec(races).end == Returned && AcceptLoopSpec(races).stoppedBy == Some(races[k].request)
    ensures races[k] == Accepted(OperationAborted) ==>
              AcceptLoopSpec(races).end == Returned && AcceptLoopSpec(races).stoppedBy.None?
    ensures races[k].Accepted? && races[k].ec != OperationAborted ==>
              races[k].ec.OtherError? && AcceptLoopSpec(races).end == Threw(races[k].ec) &&
              AcceptLoopSpec(races).stoppedBy.None?
  {
    AcceptLoopSkips(races, k);
  }

  /** While every outcome goes round again, the loop stays in its race. */
  lemma ListenUndecided(races: seq<AcceptRace>)
    requires forall j :: 0 <= j < |races| ==> Continues(races[j])
    ensures AcceptLoopSpec(races) == LoopRun(|races| + 1, CountSpawns(races), Suspended, None)
  {
    AcceptLoopSkips(races, |races|);
    assert races[..|races|] == races;
  }

  /** Only a normal exit follows another task's stop: a run the latch ended
      returns, and neither throws nor stays suspended. */
  lemma {:induction false} FiredLatchReturns(races: seq<AcceptRace>)
    ensures AcceptLoopSpec(races).stoppedBy.Some? ==> AcceptLoopSpec(races).end == Returned
    decreases |races|
  {
    if races != [] && Continues(races[0]) {
      FiredLatchReturns(races[1..]);
    }
  }

  /** A failure to set up the acceptor is printed right after "creating
      acceptor", with no round of the loop, and ends `listen`. */
  lemma SetupFailureReported(stopped: bool, setup: Failure, races: seq<AcceptRace>)
    ensures ListenLines(ListenSpec(stopped, setup, races)) ==
              ["creating acceptor\n", "listen: exception: " + Message(setup) + "\n"]
  {
    assert Accepting(0) == [];
  }

  /** The `while (!pstop.stopped())` loop of `listen`: each round prints
      "accepting..." and races an accept against the latch. A fired latch
      is another task's stop, applied to `pstop`, after which the loop
      condition fails; a thrown accept error is returned as the loop's
      end. */
  method AcceptLoop(pstop: ProgramStop, races: seq<AcceptRace>) returns (out: seq<string>, run: LoopRun)
    requires pstop.Valid()
    modifies pstop, pstop.latch.timer
    ensures pstop.Valid()
    ensures run == LoopSpec(old(pstop.Stopped()), races) && out == Accepting(run.rounds)
    ensures pstop.Value() == ApplyOther(old(pstop.Value()), run.stoppedBy)
  {
    ghost var p0 := pstop.Value();
    ghost var spec := AcceptLoopSpec(races);
    var fired: Option<StopRequest> := None;
    var spawned := 0;
    var i := 0;
    out := [];
    while !pstop.Stopped()
      invariant pstop.Valid()
      invariant 0 <= i <= |races| && out == Accepting(i)
      invariant fired.None? ==> pstop.Value() == p0
      invariant fired.None? ==> spec.rounds == i + AcceptLoopSpec(races[i..]).rounds
      invariant fired.None? ==> spec.spawned == spawned + AcceptLoopSpec(races[i..]).spawned
      invariant fired.None? ==> spec.end == AcceptLoopSpec(races[i..]).end
      invariant fired.None? ==> spec.stoppedBy == AcceptLoopSpec(races[i..]).stoppedBy
      invariant fired.None? && IsTriggered(p0.latch) ==> i == 0 && spawned == 0
      invariant fired.Some? ==> !IsTriggered(p0.latch) && pstop.Value() == StopStep(p0, fired.value)
      invariant fired.Some? ==> spec == LoopRun(i, spawned, Returned, fired)
      decreases |races| - i
    {
      out := out + ["accepting...\n"];
      if i == |races| {
        run := LoopRun(i + 1, spawned, Suspended, None);
        return;
      }
      assert races[i..][1..] == races[i + 1..];
      var race := races[i];
      i := i + 1;
      match race {
        case LatchFired(req) =>
          pstop.Stop(req.code, req.message);
          fired := Some(req);
        case Accepted(ec) =>
          match AcceptDecision(ec) {
            case Spawn =>
              spawned := spawned + 1;
            case Retry =>
            case Leave =>
              run := LoopRun(i, spawned, Returned, None);
              return;
            case Fail(e) =>
              run := LoopRun(i, spawned, Threw(e), None);
              return;
          }
      }
    }
    run := LoopRun(i, spawned, Returned, fired);
  }

  /** `listen`: "creating acceptor", the acceptor's setup, the accept loop,
      then "listen: exit" when the loop is left; a thrown setup or accept
      error is printed and stops the program with code 127 and the error's
      text. */
  method Listen(pstop: ProgramStop, setup: ErrorCode, races: seq<AcceptRace>) returns (out: seq<string>, spawned: nat, finished: bool)
    requires pstop.Valid()
    modifies pstop, pstop.latch.timer
    ensures pstop.Valid()
    ensures var run := ListenSpec(old(pstop.Stopped()), setup, races);
            out == ListenLines(run) && spawned == run.spawned && finished == !run.end.Suspended?
    ensures var run := ListenSpec(old(pstop.Stopped()), setup, races);
            pstop.Value() == if run.end.Threw? then StopStep(old(pstop.Value()), StopRequest(127, Message(run.end.ec)))
                             else ApplyOther(old(pstop.Value()), run.stoppedBy)
  {
    out := ["creating acceptor\n"];
    var run: LoopRun;
    if setup != NoError {
      run := LoopRun(0, 0, Threw(setup), None);
    } else {
      var lines;
      lines, run := AcceptLoop(pstop, races);
      FiredLatchReturns(races);
      out := out + lines;
    }
    match run.end {
      case Returned =>
        out := out + ["listen: exit\n"];
      case Threw(ec) =>
        out := out + ["listen: exception: " + Message(ec) + "\n"];
        pstop.StopException(Message(ec));
      case Suspended =>
    }
    spawned, finished := run.spawned, !run.end.Suspended?;
  }

  // ---------------------------------------------------------------------
  // monitor_sigint

  /** One wait of `monitor_sigint`, and the stop another task (the
      listener) issues while the monitor is suspended in that wait. */
  datatype SigintTurn = SigintTurn(otherStop: Option<StopRequest>, wait: SignalWait)

  datatype SigintRun = SigintRun(out: seq<string>, end: TaskEnd, state: StopValue)

  function ApplyOther(p: StopValue, s: Option<StopRequest>): StopValue
  {
    match s
    case None => p
    case Some(req) => StopStep(p, req)
  }

  /** `monitor_sigint` from its `k`-th message on: return if stopped, else
      wait (a failure propagates, nothing is printed), print the message;
      after the third, stop with (4, "interrupted"). */
  function SigintFrom(p: StopValue, turns: seq<SigintTurn>, k: nat): SigintRun
    requires k <= 3
    decreases 3 - k
  {
    if k == 3 then SigintRun([], Returned, StopStep(p, StopRequest(4, "interrupted")))
    else if IsTriggered(p.latch) then SigintRun([], Returned, p)
    else if k >= |turns| then SigintRun([], Suspended, p)
    else
      var p1 := ApplyOther(p, turns[k].otherStop);
      match turns[k].wait
      case WaitFailed(ec) => SigintRun([], Threw(ec), p1)
      case Received(_) =>
        var rest := SigintFrom(p1, turns, k + 1);
        SigintRun([InterruptMessages[k]] + rest.out, rest.end, rest.state)
  }

  /** Once stopped, the monitor returns at its next check without printing
      or changing anything. */
  lemma SigintReturnsWhenStopped(p: StopValue, turns: seq<SigintTurn>, k: nat)
    requires k <= 3 && IsTriggered(p.latch)
    ensures SigintFrom(p, turns, k) == SigintRun([], Returned, p)
  {
  }

  /**
   * If another task stops the program before the monitor's third
   * interrupt, the monitor never overrides that stop: the outcome is the
   * other task's request, and the monitor ends at its next check (or with
   * its failed wait).
   */
  lemma {:induction false} OtherStopPrevails(p: StopValue, turns: seq<SigintTurn>, k: nat, j: nat)
    requires k <= j < 3 && j < |turns|
    requires !IsTriggered(p.latch)
    requires forall i :: k <= i < j ==> turns[i].otherStop.None? && turns[i].wait.Received?
    requires turns[j].otherStop.Some?
    ensures SigintFrom(p, turns, k).state == StopStep(p, turns[j].otherStop.value)
    ensures SigintFrom(p, turns, k).end != Suspended
    decreases j - k
  {
    if k < j {
      OtherStopPrevails(p, turns, k + 1, j);
    } else {
      var p1 := StopStep(p, turns[j].otherStop.value);
      if turns[j].wait.Received? {
        if k + 1 < 3 {
          SigintReturnsWhenStopped(p1, turns, k + 1);
        }
      }
    }
  }

  /** With nobody else stopping, the monitor behaves as webserver.cpp's:
      it stops with (4, "interrupted") exactly after three interrupts, having
      printed the three lines, and otherwise changes nothing. */
  lemma {:induction false} SigintAlone(p: StopValue, turns: seq<SigintTurn>, k: nat)
    requires k <= 3 && k <= |turns| && !IsTriggered(p.latch)
    requires forall i :: 0 <= i < |turns| ==> turns[i].otherStop.None?
    ensures var r := SigintFrom(p, turns, k);
            (r.end == Returned <==> |turns| >= 3 && forall i :: k <= i < 3 ==> turns[i].wait.Received?) &&
            (r.end == Returned ==> r.state == StopStep(p, StopRequest(4, "interrupted")) && r.out == InterruptMessages[k..]) &&
            (r.end != Returned ==> r.state == p)
    decreases 3 - k
  {
    if k < 3 && k < |turns| && turns[k].wait.Received? {
      SigintAlone(p, turns, k + 1);
      assert InterruptMessages[k..] == [InterruptMessages[k]] + InterruptMessages[k + 1..];
    } else if k < 3 && |turns| >= 3 {
      assert !turns[k].wait.Received?;
    }
  }

  /**
   * cxx20.cpp's `monitor_sigint`: before each of three waits, return if the
   * program is stopped; after each interrupt print its line; after the
   * third, stop with (4, "interrupted"). There is no handler, so a failed
   * wait propagates without a line. A stop by another task during a wait
   * is applied where `turns` places it.
   */
  method MonitorSigint(pstop: ProgramStop, turns: seq<SigintTurn>) returns (out: seq<string>, end: TaskEnd)
    requires pstop.Valid()
    modifies pstop, pstop.latch.timer
    ensures pstop.Valid()
    ensures var r := SigintFrom(old(pstop.Value()), turns, 0);
            out == r.out && end == r.end && pstop.Value() == r.state
  {
    ghost var spec := SigintFrom(pstop.Value(), turns, 0);
    out := [];
    for k := 0 to 3
      invariant pstop.Valid()
      invariant spec.end == SigintFrom(pstop.Value(), turns, k).end
      invariant spec.state == SigintFrom(pstop.Value(), turns, k).state
      invariant spec.out == out + SigintFrom(pstop.Value(), turns, k).out
    {
      if pstop.Stopped() {
        end := Returned;
        return;
      }
      if k >= |turns| {
        end := Suspended;
        return;
      }
      match turns[k].otherStop {
        case Some(req) => pstop.Stop(req.code, req.message);
        case None =>
      }
      match turns[k].wait
      case WaitFailed(ec) =>
        end := Threw(ec);
        return;
      case Received(_) =>
        out := out + [InterruptMessages[k]];
    }
    pstop.Stop(4, "interrupted");
    end := Returned;
  }

  // ---------------------------------------------------------------------
  // main

  /** `main`'s epilogue: exit with the stop code, naming the message on
      standard error when it is not 0. */
  method Cxx20Main(pstop: ProgramStop) returns (exit: ProcessExit)
    ensures exit == ExitStatus("webserver", pstop.code, pstop.message)
  {
    exit := ExitStatus("webserver", pstop.code, pstop.message);
  }
}
