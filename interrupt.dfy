/**
 * The interrupt monitors that turn a SIGINT into a stop of the program.
 *
 * `monitor_interrupt` of interrupt_or_wait.cpp (and, identically, of
 * test-interrupt_or_wait.cpp) loops: while its coroutine's cancellation
 * state is not cancelled and it is not done, it waits on a SIGINT signal set
 * and reacts to the disposition of the wait. What the coroutine observes is
 * given as a sequence of steps: either the cancellation test found the
 * coroutine cancelled, or a wait completed with an error code and a signal
 * number. A sequence that runs out leaves the monitor suspended.
 *
 * `monitor_interrupt` of src/interrupt.cpp waits once and signals the
 * received signal number.
 */
module Interrupt {
  import opened AsioErrors
  import opened WaitDispositions
  import opened StopEvents
  import opened Shutdown

  datatype MonitorStep = CancelledState | Woke(ec: ErrorCode, sig: int)

  /** How many waits the monitor performed, which stop it requested (at most
      one), and whether its loop ended. */
  datatype MonitorRun = MonitorRun(waits: nat, signal: Option<StopRequest>, finished: bool)

  /** A successful wait that delivered some other signal number: the loop
      logs a warning and goes on. */
  predicate Ignored(step: MonitorStep)
  {
    step.Woke? && step.ec == NoError && step.sig != SIGINT
  }

  /** The stop request a deciding step leads to. */
  function StepSignal(step: MonitorStep): Option<StopRequest>
  {
    match step
    case CancelledState => None
    case Woke(ec, sig) =>
      if Disposition(ec) == Error then Some(StopRequest(127, Message(ec)))
      else if Disposition(ec) == Success && sig == SIGINT then Some(StopRequest(4, "interrupted"))
      else None
  }

  /** The reference behaviour of the monitor loop. */
  function MonitorSpec(env: seq<MonitorStep>): MonitorRun
    decreases |env|
  {
    if env == [] then MonitorRun(0, None, false)
    else if env[0].CancelledState? then MonitorRun(0, None, true)
    else if Ignored(env[0]) then
      var rest := MonitorSpec(env[1..]);
      MonitorRun(rest.waits + 1, rest.signal, rest.finished)
    else MonitorRun(1, StepSignal(env[0]), true)
  }

  function SignalOpt(r: StopRecord, s: Option<StopRequest>): StopRecord
  {
    match s
    case None => r
    case Some(req) => SignalStep(r, req)
  }

  /** Ignored steps only add waits: the run is decided by what follows them. */
  lemma {:induction false} MonitorSkipsIgnored(env: seq<MonitorStep>, k: nat)
    requires k <= |env|
    requires forall j :: 0 <= j < k ==> Ignored(env[j])
    ensures MonitorSpec(env).waits == k + MonitorSpec(env[k..]).waits
    ensures MonitorSpec(env).signal == MonitorSpec(env[k..]).signal
    ensures MonitorSpec(env).finished == MonitorSpec(env[k..]).finished
    decreases k
  {
    if k > 0 {
      MonitorSkipsIgnored(env[1..], k - 1);
      assert env[1..][k - 1..] == env[k..];
    }
  }

  /**
   * The whole behaviour of the loop: the first step that is not an ignored
   * signal decides it. A cancelled state ends it without a wait or a stop;
   * SIGINT stops with (4, "interrupted"); an error stops with code 127 and
   * the error's text; a cancelled wait ends it without a stop. With no
   * deciding step the monitor is still waiting and has requested nothing.
   */
  lemma MonitorDecidedBy(env: seq<MonitorStep>, k: nat)
    requires k < |env| && !Ignored(env[k])
    requires forall j :: 0 <= j < k ==> Ignored(env[j])
    ensures MonitorSpec(env).finished
    ensures MonitorSpec(env).waits == if env[k].CancelledState? then k else k + 1
    ensures MonitorSpec(env).signal == StepSignal(env[k])
  {
    MonitorSkipsIgnored(env, k);
  }

  lemma MonitorUndecided(env: seq<MonitorStep>)
    requires forall j :: 0 <= j < |env| ==> Ignored(env[j])
    ensures MonitorSpec(env) == MonitorRun(|env|, None, false)
  {
    MonitorSkipsIgnored(env, |env|);
  }

  /** Only two kinds of stop are ever requested, each only as the last act
      of a finished loop. */
  lemma {:induction false} MonitorSignalKinds(env: seq<MonitorStep>)
    ensures MonitorSpec(env).waits <= |env|
    ensures MonitorSpec(env).signal.Some? ==> MonitorSpec(env).finished && MonitorSpec(env).waits >= 1
    ensures MonitorSpec(env).signal.Some? ==>
              MonitorSpec(env).signal.value == StopRequest(4, "interrupted") ||
              MonitorSpec(env).signal.value.code == 127
    decreases |env|
  {
    if env != [] && Ignored(env[0]) {
      MonitorSignalKinds(env[1..]);
    }
  }

  /** `monitor_interrupt` of interrupt_or_wait.cpp and
      test-interrupt_or_wait.cpp. */
  method MonitorInterrupt(stopper: ProgramStopSource, env: seq<MonitorStep>) returns (waits: nat, finished: bool, signalled: bool)
    requires stopper.Valid()
    modifies stopper.Repr()
    ensures stopper.Valid() && stopper.state == old(stopper.state)
    ensures waits == MonitorSpec(env).waits && finished == MonitorSpec(env).finished
    ensures signalled == MonitorSpec(env).signal.Some?
    ensures stopper.state != null ==>
              stopper.state.Record() == SignalOpt(old(stopper.state.Record()), MonitorSpec(env).signal)
  {
    ghost var spec := MonitorSpec(env);
    var done := false;
    var cancelled := false;
    var i := 0;
    waits, signalled := 0, false;
    while !cancelled && !done && i < |env|
      invariant stopper.Valid() && stopper.state == old(stopper.state)
      invariant 0 <= i <= |env|
      invariant !cancelled && !done ==> waits == i && !signalled && forall j :: 0 <= j < i ==> Ignored(env[j])
      invariant !cancelled && !done && stopper.state != null ==>
                  stopper.state.Record() == old(stopper.state.Record())
      invariant cancelled || done ==> waits == spec.waits && spec.finished && signalled == spec.signal.Some?
      invariant (cancelled || done) && stopper.state != null ==>
                  stopper.state.Record() == SignalOpt(old(stopper.state.Record()), spec.signal)
      decreases |env| - i
    {
      MonitorSkipsIgnored(env, i);
      assert env[i..][0] == env[i];
      var step := env[i];
      i := i + 1;
      if step.CancelledState? {
        cancelled := true;
      } else {
        waits := waits + 1;
        match Disposition(step.ec)
        case Error =>
          stopper.SignalException(Message(step.ec));
          done, signalled := true, true;
        case Success =>
          if step.sig == SIGINT {
            stopper.Signal(4, "interrupted");
            done, signalled := true, true;
          }
        case Cancelled =>
          done := true;
      }
    }
    if !cancelled && !done {
      MonitorUndecided(env);
    }
    finished := cancelled || done;
  }

  /** The stop a run leaves in a fresh state, as `main` reads it. */
  function Outcome(s: Option<StopRequest>): StopRequest
  {
    match s
    case None => StopRequest(0, "")
    case Some(req) => req
  }

  /**
   * interrupt_or_wait.cpp's `main`: the monitor races a five-second timeout.
   * If the monitor stops the program first, the race reports "interrupted";
   * otherwise the timeout wins and cancels the monitor, which then ends
   * without a stop. The exit code is the stop code.
   */
  method InterruptOrWaitMain(env: seq<MonitorStep>) returns (stdout: string, exit: ProcessExit)
    ensures stdout == if MonitorSpec(env).signal.Some? then "interrupted\n" else "timed out\n"
    ensures exit == ExitStatus("interrupt_or_wait", Outcome(MonitorSpec(env).signal).code,
                               Outcome(MonitorSpec(env).signal).message)
  {
    var src := new ProgramStopSource();
    var sink := new ProgramStopSink(src);
    MonitorSignalKinds(env);
    var waits, finished, signalled := MonitorInterrupt(src, env);
    if signalled {
      stdout := "interrupted\n";
    } else {
      stdout := "timed out\n";
    }
    var code := sink.Retcode();
    var msg := sink.Message();
    exit := ExitStatus("interrupt_or_wait", code, msg);
  }

  /**
   * test-interrupt_or_wait.cpp's `main`: the monitor runs alone, so the
   * process exits only once the monitor's loop has ended, with the stop
   * code; while the monitor is still waiting there is no exit.
   */
  method TestInterruptOrWaitMain(env: seq<MonitorStep>) returns (exit: Option<ProcessExit>)
    ensures exit.Some? <==> MonitorSpec(env).finished
    ensures exit.Some? ==> exit.value == ExitStatus("interrupt_or_wait", Outcome(MonitorSpec(env).signal).code,
                                                     Outcome(MonitorSpec(env).signal).message)
  {
    var src := new ProgramStopSource();
    var sink := new ProgramStopSink(src);
    MonitorSignalKinds(env);
    var waits, finished, signalled := MonitorInterrupt(src, env);
    if finished {
      var code := sink.Retcode();
      var msg := sink.Message();
      exit := Some(ExitStatus("interrupt_or_wait", code, msg));
    } else {
      exit := None;
    }
  }

  /**
   * src/interrupt.cpp's `monitor_interrupt`: one wait. A delivered signal
   * stops the program with the signal's number as the code; a failed wait
   * is logged (unless it was cancelled) and rethrown, without a stop.
   */
  method MonitorInterruptOnce(stopper: ProgramStopSource, wait: SignalWait) returns (log: string, thrown: Option<Failure>)
    requires stopper.Valid()
    modifies stopper.Repr()
    ensures stopper.Valid() && stopper.state == old(stopper.state)
    ensures wait.Received? ==> thrown == None && log == ""
    ensures wait.Received? && stopper.state != null ==>
              stopper.state.Record() == SignalStep(old(stopper.state.Record()), StopRequest(wait.sig, "interrupted"))
    ensures wait.WaitFailed? ==> thrown == Some(wait.ec)
    ensures wait.WaitFailed? && stopper.state != null ==> stopper.state.Record() == old(stopper.state.Record())
    ensures wait.WaitFailed? ==>
              log == if wait.ec == OperationAborted then "" else "monitor_interrupt : " + Message(wait.ec) + "\n"
  {
    match wait
    case Received(sig) =>
      stopper.Signal(sig, "interrupted");
      log, thrown := "", None;
    case WaitFailed(ec) =>
      log := if ec != OperationAborted then "monitor_interrupt : " + Message(ec) + "\n" else "";
      thrown := Some(ec);
  }

  /** How a coroutine ended: it returned, it threw, or it is still
      suspended because its inputs ran out; used by the coroutines of both
      webserver.cpp and cxx20.cpp. */
  datatype TaskEnd = Returned | Threw(ec: Failure) | Suspended

  /** The three lines the Ctrl-C escalation of webserver.cpp and cxx20.cpp
      prints, one per interrupt; shared here because both programs print
      them. */
  const InterruptMessages: seq<string> :=
    ["First interrupt. Press ctrl-c again to stop the program.\n", "Really?\n", "You asked for it!\n"]
}
