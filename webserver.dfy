/**
 * The decision logic of webserver.cpp: the cancellation-type test its
 * cancellation slots use, the three-interrupt Ctrl-C escalation of
 * `monitor_sigint`, the way `chat` reacts to the outcomes of its races, and
 * the process exit of `main`.
 *
 * Races between coroutines (`a || b`) are given by the outcome that won:
 * the winner's value, or the exception the race threw when both sides
 * failed.
 */
module Webserver {
  import opened AsioErrors
  import opened Shutdown
  import opened Diagnostics
  import opened Interrupt

  // ---------------------------------------------------------------------
  // cancel_check

  /** The bits of `asio::cancellation_type`. */
  const CancelNone: bv32 := 0
  const CancelTerminal: bv32 := 1
  const CancelPartial: bv32 := 2
  const CancelTotal: bv32 := 4
  const CancelAll: bv32 := 0xFFFF_FFFF

  /** `cancel_check<Test>(in)`: the requested cancellation intersects `Test`. */
  function CancelCheck(test: bv32, input: bv32): bool
  {
    input & test != CancelNone
  }

  predicate SingleBit(b: bv32)
  {
    b != 0 && b & (b - 1) == 0
  }

  /** Two overlapping masks share a single bit: the lowest bit of their
      intersection. */
  lemma LowestSharedBit(test: bv32, input: bv32) returns (b: bv32)
    requires input & test != 0
    ensures SingleBit(b) && b & test != 0 && b & input != 0
  {
    var x := input & test;
    b := x & (0 - x);
    assert SingleBit(b);
    assert b & x == b;
    assert b & test == b;
    assert b & input == b;
  }

  lemma SharedBitOverlaps(b: bv32, test: bv32, input: bv32)
    requires SingleBit(b) && b & test != 0 && b & input != 0
    ensures input & test != 0
  {
    assert b & test == b;
    assert b & input == b;
    assert b & (input & test) == b;
  }

  /** `cancel_check` holds exactly when some single cancellation bit is in
      both the slot's mask and the requested cancellation. */
  lemma CancelCheckSharedBit(test: bv32, input: bv32)
    ensures CancelCheck(test, input) <==> exists b :: SingleBit(b) && b & test != 0 && b & input != 0
  {
    if CancelCheck(test, input) {
      var b := LowestSharedBit(test, input);
    }
    forall b | SingleBit(b) && b & test != 0 && b & input != 0
      ensures CancelCheck(test, input)
    {
      SharedBitOverlaps(b, test, input);
    }
  }

  /** The slots of `detect_ssl` and `read_header_only` close their socket
      only for a terminal cancellation (alone or within `all`). */
  lemma TerminalCheckCases()
    ensures CancelCheck(CancelTerminal, CancelTerminal) && CancelCheck(CancelTerminal, CancelAll)
    ensures !CancelCheck(CancelTerminal, CancelPartial) && !CancelCheck(CancelTerminal, CancelTotal)
    ensures !CancelCheck(CancelTerminal, CancelNone)
  {
  }

  // ---------------------------------------------------------------------
  // monitor_sigint

  /** The line `monitor_sigint` prints when its wait fails with `ec`. */
  function SigintExceptionLine(ec: ErrorCode): string
  {
    "monitor_sigint : exception : " + Message(ec) + "\n"
  }

  /** `object_id("monitor_sigint")` followed by the two texts the monitor
      gives it, as they print. */
  lemma SigintLines(ec: ErrorCode)
    ensures ObjectIdText("monitor_sigint", []) + "exception : " + Message(ec) + "\n" == SigintExceptionLine(ec)
    ensures ObjectIdText("monitor_sigint", []) + "exit\n" == "monitor_sigint : exit\n"
  {
    ObjectIdWithoutParams("monitor_sigint");
    assert "monitor_sigint" + " : " + "exception : " == "monitor_sigint : exception : ";
    assert "monitor_sigint" + " : " + "exit\n" == "monitor_sigint : exit\n";
  }

  /** How many of the first waits delivered a signal before one failed. */
  function LeadingReceived(waits: seq<SignalWait>): (n: nat)
    ensures n <= |waits|
    ensures forall j :: 0 <= j < n ==> waits[j].Received?
    ensures n < |waits| ==> waits[n].WaitFailed?
    decreases |waits|
  {
    if waits == [] || waits[0].WaitFailed? then 0 else 1 + LeadingReceived(waits[1..])
  }

  /** How far the escalation gets: the number of interrupts it has seen,
      never more than three. */
  function Stage(waits: seq<SignalWait>): (k: nat)
    ensures k <= 3 && k <= |waits|
  {
    if LeadingReceived(waits) < 3 then LeadingReceived(waits) else 3
  }

  /** The escalation reaches its end exactly when the first three waits all
      deliver a signal. */
  lemma EscalatesIffThreeInterrupts(waits: seq<SignalWait>)
    ensures Stage(waits) == 3 <==>
              |waits| >= 3 && waits[0].Received? && waits[1].Received? && waits[2].Received?
  {
    if |waits| >= 3 && waits[0].Received? && waits[1].Received? && waits[2].Received? {
      assert waits[1..][0] == waits[1] && waits[1..][1] == waits[2];
      assert waits[2..][0] == waits[2];
      assert waits[1..][1..] == waits[2..];
    }
  }

  /** The console lines of `monitor_sigint` for the waits `waits`. */
  function SigintOutput(waits: seq<SignalWait>): (out: seq<string>)
  {
    var k := Stage(waits);
    InterruptMessages[..k] +
      (if k == 3 then ["monitor_sigint : exit\n"]
       else if k < |waits| then [SigintExceptionLine(waits[k].ec)]
       else [])
  }

  function SigintEnd(waits: seq<SignalWait>): TaskEnd
  {
    var k := Stage(waits);
    if k == 3 then Returned else if k < |waits| then Threw(waits[k].ec) else Suspended
  }

  /** Before the third interrupt nothing is stopped: a failed wait is
      rethrown after one diagnostic line, and the interrupt lines are
      printed in order, one per interrupt. */
  lemma SigintBeforeThird(waits: seq<SignalWait>, k: nat)
    requires k < 3 && k <= |waits|
    requires forall j :: 0 <= j < k ==> waits[j].Received?
    ensures k < |waits| && waits[k].WaitFailed? ==>
              SigintEnd(waits) == Threw(waits[k].ec) &&
              SigintOutput(waits) == InterruptMessages[..k] + [SigintExceptionLine(waits[k].ec)]
    ensures k == |waits| ==> SigintEnd(waits) == Suspended && SigintOutput(waits) == InterruptMessages[..k]
  {
    if (k < |waits| && waits[k].WaitFailed?) || k == |waits| {
      assert LeadingReceived(waits) == k;
    }
  }

  /**
   * `monitor_sigint`: three waits for SIGINT, each followed by its line;
   * then the stop (4, "interrupted") and an exit line. A failed wait prints
   * the exception and rethrows it without stopping anything.
   */
  method MonitorSigint(pstop: ProgramStopSource, waits: seq<SignalWait>) returns (out: seq<string>, end: TaskEnd)
    requires pstop.Valid()
    modifies pstop.Repr()
    ensures pstop.Valid() && pstop.state == old(pstop.state)
    ensures out == SigintOutput(waits) && end == SigintEnd(waits)
    ensures pstop.state != null ==>
              pstop.state.Record() == if end == Returned
                                      then SignalStep(old(pstop.state.Record()), StopRequest(4, "interrupted"))
                                      else old(pstop.state.Record())
  {
    var me := ObjectIdText("monitor_sigint", []);
    out := [];
    var k := 0;
    while k < |InterruptMessages|
      invariant 0 <= k <= 3 && k <= |waits|
      invariant forall j :: 0 <= j < k ==> waits[j].Received?
      invariant out == InterruptMessages[..k]
      invariant pstop.Valid() && pstop.state == old(pstop.state)
      invariant pstop.state != null ==> pstop.state.Record() == old(pstop.state.Record())
    {
      if k == |waits| {
        SigintBeforeThird(waits, k);
        end := Suspended;
        return;
      }
      match waits[k]
      case WaitFailed(ec) =>
        SigintBeforeThird(waits, k);
        SigintLines(ec);
        out := out + [me + "exception : " + Message(ec) + "\n"];
        end := Threw(ec);
        return;
      case Received(_) =>
        out := out + [InterruptMessages[k]];
        assert InterruptMessages[..k + 1] == InterruptMessages[..k] + [InterruptMessages[k]];
        k := k + 1;
    }
    EscalatesIffThreeInterrupts(waits);
    pstop.Signal(4, "interrupted");
    SigintLines(NoError);
    out := out + [me + "exit\n"];
    end := Returned;
  }

  /** The monitor stops the program exactly when the first three waits each
      deliver an interrupt, and then it has printed all three lines. */
  lemma SigintStopsOnlyAfterThree(waits: seq<SignalWait>)
    ensures SigintEnd(waits) == Returned <==>
              |waits| >= 3 && waits[0].Received? && waits[1].Received? && waits[2].Received?
    ensures SigintEnd(waits) == Returned ==>
              SigintOutput(waits) == InterruptMessages + ["monitor_sigint : exit\n"]
  {
    EscalatesIffThreeInterrupts(waits);
    assert InterruptMessages[..3] == InterruptMessages;
  }

  // ---------------------------------------------------------------------
  // chat

  /** A failure of `detect_ssl`, which its handler reports against the
      socket before rethrowing: the exception's text, and what the
      socket's remote-endpoint query gave at the time. */
  datatype DetectFailure = DetectFailure(what: string, sock: Option<string>)

  /** The outcome of `detect_ssl(sock, rx_buffer) || timeout(timer, 5s)`,
      which finishes when one side succeeds and throws only when both
      fail. */
  datatype DetectRace =
    | Detected(isSsl: bool)
      /** The timer won; `lost` is how `detect_ssl` failed, before the
          timer fired or when it was cancelled, if it did. */
    | DetectTimedOut(lost: Option<DetectFailure>)
      /** Both failed: `detect_ssl` with `failure`, then the timer; the
          race throws an exception whose text is `raceWhat`. */
    | DetectThrew(failure: DetectFailure, raceWhat: string)

  /** The outcome of `async_handshake(server, rx_buffer.data()) || timeout`:
      the handshake's count of buffered bytes it used, the text of the
      exception the race threw when both sides failed, or the timer won. */
  datatype HandshakeRace = Handshaken(used: nat) | HandshakeThrew(what: string) | HandshakeTimedOut

  datatype Transport = PlainTcp | Tls

  /** What `chat_http` is handed: the stream and the bytes left buffered. */
  datatype Handoff = Handoff(transport: Transport, rx: seq<bv8>)

  /** A line on standard output or on standard error. */
  datatype Line = Out(text: string) | Err(text: string)

  datatype ChatRun = ChatRun(log: seq<Line>, handoff: Option<Handoff>)

  /** `flat_buffer::consume(n)`: drop the first `n` bytes, or all of them. */
  function Consume(rx: seq<bv8>, n: nat): (r: seq<bv8>)
    ensures n <= |rx| ==> rx == rx[..n] + r
    ensures n >= |rx| ==> r == []
  {
    if n >= |rx| then [] else rx[n..]
  }

  function ChatId(ident: string): string
  {
    ObjectIdText("chat", [Streamed(ident)])
  }

  /** `object_id("chat", ident)` followed by `text`, as it prints. */
  lemma ChatLine(ident: string, text: string)
    ensures ChatId(ident) + text == "chat[" + ident + "] : " + text
  {
    ObjectIdOneParam("chat", Streamed(ident));
    assert "chat" + "[" + ident + "] : " == "chat[" + ident + "] : ";
  }

  /** What `chat` writes once `chat_http` has returned (`None`) or thrown. */
  function AfterHttp(ident: string, http: Option<string>): Line
  {
    match http
    case None => Out(ChatId(ident) + "exit\n")
    case Some(what) => Err(Report(what, "chat", [Streamed(ident)]))
  }

  /** The line `detect_ssl`'s handler writes when it fails. */
  function DetectReport(lost: Option<DetectFailure>): (r: seq<Line>)
    ensures |r| == if lost.Some? then 1 else 0
  {
    match lost
    case None => []
    case Some(f) => [Err(Report(f.what, "detect_ssl", [TcpSocket(f.sock)]))]
  }

  /**
   * `chat` on a connection from `ident` whose first bytes `rx` have been
   * buffered by detection: the lines it writes and what it hands to
   * `chat_http`. `http` is how `chat_http` ends.
   */
  function Chat(ident: string, detect: DetectRace, handshake: HandshakeRace, rx: seq<bv8>, http: Option<string>): (run: ChatRun)
    ensures |run.log| >= 2 && run.log[0] == Out(ChatId(ident) + "accepted\n")
    ensures run.handoff.None? <==> !detect.Detected? || (detect.isSsl && handshake.HandshakeThrew?)
    ensures run.handoff.Some? ==> run.log[|run.log| - 1] == AfterHttp(ident, http)
  {
    var me := ChatId(ident);
    var accepted := [Out(me + "accepted\n")];
    match detect
    case DetectTimedOut(lost) =>
      ChatRun(accepted + DetectReport(lost) + [Out(me + "client didn't speak\n")], None)
    case DetectThrew(failure, raceWhat) =>
      ChatRun(accepted + DetectReport(Some(failure)) + [Err(Report(raceWhat, "chat", [Streamed(ident)]))], None)
    case Detected(isSsl) =>
      if isSsl then
        var ssl := accepted + [Out(me + "ssl detected\n")];
        match handshake
        case HandshakeThrew(what) =>
          ChatRun(ssl + [Err(Report(what, "chat", [Streamed(ident)]))], None)
        case Handshaken(n) =>
          ChatRun(ssl + [AfterHttp(ident, http)], Some(Handoff(Tls, Consume(rx, n))))
        case HandshakeTimedOut =>
          ChatRun(ssl + [AfterHttp(ident, http)], Some(Handoff(Tls, rx)))
      else
        ChatRun(accepted + [Out(me + "tcp detected\n"), AfterHttp(ident, http)], Some(Handoff(PlainTcp, rx)))
  }

  /** When the client does not speak within the timeout, `chat` returns
      without a handshake or HTTP exchange and reports no error of its own;
      only `detect_ssl` reports, if it failed. */
  lemma SilentClientDropped(ident: string, lost: Option<DetectFailure>, handshake: HandshakeRace, rx: seq<bv8>, http: Option<string>)
    ensures var me := "chat[" + ident + "] : ";
            var run := Chat(ident, DetectTimedOut(lost), handshake, rx, http);
            run.handoff.None? && |run.log| == (if lost.Some? then 3 else 2) &&
            run.log[0] == Out(me + "accepted\n") && run.log[|run.log| - 1] == Out(me + "client didn't speak\n")
  {
    ChatLine(ident, "accepted\n");
    ChatLine(ident, "client didn't speak\n");
  }

  /** A failed endpoint query at the start of `chat`, which comes before
      its `try`, throws out of `chat` before anything is printed or handed
      on (`None`); otherwise `chat` runs with the endpoint as its
      identity. */
  function ChatOnSocket(remote: Option<string>, detect: DetectRace, handshake: HandshakeRace, rx: seq<bv8>, http: Option<string>): (r: Option<ChatRun>)
    ensures r.None? <==> remote.None?
    ensures r.Some? ==> |r.value.log| >= 2 && r.value.log[0] == Out(ChatId(remote.value) + "accepted\n")
  {
    match remote
    case None => None
    case Some(ident) => Some(Chat(ident, detect, handshake, rx, http))
  }

  /** After a TLS handshake, exactly the bytes the handshake reported using
      are dropped from the front of the buffer, and the rest reach
      `chat_http` in order; a plain connection, or a handshake that timed
      out, keeps the buffer whole. */
  lemma HandshakeConsumesWhatItUsed(ident: string, n: nat, rx: seq<bv8>, http: Option<string>)
    requires n <= |rx|
    ensures var run := Chat(ident, Detected(true), Handshaken(n), rx, http);
            run.handoff.Some? && run.handoff.value.transport == Tls &&
            rx == rx[..n] + run.handoff.value.rx && |run.handoff.value.rx| == |rx| - n
    ensures Chat(ident, Detected(true), HandshakeTimedOut, rx, http).handoff == Some(Handoff(Tls, rx))
    ensures forall h :: Chat(ident, Detected(false), h, rx, http).handoff == Some(Handoff(PlainTcp, rx))
  {
  }

  /** The exception text `chat` catches, if any part of it threw: detection,
      the TLS handshake, or `chat_http` once it is reached. */
  function ChatFault(detect: DetectRace, handshake: HandshakeRace, http: Option<string>): Option<string>
  {
    match detect
    case DetectTimedOut(_) => None
    case DetectThrew(_, raceWhat) => Some(raceWhat)
    case Detected(isSsl) =>
      if isSsl && handshake.HandshakeThrew? then Some(handshake.what) else http
  }

  /** `chat`'s catch clause prints its object id, " : " and the text. */
  lemma ChatReport(ident: string, what: string)
    ensures Report(what, "chat", [Streamed(ident)]) == "chat[" + ident + "] :  : " + what + "\n"
  {
    ChatLine(ident, " : " + what + "\n");
    assert "chat[" + ident + "] : " + (" : " + what + "\n") == "chat[" + ident + "] :  : " + what + "\n";
  }

  /** A failure anywhere in `chat` ends its log with one report line on
      standard error, `chat[<ident>] :  : <what>`; a run without failure
      ends on standard output. */
  lemma ChatReportsFailures(ident: string, detect: DetectRace, handshake: HandshakeRace, rx: seq<bv8>, http: Option<string>)
    ensures var run := Chat(ident, detect, handshake, rx, http);
            var fault := ChatFault(detect, handshake, http);
            run.log[|run.log| - 1] ==
              if fault.Some? then Err("chat[" + ident + "] :  : " + fault.value + "\n")
              else Out(run.log[|run.log| - 1].text)
  {
    var fault := ChatFault(detect, handshake, http);
    if fault.Some? {
      ChatReport(ident, fault.value);
    }
  }

  // ---------------------------------------------------------------------
  // run_program and main

  /** `main`: exit with the sink's code, naming the message on standard
      error only when the code is nonzero. */
  method WebserverMain(stopsink: ProgramStopSink) returns (exit: ProcessExit)
    requires stopsink.state != null
    ensures exit == ExitStatus("webserver", stopsink.state.retcode, stopsink.state.message)
  {
    var code := stopsink.Retcode();
    var msg := stopsink.Message();
    exit := ExitStatus("webserver", code, msg);
  }

  /** The exit after an interrupt: code 4 and "webserver: interrupted". */
  lemma InterruptedExit()
    ensures ExitStatus("webserver", 4, "interrupted") == ProcessExit(4, "webserver: interrupted\n")
  {
    assert "webserver" + ": " + "interrupted" + "\n" == "webserver: interrupted\n";
  }

  /**
   * `run_program` followed by `main`, with the listener accepting no
   * connection and not failing: the source is moved into `co_main`, which
   * hands a copy to `monitor_sigint`; the sink kept by `run_program` still
   * reads the state. `listen || monitor_sigint` finishes when one side
   * succeeds, which cancels the other, so the process exits with code 4
   * once the monitor has returned after three interrupts. A monitor that
   * throws leaves the race waiting on the listener, which never finishes,
   * so there is no exit.
   */
  method RunProgram(waits: seq<SignalWait>) returns (exit: Option<ProcessExit>)
    ensures exit.Some? <==> SigintEnd(waits) == Returned
    ensures exit.Some? ==> exit.value == ProcessExit(4, "webserver: interrupted\n")
  {
    var pstop := new ProgramStopSource();
    var stopsink := new ProgramStopSink(pstop);
    var moved := new ProgramStopSource.Move(pstop);
    var monitorCopy := new ProgramStopSource.Copy(moved);
    var out, end := MonitorSigint(monitorCopy, waits);
    if end == Returned {
      assert stopsink.state.retcode == 4 && stopsink.state.message == "interrupted";
      var status := WebserverMain(stopsink);
      InterruptedExit();
      exit := Some(status);
    } else {
      exit := None;
    }
  }
}
