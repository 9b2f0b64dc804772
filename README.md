# Shutdown and diagnostics bookkeeping of an asio/Beast web server

This project models, in Dafny, the part of the `webserver` programs that
decides when and how the process stops, and what it prints along the way.
The rest is network I/O and is not modelled.

- **Stop event and listener.** `stop_event` is a steady timer used as a
  one-shot latch: expiry at the clock's maximum means pending and at its
  minimum means triggered. `stop_listener` is a read-only view that points
  at the event's own timer. cxx20.cpp's `latch` and `read_latch` are the
  same pair and share this model.
- **Shared stop state.** `program_stop_state` records a return code and a
  message, and the first signal with a nonzero code wins.
  `program_stop_source` signals it. `program_stop_sink` reads it. Both hold
  the same state through a `shared_ptr`, modelled as one shared heap
  object. A source left without a state by a move ignores
  signals.
- **Wait disposition and interrupt monitors.**
  - `disposition` classifies a wait's error code.
  - The `monitor_interrupt` loop of interrupt_or_wait.cpp and
    test-interrupt_or_wait.cpp, and the single-wait monitor of
    src/interrupt.cpp, turn SIGINT into a stop.
  - webserver.cpp's `monitor_sigint` stops only after three interrupts.
  - cxx20.cpp's `monitor_sigint` also checks `stopped()` before each wait.
- **Server decision rules.**
  - The `cancel_check` bit test.
  - How `chat` reacts to its detection and handshake races, including how
    much of the receive buffer the TLS handshake consumes.
  - How cxx20.cpp's `listen` classifies accept errors.
  - The exit status `main` derives from the stop state.
- **Diagnostic lines.** `object_id`, both `report` functions, and the
  socket emitter. Each prints a list whose separator is "[" before the
  first item and ", " after it.
- **demo.cpp's doubling.** `async_double` and `async_times_eight` on
  64-bit `size_t`, with wrap-around modulo 2^64.

Classes, with `modifies` and `reads` frames, model the objects whose
fields the source updates. Each state-changing method is specified by a
function on the object's abstract value, and the lemmas are stated on those
functions.

Coroutine and race outcomes are inputs:
- a sequence of the steps a monitor observes;
- the outcome of an `a || b` race. Asio's `||` finishes with the first side
  that succeeds and cancels the other; it throws only when both sides
  fail. The input says which side succeeded, with its value, or what the
  race threw;
- the error code an accept or a timer wait completed with.

When such a sequence runs out, the coroutine is still suspended, and the
model says so (`Suspended`, `None`).

## Model

Definitions that only compute a value (such as `Demo.AsyncDouble`,
`Webserver.CancelCheck`, `Diagnostics.Report`, `Diagnostics.Emit`,
`Cxx20.ProgramStop.Stopped`, `StopEvents.StopEvent.Triggered` and
`StopEvents.StopListener.Triggered`) have no row of their own: the rows of
the lemmas and methods that state their contracts cite the same source lines.

| member | source | states |
|---|---|---|
| StopEvents.StopEvent.constructor | webserver/src/stop_event.cpp:3-7 | a fresh event's timer expires at the maximum, nobody waits on it, and it is not triggered |
| StopEvents.StopEvent.Trigger | webserver/src/stop_event.cpp:9-13 | after `trigger` the event is triggered, its invariant still holds, and every waiter registered so far has completed |
| StopEvents.TriggerIdempotent | webserver/src/stop_event.cpp:9-13 | triggering twice gives the same state as triggering once, and the result is triggered |
| StopEvents.StopEvent.Wait | webserver/src/stop_event.hpp:27-33 | a new wait completes at once exactly when the event was already triggered; the wait never changes whether the event is triggered |
| StopEvents.WaitCompletesAtOnceIffTriggered | webserver/src/stop_event.hpp:27-33 | registering a wait keeps the timer invariant, and the new waiter has completed iff the event is triggered |
| StopEvents.TriggerWakesEveryWaiter | webserver/src/stop_event.hpp:27-33 | every waiter registered before a trigger has completed after it, because the error code is discarded |
| StopEvents.StaysTriggered | webserver/src/stop_event.hpp:8-25 | no sequence of triggers and waits takes a triggered event back to pending or leaves a waiter pending |
| StopEvents.FanOut | webserver/src/stop_event.hpp:27-33 | from a pending event, any run of operations that contains a trigger completes every waiter, before or after the trigger; a run without one completes none |
| StopEvents.StopListener.constructor | webserver/src/stop_listener.cpp:3-6 | a listener refers to its event's own timer and leaves the event's state unchanged |
| StopEvents.StopListener.Wait | webserver/src/stop_listener.hpp:18-24 | waiting through a listener registers a wait on the event's own timer, completing at once iff the event is triggered |
| StopEvents.ListenerAgrees | webserver/src/stop_listener.cpp:8-12 | a listener's `triggered()` equals its event's at every point |
| StopEvents.ListenersAgree | webserver/src/stop_listener.cpp:8-12 | any two listeners on one event agree with each other |
| Shutdown.ProgramStopState.constructor | webserver/src/detail/program_stop_state.cpp:6-11 | a fresh state has code 0, an empty message, and an untriggered event |
| Shutdown.FreshIsConsistent | webserver/src/detail/program_stop_state.cpp:6-11 | the fresh state satisfies the invariant and its event is not triggered |
| Shutdown.ProgramStopState.Signal | webserver/src/detail/program_stop_state.cpp:13-22 | `signal` records the code and message and triggers the event only while the code is 0; it keeps the invariant |
| Shutdown.SignalKeepsConsistent | webserver/src/detail/program_stop_state.cpp:13-22 | the invariant holds after any signal: a nonzero code implies a triggered event |
| Shutdown.LatchedIgnoresSignals | webserver/src/detail/program_stop_state.cpp:16 | once the code is nonzero, no sequence of signals changes anything |
| Shutdown.FirstNonzeroWins | webserver/src/detail/program_stop_state.cpp:13-22 | from an unlatched state, the outcome of any run of signals is the first nonzero code with its message, and the event is triggered |
| Shutdown.ZeroCodesDoNotLatch | webserver/src/detail/program_stop_state.cpp:16-20 | signals with code 0 leave the code 0, trigger the event, and keep overwriting the message; the last one's message remains |
| Shutdown.ProgramStopState.Wait | webserver/src/detail/program_stop_state.hpp:35-40 | waiting on the state waits on its event and changes neither code nor message |
| Shutdown.ProgramStopSource.constructor | webserver/src/program_stop_source.cpp:3-9 | a source creates a fresh shared state |
| Shutdown.ProgramStopSource.Copy | webserver/src/program_stop_source.hpp:23 | a copied source shares the very same state |
| Shutdown.ProgramStopSource.Move | webserver/src/program_stop_source.hpp:23 | a moved-to source takes the state and the moved-from source is left with none |
| Shutdown.ProgramStopSource.Signal | webserver/src/program_stop_source.cpp:11-18 | signalling forwards to the shared state and inherits first-nonzero-wins; with no state it changes nothing |
| Shutdown.ProgramStopSource.SignalException | webserver/src/program_stop_source.cpp:20-24 | signalling an exception is signalling code 127 with its text |
| Shutdown.ProgramStopSink.constructor | webserver/src/program_stop_sink.cpp:4-8 | a sink refers to its source's state and changes nothing |
| Shutdown.ProgramStopSink.Retcode | webserver/src/program_stop_sink.cpp:10-14 | the sink reads the shared state's code |
| Shutdown.ProgramStopSink.Message | webserver/src/program_stop_sink.cpp:16-20 | the sink reads the shared state's message |
| Shutdown.ProgramStopSink.Wait | webserver/src/program_stop_sink.hpp:26-31 | waiting through a sink waits on the shared event, with the new timer state exactly that of a wait on the state's event, completing at once iff it is triggered, and leaves the code and message alone |
| Shutdown.SignalThroughCopies | webserver/src/program_stop_sink.cpp:4-8 | a sink observes whatever was signalled first, with a nonzero code, through any copy of its source |
| Shutdown.ExitStatus | webserver/interrupt_or_wait.cpp:102-104 | the exit code is the stop code, and standard error gets "<program>: <message>" exactly when it is nonzero |
| WaitDispositions.Disposition | webserver/src/disposition.hpp:12-22 | no error is success, `operation_aborted` is cancelled, any other code is error, and exactly one holds |
| Interrupt.MonitorInterrupt | webserver/interrupt_or_wait.cpp:28-64 | the loop's waits, whether it ended, and the stop it leaves are those of the reference run over the observed steps |
| Interrupt.MonitorSkipsIgnored | webserver/interrupt_or_wait.cpp:53-57 | successful waits that deliver another signal only add waits; the rest of the run decides |
| Interrupt.MonitorDecidedBy | webserver/interrupt_or_wait.cpp:36-63 | the first step that is not an ignored signal ends the loop. A cancelled state ends it with no wait; SIGINT stops with (4, "interrupted"); an error stops with 127 and its text; a cancelled wait stops nothing |
| Interrupt.MonitorUndecided | webserver/test-interrupt_or_wait.cpp:34-61 | while only other signals arrive, the loop keeps waiting and requests no stop |
| Interrupt.MonitorSignalKinds | webserver/interrupt_or_wait.cpp:45-62 | at most one stop is requested, only as the last act of a finished loop, and it is (4, "interrupted") or has code 127 |
| Interrupt.InterruptOrWaitMain | webserver/interrupt_or_wait.cpp:75-105 | "interrupted" is printed iff the monitor stopped the program, else "timed out"; the exit status follows the stop |
| Interrupt.TestInterruptOrWaitMain | webserver/test-interrupt_or_wait.cpp:64-83 | the process exits iff the monitor's loop ended, with the stop's code and message |
| Interrupt.MonitorInterruptOnce | webserver/src/interrupt.cpp:5-21 | a delivered signal stops with code = the signal number and "interrupted". A failed wait is rethrown without a stop, and logged unless it was cancelled |
| Diagnostics.UnconnectedSocketId | webserver/webserver.cpp:62-70 | a socket whose remote-endpoint query fails appears in an object id as "[unconnected]" |
| Diagnostics.ConnectedSocketId | webserver/webserver.cpp:62-70 | a connected socket appears in an object id as its bracketed remote endpoint |
| Diagnostics.WriteObjectId | webserver/webserver.cpp:90-110 | the separator loop writes the name, "[" and the items joined by ", " and "]" when there are any, then " : " |
| Diagnostics.ObjectIdWithoutParams | webserver/webserver.cpp:94-107 | an id without parameters prints as the name and " : " |
| Diagnostics.ObjectIdOneParam | webserver/webserver.cpp:94-107 | an id with one parameter prints as name[param] followed by " : " |
| Diagnostics.ReportRepeatsSeparator | webserver/webserver.cpp:121-126 | webserver.cpp's report line is the context, the bracketed list, " : " twice, the text and a newline |
| Diagnostics.ReportCxx20 | webserver/cxx20.cpp:147-166 | cxx20.cpp's report writes the context, the bracketed identifiers if any, " : " once, the text and a newline |
| Webserver.CancelCheckSharedBit | webserver/webserver.cpp:19-23 | `cancel_check<Test>(in)` holds iff some single cancellation bit is in both `Test` and `in` |
| Webserver.TerminalCheckCases | webserver/webserver.cpp:137-141 | the socket-closing slot acts on `terminal` and `all`, not on `partial`, `total` or `none` |
| Webserver.EscalatesIffThreeInterrupts | webserver/webserver.cpp:348-352 | the escalation reaches its third stage exactly when the first three waits all deliver a signal |
| Webserver.SigintLines | webserver/webserver.cpp:354-358 | the monitor's object id prints "monitor_sigint : " before "exit" and before "exception : <what>" |
| Webserver.MonitorSigint | webserver/webserver.cpp:338-360 | the lines printed, how the monitor ends, and the stop state follow the escalation. The stop (4, "interrupted") happens only on return after three interrupts |
| Webserver.SigintBeforeThird | webserver/webserver.cpp:348-358 | before the third interrupt, a failed wait prints one exception line after the messages so far and is rethrown; running out of waits leaves it suspended |
| Webserver.SigintStopsOnlyAfterThree | webserver/webserver.cpp:348-354 | the monitor returns, and stops, exactly when the first three waits deliver interrupts; it has then printed the three messages and the exit line |
| Webserver.Consume | webserver/webserver.cpp:259-260 | consuming n bytes drops exactly the first n, or empties a shorter buffer |
| Webserver.Chat | webserver/webserver.cpp:229-275 | given the peer's endpoint, chat prints "accepted" first. It hands over to HTTP unless detection timed out or its race threw, or the TLS handshake race threw; after a handoff its last line is "exit" or the HTTP failure report |
| Webserver.SilentClientDropped | webserver/webserver.cpp:236-245 | when the timeout wins the detection race, chat prints "accepted", `detect_ssl`'s report if it failed, and "client didn't speak", and returns with no handshake or HTTP |
| Webserver.ChatOnSocket | webserver/webserver.cpp:222-229 | a failed remote-endpoint query throws out of chat before anything is printed or handed on; with an endpoint chat prints "accepted" under that identity first |
| Webserver.HandshakeConsumesWhatItUsed | webserver/webserver.cpp:247-266 | after a TLS handshake exactly its reported byte count is dropped from the buffer front. A timed-out handshake or a plain connection passes the whole buffer on |
| Webserver.ChatReportsFailures | webserver/webserver.cpp:271-274 | chat's last line is on standard error exactly when the detection race, the TLS handshake race or HTTP threw, and it is then "chat[ident] :  : " followed by that exception's text; otherwise it is on standard output |
| Webserver.WebserverMain | webserver/webserver.cpp:389-397 | the exit status is the sink's code, with "webserver: <message>" on standard error iff it is nonzero |
| Webserver.RunProgram | webserver/webserver.cpp:362-387 | through a moved source and a copy, the process exits exactly when the monitor returns after three interrupts, with 4 and "webserver: interrupted"; a monitor that fails leaves the race waiting on the listener, so there is no exit |
| Cxx20.ProgramStop.constructor | webserver/cxx20.cpp:97-99 | a fresh `program_stop` has code 0, an empty message and a pending latch |
| Cxx20.ProgramStop.ReadLatch | webserver/cxx20.cpp:101-103 | the conversion gives a read latch on this stop's latch, agreeing with `stopped()` |
| Cxx20.ProgramStop.StopAsWritten | webserver/cxx20.cpp:114-121 | as written, `stop` overwrites code and message while not stopped and never changes `stopped()` |
| Cxx20.AsWrittenLastStopWins | webserver/cxx20.cpp:114-121 | as written, the last of any run of stops wins and the program is never stopped |
| Cxx20.AsWrittenInterruptOverwritten | webserver/cxx20.cpp:114-121 | as written, an interrupt stop (4) followed by a failure stop (127) ends with code 127 and an untriggered latch |
| Cxx20.ProgramStop.Stop | webserver/cxx20.cpp:114-121 | corrected `stop`: the first stop records code and message and triggers the latch, and later ones are ignored |
| Cxx20.FirstStopWins | webserver/cxx20.cpp:114-121 | with the correction, any run of stops from a running program leaves the first one's code and message, and the program stopped |
| Cxx20.StoppedIgnoresStops | webserver/cxx20.cpp:116 | once stopped, no further stop changes anything |
| Cxx20.ProgramStop.StopException | webserver/cxx20.cpp:109-112 | stopping with an exception is stopping with 127 and its text |
| Cxx20.ProgramStop.Wait | webserver/cxx20.cpp:123-127 | waiting on the stop waits on its latch, completing at once iff stopped |
| Cxx20.AcceptDecision | webserver/cxx20.cpp:239-246 | no error spawns a connection, `connection_aborted` goes round again, `operation_aborted` leaves the loop, and any other error is thrown |
| Cxx20.AcceptLoopSkips | webserver/cxx20.cpp:230-257 | rounds that go round again only add "accepting..." lines and spawns; what follows decides the end |
| Cxx20.ListenDecidedBy | webserver/cxx20.cpp:230-257 | the first outcome that does not go round again ends the loop: a fired latch (another task's stop) or `operation_aborted` normally, any other error by throwing it. One connection is spawned per earlier successful accept |
| Cxx20.ListenUndecided | webserver/cxx20.cpp:230-257 | while every outcome goes round again, the loop stays in its race, one round per outcome |
| Cxx20.AcceptLoop | webserver/cxx20.cpp:230-257 | the `while (!stopped())` loop prints one "accepting..." per round and ends as the reference run says. A fired latch applies the other task's stop, and the loop condition then ends the loop; it does not run at all when already stopped |
| Cxx20.FiredLatchReturns | webserver/cxx20.cpp:230-258 | a loop ended by another task's stop always leaves normally, so "listen: exit" follows |
| Cxx20.Listen | webserver/cxx20.cpp:218-264 | listen prints "creating acceptor", the rounds, then "listen: exit" or the exception. A setup or accept error that is thrown stops the program with 127 and its text; otherwise the only change is another task's stop |
| Cxx20.SetupFailureReported | webserver/cxx20.cpp:224-229 | when opening, binding or listening on the acceptor throws, listen prints "creating acceptor" and the exception and runs no round |
| Cxx20.SigintReturnsWhenStopped | webserver/cxx20.cpp:279 | once stopped, the monitor returns at its next check and changes nothing |
| Cxx20.OtherStopPrevails | webserver/cxx20.cpp:277-284 | if another task stops the program before the third interrupt, that stop is the outcome and the monitor does not stay suspended |
| Cxx20.SigintAlone | webserver/cxx20.cpp:277-284 | with no other stop, the monitor stops with (4, "interrupted") exactly after three interrupts, having printed the three messages; otherwise it changes nothing |
| Cxx20.MonitorSigint | webserver/cxx20.cpp:266-285 | the monitor's lines, end and the stop state are those of the reference run over its turns |
| Cxx20.Cxx20Main | webserver/cxx20.cpp:308-314 | the exit status is the stop's code, with "webserver: <message>" on standard error iff it is nonzero |
| Demo.RoundsDouble | webserver/demo.cpp:53-60 | after k successful rounds the running value is input × 2^k modulo 2^64, and the remaining rounds run on the remaining waits |
| Demo.TimesEightSucceeds | webserver/demo.cpp:75-94 | three successful rounds complete with 8 × input modulo 2^64 |
| Demo.TimesEightFailsFast | webserver/demo.cpp:84-86 | a failed wait in any round completes at once with that error and 0, whatever follows |
| Demo.DemoRuns | webserver/demo.cpp:108-123 | the two demo runs yield 16 and 24 |
| Demo.AsyncTimesEight | webserver/demo.cpp:66-98 | the counter loop completes as the reference run does. The rounds it doubles all succeeded, and it completes successfully exactly after three of them |

## Left out

- The WebSocket session (`any_websocket`), `chat_http`, `read_header_only`, `detect_ssl`'s byte inspection, TLS, HTTP parsing and webserver.cpp's `listen` accept loop are network I/O. Their outcomes enter `Chat` only as inputs.
- The `||` awaitable operator, `co_spawn` and cancellation slots are not modelled. A race is given by its outcome; the only output of a cancelled or failed side that is modelled is `detect_ssl`'s report.
- Interleaving between concurrently running coroutines is modelled in two places only, both in cxx20.cpp: a stop by another task during a wait of `monitor_sigint`, and one that fires the latch in `listen`'s race. Elsewhere each coroutine runs alone.
- Signal waiting (`wait_signal`, `signal_set`) and real timer expiry are not modelled. Their outcomes are inputs, and a timer's expiry is reduced to minimum, maximum and its default.
- Interrupt.MonitorInterrupt: the warning printed for an unexpected signal and the error line printed for a failed wait are not modelled. They print an error code and an integer through iostreams.
- Interrupt.InterruptOrWaitMain: the "exception" branch of the completion handler is not modelled. The monitor and the timeout use `as_tuple` and never throw.
- Webserver.RunProgram assumes that no connection is accepted and that the listener does not fail, so `listen` never finishes by itself. It relies on Asio's `||` finishing only with a side that succeeds; the operator's source is not part of this model.
- Webserver.ChatOnSocket: what becomes of the exception thrown out of `chat` is not modelled. It fails chat's side of the `chat || pstop` race in webserver.cpp's `listen`; the stop-event side never fails, so that race, and the detached connection task running it, then wait until the program stops.
- Shutdown.ExitStatus: the operating system truncates the exit code to 8 bits; the code is kept as returned by `main`.
- Error texts are the POSIX messages for ECANCELED and ECONNABORTED. Boost's `system_error::what()` may add a location suffix, which is not modelled.
- cxx20.cpp's `chat` and `detect_ssl` only print progress lines around the same race as webserver.cpp's `chat` and are not modelled. Neither are demo.cpp's console lines or the "Hello, World!" line cxx20.cpp's `main` prints first.
- Cxx20.ProgramStop.StopException, Cxx20.AcceptLoop, Cxx20.Listen, Cxx20.FiredLatchReturns, Cxx20.SigintReturnsWhenStopped, Cxx20.OtherStopPrevails, Cxx20.SigintAlone and Cxx20.MonitorSigint model cxx20.cpp with the corrected `stop` of the Findings row, which triggers the latch. As written, `stopped()` never becomes true. So the check before each wait of `monitor_sigint` never returns, the latch's timer never fires, so its wait in `listen`'s race completes only when that race is cancelled, and a stop by `listen` is overwritten by the monitor's `stop(4, "interrupted")`. In particular, OtherStopPrevails states the opposite of what the code as written does.
- webserver/test-program_stop.cpp and webserver/wsecho.cpp are entry points with no logic of their own.

## Findings

| source | as written | input that shows it | evidently intended | confidence | as-written member | corrected member |
|---|---|---|---|---|---|---|
| webserver/cxx20.cpp:114-121 | `stop` writes code and message while `!stopped()` but never calls `latch_.trigger()`, so every stop overwrites the previous one, `stopped()` never becomes true, and waiters on the latch are never woken | stop(4, "interrupted") followed by stop(127, "accept failed"): the program ends with 127, and `listen`'s `while (!pstop.stopped())` and the connections' latch waits never see the stop | `stop` triggers the latch, so the first stop wins and the loops and connections observe it | high (not executed) | Cxx20.AsWrittenLastStopWins | Cxx20.FirstStopWins |
