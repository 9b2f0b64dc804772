/**
 * The error codes and signal-wait outcomes that the asynchronous operations
 * of the server report. Only the distinctions the server's code branches on
 * are kept: no error, `operation_aborted` (the wait or accept was cancelled),
 * `connection_aborted` (the peer reset a connection during accept), and any
 * other error, which carries the text its exception would report.
 */
module AsioErrors {

  datatype Option<T> = None | Some(value: T)

  datatype ErrorCode =
    | NoError
    | OperationAborted
    | ConnectionAborted
    | OtherError(message: string)

  /** An error code that tests true: what a failed operation reports. */
  type Failure = ec: ErrorCode | ec != NoError witness OperationAborted

  /** The signal number of SIGINT on POSIX systems. */
  const SIGINT: int := 2

  /**
   * The text an exception built from `ec` reports through `what()`.
   * For the two named codes this is the POSIX message of ECANCELED and
   * ECONNABORTED; any other error carries its own text.
   */
  function Message(ec: ErrorCode): string
  {
    match ec
    case NoError => "Success"
    case OperationAborted => "Operation canceled"
    case ConnectionAborted => "Software caused connection abort"
    case OtherError(m) => m
  }

  /**
   * The outcome of awaiting a signal through `wait_signal` or a plain
   * `signal_set::async_wait` with `use_awaitable`: a delivered signal number,
   * or the system error the awaiting coroutine sees thrown.
   */
  datatype SignalWait = Received(sig: int) | WaitFailed(ec: Failure)
}
