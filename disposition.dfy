/** The classification of a wait's error code into the three ways a
    monitor loop reacts to it. */
module WaitDispositions {
  import opened AsioErrors

  datatype WaitDisposition = Success | Cancelled | Error

  /** `disposition(ec)`: no error is a success, `operation_aborted` is a
      cancellation, and every other error is an error. */
  function Disposition(ec: ErrorCode): (d: WaitDisposition)
    ensures d == Success <==> ec == NoError
    ensures d == Cancelled <==> ec == OperationAborted
    ensures d == Error <==> ec != NoError && ec != OperationAborted
  {
    if ec != NoError then
      if ec == OperationAborted then Cancelled else Error
    else
      Success
  }
}
