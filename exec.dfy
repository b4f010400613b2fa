/**
 How `exec` maps the way the OS call ends onto the promise it returns.
 The call itself is the OS's; only the mapping is modelled.
 */
module Exec {
  import opened Wrappers
  import opened Timer
  import opened ChildResults

  /** The callback's error object: its `code` (null when signalled) and `signal`. */
  datatype ExecError = ExecError(code: Option<int>, signal: Option<string>)

  /**
   Either the callback ran (with the clock reading taken in it), or the call threw synchronously.
   The callback's output is text by default and a buffer when the caller asked for one.
   */
  datatype ExecEnding =
    | Callback(error: Option<ExecError>, stdout: Output, stderr: Output, endTime: HrTime)
    | Threw(thrown: ErrorValue)

  /** The settlement of `exec`'s promise, for a run started at `start`. */
  function ExecOutcome(start: HrTime, ending: ExecEnding): (s: Settlement)
    ensures s.Rejected? <==> ending.Threw?
    ensures ending.Threw? ==> s.reason == ending.thrown
    ensures ending.Callback? ==>
      && s.result.stdout == ending.stdout && s.result.stderr == ending.stderr
      && s.result.finishTime == StopTimer(start, ending.endTime)
      && s.result.err.None?
    ensures ending.Callback? && ending.error.None? ==> s.result.code == Some(0) && s.result.signal.None?
    ensures ending.Callback? && ending.error.Some? ==>
      s.result.code == ending.error.value.code && s.result.signal == ending.error.value.signal
  {
    match ending
    case Callback(error, stdout, stderr, endTime) =>
      if error.Some? then
        Resolved(ChildResult(error.value.code, error.value.signal, StopTimer(start, endTime), stdout, stderr, None))
      else
        Resolved(ChildResult(Some(0), None, StopTimer(start, endTime), stdout, stderr, None))
    case Threw(err) => Rejected(err)
  }

}
