/**
 The monotonic clock readings of `process.hrtime()` and the elapsed-time
 arithmetic of `stopTimer`. Integers are exact: the library computes
 `seconds * 1e9` as a JavaScript number, which this model idealises.
 */
module Timer {

  const NanosPerSecond: int := 1000000000

  /** A reading `[seconds, nanoseconds]`. */
  datatype HrTime = HrTime(seconds: int, nanos: int)

  /** What the clock delivers: a non-negative second count and a nanosecond part below one second. */
  predicate Valid(t: HrTime) {
    0 <= t.seconds && 0 <= t.nanos < NanosPerSecond
  }

  /** `end` is not earlier than `start`, compared as pairs (seconds first). */
  predicate NotEarlier(start: HrTime, end: HrTime) {
    end.seconds > start.seconds || (end.seconds == start.seconds && end.nanos >= start.nanos)
  }

  /** The time since `start` in nanoseconds, given the clock reading `end` taken when the timer stops. */
  function StopTimer(start: HrTime, end: HrTime): (elapsed: int)
    ensures Valid(start) && Valid(end) ==> (elapsed >= 0 <==> NotEarlier(start, end))
    ensures Valid(start) && Valid(end) ==> (elapsed == 0 <==> start == end)
  {
    (end.seconds * NanosPerSecond + end.nanos) - (start.seconds * NanosPerSecond + start.nanos)
  }


  /** For a fixed start, a later end reading never gives a shorter elapsed time. */
  lemma StopTimerMonotonic(start: HrTime, e1: HrTime, e2: HrTime)
    requires Valid(start) && Valid(e1) && Valid(e2) && NotEarlier(e1, e2)
    ensures StopTimer(start, e1) <= StopTimer(start, e2)
  {
  }

  /** An elapsed time is below one second exactly when the readings are less than a second apart. */
  lemma StopTimerBelowOneSecond(start: HrTime, end: HrTime)
    requires Valid(start) && Valid(end) && NotEarlier(start, end)
    ensures StopTimer(start, end) < NanosPerSecond <==>
            end.seconds == start.seconds || (end.seconds == start.seconds + 1 && end.nanos < start.nanos)
  {
  }
}
