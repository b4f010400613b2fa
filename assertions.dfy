/**
 The assertion words the library adds: the exit-code predicates and the
 projections that replace the assertion's subject. A subject that is not
 a `ChildResult` is left to the behaviour the word had before.
 */
module Assertions {
  import opened Wrappers
  import opened JsValues
  import opened ChildResults

  /** The value an assertion is about: a run's result, or any other value. */
  datatype Subject = Child(result: ChildResult) | Value(value: JsValue)

  /**
   What a predicate hands to the assertion engine: whether it holds, with
   the expected and actual codes for the message; or `Delegated` when the
   previous behaviour of the word runs instead.
   */
  datatype Verdict = Checked(holds: bool, expected: Option<int>, actual: Option<int>) | Delegated

  /** `succeed`: the process exited with code 0 (a null code is not loosely equal to 0). */
  function Succeed(subject: Subject): (v: Verdict)
    ensures v.Delegated? <==> !subject.Child?
    ensures subject.Child? ==> v.expected == Some(0) && v.actual == subject.result.code
    ensures subject.Child? ==> (v.holds <==> subject.result.code == Some(0))
  {
    if subject.Child? then Checked(subject.result.code == Some(0), Some(0), subject.result.code) else Delegated
  }

  /** `fail`: the process did not exit with code 0, which includes being killed by a signal. */
  function Fail(subject: Subject): (v: Verdict)
    ensures v.Delegated? <==> !subject.Child?
    ensures subject.Child? ==> v.expected == Some(0) && v.actual == subject.result.code
    ensures subject.Child? ==> (v.holds <==> subject.result.code != Some(0))
  {
    if subject.Child? then Checked(subject.result.code != Some(0), Some(0), subject.result.code) else Delegated
  }

  /** `exitWithCode(code)`: the process exited with exactly `code`; a null argument matches a null code. */
  function ExitWithCode(subject: Subject, code: Option<int>): (v: Verdict)
    ensures v.Delegated? <==> !subject.Child?
    ensures subject.Child? ==> v.expected == code && v.actual == subject.result.code
    ensures subject.Child? ==> (v.holds <==> subject.result.code == code)
  {
    if subject.Child? then Checked(subject.result.code == code, code, subject.result.code) else Delegated
  }

  /** For every result exactly one of `succeed` and `fail` holds. */
  lemma SucceedXorFail(r: ChildResult)
    ensures Succeed(Child(r)).holds != Fail(Child(r)).holds
  {
  }

  /** A process killed by a signal (null code) does not succeed, and fails. */
  lemma SignalledProcessFails(r: ChildResult)
    requires r.code.None?
    ensures !Succeed(Child(r)).holds && Fail(Child(r)).holds
  {
  }

  /** `exitWithCode(0)` agrees with `succeed`, and any other code that matches implies `fail`. */
  lemma ExitWithCodeAgreesWithSucceed(r: ChildResult, code: Option<int>)
    ensures ExitWithCode(Child(r), Some(0)).holds == Succeed(Child(r)).holds
    ensures ExitWithCode(Child(r), code).holds && code != Some(0) ==> Fail(Child(r)).holds
  {
  }


  /** The exit code as the JavaScript value the `exitCode` projection yields. */
  function CodeValue(code: Option<int>): (v: JsValue)
    ensures code.None? <==> v.Null?
    ensures code.Some? ==> v == Num(code.value as real)
  {
    if code.Some? then Num(code.value as real) else Null
  }

  /** Elapsed time in seconds, milliseconds and microseconds: exact divisions of the nanosecond count. */
  function SecondsOf(r: ChildResult): real { r.finishTime as real / 1000000000.0 }
  function MillisecondsOf(r: ChildResult): real { r.finishTime as real / 1000000.0 }
  function MicrosecondsOf(r: ChildResult): real { r.finishTime as real / 1000.0 }



  /** An assertion in progress; its subject `obj` is replaced by the projections. */
  class Assertion {
    var obj: Subject

    constructor (subject: Subject)
      ensures obj == subject
    {
      obj := subject;
    }

    /** `exitCode`: the subject becomes the code, unchanged. */
    method ExitCode() returns (delegated: bool)
      modifies this
      ensures delegated <==> !old(obj).Child?
      ensures old(obj).Child? ==> obj == Value(CodeValue(old(obj).result.code))
      ensures delegated ==> obj == old(obj)
    {
      delegated := !obj.Child?;
      if !delegated { obj := Value(CodeValue(obj.result.code)); }
    }

    /** `seconds`: the subject becomes the elapsed time in seconds. */
    method Seconds() returns (delegated: bool)
      modifies this
      ensures delegated <==> !old(obj).Child?
      ensures old(obj).Child? ==> obj == Value(Num(SecondsOf(old(obj).result)))
      ensures delegated ==> obj == old(obj)
    {
      delegated := !obj.Child?;
      if !delegated { obj := Value(Num(SecondsOf(obj.result))); }
    }

    /** `milliseconds`: the subject becomes the elapsed time in milliseconds. */
    method Milliseconds() returns (delegated: bool)
      modifies this
      ensures delegated <==> !old(obj).Child?
      ensures old(obj).Child? ==> obj == Value(Num(MillisecondsOf(old(obj).result)))
      ensures delegated ==> obj == old(obj)
    {
      delegated := !obj.Child?;
      if !delegated { obj := Value(Num(MillisecondsOf(obj.result))); }
    }

    /** `microseconds`: the subject becomes the elapsed time in microseconds. */
    method Microseconds() returns (delegated: bool)
      modifies this
      ensures delegated <==> !old(obj).Child?
      ensures old(obj).Child? ==> obj == Value(Num(MicrosecondsOf(old(obj).result)))
      ensures delegated ==> obj == old(obj)
    {
      delegated := !obj.Child?;
      if !delegated { obj := Value(Num(MicrosecondsOf(obj.result))); }
    }

    /** `nanoseconds`: the subject becomes the elapsed time in nanoseconds, unchanged. */
    method Nanoseconds() returns (delegated: bool)
      modifies this
      ensures delegated <==> !old(obj).Child?
      ensures old(obj).Child? ==> obj == Value(Num(old(obj).result.finishTime as real))
      ensures delegated ==> obj == old(obj)
    {
      delegated := !obj.Child?;
      if !delegated { obj := Value(Num(obj.result.finishTime as real)); }
    }

    /** `stdout(encoding)`: the subject becomes the captured stdout as text; only a buffer depends on the encoding. */
    method Stdout(encoding: Option<string>, decode: (Bytes, Option<string>) -> string) returns (delegated: bool)
      modifies this
      ensures delegated <==> !old(obj).Child?
      ensures old(obj).Child? ==> obj == Value(Str(OutputToString(old(obj).result.stdout, encoding, decode)))
      ensures delegated ==> obj == old(obj)
    {
      delegated := !obj.Child?;
      if !delegated { obj := Value(Str(OutputToString(obj.result.stdout, encoding, decode))); }
    }

    /** `stderr(encoding)`: the subject becomes the captured stderr as text; only a buffer depends on the encoding. */
    method Stderr(encoding: Option<string>, decode: (Bytes, Option<string>) -> string) returns (delegated: bool)
      modifies this
      ensures delegated <==> !old(obj).Child?
      ensures old(obj).Child? ==> obj == Value(Str(OutputToString(old(obj).result.stderr, encoding, decode)))
      ensures delegated ==> obj == old(obj)
    {
      delegated := !obj.Child?;
      if !delegated { obj := Value(Str(OutputToString(obj.result.stderr, encoding, decode))); }
    }
  }
}
