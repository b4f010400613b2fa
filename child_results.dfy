/**
 The result record `ChildResult`, the captured byte buffers, and the
 state of the deferred that `spawn` and `exec` return.
 */
module ChildResults {
  import opened Wrappers

  newtype byte = b: int | 0 <= b < 256

  type Bytes = seq<byte>

  /** `Buffer.concat`: the chunks joined in the order given. */
  function Concat(chunks: seq<Bytes>): Bytes
  {
    if chunks == [] then [] else Concat(chunks[..|chunks| - 1]) + chunks[|chunks| - 1]
  }

  /** Concatenation distributes over splitting the chunk list anywhere. */
  lemma {:induction false} ConcatAppend(a: seq<Bytes>, b: seq<Bytes>)
    ensures Concat(a + b) == Concat(a) + Concat(b)
  {
    if b == [] {
      assert a + b == a;
    } else {
      var n := |b| - 1;
      assert (a + b)[..|a + b| - 1] == a + b[..n];
      ConcatAppend(a, b[..n]);
    }
  }

  /** The joined bytes do not depend on where the chunk boundaries fall. */
  lemma ConcatRechunk(before: seq<Bytes>, x: Bytes, y: Bytes, after: seq<Bytes>)
    ensures Concat(before + [x + y] + after) == Concat(before + [x, y] + after)
  {
    ConcatAppend(before + [x + y], after);
    ConcatAppend(before + [x, y], after);
    ConcatAppend(before, [x + y]);
    ConcatAppend(before, [x, y]);
    assert [x, y][..1] == [x];
  }

  /** Captured output: a `Buffer` of raw bytes, or text the OS layer already decoded (`exec`'s default). */
  datatype Output = Raw(bytes: Bytes) | Text(text: string)

  /** `output.toString(encoding)`: a buffer is decoded by `decode`; text is returned as it is, whatever the encoding. */
  function OutputToString(output: Output, encoding: Option<string>, decode: (Bytes, Option<string>) -> string): (s: string)
    ensures output.Text? ==> s == output.text
    ensures output.Raw? ==> s == decode(output.bytes, encoding)
  {
    match output
    case Raw(bytes) => decode(bytes, encoding)
    case Text(text) => text
  }

  /** The error object an OS launch failure carries; its contents are not inspected. */
  datatype ErrorValue = ErrorValue(errno: string, message: string)

  /**
   The record a run resolves with. `code` is `None` (null) for a process
   killed by a signal; `signal` is `None` when it exited normally;
   `finishTime` is in nanoseconds; `err` is never set by the library.
   */
  datatype ChildResult = ChildResult(
    code: Option<int>,
    signal: Option<string>,
    finishTime: int,
    stdout: Output,
    stderr: Output,
    err: Option<ErrorValue>)

  /** How the returned promise settles. */
  datatype Settlement = Resolved(result: ChildResult) | Rejected(reason: ErrorValue)

  /**
   The deferred's `resolve`/`reject`: the first settlement is kept and
   later ones are ignored (the behaviour of the promise library, assumed).
   */
  function Settle(state: Option<Settlement>, s: Settlement): (r: Option<Settlement>)
    ensures r.Some?
    ensures state.Some? ==> r == state
    ensures state.None? ==> r.value == s
  {
    if state.Some? then state else Some(s)
  }
}
