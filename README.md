# chai-process, modelled in Dafny

chai-process is a plugin for the chai assertion library. It runs an
external process and lets a test assert on how it ended. `spawn` and
`exec` return a promise of a `ChildResult`. The record holds the exit
code, the terminating signal, the elapsed time in nanoseconds, and the
captured stdout and stderr. The plugin adds the words `succeed`, `fail`,
`exitWithCode`, `exitCode`, `seconds`, `milliseconds`, `microseconds`,
`nanoseconds`, `stdout` and `stderr` to chai's expectation grammar.

The library's main design contract is this: a non-zero exit or a signal
is a normal *resolved* result that the assertion words then judge. For
`spawn` only an `error` event rejects the promise; for `exec` only a
synchronous throw from the OS call rejects it, and every error reported
through the callback resolves.

The model, one module per concern (all of it from `lib/index.js`):

- `Wrappers`: `Option`, where `None` stands for `null`/`undefined`.
- `JsValues`: the JavaScript values the library inspects, their truthiness, and property reads.
- `Timer`: `hrtime` readings and `stopTimer`.
- `ChildResults`: bytes, `Buffer.concat`, the `ChildResult` record, and the state of the returned promise.
- `SpawnOptions`: how `spawn` normalises the caller's options (a method that builds the record field by field).
- `Spawn`: the event handlers of `spawn`. The asynchronous child process is replaced by an explicit sequence of events.
  - The class `SpawnRun` holds the two chunk accumulators and the promise state, with one method per handler.
  - `Step` and `Run` are the pure specification of the same handlers over a whole event sequence.
  - `SpawnRun.Dispatch` is proved equal to `Step`. `Deliver` feeds a whole event sequence to a fresh run's handlers and is proved to end in the state `Run` gives, so the lemmas about `Run` hold of the handlers.
- `Exec`: how `exec` maps the way the OS call ended onto the promise.
- `Assertions`: the exit-code predicates, as functions on the assertion's subject, and the projections.
  - The projections are methods of the class `Assertion`, because they overwrite the subject `obj` in place.
- `DesignContract`: lemmas that connect the runner to the assertion words.

Three facts about `lib/index.js` shape the model:

- `spawn` settles on the `exit` event, with the chunks received up to that event. Chunks that arrive later are still appended to the accumulators, but they never reach the result (`Spawn.RunSettlesAtFirst`).
- `spawn` has no try/catch around the OS call. Only an asynchronous `error` event rejects its promise. `exec` wraps the call in try/catch.
- The elapsed time is a JavaScript number. The model uses an exact integer.

## Model

| member | source | states |
|---|---|---|
| Timer.StopTimer | lib/index.js:157-160 | for valid clock readings, the elapsed time is non-negative exactly when the end is not earlier than the start, and zero exactly when the two readings are equal |
| Timer.StopTimerMonotonic | lib/index.js:157-160 | for a fixed start, a later end reading never gives a shorter elapsed time |
| Timer.StopTimerBelowOneSecond | lib/index.js:157-160 | the elapsed time is under one second exactly when the readings share a second, or lie in adjacent seconds with the end's nanoseconds below the start's |
| JsValues.Get | lib/index.js:168-174 | a property read yields an own property's value exactly, and a defined value only for an own property of an object; non-objects yield undefined |
| ChildResults.ConcatAppend | lib/index.js:193 | `Concat` (the model of `Buffer.concat`) distributes over splitting the chunk list anywhere |
| ChildResults.ConcatRechunk | lib/index.js:193 | the joined bytes do not depend on where the chunk boundaries fall |
| ChildResults.Settle | lib/index.js:186-194 | the promise state, once settled, keeps its first settlement; a pending one takes the new settlement |
| SpawnOptions.BuildSpawnOptions | lib/index.js:164-175 | the built record is the normal form, with JavaScript truthiness as `JsValues.Truthy`: stdio is three pipes, plus 'ipc' exactly when a truthy options value has a truthy ipc; each of cwd, env, detached, uid, gid is present iff defined in a truthy options value, with the caller's value; no other key |
| SpawnOptions.NormalisedIsUnique | lib/index.js:164-175 | the normal-form conditions determine the options record completely |
| SpawnOptions.FalsyOptionsGiveOnlyPipes | lib/index.js:164-168 | without a truthy options value the record is exactly stdio with three pipes |
| Spawn.Step | lib/index.js:188-211 | one event handled: a data chunk is appended to its own stream's accumulator only; exit settles a pending promise with `ExitResult` (the `new ChildResult(...)` of line 193) and error settles it as a rejection; a settled promise stays as it is; close, disconnect and message change nothing |
| Spawn.RunCapturesChunks | lib/index.js:205-211 | after any event sequence, each accumulator is exactly its stream's chunks in arrival order |
| Spawn.RunPending | lib/index.js:188-194 | the promise is pending exactly when no exit or error event has arrived |
| Spawn.RunSettlesAtFirst | lib/index.js:188-194 | the first exit resolves with its code, its signal, the elapsed time, and the concatenated chunks received before it; the first error rejects with its error |
| Spawn.SettledOutcomeIsFinal | lib/index.js:186-194 | events after settlement never change the outcome |
| Spawn.RejectionComesFromError | lib/index.js:188-190 | a rejection carries the error of an error event that came before any exit |
| Spawn.SpawnRun.constructor | lib/index.js:179-186 | a run starts with the given start time, empty accumulators and a pending promise |
| Spawn.SpawnRun.OnStdoutData | lib/index.js:205-207 | a stdout chunk is appended to the stdout accumulator; nothing else changes |
| Spawn.SpawnRun.OnStderrData | lib/index.js:209-211 | a stderr chunk is appended to the stderr accumulator; nothing else changes |
| Spawn.SpawnRun.OnExit | lib/index.js:192-194 | exit settles the promise as resolved, for any code or signal, with the elapsed time and both buffers joined; the accumulators are unchanged |
| Spawn.SpawnRun.OnError | lib/index.js:188-190 | error settles the promise as rejected with that error; the accumulators are unchanged |
| Spawn.SpawnRun.OnClose | lib/index.js:196-197 | close leaves the whole state unchanged |
| Spawn.SpawnRun.OnDisconnect | lib/index.js:199-200 | disconnect leaves the whole state unchanged |
| Spawn.SpawnRun.OnMessage | lib/index.js:202-203 | a message leaves the whole state unchanged, whatever its payload |
| Spawn.SpawnRun.Dispatch | lib/index.js:188-211 | delivering any event to its handler changes the state exactly as Step specifies |
| Spawn.Deliver | lib/index.js:188-211 | delivering any event sequence to a fresh run's handlers, one at a time, leaves exactly the state `Run` gives for that sequence |
| Spawn.Spawn | lib/index.js:162-215 | spawn returns normalised options and a fresh run with the given start time, empty accumulators and a pending promise |
| Exec.ExecOutcome | lib/index.js:217-237 | exec rejects exactly when the OS call throws synchronously; a callback error resolves with that error's code and signal; success resolves with code 0 and no signal; in both cases the result has the callback's output, the elapsed time and no err |
| Assertions.Succeed | lib/index.js:23-40 | on a result, succeed holds iff the code is 0 (a null code does not succeed), reporting expected 0 and the actual code; other subjects are delegated |
| Assertions.Fail | lib/index.js:42-58 | on a result, fail holds iff the code is not 0, null included; other subjects are delegated |
| Assertions.ExitWithCode | lib/index.js:60-76 | on a result, exitWithCode(c) holds iff the code equals c; other subjects are delegated |
| Assertions.SucceedXorFail | lib/index.js:23-58 | exactly one of succeed and fail holds for any result |
| Assertions.SignalledProcessFails | lib/index.js:23-58 | a result with a null code does not succeed, and it fails |
| Assertions.ExitWithCodeAgreesWithSucceed | lib/index.js:23-76 | exitWithCode(0) agrees with succeed; a match on any other code implies fail |
| Assertions.Assertion.ExitCode | lib/index.js:78-87 | on a result, the subject becomes its code; otherwise the subject is unchanged and the word is delegated |
| Assertions.Assertion.Seconds | lib/index.js:89-98 | on a result, the subject becomes the elapsed time divided by 1e9; otherwise delegated |
| Assertions.Assertion.Milliseconds | lib/index.js:100-109 | on a result, the subject becomes the elapsed time divided by 1e6; otherwise delegated |
| Assertions.Assertion.Microseconds | lib/index.js:111-120 | on a result, the subject becomes the elapsed time divided by 1000; otherwise delegated |
| Assertions.Assertion.Nanoseconds | lib/index.js:122-131 | on a result, the subject becomes the elapsed time unchanged; otherwise delegated |
| Assertions.Assertion.Stdout | lib/index.js:133-142 | on a result, the subject becomes the captured stdout as text: a buffer decoded for the requested encoding, text as it is whatever the encoding; otherwise delegated |
| Assertions.Assertion.Stderr | lib/index.js:144-153 | on a result, the subject becomes the captured stderr as text: a buffer decoded for the requested encoding, text as it is whatever the encoding; otherwise delegated |
| DesignContract.SpawnExitResolves | lib/index.js:192-194 | if exit is the first settling event, the run resolves for any code, null included, with that code and signal, no err, the output received before exit, and a non-negative elapsed time; succeed, fail and exitWithCode then judge that code |
| DesignContract.SpawnRejectsOnlyOnLaunchError | lib/index.js:188-194 | a rejected run saw its error before any exit; a resolved run saw an exit |
| DesignContract.ResolutionComesFromExit | lib/index.js:192-194 | a resolved run contains an exit event |
| DesignContract.ExecCallbackResolves | lib/index.js:224-230 | an exec that reaches its callback resolves; succeed holds iff there was no error or the error's code is 0; a signalled error fails |

## Left out

- Launching processes. `child_process.spawn` and `child_process.exec` are OS calls. They become an explicit event sequence (`Spawn.Event`) and an explicit ending (`Exec.ExecEnding`). `command`, `args` and exec's options only pass through to them.
- The promise library. `Q.defer` is foreign. That a settled deferred ignores later `resolve`/`reject` calls is an assumption, written as `ChildResults.Settle`.
- The monotonic clock. `process.hrtime()` is replaced by the end reading carried by the `exit` event or the exec callback. Whether that reading is not earlier than the start is a hypothesis of the lemmas, not a requirement.
- Timer.StopTimer: does not model the floating-point products `seconds * 1e9` that the library computes. The arithmetic is exact integer arithmetic.
- JsValues.Get: reads only the own properties of a plain object. JavaScript's `_options.cwd` also finds inherited properties and properties set on arrays or functions; those are not modelled.
- Assertions.Assertion.Seconds, Assertions.Assertion.Milliseconds, Assertions.Assertion.Microseconds: the divisions are exact `real` divisions. JavaScript's double rounding is not modelled, and JavaScript numbers are idealised as exact reals with no NaN.
- Assertions.Assertion.Stdout, Assertions.Assertion.Stderr: `Buffer.toString(encoding)` belongs to the runtime. It is the parameter `decode`, applied to the raw bytes and the requested encoding. Output that is already text (`exec`'s default) is returned unchanged, as `String.prototype.toString` ignores its argument; how Node decoded it is not modelled.
- The chai plugin mechanism. This covers `overwriteProperty`/`overwriteMethod`, the failure messages, and how `this.assert` applies a `.not` negation. A predicate returns what it hands to `this.assert`. A non-result subject gives `Delegated` and leaves `obj` unchanged. What the previous behaviour `_super` then does belongs to chai. `exitWithCode`, `stdout` and `stderr` call the previous method without the caller's `code` or `encoding` argument (lib/index.js:73, 139, 150); `Delegated` does not show that.
- Assertions.ExitWithCode: the argument is a code or null. JavaScript loose equality with other argument types (for example `"2" == 2`) is not modelled.
- Exec.ExecOutcome: the callback error's `code` is an integer or null. Non-numeric error codes are not modelled. A string code such as `'ENOENT'` is how Node's `exec` reports a process it could not start (a missing `cwd`, say); such a launch failure goes through the callback and resolves, like any callback error, but the model cannot show its code. exec's stdout and stderr are carried as the callback gave them: text (`Output.Text`) or a buffer (`Output.Raw`).
- A synchronous exception thrown by `child_process.spawn` escapes `spawn` itself, because `spawn` has no try/catch. The model does not represent that exception.
- `cp.execFile` (lib/index.js:239-241): an empty function that does nothing.
- The fixtures and timing windows of the test suite are not modelled. The suite runs real processes.
