/**
 The event handling of `spawn`. The asynchrony of the child process is
 replaced by an explicit sequence of events; `SpawnRun` holds the state
 the handlers share (the two chunk accumulators and the deferred), with
 one method per handler, and `Step`/`Run` are the pure specification of
 the same handlers used to state what a whole event sequence produces.
 */
module Spawn {
  import opened Wrappers
  import opened JsValues
  import opened Timer
  import opened ChildResults
  import opened SpawnOptions

  /** What the child process can emit; `Exit` carries the clock reading taken by its handler. */
  datatype Event =
    | StdoutData(chunk: Bytes)
    | StderrData(chunk: Bytes)
    | Exit(code: Option<int>, signal: Option<string>, endTime: HrTime)
    | Error(error: ErrorValue)
    | Close
    | Disconnect
    | Message(message: JsValue)

  /** The events whose handlers settle the deferred. */
  predicate Settles(ev: Event) {
    ev.Exit? || ev.Error?
  }

  datatype RunState = RunState(childOut: seq<Bytes>, childErr: seq<Bytes>, outcome: Option<Settlement>)

  const Initial: RunState := RunState([], [], None)

  /** The result the `exit` handler builds from the chunks received so far. */
  function ExitResult(start: HrTime, s: RunState, code: Option<int>, signal: Option<string>, endTime: HrTime): ChildResult
  {
    ChildResult(code, signal, StopTimer(start, endTime), Raw(Concat(s.childOut)), Raw(Concat(s.childErr)), None)
  }

  /** One event handled. */
  function Step(start: HrTime, s: RunState, ev: Event): (r: RunState)
    ensures r.childOut == if ev.StdoutData? then s.childOut + [ev.chunk] else s.childOut
    ensures r.childErr == if ev.StderrData? then s.childErr + [ev.chunk] else s.childErr
    ensures !Settles(ev) || s.outcome.Some? ==> r.outcome == s.outcome
    ensures Settles(ev) ==> r.outcome.Some?
    ensures ev.Exit? && s.outcome.None? ==>
      r.outcome == Some(Resolved(ExitResult(start, s, ev.code, ev.signal, ev.endTime)))
    ensures ev.Error? && s.outcome.None? ==> r.outcome == Some(Rejected(ev.error))
    ensures ev.Close? || ev.Disconnect? || ev.Message? ==> r == s
  {
    match ev
    case StdoutData(chunk) => s.(childOut := s.childOut + [chunk])
    case StderrData(chunk) => s.(childErr := s.childErr + [chunk])
    case Exit(code, signal, endTime) =>
      s.(outcome := Settle(s.outcome, Resolved(ExitResult(start, s, code, signal, endTime))))
    case Error(e) => s.(outcome := Settle(s.outcome, Rejected(e)))
    case Close => s
    case Disconnect => s
    case Message(_) => s
  }

  /** The state after a whole event sequence, starting from the state `spawn` sets up. */
  function Run(start: HrTime, evs: seq<Event>): RunState
  {
    if evs == [] then Initial else Step(start, Run(start, evs[..|evs| - 1]), evs[|evs| - 1])
  }

  /** The stdout chunks of an event sequence, in order. */
  function StdoutChunks(evs: seq<Event>): seq<Bytes>
  {
    if evs == [] then []
    else StdoutChunks(evs[..|evs| - 1]) + (if evs[|evs| - 1].StdoutData? then [evs[|evs| - 1].chunk] else [])
  }

  /** The stderr chunks of an event sequence, in order. */
  function StderrChunks(evs: seq<Event>): seq<Bytes>
  {
    if evs == [] then []
    else StderrChunks(evs[..|evs| - 1]) + (if evs[|evs| - 1].StderrData? then [evs[|evs| - 1].chunk] else [])
  }

  /** How the first settling event `ev`, preceded by `before`, settles the run. */
  function SettlementBy(start: HrTime, before: seq<Event>, ev: Event): Settlement
    requires Settles(ev)
  {
    if ev.Exit? then
      Resolved(ChildResult(ev.code, ev.signal, StopTimer(start, ev.endTime),
                           Raw(Concat(StdoutChunks(before))), Raw(Concat(StderrChunks(before))), None))
    else Rejected(ev.error)
  }

  /** Each accumulator holds exactly its own stream's chunks, in arrival order. */
  lemma {:induction false} RunCapturesChunks(start: HrTime, evs: seq<Event>)
    ensures Run(start, evs).childOut == StdoutChunks(evs)
    ensures Run(start, evs).childErr == StderrChunks(evs)
  {
    if evs != [] {
      RunCapturesChunks(start, evs[..|evs| - 1]);
    }
  }

  /** The promise stays pending exactly as long as no `exit` or `error` has arrived. */
  lemma {:induction false} RunPending(start: HrTime, evs: seq<Event>)
    ensures Run(start, evs).outcome.None? <==> forall i | 0 <= i < |evs| :: !Settles(evs[i])
  {
    if evs != [] {
      var n := |evs| - 1;
      var p := evs[..n];
      RunPending(start, p);
      var s := Run(start, p);
      assert Run(start, evs) == Step(start, s, evs[n]);
      if Settles(evs[n]) {
        assert Run(start, evs).outcome.Some?;
      } else if s.outcome.Some? {
        var i :| 0 <= i < n && Settles(p[i]);
        assert evs[i] == p[i];
      } else {
        assert forall i | 0 <= i < n :: p[i] == evs[i];
      }
    }
  }

  /**
   The first `exit` or `error` decides the outcome: an `exit` resolves with
   its code and signal, the elapsed time, and the chunks that arrived
   before it; an `error` rejects with its error. Nothing later changes it.
   */
  lemma {:induction false} RunSettlesAtFirst(start: HrTime, evs: seq<Event>, k: nat)
    requires k < |evs| && Settles(evs[k])
    requires forall i | 0 <= i < k :: !Settles(evs[i])
    ensures Run(start, evs).outcome == Some(SettlementBy(start, evs[..k], evs[k]))
  {
    var n := |evs| - 1;
    var p := evs[..n];
    assert Run(start, evs) == Step(start, Run(start, p), evs[n]);
    if k == n {
      assert p == evs[..k];
      assert forall i | 0 <= i < |p| :: p[i] == evs[i];
      RunPending(start, p);
      RunCapturesChunks(start, p);
      var s := Run(start, p);
      assert s.outcome.None?;
      assert s.childOut == StdoutChunks(p) && s.childErr == StderrChunks(p);
    } else {
      assert forall i | 0 <= i <= k :: p[i] == evs[i];
      assert p[..k] == evs[..k];
      RunSettlesAtFirst(start, p, k);
    }
  }

  /** Once settled, later events never change the outcome. */
  lemma {:induction false} SettledOutcomeIsFinal(start: HrTime, evs: seq<Event>, more: seq<Event>)
    requires Run(start, evs).outcome.Some?
    ensures Run(start, evs + more).outcome == Run(start, evs).outcome
  {
    if more != [] {
      var m := |more| - 1;
      assert (evs + more)[..|evs + more| - 1] == evs + more[..m];
      SettledOutcomeIsFinal(start, evs, more[..m]);
    } else {
      assert evs + more == evs;
    }
  }

  /** A rejection only ever comes from an `error` event that arrived before any `exit`. */
  lemma {:induction false} RejectionComesFromError(start: HrTime, evs: seq<Event>, e: ErrorValue)
    requires Run(start, evs).outcome == Some(Rejected(e))
    ensures exists k | 0 <= k < |evs| :: evs[k] == Error(e) && forall i | 0 <= i < k :: !evs[i].Exit?
  {
    var n := |evs| - 1;
    var p := evs[..n];
    if Run(start, p).outcome.Some? {
      RejectionComesFromError(start, p, e);
      var k :| 0 <= k < |p| && p[k] == Error(e) && forall i | 0 <= i < k :: !p[i].Exit?;
      assert evs[k] == p[k];
      assert forall i | 0 <= i < k :: evs[i] == p[i];
    } else {
      RunPending(start, p);
      assert forall i | 0 <= i < n :: evs[i] == p[i];
      assert evs[n] == Error(e);
    }
  }

  /**
   The state the handlers of one `spawn` call share: the two chunk
   accumulators and the deferred's state.
   */
  class SpawnRun {
    const startTime: HrTime
    var childOut: seq<Bytes>
    var childErr: seq<Bytes>
    var outcome: Option<Settlement>

    function State(): RunState
      reads this
    {
      RunState(childOut, childErr, outcome)
    }

    /** Handlers attached, nothing received, promise pending. */
    constructor (startTime: HrTime)
      ensures this.startTime == startTime && State() == Initial
    {
      this.startTime := startTime;
      childOut, childErr, outcome := [], [], None;
    }

    /** `child.stdout.on('data')`: append the chunk to the stdout accumulator. */
    method OnStdoutData(chunk: Bytes)
      modifies this
      ensures childOut == old(childOut) + [chunk]
      ensures childErr == old(childErr) && outcome == old(outcome)
    {
      childOut := childOut + [chunk];
    }

    /** `child.stderr.on('data')`: append the chunk to the stderr accumulator. */
    method OnStderrData(chunk: Bytes)
      modifies this
      ensures childErr == old(childErr) + [chunk]
      ensures childOut == old(childOut) && outcome == old(outcome)
    {
      childErr := childErr + [chunk];
    }

    /** `child.on('exit')`: resolve, whatever the code and signal, with the buffers joined so far. */
    method OnExit(code: Option<int>, signal: Option<string>, endTime: HrTime)
      modifies this
      ensures outcome == Settle(old(outcome), Resolved(ChildResult(code, signal, StopTimer(startTime, endTime),
                                                                   Raw(Concat(childOut)), Raw(Concat(childErr)), None)))
      ensures childOut == old(childOut) && childErr == old(childErr)
    {
      var result := ChildResult(code, signal, StopTimer(startTime, endTime), Raw(Concat(childOut)), Raw(Concat(childErr)), None);
      outcome := Settle(outcome, Resolved(result));
    }

    /** `child.on('error')`: reject with the launch error. */
    method OnError(e: ErrorValue)
      modifies this
      ensures outcome == Settle(old(outcome), Rejected(e))
      ensures childOut == old(childOut) && childErr == old(childErr)
    {
      outcome := Settle(outcome, Rejected(e));
    }

    /** `child.on('close')`: accepted, no effect. */
    method OnClose()
      ensures State() == old(State())
    {
    }

    /** `child.on('disconnect')`: accepted, no effect. */
    method OnDisconnect()
      ensures State() == old(State())
    {
    }

    /** `child.on('message')`: accepted, the payload is ignored. */
    method OnMessage(message: JsValue)
      ensures State() == old(State())
    {
    }

    /** The emitter delivering one event to the handler registered for it. */
    method Dispatch(ev: Event)
      modifies this
      ensures State() == Step(startTime, old(State()), ev)
    {
      match ev
      case StdoutData(chunk) => OnStdoutData(chunk);
      case StderrData(chunk) => OnStderrData(chunk);
      case Exit(code, signal, endTime) => OnExit(code, signal, endTime);
      case Error(e) => OnError(e);
      case Close => OnClose();
      case Disconnect => OnDisconnect();
      case Message(m) => OnMessage(m);
    }
  }

  /**
   The runtime delivering a sequence of events, one at a time, to the
   handlers of a fresh run: the run ends in the state `Run` describes, so
   every lemma about `Run` holds of the handlers themselves.
   */
  method Deliver(run: SpawnRun, evs: seq<Event>)
    requires run.State() == Initial
    modifies run
    ensures run.State() == Run(run.startTime, evs)
  {
    var i := 0;
    while i < |evs|
      invariant 0 <= i <= |evs|
      invariant run.State() == Run(run.startTime, evs[..i])
    {
      assert evs[..i + 1][..i] == evs[..i];
      run.Dispatch(evs[i]);
      i := i + 1;
    }
    assert evs[..i] == evs;
  }

  /**
   `spawn(command, args, callerOptions)`: normalise the options, take the
   start time, attach the handlers. Launching the process is the OS's;
   `command` and `args` only pass through to it.
   */
  method Spawn(command: string, args: seq<string>, callerOptions: JsValue, startTime: HrTime)
    returns (options: map<string, JsValue>, run: SpawnRun)
    ensures Normalised(callerOptions, options)
    ensures fresh(run) && run.startTime == startTime && run.State() == Initial
  {
    options := BuildSpawnOptions(callerOptions);
    run := new SpawnRun(startTime);
  }
}
