/**
 The library's central contract, stated across the runner and the
 assertion words: a non-zero exit or a signal is an ordinary resolved
 result that the exit-code predicates then judge. For `spawn` only an
 `error` event rejects; for `exec` only a synchronous throw rejects.
 */
module DesignContract {
  import opened Wrappers
  import opened Timer
  import opened ChildResults
  import opened Spawn
  import opened Exec
  import opened Assertions

  /**
   When the first settling event of a `spawn` run is `exit(code, signal)`,
   the promise resolves, for any code including non-zero and null, with a
   result carrying that code and signal, no `err`, the output that arrived
   before the exit, and a non-negative elapsed time when the clock did not
   go backwards; `succeed`, `fail` and `exitWithCode` then read that code.
   */
  lemma SpawnExitResolves(start: HrTime, evs: seq<Event>, k: nat)
    requires k < |evs| && evs[k].Exit?
    requires forall i | 0 <= i < k :: !Settles(evs[i])
    ensures Run(start, evs).outcome.Some? && Run(start, evs).outcome.value.Resolved?
    ensures var r := Run(start, evs).outcome.value.result;
      && r.code == evs[k].code && r.signal == evs[k].signal && r.err.None?
      && r.stdout == Raw(Concat(StdoutChunks(evs[..k]))) && r.stderr == Raw(Concat(StderrChunks(evs[..k])))
      && (Valid(start) && Valid(evs[k].endTime) && NotEarlier(start, evs[k].endTime) ==> r.finishTime >= 0)
      && (Succeed(Child(r)).holds <==> evs[k].code == Some(0))
      && (Fail(Child(r)).holds <==> evs[k].code != Some(0))
      && ExitWithCode(Child(r), evs[k].code).holds
  {
    RunSettlesAtFirst(start, evs, k);
  }

  /** A `spawn` run that rejects never saw an `exit` before its `error`; one that resolves did see one. */
  lemma SpawnRejectsOnlyOnLaunchError(start: HrTime, evs: seq<Event>)
    requires Run(start, evs).outcome.Some?
    ensures Run(start, evs).outcome.value.Rejected? ==>
      exists k | 0 <= k < |evs| :: evs[k] == Error(Run(start, evs).outcome.value.reason) &&
                                  forall i | 0 <= i < k :: !evs[i].Exit?
    ensures Run(start, evs).outcome.value.Resolved? ==> exists k | 0 <= k < |evs| :: evs[k].Exit?
  {
    var o := Run(start, evs).outcome.value;
    if o.Rejected? {
      RejectionComesFromError(start, evs, o.reason);
    } else {
      ResolutionComesFromExit(start, evs);
    }
  }

  /** A resolved `spawn` run saw an `exit` event. */
  lemma {:induction false} ResolutionComesFromExit(start: HrTime, evs: seq<Event>)
    requires Run(start, evs).outcome.Some? && Run(start, evs).outcome.value.Resolved?
    ensures exists k | 0 <= k < |evs| :: evs[k].Exit?
  {
    var n := |evs| - 1;
    var p := evs[..n];
    if Run(start, p).outcome.Some? {
      ResolutionComesFromExit(start, p);
      var k :| 0 <= k < |p| && p[k].Exit?;
      assert evs[k] == p[k];
    } else {
      assert evs[n].Exit?;
    }
  }

  /**
   An `exec` that reached its callback resolves, and `succeed` holds of
   its result exactly when there was no error or the error's code is 0.
   */
  lemma ExecCallbackResolves(start: HrTime, ending: ExecEnding)
    requires ending.Callback?
    ensures ExecOutcome(start, ending).Resolved?
    ensures Succeed(Child(ExecOutcome(start, ending).result)).holds <==>
            ending.error.None? || ending.error.value.code == Some(0)
    ensures ending.error.Some? && ending.error.value.code.None? ==>
            Fail(Child(ExecOutcome(start, ending).result)).holds
  {
  }
}
