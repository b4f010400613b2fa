/**
 How `spawn` turns the caller's loose options object into the options
 record handed to the OS process API.
 */
module SpawnOptions {
  import opened JsValues

  /** The caller keys that are copied across when defined. */
  const CopiedKeys: set<string> := {"cwd", "env", "detached", "uid", "gid"}

  /** Three piped standard streams: stdin, stdout, stderr. */
  const Pipes: seq<JsValue> := [Str("pipe"), Str("pipe"), Str("pipe")]

  /** A fourth communication channel is requested by a truthy `ipc` on a truthy options value. */
  predicate WantsIpc(callerOptions: JsValue) {
    Truthy(callerOptions) && Truthy(Get(callerOptions, "ipc"))
  }

  /**
   `options` is what the caller's options normalise to: `stdio` holds
   three pipes, plus `'ipc'` exactly when requested; each copied key is
   present exactly when the caller defined it, with the caller's value;
   no other key appears.
   */
  predicate Normalised(callerOptions: JsValue, options: map<string, JsValue>) {
    && options.Keys <= CopiedKeys + {"stdio"}
    && "stdio" in options
    && options["stdio"] == Arr(if WantsIpc(callerOptions) then Pipes + [Str("ipc")] else Pipes)
    && (forall k | k in CopiedKeys ::
          (k in options <==> Truthy(callerOptions) && !Get(callerOptions, k).Undefined?))
    && (forall k | k in CopiedKeys && k in options :: options[k] == Get(callerOptions, k))
  }

  /** At most one options record is the normal form of a caller's options. */
  lemma NormalisedIsUnique(callerOptions: JsValue, o1: map<string, JsValue>, o2: map<string, JsValue>)
    requires Normalised(callerOptions, o1) && Normalised(callerOptions, o2)
    ensures o1 == o2
  {
  }

  /** Without a truthy options value only `stdio` is present, holding three pipes. */
  lemma FalsyOptionsGiveOnlyPipes(callerOptions: JsValue, options: map<string, JsValue>)
    requires Normalised(callerOptions, options) && !Truthy(callerOptions)
    ensures options == map["stdio" := Arr(Pipes)]
  {
  }

  /** Builds the spawn options field by field, as the library does. */
  method BuildSpawnOptions(callerOptions: JsValue) returns (options: map<string, JsValue>)
    ensures Normalised(callerOptions, options)
  {
    options := map["stdio" := Arr(Pipes)];
    if Truthy(callerOptions) {
      if !Get(callerOptions, "cwd").Undefined? { options := options["cwd" := Get(callerOptions, "cwd")]; }
      if !Get(callerOptions, "env").Undefined? { options := options["env" := Get(callerOptions, "env")]; }
      if !Get(callerOptions, "detached").Undefined? { options := options["detached" := Get(callerOptions, "detached")]; }
      if !Get(callerOptions, "uid").Undefined? { options := options["uid" := Get(callerOptions, "uid")]; }
      if !Get(callerOptions, "gid").Undefined? { options := options["gid" := Get(callerOptions, "gid")]; }
      if Truthy(Get(callerOptions, "ipc")) {
        options := options["stdio" := Arr(options["stdio"].items + [Str("ipc")])];
      }
    }
  }
}
