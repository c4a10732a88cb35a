/** One driver invocation, from argv to the reply, as a function of the state it starts in. */
module Invocation {
  import opened Values
  import opened Errors
  import opened Envelope
  import opened Registry
  import opened Lifecycle

  /** The state a handler leaves and the fields and error it returns. */
  datatype Reply = Reply(state: State, fields: Fields, err: Option<Error>)

  /**
   * Dispatches argv and runs the chosen handler, whose result comes back unchanged. Only
   * mount and unmount touch the driver or the host; every other answer leaves the state as
   * it was.
   */
  function DoRunSpec(s: State, args: seq<string>, env: Env): (r: Reply)
    ensures r.state != s ==> (|args| == 3 && args[0] == "mount") || (|args| == 2 && args[0] == "unmount")
    ensures Dispatch(args).Answer? ==> r == Reply(s, Dispatch(args).fields, Dispatch(args).err)
    ensures r.err.Some? ==> r.fields == map[]
    ensures args == ["init"] ==> r == Reply(s, InitOp(), None)
    ensures |args| == 3 && args[0] == "attach" ==> r == Reply(s, AttachOp(args[1], args[2]), None)
    ensures |args| == 3 && args[0] == "detach" ==> r == Reply(s, DetachOp(args[1], args[2]), None)
    ensures |args| == 3 && args[0] == "waitforattach" ==> r == Reply(s, WaitForAttachOp(args[1], args[2]), None)
    ensures |args| == 3 && args[0] == "isattached" ==> r == Reply(s, IsAttachedOp(args[1], args[2]), None)
    ensures |args| == 3 && args[0] == "mount" ==>
              var o := MountSpec(s, args[1], args[2], env);
              r == Reply(o.state, map[], o.err)
    ensures |args| == 2 && args[0] == "unmount" ==>
              var o := UnmountSpec(s, args[1], env);
              r == Reply(o.state, map[], o.err)
  {
    match Dispatch(args)
    case Answer(fields, err) => Reply(s, fields, err)
    case Invoke(op, rest) =>
      InvokeArity(args);
      match op
      case Init => Reply(s, InitOp(), None)
      case Attach => Reply(s, AttachOp(rest[0], rest[1]), None)
      case Detach => Reply(s, DetachOp(rest[0], rest[1]), None)
      case WaitForAttach => Reply(s, WaitForAttachOp(rest[0], rest[1]), None)
      case IsAttached => Reply(s, IsAttachedOp(rest[0], rest[1]), None)
      case Mount =>
        var o := MountSpec(s, rest[0], rest[1], env);
        Reply(o.state, map[], o.err)
      case Unmount =>
        var o := UnmountSpec(s, rest[0], env);
        Reply(o.state, map[], o.err)
  }

  /** The reply printed for argv. */
  function RunSpec(s: State, args: seq<string>, env: Env): Fields {
    var r := DoRunSpec(s, args, env);
    EnvelopeOf(r.fields, r.err)
  }

  lemma NoArgumentsReply(s: State, env: Env)
    ensures RunSpec(s, [], env) == map["status" := Str(StatusFailure), "message" := Str("no arguments passed to flexvolume driver")]
    ensures DoRunSpec(s, [], env).state == s
  {
  }

  /** An unregistered operation is a success reporting "Not supported", whatever its arguments. */
  lemma UnsupportedReply(s: State, args: seq<string>, env: Env)
    requires args != [] && args[0] !in Commands
    ensures RunSpec(s, args, env) == map["status" := Str(StatusNotSupported)]
    ensures DoRunSpec(s, args, env).state == s
  {
  }

  /** A registered operation with the wrong number of arguments fails, naming both counts. */
  lemma WrongArityReply(s: State, args: seq<string>, env: Env)
    requires args != [] && args[0] in Commands && Commands[args[0]].numArgs != |args| - 1
    ensures RunSpec(s, args, env)
         == map["status" := Str(StatusFailure),
                "message" := Str(ErrorText(WrongArgCount(|args| - 1, Commands[args[0]].numArgs, args[0])))]
    ensures DoRunSpec(s, args, env).state == s
  {
  }

  lemma InitReply(s: State, env: Env)
    ensures RunSpec(s, ["init"], env)
         == map["status" := Str(StatusSuccess), "capabilities" := Obj(map["attach" := Bool(false)])]
    ensures DoRunSpec(s, ["init"], env).state == s
  {
  }

  /** attach and detach are stubs: plain success, nothing done. */
  lemma AttachDetachReply(s: State, op: string, a: string, b: string, env: Env)
    requires op == "attach" || op == "detach"
    ensures RunSpec(s, [op, a, b], env) == map["status" := Str(StatusSuccess)]
    ensures DoRunSpec(s, [op, a, b], env).state == s
  {
  }

  /** waitforattach does not wait: it answers with the device it was given. */
  lemma WaitForAttachReply(s: State, mountDev: string, jsonOptions: string, env: Env)
    ensures RunSpec(s, ["waitforattach", mountDev, jsonOptions], env)
         == map["status" := Str(StatusSuccess), "device" := Str(mountDev)]
    ensures DoRunSpec(s, ["waitforattach", mountDev, jsonOptions], env).state == s
  {
  }

  /** isattached does not check: it always answers attached. */
  lemma IsAttachedReply(s: State, jsonOptions: string, nodeName: string, env: Env)
    ensures RunSpec(s, ["isattached", jsonOptions, nodeName], env)
         == map["status" := Str(StatusSuccess), "attached" := Bool(true)]
    ensures DoRunSpec(s, ["isattached", jsonOptions, nodeName], env).state == s
  {
  }

  /** A mount whose attach succeeds but whose record cannot be written reports the write error. */
  lemma MountWriteFailureReply(s: State, dir: string, jsonOptions: string, env: Env)
    requires ReachesWrite(env) && env.writeFault.Some?
    ensures RunSpec(s, ["mount", dir, jsonOptions], env)
         == map["status" := Str(StatusFailure), "message" := Str(env.writeFault.value)]
  {
  }

  /** Unmounting a directory that does not exist fails without touching anything. */
  lemma UnmountMissingDirReply(s: State, dir: string, env: Env)
    requires dir !in s.world.dirs
    ensures RunSpec(s, ["unmount", dir], env)
         == map["status" := Str(StatusFailure), "message" := Str("volume directory: " + dir + " does not exists")]
    ensures DoRunSpec(s, ["unmount", dir], env).state == s
  {
  }
}
