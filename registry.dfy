/** The command table and the dispatcher's lookup and arity check. */
module Registry {
  import opened Values
  import opened Errors
  import opened Envelope

  /** The handlers the table can name. */
  datatype Op = Init | Attach | Detach | WaitForAttach | IsAttached | Mount | Unmount

  datatype CmdInfo = CmdInfo(numArgs: nat, run: Op)

  /** Operation name to required argument count and handler; fixed for the life of the process. */
  const Commands: map<string, CmdInfo> := map[
    "init" := CmdInfo(0, Init),
    "attach" := CmdInfo(2, Attach),
    "detach" := CmdInfo(2, Detach),
    "waitforattach" := CmdInfo(2, WaitForAttach),
    "isattached" := CmdInfo(2, IsAttached),
    "mount" := CmdInfo(2, Mount),
    "unmount" := CmdInfo(1, Unmount)
  ]

  /** What the dispatcher decides: an immediate answer, or a handler to run on the remaining arguments. */
  datatype Route =
    | Answer(fields: Fields, err: Option<Error>)
    | Invoke(op: Op, rest: seq<string>)

  /** The fields an unregistered operation answers with. */
  const NotSupported: Fields := map["status" := Str(StatusNotSupported)]

  /**
   * Splits argv into the operation name and its arguments. No arguments is an error;
   * an unregistered name is a successful "Not supported"; a registered name runs its
   * handler on argv[1..] exactly when the argument count matches, and is otherwise an
   * error carrying both counts.
   */
  function Dispatch(args: seq<string>): (r: Route)
    ensures args == [] ==> r == Answer(map[], Some(NoArguments))
    ensures args != [] && args[0] !in Commands ==> r == Answer(NotSupported, None)
    ensures r.Invoke? <==> args != [] && args[0] in Commands && Commands[args[0]].numArgs == |args| - 1
    ensures r.Invoke? ==> r.op == Commands[args[0]].run && r.rest == args[1..]
    ensures args != [] && args[0] in Commands && Commands[args[0]].numArgs != |args| - 1 ==>
              r == Answer(map[], Some(WrongArgCount(|args| - 1, Commands[args[0]].numArgs, args[0])))
  {
    if |args| == 0 then Answer(map[], Some(NoArguments))
    else
      var nArgs := |args| - 1;
      var op := args[0];
      if op in Commands then
        var info := Commands[op];
        if info.numArgs == nArgs then Invoke(info.run, args[1..])
        else Answer(map[], Some(WrongArgCount(nArgs, info.numArgs, op)))
      else Answer(NotSupported, None)
  }

  /** A routed handler is always given exactly the number of arguments it reads. */
  lemma InvokeArity(args: seq<string>)
    requires Dispatch(args).Invoke?
    ensures var r := Dispatch(args);
      match r.op
      case Init => |r.rest| == 0
      case Unmount => |r.rest| == 1
      case _ => |r.rest| == 2
  {
  }

  /** `init`: the driver does not implement a separate attach step. */
  function InitOp(): Fields {
    map["capabilities" := Obj(map["attach" := Bool(false)])]
  }

  /** `attach <json options> <node name>`: a no-op. */
  function AttachOp(jsonOptions: string, nodeName: string): Fields {
    map[]
  }

  /** `detach <mount device> <node name>`: a no-op. */
  function DetachOp(mountDev: string, nodeName: string): Fields {
    map[]
  }

  /** `waitforattach <mount device> <json options>`: hands the device straight back. */
  function WaitForAttachOp(mountDev: string, jsonOptions: string): Fields {
    map["device" := Str(mountDev)]
  }

  /** `isattached <json options> <node name>`: always attached. */
  function IsAttachedOp(jsonOptions: string, nodeName: string): Fields {
    map["attached" := Bool(true)]
  }
}
