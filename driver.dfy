/**
 * The driver object of one process and the host it acts on. Each method assigns the driver's
 * fields and calls the host step by step, returning early on the first failure, and is proved
 * to leave exactly the state its specification function in Lifecycle or Invocation describes.
 */
module Driver {
  import opened Values
  import opened Errors
  import opened Envelope
  import opened Registry
  import opened Lifecycle
  import opened Invocation

  /**
   * The filesystem and the remote provider as the driver sees them. Its methods stand for
   * calls the driver makes into code outside this model; each one's outcome is an input.
   */
  class Host {
    var dirs: set<string>
    var sidecars: map<string, CinderVolumeOptsData>
    ghost var calls: seq<Call>

    ghost function View(): World
      reads this
    {
      World(dirs, sidecars, calls)
    }

    constructor (dirs: set<string>, sidecars: map<string, CinderVolumeOptsData>)
      ensures View() == World(dirs, sidecars, [])
    {
      this.dirs := dirs;
      this.sidecars := sidecars;
      calls := [];
    }

    method NewFlexManager(config: string, fault: Option<string>) returns (r: Result<Manager>)
      modifies this
      ensures View() == Logged(old(View()), BuildClient(config))
      ensures r == BuiltManager(config, fault)
    {
      calls := calls + [BuildClient(config)];
      r := if fault.Some? then Err(ClientError(fault.value)) else Ok(Manager(config));
    }

    method AttachDisk(volId: string, dir: string, outcome: AttachResult) returns (r: Result<Fields>)
      modifies this
      ensures View() == Logged(old(View()), Call.AttachDisk(volId, dir))
      ensures r == AttachOutcome(outcome)
    {
      calls := calls + [Call.AttachDisk(volId, dir)];
      r := match outcome
        case Attached(md) => Ok(md)
        case AttachFailed(text) => Err(AttachError(text));
    }

    method DetachDisk(volId: string, fault: Option<string>) returns (err: Option<Error>)
      modifies this
      ensures View() == Logged(old(View()), Call.DetachDisk(volId))
      ensures err == DetachOutcome(fault)
    {
      calls := calls + [Call.DetachDisk(volId)];
      err := if fault.Some? then Some(DetachError(fault.value)) else None;
    }

    method WriteJsonOptsFile(dir: string, rec: CinderVolumeOptsData, fault: Option<string>) returns (err: Option<Error>)
      modifies this
      ensures View() == Written(old(View()), dir, rec, fault)
      ensures err == if fault.Some? then Some(WriteError(fault.value)) else None
    {
      calls := calls + [WriteSidecar(dir)];
      if fault.Some? {
        err := Some(WriteError(fault.value));
      } else {
        sidecars := sidecars[dir := rec];
        err := None;
      }
    }

    /** Removes a directory; whether the removal succeeds is an input, and it reports nothing. */
    method Remove(dir: string, succeeds: bool)
      modifies this
      ensures View() == Removed(old(View()), dir, succeeds)
    {
      calls := calls + [RemoveDir(dir)];
      if succeeds {
        dirs := dirs - {dir};
      }
    }

    method Exists(dir: string) returns (b: bool)
      ensures b <==> dir in dirs
    {
      b := dir in dirs;
    }

    method ReadJsonOptsFile(dir: string, fault: Option<string>) returns (r: Result<CinderVolumeOptsData>)
      modifies this
      ensures View() == Logged(old(View()), ReadSidecar(dir))
      ensures r == ReadBack(old(View()), dir, fault)
    {
      calls := calls + [ReadSidecar(dir)];
      if fault.Some? {
        r := Err(ReadError(fault.value));
      } else if dir !in sidecars {
        r := Err(SidecarMissing(dir));
      } else {
        r := Ok(sidecars[dir]);
      }
    }

    method CleanUpMetadataFile(dir: string, fault: Option<string>) returns (err: Option<Error>)
      modifies this
      ensures View() == CleanedUp(old(View()), dir, fault)
      ensures err == if fault.Some? then Some(CleanupError(fault.value)) else None
    {
      calls := calls + [CleanUpSidecar(dir)];
      if fault.Some? {
        err := Some(CleanupError(fault.value));
      } else {
        sidecars := sidecars - {dir};
        err := None;
      }
    }
  }

  /** The driver of one process: its identity, the fields an invocation assigns, and its host. */
  class FlexVolumeDriver {
    const uuid: string
    const name: string
    var volId: string
    var fsType: string
    var cinderConfig: string
    var readOnly: bool
    var manager: Option<Manager>
    var metadata: Fields
    const host: Host

    function Config(): DriverState
      reads this
    {
      DriverState(volId, fsType, cinderConfig, manager, metadata)
    }

    ghost function Now(): State
      reads this, host
    {
      State(Config(), host.View())
    }

    /** A driver with only its identity set; every other field starts at its zero value. */
    constructor (uuid: string, name: string, host: Host)
      ensures this.uuid == uuid && this.name == name && this.host == host
      ensures Config() == FreshDriver && !readOnly
    {
      this.uuid := uuid;
      this.name := name;
      this.host := host;
      volId, fsType, cinderConfig := "", "", "";
      readOnly := false;
      manager := None;
      metadata := map[];
    }

    method InitForMount(jsonOptions: string, env: Env) returns (err: Option<Error>)
      modifies this, host
      ensures Outcome(Now(), err) == InitForMountSpec(old(Now()), jsonOptions, env)
      ensures readOnly == old(readOnly)
    {
      var opts := env.options;
      if VolIdKey !in opts || !opts[VolIdKey].Str? {
        return Some(OptionNotString(VolIdKey));
      }
      if |opts[VolIdKey].s| == 0 {
        return Some(OptionsNotSet(jsonOptions));
      }
      if CinderConfigKey in opts {
        var userConfig := opts[CinderConfigKey];
        if !userConfig.Str? {
          return Some(OptionNotString(CinderConfigKey));
        }
        cinderConfig := userConfig.s;
      } else {
        cinderConfig := CinderConfigFile;
      }
      volId := opts[VolIdKey].s;
      if FsTypeKey !in opts || !opts[FsTypeKey].Str? {
        return Some(OptionNotString(FsTypeKey));
      }
      fsType := opts[FsTypeKey].s;
      var m := host.NewFlexManager(cinderConfig, env.managerFault);
      if m.Err? {
        return Some(m.error);
      }
      manager := Some(m.value);
      return None;
    }

    method InitForUnmount(targetMountDir: string, env: Env) returns (err: Option<Error>)
      modifies this, host
      ensures Outcome(Now(), err) == InitForUnmountSpec(old(Now()), targetMountDir, env)
      ensures readOnly == old(readOnly)
    {
      var optsData := host.ReadJsonOptsFile(targetMountDir, env.readFault);
      if optsData.Err? {
        return Some(optsData.error);
      }
      cinderConfig := optsData.value.configKey;
      volId := optsData.value.volumeId;
      var m := host.NewFlexManager(cinderConfig, env.managerFault);
      if m.Err? {
        return Some(m.error);
      }
      manager := Some(m.value);
      return None;
    }

    /** Fills a fresh record field by field from the driver and the attach metadata. */
    method GenerateOptionsData(metadata: Fields) returns (r: Result<CinderVolumeOptsData>)
      ensures r == OptionsData(Config(), metadata)
    {
      var result := CinderVolumeOptsData("", "", "", "", "", None, None);
      result := result.(configKey := cinderConfig);
      result := result.(volumeId := volId);
      result := result.(fsType := fsType);
      if "volume_type" in metadata {
        var data := metadata["volume_type"];
        if !data.Str? {
          return Err(MetadataNotString("volume_type"));
        }
        result := result.(volumeType := data.s);
      }
      if "name" in metadata {
        var data := metadata["name"];
        if !data.Str? {
          return Err(MetadataNotString("name"));
        }
        result := result.(name := data.s);
      }
      if "hosts" in metadata {
        var hosts := ExtractStringSlice(metadata["hosts"]);
        if hosts.Some? {
          result := result.(hosts := hosts);
        }
      }
      if "ports" in metadata {
        var ports := ExtractStringSlice(metadata["ports"]);
        if ports.Some? {
          result := result.(ports := ports);
        }
      }
      return Ok(result);
    }

    /** Detaches the driver's volume, dropping any error (it is only logged). */
    method DetachDiskLogError(fault: Option<string>)
      modifies host
      ensures host.View() == DetachLoggingError(old(host.View()), volId)
    {
      var err := host.DetachDisk(volId, fault);
    }

    method Mount(targetMountDir: string, jsonOptions: string, env: Env) returns (err: Option<Error>)
      modifies this, host
      ensures Outcome(Now(), err) == MountSpec(old(Now()), targetMountDir, jsonOptions, env)
      ensures readOnly == old(readOnly)
    {
      err := InitForMount(jsonOptions, env);
      if err.Some? {
        return;
      }
      var attached := host.AttachDisk(volId, targetMountDir, env.attach);
      if attached.Err? {
        return Some(attached.error);
      }
      metadata := attached.value;
      var optsData := GenerateOptionsData(metadata);
      if optsData.Err? {
        return Some(optsData.error);
      }
      err := host.WriteJsonOptsFile(targetMountDir, optsData.value, env.writeFault);
      if err.Some? {
        host.Remove(targetMountDir, env.removeSucceeds);
        DetachDiskLogError(env.detachFault);
        return;
      }
      return None;
    }

    method Unmount(targetMountDir: string, env: Env) returns (err: Option<Error>)
      modifies this, host
      ensures Outcome(Now(), err) == UnmountSpec(old(Now()), targetMountDir, env)
      ensures readOnly == old(readOnly)
    {
      var found := host.Exists(targetMountDir);
      if !found {
        return Some(DirNotExist(targetMountDir));
      }
      err := InitForUnmount(targetMountDir, env);
      if err.Some? {
        return;
      }
      err := host.DetachDisk(volId, env.detachFault);
      if err.Some? {
        return;
      }
      err := host.CleanUpMetadataFile(targetMountDir, env.cleanupFault);
    }

    method DoRun(args: seq<string>, env: Env) returns (fields: Fields, err: Option<Error>)
      modifies this, host
      ensures Reply(Now(), fields, err) == DoRunSpec(old(Now()), args, env)
      ensures readOnly == old(readOnly)
    {
      match Dispatch(args)
      case Answer(f, e) =>
        fields, err := f, e;
      case Invoke(op, rest) =>
        InvokeArity(args);
        fields, err := map[], None;
        match op
        case Init =>
          fields := InitOp();
        case Attach =>
          fields := AttachOp(rest[0], rest[1]);
        case Detach =>
          fields := DetachOp(rest[0], rest[1]);
        case WaitForAttach =>
          fields := WaitForAttachOp(rest[0], rest[1]);
        case IsAttached =>
          fields := IsAttachedOp(rest[0], rest[1]);
        case Mount =>
          err := Mount(rest[0], rest[1], env);
        case Unmount =>
          err := Unmount(rest[0], env);
    }

    /** Runs one invocation and returns the reply it prints. */
    method Run(args: seq<string>, env: Env) returns (reply: Fields)
      modifies this, host
      ensures Now() == DoRunSpec(old(Now()), args, env).state
      ensures reply == RunSpec(old(Now()), args, env)
      ensures readOnly == old(readOnly)
    {
      var fields, err := DoRun(args, env);
      reply := FormatResult(fields, err);
    }
  }
}
