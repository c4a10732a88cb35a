/**
 * What mount and unmount do to the driver's fields and to the host they run on, as functions
 * of the state before and of the outcomes of the collaborators they call.
 */
module Lifecycle {
  import opened Values
  import opened Errors

  /** Option keys and the default provider configuration (defined by the shared flexvolume package). */
  const VolIdKey := "volume-id"
  const CinderConfigKey := "cinderConfig"
  const FsTypeKey := "kubernetes.io/fsType"
  const CinderConfigFile := "/etc/kubernetes/cinder.conf"

  /** The sidecar record stored in a mount directory; hosts and ports are None when never set. */
  datatype CinderVolumeOptsData = CinderVolumeOptsData(
    configKey: string,
    volumeId: string,
    fsType: string,
    volumeType: string,
    name: string,
    hosts: Option<seq<string>>,
    ports: Option<seq<string>>)

  /** A provider client, built from a configuration file reference. */
  datatype Manager = Manager(config: string)

  /** The driver's fields that an invocation assigns. */
  datatype DriverState = DriverState(
    volId: string,
    fsType: string,
    cinderConfig: string,
    manager: Option<Manager>,
    metadata: Fields)

  /** A fresh process's driver: every field at its zero value. */
  const FreshDriver := DriverState("", "", "", None, map[])

  /** A call into the filesystem or the provider, as recorded in the host's log. */
  datatype Call =
    | BuildClient(config: string)
    | AttachDisk(volId: string, dir: string)
    | DetachDisk(volId: string)
    | WriteSidecar(dir: string)
    | RemoveDir(dir: string)
    | ReadSidecar(dir: string)
    | CleanUpSidecar(dir: string)

  /** The host: existing directories, sidecar records by directory, and every call made so far. */
  datatype World = World(dirs: set<string>, sidecars: map<string, CinderVolumeOptsData>, calls: seq<Call>)

  datatype State = State(driver: DriverState, world: World)

  /** The state an operation leaves behind, and the error it returns, if any. */
  datatype Outcome = Outcome(state: State, err: Option<Error>)

  datatype AttachResult = Attached(metadata: Fields) | AttachFailed(text: string)

  /**
   * What the collaborators do in one invocation: the decoded options blob, and the success or
   * error text of building the client, attaching, writing, removing, reading, detaching and
   * cleaning up.
   */
  datatype Env = Env(
    options: Fields,
    managerFault: Option<string>,
    attach: AttachResult,
    writeFault: Option<string>,
    removeSucceeds: bool,
    readFault: Option<string>,
    detachFault: Option<string>,
    cleanupFault: Option<string>)

  // ---- the host's collaborators, one step each -------------------------------------------

  function Logged(w: World, c: Call): World {
    w.(calls := w.calls + [c])
  }

  function BuiltManager(config: string, fault: Option<string>): Result<Manager> {
    if fault.Some? then Err(ClientError(fault.value)) else Ok(Manager(config))
  }

  function AttachOutcome(a: AttachResult): Result<Fields> {
    match a
    case Attached(md) => Ok(md)
    case AttachFailed(text) => Err(AttachError(text))
  }

  function DetachOutcome(fault: Option<string>): Option<Error> {
    if fault.Some? then Some(DetachError(fault.value)) else None
  }

  function Written(w: World, dir: string, rec: CinderVolumeOptsData, fault: Option<string>): World {
    var w1 := Logged(w, WriteSidecar(dir));
    if fault.Some? then w1 else w1.(sidecars := w1.sidecars[dir := rec])
  }

  function Removed(w: World, dir: string, ok: bool): World {
    var w1 := Logged(w, RemoveDir(dir));
    if ok then w1.(dirs := w1.dirs - {dir}) else w1
  }

  function ReadBack(w: World, dir: string, fault: Option<string>): Result<CinderVolumeOptsData> {
    if fault.Some? then Err(ReadError(fault.value))
    else if dir !in w.sidecars then Err(SidecarMissing(dir))
    else Ok(w.sidecars[dir])
  }

  function CleanedUp(w: World, dir: string, fault: Option<string>): World {
    var w1 := Logged(w, CleanUpSidecar(dir));
    if fault.Some? then w1 else w1.(sidecars := w1.sidecars - {dir})
  }

  // ---- counting the provider calls ------------------------------------------------------

  function Attaches(cs: seq<Call>): nat {
    if cs == [] then 0 else (if cs[0].AttachDisk? then 1 else 0) + Attaches(cs[1..])
  }

  function Detaches(cs: seq<Call>): nat {
    if cs == [] then 0 else (if cs[0].DetachDisk? then 1 else 0) + Detaches(cs[1..])
  }

  lemma {:induction false} CountsSplit(a: seq<Call>, b: seq<Call>)
    ensures Attaches(a + b) == Attaches(a) + Attaches(b)
    ensures Detaches(a + b) == Detaches(a) + Detaches(b)
  {
    if a != [] {
      CountsSplit(a[1..], b);
      assert (a + b)[1..] == a[1..] + b;
    } else {
      assert a + b == b;
    }
  }

  lemma {:induction false} CountsNone(cs: seq<Call>)
    requires forall i :: 0 <= i < |cs| ==> !cs[i].AttachDisk? && !cs[i].DetachDisk?
    ensures Attaches(cs) == 0 && Detaches(cs) == 0
  {
    if cs != [] {
      CountsNone(cs[1..]);
    }
  }

  /** The calls made since `before`, when `after` extends its log. */
  function Since(before: World, after: World): seq<Call>
    requires before.calls <= after.calls
  {
    after.calls[|before.calls|..]
  }

  // ---- configuration from the options blob (mount) --------------------------------------

  /** The options a mount can be configured from: a non-empty volume id, string config and fsType. */
  predicate MountOptionsValid(opts: Fields) {
    && VolIdKey in opts && opts[VolIdKey].Str? && opts[VolIdKey].s != ""
    && (CinderConfigKey in opts ==> opts[CinderConfigKey].Str?)
    && FsTypeKey in opts && opts[FsTypeKey].Str?
  }

  /** The configuration reference a mount uses: the user's, or the default one. */
  function ConfigOf(opts: Fields): string
    requires CinderConfigKey in opts ==> opts[CinderConfigKey].Str?
  {
    if CinderConfigKey in opts then opts[CinderConfigKey].s else CinderConfigFile
  }

  /**
   * Configures the driver from the options: an empty volume id is an error before anything
   * is assigned; a missing or non-string key is an error where it is read; the client is
   * built from the resolved configuration only once every field is set.
   */
  function InitForMountSpec(s: State, jsonOptions: string, env: Env): (r: Outcome)
    ensures r.err.None? <==> MountOptionsValid(env.options) && env.managerFault.None?
    ensures r.err.None? ==>
              r.state.driver == s.driver.(volId := env.options[VolIdKey].s,
                                          fsType := env.options[FsTypeKey].s,
                                          cinderConfig := ConfigOf(env.options),
                                          manager := Some(Manager(ConfigOf(env.options))))
    ensures VolIdKey in env.options && env.options[VolIdKey] == Str("") ==>
              r == Outcome(s, Some(OptionsNotSet(jsonOptions)))
    ensures r.state.world.dirs == s.world.dirs && r.state.world.sidecars == s.world.sidecars
    ensures r.state.world.calls ==
              if MountOptionsValid(env.options) then s.world.calls + [BuildClient(ConfigOf(env.options))]
              else s.world.calls
    ensures r.state.driver.metadata == s.driver.metadata
  {
    var opts := env.options;
    if VolIdKey !in opts || !opts[VolIdKey].Str? then Outcome(s, Some(OptionNotString(VolIdKey)))
    else if |opts[VolIdKey].s| == 0 then Outcome(s, Some(OptionsNotSet(jsonOptions)))
    else if CinderConfigKey in opts && !opts[CinderConfigKey].Str? then Outcome(s, Some(OptionNotString(CinderConfigKey)))
    else
      var config := if CinderConfigKey in opts then opts[CinderConfigKey].s else CinderConfigFile;
      var d := s.driver.(cinderConfig := config, volId := opts[VolIdKey].s);
      if FsTypeKey !in opts || !opts[FsTypeKey].Str? then Outcome(State(d, s.world), Some(OptionNotString(FsTypeKey)))
      else
        var d1 := d.(fsType := opts[FsTypeKey].s);
        var w := Logged(s.world, BuildClient(config));
        match BuiltManager(config, env.managerFault)
        case Err(e) => Outcome(State(d1, w), Some(e))
        case Ok(m) => Outcome(State(d1.(manager := Some(m)), w), None)
  }

  // ---- configuration from the sidecar record (unmount) ----------------------------------

  /**
   * Configures the driver from the record under `dir`: a failed read is an error before any
   * field is assigned; otherwise the configuration and volume id come from the record.
   */
  function InitForUnmountSpec(s: State, dir: string, env: Env): (r: Outcome)
    ensures r.err.None? <==> env.readFault.None? && dir in s.world.sidecars && env.managerFault.None?
    ensures r.err.None? ==>
              var rec := s.world.sidecars[dir];
              r.state.driver == s.driver.(cinderConfig := rec.configKey, volId := rec.volumeId,
                                          manager := Some(Manager(rec.configKey)))
    ensures r.state.world.dirs == s.world.dirs && r.state.world.sidecars == s.world.sidecars
    ensures r.state.world.calls ==
              if env.readFault.None? && dir in s.world.sidecars
              then s.world.calls + [ReadSidecar(dir), BuildClient(s.world.sidecars[dir].configKey)]
              else s.world.calls + [ReadSidecar(dir)]
    ensures !(env.readFault.None? && dir in s.world.sidecars) ==>
              r == Outcome(State(s.driver, Logged(s.world, ReadSidecar(dir))),
                           Some(if env.readFault.Some? then ReadError(env.readFault.value) else SidecarMissing(dir)))
  {
    var w := Logged(s.world, ReadSidecar(dir));
    match ReadBack(s.world, dir, env.readFault)
    case Err(e) => Outcome(State(s.driver, w), Some(e))
    case Ok(rec) =>
      var d := s.driver.(cinderConfig := rec.configKey, volId := rec.volumeId);
      var w1 := Logged(w, BuildClient(rec.configKey));
      match BuiltManager(rec.configKey, env.managerFault)
      case Err(e) => Outcome(State(d, w1), Some(e))
      case Ok(m) => Outcome(State(d.(manager := Some(m)), w1), None)
  }

  // ---- the sidecar record ----------------------------------------------------------------

  /** Attach metadata whose volume type and name, when present, are strings. */
  predicate MetadataTyped(metadata: Fields) {
    && ("volume_type" in metadata ==> metadata["volume_type"].Str?)
    && ("name" in metadata ==> metadata["name"].Str?)
  }

  /** An optional string list in the metadata: set only when present and extractable. */
  function ListField(metadata: Fields, key: string): (r: Option<seq<string>>)
    ensures r.Some? <==> key in metadata && ExtractStringSlice(metadata[key]).Some?
    ensures r.Some? ==> r == ExtractStringSlice(metadata[key])
  {
    if key in metadata then ExtractStringSlice(metadata[key]) else None
  }

  /**
   * The record a mount persists: the driver's configuration, volume id and fsType, with
   * volume type, name, hosts and ports taken from the attach metadata when it has them.
   */
  function OptionsData(d: DriverState, metadata: Fields): (r: Result<CinderVolumeOptsData>)
    ensures r.Ok? <==> MetadataTyped(metadata)
    ensures r.Ok? ==> r.value.configKey == d.cinderConfig && r.value.volumeId == d.volId && r.value.fsType == d.fsType
    ensures r.Ok? ==> r.value.volumeType == (if "volume_type" in metadata then metadata["volume_type"].s else "")
    ensures r.Ok? ==> r.value.name == (if "name" in metadata then metadata["name"].s else "")
    ensures r.Ok? ==> r.value.hosts == ListField(metadata, "hosts") && r.value.ports == ListField(metadata, "ports")
  {
    if "volume_type" in metadata && !metadata["volume_type"].Str? then Err(MetadataNotString("volume_type"))
    else if "name" in metadata && !metadata["name"].Str? then Err(MetadataNotString("name"))
    else
      Ok(CinderVolumeOptsData(
        d.cinderConfig, d.volId, d.fsType,
        if "volume_type" in metadata then metadata["volume_type"].s else "",
        if "name" in metadata then metadata["name"].s else "",
        ListField(metadata, "hosts"),
        ListField(metadata, "ports")))
  }

  /**
   * generateOptionsData as the source writes it: the record it fills is a nil pointer, so the
   * first field assignment panics and no record is ever produced.
   */
  function OptionsDataAsWritten(d: DriverState, metadata: Fields): Result<CinderVolumeOptsData> {
    Err(NilRecord)
  }

  // ---- mount ------------------------------------------------------------------------------

  /** A mount gets as far as writing the sidecar record. */
  predicate ReachesWrite(env: Env) {
    MountOptionsValid(env.options) && env.managerFault.None? && env.attach.Attached? && MetadataTyped(env.attach.metadata)
  }

  /** The record a mount that reaches the write stores. */
  function MountRecord(s: State, env: Env): CinderVolumeOptsData
    requires ReachesWrite(env)
  {
    var opts := env.options;
    OptionsData(s.driver.(volId := opts[VolIdKey].s, fsType := opts[FsTypeKey].s, cinderConfig := ConfigOf(opts)),
                env.attach.metadata).value
  }

  /** The compensation after a failed write: detach once, discarding the detach error. */
  function DetachLoggingError(w: World, volId: string): World {
    Logged(w, DetachDisk(volId))
  }

  /**
   * The mount sequence, building its record either as the source writes it (`nilRecord`)
   * or into a fresh record.
   */
  function MountWith(s: State, dir: string, jsonOptions: string, env: Env, nilRecord: bool): Outcome
  {
    var c := InitForMountSpec(s, jsonOptions, env);
    if c.err.Some? then c
    else
      var d := c.state.driver;
      var w := Logged(c.state.world, AttachDisk(d.volId, dir));
      match AttachOutcome(env.attach)
      case Err(e) => Outcome(State(d, w), Some(e))
      case Ok(md) =>
        var d1 := d.(metadata := md);
        match (if nilRecord then OptionsDataAsWritten(d1, md) else OptionsData(d1, md))
        case Err(e) => Outcome(State(d1, w), Some(e))
        case Ok(rec) =>
          var w1 := Written(w, dir, rec, env.writeFault);
          if env.writeFault.None? then Outcome(State(d1, w1), None)
          else
            var w2 := Removed(w1, dir, env.removeSucceeds);
            Outcome(State(d1, DetachLoggingError(w2, d1.volId)), Some(WriteError(env.writeFault.value)))
  }

  /**
   * Mount: configure, attach, persist. A configuration failure makes no provider call; an
   * attach failure writes nothing; a failed write after a successful attach removes the
   * directory, detaches once and returns the write error.
   */
  function MountSpec(s: State, dir: string, jsonOptions: string, env: Env): (r: Outcome)
    ensures s.world.calls <= r.state.world.calls
    ensures r.err.None? <==> ReachesWrite(env) && env.writeFault.None?
    ensures r.err.None? ==>
              && r.state.world.sidecars == s.world.sidecars[dir := MountRecord(s, env)]
              && r.state.world.dirs == s.world.dirs
              && Since(s.world, r.state.world)
                 == [BuildClient(ConfigOf(env.options)), AttachDisk(env.options[VolIdKey].s, dir), WriteSidecar(dir)]
    ensures !MountOptionsValid(env.options) ==> r.state.world == s.world
    ensures MountOptionsValid(env.options) && env.managerFault.Some? ==>
              && r.err == Some(ClientError(env.managerFault.value))
              && Since(s.world, r.state.world) == [BuildClient(ConfigOf(env.options))]
              && r.state.world.dirs == s.world.dirs && r.state.world.sidecars == s.world.sidecars
    ensures !(ReachesWrite(env) && env.writeFault.None?) ==> r.state.world.sidecars == s.world.sidecars
    ensures env.attach.AttachFailed? && MountOptionsValid(env.options) && env.managerFault.None? ==>
              && r.err == Some(AttachError(env.attach.text))
              && Since(s.world, r.state.world) == [BuildClient(ConfigOf(env.options)), AttachDisk(env.options[VolIdKey].s, dir)]
    ensures ReachesWrite(env) && env.writeFault.Some? ==>
              && r.err == Some(WriteError(env.writeFault.value))
              && Since(s.world, r.state.world)
                 == [BuildClient(ConfigOf(env.options)), AttachDisk(env.options[VolIdKey].s, dir),
                     WriteSidecar(dir), RemoveDir(dir), DetachDisk(env.options[VolIdKey].s)]
              && r.state.world.dirs == (if env.removeSucceeds then s.world.dirs - {dir} else s.world.dirs)
    ensures r.state.world.dirs == s.world.dirs || (ReachesWrite(env) && env.writeFault.Some?)
  {
    MountWith(s, dir, jsonOptions, env, false)
  }

  lemma CountsAttachOnly(config: string, v: string, dir: string)
    ensures var cs := [BuildClient(config), AttachDisk(v, dir)];
      Attaches(cs) == 1 && Detaches(cs) == 0
  {
    CountsSplit([BuildClient(config)], [AttachDisk(v, dir)]);
  }

  lemma CountsRecorded(config: string, v: string, dir: string)
    ensures var cs := [BuildClient(config), AttachDisk(v, dir), WriteSidecar(dir)];
      Attaches(cs) == 1 && Detaches(cs) == 0
  {
    CountsAttachOnly(config, v, dir);
    CountsSplit([BuildClient(config), AttachDisk(v, dir)], [WriteSidecar(dir)]);
  }

  lemma CountsCompensated(config: string, v: string, dir: string)
    ensures var cs := [BuildClient(config), AttachDisk(v, dir), WriteSidecar(dir), RemoveDir(dir), DetachDisk(v)];
      Attaches(cs) == 1 && Detaches(cs) == 1
  {
    CountsRecorded(config, v, dir);
    CountsSplit([RemoveDir(dir)], [DetachDisk(v)]);
    CountsSplit([BuildClient(config), AttachDisk(v, dir), WriteSidecar(dir)], [RemoveDir(dir), DetachDisk(v)]);
    assert [BuildClient(config), AttachDisk(v, dir), WriteSidecar(dir)] + [RemoveDir(dir), DetachDisk(v)]
        == [BuildClient(config), AttachDisk(v, dir), WriteSidecar(dir), RemoveDir(dir), DetachDisk(v)];
  }

  /**
   * A mount attaches at most once, never detaches more than it attached, and a volume it
   * attached successfully is either recorded in a sidecar or detached again, except when the
   * attach metadata is malformed (where the driver dies).
   */
  lemma MountLeavesNothingAttachedUnrecorded(s: State, dir: string, jsonOptions: string, env: Env)
    ensures var r := MountSpec(s, dir, jsonOptions, env);
      var made := Since(s.world, r.state.world);
      && Attaches(made) <= 1
      && Detaches(made) <= Attaches(made)
      && (r.err.None? ==> Attaches(made) == 1 && dir in r.state.world.sidecars)
      && (Attaches(made) == 1 && env.attach.Attached? && r.err.Some? && !r.err.value.MetadataNotString? ==>
            Detaches(made) == 1)
  {
    var r := MountSpec(s, dir, jsonOptions, env);
    var made := Since(s.world, r.state.world);
    var opts := env.options;
    if !MountOptionsValid(opts) {
      assert made == [];
    } else if env.managerFault.Some? {
      assert made == [BuildClient(ConfigOf(opts))];
    } else if !env.attach.Attached? || !MetadataTyped(env.attach.metadata) {
      CountsAttachOnly(ConfigOf(opts), opts[VolIdKey].s, dir);
    } else if env.writeFault.None? {
      CountsRecorded(ConfigOf(opts), opts[VolIdKey].s, dir);
    } else {
      CountsCompensated(ConfigOf(opts), opts[VolIdKey].s, dir);
    }
  }

  /**
   * As written, every mount whose configuration and attach succeed dies building its record:
   * the volume stays attached, no record is written and nothing detaches it.
   */
  lemma MountAsWrittenStrandsVolume(s: State, dir: string, jsonOptions: string, env: Env)
    requires MountOptionsValid(env.options) && env.managerFault.None? && env.attach.Attached?
    ensures var r := MountWith(s, dir, jsonOptions, env, true);
      && r.err == Some(NilRecord)
      && r.state.world.sidecars == s.world.sidecars
      && Since(s.world, r.state.world) == [BuildClient(ConfigOf(env.options)), AttachDisk(env.options[VolIdKey].s, dir)]
      && Attaches(Since(s.world, r.state.world)) == 1
      && Detaches(Since(s.world, r.state.world)) == 0
  {
    var r := MountWith(s, dir, jsonOptions, env, true);
    var c := InitForMountSpec(s, jsonOptions, env);
    assert r.state.world.calls == c.state.world.calls + [AttachDisk(env.options[VolIdKey].s, dir)];
    CountsAttachOnly(ConfigOf(env.options), env.options[VolIdKey].s, dir);
  }

  // ---- unmount ----------------------------------------------------------------------------

  /** An unmount that finds its directory and record gets as far as detaching. */
  predicate ReachesDetach(s: State, dir: string, env: Env) {
    dir in s.world.dirs && dir in s.world.sidecars && env.readFault.None? && env.managerFault.None?
  }

  /**
   * Unmount: check the directory, configure from its record, detach, delete the record.
   * A missing directory changes nothing; a failed read or detach leaves the record; the
   * record goes only after a successful detach; the directory itself always stays.
   */
  function UnmountSpec(s: State, dir: string, env: Env): (r: Outcome)
    ensures s.world.calls <= r.state.world.calls
    ensures dir !in s.world.dirs ==> r == Outcome(s, Some(DirNotExist(dir)))
    ensures r.state.world.dirs == s.world.dirs
    ensures r.err.None? <==> ReachesDetach(s, dir, env) && env.detachFault.None? && env.cleanupFault.None?
    ensures r.err.None? ==>
              var rec := s.world.sidecars[dir];
              && r.state.world.sidecars == s.world.sidecars - {dir}
              && r.state.driver.volId == rec.volumeId && r.state.driver.cinderConfig == rec.configKey
              && Since(s.world, r.state.world)
                 == [ReadSidecar(dir), BuildClient(rec.configKey), DetachDisk(rec.volumeId), CleanUpSidecar(dir)]
    ensures dir in s.world.dirs && !(env.readFault.None? && dir in s.world.sidecars) ==>
              && Since(s.world, r.state.world) == [ReadSidecar(dir)]
              && r.state.driver == s.driver
              && r.err == Some(if env.readFault.Some? then ReadError(env.readFault.value) else SidecarMissing(dir))
    ensures !(ReachesDetach(s, dir, env) && env.detachFault.None?) ==> r.state.world.sidecars == s.world.sidecars
    ensures dir in s.world.dirs && env.readFault.None? && dir in s.world.sidecars && env.managerFault.Some? ==>
              && r.err == Some(ClientError(env.managerFault.value))
              && Since(s.world, r.state.world) == [ReadSidecar(dir), BuildClient(s.world.sidecars[dir].configKey)]
    ensures ReachesDetach(s, dir, env) && env.detachFault.None? && env.cleanupFault.Some? ==>
              && r.err == Some(CleanupError(env.cleanupFault.value))
              && r.state.world.sidecars == s.world.sidecars
              && Since(s.world, r.state.world)
                 == [ReadSidecar(dir), BuildClient(s.world.sidecars[dir].configKey),
                     DetachDisk(s.world.sidecars[dir].volumeId), CleanUpSidecar(dir)]
    ensures ReachesDetach(s, dir, env) && env.detachFault.Some? ==>
              && r.err == Some(DetachError(env.detachFault.value))
              && Since(s.world, r.state.world)
                 == [ReadSidecar(dir), BuildClient(s.world.sidecars[dir].configKey), DetachDisk(s.world.sidecars[dir].volumeId)]
  {
    if dir !in s.world.dirs then Outcome(s, Some(DirNotExist(dir)))
    else
      var c := InitForUnmountSpec(s, dir, env);
      if c.err.Some? then c
      else
        var d := c.state.driver;
        var w := Logged(c.state.world, DetachDisk(d.volId));
        match DetachOutcome(env.detachFault)
        case Some(e) => Outcome(State(d, w), Some(e))
        case None =>
          var w1 := CleanedUp(w, dir, env.cleanupFault);
          Outcome(State(d, w1), if env.cleanupFault.Some? then Some(CleanupError(env.cleanupFault.value)) else None)
  }

  /** An unmount makes at most one provider call, a detach, and deletes a record only after it. */
  lemma UnmountDetachesAtMostOnce(s: State, dir: string, env: Env)
    ensures var r := UnmountSpec(s, dir, env);
      var made := Since(s.world, r.state.world);
      && Attaches(made) == 0
      && Detaches(made) <= 1
      && (dir in s.world.sidecars && dir !in r.state.world.sidecars ==> Detaches(made) == 1)
  {
    var r := UnmountSpec(s, dir, env);
    var made := Since(s.world, r.state.world);
    if !ReachesDetach(s, dir, env) {
      CountsNone(made);
    } else {
      var rec := s.world.sidecars[dir];
      assert made[..2] == [ReadSidecar(dir), BuildClient(rec.configKey)];
      CountsNone(made[..2]);
      CountsSplit(made[..2], made[2..]);
      assert made == made[..2] + made[2..];
      if env.detachFault.Some? {
        assert made[2..] == [DetachDisk(rec.volumeId)];
      } else {
        assert made[2..] == [DetachDisk(rec.volumeId), CleanUpSidecar(dir)];
        CountsSplit([DetachDisk(rec.volumeId)], [CleanUpSidecar(dir)]);
      }
    }
  }

  /**
   * Mount in one process, then unmount the same directory in a fresh one: the unmount
   * recovers the volume id and configuration given in the mount's options from the record,
   * detaches that volume and deletes the record under `dir`; every other record is as it was
   * before the mount (and so are all of them when `dir` held none before).
   */
  lemma MountThenUnmount(s: State, dir: string, jsonOptions: string, env1: Env, env2: Env)
    requires dir in s.world.dirs
    requires MountSpec(s, dir, jsonOptions, env1).err.None?
    requires env2.readFault.None? && env2.managerFault.None? && env2.detachFault.None? && env2.cleanupFault.None?
    ensures var m := MountSpec(s, dir, jsonOptions, env1);
      var u := UnmountSpec(State(FreshDriver, m.state.world), dir, env2);
      var v, config := env1.options[VolIdKey].s, ConfigOf(env1.options);
      && u.err.None?
      && u.state.driver.volId == v
      && u.state.driver.cinderConfig == config
      && u.state.world.sidecars == s.world.sidecars - {dir}
      && (dir !in s.world.sidecars ==> u.state.world.sidecars == s.world.sidecars)
      && u.state.world.dirs == s.world.dirs
      && Since(s.world, u.state.world)
         == [BuildClient(config), AttachDisk(v, dir), WriteSidecar(dir),
             ReadSidecar(dir), BuildClient(config), DetachDisk(v), CleanUpSidecar(dir)]
  {
  }
}
