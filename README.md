# Cinder flex-volume driver, modelled in Dafny

The Cinder flex-volume driver is a short-lived program that a container orchestrator runs once
per volume lifecycle operation (`init`, `attach`, `detach`, `waitforattach`, `isattached`, `mount`,
`unmount`). Each run starts as a fresh process. It looks the operation up in a fixed command table
and checks the argument count. It then runs the handler and prints one reply envelope:
`{"status": "Success" | "Failure" | "Not supported", "message"?, ...fields}`.

- **`mount`** reads the driver's configuration from the options blob and asks the Cinder provider
  to attach the volume. It is then meant to write a sidecar record (configuration reference, volume id,
  fsType and attach metadata) into the mount directory; as written it never gets that far (see
  "## Findings").
- **`unmount`** recovers the configuration and the volume id from that record, detaches the
  volume, and deletes the record.
- **Compensation.** If writing the record fails after a successful attach, `mount` removes the
  directory and detaches once. It then returns the write error.

The project has these modules:

- `values.dfy`, module `Values`: decoded JSON values (`Value`) and `Fields` maps, which stand for
  Go's `map[string]interface{}`. It also has a stand-in for the metadata utility
  `ExtractStringSlice`.
- `errors.dfy`, module `Errors`: every error the driver returns and the message it prints. The
  message includes the `%d` rendering of counts. A proof shows that the arity error's text
  determines both counts and the operation name.
- `envelope.dfy`, module `Envelope`: the reply envelope as a function (`EnvelopeOf`) and as the
  source's in-place loop (`FormatResult`).
- `registry.dfy`, module `Registry`: the command table, the dispatcher's lookup and arity check,
  and the stub handlers.
- `lifecycle.dfy`, module `Lifecycle`: what mount and unmount do, as pure functions. Each one maps
  the state before the operation to the state after it. The state is the driver's fields plus
  the host. The host is the existing directories, the sidecar records by directory, and a log
  of every filesystem and provider call. Attach and detach counts are counted from that log. The
  outcome of each collaborator is an input.
- `invocation.dfy`, module `Invocation`: one whole invocation from argv to the reply, with the
  reply for each kind of invocation.
- `driver.dfy`, module `Driver`: the imperative driver. Class `FlexVolumeDriver` holds the fields
  that the source assigns step by step. Class `Host` holds the directories, the records and a
  ghost call log. Each method is proved to leave exactly the state that its function in
  `Lifecycle` or `Invocation` describes.

These source calls are parameters of the model: `json.Unmarshal` (the decoded options map is the
`options` field of `Env`), `NewFlexManager`, `AttachDisk`, `DetachDisk`, `WriteJsonOptsFile`,
`os.Remove`, `ReadJsonOptsFile` and `CleanUpMetadataFile`. For each one, `Env` says whether it
succeeds and with what error text. `AttachDisk` is taken to return the volume metadata that the
driver stores in its `metadata` field.

Points worth knowing about the code, which the model follows:

- `unmount` restores only `cinderConfig` and `volId` from the record (lines 101-103). `fsType`
  is not restored.
- The missing-directory message reads "does not exists" (line 214).
- `doRun` answers an unknown operation with its own map `{status: "Not supported"}` (lines
  293-295). That status reaches the reply only because `formatResult` copies every field over
  the default `status: Success` (lines 316-318).
- A missing or non-string volume id or fsType is not an options error in the code. It is a
  failed type assertion, which is a panic. The model turns it into the error `OptionNotString`,
  and that error stops the operation at the point of the panic.

## Model

| member | source | states |
|---|---|---|
| `Errors.WrongArgCountTextDetermines` | pkg/flexvolume/cinder/flexvolume.go:290 | The arity error's message names the actual count, the expected count and the operation: equal messages imply equal counts and names |
| `Envelope.EnvelopeOf` | pkg/flexvolume/cinder/flexvolume.go:305-319 | On an error the envelope is exactly {status: Failure, message: error text} and handler fields are dropped; otherwise its keys are the fields' keys plus status, each field keeps the handler's value, and status is Success unless a field overrides it |
| `Envelope.FormatResult` | pkg/flexvolume/cinder/flexvolume.go:305-318 | The key-by-key copy loop builds exactly the envelope `EnvelopeOf` describes |
| `Registry.Dispatch` | pkg/flexvolume/cinder/flexvolume.go:280-297 | Empty argv is the no-arguments error; an unregistered name is a successful "Not supported"; a registered handler runs on argv[1..] if and only if the argument count equals its numArgs, otherwise the error carries both counts and the name |
| `Registry.InvokeArity` | pkg/flexvolume/cinder/flexvolume.go:242-278 | The table gives init no arguments, unmount one and every other operation two, so a dispatched handler can read every argument it uses |
| `Lifecycle.InitForMountSpec` | pkg/flexvolume/cinder/flexvolume.go:63-90 | Succeeds if and only if the volume id is a non-empty string, the config (if present) and fsType are strings, and the client builds; an empty volume id changes nothing and builds no client; the config defaults to the constant when absent; volId and fsType are copied from the options |
| `Lifecycle.InitForUnmountSpec` | pkg/flexvolume/cinder/flexvolume.go:93-112 | Succeeds if and only if the record is read and the client builds; a failed read (an injected read error, or no record under the directory, which is `SidecarMissing`) assigns nothing and builds no client; the configuration and volume id come from the record |
| `Lifecycle.OptionsData` | pkg/flexvolume/cinder/flexvolume.go:167-198 | The record carries the driver's config, volume id and fsType; volume type and name come from the metadata when present; hosts and ports are set only when present and extractable, otherwise left unset; a non-string volume type or name is an error |
| `Lifecycle.MountSpec` | pkg/flexvolume/cinder/flexvolume.go:138-165 | Success if and only if configuration, attach, record building and write all succeed, and then the record is stored under the directory and the calls are exactly build client, attach, write; invalid options touch nothing on the host; a client that fails to build returns its error after that single call, with no attach; an attach failure writes nothing and returns the attach error; a write failure after attach makes exactly write, remove directory, detach and returns the write error |
| `Lifecycle.MountLeavesNothingAttachedUnrecorded` | pkg/flexvolume/cinder/flexvolume.go:142-162 | A mount attaches at most once and detaches no more than it attached; a successful mount records its volume; a volume attached successfully whose mount fails is detached exactly once (unless the metadata is malformed) |
| `Lifecycle.MountAsWrittenStrandsVolume` | pkg/flexvolume/cinder/flexvolume.go:167-172 | With the record built as written, every mount whose configuration and attach succeed (whatever its metadata) fails with a nil dereference, writes no record and detaches nothing |
| `Lifecycle.UnmountSpec` | pkg/flexvolume/cinder/flexvolume.go:209-233 | A missing directory is an error that changes nothing; a failed read (read error or missing record, `SidecarMissing`) stops after the read with the driver unchanged and no detach; a client that fails to build stops after read and build with no detach; a failed detach returns its error after read, build, detach and leaves the record; a failed clean-up after a successful detach returns the clean-up error after read, build, detach, clean-up and leaves every record as it was; success removes exactly this record after read, client, detach, clean-up; the directory is never removed |
| `Lifecycle.UnmountDetachesAtMostOnce` | pkg/flexvolume/cinder/flexvolume.go:218-230 | An unmount never attaches, detaches at most once, and removes a record only when it detached |
| `Lifecycle.MountThenUnmount` | pkg/flexvolume/cinder/flexvolume.go:96-103 | After a successful mount, an unmount of the same directory in a fresh process succeeds, restores the volume id and configuration given in the mount's options, detaches that volume and removes the record under the directory; every other record is as before the mount, and all of them are when the directory held none |
| `Invocation.DoRunSpec` | pkg/flexvolume/cinder/flexvolume.go:242-297 | Only a mount with two arguments or an unmount with one changes the driver or the host; an immediate dispatcher answer is returned unchanged; with the right argument count the handler's result (init, each stub, `MountSpec`, `UnmountSpec`) is returned unchanged; an error carries no fields |
| `Invocation.NoArgumentsReply` | pkg/flexvolume/cinder/flexvolume.go:281-283 | Empty argv prints a Failure with the no-arguments message and changes nothing |
| `Invocation.UnsupportedReply` | pkg/flexvolume/cinder/flexvolume.go:292-296 | An unregistered operation prints exactly {status: "Not supported"}, whatever its arguments |
| `Invocation.WrongArityReply` | pkg/flexvolume/cinder/flexvolume.go:287-291 | A registered operation with the wrong argument count prints a Failure whose message names both counts |
| `Invocation.InitReply` | pkg/flexvolume/cinder/flexvolume.go:53-60 | init prints Success with capabilities.attach = false |
| `Invocation.AttachDetachReply` | pkg/flexvolume/cinder/flexvolume.go:114-122 | attach and detach print a bare Success and do nothing |
| `Invocation.WaitForAttachReply` | pkg/flexvolume/cinder/flexvolume.go:124-127 | waitforattach prints Success with device equal to its first argument |
| `Invocation.IsAttachedReply` | pkg/flexvolume/cinder/flexvolume.go:129-132 | isattached always prints Success with attached = true |
| `Invocation.MountWriteFailureReply` | pkg/flexvolume/cinder/flexvolume.go:158-161 | A mount whose record write fails after attaching prints a Failure whose message is the write error's text |
| `Invocation.UnmountMissingDirReply` | pkg/flexvolume/cinder/flexvolume.go:212-215 | Unmounting a missing directory prints the "does not exists" Failure and changes nothing |
| `Driver.FlexVolumeDriver.constructor` | pkg/flexvolume/cinder/flexvolume.go:44-50 | A new driver has only its uuid and name set; every other field is at its zero value |
| `Driver.FlexVolumeDriver.InitForMount` | pkg/flexvolume/cinder/flexvolume.go:63-90 | Assigning the fields step by step with early returns leaves exactly the state and error of `InitForMountSpec` |
| `Driver.FlexVolumeDriver.InitForUnmount` | pkg/flexvolume/cinder/flexvolume.go:93-112 | Leaves exactly the state and error of `InitForUnmountSpec` |
| `Driver.FlexVolumeDriver.GenerateOptionsData` | pkg/flexvolume/cinder/flexvolume.go:167-198 | Filling a fresh record field by field yields exactly `OptionsData` |
| `Driver.FlexVolumeDriver.DetachDiskLogError` | pkg/flexvolume/cinder/flexvolume.go:200-206 | Makes exactly one detach call and discards its error |
| `Driver.FlexVolumeDriver.Mount` | pkg/flexvolume/cinder/flexvolume.go:138-165 | Leaves exactly the driver, host and error of `MountSpec` |
| `Driver.FlexVolumeDriver.Unmount` | pkg/flexvolume/cinder/flexvolume.go:209-233 | Leaves exactly the driver, host and error of `UnmountSpec` |
| `Driver.FlexVolumeDriver.DoRun` | pkg/flexvolume/cinder/flexvolume.go:280-297 | Leaves exactly the state, fields and error of `DoRunSpec` |
| `Driver.FlexVolumeDriver.Run` | pkg/flexvolume/cinder/flexvolume.go:299-303 | Returns the envelope of `DoRunSpec`'s result and leaves its state |

## Left out

- JSON encoding and decoding. The options blob arrives already decoded, as the `options` field of
  `Env`, and numbers are kept as integers. When the blob does not parse, the source ignores the
  error and reads from a nil map; in the model this is an empty `options` map. The reply is the
  envelope map. Its serialised text, the trailing newline and the marshalling panic are not
  modelled.
- The literal values of `VolIdKey`, `CinderConfigKey` and `CinderConfigFile` are defined in
  `pkg/flexvolume`, which is not part of this model. The model uses stand-in strings, and no
  proved property depends on their text.
- `FlexManager` (`NewFlexManager`, `AttachDisk`, `DetachDisk`) and the sidecar file functions
  are not part of this model. Their outcomes are inputs. A failed read is either an injected
  error or a missing record. Whether `os.Remove` succeeds is an input, because it refuses to
  remove a non-empty directory.
- `os.Stat` errors other than "does not exist" let unmount carry on in the source. The model
  only asks whether the directory exists.
- The texts of the panic errors (`OptionNotString`, `MetadataNotString`, `NilRecord`) and of
  `SidecarMissing` are the model's own wording, because the source prints nothing for a panic
  and the read error comes from code outside this model. In Go, `%q` and `%#v` escape quotes
  inside the quoted string; the model only adds the surrounding quotes.
- `utilmetadata.ExtractStringSlice`: the model accepts a list whose every item is a string and
  rejects everything else.
- `glog` logging, including the logged detach error of the compensation path.
- The `uuid`, `name` and `readOnly` fields. They are kept on the driver, but nothing in this
  file reads them; every method that may change the driver ensures `readOnly` keeps its value.
- The host's directories and records are independent sets: a record write succeeds even into a
  directory the model does not list, and a removal that succeeds ignores a record still inside
  the directory (which `os.Remove` would refuse). This over-approximates the host; it is why
  `MountThenUnmount` asks that the directory exist before the mount.
- Concurrency between invocations and the atomicity of the sidecar write. The orchestrator is
  assumed to run lifecycle operations on one directory one at a time.

## Findings

| source | as written | input that shows it | evidently intended | confidence | as-written member | corrected member |
|---|---|---|---|---|---|---|
| pkg/flexvolume/cinder/flexvolume.go:167-172 | `result` is a nil `*CinderVolumeOptsData`, and line 170 assigns through it, so the driver panics before any record exists | `mount <dir> '{"volume-id":"v1","kubernetes.io/fsType":"ext4"}'` with an attach that succeeds: the volume stays attached, no record is written and nothing detaches it | allocate a fresh record and fill it field by field, so that every attached volume is either recorded or detached (except when `volume_type` or `name` is not a string, which still panics at lines 175/178 after the attach) | high; not executed | `Lifecycle.MountAsWrittenStrandsVolume` | `Lifecycle.MountLeavesNothingAttachedUnrecorded` |
