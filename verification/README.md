# sevault volume driver — a Dafny model

This project models the core of sevault, a Docker volume plugin that backs
named volumes with network storage:

- **The volume lifecycle manager** (`Driver` in `internal/driver/driver.go`).
  It holds a table of volumes (`volumes`: name → name, path, options), the
  back end recorded for each name at creation (`mountedVolumes`), and a
  read-only registry of back ends (`backends`). Its operations are Create,
  Remove, Path, Get, List, Mount and Unmount.
- **The NFS back end** (`internal/backend/nfs.go`). `FSType` names the
  filesystem type. `Prepare` turns a volume's option map into a device
  locator `host:export` and the option list `vers=…, soft, timeo=30`.

The model is functional. The driver state is an immutable datatype. Every
operation except List is a pure function of the state, the request and the
outcome of the operating-system call it makes. List is a method that emits
the volumes in an arbitrarily chosen order. That choice stands for Go's
unspecified map iteration order. The OS effects are Go's `os.MkdirAll` and
`os.RemoveAll`, and the `mount` and `umount` commands run through
`exec.Command`. Each operation returns the calls it issues,
in order, as `OsCall` values. Their outcomes come in as `OsOutcome`
parameters. Create and Remove return a new state. Path, Get, List, Mount and
Unmount return none, so by their signatures they cannot change the table.

Files:

- `wrappers.dfy` — `Option` and `Result`.
- `strings.dfy` — Go's `strings.Join`, which builds the mount command's
  `-o` argument. It also holds `Split` and `Cut`, which the code does not
  use: they invert joining with a separator, so that the round-trip lemmas
  about the mount arguments can be stated.
- `backends.dfy` — the `Backend` interface as a closed datatype whose only
  variant is `NFS`, with `FSType`, `Prepare` and their properties.
- `driver.dfy` — the driver state, its invariant `Valid`, and the
  operations.
- `driver_properties.dfy` — properties that span several operations. Among
  them: the invariant holds after any sequence of requests, Create is
  idempotent, Remove-then-Create gives a fresh volume, and the exact shape
  of the mount command line.

Facts about the code that shape the model:

- The code never records whether a volume is mounted
  (internal/driver/driver.go:148-149), so the model has no `mounted` flag.
- Remove deletes only the `volumes` entry (internal/driver/driver.go:95).
  The `mountedVolumes` entry stays behind until a later Create of the same
  name overwrites it (internal/driver/driver.go:81).
- Unmount returns the `umount` command's own error unchanged
  (internal/driver/driver.go:155-161).
- The NFS back end has one validation error, which covers host and export
  together (internal/backend/nfs.go:13-14).

## Model

| member | source | states |
|---|---|---|
| Backends.FSType | internal/backend/nfs.go:7 | The filesystem type that NFS hands to `mount -t` is always "nfs". |
| Backends.EffectiveVers | internal/backend/nfs.go:12-18 | The NFS version is the caller's `vers` when present and non-empty, and "4" otherwise. It is never empty. |
| Backends.Prepare | internal/backend/nfs.go:9-20 | Prepare fails exactly when `host` or `export` is absent or empty, and then the device is "" and the option list empty. On success the device is host ":" export and the options are exactly ["vers=" + version, "soft", "timeo=30"] in that order. |
| Backends.PrepareReadsOnlyNfsKeys | internal/backend/nfs.go:9-12 | Two calls that agree on `host`, `export` and `vers` give equal results, whatever the volume name and the other keys. |
| Backends.PrepareDeviceRoundTrip | internal/backend/nfs.go:19 | Cutting the device at its first colon gives back host and export, provided the host has no colon. |
| Backends.PrepareOptionsRoundTrip | internal/backend/nfs.go:20 | Splitting the comma-joined options gives back the three options, provided the version has no comma. The first option carries the effective version after `vers=`. |
| Strings.JoinShape | internal/driver/driver.go:142 | The comma-join is as long as its parts plus one comma between neighbours. It starts with the first part and ends with the last. |
| Strings.SplitJoin | internal/driver/driver.go:142 | Splitting at commas undoes `strings.Join` with ",", for every non-empty list of comma-free parts. |
| Strings.CutJoined | internal/backend/nfs.go:19 | Cutting `before:after` at the first colon gives back both halves when `before` has no colon. |
| VolumeDriver.New | internal/driver/driver.go:41-47 | A new driver has an empty table and an empty back-end record over the given registry, and satisfies the table invariant. |
| VolumeDriver.MountPath | internal/driver/driver.go:75 | A volume's path is mountRoot, then "/", then the name, which is the path Create stores and Unmount targets. |
| VolumeDriver.Selector | internal/driver/driver.go:59-67 | The back-end selector is `type` if non-empty, else `backend` if non-empty, else "nfs". It is never empty. |
| VolumeDriver.Create | internal/driver/driver.go:51-84 | A known name succeeds with no OS call and no change. An unknown selector fails with BackendNotFound before any OS call, and nothing changes. Otherwise MkdirAll(mountRoot/name) is issued. If it fails, StorageFailure carrying its error is returned and nothing changes. If it succeeds, only the entries for `name` are written: {name, mountRoot/name, options} and the selected back end. The registry is never written, and the invariant is kept. |
| VolumeDriver.Remove | internal/driver/driver.go:86-98 | Remove always succeeds. An unknown name changes nothing and makes no OS call. A known name has its stored path removed and only its `volumes` entry deleted. `mountedVolumes` is untouched and the invariant is kept. |
| VolumeDriver.Path | internal/driver/driver.go:100-110 | An unknown name gives VolumeNotFound, and only an unknown name does. A known name gives its stored path. |
| VolumeDriver.Get | internal/driver/driver.go:164-174 | An unknown name gives VolumeNotFound, and only an unknown name does. A known name gives the name, the stored path and the stored options. |
| VolumeDriver.List | internal/driver/driver.go:176-185 | The result has one entry per key of the table. Its names are exactly the table's keys and none repeats. Each entry carries that key's stored path and options. |
| VolumeDriver.MountBackend | internal/driver/driver.go:121-134 | Mount uses the back end recorded for the name when there is one. Otherwise it uses the registry's "nfs" entry, and there is none exactly when the registry lacks "nfs". |
| VolumeDriver.MountArgs | internal/driver/driver.go:142 | The mount argument vector has six elements: "-t", "nfs", "-o", the comma-joined options, the device, and the path. |
| VolumeDriver.Mount | internal/driver/driver.go:112-150 | An unknown name fails with UnknownVolume and makes no OS call. When no back end is recorded for the name, Mount fails with DefaultBackendUnavailable exactly when the registry lacks "nfs", and then makes no call. A failed Prepare returns the back end's error and makes no call. Otherwise the one call is `mount` with ["-t", FSType, "-o", comma-join(options), device, path]. The result is the stored path exactly when that command succeeds, and otherwise the command's error and output. |
| VolumeDriver.Unmount | internal/driver/driver.go:152-162 | The one OS call is `umount mountRoot/name`, computed from the name without consulting the table. The result succeeds exactly when the command does, and otherwise carries its error. |
| VolumeDriverProperties.RunPreservesValid | internal/driver/driver.go:75-81 | After any sequence of requests the table invariant still holds and the registry is unchanged. The invariant: each row is filed under its own name at its mount path, with a back end recorded from the registry. |
| VolumeDriverProperties.ReachableMountUsesRecordedBackend | internal/driver/driver.go:121-134 | In every state reachable from New, a known volume's Path is mountRoot/name and Mount uses the back end recorded at creation. The lost-back-end fallback never runs. |
| VolumeDriverProperties.CreateKeepsFirst | internal/driver/driver.go:54-57 | After one successful Create, a second Create of the same name with any options succeeds with no OS call and changes nothing. The first call's record stays. |
| VolumeDriverProperties.RemoveThenCreateIsFresh | internal/driver/driver.go:89-97 | Remove leaves `mountedVolumes` as it was. A following Create records the new options and overwrites the stale back-end entry. |
| VolumeDriverProperties.PathDependsOnNameOnly | internal/driver/driver.go:75 | Two Creates of one name with different options give the same Path, mountRoot/name. |
| VolumeDriverProperties.MountPathRoundTrip | internal/driver/driver.go:18 | For a plain name (non-empty, not "." or "..", no "/"), stripping mountRoot + "/" from its mount path recovers the name. |
| VolumeDriverProperties.MountPathInjective | internal/driver/driver.go:75 | Two plain names share a mount path only if they are the same name. |
| VolumeDriverProperties.MountCommandLine | internal/driver/driver.go:142 | For every valid NFS volume the mount command is exactly ["-t", "nfs", "-o", "vers=V,soft,timeo=30", host:export, mountRoot/name], whatever V holds. |
| VolumeDriverProperties.MountOptionsSplitBack | internal/driver/driver.go:142 | When the version has no comma, the command's `-o` argument splits back into exactly Prepare's three options. |
| VolumeDriverProperties.SelectorReadsOnlySelectorKeys | internal/driver/driver.go:60-67 | Two option maps that agree on `type` and `backend` select the same back end, whatever their other keys. |
| VolumeDriverProperties.GetAgreesWithPathAndList | internal/driver/driver.go:164-174 | In a valid table, Get of a known volume returns the entry List reports for it. Its mountpoint is mountRoot/name, and Path returns the same path. |
| VolumeDriverProperties.RecreateKeepsOptionsExample | internal/driver/driver.go:54-57 | After "db" is created with NFS options and then created again with none, Get still reports the first options at /var/lib/sevault/mounts/db. |
| VolumeDriverProperties.MountAndUnmountAgree | internal/driver/driver.go:153 | For a valid table, whenever Mount issues its command, Unmount of the same name targets that command's last argument, the volume's path. |
| VolumeDriverProperties.MountValidatesFirst | internal/driver/driver.go:136-141 | When the stored options fail Prepare, Mount returns that error and issues no mount command, whatever the OS outcome. |
| VolumeDriverProperties.MountFailureKeepsVolume | internal/driver/driver.go:144-147 | A failed mount command reports its error and output, and the volume stays at its path. |
| VolumeDriverProperties.CreateThenPathExample | internal/driver/driver.go:75 | Creating "db" with NFS options on a fresh driver gives Path "/var/lib/sevault/mounts/db". |
| VolumeDriverProperties.MissingHostExample | internal/backend/nfs.go:13-15 | A volume created without `host` fails to mount with the NFS error, and no mount command is issued. |
| VolumeDriverProperties.UnknownBackendExample | internal/driver/driver.go:69-73 | Create with `type` "cifs" against the {"nfs"} registry fails with BackendNotFound("cifs") and changes nothing. |

## Left out

- VolumeDriver.MountPath: this is `mountRoot + "/" + name`, which equals `filepath.Join(mountRoot, name)` for plain names. For other names the model's path differs from the code's, because Join normalises them: "" gives mountRoot itself, and "a/../b" gives the path of "b". In the code, two names that are not plain can share a path, so the injectivity lemmas require plain names.
- Locking (`sync.Mutex`) is left out because the model is sequential. So is Mount's unlocked read of `mountedVolumes`.
- All `log.Printf` calls are left out. They only log.
- The OS effects (`os.MkdirAll`, `os.RemoveAll`, `exec.Command("mount"/"umount")`) are not modelled as behaviour. Each is an `OsCall` the operation returns, with its outcome as an input. Remove ignores the outcome of `RemoveAll`, as the code does, so it takes none.
- Error texts are left out. Each Go error is a constructor of `VolumeDriver.Error` or `Backends.BackendError` that carries the data its message shows.
- VolumeDriver.Mount: the back end's Prepare error is wrapped in `PrepareFailed` so it fits one error type. Go returns it as is, and the wrapped value is that error unchanged.
- `Capabilities` is left out. It returns the constant scope "global" and touches no state.
- The plugin protocol's request and response types are left out. So are the socket server and process start-up in `cmd/sevaultd/main.go`. Its only relevant fact, the registry {"nfs" ↦ NFS}, is a parameter of `New`.
- Go's nil map and nil slice are left out. A nil option map is the empty map, and a nil option list is the empty sequence.
- Open-ended back-end plug-ins are left out. The `Backend` interface is a closed datatype with its one implementation, NFS.
