/** The volume lifecycle manager (internal/driver/driver.go): a table of
    known volumes, the back end chosen for each, and the registry of back
    ends, with the operations the volume-plugin protocol calls.

    Every operation but List is a pure function of the driver state, the
    request and the outcome of the operating-system call it makes. List is
    a method that emits the volumes in an arbitrarily chosen order, which
    stands for Go's unspecified map iteration order. The OS calls
    themselves (MkdirAll, RemoveAll, mount, umount) are returned as `OsCall`
    values in the order they are issued, and their outcomes come in as
    `OsOutcome` parameters. Operations that never write the table return no
    new state. */
module VolumeDriver {
  import opened Wrappers
  import opened Backends
  import Strings

  const StateRoot := "/var/lib/sevault"
  const MountRoot := StateRoot + "/mounts"

  /** A name `filepath.Join` leaves as it is: non-empty, not a dot segment,
      and free of separators. */
  predicate PlainName(name: string)
  {
    name != "" && name != "." && name != ".." && '/' !in name
  }

  /** Where a volume is mounted: `MountRoot/name`, which is what
      `filepath.Join(mountRoot, name)` gives for a plain name. */
  function MountPath(name: string): (p: string)
    ensures |p| == |MountRoot| + 1 + |name|
    ensures p[..|MountRoot| + 1] == MountRoot + "/"
    ensures p[|MountRoot| + 1..] == name
  {
    MountRoot + "/" + name
  }

  /** The inverse of `MountPath`: the volume name a path under the mount
      root belongs to. */
  function NameOfMountPath(path: string): Option<string>
  {
    var prefix := MountRoot + "/";
    if |prefix| <= |path| && path[..|prefix|] == prefix then Some(path[|prefix|..]) else None
  }

  /** One row of the volume table (`volumeInfo`). */
  datatype VolumeInfo = VolumeInfo(name: string, path: string, opts: Options)

  /** The driver's state: the volume table, the read-only back-end registry,
      and the back end recorded per volume name at creation. */
  datatype Driver = Driver(
    volumes: map<string, VolumeInfo>,
    backends: map<string, Backend>,
    mountedVolumes: map<string, Backend>)

  /** A volume as the plugin protocol reports it from Get and List. */
  datatype Volume = Volume(name: string, mountpoint: string, status: Options)

  datatype Error =
    | BackendNotFound(selector: string)           // Create: selector not in the registry
    | StorageFailure(cause: string)               // Create: the directory could not be made
    | VolumeNotFound(name: string)                // Path, Get: name not in the table
    | UnknownVolume(name: string)                 // Mount: name not in the table
    | DefaultBackendUnavailable(name: string)     // Mount: no recorded back end and no "nfs"
    | PrepareFailed(reason: BackendError)         // Mount: the back end's error, passed on as is
    | MountFailed(cause: string, output: string)  // Mount: the mount command failed
    | UnmountFailed(cause: string)                // Unmount: the umount command failed

  /** A call into the operating system. */
  datatype OsCall =
    | MkdirAll(path: string)
    | RemoveAll(path: string)
    | MountCommand(args: seq<string>)
    | UmountCommand(path: string)

  /** What the operating system reports for a call: success, or the error
      and the command's combined output. */
  datatype OsOutcome = Succeeded | Failed(cause: string, output: string)

  /** The result of an operation that may write the table. */
  datatype Reply<T> = Reply(state: Driver, calls: seq<OsCall>, result: Result<T, Error>)

  /** The result of an operation that only reads the table. */
  datatype Effect<T> = Effect(calls: seq<OsCall>, result: Result<T, Error>)

  /** The driver keeps these facts about its table: each row is filed under
      its own name at that name's mount path and has a back end recorded,
      and every recorded back end comes from the registry. */
  ghost predicate Valid(d: Driver)
  {
    && (forall n :: n in d.volumes ==>
          d.volumes[n].name == n && d.volumes[n].path == MountPath(n) && n in d.mountedVolumes)
    && (forall n :: n in d.mountedVolumes ==> d.mountedVolumes[n] in d.backends.Values)
  }

  /** A driver over the given registry with an empty table. */
  function New(registry: map<string, Backend>): (d: Driver)
    ensures Valid(d)
    ensures d.backends == registry && |d.volumes| == 0 && |d.mountedVolumes| == 0
  {
    Driver(map[], registry, map[])
  }

  /** The back-end selector of a new volume: `type` if given, else `backend`,
      else "nfs". */
  function Selector(options: Options): (s: string)
    ensures s != ""
    ensures Lookup(options, "type") != "" ==> s == options["type"]
    ensures Lookup(options, "type") == "" && Lookup(options, "backend") != "" ==> s == options["backend"]
    ensures Lookup(options, "type") == "" && Lookup(options, "backend") == "" ==> s == "nfs"
  {
    var t := Lookup(options, "type");
    if t != "" then t
    else
      var b := Lookup(options, "backend");
      if b != "" then b else "nfs"
  }

  /** Registers a volume. A known name is a silent success that changes
      nothing; an unknown selector is an error before any OS call; otherwise
      the mount directory is made and, if that worked, the volume and its
      back end are recorded. */
  function Create(d: Driver, name: string, options: Options, mkdir: OsOutcome): (r: Reply<()>)
    ensures name in d.volumes ==> r == Reply(d, [], Ok(()))
    ensures name !in d.volumes && Selector(options) !in d.backends ==>
              r == Reply(d, [], Err(BackendNotFound(Selector(options))))
    ensures name !in d.volumes && Selector(options) in d.backends ==>
              r.calls == [MkdirAll(MountPath(name))]
    ensures r.result.Ok? <==>
              name in d.volumes || (Selector(options) in d.backends && mkdir.Succeeded?)
    ensures name !in d.volumes && Selector(options) in d.backends && mkdir.Failed? ==>
              r.result == Err(StorageFailure(mkdir.cause))
    ensures r.result.Err? ==> r.state == d
    ensures r.result.Ok? && name !in d.volumes ==>
              && Selector(options) in d.backends
              && r.state.volumes == d.volumes[name := VolumeInfo(name, MountPath(name), options)]
              && r.state.mountedVolumes == d.mountedVolumes[name := d.backends[Selector(options)]]
    ensures r.state.backends == d.backends
    ensures Valid(d) ==> Valid(r.state)
  {
    if name in d.volumes then Reply(d, [], Ok(()))
    else
      var selector := Selector(options);
      if selector !in d.backends then Reply(d, [], Err(BackendNotFound(selector)))
      else
        var path := MountPath(name);
        match mkdir
        case Failed(cause, _) => Reply(d, [MkdirAll(path)], Err(StorageFailure(cause)))
        case Succeeded =>
          var d' := d.(volumes := d.volumes[name := VolumeInfo(name, path, options)],
                       mountedVolumes := d.mountedVolumes[name := d.backends[selector]]);
          Reply(d', [MkdirAll(path)], Ok(()))
  }

  /** Forgets a volume. An unknown name is a silent success; a known one has
      its directory removed (whatever the outcome) and its row deleted. The
      recorded back end stays behind. */
  function Remove(d: Driver, name: string): (r: Reply<()>)
    ensures r.result == Ok(())
    ensures name !in d.volumes ==> r.state == d && r.calls == []
    ensures name in d.volumes ==> r.calls == [RemoveAll(d.volumes[name].path)]
    ensures r.state.volumes.Keys == d.volumes.Keys - {name}
    ensures forall n :: n in r.state.volumes ==> r.state.volumes[n] == d.volumes[n]
    ensures r.state.mountedVolumes == d.mountedVolumes && r.state.backends == d.backends
    ensures Valid(d) ==> Valid(r.state)
  {
    if name !in d.volumes then Reply(d, [], Ok(()))
    else Reply(d.(volumes := d.volumes - {name}), [RemoveAll(d.volumes[name].path)], Ok(()))
  }

  /** The stored mount path of a known volume. */
  function Path(d: Driver, name: string): (r: Result<string, Error>)
    ensures name !in d.volumes <==> r == Err(VolumeNotFound(name))
    ensures name in d.volumes ==> r == Ok(d.volumes[name].path)
  {
    if name in d.volumes then Ok(d.volumes[name].path) else Err(VolumeNotFound(name))
  }

  /** The protocol view of a known volume: its name, path and options. */
  function Entry(d: Driver, name: string): Volume
    requires name in d.volumes
  {
    Volume(name, d.volumes[name].path, d.volumes[name].opts)
  }

  /** A known volume's path and options. */
  function Get(d: Driver, name: string): (r: Result<Volume, Error>)
    ensures name !in d.volumes <==> r == Err(VolumeNotFound(name))
    ensures name in d.volumes ==>
              r.Ok? && r.value.name == name && r.value.mountpoint == d.volumes[name].path
              && r.value.status == d.volumes[name].opts
  {
    if name in d.volumes then Ok(Entry(d, name)) else Err(VolumeNotFound(name))
  }

  /** The names a list of volumes carries. */
  function Names(vols: seq<Volume>): set<string>
  {
    set i | 0 <= i < |vols| :: vols[i].name
  }

  /** Appending a volume adds exactly its name to the names. */
  lemma NamesAppend(vols: seq<Volume>, v: Volume)
    ensures Names(vols + [v]) == Names(vols) + {v.name}
  {
    var vols' := vols + [v];
    assert vols'[|vols|] == v;
    forall n | n in Names(vols) ensures n in Names(vols') {
      var i :| 0 <= i < |vols| && vols[i].name == n;
      assert vols'[i] == vols[i];
    }
  }

  /** A list of volumes never carries more names than entries. */
  lemma {:induction false} NamesBound(vols: seq<Volume>)
    ensures |Names(vols)| <= |vols|
    decreases |vols|
  {
    if |vols| > 0 {
      var prefix := vols[..|vols| - 1];
      assert vols == prefix + [vols[|vols| - 1]];
      NamesAppend(prefix, vols[|vols| - 1]);
      NamesBound(prefix);
    }
  }

  /** A list with as many names as entries names every volume once. */
  lemma {:induction false} DistinctNames(vols: seq<Volume>)
    requires |Names(vols)| == |vols|
    ensures forall i, j :: 0 <= i < j < |vols| ==> vols[i].name != vols[j].name
    decreases |vols|
  {
    if |vols| > 0 {
      var prefix, last := vols[..|vols| - 1], vols[|vols| - 1];
      assert vols == prefix + [last];
      NamesAppend(prefix, last);
      NamesBound(prefix);
      assert last.name !in Names(prefix);
      DistinctNames(prefix);
      forall i, j | 0 <= i < j < |vols| ensures vols[i].name != vols[j].name {
        assert vols[i] == prefix[i];
        if j < |vols| - 1 {
          assert vols[j] == prefix[j];
        } else {
          assert vols[i].name in Names(prefix);
        }
      }
    }
  }

  /** The loop state of `List`: `vols` holds the table's entries for the
      keys outside `remaining`, one per key. */
  ghost predicate Listed(d: Driver, vols: seq<Volume>, remaining: set<string>)
  {
    && Names(vols) + remaining == d.volumes.Keys
    && Names(vols) !! remaining
    && |vols| + |remaining| == |d.volumes.Keys|
    && (forall i :: 0 <= i < |vols| ==> vols[i].name in d.volumes && vols[i] == Entry(d, vols[i].name))
  }

  /** Listing one more key keeps `Listed`. */
  lemma ListedStep(d: Driver, vols: seq<Volume>, remaining: set<string>, name: string)
    requires Listed(d, vols, remaining)
    requires name in remaining
    ensures Listed(d, vols + [Entry(d, name)], remaining - {name})
  {
    var vols' := vols + [Entry(d, name)];
    NamesAppend(vols, Entry(d, name));
    assert |remaining - {name}| == |remaining| - 1;
    forall i | 0 <= i < |vols| ensures vols'[i] == vols[i] {
    }
  }

  /** Every volume of the table, each exactly once, in an order the table
      does not fix (Go's map iteration order is unspecified; here an
      arbitrary choice of the next key stands for it). */
  method List(d: Driver) returns (vols: seq<Volume>)
    ensures |vols| == |d.volumes|
    ensures Names(vols) == d.volumes.Keys
    ensures forall i :: 0 <= i < |vols| ==> vols[i].name in d.volumes && vols[i] == Entry(d, vols[i].name)
    ensures forall i, j :: 0 <= i < j < |vols| ==> vols[i].name != vols[j].name
  {
    vols := [];
    var remaining := d.volumes.Keys;
    while remaining != {}
      invariant Listed(d, vols, remaining)
      decreases remaining
    {
      var name :| name in remaining;
      ListedStep(d, vols, remaining, name);
      vols := vols + [Entry(d, name)];
      remaining := remaining - {name};
    }
    DistinctNames(vols);
  }

  /** The back end Mount uses: the one recorded at creation, or else the
      registry's "nfs" entry, or none. */
  function MountBackend(d: Driver, name: string): (r: Option<Backend>)
    ensures name in d.mountedVolumes ==> r == Some(d.mountedVolumes[name])
    ensures name !in d.mountedVolumes ==> (r.None? <==> "nfs" !in d.backends)
    ensures name !in d.mountedVolumes && r.Some? ==> r.value == d.backends["nfs"]
  {
    if name in d.mountedVolumes then Some(d.mountedVolumes[name])
    else if "nfs" in d.backends then Some(d.backends["nfs"])
    else None
  }

  /** The argument vector of the mount command. */
  function MountArgs(b: Backend, prep: Prepared, path: string): (args: seq<string>)
    ensures |args| == 6
    ensures args[..3] == ["-t", "nfs", "-o"]
    ensures args[3] == Strings.Join(prep.mountOptions, ',')
    ensures args[4] == prep.device && args[5] == path
  {
    ["-t", FSType(b), "-o", Strings.Join(prep.mountOptions, ','), prep.device, path]
  }

  /** Mounts a known volume at its stored path. An unknown name, a missing
      back end or a failed Prepare each end the call before the mount
      command is issued; the back end's own error is passed on unchanged. */
  function Mount(d: Driver, name: string, mount: OsOutcome): (r: Effect<string>)
    ensures name !in d.volumes ==> r == Effect([], Err(UnknownVolume(name)))
    ensures name in d.volumes && MountBackend(d, name).None? ==>
              r == Effect([], Err(DefaultBackendUnavailable(name)))
    ensures name in d.volumes && name !in d.mountedVolumes ==>
              (r.result == Err(DefaultBackendUnavailable(name)) <==> "nfs" !in d.backends)
    ensures name in d.volumes && MountBackend(d, name).Some? ==>
              var prep := Prepare(MountBackend(d, name).value, name, d.volumes[name].opts);
              && (prep.err.Some? ==> r == Effect([], Err(PrepareFailed(prep.err.value))))
              && (prep.err.None? ==>
                    r.calls == [MountCommand(MountArgs(MountBackend(d, name).value, prep, d.volumes[name].path))])
    ensures r.result.Ok? <==> r.calls != [] && mount.Succeeded?
    ensures r.result.Ok? ==> name in d.volumes && r.result.value == d.volumes[name].path
    ensures r.calls != [] && mount.Failed? ==> r.result == Err(MountFailed(mount.cause, mount.output))
  {
    if name !in d.volumes then Effect([], Err(UnknownVolume(name)))
    else
      var v := d.volumes[name];
      match MountBackend(d, name)
      case None => Effect([], Err(DefaultBackendUnavailable(name)))
      case Some(backend) =>
        var prep := Prepare(backend, name, v.opts);
        if prep.err.Some? then Effect([], Err(PrepareFailed(prep.err.value)))
        else
          var call := MountCommand(MountArgs(backend, prep, v.path));
          match mount
          case Succeeded => Effect([call], Ok(v.path))
          case Failed(cause, output) => Effect([call], Err(MountFailed(cause, output)))
  }

  /** Unmounts `MountRoot/name`. The path is derived from the name alone, so
      the table is not consulted and a name it lacks is unmounted all the
      same. */
  function Unmount(name: string, umount: OsOutcome): (r: Effect<()>)
    ensures r.calls == [UmountCommand(MountPath(name))]
    ensures r.result.Ok? <==> umount.Succeeded?
    ensures umount.Failed? ==> r.result == Err(UnmountFailed(umount.cause))
  {
    match umount
    case Succeeded => Effect([UmountCommand(MountPath(name))], Ok(()))
    case Failed(cause, _) => Effect([UmountCommand(MountPath(name))], Err(UnmountFailed(cause)))
  }
}
