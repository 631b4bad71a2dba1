/** Properties of the volume driver that relate several operations or hold
    of every state the driver can reach. */
module VolumeDriverProperties {
  import opened Wrappers
  import opened Backends
  import opened VolumeDriver
  import Strings

  /** One lifecycle request together with the outcome of the OS call it
      would make. */
  datatype Request =
    | CreateRequest(name: string, options: Options, mkdir: OsOutcome)
    | RemoveRequest(name: string)
    | PathRequest(name: string)
    | GetRequest(name: string)
    | MountRequest(name: string, mount: OsOutcome)
    | UnmountRequest(name: string, umount: OsOutcome)

  /** The driver state after serving one request. */
  function Apply(d: Driver, req: Request): Driver
  {
    match req
    case CreateRequest(name, options, mkdir) => Create(d, name, options, mkdir).state
    case RemoveRequest(name) => Remove(d, name).state
    case _ => d
  }

  /** The driver state after serving the requests in order. */
  function Run(d: Driver, reqs: seq<Request>): Driver
    decreases |reqs|
  {
    if |reqs| == 0 then d else Run(Apply(d, reqs[0]), reqs[1..])
  }

  /** Every request keeps the table's invariant, and the registry is never
      written: after any sequence of requests the driver is still `Valid`
      over the same back ends. */
  lemma {:induction false} RunPreservesValid(d: Driver, reqs: seq<Request>)
    requires Valid(d)
    ensures Valid(Run(d, reqs))
    ensures Run(d, reqs).backends == d.backends
    decreases |reqs|
  {
    if |reqs| > 0 {
      var d' := Apply(d, reqs[0]);
      assert Valid(d') && d'.backends == d.backends by {
        match reqs[0]
        case CreateRequest(name, options, mkdir) =>
        case RemoveRequest(name) =>
        case PathRequest(_) =>
        case GetRequest(_) =>
        case MountRequest(_, _) =>
        case UnmountRequest(_, _) =>
      }
      RunPreservesValid(d', reqs[1..]);
    }
  }

  /** In every state reachable from a fresh driver, each known volume sits
      at its mount path and has its back end recorded, so Mount never takes
      the fallback for a lost back end. */
  lemma ReachableMountUsesRecordedBackend(registry: map<string, Backend>, reqs: seq<Request>, name: string)
    requires name in Run(New(registry), reqs).volumes
    ensures Valid(Run(New(registry), reqs))
    ensures var d := Run(New(registry), reqs);
            && Path(d, name) == Ok(MountPath(name))
            && MountBackend(d, name) == Some(d.mountedVolumes[name])
            && d.mountedVolumes[name] in registry.Values
  {
    RunPreservesValid(New(registry), reqs);
  }

  /** A second Create of a known name succeeds without any OS call and keeps
      the first call's path, options and back end. */
  lemma CreateKeepsFirst(d: Driver, name: string, first: Options, second: Options, mkdir1: OsOutcome, mkdir2: OsOutcome)
    requires Create(d, name, first, mkdir1).result.Ok?
    ensures var d1 := Create(d, name, first, mkdir1).state;
            && name in d1.volumes
            && Create(d1, name, second, mkdir2) == Reply(d1, [], Ok(()))
            && (name !in d.volumes ==> d1.volumes[name] == VolumeInfo(name, MountPath(name), first))
  {
  }

  /** Removing a volume and creating it again yields a brand-new volume: the
      new options are recorded and the stale back-end entry Remove left
      behind is overwritten with the newly selected one. */
  lemma RemoveThenCreateIsFresh(d: Driver, name: string, options: Options)
    requires name in d.volumes
    requires Selector(options) in d.backends
    ensures var d1 := Remove(d, name).state;
            var r := Create(d1, name, options, Succeeded);
            && name !in d1.volumes
            && d1.mountedVolumes == d.mountedVolumes
            && r.result == Ok(())
            && r.calls == [MkdirAll(MountPath(name))]
            && r.state.volumes[name] == VolumeInfo(name, MountPath(name), options)
            && r.state.mountedVolumes[name] == d.backends[Selector(options)]
  {
  }

  /** The mount path of a created volume depends on its name alone: two
      Creates from the same state with different options give the same
      Path. (That distinct plain names never share a path is
      `MountPathInjective`.) */
  lemma PathDependsOnNameOnly(d: Driver, name: string, options1: Options, options2: Options)
    requires name !in d.volumes
    requires Create(d, name, options1, Succeeded).result.Ok?
    requires Create(d, name, options2, Succeeded).result.Ok?
    ensures Path(Create(d, name, options1, Succeeded).state, name)
            == Path(Create(d, name, options2, Succeeded).state, name)
            == Ok(MountPath(name))
  {
  }

  /** `MountPath` is one-to-one: `NameOfMountPath` recovers the name. */
  lemma MountPathRoundTrip(name: string)
    requires PlainName(name)
    ensures NameOfMountPath(MountPath(name)) == Some(name)
  {
  }

  /** Distinct plain names never share a mount path. */
  lemma MountPathInjective(a: string, b: string)
    requires PlainName(a) && PlainName(b)
    ensures MountPath(a) == MountPath(b) <==> a == b
  {
    MountPathRoundTrip(a);
    MountPathRoundTrip(b);
  }

  /** For a volume with NFS options that pass validation, the mount command
      is exactly `mount -t nfs -o vers=V,soft,timeo=30 host:export path`,
      whatever the version string holds. */
  lemma MountCommandLine(d: Driver, name: string, mount: OsOutcome)
    requires Valid(d) && name in d.volumes
    requires Prepare(NFS, name, d.volumes[name].opts).err.None?
    ensures var opts := d.volumes[name].opts;
            Mount(d, name, mount).calls
              == [MountCommand(["-t", "nfs", "-o", "vers=" + EffectiveVers(opts) + ",soft,timeo=30",
                                opts["host"] + ":" + opts["export"], MountPath(name)])]
  {
    var opts := d.volumes[name].opts;
    var o := Prepare(NFS, name, opts).mountOptions;
    assert d.mountedVolumes[name] == NFS;
    assert MountBackend(d, name) == Some(NFS);
    assert Strings.Join(o, ',') == o[0] + [','] + (o[1] + [','] + o[2]) by {
      assert o[1..][1..] == [o[2]];
      assert Strings.Join(o[1..], ',') == o[1] + [','] + o[2];
    }
    assert "vers=" + EffectiveVers(opts) + ",soft,timeo=30" == o[0] + [','] + (o[1] + [','] + o[2]);
  }

  /** When the version holds no comma, the `-o` argument of the mount
      command splits back into exactly Prepare's three options. A comma in
      the version would smuggle further options into the command. */
  lemma MountOptionsSplitBack(d: Driver, name: string, mount: OsOutcome)
    requires Valid(d) && name in d.volumes
    requires Prepare(NFS, name, d.volumes[name].opts).err.None?
    requires ',' !in EffectiveVers(d.volumes[name].opts)
    ensures Strings.Split(Mount(d, name, mount).calls[0].args[3], ',')
            == Prepare(NFS, name, d.volumes[name].opts).mountOptions
  {
    MountCommandLine(d, name, mount);
    PrepareOptionsRoundTrip(NFS, name, d.volumes[name].opts);
  }

  /** The back-end selector reads the `type` and `backend` keys alone. */
  lemma SelectorReadsOnlySelectorKeys(options1: Options, options2: Options)
    requires Lookup(options1, "type") == Lookup(options2, "type")
    requires Lookup(options1, "backend") == Lookup(options2, "backend")
    ensures Selector(options1) == Selector(options2)
  {
  }

  /** In a valid table, Get of a known volume reports the entry List gives
      for it, its mount path is the name's mount path, and Path agrees. */
  lemma GetAgreesWithPathAndList(d: Driver, name: string)
    requires Valid(d) && name in d.volumes
    ensures Get(d, name) == Ok(Entry(d, name))
    ensures Get(d, name).value.mountpoint == MountPath(name)
    ensures Path(d, name) == Ok(Get(d, name).value.mountpoint)
  {
  }

  /** Creating a volume again with other options leaves Get reporting the
      first options. */
  lemma RecreateKeepsOptionsExample()
    ensures var first := map["host" := "10.0.0.5", "export" := "/srv/db"];
            var d1 := Create(New(map["nfs" := NFS]), "db", first, Succeeded).state;
            var d2 := Create(d1, "db", map[], Succeeded).state;
            Get(d2, "db") == Ok(Volume("db", MountPath("db"), first))
  {
  }

  /** Unmount acts on the very path a successful Mount mounted at: the last
      argument of the mount command is the target of the umount command. */
  lemma MountAndUnmountAgree(d: Driver, name: string, mount: OsOutcome, umount: OsOutcome)
    requires Valid(d)
    requires Mount(d, name, mount).calls != []
    ensures var args := Mount(d, name, mount).calls[0].args;
            && |args| == 6
            && Unmount(name, umount).calls == [UmountCommand(args[5])]
  {
  }

  /** Validation precedes side effects: when the stored options fail
      Prepare, Mount returns the back end's error and issues no mount
      command, whatever the OS would have answered; the table still holds
      the volume. */
  lemma MountValidatesFirst(d: Driver, name: string, mount: OsOutcome)
    requires Valid(d) && name in d.volumes
    requires Prepare(d.mountedVolumes[name], name, d.volumes[name].opts).err.Some?
    ensures Mount(d, name, mount) == Effect([], Err(PrepareFailed(MissingHostOrExport)))
  {
  }

  /** A failed mount command reports the command's error and output and the
      volume stays registered at the same path. */
  lemma MountFailureKeepsVolume(d: Driver, name: string, cause: string, output: string)
    requires Valid(d) && name in d.volumes
    requires Prepare(d.mountedVolumes[name], name, d.volumes[name].opts).err.None?
    ensures Mount(d, name, Failed(cause, output)).result == Err(MountFailed(cause, output))
    ensures |Mount(d, name, Failed(cause, output)).calls| == 1
    ensures Path(d, name) == Ok(MountPath(name))
  {
  }

  /** Create then Path on a fresh driver reports `/var/lib/sevault/mounts/db`. */
  lemma CreateThenPathExample()
    ensures var d := Create(New(map["nfs" := NFS]), "db",
                            map["host" := "10.0.0.5", "export" := "/srv/db"], Succeeded).state;
            Path(d, "db") == Ok("/var/lib/sevault/mounts/db")
  {
    var options := map["host" := "10.0.0.5", "export" := "/srv/db"];
    assert Selector(options) == "nfs";
    var d := Create(New(map["nfs" := NFS]), "db", options, Succeeded).state;
    assert d.volumes["db"].path == MountPath("db");
    assert MountPath("db") == "/var/lib/sevault/mounts/db";
  }

  /** A volume created without a host fails to mount before the mount
      command is issued. */
  lemma MissingHostExample(mount: OsOutcome)
    ensures var d := Create(New(map["nfs" := NFS]), "x", map["export" := "/srv/x"], Succeeded).state;
            Mount(d, "x", mount) == Effect([], Err(PrepareFailed(MissingHostOrExport)))
  {
  }

  /** Creating with a selector the registry lacks changes nothing. */
  lemma UnknownBackendExample(mkdir: OsOutcome)
    ensures var d := New(map["nfs" := NFS]);
            Create(d, "y", map["type" := "cifs"], mkdir) == Reply(d, [], Err(BackendNotFound("cifs")))
  {
  }
}
