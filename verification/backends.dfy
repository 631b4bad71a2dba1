/** The storage back ends (internal/backend): the `Backend` capability and its
    only implementation, NFS, which turns a volume's option map into the
    device locator and the option list handed to `mount`. */
module Backends {
  import opened Wrappers
  import Strings

  /** A volume's options as given at creation: string keys to string values. */
  type Options = map<string, string>

  /** Reading a Go map: an absent key reads as the empty string. */
  function Lookup(opts: Options, key: string): string
  {
    if key in opts then opts[key] else ""
  }

  /** The back-end variants. The set is closed and NFS is its only member. */
  datatype Backend = NFS

  /** The single validation failure of the NFS back end. */
  datatype BackendError = MissingHostOrExport

  /** Go's `(device, mountOptions, err)` triple returned by `Prepare`. */
  datatype Prepared = Prepared(device: string, mountOptions: seq<string>, err: Option<BackendError>)

  /** The NFS protocol version used when the options name none. */
  const DefaultVers := "4"

  /** The filesystem type passed to `mount -t`. */
  function FSType(b: Backend): (t: string)
    ensures t == "nfs"
  {
    match b
    case NFS => "nfs"
  }

  /** The protocol version NFS asks for: the caller's `vers` if it is present
      and non-empty, the default otherwise. */
  function EffectiveVers(opts: Options): (v: string)
    ensures "vers" in opts && opts["vers"] != "" ==> v == opts["vers"]
    ensures "vers" !in opts || opts["vers"] == "" ==> v == DefaultVers
    ensures v != ""
  {
    var vers := Lookup(opts, "vers");
    if vers == "" then DefaultVers else vers
  }

  /** Turns a volume's options into a device locator and mount options. The
      volume name is ignored; only `host`, `export` and `vers` are read. */
  function Prepare(b: Backend, volName: string, opts: Options): (r: Prepared)
    ensures r.err.Some? <==> "host" !in opts || opts["host"] == "" || "export" !in opts || opts["export"] == ""
    ensures r.err.Some? ==> r.device == "" && r.mountOptions == []
    ensures r.err.None? ==> r.device == opts["host"] + ":" + opts["export"]
    ensures r.err.None? ==> |r.mountOptions| == 3
    ensures r.err.None? ==> r.mountOptions[0] == "vers=" + EffectiveVers(opts)
    ensures r.err.None? ==> r.mountOptions[1] == "soft" && r.mountOptions[2] == "timeo=30"
  {
    match b
    case NFS =>
      var host := Lookup(opts, "host");
      var exportPath := Lookup(opts, "export");
      if host == "" || exportPath == "" then
        Prepared("", [], Some(MissingHostOrExport))
      else
        Prepared(host + ":" + exportPath, ["vers=" + EffectiveVers(opts), "soft", "timeo=30"], None)
  }

  /** Prepare is a function of the `host`, `export` and `vers` keys alone:
      the volume name and every other key leave the result unchanged. */
  lemma PrepareReadsOnlyNfsKeys(b: Backend, name1: string, name2: string, opts1: Options, opts2: Options)
    requires Lookup(opts1, "host") == Lookup(opts2, "host")
    requires Lookup(opts1, "export") == Lookup(opts2, "export")
    requires Lookup(opts1, "vers") == Lookup(opts2, "vers")
    ensures Prepare(b, name1, opts1) == Prepare(b, name2, opts2)
  {
  }

  /** The device locator splits back into the host and the export at its
      first colon, provided the host itself holds no colon. */
  lemma PrepareDeviceRoundTrip(b: Backend, name: string, opts: Options)
    requires Prepare(b, name, opts).err.None?
    requires ':' !in opts["host"]
    ensures Strings.Cut(Prepare(b, name, opts).device, ':')
            == Strings.CutResult(opts["host"], opts["export"], true)
  {
    Strings.CutJoined(opts["host"], opts["export"], ':');
  }

  /** The comma-joined option string of a successful Prepare splits back into
      exactly its three options, provided the version holds no comma; the
      first of them carries the effective version after `vers=`. */
  lemma PrepareOptionsRoundTrip(b: Backend, name: string, opts: Options)
    requires Prepare(b, name, opts).err.None?
    requires ',' !in EffectiveVers(opts)
    ensures Strings.Split(Strings.Join(Prepare(b, name, opts).mountOptions, ','), ',')
            == Prepare(b, name, opts).mountOptions
    ensures Prepare(b, name, opts).mountOptions[0][5..] == EffectiveVers(opts)
  {
    var o := Prepare(b, name, opts).mountOptions;
    assert ',' !in o[0] by {
      assert o[0] == "vers=" + EffectiveVers(opts);
    }
    assert ',' !in o[1] && ',' !in o[2];
    Strings.SplitJoin(o, ',');
  }
}
