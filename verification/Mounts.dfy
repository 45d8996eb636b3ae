/**
  The mount table of a node, and the operating system's mount calls on it.

  The table lists mounts in the order they were made, several of them possibly on one
  path; a path shows the latest.  Every call of the Mounter may fail; the contracts say
  what an outcome tells about the table and what it leaves behind.
 */
module Mounts {
  import opened Wrappers

  // `root` is what of the device's file system the mount shows: "/" for all of it, or the
  // file or directory that was bound.
  datatype Mount = Mount(path: string, device: string, root: string, options: seq<string>, healthy: bool)

  type Table = seq<Mount>

  // What of a node the driver's calls can change.
  datatype Os = Os(table: Table, paths: set<string>, present: set<string>)

  // The mounts on one path, oldest first.
  function MountsAt(table: Table, path: string): seq<Mount> {
    if table == [] then []
    else
      var init, last := table[..|table| - 1], table[|table| - 1];
      MountsAt(init, path) + (if last.path == path then [last] else [])
  }

  predicate MountedAt(table: Table, path: string) {
    MountsAt(table, path) != []
  }

  predicate CorruptedAt(table: Table, path: string) {
    var ms := MountsAt(table, path);
    ms != [] && !ms[|ms| - 1].healthy
  }

  predicate HealthyAt(table: Table, path: string) {
    MountedAt(table, path) && !CorruptedAt(table, path)
  }

  // GetDeviceName reports the first mount listed on the path, "" for none, ...
  function DeviceAt(table: Table, path: string): string {
    var ms := MountsAt(table, path);
    if ms == [] then "" else ms[0].device
  }

  // ... and counts the mounts of that device anywhere.
  function RefCount(table: Table, device: string): nat {
    if table == [] then 0
    else RefCount(table[..|table| - 1], device) + (if table[|table| - 1].device == device then 1 else 0)
  }

  // Unmounting takes the latest mount off the path.
  function WithoutLast(table: Table, path: string): Table {
    if table == [] then []
    else
      var init, last := table[..|table| - 1], table[|table| - 1];
      if last.path == path then init else WithoutLast(init, path) + [last]
  }

  // The mount that FormatAndMount makes.
  function Formatted(device: string, target: string): Mount {
    Mount(target, device, "/", [], true)
  }

  // A bind mount shows what the latest mount on its source shows, or else the source
  // itself, on the device of the host's file system.
  function Bound(table: Table, source: string, target: string, host: string, options: seq<string>): Mount {
    var ms := MountsAt(table, source);
    if ms == [] then Mount(target, host, source, options, true)
    else Mount(target, ms[|ms| - 1].device, ms[|ms| - 1].root, options, true)
  }

  // Mounts are on paths that exist and have a device.
  predicate TableInv(os: Os) {
    forall m :: m in os.table ==> m.path in os.paths && m.device != ""
  }

  // ---------- table laws ----------

  lemma {:induction false} MountsAtMember(table: Table, path: string, m: Mount)
    ensures m in MountsAt(table, path) <==> m in table && m.path == path
  {
    if table != [] {
      var init, last := table[..|table| - 1], table[|table| - 1];
      assert table == init + [last];
      MountsAtMember(init, path, m);
    }
  }

  lemma MountsAtAppended(table: Table, m: Mount, path: string)
    ensures MountsAt(table + [m], path) == MountsAt(table, path) + (if m.path == path then [m] else [])
  {
  }

  // Unmounting a path takes its latest mount and leaves every other path alone.
  lemma {:induction false} MountsAtWithoutLast(table: Table, path: string, other: string)
    ensures var ms := MountsAt(table, other);
      MountsAt(WithoutLast(table, path), other) == if other == path && ms != [] then ms[..|ms| - 1] else ms
  {
    if table != [] {
      var init, last := table[..|table| - 1], table[|table| - 1];
      if last.path != path {
        MountsAtWithoutLast(init, path, other);
        MountsAtAppended(WithoutLast(init, path), last, other);
      }
    }
  }

  lemma {:induction false} WithoutLastMembers(table: Table, path: string)
    ensures forall m :: m in WithoutLast(table, path) ==> m in table
  {
    if table != [] {
      WithoutLastMembers(table[..|table| - 1], path);
    }
  }

  lemma {:induction false} RefCountPositive(table: Table, device: string)
    ensures RefCount(table, device) > 0 <==> exists m :: m in table && m.device == device
  {
    if table != [] {
      var init, last := table[..|table| - 1], table[|table| - 1];
      assert table == init + [last];
      RefCountPositive(init, device);
    }
  }

  // The source's test for "not mounted", a reference count of 0, is exact.
  lemma RefCountOfPath(os: Os, path: string)
    requires TableInv(os)
    ensures RefCount(os.table, DeviceAt(os.table, path)) == 0 <==> !MountedAt(os.table, path)
  {
    RefCountPositive(os.table, DeviceAt(os.table, path));
    var ms := MountsAt(os.table, path);
    if ms != [] {
      MountsAtMember(os.table, path, ms[0]);
    }
  }

  // ---------- the Mounter's calls ----------

  datatype MountError = NotMounted | NotExist | CorruptedMount | OtherError

  // MakePath stands for MakeDir and MakeFile, BindMount for the Mount with option
  // "bind", RemovePath for os.Remove; IsBlockDevice and BlockSize are the service's own
  // questions to the system.
  datatype Op =
    | ScanStorageDevices
    | RemoveStorageDevice(device: string)
    | FindDevicePath(id: string)
    | ExistsPath(path: string)
    | MakePath(path: string)
    | RemovePath(path: string)
    | GetDeviceName(path: string)
    | IsLikelyNotMountPoint(path: string)
    | FormatAndMount(source: string, target: string, fsType: string)
    | BindMount(source: string, target: string, fsType: string, options: seq<string>)
    | Unmount(path: string)
    | NeedResize(device: string, path: string)
    | Resize(device: string, path: string)
    | IsBlockDevice(path: string)
    | RescanStorageDevice(device: string)
    | BlockSize(path: string)

  // What the caller is told.
  datatype Told =
    | Done
    | Failed(error: MountError)
    | Found(device: string)
    | Device(name: string, refCount: nat)
    | Answer(yes: bool)

  function Outcome(err: Option<MountError>): Told {
    if err.None? then Done else Failed(err.value)
  }

  function Answered(yes: bool, err: Option<MountError>): Told {
    if err.None? then Answer(yes) else Failed(err.value)
  }

  // The node's fixed surroundings: the device of each SCSI id, the devices attached,
  // and the device that bind mounts of host files show.
  datatype Surroundings = Surroundings(scsi: map<string, string>, attached: set<string>, host: string)

  // The change that a call which may fail without effect makes when it succeeds.
  predicate Makes(s: Os, told: Told, s': Os, done: Os) {
    (told == Done && s' == done) || (told.Failed? && s' == s)
  }

  // The contract of the Mounter: what each call may tell its caller and do to the node.
  ghost predicate Spec(x: Surroundings, s: Os, op: Op, told: Told, s': Os) {
    match op
    case ScanStorageDevices =>
      && s' == s.(present := s'.present) && s.present <= s'.present <= s.present + x.attached
      && (told == Done || told.Failed?) && (told == Done ==> s'.present == s.present + x.attached)
    case RemoveStorageDevice(device) => Makes(s, told, s', s.(present := s.present - {device}))
    case FindDevicePath(id) =>
      s' == s && (told.Failed? || (id in x.scsi && told == Found(x.scsi[id]) && x.scsi[id] in s.present))
    case ExistsPath(path) =>
      && s' == s && (told.Answer? || told.Failed?)
      && (told.Answer? ==> (told.yes <==> path in s.paths) && !CorruptedAt(s.table, path))
      && (told == Failed(CorruptedMount) ==> CorruptedAt(s.table, path))
    case MakePath(path) => Makes(s, told, s', s.(paths := s.paths + {path}))
    case RemovePath(path) =>
      Makes(s, told, s', s.(paths := s.paths - {path})) && (told == Done ==> !MountedAt(s.table, path))
    case GetDeviceName(path) =>
      s' == s && (told.Failed? || told == Device(DeviceAt(s.table, path), RefCount(s.table, DeviceAt(s.table, path))))
    case IsLikelyNotMountPoint(path) =>
      && s' == s && (told.Answer? || told.Failed?)
      && (told.Answer? ==> (told.yes <==> !MountedAt(s.table, path)) && !CorruptedAt(s.table, path))
      && (told == Failed(NotExist) ==> path !in s.paths)
    case FormatAndMount(source, target, _) =>
      && Makes(s, told, s', s.(table := s.table + [Formatted(source, target)]))
      && (told == Done ==> target in s.paths && source in s.present)
    case BindMount(source, target, _, options) =>
      && Makes(s, told, s', s.(table := s.table + [Bound(s.table, source, target, x.host, options)]))
      && (told == Done ==> target in s.paths)
    case Unmount(path) =>
      && Makes(s, told, s', s.(table := WithoutLast(s.table, path)))
      && (told == Done ==> MountedAt(s.table, path)) && (told == Failed(NotMounted) ==> !MountedAt(s.table, path))
    case NeedResize(_, _) => s' == s && (told.Answer? || told.Failed?)
    case Resize(_, _) => s' == s && (told == Done || told.Failed?)
    case IsBlockDevice(_) => s' == s && (told.Answer? || told.Failed?)
    case RescanStorageDevice(_) => s' == s && (told == Done || told.Failed?)
    case BlockSize(_) => s' == s && (told == Done || told.Failed?)
  }

  // What a node can look like.
  predicate OsInv(x: Surroundings, s: Os) {
    TableInv(s) && x.host != "" && "" !in s.present && "" !in x.attached
  }

  lemma SpecKeepsOs(x: Surroundings, s: Os, op: Op, told: Told, s': Os)
    requires OsInv(x, s) && Spec(x, s, op, told, s')
    ensures OsInv(x, s')
  {
    match op
    case RemovePath(path) =>
      forall m | m in s'.table && told == Done
        ensures m.path != path
      {
        MountsAtMember(s.table, path, m);
      }
    case BindMount(source, _, _, _) =>
      var ms := MountsAt(s.table, source);
      if ms != [] {
        MountsAtMember(s.table, source, ms[|ms| - 1]);
      }
    case Unmount(path) => WithoutLastMembers(s.table, path);
    case _ =>
  }
}
