/**
  The Mounter, as the node's handlers call it.  Every call may fail; the contracts say
  what an outcome tells about the node and what it leaves behind.  The Mounter takes
  only the call that the handler's step machine makes next.
 */
module NodeMounter {
  import opened Wrappers
  import opened Mounts
  import opened NodeSteps

  class Mounter {
    var table: Table
    var paths: set<string>
    var present: set<string>
    const x: Surroundings
    // The handler that runs, where it stands, and what it did to get there.
    ghost var call: Call
    ghost var pc: PC
    ghost var log: seq<Deal>

    function State(): Os
      reads this
    {
      Os(table, paths, present)
    }

    ghost predicate Valid()
      reads this
    {
      OsInv(x, State()) && pc == Walk(call, log)
    }

    constructor (x: Surroundings)
      requires x.host != "" && "" !in x.attached
      ensures Valid() && table == [] && present == {} && this.x == x
    {
      this.x := x;
      table, paths, present := [], {}, {};
      log := [];
      new;
      pc := Start(call);
    }

    // Something the model does not determine.
    static method Fails() returns (fails: bool) {
      fails := *;
    }

    // A handler begins, with the checks of its arguments.
    ghost method Begin(call: Call)
      modifies this`call, this`pc, this`log
      ensures this.call == call && pc == Start(call) && log == [] && pc == Walk(call, log)
    {
      this.call := call;
      pc := Start(call);
      log := [];
    }

    // The handler goes on by what it was told, if the call was the one it makes next and
    // did what its contract allows.
    ghost method GoOn(op: Op, told: Told, before: Os)
      requires OsInv(x, before) && Asks(call, pc) == Some(op) && Spec(x, before, op, told, State())
      requires pc == Walk(call, log)
      modifies this`pc, this`log
      ensures Valid() && pc == Next(call, old(pc), told) && log == old(log) + [Asked(op, told)]
    {
      SpecKeepsOs(x, before, op, told, State());
      SpecFits(x, before, op, told, State());
      WalksOn(call, log, Asked(op, told));
      pc := Next(call, pc, told);
      log := log + [Asked(op, told)];
    }

    // The handler goes on by what the lock set told it.
    ghost method LockDeal(deal: Deal)
      requires Valid() && !deal.Asked?
      modifies this`pc, this`log
      ensures Valid() && pc == Goes(call, old(pc), deal) && log == old(log) + [deal]
    {
      WalksOn(call, log, deal);
      pc := Goes(call, pc, deal);
      log := log + [deal];
    }

    // Brings attached devices online.
    method ScanStorageDevices() returns (err: Option<MountError>)
      requires Valid() && Asks(call, pc) == Some(Op.ScanStorageDevices)
      modifies this`present, this`pc, this`log
      ensures Valid() && old(present) <= present <= old(present) + x.attached
      ensures err.None? ==> present == old(present) + x.attached
      ensures pc == Next(call, old(pc), Outcome(err))
      ensures log == old(log) + [Asked(Op.ScanStorageDevices, Outcome(err))]
    {
      var fails := Fails();
      err := if fails then Some(OtherError) else None;
      if !fails {
        present := present + x.attached;
      }
      GoOn(Op.ScanStorageDevices, Outcome(err), old(State()));
    }

    method RemoveStorageDevice(device: string) returns (err: Option<MountError>)
      requires Valid() && Asks(call, pc) == Some(Op.RemoveStorageDevice(device))
      modifies this`present, this`pc, this`log
      ensures Valid() && present == if err.None? then old(present) - {device} else old(present)
      ensures pc == Next(call, old(pc), Outcome(err))
      ensures log == old(log) + [Asked(Op.RemoveStorageDevice(device), Outcome(err))]
    {
      var fails := Fails();
      err := if fails then Some(OtherError) else None;
      if !fails {
        present := present - {device};
      }
      GoOn(Op.RemoveStorageDevice(device), Outcome(err), old(State()));
    }

    method FindDevicePath(id: string) returns (device: Option<string>)
      requires Valid() && Asks(call, pc) == Some(Op.FindDevicePath(id))
      modifies this`pc, this`log
      ensures Valid()
      ensures device.Some? ==> id in x.scsi && x.scsi[id] == device.value && device.value in present
      ensures pc == Next(call, old(pc), if device.Some? then Found(device.value) else Failed(OtherError))
      ensures log == old(log) +
        [Asked(Op.FindDevicePath(id), if device.Some? then Found(device.value) else Failed(OtherError))]
    {
      var fails := Fails();
      device := if fails || id !in x.scsi || x.scsi[id] !in present then None else Some(x.scsi[id]);
      GoOn(Op.FindDevicePath(id), if device.Some? then Found(device.value) else Failed(OtherError), old(State()));
    }

    method ExistsPath(path: string) returns (exists_: bool, err: Option<MountError>)
      requires Valid() && Asks(call, pc) == Some(Op.ExistsPath(path))
      modifies this`pc, this`log
      ensures Valid()
      ensures err.None? ==> (exists_ <==> path in paths) && !CorruptedAt(table, path)
      ensures err == Some(CorruptedMount) ==> CorruptedAt(table, path)
      ensures pc == Next(call, old(pc), Answered(exists_, err))
      ensures log == old(log) + [Asked(Op.ExistsPath(path), Answered(exists_, err))]
    {
      var fails := Fails();
      exists_ := path in paths;
      err := if fails then Some(OtherError) else if CorruptedAt(table, path) then Some(CorruptedMount) else None;
      GoOn(Op.ExistsPath(path), Answered(exists_, err), old(State()));
    }

    method MakeDir(path: string) returns (err: Option<MountError>)
      requires Valid() && Asks(call, pc) == Some(MakePath(path))
      modifies this`paths, this`pc, this`log
      ensures Valid() && paths == if err.None? then old(paths) + {path} else old(paths)
      ensures pc == Next(call, old(pc), Outcome(err))
      ensures log == old(log) + [Asked(MakePath(path), Outcome(err))]
    {
      var fails := Fails();
      err := if fails then Some(OtherError) else None;
      if !fails {
        paths := paths + {path};
      }
      GoOn(MakePath(path), Outcome(err), old(State()));
    }

    method MakeFile(path: string) returns (err: Option<MountError>)
      requires Valid() && Asks(call, pc) == Some(MakePath(path))
      modifies this`paths, this`pc, this`log
      ensures Valid() && paths == if err.None? then old(paths) + {path} else old(paths)
      ensures pc == Next(call, old(pc), Outcome(err))
      ensures log == old(log) + [Asked(MakePath(path), Outcome(err))]
    {
      err := MakeDir(path);
    }

    // os.Remove: a mount point is busy.
    method Remove(path: string) returns (err: Option<MountError>)
      requires Valid() && Asks(call, pc) == Some(RemovePath(path))
      modifies this`paths, this`pc, this`log
      ensures Valid() && paths == if err.None? then old(paths) - {path} else old(paths)
      ensures err.None? ==> !MountedAt(table, path)
      ensures pc == Next(call, old(pc), Outcome(err))
      ensures log == old(log) + [Asked(RemovePath(path), Outcome(err))]
    {
      var fails := Fails();
      err := if fails || MountedAt(table, path) then Some(OtherError) else None;
      if err.None? {
        paths := paths - {path};
      }
      GoOn(RemovePath(path), Outcome(err), old(State()));
    }

    method GetDeviceName(path: string) returns (device: string, refCount: nat, err: Option<MountError>)
      requires Valid() && Asks(call, pc) == Some(Op.GetDeviceName(path))
      modifies this`pc, this`log
      ensures Valid()
      ensures err.None? ==> device == DeviceAt(table, path) && refCount == RefCount(table, device)
      ensures pc == Next(call, old(pc), if err.None? then Device(device, refCount) else Failed(err.value))
      ensures log == old(log) +
        [Asked(Op.GetDeviceName(path), if err.None? then Device(device, refCount) else Failed(err.value))]
    {
      var fails := Fails();
      device, refCount := DeviceAt(table, path), RefCount(table, DeviceAt(table, path));
      err := if fails then Some(OtherError) else None;
      GoOn(Op.GetDeviceName(path), if err.None? then Device(device, refCount) else Failed(err.value), old(State()));
    }

    method IsLikelyNotMountPoint(path: string) returns (notMnt: bool, err: Option<MountError>)
      requires Valid() && Asks(call, pc) == Some(Op.IsLikelyNotMountPoint(path))
      modifies this`pc, this`log
      ensures Valid()
      ensures err.None? ==> (notMnt <==> !MountedAt(table, path)) && !CorruptedAt(table, path)
      ensures err == Some(NotExist) ==> path !in paths
      ensures pc == Next(call, old(pc), Answered(notMnt, err))
      ensures log == old(log) + [Asked(Op.IsLikelyNotMountPoint(path), Answered(notMnt, err))]
    {
      var fails := Fails();
      notMnt := !MountedAt(table, path);
      err := if path !in paths then Some(NotExist)
        else if fails || CorruptedAt(table, path) then Some(OtherError) else None;
      GoOn(Op.IsLikelyNotMountPoint(path), Answered(notMnt, err), old(State()));
    }

    method FormatAndMount(source: string, target: string, fsType: string) returns (err: Option<MountError>)
      requires Valid() && Asks(call, pc) == Some(Op.FormatAndMount(source, target, fsType))
      modifies this`table, this`pc, this`log
      ensures Valid()
      ensures table == if err.None? then old(table) + [Formatted(source, target)] else old(table)
      ensures pc == Next(call, old(pc), Outcome(err))
      ensures log == old(log) + [Asked(Op.FormatAndMount(source, target, fsType), Outcome(err))]
    {
      var fails := Fails();
      err := if fails || target !in paths || source !in present then Some(OtherError) else None;
      if err.None? {
        table := table + [Formatted(source, target)];
      }
      GoOn(Op.FormatAndMount(source, target, fsType), Outcome(err), old(State()));
    }

    // A bind mount; it needs a source that answers.
    method BindMount(source: string, target: string, fsType: string, options: seq<string>)
      returns (err: Option<MountError>)
      requires Valid() && Asks(call, pc) == Some(Op.BindMount(source, target, fsType, options))
      modifies this`table, this`pc, this`log
      ensures Valid()
      ensures err.None? ==> table == old(table) + [Bound(old(table), source, target, x.host, options)]
      ensures err.Some? ==> table == old(table)
      ensures pc == Next(call, old(pc), Outcome(err))
      ensures log == old(log) + [Asked(Op.BindMount(source, target, fsType, options), Outcome(err))]
    {
      var fails := Fails();
      err := if fails || target !in paths || CorruptedAt(table, source) then Some(OtherError) else None;
      if err.None? {
        table := table + [Bound(table, source, target, x.host, options)];
      }
      GoOn(Op.BindMount(source, target, fsType, options), Outcome(err), old(State()));
    }

    method Unmount(path: string) returns (err: Option<MountError>)
      requires Valid() && Asks(call, pc) == Some(Op.Unmount(path))
      modifies this`table, this`pc, this`log
      ensures Valid()
      ensures err.None? ==> MountedAt(old(table), path) && table == WithoutLast(old(table), path)
      ensures err.Some? ==> table == old(table)
      ensures err == Some(NotMounted) ==> !MountedAt(table, path)
      ensures pc == Next(call, old(pc), Outcome(err))
      ensures log == old(log) + [Asked(Op.Unmount(path), Outcome(err))]
    {
      var fails := Fails();
      err := if !MountedAt(table, path) then Some(NotMounted) else if fails then Some(OtherError) else None;
      if err.None? {
        table := WithoutLast(table, path);
      }
      GoOn(Op.Unmount(path), Outcome(err), old(State()));
    }

    method NeedResize(device: string, path: string) returns (need: bool, err: Option<MountError>)
      requires Valid() && Asks(call, pc) == Some(Op.NeedResize(device, path))
      modifies this`pc, this`log
      ensures Valid()
      ensures pc == Next(call, old(pc), Answered(need, err))
      ensures log == old(log) + [Asked(Op.NeedResize(device, path), Answered(need, err))]
    {
      need := *;
      var fails := Fails();
      err := if fails then Some(OtherError) else None;
      GoOn(Op.NeedResize(device, path), Answered(need, err), old(State()));
    }

    method Resize(device: string, path: string) returns (err: Option<MountError>)
      requires Valid() && Asks(call, pc) == Some(Op.Resize(device, path))
      modifies this`pc, this`log
      ensures Valid()
      ensures pc == Next(call, old(pc), Outcome(err))
      ensures log == old(log) + [Asked(Op.Resize(device, path), Outcome(err))]
    {
      var fails := Fails();
      err := if fails then Some(OtherError) else None;
      GoOn(Op.Resize(device, path), Outcome(err), old(State()));
    }

    method IsBlockDevice(path: string) returns (isBlock: bool, err: Option<MountError>)
      requires Valid() && Asks(call, pc) == Some(Op.IsBlockDevice(path))
      modifies this`pc, this`log
      ensures Valid()
      ensures pc == Next(call, old(pc), Answered(isBlock, err))
      ensures log == old(log) + [Asked(Op.IsBlockDevice(path), Answered(isBlock, err))]
    {
      isBlock := *;
      var fails := Fails();
      err := if fails then Some(OtherError) else None;
      GoOn(Op.IsBlockDevice(path), Answered(isBlock, err), old(State()));
    }

    method RescanStorageDevice(device: string) returns (err: Option<MountError>)
      requires Valid() && Asks(call, pc) == Some(Op.RescanStorageDevice(device))
      modifies this`pc, this`log
      ensures Valid()
      ensures pc == Next(call, old(pc), Outcome(err))
      ensures log == old(log) + [Asked(Op.RescanStorageDevice(device), Outcome(err))]
    {
      var fails := Fails();
      err := if fails then Some(OtherError) else None;
      GoOn(Op.RescanStorageDevice(device), Outcome(err), old(State()));
    }

    // The size itself is reported and not used.
    method BlockSize(path: string) returns (err: Option<MountError>)
      requires Valid() && Asks(call, pc) == Some(Op.BlockSize(path))
      modifies this`pc, this`log
      ensures Valid()
      ensures pc == Next(call, old(pc), Outcome(err))
      ensures log == old(log) + [Asked(Op.BlockSize(path), Outcome(err))]
    {
      var fails := Fails();
      err := if fails then Some(OtherError) else None;
      GoOn(Op.BlockSize(path), Outcome(err), old(State()));
    }
  }
}
