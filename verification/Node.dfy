/**
  The node service: staging, publishing and their undoing, as the source's handlers
  run them on the Mounter.  Each is proved to do what its step machine says, and, when
  it runs alone, to keep a relation between the mount tables before and after.
 */
module Node {
  import opened Wrappers
  import opened Mounts
  import opened Locks
  import opened NodeMounter
  import opened NodeSteps
  import opened NodeTalks
  import Controller
  import MountOptions

  // ---------- what each call does to the node ----------

  // NodeStageVolume on the table: at most one mount is added, of the device found, on
  // the staging path; a filesystem request that succeeds leaves that device on the
  // path, or had it there.
  ghost predicate StageTablePost(scsi: map<string, string>, s: Os, req: StageRequest, s': Os, r: Reply) {
    && (s'.table != s.table ==>
      && req.cap.Some? && req.cap.value.access.MountAccess?
      && req.devicePath.Some? && req.devicePath.value in scsi
      && DeviceAt(s.table, req.target) != scsi[req.devicePath.value]
      && s'.table == s.table + [Formatted(scsi[req.devicePath.value], req.target)])
    && (r == Ok && s'.table == s.table && req.cap.Some? && req.cap.value.access.MountAccess? ==>
      && req.devicePath.Some? && req.devicePath.value in scsi
      && DeviceAt(s.table, req.target) == scsi[req.devicePath.value])
    && (r == Ok ==> req.cap.Some?)
  }

  // ... and on the devices: its scan brings the attached ones online.
  ghost predicate StagePost(scsi: map<string, string>, attached: set<string>, s: Os, req: StageRequest, s': Os,
                            r: Reply) {
    && StageTablePost(scsi, s, req, s', r)
    && s.present <= s'.present <= s.present + attached
    && (r == Ok ==> s'.present == s.present + attached)
  }

  // NodeUnstageVolume: the latest mount of the staging path goes, and on success the
  // device goes offline with it; a path with nothing mounted is left as it is.
  ghost predicate UnstagePost(s: Os, target: string, s': Os, r: Reply) {
    && (s'.table == s.table || (MountedAt(s.table, target) && s'.table == WithoutLast(s.table, target)))
    && (r == Ok && MountedAt(s.table, target) ==>
      && s'.table == WithoutLast(s.table, target)
      && s'.present == s.present - {DeviceAt(s.table, target)})
    && (r != Ok || !MountedAt(s.table, target) ==> s'.present == s.present)
  }

  // The table a publish mounts on: a corrupted mount on the target comes off first.
  function Cleaned(table: Table, target: string): Table {
    if CorruptedAt(table, target) then WithoutLast(table, target) else table
  }

  // A publish of either kind, of `source` on `target`.  A failing one adds nothing; one
  // that succeeds finds a healthy mount on the target or makes one.
  ghost predicate PublishPost(s: Os, source: string, target: string, host: string, options: seq<string>, s': Os,
                              r: Reply) {
    var cleaned := Cleaned(s.table, target);
    && s'.present == s.present
    && (r != Ok ==> s'.table == s.table || s'.table == cleaned)
    && (r == Ok ==>
      if HealthyAt(s.table, target) then s'.table == s.table
      else s'.table == cleaned + [Bound(cleaned, source, target, host, options)])
  }

  // The device a block publish is for, if its devicePath leads to one.
  function BlockSource(scsi: map<string, string>, req: PublishRequest): string {
    if req.devicePath.Some? && req.devicePath.value in scsi then scsi[req.devicePath.value] else ""
  }

  // A block publish: of the device of the request's devicePath, which there must be.  A
  // mount that it makes shows just that device file, unless something is mounted on it.
  ghost predicate BlockPublishPost(scsi: map<string, string>, s: Os, req: PublishRequest, host: string,
                                   options: seq<string>,
                                   s': Os, r: Reply) {
    && PublishPost(s, BlockSource(scsi, req), req.target, host, options, s', r)
    && (r == Ok ==> req.devicePath.Some? && req.devicePath.value in scsi)
    && (r == Ok && !HealthyAt(s.table, req.target) ==>
      var cleaned, device := Cleaned(s.table, req.target), scsi[req.devicePath.value];
      !MountedAt(cleaned, device) ==> s'.table == cleaned + [Mount(req.target, host, device, options, true)])
  }

  // NodeUnpublishVolume.
  ghost predicate UnpublishPost(s: Os, target: string, s': Os, r: Reply) {
    && s'.present == s.present
    && (r != Ok ==> s'.table == s.table)
    && (r == Ok ==> s'.table == if MountedAt(s.table, target) then WithoutLast(s.table, target) else s.table)
  }

  // ---------- the handlers ----------

  class NodeService {
    var mounter: Mounter
    var volumeLocks: VolumeLocks

    constructor (mounter: Mounter, volumeLocks: VolumeLocks)
      ensures this.mounter == mounter && this.volumeLocks == volumeLocks
    {
      this.mounter := mounter;
      this.volumeLocks := volumeLocks;
    }

    // The handler of this call stands here.
    ghost predicate At(call: Call, pc: PC)
      reads this, mounter
    {
      mounter.Valid() && mounter.call == call && mounter.pc == pc
    }

    method TryAcquire(ghost call: Call, volume: string) returns (acquired: bool)
      requires At(call, Locking)
      modifies mounter`pc, mounter`log, volumeLocks
      ensures acquired <==> volume !in old(volumeLocks.locks)
      ensures volumeLocks.locks == if acquired then old(volumeLocks.locks) + {volume} else old(volumeLocks.locks)
      ensures At(call, AfterTry(call, acquired))
    {
      acquired := volumeLocks.TryAcquire(volume);
      mounter.LockDeal(Tried(acquired));
      assert volume in old(volumeLocks.locks) ==> old(volumeLocks.locks) + {volume} == old(volumeLocks.locks);
    }

    // The deferred Release, which undoes what TryAcquire did to these locks.
    method Release(ghost call: Call, volume: string, ghost r: Reply, ghost before: set<string>)
      requires At(call, Unlocking(r)) && volume !in before && volumeLocks.locks == before + {volume}
      modifies mounter`pc, mounter`log, volumeLocks
      ensures volumeLocks.locks == before
      ensures At(call, Replied(r))
    {
      volumeLocks.Release(volume);
      mounter.LockDeal(Freed);
    }

    // Every handler leaves the lock set as it found it, on every path, and while
    // another call holds the volume it answers Aborted without touching a mount.
    method NodeStageVolume(req: StageRequest) returns (r: Reply)
      requires mounter.Valid()
      modifies mounter, volumeLocks
      ensures mounter.Valid() && volumeLocks.locks == old(volumeLocks.locks)
      ensures At(Stage(req), Replied(r))
      ensures Replies(Stage(req), mounter.log, r)
      ensures StagePost(mounter.x.scsi, mounter.x.attached, old(mounter.State()), req, mounter.State(), r)
      ensures req.volume in old(volumeLocks.locks) ==> mounter.table == old(mounter.table)
      ensures r == Fail(Controller.Aborted) ==> req.volume in old(volumeLocks.locks)
    {
      AllReplies(Stage(req));
      mounter.Begin(Stage(req));
      if |req.volume| == 0 || |req.target| == 0 || req.cap.None? || req.cap.value.mode != Controller.SingleNodeWriter {
        return Fail(Controller.InvalidArgument);
      }
      var err := mounter.ScanStorageDevices();
      if err.Some? {
        return Fail(Controller.Internal);
      }
      r := StageScanned(req);
    }

    // NodeStageVolume after its scan.
    method StageScanned(req: StageRequest) returns (r: Reply)
      requires At(Stage(req), AfterScan(Stage(req))) && req.cap.Some?
      modifies mounter, volumeLocks
      ensures At(Stage(req), Replied(r))
      ensures volumeLocks.locks == old(volumeLocks.locks) && mounter.present == old(mounter.present)
      ensures StageTablePost(mounter.x.scsi, old(mounter.State()), req, mounter.State(), r)
      ensures req.volume in old(volumeLocks.locks) ==> mounter.table == old(mounter.table)
      ensures r == Fail(Controller.Aborted) ==> req.volume in old(volumeLocks.locks)
    {
      match req.cap.value.access {
        case BlockAccess => return Ok;
        case NoAccess => return Fail(Controller.InvalidArgument);
        case MountAccess(mount) =>
          if mount.None? {
            return Fail(Controller.InvalidArgument);
          }
          var fsType := FsTypeOf(mount);
          var acquired := TryAcquire(Stage(req), req.volume);
          if !acquired {
            return Fail(Controller.Aborted);
          }
          r := StageLocked(req, fsType);
          Release(Stage(req), req.volume, r, old(volumeLocks.locks));
      }
    }

    // NodeStageVolume under the volume's lock.
    method StageLocked(req: StageRequest, fsType: string) returns (r: Reply)
      requires At(Stage(req), AfterLock(Stage(req))) && req.cap.Some? && req.cap.value.access.MountAccess?
      requires fsType == FsTypeFor(Stage(req))
      modifies mounter
      ensures At(Stage(req), Unlocking(r)) && mounter.present == old(mounter.present)
      ensures Replies(Stage(req), mounter.log, r)
      ensures StageTablePost(mounter.x.scsi, old(mounter.State()), req, mounter.State(), r)
      ensures r != Fail(Controller.Aborted)
    {
      AllReplies(Stage(req));
      if req.devicePath.None? {
        return Fail(Controller.InvalidArgument);
      }
      var source := FindAndPrepare(req);
      if source.None? {
        return Fail(Controller.Internal);
      }
      r := MountStaged(req, source.value, fsType);
    }

    // The device to stage, once its path has been made.
    method FindAndPrepare(req: StageRequest) returns (source: Option<string>)
      requires At(Stage(req), FindingDevice) && req.devicePath.Some?
      modifies mounter`paths, mounter`pc, mounter`log
      ensures At(Stage(req), if source.Some? then ReadingDevice(source.value) else Unlocking(Fail(Controller.Internal)))
      ensures source.Some? ==>
        req.devicePath.value in mounter.x.scsi && mounter.x.scsi[req.devicePath.value] == source.value
    {
      source := mounter.FindDevicePath(req.devicePath.value);
      if source.None? {
        return None;
      }
      var made := MakeMissingDir(Stage(req), source.value, req.target);
      if !made {
        return None;
      }
    }

    // The directory that a handler needs: the staging path, or a block target's parent.
    method MakeMissingDir(ghost call: Call, ghost device: string, path: string) returns (made: bool)
      requires At(call, CheckingPath(device)) && DirFor(call) == path
      modifies mounter`paths, mounter`pc, mounter`log
      ensures At(call, if made then AfterDir(call, device) else Unlocking(Fail(Controller.Internal)))
    {
      var pathExists, err := mounter.ExistsPath(path);
      if err.Some? {
        return false;
      }
      if !pathExists {
        err := mounter.MakeDir(path);
        if err.Some? {
          return false;
        }
      }
      return true;
    }

    // NodeStageVolume from the check of what is mounted on the staging path.
    method MountStaged(req: StageRequest, source: string, fsType: string) returns (r: Reply)
      requires At(Stage(req), ReadingDevice(source)) && fsType == FsTypeFor(Stage(req))
      modifies mounter`table, mounter`pc, mounter`log
      ensures At(Stage(req), Unlocking(r)) && r != Fail(Controller.Aborted)
      ensures mounter.table == old(mounter.table)
        || (DeviceAt(old(mounter.table), req.target) != source
            && mounter.table == old(mounter.table) + [Formatted(source, req.target)])
      ensures r == Ok && mounter.table == old(mounter.table) ==> DeviceAt(mounter.table, req.target) == source
    {
      var device, _, nameErr := mounter.GetDeviceName(req.target);
      if nameErr.Some? {
        return Fail(Controller.Internal);
      }
      if device == source {
        return Ok;
      }
      var err := mounter.FormatAndMount(source, req.target, fsType);
      if err.Some? {
        return Fail(Controller.Internal);
      }
      r := FitFileSystem(req, source);
    }

    // NodeStageVolume after the mount.
    method FitFileSystem(req: StageRequest, source: string) returns (r: Reply)
      requires At(Stage(req), CheckingSize(source))
      modifies mounter`pc, mounter`log
      ensures At(Stage(req), Unlocking(r)) && r != Fail(Controller.Aborted)
      ensures r == Ok ==>
        || mounter.log == old(mounter.log) + [Asked(NeedResize(source, req.target), Answer(false))]
        || mounter.log == old(mounter.log) + [Asked(NeedResize(source, req.target), Answer(true)),
                                              Asked(Resize(source, req.target), Done)]
    {
      var needResize, err := mounter.NeedResize(source, req.target);
      if err.Some? {
        return Fail(Controller.Internal);
      }
      if needResize {
        err := mounter.Resize(source, req.target);
        if err.Some? {
          return Fail(Controller.Internal);
        }
      }
      return Ok;
    }

    method NodeUnstageVolume(volume: string, target: string) returns (r: Reply)
      requires mounter.Valid()
      modifies mounter, volumeLocks
      ensures mounter.Valid() && volumeLocks.locks == old(volumeLocks.locks)
      ensures At(Unstage(volume, target), Replied(r))
      ensures Replies(Unstage(volume, target), mounter.log, r)
      ensures UnstagePost(old(mounter.State()), target, mounter.State(), r)
      ensures volume in old(volumeLocks.locks) ==> mounter.State() == old(mounter.State())
      ensures r == Fail(Controller.Aborted) <==> volume in old(volumeLocks.locks) && volume != "" && target != ""
    {
      AllReplies(Unstage(volume, target));
      mounter.Begin(Unstage(volume, target));
      if |volume| == 0 || |target| == 0 {
        return Fail(Controller.InvalidArgument);
      }
      var acquired := TryAcquire(Unstage(volume, target), volume);
      if !acquired {
        return Fail(Controller.Aborted);
      }
      r := UnstageLocked(volume, target);
      Release(Unstage(volume, target), volume, r, old(volumeLocks.locks));
    }

    method UnstageLocked(ghost volume: string, target: string) returns (r: Reply)
      requires At(Unstage(volume, target), ReadingReferences)
      modifies mounter`table, mounter`present, mounter`pc, mounter`log
      ensures At(Unstage(volume, target), Unlocking(r))
      ensures UnstagePost(old(mounter.State()), target, mounter.State(), r)
      ensures r != Fail(Controller.Aborted)
    {
      RefCountOfPath(mounter.State(), target);
      var dev, refCount, err := mounter.GetDeviceName(target);
      if err.Some? {
        return Fail(Controller.Internal);
      }
      if refCount == 0 {
        return Ok;
      }
      // more than one reference is only logged
      r := TakeOff(volume, target, dev);
    }

    // NodeUnstageVolume from the unmount on.
    method TakeOff(ghost volume: string, target: string, dev: string) returns (r: Reply)
      requires At(Unstage(volume, target), TakingOff(dev)) && MountedAt(mounter.table, target)
      modifies mounter`table, mounter`present, mounter`pc, mounter`log
      ensures At(Unstage(volume, target), Unlocking(r)) && r != Fail(Controller.Aborted)
      ensures mounter.table == old(mounter.table) || mounter.table == WithoutLast(old(mounter.table), target)
      ensures if r == Ok
        then mounter.table == WithoutLast(old(mounter.table), target) && mounter.present == old(mounter.present) - {dev}
        else mounter.present == old(mounter.present)
    {
      var err := mounter.Unmount(target);
      if err.Some? && err != Some(NotMounted) {
        return Fail(Controller.Internal);
      }
      err := mounter.RemoveStorageDevice(dev);
      if err.Some? {
        return Fail(Controller.Internal);
      }
      return Ok;
    }

    method NodePublishVolume(req: PublishRequest) returns (r: Reply)
      requires mounter.Valid()
      modifies mounter, volumeLocks
      ensures mounter.Valid() && volumeLocks.locks == old(volumeLocks.locks)
      ensures At(Publish(req), Replied(r))
      ensures Replies(Publish(req), mounter.log, r)
      ensures r == Ok ==> req.cap.Some?
      ensures req.cap.Some? && req.cap.value.access.MountAccess? ==>
        PublishPost(old(mounter.State()), req.staging, req.target, mounter.x.host,
                    MountOptions.Merged(MountOptions.BaseOptions(req.readonly), FlagsOf(req.cap.value.access.mount)),
                    mounter.State(), r)
      ensures req.cap.Some? && req.cap.value.access.BlockAccess? ==>
        BlockPublishPost(mounter.x.scsi, old(mounter.State()), req, mounter.x.host,
                         MountOptions.BaseOptions(req.readonly), mounter.State(), r)
      ensures req.cap.None? || req.cap.value.access.NoAccess? ==> mounter.State() == old(mounter.State())
      ensures ValidPublish(req) && req.cap.value.access.NoAccess? && req.volume !in old(volumeLocks.locks) ==> r == Ok
      ensures req.volume in old(volumeLocks.locks) ==> mounter.State() == old(mounter.State())
      ensures r == Fail(Controller.Aborted) <==> req.volume in old(volumeLocks.locks) && ValidPublish(req)
    {
      AllReplies(Publish(req));
      mounter.Begin(Publish(req));
      if |req.volume| == 0 || |req.staging| == 0 || |req.target| == 0 || req.cap.None? {
        return Fail(Controller.InvalidArgument);
      }
      if req.cap.value.mode != Controller.SingleNodeWriter {
        return Fail(Controller.InvalidArgument);
      }
      var acquired := TryAcquire(Publish(req), req.volume);
      if !acquired {
        return Fail(Controller.Aborted);
      }
      var mountOptions := ["bind"];
      if req.readonly {
        mountOptions := mountOptions + ["ro"];
      }
      assert mountOptions == MountOptions.BaseOptions(req.readonly);
      match req.cap.value.access {
        case BlockAccess => r := PublishBlock(req, mountOptions);
        case MountAccess(mount) => r := PublishFileSystem(req, mountOptions, mount);
        case NoAccess => r := Ok;
      }
      Release(Publish(req), req.volume, r, old(volumeLocks.locks));
    }

    // Whether the target is mounted; a corrupted mount there is unmounted on the way.
    method IsMounted(ghost req: PublishRequest, ghost source: string, target: string) returns (mounted: bool, err: bool)
      requires At(Publish(req), CheckingMount(source)) && req.target == target
      modifies mounter
      ensures At(Publish(req),
        if err then Unlocking(Fail(Controller.Internal))
        else if mounted then Unlocking(Ok)
        else ToMount(Publish(req), source))
      ensures mounter.present == old(mounter.present) && mounter.paths == old(mounter.paths)
      ensures err ==> mounter.table == old(mounter.table)
      ensures !err && mounted ==> mounter.table == old(mounter.table)
      ensures !err ==> (mounted <==> MountedAt(old(mounter.table), target) && !CorruptedAt(old(mounter.table), target))
      ensures !err && !mounted ==> mounter.table == Cleaned(old(mounter.table), target)
    {
      var notMnt, mntErr := mounter.IsLikelyNotMountPoint(target);
      if mntErr.Some? && mntErr != Some(NotExist) {
        var cleared := ClearCorrupted(req, source, target);
        return false, !cleared;
      }
      if mntErr == Some(NotExist) {
        ghost var ms := MountsAt(mounter.table, target);
        if ms != [] {
          MountsAtMember(mounter.table, target, ms[0]);
        }
        return false, false;
      }
      return !notMnt, false;
    }

    // isMounted's look at a target that it cannot tell about: a corrupted mount comes off.
    method ClearCorrupted(ghost req: PublishRequest, ghost source: string, target: string) returns (cleared: bool)
      requires At(Publish(req), CheckingCorruption(source)) && req.target == target
      modifies mounter
      ensures At(Publish(req), if cleared then ToMount(Publish(req), source) else Unlocking(Fail(Controller.Internal)))
      ensures mounter.present == old(mounter.present) && mounter.paths == old(mounter.paths)
      ensures cleared ==>
        CorruptedAt(old(mounter.table), target) && mounter.table == WithoutLast(old(mounter.table), target)
      ensures !cleared ==> mounter.table == old(mounter.table)
    {
      var _, pathErr := mounter.ExistsPath(target);
      if pathErr != Some(CorruptedMount) {
        return false;
      }
      var unmountErr := mounter.Unmount(target);
      return unmountErr.None?;
    }

    // nodePublishVolumeForBlock
    method PublishBlock(req: PublishRequest, mountOptions: seq<string>) returns (r: Reply)
      requires At(Publish(req), AfterLock(Publish(req)))
      requires req.cap.Some? && req.cap.value.access.BlockAccess?
      requires mountOptions == MountOptions.BaseOptions(req.readonly)
      modifies mounter
      ensures At(Publish(req), Unlocking(r))
      ensures BlockPublishPost(mounter.x.scsi, old(mounter.State()), req, mounter.x.host, mountOptions,
                               mounter.State(), r)
      ensures r != Fail(Controller.Aborted)
    {
      if req.devicePath.None? {
        return Fail(Controller.InvalidArgument);
      }
      var found := mounter.FindDevicePath(req.devicePath.value);
      if found.None? {
        return Fail(Controller.Internal);
      }
      r := PublishDevice(req, found.value, req.target, mountOptions);
    }

    // The part of nodePublishVolumeForBlock that follows once the device is found.
    method PublishDevice(ghost req: PublishRequest, source: string, target: string, mountOptions: seq<string>)
      returns (r: Reply)
      requires At(Publish(req), CheckingPath(source)) && req.target == target
      requires req.cap.Some? && req.cap.value.access.BlockAccess?
      requires mountOptions == MountOptions.BaseOptions(req.readonly)
      modifies mounter
      ensures At(Publish(req), Unlocking(r))
      ensures PublishPost(old(mounter.State()), source, target, mounter.x.host, mountOptions, mounter.State(), r)
      ensures r != Fail(Controller.Aborted)
    {
      var made := MakeMissingDir(Publish(req), source, DirOf(target));
      if !made {
        return Fail(Controller.Internal);
      }
      var err := mounter.MakeFile(target);
      if err.Some? {
        err := mounter.Remove(target); // Internal either way
        return Fail(Controller.Internal);
      }
      var mounted, mountedErr := IsMounted(req, source, target);
      if mountedErr {
        return Fail(Controller.Internal);
      }
      if mounted {
        return Ok;
      }
      r := BindDevice(req, source, target, mountOptions);
    }

    // The end of nodePublishVolumeForBlock: the mount, on the target file that was made.
    method BindDevice(ghost req: PublishRequest, source: string, target: string, mountOptions: seq<string>)
      returns (r: Reply)
      requires At(Publish(req), Binding(source)) && req.target == target
      requires req.cap.Some? && req.cap.value.access.BlockAccess?
      requires mountOptions == MountOptions.BaseOptions(req.readonly)
      modifies mounter
      ensures At(Publish(req), Unlocking(r)) && r != Fail(Controller.Aborted)
      ensures mounter.present == old(mounter.present)
      ensures mounter.table == if r == Ok
        then old(mounter.table) + [Bound(old(mounter.table), source, target, mounter.x.host, mountOptions)]
        else old(mounter.table)
    {
      var err := mounter.BindMount(source, target, "", mountOptions);
      if err.Some? {
        err := mounter.Remove(target); // Internal either way
        return Fail(Controller.Internal);
      }
      return Ok;
    }

    // nodePublishVolumeForFileSystem
    method PublishFileSystem(req: PublishRequest, mountOptions: seq<string>, mount: Option<MountVolume>)
      returns (r: Reply)
      requires At(Publish(req), MakingTarget(req.staging))
      requires req.cap.Some? && req.cap.value.access == MountAccess(mount)
      requires mountOptions == MountOptions.BaseOptions(req.readonly)
      modifies mounter
      ensures At(Publish(req), Unlocking(r))
      ensures PublishPost(old(mounter.State()), req.staging, req.target, mounter.x.host,
                          MountOptions.Merged(mountOptions, FlagsOf(mount)), mounter.State(), r)
      ensures r != Fail(Controller.Aborted)
    {
      var options := MountOptions.MergeFlags(mountOptions, FlagsOf(mount));
      var err := mounter.MakeDir(req.target);
      if err.Some? {
        return Fail(Controller.Internal);
      }
      var mounted, mountedErr := IsMounted(req, req.staging, req.target);
      if mountedErr {
        return Fail(Controller.Internal);
      }
      if mounted {
        return Ok;
      }
      r := BindStaged(req, options, mount);
    }

    // The end of nodePublishVolumeForFileSystem: the mount, on a target without one.
    method BindStaged(req: PublishRequest, options: seq<string>, mount: Option<MountVolume>) returns (r: Reply)
      requires At(Publish(req), ToMount(Publish(req), req.staging)) && options == OptionsOf(req)
      requires req.cap.Some? && req.cap.value.access == MountAccess(mount)
      modifies mounter
      ensures At(Publish(req), Unlocking(r)) && r != Fail(Controller.Aborted)
      ensures mounter.present == old(mounter.present)
      ensures mounter.table == if r == Ok
        then old(mounter.table) + [Bound(old(mounter.table), req.staging, req.target, mounter.x.host, options)]
        else old(mounter.table)
    {
      var fsType := FsTypeOf(mount);
      if !ValidFsType(fsType) {
        return Fail(Controller.InvalidArgument);
      }
      var err := mounter.BindMount(req.staging, req.target, fsType, options);
      return if err.Some? then Fail(Controller.Internal) else Ok;
    }

    method NodeUnpublishVolume(volume: string, target: string) returns (r: Reply)
      requires mounter.Valid()
      modifies mounter, volumeLocks
      ensures mounter.Valid() && volumeLocks.locks == old(volumeLocks.locks)
      ensures At(Unpublish(volume, target), Replied(r))
      ensures Replies(Unpublish(volume, target), mounter.log, r)
      ensures UnpublishPost(old(mounter.State()), target, mounter.State(), r)
      ensures volume in old(volumeLocks.locks) ==> mounter.State() == old(mounter.State())
      ensures r == Fail(Controller.Aborted) <==> volume in old(volumeLocks.locks) && volume != "" && target != ""
    {
      AllReplies(Unpublish(volume, target));
      mounter.Begin(Unpublish(volume, target));
      if |volume| == 0 || |target| == 0 {
        return Fail(Controller.InvalidArgument);
      }
      var acquired := TryAcquire(Unpublish(volume, target), volume);
      if !acquired {
        return Fail(Controller.Aborted);
      }
      r := UnpublishLocked(volume, target);
      Release(Unpublish(volume, target), volume, r, old(volumeLocks.locks));
    }

    method UnpublishLocked(ghost volume: string, target: string) returns (r: Reply)
      requires At(Unpublish(volume, target), TakingOffTarget)
      modifies mounter`table, mounter`pc, mounter`log
      ensures At(Unpublish(volume, target), Unlocking(r))
      ensures UnpublishPost(old(mounter.State()), target, mounter.State(), r)
      ensures r != Fail(Controller.Aborted)
    {
      var err := mounter.Unmount(target);
      r := if err.Some? && err != Some(NotMounted) then Fail(Controller.Internal) else Ok;
    }

    // It grows what is mounted on the path, and changes no mount; the bytes it reports are
    // not part of this model.
    method NodeExpandVolume(volume: string, volumePath: string, cap: Option<Capability>) returns (r: Reply)
      requires mounter.Valid()
      modifies mounter, volumeLocks
      ensures mounter.Valid() && volumeLocks.locks == old(volumeLocks.locks)
      ensures At(Expand(volume, volumePath, cap), Replied(r))
      ensures Replies(Expand(volume, volumePath, cap), mounter.log, r)
      ensures mounter.State() == old(mounter.State())
      ensures r == Fail(Controller.Aborted) <==> volume in old(volumeLocks.locks) && volume != "" && volumePath != ""
    {
      AllReplies(Expand(volume, volumePath, cap));
      mounter.Begin(Expand(volume, volumePath, cap));
      if |volume| == 0 || |volumePath| == 0 {
        return Fail(Controller.InvalidArgument);
      }
      var acquired := TryAcquire(Expand(volume, volumePath, cap), volume);
      if !acquired {
        return Fail(Controller.Aborted);
      }
      r := ExpandLocked(volume, volumePath, cap);
      Release(Expand(volume, volumePath, cap), volume, r, old(volumeLocks.locks));
    }

    method ExpandLocked(ghost volume: string, volumePath: string, cap: Option<Capability>) returns (r: Reply)
      requires At(Expand(volume, volumePath, cap), AfterLock(Expand(volume, volumePath, cap)))
      modifies mounter`pc, mounter`log
      ensures At(Expand(volume, volumePath, cap), Unlocking(r)) && r != Fail(Controller.Aborted)
      ensures Replies(Expand(volume, volumePath, cap), mounter.log, r)
    {
      AllReplies(Expand(volume, volumePath, cap));
      if cap.Some? {
        if cap.value.mode != Controller.SingleNodeWriter {
          return Fail(Controller.InvalidArgument);
        }
        if cap.value.access.BlockAccess? {
          return Ok;
        }
      } else {
        var isBlock, blockErr := mounter.IsBlockDevice(volumePath);
        if blockErr.Some? {
          return Fail(Controller.Internal);
        }
        if isBlock {
          var sizeErr := mounter.BlockSize(volumePath);
          return if sizeErr.Some? then Fail(Controller.Internal) else Ok;
        }
      }
      r := ExpandFileSystem(volume, volumePath, cap);
    }

    // NodeExpandVolume for a volume that is no block device.
    method ExpandFileSystem(ghost volume: string, volumePath: string, ghost cap: Option<Capability>) returns (r: Reply)
      requires At(Expand(volume, volumePath, cap), ReadingVolume)
      modifies mounter`pc, mounter`log
      ensures At(Expand(volume, volumePath, cap), Unlocking(r)) && r != Fail(Controller.Aborted)
      ensures var device := DeviceAt(mounter.table, volumePath);
        r == Ok ==>
          mounter.log == old(mounter.log) + [
            Asked(GetDeviceName(volumePath), Device(device, RefCount(mounter.table, device))),
            Asked(RescanStorageDevice(device), Done), Asked(Resize(device, volumePath), Done),
            Asked(BlockSize(device), Done)]
    {
      var device, _, err := mounter.GetDeviceName(volumePath);
      if err.Some? {
        return Fail(Controller.Internal);
      }
      r := GrowDevice(volume, volumePath, cap, device);
    }

    // NodeExpandVolume from the rescan on.
    method GrowDevice(ghost volume: string, volumePath: string, ghost cap: Option<Capability>, device: string)
      returns (r: Reply)
      requires At(Expand(volume, volumePath, cap), Rescanning(device))
      modifies mounter`pc, mounter`log
      ensures At(Expand(volume, volumePath, cap), Unlocking(r)) && r != Fail(Controller.Aborted)
      ensures r == Ok ==>
        mounter.log == old(mounter.log) + [
          Asked(RescanStorageDevice(device), Done), Asked(Resize(device, volumePath), Done),
          Asked(BlockSize(device), Done)]
    {
      var err := mounter.RescanStorageDevice(device);
      if err.Some? {
        return Fail(Controller.Internal);
      }
      err := mounter.Resize(device, volumePath);
      if err.Some? {
        return Fail(Controller.Internal);
      }
      err := mounter.BlockSize(device);
      return if err.Some? then Fail(Controller.Internal) else Ok;
    }
  }
}
