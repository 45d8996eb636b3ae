/**
  The node service's handlers as step machines: which call of the Mounter each makes
  next, by what the calls before told it.
 */
module NodeSteps {
  import opened Wrappers
  import opened Mounts
  import Controller
  import MountOptions
  import Parameters

  type Code = Controller.Code

  datatype Reply = Ok | Fail(code: Code)

  datatype MountVolume = MountVolume(fsType: string, flags: seq<string>)

  // The access type of a capability: the mount message itself may be missing.
  datatype Access = BlockAccess | MountAccess(mount: Option<MountVolume>) | NoAccess

  datatype Capability = Capability(mode: Controller.AccessMode, access: Access)

  // The publish context's devicePath entry, if it has one.
  datatype StageRequest = StageRequest(volume: string, target: string, cap: Option<Capability>,
                                       devicePath: Option<string>)

  datatype PublishRequest = PublishRequest(
    volume: string, staging: string, target: string, cap: Option<Capability>,
    devicePath: Option<string>, readonly: bool)

  const DEFAULT_FS_TYPE := "ext4"

  function FsTypeOf(mount: Option<MountVolume>): string {
    if mount.None? || mount.value.fsType == "" then DEFAULT_FS_TYPE else mount.value.fsType
  }

  predicate ValidFsType(fsType: string) {
    Parameters.ToLower(fsType) in {"ext2", "ext3", "ext4", "xfs"}
  }

  function FlagsOf(mount: Option<MountVolume>): seq<string> {
    if mount.None? then [] else mount.value.flags
  }

  // The arguments NodePublishVolume accepts before it tries the lock.
  predicate ValidPublish(req: PublishRequest) {
    && req.volume != "" && req.staging != "" && req.target != ""
    && req.cap.Some? && req.cap.value.mode == Controller.SingleNodeWriter
  }

  // ---------- calls ----------

  datatype Call =
    | Stage(stage: StageRequest)
    | Unstage(volume: string, target: string)
    | Publish(publish: PublishRequest)
    | Unpublish(volume: string, target: string)
    | Expand(volume: string, target: string, cap: Option<Capability>)
  {
    function Volume(): string {
      match this
      case Stage(req) => req.volume
      case Publish(req) => req.volume
      case _ => volume
    }

    function Target(): string {
      match this
      case Stage(req) => req.target
      case Publish(req) => req.target
      case _ => target
    }

    function DevicePath(): Option<string> {
      match this
      case Stage(req) => req.devicePath
      case Publish(req) => req.devicePath
      case _ => None
    }

    predicate IsBlockPublish() {
      Publish? && publish.cap.Some? && publish.cap.value.access.BlockAccess?
    }
  }

  // Where a handler stands: which call of the Mounter, or of the lock set, is next.
  datatype PC =
    | Scanning
    | Locking
    | FindingDevice
    | CheckingPath(device: string)
    | MakingPath(device: string)
    | ReadingDevice(device: string)
    | Formatting(device: string)
    | CheckingSize(device: string)
    | Resizing(device: string)
    | ReadingReferences
    | TakingOff(device: string)
    | RemovingDevice(device: string)
    | MakingTarget(source: string)
    | CheckingMount(source: string)
    | CheckingCorruption(source: string)
    | TakingOffCorrupted(source: string)
    | Binding(source: string)
    | CleaningUp
    | TakingOffTarget
    | CheckingBlock
    | ReadingVolume
    | Rescanning(device: string)
    | Growing(device: string)
    | Measuring(device: string)
    | Unlocking(reply: Reply)
    | Replied(reply: Reply)
    | Stuck

  // filepath.Dir, of a path without superfluous slashes and dots.
  function DirOf(path: string): string {
    if path == "" then "."
    else
      var init, last := path[..|path| - 1], path[|path| - 1];
      if last != '/' then DirOf(init) else if init == "" then "/" else init
  }

  // The directory a handler makes sure of.
  function DirFor(call: Call): string {
    if call.Stage? then call.Target() else DirOf(call.Target())
  }

  function OptionsOf(req: PublishRequest): seq<string> {
    var base := MountOptions.BaseOptions(req.readonly);
    if req.cap.Some? && req.cap.value.access.MountAccess?
    then MountOptions.Merged(base, FlagsOf(req.cap.value.access.mount))
    else base
  }

  // The file system a stage formats with, or a publish mounts; a block device has none.
  function FsTypeFor(call: Call): string {
    var cap := match call
      case Stage(req) => req.cap
      case Publish(req) => req.cap
      case _ => None;
    if cap.Some? && cap.value.access.MountAccess? then FsTypeOf(cap.value.access.mount) else ""
  }

  // The call of the Mounter that a handler makes next, if it is one.
  function Asks(call: Call, pc: PC): Option<Op> {
    var target := call.Target();
    match pc
    case Scanning => Some(ScanStorageDevices)
    case FindingDevice => if call.DevicePath().Some? then Some(FindDevicePath(call.DevicePath().value)) else None
    case CheckingPath(_) => Some(ExistsPath(DirFor(call)))
    case MakingPath(_) => Some(MakePath(DirFor(call)))
    case ReadingDevice(_) => Some(GetDeviceName(target))
    case Formatting(device) => Some(FormatAndMount(device, target, FsTypeFor(call)))
    case CheckingSize(device) => Some(NeedResize(device, target))
    case Resizing(device) => Some(Resize(device, target))
    case ReadingReferences => Some(GetDeviceName(target))
    case TakingOff(_) => Some(Unmount(target))
    case RemovingDevice(device) => Some(RemoveStorageDevice(device))
    case MakingTarget(_) => Some(MakePath(target))
    case CheckingMount(_) => Some(IsLikelyNotMountPoint(target))
    case CheckingCorruption(_) => Some(ExistsPath(target))
    case TakingOffCorrupted(_) => Some(Unmount(target))
    case Binding(source) =>
      if call.Publish? then Some(BindMount(source, target, FsTypeFor(call), OptionsOf(call.publish))) else None
    case CleaningUp => Some(RemovePath(target))
    case TakingOffTarget => Some(Unmount(target))
    case CheckingBlock => Some(IsBlockDevice(target))
    case ReadingVolume => Some(GetDeviceName(target))
    case Rescanning(device) => Some(RescanStorageDevice(device))
    case Growing(device) => Some(Resize(device, target))
    case Measuring(device) => Some(BlockSize(device))
    case _ => None
  }

  // The checks of the arguments.
  function Start(call: Call): PC {
    var invalid := Replied(Fail(Controller.InvalidArgument));
    if call.Volume() == "" || call.Target() == "" then invalid
    else match call
      case Stage(req) =>
        if req.cap.None? || req.cap.value.mode != Controller.SingleNodeWriter then invalid else Scanning
      case Publish(req) => if ValidPublish(req) then Locking else invalid
      case _ => Locking
  }

  function AfterLock(call: Call): PC {
    match call
    case Stage(req) => if req.devicePath.None? then Unlocking(Fail(Controller.InvalidArgument)) else FindingDevice
    case Unstage(_, _) => ReadingReferences
    case Unpublish(_, _) => TakingOffTarget
    case Expand(_, _, cap) =>
      if cap.None? then CheckingBlock
      else if cap.value.mode != Controller.SingleNodeWriter then Unlocking(Fail(Controller.InvalidArgument))
      else if cap.value.access.BlockAccess? then Unlocking(Ok)
      else ReadingVolume
    case Publish(req) =>
      if req.cap.None? then Stuck
      else match req.cap.value.access
        case BlockAccess => if req.devicePath.None? then Unlocking(Fail(Controller.InvalidArgument)) else FindingDevice
        case MountAccess(_) => MakingTarget(req.staging)
        case NoAccess => Unlocking(Ok)
  }

  // After TryAcquire.
  function AfterTry(call: Call, acquired: bool): PC {
    if acquired then AfterLock(call) else Replied(Fail(Controller.Aborted))
  }

  function AfterScan(call: Call): PC {
    if !call.Stage? || call.stage.cap.None? then Stuck
    else match call.stage.cap.value.access
      case BlockAccess => Replied(Ok)
      case NoAccess => Replied(Fail(Controller.InvalidArgument))
      case MountAccess(mount) => if mount.None? then Replied(Fail(Controller.InvalidArgument)) else Locking
  }

  function AfterDir(call: Call, device: string): PC {
    if call.Stage? then ReadingDevice(device) else MakingTarget(device)
  }

  // A publish that found no mount on its target.
  function ToMount(call: Call, source: string): PC {
    if !call.Publish? || call.publish.cap.None? then Stuck
    else match call.publish.cap.value.access
      case MountAccess(mount) =>
        if ValidFsType(FsTypeOf(mount)) then Binding(source) else Unlocking(Fail(Controller.InvalidArgument))
      case _ => Binding(source)
  }

  // Where the handler goes by what the Mounter tells it.
  function Next(call: Call, pc: PC, told: Told): PC {
    var internal := Unlocking(Fail(Controller.Internal));
    match pc
    case Scanning => if told.Failed? then Replied(Fail(Controller.Internal)) else AfterScan(call)
    case FindingDevice => if told.Found? then CheckingPath(told.device) else internal
    case CheckingPath(device) =>
      if !told.Answer? then internal else if told.yes then AfterDir(call, device) else MakingPath(device)
    case MakingPath(device) => if told.Failed? then internal else AfterDir(call, device)
    case ReadingDevice(device) =>
      if !told.Device? then internal else if told.name == device then Unlocking(Ok) else Formatting(device)
    case Formatting(device) => if told.Failed? then internal else CheckingSize(device)
    case CheckingSize(device) =>
      if !told.Answer? then internal else if told.yes then Resizing(device) else Unlocking(Ok)
    case Resizing(_) => if told.Failed? then internal else Unlocking(Ok)
    case ReadingReferences =>
      if !told.Device? then internal else if told.refCount == 0 then Unlocking(Ok) else TakingOff(told.name)
    case TakingOff(device) => if told == Done || told == Failed(NotMounted) then RemovingDevice(device) else internal
    case RemovingDevice(_) => if told.Failed? then internal else Unlocking(Ok)
    case MakingTarget(source) =>
      if told.Failed? then (if call.IsBlockPublish() then CleaningUp else internal) else CheckingMount(source)
    case CheckingMount(source) =>
      if told.Answer? then (if told.yes then ToMount(call, source) else Unlocking(Ok))
      else if told == Failed(NotExist) then ToMount(call, source)
      else CheckingCorruption(source)
    case CheckingCorruption(source) => if told == Failed(CorruptedMount) then TakingOffCorrupted(source) else internal
    case TakingOffCorrupted(source) => if told.Failed? then internal else ToMount(call, source)
    case Binding(_) =>
      if told.Failed? then (if call.IsBlockPublish() then CleaningUp else internal) else Unlocking(Ok)
    case CleaningUp => internal
    case TakingOffTarget => if told == Done || told == Failed(NotMounted) then Unlocking(Ok) else internal
    case CheckingBlock =>
      if !told.Answer? then internal else if told.yes then Measuring(call.Target()) else ReadingVolume
    case ReadingVolume => if !told.Device? then internal else Rescanning(told.name)
    case Rescanning(device) => if told.Failed? then internal else Growing(device)
    case Growing(device) => if told.Failed? then internal else Measuring(device)
    case Measuring(_) => if told.Failed? then internal else Unlocking(Ok)
    case _ => Stuck
  }

  // ---------- a call from its start ----------

  // One thing that a call did: it asked the Mounter and was told, tried for its lock, or
  // gave it back.
  datatype Deal =
    | Asked(op: Op, told: Told)
    | Tried(acquired: bool)
    | Freed

  // The kind of answer that a call of the Mounter can bring.
  predicate Fitting(op: Op, told: Told) {
    told.Failed? || match op
      case FindDevicePath(_) => told.Found?
      case GetDeviceName(_) => told.Device?
      case ExistsPath(_) => told.Answer?
      case IsLikelyNotMountPoint(_) => told.Answer?
      case NeedResize(_, _) => told.Answer?
      case IsBlockDevice(_) => told.Answer?
      case _ => told == Done
  }

  lemma SpecFits(x: Surroundings, s: Os, op: Op, told: Told, s': Os)
    requires Spec(x, s, op, told, s')
    ensures Fitting(op, told)
  {
  }

  // Where a call comes to by what it has done so far.
  function Walk(call: Call, log: seq<Deal>): PC {
    if log == [] then Start(call) else Goes(call, Walk(call, log[..|log| - 1]), log[|log| - 1])
  }

  function Goes(call: Call, pc: PC, deal: Deal): PC {
    match deal
    case Asked(op, told) => if Asks(call, pc) == Some(op) && Fitting(op, told) then Next(call, pc, told) else Stuck
    case Tried(acquired) => if pc == Locking then AfterTry(call, acquired) else Stuck
    case Freed => if pc.Unlocking? then Replied(pc.reply) else Stuck
  }

  lemma WalksOn(call: Call, log: seq<Deal>, deal: Deal)
    ensures Walk(call, log + [deal]) == Goes(call, Walk(call, log), deal)
  {
    assert (log + [deal])[..|log|] == log;
  }
}
