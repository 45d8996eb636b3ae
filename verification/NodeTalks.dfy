/**
  What a node call says to the Mounter and is told, from its start to its reply, and which
  reply that leads to: every call stops at the first thing that goes wrong, and one that
  replies Ok has made all the calls of its kind, in order, on the right paths and devices.
 */
module NodeTalks {
  import opened Wrappers
  import opened Mounts
  import opened NodeSteps
  import Controller
  import MountOptions
  import Parameters

  // ---------- what decides the reply ----------

  // The last thing the call did was to look at its target in vain.
  predicate LooksBad(log: seq<Deal>) {
    log != [] && var last := log[|log| - 1];
      last.Asked? && last.op.IsLikelyNotMountPoint? && last.told.Failed? && last.told != Failed(NotExist)
  }

  // What ends a call with an error.  Unmounting what is not mounted does not, unless it was
  // taken for a corrupted mount; a look at the target that fails is looked into, and then
  // all is well only if a corrupted mount is found.
  predicate WentWrong(call: Call, before: seq<Deal>, deal: Deal) {
    IsWrong(call, LooksBad(before), deal)
  }

  predicate IsWrong(call: Call, lookedBad: bool, deal: Deal) {
    deal.Asked?
    && if lookedBad then deal.told != Failed(CorruptedMount)
       else match deal.op
         case IsLikelyNotMountPoint(_) => false
         case Unmount(_) => deal.told.Failed? && (call.Publish? || deal.told != Failed(NotMounted))
         case _ => deal.told.Failed?
  }

  predicate HasWrong(call: Call, log: seq<Deal>) {
    log != [] && (HasWrong(call, log[..|log| - 1]) || WentWrong(call, log[..|log| - 1], log[|log| - 1]))
  }

  predicate OtherMode(cap: Option<Capability>) {
    cap.Some? && cap.value.mode != Controller.SingleNodeWriter
  }

  // Requests that cannot be served as they are.
  predicate Malformed(call: Call) {
    match call
    case Stage(req) =>
      || req.volume == "" || req.target == "" || req.cap.None? || OtherMode(req.cap)
      || req.cap.value.access == NoAccess || req.cap.value.access == MountAccess(None)
      || (req.cap.value.access.MountAccess? && req.devicePath.None?)
    case Publish(req) =>
      || req.volume == "" || req.staging == "" || req.target == "" || req.cap.None? || OtherMode(req.cap)
      || (req.cap.value.access.BlockAccess? && req.devicePath.None?)
    case Expand(volume, target, cap) => volume == "" || target == "" || OtherMode(cap)
    case Unstage(volume, target) => volume == "" || target == ""
    case Unpublish(volume, target) => volume == "" || target == ""
  }

  function FoundMounted(target: string): Deal {
    Asked(IsLikelyNotMountPoint(target), Answer(false))
  }

  // A file system the driver does not know, for a target that is not mounted yet.
  predicate BadFsType(call: Call, log: seq<Deal>) {
    && call.Publish? && call.publish.cap.Some? && call.publish.cap.value.access.MountAccess?
    && Parameters.ToLower(FsName(call.publish.cap.value.access.mount)) !in {"ext2", "ext3", "ext4", "xfs"}
    && FoundMounted(call.Target()) !in log
  }

  function FsName(mount: Option<MountVolume>): string {
    match mount
    case None => "ext4"
    case Some(m) => if m.fsType == "" then "ext4" else m.fsType
  }

  // The reply, by what the call was told.
  predicate Decided(call: Call, log: seq<Deal>, r: Reply) {
    && (r == Fail(Controller.Internal) <==> HasWrong(call, log))
    && (r == Fail(Controller.Aborted) <==> Tried(false) in log)
    && (r == Fail(Controller.InvalidArgument)
        <==> (Malformed(call) || BadFsType(call, log)) && !HasWrong(call, log) && Tried(false) !in log)
    && (r.Fail? ==> r.code in {Controller.Internal, Controller.Aborted, Controller.InvalidArgument})
  }

  // The places of each kind of call under its lock.
  predicate OfKind(call: Call, pc: PC) {
    match call
    case Stage(_) =>
      || pc.FindingDevice? || pc.CheckingPath? || pc.MakingPath? || pc.ReadingDevice? || pc.Formatting?
      || pc.CheckingSize? || pc.Resizing?
    case Unstage(_, _) => pc.ReadingReferences? || pc.TakingOff? || pc.RemovingDevice?
    case Publish(_) =>
      || (call.IsBlockPublish() && (pc.FindingDevice? || pc.CheckingPath? || pc.MakingPath?))
      || pc.MakingTarget? || pc.CheckingMount? || pc.CheckingCorruption? || pc.TakingOffCorrupted?
      || (pc.Binding? && !BadFsType(call, []))
    case Unpublish(_, _) => pc.TakingOffTarget?
    case Expand(_, _, _) => pc.CheckingBlock? || pc.ReadingVolume? || pc.Rescanning? || pc.Growing? || pc.Measuring?
  }

  // What is known on the way.
  predicate SoFar(call: Call, log: seq<Deal>, pc: PC) {
    match pc
    case Stuck => true
    case Unlocking(r) => Decided(call, log, r)
    case Replied(r) => Decided(call, log, r)
    case CleaningUp => call.IsBlockPublish() && HasWrong(call, log) && Tried(false) !in log
    case Scanning => log == [] && Start(call) == Scanning
    case Locking =>
      && !HasWrong(call, log) && Tried(false) !in log && FoundMounted(call.Target()) !in log && !LooksBad(log)
      && Start(call) == (if call.Stage? then Scanning else Locking) && (call.Stage? ==> AfterScan(call) == Locking)
    case _ => InHand(call, log, pc)
  }

  // Under its lock nothing has gone wrong for the call, and it is not at its end.
  predicate InHand(call: Call, log: seq<Deal>, pc: PC) {
    && !HasWrong(call, log) && Tried(false) !in log && FoundMounted(call.Target()) !in log
    && OfKind(call, pc) && (call.Stage? ==> AfterScan(call) == Locking) && !Malformed(call)
    && (LooksBad(log) <==> pc.CheckingCorruption?)
  }

  lemma OneMore(call: Call, log: seq<Deal>, deal: Deal)
    ensures HasWrong(call, log + [deal]) <==> HasWrong(call, log) || WentWrong(call, log, deal)
    ensures Tried(false) in log + [deal] <==> Tried(false) in log || deal == Tried(false)
    ensures FoundMounted(call.Target()) in log + [deal]
      <==> FoundMounted(call.Target()) in log || deal == FoundMounted(call.Target())
    ensures LooksBad(log + [deal]) <==> LooksBad([deal])
  {
    assert (log + [deal])[..|log|] == log;
  }

  lemma LockSoFar(call: Call, log: seq<Deal>, acquired: bool)
    requires SoFar(call, log, Locking)
    ensures SoFar(call, log + [Tried(acquired)], AfterTry(call, acquired))
  {
    OneMore(call, log, Tried(acquired));
  }

  // What one call of the Mounter comes to: an error if it goes wrong, and otherwise the
  // reply or the next place.
  predicate TurnsOut(call: Call, pc: PC, deal: Deal, pc': PC) {
    if IsWrong(call, pc.CheckingCorruption?, deal) then
      pc' == Unlocking(Fail(Controller.Internal)) || (pc' == CleaningUp && call.IsBlockPublish())
    else
      || (pc' == Unlocking(Ok) && (deal == FoundMounted(call.Target()) || !BadFsType(call, [])))
      || (pc' == Unlocking(Fail(Controller.InvalidArgument)) && BadFsType(call, [])
          && deal != FoundMounted(call.Target()))
      || (OfKind(call, pc') && (LooksBad([deal]) <==> pc'.CheckingCorruption?) && deal != FoundMounted(call.Target()))
  }

  lemma StageTurns(call: Call, pc: PC, op: Op, told: Told)
    requires call.Stage? && OfKind(call, pc) && Asks(call, pc) == Some(op) && Fitting(op, told)
    ensures TurnsOut(call, pc, Asked(op, told), Next(call, pc, told))
  {
  }

  lemma PublishTurns(call: Call, pc: PC, op: Op, told: Told)
    requires call.Publish? && OfKind(call, pc) && Asks(call, pc) == Some(op) && Fitting(op, told)
    requires !Malformed(call) && Next(call, pc, told) != Stuck
    ensures TurnsOut(call, pc, Asked(op, told), Next(call, pc, told))
  {
  }

  lemma OtherTurns(call: Call, pc: PC, op: Op, told: Told)
    requires !call.Stage? && !call.Publish? && OfKind(call, pc) && Asks(call, pc) == Some(op) && Fitting(op, told)
    ensures TurnsOut(call, pc, Asked(op, told), Next(call, pc, told))
  {
  }

  lemma EndsSoFar(call: Call, log: seq<Deal>, pc: PC, deal: Deal, r: Reply)
    requires InHand(call, log, pc) && deal.Asked? && TurnsOut(call, pc, deal, Unlocking(r))
    ensures Decided(call, log + [deal], r)
  {
    OneMore(call, log, deal);
    assert !OfKind(call, Unlocking(r));
  }

  lemma StaysInHand(call: Call, log: seq<Deal>, pc: PC, deal: Deal, pc': PC)
    requires InHand(call, log, pc) && deal.Asked? && !IsWrong(call, pc.CheckingCorruption?, deal)
    requires OfKind(call, pc') && (LooksBad([deal]) <==> pc'.CheckingCorruption?) && deal != FoundMounted(call.Target())
    ensures InHand(call, log + [deal], pc')
  {
    OneMore(call, log, deal);
  }

  lemma InHandIsSoFar(call: Call, log: seq<Deal>, pc: PC)
    requires InHand(call, log, pc)
    ensures SoFar(call, log, pc)
  {
  }

  lemma CleansUp(call: Call, log: seq<Deal>, pc: PC, deal: Deal)
    requires InHand(call, log, pc) && deal.Asked? && IsWrong(call, pc.CheckingCorruption?, deal)
    requires call.IsBlockPublish()
    ensures SoFar(call, log + [deal], CleaningUp)
  {
    OneMore(call, log, deal);
  }

  lemma Turns(call: Call, pc: PC, op: Op, told: Told)
    requires OfKind(call, pc) && Asks(call, pc) == Some(op) && Fitting(op, told)
    requires !Malformed(call) && Next(call, pc, told) != Stuck
    ensures TurnsOut(call, pc, Asked(op, told), Next(call, pc, told))
  {
    match call
    case Stage(_) => StageTurns(call, pc, op, told);
    case Publish(_) => PublishTurns(call, pc, op, told);
    case _ => OtherTurns(call, pc, op, told);
  }

  // A scan, and a clean-up after something went wrong.
  lemma OutsideSoFar(call: Call, log: seq<Deal>, pc: PC, op: Op, told: Told)
    requires (pc == Scanning || pc == CleaningUp) && SoFar(call, log, pc) && Asks(call, pc) == Some(op)
    requires Fitting(op, told)
    ensures SoFar(call, log + [Asked(op, told)], Next(call, pc, told))
  {
    OneMore(call, log, Asked(op, told));
  }

  lemma HandsOn(call: Call, log: seq<Deal>, pc: PC, deal: Deal, pc': PC)
    requires InHand(call, log, pc) && deal.Asked? && TurnsOut(call, pc, deal, pc')
    ensures SoFar(call, log + [deal], pc')
  {
    if pc'.Unlocking? {
      EndsSoFar(call, log, pc, deal, pc'.reply);
    } else if pc' == CleaningUp {
      assert !OfKind(call, CleaningUp);
      CleansUp(call, log, pc, deal);
    } else {
      StaysInHand(call, log, pc, deal, pc');
      InHandIsSoFar(call, log + [deal], pc');
    }
  }

  lemma AskSoFar(call: Call, log: seq<Deal>, pc: PC, op: Op, told: Told)
    requires SoFar(call, log, pc) && Asks(call, pc) == Some(op) && Fitting(op, told) && Next(call, pc, told) != Stuck
    ensures SoFar(call, log + [Asked(op, told)], Next(call, pc, told))
  {
    if pc == Scanning || pc == CleaningUp {
      OutsideSoFar(call, log, pc, op, told);
    } else {
      AsksInHand(call, log, pc, op);
      Turns(call, pc, op, told);
      HandsOn(call, log, pc, Asked(op, told), Next(call, pc, told));
    }
  }

  lemma AsksInHand(call: Call, log: seq<Deal>, pc: PC, op: Op)
    requires SoFar(call, log, pc) && Asks(call, pc) == Some(op) && pc != Scanning && pc != CleaningUp
    ensures InHand(call, log, pc)
  {
  }

  lemma FreedSoFar(call: Call, log: seq<Deal>, r: Reply)
    requires Decided(call, log, r)
    ensures Decided(call, log + [Freed], r)
  {
    OneMore(call, log, Freed);
  }

  lemma GoesSoFar(call: Call, log: seq<Deal>, pc: PC, deal: Deal)
    requires SoFar(call, log, pc)
    ensures SoFar(call, log + [deal], Goes(call, pc, deal))
  {
    var pc' := Goes(call, pc, deal);
    if pc' != Stuck {
      match deal
      case Asked(op, told) => AskSoFar(call, log, pc, op, told);
      case Tried(acquired) => LockSoFar(call, log, acquired);
      case Freed => FreedSoFar(call, log, pc.reply);
    }
    assert SoFar(call, log + [deal], pc');
  }

  lemma {:induction false} WalkSoFar(call: Call, log: seq<Deal>)
    ensures SoFar(call, log, Walk(call, log))
  {
    if log != [] {
      var init, last := log[..|log| - 1], log[|log| - 1];
      WalkSoFar(call, init);
      GoesSoFar(call, init, Walk(call, init), last);
      assert log == init + [last];
    }
  }

  // What a reply shows of the call, and the call of it.
  lemma ReplyDecided(call: Call, log: seq<Deal>, r: Reply)
    requires Walk(call, log) == Unlocking(r) || Walk(call, log) == Replied(r)
    ensures Decided(call, log, r)
  {
    WalkSoFar(call, log);
  }

  // After the first thing that goes wrong a call only cleans up and gives its lock back.
  lemma StopsAtFirstWrong(call: Call, log: seq<Deal>, deal: Deal)
    requires HasWrong(call, log) && Walk(call, log + [deal]) != Stuck
    ensures deal == Freed || (call.IsBlockPublish() && deal.Asked? && deal.op == RemovePath(call.Target()))
  {
    WalkSoFar(call, log);
    WalksOn(call, log, deal);
  }

  // ---------- the conversations that end well ----------

  function DevicePathName(call: Call): string {
    match call.DevicePath()
    case None => ""
    case Some(name) => name
  }

  // A directory that is made where it is missing.
  function DirMade(path: string, there: bool): seq<Deal> {
    [Asked(ExistsPath(path), Answer(there))] + if there then [] else [Asked(MakePath(path), Done)]
  }

  function StageBegun(req: StageRequest, device: string): seq<Deal> {
    [Asked(ScanStorageDevices, Done), Tried(true),
     Asked(FindDevicePath(DevicePathName(Stage(req))), Found(device))]
  }

  // What a stage sees of its path: whether it is there, and what is mounted on it.
  datatype PathSeen = PathSeen(there: bool, name: string, refCount: nat)

  function StageLooked(req: StageRequest, device: string, seen: PathSeen): seq<Deal> {
    StageBegun(req, device) + DirMade(req.target, seen.there)
    + [Asked(GetDeviceName(req.target), Device(seen.name, seen.refCount))]
  }

  // NodeStageVolume, by the device of its devicePath: that is formatted, mounted, checked
  // and, if need be, grown, unless it is on the path already.
  function StageTalk(req: StageRequest, device: string, seen: PathSeen, need: bool): seq<Deal> {
    StageLooked(req, device, seen)
    + if seen.name == device then []
      else
        [Asked(FormatAndMount(device, req.target, FsName(StageMount(req))), Done),
         Asked(NeedResize(device, req.target), Answer(need))]
        + if need then [Asked(Resize(device, req.target), Done)] else []
  }

  function StageMount(req: StageRequest): Option<MountVolume> {
    if req.cap.Some? && req.cap.value.access.MountAccess? then req.cap.value.access.mount else None
  }

  ghost predicate StageTalked(req: StageRequest, log: seq<Deal>) {
    if req.cap.Some? && req.cap.value.access.BlockAccess? then log == [Asked(ScanStorageDevices, Done)]
    else exists device, seen, need :: log == StageTalk(req, device, seen, need)
  }

  // NodeUnstageVolume: nothing is referenced, or the path is unmounted and the device removed.
  function UnstageTalk(target: string, device: string, refCount: nat, unmounted: Told): seq<Deal> {
    [Tried(true), Asked(GetDeviceName(target), Device(device, refCount))]
    + if refCount == 0 then []
      else [Asked(Unmount(target), unmounted), Asked(RemoveStorageDevice(device), Done)]
  }

  predicate Unmounted(told: Told) {
    told == Done || told == Failed(NotMounted)
  }

  ghost predicate UnstageTalked(target: string, log: seq<Deal>) {
    exists device, refCount, unmounted ::
      log == UnstageTalk(target, device, refCount, unmounted) && (refCount == 0 || Unmounted(unmounted))
  }

  predicate UnpublishTalked(target: string, log: seq<Deal>) {
    || log == [Tried(true), Asked(Unmount(target), Done)]
    || log == [Tried(true), Asked(Unmount(target), Failed(NotMounted))]
  }

  // NodeExpandVolume of a file system: the device of the path is rescanned, then grown.
  function ExpandTalk(target: string, cap: Option<Capability>, device: string, refCount: nat): seq<Deal> {
    [Tried(true)] + (if cap.None? then [Asked(IsBlockDevice(target), Answer(false))] else [])
    + [Asked(GetDeviceName(target), Device(device, refCount)), Asked(RescanStorageDevice(device), Done),
       Asked(Resize(device, target), Done), Asked(BlockSize(device), Done)]
  }

  ghost predicate ExpandTalked(target: string, cap: Option<Capability>, log: seq<Deal>) {
    || (cap.Some? && cap.value.access.BlockAccess? && log == [Tried(true)])
    || (cap.None? && log == [Tried(true), Asked(IsBlockDevice(target), Answer(true)), Asked(BlockSize(target), Done)])
    || ((cap.Some? ==> !cap.value.access.BlockAccess?)
        && exists device, refCount :: log == ExpandTalk(target, cap, device, refCount))
  }

  // What a publish finds on its target.
  datatype Sight = Healthy | Bare | Missing | Corrupted(error: MountError)

  function Looked(target: string, sight: Sight): seq<Deal> {
    match sight
    case Healthy => [FoundMounted(target)]
    case Bare => [Asked(IsLikelyNotMountPoint(target), Answer(true))]
    case Missing => [Asked(IsLikelyNotMountPoint(target), Failed(NotExist))]
    case Corrupted(error) =>
      [Asked(IsLikelyNotMountPoint(target), Failed(error)), Asked(ExistsPath(target), Failed(CorruptedMount)),
       Asked(Unmount(target), Done)]
  }

  predicate IsBlock(req: PublishRequest) {
    req.cap.Some? && req.cap.value.access.BlockAccess?
  }

  // A publish has made its target.
  function PublishReady(req: PublishRequest, device: string, there: bool): seq<Deal> {
    PublishBegun(req, device, there) + [Asked(MakePath(req.target), Done)]
  }

  function PublishBegun(req: PublishRequest, device: string, there: bool): seq<Deal> {
    [Tried(true)]
    + if IsBlock(req)
      then [Asked(FindDevicePath(DevicePathName(Publish(req))), Found(device))] + DirMade(DirOf(req.target), there)
      else []
  }

  // NodePublishVolume: a bind mount, unless a healthy one is found; of the staging path, or,
  // for a block volume, of the device of its devicePath.
  function PublishTalk(req: PublishRequest, device: string, there: bool, sight: Sight): seq<Deal> {
    if req.cap.None? || req.cap.value.access.NoAccess? then [Tried(true)]
    else
      PublishReady(req, device, there) + Looked(req.target, sight)
      + if sight == Healthy then [] else [Asked(PublishMount(req, device), Done)]
  }

  function PublishMount(req: PublishRequest, device: string): Op
    requires req.cap.Some? && !req.cap.value.access.NoAccess?
  {
    var base := if req.readonly then ["bind", "ro"] else ["bind"];
    match req.cap.value.access
    case MountAccess(mount) =>
      BindMount(req.staging, req.target, FsName(mount), MountOptions.Merged(base, FlagsOf(mount)))
    case _ => BindMount(device, req.target, "", base)
  }

  ghost predicate PublishTalked(req: PublishRequest, log: seq<Deal>) {
    exists device, there, sight :: log == PublishTalk(req, device, there, sight) && sight != Corrupted(NotExist)
  }

  ghost predicate Talked(call: Call, log: seq<Deal>) {
    match call
    case Stage(req) => StageTalked(req, log)
    case Unstage(_, target) => UnstageTalked(target, log)
    case Publish(req) => PublishTalked(req, log)
    case Unpublish(_, target) => UnpublishTalked(target, log)
    case Expand(_, target, cap) => ExpandTalked(target, cap, log)
  }

  // The log without the release of the lock at its end.
  function UpToRelease(log: seq<Deal>): seq<Deal> {
    if log != [] && log[|log| - 1] == Freed then log[..|log| - 1] else log
  }

  // ---------- how far each conversation has come ----------

  // This deal is of the call that the handler makes at this place.
  predicate IsNext(call: Call, pc: PC, deal: Deal) {
    deal.Asked? && Asks(call, pc) == Some(deal.op) && Fitting(deal.op, deal.told)
  }

  function StageMounted(req: StageRequest, device: string, seen: PathSeen): seq<Deal> {
    StageLooked(req, device, seen) + [Asked(FormatAndMount(device, req.target, FsName(StageMount(req))), Done)]
  }

  ghost predicate StageStory(req: StageRequest, pc: PC, log: seq<Deal>) {
    match pc
    case Scanning => log == []
    case Locking => log == [Asked(ScanStorageDevices, Done)]
    case FindingDevice => log == [Asked(ScanStorageDevices, Done), Tried(true)]
    case CheckingPath(device) => log == StageBegun(req, device)
    case MakingPath(device) => log == StageBegun(req, device) + [Asked(ExistsPath(req.target), Answer(false))]
    case ReadingDevice(device) => exists there :: log == StageBegun(req, device) + DirMade(req.target, there)
    case Formatting(device) => exists seen :: log == StageLooked(req, device, seen) && seen.name != device
    case CheckingSize(device) => exists seen :: log == StageMounted(req, device, seen) && seen.name != device
    case Resizing(device) =>
      exists seen: PathSeen :: seen.name != device
        && log == StageMounted(req, device, seen) + [Asked(NeedResize(device, req.target), Answer(true))]
    case Unlocking(r) => r == Ok ==> StageTalked(req, log)
    case Replied(r) => r == Ok ==> StageTalked(req, UpToRelease(log))
    case Stuck => true
    case _ => false
  }

  lemma StageBegins(req: StageRequest, log: seq<Deal>, pc: PC, deal: Deal)
    requires StageStory(req, pc, log) && (pc.Scanning? || pc.FindingDevice?) && IsNext(Stage(req), pc, deal)
    ensures StageStory(req, Goes(Stage(req), pc, deal), log + [deal])
  {
    if pc.Scanning? {
      assert log + [deal] == [deal];
    } else if deal.told.Found? {
      assert log + [deal] == StageBegun(req, deal.told.device);
    }
  }

  lemma StageToReading(req: StageRequest, log: seq<Deal>, pc: PC, told: Told)
    requires StageStory(req, pc, log) && (pc.CheckingPath? || pc.MakingPath?) && Asks(Stage(req), pc).Some?
    requires Fitting(Asks(Stage(req), pc).value, told)
    ensures StageStory(req, Next(Stage(req), pc, told), log + [Asked(Asks(Stage(req), pc).value, told)])
  {
    var device := pc.device;
    assert DirMade(req.target, true) == [Asked(ExistsPath(req.target), Answer(true))];
    if pc.MakingPath? {
      assert log + [Asked(MakePath(req.target), Done)] == StageBegun(req, device) + DirMade(req.target, false);
    }
  }

  lemma StageReads(req: StageRequest, log: seq<Deal>, device: string, told: Told)
    requires StageStory(req, ReadingDevice(device), log) && Fitting(GetDeviceName(req.target), told)
    requires req.cap.Some? && req.cap.value.access.MountAccess?
    ensures StageStory(req, Next(Stage(req), ReadingDevice(device), told),
                       log + [Asked(GetDeviceName(req.target), told)])
  {
    var there :| log == StageBegun(req, device) + DirMade(req.target, there);
    if told.Device? {
      var seen := PathSeen(there, told.name, told.refCount);
      assert log + [Asked(GetDeviceName(req.target), told)] == StageLooked(req, device, seen);
      if told.name == device {
        assert StageTalk(req, device, seen, false) == StageLooked(req, device, seen);
      }
    }
  }

  lemma StageFits(req: StageRequest, log: seq<Deal>, pc: PC, told: Told)
    requires StageStory(req, pc, log) && (pc.Formatting? || pc.CheckingSize? || pc.Resizing?)
    requires Asks(Stage(req), pc).Some? && Fitting(Asks(Stage(req), pc).value, told)
    requires req.cap.Some? && req.cap.value.access.MountAccess?
    ensures StageStory(req, Next(Stage(req), pc, told), log + [Asked(Asks(Stage(req), pc).value, told)])
  {
    var device := pc.device;
    match pc
    case Formatting(_) =>
      var seen :| log == StageLooked(req, device, seen) && seen.name != device;
      if told == Done {
        assert log + [Asked(Asks(Stage(req), pc).value, told)] == StageMounted(req, device, seen);
      }
    case CheckingSize(_) =>
      var seen :| log == StageMounted(req, device, seen) && seen.name != device;
      if told == Answer(false) {
        assert log + [Asked(NeedResize(device, req.target), told)] == StageTalk(req, device, seen, false);
      }
    case Resizing(_) =>
      var seen: PathSeen :| seen.name != device
        && log == StageMounted(req, device, seen) + [Asked(NeedResize(device, req.target), Answer(true))];
      if told == Done {
        assert log + [Asked(Resize(device, req.target), told)] == StageTalk(req, device, seen, true);
      }
  }

  lemma StageAskGoes(req: StageRequest, log: seq<Deal>, pc: PC, deal: Deal)
    requires StageStory(req, pc, log) && SoFar(Stage(req), log, pc) && IsNext(Stage(req), pc, deal)
    ensures StageStory(req, Goes(Stage(req), pc, deal), log + [deal])
  {
    match pc
    case Scanning => StageBegins(req, log, pc, deal);
    case FindingDevice => StageBegins(req, log, pc, deal);
    case CheckingPath(_) => StageToReading(req, log, pc, deal.told);
    case MakingPath(_) => StageToReading(req, log, pc, deal.told);
    case ReadingDevice(device) => StageReads(req, log, device, deal.told);
    case Formatting(_) => StageFits(req, log, pc, deal.told);
    case CheckingSize(_) => StageFits(req, log, pc, deal.told);
    case Resizing(_) => StageFits(req, log, pc, deal.told);
    case _ =>
  }

  lemma StageGoes(req: StageRequest, log: seq<Deal>, pc: PC, deal: Deal)
    requires StageStory(req, pc, log) && SoFar(Stage(req), log, pc)
    ensures StageStory(req, Goes(Stage(req), pc, deal), log + [deal])
  {
    if IsNext(Stage(req), pc, deal) {
      StageAskGoes(req, log, pc, deal);
    } else if deal == Freed && pc.Unlocking? {
      assert UpToRelease(log + [Freed]) == log;
    }
  }

  ghost predicate UndoingStory(call: Call, pc: PC, log: seq<Deal>)
    requires call.Unstage? || call.Unpublish?
  {
    match pc
    case Locking => log == []
    case ReadingReferences => log == [Tried(true)]
    case TakingOff(device) => exists refCount :: 0 < refCount && log == ReferencesRead(call.target, device, refCount)
    case RemovingDevice(device) =>
      exists refCount, told :: 0 < refCount && Unmounted(told)
        && log == ReferencesRead(call.target, device, refCount) + [Asked(Unmount(call.target), told)]
    case TakingOffTarget => log == [Tried(true)]
    case Unlocking(r) => r == Ok ==> Talked(call, log)
    case Replied(r) => r == Ok ==> Talked(call, UpToRelease(log))
    case Stuck => true
    case _ => false
  }

  function ReferencesRead(target: string, device: string, refCount: nat): seq<Deal> {
    [Tried(true), Asked(GetDeviceName(target), Device(device, refCount))]
  }

  lemma UnstageReads(call: Call, log: seq<Deal>, deal: Deal)
    requires call.Unstage? && UndoingStory(call, ReadingReferences, log) && IsNext(call, ReadingReferences, deal)
    ensures UndoingStory(call, Goes(call, ReadingReferences, deal), log + [deal])
  {
    if deal.told.Device? {
      assert log + [deal] == ReferencesRead(call.target, deal.told.name, deal.told.refCount);
      if deal.told.refCount == 0 {
        assert log + [deal] == UnstageTalk(call.target, deal.told.name, 0, Done);
      }
    }
  }

  lemma UnstageTakesOff(call: Call, log: seq<Deal>, device: string, deal: Deal)
    requires call.Unstage? && UndoingStory(call, TakingOff(device), log) && IsNext(call, TakingOff(device), deal)
    ensures UndoingStory(call, Goes(call, TakingOff(device), deal), log + [deal])
  {
    var refCount :| 0 < refCount && log == ReferencesRead(call.target, device, refCount);
  }

  lemma UnstageRemoves(call: Call, log: seq<Deal>, device: string, deal: Deal)
    requires call.Unstage? && UndoingStory(call, RemovingDevice(device), log)
    requires IsNext(call, RemovingDevice(device), deal)
    ensures UndoingStory(call, Goes(call, RemovingDevice(device), deal), log + [deal])
  {
    var refCount, told :| 0 < refCount && Unmounted(told)
      && log == ReferencesRead(call.target, device, refCount) + [Asked(Unmount(call.target), told)];
    if deal.told == Done {
      assert log + [deal] == UnstageTalk(call.target, device, refCount, told);
    }
  }

  lemma UnpublishTakesOff(call: Call, log: seq<Deal>, deal: Deal)
    requires call.Unpublish? && UndoingStory(call, TakingOffTarget, log) && IsNext(call, TakingOffTarget, deal)
    ensures UndoingStory(call, Goes(call, TakingOffTarget, deal), log + [deal])
  {
  }

  lemma UndoingAskGoes(call: Call, log: seq<Deal>, pc: PC, deal: Deal)
    requires call.Unstage? || call.Unpublish?
    requires UndoingStory(call, pc, log) && OfKind(call, pc) && IsNext(call, pc, deal)
    ensures UndoingStory(call, Goes(call, pc, deal), log + [deal])
  {
    match pc
    case ReadingReferences => UnstageReads(call, log, deal);
    case TakingOff(device) => UnstageTakesOff(call, log, device, deal);
    case RemovingDevice(device) => UnstageRemoves(call, log, device, deal);
    case TakingOffTarget => UnpublishTakesOff(call, log, deal);
  }

  lemma UndoingLocks(call: Call, log: seq<Deal>, pc: PC, deal: Deal)
    requires call.Unstage? || call.Unpublish?
    requires UndoingStory(call, pc, log) && (pc == Locking || pc.Unlocking?) && !deal.Asked?
    ensures UndoingStory(call, Goes(call, pc, deal), log + [deal])
  {
    if deal == Freed {
      assert UpToRelease(log + [Freed]) == log;
    } else if pc == Locking {
      assert log + [deal] == [deal];
    }
  }

  lemma UndoingGoes(call: Call, log: seq<Deal>, pc: PC, deal: Deal)
    requires call.Unstage? || call.Unpublish?
    requires UndoingStory(call, pc, log) && (IsNext(call, pc, deal) ==> OfKind(call, pc))
    ensures UndoingStory(call, Goes(call, pc, deal), log + [deal])
  {
    if Goes(call, pc, deal) != Stuck {
      if deal.Asked? {
        UndoingAskGoes(call, log, pc, deal);
      } else {
        UndoingLocks(call, log, pc, deal);
      }
    }
  }

  ghost predicate ExpandStory(target: string, cap: Option<Capability>, pc: PC, log: seq<Deal>) {
    match pc
    case Locking => log == []
    case CheckingBlock => cap.None? && log == [Tried(true)]
    case ReadingVolume => log == ExpandBegun(target, cap) && (cap.Some? ==> !cap.value.access.BlockAccess?)
    case Rescanning(device) => Expanding(target, cap, device, log, 0)
    case Growing(device) => Expanding(target, cap, device, log, 1)
    case Measuring(device) =>
      || Expanding(target, cap, device, log, 2)
      || (cap.None? && log == [Tried(true), Asked(IsBlockDevice(target), Answer(true))] && device == target)
    case Unlocking(r) => r == Ok ==> ExpandTalked(target, cap, log)
    case Replied(r) => r == Ok ==> ExpandTalked(target, cap, UpToRelease(log))
    case Stuck => true
    case _ => false
  }

  function ExpandBegun(target: string, cap: Option<Capability>): seq<Deal> {
    [Tried(true)] + if cap.None? then [Asked(IsBlockDevice(target), Answer(false))] else []
  }

  // The device of the path has been read, and so many of the calls after that made.
  ghost predicate Expanding(target: string, cap: Option<Capability>, device: string, log: seq<Deal>, made: nat)
    requires made <= 2
  {
    && (cap.Some? ==> !cap.value.access.BlockAccess?)
    && exists refCount ::
      log == ExpandBegun(target, cap) + [Asked(GetDeviceName(target), Device(device, refCount))]
        + [Asked(RescanStorageDevice(device), Done), Asked(Resize(device, target), Done)][..made]
  }

  lemma ExpandAskGoes(volume: string, target: string, cap: Option<Capability>, log: seq<Deal>, pc: PC, deal: Deal)
    requires ExpandStory(target, cap, pc, log) && IsNext(Expand(volume, target, cap), pc, deal)
    ensures ExpandStory(target, cap, Goes(Expand(volume, target, cap), pc, deal), log + [deal])
  {
    match pc
    case CheckingBlock => ExpandChecks(volume, target, cap, log, deal);
    case ReadingVolume => ExpandReads(volume, target, cap, log, deal);
    case Rescanning(_) => ExpandGrows(volume, target, cap, log, pc, deal);
    case Growing(_) => ExpandGrows(volume, target, cap, log, pc, deal);
    case Measuring(_) => ExpandGrows(volume, target, cap, log, pc, deal);
    case _ =>
  }

  lemma ExpandLocked(volume: string, target: string, cap: Option<Capability>)
    ensures ExpandStory(target, cap, AfterLock(Expand(volume, target, cap)), [Tried(true)])
  {
  }

  lemma ExpandGoes(volume: string, target: string, cap: Option<Capability>, log: seq<Deal>, pc: PC, deal: Deal)
    requires ExpandStory(target, cap, pc, log)
    ensures ExpandStory(target, cap, Goes(Expand(volume, target, cap), pc, deal), log + [deal])
  {
    if IsNext(Expand(volume, target, cap), pc, deal) {
      ExpandAskGoes(volume, target, cap, log, pc, deal);
    } else if deal == Freed && pc.Unlocking? {
      assert UpToRelease(log + [Freed]) == log;
    } else if deal == Tried(true) && pc == Locking {
      ExpandLocked(volume, target, cap);
      assert log + [deal] == [deal];
    }
  }

  lemma ExpandChecks(volume: string, target: string, cap: Option<Capability>, log: seq<Deal>, deal: Deal)
    requires ExpandStory(target, cap, CheckingBlock, log) && IsNext(Expand(volume, target, cap), CheckingBlock, deal)
    ensures ExpandStory(target, cap, Goes(Expand(volume, target, cap), CheckingBlock, deal), log + [deal])
  {
    if deal.told == Answer(false) {
      assert log + [deal] == ExpandBegun(target, cap);
    }
  }

  lemma ExpandReads(volume: string, target: string, cap: Option<Capability>, log: seq<Deal>, deal: Deal)
    requires ExpandStory(target, cap, ReadingVolume, log) && IsNext(Expand(volume, target, cap), ReadingVolume, deal)
    ensures ExpandStory(target, cap, Goes(Expand(volume, target, cap), ReadingVolume, deal), log + [deal])
  {
    if deal.told.Device? {
      assert log + [deal] ==
        ExpandBegun(target, cap) + [Asked(GetDeviceName(target), Device(deal.told.name, deal.told.refCount))]
        + [Asked(RescanStorageDevice(deal.told.name), Done), Asked(Resize(deal.told.name, target), Done)][..0];
    }
  }

  lemma ExpandGrows(volume: string, target: string, cap: Option<Capability>, log: seq<Deal>, pc: PC, deal: Deal)
    requires ExpandStory(target, cap, pc, log) && (pc.Rescanning? || pc.Growing? || pc.Measuring?)
    requires IsNext(Expand(volume, target, cap), pc, deal)
    ensures ExpandStory(target, cap, Goes(Expand(volume, target, cap), pc, deal), log + [deal])
  {
    var device := pc.device;
    var made := if pc.Rescanning? then 0 else if pc.Growing? then 1 else 2;
    if Expanding(target, cap, device, log, made) && deal.told == Done {
      var refCount :|
        log == ExpandBegun(target, cap) + [Asked(GetDeviceName(target), Device(device, refCount))]
          + [Asked(RescanStorageDevice(device), Done), Asked(Resize(device, target), Done)][..made];
      if made < 2 {
        assert log + [deal] ==
          ExpandBegun(target, cap) + [Asked(GetDeviceName(target), Device(device, refCount))]
          + [Asked(RescanStorageDevice(device), Done), Asked(Resize(device, target), Done)][..made + 1];
      } else {
        assert log + [deal] == ExpandTalk(target, cap, device, refCount);
      }
    }
  }

  ghost predicate PublishStory(req: PublishRequest, pc: PC, log: seq<Deal>) {
    match pc
    case Locking => log == []
    case FindingDevice => IsBlock(req) && log == [Tried(true)]
    case CheckingPath(device) => IsBlock(req) && log == PublishFound(req, device)
    case MakingPath(device) =>
      IsBlock(req) && log == PublishFound(req, device) + [Asked(ExistsPath(DirOf(req.target)), Answer(false))]
    case MakingTarget(source) => IsSource(req, source) && exists there :: log == PublishBegun(req, source, there)
    case CheckingMount(source) => IsSource(req, source) && exists there :: log == PublishReady(req, source, there)
    case CheckingCorruption(source) =>
      && IsSource(req, source)
      && exists there, error ::
        log == PublishReady(req, source, there) + LooksFailed(req.target, error) && error != NotExist
    case TakingOffCorrupted(source) =>
      && IsSource(req, source)
      && exists there, error ::
        && log == PublishReady(req, source, there) + LooksFailed(req.target, error)
          + [Asked(ExistsPath(req.target), Failed(CorruptedMount))]
        && error != NotExist
    case Binding(source) =>
      && IsSource(req, source)
      && exists there, sight ::
        log == PublishReady(req, source, there) + Looked(req.target, sight)
        && sight != Healthy && sight != Corrupted(NotExist)
    case Unlocking(r) => r == Ok ==> PublishTalked(req, log)
    case Replied(r) => r == Ok ==> PublishTalked(req, UpToRelease(log))
    case CleaningUp => true
    case Stuck => true
    case _ => false
  }

  // What the publish mounts.
  predicate IsSource(req: PublishRequest, source: string) {
    IsBlock(req) || (req.cap.Some? && req.cap.value.access.MountAccess? && source == req.staging)
  }

  function PublishFound(req: PublishRequest, device: string): seq<Deal> {
    [Tried(true), Asked(FindDevicePath(DevicePathName(Publish(req))), Found(device))]
  }

  function LooksFailed(target: string, error: MountError): seq<Deal> {
    [Asked(IsLikelyNotMountPoint(target), Failed(error))]
  }

  lemma PublishToTarget(req: PublishRequest, log: seq<Deal>, pc: PC, deal: Deal)
    requires PublishStory(req, pc, log) && (pc.CheckingPath? || pc.MakingPath? || pc.MakingTarget?)
    requires IsNext(Publish(req), pc, deal)
    ensures PublishStory(req, Goes(Publish(req), pc, deal), log + [deal])
  {
    match pc
    case CheckingPath(device) =>
      if deal.told == Answer(true) {
        assert log + [deal] == PublishBegun(req, device, true);
      }
    case MakingPath(device) =>
      if deal.told == Done {
        assert log + [deal] == PublishBegun(req, device, false);
      }
    case MakingTarget(source) =>
      var there :| log == PublishBegun(req, source, there);
      if deal.told == Done {
        assert log + [deal] == PublishReady(req, source, there);
      }
  }

  // A publish that finds nothing mounted, or has taken it off.
  lemma PublishMayMount(req: PublishRequest, log: seq<Deal>, source: string, there: bool, sight: Sight)
    requires IsSource(req, source) && sight != Healthy && sight != Corrupted(NotExist)
    requires log == PublishReady(req, source, there) + Looked(req.target, sight)
    ensures PublishStory(req, ToMount(Publish(req), source), log)
  {
  }

  // What the publish sees on its target.
  lemma PublishLooks(req: PublishRequest, log: seq<Deal>, source: string, deal: Deal)
    requires PublishStory(req, CheckingMount(source), log) && IsNext(Publish(req), CheckingMount(source), deal)
    ensures PublishStory(req, Goes(Publish(req), CheckingMount(source), deal), log + [deal])
  {
    var there :| log == PublishReady(req, source, there);
    if deal.told == Answer(false) {
      assert log + [deal] == PublishTalk(req, source, there, Healthy);
    } else if deal.told == Answer(true) {
      PublishMayMount(req, log + [deal], source, there, Bare);
    } else if deal.told == Failed(NotExist) {
      PublishMayMount(req, log + [deal], source, there, Missing);
    } else {
      assert log + [deal] == PublishReady(req, source, there) + LooksFailed(req.target, deal.told.error);
    }
  }

  lemma PublishSuspects(req: PublishRequest, log: seq<Deal>, source: string, deal: Deal)
    requires PublishStory(req, CheckingCorruption(source), log)
    requires IsNext(Publish(req), CheckingCorruption(source), deal)
    ensures PublishStory(req, Goes(Publish(req), CheckingCorruption(source), deal), log + [deal])
  {
    var there, error :| log == PublishReady(req, source, there) + LooksFailed(req.target, error) && error != NotExist;
    if deal.told == Failed(CorruptedMount) {
      assert deal == Asked(ExistsPath(req.target), Failed(CorruptedMount));
      assert PublishStory(req, TakingOffCorrupted(source), log + [deal]);
    }
  }

  lemma PublishClears(req: PublishRequest, log: seq<Deal>, source: string, deal: Deal)
    requires PublishStory(req, TakingOffCorrupted(source), log)
    requires IsNext(Publish(req), TakingOffCorrupted(source), deal)
    ensures PublishStory(req, Goes(Publish(req), TakingOffCorrupted(source), deal), log + [deal])
  {
    var there, error :|
      && log == PublishReady(req, source, there) + LooksFailed(req.target, error)
        + [Asked(ExistsPath(req.target), Failed(CorruptedMount))]
      && error != NotExist;
    if deal.told == Done {
      assert log + [deal] == PublishReady(req, source, there) + Looked(req.target, Corrupted(error));
      PublishMayMount(req, log + [deal], source, there, Corrupted(error));
    }
  }

  lemma PublishBinds(req: PublishRequest, log: seq<Deal>, source: string, deal: Deal)
    requires PublishStory(req, Binding(source), log) && IsNext(Publish(req), Binding(source), deal)
    ensures PublishStory(req, Goes(Publish(req), Binding(source), deal), log + [deal])
  {
    var there, sight :| log == PublishReady(req, source, there) + Looked(req.target, sight)
      && sight != Healthy && sight != Corrupted(NotExist);
    if deal.told == Done {
      assert deal == Asked(PublishMount(req, source), Done);
      assert log + [deal] == PublishTalk(req, source, there, sight);
    }
  }

  lemma PublishAskGoes(req: PublishRequest, log: seq<Deal>, pc: PC, deal: Deal)
    requires PublishStory(req, pc, log) && IsNext(Publish(req), pc, deal)
    ensures PublishStory(req, Goes(Publish(req), pc, deal), log + [deal])
  {
    match pc
    case CheckingMount(source) => PublishLooks(req, log, source, deal);
    case CheckingCorruption(source) => PublishSuspects(req, log, source, deal);
    case TakingOffCorrupted(source) => PublishClears(req, log, source, deal);
    case Binding(source) => PublishBinds(req, log, source, deal);
    case FindingDevice =>
    case CleaningUp =>
    case _ => PublishToTarget(req, log, pc, deal);
  }

  lemma PublishGoes(req: PublishRequest, log: seq<Deal>, pc: PC, deal: Deal)
    requires PublishStory(req, pc, log) && SoFar(Publish(req), log, pc)
    ensures PublishStory(req, Goes(Publish(req), pc, deal), log + [deal])
  {
    if IsNext(Publish(req), pc, deal) {
      PublishAskGoes(req, log, pc, deal);
    } else if deal == Freed && pc.Unlocking? {
      assert UpToRelease(log + [Freed]) == log;
    } else if deal == Tried(true) && pc == Locking {
      PublishLocked(req);
    }
  }

  lemma PublishLocked(req: PublishRequest)
    requires !OtherMode(req.cap)
    ensures PublishStory(req, AfterLock(Publish(req)), [Tried(true)])
  {
    if req.cap.Some? && req.cap.value.access.MountAccess? {
      assert PublishBegun(req, req.staging, true) == [Tried(true)];
    } else if req.cap.Some? && req.cap.value.access.NoAccess? {
      assert PublishTalk(req, "", true, Healthy) == [Tried(true)];
    }
  }

  // ---------- every conversation ----------

  ghost predicate Story(call: Call, pc: PC, log: seq<Deal>) {
    match call
    case Stage(req) => StageStory(req, pc, log)
    case Publish(req) => PublishStory(req, pc, log)
    case Expand(_, target, cap) => ExpandStory(target, cap, pc, log)
    case _ => UndoingStory(call, pc, log)
  }

  lemma StoryGoes(call: Call, log: seq<Deal>, pc: PC, deal: Deal)
    requires Story(call, pc, log) && SoFar(call, log, pc)
    ensures Story(call, Goes(call, pc, deal), log + [deal])
  {
    match call
    case Stage(req) => StageGoes(req, log, pc, deal);
    case Publish(req) => PublishGoes(req, log, pc, deal);
    case Expand(volume, target, cap) => ExpandGoes(volume, target, cap, log, pc, deal);
    case _ =>
      if IsNext(call, pc, deal) {
        AsksInHand(call, log, pc, deal.op);
      }
      UndoingGoes(call, log, pc, deal);
  }

  lemma {:induction false} WalkStory(call: Call, log: seq<Deal>)
    ensures Story(call, Walk(call, log), log)
  {
    if log != [] {
      var init, last := log[..|log| - 1], log[|log| - 1];
      WalkStory(call, init);
      WalkSoFar(call, init);
      StoryGoes(call, init, Walk(call, init), last);
      assert log == init + [last];
    }
  }

  // What a call was told decides its reply, and one that replies Ok had one of the
  // conversations that end well.
  ghost predicate Replies(call: Call, log: seq<Deal>, r: Reply) {
    Decided(call, log, r) && (r == Ok ==> Talked(call, UpToRelease(log)))
  }

  lemma EveryReply(call: Call, log: seq<Deal>, r: Reply)
    requires Walk(call, log) == Unlocking(r) || Walk(call, log) == Replied(r)
    ensures Replies(call, log, r)
  {
    ReplyDecided(call, log, r);
    WalkStory(call, log);
    if Walk(call, log).Unlocking? {
      NotFreedYet(call, log);
    }
    assert r == Ok ==> Talked(call, UpToRelease(log));
  }

  lemma AllReplies(call: Call)
    ensures forall log, r {:trigger Replies(call, log, r)} ::
      Walk(call, log) == Unlocking(r) || Walk(call, log) == Replied(r) ==> Replies(call, log, r)
  {
    forall log, r | Walk(call, log) == Unlocking(r) || Walk(call, log) == Replied(r)
      ensures Replies(call, log, r)
    {
      EveryReply(call, log, r);
    }
  }

  lemma NotFreedYet(call: Call, log: seq<Deal>)
    requires Walk(call, log).Unlocking?
    ensures UpToRelease(log) == log
  {
    if log != [] {
      assert Walk(call, log) == Goes(call, Walk(call, log[..|log| - 1]), log[|log| - 1]);
    }
  }
}
