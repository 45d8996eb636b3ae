/**
  The controller's volume calls as step machines over the cloud.

  Every call in flight is a handler with a program counter.  One step of a handler
  is one access to what it shares with others: taking or releasing a lock, or one
  request to the cloud.  Steps of all handlers, and the cloud's own completions of
  pending work, interleave freely; any request may fail.
 */
module Controller {
  import opened Wrappers
  import opened Sizes
  import opened CloudModel
  import Parameters
  import Topology

  // ---------- requests and responses ----------

  datatype AccessMode = SingleNodeWriter | OtherMode

  datatype Capability = Capability(mode: AccessMode, block: bool)

  // isValidVolumeCapabilities
  predicate ValidCapabilities(caps: seq<Capability>) {
    forall c :: c in caps ==> c.mode == SingleNodeWriter
  }

  datatype Request =
    | CreateVolume(
        name: string,
        range: Option<CapacityRange>,
        caps: seq<Capability>,
        params: Parameters.Pairs,
        topology: Option<Topology.Requirement>)
    | DeleteVolume(volume: string)
    | PublishVolume(volume: string, node: string, cap: Option<Capability>)
    | UnpublishVolume(volume: string, node: string)
    | ExpandVolume(volume: string, range: Option<CapacityRange>, cap: Option<Capability>)
  {
    // The key the handler locks: the CSI name for a create, the disk's id otherwise.
    function Key(): string {
      if CreateVolume? then name else volume
    }
  }

  datatype Code = InvalidArgument | Aborted | NotFound | AlreadyExists | Internal

  datatype Response =
    | Created(id: string, capacityBytes: int64, zone: string)
    | Deleted
    | Published(devicePath: string)
    | Unpublished
    | Expanded(capacityBytes: int64, nodeExpansionRequired: bool)
    | Error(code: Code)

  // ---------- handlers ----------

  // Where a handler stands: what its next step is.
  datatype PC =
    | Validate
    | CheckNode
    | CheckDisk
    | Acquire
    | Lookup
    | Create
    | WaitReady(id: string)
    | Delete
    | Attach
    | WaitAttached
    | ReadDevicePath
    | Detach
    | WaitDetached
    | GetSize
    | Resize
    | WaitResized
    | GetNewSize
    | Release(response: Response)
    | Done(response: Response)

  // What the outside does to a step: it serves the request, refuses it with an
  // error, or serves it and loses the reply.  A wait may find its time expired
  // instead.  A listing that is not empty also says which disk comes first, and an
  // accepted create under which id.
  datatype Answer =
    | Served
    | Refused
    | Lost
    | Expired
    | First(id: string)
    | Made(id: string)
    | MadeButLost(id: string)

  predicate Fits(c: Cloud, req: Request, pc: PC, answer: Answer) {
    match pc
    case Validate => answer == Served
    case Acquire => answer == Served
    case Release(_) => answer == Served
    case Done(_) => false
    case Lookup =>
      || answer == Refused
      || (answer == Served && !HasName(c, req.Key()))
      || (answer.First? && answer.id in c.disks && Named(c.disks[answer.id], req.Key()))
    case Create =>
      || answer == Refused
      || ((answer.Made? || answer.MadeButLost?) && answer.id !in c.seen && answer.id != "")
    case Delete => answer == Served || answer == Refused || answer == Lost
    case Attach => answer == Served || answer == Refused || answer == Lost
    case Detach => answer == Served || answer == Refused || answer == Lost
    case Resize => answer == Served || answer == Refused || answer == Lost
    case WaitReady(_) => answer == Served || answer == Refused || answer == Expired
    case WaitAttached => answer == Served || answer == Refused || answer == Expired
    case WaitDetached => answer == Served || answer == Refused || answer == Expired
    case WaitResized => answer == Served || answer == Refused || answer == Expired
    case _ => answer == Served || answer == Refused
  }

  // The checks a handler makes on its own arguments, before anything else.
  function Validated(req: Request): PC {
    match req
    case CreateVolume(name, range, caps, _, _) =>
      if name == "" then Done(Error(InvalidArgument))
      else if VolSizeBytes(range).None? then Done(Error(InvalidArgument))
      else if caps == [] then Done(Error(InvalidArgument))
      else if !ValidCapabilities(caps) then Done(Error(InvalidArgument))
      else Acquire
    case DeleteVolume(volume) =>
      if volume == "" then Done(Error(InvalidArgument)) else Acquire
    case PublishVolume(volume, node, cap) =>
      if volume == "" || node == "" || cap.None? then Done(Error(InvalidArgument))
      else if !ValidCapabilities([cap.value]) then Done(Error(InvalidArgument))
      else CheckNode
    case UnpublishVolume(volume, node) =>
      if volume == "" || node == "" then Done(Error(InvalidArgument)) else CheckNode
    case ExpandVolume(volume, range, _) =>
      if volume == "" || range.None? then Done(Error(InvalidArgument))
      else if SizeWithinLimit(range.value).None? then Done(Error(InvalidArgument))
      else GetSize
  }

  // The first step inside the critical section.
  function Locked(req: Request): PC {
    match req
    case CreateVolume(_, _, _, _, _) => Lookup
    case DeleteVolume(_) => Delete
    case PublishVolume(_, _, _) => Attach
    case UnpublishVolume(_, _) => Detach
    case ExpandVolume(_, _, _) => GetSize
  }

  // The GiB a create or an expand wants the disk to have.
  function WantedGiB(req: Request): int64 {
    match req
    case CreateVolume(_, range, _, _, _) =>
      var bytes := VolSizeBytes(range);
      if bytes.Some? then DiskCapacity(bytes.value) else 0
    case ExpandVolume(_, range, _) =>
      if range.Some? then CapacityFor(range.value.required) else 0
    case _ => 0
  }

  function CreatedFrom(id: string, disk: Disk): Response {
    Created(id, GiBToBytes(disk.sizeGiB), disk.zone)
  }

  function ExpandedFrom(req: Request, gib: int64): Response {
    Expanded(GiBToBytes(gib), !(req.ExpandVolume? && req.cap.Some? && req.cap.value.block))
  }

  function Failure(code: Code): PC {
    Release(Error(code))
  }

  // CreateVolume between TryAcquire and Release.
  function CreateStep(c: Cloud, req: Request, pc: PC, answer: Answer): (Cloud, PC)
    requires req.CreateVolume? && Fits(c, req, pc, answer)
  {
    match pc
    case Lookup =>
      if answer == Refused then (c, Failure(Internal))
      else if answer.First? then
        var disk := c.disks[answer.id];
        if disk.sizeGiB != WantedGiB(req) then (c, Failure(AlreadyExists))
        else (c, Release(CreatedFrom(answer.id, disk)))
      else if Parameters.Collect(req.name, req.params).None? then (c, Failure(InvalidArgument))
      else if Topology.PickedZone(req.topology) == "" then (c, Failure(Internal))
      else (c, Create)
    case Create =>
      if answer == Refused then (c, Failure(Internal))
      else
        var made := NewDisk(req);
        var c' := Cloud(c.disks[answer.id := made], c.seen + {answer.id});
        if answer.MadeButLost? || made.sizeGiB == 0 then (c', Failure(Internal))
        else (c', WaitReady(answer.id))
    case WaitReady(id) =>
      if answer != Served || id !in c.disks then (c, Failure(Internal))
      else if c.disks[id].status == Ready then
        (c, Release(Created(id, GiBToBytes(WantedGiB(req)), Topology.PickedZone(req.topology))))
      else (c, pc)
    case _ => (c, pc)
  }

  function NewDisk(req: Request): Disk
    requires req.CreateVolume?
  {
    var collected := Parameters.Collect(req.name, req.params);
    Disk(
      if collected.Some? then collected.value.tags else map[],
      if collected.Some? then collected.value.volumeType else "",
      Topology.PickedZone(req.topology), WantedGiB(req), Creating, [])
  }

  // DeleteVolume, ControllerPublishVolume and ControllerUnpublishVolume between
  // TryAcquire and Release.
  function SectionStep(c: Cloud, req: Request, pc: PC, answer: Answer): (Cloud, PC)
    requires !req.CreateVolume? && Fits(c, req, pc, answer)
  {
    var v := req.volume;
    match pc
    case Delete =>
      var c' := c.(disks := c.disks - {v});
      if answer == Refused then (c, Failure(Internal))
      else if answer == Lost then (c', Failure(Internal))
      else (c', Release(Deleted))
    case Attach =>
      if answer == Refused || !req.PublishVolume? then (c, Failure(Internal))
      else if v !in c.disks then (c, Failure(Internal))
      else if c.disks[v].attachments != [] then (c, Failure(Internal))
      else
        var c' := SetAttachments(c, v, [Attachment(req.node, "", Attaching)]);
        if answer == Lost then (c', Failure(Internal)) else (c', WaitAttached)
    case WaitAttached =>
      if answer != Served || v !in c.disks then (c, Failure(Internal))
      else if CurrentState(c.disks[v].attachments) == Attached then (c, ReadDevicePath)
      else (c, pc)
    case ReadDevicePath =>
      if answer == Refused || v !in c.disks then (c, Failure(Internal))
      else if c.disks[v].attachments == [] || c.disks[v].attachments[0].devicePath == "" then (c, Failure(Internal))
      else (c, Release(Published(c.disks[v].attachments[0].devicePath)))
    case Detach =>
      if answer == Refused || !req.UnpublishVolume? then (c, Failure(Internal))
      else if v !in c.disks || !AttachedTo(c.disks[v], req.node) then
        if answer == Lost then (c, Failure(Internal)) else (c, Release(Unpublished))
      else
        var c' := SetAttachments(c, v, WithDetaching(c.disks[v].attachments, req.node));
        if answer == Lost then (c', Failure(Internal)) else (c', WaitDetached)
    case WaitDetached =>
      if answer != Served then (c, Failure(Internal))
      else if v !in c.disks then (c, Release(Unpublished))
      else if CurrentState(c.disks[v].attachments) == Detached then (c, Release(Unpublished))
      else (c, pc)
    case _ => (c, pc)
  }

  function SetAttachments(c: Cloud, v: string, attachments: seq<Attachment>): Cloud
    requires v in c.disks
  {
    c.(disks := c.disks[v := c.disks[v].(attachments := attachments)])
  }

  // The attachments after a detach from a node has been accepted.
  function WithDetaching(attachments: seq<Attachment>, node: string): seq<Attachment> {
    seq(|attachments|, i requires 0 <= i < |attachments| =>
      if attachments[i].node == node && attachments[i].status != Detached
      then attachments[i].(status := Detaching) else attachments[i])
  }

  // ControllerExpandVolume after its checks; it takes no lock.
  function ExpandStep(c: Cloud, req: Request, pc: PC, answer: Answer): (Cloud, PC)
    requires req.ExpandVolume? && Fits(c, req, pc, answer)
  {
    var v := req.volume;
    if v !in c.disks || answer == Refused || answer == Expired then (c, Done(Error(Internal)))
    else
      var disk := c.disks[v];
      var desired := WantedGiB(req);
      match pc
      case GetSize =>
        if Wrap(desired - disk.sizeGiB) < 0 then (c, Done(Error(Internal)))
        else if disk.sizeGiB >= desired then (c, Done(ExpandedFrom(req, disk.sizeGiB)))
        else (c, Resize)
      case Resize =>
        var c' := c.(disks := c.disks[v := disk.(sizeGiB := desired, status := Updating)]);
        (c', if answer == Lost then Done(Error(Internal)) else WaitResized)
      case WaitResized =>
        (c, if disk.status == Ready then GetNewSize else WaitResized)
      case GetNewSize => (c, Done(ExpandedFrom(req, disk.sizeGiB)))
      case _ => (c, pc)
  }

  // Any step of a handler other than taking or releasing its lock.
  function OwnStep(c: Cloud, req: Request, pc: PC, answer: Answer): (Cloud, PC)
    requires Fits(c, req, pc, answer)
  {
    if pc == Validate then (c, Validated(req))
    else if pc == CheckNode then (c, if answer == Served then CheckDisk else Done(Error(NotFound)))
    else if pc == CheckDisk then
      (c, if answer == Refused then Done(Error(Internal))
          else if req.Key() !in c.disks then Done(Error(NotFound))
          else Acquire)
    else match req
      case CreateVolume(_, _, _, _, _) => CreateStep(c, req, pc, answer)
      case ExpandVolume(_, _, _) => ExpandStep(c, req, pc, answer)
      case _ => SectionStep(c, req, pc, answer)
  }

  // ---------- the whole system ----------

  datatype Handler = Handler(req: Request, pc: PC)

  datatype World = World(cloud: Cloud, locks: set<string>, handlers: map<nat, Handler>)

  // A handler's own steps, the driver's restart, and the cloud's completions.
  datatype Step =
    | Arrive(p: nat, req: Request)
    | Move(p: nat, answer: Answer)
    | Leave(p: nat)
    | Crash
    | DiskReady(id: string)
    | AttachDone(id: string, devicePath: string)
    | AttachDropped(id: string)
    | DetachDone(id: string)
    | DetachGone(id: string)

  predicate Pending(c: Cloud, id: string, status: AttachmentStatus) {
    id in c.disks && |c.disks[id].attachments| == 1 && c.disks[id].attachments[0].status == status
  }

  predicate Enabled(w: World, step: Step) {
    match step
    case Arrive(p, _) => p !in w.handlers
    case Move(p, answer) => p in w.handlers && Fits(w.cloud, w.handlers[p].req, w.handlers[p].pc, answer)
    case Leave(p) => p in w.handlers && w.handlers[p].pc.Done?
    case Crash => true
    case DiskReady(id) => id in w.cloud.disks
    case AttachDone(id, _) => Pending(w.cloud, id, Attaching)
    case AttachDropped(id) => Pending(w.cloud, id, Attaching)
    case DetachDone(id) => Pending(w.cloud, id, Detaching)
    case DetachGone(id) => Pending(w.cloud, id, Detaching) || Pending(w.cloud, id, Detached)
  }

  // What the cloud does on its own to the attachments of a disk.
  function Completed(attachments: seq<Attachment>, step: Step): seq<Attachment> {
    if attachments == [] then []
    else match step
      case AttachDone(_, devicePath) => [attachments[0].(status := Attached, devicePath := devicePath)]
      case DetachDone(_) => [attachments[0].(status := Detached)]
      case AttachDropped(_) => []
      case DetachGone(_) => []
      case _ => attachments
  }

  function MoveHandler(w: World, p: nat, answer: Answer): World
    requires Enabled(w, Move(p, answer))
  {
    var h := w.handlers[p];
    match h.pc
    case Acquire =>
      if h.req.Key() in w.locks then w.(handlers := w.handlers[p := h.(pc := Done(Error(Aborted)))])
      else World(w.cloud, w.locks + {h.req.Key()}, w.handlers[p := h.(pc := Locked(h.req))])
    case Release(response) =>
      World(w.cloud, w.locks - {h.req.Key()}, w.handlers[p := h.(pc := Done(response))])
    case _ =>
      var (cloud, pc) := OwnStep(w.cloud, h.req, h.pc, answer);
      World(cloud, w.locks, w.handlers[p := h.(pc := pc)])
  }

  function Apply(w: World, step: Step): World
    requires Enabled(w, step)
  {
    match step
    case Arrive(p, req) =>
      var seen := if req.CreateVolume? then w.cloud.seen else w.cloud.seen + {req.volume};
      w.(cloud := w.cloud.(seen := seen), handlers := w.handlers[p := Handler(req, Validate)])
    case Move(p, answer) => MoveHandler(w, p, answer)
    case Leave(p) => w.(handlers := w.handlers - {p})
    case Crash => World(w.cloud, {}, map[])
    case DiskReady(id) =>
      w.(cloud := w.cloud.(disks := w.cloud.disks[id := w.cloud.disks[id].(status := Ready)]))
    case _ => w.(cloud := SetAttachments(w.cloud, step.id, Completed(w.cloud.disks[step.id].attachments, step)))
  }

  // A history: each state follows from the one before by an enabled step.
  ghost predicate Follows(w: World, w': World) {
    exists step :: Enabled(w, step) && w' == Apply(w, step)
  }

  ghost predicate Linked(ws: seq<World>, i: nat) {
    i + 1 < |ws| && Follows(ws[i], ws[i + 1])
  }

  ghost predicate IsRun(ws: seq<World>) {
    ws != [] && forall i: nat :: i + 1 < |ws| ==> Linked(ws, i)
  }
}
