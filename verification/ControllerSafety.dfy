/**
  What holds in every reachable state of the controller, whatever the interleaving
  of handlers, failures, retries, cloud completions and restarts of the driver.
 */
module ControllerSafety {
  import opened Wrappers
  import opened Sizes
  import opened CloudModel
  import opened Controller
  import Parameters
  import Topology

  // ---------- locks ----------

  // The handler is past a successful TryAcquire and has not released yet.
  predicate InSection(h: Handler) {
    match h.pc
    case Lookup => true
    case Create => true
    case WaitReady(_) => true
    case Delete => true
    case Attach => true
    case WaitAttached => true
    case ReadDevicePath => true
    case Detach => true
    case WaitDetached => true
    case Release(_) => true
    case _ => false
  }

  predicate Owns(w: World, p: nat, key: string) {
    p in w.handlers && InSection(w.handlers[p]) && w.handlers[p].req.Key() == key
  }

  ghost predicate LockInv(w: World) {
    && (forall p, key :: Owns(w, p, key) ==> key in w.locks)
    && (forall key :: key in w.locks ==> exists p :: Owns(w, p, key))
    && (forall p, q, key :: Owns(w, p, key) && Owns(w, q, key) ==> p == q)
  }

  // ---------- the cloud ----------

  predicate SizeInv(gib: int) {
    gib % 100 == 0 && -0x2_0000_0000 <= gib <= 0x2_0000_0000 + 100
  }

  predicate DiskInv(disk: Disk) {
    SizeInv(disk.sizeGiB) && |disk.attachments| <= 1
  }

  // At most one disk carries a CSI volume name.
  ghost predicate UniqueNames(c: Cloud) {
    forall a, b, name ::
      a in c.disks && b in c.disks && Named(c.disks[a], name) && Named(c.disks[b], name) ==> a == b
  }

  ghost predicate CloudInv(c: Cloud) {
    && (forall id :: id in c.disks ==> id in c.seen && DiskInv(c.disks[id]))
    && UniqueNames(c)
  }

  // ---------- handlers ----------

  // The program counter and the answer belong to the kind of request.
  predicate PcInv(req: Request, pc: PC) {
    match pc
    case Validate => true
    case CheckNode => req.PublishVolume? || req.UnpublishVolume?
    case CheckDisk => req.PublishVolume? || req.UnpublishVolume?
    case Acquire => !req.ExpandVolume?
    case Lookup => req.CreateVolume?
    case Create => req.CreateVolume? && Parameters.Collect(req.name, req.params).Some?
    case WaitReady(_) => req.CreateVolume?
    case Delete => req.DeleteVolume?
    case Attach => req.PublishVolume?
    case WaitAttached => req.PublishVolume?
    case ReadDevicePath => req.PublishVolume?
    case Detach => req.UnpublishVolume?
    case WaitDetached => req.UnpublishVolume?
    case GetSize => req.ExpandVolume?
    case Resize => req.ExpandVolume?
    case WaitResized => req.ExpandVolume?
    case GetNewSize => req.ExpandVolume?
    case Release(response) => !req.ExpandVolume? && ResponseInv(req, response)
    case Done(response) => ResponseInv(req, response)
  }

  predicate ResponseInv(req: Request, response: Response) {
    match response
    case Created(_, _, _) => req.CreateVolume?
    case Deleted => req.DeleteVolume?
    case Published(_) => req.PublishVolume?
    case Unpublished => req.UnpublishVolume?
    case Expanded(_, _) => req.ExpandVolume?
    case Error(_) => true
  }

  // A disk the handler has learned of under its CSI name; deletion may have come since.
  predicate KnownAs(c: Cloud, id: string, name: string, zone: string) {
    id in c.seen && (id in c.disks ==> Named(c.disks[id], name) && c.disks[id].zone == zone)
  }

  // What a handler may rely on at its program counter.
  ghost predicate HandlerInv(c: Cloud, h: Handler) {
    && PcInv(h.req, h.pc)
    && (!h.req.CreateVolume? ==> h.req.volume in c.seen)
    && match h.pc
       case Create => !HasName(c, h.req.name)
       case WaitReady(id) => KnownAs(c, id, h.req.name, Topology.PickedZone(h.req.topology))
       case WaitAttached => BeingAttached(c, h.req.volume, h.req.node)
       case ReadDevicePath =>
         BeingAttached(c, h.req.volume, h.req.node) && CurrentState(c.disks[h.req.volume].attachments) == Attached
       case WaitDetached => h.req.volume in c.disks ==> BeingDetached(c.disks[h.req.volume].attachments)
       case Release(response) => Achieved(c, h.req, response)
       case Done(response) => Lasting(c, h.req, response)
       case _ => true
  }

  predicate BeingAttached(c: Cloud, v: string, node: string) {
    && v in c.disks
    && var attachments := c.disks[v].attachments;
      attachments == []
      || (|attachments| == 1 && attachments[0].node == node
          && (attachments[0].status == Attaching || attachments[0].status == Attached))
  }

  predicate BeingDetached(attachments: seq<Attachment>) {
    forall a :: a in attachments ==> a.status == Detaching || a.status == Detached
  }

  // What a response promises while its handler still holds the lock.
  predicate Achieved(c: Cloud, req: Request, response: Response)
    requires ResponseInv(req, response)
  {
    match response
    case Published(devicePath) =>
      devicePath != "" && req.volume in c.disks
      && c.disks[req.volume].attachments == [Attachment(req.node, devicePath, Attached)]
    case Unpublished => req.volume in c.disks ==> !AttachedTo(c.disks[req.volume], req.node)
    case _ => Lasting(c, req, response)
  }

  // What it promises for ever after.
  predicate Lasting(c: Cloud, req: Request, response: Response)
    requires ResponseInv(req, response)
  {
    match response
    case Created(id, _, zone) => KnownAs(c, id, req.name, zone)
    case Deleted => req.volume !in c.disks
    case _ => true
  }

  ghost predicate Inv(w: World) {
    && LockInv(w)
    && CloudInv(w.cloud)
    && forall p :: p in w.handlers ==> HandlerInv(w.cloud, w.handlers[p])
  }

  // The driver starts with no handlers and no locks, over any cloud with one disk
  // to a name, at most one attachment to a disk, and sizes in 100 GiB units.
  ghost predicate Init(w: World) {
    w.handlers == map[] && w.locks == {} && CloudInv(w.cloud)
  }

  ghost predicate Reachable(w: World) {
    exists ws :: IsRun(ws) && Init(ws[0]) && ws[|ws| - 1] == w
  }

  // ---------- preservation ----------

  // The disk exists in both clouds or in neither, under the same tags, zone and attachments.
  predicate SameDisk(c: Cloud, c': Cloud, id: string) {
    && (id in c.disks <==> id in c'.disks)
    && (id in c.disks ==>
      && c'.disks[id].attachments == c.disks[id].attachments
      && c'.disks[id].tags == c.disks[id].tags
      && c'.disks[id].zone == c.disks[id].zone)
  }

  // What a change of the cloud may do at most: disks keep their tags and zone, and
  // no id seen before comes (back) to life.
  ghost predicate Evolves(c: Cloud, c': Cloud) {
    && c.seen <= c'.seen
    && (forall id :: id in c'.disks && id in c.seen ==> id in c.disks)
    && (forall id :: id in c'.disks && id in c.disks ==>
      c'.disks[id].tags == c.disks[id].tags && c'.disks[id].zone == c.disks[id].zone)
  }

  ghost predicate NoNewName(c: Cloud, c': Cloud, name: string) {
    HasName(c', name) ==> HasName(c, name)
  }

  // A handler's knowledge survives a change that leaves its disk alone and does not
  // give its name to a disk.
  lemma HandlerKeeps(c: Cloud, c': Cloud, h: Handler)
    requires HandlerInv(c, h) && Evolves(c, c')
    requires !h.req.CreateVolume? && InSection(h) ==> SameDisk(c, c', h.req.volume)
    requires h.req.CreateVolume? && InSection(h) ==> NoNewName(c, c', h.req.name)
    ensures HandlerInv(c', h)
  {
  }

  // Which disks and names a step of a handler outside TryAcquire and Release can
  // reach: only the disk it has locked, and only the name it has locked.
  ghost predicate Reach(c: Cloud, c': Cloud, req: Request, pc: PC) {
    && Evolves(c, c')
    && (forall id :: id in c.seen && !(InSection(Handler(req, pc)) && !req.CreateVolume? && id == req.volume) ==>
      SameDisk(c, c', id))
    && (forall name :: !(pc == Create && name == req.Key()) ==> NoNewName(c, c', name))
  }

  lemma OldDisksOldNames(c: Cloud, c': Cloud, name: string)
    requires Evolves(c, c') && c'.disks.Keys <= c.disks.Keys
    ensures NoNewName(c, c', name)
  {
  }

  // In its section a handler deletes its disk, or sets its attachments, or looks.
  lemma SectionStepShape(c: Cloud, req: Request, pc: PC, answer: Answer)
    requires !req.CreateVolume? && Fits(c, req, pc, answer)
    ensures var c' := SectionStep(c, req, pc, answer).0; var v := req.volume;
      || c' == c
      || c' == c.(disks := c.disks - {v})
      || (v in c.disks && v in c'.disks && c' == SetAttachments(c, v, c'.disks[v].attachments))
  {
  }

  lemma SectionStepReach(c: Cloud, req: Request, pc: PC, answer: Answer)
    requires CloudInv(c) && !req.CreateVolume? && Fits(c, req, pc, answer)
    requires InSection(Handler(req, pc))
    ensures Reach(c, SectionStep(c, req, pc, answer).0, req, pc)
  {
    var c' := SectionStep(c, req, pc, answer).0;
    SectionStepShape(c, req, pc, answer);
    assert Evolves(c, c') && c'.disks.Keys <= c.disks.Keys;
    forall name
      ensures NoNewName(c, c', name)
    {
      OldDisksOldNames(c, c', name);
    }
  }

  lemma ExpandStepReach(c: Cloud, req: Request, pc: PC, answer: Answer)
    requires CloudInv(c) && req.ExpandVolume? && Fits(c, req, pc, answer)
    ensures Reach(c, ExpandStep(c, req, pc, answer).0, req, pc)
  {
    var c' := ExpandStep(c, req, pc, answer).0;
    forall name
      ensures NoNewName(c, c', name)
    {
      OldDisksOldNames(c, c', name);
    }
  }

  lemma CreateStepReach(c: Cloud, req: Request, pc: PC, answer: Answer)
    requires CloudInv(c) && req.CreateVolume? && PcInv(req, pc) && Fits(c, req, pc, answer)
    ensures Reach(c, CreateStep(c, req, pc, answer).0, req, pc)
  {
    if pc == Create {
      NewDiskName(req);
    }
  }

  // A new disk carries exactly the CSI name of its request.
  lemma NewDiskName(req: Request)
    requires req.CreateVolume? && Parameters.Collect(req.name, req.params).Some?
    ensures forall name :: Named(NewDisk(req), name) <==> name == req.name
  {
    Parameters.VolumeNameTagIsKept(req.name, req.params);
  }

  lemma OwnStepReach(c: Cloud, req: Request, pc: PC, answer: Answer)
    requires CloudInv(c) && PcInv(req, pc) && Fits(c, req, pc, answer)
    requires !pc.Acquire? && !pc.Release?
    ensures Reach(c, OwnStep(c, req, pc, answer).0, req, pc)
  {
    if pc == Validate || pc == CheckNode || pc == CheckDisk {
    } else if req.CreateVolume? {
      CreateStepReach(c, req, pc, answer);
    } else if req.ExpandVolume? {
      ExpandStepReach(c, req, pc, answer);
    } else {
      SectionStepReach(c, req, pc, answer);
    }
  }

  lemma WantedSize(req: Request)
    ensures SizeInv(WantedGiB(req))
  {
    if req.CreateVolume? && VolSizeBytes(req.range).Some? {
      RoundUpCapacityIsCeiling(BytesToGiB(VolSizeBytes(req.range).value));
    } else if req.ExpandVolume? && req.range.Some? {
      RoundUpCapacityIsCeiling(BytesToGiB(RoundUpBytes(req.range.value.required)));
    }
  }

  lemma LookupStepInv(c: Cloud, req: Request, answer: Answer)
    requires CloudInv(c) && HandlerInv(c, Handler(req, Lookup)) && Fits(c, req, Lookup, answer)
    ensures var (c', pc') := CreateStep(c, req, Lookup, answer); c' == c && HandlerInv(c', Handler(req, pc'))
  {
  }

  lemma MakeStepInv(c: Cloud, req: Request, answer: Answer)
    requires CloudInv(c) && HandlerInv(c, Handler(req, Create)) && Fits(c, req, Create, answer)
    ensures var (c', pc') := CreateStep(c, req, Create, answer); CloudInv(c') && HandlerInv(c', Handler(req, pc'))
  {
    if answer != Refused {
      NewDiskName(req);
      WantedSize(req);
      BirthKeepsCloud(c, answer.id, NewDisk(req), req.name);
    }
  }

  // A disk born under an unused name and id.
  lemma BirthKeepsCloud(c: Cloud, id: string, disk: Disk, name: string)
    requires CloudInv(c) && id !in c.seen && DiskInv(disk) && !HasName(c, name)
    requires forall other :: Named(disk, other) <==> other == name
    ensures CloudInv(Cloud(c.disks[id := disk], c.seen + {id}))
  {
  }

  lemma WaitReadyStepInv(c: Cloud, req: Request, id: string, answer: Answer)
    requires CloudInv(c) && HandlerInv(c, Handler(req, WaitReady(id))) && Fits(c, req, WaitReady(id), answer)
    ensures var (c', pc') := CreateStep(c, req, WaitReady(id), answer); c' == c && HandlerInv(c', Handler(req, pc'))
  {
  }

  lemma DeleteStepInv(c: Cloud, req: Request, answer: Answer)
    requires CloudInv(c) && HandlerInv(c, Handler(req, Delete)) && Fits(c, req, Delete, answer)
    ensures var (c', pc') := SectionStep(c, req, Delete, answer); CloudInv(c') && HandlerInv(c', Handler(req, pc'))
  {
  }

  lemma PublishStepInv(c: Cloud, req: Request, pc: PC, answer: Answer)
    requires CloudInv(c) && HandlerInv(c, Handler(req, pc)) && Fits(c, req, pc, answer)
    requires pc == Attach || pc == WaitAttached || pc == ReadDevicePath
    ensures var (c', pc') := SectionStep(c, req, pc, answer); CloudInv(c') && HandlerInv(c', Handler(req, pc'))
  {
  }

  lemma DetachStepInv(c: Cloud, req: Request, answer: Answer)
    requires CloudInv(c) && HandlerInv(c, Handler(req, Detach)) && Fits(c, req, Detach, answer)
    ensures var (c', pc') := SectionStep(c, req, Detach, answer); CloudInv(c') && HandlerInv(c', Handler(req, pc'))
  {
    if req.volume in c.disks {
      DetachingAll(c.disks[req.volume], req.node);
    }
  }

  // A disk attached to the node, and so to no other, is on its way off after a detach.
  lemma DetachingAll(disk: Disk, node: string)
    requires DiskInv(disk)
    ensures |WithDetaching(disk.attachments, node)| == |disk.attachments|
    ensures AttachedTo(disk, node) ==> BeingDetached(WithDetaching(disk.attachments, node))
  {
  }

  lemma WaitDetachedStepInv(c: Cloud, req: Request, answer: Answer)
    requires CloudInv(c) && HandlerInv(c, Handler(req, WaitDetached)) && Fits(c, req, WaitDetached, answer)
    ensures var (c', pc') := SectionStep(c, req, WaitDetached, answer);
      CloudInv(c') && HandlerInv(c', Handler(req, pc'))
  {
  }

  lemma ExpandStepInv(c: Cloud, req: Request, pc: PC, answer: Answer)
    requires CloudInv(c) && HandlerInv(c, Handler(req, pc)) && Fits(c, req, pc, answer)
    requires req.ExpandVolume? && pc != Validate && !pc.Done?
    ensures var (c', pc') := ExpandStep(c, req, pc, answer); CloudInv(c') && HandlerInv(c', Handler(req, pc'))
  {
    WantedSize(req);
  }

  lemma SectionStepInv(c: Cloud, req: Request, pc: PC, answer: Answer)
    requires CloudInv(c) && HandlerInv(c, Handler(req, pc)) && Fits(c, req, pc, answer)
    requires InSection(Handler(req, pc)) && !pc.Release?
    ensures var (c', pc') := OwnStep(c, req, pc, answer); CloudInv(c') && HandlerInv(c', Handler(req, pc'))
  {
    match pc
    case Lookup => LookupStepInv(c, req, answer);
    case Create => MakeStepInv(c, req, answer);
    case WaitReady(id) => WaitReadyStepInv(c, req, id, answer);
    case Delete => DeleteStepInv(c, req, answer);
    case Detach => DetachStepInv(c, req, answer);
    case WaitDetached => WaitDetachedStepInv(c, req, answer);
    case _ => PublishStepInv(c, req, pc, answer);
  }

  lemma OwnStepInv(c: Cloud, req: Request, pc: PC, answer: Answer)
    requires CloudInv(c) && HandlerInv(c, Handler(req, pc)) && Fits(c, req, pc, answer)
    requires !pc.Acquire? && !pc.Release?
    ensures var (c', pc') := OwnStep(c, req, pc, answer); CloudInv(c') && HandlerInv(c', Handler(req, pc'))
  {
    if pc == Validate || pc == CheckNode || pc == CheckDisk {
    } else if req.ExpandVolume? {
      ExpandStepInv(c, req, pc, answer);
    } else {
      SectionStepInv(c, req, pc, answer);
    }
  }

  // ---------- one step of the system ----------

  // Locks after TryAcquire, Release, or any other change of one handler.
  lemma AcquireKeepsLocks(w: World, p: nat)
    requires LockInv(w) && p in w.handlers && w.handlers[p].pc == Acquire && !w.handlers[p].req.ExpandVolume?
    ensures LockInv(MoveHandler(w, p, Served))
  {
    var w' := MoveHandler(w, p, Served);
    var key := w.handlers[p].req.Key();
    forall k | k in w'.locks
      ensures exists q :: Owns(w', q, k)
    {
      if k in w.locks {
        var q :| Owns(w, q, k);
        assert Owns(w', q, k);
      } else {
        assert Owns(w', p, k);
      }
    }
    forall q, k | Owns(w', q, k)
      ensures k in w'.locks && (q == p || Owns(w, q, k))
    {
      if q != p {
        assert Owns(w, q, k);
      }
    }
  }

  lemma ReleaseKeepsLocks(w: World, p: nat)
    requires LockInv(w) && p in w.handlers && w.handlers[p].pc.Release?
    ensures LockInv(MoveHandler(w, p, Served))
  {
    var w' := MoveHandler(w, p, Served);
    var key := w.handlers[p].req.Key();
    assert Owns(w, p, key);
    forall q, k | Owns(w', q, k)
      ensures Owns(w, q, k) && k != key
    {
      assert q != p;
      assert Owns(w, q, k);
    }
    forall k | k in w'.locks
      ensures exists q :: Owns(w', q, k)
    {
      var q :| Owns(w, q, k);
      assert Owns(w', q, k);
    }
  }

  lemma SameOwnersSameLocks(w: World, w': World)
    requires LockInv(w) && w'.locks == w.locks
    requires forall p, key :: Owns(w', p, key) <==> Owns(w, p, key)
    ensures LockInv(w')
  {
  }

  // Another handler's knowledge survives the step of a handler that has the lock on
  // what it touches.
  lemma OthersKeep(w: World, p: nat, answer: Answer, q: nat)
    requires Inv(w) && Enabled(w, Move(p, answer)) && q in w.handlers && q != p
    requires !w.handlers[p].pc.Acquire? && !w.handlers[p].pc.Release?
    ensures HandlerInv(MoveHandler(w, p, answer).cloud, w.handlers[q])
  {
    var h, g := w.handlers[p], w.handlers[q];
    OwnStepReach(w.cloud, h.req, h.pc, answer);
    if InSection(g) {
      assert Owns(w, q, g.req.Key());
      if InSection(h) {
        assert Owns(w, p, h.req.Key());
        assert g.req.Key() != h.req.Key();
      }
    }
    HandlerKeeps(w.cloud, MoveHandler(w, p, answer).cloud, g);
  }

  lemma LockStepKeepsInv(w: World, p: nat)
    requires Inv(w) && Enabled(w, Move(p, Served)) && (w.handlers[p].pc.Acquire? || w.handlers[p].pc.Release?)
    ensures Inv(MoveHandler(w, p, Served))
  {
    LockStepKeepsHandler(w.cloud, w.handlers[p]);
    if w.handlers[p].pc.Acquire? {
      AcquireKeepsLocks(w, p);
    } else {
      ReleaseKeepsLocks(w, p);
    }
  }

  lemma LockStepKeepsHandler(c: Cloud, h: Handler)
    requires HandlerInv(c, h)
    ensures h.pc.Acquire? ==> HandlerInv(c, h.(pc := Locked(h.req))) && HandlerInv(c, h.(pc := Done(Error(Aborted))))
    ensures h.pc.Release? ==> HandlerInv(c, h.(pc := Done(h.pc.response)))
    ensures h.pc.Acquire? ==> !h.req.ExpandVolume?
  {
  }

  lemma OwnStepKeepsLocks(w: World, p: nat, answer: Answer)
    requires LockInv(w) && Enabled(w, Move(p, answer)) && PcInv(w.handlers[p].req, w.handlers[p].pc)
    requires !w.handlers[p].pc.Acquire? && !w.handlers[p].pc.Release?
    ensures LockInv(MoveHandler(w, p, answer))
  {
    var h := w.handlers[p];
    OwnStepStaysInSection(w.cloud, h.req, h.pc, answer);
    SameOwnersSameLocks(w, MoveHandler(w, p, answer));
  }

  lemma MoveKeepsInv(w: World, p: nat, answer: Answer)
    requires Inv(w) && Enabled(w, Move(p, answer))
    ensures Inv(MoveHandler(w, p, answer))
  {
    var h := w.handlers[p];
    var w' := MoveHandler(w, p, answer);
    if h.pc.Acquire? || h.pc.Release? {
      LockStepKeepsInv(w, p);
    } else {
      OwnStepKeepsLocks(w, p, answer);
      OwnStepInv(w.cloud, h.req, h.pc, answer);
      forall q | q in w'.handlers
        ensures HandlerInv(w'.cloud, w'.handlers[q])
      {
        if q != p {
          OthersKeep(w, p, answer, q);
        }
      }
    }
  }

  // Only TryAcquire enters a critical section and only Release leaves it.
  lemma OwnStepStaysInSection(c: Cloud, req: Request, pc: PC, answer: Answer)
    requires PcInv(req, pc) && Fits(c, req, pc, answer) && !pc.Acquire? && !pc.Release?
    ensures InSection(Handler(req, OwnStep(c, req, pc, answer).1)) <==> InSection(Handler(req, pc))
  {
  }

  predicate IsCompletion(step: Step) {
    step.DiskReady? || step.AttachDone? || step.AttachDropped? || step.DetachDone? || step.DetachGone?
  }

  // A change that makes no disk and keeps tags keeps names unique.
  lemma NoBirthKeepsCloud(c: Cloud, c': Cloud)
    requires CloudInv(c) && Evolves(c, c') && c'.disks.Keys <= c.disks.Keys
    requires forall id :: id in c'.disks ==> DiskInv(c'.disks[id])
    ensures CloudInv(c')
  {
    assert forall id, name :: id in c'.disks && Named(c'.disks[id], name) ==> Named(c.disks[id], name);
  }

  // A completion touches one disk, and of it the status or the one attachment.
  lemma CompletionReach(w: World, step: Step)
    requires CloudInv(w.cloud) && IsCompletion(step) && Enabled(w, step)
    ensures var c' := Apply(w, step).cloud;
      && Evolves(w.cloud, c') && c'.disks.Keys == w.cloud.disks.Keys
      && (forall id :: id in w.cloud.disks && id != step.id ==> c'.disks[id] == w.cloud.disks[id])
      && DiskInv(c'.disks[step.id])
  {
    var disk := w.cloud.disks[step.id];
    assert DiskInv(disk);
    if !step.DiskReady? {
      OneDiskChanged(w.cloud, step.id, disk.(attachments := Completed(disk.attachments, step)));
    } else {
      OneDiskChanged(w.cloud, step.id, disk.(status := Ready));
    }
  }

  lemma OneDiskChanged(c: Cloud, id: string, disk: Disk)
    requires id in c.disks && disk.tags == c.disks[id].tags && disk.zone == c.disks[id].zone
    ensures var c' := c.(disks := c.disks[id := disk]);
      && Evolves(c, c') && c'.disks.Keys == c.disks.Keys && c'.disks[id] == disk
      && forall other :: other in c.disks && other != id ==> c'.disks[other] == c.disks[other]
  {
  }

  // A completion on the disk a handler is working on.
  lemma CompletionKeepsHandler(w: World, step: Step, h: Handler)
    requires CloudInv(w.cloud) && IsCompletion(step) && Enabled(w, step)
    requires HandlerInv(w.cloud, h) && !h.req.CreateVolume? && h.req.volume == step.id
    ensures HandlerInv(Apply(w, step).cloud, h)
  {
  }

  lemma CompletionKeepsInv(w: World, step: Step)
    requires Inv(w) && IsCompletion(step) && Enabled(w, step)
    ensures Inv(Apply(w, step))
  {
    var w' := Apply(w, step);
    CompletionReach(w, step);
    NoBirthKeepsCloud(w.cloud, w'.cloud);
    forall p | p in w'.handlers
      ensures HandlerInv(w'.cloud, w'.handlers[p])
    {
      var h := w.handlers[p];
      OldDisksOldNames(w.cloud, w'.cloud, h.req.Key());
      if h.req.CreateVolume? || h.req.volume != step.id {
        HandlerKeeps(w.cloud, w'.cloud, h);
      } else {
        CompletionKeepsHandler(w, step, h);
      }
    }
    SameOwnersSameLocks(w, w');
  }

  lemma StepKeepsInv(w: World, step: Step)
    requires Inv(w) && Enabled(w, step)
    ensures Inv(Apply(w, step))
  {
    var w' := Apply(w, step);
    if step.Move? {
      MoveKeepsInv(w, step.p, step.answer);
    } else if IsCompletion(step) {
      CompletionKeepsInv(w, step);
    } else if step.Crash? {
    } else {
      assert forall p, key :: Owns(w', p, key) <==> Owns(w, p, key);
      forall q | q in w'.handlers && q in w.handlers
        ensures HandlerInv(w'.cloud, w'.handlers[q])
      {
        OldDisksOldNames(w.cloud, w'.cloud, w.handlers[q].req.Key());
        HandlerKeeps(w.cloud, w'.cloud, w.handlers[q]);
      }
    }
  }

  lemma FollowsKeepsInv(ws: seq<World>, i: nat)
    requires IsRun(ws) && i + 1 < |ws| && Inv(ws[i])
    ensures Inv(ws[i + 1])
  {
    assert Linked(ws, i);
    var step :| Enabled(ws[i], step) && ws[i + 1] == Apply(ws[i], step);
    StepKeepsInv(ws[i], step);
  }

  lemma {:induction false} RunKeepsInv(ws: seq<World>, i: nat)
    requires IsRun(ws) && Inv(ws[0]) && i < |ws|
    ensures Inv(ws[i])
  {
    if i > 0 {
      RunKeepsInv(ws, i - 1);
      FollowsKeepsInv(ws, i - 1);
    }
  }

  lemma RunIsSafe(ws: seq<World>, i: nat)
    requires IsRun(ws) && Init(ws[0]) && i < |ws|
    ensures Inv(ws[i])
  {
    RunKeepsInv(ws, i);
  }

  lemma ReachableInv(w: World)
    requires Reachable(w)
    ensures Inv(w)
  {
    var ws :| IsRun(ws) && Init(ws[0]) && ws[|ws| - 1] == w;
    RunKeepsInv(ws, |ws| - 1);
  }

  // ---------- what no run ever undoes ----------

  lemma StepEvolves(w: World, step: Step)
    requires Inv(w) && Enabled(w, step)
    ensures Evolves(w.cloud, Apply(w, step).cloud)
  {
    if step.Move? {
      var h := w.handlers[step.p];
      assert HandlerInv(w.cloud, h);
      if !h.pc.Acquire? && !h.pc.Release? {
        OwnStepReach(w.cloud, h.req, h.pc, step.answer);
      }
    }
  }

  lemma FollowsEvolves(ws: seq<World>, i: nat)
    requires IsRun(ws) && i + 1 < |ws| && Inv(ws[i])
    ensures Evolves(ws[i].cloud, ws[i + 1].cloud)
  {
    assert Linked(ws, i);
    var step :| Enabled(ws[i], step) && ws[i + 1] == Apply(ws[i], step);
    StepEvolves(ws[i], step);
  }

  lemma EvolvesTransitive(a: Cloud, b: Cloud, c: Cloud)
    requires CloudInv(a) && Evolves(a, b) && Evolves(b, c)
    ensures Evolves(a, c)
  {
  }

  // Along any run the disks keep their tags and zone, and an id that was seen and
  // has no disk never has one again.
  lemma {:induction false} RunEvolves(ws: seq<World>, i: nat, j: nat)
    requires IsRun(ws) && Inv(ws[0]) && i <= j < |ws|
    ensures Evolves(ws[i].cloud, ws[j].cloud)
  {
    RunKeepsInv(ws, i);
    if i < j {
      RunEvolves(ws, i, j - 1);
      RunKeepsInv(ws, j - 1);
      FollowsEvolves(ws, j - 1);
      EvolvesTransitive(ws[i].cloud, ws[j - 1].cloud, ws[j].cloud);
    }
  }

  // ---------- runs put together ----------

  ghost predicate IsRunBetween(ws: seq<World>, w: World, w': World) {
    IsRun(ws) && ws[0] == w && ws[|ws| - 1] == w'
  }

  // Some run leads from the one state to the other.
  ghost predicate Leads(w: World, w': World) {
    exists ws :: IsRunBetween(ws, w, w')
  }

  lemma SameLink(ws: seq<World>, i: nat, vs: seq<World>, j: nat)
    requires Linked(ws, i) && j + 1 < |vs| && vs[j] == ws[i] && vs[j + 1] == ws[i + 1]
    ensures Linked(vs, j)
  {
  }

  // A run and another one from where it ended.
  lemma RunsJoin(ws: seq<World>, vs: seq<World>)
    requires IsRun(ws) && IsRun(vs) && ws[|ws| - 1] == vs[0]
    ensures IsRun(ws + vs[1..])
  {
    var joined := ws + vs[1..];
    forall i: nat | i + 1 < |joined|
      ensures Linked(joined, i)
    {
      if i + 1 < |ws| {
        SameLink(ws, i, joined, i);
      } else {
        SameLink(vs, i + 1 - |ws|, joined, i);
      }
    }
  }

  lemma LeadsJoin(a: World, b: World, c: World)
    requires Leads(a, b) && Leads(b, c)
    ensures Leads(a, c)
  {
    var ws :| IsRunBetween(ws, a, b);
    var vs :| IsRunBetween(vs, b, c);
    RunsJoin(ws, vs);
    assert IsRunBetween(ws + vs[1..], a, c);
  }

  lemma LeadsNowhere(w: World)
    ensures Leads(w, w)
  {
    assert IsRunBetween([w], w, w);
  }

  lemma StepLeads(w: World, step: Step)
    requires Enabled(w, step)
    ensures Leads(w, Apply(w, step))
  {
    var ws := [w, Apply(w, step)];
    assert Linked(ws, 0);
    assert IsRunBetween(ws, w, Apply(w, step));
  }

  lemma LeadsFurther(w: World, w': World, step: Step)
    requires Leads(w, w') && Enabled(w', step)
    ensures Leads(w, Apply(w', step))
  {
    StepLeads(w', step);
    LeadsJoin(w, w', Apply(w', step));
  }

  lemma ReachableLeads(w: World, w': World)
    requires Reachable(w) && Leads(w, w')
    ensures Reachable(w')
  {
    var ws :| IsRun(ws) && Init(ws[0]) && ws[|ws| - 1] == w;
    assert IsRunBetween(ws, ws[0], w);
    LeadsJoin(ws[0], w, w');
    var vs :| IsRunBetween(vs, ws[0], w');
  }
}
