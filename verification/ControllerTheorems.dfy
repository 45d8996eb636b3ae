/** What the reachable states of the controller promise its callers. */
module ControllerTheorems {
  import opened Wrappers
  import opened Sizes
  import opened CloudModel
  import opened Controller
  import opened ControllerSafety

  // ---------- locks ----------

  // The lock set is the set of keys of the handlers in their critical sections, and
  // each key has one owner.
  lemma LocksAreOwners(w: World)
    requires Reachable(w)
    ensures forall key :: key in w.locks <==> exists p :: Owns(w, p, key)
    ensures forall p, q, key :: Owns(w, p, key) && Owns(w, q, key) ==> p == q
  {
    ReachableInv(w);
  }

  // TryAcquire answers Aborted exactly when another handler owns the key, and
  // otherwise makes the handler its owner.
  lemma AbortedIffOwned(w: World, p: nat)
    requires Reachable(w) && Enabled(w, Move(p, Served)) && w.handlers[p].pc == Acquire
    ensures var w' := MoveHandler(w, p, Served);
      && (w'.handlers[p].pc == Done(Error(Aborted)) <==> exists q :: q != p && Owns(w, q, w.handlers[p].req.Key()))
      && (w'.handlers[p].pc == Done(Error(Aborted)) ==> w' == w.(handlers := w'.handlers))
      && (w'.handlers[p].pc != Done(Error(Aborted)) ==> Owns(w', p, w.handlers[p].req.Key()))
  {
    ReachableInv(w);
    assert HandlerInv(w.cloud, w.handlers[p]);
  }

  // Nothing another handler does, aborted or not, takes a lock from its owner.
  lemma OthersNeverRelease(w: World, p: nat, answer: Answer, q: nat, key: string)
    requires Reachable(w) && Enabled(w, Move(p, answer)) && Owns(w, q, key) && p != q
    ensures Owns(MoveHandler(w, p, answer), q, key) && key in MoveHandler(w, p, answer).locks
  {
    ReachableInv(w);
    if w.handlers[p].pc.Release? {
      assert Owns(w, p, w.handlers[p].req.Key());
    }
  }

  // When every handler has returned, on whatever path, no lock is left behind.
  lemma IdleMeansUnlocked(w: World)
    requires Reachable(w) && forall p :: p in w.handlers ==> w.handlers[p].pc.Done?
    ensures w.locks == {}
  {
    ReachableInv(w);
    assert forall p, key :: !Owns(w, p, key);
  }

  // A handler that is done with its section can free its lock and leave.
  lemma LeavesSection(w: World, p: nat) returns (w': World)
    requires p in w.handlers && w.handlers[p].pc.Release?
    ensures Leads(w, w') && w' == World(w.cloud, w.locks - {w.handlers[p].req.Key()}, w.handlers - {p})
  {
    LeadsNowhere(w);
    var w1 := Apply(w, Move(p, Served));
    LeadsFurther(w, w, Move(p, Served));
    w' := Apply(w1, Leave(p));
    LeadsFurther(w, w1, Leave(p));
    assert w'.handlers == w.handlers - {p};
  }

  // ---------- CreateVolume ----------

  // At most one disk carries a CSI volume name, so the first disk of a listing is
  // the only one it can be; and a handler about to create still finds the name unused
  // and holds its lock.
  lemma OneDiskPerName(w: World)
    requires Reachable(w)
    ensures UniqueNames(w.cloud)
    ensures forall p | p in w.handlers && w.handlers[p].pc == Create ::
      Owns(w, p, w.handlers[p].req.Key()) && !HasName(w.cloud, w.handlers[p].req.Key())
  {
    ReachableInv(w);
    forall p | p in w.handlers && w.handlers[p].pc == Create
      ensures Owns(w, p, w.handlers[p].req.Key()) && !HasName(w.cloud, w.handlers[p].req.Key())
    {
      assert HandlerInv(w.cloud, w.handlers[p]);
    }
  }

  predicate AnswersCreated(h: Handler, id: string, bytes: int64, zone: string) {
    h.req.CreateVolume? && (h.pc == Done(Created(id, bytes, zone)) || h.pc == Release(Created(id, bytes, zone)))
  }

  // A volume handed out under a name is a disk of that name in the answered zone, as
  // long as it lives; two answers for one name whose disks both live agree.
  lemma CreateAnswersAgree(w: World, p: nat, q: nat, id: string, bytes: int64, zone: string, id': string,
                           bytes': int64, zone': string)
    requires Reachable(w) && p in w.handlers && q in w.handlers
    requires AnswersCreated(w.handlers[p], id, bytes, zone) && AnswersCreated(w.handlers[q], id', bytes', zone')
    ensures id in w.cloud.disks ==> Named(w.cloud.disks[id], w.handlers[p].req.name) && w.cloud.disks[id].zone == zone
    ensures w.handlers[p].req.name == w.handlers[q].req.name && id in w.cloud.disks && id' in w.cloud.disks
      ==> id == id' && zone == zone'
  {
    ReachableInv(w);
    assert HandlerInv(w.cloud, w.handlers[p]);
    assert HandlerInv(w.cloud, w.handlers[q]);
  }

  // A handler got past the checks of its arguments, and if it answers with a volume,
  // that has the capacity its request asked for.
  predicate Honest(h: Handler) {
    && (h.pc == Validate || (h.pc.Done? && h.pc.response.Error?) || !Validated(h.req).Done?)
    && (h.pc.Done? || h.pc.Release? ==>
      h.pc.response.Created? ==> h.req.CreateVolume? && h.pc.response.capacityBytes == GiBToBytes(WantedGiB(h.req)))
  }

  predicate AllHonest(w: World) {
    forall p :: p in w.handlers ==> Honest(w.handlers[p])
  }

  lemma OwnStepHonest(c: Cloud, req: Request, pc: PC, answer: Answer)
    requires Fits(c, req, pc, answer) && Honest(Handler(req, pc)) && !pc.Release? && !pc.Acquire?
    ensures Honest(Handler(req, OwnStep(c, req, pc, answer).1))
  {
  }

  lemma FollowsHonest(ws: seq<World>, i: nat)
    requires IsRun(ws) && i + 1 < |ws| && AllHonest(ws[i])
    ensures AllHonest(ws[i + 1])
  {
    assert Linked(ws, i);
    var step :| Enabled(ws[i], step) && ws[i + 1] == Apply(ws[i], step);
    if step.Move? && !ws[i].handlers[step.p].pc.Release? && !ws[i].handlers[step.p].pc.Acquire? {
      OwnStepHonest(ws[i].cloud, ws[i].handlers[step.p].req, ws[i].handlers[step.p].pc, step.answer);
    }
  }

  lemma {:induction false} RunHonest(ws: seq<World>, i: nat)
    requires IsRun(ws) && Init(ws[0]) && i < |ws|
    ensures AllHonest(ws[i])
  {
    if i > 0 {
      RunHonest(ws, i - 1);
      FollowsHonest(ws, i - 1);
    }
  }

  lemma ReachableHonest(w: World)
    requires Reachable(w)
    ensures AllHonest(w)
  {
    var ws :| IsRun(ws) && Init(ws[0]) && ws[|ws| - 1] == w;
    RunHonest(ws, |ws| - 1);
  }

  // What a reachable handler knows, and that it is honest.
  lemma HandlerIsKnown(w: World, p: nat)
    requires Reachable(w) && p in w.handlers
    ensures HandlerInv(w.cloud, w.handlers[p]) && Honest(w.handlers[p])
  {
    ReachableInv(w);
    ReachableHonest(w);
  }

  // The capacity of an answered create: the least number of 100 GiB units covering the
  // required bytes, in bytes, and at most 99 GiB more than a positive limit.
  lemma CreateAnswerCovers(w: World, p: nat, id: string, bytes: int64, zone: string)
    requires Reachable(w) && p in w.handlers && AnswersCreated(w.handlers[p], id, bytes, zone)
    requires w.handlers[p].req.range.Some? && 0 <= w.handlers[p].req.range.value.required <= MAX_REQUEST
    ensures var range := w.handlers[p].req.range.value;
      && range.required <= bytes
      && (exists gib :: IsLeastCover(gib, range.required) && bytes == gib * 0x4000_0000)
      && (range.limit > 0 ==> bytes <= range.limit + 99 * 0x4000_0000)
  {
    ReachableHonest(w);
    var h := w.handlers[p];
    assert Honest(h);
    CreateCapacity(h.req);
  }

  lemma CreateCapacity(req: Request)
    requires req.CreateVolume? && !Validated(req).Done?
    requires req.range.Some? && 0 <= req.range.value.required <= MAX_REQUEST
    ensures WantedGiB(req) == CapacityFor(req.range.value.required)
    ensures IsLeastCover(WantedGiB(req), req.range.value.required)
    ensures GiBToBytes(WantedGiB(req)) == WantedGiB(req) * 0x4000_0000
    ensures req.range.value.limit > 0 ==> WantedGiB(req) * 0x4000_0000 <= req.range.value.limit + 99 * 0x4000_0000
  {
    CapacityIsLeastCover(req.range.value.required);
    if req.range.value.limit > 0 {
      LimitOvershootIsBoundedIff(req.range.value);
    }
  }

  // ---------- publish, unpublish and delete ----------

  // When ControllerPublishVolume succeeds, the disk's only attachment is to the node
  // asked for, it is ATTACHED, and the device path returned is its own.
  lemma PublishedMeansAttached(w: World, p: nat, devicePath: string)
    requires Reachable(w) && p in w.handlers && w.handlers[p].pc == Release(Published(devicePath))
    ensures var req := w.handlers[p].req;
      && req.PublishVolume? && req.volume in w.cloud.disks && devicePath != ""
      && w.cloud.disks[req.volume].attachments == [Attachment(req.node, devicePath, Attached)]
  {
    ReachableInv(w);
    assert HandlerInv(w.cloud, w.handlers[p]);
  }

  // ControllerPublishVolume is not idempotent: its request gets past the cloud exactly
  // when the disk exists with no attachment at all; a disk already attached, to the
  // same node even, ends in Internal.
  lemma AttachAcceptedIff(w: World, p: nat)
    requires Inv(w) && Enabled(w, Move(p, Served)) && w.handlers[p].pc == Attach
    ensures var v := w.handlers[p].req.Key();
      var pc := MoveHandler(w, p, Served).handlers[p].pc;
      && (pc == WaitAttached <==> v in w.cloud.disks && w.cloud.disks[v].attachments == [])
      && (pc != WaitAttached ==> pc == Release(Error(Internal)) && MoveHandler(w, p, Served).cloud == w.cloud)
  {
  }

  // Between the poll that saw ATTACHED and the second GetDisk, no step of anyone
  // else changes the attachment: until the handler itself moves or dies with the
  // driver, it stays what the poll saw.
  lemma AttachmentIsNotSwapped(w: World, p: nat, step: Step)
    requires Reachable(w) && Enabled(w, step)
    requires p in w.handlers && w.handlers[p].pc == ReadDevicePath && w.handlers[p].req.PublishVolume? && step != Crash
    ensures var v := w.handlers[p].req.volume;
      && v in w.cloud.disks && |w.cloud.disks[v].attachments| == 1
      && w.cloud.disks[v].attachments[0].node == w.handlers[p].req.node
      && SameDisk(w.cloud, Apply(w, step).cloud, v)
  {
    ReachableInv(w);
    assert HandlerInv(w.cloud, w.handlers[p]);
    if step.Move? {
      LockKeepsOut(w, p, step.p, step.answer);
    } else if IsCompletion(step) {
      CompletionAfterAttached(w, step, w.handlers[p].req.volume);
    }
  }

  // While a handler has a disk locked, the moves of others leave that disk alone; its
  // own second read does as well.
  lemma LockKeepsOut(w: World, p: nat, q: nat, answer: Answer)
    requires Inv(w) && Enabled(w, Move(q, answer)) && p in w.handlers
    requires !w.handlers[p].req.CreateVolume? && InSection(w.handlers[p]) && w.handlers[p].req.volume in w.cloud.disks
    requires p == q ==> w.handlers[p].pc == ReadDevicePath
    ensures SameDisk(w.cloud, MoveHandler(w, q, answer).cloud, w.handlers[p].req.volume)
  {
    var g := w.handlers[q];
    assert HandlerInv(w.cloud, g);
    if q != p && !g.pc.Acquire? && !g.pc.Release? {
      assert Owns(w, p, w.handlers[p].req.volume);
      OwnStepReach(w.cloud, g.req, g.pc, answer);
      if InSection(g) {
        assert Owns(w, q, g.req.Key());
      }
    }
  }

  // The cloud has nothing left to complete for a disk that is ATTACHED.
  lemma CompletionAfterAttached(w: World, step: Step, v: string)
    requires CloudInv(w.cloud) && IsCompletion(step) && Enabled(w, step)
    requires v in w.cloud.disks && CurrentState(w.cloud.disks[v].attachments) == Attached
    ensures SameDisk(w.cloud, Apply(w, step).cloud, v)
  {
  }

  // When ControllerUnpublishVolume succeeds, the disk is gone or not attached to the
  // node at the moment the lock is released, whichever way the answer came about.
  lemma UnpublishedMeansDetached(w: World, p: nat)
    requires Reachable(w) && p in w.handlers && w.handlers[p].pc == Release(Unpublished)
    ensures var req := w.handlers[p].req;
      req.UnpublishVolume? && (req.volume in w.cloud.disks ==> !AttachedTo(w.cloud.disks[req.volume], req.node))
  {
    ReachableInv(w);
    assert HandlerInv(w.cloud, w.handlers[p]);
  }

  // When DeleteVolume succeeds, the disk is gone, and no later state of any run has
  // it again, attached or not.
  lemma DeletedForGood(ws: seq<World>, p: nat)
    requires IsRun(ws) && Reachable(ws[0])
    requires p in ws[0].handlers && (ws[0].handlers[p].pc == Done(Deleted) || ws[0].handlers[p].pc == Release(Deleted))
    ensures ws[0].handlers[p].req.DeleteVolume?
    ensures forall j :: 0 <= j < |ws| ==> ws[0].handlers[p].req.volume !in ws[j].cloud.disks
  {
    ReachableInv(ws[0]);
    assert HandlerInv(ws[0].cloud, ws[0].handlers[p]);
    forall j | 0 <= j < |ws|
      ensures ws[0].handlers[p].req.volume !in ws[j].cloud.disks
    {
      RunEvolves(ws, 0, j);
    }
  }
}
