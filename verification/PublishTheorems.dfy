/**
  ControllerPublishVolume is not idempotent: once a publish has succeeded, every further
  publish of the volume, to the same node even, ends in Internal until the volume is
  unpublished or deleted.
 */
module PublishTheorems {
  import opened Wrappers
  import opened CloudModel
  import opened Controller
  import opened ControllerSafety
  import opened ControllerTheorems

  // ---------- a disk that stays attached ----------

  // No delete and no detach of the volume is about to be requested in this state.
  ghost predicate Unreleased(w: World, v: string) {
    forall p :: p in w.handlers && !w.handlers[p].req.CreateVolume? && w.handlers[p].req.volume == v
      ==> w.handlers[p].pc != Delete && w.handlers[p].pc != Detach
  }

  predicate AttachedAs(c: Cloud, v: string, attachment: Attachment) {
    v in c.disks && c.disks[v].attachments == [attachment]
  }

  lemma OwnStepStaysAttached(c: Cloud, req: Request, pc: PC, answer: Answer, v: string, attachment: Attachment)
    requires CloudInv(c) && Fits(c, req, pc, answer) && PcInv(req, pc) && !pc.Acquire? && !pc.Release?
    requires AttachedAs(c, v, attachment)
    requires req.CreateVolume? || req.volume != v || (pc != Delete && pc != Detach)
    ensures AttachedAs(OwnStep(c, req, pc, answer).0, v, attachment)
  {
  }

  lemma CompletionStaysAttached(w: World, step: Step, v: string, attachment: Attachment)
    requires IsCompletion(step) && Enabled(w, step) && AttachedAs(w.cloud, v, attachment)
    requires attachment.status == Attached
    ensures AttachedAs(Apply(w, step).cloud, v, attachment)
  {
  }

  lemma StepStaysAttached(w: World, step: Step, v: string, attachment: Attachment)
    requires Inv(w) && Enabled(w, step) && Unreleased(w, v)
    requires AttachedAs(w.cloud, v, attachment) && attachment.status == Attached
    ensures AttachedAs(Apply(w, step).cloud, v, attachment)
  {
    if step.Move? {
      var h := w.handlers[step.p];
      assert HandlerInv(w.cloud, h);
      if !h.pc.Acquire? && !h.pc.Release? {
        OwnStepStaysAttached(w.cloud, h.req, h.pc, step.answer, v, attachment);
      }
    } else if IsCompletion(step) {
      CompletionStaysAttached(w, step, v, attachment);
    }
  }

  lemma LinkStaysAttached(ws: seq<World>, i: nat, v: string, attachment: Attachment)
    requires IsRun(ws) && Inv(ws[0]) && i + 1 < |ws| && Unreleased(ws[i], v)
    requires AttachedAs(ws[i].cloud, v, attachment) && attachment.status == Attached
    ensures AttachedAs(ws[i + 1].cloud, v, attachment)
  {
    RunKeepsInv(ws, i);
    assert Linked(ws, i);
    var step :| Enabled(ws[i], step) && ws[i + 1] == Apply(ws[i], step);
    StepStaysAttached(ws[i], step, v, attachment);
  }

  lemma {:induction false} RunStaysAttached(ws: seq<World>, v: string, attachment: Attachment, j: nat)
    requires IsRun(ws) && Inv(ws[0]) && j < |ws|
    requires forall k {:trigger Unreleased(ws[k], v)} :: 0 <= k < |ws| ==> Unreleased(ws[k], v)
    requires AttachedAs(ws[0].cloud, v, attachment) && attachment.status == Attached
    ensures AttachedAs(ws[j].cloud, v, attachment)
  {
    if j > 0 {
      RunStaysAttached(ws, v, attachment, j - 1);
      LinkStaysAttached(ws, j - 1, v, attachment);
    }
  }

  // ---------- a publish after a publish ----------

  // What the cloud answers to an attach of a disk with an attachment makes no difference.
  lemma AttachOfAttached(w: World, q: nat, answer: Answer, v: string, attachment: Attachment)
    requires Enabled(w, Move(q, answer)) && w.handlers[q].pc == Attach && w.handlers[q].req.PublishVolume?
    requires w.handlers[q].req.volume == v && AttachedAs(w.cloud, v, attachment)
    ensures var w' := MoveHandler(w, q, answer);
      w'.cloud == w.cloud && w'.handlers[q].pc == Release(Error(Internal))
  {
  }

  lemma StaysPublished(ws: seq<World>, p: nat, devicePath: string, v: string) returns (attachment: Attachment)
    requires IsRun(ws) && Reachable(ws[0])
    requires p in ws[0].handlers && ws[0].handlers[p].pc == Release(Published(devicePath))
    requires ws[0].handlers[p].req.Key() == v
    requires forall k {:trigger Unreleased(ws[k], v)} :: 0 <= k < |ws| ==> Unreleased(ws[k], v)
    ensures AttachedAs(ws[|ws| - 1].cloud, v, attachment)
  {
    PublishedMeansAttached(ws[0], p, devicePath);
    ReachableInv(ws[0]);
    attachment := Attachment(ws[0].handlers[p].req.node, devicePath, Attached);
    RunStaysAttached(ws, v, attachment, |ws| - 1);
  }

  // After a publish that succeeded, over any run in which no delete or detach of the
  // volume is about to be requested, every further publish of it that comes to its
  // attach leaves the cloud as it is and ends in Internal, whatever the cloud answers.
  lemma RepeatedPublishIsInternal(ws: seq<World>, p: nat, devicePath: string, v: string, w: World, q: nat,
                                  answer: Answer)
    requires IsRun(ws) && Reachable(ws[0]) && w == ws[|ws| - 1]
    requires p in ws[0].handlers && ws[0].handlers[p].pc == Release(Published(devicePath))
    requires ws[0].handlers[p].req.Key() == v
    requires forall k {:trigger Unreleased(ws[k], v)} :: 0 <= k < |ws| ==> Unreleased(ws[k], v)
    requires Enabled(w, Move(q, answer)) && w.handlers[q].pc == Attach && w.handlers[q].req.Key() == v
    ensures var w' := MoveHandler(w, q, answer);
      w'.cloud == w.cloud && w'.handlers[q].pc == Release(Error(Internal))
  {
    var attachment := StaysPublished(ws, p, devicePath, v);
    assert w.handlers[q].req.PublishVolume? by {
      ReachableInv(ws[0]);
      RunKeepsInv(ws, |ws| - 1);
      assert HandlerInv(w.cloud, w.handlers[q]);
    }
    AttachOfAttached(w, q, answer, v, attachment);
  }

  // ---------- it happens ----------

  predicate Stands(w: World, p: nat, req: Request, pc: PC) {
    p in w.handlers && w.handlers[p] == Handler(req, pc)
  }

  predicate IsPublishOf(req: Request, v: string) {
    req.PublishVolume? && req.volume == v && Validated(req) == CheckNode
  }

  // A publish of a disk that exists can get to its attach when the disk's id is not locked.
  lemma ReachesAttach(w: World, p: nat, req: Request, v: string) returns (w': World)
    requires p !in w.handlers && IsPublishOf(req, v) && v !in w.locks && v in w.cloud.disks && v in w.cloud.seen
    ensures Leads(w, w') && w' == World(w.cloud, w.locks + {v}, w.handlers[p := Handler(req, Attach)])
  {
    var arrived := Apply(w, Arrive(p, req));
    assert w.cloud.seen + {v} == w.cloud.seen;
    StepLeads(w, Arrive(p, req));
    var valid := Apply(arrived, Move(p, Served));
    LeadsFurther(w, arrived, Move(p, Served));
    var checked := Apply(valid, Move(p, Served));
    LeadsFurther(w, valid, Move(p, Served));
    w' := LocksAndAttaches(w, checked, p, req, v);
  }

  lemma LocksAndAttaches(w: World, checked: World, p: nat, req: Request, v: string) returns (w': World)
    requires Leads(w, checked) && checked == World(w.cloud, w.locks, w.handlers[p := Handler(req, CheckDisk)])
    requires IsPublishOf(req, v) && v !in w.locks && v in w.cloud.disks
    ensures Leads(w, w') && w' == World(w.cloud, w.locks + {v}, w.handlers[p := Handler(req, Attach)])
  {
    var found := Apply(checked, Move(p, Served));
    LeadsFurther(w, checked, Move(p, Served));
    w' := Apply(found, Move(p, Served));
    LeadsFurther(w, found, Move(p, Served));
  }

  // The cloud accepts an attach of a disk without attachments, and completes it.
  lemma AttachCompletes(w: World, p: nat, req: Request, v: string, devicePath: string) returns (w': World)
    requires Stands(w, p, req, Attach) && IsPublishOf(req, v)
    requires v in w.cloud.disks && w.cloud.disks[v].attachments == []
    ensures Leads(w, w') && Stands(w', p, req, WaitAttached)
    ensures AttachedAs(w'.cloud, v, Attachment(req.node, devicePath, Attached))
  {
    var asked := Apply(w, Move(p, Served));
    StepLeads(w, Move(p, Served));
    w' := Apply(asked, AttachDone(v, devicePath));
    LeadsFurther(w, asked, AttachDone(v, devicePath));
  }

  // A publish at its attach of a disk without attachments can succeed.
  lemma PublishSucceeds(w: World, p: nat, req: Request, v: string, devicePath: string) returns (w': World)
    requires Stands(w, p, req, Attach) && IsPublishOf(req, v) && devicePath != ""
    requires v in w.cloud.disks && w.cloud.disks[v].attachments == []
    ensures Leads(w, w') && Stands(w', p, req, Release(Published(devicePath)))
  {
    var attached := AttachCompletes(w, p, req, v, devicePath);
    var polled := Apply(attached, Move(p, Served));
    LeadsFurther(w, attached, Move(p, Served));
    w' := Apply(polled, Move(p, Served));
    LeadsFurther(w, polled, Move(p, Served));
  }

  // The same request has succeeded in the one state, and failed in the other, with the
  // cloud as it was.
  predicate SucceedsThenFails(w: World, w': World, p: nat, req: Request, devicePath: string) {
    && Stands(w, p, req, Release(Published(devicePath))) && Stands(w', p, req, Release(Error(Internal)))
    && w'.cloud == w.cloud
  }

  // Wherever a publish has succeeded, the same request, made again once it has returned,
  // may end in Internal with the cloud as it is.
  lemma RepeatMayFail(w: World, p: nat, devicePath: string)
    requires Reachable(w) && p in w.handlers && w.handlers[p].pc == Release(Published(devicePath))
    ensures exists w' :: Leads(w, w') && SucceedsThenFails(w, w', p, w.handlers[p].req, devicePath)
  {
    var req := w.handlers[p].req;
    PublishedMeansAttached(w, p, devicePath);
    HandlerIsKnown(w, p);
    var left := LeavesSection(w, p);
    var asking := ReachesAttach(left, p, req, req.volume);
    LeadsJoin(w, left, asking);
    AttachOfAttached(asking, p, Served, req.volume, w.cloud.disks[req.volume].attachments[0]);
    LeadsFurther(w, asking, Move(p, Served));
  }

  // Wherever a volume is neither locked nor attached, any publish of it that passes its
  // checks may succeed and then, repeated, fail.
  lemma RepeatedPublishHappens(w: World, p: nat, req: Request, v: string, devicePath: string)
    requires Reachable(w) && p !in w.handlers && IsPublishOf(req, v) && devicePath != ""
    requires v !in w.locks && v in w.cloud.disks && w.cloud.disks[v].attachments == []
    ensures exists w1, w2 :: Leads(w, w1) && Leads(w1, w2) && SucceedsThenFails(w1, w2, p, req, devicePath)
  {
    ReachableInv(w);
    var asking := ReachesAttach(w, p, req, v);
    var w1 := PublishSucceeds(asking, p, req, v, devicePath);
    LeadsJoin(w, asking, w1);
    ReachableLeads(w, w1);
    RepeatMayFail(w1, p, devicePath);
  }
}
