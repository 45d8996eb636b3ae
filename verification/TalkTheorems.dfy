/** What the conversations of the controller's calls come to, in every run. */
module TalkTheorems {
  import opened Wrappers
  import opened Sizes
  import opened CloudModel
  import opened Controller
  import opened ControllerSafety
  import opened ControllerTalks
  import Parameters
  import Topology

  // ---------- what was told was so ----------

  // In the k-th step handler p asked this and was told that.
  predicate Happened(ws: seq<World>, steps: seq<Step>, p: nat, deal: Deal, k: nat)
    requires |steps| < |ws|
  {
    && k < |steps| && steps[k].Move? && steps[k].p == p && p in ws[k].handlers
    && AskAt(ws[k].handlers[p].req, Wish(ws[k].handlers[p].req), ws[k].handlers[p].pc) == Some(deal.ask)
    && ToldBy(ws[k].cloud, ws[k].locks, deal.ask, steps[k].answer) == deal.told
  }

  lemma {:induction false} WasTold(ws: seq<World>, steps: seq<Step>, p: nat, deal: Deal) returns (k: nat)
    requires Traced(ws, steps) && deal in Talk(ws, steps, p)
    ensures Happened(ws, steps, p, deal, k)
    decreases |steps|
  {
    var n := |steps| - 1;
    var init := ws[..|ws| - 1];
    if deal in Talk(init, steps[..n], p) {
      k := WasTold(init, steps[..n], p, deal);
    } else {
      k := n;
    }
  }

  // ---------- publish and unpublish: the node ----------

  // The handler is past the check of its node.
  predicate PastNodeCheck(pc: PC) {
    match pc
    case CheckDisk => true
    case Acquire => true
    case Attach => true
    case WaitAttached => true
    case ReadDevicePath => true
    case Detach => true
    case WaitDetached => true
    case Release(_) => true
    case Done(r) => r.Published? || r == Unpublished || r == Error(Aborted) || r == Error(Internal)
    case _ => false
  }

  // A publish or unpublish asks for its node first.  It goes on only if told that the node
  // exists; otherwise it answers NotFound, having asked nothing else and taken no lock.
  lemma NodeIsChecked(ws: seq<World>, steps: seq<Step>, p: nat)
    requires Traced(ws, steps) && Init(ws[0]) && p in ws[|ws| - 1].handlers
    requires ws[|ws| - 1].handlers[p].req.PublishVolume? || ws[|ws| - 1].handlers[p].req.UnpublishVolume?
    ensures var h, talk := ws[|ws| - 1].handlers[p], Talk(ws, steps, p);
      && (talk != [] ==> talk[0].ask == FindNode(h.req.node))
      && (PastNodeCheck(h.pc) ==> talk != [] && talk[0].told == Yes)
      && (talk != [] && talk[0].told != Yes ==>
        talk == [Deal(FindNode(h.req.node), No)] && h.pc == Done(Error(NotFound)))
  {
    EveryStory(ws, steps, p);
    var h, talk := ws[|ws| - 1].handlers[p], Talk(ws, steps, p);
    NodeFirst(h.req, h.pc, talk);
    if talk != [] && talk[0].told != Yes {
      var k := WasTold(ws, steps, p, talk[0]);
      assert talk == [talk[0]];
    }
  }

  lemma NodeFirst(req: Request, pc: PC, talk: seq<Deal>)
    requires Story(req, Wish(req), pc, talk) && (req.PublishVolume? || req.UnpublishVolume?)
    ensures talk != [] ==> talk[0].ask == FindNode(req.node)
    ensures PastNodeCheck(pc) ==> talk != [] && talk[0].told == Yes
    ensures talk != [] && talk[0].told != Yes ==> |talk| == 1
    ensures talk != [] && talk[0].told != Yes ==> pc == Done(Error(NotFound))
  {
    if |talk| > 1 {
      assert talk[..|talk| - 1][0] == talk[0];
    }
  }

  // So in some step of a publish or unpublish that succeeded the node was found.
  lemma NodeWasFound(ws: seq<World>, steps: seq<Step>, p: nat) returns (k: nat)
    requires Traced(ws, steps) && Init(ws[0]) && p in ws[|ws| - 1].handlers
    requires ws[|ws| - 1].handlers[p].pc.Done?
    requires var r := ws[|ws| - 1].handlers[p].pc.response; r.Published? || r == Unpublished
    ensures k < |steps| && steps[k] == Move(p, Served) && p in ws[k].handlers && ws[k].handlers[p].pc == CheckNode
  {
    TracedIsRun(ws, steps);
    RunKeepsInv(ws, |ws| - 1);
    assert HandlerInv(ws[|ws| - 1].cloud, ws[|ws| - 1].handlers[p]);
    NodeIsChecked(ws, steps, p);
    k := WasTold(ws, steps, p, Talk(ws, steps, p)[0]);
  }

  // ---------- expand: what is left for the node ----------

  // A successful expand asks for an expansion on the node exactly when the volume is not
  // said to be a block device.
  lemma NodeExpansionIff(w: World, p: nat)
    requires Reachable(w) && p in w.handlers && w.handlers[p].pc.Done? && w.handlers[p].pc.response.Expanded?
    ensures w.handlers[p].req.ExpandVolume?
    ensures var cap := w.handlers[p].req.cap;
      w.handlers[p].pc.response.nodeExpansionRequired <==> !(cap.Some? && cap.value.block)
  {
    ReachableInv(w);
    assert HandlerInv(w.cloud, w.handlers[p]);
    var ws :| IsRun(ws) && Init(ws[0]) && ws[|ws| - 1] == w;
    var steps := RunIsTraced(ws);
    EveryAnswerIsRight(ws, steps, p, w.handlers[p].pc.response);
  }

  // ---------- create: the disk that is made ----------

  // The disk is as the request asks: its size, its type and tags by the parameters, and its
  // zone by the topologies.
  ghost predicate AsAsked(req: Request, disk: Disk)
    requires req.CreateVolume?
  {
    && disk.sizeGiB == WishGiB(req.range) && disk.status == Creating && disk.attachments == []
    && disk.volumeType == (match Parameters.LastGiven(req.params, "type") case None => "" case Some(t) => t)
    && (forall tag: Parameters.TagKey ::
      (if tag in disk.tags then Some(disk.tags[tag]) else None)
      == Parameters.TagWanted(req.name, req.params, tag.Text()))
    && req.topology.Some? && disk.zone != ""
    && Topology.Picks(req.topology.value.preferred + req.topology.value.requisite, disk.zone)
  }

  lemma NewDiskIsAsAsked(req: Request)
    requires req.CreateVolume? && !Malformed(req) && !HasUnknownKey(req.params)
    requires Topology.PickedZone(req.topology) != ""
    ensures AsAsked(req, NewDisk(req))
  {
    var disk := NewDisk(req);
    var terms := req.topology.value.preferred + req.topology.value.requisite;
    Topology.FirstZonePicks(terms, disk.zone);
    WishIsWanted(req);
    Parameters.CollectMeaning(req.name, req.params);
    var c := Parameters.Collect(req.name, req.params).value;
    forall tag: Parameters.TagKey
      ensures (if tag in disk.tags then Some(disk.tags[tag]) else None)
        == Parameters.TagWanted(req.name, req.params, tag.Text())
    {
      assert Parameters.Tag(c, tag) == Parameters.TagWanted(req.name, req.params, tag.Text());
    }
  }

  // Every disk that comes to be in a run is made by a create, as that asked for it.
  lemma EveryNewDisk(ws: seq<World>, steps: seq<Step>, i: nat, id: string)
    requires Traced(ws, steps) && Init(ws[0]) && i < |steps|
    requires id !in ws[i].cloud.disks && id in ws[i + 1].cloud.disks
    ensures steps[i].Move? && steps[i].p in ws[i].handlers && ws[i].handlers[steps[i].p].req.CreateVolume?
    ensures AsAsked(ws[i].handlers[steps[i].p].req, ws[i + 1].cloud.disks[id])
  {
    assert Enabled(ws[i], steps[i]) && ws[i + 1] == Apply(ws[i], steps[i]);
    assert steps[i].Move?;
    var h := ws[i].handlers[steps[i].p];
    EveryStory(ws[..i + 1], steps[..i], steps[i].p);
    EveryEffectIsAsked(ws, steps, i);
    MakesDisk(ws[i].cloud, h.req, h.pc, steps[i].answer, id);
    CreateIsPlanned(h.req, Talk(ws[..i + 1], steps[..i], steps[i].p));
    NewDiskIsAsAsked(h.req);
  }

  lemma MakesDisk(c: Cloud, req: Request, pc: PC, answer: Answer, id: string)
    requires id !in c.disks && AskAt(req, Wish(req), pc).Some? && (pc == Create ==> req.CreateVolume?)
    requires id in Effect(c, AskAt(req, Wish(req), pc).value, answer).disks
    ensures pc == Create && req.CreateVolume?
    ensures Effect(c, AskAt(req, Wish(req), pc).value, answer).disks[id] == NewDisk(req)
  {
  }

  lemma CreateIsPlanned(req: Request, talk: seq<Deal>)
    requires req.CreateVolume? && Story(req, Wish(req), Create, talk)
    ensures !Malformed(req) && !HasUnknownKey(req.params) && Topology.PickedZone(req.topology) != ""
  {
  }
}
