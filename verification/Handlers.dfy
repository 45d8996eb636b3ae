/**
  The controller's handlers in the shape of the source: straight-line code with
  early returns, calling the cloud, while everyone else's steps come in between.

  Each handler is proved to be what the step machine says of it (its every access is
  a step of its own handler, and it ends where the machine ends, with the same
  response), so what holds of every reachable state holds of what it returns.
 */
module Handlers {
  import opened Wrappers
  import opened Sizes
  import opened CloudModel
  import opened Controller
  import opened ControllerSafety
  import opened ControllerTheorems
  import opened ExpandTheorems
  import opened ControllerTalks
  import Parameters
  import Topology

  datatype CloudError = ErrNotFound | ErrDiskInUse | ErrDiskExistsDiffSize | ErrOther

  // What the cloud's answer to a GetDisk tells.
  function ProbeOf(c: Cloud, volumeID: string, answer: Answer): Probe {
    if answer == Refused then Failed(false)
    else if volumeID !in c.disks then Failed(true)
    else Found(c.disks[volumeID])
  }

  function ProbeIn(w: World, step: Step, p: nat, volumeID: string): seq<Probe> {
    if step.Move? && step.p == p && step.answer != Expired then [ProbeOf(w.cloud, volumeID, step.answer)] else []
  }

  // What the cloud answered to handler p's steps since the `from`th, while p polls the
  // disk; the step that finds the time expired asks nothing.
  ghost function Probes(ws: seq<World>, steps: seq<Step>, from: nat, p: nat, volumeID: string): seq<Probe>
    requires |steps| < |ws|
    decreases |steps|
  {
    if |steps| <= from then []
    else
      var n := |steps| - 1;
      Probes(ws[..|ws| - 1], steps[..n], from, p, volumeID) + ProbeIn(ws[n], steps[n], p, volumeID)
  }

  predicate ByOthers(step: Step, p: nat) {
    match step
    case Arrive(q, _) => q != p
    case Move(q, _) => q != p
    case Leave(q) => q != p
    case Crash => false
    case _ => true
  }

  // Steps of others tell a handler nothing ...
  lemma {:induction false} OthersTellNothing(ws: seq<World>, steps: seq<Step>, ws': seq<World>, steps': seq<Step>,
                                             p: nat)
    requires Traced(ws, steps) && Traced(ws', steps') && ws <= ws' && steps <= steps'
    requires forall i :: |steps| <= i < |steps'| ==> ByOthers(steps'[i], p)
    ensures Talk(ws', steps', p) == Talk(ws, steps, p)
    decreases |steps'|
  {
    if |steps'| > |steps| {
      OthersTellNothing(ws, steps, ws'[..|ws'| - 1], steps'[..|steps'| - 1], p);
    } else {
      assert ws' == ws && steps' == steps;
    }
  }

  // ... and add no probe.
  lemma {:induction false} OthersProbeNothing(ws: seq<World>, steps: seq<Step>, ws': seq<World>, steps': seq<Step>,
                                              from: nat, p: nat, volumeID: string)
    requires Traced(ws, steps) && Traced(ws', steps') && ws <= ws' && steps <= steps' && from <= |steps|
    requires forall i :: |steps| <= i < |steps'| ==> ByOthers(steps'[i], p)
    ensures Probes(ws', steps', from, p, volumeID) == Probes(ws, steps, from, p, volumeID)
    decreases |steps'|
  {
    if |steps'| > |steps| {
      OthersProbeNothing(ws, steps, ws'[..|ws'| - 1], steps'[..|steps'| - 1], from, p, volumeID);
    } else {
      assert ws' == ws && steps' == steps;
    }
  }

  class ControllerService {
    var w: World
    ghost var history: seq<World>
    ghost var trace: seq<Step>

    ghost predicate Valid()
      reads this
    {
      IsRun(history) && Init(history[0]) && history[|history| - 1] == w && Traced(history, trace)
    }

    // The handler of request `req` stands at `pc`.
    ghost predicate At(p: nat, req: Request, pc: PC)
      reads this
    {
      Valid() && p in w.handlers && w.handlers[p] == Handler(req, pc)
    }

    // The probes that handler p made of the disk since the history had `from` steps.
    ghost function ProbesSince(from: nat, p: nat, volumeID: string): seq<Probe>
      reads this
      requires Valid()
    {
      Probes(history, trace, from, p, volumeID)
    }

    // All that handler p asked and was told since it arrived.
    ghost function TalkSoFar(p: nat): seq<Deal>
      reads this
      requires Valid()
    {
      Talk(history, trace, p)
    }

    constructor (start: World)
      requires Init(start)
      ensures Valid() && w == start
    {
      w := start;
      history := [start];
      trace := [];
    }

    // One atomic step of the system.
    method Do(step: Step)
      requires Valid() && Enabled(w, step)
      modifies this
      ensures Valid() && w == Apply(old(w), step) && history == old(history) + [w] && trace == old(trace) + [step]
    {
      w := Apply(w, step);
      history := history + [w];
      trace := trace + [step];
      assert Follows(old(w), w);
      forall i: nat | i + 1 < |history|
        ensures Linked(history, i)
      {
        if i + 2 < |history| {
          assert Linked(old(history), i);
        }
      }
    }

    // Whatever others do until this handler runs again.
    method Others(p: nat)
      requires Valid() && p in w.handlers
      modifies this
      ensures Valid() && old(history) <= history && old(trace) <= trace
      ensures p in w.handlers && w.handlers[p] == old(w.handlers[p])
      ensures forall i :: old(|trace|) <= i < |trace| ==> ByOthers(trace[i], p)
    {
      var steps: nat :| steps >= 0;
      for i := 0 to steps
        invariant Valid() && old(history) <= history && old(trace) <= trace
        invariant p in w.handlers && w.handlers[p] == old(w.handlers[p])
        invariant forall i :: old(|trace|) <= i < |trace| ==> ByOthers(trace[i], p)
      {
        var step: Step := *;
        if ByOthers(step, p) && Enabled(w, step) {
          Do(step);
        }
      }
    }

    // The outcome of a query, and of a request with an effect.
    method QueryOutcome() returns (answer: Answer)
      ensures answer == Served || answer == Refused
    {
      var fails: bool := *;
      answer := if fails then Refused else Served;
    }

    method CallOutcome() returns (answer: Answer)
      ensures answer == Served || answer == Refused || answer == Lost
    {
      var fails: bool, lost: bool := *, *;
      answer := if fails then Refused else if lost then Lost else Served;
    }

    // The handler's own step, and then others'.  Of a disk it probes, it adds the one
    // probe of its own.
    method Step(p: nat, answer: Answer)
      requires Valid() && Enabled(w, Move(p, answer))
      modifies this
      ensures Valid() && old(history) < history && old(trace) < trace
      ensures p in w.handlers && w.handlers[p] == MoveHandler(old(w), p, answer).handlers[p]
      ensures forall from: nat, v :: from <= old(|trace|) ==>
        ProbesSince(from, p, v) == old(ProbesSince(from, p, v)) + ProbeIn(old(w), Move(p, answer), p, v)
    {
      Learn(p, answer);
    }

    // The same, with what the handler is told.
    method Learn(p: nat, answer: Answer)
      requires Valid() && Enabled(w, Move(p, answer))
      modifies this
      ensures Valid() && old(history) < history && old(trace) < trace
      ensures p in w.handlers && w.handlers[p] == MoveHandler(old(w), p, answer).handlers[p]
      ensures TalkSoFar(p) == old(TalkSoFar(p)) + DealsIn(old(w), p, answer)
      ensures forall from: nat, v :: from <= old(|trace|) ==>
        ProbesSince(from, p, v) == old(ProbesSince(from, p, v)) + ProbeIn(old(w), Move(p, answer), p, v)
    {
      Do(Move(p, answer));
      ghost var ws, steps := history, trace;
      assert ws[..|ws| - 1] == old(history) && steps[..|steps| - 1] == old(trace);
      Others(p);
      OthersTellNothing(ws, steps, history, trace, p);
      forall from: nat, v | from <= old(|trace|)
        ensures ProbesSince(from, p, v) == old(ProbesSince(from, p, v)) + ProbeIn(old(w), Move(p, answer), p, v)
      {
        OthersProbeNothing(ws, steps, history, trace, from, p, v);
      }
    }

    method Arrived(p: nat, req: Request)
      requires Valid() && p !in w.handlers
      modifies this
      ensures At(p, req, Validate) && old(history) < history
    {
      Do(Arrive(p, req));
      Others(p);
    }

    method TryAcquire(p: nat, ghost req: Request) returns (acquired: bool)
      requires At(p, req, Acquire)
      modifies this
      ensures old(history) < history
      ensures At(p, req, if acquired then Locked(req) else Done(Error(Aborted)))
    {
      acquired := w.handlers[p].req.Key() !in w.locks;
      Step(p, Served);
    }

    // The deferred Release on the way out; the response stands when the lock goes.
    method Return(p: nat, ghost req: Request, response: Response)
      requires At(p, req, Release(response))
      modifies this
      ensures ResponseInv(req, response)
      ensures At(p, req, Done(response)) && history == old(history) + [w] && w.cloud == old(w.cloud)
      ensures Achieved(w.cloud, req, response)
    {
      HandlerKnows(p);
      Do(Move(p, Served));
    }

    lemma HandlerKnows(p: nat)
      requires Valid() && p in w.handlers
      ensures HandlerInv(w.cloud, w.handlers[p])
    {
      assert Reachable(w);
      ReachableInv(w);
    }

    lemma HandlerIsHonest(p: nat)
      requires Valid() && p in w.handlers
      ensures Honest(w.handlers[p])
    {
      assert Reachable(w);
      ReachableHonest(w);
    }

    // No two expands of the volume that wanted different sizes were ever under way at once.
    ghost predicate NeverDivided(volumeID: string)
      reads this
    {
      forall k {:trigger Compatible(history[k], volumeID)} :: 0 <= k < |history| ==> Compatible(history[k], volumeID)
    }

    lemma ExpandGotItsWish(p: nat)
      requires Valid() && p in w.handlers && w.handlers[p].req.ExpandVolume? && NeverDivided(w.handlers[p].req.volume)
      requires w.handlers[p].pc.Done? && w.handlers[p].pc.response.Expanded?
      ensures var req := w.handlers[p].req;
        && w.handlers[p].pc.response == ExpandedFrom(req, WantedGiB(req))
        && (req.range.Some? && 0 <= req.range.value.required <= MAX_REQUEST
            ==> req.range.value.required <= w.handlers[p].pc.response.capacityBytes)
    {
      var req := w.handlers[p].req;
      ExpandAnswers(history, req.volume, |history| - 1);
      assert Knows(w.cloud, w.handlers[p]);
      if req.range.Some? && 0 <= req.range.value.required <= MAX_REQUEST {
        CapacityIsLeastCover(req.range.value.required);
      }
    }

    // ---------- cloud.go, as far as the cloud's answers show ----------

    // True exactly if the handler is told that the node exists.
    method IsExistNode(p: nat, ghost req: Request, nodeID: string) returns (exists_: bool)
      requires At(p, req, CheckNode) && NodeOf(req) == nodeID
      modifies this
      ensures old(history) < history && At(p, req, if exists_ then CheckDisk else Done(Error(NotFound)))
      ensures TalkSoFar(p) == old(TalkSoFar(p)) + [Deal(FindNode(nodeID), if exists_ then Yes else No)]
    {
      var answer := QueryOutcome();
      Learn(p, answer);
      exists_ := answer == Served;
    }

    // GetDiskByID as the publish handlers use it, for its error alone.
    method CheckDiskExists(p: nat, ghost req: Request, volumeID: string) returns (err: Option<CloudError>)
      requires At(p, req, CheckDisk) && req.Key() == volumeID
      modifies this
      ensures old(history) < history
      ensures err.None? ==> At(p, req, Acquire)
      ensures err == Some(ErrNotFound) ==> At(p, req, Done(Error(NotFound)))
      ensures err.Some? && err != Some(ErrNotFound) ==> At(p, req, Done(Error(Internal)))
    {
      var answer := QueryOutcome();
      var found := volumeID in w.cloud.disks;
      Step(p, answer);
      err := if answer == Refused then Some(ErrOther) else if !found then Some(ErrNotFound) else None;
    }

    method DeleteDisk(p: nat, ghost req: Request, volumeID: string) returns (err: Option<CloudError>)
      requires At(p, req, Delete) && req == Request.DeleteVolume(volumeID)
      modifies this
      ensures old(history) < history
      ensures At(p, req, if err.None? || err == Some(ErrNotFound) then Release(Deleted) else Release(Error(Internal)))
    {
      var answer := CallOutcome();
      var found := volumeID in w.cloud.disks;
      Step(p, answer);
      err := if answer != Served then Some(ErrOther) else if !found then Some(ErrNotFound) else None;
    }

    // What is polled at a program counter that waits.
    ghost predicate Polls(req: Request, pc: PC, volumeID: string) {
      match pc
      case WaitReady(id) => req.CreateVolume? && id == volumeID
      case WaitAttached => req.PublishVolume? && req.volume == volumeID
      case WaitDetached => req.UnpublishVolume? && req.volume == volumeID
      case WaitResized => req.ExpandVolume? && req.volume == volumeID
      case _ => false
    }

    // The time of a wait is used up: no probe more.
    method Expire(p: nat, ghost req: Request, ghost pc: PC, volumeID: string)
      requires At(p, req, pc) && Polls(req, pc, volumeID)
      modifies this
      ensures old(history) < history && old(trace) < trace
      ensures At(p, req, if pc.WaitResized? then Done(Error(Internal)) else Release(Error(Internal)))
      ensures forall from: nat :: from <= old(|trace|) ==>
        ProbesSince(from, p, volumeID) == old(ProbesSince(from, p, volumeID))
    {
      Step(p, Expired);
    }

    // Where the wait for an attachment leads; a detached disk that is not found is done.
    ghost function AfterAttachmentWait(expected: AttachmentStatus, r: WaitResult): PC {
      if expected == Attached then (if r == Reached then PC.ReadDevicePath else Release(Error(Internal)))
      else if r == Reached || r == LookupFailed(true) then Release(Unpublished)
      else Release(Error(Internal))
    }

    ghost function Waiting(expected: AttachmentStatus): PC {
      if expected == Attached then WaitAttached else WaitDetached
    }

    // One probe of waitForDiskAttachment.
    method ProbeAttachment(p: nat, ghost req: Request, volumeID: string, expected: AttachmentStatus)
      returns (probe: Probe)
      requires (expected == Attached || expected == Detached) && Polls(req, Waiting(expected), volumeID)
      requires At(p, req, Waiting(expected))
      modifies this
      ensures old(history) < history && old(trace) < trace
      ensures probe.Failed? ==> At(p, req, AfterAttachmentWait(expected, LookupFailed(probe.notFound)))
      ensures probe.Found? && CurrentState(probe.disk.attachments) == expected
        ==> At(p, req, AfterAttachmentWait(expected, Reached))
      ensures probe.Found? && CurrentState(probe.disk.attachments) != expected
        ==> At(p, req, Waiting(expected))
      ensures Valid() && forall from: nat :: from <= old(|trace|) ==>
        ProbesSince(from, p, volumeID) == old(ProbesSince(from, p, volumeID)) + [probe]
    {
      var answer := QueryOutcome();
      probe := ProbeOf(w.cloud, volumeID, answer);
      Step(p, answer);
    }

    // waitForDiskAttachment with time for `budget` probes.
    method WaitForDiskAttachment(p: nat, ghost req: Request, volumeID: string, expected: AttachmentStatus, budget: nat)
      returns (r: WaitResult)
      requires (expected == Attached || expected == Detached) && Polls(req, Waiting(expected), volumeID)
      requires At(p, req, Waiting(expected))
      modifies this
      ensures old(history) < history && old(trace) <= trace
      ensures At(p, req, AfterAttachmentWait(expected, r))
      ensures Waited(ProbesSince(old(|trace|), p, volumeID), StateIs(expected), budget, r)
    {
      for i := 0 to budget
        invariant old(history) <= history && old(trace) <= trace
        invariant At(p, req, Waiting(expected))
        invariant |ProbesSince(old(|trace|), p, volumeID)| == i
        invariant AllShort(ProbesSince(old(|trace|), p, volumeID), StateIs(expected))
      {
        var probe := ProbeAttachment(p, req, volumeID, expected);
        if probe.Failed? {
          return LookupFailed(probe.notFound);
        }
        var currentState;
        if |probe.disk.attachments| == 0 {
          currentState := Detached;
        } else {
          currentState := probe.disk.attachments[0].status;
        }
        if currentState == expected {
          return Reached;
        }
      }
      Expire(p, req, Waiting(expected), volumeID);
      r := TimedOut;
    }

    // Where the wait for a READY disk leads, in a create and in an expand.
    ghost function AfterDiskWait(req: Request, pc: PC, r: WaitResult): PC {
      if !pc.WaitReady? then (if r == Reached then GetNewSize else Done(Error(Internal)))
      else if r == Reached then Release(Created(pc.id, GiBToBytes(WantedGiB(req)),
        if req.CreateVolume? then Topology.PickedZone(req.topology) else ""))
      else Release(Error(Internal))
    }

    // One probe of waitForDisk.
    method ProbeDisk(p: nat, ghost req: Request, ghost pc: PC, volumeID: string) returns (probe: Probe)
      requires (pc.WaitReady? || pc.WaitResized?) && Polls(req, pc, volumeID) && At(p, req, pc)
      modifies this
      ensures old(history) < history && old(trace) < trace
      ensures probe.Failed? ==> At(p, req, AfterDiskWait(req, pc, LookupFailed(probe.notFound)))
      ensures probe.Found? ==> At(p, req, if probe.disk.status == Ready then AfterDiskWait(req, pc, Reached) else pc)
      ensures Valid() && forall from: nat :: from <= old(|trace|) ==>
        ProbesSince(from, p, volumeID) == old(ProbesSince(from, p, volumeID)) + [probe]
    {
      var answer := QueryOutcome();
      probe := ProbeOf(w.cloud, volumeID, answer);
      Step(p, answer);
    }

    // waitForDisk with time for `budget` probes.
    method WaitForDisk(p: nat, ghost req: Request, ghost pc: PC, volumeID: string, budget: nat) returns (r: WaitResult)
      requires (pc.WaitReady? || pc.WaitResized?) && Polls(req, pc, volumeID) && At(p, req, pc)
      modifies this
      ensures old(history) < history && old(trace) <= trace
      ensures At(p, req, AfterDiskWait(req, pc, r))
      ensures Waited(ProbesSince(old(|trace|), p, volumeID), IsReady(), budget, r)
    {
      for i := 0 to budget
        invariant old(history) <= history && old(trace) <= trace && At(p, req, pc)
        invariant |ProbesSince(old(|trace|), p, volumeID)| == i
        invariant AllShort(ProbesSince(old(|trace|), p, volumeID), IsReady())
      {
        var probe := ProbeDisk(p, req, pc, volumeID);
        if probe.Failed? {
          return LookupFailed(probe.notFound);
        }
        if probe.disk.status == Ready {
          return Reached;
        }
      }
      Expire(p, req, pc, volumeID);
      r := TimedOut;
    }

    method AttachDisk(p: nat, ghost req: Request, volumeID: string)
      returns (devicePath: string, err: Option<CloudError>)
      requires At(p, req, Attach) && req.PublishVolume? && req.volume == volumeID
      modifies this
      ensures old(history) < history
      ensures At(p, req, if err.None? then Release(Published(devicePath)) else Release(Error(Internal)))
    {
      devicePath := "";
      var answer := CallOutcome();
      var found := volumeID in w.cloud.disks;
      var inUse := found && w.cloud.disks[volumeID].attachments != [];
      Step(p, answer);
      if answer != Served {
        return "", Some(ErrOther);
      }
      if !found {
        return "", Some(ErrNotFound);
      }
      if inUse {
        return "", Some(ErrDiskInUse);
      }
      var budget: nat := *; // the probes that the time allows
      var waited := WaitForDiskAttachment(p, req, volumeID, Attached, budget);
      if waited != Reached {
        return "", Some(if waited == LookupFailed(true) then ErrNotFound else ErrOther);
      }
      devicePath, err := ReadDevicePath(p, req, volumeID);
    }

    // The second GetDisk of AttachDisk.
    method ReadDevicePath(p: nat, ghost req: Request, volumeID: string)
      returns (devicePath: string, err: Option<CloudError>)
      requires At(p, req, PC.ReadDevicePath) && req.PublishVolume? && req.volume == volumeID
      modifies this
      ensures old(history) < history
      ensures At(p, req, if err.None? then Release(Published(devicePath)) else Release(Error(Internal)))
    {
      var answer := QueryOutcome();
      var found := volumeID in w.cloud.disks;
      var attachments := if found then w.cloud.disks[volumeID].attachments else [];
      Step(p, answer);
      if answer == Refused {
        return "", Some(ErrOther);
      }
      if |attachments| == 0 || attachments[0].devicePath == "" {
        return "", Some(ErrOther);
      }
      return attachments[0].devicePath, None;
    }

    method DetachDisk(p: nat, ghost req: Request, volumeID: string, nodeID: string) returns (err: Option<CloudError>)
      requires At(p, req, Detach) && req == UnpublishVolume(volumeID, nodeID)
      modifies this
      ensures old(history) < history
      ensures At(p, req,
        if err.None? || err == Some(ErrNotFound) then Release(Unpublished) else Release(Error(Internal)))
    {
      var answer := CallOutcome();
      var attached := volumeID in w.cloud.disks && AttachedTo(w.cloud.disks[volumeID], nodeID);
      Step(p, answer);
      if answer != Served {
        return Some(ErrOther);
      }
      if !attached {
        return Some(ErrNotFound);
      }
      var budget: nat := *;
      var waited := WaitForDiskAttachment(p, req, volumeID, Detached, budget);
      match waited {
        case Reached => return None;
        case LookupFailed(notFound) => return Some(if notFound then ErrNotFound else ErrOther);
        case TimedOut => return Some(ErrOther);
      }
    }

    method GetDiskByName(p: nat, ghost req: Request, name: string, capacityBytes: int64)
      returns (volume: Option<Response>, err: Option<CloudError>)
      requires At(p, req, Lookup) && req.CreateVolume? && req.name == name
      requires VolSizeBytes(req.range) == Some(capacityBytes)
      modifies this
      ensures old(history) < history
      ensures volume.Some? <==> err.None?
      ensures volume.Some? ==> volume.value.Created? && At(p, req, Release(volume.value))
      ensures err == Some(ErrDiskExistsDiffSize) ==> At(p, req, Release(Error(AlreadyExists)))
      ensures err == Some(ErrNotFound) ==> At(p, req, AfterNotFound(req))
      ensures err.Some? && err != Some(ErrNotFound) && err != Some(ErrDiskExistsDiffSize)
        ==> At(p, req, Release(Error(Internal)))
    {
      volume := None;
      var answer := QueryOutcome();
      if answer == Refused {
        Step(p, Refused);
        return None, Some(ErrOther);
      }
      if !HasName(w.cloud, name) {
        Step(p, Served);
        return None, Some(ErrNotFound);
      }
      var id :| id in w.cloud.disks && Named(w.cloud.disks[id], name);
      var disk := w.cloud.disks[id];
      Step(p, First(id));
      if disk.sizeGiB != DiskCapacity(capacityBytes) {
        return None, Some(ErrDiskExistsDiffSize);
      }
      return Some(CreatedFrom(id, disk)), None;
    }

    // What CreateVolume does next when the name is not in use.
    ghost function AfterNotFound(req: Request): PC
      requires req.CreateVolume?
    {
      if Parameters.Collect(req.name, req.params).None? then Release(Error(InvalidArgument))
      else if Topology.PickedZone(req.topology) == "" then Release(Error(Internal))
      else Create
    }

    method CreateDisk(p: nat, ghost req: Request, capacityBytes: int64, volumeType: string, zone: string,
                      tags: map<Parameters.TagKey, string>)
      returns (volume: Option<Response>)
      requires At(p, req, Create) && req.CreateVolume?
      requires Disk(tags, volumeType, zone, DiskCapacity(capacityBytes), Creating, []) == NewDisk(req)
      modifies this
      ensures old(history) < history
      ensures volume.Some? ==> volume.value.Created? && At(p, req, Release(volume.value))
      ensures volume.None? ==> At(p, req, Release(Error(Internal)))
    {
      var capacity := DiskCapacity(capacityBytes);
      var uuid: string := *;
      var answer := CallOutcome();
      if answer == Refused || uuid in w.cloud.seen || uuid == "" {
        Step(p, Refused);
        return None;
      }
      Step(p, if answer == Lost then MadeButLost(uuid) else Made(uuid));
      if answer == Lost || capacity == 0 {
        return None;
      }
      var budget: nat := *;
      var waited := WaitForDisk(p, req, WaitReady(uuid), uuid, budget);
      if waited != Reached {
        return None;
      }
      return Some(Created(uuid, GiBToBytes(capacity), zone));
    }

    // The volume had this size at some moment since the history had `from` states.
    ghost predicate SizeSeen(from: nat, volumeID: string, gib: int64)
      reads this
    {
      exists k: nat :: from <= k + 1 <= |history|
        && volumeID in history[k].cloud.disks && history[k].cloud.disks[volumeID].sizeGiB == gib
    }

    // What ControllerExpandVolume returns for what ResizeDisk returns.
    ghost function ExpandOutcome(req: Request, actualGiB: Option<int64>): PC {
      Done(if actualGiB.None? then Error(Internal) else ExpandedFrom(req, actualGiB.value))
    }

    method ResizeDisk(p: nat, ghost req: Request, volumeID: string, size: int64) returns (actualGiB: Option<int64>)
      requires At(p, req, GetSize) && req.ExpandVolume? && req.volume == volumeID
      requires req.range.Some? && RoundUpBytes(req.range.value.required) == size
      modifies this
      ensures old(history) < history && At(p, req, ExpandOutcome(req, actualGiB))
      ensures actualGiB.Some? ==> SizeSeen(|old(history)|, volumeID, actualGiB.value)
    {
      var answer := QueryOutcome();
      var found := volumeID in w.cloud.disks;
      var currentSize := if found then w.cloud.disks[volumeID].sizeGiB else 0;
      ghost var seen := |history| - 1;
      Step(p, answer);
      assert found ==>
        volumeID in history[seen].cloud.disks && history[seen].cloud.disks[volumeID].sizeGiB == currentSize;
      if answer == Refused || !found {
        return None;
      }
      var desiredSize := DiskCapacity(size);
      if Wrap(desiredSize - currentSize) < 0 {
        return None;
      }
      if currentSize >= desiredSize {
        return Some(currentSize);
      }
      actualGiB := UpdateAndRead(p, req, volumeID, desiredSize);
    }

    // ResizeDisk from the update request on.
    method UpdateAndRead(p: nat, ghost req: Request, volumeID: string, desiredSize: int64)
      returns (actualGiB: Option<int64>)
      requires At(p, req, Resize) && req.ExpandVolume? && req.volume == volumeID && WantedGiB(req) == desiredSize
      modifies this
      ensures old(history) < history && At(p, req, ExpandOutcome(req, actualGiB))
      ensures actualGiB.Some? ==> SizeSeen(|old(history)|, volumeID, actualGiB.value)
    {
      var answer := CallOutcome();
      var found := volumeID in w.cloud.disks;
      Step(p, answer);
      if answer != Served || !found {
        return None;
      }
      var budget: nat := *;
      var waited := WaitForDisk(p, req, WaitResized, volumeID, budget);
      if waited != Reached {
        return None;
      }
      actualGiB := ReadNewSize(p, req, volumeID);
    }

    // The second GetDiskByID of ResizeDisk.
    method ReadNewSize(p: nat, ghost req: Request, volumeID: string) returns (actualGiB: Option<int64>)
      requires At(p, req, GetNewSize) && req.ExpandVolume? && req.volume == volumeID
      modifies this
      ensures old(history) < history && At(p, req, ExpandOutcome(req, actualGiB))
      ensures actualGiB.Some? ==> SizeSeen(|old(history)|, volumeID, actualGiB.value)
    {
      var answer := QueryOutcome();
      var found := volumeID in w.cloud.disks;
      var newSize := if found then w.cloud.disks[volumeID].sizeGiB else 0;
      ghost var seen := |history| - 1;
      Step(p, answer);
      assert found ==> volumeID in history[seen].cloud.disks && history[seen].cloud.disks[volumeID].sizeGiB == newSize;
      return if answer == Refused || !found then None else Some(newSize);
    }

    // ---------- controller.go ----------

    method DeleteVolume(p: nat, volumeID: string) returns (r: Response)
      requires Valid() && p !in w.handlers
      modifies this
      ensures old(history) < history && At(p, Request.DeleteVolume(volumeID), Done(r))
      ensures Right(Request.DeleteVolume(volumeID), TalkSoFar(p), r)
      ensures r == Deleted ==> volumeID !in w.cloud.disks
    {
      ghost var req := Request.DeleteVolume(volumeID);
      AnswersAreRight(p, Request.DeleteVolume(volumeID));
      Arrived(p, Request.DeleteVolume(volumeID));
      Step(p, Served);
      if |volumeID| == 0 {
        return Error(InvalidArgument);
      }
      var acquired := TryAcquire(p, req);
      if !acquired {
        return Error(Aborted);
      }
      var err := DeleteDisk(p, req, volumeID);
      r := if err.None? || err == Some(ErrNotFound) then Deleted else Error(Internal);
      Return(p, req, r);
    }

    method ControllerPublishVolume(p: nat, volumeID: string, nodeID: string, cap: Option<Capability>)
      returns (r: Response)
      requires Valid() && p !in w.handlers
      modifies this
      ensures old(history) < history && At(p, PublishVolume(volumeID, nodeID, cap), Done(r))
      ensures Right(PublishVolume(volumeID, nodeID, cap), TalkSoFar(p), r)
      ensures r.Published? ==> TalkSoFar(p) != [] && TalkSoFar(p)[0] == Deal(FindNode(nodeID), Yes)
      ensures r.Published? ==> volumeID in w.cloud.disks
      ensures r.Published? ==> w.cloud.disks[volumeID].attachments == [Attachment(nodeID, r.devicePath, Attached)]
    {
      ghost var req := PublishVolume(volumeID, nodeID, cap);
      AnswersAreRight(p, PublishVolume(volumeID, nodeID, cap));
      SuccessFoundNode();
      Arrived(p, PublishVolume(volumeID, nodeID, cap));
      Step(p, Served);
      if |volumeID| == 0 {
        return Error(InvalidArgument);
      }
      if |nodeID| == 0 {
        return Error(InvalidArgument);
      }
      if cap.None? {
        return Error(InvalidArgument);
      }
      if !ValidCapabilities([cap.value]) {
        return Error(InvalidArgument);
      }
      var nodeExists := IsExistNode(p, req, nodeID);
      if !nodeExists {
        return Error(NotFound);
      }
      r := PublishChecked(p, req, volumeID);
    }

    // ControllerPublishVolume once its node is found.
    method PublishChecked(p: nat, ghost req: Request, volumeID: string) returns (r: Response)
      requires At(p, req, CheckDisk) && req.PublishVolume? && req.volume == volumeID
      modifies this
      ensures old(history) < history && At(p, req, Done(r)) && ResponseInv(req, r)
      ensures r.Published? ==> Achieved(w.cloud, req, r)
    {
      var missing := CheckDiskExists(p, req, volumeID);
      if missing.Some? {
        return Error(if missing == Some(ErrNotFound) then NotFound else Internal);
      }
      var acquired := TryAcquire(p, req);
      if !acquired {
        return Error(Aborted);
      }
      var devicePath, err := AttachDisk(p, req, volumeID);
      r := if err.Some? then Error(Internal) else Published(devicePath);
      Return(p, req, r);
    }

    method ControllerUnpublishVolume(p: nat, volumeID: string, nodeID: string) returns (r: Response)
      requires Valid() && p !in w.handlers
      modifies this
      ensures old(history) < history && At(p, UnpublishVolume(volumeID, nodeID), Done(r))
      ensures Right(UnpublishVolume(volumeID, nodeID), TalkSoFar(p), r)
      ensures r == Unpublished ==> TalkSoFar(p) != [] && TalkSoFar(p)[0] == Deal(FindNode(nodeID), Yes)
      ensures r == Unpublished && volumeID in w.cloud.disks ==> !AttachedTo(w.cloud.disks[volumeID], nodeID)
    {
      ghost var req := UnpublishVolume(volumeID, nodeID);
      AnswersAreRight(p, UnpublishVolume(volumeID, nodeID));
      SuccessFoundNode();
      Arrived(p, UnpublishVolume(volumeID, nodeID));
      Step(p, Served);
      if |volumeID| == 0 {
        return Error(InvalidArgument);
      }
      if |nodeID| == 0 {
        return Error(InvalidArgument);
      }
      var nodeExists := IsExistNode(p, req, nodeID);
      if !nodeExists {
        return Error(NotFound);
      }
      r := UnpublishChecked(p, req, volumeID, nodeID);
    }

    // ControllerUnpublishVolume once its node is found.
    method UnpublishChecked(p: nat, ghost req: Request, volumeID: string, nodeID: string) returns (r: Response)
      requires At(p, req, CheckDisk) && req == UnpublishVolume(volumeID, nodeID)
      modifies this
      ensures old(history) < history && At(p, req, Done(r)) && ResponseInv(req, r)
      ensures r == Unpublished ==> Achieved(w.cloud, req, r)
    {
      var missing := CheckDiskExists(p, req, volumeID);
      if missing.Some? {
        return Error(if missing == Some(ErrNotFound) then NotFound else Internal);
      }
      var acquired := TryAcquire(p, req);
      if !acquired {
        return Error(Aborted);
      }
      var err := DetachDisk(p, req, volumeID, nodeID);
      r := if err.None? || err == Some(ErrNotFound) then Unpublished else Error(Internal);
      Return(p, req, r);
    }

    method CreateVolume(p: nat, name: string, range: Option<CapacityRange>, caps: seq<Capability>,
                        params: Parameters.Pairs, topology: Option<Topology.Requirement>)
      returns (r: Response)
      requires Valid() && p !in w.handlers
      modifies this
      ensures old(history) < history && At(p, Request.CreateVolume(name, range, caps, params, topology), Done(r))
      ensures Right(Request.CreateVolume(name, range, caps, params, topology), TalkSoFar(p), r)
      ensures r.Created? ==> KnownAs(w.cloud, r.id, name, r.zone)
      ensures r.Created?
        ==> r.capacityBytes == GiBToBytes(WantedGiB(Request.CreateVolume(name, range, caps, params, topology)))
    {
      var request := Request.CreateVolume(name, range, caps, params, topology);
      ghost var req := request;
      AnswersAreRight(p, request);
      Arrived(p, request);
      Step(p, Served);
      if |name| == 0 {
        return Error(InvalidArgument);
      }
      var size := VolSizeBytes(range);
      if size.None? {
        return Error(InvalidArgument);
      }
      if |caps| == 0 {
        return Error(InvalidArgument);
      }
      if !ValidCapabilities(caps) {
        return Error(InvalidArgument);
      }
      var acquired := TryAcquire(p, req);
      if !acquired {
        return Error(Aborted);
      }
      r := CreateLocked(p, req, name, size.value, params, topology);
      Return(p, req, r);
      HandlerIsHonest(p);
    }

    // CreateVolume from the lookup on, under the lock of the name.
    method CreateLocked(p: nat, ghost req: Request, name: string, volSizeBytes: int64,
                        params: Parameters.Pairs, topology: Option<Topology.Requirement>)
      returns (r: Response)
      requires At(p, req, Lookup) && req.CreateVolume? && VolSizeBytes(req.range) == Some(volSizeBytes)
      requires req.name == name && req.params == params && req.topology == topology
      modifies this
      ensures old(history) < history && At(p, req, Release(r))
    {
      var volume, err := GetDiskByName(p, req, name, volSizeBytes);
      if err.Some? {
        match err.value {
          case ErrNotFound =>
          case ErrDiskExistsDiffSize => return Error(AlreadyExists);
          case _ => return Error(Internal);
        }
      }
      if volume.Some? {
        return volume.value;
      }
      var collected := Parameters.CollectParameters(name, params);
      if collected.None? {
        return Error(InvalidArgument);
      }
      var zone := Topology.PickAvailabilityZone(topology);
      if zone == "" {
        return Error(Internal);
      }
      volume := CreateDisk(p, req, volSizeBytes, collected.value.volumeType, zone, collected.value.tags);
      r := if volume.None? then Error(Internal) else volume.value;
    }

    method ControllerExpandVolume(p: nat, volumeID: string, range: Option<CapacityRange>, cap: Option<Capability>)
      returns (r: Response)
      requires Valid() && p !in w.handlers
      modifies this
      ensures old(history) < history && At(p, ExpandVolume(volumeID, range, cap), Done(r))
      ensures Right(ExpandVolume(volumeID, range, cap), TalkSoFar(p), r)
      ensures r.Expanded? ==> (r.nodeExpansionRequired <==> !(cap.Some? && cap.value.block))
      ensures r.Expanded? ==> exists gib: int64 ::
        SizeSeen(|old(history)|, volumeID, gib) && r == ExpandedFrom(ExpandVolume(volumeID, range, cap), gib)
      ensures r.Expanded? && NeverDivided(volumeID) ==>
        var req := ExpandVolume(volumeID, range, cap);
        && r == ExpandedFrom(req, WantedGiB(req))
        && (range.Some? && 0 <= range.value.required <= MAX_REQUEST ==> range.value.required <= r.capacityBytes)
    {
      ghost var req := ExpandVolume(volumeID, range, cap);
      AnswersAreRight(p, ExpandVolume(volumeID, range, cap));
      Arrived(p, ExpandVolume(volumeID, range, cap));
      Step(p, Served);
      if |volumeID| == 0 {
        return Error(InvalidArgument);
      }
      if range.None? {
        return Error(InvalidArgument);
      }
      var newSize := RoundUpBytes(range.value.required);
      var maxVolSize := range.value.limit;
      if maxVolSize > 0 && maxVolSize < newSize {
        return Error(InvalidArgument);
      }
      var actualSizeGiB := ResizeDisk(p, req, volumeID, newSize);
      if actualSizeGiB.None? {
        return Error(Internal);
      }
      var nodeExpansionRequired := true;
      if cap.Some? && cap.value.block {
        nodeExpansionRequired := false;
      }
      r := Expanded(GiBToBytes(actualSizeGiB.value), nodeExpansionRequired);
      if NeverDivided(volumeID) {
        ExpandGotItsWish(p);
      }
    }
  }
}
