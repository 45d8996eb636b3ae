/**
  What a controller call asks of the locks and the cloud, what it is told, and which
  response that leads to.  Every call has a plan of what it asks and needs to be told, goes
  by it as far as it is told what it needs, and answers by the last thing it was told.
 */
module ControllerTalks {
  import opened Wrappers
  import opened Sizes
  import opened CloudModel
  import opened Controller
  import opened ControllerSafety
  import Parameters
  import Topology

  // ---------- asking and being told ----------

  datatype Ask =
    | FindNode(node: string)
    | GetDisk(id: string)
    | TryLock(key: string)
    | ListDisks(name: string)
    | CreateDisk(disk: Disk)
    | DeleteDisk(id: string)
    | AttachDisk(id: string, node: string)
    | DetachDisk(id: string, node: string)
    | UpdateDisk(id: string, gib: int64)

  // Unheard stands for an error, and for a reply that is lost.
  datatype Told =
    | Yes
    | No
    | Unheard
    | TimeUp
    | Shows(disk: Disk)
    | Lists(id: string, disk: Disk)
    | IsNow(id: string)

  datatype Deal = Deal(ask: Ask, told: Told)

  function NodeOf(req: Request): string {
    if req.PublishVolume? || req.UnpublishVolume? then req.node else ""
  }

  // The size that a request asks for, and the disk that a create makes.
  datatype Wishes = Wishes(gib: int64, disk: Disk)

  // What a handler asks at each place, if it asks anything.
  function AskAt(req: Request, wish: Wishes, pc: PC): Option<Ask> {
    match pc
    case CheckNode => Some(FindNode(NodeOf(req)))
    case CheckDisk => Some(GetDisk(req.Key()))
    case Acquire => Some(TryLock(req.Key()))
    case Lookup => Some(ListDisks(req.Key()))
    case Create => Some(CreateDisk(wish.disk))
    case WaitReady(id) => Some(GetDisk(id))
    case Delete => Some(DeleteDisk(req.Key()))
    case Attach => Some(AttachDisk(req.Key(), NodeOf(req)))
    case WaitAttached => Some(GetDisk(req.Key()))
    case ReadDevicePath => Some(GetDisk(req.Key()))
    case Detach => Some(DetachDisk(req.Key(), NodeOf(req)))
    case WaitDetached => Some(GetDisk(req.Key()))
    case GetSize => Some(GetDisk(req.Key()))
    case Resize => Some(UpdateDisk(req.Key(), wish.gib))
    case WaitResized => Some(GetDisk(req.Key()))
    case GetNewSize => Some(GetDisk(req.Key()))
    case _ => None
  }

  // Whether the cloud can do what it is asked.
  predicate Accepts(c: Cloud, ask: Ask) {
    match ask
    case DeleteDisk(id) => id in c.disks
    case AttachDisk(id, _) => id in c.disks && c.disks[id].attachments == []
    case DetachDisk(id, node) => id in c.disks && AttachedTo(c.disks[id], node)
    case UpdateDisk(id, _) => id in c.disks
    case _ => false
  }

  // What the locks and the cloud tell who asks.
  function ToldBy(c: Cloud, locks: set<string>, ask: Ask, answer: Answer): Told {
    match ask
    case FindNode(_) => if answer == Served then Yes else No
    case TryLock(key) => if key in locks then No else Yes
    case GetDisk(id) =>
      if answer == Expired then TimeUp
      else if answer != Served then Unheard
      else if id !in c.disks then No
      else Shows(c.disks[id])
    case ListDisks(_) =>
      if answer.First? && answer.id in c.disks then Lists(answer.id, c.disks[answer.id])
      else if answer == Served then No
      else Unheard
    case CreateDisk(_) => if answer.Made? then IsNow(answer.id) else Unheard
    case _ => if answer != Served then Unheard else if Accepts(c, ask) then Yes else No
  }

  // What asking does to the cloud, even if the reply is lost.
  function Effect(c: Cloud, ask: Ask, answer: Answer): Cloud {
    if ask.CreateDisk? then
      if answer.Made? || answer.MadeButLost?
      then Cloud(c.disks[answer.id := ask.disk], c.seen + {answer.id}) else c
    else if answer == Refused || !Accepts(c, ask) then
      c
    else match ask
      case DeleteDisk(id) => c.(disks := c.disks - {id})
      case AttachDisk(id, node) => SetAttachments(c, id, [Attachment(node, "", Attaching)])
      case DetachDisk(id, node) => SetAttachments(c, id, WithDetaching(c.disks[id].attachments, node))
      case UpdateDisk(id, gib) => c.(disks := c.disks[id := c.disks[id].(sizeGiB := gib, status := Updating)])
      case _ => c
  }

  // A probe after which a wait goes on.
  predicate LeavesWaiting(pc: PC, told: Told) {
    told.Shows? && match pc
      case WaitReady(_) => told.disk.status != Ready
      case WaitResized => told.disk.status != Ready
      case WaitAttached => CurrentState(told.disk.attachments) != Attached
      case WaitDetached => CurrentState(told.disk.attachments) != Detached
      case _ => false
  }

  // ---------- the conversation of a handler ----------

  // The steps that led from each state of a history to the next.
  ghost predicate Traced(ws: seq<World>, steps: seq<Step>) {
    |ws| == |steps| + 1
    && forall i :: 0 <= i < |steps| ==> Enabled(ws[i], steps[i]) && ws[i + 1] == Apply(ws[i], steps[i])
  }

  // What handler p learns by this answer; the probes after which it waits on are left out.
  function DealsIn(w: World, p: nat, answer: Answer): seq<Deal> {
    if p !in w.handlers then []
    else
      var h := w.handlers[p];
      var ask := AskAt(h.req, Wish(h.req), h.pc);
      if ask.None? || LeavesWaiting(h.pc, ToldBy(w.cloud, w.locks, ask.value, answer)) then []
      else [Deal(ask.value, ToldBy(w.cloud, w.locks, ask.value, answer))]
  }

  function TalkAfter(w: World, step: Step, p: nat, talk: seq<Deal>): seq<Deal> {
    match step
    case Arrive(q, _) => if q == p then [] else talk
    case Move(q, answer) => if q == p then talk + DealsIn(w, p, answer) else talk
    case _ => talk
  }

  // All that handler p asked and was told since it arrived.
  function Talk(ws: seq<World>, steps: seq<Step>, p: nat): seq<Deal>
    requires |steps| < |ws|
    decreases |steps|
  {
    if steps == [] then []
    else
      var n := |steps| - 1;
      TalkAfter(ws[n], steps[n], p, Talk(ws[..|ws| - 1], steps[..n], p))
  }

  // ---------- what is asked and needed ----------

  // What a handler needs to be told to go on.
  datatype Need = Agreement | ADisk | NothingListed | AnId | AReadyDisk | AnAttachedDisk | ADevicePath
    | ADetachedDisk | ASmallerDisk(gib: int64)

  predicate Met(need: Need, told: Told) {
    match need
    case Agreement => told == Yes
    case ADisk => told.Shows?
    case NothingListed => told == No
    case AnId => told.IsNow?
    case AReadyDisk => told.Shows? && told.disk.status == Ready
    case AnAttachedDisk => told.Shows? && CurrentState(told.disk.attachments) == Attached
    case ADevicePath =>
      told.Shows? && told.disk.attachments != [] && told.disk.attachments[0].devicePath != ""
    case ADetachedDisk => told == No || (told.Shows? && CurrentState(told.disk.attachments) == Detached)
    case ASmallerDisk(gib) => told.Shows? && told.disk.sizeGiB < gib
  }

  // The requests that are refused as they stand.
  predicate Malformed(req: Request) {
    match req
    case CreateVolume(name, range, caps, _, _) =>
      name == "" || caps == [] || (exists cap :: cap in caps && cap.mode != SingleNodeWriter) || TooLarge(range)
    case DeleteVolume(volume) => volume == ""
    case PublishVolume(volume, node, cap) =>
      volume == "" || node == "" || cap.None? || cap.value.mode != SingleNodeWriter
    case UnpublishVolume(volume, node) => volume == "" || node == ""
    case ExpandVolume(volume, range, _) => volume == "" || range.None? || TooLarge(range)
  }

  predicate TooLarge(range: Option<CapacityRange>) {
    range.Some? && range.value.limit > 0 && range.value.limit < RoundUpBytes(range.value.required)
  }

  // The GiB asked for; 100 when nothing is said.
  function WishGiB(range: Option<CapacityRange>): int64 {
    if range.Some? then CapacityFor(range.value.required) else 100
  }

  function Wish(req: Request): Wishes {
    var none := Disk(map[], "", "", 0, Creating, []);
    match req
    case CreateVolume(_, range, _, _, _) => Wishes(WishGiB(range), NewDisk(req))
    case ExpandVolume(_, range, _) => Wishes(WishGiB(range), none)
    case _ => Wishes(0, none)
  }

  predicate HasUnknownKey(params: Parameters.Pairs) {
    exists pair :: pair in params && !Parameters.KnownKey(pair.0)
  }

  // What a call asks, in this order, and what it needs to be told each time to go on.
  function Plan(req: Request, wish: Wishes, talk: seq<Deal>): seq<(Ask, Need)> {
    match req
    case CreateVolume(name, _, _, params, topology) =>
      var id := if |talk| > 2 && talk[2].told.IsNow? then talk[2].told.id else "";
      if HasUnknownKey(params) || Topology.PickedZone(topology) == "" then
        [(TryLock(name), Agreement), (ListDisks(name), NothingListed)]
      else if wish.gib == 0 then
        [(TryLock(name), Agreement), (ListDisks(name), NothingListed), (CreateDisk(wish.disk), AnId)]
      else
        [(TryLock(name), Agreement), (ListDisks(name), NothingListed), (CreateDisk(wish.disk), AnId),
         (GetDisk(id), AReadyDisk)]
    case DeleteVolume(v) => [(TryLock(v), Agreement), (DeleteDisk(v), Agreement)]
    case PublishVolume(v, node, _) =>
      [(FindNode(node), Agreement), (GetDisk(v), ADisk), (TryLock(v), Agreement), (AttachDisk(v, node), Agreement),
       (GetDisk(v), AnAttachedDisk), (GetDisk(v), ADevicePath)]
    case UnpublishVolume(v, node) =>
      [(FindNode(node), Agreement), (GetDisk(v), ADisk), (TryLock(v), Agreement), (DetachDisk(v, node), Agreement),
       (GetDisk(v), ADetachedDisk)]
    case ExpandVolume(v, _, _) =>
      [(GetDisk(v), ASmallerDisk(wish.gib)), (UpdateDisk(v, wish.gib), Agreement),
       (GetDisk(v), AReadyDisk), (GetDisk(v), ADisk)]
  }

  // The handler has gone n steps of its plan.
  predicate Went(talk: seq<Deal>, plan: seq<(Ask, Need)>, n: nat) {
    && |talk| == n <= |plan|
    && forall i :: 0 <= i < n ==> talk[i].ask == plan[i].0 && Met(plan[i].1, talk[i].told)
  }

  // It has stopped: at the end of its plan, or before, where it was told something else.
  predicate Stopped(talk: seq<Deal>, plan: seq<(Ask, Need)>) {
    && 0 < |talk| <= |plan|
    && var n := |talk| - 1;
      && Went(talk[..n], plan, n) && talk[n].ask == plan[n].0
      && (Met(plan[n].1, talk[n].told) ==> |talk| == |plan|)
  }

  // The response, by how far the handler came and the last thing it was told.
  function Verdict(req: Request, wish: Wishes, talk: seq<Deal>): Response
    requires talk != []
  {
    var n, last := |talk|, talk[|talk| - 1].told;
    match req
    case CreateVolume(_, _, _, params, topology) =>
      if n == 1 then Error(Aborted)
      else if last.Lists? then
        if last.disk.sizeGiB == wish.gib
        then Created(last.id, GiBToBytes(last.disk.sizeGiB), last.disk.zone) else Error(AlreadyExists)
      else if n == 2 && last == No && HasUnknownKey(params) then Error(InvalidArgument)
      else if n == 4 && Met(AReadyDisk, last) && talk[2].told.IsNow? then
        Created(talk[2].told.id, GiBToBytes(wish.gib), Topology.PickedZone(topology))
      else Error(Internal)
    case DeleteVolume(_) =>
      if n == 1 then Error(Aborted) else if last == Unheard then Error(Internal) else Deleted
    case PublishVolume(_, _, _) =>
      if n == 1 || (n == 2 && last == No) then Error(NotFound)
      else if n == 3 then Error(Aborted)
      else if n == 6 && Met(ADevicePath, last) then Published(last.disk.attachments[0].devicePath)
      else Error(Internal)
    case UnpublishVolume(_, _) =>
      if n == 1 || (n == 2 && last == No) then Error(NotFound)
      else if n == 3 then Error(Aborted)
      else if (n == 4 && last == No) || (n == 5 && Met(ADetachedDisk, last)) then Unpublished
      else Error(Internal)
    case ExpandVolume(_, _, cap) =>
      if last.Shows? && ((n == 1 && last.disk.sizeGiB == wish.gib) || n == 4) then
        Expanded(GiBToBytes(last.disk.sizeGiB), cap.None? || !cap.value.block)
      else Error(Internal)
  }

  // The response is the one that the conversation leads to.
  ghost predicate Right(req: Request, talk: seq<Deal>, r: Response) {
    RightFor(req, Wish(req), talk, r)
  }

  ghost predicate RightFor(req: Request, wish: Wishes, talk: seq<Deal>, r: Response) {
    if Malformed(req) then talk == [] && r == Error(InvalidArgument)
    else Stopped(talk, Plan(req, wish, talk)) && r == Verdict(req, wish, talk)
  }

  // ---------- on the way ----------

  // How many steps of its plan a handler at this place has gone.
  function Place(req: Request, pc: PC): nat {
    match pc
    case CheckNode => 0
    case CheckDisk => 1
    case Acquire => if req.PublishVolume? || req.UnpublishVolume? then 2 else 0
    case Lookup => 1
    case Create => 2
    case WaitReady(_) => 3
    case Delete => 1
    case Attach => 3
    case Detach => 3
    case WaitAttached => 4
    case WaitDetached => 4
    case ReadDevicePath => 5
    case GetSize => 0
    case Resize => 1
    case WaitResized => 2
    case GetNewSize => 3
    case _ => 0
  }

  // It has been told that the lock is its own.
  predicate HasLock(req: Request, talk: seq<Deal>) {
    var n := Place(req, Acquire);
    n < |talk| && talk[n] == Deal(TryLock(req.Key()), Yes)
  }

  ghost predicate Story(req: Request, wish: Wishes, pc: PC, talk: seq<Deal>) {
    match pc
    case Validate => talk == []
    case Done(r) => RightFor(req, wish, talk, r)
    case Release(r) => RightFor(req, wish, talk, r) && HasLock(req, talk)
    case _ => !Malformed(req) && AtPlace(req, wish, pc, talk) && Went(talk, Plan(req, wish, talk), |talk|)
  }

  // The handler is about to ask what its plan has next.
  predicate AtPlace(req: Request, wish: Wishes, pc: PC, talk: seq<Deal>) {
    && PcInv(req, pc) && AskAt(req, wish, pc).Some? && |talk| == Place(req, pc) < |Plan(req, wish, talk)|
    && AskAt(req, wish, pc) == Some(Plan(req, wish, talk)[|talk|].0)
  }

  // The sizes and keys in the plan are those of the model.
  predicate Agrees(req: Request, wish: Wishes) {
    && wish.gib == WantedGiB(req) && (req.CreateVolume? ==> wish.disk == NewDisk(req))
    && (req.CreateVolume? ==> (HasUnknownKey(req.params) <==> Parameters.Collect(req.name, req.params).None?))
  }

  lemma WishIsWanted(req: Request)
    requires !Malformed(req)
    ensures Agrees(req, Wish(req))
  {
    if req.CreateVolume? {
      Parameters.CollectMeaning(req.name, req.params);
      assert DiskCapacity(DEFAULT_VOLUME_SIZE) == 100;
    }
  }

  // One step of a plan more, or the end of it.
  lemma PlanStep(talk: seq<Deal>, plan: seq<(Ask, Need)>, plan': seq<(Ask, Need)>, deal: Deal)
    requires Went(talk, plan, |talk|) && |talk| < |plan| == |plan'| && plan'[..|talk| + 1] == plan[..|talk| + 1]
    requires deal.ask == plan[|talk|].0
    ensures if Met(plan[|talk|].1, deal.told) && |talk| + 1 < |plan|
      then Went(talk + [deal], plan', |talk| + 1) else Stopped(talk + [deal], plan')
  {
    assert (talk + [deal])[..|talk|] == talk;
    assert forall i :: 0 <= i <= |talk| ==> plan'[i] == plan'[..|talk| + 1][i] == plan[..|talk| + 1][i] == plan[i];
  }

  // What is told does not change the plan so far.
  lemma SamePlan(req: Request, wish: Wishes, talk: seq<Deal>, deal: Deal)
    requires |talk| < |Plan(req, wish, talk)|
    ensures |Plan(req, wish, talk + [deal])| == |Plan(req, wish, talk)|
    ensures Plan(req, wish, talk + [deal])[..|talk| + 1] == Plan(req, wish, talk)[..|talk| + 1]
  {
  }

  lemma ValidatedStory(req: Request)
    ensures Story(req, Wish(req), Validated(req), [])
  {
  }

  predicate Asks(req: Request, wish: Wishes, pc: PC) {
    AskAt(req, wish, pc).Some?
  }

  function Reply(c: Cloud, locks: set<string>, req: Request, wish: Wishes, pc: PC, answer: Answer): Told
    requires Asks(req, wish, pc)
  {
    ToldBy(c, locks, AskAt(req, wish, pc).value, answer)
  }

  // What can be told at a place.
  predicate CanTell(pc: PC, told: Told) {
    match pc
    case Lookup => told == No || told == Unheard || told.Lists?
    case Create => told == Unheard || told.IsNow?
    case CheckNode => told == Yes || told == No
    case Delete => told == Yes || told == No || told == Unheard
    case Attach => told == Yes || told == No || told == Unheard
    case Detach => told == Yes || told == No || told == Unheard
    case Resize => told == Yes || told == No || told == Unheard
    case _ => told == No || told == Unheard || told == TimeUp || told.Shows?
  }

  // Where a handler goes by what it is told, and by nothing else.
  function Onward(req: Request, wish: Wishes, pc: PC, told: Told): PC {
    if LeavesWaiting(pc, told) then pc
    else match pc
      case CheckNode => if told == Yes then CheckDisk else Done(Error(NotFound))
      case CheckDisk => if told.Shows? then Acquire else Done(Error(if told == No then NotFound else Internal))
      case Lookup =>
        if told.Lists? then
          if told.disk.sizeGiB == wish.gib then Release(CreatedFrom(told.id, told.disk)) else Failure(AlreadyExists)
        else if told == Unheard || !req.CreateVolume? then Failure(Internal)
        else if HasUnknownKey(req.params) then Failure(InvalidArgument)
        else if Topology.PickedZone(req.topology) == "" then Failure(Internal)
        else Create
      case Create => if told.IsNow? && wish.gib != 0 then WaitReady(told.id) else Failure(Internal)
      case WaitReady(id) =>
        if told.Shows? && req.CreateVolume?
        then Release(Created(id, GiBToBytes(wish.gib), Topology.PickedZone(req.topology))) else Failure(Internal)
      case Delete => if told == Unheard then Failure(Internal) else Release(Deleted)
      case Attach => if told == Yes then WaitAttached else Failure(Internal)
      case WaitAttached => if told.Shows? then ReadDevicePath else Failure(Internal)
      case ReadDevicePath =>
        if Met(ADevicePath, told) then Release(Published(told.disk.attachments[0].devicePath)) else Failure(Internal)
      case Detach =>
        if told == Yes then WaitDetached else if told == No then Release(Unpublished) else Failure(Internal)
      case WaitDetached => if told.Shows? || told == No then Release(Unpublished) else Failure(Internal)
      case GetSize =>
        if !told.Shows? || wish.gib < told.disk.sizeGiB then Done(Error(Internal))
        else if wish.gib == told.disk.sizeGiB then Done(ExpandedFrom(req, wish.gib))
        else Resize
      case Resize => if told == Yes then WaitResized else Done(Error(Internal))
      case WaitResized => if told.Shows? then GetNewSize else Done(Error(Internal))
      case GetNewSize => if told.Shows? then Done(ExpandedFrom(req, told.disk.sizeGiB)) else Done(Error(Internal))
      case _ => pc
  }

  // The comparison of sizes does not overflow.
  predicate SizesCompare(c: Cloud, req: Request) {
    req.ExpandVolume? && req.volume in c.disks ==>
      (Wrap(WantedGiB(req) - c.disks[req.volume].sizeGiB) < 0 <==> WantedGiB(req) < c.disks[req.volume].sizeGiB)
  }

  lemma SizesDoCompare(c: Cloud, req: Request)
    requires CloudInv(c)
    ensures SizesCompare(c, req)
  {
    WantedSize(req);
    if req.ExpandVolume? && req.volume in c.disks {
      WrapIsIdentity(WantedGiB(req) - c.disks[req.volume].sizeGiB);
    }
  }

  lemma ChecksByTold(c: Cloud, locks: set<string>, req: Request, wish: Wishes, pc: PC, answer: Answer)
    requires Fits(c, req, pc, answer) && PcInv(req, pc) && Agrees(req, wish) && SizesCompare(c, req)
    requires pc == CheckNode || pc == CheckDisk
    ensures OwnStep(c, req, pc, answer).1 == Onward(req, wish, pc, Reply(c, locks, req, wish, pc, answer))
    ensures CanTell(pc, Reply(c, locks, req, wish, pc, answer))
  {
  }

  lemma LookupByTold(c: Cloud, locks: set<string>, req: Request, wish: Wishes, pc: PC, answer: Answer)
    requires Fits(c, req, pc, answer) && PcInv(req, pc) && Agrees(req, wish) && SizesCompare(c, req)
    requires req.CreateVolume? && pc == Lookup
    ensures OwnStep(c, req, pc, answer).1 == Onward(req, wish, pc, Reply(c, locks, req, wish, pc, answer))
    ensures CanTell(pc, Reply(c, locks, req, wish, pc, answer))
  {
  }

  lemma CreateByTold(c: Cloud, locks: set<string>, req: Request, wish: Wishes, pc: PC, answer: Answer)
    requires Fits(c, req, pc, answer) && PcInv(req, pc) && Agrees(req, wish) && SizesCompare(c, req)
    requires req.CreateVolume? && (pc == Create || pc.WaitReady?)
    ensures OwnStep(c, req, pc, answer).1 == Onward(req, wish, pc, Reply(c, locks, req, wish, pc, answer))
    ensures CanTell(pc, Reply(c, locks, req, wish, pc, answer))
  {
  }

  lemma SizeByTold(c: Cloud, locks: set<string>, req: Request, wish: Wishes, pc: PC, answer: Answer)
    requires Fits(c, req, pc, answer) && PcInv(req, pc) && Agrees(req, wish) && SizesCompare(c, req)
    requires req.ExpandVolume? && pc == GetSize
    ensures OwnStep(c, req, pc, answer).1 == Onward(req, wish, pc, Reply(c, locks, req, wish, pc, answer))
    ensures CanTell(pc, Reply(c, locks, req, wish, pc, answer))
  {
  }

  lemma ExpandByTold(c: Cloud, locks: set<string>, req: Request, wish: Wishes, pc: PC, answer: Answer)
    requires Fits(c, req, pc, answer) && PcInv(req, pc) && Agrees(req, wish) && SizesCompare(c, req)
    requires req.ExpandVolume? && (pc == Resize || pc == WaitResized || pc == GetNewSize)
    ensures OwnStep(c, req, pc, answer).1 == Onward(req, wish, pc, Reply(c, locks, req, wish, pc, answer))
    ensures CanTell(pc, Reply(c, locks, req, wish, pc, answer))
  {
  }

  lemma SectionByTold(c: Cloud, locks: set<string>, req: Request, wish: Wishes, pc: PC, answer: Answer)
    requires Fits(c, req, pc, answer) && PcInv(req, pc) && Agrees(req, wish) && SizesCompare(c, req)
    requires Asks(req, wish, pc) && (req.DeleteVolume? || req.PublishVolume? || req.UnpublishVolume?) && pc != Acquire
      && pc != CheckNode && pc != CheckDisk
    ensures OwnStep(c, req, pc, answer).1 == Onward(req, wish, pc, Reply(c, locks, req, wish, pc, answer))
    ensures CanTell(pc, Reply(c, locks, req, wish, pc, answer))
  {
  }

  lemma GoesByWhatItIsTold(c: Cloud, locks: set<string>, req: Request, wish: Wishes, pc: PC, answer: Answer)
    requires Fits(c, req, pc, answer) && PcInv(req, pc) && Agrees(req, wish) && SizesCompare(c, req)
    requires Asks(req, wish, pc) && pc != Acquire
    ensures OwnStep(c, req, pc, answer).1 == Onward(req, wish, pc, Reply(c, locks, req, wish, pc, answer))
    ensures CanTell(pc, Reply(c, locks, req, wish, pc, answer))
  {
    if pc == CheckNode || pc == CheckDisk {
      ChecksByTold(c, locks, req, wish, pc, answer);
    } else {
      match req
      case CreateVolume(_, _, _, _, _) =>
        if pc == Lookup {
          LookupByTold(c, locks, req, wish, pc, answer);
        } else {
          CreateByTold(c, locks, req, wish, pc, answer);
        }
      case ExpandVolume(_, _, _) =>
        if pc == GetSize {
          SizeByTold(c, locks, req, wish, pc, answer);
        } else {
          ExpandByTold(c, locks, req, wish, pc, answer);
        }
      case _ => SectionByTold(c, locks, req, wish, pc, answer);
    }
  }

  function Longer(req: Request, wish: Wishes, pc: PC, told: Told, talk: seq<Deal>): seq<Deal>
    requires Asks(req, wish, pc)
  {
    if LeavesWaiting(pc, told) then talk else talk + [Deal(AskAt(req, wish, pc).value, told)]
  }

  // Told what it needs, a handler goes on to the next step of its plan ...
  lemma MovesOn(req: Request, wish: Wishes, pc: PC, told: Told, talk: seq<Deal>)
    requires AtPlace(req, wish, pc, talk) && CanTell(pc, told) && pc != Acquire && !LeavesWaiting(pc, told)
    requires Met(Plan(req, wish, talk)[|talk|].1, told) && |talk| + 1 < |Plan(req, wish, talk)|
    ensures AtPlace(req, wish, Onward(req, wish, pc, told), Longer(req, wish, pc, told, talk))
  {
  }

  // ... and otherwise, or at the end of its plan, it ends as the last answer says.
  lemma Ends(req: Request, wish: Wishes, pc: PC, told: Told, talk: seq<Deal>)
    requires AtPlace(req, wish, pc, talk) && CanTell(pc, told) && pc != Acquire && !LeavesWaiting(pc, told)
    requires Met(Plan(req, wish, talk)[|talk|].1, told) ==> |talk| + 1 == |Plan(req, wish, talk)|
    requires Place(req, Acquire) < |talk| && !req.ExpandVolume? ==> HasLock(req, talk)
    requires req.CreateVolume? && |talk| == 3 ==> talk[2].told.IsNow?
    ensures var r, longer := Verdict(req, wish, Longer(req, wish, pc, told, talk)), Longer(req, wish, pc, told, talk);
      var pc' := Onward(req, wish, pc, told);
      pc' == Done(r) || (pc' == Release(r) && HasLock(req, longer))
  {
  }

  lemma StoryGoes(req: Request, wish: Wishes, pc: PC, told: Told, talk: seq<Deal>)
    requires !Malformed(req) && AtPlace(req, wish, pc, talk) && Went(talk, Plan(req, wish, talk), |talk|)
    requires CanTell(pc, told) && pc != Acquire && !LeavesWaiting(pc, told)
    ensures Story(req, wish, Onward(req, wish, pc, told), Longer(req, wish, pc, told, talk))
  {
    var plan, n := Plan(req, wish, talk), |talk|;
    var deal := Deal(AskAt(req, wish, pc).value, told);
    SamePlan(req, wish, talk, deal);
    PlanStep(talk, plan, Plan(req, wish, talk + [deal]), deal);
    if Met(plan[n].1, told) && n + 1 < |plan| {
      MovesOn(req, wish, pc, told, talk);
    } else {
      HadLock(req, wish, pc, talk);
      Ends(req, wish, pc, told, talk);
    }
  }

  lemma HadLock(req: Request, wish: Wishes, pc: PC, talk: seq<Deal>)
    requires AtPlace(req, wish, pc, talk) && Went(talk, Plan(req, wish, talk), |talk|)
    ensures Place(req, Acquire) < |talk| && !req.ExpandVolume? ==> HasLock(req, talk)
    ensures req.CreateVolume? && |talk| == 3 ==> talk[2].told.IsNow?
  {
  }

  lemma LockGoes(locks: set<string>, req: Request, wish: Wishes, talk: seq<Deal>)
    requires Story(req, wish, Acquire, talk)
    ensures var told := if req.Key() in locks then No else Yes;
      Story(req, wish, if told == No then Done(Error(Aborted)) else Locked(req),
            talk + [Deal(TryLock(req.Key()), told)])
  {
    var deal := Deal(TryLock(req.Key()), if req.Key() in locks then No else Yes);
    SamePlan(req, wish, talk, deal);
    PlanStep(talk, Plan(req, wish, talk), Plan(req, wish, talk + [deal]), deal);
  }

  lemma AskGoes(c: Cloud, locks: set<string>, req: Request, wish: Wishes, pc: PC, answer: Answer, talk: seq<Deal>)
    requires CloudInv(c) && Fits(c, req, pc, answer) && Asks(req, wish, pc) && pc != Acquire
    requires Story(req, wish, pc, talk) && wish == Wish(req)
    ensures var told := Reply(c, locks, req, wish, pc, answer);
      Story(req, wish, OwnStep(c, req, pc, answer).1, Longer(req, wish, pc, told, talk))
  {
    assert PcInv(req, pc) && !Malformed(req);
    WishIsWanted(req);
    SizesDoCompare(c, req);
    GoesByWhatItIsTold(c, locks, req, wish, pc, answer);
    if !LeavesWaiting(pc, Reply(c, locks, req, wish, pc, answer)) {
      StoryGoes(req, wish, pc, Reply(c, locks, req, wish, pc, answer), talk);
    }
  }

  ghost predicate HasStory(h: Handler, talk: seq<Deal>) {
    Story(h.req, Wish(h.req), h.pc, talk)
  }

  lemma MoveAsks(w: World, p: nat, answer: Answer, talk: seq<Deal>)
    requires Enabled(w, Move(p, answer)) && w.handlers[p].pc != Acquire
    requires Asks(w.handlers[p].req, Wish(w.handlers[p].req), w.handlers[p].pc)
    ensures var h, h' := w.handlers[p], MoveHandler(w, p, answer).handlers[p];
      var told := Reply(w.cloud, w.locks, h.req, Wish(h.req), h.pc, answer);
      && h' == Handler(h.req, OwnStep(w.cloud, h.req, h.pc, answer).1)
      && talk + DealsIn(w, p, answer) == Longer(h.req, Wish(h.req), h.pc, told, talk)
  {
  }

  // Checking the arguments, taking the lock and giving it back.
  lemma MoveAlone(w: World, p: nat, answer: Answer, talk: seq<Deal>)
    requires Enabled(w, Move(p, answer)) && HasStory(w.handlers[p], talk)
    requires w.handlers[p].pc == Acquire || !Asks(w.handlers[p].req, Wish(w.handlers[p].req), w.handlers[p].pc)
    ensures HasStory(MoveHandler(w, p, answer).handlers[p], talk + DealsIn(w, p, answer))
  {
    var h := w.handlers[p];
    if h.pc == Acquire {
      LockGoes(w.locks, h.req, Wish(h.req), talk);
    } else {
      assert talk + [] == talk;
      ValidatedStory(h.req);
    }
  }

  lemma MoveGoes(w: World, p: nat, answer: Answer, talk: seq<Deal>)
    requires CloudInv(w.cloud) && Enabled(w, Move(p, answer)) && HasStory(w.handlers[p], talk)
    ensures HasStory(MoveHandler(w, p, answer).handlers[p], talk + DealsIn(w, p, answer))
  {
    var h := w.handlers[p];
    if h.pc == Acquire || !Asks(h.req, Wish(h.req), h.pc) {
      MoveAlone(w, p, answer, talk);
    } else {
      MoveAsks(w, p, answer, talk);
      AskGoes(w.cloud, w.locks, h.req, Wish(h.req), h.pc, answer, talk);
    }
  }

  // ---------- in every run ----------

  lemma TracedIsRun(ws: seq<World>, steps: seq<Step>)
    requires Traced(ws, steps)
    ensures IsRun(ws)
  {
    forall i: nat | i + 1 < |ws|
      ensures Linked(ws, i)
    {
      assert Enabled(ws[i], steps[i]) && ws[i + 1] == Apply(ws[i], steps[i]);
    }
  }

  lemma StepGoes(w: World, step: Step, w': World, p: nat, talk: seq<Deal>)
    requires CloudInv(w.cloud) && Enabled(w, step) && w' == Apply(w, step) && p in w'.handlers
    requires p in w.handlers ==> HasStory(w.handlers[p], talk)
    ensures HasStory(w'.handlers[p], TalkAfter(w, step, p, talk))
  {
    if step.Move? && step.p == p {
      MoveGoes(w, p, step.answer, talk);
    } else {
      OthersLeaveHandler(w, step, p);
    }
  }

  lemma OthersLeaveHandler(w: World, step: Step, p: nat)
    requires Enabled(w, step) && p in Apply(w, step).handlers && !(step.Move? && step.p == p)
    ensures if step.Arrive? && step.p == p then Apply(w, step).handlers[p] == Handler(step.req, Validate)
      else p in w.handlers && Apply(w, step).handlers[p] == w.handlers[p]
  {
  }

  lemma {:induction false} EveryStory(ws: seq<World>, steps: seq<Step>, p: nat)
    requires Traced(ws, steps) && Init(ws[0]) && p in ws[|ws| - 1].handlers
    ensures HasStory(ws[|ws| - 1].handlers[p], Talk(ws, steps, p))
    decreases |steps|
  {
    if steps != [] {
      var n := |steps| - 1;
      var init := ws[..|ws| - 1];
      if p in ws[n].handlers {
        EveryStory(init, steps[..n], p);
      }
      assert CloudInv(ws[n].cloud) by {
        TracedIsRun(ws, steps);
        RunKeepsInv(ws, n);
      }
      StepGoes(ws[n], steps[n], ws[n + 1], p, Talk(init, steps[..n], p));
      assert Talk(ws, steps, p) == TalkAfter(ws[n], steps[n], p, Talk(init, steps[..n], p));
    }
  }

  // In every run every handler answers as what it was told requires.
  lemma EveryAnswerIsRight(ws: seq<World>, steps: seq<Step>, p: nat, r: Response)
    requires Traced(ws, steps) && Init(ws[0]) && p in ws[|ws| - 1].handlers
    requires ws[|ws| - 1].handlers[p].pc == Done(r) || ws[|ws| - 1].handlers[p].pc == Release(r)
    ensures Right(ws[|ws| - 1].handlers[p].req, Talk(ws, steps, p), r)
  {
    EveryStory(ws, steps, p);
  }

  // After these steps handler p has returned this.
  ghost predicate Returned(ws: seq<World>, steps: seq<Step>, p: nat, req: Request, r: Response) {
    && Traced(ws, steps) && Init(ws[0]) && p in ws[|ws| - 1].handlers
    && ws[|ws| - 1].handlers[p] == Handler(req, Done(r))
  }

  // The same, for all histories at once.
  lemma AnswersAreRight(p: nat, req: Request)
    ensures forall ws, steps, r {:trigger Right(req, Talk(ws, steps, p), r)} ::
      Returned(ws, steps, p, req, r) ==> Right(req, Talk(ws, steps, p), r)
  {
    forall ws, steps, r | Returned(ws, steps, p, req, r)
      ensures Right(req, Talk(ws, steps, p), r)
    {
      EveryAnswerIsRight(ws, steps, p, r);
    }
  }

  // A publish or unpublish succeeds only after its node was found.
  lemma SuccessFoundNode()
    ensures forall req, talk, r {:trigger Right(req, talk, r)} ::
      Right(req, talk, r) && (r.Published? || r == Unpublished)
      ==> talk != [] && talk[0] == Deal(FindNode(NodeOf(req)), Yes)
  {
    forall req, talk, r | Right(req, talk, r) && (r.Published? || r == Unpublished)
      ensures talk != [] && talk[0] == Deal(FindNode(NodeOf(req)), Yes)
    {
      assert |talk| > 1 ==> talk[..|talk| - 1][0] == talk[0];
    }
  }

  // Every run has such steps.
  lemma {:induction false} RunIsTraced(ws: seq<World>) returns (steps: seq<Step>)
    requires IsRun(ws)
    ensures Traced(ws, steps)
  {
    if |ws| == 1 {
      return [];
    }
    var init := ws[..|ws| - 1];
    forall i: nat | i + 1 < |init|
      ensures Linked(init, i)
    {
      assert Linked(ws, i);
    }
    steps := RunIsTraced(init);
    assert Linked(ws, |ws| - 2);
    var step :| Enabled(ws[|ws| - 2], step) && ws[|ws| - 1] == Apply(ws[|ws| - 2], step);
    steps := steps + [step];
  }

  lemma OwnStepEffect(c: Cloud, req: Request, wish: Wishes, pc: PC, answer: Answer)
    requires Fits(c, req, pc, answer) && PcInv(req, pc) && Agrees(req, wish) && Asks(req, wish, pc) && pc != Acquire
    ensures OwnStep(c, req, pc, answer).0 == Effect(c, AskAt(req, wish, pc).value, answer)
  {
  }

  // What a step of a handler does to the cloud is what it asks for, even if it is told
  // nothing.
  lemma EveryEffectIsAsked(ws: seq<World>, steps: seq<Step>, i: nat)
    requires Traced(ws, steps) && Init(ws[0]) && i < |steps| && steps[i].Move? && steps[i].p in ws[i].handlers
    ensures ws[i + 1].cloud ==
      var h := ws[i].handlers[steps[i].p];
      var ask := AskAt(h.req, Wish(h.req), h.pc);
      if ask.None? then ws[i].cloud else Effect(ws[i].cloud, ask.value, steps[i].answer)
  {
    var p := steps[i].p;
    var h := ws[i].handlers[p];
    assert Enabled(ws[i], steps[i]) && ws[i + 1] == MoveHandler(ws[i], p, steps[i].answer);
    if AskAt(h.req, Wish(h.req), h.pc).Some? {
      EveryStory(ws[..i + 1], steps[..i], p);
      assert PcInv(h.req, h.pc) && !Malformed(h.req);
      WishIsWanted(h.req);
      if h.pc != Acquire {
        OwnStepEffect(ws[i].cloud, h.req, Wish(h.req), h.pc, steps[i].answer);
      }
    }
  }
}
