/**
  ControllerExpandVolume takes no lock.  Its promises hold over the runs in which the
  expands of a volume that are under way want the same size, and two that want
  different sizes can shrink the volume.
 */
module ExpandTheorems {
  import opened Wrappers
  import opened Sizes
  import opened CloudModel
  import opened Controller
  import opened ControllerSafety
  import opened CreateTheorems

  // The handler is an expand of the volume that has read its size, found it too small
  // and not returned.
  predicate Expanding(h: Handler, v: string) {
    h.req.ExpandVolume? && h.req.volume == v && (h.pc == Resize || h.pc == WaitResized || h.pc == GetNewSize)
  }

  // The expands of the volume that are under way want the same size.
  ghost predicate Compatible(w: World, v: string) {
    forall p, q :: p in w.handlers && q in w.handlers && Expanding(w.handlers[p], v) && Expanding(w.handlers[q], v)
      ==> WantedGiB(w.handlers[p].req) == WantedGiB(w.handlers[q].req)
  }

  // What an expand with no rival of another mind knows of the disk's size, and what it
  // has answered.
  ghost predicate Knows(c: Cloud, h: Handler) {
    h.req.ExpandVolume? ==>
      match h.pc
      case Resize => h.req.volume in c.disks ==> c.disks[h.req.volume].sizeGiB <= WantedGiB(h.req)
      case WaitResized => h.req.volume in c.disks ==> c.disks[h.req.volume].sizeGiB == WantedGiB(h.req)
      case GetNewSize => h.req.volume in c.disks ==> c.disks[h.req.volume].sizeGiB == WantedGiB(h.req)
      case Done(response) => response.Expanded? ==> response == ExpandedFrom(h.req, WantedGiB(h.req))
      case _ => true
  }

  ghost predicate AllKnow(w: World, v: string) {
    forall p | p in w.handlers && w.handlers[p].req.ExpandVolume? && w.handlers[p].req.volume == v ::
      Knows(w.cloud, w.handlers[p])
  }

  // ---------- single steps ----------

  // What GetSize decides, with the int64 subtraction of the source seen through: a
  // smaller wish fails, an equal one is answered at once, both without touching the
  // disk, and only a larger one goes on to resize.
  lemma GetSizeVerdict(w: World, p: nat)
    requires Inv(w) && Enabled(w, Move(p, Served)) && w.handlers[p].pc == GetSize
    requires w.handlers[p].req.Key() in w.cloud.disks
    ensures var w' := MoveHandler(w, p, Served);
      var disk := w.cloud.disks[w.handlers[p].req.Key()];
      var wanted := WantedGiB(w.handlers[p].req);
      && w'.cloud == w.cloud
      && (w'.handlers[p].pc == Done(Error(Internal)) <==> wanted < disk.sizeGiB)
      && (w'.handlers[p].pc == Done(ExpandedFrom(w.handlers[p].req, disk.sizeGiB)) <==> wanted == disk.sizeGiB)
      && (w'.handlers[p].pc == Resize <==> disk.sizeGiB < wanted)
  {
    assert HandlerInv(w.cloud, w.handlers[p]);
    WantedSize(w.handlers[p].req);
    WrapIsIdentity(WantedGiB(w.handlers[p].req) - w.cloud.disks[w.handlers[p].req.Key()].sizeGiB);
  }

  // The effect of any step on the size of a disk that was there before: only a
  // served resize changes it, and to the size that request wants.
  lemma OnlyResizeChangesSize(w: World, step: Step, v: string)
    requires Inv(w) && Enabled(w, step) && v in w.cloud.disks && v in Apply(w, step).cloud.disks
    ensures var w' := Apply(w, step);
      || w'.cloud.disks[v].sizeGiB == w.cloud.disks[v].sizeGiB
      || (step.Move? && w.handlers[step.p].pc == Resize && Expanding(w.handlers[step.p], v)
          && w'.cloud.disks[v].sizeGiB == WantedGiB(w.handlers[step.p].req))
  {
    if step.Move? {
      assert HandlerInv(w.cloud, w.handlers[step.p]);
      assert CloudInv(w.cloud);
    }
  }

  // The handler's own move keeps what it knows, and it answers with what it wanted.
  lemma OwnMoveKnows(w: World, p: nat, answer: Answer)
    requires Inv(w) && Enabled(w, Move(p, answer)) && w.handlers[p].req.ExpandVolume? && Knows(w.cloud, w.handlers[p])
    ensures Knows(MoveHandler(w, p, answer).cloud, MoveHandler(w, p, answer).handlers[p])
  {
    var h := w.handlers[p];
    assert HandlerInv(w.cloud, h);
    WantedSize(h.req);
    if h.pc == GetSize && answer == Served && h.req.volume in w.cloud.disks {
      GetSizeVerdict(w, p);
    }
  }

  // The disk that an expand is under way for keeps its size, or gets the one wanted.
  predicate KeepsOrGets(c: Cloud, c': Cloud, v: string, wanted: int64) {
    v in c'.disks ==> v in c.disks && (c'.disks[v].sizeGiB == c.disks[v].sizeGiB || c'.disks[v].sizeGiB == wanted)
  }

  lemma OthersLeaveKnown(c: Cloud, c': Cloud, h: Handler)
    requires Knows(c, h) && h.req.ExpandVolume?
    requires Expanding(h, h.req.volume) ==> KeepsOrGets(c, c', h.req.volume, WantedGiB(h.req))
    ensures Knows(c', h)
  {
  }

  // While compatible, a step gives the disk only a size that every expand under way
  // wants, and never a smaller one.
  lemma CompatibleResize(w: World, step: Step, v: string)
    requires Inv(w) && Enabled(w, step) && Compatible(w, v) && AllKnow(w, v)
    ensures v in w.cloud.disks && v in Apply(w, step).cloud.disks
      ==> w.cloud.disks[v].sizeGiB <= Apply(w, step).cloud.disks[v].sizeGiB
    ensures forall q :: q in w.handlers && Expanding(w.handlers[q], v) ==>
      KeepsOrGets(w.cloud, Apply(w, step).cloud, v, WantedGiB(w.handlers[q].req))
  {
    StepEvolves(w, step);
    forall q | q in w.handlers && Expanding(w.handlers[q], v)
      ensures v in w.cloud.seen
    {
      assert HandlerInv(w.cloud, w.handlers[q]);
    }
    if v in w.cloud.disks && v in Apply(w, step).cloud.disks {
      OnlyResizeChangesSize(w, step, v);
    }
  }

  lemma StillKnows(w: World, step: Step, v: string, q: nat)
    requires Inv(w) && Enabled(w, step) && Compatible(w, v) && AllKnow(w, v)
    requires q in Apply(w, step).handlers && Apply(w, step).handlers[q].req.ExpandVolume?
    requires Apply(w, step).handlers[q].req.volume == v
    ensures Knows(Apply(w, step).cloud, Apply(w, step).handlers[q])
  {
    if step == Arrive(q, Apply(w, step).handlers[q].req) {
    } else if step.Move? && step.p == q {
      OwnMoveKnows(w, q, step.answer);
    } else {
      CompatibleResize(w, step, v);
      OthersLeaveKnown(w.cloud, Apply(w, step).cloud, w.handlers[q]);
    }
  }

  // ---------- histories ----------

  lemma CompatibleFollows(ws: seq<World>, v: string, i: nat)
    requires IsRun(ws) && Init(ws[0]) && i + 1 < |ws| && Compatible(ws[i], v) && AllKnow(ws[i], v)
    ensures AllKnow(ws[i + 1], v)
    ensures v in ws[i].cloud.disks && v in ws[i + 1].cloud.disks
      ==> ws[i].cloud.disks[v].sizeGiB <= ws[i + 1].cloud.disks[v].sizeGiB
  {
    RunIsSafe(ws, i);
    assert Linked(ws, i);
    var w, w' := ws[i], ws[i + 1];
    var step :| Enabled(w, step) && w' == Apply(w, step);
    CompatibleResize(w, step, v);
    forall q | q in w'.handlers && w'.handlers[q].req.ExpandVolume? && w'.handlers[q].req.volume == v
      ensures Knows(w'.cloud, w'.handlers[q])
    {
      StillKnows(w, step, v, q);
    }
  }

  // Over any history in which the expands under way for a volume always want the same
  // size, every expand that succeeded answered with the size it wanted, ...
  lemma {:induction false} ExpandAnswers(ws: seq<World>, v: string, j: nat)
    requires IsRun(ws) && Init(ws[0]) && j < |ws|
    requires forall k {:trigger Compatible(ws[k], v)} :: 0 <= k < j ==> Compatible(ws[k], v)
    ensures AllKnow(ws[j], v)
  {
    if j > 0 {
      ExpandAnswers(ws, v, j - 1);
      assert AllKnow(ws[j - 1], v);
      assert Compatible(ws[j - 1], v);
      CompatibleFollows(ws, v, j - 1);
      assert AllKnow(ws[j], v);
    }
  }

  lemma HistoryStep(ws: seq<World>, v: string, i: nat, j: nat)
    requires IsRun(ws) && Init(ws[0]) && i <= j && j + 1 < |ws|
    requires forall k {:trigger Compatible(ws[k], v)} :: 0 <= k < |ws| ==> Compatible(ws[k], v)
    ensures v in ws[i].cloud.disks && v in ws[j + 1].cloud.disks
      ==> v in ws[j].cloud.disks && ws[j].cloud.disks[v].sizeGiB <= ws[j + 1].cloud.disks[v].sizeGiB
  {
    RunKeepsInv(ws, i);
    RunEvolves(ws, i, j);
    RunEvolves(ws, j, j + 1);
    ExpandAnswers(ws, v, j);
    CompatibleFollows(ws, v, j);
  }

  // ... and the volume's size never decreases.
  lemma {:induction false} ExpandHistory(ws: seq<World>, v: string, i: nat, j: nat)
    requires IsRun(ws) && Init(ws[0]) && i <= j < |ws|
    requires forall k {:trigger Compatible(ws[k], v)} :: 0 <= k < |ws| ==> Compatible(ws[k], v)
    requires v in ws[i].cloud.disks && v in ws[j].cloud.disks
    ensures ws[i].cloud.disks[v].sizeGiB <= ws[j].cloud.disks[v].sizeGiB
    decreases j
  {
    if i < j {
      HistoryStep(ws, v, i, j - 1);
      ExpandHistory(ws, v, i, j - 1);
    }
  }

  // The answer of an expand that succeeded in such a history covers the request, and
  // is the least number of 100 GiB units that does.
  lemma ExpandSuccessCovers(ws: seq<World>, p: nat, bytes: int64, more: bool)
    requires IsRun(ws) && Init(ws[0])
    requires var w := ws[|ws| - 1];
      && p in w.handlers && w.handlers[p].pc == Done(Expanded(bytes, more))
      && w.handlers[p].req.ExpandVolume? && w.handlers[p].req.range.Some?
      && 0 <= w.handlers[p].req.range.value.required <= MAX_REQUEST
    requires forall k :: 0 <= k < |ws| ==> Compatible(ws[k], ws[|ws| - 1].handlers[p].req.volume)
    ensures var required := ws[|ws| - 1].handlers[p].req.range.value.required;
      required <= bytes && exists gib :: IsLeastCover(gib, required) && bytes == gib * 0x4000_0000
  {
    var h := ws[|ws| - 1].handlers[p];
    ExpandAnswers(ws, h.req.volume, |ws| - 1);
    assert Knows(ws[|ws| - 1].cloud, h);
    CapacityIsLeastCover(h.req.range.value.required);
    assert IsLeastCover(WantedGiB(h.req), h.req.range.value.required);
  }

  // ---------- repeating an expand ----------

  // The move with which an expand succeeds leaves the disk with the size it wanted.
  lemma SuccessStep(w: World, p: nat, answer: Answer)
    requires Inv(w) && Enabled(w, Move(p, answer)) && w.handlers[p].req.ExpandVolume? && Knows(w.cloud, w.handlers[p])
    requires MoveHandler(w, p, answer).handlers[p].pc.Done?
    requires MoveHandler(w, p, answer).handlers[p].pc.response.Expanded?
    ensures var c := MoveHandler(w, p, answer).cloud; var req := w.handlers[p].req;
      && req.volume in c.disks && c.disks[req.volume].sizeGiB == WantedGiB(req)
      && MoveHandler(w, p, answer).handlers[p].pc == Done(ExpandedFrom(req, WantedGiB(req)))
  {
    var h := w.handlers[p];
    assert HandlerInv(w.cloud, h);
    if h.pc == GetSize && h.req.volume in w.cloud.disks {
      GetSizeVerdict(w, p);
    }
  }

  // An expand of request `req` succeeds at the i-th step of the run with this answer,
  // without a rival of another mind until then, and with no delete or resize of the
  // disk about to be requested from then on.
  ghost predicate Expands(ws: seq<World>, i: nat, p: nat, req: Request, answer: Response) {
    && i + 1 < |ws| && req.ExpandVolume? && answer.Expanded?
    && p in ws[i].handlers && ws[i].handlers[p].req == req && !ws[i].handlers[p].pc.Done?
    && p in ws[i + 1].handlers && ws[i + 1].handlers[p] == Handler(req, Done(answer))
    && (forall k {:trigger Compatible(ws[k], req.volume)} :: 0 <= k <= i ==> Compatible(ws[k], req.volume))
    && (forall k {:trigger Untouched(ws[k], req.volume)} :: i < k < |ws| ==> Untouched(ws[k], req.volume))
  }

  lemma StillExpanded(ws: seq<World>, i: nat, p: nat, req: Request, answer: Response)
    requires IsRun(ws) && Init(ws[0]) && Expands(ws, i, p, req, answer)
    ensures answer == ExpandedFrom(req, WantedGiB(req))
    ensures req.volume in ws[|ws| - 1].cloud.disks && ws[|ws| - 1].cloud.disks[req.volume].sizeGiB == WantedGiB(req)
  {
    ExpandAnswers(ws, req.volume, i);
    assert Knows(ws[i].cloud, ws[i].handlers[p]);
    RunIsSafe(ws, i);
    var served := OwnMoveBetween(ws, i, p);
    SuccessStep(ws[i], p, served);
    assert LivesOn(ws[i + 1].cloud, ws[|ws| - 1].cloud, req.volume) by {
      UntouchedRun(ws, req.volume, i + 1, |ws| - 1);
    }
  }

  // The next expand of a volume that has the size `req` wanted: it leaves the cloud as
  // it is; one for as many units is answered so, `req` itself with its first answer,
  // one for fewer fails, and only one for more goes on.
  predicate NextVerdict(w: World, w': World, q: nat, req: Request, answer: Response)
    requires q in w.handlers && q in w'.handlers
  {
    var next, pc := w.handlers[q].req, w'.handlers[q].pc;
    && w'.cloud == w.cloud
    && (next == req ==> pc == Done(answer))
    && (WantedGiB(next) == WantedGiB(req) ==> pc == Done(ExpandedFrom(next, WantedGiB(req))))
    && (WantedGiB(next) < WantedGiB(req) ==> pc == Done(Error(Internal)))
    && (WantedGiB(next) > WantedGiB(req) ==> pc == Resize)
  }

  lemma NextExpand(w: World, q: nat, req: Request)
    requires Inv(w) && Enabled(w, Move(q, Served)) && w.handlers[q].pc == GetSize
    requires w.handlers[q].req.Key() == req.Key()
    requires req.Key() in w.cloud.disks && w.cloud.disks[req.Key()].sizeGiB == WantedGiB(req)
    ensures NextVerdict(w, MoveHandler(w, q, Served), q, req, ExpandedFrom(req, WantedGiB(req)))
  {
    GetSizeVerdict(w, q);
  }

  // Repeating an expand is a no-op with the same answer: after one that succeeded
  // without a rival of another mind, as long as the disk is left alone.
  lemma RepeatedExpandIsNoOp(ws: seq<World>, i: nat, p: nat, req: Request, answer: Response, w: World, q: nat)
    requires IsRun(ws) && Init(ws[0]) && Expands(ws, i, p, req, answer) && w == ws[|ws| - 1]
    requires Enabled(w, Move(q, Served)) && w.handlers[q].pc == GetSize && w.handlers[q].req.Key() == req.volume
    ensures NextVerdict(w, MoveHandler(w, q, Served), q, req, answer)
  {
    StillExpanded(ws, i, p, req, answer);
    RunIsSafe(ws, |ws| - 1);
    NextExpand(w, q, req);
  }

  // Every disk's size stays a multiple of 100 GiB in every reachable state.
  lemma SizesInUnits(w: World, id: string)
    requires Reachable(w) && id in w.cloud.disks
    ensures w.cloud.disks[id].sizeGiB % 100 == 0
  {
    ReachableInv(w);
  }

  // ---------- expands of different minds ----------

  // All expands of the volume in the run are one of two requests, each any number of times.
  ghost predicate OnlyAsks(w: World, v: string, r0: Request, r1: Request) {
    forall p :: p in w.handlers && w.handlers[p].req.ExpandVolume? && w.handlers[p].req.volume == v
      ==> w.handlers[p].req == r0 || w.handlers[p].req == r1
  }

  ghost predicate ShrinksAt(ws: seq<World>, v: string, i: nat) {
    && i + 1 < |ws| && v in ws[i].cloud.disks && v in ws[i + 1].cloud.disks
    && ws[i + 1].cloud.disks[v].sizeGiB < ws[i].cloud.disks[v].sizeGiB
  }

  ghost predicate ShrinkingRun(ws: seq<World>, v: string, gib: int64, r0: Request, r1: Request) {
    && IsRun(ws) && Init(ws[0]) && v in ws[0].cloud.disks && ws[0].cloud.disks[v].sizeGiB == gib
    && (forall k :: 0 <= k < |ws| ==> OnlyAsks(ws[k], v, r0, r1))
    && exists i: nat :: ShrinksAt(ws, v, i)
  }

  // The volume is no smaller than at first, and expands under way want more than that.
  ghost predicate Floor(w: World, v: string, gib: int64) {
    && v in w.cloud.seen && (v in w.cloud.disks ==> gib <= w.cloud.disks[v].sizeGiB)
    && forall p :: p in w.handlers && Expanding(w.handlers[p], v) ==> gib < WantedGiB(w.handlers[p].req)
  }

  // Two requests that the volume's first size keeps from different minds.
  predicate OfOneMind(gib: int64, r0: Request, r1: Request) {
    WantedGiB(r0) == WantedGiB(r1) || WantedGiB(r0) <= gib || WantedGiB(r1) <= gib
  }

  lemma FloorMakesCompatible(w: World, v: string, gib: int64, r0: Request, r1: Request)
    requires OfOneMind(gib, r0, r1) && Floor(w, v, gib) && OnlyAsks(w, v, r0, r1)
    ensures Compatible(w, v)
  {
  }

  // Only an expand that wants more than the volume has gets under way.
  lemma SetsOut(w: World, step: Step, v: string, p: nat)
    requires Inv(w) && Enabled(w, step) && p in Apply(w, step).handlers && Expanding(Apply(w, step).handlers[p], v)
    ensures p in w.handlers && w.handlers[p].req == Apply(w, step).handlers[p].req
    ensures Expanding(w.handlers[p], v)
      || (v in w.cloud.disks && w.cloud.disks[v].sizeGiB < WantedGiB(w.handlers[p].req))
  {
    assert p in w.handlers;
    var h := w.handlers[p];
    assert HandlerInv(w.cloud, h);
    if step.Move? && step.p == p && h.pc == GetSize && v in w.cloud.disks && step.answer == Served {
      GetSizeVerdict(w, p);
    }
  }

  lemma FloorFollows(ws: seq<World>, v: string, gib: int64, i: nat)
    requires IsRun(ws) && Init(ws[0]) && i + 1 < |ws|
    requires Floor(ws[i], v, gib) && Compatible(ws[i], v) && AllKnow(ws[i], v)
    ensures Floor(ws[i + 1], v, gib) && AllKnow(ws[i + 1], v) && !ShrinksAt(ws, v, i)
  {
    CompatibleFollows(ws, v, i);
    RunIsSafe(ws, i);
    FollowsEvolves(ws, i);
    assert Linked(ws, i);
    var w, w' := ws[i], ws[i + 1];
    var step :| Enabled(w, step) && w' == Apply(w, step);
    forall p | p in w'.handlers && Expanding(w'.handlers[p], v)
      ensures gib < WantedGiB(w'.handlers[p].req)
    {
      SetsOut(w, step, v, p);
    }
  }

  lemma {:induction false} FloorHolds(ws: seq<World>, v: string, gib: int64, r0: Request, r1: Request, j: nat)
    requires IsRun(ws) && Init(ws[0]) && v in ws[0].cloud.disks && ws[0].cloud.disks[v].sizeGiB == gib && j < |ws|
    requires forall k :: 0 <= k < |ws| ==> OnlyAsks(ws[k], v, r0, r1)
    requires OfOneMind(gib, r0, r1)
    ensures Floor(ws[j], v, gib) && AllKnow(ws[j], v)
    ensures forall i: nat :: i < j ==> !ShrinksAt(ws, v, i)
  {
    if j > 0 {
      FloorHolds(ws, v, gib, r0, r1, j - 1);
      FloorMakesCompatible(ws[j - 1], v, gib, r0, r1);
      FloorFollows(ws, v, gib, j - 1);
    }
  }

  // A cloud with this disk alone, and two handlers.
  function OneDisk(v: string, gib: int64, status: DiskStatus): Cloud {
    Cloud(map[v := Disk(map[], "", "zone", gib, status, [])], {v})
  }

  function Two(c: Cloud, r0: Request, pc0: PC, r1: Request, pc1: PC): World {
    World(c, {}, map[0 := Handler(r0, pc0), 1 := Handler(r1, pc1)])
  }

  predicate IsExpandOf(req: Request, v: string) {
    req.ExpandVolume? && req.volume == v && Validated(req) == GetSize
  }

  // Both expands read the first size; the larger is served first.
  function OverlapRun(v: string, gib: int64, larger: Request, smaller: Request): seq<World> {
    var c := OneDisk(v, gib, Ready);
    [ World(c, {}, map[]),
      World(c, {}, map[0 := Handler(larger, Validate)]),
      Two(c, larger, Validate, smaller, Validate),
      Two(c, larger, GetSize, smaller, Validate),
      Two(c, larger, GetSize, smaller, GetSize),
      Two(c, larger, Resize, smaller, GetSize),
      Two(c, larger, Resize, smaller, Resize),
      Two(OneDisk(v, WantedGiB(larger), Updating), larger, WaitResized, smaller, Resize),
      Two(OneDisk(v, WantedGiB(smaller), Updating), larger, WaitResized, smaller, WaitResized) ]
  }

  lemma MoveFollows(w: World, p: nat, w': World)
    requires p in w.handlers && !w.handlers[p].pc.Acquire? && !w.handlers[p].pc.Release?
    requires var h := w.handlers[p];
      && Fits(w.cloud, h.req, h.pc, Served)
      && w' == World(OwnStep(w.cloud, h.req, h.pc, Served).0, w.locks,
                     w.handlers[p := h.(pc := OwnStep(w.cloud, h.req, h.pc, Served).1)])
    ensures Follows(w, w')
  {
    assert w' == Apply(w, Move(p, Served));
  }

  lemma FirstMoves(c: Cloud, r0: Request, pc0: PC, r1: Request, pc1: PC, c': Cloud, next: PC)
    requires Fits(c, r0, pc0, Served) && !pc0.Acquire? && !pc0.Release? && OwnStep(c, r0, pc0, Served) == (c', next)
    ensures Follows(Two(c, r0, pc0, r1, pc1), Two(c', r0, next, r1, pc1))
  {
    var w, w' := Two(c, r0, pc0, r1, pc1), Two(c', r0, next, r1, pc1);
    assert w'.handlers == w.handlers[0 := Handler(r0, next)];
    MoveFollows(w, 0, w');
  }

  lemma SecondMoves(c: Cloud, r0: Request, pc0: PC, r1: Request, pc1: PC, c': Cloud, next: PC)
    requires Fits(c, r1, pc1, Served) && !pc1.Acquire? && !pc1.Release? && OwnStep(c, r1, pc1, Served) == (c', next)
    ensures Follows(Two(c, r0, pc0, r1, pc1), Two(c', r0, pc0, r1, next))
  {
    var w, w' := Two(c, r0, pc0, r1, pc1), Two(c', r0, pc0, r1, next);
    assert w'.handlers == w.handlers[1 := Handler(r1, next)];
    MoveFollows(w, 1, w');
  }

  lemma BothArrive(v: string, gib: int64, r0: Request, r1: Request)
    requires IsExpandOf(r0, v) && IsExpandOf(r1, v)
    ensures var ws := OverlapRun(v, gib, r0, r1); Follows(ws[0], ws[1]) && Follows(ws[1], ws[2])
  {
    var ws := OverlapRun(v, gib, r0, r1);
    assert ws[1].cloud.seen == ws[0].cloud.seen + {v} && ws[2].cloud.seen == ws[1].cloud.seen + {v};
    assert Apply(ws[0], Arrive(0, r0)) == ws[1];
    assert Apply(ws[1], Arrive(1, r1)).handlers == ws[2].handlers;
    assert Apply(ws[1], Arrive(1, r1)) == ws[2];
  }

  // What one served step of an expand does to the one disk.
  lemma OneDiskStep(v: string, gib: int64, status: DiskStatus, req: Request, pc: PC)
    requires IsExpandOf(req, v) && SizeInv(gib) && (pc == GetSize ==> gib < WantedGiB(req))
    requires pc == Validate || pc == GetSize || pc == Resize
    ensures OwnStep(OneDisk(v, gib, status), req, pc, Served) ==
      match pc
      case Validate => (OneDisk(v, gib, status), GetSize)
      case GetSize => (OneDisk(v, gib, status), Resize)
      case _ => (OneDisk(v, WantedGiB(req), Updating), WaitResized)
  {
    WantedSize(req);
    WrapIsIdentity(WantedGiB(req) - gib);
    var c := OneDisk(v, gib, status);
    var grown := c.disks[v].(sizeGiB := WantedGiB(req), status := Updating);
    assert c.disks[v := grown] == OneDisk(v, WantedGiB(req), Updating).disks;
  }

  predicate BothTooLarge(v: string, gib: int64, r0: Request, r1: Request) {
    IsExpandOf(r0, v) && IsExpandOf(r1, v) && SizeInv(gib) && gib < WantedGiB(r1) && gib < WantedGiB(r0)
  }

  lemma SizeIsRead(v: string, gib: int64, r0: Request, r1: Request, i: nat)
    requires BothTooLarge(v, gib, r0, r1) && 2 <= i < 6
    ensures Follows(OverlapRun(v, gib, r0, r1)[i], OverlapRun(v, gib, r0, r1)[i + 1])
  {
    var c := OneDisk(v, gib, Ready);
    if i == 2 {
      OneDiskStep(v, gib, Ready, r0, Validate);
      FirstMoves(c, r0, Validate, r1, Validate, c, GetSize);
    } else if i == 3 {
      OneDiskStep(v, gib, Ready, r1, Validate);
      SecondMoves(c, r0, GetSize, r1, Validate, c, GetSize);
    } else if i == 4 {
      OneDiskStep(v, gib, Ready, r0, GetSize);
      FirstMoves(c, r0, GetSize, r1, GetSize, c, Resize);
    } else {
      OneDiskStep(v, gib, Ready, r1, GetSize);
      SecondMoves(c, r0, Resize, r1, GetSize, c, Resize);
    }
  }

  lemma SizeIsSet(v: string, gib: int64, r0: Request, r1: Request, i: nat)
    requires BothTooLarge(v, gib, r0, r1) && 6 <= i < 8
    ensures Follows(OverlapRun(v, gib, r0, r1)[i], OverlapRun(v, gib, r0, r1)[i + 1])
  {
    var c, c' := OneDisk(v, gib, Ready), OneDisk(v, WantedGiB(r0), Updating);
    if i == 6 {
      OneDiskStep(v, gib, Ready, r0, Resize);
      FirstMoves(c, r0, Resize, r1, Resize, c', WaitResized);
    } else {
      WantedSize(r0);
      OneDiskStep(v, WantedGiB(r0), Updating, r1, Resize);
      SecondMoves(c', r0, WaitResized, r1, Resize, OneDisk(v, WantedGiB(r1), Updating), WaitResized);
    }
  }

  lemma OverlapLinked(v: string, gib: int64, r0: Request, r1: Request, i: nat)
    requires BothTooLarge(v, gib, r0, r1) && i < 8
    ensures Linked(OverlapRun(v, gib, r0, r1), i)
  {
    if i < 2 {
      BothArrive(v, gib, r0, r1);
    } else if i < 6 {
      SizeIsRead(v, gib, r0, r1, i);
    } else {
      SizeIsSet(v, gib, r0, r1, i);
    }
  }

  lemma OnlyTwoAsk(v: string, gib: int64, r0: Request, r1: Request, k: nat)
    requires k < 9
    ensures OnlyAsks(OverlapRun(v, gib, r0, r1)[k], v, r0, r1)
  {
  }

  // Any two expands that want different sizes, both larger than the volume, can shrink
  // it when they overlap.
  lemma OverlappingExpandsShrink(v: string, gib: int64, larger: Request, smaller: Request)
    requires BothTooLarge(v, gib, larger, smaller) && WantedGiB(smaller) < WantedGiB(larger)
    ensures ShrinkingRun(OverlapRun(v, gib, larger, smaller), v, gib, larger, smaller)
  {
    var ws := OverlapRun(v, gib, larger, smaller);
    forall i: nat | i + 1 < |ws|
      ensures Linked(ws, i)
    {
      OverlapLinked(v, gib, larger, smaller, i);
    }
    forall k | 0 <= k < |ws|
      ensures OnlyAsks(ws[k], v, larger, smaller)
    {
      OnlyTwoAsk(v, gib, larger, smaller, k);
    }
    assert ShrinksAt(ws, v, 7);
  }

  // When expands can shrink a volume: two requests for it, each made any number of
  // times and whatever else goes on, can exactly when they want different sizes and
  // both want more than it has.
  lemma ShrinkPossibleIff(v: string, gib: int64, r0: Request, r1: Request)
    requires IsExpandOf(r0, v) && IsExpandOf(r1, v) && SizeInv(gib)
    ensures (exists ws :: ShrinkingRun(ws, v, gib, r0, r1))
      <==> WantedGiB(r0) != WantedGiB(r1) && gib < WantedGiB(r0) && gib < WantedGiB(r1)
  {
    if OfOneMind(gib, r0, r1) {
      forall ws | IsRun(ws) && ShrinkingRun(ws, v, gib, r0, r1)
        ensures false
      {
        FloorHolds(ws, v, gib, r0, r1, |ws| - 1);
      }
    } else {
      var (larger, smaller) := if WantedGiB(r0) < WantedGiB(r1) then (r1, r0) else (r0, r1);
      OverlappingExpandsShrink(v, gib, larger, smaller);
      assert ShrinkingRun(OverlapRun(v, gib, larger, smaller), v, gib, r0, r1);
    }
  }
}
