/**
  What a create promises about later creates of its name: it can be repeated, and the
  disk it answers with is past its creation unless an earlier create of the name failed
  or died while that was being made.
 */
module CreateTheorems {
  import opened Wrappers
  import opened Sizes
  import opened CloudModel
  import opened Controller
  import opened ControllerSafety
  import opened ControllerTheorems
  import Parameters
  import Topology

  // ---------- a disk that is left alone ----------

  // No delete of the disk and no resize is about to be requested in this state.
  ghost predicate Untouched(w: World, id: string) {
    forall p :: p in w.handlers && !w.handlers[p].req.CreateVolume? && w.handlers[p].req.volume == id
      ==> w.handlers[p].pc != Delete && w.handlers[p].pc != Resize
  }

  // The disk lives on with its size, tags and zone.
  predicate LivesOn(c: Cloud, c': Cloud, id: string)
    requires id in c.disks
  {
    && id in c'.disks
    && c'.disks[id].sizeGiB == c.disks[id].sizeGiB
    && c'.disks[id].tags == c.disks[id].tags
    && c'.disks[id].zone == c.disks[id].zone
  }

  lemma OwnStepUntouched(c: Cloud, req: Request, pc: PC, answer: Answer, id: string)
    requires CloudInv(c) && Fits(c, req, pc, answer) && PcInv(req, pc) && id in c.disks
    requires !pc.Acquire? && !pc.Release?
    requires req.CreateVolume? || req.volume != id || (pc != Delete && pc != Resize)
    ensures LivesOn(c, OwnStep(c, req, pc, answer).0, id)
  {
    if pc != Validate && pc != CheckNode && pc != CheckDisk && !req.CreateVolume? && !req.ExpandVolume? {
      SectionStepUntouched(c, req, pc, answer, id);
    }
  }

  lemma SectionStepUntouched(c: Cloud, req: Request, pc: PC, answer: Answer, id: string)
    requires !req.CreateVolume? && Fits(c, req, pc, answer) && id in c.disks && (req.volume != id || pc != Delete)
    ensures LivesOn(c, SectionStep(c, req, pc, answer).0, id)
  {
  }

  lemma StepUntouched(w: World, step: Step, id: string)
    requires CloudInv(w.cloud) && Enabled(w, step) && Untouched(w, id) && id in w.cloud.disks
    requires step.Move? ==> PcInv(w.handlers[step.p].req, w.handlers[step.p].pc)
    ensures LivesOn(w.cloud, Apply(w, step).cloud, id)
  {
    if step.Move? {
      var h := w.handlers[step.p];
      if !h.pc.Acquire? && !h.pc.Release? {
        OwnStepUntouched(w.cloud, h.req, h.pc, step.answer, id);
      }
    }
  }

  lemma UntouchedStep(ws: seq<World>, i: nat, id: string)
    requires IsRun(ws) && i + 1 < |ws| && Inv(ws[0]) && Untouched(ws[i], id) && id in ws[i].cloud.disks
    ensures LivesOn(ws[i].cloud, ws[i + 1].cloud, id)
  {
    RunKeepsInv(ws, i);
    assert Linked(ws, i);
    var w := ws[i];
    var step :| Enabled(w, step) && ws[i + 1] == Apply(w, step);
    if step.Move? {
      assert HandlerInv(w.cloud, w.handlers[step.p]);
    }
    StepUntouched(w, step, id);
  }

  lemma {:induction false} UntouchedRun(ws: seq<World>, id: string, i: nat, j: nat)
    requires IsRun(ws) && Inv(ws[0]) && i <= j < |ws| && id in ws[i].cloud.disks
    requires forall k {:trigger Untouched(ws[k], id)} :: i <= k < |ws| ==> Untouched(ws[k], id)
    ensures LivesOn(ws[i].cloud, ws[j].cloud, id)
    decreases j
  {
    if i < j {
      UntouchedRun(ws, id, i, j - 1);
      UntouchedStep(ws, j - 1, id);
    }
  }

  // ---------- creates can be repeated ----------

  // A lookup that succeeds while a disk has the name: that disk, or AlreadyExists.
  lemma LookupVerdict(w: World, q: nat, answer: Answer, id: string)
    requires Inv(w) && Enabled(w, Move(q, answer)) && answer != Refused && w.handlers[q].pc == Lookup
    requires id in w.cloud.disks && Named(w.cloud.disks[id], w.handlers[q].req.Key())
    ensures var w' := MoveHandler(w, q, answer);
      && w'.cloud == w.cloud
      && w'.handlers[q].pc ==
        if WantedGiB(w.handlers[q].req) == w.cloud.disks[id].sizeGiB then Release(CreatedFrom(id, w.cloud.disks[id]))
        else Release(Error(AlreadyExists))
  {
    assert HandlerInv(w.cloud, w.handlers[q]);
    assert HasName(w.cloud, w.handlers[q].req.Key());
    assert answer.First? && answer.id == id;
  }

  // The step in which a create comes to its disk: it finds it, or makes it.
  predicate ComesTo(h: Handler, h': Handler, id: string) {
    && h.req.CreateVolume? && h'.req == h.req
    && ((h.pc == Lookup && h'.pc.Release? && h'.pc.response.Created? && h'.pc.response.id == id)
        || (h.pc == Create && h'.pc == WaitReady(id)))
  }

  // A create that comes to the disk at the i-th step of the run, and answers with it
  // by the j-th, while from the i-th step on no delete or resize of it is requested.
  ghost predicate FirstCall(ws: seq<World>, i: nat, j: nat, p: nat, req: Request, answer: Response) {
    && i < j < |ws| && answer.Created?
    && p in ws[i].handlers && ws[i].handlers[p].req == req
    && p in ws[i + 1].handlers && ComesTo(ws[i].handlers[p], ws[i + 1].handlers[p], answer.id)
    && p in ws[j].handlers && ws[j].handlers[p].req == req
    && AnswersCreated(ws[j].handlers[p], answer.id, answer.capacityBytes, answer.zone)
    && forall k {:trigger Untouched(ws[k], answer.id)} :: i < k < |ws| ==> Untouched(ws[k], answer.id)
  }

  // The disk it comes to has the size it wants and the name.
  lemma ComesToItsDisk(ws: seq<World>, i: nat, p: nat, id: string)
    requires IsRun(ws) && i + 1 < |ws| && Inv(ws[0])
    requires p in ws[i].handlers && p in ws[i + 1].handlers && ComesTo(ws[i].handlers[p], ws[i + 1].handlers[p], id)
    ensures var c := ws[i + 1].cloud; var req := ws[i].handlers[p].req;
      id in c.disks && c.disks[id].sizeGiB == WantedGiB(req) && Named(c.disks[id], req.name)
  {
    RunKeepsInv(ws, i);
    var w := ws[i];
    var h := w.handlers[p];
    var answer := OwnMoveBetween(ws, i, p);
    assert HandlerInv(w.cloud, h);
    ComingStep(w.cloud, h.req, h.pc, answer, id);
  }

  lemma OwnMoveBetween(ws: seq<World>, i: nat, p: nat) returns (answer: Answer)
    requires IsRun(ws) && i + 1 < |ws|
    requires p in ws[i].handlers && p in ws[i + 1].handlers && ws[i + 1].handlers[p] != ws[i].handlers[p]
    ensures Enabled(ws[i], Move(p, answer)) && ws[i + 1] == MoveHandler(ws[i], p, answer)
  {
    assert Linked(ws, i);
    var step :| Enabled(ws[i], step) && ws[i + 1] == Apply(ws[i], step);
    answer := step.answer;
  }

  lemma ComingStep(c: Cloud, req: Request, pc: PC, answer: Answer, id: string)
    requires HandlerInv(c, Handler(req, pc)) && Fits(c, req, pc, answer) && (pc == Lookup || pc == Create)
    requires ComesTo(Handler(req, pc), Handler(req, OwnStep(c, req, pc, answer).1), id)
    ensures var c' := OwnStep(c, req, pc, answer).0;
      id in c'.disks && c'.disks[id].sizeGiB == WantedGiB(req) && Named(c'.disks[id], req.name)
  {
    if pc == Create {
      NewDiskName(req);
    }
  }

  // What the answer says of a disk that lives.
  lemma AnswerIsKnown(ws: seq<World>, j: nat, p: nat, id: string, bytes: int64, zone: string)
    requires IsRun(ws) && Init(ws[0]) && j < |ws|
    requires p in ws[j].handlers && AnswersCreated(ws[j].handlers[p], id, bytes, zone)
    ensures bytes == GiBToBytes(WantedGiB(ws[j].handlers[p].req))
    ensures id in ws[j].cloud.disks ==> ws[j].cloud.disks[id].zone == zone
  {
    assert Honest(ws[j].handlers[p]) by {
      RunHonest(ws, j);
    }
    assert HandlerInv(ws[j].cloud, ws[j].handlers[p]) by {
      RunIsSafe(ws, j);
    }
  }

  // What the first call leaves true of the last state of the run.
  lemma StillAnswered(ws: seq<World>, i: nat, j: nat, p: nat, req: Request, answer: Response)
    requires IsRun(ws) && Init(ws[0]) && FirstCall(ws, i, j, p, req, answer)
    ensures var c := ws[|ws| - 1].cloud;
      && answer.id in c.disks && Named(c.disks[answer.id], req.name) && c.disks[answer.id].sizeGiB == WantedGiB(req)
      && answer == CreatedFrom(answer.id, c.disks[answer.id])
  {
    ComesToItsDisk(ws, i, p, answer.id);
    UntouchedRun(ws, answer.id, i + 1, j);
    UntouchedRun(ws, answer.id, i + 1, |ws| - 1);
    AnswerIsKnown(ws, j, p, answer.id, answer.capacityBytes, answer.zone);
  }

  // CreateVolume is idempotent.  In any run in which a create finds or makes its disk
  // and answers with it, and from then on no delete or resize of the disk is about to
  // be requested, every other create of the name whose lookup succeeds leaves the cloud as
  // it is, and repeats the very answer when it asks for as many 100 GiB units, and
  // says AlreadyExists when it does not.
  lemma CreateIsIdempotent(ws: seq<World>, i: nat, j: nat, p: nat, req: Request, answer: Response,
                           w: World, q: nat, listed: Answer)
    requires IsRun(ws) && Init(ws[0]) && FirstCall(ws, i, j, p, req, answer) && w == ws[|ws| - 1]
    requires Enabled(w, Move(q, listed)) && listed != Refused
    requires w.handlers[q].pc == Lookup && w.handlers[q].req.Key() == req.name
    ensures var w' := MoveHandler(w, q, listed);
      && w'.cloud == w.cloud
      && w'.handlers[q].pc ==
        if WantedGiB(w.handlers[q].req) == WantedGiB(req) then Release(answer) else Release(Error(AlreadyExists))
  {
    StillAnswered(ws, i, j, p, req, answer);
    RunIsSafe(ws, |ws| - 1);
    LookupVerdict(w, q, listed, answer.id);
  }

  // ---------- disks past their creation ----------

  // The handler is a create of the name past its lookup, before its answer.
  predicate Making(h: Handler, name: string) {
    h.req.CreateVolume? && h.req.name == name && (h.pc == Create || h.pc.WaitReady?)
  }

  // Some create of the name, past its lookup, is gone in the next state or has failed,
  // and leaves a disk of the name in creation.
  ghost predicate GivesUp(ws: seq<World>, i: nat, name: string)
    requires i + 1 < |ws|
  {
    && (exists p :: p in ws[i].handlers && Making(ws[i].handlers[p], name) && GoneOrFailed(ws[i + 1], p))
    && LeavesOne(ws[i + 1].cloud, name)
  }

  ghost predicate LeavesOne(c: Cloud, name: string) {
    exists id :: InCreation(c, id) && Named(c.disks[id], name)
  }

  predicate GoneOrFailed(w: World, p: nat) {
    p in w.handlers ==> w.handlers[p].pc.Release? && w.handlers[p].pc.response.Error?
  }

  predicate Maker(w: World, p: nat, id: string, name: string) {
    p in w.handlers && Making(w.handlers[p], name) && w.handlers[p].pc == WaitReady(id)
  }

  predicate InCreation(c: Cloud, id: string) {
    id in c.disks && c.disks[id].status == Creating
  }

  // Every disk of the name that is still being made has its maker waiting for it.
  ghost predicate Attended(w: World, name: string) {
    forall id :: InCreation(w.cloud, id) && Named(w.cloud.disks[id], name) ==> exists p :: Maker(w, p, id, name)
  }

  predicate AnswersVolume(h: Handler, id: string) {
    h.req.CreateVolume? && (h.pc.Done? || h.pc.Release?) && h.pc.response.Created? && h.pc.response.id == id
  }

  ghost predicate AnswersMade(w: World, name: string) {
    forall p, id :: p in w.handlers && AnswersVolume(w.handlers[p], id) && w.handlers[p].req.name == name
      ==> !InCreation(w.cloud, id)
  }

  // A disk in creation was in creation before, or is made by this very step.
  lemma OwnStepCreation(c: Cloud, req: Request, pc: PC, answer: Answer, id: string)
    requires CloudInv(c) && Fits(c, req, pc, answer) && PcInv(req, pc) && !pc.Acquire? && !pc.Release?
    requires InCreation(OwnStep(c, req, pc, answer).0, id)
    ensures var c' := OwnStep(c, req, pc, answer).0;
      if id in c.seen then InCreation(c, id) && LivesOn(c, c', id)
      else pc == Create && (answer == Made(id) || answer == MadeButLost(id)) && c'.disks[id] == NewDisk(req)
  {
  }

  lemma OtherStepCreation(w: World, step: Step, id: string)
    requires CloudInv(w.cloud) && Enabled(w, step) && !step.Move? && InCreation(Apply(w, step).cloud, id)
    ensures InCreation(w.cloud, id) && LivesOn(w.cloud, Apply(w, step).cloud, id)
  {
  }

  lemma InCreationSince(w: World, step: Step, id: string)
    requires Inv(w) && Enabled(w, step) && InCreation(Apply(w, step).cloud, id)
    ensures var w' := Apply(w, step);
      if id in w.cloud.seen then InCreation(w.cloud, id) && LivesOn(w.cloud, w'.cloud, id)
      else
        && step.Move? && w.handlers[step.p].pc == Create && (step.answer == Made(id) || step.answer == MadeButLost(id))
        && w'.cloud.disks[id] == NewDisk(w.handlers[step.p].req)
  {
    if step.Move? {
      var h := w.handlers[step.p];
      assert HandlerInv(w.cloud, h);
      if !h.pc.Acquire? && !h.pc.Release? {
        OwnStepCreation(w.cloud, h.req, h.pc, step.answer, id);
      }
    } else {
      OtherStepCreation(w, step, id);
    }
  }

  // The maker of a disk in creation keeps waiting unless it fails.
  lemma MakerWaits(w: World, step: Step, p: nat, id: string, name: string)
    requires Enabled(w, step) && Maker(w, p, id, name) && InCreation(w.cloud, id)
    ensures Maker(Apply(w, step), p, id, name) || GoneOrFailed(Apply(w, step), p)
  {
  }

  // A disk made in this step is waited for, or its create has failed already.
  lemma BornAttended(w: World, step: Step, id: string, name: string)
    requires Inv(w) && Enabled(w, step) && step.Move? && w.handlers[step.p].pc == Create
    requires step.answer == Made(id) || step.answer == MadeButLost(id)
    requires Named(NewDisk(w.handlers[step.p].req), name)
    ensures Making(w.handlers[step.p], name)
    ensures Maker(Apply(w, step), step.p, id, name) || GoneOrFailed(Apply(w, step), step.p)
  {
    assert HandlerInv(w.cloud, w.handlers[step.p]);
    NewDiskName(w.handlers[step.p].req);
  }

  lemma StaysAttended(ws: seq<World>, i: nat, name: string)
    requires IsRun(ws) && i + 1 < |ws| && Inv(ws[0]) && Attended(ws[i], name) && !GivesUp(ws, i, name)
    ensures Attended(ws[i + 1], name)
  {
    RunKeepsInv(ws, i);
    assert Linked(ws, i);
    var w := ws[i];
    var step :| Enabled(w, step) && ws[i + 1] == Apply(w, step);
    var w' := ws[i + 1];
    forall id | InCreation(w'.cloud, id) && Named(w'.cloud.disks[id], name)
      ensures exists p :: Maker(w', p, id, name)
    {
      InCreationSince(w, step, id);
      if id in w.cloud.seen {
        var p :| Maker(w, p, id, name);
        MakerWaits(w, step, p, id, name);
      } else {
        BornAttended(w, step, id, name);
      }
    }
  }

  // A create answers with a disk that is READY, or that it found under its name.
  lemma AnswerComesFrom(w: World, p: nat, answer: Answer, id: string)
    requires Inv(w) && Enabled(w, Move(p, answer)) && AnswersVolume(MoveHandler(w, p, answer).handlers[p], id)
    ensures AnswersVolume(w.handlers[p], id)
      || !InCreation(w.cloud, id)
      || (w.handlers[p].pc == Lookup && Named(w.cloud.disks[id], w.handlers[p].req.name))
    ensures id in w.cloud.seen
  {
    assert HandlerInv(w.cloud, w.handlers[p]);
  }

  // While a create of the name looks up, no other is at work on a disk of the name.
  lemma LookupFindsNoneInCreation(w: World, p: nat, id: string, name: string)
    requires Inv(w) && Attended(w, name) && p in w.handlers && w.handlers[p].pc == Lookup
    requires w.handlers[p].req.Key() == name
    requires id in w.cloud.disks && Named(w.cloud.disks[id], name)
    ensures !InCreation(w.cloud, id)
  {
    if InCreation(w.cloud, id) {
      var q :| Maker(w, q, id, name);
      assert Owns(w, q, name) && Owns(w, p, name);
    }
  }

  lemma StaysMade(ws: seq<World>, i: nat, name: string)
    requires IsRun(ws) && i + 1 < |ws| && Inv(ws[0]) && Attended(ws[i], name) && AnswersMade(ws[i], name)
    ensures AnswersMade(ws[i + 1], name)
  {
    RunKeepsInv(ws, i);
    assert Linked(ws, i);
    var w := ws[i];
    var step :| Enabled(w, step) && ws[i + 1] == Apply(w, step);
    var w' := ws[i + 1];
    forall p, id | p in w'.handlers && AnswersVolume(w'.handlers[p], id) && w'.handlers[p].req.name == name
      ensures !InCreation(w'.cloud, id)
    {
      if InCreation(w'.cloud, id) {
        InCreationSince(w, step, id);
        AnswererBefore(w, step, p, id, name);
      }
    }
  }

  lemma AnswererBefore(w: World, step: Step, p: nat, id: string, name: string)
    requires Inv(w) && Attended(w, name) && AnswersMade(w, name) && Enabled(w, step)
    requires p in Apply(w, step).handlers && AnswersVolume(Apply(w, step).handlers[p], id)
    requires Apply(w, step).handlers[p].req.name == name
    ensures id in w.cloud.seen && !InCreation(w.cloud, id)
  {
    if step.Move? && step.p == p {
      AnswerComesFrom(w, p, step.answer, id);
      if w.handlers[p].pc == Lookup && InCreation(w.cloud, id) {
        LookupFindsNoneInCreation(w, p, id, name);
      }
    } else {
      assert w.handlers[p] == Apply(w, step).handlers[p];
      assert HandlerInv(w.cloud, w.handlers[p]);
    }
  }

  // A volume that a create answers with is past its creation, in every run in which no
  // create of the name, once past its lookup, fails or dies with the driver while a disk
  // of the name is in creation.
  lemma {:induction false} AnswersAreMade(ws: seq<World>, name: string, j: nat)
    requires IsRun(ws) && Init(ws[0]) && j < |ws|
    requires forall id :: InCreation(ws[0].cloud, id) ==> !Named(ws[0].cloud.disks[id], name)
    requires forall i :: 0 <= i < |ws| - 1 ==> !GivesUp(ws, i, name)
    ensures Attended(ws[j], name) && AnswersMade(ws[j], name)
  {
    if j > 0 {
      AnswersAreMade(ws, name, j - 1);
      StaysAttended(ws, j - 1, name);
      StaysMade(ws, j - 1, name);
    }
  }

  // ---------- and when one is given up ----------

  // A disk still in creation has the size its maker wants.
  ghost predicate MadeAsWanted(w: World) {
    forall p, id :: p in w.handlers && w.handlers[p].pc == WaitReady(id) && InCreation(w.cloud, id)
      ==> w.cloud.disks[id].sizeGiB == WantedGiB(w.handlers[p].req)
  }

  lemma OwnStepWaits(c: Cloud, req: Request, pc: PC, answer: Answer, id: string)
    requires Fits(c, req, pc, answer) && !pc.Acquire? && !pc.Release? && OwnStep(c, req, pc, answer).1 == WaitReady(id)
    ensures pc == WaitReady(id) || (pc == Create && answer == Made(id))
  {
  }

  // A handler that waits for the disk waited before, or makes it in this step.
  lemma WaiterBefore(w: World, step: Step, p: nat, id: string)
    requires Inv(w) && Enabled(w, step) && p in Apply(w, step).handlers
    requires Apply(w, step).handlers[p].pc == WaitReady(id)
    ensures p in w.handlers && w.handlers[p].req == Apply(w, step).handlers[p].req
    ensures (w.handlers[p].pc == WaitReady(id) && id in w.cloud.seen)
      || (step == Move(p, Made(id)) && w.handlers[p].pc == Create)
  {
    assert p in w.handlers;
    var h := w.handlers[p];
    assert HandlerInv(w.cloud, h);
    if step.Move? && step.p == p && !h.pc.Acquire? && !h.pc.Release? {
      OwnStepWaits(w.cloud, h.req, h.pc, step.answer, id);
    }
  }

  lemma StaysAsWanted(ws: seq<World>, i: nat)
    requires IsRun(ws) && i + 1 < |ws| && Inv(ws[0]) && MadeAsWanted(ws[i])
    ensures MadeAsWanted(ws[i + 1])
  {
    RunKeepsInv(ws, i);
    assert Linked(ws, i);
    var w, w' := ws[i], ws[i + 1];
    var step :| Enabled(w, step) && w' == Apply(w, step);
    forall p, id | p in w'.handlers && w'.handlers[p].pc == WaitReady(id) && InCreation(w'.cloud, id)
      ensures w'.cloud.disks[id].sizeGiB == WantedGiB(w'.handlers[p].req)
    {
      InCreationSince(w, step, id);
      WaiterBefore(w, step, p, id);
    }
  }

  lemma {:induction false} RunAsWanted(ws: seq<World>, i: nat)
    requires IsRun(ws) && Init(ws[0]) && i < |ws|
    ensures MadeAsWanted(ws[i])
  {
    if i > 0 {
      RunAsWanted(ws, i - 1);
      assert MadeAsWanted(ws[i - 1]);
      StaysAsWanted(ws, i - 1);
      assert MadeAsWanted(ws[i]);
    }
  }

  lemma FollowsCreation(ws: seq<World>, i: nat, id: string)
    requires IsRun(ws) && i + 1 < |ws| && Inv(ws[0]) && id in ws[i].cloud.seen && !InCreation(ws[i].cloud, id)
    ensures id in ws[i + 1].cloud.seen && !InCreation(ws[i + 1].cloud, id)
  {
    RunKeepsInv(ws, i);
    FollowsEvolves(ws, i);
    assert Linked(ws, i);
    var step :| Enabled(ws[i], step) && ws[i + 1] == Apply(ws[i], step);
    if InCreation(ws[i + 1].cloud, id) {
      InCreationSince(ws[i], step, id);
    }
  }

  // What is past its creation, or gone, is never in creation again.
  lemma {:induction false} CreationEnds(ws: seq<World>, id: string, j: nat)
    requires IsRun(ws) && Inv(ws[0]) && j < |ws| && id in ws[0].cloud.seen && !InCreation(ws[0].cloud, id)
    ensures id in ws[j].cloud.seen && !InCreation(ws[j].cloud, id)
  {
    if j > 0 {
      CreationEnds(ws, id, j - 1);
      FollowsCreation(ws, j - 1, id);
    }
  }

  // A create that passes its checks can get to its lookup when its name is not locked.
  lemma ReachesLookup(w: World, p: nat, req: Request) returns (w': World)
    requires p !in w.handlers && req.CreateVolume? && Validated(req) == Acquire && req.Key() !in w.locks
    ensures Leads(w, w') && w' == World(w.cloud, w.locks + {req.Key()}, w.handlers[p := Handler(req, Lookup)])
  {
    LeadsNowhere(w);
    var w1 := Apply(w, Arrive(p, req));
    LeadsFurther(w, w, Arrive(p, req));
    var w2 := Apply(w1, Move(p, Served));
    LeadsFurther(w, w1, Move(p, Served));
    w' := Apply(w2, Move(p, Served));
    LeadsFurther(w, w2, Move(p, Served));
  }

  // A create of this request answers with the disk while that is in creation.
  predicate AnswersInCreation(w: World, q: nat, req: Request, id: string) {
    q in w.handlers && w.handlers[q].req == req && AnswersVolume(w.handlers[q], id) && InCreation(w.cloud, id)
  }

  // A request that finds the disk of its name and size in creation answers with it.
  lemma AnswersTooSoon(w: World, p: nat, req: Request, id: string) returns (w': World)
    requires p !in w.handlers && req.CreateVolume? && Validated(req) == Acquire && req.Key() !in w.locks
    requires InCreation(w.cloud, id) && Named(w.cloud.disks[id], req.name)
    requires w.cloud.disks[id].sizeGiB == WantedGiB(req)
    ensures Leads(w, w') && AnswersInCreation(w', p, req, id)
  {
    var looking := ReachesLookup(w, p, req);
    w' := Apply(looking, Move(p, First(id)));
    LeadsFurther(w, looking, Move(p, First(id)));
  }

  // The retry that answers too soon: the failed create returns, and the same request
  // comes again and finds the disk.
  lemma RetryAnswersInCreation(w: World, p: nat, id: string) returns (w': World)
    requires p in w.handlers && w.handlers[p].pc.Release? && w.handlers[p].req.CreateVolume?
    requires Validated(w.handlers[p].req) == Acquire
    requires InCreation(w.cloud, id) && Named(w.cloud.disks[id], w.handlers[p].req.name)
    requires w.cloud.disks[id].sizeGiB == WantedGiB(w.handlers[p].req)
    ensures Leads(w, w') && AnswersInCreation(w', p, w.handlers[p].req, id)
  {
    var left := LeavesSection(w, p);
    w' := AnswersTooSoon(left, p, w.handlers[p].req, id);
    LeadsJoin(w, left, w');
  }

  lemma ReachableAsWanted(w: World)
    requires Reachable(w)
    ensures MadeAsWanted(w)
  {
    var ws :| IsRun(ws) && Init(ws[0]) && ws[|ws| - 1] == w;
    RunAsWanted(ws, |ws| - 1);
    assert MadeAsWanted(ws[|ws| - 1]);
  }

  // What is known of a create that waits for its disk.
  lemma WaiterKnows(w: World, p: nat, id: string)
    requires Reachable(w) && p in w.handlers && w.handlers[p].pc == WaitReady(id)
    ensures w.handlers[p].req.CreateVolume? && Validated(w.handlers[p].req) == Acquire && id in w.cloud.seen
    ensures InCreation(w.cloud, id)
      ==> Named(w.cloud.disks[id], w.handlers[p].req.name) && w.cloud.disks[id].sizeGiB == WantedGiB(w.handlers[p].req)
  {
    HandlerIsKnown(w, p);
    var req := w.handlers[p].req;
    assert req.CreateVolume? && KnownAs(w.cloud, id, req.name, Topology.PickedZone(req.topology));
    ReachableAsWanted(w);
  }

  lemma NeverInCreation(w: World, id: string, w': World, q: nat, req: Request)
    requires Reachable(w) && Leads(w, w') && id in w.cloud.seen && !InCreation(w.cloud, id)
    ensures !AnswersInCreation(w', q, req, id)
  {
    ReachableInv(w);
    var ws :| IsRunBetween(ws, w, w');
    CreationEnds(ws, id, |ws| - 1);
  }

  // The disk that a create waits for, or makes in this step.
  predicate Concerns(pc: PC, answer: Answer, id: string) {
    pc == WaitReady(id) || (pc == Create && (answer == Made(id) || answer == MadeButLost(id)))
  }

  // What a create leaves behind when it fails: its own kind of disk, if one in creation.
  lemma FailedKnows(w: World, p: nat, answer: Answer, id: string)
    requires Reachable(w) && Enabled(w, Move(p, answer)) && Concerns(w.handlers[p].pc, answer, id)
    requires GoneOrFailed(MoveHandler(w, p, answer), p)
    ensures var c := MoveHandler(w, p, answer).cloud; var req := w.handlers[p].req;
      && req.CreateVolume? && Validated(req) == Acquire && id in c.seen
      && (InCreation(c, id) ==> Named(c.disks[id], req.name) && c.disks[id].sizeGiB == WantedGiB(req))
  {
    if w.handlers[p].pc == Create {
      HandlerIsKnown(w, p);
      NewDiskName(w.handlers[p].req);
    } else {
      WaiterKnows(w, p, id);
    }
  }

  // A create that fails after its disk was made leaves a trap behind exactly when the
  // disk is still in creation: only then can the same request, made again, succeed
  // with the disk still in creation.
  lemma RetryMayAnswerInCreationIff(w: World, p: nat, answer: Answer, id: string)
    requires Reachable(w) && Enabled(w, Move(p, answer)) && Concerns(w.handlers[p].pc, answer, id)
    requires GoneOrFailed(MoveHandler(w, p, answer), p)
    ensures InCreation(MoveHandler(w, p, answer).cloud, id) <==>
      exists w', q :: Leads(MoveHandler(w, p, answer), w') && AnswersInCreation(w', q, w.handlers[p].req, id)
  {
    var failed, req := MoveHandler(w, p, answer), w.handlers[p].req;
    FailedKnows(w, p, answer, id);
    if InCreation(failed.cloud, id) {
      assert failed.handlers[p].req == req;
      var w' := RetryAnswersInCreation(failed, p, id);
    } else {
      StepLeads(w, Move(p, answer));
      ReachableLeads(w, failed);
      forall w', q | Leads(failed, w')
        ensures !AnswersInCreation(w', q, req, id)
      {
        NeverInCreation(failed, id, w', q, req);
      }
    }
  }

  // The same of a create that dies with the driver while it waits for its disk.
  lemma RestartMayAnswerInCreationIff(w: World, p: nat, id: string)
    requires Reachable(w) && p in w.handlers && w.handlers[p].pc == WaitReady(id)
    ensures InCreation(w.cloud, id) <==>
      exists w', q :: Leads(Apply(w, Crash), w') && AnswersInCreation(w', q, w.handlers[p].req, id)
  {
    var restarted, req := Apply(w, Crash), w.handlers[p].req;
    WaiterKnows(w, p, id);
    if InCreation(w.cloud, id) {
      var w' := AnswersTooSoon(restarted, p, req, id);
    } else {
      StepLeads(w, Crash);
      ReachableLeads(w, restarted);
      forall w', q | Leads(restarted, w')
        ensures !AnswersInCreation(w', q, req, id)
      {
        NeverInCreation(restarted, id, w', q, req);
      }
    }
  }

  // The request gets past the lookup of an unused name, to a disk of some size.
  predicate Creatable(req: Request) {
    && req.CreateVolume? && Validated(req) == Acquire && WantedGiB(req) != 0
    && Parameters.Collect(req.name, req.params).Some? && Topology.PickedZone(req.topology) != ""
  }

  lemma ReachesWait(w: World, p: nat, req: Request, id: string) returns (w': World)
    requires p !in w.handlers && Creatable(req) && req.name !in w.locks && !HasName(w.cloud, req.name)
    requires id !in w.cloud.seen && id != ""
    ensures Leads(w, w') && p in w'.handlers && w'.handlers[p] == Handler(req, WaitReady(id))
    ensures InCreation(w'.cloud, id)
  {
    var w1 := ReachesLookup(w, p, req);
    var w2 := Apply(w1, Move(p, Served));
    LeadsFurther(w, w1, Move(p, Served));
    w' := Apply(w2, Move(p, Made(id)));
    LeadsFurther(w, w2, Move(p, Made(id)));
  }

  // The trap is real: wherever a name is neither in use nor locked, any request that
  // can create a disk may fail and, repeated, succeed with the disk still in creation.
  lemma InCreationAnswerIsReachable(w: World, p: nat, req: Request, id: string)
    requires Reachable(w) && p !in w.handlers && Creatable(req) && req.name !in w.locks && !HasName(w.cloud, req.name)
    requires id !in w.cloud.seen && id != ""
    ensures exists w', q :: Leads(w, w') && AnswersInCreation(w', q, req, id)
  {
    var waiting := ReachesWait(w, p, req, id);
    ReachableLeads(w, waiting);
    RetryMayAnswerInCreationIff(waiting, p, Expired, id);
    var failed := MoveHandler(waiting, p, Expired);
    var w', q :| Leads(failed, w') && AnswersInCreation(w', q, req, id);
    StepLeads(waiting, Move(p, Expired));
    LeadsJoin(w, waiting, failed);
    LeadsJoin(w, failed, w');
  }
}
