/**
  When the disk that a create answers with is READY.  GetDiskByName does not look at the
  status, so it is, unless an expand of the disk is under way, or a create or an expand
  failed or died and left the disk as it was.
 */
module ReadyTheorems {
  import opened Wrappers
  import opened Sizes
  import opened CloudModel
  import opened Controller
  import opened ControllerSafety
  import opened ControllerTheorems
  import opened CreateTheorems
  import opened ExpandTheorems

  predicate Unready(c: Cloud, id: string) {
    id in c.disks && c.disks[id].status != Ready
  }

  // Every disk of the name is READY.
  ghost predicate AllReady(c: Cloud, name: string) {
    forall id :: Unready(c, id) ==> !Named(c.disks[id], name)
  }

  predicate ExpandWaits(w: World, q: nat, id: string) {
    && q in w.handlers && w.handlers[q].req.ExpandVolume? && w.handlers[q].req.volume == id
    && w.handlers[q].pc == WaitResized
  }

  ghost predicate BeingExpanded(w: World, id: string) {
    exists q :: ExpandWaits(w, q, id)
  }

  // A create or an expand waits for the disk to become READY.
  predicate Waits(w: World, p: nat, id: string) {
    ExpandWaits(w, p, id) || (p in w.handlers && w.handlers[p].req.CreateVolume? && w.handlers[p].pc == WaitReady(id))
  }

  // Every disk of the name that is not READY is waited for.
  ghost predicate LookedAfter(w: World, name: string) {
    forall id :: Unready(w.cloud, id) && Named(w.cloud.disks[id], name) ==> exists p :: Waits(w, p, id)
  }

  // A create of the name that may have made its disk, or an expand of a disk of the name
  // that may have changed it.
  predicate AtWork(c: Cloud, h: Handler, name: string) {
    || Making(h, name)
    || (h.req.ExpandVolume? && (h.pc == Resize || h.pc == WaitResized)
        && h.req.volume in c.disks && Named(c.disks[h.req.volume], name))
  }

  predicate HasFailed(w: World, p: nat) {
    p in w.handlers ==> (w.handlers[p].pc.Release? || w.handlers[p].pc.Done?) && w.handlers[p].pc.response.Error?
  }

  ghost predicate LeftAlone(w: World, name: string) {
    exists id :: Unready(w.cloud, id) && Named(w.cloud.disks[id], name) && forall q :: !Waits(w, q, id)
  }

  // Some call at work for the name fails or dies in this step, and a disk of the name is
  // left that is not READY and that no call waits for.
  ghost predicate Abandons(ws: seq<World>, i: nat, name: string)
    requires i + 1 < |ws|
  {
    && (exists p :: p in ws[i].handlers && AtWork(ws[i].cloud, ws[i].handlers[p], name) && HasFailed(ws[i + 1], p))
    && LeftAlone(ws[i + 1], name)
  }

  ghost predicate Calm(ws: seq<World>, name: string) {
    forall i: nat {:trigger Abandons(ws, i, name)} :: i + 1 < |ws| ==> !Abandons(ws, i, name)
  }

  // ---------- every disk that is not READY is waited for ----------

  // A disk that is not READY was not before, or is made or resized by this very step.
  predicate MakesUnready(w: World, step: Step, id: string) {
    && step.Move? && step.p in w.handlers
    && var h := w.handlers[step.p];
      || (h.pc == Create && (step.answer == Made(id) || step.answer == MadeButLost(id)))
      || (h.pc == Resize && h.req.ExpandVolume? && h.req.volume == id && id in w.cloud.disks)
  }

  lemma OwnStepUnready(c: Cloud, req: Request, pc: PC, answer: Answer, id: string)
    requires CloudInv(c) && Fits(c, req, pc, answer) && PcInv(req, pc) && !pc.Acquire? && !pc.Release?
    requires Unready(OwnStep(c, req, pc, answer).0, id)
    ensures Unready(c, id)
      || (pc == Create && (answer == Made(id) || answer == MadeButLost(id)))
      || (pc == Resize && req.ExpandVolume? && req.volume == id && id in c.disks)
  {
  }

  lemma UnreadySince(w: World, step: Step, id: string)
    requires Inv(w) && Enabled(w, step) && Unready(Apply(w, step).cloud, id)
    ensures Unready(w.cloud, id) || MakesUnready(w, step, id)
    ensures id in w.cloud.disks ==> Apply(w, step).cloud.disks[id].tags == w.cloud.disks[id].tags
  {
    StepEvolves(w, step);
    if step.Move? {
      var h := w.handlers[step.p];
      assert HandlerInv(w.cloud, h);
      if !h.pc.Acquire? && !h.pc.Release? {
        OwnStepUnready(w.cloud, h.req, h.pc, step.answer, id);
      }
    }
  }

  // Who waits for a disk that is not READY goes on waiting, or fails, or dies.
  lemma WaiterWaits(w: World, step: Step, p: nat, id: string)
    requires Enabled(w, step) && Waits(w, p, id) && Unready(w.cloud, id)
    ensures Waits(Apply(w, step), p, id) || HasFailed(Apply(w, step), p)
  {
  }

  // Who makes a disk unready waits for it, or has failed.
  lemma CauserWaits(w: World, step: Step, id: string, name: string)
    requires Inv(w) && Enabled(w, step) && MakesUnready(w, step, id)
    requires Unready(Apply(w, step).cloud, id) && Named(Apply(w, step).cloud.disks[id], name)
    ensures AtWork(w.cloud, w.handlers[step.p], name)
    ensures Waits(Apply(w, step), step.p, id) || HasFailed(Apply(w, step), step.p)
  {
    var h := w.handlers[step.p];
    assert HandlerInv(w.cloud, h);
    if h.pc == Create {
      NewDiskName(h.req);
    }
  }

  // A disk's name is that of the create that waits for it.
  lemma WaiterAtWork(w: World, p: nat, id: string, name: string)
    requires Inv(w) && Waits(w, p, id) && id in w.cloud.disks && Named(w.cloud.disks[id], name)
    ensures AtWork(w.cloud, w.handlers[p], name)
  {
    assert HandlerInv(w.cloud, w.handlers[p]);
  }

  lemma SomeoneCares(w: World, step: Step, id: string, name: string)
    requires Inv(w) && Enabled(w, step) && LookedAfter(w, name)
    requires Unready(Apply(w, step).cloud, id) && Named(Apply(w, step).cloud.disks[id], name)
    ensures exists p ::
      && p in w.handlers && AtWork(w.cloud, w.handlers[p], name)
      && (Waits(Apply(w, step), p, id) || HasFailed(Apply(w, step), p))
  {
    UnreadySince(w, step, id);
    if MakesUnready(w, step, id) {
      CauserWaits(w, step, id, name);
    } else {
      var p :| Waits(w, p, id);
      WaiterAtWork(w, p, id, name);
      WaiterWaits(w, step, p, id);
    }
  }

  lemma StaysLookedAfter(ws: seq<World>, i: nat, name: string)
    requires IsRun(ws) && i + 1 < |ws| && Inv(ws[0]) && LookedAfter(ws[i], name) && !Abandons(ws, i, name)
    ensures LookedAfter(ws[i + 1], name)
  {
    RunKeepsInv(ws, i);
    assert Linked(ws, i);
    var w, w' := ws[i], ws[i + 1];
    var step :| Enabled(w, step) && w' == Apply(w, step);
    forall id | Unready(w'.cloud, id) && Named(w'.cloud.disks[id], name)
      ensures exists p :: Waits(w', p, id)
    {
      SomeoneCares(w, step, id, name);
    }
  }

  lemma {:induction false} RunLooksAfter(ws: seq<World>, name: string, j: nat)
    requires IsRun(ws) && Inv(ws[0]) && LookedAfter(ws[0], name) && Calm(ws, name) && j < |ws|
    ensures LookedAfter(ws[j], name)
  {
    if j > 0 {
      RunLooksAfter(ws, name, j - 1);
      assert !Abandons(ws, j - 1, name);
      StaysLookedAfter(ws, j - 1, name);
    }
  }

  // ---------- answers ----------

  // In this step a create of the name comes to its answer, with this disk.
  predicate Answers(w: World, w': World, p: nat, id: string, name: string) {
    && p in w.handlers && p in w'.handlers && w'.handlers[p].req.Key() == name
    && !AnswersVolume(w.handlers[p], id) && AnswersVolume(w'.handlers[p], id)
  }

  lemma AnswerMoment(w: World, p: nat, answer: Answer, id: string, name: string)
    requires Inv(w) && Enabled(w, Move(p, answer)) && Answers(w, MoveHandler(w, p, answer), p, id, name)
    ensures MoveHandler(w, p, answer).cloud == w.cloud && id in w.cloud.disks && Named(w.cloud.disks[id], name)
    ensures w.handlers[p].req == MoveHandler(w, p, answer).handlers[p].req
    ensures Unready(w.cloud, id) ==>
      w.handlers[p].pc == Lookup && w.cloud.disks[id].sizeGiB == WantedGiB(w.handlers[p].req)
  {
    assert HandlerInv(w.cloud, w.handlers[p]);
  }

  // A create that looks up a disk of its name that is not READY finds an expand waiting.
  lemma LookupMeetsExpand(w: World, p: nat, id: string, name: string)
    requires Inv(w) && LookedAfter(w, name) && p in w.handlers && w.handlers[p].pc == Lookup
    requires w.handlers[p].req.Key() == name && Unready(w.cloud, id) && Named(w.cloud.disks[id], name)
    ensures BeingExpanded(w, id)
  {
    var q :| Waits(w, q, id);
    if !ExpandWaits(w, q, id) {
      WaiterAtWork(w, q, id, name);
      assert Owns(w, q, name) && Owns(w, p, name);
    }
  }

  lemma AnswerStep(ws: seq<World>, i: nat, p: nat, id: string, name: string) returns (answer: Answer)
    requires IsRun(ws) && Inv(ws[0]) && i + 1 < |ws| && Answers(ws[i], ws[i + 1], p, id, name)
    ensures Inv(ws[i]) && Enabled(ws[i], Move(p, answer)) && ws[i + 1] == MoveHandler(ws[i], p, answer)
  {
    RunKeepsInv(ws, i);
    answer := OwnMoveBetween(ws, i, p);
  }

  // The disk that a create answers with exists and is READY at that moment, in every run in
  // which no call at work for the name abandons a disk, unless an expand of the disk waits
  // for it just then.
  lemma AnswersAreReady(ws: seq<World>, name: string, i: nat, p: nat, id: string)
    requires IsRun(ws) && Init(ws[0]) && Calm(ws, name)
    requires AllReady(ws[0].cloud, name)
    requires i + 1 < |ws| && Answers(ws[i], ws[i + 1], p, id, name)
    ensures id in ws[i + 1].cloud.disks
    ensures Unready(ws[i + 1].cloud, id) ==> BeingExpanded(ws[i + 1], id)
  {
    var answer := AnswerStep(ws, i, p, id, name);
    AnswerMoment(ws[i], p, answer, id, name);
    if Unready(ws[i + 1].cloud, id) {
      RunLooksAfter(ws, name, i);
      LookupMeetsExpand(ws[i], p, id, name);
      var q :| ExpandWaits(ws[i], q, id);
      assert ExpandWaits(ws[i + 1], q, id);
    }
  }

  // ---------- an answer while an expand is under way ----------

  // Creates of the name are this request, and expands of the volume or of a disk of the
  // name are that one, each any number of times.
  ghost predicate OnlyTheirs(w: World, v: string, name: string, create: Request, expand: Request) {
    forall p :: p in w.handlers ==> OneOfThem(w.cloud, w.handlers[p].req, v, name, create, expand)
  }

  predicate OneOfThem(c: Cloud, req: Request, v: string, name: string, create: Request, expand: Request) {
    && (req.CreateVolume? && req.name == name ==> req == create)
    && (req.ExpandVolume? && (req.volume == v || (req.volume in c.disks && Named(c.disks[req.volume], name)))
        ==> req == expand)
  }

  // A run in which no call at work for the name abandons a disk, and only these requests
  // are made if only they were there at first.
  ghost predicate Fine(ws: seq<World>, v: string, name: string, create: Request, expand: Request) {
    && IsRun(ws) && Calm(ws, name)
    && (OnlyTheirs(ws[0], v, name, create, expand) ==>
      forall k {:trigger OnlyTheirs(ws[k], v, name, create, expand)} :: 0 <= k < |ws| ==>
        OnlyTheirs(ws[k], v, name, create, expand))
  }

  // A step that fails nobody, makes and renames no disk, and brings none but these requests.
  ghost predicate Quiet(w: World, step: Step, w': World, create: Request, expand: Request) {
    && Enabled(w, step) && w' == Apply(w, step)
    && (step.Arrive? || step.Move?)
    && (step.Arrive? ==> step.req == create || step.req == expand)
    && (step.Move? ==> !HasFailed(w', step.p))
    && SameNames(w.cloud, w'.cloud)
  }

  ghost predicate SameNames(c: Cloud, c': Cloud) {
    forall id :: id in c'.disks ==> id in c.disks && c'.disks[id].tags == c.disks[id].tags
  }

  lemma QuietAbandonsNothing(ws: seq<World>, i: nat, step: Step, name: string, create: Request, expand: Request)
    requires i + 1 < |ws| && Quiet(ws[i], step, ws[i + 1], create, expand)
    ensures !Abandons(ws, i, name)
  {
  }

  lemma QuietKeepsTheirs(w: World, step: Step, w': World, v: string, name: string, create: Request, expand: Request)
    requires Quiet(w, step, w', create, expand) && create.CreateVolume? && expand.ExpandVolume?
    requires OnlyTheirs(w, v, name, create, expand)
    ensures OnlyTheirs(w', v, name, create, expand)
  {
    forall p | p in w'.handlers
      ensures OneOfThem(w'.cloud, w'.handlers[p].req, v, name, create, expand)
    {
      if p in w.handlers {
        assert OneOfThem(w.cloud, w.handlers[p].req, v, name, create, expand);
        SameRequest(w, step, p);
      }
    }
  }

  lemma SameRequest(w: World, step: Step, p: nat)
    requires Enabled(w, step) && p in w.handlers && p in Apply(w, step).handlers
    ensures Apply(w, step).handlers[p].req == w.handlers[p].req
  {
  }

  lemma FineStart(w: World, v: string, name: string, create: Request, expand: Request)
    ensures Fine([w], v, name, create, expand)
  {
  }

  lemma FineFurther(ws: seq<World>, step: Step, w': World, v: string, name: string, create: Request, expand: Request)
    requires Fine(ws, v, name, create, expand) && create.CreateVolume? && expand.ExpandVolume?
    requires Quiet(ws[|ws| - 1], step, w', create, expand)
    ensures Fine(ws + [w'], v, name, create, expand)
  {
    var last := ws[|ws| - 1];
    var longer := ws + [w'];
    assert IsRun(longer) by {
      StepLeads(last, step);
      RunsJoin(ws, [last, w']);
      assert longer == ws + [last, w'][1..];
    }
    forall i: nat | i + 1 < |longer|
      ensures !Abandons(longer, i, name)
    {
      if i + 1 < |ws| {
        assert !Abandons(ws, i, name);
      } else {
        QuietAbandonsNothing(longer, i, step, name, create, expand);
      }
    }
    if OnlyTheirs(last, v, name, create, expand) {
      QuietKeepsTheirs(last, step, w', v, name, create, expand);
    }
  }

  lemma Grow(ws: seq<World>, step: Step, w': World, v: string, name: string, create: Request, expand: Request)
    returns (longer: seq<World>)
    requires Fine(ws, v, name, create, expand) && create.CreateVolume? && expand.ExpandVolume?
    requires Quiet(ws[|ws| - 1], step, w', create, expand)
    ensures Fine(longer, v, name, create, expand) && longer[0] == ws[0]
    ensures |longer| == |ws| + 1 && longer[|ws| - 1] == ws[|ws| - 1] && longer[|ws|] == w'
  {
    FineFurther(ws, step, w', v, name, create, expand);
    longer := ws + [w'];
  }

  // An expand that wants more than the disk has, and a create of the disk's name that
  // wants as much as the expand.
  predicate Meet(c: Cloud, v: string, name: string, create: Request, expand: Request) {
    && IsExpandOf(expand, v) && create.CreateVolume? && create.name == name && Validated(create) == Acquire
    && v in c.disks && Named(c.disks[v], name) && c.disks[v].sizeGiB < WantedGiB(expand) == WantedGiB(create)
  }

  function Resized(c: Cloud, v: string, gib: int64): Cloud
    requires v in c.disks
  {
    c.(disks := c.disks[v := c.disks[v].(sizeGiB := gib, status := Updating)])
  }

  function With(w: World, q: nat, h: Handler): World {
    w.(handlers := w.handlers[q := h])
  }

  lemma OwnStepIsQuiet(w: World, q: nat, h: Handler, c: Cloud, pc: PC, create: Request, expand: Request)
    requires h.pc == Validate || h.pc == GetSize || h.pc == Resize
    requires Fits(w.cloud, h.req, h.pc, Served) && OwnStep(w.cloud, h.req, h.pc, Served) == (c, pc)
    requires !pc.Release? && !pc.Done? && SameNames(w.cloud, c)
    ensures Quiet(With(w, q, h), Move(q, Served), With(w.(cloud := c), q, h.(pc := pc)), create, expand)
  {
    assert Apply(With(w, q, h), Move(q, Served)) == With(w.(cloud := c), q, h.(pc := pc));
  }

  lemma ArrivalIsQuiet(w: World, q: nat, req: Request, create: Request, expand: Request)
    requires q !in w.handlers && (req == create || req == expand)
    requires req.CreateVolume? || req.volume in w.cloud.seen
    ensures Quiet(w, Arrive(q, req), With(w, q, Handler(req, Validate)), create, expand)
  {
    assert !req.CreateVolume? ==> w.cloud.seen + {req.volume} == w.cloud.seen;
    assert Apply(w, Arrive(q, req)) == With(w, q, Handler(req, Validate));
  }

  // The expand reads the size and has its resize served ...
  lemma ExpandArrives(w: World, q: nat, v: string, name: string, create: Request, expand: Request)
    returns (ws: seq<World>)
    requires CloudInv(w.cloud) && Meet(w.cloud, v, name, create, expand) && q !in w.handlers
    ensures Fine(ws, v, name, create, expand) && ws[0] == w
    ensures ws[|ws| - 1] == With(w, q, Handler(expand, GetSize))
  {
    FineStart(w, v, name, create, expand);
    var arrived, reading := With(w, q, Handler(expand, Validate)), With(w, q, Handler(expand, GetSize));
    ArrivalIsQuiet(w, q, expand, create, expand);
    ws := Grow([w], Arrive(q, expand), arrived, v, name, create, expand);
    OwnStepIsQuiet(w, q, Handler(expand, Validate), w.cloud, GetSize, create, expand);
    ws := Grow(ws, Move(q, Served), reading, v, name, create, expand);
  }

  lemma LargerLeadsOn(c: Cloud, v: string, name: string, create: Request, expand: Request)
    requires CloudInv(c) && Meet(c, v, name, create, expand)
    ensures Fits(c, expand, GetSize, Served) && OwnStep(c, expand, GetSize, Served) == (c, Resize)
    ensures Fits(c, expand, Resize, Served)
    ensures OwnStep(c, expand, Resize, Served) == (Resized(c, v, WantedGiB(expand)), WaitResized)
  {
    WantedSize(expand);
    WrapIsIdentity(WantedGiB(expand) - c.disks[v].sizeGiB);
    assert c.seen + {v} == c.seen;
  }

  lemma ExpandIsServed(w: World, q: nat, v: string, name: string, create: Request, expand: Request)
    returns (ws: seq<World>)
    requires CloudInv(w.cloud) && Meet(w.cloud, v, name, create, expand) && q !in w.handlers
    ensures Fine(ws, v, name, create, expand) && ws[0] == w
    ensures ws[|ws| - 1] == With(w.(cloud := Resized(w.cloud, v, WantedGiB(expand))), q, Handler(expand, WaitResized))
  {
    var asking := With(w, q, Handler(expand, Resize));
    var served := With(w.(cloud := Resized(w.cloud, v, WantedGiB(expand))), q, Handler(expand, WaitResized));
    ws := ExpandArrives(w, q, v, name, create, expand);
    LargerLeadsOn(w.cloud, v, name, create, expand);
    OwnStepIsQuiet(w, q, Handler(expand, GetSize), w.cloud, Resize, create, expand);
    ws := Grow(ws, Move(q, Served), asking, v, name, create, expand);
    OwnStepIsQuiet(w, q, Handler(expand, Resize), Resized(w.cloud, v, WantedGiB(expand)), WaitResized, create, expand);
    ws := Grow(ws, Move(q, Served), served, v, name, create, expand);
  }

  // ... and before the disk is READY again the create looks it up.
  lemma CreateComesTo(ws: seq<World>, p: nat, v: string, name: string, create: Request, expand: Request)
    returns (longer: seq<World>)
    requires Fine(ws, v, name, create, expand) && expand.ExpandVolume?
    requires create.CreateVolume? && create.name == name && Validated(create) == Acquire
    requires p !in ws[|ws| - 1].handlers && name !in ws[|ws| - 1].locks
    ensures Fine(longer, v, name, create, expand) && longer[0] == ws[0]
    ensures var w := ws[|ws| - 1];
      longer[|longer| - 1] == With(w.(locks := w.locks + {name}), p, Handler(create, Lookup))
  {
    var w := ws[|ws| - 1];
    var arrived, valid := With(w, p, Handler(create, Validate)), With(w, p, Handler(create, Acquire));
    var looking := With(w.(locks := w.locks + {name}), p, Handler(create, Lookup));
    ArrivalIsQuiet(w, p, create, create, expand);
    longer := Grow(ws, Arrive(p, create), arrived, v, name, create, expand);
    OwnStepIsQuiet(w, p, Handler(create, Validate), w.cloud, Acquire, create, expand);
    longer := Grow(longer, Move(p, Served), valid, v, name, create, expand);
    assert Quiet(valid, Move(p, Served), looking, create, expand);
    longer := Grow(longer, Move(p, Served), looking, v, name, create, expand);
  }

  // In the last step of the run a create of the name answers with the disk, which is not
  // READY while an expand of it waits.
  predicate EndsUnready(ws: seq<World>, p: nat, v: string, name: string) {
    && |ws| >= 2 && Answers(ws[|ws| - 2], ws[|ws| - 1], p, v, name)
    && Unready(ws[|ws| - 1].cloud, v)
  }

  lemma LookupAnswers(w: World, p: nat, q: nat, v: string, name: string, create: Request, expand: Request)
    requires create.CreateVolume? && create.name == name && ExpandWaits(w, q, v) && q != p
    requires p in w.handlers && w.handlers[p] == Handler(create, Lookup)
    requires Unready(w.cloud, v) && Named(w.cloud.disks[v], name) && w.cloud.disks[v].sizeGiB == WantedGiB(create)
    ensures var w' := Apply(w, Move(p, First(v)));
      && Quiet(w, Move(p, First(v)), w', create, expand)
      && Answers(w, w', p, v, name) && Unready(w'.cloud, v) && ExpandWaits(w', q, v)
  {
  }

  // Wherever a disk has the name and the name is not locked, an expand that wants more than
  // the disk has and a create that wants as much as the expand lead, with no failure on
  // the way, to an answer with a disk that is not READY.
  lemma UnreadyWhileExpanding(w: World, q: nat, p: nat, v: string, name: string, create: Request, expand: Request)
    returns (ws: seq<World>)
    requires CloudInv(w.cloud) && Meet(w.cloud, v, name, create, expand)
    requires q !in w.handlers && p !in w.handlers && p != q && name !in w.locks
    ensures Fine(ws, v, name, create, expand) && ws[0] == w
    ensures EndsUnready(ws, p, v, name) && ExpandWaits(ws[|ws| - 1], q, v)
  {
    var served := ExpandIsServed(w, q, v, name, create, expand);
    var looking := CreateComesTo(served, p, v, name, create, expand);
    var last := looking[|looking| - 1];
    LookupAnswers(last, p, q, v, name, create, expand);
    ws := Grow(looking, Move(p, First(v)), Apply(last, Move(p, First(v))), v, name, create, expand);
  }

  // ---------- exactly when ----------

  // In some step of the run a create of the name answers with a disk that is not READY.
  predicate AnswersUnreadyAt(ws: seq<World>, i: nat, p: nat, id: string, name: string) {
    i + 1 < |ws| && Answers(ws[i], ws[i + 1], p, id, name) && Unready(ws[i + 1].cloud, id)
  }

  // A run of these requests alone in which nothing is abandoned and yet a create of the
  // name answers with a disk that is not READY.
  ghost predicate UnreadyRun(ws: seq<World>, w: World, v: string, name: string, create: Request, expand: Request) {
    && IsRun(ws) && ws[0] == w && Calm(ws, name)
    && (forall k {:trigger OnlyTheirs(ws[k], v, name, create, expand)} :: 0 <= k < |ws| ==>
      OnlyTheirs(ws[k], v, name, create, expand))
    && exists i: nat, p, id :: AnswersUnreadyAt(ws, i, p, id, name)
  }

  lemma UnreadyAnswerMeets(ws: seq<World>, name: string, i: nat, p: nat, id: string) returns (q: nat)
    requires IsRun(ws) && Init(ws[0]) && Calm(ws, name) && AllReady(ws[0].cloud, name)
    requires AnswersUnreadyAt(ws, i, p, id, name)
    ensures var w := ws[i + 1];
      && ExpandWaits(w, q, id) && id in w.cloud.disks && Named(w.cloud.disks[id], name)
      && p in w.handlers && w.handlers[p].req.CreateVolume? && w.handlers[p].req.name == name
      && w.cloud.disks[id].sizeGiB == WantedGiB(w.handlers[p].req)
  {
    AnswersAreReady(ws, name, i, p, id);
    q :| ExpandWaits(ws[i + 1], q, id);
    var answer := AnswerStep(ws, i, p, id, name);
    AnswerMoment(ws[i], p, answer, id, name);
  }

  // What such an answer shows of the requests.
  lemma UnreadyAnswerShows(ws: seq<World>, v: string, name: string, create: Request, expand: Request,
                           i: nat, p: nat, id: string)
    requires ws != [] && Init(ws[0]) && UnreadyRun(ws, ws[0], v, name, create, expand)
    requires AnswersUnreadyAt(ws, i, p, id, name)
    requires AllReady(ws[0].cloud, name)
    requires v in ws[0].cloud.disks && IsExpandOf(expand, v)
    ensures ws[0].cloud.disks[v].sizeGiB < WantedGiB(expand) == WantedGiB(create)
  {
    var q := UnreadyAnswerMeets(ws, name, i, p, id);
    var w := ws[i + 1];
    assert w.handlers[q].req == expand && w.handlers[p].req == create by {
      assert OnlyTheirs(w, v, name, create, expand);
      assert OneOfThem(w.cloud, w.handlers[q].req, v, name, create, expand);
    }
    FloorOf(ws, v, name, create, expand, i + 1);
    assert Expanding(w.handlers[q], v) && Knows(w.cloud, w.handlers[q]);
  }

  lemma FloorOf(ws: seq<World>, v: string, name: string, create: Request, expand: Request, j: nat)
    requires IsRun(ws) && Init(ws[0]) && v in ws[0].cloud.disks && j < |ws|
    requires forall k {:trigger OnlyTheirs(ws[k], v, name, create, expand)} :: 0 <= k < |ws| ==>
      OnlyTheirs(ws[k], v, name, create, expand)
    ensures Floor(ws[j], v, ws[0].cloud.disks[v].sizeGiB) && AllKnow(ws[j], v)
  {
    forall k | 0 <= k < |ws|
      ensures OnlyAsks(ws[k], v, expand, expand)
    {
      assert OnlyTheirs(ws[k], v, name, create, expand);
    }
    FloorHolds(ws, v, ws[0].cloud.disks[v].sizeGiB, expand, expand, j);
  }

  // Exactly when a create can answer with a disk that is not READY although every disk of
  // the name was READY at first and no call abandons one: of the creates of the name and
  // the expands of its volume, each made any number of times, when the expand wants more
  // than the volume has and the create wants as much as the expand.
  lemma UnreadyAnswerPossibleIff(w: World, v: string, name: string, create: Request, expand: Request)
    requires Init(w) && v in w.cloud.disks && Named(w.cloud.disks[v], name)
    requires AllReady(w.cloud, name)
    requires IsExpandOf(expand, v) && create.CreateVolume? && create.name == name && Validated(create) == Acquire
    ensures (exists ws :: UnreadyRun(ws, w, v, name, create, expand))
      <==> w.cloud.disks[v].sizeGiB < WantedGiB(expand) == WantedGiB(create)
  {
    if w.cloud.disks[v].sizeGiB < WantedGiB(expand) == WantedGiB(create) {
      var ws := UnreadyWhileExpanding(w, 0, 1, v, name, create, expand);
      assert AnswersUnreadyAt(ws, |ws| - 2, 1, v, name);
      assert OnlyTheirs(w, v, name, create, expand);
      assert UnreadyRun(ws, w, v, name, create, expand);
    }
    forall ws | UnreadyRun(ws, w, v, name, create, expand)
      ensures w.cloud.disks[v].sizeGiB < WantedGiB(expand) == WantedGiB(create)
    {
      var i: nat, p, id :| AnswersUnreadyAt(ws, i, p, id, name);
      UnreadyAnswerShows(ws, v, name, create, expand, i, p, id);
    }
  }

  // ---------- an answer after a disk was abandoned ----------

  // However a disk of the name came to be not READY, a create of its name and size answers
  // with it as it is once the name is not locked.
  lemma UnreadyIsAnswered(w: World, p: nat, req: Request, id: string) returns (w': World)
    requires p !in w.handlers && req.CreateVolume? && Validated(req) == Acquire && req.Key() !in w.locks
    requires Unready(w.cloud, id) && Named(w.cloud.disks[id], req.name)
    requires w.cloud.disks[id].sizeGiB == WantedGiB(req)
    ensures Leads(w, w') && w'.cloud == w.cloud && p in w'.handlers && AnswersVolume(w'.handlers[p], id)
  {
    var looking := ReachesLookup(w, p, req);
    w' := Apply(looking, Move(p, First(id)));
    LeadsFurther(w, looking, Move(p, First(id)));
  }
}
