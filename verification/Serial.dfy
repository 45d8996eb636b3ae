/**
  Per-volume serialisation.  Seen from one disk, every run of the concurrent
  controller is a run of a much simpler system, in which publish, unpublish and
  delete of that disk run their critical sections one after another, each changes
  the disk at most once, and only the cloud's completions come in between.
 */
module Serial {
  import opened Wrappers
  import opened CloudModel
  import opened Controller
  import opened ControllerSafety

  // The disk's existence and its attachments.
  type View = Option<seq<Attachment>>

  // The critical section in progress, whether its request to the cloud was made, and
  // the response it has come to.
  datatype Running = Running(p: nat, req: Request, called: bool, answer: Option<Response>)

  datatype State = State(view: View, running: Option<Running>)

  // ---------- the serial system ----------

  // The calls that lock a disk's id.
  predicate IsSectional(req: Request) {
    req.DeleteVolume? || req.PublishVolume? || req.UnpublishVolume?
  }

  // A section begins when none is in progress.
  predicate Begins(s: State, s': State) {
    && s.running.None? && s'.running.Some? && IsSectional(s'.running.value.req)
    && !s'.running.value.called && s'.running.value.answer.None? && s'.view == s.view
  }

  // The node's own attachment, if the disk has it.
  predicate Holds(view: View, node: string) {
    view.Some? && |view.value| == 1 && view.value[0].node == node && view.value[0].status != Detached
  }

  // What the one request of a section does to the disk, and whether the section has
  // its answer by it or goes on to poll.
  ghost predicate Effect(req: Request, view: View, view': View, answer: Option<Response>) {
    var failed := answer == Some(Error(Internal));
    || (view' == view && failed)
    || match req
       case DeleteVolume(_) => view' == None && (failed || answer == Some(Deleted))
       case PublishVolume(_, node, _) =>
         view == Some([]) && view' == Some([Attachment(node, "", Attaching)]) && (failed || answer == None)
       case UnpublishVolume(_, node) =>
         if Holds(view, node) then view' == Some([view.value[0].(status := Detaching)]) && (failed || answer == None)
         else view' == view && (failed || answer == Some(Unpublished))
       case _ => false
  }

  ghost predicate Calls(s: State, s': State) {
    && s.running.Some? && !s.running.value.called
    && s'.running.Some? && s'.running.value == s.running.value.(called := true, answer := s'.running.value.answer)
    && Effect(s.running.value.req, s.view, s'.view, s'.running.value.answer)
  }

  // A section that has polled long enough settles on its response.
  predicate Decides(s: State, s': State) {
    && s.running.Some? && s.running.value.called && s.running.value.answer.None?
    && s'.running.Some? && s'.running.value == s.running.value.(answer := s'.running.value.answer)
    && s'.running.value.answer.Some? && Justified(s.running.value.req, s.view, s'.running.value.answer.value)
    && s'.view == s.view
  }

  // What a response says of the disk at the moment its section ends.
  predicate Justified(req: Request, view: View, response: Response) {
    match response
    case Deleted => req.DeleteVolume? && view == None
    case Published(devicePath) =>
      req.PublishVolume? && devicePath != "" && view == Some([Attachment(req.node, devicePath, Attached)])
    case Unpublished =>
      && req.UnpublishVolume?
      && (view.Some? ==> forall a :: a in view.value && a.node == req.node ==> a.status == Detached)
    case Error(_) => true
    case _ => false
  }

  predicate Ends(s: State, s': State) {
    && s.running.Some? && s.running.value.called && s.running.value.answer.Some?
    && s'.running.None? && s'.view == s.view
    && Justified(s.running.value.req, s.view, s.running.value.answer.value)
  }

  // The cloud completes an attach or a detach, or drops an attach.
  ghost predicate Completes(s: State, s': State) {
    && s'.running == s.running
    && s.view.Some? && |s.view.value| == 1
    && var a := s.view.value[0];
      || (a.status == Attaching
          && exists devicePath :: s'.view == Some([a.(status := Attached, devicePath := devicePath)]))
      || (a.status == Attaching && s'.view == Some([]))
      || (a.status == Detaching && s'.view == Some([a.(status := Detached)]))
      || ((a.status == Detaching || a.status == Detached) && s'.view == Some([]))
  }

  // The disk is created, while no section for it is in progress.
  predicate IsBorn(s: State, s': State) {
    s.view == None && s'.view == Some([]) && s.running.None? && s'.running.None?
  }

  // The driver restarts and the section is cut short.
  predicate IsCut(s: State, s': State) {
    s'.view == s.view && s'.running.None?
  }

  ghost predicate Next(s: State, s': State) {
    Begins(s, s') || Calls(s, s') || Decides(s, s') || Ends(s, s') || Completes(s, s') || IsBorn(s, s')
  }

  // A serial run, in which the driver may restart only at the given moments.
  ghost predicate IsSerialRun(ss: seq<State>, restarts: set<nat>) {
    && ss != [] && ss[0].running.None?
    && forall i: nat :: i < |ss| - 1 ==>
      ss[i + 1] == ss[i] || Next(ss[i], ss[i + 1]) || (i in restarts && IsCut(ss[i], ss[i + 1]))
  }

  // In a serial run two sections never overlap: between two different ones there is a
  // moment with none.
  lemma {:induction false} SectionsAreDisjoint(ss: seq<State>, restarts: set<nat>, i: nat, j: nat)
    requires IsSerialRun(ss, restarts) && i <= j < |ss|
    requires ss[i].running.Some? && ss[j].running.Some? && ss[i].running.value.p != ss[j].running.value.p
    ensures exists k :: i < k < j && ss[k].running.None?
    decreases j - i
  {
    if ss[i + 1].running.Some? {
      SectionsAreDisjoint(ss, restarts, i + 1, j);
    }
  }

  // ---------- the view of one disk ----------

  function ViewOf(c: Cloud, v: string): View {
    if v in c.disks then Some(c.disks[v].attachments) else None
  }

  predicate Serves(w: World, p: nat, v: string) {
    Owns(w, p, v) && !w.handlers[p].req.CreateVolume?
  }

  predicate Called(pc: PC) {
    pc != Delete && pc != Attach && pc != Detach
  }

  function AnswerOf(pc: PC): Option<Response> {
    if pc.Release? then Some(pc.response) else None
  }

  function RunningOf(p: nat, h: Handler): Running {
    Running(p, h.req, Called(h.pc), AnswerOf(h.pc))
  }

  ghost function Project(w: World, v: string): State {
    State(ViewOf(w.cloud, v),
      if exists p :: Serves(w, p, v) then var p :| Serves(w, p, v); Some(RunningOf(p, w.handlers[p])) else None)
  }

  lemma ProjectServed(w: World, p: nat, v: string)
    requires LockInv(w) && Serves(w, p, v)
    ensures Project(w, v).running == Some(RunningOf(p, w.handlers[p]))
  {
  }

  // A handler that neither enters nor leaves its section, nor calls, is not noticed.
  lemma SameRunning(w: World, w': World, v: string)
    requires LockInv(w) && LockInv(w')
    requires forall p :: Serves(w, p, v) <==> Serves(w', p, v)
    requires forall p :: Serves(w, p, v) && Serves(w', p, v) ==>
      RunningOf(p, w'.handlers[p]) == RunningOf(p, w.handlers[p])
    ensures Project(w', v).running == Project(w, v).running
  {
  }

  ghost predicate Matches(w: World, w': World, v: string) {
    Project(w', v) == Project(w, v) || Next(Project(w, v), Project(w', v))
  }

  // ---------- every step is a serial step or unnoticed ----------

  lemma AcquireMatches(w: World, p: nat, v: string)
    requires Inv(w) && Enabled(w, Move(p, Served)) && w.handlers[p].pc == Acquire
    ensures Matches(w, MoveHandler(w, p, Served), v)
  {
    var h := w.handlers[p];
    var w' := MoveHandler(w, p, Served);
    assert HandlerInv(w.cloud, h);
    AcquireKeepsLocks(w, p);
    if h.req.Key() == v && v !in w.locks && !h.req.CreateVolume? {
      SectionBegins(w, p, v);
    } else {
      assert forall q :: Serves(w, q, v) <==> Serves(w', q, v);
      SameRunning(w, w', v);
    }
  }

  lemma SectionBegins(w: World, p: nat, v: string)
    requires LockInv(w) && p in w.handlers && w.handlers[p].pc == Acquire && v !in w.locks
    requires IsSectional(w.handlers[p].req) && w.handlers[p].req.Key() == v
    requires LockInv(MoveHandler(w, p, Served))
    ensures Begins(Project(w, v), Project(MoveHandler(w, p, Served), v))
  {
    var w' := MoveHandler(w, p, Served);
    assert Serves(w', p, v);
    ProjectServed(w', p, v);
    assert forall q :: !Serves(w, q, v);
  }

  lemma ReleaseMatches(w: World, p: nat, v: string)
    requires Inv(w) && Enabled(w, Move(p, Served)) && w.handlers[p].pc.Release?
    ensures Matches(w, MoveHandler(w, p, Served), v)
  {
    var h := w.handlers[p];
    var w' := MoveHandler(w, p, Served);
    assert HandlerInv(w.cloud, h);
    ReleaseKeepsLocks(w, p);
    if Serves(w, p, v) {
      ProjectServed(w, p, v);
      assert forall q :: Serves(w', q, v) ==> Owns(w, q, v);
      assert Project(w', v).running.None?;
      AchievedIsJustified(w.cloud, h.req, h.pc.response);
    } else {
      assert forall q :: Serves(w, q, v) <==> Serves(w', q, v);
      SameRunning(w, w', v);
    }
  }

  // The request of a critical section has one of the effects the serial system allows,
  // and the answer that goes with it.
  lemma CallEffect(c: Cloud, req: Request, pc: PC, answer: Answer)
    requires CloudInv(c) && HandlerInv(c, Handler(req, pc)) && Fits(c, req, pc, answer)
    requires pc == Delete || pc == Attach || pc == Detach
    ensures var (c', pc') := OwnStep(c, req, pc, answer);
      Called(pc') && Effect(req, ViewOf(c, req.Key()), ViewOf(c', req.Key()), AnswerOf(pc'))
  {
    var v := req.volume;
    if pc == Detach && v in c.disks {
      OneAttachment(c.disks[v], req.node);
    }
  }

  lemma OneAttachment(disk: Disk, node: string)
    requires DiskInv(disk)
    ensures AttachedTo(disk, node) <==> Holds(Some(disk.attachments), node)
    ensures AttachedTo(disk, node)
      ==> WithDetaching(disk.attachments, node) == [disk.attachments[0].(status := Detaching)]
  {
    if disk.attachments != [] {
      assert disk.attachments[0] in disk.attachments;
    }
  }

  // Between its request and its release a section only looks, and what it settles on is
  // true of the disk.
  lemma PollEffect(c: Cloud, req: Request, pc: PC, answer: Answer)
    requires CloudInv(c) && HandlerInv(c, Handler(req, pc)) && Fits(c, req, pc, answer)
    requires InSection(Handler(req, pc)) && !req.CreateVolume? && Called(pc) && !pc.Release?
    ensures var (c', pc') := OwnStep(c, req, pc, answer);
      c' == c && Called(pc') && (pc'.Release? ==> Justified(req, ViewOf(c, req.Key()), pc'.response))
  {
    SectionStepInv(c, req, pc, answer);
    var pc' := OwnStep(c, req, pc, answer).1;
    if pc'.Release? {
      AchievedIsJustified(c, req, pc'.response);
    }
  }

  lemma AchievedIsJustified(c: Cloud, req: Request, response: Response)
    requires !req.CreateVolume? && !req.ExpandVolume? && ResponseInv(req, response) && Achieved(c, req, response)
    ensures Justified(req, ViewOf(c, req.Key()), response)
  {
  }

  lemma OwnMoveMatches(w: World, p: nat, answer: Answer, v: string)
    requires Inv(w) && Enabled(w, Move(p, answer)) && Serves(w, p, v) && !w.handlers[p].pc.Release?
    ensures Matches(w, MoveHandler(w, p, answer), v)
  {
    var h := w.handlers[p];
    var w' := MoveHandler(w, p, answer);
    assert HandlerInv(w.cloud, h);
    OwnStepKeepsLocks(w, p, answer);
    OwnStepStaysInSection(w.cloud, h.req, h.pc, answer);
    assert Serves(w', p, v);
    ProjectServed(w, p, v);
    ProjectServed(w', p, v);
    if Called(h.pc) {
      PollEffect(w.cloud, h.req, h.pc, answer);
      PollMatches(Project(w, v), Project(w', v));
    } else {
      CallEffect(w.cloud, h.req, h.pc, answer);
      assert Calls(Project(w, v), Project(w', v));
    }
  }

  lemma PollMatches(s: State, s': State)
    requires s.running.Some? && s.running.value.called && s.running.value.answer.None? && s'.view == s.view
    requires s'.running.Some? && s'.running.value == s.running.value.(answer := s'.running.value.answer)
    requires s'.running.value.answer.Some? ==> Justified(s.running.value.req, s.view, s'.running.value.answer.value)
    ensures s' == s || Decides(s, s')
  {
  }

  // A move of a handler that has not locked v leaves v alone or creates it.
  lemma ForeignMoveMatches(w: World, p: nat, answer: Answer, v: string)
    requires Inv(w) && Enabled(w, Move(p, answer)) && !Serves(w, p, v)
    requires !w.handlers[p].pc.Acquire? && !w.handlers[p].pc.Release?
    ensures Matches(w, MoveHandler(w, p, answer), v)
  {
    var h := w.handlers[p];
    var w' := MoveHandler(w, p, answer);
    assert HandlerInv(w.cloud, h);
    OwnStepKeepsLocks(w, p, answer);
    OwnStepStaysInSection(w.cloud, h.req, h.pc, answer);
    assert forall q :: Serves(w, q, v) <==> Serves(w', q, v);
    SameRunning(w, w', v);
    if ViewOf(w'.cloud, v) != ViewOf(w.cloud, v) {
      ForeignBirth(w.cloud, h.req, h.pc, answer, v);
      NobodyServesUnseen(w, v);
      assert IsBorn(Project(w, v), Project(w', v));
    }
  }

  lemma ForeignBirth(c: Cloud, req: Request, pc: PC, answer: Answer, v: string)
    requires CloudInv(c) && HandlerInv(c, Handler(req, pc)) && Fits(c, req, pc, answer)
    requires !pc.Acquire? && !pc.Release?
    requires !(InSection(Handler(req, pc)) && !req.CreateVolume? && req.volume == v)
    requires ViewOf(OwnStep(c, req, pc, answer).0, v) != ViewOf(c, v)
    ensures v !in c.seen && ViewOf(c, v) == None && ViewOf(OwnStep(c, req, pc, answer).0, v) == Some([])
  {
  }

  lemma NobodyServesUnseen(w: World, v: string)
    requires Inv(w) && v !in w.cloud.seen
    ensures forall q :: !Serves(w, q, v)
  {
  }

  lemma CompletionMatches(w: World, step: Step, v: string)
    requires Inv(w) && Enabled(w, step) && IsCompletion(step)
    ensures Matches(w, Apply(w, step), v)
  {
    var w' := Apply(w, step);
    CompletionKeepsInv(w, step);
    SameRunning(w, w', v);
    if step.id == v && !step.DiskReady? {
      assert Completes(Project(w, v), Project(w', v));
    }
  }

  lemma StepMatches(w: World, step: Step, v: string)
    requires Inv(w) && Enabled(w, step) && step != Crash
    ensures Matches(w, Apply(w, step), v)
  {
    var w' := Apply(w, step);
    StepKeepsInv(w, step);
    if step.Move? {
      if w.handlers[step.p].pc.Acquire? {
        AcquireMatches(w, step.p, v);
      } else if w.handlers[step.p].pc.Release? {
        ReleaseMatches(w, step.p, v);
      } else if Serves(w, step.p, v) {
        OwnMoveMatches(w, step.p, step.answer, v);
      } else {
        ForeignMoveMatches(w, step.p, step.answer, v);
      }
    } else if IsCompletion(step) {
      CompletionMatches(w, step, v);
    } else {
      assert forall p :: Serves(w, p, v) <==> Serves(w', p, v);
      SameRunning(w, w', v);
    }
  }

  ghost function ProjectRun(ws: seq<World>, v: string): seq<State> {
    seq(|ws|, i requires 0 <= i < |ws| => Project(ws[i], v))
  }

  lemma FollowsMatches(w: World, w': World, v: string)
    requires Inv(w) && Follows(w, w')
    ensures Matches(w, w', v) || (w'.handlers == map[] && IsCut(Project(w, v), Project(w', v)))
  {
    var step :| Enabled(w, step) && w' == Apply(w, step);
    if step == Crash {
      assert forall p :: !Serves(w', p, v);
    } else {
      StepMatches(w, step, v);
    }
  }

  predicate Emptied(ws: seq<World>, i: nat) {
    i + 1 < |ws| && ws[i + 1].handlers == map[]
  }

  function Restarts(ws: seq<World>): set<nat> {
    set i: nat | i < |ws| && Emptied(ws, i)
  }

  // Every concurrent run, projected onto any disk, is a serial run; sections are cut
  // short only where the driver has lost all its handlers.
  lemma ConcurrentRunsAreSerial(ws: seq<World>, v: string)
    requires IsRun(ws) && Init(ws[0])
    ensures IsSerialRun(ProjectRun(ws, v), Restarts(ws))
  {
    var ss := ProjectRun(ws, v);
    forall i: nat | i < |ss| - 1
      ensures ss[i + 1] == ss[i] || Next(ss[i], ss[i + 1]) || (ws[i + 1].handlers == map[] && IsCut(ss[i], ss[i + 1]))
    {
      RunKeepsInv(ws, i);
      assert Linked(ws, i);
      FollowsMatches(ws[i], ws[i + 1], v);
    }
    assert forall i: nat :: i < |ws| - 1 && ws[i + 1].handlers == map[] ==> Emptied(ws, i);
    assert forall p :: !Serves(ws[0], p, v);
  }

  // An expand, which takes no lock, never appears in this history at all: it changes
  // no disk's existence, attachments, tags or zone.
  lemma ExpandChangesOnlySizeAndStatus(c: Cloud, req: Request, pc: PC, answer: Answer)
    requires req.ExpandVolume? && Fits(c, req, pc, answer)
    ensures var c' := OwnStep(c, req, pc, answer).0;
      && c'.disks.Keys == c.disks.Keys && c'.seen == c.seen
      && forall id :: id in c.disks ==>
        c'.disks[id] == c.disks[id].(sizeGiB := c'.disks[id].sizeGiB, status := c'.disks[id].status)
  {
  }
}
