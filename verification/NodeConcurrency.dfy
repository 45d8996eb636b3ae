/** What every concurrent run of the node service keeps, and what its calls come to. */
module NodeConcurrency {
  import opened Wrappers
  import opened Mounts
  import opened NodeSteps
  import opened NodeSystem
  import opened NodeRefinement
  import Controller

  // ---------- the invariant ----------

  ghost predicate NodeInv(x: Surroundings, l: Layout, w: NodeWorld)
    requires LayoutOk(l)
  {
    && OsInv(x, w.os) && LocksHeld(w)
    && Refines(l, AbstractOf(l, w.os.table), w.os.table)
    && forall p :: p in w.calls && InSection(w.calls[p].pc) ==> Knows(x, l, w.os.table, w.calls[p].call, w.calls[p].pc)
  }

  // The service starts idle, on a node whose driver paths show one abstract state.
  ghost predicate NodeInit(x: Surroundings, l: Layout, w: NodeWorld)
    requires LayoutOk(l)
  {
    w.calls == map[] && w.locks == {} && OsInv(x, w.os) && Refines(l, AbstractOf(l, w.os.table), w.os.table)
  }

  ghost predicate SameMounted(l: Layout, table: Table, table': Table, v: string) {
    forall path :: Belongs(l, path, v) ==> MountedAt(table', path) == MountedAt(table, path)
  }

  // What a call knows is about its volume's paths alone, ...
  lemma KnowsByPaths(x: Surroundings, l: Layout, table: Table, table': Table, call: Call, pc: PC)
    requires LayoutOk(l) && Knows(x, l, table, call, pc) && SameMounted(l, table, table', call.Volume())
    ensures Knows(x, l, table', call, pc)
  {
  }

  // ... and so is the volume's part of the abstract state.
  lemma PartByPaths(l: Layout, table: Table, table': Table, v: string)
    requires SameMounted(l, table, table', v)
    ensures Part(l, AbstractOf(l, table'), v) == Part(l, AbstractOf(l, table), v)
  {
    assert v in l.staging ==> Belongs(l, l.staging[v], v);
    forall t | t in l.owner && l.owner[t] == v
      ensures MountedAt(table', t) == MountedAt(table, t)
    {
      assert Belongs(l, t, v);
    }
  }

  // A change elsewhere than on the volume's paths.
  lemma ElsewhereIsSame(l: Layout, table: Table, table': Table, path: string, u: string, v: string)
    requires LayoutOk(l) && Elsewhere(table, table', path) && Belongs(l, path, u) && u != v
    ensures SameMounted(l, table, table', v)
  {
  }

  // ---------- steps ----------

  // A handler's step, seen from another volume.
  lemma AskElsewhere(x: Surroundings, l: Layout, s: Os, call: Call, pc: PC, told: Told, s': Os, v: string)
    requires LayoutOk(l) && Refines(l, AbstractOf(l, s.table), s.table)
    requires (InSection(pc) ==> Knows(x, l, s.table, call, pc))
    requires Asks(call, pc).Some? && Spec(x, s, Asks(call, pc).value, told, s')
    requires InSection(pc) ==> call.Volume() != v
    ensures SameMounted(l, s.table, s'.table, v)
  {
    if InSection(pc) {
      OtherPathsUntouched(x, s, call, pc, told, s');
      StepOnTable(x, s, call, pc, told, s');
      if s'.table != s.table {
        KnowsItsKind(x, l, s.table, call, pc);
        KnowsItsPath(x, l, s.table, call, pc);
        ElsewhereIsSame(l, s.table, s'.table, call.Target(), call.Volume(), v);
      }
    }
  }

  lemma AskKeepsLocks(x: Surroundings, l: Layout, w: NodeWorld, p: nat, told: Told, w': NodeWorld)
    requires LayoutOk(l) && NodeInv(x, l, w) && Steps(x, l, w, Ask(p, told), w')
    ensures LocksHeld(w')
  {
    var c := w.calls[p];
    if InSection(c.pc) {
      CallSees(x, l, w.os, c.call, c.pc, told, w'.os);
      KnowsItsKind(x, l, w'.os.table, c.call, w'.calls[p].pc);
    } else {
      ScanStaysOutside(c.call, c.pc, told);
    }
    assert forall q, v :: Holds(w', q, v) <==> Holds(w, q, v);
  }

  lemma ScanStaysOutside(call: Call, pc: PC, told: Told)
    requires Asks(call, pc).Some? && !InSection(pc)
    ensures !InSection(Next(call, pc, told))
  {
  }

  lemma AskKeepsTable(x: Surroundings, l: Layout, w: NodeWorld, p: nat, told: Told, w': NodeWorld)
    requires LayoutOk(l) && NodeInv(x, l, w) && Steps(x, l, w, Ask(p, told), w')
    ensures OsInv(x, w'.os) && Refines(l, AbstractOf(l, w'.os.table), w'.os.table)
  {
    var c := w.calls[p];
    SpecKeepsOs(x, w.os, Asks(c.call, c.pc).value, told, w'.os);
    if InSection(c.pc) {
      CallRefines(x, l, w.os, c.call, c.pc, told, w'.os);
      assert Refines(l, AbstractOf(l, w'.os.table), w'.os.table);
    } else {
      assert w'.os.table == w.os.table;
    }
  }

  lemma AskKeepsInv(x: Surroundings, l: Layout, w: NodeWorld, p: nat, told: Told, w': NodeWorld)
    requires LayoutOk(l) && NodeInv(x, l, w) && Steps(x, l, w, Ask(p, told), w')
    ensures NodeInv(x, l, w')
  {
    AskKeepsLocks(x, l, w, p, told, w');
    AskKeepsTable(x, l, w, p, told, w');
    forall q | q in w'.calls && InSection(w'.calls[q].pc)
      ensures Knows(x, l, w'.os.table, w'.calls[q].call, w'.calls[q].pc)
    {
      AskKeepsKnown(x, l, w, p, told, w', q);
    }
  }

  lemma AskKeepsKnown(x: Surroundings, l: Layout, w: NodeWorld, p: nat, told: Told, w': NodeWorld, q: nat)
    requires LayoutOk(l) && NodeInv(x, l, w) && Steps(x, l, w, Ask(p, told), w')
    requires q in w'.calls && InSection(w'.calls[q].pc)
    ensures Knows(x, l, w'.os.table, w'.calls[q].call, w'.calls[q].pc)
  {
    var c, d := w.calls[p], w.calls[q];
    if p == q {
      if InSection(c.pc) {
        CallSees(x, l, w.os, c.call, c.pc, told, w'.os);
      } else {
        ScanStaysOutside(c.call, c.pc, told);
      }
    } else {
      assert Holds(w, q, d.call.Volume());
      assert InSection(c.pc) ==> Holds(w, p, c.call.Volume());
      AskElsewhere(x, l, w.os, c.call, c.pc, told, w'.os, d.call.Volume());
      KnowsByPaths(x, l, w.os.table, w'.os.table, d.call, d.pc);
    }
  }

  // A call that takes its lock while it follows the protocol.
  lemma LockedKnows(x: Surroundings, l: Layout, table: Table, call: Call)
    requires LayoutOk(l) && Conforms(x, l, table, call)
    ensures Knows(x, l, table, call, AfterLock(call)) && InSection(AfterLock(call))
    ensures forall a :: Progress(call, AfterLock(call), a, a)
  {
  }

  lemma TakingKeepsLocks(w: NodeWorld, p: nat, w': NodeWorld)
    requires LocksHeld(w) && p in w.calls && w.calls[p].pc == Locking && w.calls[p].call.Volume() !in w.locks
    requires w'.locks == w.locks + {w.calls[p].call.Volume()}
    requires w'.calls == GoesTo(w, p, AfterLock(w.calls[p].call)) && InSection(AfterLock(w.calls[p].call))
    ensures LocksHeld(w')
  {
    var v := w.calls[p].call.Volume();
    assert Holds(w', p, v);
    assert forall q :: !Holds(w, q, v);
    assert forall q, u :: Holds(w', q, u) <==> Holds(w, q, u) || (q == p && u == v);
  }

  lemma TryLockKeepsInv(x: Surroundings, l: Layout, w: NodeWorld, p: nat, w': NodeWorld)
    requires LayoutOk(l) && NodeInv(x, l, w) && Steps(x, l, w, TryLock(p), w')
    ensures NodeInv(x, l, w')
  {
    var call := w.calls[p].call;
    if call.Volume() !in w.locks {
      LockedKnows(x, l, w.os.table, call);
      TakingKeepsLocks(w, p, w');
    } else {
      assert w'.locks == w.locks;
      assert forall q, u :: Holds(w', q, u) <==> Holds(w, q, u);
    }
  }

  lemma UnlockKeepsInv(x: Surroundings, l: Layout, w: NodeWorld, p: nat, w': NodeWorld)
    requires LayoutOk(l) && NodeInv(x, l, w) && Steps(x, l, w, Unlock(p), w')
    ensures NodeInv(x, l, w')
  {
    var v := w.calls[p].call.Volume();
    assert Holds(w, p, v);
    assert forall q, u :: Holds(w', q, u) <==> Holds(w, q, u) && u != v;
  }

  lemma SurpriseOnly(table: Table, table': Table, path: string, mounted: bool, device: string)
    requires SameDevices(MountsAt(table, path), MountsAt(table', path)) && Only(table, path, mounted, device)
    ensures Only(table', path, mounted, device) && MountedAt(table', path) == mounted
  {
  }

  // Mounts that go bad, or that are not the driver's, change nothing of this.
  lemma SurpriseRefines(l: Layout, table: Table, table': Table)
    requires LayoutOk(l) && Refines(l, AbstractOf(l, table), table)
    requires forall path :: DriverPath(l, path) ==> SameDevices(MountsAt(table, path), MountsAt(table', path))
    ensures Refines(l, AbstractOf(l, table'), table')
  {
    var a := AbstractOf(l, table);
    forall v | v in l.staging
      ensures Only(table', l.staging[v], v in a.staged, l.device[v])
    {
      assert DriverPath(l, l.staging[v]);
      SurpriseOnly(table, table', l.staging[v], v in a.staged, l.device[v]);
    }
    forall t | t in l.owner
      ensures Only(table', t, t in a.published, l.device[l.owner[t]])
    {
      assert DriverPath(l, t);
      SurpriseOnly(table, table', t, t in a.published, l.device[l.owner[t]]);
    }
    assert Refines(l, a, table');
    RefinesOnlyOne(l, a, table');
  }

  lemma SurpriseKeepsInv(x: Surroundings, l: Layout, w: NodeWorld, w': NodeWorld)
    requires LayoutOk(l) && NodeInv(x, l, w) && Steps(x, l, w, Surprise, w')
    ensures NodeInv(x, l, w')
  {
    assert forall q, u :: Holds(w', q, u) <==> Holds(w, q, u);
    SurpriseRefines(l, w.os.table, w'.os.table);
    forall q | q in w'.calls && InSection(w'.calls[q].pc)
      ensures Knows(x, l, w'.os.table, w'.calls[q].call, w'.calls[q].pc)
    {
      SurpriseIsSame(l, w.os.table, w'.os.table, w.calls[q].call.Volume());
      KnowsByPaths(x, l, w.os.table, w'.os.table, w.calls[q].call, w.calls[q].pc);
    }
  }

  lemma SurpriseIsSame(l: Layout, table: Table, table': Table, v: string)
    requires forall path :: DriverPath(l, path) ==> SameDevices(MountsAt(table, path), MountsAt(table', path))
    ensures SameMounted(l, table, table', v)
  {
    forall path | Belongs(l, path, v)
      ensures MountedAt(table', path) == MountedAt(table, path)
    {
      assert DriverPath(l, path);
    }
  }

  lemma StepKeepsNodeInv(x: Surroundings, l: Layout, w: NodeWorld, step: NodeStep, w': NodeWorld)
    requires LayoutOk(l) && NodeInv(x, l, w) && Steps(x, l, w, step, w')
    ensures NodeInv(x, l, w')
  {
    match step
    case Ask(p, told) => AskKeepsInv(x, l, w, p, told, w');
    case TryLock(p) => TryLockKeepsInv(x, l, w, p, w');
    case Unlock(p) => UnlockKeepsInv(x, l, w, p, w');
    case Surprise => SurpriseKeepsInv(x, l, w, w');
    case Arrive(p, call) =>
      StartsOutside(call);
      assert forall q, u :: Holds(w', q, u) <==> Holds(w, q, u);
    case Leave(p) => assert forall q, u :: Holds(w', q, u) <==> Holds(w, q, u);
    case Crash =>
  }

  lemma LinkKeepsInv(x: Surroundings, l: Layout, ws: seq<NodeWorld>, i: nat)
    requires LayoutOk(l) && IsNodeRun(x, l, ws) && i + 1 < |ws| && NodeInv(x, l, ws[i])
    ensures NodeInv(x, l, ws[i + 1])
  {
    assert NodeLinked(x, l, ws, i);
    var step :| Steps(x, l, ws[i], step, ws[i + 1]);
    StepKeepsNodeInv(x, l, ws[i], step, ws[i + 1]);
  }

  // The invariant holds in every state of every run.
  lemma {:induction false} NodeRunInv(x: Surroundings, l: Layout, ws: seq<NodeWorld>, i: nat)
    requires LayoutOk(l) && IsNodeRun(x, l, ws) && NodeInit(x, l, ws[0]) && i < |ws|
    ensures NodeInv(x, l, ws[i])
  {
    if i > 0 {
      NodeRunInv(x, l, ws, i - 1);
      LinkKeepsInv(x, l, ws, i - 1);
    }
  }

  // ---------- locks ----------

  // A call of the node service is answered Aborted exactly when another call holds its
  // volume; otherwise it becomes the holder, and there is never more than one.
  lemma NodeAbortedIff(x: Surroundings, l: Layout, w: NodeWorld, p: nat, w': NodeWorld)
    requires LayoutOk(l) && NodeInv(x, l, w) && Steps(x, l, w, TryLock(p), w')
    ensures w'.calls[p].pc == Replied(Fail(Controller.Aborted))
      <==> exists q :: q != p && Holds(w, q, w.calls[p].call.Volume())
    ensures w'.calls[p].pc != Replied(Fail(Controller.Aborted)) ==> Holds(w', p, w.calls[p].call.Volume())
    ensures forall q, r, v :: Holds(w', q, v) && Holds(w', r, v) ==> q == r
  {
    TryLockKeepsInv(x, l, w, p, w');
    if w.calls[p].call.Volume() !in w.locks {
      LockedKnows(x, l, w.os.table, w.calls[p].call);
    }
  }

  // Whoever holds a volume keeps it, and its lock, through every step of anyone else and
  // of its own, but for its release and a restart.
  lemma NodeOthersNeverRelease(x: Surroundings, l: Layout, w: NodeWorld, step: NodeStep, w': NodeWorld, q: nat,
                               v: string)
    requires LayoutOk(l) && NodeInv(x, l, w) && Steps(x, l, w, step, w') && Holds(w, q, v)
    requires step != Unlock(q) && !step.Crash?
    ensures Holds(w', q, v) && v in w'.locks
  {
    StepKeepsNodeInv(x, l, w, step, w');
    if step.Ask? && step.p == q {
      var c := w.calls[q];
      CallSees(x, l, w.os, c.call, c.pc, step.told, w'.os);
      KnowsItsKind(x, l, w'.os.table, c.call, w'.calls[q].pc);
    }
    assert Holds(w', q, v);
  }

  // When every call has replied, on whatever path, no lock is left behind.
  lemma NodeIdleMeansUnlocked(x: Surroundings, l: Layout, ws: seq<NodeWorld>, i: nat)
    requires LayoutOk(l) && IsNodeRun(x, l, ws) && NodeInit(x, l, ws[0]) && i < |ws|
    requires forall p :: p in ws[i].calls ==> ws[i].calls[p].pc.Replied?
    ensures ws[i].locks == {}
  {
    NodeRunInv(x, l, ws, i);
    assert forall p, v :: !Holds(ws[i], p, v);
  }

  // ---------- each call is one abstract step ----------

  ghost function PartAt(l: Layout, w: NodeWorld, v: string): Abstract {
    Part(l, AbstractOf(l, w.os.table), v)
  }

  // While a call holds its volume, nothing but its own steps changes the volume's part.
  lemma OthersLeavePart(x: Surroundings, l: Layout, w: NodeWorld, step: NodeStep, w': NodeWorld, p: nat, v: string)
    requires LayoutOk(l) && NodeInv(x, l, w) && Steps(x, l, w, step, w') && Holds(w, p, v) && Holds(w', p, v)
    requires !(step.Ask? && step.p == p)
    ensures PartAt(l, w', v) == PartAt(l, w, v) && w'.calls[p] == w.calls[p]
  {
    match step
    case Ask(q, told) =>
      var c := w.calls[q];
      assert InSection(c.pc) ==> Holds(w, q, c.call.Volume());
      AskElsewhere(x, l, w.os, c.call, c.pc, told, w'.os, v);
      PartByPaths(l, w.os.table, w'.os.table, v);
    case Surprise =>
      SurpriseIsSame(l, w.os.table, w'.os.table, v);
      PartByPaths(l, w.os.table, w'.os.table, v);
    case _ =>
  }

  lemma OwnStepProgresses(x: Surroundings, l: Layout, w: NodeWorld, p: nat, told: Told, w': NodeWorld, a: Abstract)
    requires LayoutOk(l) && NodeInv(x, l, w) && Steps(x, l, w, Ask(p, told), w') && InSection(w.calls[p].pc)
    requires Progress(w.calls[p].call, w.calls[p].pc, a, PartAt(l, w, w.calls[p].call.Volume()))
    ensures Progress(w.calls[p].call, w'.calls[p].pc, a, PartAt(l, w', w.calls[p].call.Volume()))
  {
    CallProgresses(x, l, w.os, w.calls[p].call, w.calls[p].pc, told, w'.os, a);
  }

  // The call holds its volume in all states after the i-th up to the j-th, and takes
  // the lock in between the i-th and the next.
  ghost predicate HoldsFrom(ws: seq<NodeWorld>, i: nat, j: nat, p: nat, call: Call) {
    && i < j < |ws| && p in ws[i].calls && ws[i].calls[p] == InFlight(call, Locking)
    && Holds(ws[j], p, call.Volume())
    && forall k {:trigger Holds(ws[k], p, call.Volume())} :: i < k <= j ==>
      Holds(ws[k], p, call.Volume()) && ws[k].calls[p].call == call
  }

  lemma HeldSoFar(ws: seq<NodeWorld>, i: nat, j: nat, p: nat, call: Call)
    requires HoldsFrom(ws, i, j, p, call)
    ensures Holds(ws[j], p, call.Volume()) && ws[j].calls[p].call == call
    ensures i + 1 < j ==> HoldsFrom(ws, i, j - 1, p, call)
  {
    assert Holds(ws[j], p, call.Volume());
    if i + 1 < j {
      assert Holds(ws[j - 1], p, call.Volume());
      assert HoldsFrom(ws, i, j - 1, p, call);
    }
  }

  // The account of what the call has done to its volume since this start is right.
  ghost predicate InProgress(l: Layout, start: NodeWorld, w: NodeWorld, p: nat, call: Call)
    requires p in w.calls
  {
    Progress(call, w.calls[p].pc, PartAt(l, start, call.Volume()), PartAt(l, w, call.Volume()))
  }

  lemma TakesLock(x: Surroundings, l: Layout, ws: seq<NodeWorld>, i: nat, p: nat, call: Call)
    requires LayoutOk(l) && IsNodeRun(x, l, ws) && i + 1 < |ws|
    requires p in ws[i].calls && ws[i].calls[p] == InFlight(call, Locking)
    requires Holds(ws[i + 1], p, call.Volume()) && ws[i + 1].calls[p].call == call
    ensures InProgress(l, ws[i], ws[i + 1], p, call)
  {
    assert NodeLinked(x, l, ws, i);
    var step :| Steps(x, l, ws[i], step, ws[i + 1]);
    assert step == TryLock(p);
    LockedKnows(x, l, ws[i].os.table, call);
  }

  lemma KeepsProgress(x: Surroundings, l: Layout, ws: seq<NodeWorld>, k: nat, p: nat, call: Call, start: NodeWorld)
    requires LayoutOk(l) && IsNodeRun(x, l, ws) && NodeInit(x, l, ws[0]) && k + 1 < |ws|
    requires Holds(ws[k], p, call.Volume()) && ws[k].calls[p].call == call
    requires Holds(ws[k + 1], p, call.Volume()) && InProgress(l, start, ws[k], p, call)
    ensures InProgress(l, start, ws[k + 1], p, call)
  {
    NodeRunInv(x, l, ws, k);
    assert NodeLinked(x, l, ws, k);
    var step :| Steps(x, l, ws[k], step, ws[k + 1]);
    if step.Ask? && step.p == p {
      OwnStepProgresses(x, l, ws[k], p, step.told, ws[k + 1], PartAt(l, start, call.Volume()));
    } else {
      OthersLeavePart(x, l, ws[k], step, ws[k + 1], p, call.Volume());
    }
  }

  // What a call does in one step more.
  ghost predicate GoesOn(l: Layout, ws: seq<NodeWorld>, start: NodeWorld, k: nat, p: nat, call: Call) {
    k + 1 < |ws| && p in ws[k].calls && p in ws[k + 1].calls
    && (InProgress(l, start, ws[k], p, call) ==> InProgress(l, start, ws[k + 1], p, call))
  }

  lemma {:induction false} Onwards(l: Layout, ws: seq<NodeWorld>, start: NodeWorld, i: nat, j: nat, p: nat, call: Call)
    requires i <= j < |ws| && p in ws[i].calls && InProgress(l, start, ws[i], p, call)
    requires forall k: nat :: i <= k < j ==> GoesOn(l, ws, start, k, p, call)
    ensures p in ws[j].calls && InProgress(l, start, ws[j], p, call)
  {
    if i < j {
      Onwards(l, ws, start, i, j - 1, p, call);
      assert GoesOn(l, ws, start, j - 1, p, call);
    }
  }

  lemma CallInProgress(x: Surroundings, l: Layout, ws: seq<NodeWorld>, i: nat, j: nat, p: nat, call: Call)
    requires LayoutOk(l) && IsNodeRun(x, l, ws) && NodeInit(x, l, ws[0]) && HoldsFrom(ws, i, j, p, call)
    ensures p in ws[j].calls && InProgress(l, ws[i], ws[j], p, call)
  {
    assert Holds(ws[i + 1], p, call.Volume());
    TakesLock(x, l, ws, i, p, call);
    forall k: nat | i + 1 <= k < j
      ensures GoesOn(l, ws, ws[i], k, p, call)
    {
      assert Holds(ws[k], p, call.Volume()) && Holds(ws[k + 1], p, call.Volume());
      if InProgress(l, ws[i], ws[k], p, call) {
        KeepsProgress(x, l, ws, k, p, call, ws[i]);
      }
    }
    Onwards(l, ws, ws[i], i + 1, j, p, call);
  }

  // In every state of every concurrent run the table on the driver's paths is exactly
  // one abstract state, ...
  lemma TableIsRefined(x: Surroundings, l: Layout, ws: seq<NodeWorld>, i: nat)
    requires LayoutOk(l) && IsNodeRun(x, l, ws) && NodeInit(x, l, ws[0]) && i < |ws|
    ensures Refines(l, AbstractOf(l, ws[i].os.table), ws[i].os.table)
    ensures forall a :: Refines(l, a, ws[i].os.table) ==> a == AbstractOf(l, ws[i].os.table)
  {
    NodeRunInv(x, l, ws, i);
    forall a | Refines(l, a, ws[i].os.table)
      ensures a == AbstractOf(l, ws[i].os.table)
    {
      RefinesOnlyOne(l, a, ws[i].os.table);
    }
  }

  // ... and whatever the calls for other volumes do meanwhile, a call does to its
  // volume's part, from its lock to the release, what one step of the abstract service
  // with the same call and reply does.
  lemma NodeRefinesAbstract(x: Surroundings, l: Layout, ws: seq<NodeWorld>, i: nat, j: nat, p: nat, call: Call,
                            r: Reply)
    requires LayoutOk(l) && IsNodeRun(x, l, ws) && NodeInit(x, l, ws[0])
    requires HoldsFrom(ws, i, j, p, call) && ws[j].calls[p].pc == Unlocking(r)
    ensures AbstractStep(PartAt(l, ws[i], call.Volume()), call, r, PartAt(l, ws[j], call.Volume()))
  {
    CallInProgress(x, l, ws, i, j, p, call);
  }
}
