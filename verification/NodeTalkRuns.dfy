/** What the calls of the node service say and are told in concurrent runs, and reply. */
module NodeTalkRuns {
  import opened Wrappers
  import opened Mounts
  import opened NodeSteps
  import opened NodeSystem
  import opened NodeTalks

  // The steps that led from each state of a run to the next.
  ghost predicate NodeTraced(x: Surroundings, l: Layout, ws: seq<NodeWorld>, steps: seq<NodeStep>) {
    |ws| == |steps| + 1 && forall i :: 0 <= i < |steps| ==> Steps(x, l, ws[i], steps[i], ws[i + 1])
  }

  // What call p did in its last step, after all it did before.
  function TalkAfter(w: NodeWorld, step: NodeStep, p: nat, talk: seq<Deal>): seq<Deal> {
    match step
    case Arrive(q, _) => if q == p then [] else talk
    case Ask(q, told) =>
      if q == p && p in w.calls && Asks(w.calls[p].call, w.calls[p].pc).Some?
      then talk + [Asked(Asks(w.calls[p].call, w.calls[p].pc).value, told)] else talk
    case TryLock(q) =>
      if q == p && p in w.calls then talk + [Tried(w.calls[p].call.Volume() !in w.locks)] else talk
    case Unlock(q) => if q == p then talk + [Freed] else talk
    case _ => talk
  }

  function TalkOf(ws: seq<NodeWorld>, steps: seq<NodeStep>, p: nat): seq<Deal>
    requires |ws| == |steps| + 1
    decreases |steps|
  {
    if steps == [] then []
    else
      var n := |steps| - 1;
      TalkAfter(ws[n], steps[n], p, TalkOf(ws[..n + 1], steps[..n], p))
  }

  // All that the call in this world did leads where it stands.
  ghost predicate Leads(w: NodeWorld, p: nat, talk: seq<Deal>) {
    p in w.calls ==> Walk(w.calls[p].call, talk) == w.calls[p].pc
  }

  lemma StepWalks(x: Surroundings, l: Layout, w: NodeWorld, step: NodeStep, w': NodeWorld, p: nat, talk: seq<Deal>)
    requires Steps(x, l, w, step, w') && Leads(w, p, talk)
    ensures Leads(w', p, TalkAfter(w, step, p, talk))
  {
    match step
    case Ask(q, told) =>
      if q == p {
        var op := Asks(w.calls[p].call, w.calls[p].pc).value;
        SpecFits(x, w.os, op, told, w'.os);
        WalksOn(w.calls[p].call, talk, Asked(op, told));
      }
    case TryLock(q) =>
      if q == p {
        WalksOn(w.calls[p].call, talk, Tried(w.calls[p].call.Volume() !in w.locks));
      }
    case Unlock(q) =>
      if q == p {
        WalksOn(w.calls[p].call, talk, Freed);
      }
    case _ =>
  }

  // Where each call stands is where all that it did leads.
  lemma {:induction false} TalkLeads(x: Surroundings, l: Layout, ws: seq<NodeWorld>, steps: seq<NodeStep>, p: nat)
    requires NodeTraced(x, l, ws, steps) && ws[0].calls == map[]
    ensures Leads(ws[|ws| - 1], p, TalkOf(ws, steps, p))
    decreases |steps|
  {
    if steps != [] {
      var n := |steps| - 1;
      var talk := TalkOf(ws[..n + 1], steps[..n], p);
      TalkLeads(x, l, ws[..n + 1], steps[..n], p);
      assert Leads(ws[n], p, talk);
      assert Steps(x, l, ws[n], steps[n], ws[n + 1]);
      StepWalks(x, l, ws[n], steps[n], ws[n + 1], p, talk);
      assert TalkOf(ws, steps, p) == TalkAfter(ws[n], steps[n], p, talk);
    }
  }

  // In every concurrent run every call replies by what it was told.
  lemma EveryCallReplies(x: Surroundings, l: Layout, ws: seq<NodeWorld>, steps: seq<NodeStep>, p: nat, r: Reply)
    requires NodeTraced(x, l, ws, steps) && ws[0].calls == map[] && p in ws[|ws| - 1].calls
    requires ws[|ws| - 1].calls[p].pc == Unlocking(r) || ws[|ws| - 1].calls[p].pc == Replied(r)
    ensures Replies(ws[|ws| - 1].calls[p].call, TalkOf(ws, steps, p), r)
  {
    TalkLeads(x, l, ws, steps, p);
    EveryReply(ws[|ws| - 1].calls[p].call, TalkOf(ws, steps, p), r);
  }

  // The call of the Mounter was made, and told this, in the k-th step.
  ghost predicate Happened(x: Surroundings, ws: seq<NodeWorld>, steps: seq<NodeStep>, p: nat, deal: Deal, k: nat)
    requires deal.Asked?
  {
    k < |steps| && k + 1 < |ws| && steps[k] == Ask(p, deal.told) && Spec(x, ws[k].os, deal.op, deal.told, ws[k + 1].os)
  }

  // What a call was told was so when it was told.
  lemma {:induction false} WasTold(x: Surroundings, l: Layout, ws: seq<NodeWorld>, steps: seq<NodeStep>, p: nat,
                                   deal: Deal)
    returns (k: nat)
    requires NodeTraced(x, l, ws, steps) && deal.Asked? && deal in TalkOf(ws, steps, p)
    ensures Happened(x, ws, steps, p, deal, k)
    decreases |steps|
  {
    var n := |steps| - 1;
    var init := ws[..n + 1];
    if deal in TalkOf(init, steps[..n], p) {
      k := WasTold(x, l, init, steps[..n], p, deal);
    } else {
      k := n;
    }
  }

  predicate OfBlockDevice(path: string, cap: Option<Capability>, talk: seq<Deal>) {
    (cap.Some? && cap.value.access.BlockAccess?) || Asked(IsBlockDevice(path), Answer(true)) in talk
  }

  lemma ExpandShape(path: string, cap: Option<Capability>, talk: seq<Deal>) returns (device: string, refCount: nat)
    requires ExpandTalked(path, cap, talk)
    ensures OfBlockDevice(path, cap, talk) ==>
      forall deal :: deal in talk && deal.Asked? ==> !deal.op.Resize? && !deal.op.RescanStorageDevice?
    ensures !OfBlockDevice(path, cap, talk) ==>
      talk == ExpandTalk(path, cap, device, refCount) && Asked(GetDeviceName(path), Device(device, refCount)) in talk
  {
    device, refCount := "", 0;
    forall d, n
      ensures cap.None? ==> Asked(IsBlockDevice(path), Answer(true)) !in ExpandTalk(path, cap, d, n)
    {
    }
    if !OfBlockDevice(path, cap, talk) {
      device, refCount :| talk == ExpandTalk(path, cap, device, refCount);
      assert talk[if cap.None? then 2 else 1] == Asked(GetDeviceName(path), Device(device, refCount));
    }
  }

  lemma ExpandTalksWell(volume: string, path: string, cap: Option<Capability>, talk: seq<Deal>)
    requires Walk(Expand(volume, path, cap), talk) == Unlocking(Ok)
    ensures ExpandTalked(path, cap, talk)
  {
    EveryReply(Expand(volume, path, cap), talk, Ok);
    NotFreedYet(Expand(volume, path, cap), talk);
  }

  // An expand that replies Ok has grown the device that it found mounted on its path, after
  // rescanning it; or it was for a block device, and made neither call.
  lemma ExpandGrew(x: Surroundings, l: Layout, ws: seq<NodeWorld>, steps: seq<NodeStep>, p: nat, volume: string,
                   path: string, cap: Option<Capability>)
    requires NodeTraced(x, l, ws, steps) && ws[0].calls == map[] && p in ws[|ws| - 1].calls
    requires ws[|ws| - 1].calls[p] == InFlight(Expand(volume, path, cap), Unlocking(Ok))
    ensures var talk := TalkOf(ws, steps, p);
      if OfBlockDevice(path, cap, talk)
      then forall deal :: deal in talk && deal.Asked? ==> !deal.op.Resize? && !deal.op.RescanStorageDevice?
      else exists k: nat, refCount ::
        k < |steps| && talk == ExpandTalk(path, cap, DeviceAt(ws[k].os.table, path), refCount)
  {
    var talk := TalkOf(ws, steps, p);
    assert ExpandTalked(path, cap, talk) by {
      TalkLeads(x, l, ws, steps, p);
      ExpandTalksWell(volume, path, cap, talk);
    }
    var device, refCount := ExpandShape(path, cap, talk);
    if !OfBlockDevice(path, cap, talk) {
      var k := WasTold(x, l, ws, steps, p, Asked(GetDeviceName(path), Device(device, refCount)));
    }
  }
}
