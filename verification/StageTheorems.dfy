/**
  When a stage checks the size of the file system, and grows it.  It does so only after it
  has mounted the device itself, so a stage that follows one that mounted and was then
  given up, or died with the service, never does.
 */
module StageTheorems {
  import opened Wrappers
  import opened Mounts
  import opened NodeSteps
  import opened NodeSystem
  import opened NodeRefinement
  import opened NodeConcurrency
  import opened NodeTheorems
  import opened NodeTalks
  import opened NodeTalkRuns

  // The call is about to ask whether the file system is smaller than its device.
  predicate AtSizeCheck(w: NodeWorld, p: nat) {
    p in w.calls && w.calls[p].pc.CheckingSize?
  }

  // The call comes to its size check after the i-th state, and no later than the j-th.
  ghost predicate ChecksSize(ws: seq<NodeWorld>, i: nat, j: nat, p: nat)
    requires j < |ws|
  {
    exists k {:trigger AtSizeCheck(ws[k], p)} :: i < k <= j && AtSizeCheck(ws[k], p)
  }

  // A stage comes to its size check by the very step that mounts.
  lemma OwnStepChecks(x: Surroundings, l: Layout, s: Os, req: StageRequest, pc: PC, told: Told, s': Os)
    requires LayoutOk(l) && Refines(l, AbstractOf(l, s.table), s.table) && KnowsStage(x, l, s.table, req, pc)
    requires Asks(Stage(req), pc).Some? && Spec(x, s, Asks(Stage(req), pc).value, told, s')
    ensures Next(Stage(req), pc, told).CheckingSize?
      <==> !MountedAt(s.table, req.target) && MountedAt(s'.table, req.target)
    ensures MountedAt(s.table, req.target) ==> MountedAt(s'.table, req.target)
  {
    MountedAfter(x, l, s, Stage(req), pc, told, s');
    if pc.Formatting? {
      assert told == Done || told.Failed?;
    }
  }

  // Whether the stage's path is mounted, by its volume's part.
  lemma StagePathShows(x: Surroundings, l: Layout, w: NodeWorld, p: nat, req: StageRequest)
    requires LayoutOk(l) && NodeInv(x, l, w) && Holds(w, p, req.volume) && w.calls[p].call == Stage(req)
    ensures req.volume in l.staging && req.target == l.staging[req.volume]
    ensures MountedAt(w.os.table, req.target) <==> req.volume in PartAt(l, w, req.volume).staged
  {
    assert KnowsStage(x, l, w.os.table, req, w.calls[p].pc);
    PartShows(l, w.os.table, req.target, req.volume);
  }

  lemma StageStep(x: Surroundings, l: Layout, ws: seq<NodeWorld>, k: nat, p: nat, req: StageRequest)
    requires LayoutOk(l) && IsNodeRun(x, l, ws) && NodeInit(x, l, ws[0]) && k + 1 < |ws|
    requires Holds(ws[k], p, req.volume) && Holds(ws[k + 1], p, req.volume) && ws[k].calls[p].call == Stage(req)
    ensures MountedAt(ws[k].os.table, req.target) ==> MountedAt(ws[k + 1].os.table, req.target)
    ensures !MountedAt(ws[k].os.table, req.target) && MountedAt(ws[k + 1].os.table, req.target)
      ==> AtSizeCheck(ws[k + 1], p)
    ensures AtSizeCheck(ws[k + 1], p) ==> MountedAt(ws[k + 1].os.table, req.target)
    ensures AtSizeCheck(ws[k + 1], p) && MountedAt(ws[k].os.table, req.target) ==> AtSizeCheck(ws[k], p)
  {
    var w, w' := ws[k], ws[k + 1];
    NodeRunInv(x, l, ws, k);
    NodeRunInv(x, l, ws, k + 1);
    assert NodeLinked(x, l, ws, k);
    var step :| Steps(x, l, w, step, w');
    if step.Ask? && step.p == p {
      OwnStepChecks(x, l, w.os, req, w.calls[p].pc, step.told, w'.os);
    } else {
      OthersLeavePart(x, l, w, step, w', p, req.volume);
      StagePathShows(x, l, w, p, req);
      StagePathShows(x, l, w', p, req);
      assert KnowsStage(x, l, w.os.table, req, w.calls[p].pc);
    }
  }

  lemma TakingLockMountsNothing(x: Surroundings, l: Layout, ws: seq<NodeWorld>, i: nat, p: nat, req: StageRequest)
    requires LayoutOk(l) && IsNodeRun(x, l, ws) && i + 1 < |ws|
    requires p in ws[i].calls && ws[i].calls[p] == InFlight(Stage(req), Locking)
    requires Holds(ws[i + 1], p, req.volume)
    ensures ws[i + 1].os == ws[i].os && !AtSizeCheck(ws[i + 1], p)
  {
    assert NodeLinked(x, l, ws, i);
    var step :| Steps(x, l, ws[i], step, ws[i + 1]);
    assert step == TryLock(p);
  }

  // Since it took its lock a stage has come to its size check exactly when its path has
  // got mounted since, whatever other calls do meanwhile; and it replies Ok only when it
  // is mounted.  (It grows nothing that it has not checked: only the check leads there.)
  lemma StageChecksIff(x: Surroundings, l: Layout, ws: seq<NodeWorld>, i: nat, j: nat, p: nat, req: StageRequest)
    requires LayoutOk(l) && IsNodeRun(x, l, ws) && NodeInit(x, l, ws[0]) && HoldsFrom(ws, i, j, p, Stage(req))
    ensures ChecksSize(ws, i, j, p)
      <==> !MountedAt(ws[i].os.table, req.target) && MountedAt(ws[j].os.table, req.target)
    ensures ws[j].calls[p].pc == Unlocking(Ok) ==> MountedAt(ws[j].os.table, req.target)
  {
    ChecksSoFar(x, l, ws, i, j, p, req);
    NodeRunInv(x, l, ws, j);
    assert KnowsStage(x, l, ws[j].os.table, req, ws[j].calls[p].pc) by {
      assert Holds(ws[j], p, req.volume);
    }
  }

  lemma {:induction false} ChecksSoFar(x: Surroundings, l: Layout, ws: seq<NodeWorld>, i: nat, j: nat, p: nat,
                                       req: StageRequest)
    requires LayoutOk(l) && IsNodeRun(x, l, ws) && NodeInit(x, l, ws[0]) && HoldsFrom(ws, i, j, p, Stage(req))
    ensures ChecksSize(ws, i, j, p)
      <==> !MountedAt(ws[i].os.table, req.target) && MountedAt(ws[j].os.table, req.target)
    ensures MountedAt(ws[i].os.table, req.target) ==> MountedAt(ws[j].os.table, req.target)
    decreases j
  {
    HeldSoFar(ws, i, j, p, Stage(req));
    if j == i + 1 {
      TakingLockMountsNothing(x, l, ws, i, p, req);
    } else {
      HeldSoFar(ws, i, j - 1, p, Stage(req));
      ChecksSoFar(x, l, ws, i, j - 1, p, req);
      StageStep(x, l, ws, j - 1, p, req);
      ChecksFurther(ws, i, j, p);
    }
  }

  lemma ChecksFurther(ws: seq<NodeWorld>, i: nat, j: nat, p: nat)
    requires i + 1 < j < |ws|
    ensures ChecksSize(ws, i, j, p) <==> ChecksSize(ws, i, j - 1, p) || AtSizeCheck(ws[j], p)
    ensures AtSizeCheck(ws[j - 1], p) ==> ChecksSize(ws, i, j - 1, p)
  {
  }

  // A stage that starts on an unmounted path and comes as far as the j-th state, where it
  // has failed or is cut off by a restart; and a later one that replies Ok, the path being
  // mounted, or not, as the first left it.  Exactly one of the two comes to its size check.
  lemma RetriedStageChecksIff(x: Surroundings, l: Layout, ws: seq<NodeWorld>, i: nat, j: nat, p: nat,
                              i': nat, j': nat, q: nat, req: StageRequest)
    requires LayoutOk(l) && IsNodeRun(x, l, ws) && NodeInit(x, l, ws[0])
    requires HoldsFrom(ws, i, j, p, Stage(req)) && HoldsFrom(ws, i', j', q, Stage(req)) && j < i'
    requires !MountedAt(ws[i].os.table, req.target) && ws[j'].calls[q].pc == Unlocking(Ok)
    requires MountedAt(ws[i'].os.table, req.target) <==> MountedAt(ws[j].os.table, req.target)
    ensures ChecksSize(ws, i', j', q) <==> !ChecksSize(ws, i, j, p)
  {
    StageChecksIff(x, l, ws, i, j, p, req);
    StageChecksIff(x, l, ws, i', j', q, req);
  }

  // ---------- what becomes of the file system ----------

  // The call has formatted and mounted.
  predicate HasMounted(talk: seq<Deal>) {
    exists deal :: deal in talk && deal.Asked? && deal.op.FormatAndMount? && deal.told == Done
  }

  lemma RunOf(x: Surroundings, l: Layout, ws: seq<NodeWorld>, steps: seq<NodeStep>)
    requires NodeTraced(x, l, ws, steps)
    ensures IsNodeRun(x, l, ws)
  {
    forall i: nat | i + 1 < |ws|
      ensures NodeLinked(x, l, ws, i)
    {
      assert Steps(x, l, ws[i], steps[i], ws[i + 1]);
    }
  }

  // What the stage had done by the j-th state.
  function TalkBy(ws: seq<NodeWorld>, steps: seq<NodeStep>, j: nat, p: nat): seq<Deal>
    requires |ws| == |steps| + 1 && j <= |steps|
  {
    TalkOf(ws[..j + 1], steps[..j], p)
  }

  lemma TalkByNext(ws: seq<NodeWorld>, steps: seq<NodeStep>, j: nat, p: nat)
    requires |ws| == |steps| + 1 && j < |steps|
    ensures TalkBy(ws, steps, j + 1, p) == TalkAfter(ws[j], steps[j], p, TalkBy(ws, steps, j, p))
  {
    assert ws[..j + 2][..j + 1] == ws[..j + 1] && steps[..j + 1][..j] == steps[..j];
  }

  // The step that mounts is the one that leads to the size check.
  lemma MountStep(x: Surroundings, l: Layout, w: NodeWorld, step: NodeStep, w': NodeWorld, p: nat, req: StageRequest,
                  talk: seq<Deal>)
    requires Steps(x, l, w, step, w') && Holds(w, p, req.volume) && Holds(w', p, req.volume)
    requires w.calls[p].call == Stage(req) && w'.calls[p].call == Stage(req)
    ensures HasMounted(TalkAfter(w, step, p, talk))
      <==> HasMounted(talk) || (AtSizeCheck(w', p) && !AtSizeCheck(w, p))
  {
    var talk' := TalkAfter(w, step, p, talk);
    if talk' != talk {
      var deal := talk'[|talk|];
      assert forall d :: d in talk' <==> d in talk || d == deal;
    }
  }

  lemma NotMountedAtLock(x: Surroundings, l: Layout, ws: seq<NodeWorld>, steps: seq<NodeStep>, i: nat, p: nat,
                         req: StageRequest)
    requires LayoutOk(l) && NodeTraced(x, l, ws, steps) && NodeInit(x, l, ws[0]) && i < |steps|
    requires p in ws[i].calls && ws[i].calls[p] == InFlight(Stage(req), Locking)
    requires Holds(ws[i + 1], p, req.volume)
    ensures !HasMounted(TalkBy(ws, steps, i + 1, p)) && !AtSizeCheck(ws[i + 1], p)
  {
    TalkByNext(ws, steps, i, p);
    TalkLeads(x, l, ws[..i + 1], steps[..i], p);
    WalkStory(Stage(req), TalkBy(ws, steps, i, p));
    assert Steps(x, l, ws[i], steps[i], ws[i + 1]);
    assert TalkBy(ws, steps, i, p) == [Asked(ScanStorageDevices, Done)];
    assert TalkBy(ws, steps, i + 1, p) == [Asked(ScanStorageDevices, Done), Tried(true)];
  }

  // A stage has mounted exactly when it has come to its size check.
  lemma {:induction false} MountedIffChecks(x: Surroundings, l: Layout, ws: seq<NodeWorld>, steps: seq<NodeStep>,
                                            i: nat, j: nat, p: nat, req: StageRequest)
    requires LayoutOk(l) && NodeTraced(x, l, ws, steps) && NodeInit(x, l, ws[0]) && HoldsFrom(ws, i, j, p, Stage(req))
    ensures HasMounted(TalkBy(ws, steps, j, p)) <==> ChecksSize(ws, i, j, p)
    decreases j
  {
    HeldSoFar(ws, i, j, p, Stage(req));
    if j == i + 1 {
      NotMountedAtLock(x, l, ws, steps, i, p, req);
    } else {
      HeldSoFar(ws, i, j - 1, p, Stage(req));
      MountedIffChecks(x, l, ws, steps, i, j - 1, p, req);
      TalkByNext(ws, steps, j - 1, p);
      assert Steps(x, l, ws[j - 1], steps[j - 1], ws[j]);
      MountStep(x, l, ws[j - 1], steps[j - 1], ws[j], p, req, TalkBy(ws, steps, j - 1, p));
      ChecksFurther(ws, i, j, p);
    }
  }

  // A stage that found its path unmounted and replies Ok has formatted and mounted its
  // device, and then asked whether it needs growing: it was told no and grew nothing, or
  // told yes and has grown that device.
  lemma StageFitsFileSystem(x: Surroundings, l: Layout, ws: seq<NodeWorld>, steps: seq<NodeStep>, i: nat, j: nat,
                            p: nat, req: StageRequest)
    returns (device: string, seen: PathSeen, need: bool)
    requires LayoutOk(l) && NodeTraced(x, l, ws, steps) && NodeInit(x, l, ws[0]) && HoldsFrom(ws, i, j, p, Stage(req))
    requires ws[j].calls[p].pc == Unlocking(Ok) && !MountedAt(ws[i].os.table, req.target)
    ensures req.volume in l.device && device == l.device[req.volume] && seen.name != device
    ensures TalkBy(ws, steps, j, p) == StageLooked(req, device, seen)
      + [Asked(FormatAndMount(device, req.target, FsName(StageMount(req))), Done),
         Asked(NeedResize(device, req.target), Answer(need))]
      + if need then [Asked(Resize(device, req.target), Done)] else []
  {
    var talk := TalkBy(ws, steps, j, p);
    assert HasMounted(talk) by {
      RunOf(x, l, ws, steps);
      StageChecksIff(x, l, ws, i, j, p, req);
      MountedIffChecks(x, l, ws, steps, i, j, p, req);
    }
    StageSpoke(x, l, ws, steps, j, p, req);
    device, seen, need :| talk == StageTalk(req, device, seen, need);
    MountedInTalk(req, device, seen, need);
    OwnDeviceFound(x, l, ws, steps, j, p, req, device);
  }

  lemma StageSpoke(x: Surroundings, l: Layout, ws: seq<NodeWorld>, steps: seq<NodeStep>, j: nat, p: nat,
                   req: StageRequest)
    requires LayoutOk(l) && NodeTraced(x, l, ws, steps) && NodeInit(x, l, ws[0]) && j < |ws|
    requires Holds(ws[j], p, req.volume) && ws[j].calls[p] == InFlight(Stage(req), Unlocking(Ok))
    ensures Conforms(x, l, ws[j].os.table, Stage(req)) && req.devicePath.Some?
    ensures exists device, seen, need :: TalkBy(ws, steps, j, p) == StageTalk(req, device, seen, need)
  {
    var talk := TalkBy(ws, steps, j, p);
    assert Conforms(x, l, ws[j].os.table, Stage(req)) by {
      RunOf(x, l, ws, steps);
      NodeRunInv(x, l, ws, j);
      assert KnowsStage(x, l, ws[j].os.table, req, ws[j].calls[p].pc);
    }
    assert Walk(Stage(req), talk) == Unlocking(Ok) by {
      TalkLeads(x, l, ws[..j + 1], steps[..j], p);
    }
    StageTalksWell(req, talk);
  }

  lemma StageTalksWell(req: StageRequest, talk: seq<Deal>)
    requires Walk(Stage(req), talk) == Unlocking(Ok) && IsFileSystem(req.cap)
    ensures req.devicePath.Some? && exists device, seen, need :: talk == StageTalk(req, device, seen, need)
  {
    EveryReply(Stage(req), talk, Ok);
    NotFreedYet(Stage(req), talk);
    assert !Malformed(Stage(req));
    assert StageTalked(req, talk);
  }

  lemma MountedInTalk(req: StageRequest, device: string, seen: PathSeen, need: bool)
    requires HasMounted(StageTalk(req, device, seen, need))
    ensures seen.name != device
  {
  }

  lemma OwnDeviceFound(x: Surroundings, l: Layout, ws: seq<NodeWorld>, steps: seq<NodeStep>, j: nat, p: nat,
                       req: StageRequest, device: string)
    requires NodeTraced(x, l, ws, steps) && j < |ws| && Conforms(x, l, ws[j].os.table, Stage(req))
    requires exists seen, need :: TalkBy(ws, steps, j, p) == StageTalk(req, device, seen, need)
    requires req.devicePath.Some?
    ensures device == l.device[req.volume]
  {
    var seen, need :| TalkBy(ws, steps, j, p) == StageTalk(req, device, seen, need);
    var found := Asked(FindDevicePath(DevicePathName(Stage(req))), Found(device));
    assert StageTalk(req, device, seen, need)[2] == found;
    var k := WasTold(x, l, ws[..j + 1], steps[..j], p, found);
  }

  // ---------- a restart after the mount ----------

  lemma NodeRunFurther(x: Surroundings, l: Layout, ws: seq<NodeWorld>, step: NodeStep, w': NodeWorld)
    requires IsNodeRun(x, l, ws) && Steps(x, l, ws[|ws| - 1], step, w')
    ensures IsNodeRun(x, l, ws + [w'])
  {
    var longer := ws + [w'];
    forall i: nat | i + 1 < |longer|
      ensures NodeLinked(x, l, longer, i)
    {
      assert i + 1 < |ws| ==> NodeLinked(x, l, ws, i);
    }
  }

  // A stage of a volume of the layout that gets as far as trying the lock.
  predicate GoodStage(x: Surroundings, l: Layout, req: StageRequest) {
    && Start(Stage(req)) == Scanning && AfterScan(Stage(req)) == Locking
    && req.volume in l.staging && req.volume in l.device && req.target == l.staging[req.volume]
    && req.devicePath.Some? && req.devicePath.value in x.scsi
    && x.scsi[req.devicePath.value] == l.device[req.volume]
  }

  // The mount that a stage makes.
  function Staged(os: Os, device: string, target: string): Os {
    os.(table := os.table + [Formatted(device, target)])
  }

  // The stage mounts, and the service restarts before the size is checked.
  lemma DiesAfterMount(x: Surroundings, l: Layout, w: NodeWorld, p: nat, req: StageRequest) returns (ws: seq<NodeWorld>)
    requires GoodStage(x, l, req) && l.device[req.volume] in w.os.present && req.target in w.os.paths
    requires p in w.calls && w.calls[p] == InFlight(Stage(req), Formatting(l.device[req.volume]))
    ensures IsNodeRun(x, l, ws) && |ws| == 3 && ws[0] == w
    ensures AtSizeCheck(ws[1], p) && ws[1].os == ws[2].os
    ensures ws[2] == NodeWorld(Staged(w.os, l.device[req.volume], req.target), {}, map[])
  {
    var device := l.device[req.volume];
    var os := Staged(w.os, device, req.target);
    var mounted := NodeWorld(os, w.locks, GoesTo(w, p, CheckingSize(device)));
    assert Steps(x, l, w, Ask(p, Done), mounted);
    NodeRunFurther(x, l, [w], Ask(p, Done), mounted);
    var restarted := NodeWorld(os, {}, map[]);
    assert Steps(x, l, mounted, Crash, restarted);
    ws := [w, mounted, restarted];
    assert ws == [w] + [mounted] + [restarted];
    NodeRunFurther(x, l, [w] + [mounted], Crash, restarted);
  }

  predicate Extends(longer: seq<NodeWorld>, ws: seq<NodeWorld>) {
    |ws| <= |longer| && forall k :: 0 <= k < |ws| ==> longer[k] == ws[k]
  }

  function Alone(os: Os, locks: set<string>, p: nat, req: StageRequest, pc: PC): NodeWorld {
    NodeWorld(os, locks, map[p := InFlight(Stage(req), pc)])
  }

  // The one call under way is told this, and goes on there.
  lemma AloneAsks(x: Surroundings, l: Layout, ws: seq<NodeWorld>, os: Os, locks: set<string>, p: nat,
                  req: StageRequest, pc: PC, told: Told, os': Os)
    requires IsNodeRun(x, l, ws) && ws[|ws| - 1] == Alone(os, locks, p, req, pc)
    requires Asks(Stage(req), pc).Some? && Spec(x, os, Asks(Stage(req), pc).value, told, os')
    ensures IsNodeRun(x, l, ws + [Alone(os', locks, p, req, Next(Stage(req), pc, told))])
  {
    var w := ws[|ws| - 1];
    var w' := Alone(os', locks, p, req, Next(Stage(req), pc, told));
    assert GoesTo(w, p, Next(Stage(req), pc, told)) == w'.calls;
    assert Steps(x, l, w, Ask(p, told), w');
    NodeRunFurther(x, l, ws, Ask(p, told), w');
  }

  // A stage comes, scans and takes the lock, ...
  lemma ComesToLock(x: Surroundings, l: Layout, ws: seq<NodeWorld>, os: Os, p: nat, req: StageRequest)
    returns (longer: seq<NodeWorld>)
    requires IsNodeRun(x, l, ws) && ws[|ws| - 1] == NodeWorld(os, {}, map[]) && GoodStage(x, l, req)
    ensures IsNodeRun(x, l, longer) && |longer| == |ws| + 3 && Extends(longer, ws)
    ensures var scanned := os.(present := os.present + x.attached);
      && longer[|ws| + 1] == Alone(scanned, {}, p, req, Locking)
      && longer[|ws| + 2] == Alone(scanned, {req.volume}, p, req, FindingDevice)
  {
    var call := Stage(req);
    var scanned := os.(present := os.present + x.attached);
    var w := NodeWorld(os, {}, map[]);
    assert Steps(x, l, w, Arrive(p, call), Alone(os, {}, p, req, Scanning));
    NodeRunFurther(x, l, ws, Arrive(p, call), Alone(os, {}, p, req, Scanning));
    var arrived := ws + [Alone(os, {}, p, req, Scanning)];
    AloneAsks(x, l, arrived, os, {}, p, req, Scanning, Done, scanned);
    var locking, locked := Alone(scanned, {}, p, req, Locking), Alone(scanned, {req.volume}, p, req, FindingDevice);
    assert Conforms(x, l, scanned.table, call);
    assert GoesTo(locking, p, AfterTry(call, true)) == locked.calls;
    assert Steps(x, l, locking, TryLock(p), locked);
    NodeRunFurther(x, l, arrived + [locking], TryLock(p), locked);
    longer := arrived + [locking] + [locked];
  }

  // ... and on a path where its device is mounted it replies Ok at once.
  lemma FindsItStaged(x: Surroundings, l: Layout, ws: seq<NodeWorld>, os: Os, p: nat, req: StageRequest, device: string)
    returns (longer: seq<NodeWorld>)
    requires IsNodeRun(x, l, ws) && ws[|ws| - 1] == Alone(os, {req.volume}, p, req, FindingDevice)
    requires GoodStage(x, l, req) && l.device[req.volume] == device && DeviceAt(os.table, req.target) == device
    requires device in os.present && req.target in os.paths && !CorruptedAt(os.table, req.target)
    ensures IsNodeRun(x, l, longer) && |longer| == |ws| + 3 && Extends(longer, ws)
    ensures longer[|ws|] == Alone(os, {req.volume}, p, req, CheckingPath(device))
    ensures longer[|ws| + 1] == Alone(os, {req.volume}, p, req, ReadingDevice(device))
    ensures longer[|ws| + 2] == Alone(os, {req.volume}, p, req, Unlocking(Ok))
  {
    var locks := {req.volume};
    FindsPath(x, os, req, device);
    AloneAsks(x, l, ws, os, locks, p, req, FindingDevice, Found(device), os);
    var found := ws + [Alone(os, locks, p, req, CheckingPath(device))];
    AloneAsks(x, l, found, os, locks, p, req, CheckingPath(device), Answer(true), os);
    var there := found + [Alone(os, locks, p, req, ReadingDevice(device))];
    FindsMounted(x, os, req, device);
    var told := Device(device, RefCount(os.table, device));
    AloneAsks(x, l, there, os, locks, p, req, ReadingDevice(device), told, os);
    longer := there + [Alone(os, locks, p, req, Unlocking(Ok))];
  }

  lemma StagedIsSeen(os: Os, device: string, target: string)
    requires !MountedAt(os.table, target)
    ensures DeviceAt(Staged(os, device, target).table, target) == device
    ensures !CorruptedAt(Staged(os, device, target).table, target)
  {
    MountsAtAppended(os.table, Formatted(device, target), target);
  }

  // The five states of such a retry.
  lemma RetrySkipsCheck(ws: seq<NodeWorld>, os: Os, p: nat, req: StageRequest, device: string)
    requires |ws| == 9 && ws[4] == Alone(os, {}, p, req, Locking)
    requires ws[5] == Alone(os, {req.volume}, p, req, FindingDevice)
    requires ws[6] == Alone(os, {req.volume}, p, req, CheckingPath(device))
    requires ws[7] == Alone(os, {req.volume}, p, req, ReadingDevice(device))
    requires ws[8] == Alone(os, {req.volume}, p, req, Unlocking(Ok))
    ensures HoldsFrom(ws, 4, 8, p, Stage(req)) && ws[8].calls[p].pc == Unlocking(Ok) && !ChecksSize(ws, 4, 8, p)
  {
    forall k | 4 < k <= 8
      ensures Holds(ws[k], p, req.volume) && ws[k].calls[p].call == Stage(req) && !AtSizeCheck(ws[k], p)
    {
      assert k == 5 || k == 6 || k == 7 || k == 8;
    }
  }

  // It happens: from every state in which a stage is about to mount its unmounted path, it
  // may mount and the service restart before the size is checked; and then the same stage,
  // made again, replies Ok without coming to its size check.  No call fails.
  lemma RestartedStageSkipsCheck(x: Surroundings, l: Layout, w: NodeWorld, p: nat, req: StageRequest)
    returns (ws: seq<NodeWorld>)
    requires GoodStage(x, l, req) && l.device[req.volume] in w.os.present && req.target in w.os.paths
    requires p in w.calls && w.calls[p] == InFlight(Stage(req), Formatting(l.device[req.volume]))
    requires !MountedAt(w.os.table, req.target)
    ensures IsNodeRun(x, l, ws) && |ws| == 9 && ws[0] == w
    ensures AtSizeCheck(ws[1], p) && Steps(x, l, ws[1], Crash, ws[2])
    ensures HoldsFrom(ws, 4, 8, p, Stage(req)) && ws[8].calls[p].pc == Unlocking(Ok) && !ChecksSize(ws, 4, 8, p)
  {
    var device := l.device[req.volume];
    var os := Staged(w.os, device, req.target);
    StagedIsSeen(w.os, device, req.target);
    var died := DiesAfterMount(x, l, w, p, req);
    var again := ComesToLock(x, l, died, os, p, req);
    ws := FindsItStaged(x, l, again, os.(present := os.present + x.attached), p, req, device);
    assert ws[1] == died[1] && ws[2] == died[2] by {
      assert again[1] == died[1] && again[2] == died[2];
    }
    assert ws[4] == again[4] && ws[5] == again[5];
    assert p in ws[4].calls && ws[4].calls[p] == InFlight(Stage(req), Locking);
    RetrySkipsCheck(ws, os.(present := os.present + x.attached), p, req, device);
  }
}
