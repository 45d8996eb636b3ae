/**
  The node service refines "which volumes are staged, and which targets are published".

  Over every concurrent run whose calls follow the protocol when they take their
  volume's lock, the mounts on the driver's paths are exactly those of the staged
  volumes and published targets, one to a path, after any mix of successes, failures,
  retries, restarts and mounts going bad; and every call, from its lock to its release,
  does to its own volume what one step of the abstract service does.
 */
module NodeRefinement {
  import opened Wrappers
  import opened Mounts
  import opened NodeSteps
  import opened NodeSystem

  // ---------- the abstract service ----------

  // What the service is for: the staged volumes and the published targets.
  datatype Abstract = Abstract(staged: set<string>, published: set<string>)

  // A successful call has its effect; a failed stage or unstage may have had it, a
  // failed publish never has, though it may have lost a bad mount of its target.
  predicate AbstractStep(a: Abstract, call: Call, r: Reply, a': Abstract) {
    match call
    case Stage(req) =>
      a'.published == a.published && (a'.staged == a.staged + {req.volume} || (r != Ok && a' == a))
    case Unstage(volume, _) =>
      a'.published == a.published && (a'.staged == a.staged - {volume} || (r != Ok && a' == a))
    case Publish(req) =>
      && a'.staged == a.staged
      && (r == Ok ==> a'.published == a.published + {req.target})
      && (r != Ok ==> a' == a || a'.published == a.published - {req.target})
    case Unpublish(_, target) =>
      if r == Ok then a' == a.(published := a.published - {target}) else a' == a
    case Expand(_, _, _) => a' == a
  }

  // The abstract state that a table shows, and one volume's part of it.
  function AbstractOf(l: Layout, table: Table): Abstract {
    Abstract(
      set v | v in l.staging && MountedAt(table, l.staging[v]),
      set t | t in l.owner && MountedAt(table, t))
  }

  function Part(l: Layout, a: Abstract, v: string): Abstract {
    Abstract(a.staged * {v}, set t | t in a.published && t in l.owner && l.owner[t] == v)
  }

  // ---------- the refinement relation ----------

  predicate Only(table: Table, path: string, mounted: bool, device: string) {
    var ms := MountsAt(table, path);
    if mounted then |ms| == 1 && ms[0].device == device else ms == []
  }

  // The table on the driver's paths is what the abstract state says, and nothing else.
  ghost predicate Refines(l: Layout, a: Abstract, table: Table)
    requires LayoutOk(l)
  {
    && a.staged <= l.staging.Keys && a.published <= l.owner.Keys
    && (forall v :: v in l.staging ==> Only(table, l.staging[v], v in a.staged, l.device[v]))
    && (forall t :: t in l.owner ==> Only(table, t, t in a.published, l.device[l.owner[t]]))
    && (forall t :: t in a.published ==> l.owner[t] in a.staged)
  }

  // The table determines the abstract state.
  lemma RefinesOnlyOne(l: Layout, a: Abstract, table: Table)
    requires LayoutOk(l) && Refines(l, a, table)
    ensures a == AbstractOf(l, table)
  {
  }

  // The volume that a driver path belongs to, and the device its mount must show.
  predicate Belongs(l: Layout, path: string, v: string) {
    (v in l.staging && l.staging[v] == path) || (path in l.owner && l.owner[path] == v)
  }

  ghost predicate Elsewhere(table: Table, table': Table, path: string) {
    forall other :: other != path ==> MountsAt(table', other) == MountsAt(table, other)
  }

  // A change of the mounts on one of a volume's paths.
  lemma PathChanged(l: Layout, table: Table, table': Table, path: string, v: string)
    requires LayoutOk(l) && Refines(l, AbstractOf(l, table), table)
    requires v in l.staging && Belongs(l, path, v) && Elsewhere(table, table', path)
    requires Only(table', path, MountedAt(table', path), l.device[v])
    requires path in l.owner && MountedAt(table', path) ==> MountedAt(table, l.staging[v])
    requires path == l.staging[v] && !MountedAt(table', path)
      ==> forall t :: t in l.owner && l.owner[t] == v ==> !MountedAt(table, t)
    ensures Refines(l, AbstractOf(l, table'), table')
  {
    var a, a' := AbstractOf(l, table), AbstractOf(l, table');
    forall u | u in l.staging
      ensures Only(table', l.staging[u], u in a'.staged, l.device[u])
    {
      assert Only(table, l.staging[u], u in a.staged, l.device[u]);
    }
    forall t | t in l.owner
      ensures Only(table', t, t in a'.published, l.device[l.owner[t]])
      ensures t in a'.published ==> l.owner[t] in a'.staged
    {
      assert Only(table, t, t in a.published, l.device[l.owner[t]]);
      assert t in a.published ==> l.owner[t] in a.staged;
    }
  }

  lemma AppendedElsewhere(table: Table, m: Mount)
    ensures Elsewhere(table, table + [m], m.path)
    ensures MountsAt(table + [m], m.path) == MountsAt(table, m.path) + [m]
  {
  }

  lemma UnmountedElsewhere(table: Table, path: string)
    ensures Elsewhere(table, WithoutLast(table, path), path)
    ensures |MountsAt(table, path)| <= 1 ==> MountsAt(WithoutLast(table, path), path) == []
  {
    forall other
      ensures other != path ==> MountsAt(WithoutLast(table, path), other) == MountsAt(table, other)
    {
      MountsAtWithoutLast(table, path, other);
    }
    MountsAtWithoutLast(table, path, path);
  }

  // ---------- what a step does to the table ----------

  predicate Mounting(pc: PC, told: Told) {
    (pc.Formatting? || pc.Binding?) && told == Done
  }

  predicate Unmounting(pc: PC, told: Told) {
    (pc.TakingOff? || pc.TakingOffCorrupted? || pc.TakingOffTarget?) && told == Done
  }

  function MountMade(x: Surroundings, table: Table, call: Call, pc: PC): Mount
    requires pc.Formatting? || (pc.Binding? && call.Publish?)
  {
    if pc.Formatting? then Formatted(pc.device, call.Target())
    else Bound(table, pc.source, call.Target(), x.host, OptionsOf(call.publish))
  }

  // The calls of the Mounter that change the table.
  predicate ChangesTable(op: Op) {
    op.FormatAndMount? || op.BindMount? || op.Unmount?
  }

  lemma OthersLeaveTable(x: Surroundings, s: Os, op: Op, told: Told, s': Os)
    requires Spec(x, s, op, told, s') && !ChangesTable(op)
    ensures s'.table == s.table
  {
  }

  // At which places a handler makes them.
  lemma AsksAtItsPlace(call: Call, pc: PC)
    requires Asks(call, pc).Some?
    ensures pc.Formatting? ==> Asks(call, pc).value == FormatAndMount(pc.device, call.Target(), FsTypeFor(call))
    ensures pc.Binding? ==>
      && call.Publish?
      && Asks(call, pc).value == BindMount(pc.source, call.Target(), FsTypeFor(call), OptionsOf(call.publish))
    ensures pc.TakingOff? || pc.TakingOffCorrupted? || pc.TakingOffTarget?
      ==> Asks(call, pc).value == Unmount(call.Target())
    ensures ChangesTable(Asks(call, pc).value) ==>
      pc.Formatting? || pc.Binding? || pc.TakingOff? || pc.TakingOffCorrupted? || pc.TakingOffTarget?
  {
  }

  // What a handler's step can do to the table.
  lemma StepOnTable(x: Surroundings, s: Os, call: Call, pc: PC, told: Told, s': Os)
    requires Asks(call, pc).Some? && Spec(x, s, Asks(call, pc).value, told, s')
    ensures Mounting(pc, told) ==>
      (pc.Binding? ==> call.Publish?) && s'.table == s.table + [MountMade(x, s.table, call, pc)]
    ensures Unmounting(pc, told) ==> s'.table == WithoutLast(s.table, call.Target())
    ensures !Mounting(pc, told) && !Unmounting(pc, told) ==> s'.table == s.table
    ensures pc.Formatting? || pc.Binding? || pc.TakingOff? || pc.TakingOffCorrupted? || pc.TakingOffTarget?
      ==> told == Done || told.Failed?
  {
    var op := Asks(call, pc).value;
    AsksAtItsPlace(call, pc);
    if !ChangesTable(op) {
      OthersLeaveTable(x, s, op, told, s');
    }
  }

  // Whatever the Mounter tells it, and whether or not its caller follows the protocol, a
  // handler's step leaves the mounts of every path but its own target as they are.
  lemma OtherPathsUntouched(x: Surroundings, s: Os, call: Call, pc: PC, told: Told, s': Os)
    requires Asks(call, pc).Some? && Spec(x, s, Asks(call, pc).value, told, s')
    ensures s'.table == s.table || Elsewhere(s.table, s'.table, call.Target())
  {
    StepOnTable(x, s, call, pc, told, s');
    if Mounting(pc, told) {
      AppendedElsewhere(s.table, MountMade(x, s.table, call, pc));
    } else if Unmounting(pc, told) {
      UnmountedElsewhere(s.table, call.Target());
    }
  }

  // ---------- what a call under its lock knows ----------

  predicate KnowsStage(x: Surroundings, l: Layout, table: Table, req: StageRequest, pc: PC) {
    && Conforms(x, l, table, Stage(req))
    && var device, mounted := l.device[req.volume], MountedAt(table, req.target);
      match pc
      case FindingDevice => true
      case CheckingPath(d) => d == device
      case MakingPath(d) => d == device
      case ReadingDevice(d) => d == device
      case Formatting(d) => d == device && !mounted
      case CheckingSize(_) => mounted
      case Resizing(_) => mounted
      case Unlocking(r) => r == Ok ==> mounted
      case _ => false
  }

  predicate KnowsUnstage(x: Surroundings, l: Layout, table: Table, call: Call, pc: PC)
    requires call.Unstage?
  {
    && Conforms(x, l, table, call)
    && match pc
       case ReadingReferences => true
       case TakingOff(_) => true
       case RemovingDevice(_) => !MountedAt(table, call.target)
       case Unlocking(r) => r == Ok ==> !MountedAt(table, call.target)
       case _ => false
  }

  predicate KnowsPublish(x: Surroundings, l: Layout, table: Table, req: PublishRequest, pc: PC) {
    && Conforms(x, l, table, Publish(req))
    && match pc
       case MakingTarget(source) => source == req.staging
       case CheckingMount(source) => source == req.staging
       case CheckingCorruption(source) => source == req.staging
       case TakingOffCorrupted(source) => source == req.staging
       case Binding(source) => source == req.staging && !MountedAt(table, req.target)
       case Unlocking(r) => r == Ok ==> MountedAt(table, req.target)
       case _ => false
  }

  predicate KnowsUnpublish(x: Surroundings, l: Layout, table: Table, call: Call, pc: PC)
    requires call.Unpublish?
  {
    && Conforms(x, l, table, call)
    && match pc
       case TakingOffTarget => true
       case Unlocking(r) => r == Ok ==> !MountedAt(table, call.target)
       case _ => false
  }

  predicate KnowsExpand(pc: PC) {
    pc.CheckingBlock? || pc.ReadingVolume? || pc.Rescanning? || pc.Growing? || pc.Measuring? || pc.Unlocking?
  }

  predicate Knows(x: Surroundings, l: Layout, table: Table, call: Call, pc: PC) {
    match call
    case Stage(req) => KnowsStage(x, l, table, req, pc)
    case Unstage(_, _) => KnowsUnstage(x, l, table, call, pc)
    case Publish(req) => KnowsPublish(x, l, table, req, pc)
    case Unpublish(_, _) => KnowsUnpublish(x, l, table, call, pc)
    case Expand(_, _, _) => KnowsExpand(pc)
  }

  // How far a call has come on its volume's part since it took the lock.
  predicate Progress(call: Call, pc: PC, a: Abstract, now: Abstract) {
    match call
    case Stage(req) =>
      if pc.Unlocking? then AbstractStep(a, call, pc.reply, now)
      else if pc.CheckingSize? || pc.Resizing? then now == a.(staged := a.staged + {req.volume})
      else now == a
    case Unstage(volume, _) =>
      if pc.Unlocking? then AbstractStep(a, call, pc.reply, now)
      else if pc.RemovingDevice? then now == a.(staged := a.staged - {volume})
      else now == a
    case Publish(req) =>
      if pc.Unlocking? then AbstractStep(a, call, pc.reply, now)
      else if pc.Binding? then now == a.(published := a.published - {req.target})
      else now == a
    case Unpublish(_, _) => if pc.Unlocking? then AbstractStep(a, call, pc.reply, now) else now == a
    case Expand(_, _, _) => now == a
  }

  // What a change of one of its paths does to a volume's part, ...
  lemma PartChanged(l: Layout, table: Table, table': Table, path: string, v: string)
    requires LayoutOk(l) && v in l.staging && Belongs(l, path, v) && Elsewhere(table, table', path)
    ensures var part, part' := Part(l, AbstractOf(l, table), v), Part(l, AbstractOf(l, table'), v);
      if path in l.owner then
        && part'.staged == part.staged
        && part'.published == if MountedAt(table', path) then part.published + {path} else part.published - {path}
      else
        && part'.published == part.published
        && part'.staged == if MountedAt(table', path) then part.staged + {v} else part.staged - {v}
  {
    var part, part' := Part(l, AbstractOf(l, table), v), Part(l, AbstractOf(l, table'), v);
    assert forall t :: t in l.owner && l.owner[t] == v && t != path ==> (t in part'.published <==> t in part.published);
    assert forall u :: u in part.staged || u in part'.staged ==> u == v;
    assert v in part.staged <==> MountedAt(table, l.staging[v]);
    assert v in part'.staged <==> MountedAt(table', l.staging[v]);
  }

  // ... and what the part says of the paths.
  lemma PartShows(l: Layout, table: Table, path: string, v: string)
    requires LayoutOk(l) && v in l.staging && Belongs(l, path, v)
    ensures var part := Part(l, AbstractOf(l, table), v);
      && part.staged <= {v}
      && (MountedAt(table, path) <==> if path in l.owner then path in part.published else v in part.staged)
  {
  }

  // ---------- progress ----------

  // The part shows the call's target mounted, ...
  predicate Shows(call: Call, now: Abstract) {
    match call
    case Stage(req) => req.volume in now.staged
    case Unstage(volume, _) => volume in now.staged
    case Publish(req) => req.target in now.published
    case Unpublish(_, target) => target in now.published
    case Expand(_, _, _) => false
  }

  // ... as a reply of success needs it.
  predicate Suits(call: Call, pc: PC, now: Abstract) {
    pc == Unlocking(Ok) ==> (Shows(call, now) <==> call.Stage? || call.Publish?)
  }

  // A step that leaves the table alone.
  lemma LookingProgress(call: Call, pc: PC, told: Told, a: Abstract, now: Abstract)
    requires Progress(call, pc, a, now) && Asks(call, pc).Some? && Suits(call, Next(call, pc, told), now)
    requires Next(call, pc, told) != Stuck && InSection(pc) && !call.IsBlockPublish()
    requires pc.Formatting? || pc.Binding? || pc.TakingOffCorrupted? || pc.TakingOffTarget? || pc.TakingOff?
      ==> told.Failed?
    requires Next(call, pc, told).Binding? || Next(call, pc, told).RemovingDevice? ==> !Shows(call, now)
    ensures Progress(call, Next(call, pc, told), a, now)
  {
    match call
    case Stage(req) => assert req.volume in now.staged ==> now.staged + {req.volume} == now.staged;
    case Unstage(volume, _) => assert volume !in now.staged ==> now.staged - {volume} == now.staged;
    case Publish(req) =>
      assert req.target in now.published ==> now.published + {req.target} == now.published;
      assert req.target !in now.published ==> now.published - {req.target} == now.published;
    case Unpublish(_, target) => assert target !in now.published ==> now.published - {target} == now.published;
    case Expand(_, _, _) =>
  }

  // A step that mounts or unmounts the target.
  lemma ChangingProgress(call: Call, pc: PC, a: Abstract, now: Abstract, now': Abstract)
    requires Progress(call, pc, a, now) && Asks(call, pc).Some? && InSection(pc) && !call.IsBlockPublish()
    requires match call
      case Stage(req) => pc.Formatting? && now' == now.(staged := now.staged + {req.volume})
      case Unstage(volume, _) => pc.TakingOff? && now' == now.(staged := now.staged - {volume})
      case Publish(req) =>
        || (pc.Binding? && now' == now.(published := now.published + {req.target}))
        || (pc.TakingOffCorrupted? && now' == now.(published := now.published - {req.target}))
      case Unpublish(_, target) => pc.TakingOffTarget? && now' == now.(published := now.published - {target})
      case Expand(_, _, _) => false
    ensures Next(call, pc, Done) != Stuck ==> Progress(call, Next(call, pc, Done), a, now')
  {
    if call.Publish? {
      var t := call.publish.target;
      assert a.published - {t} + {t} == a.published + {t};
    }
  }

  // ---------- the steps of each handler ----------

  // The volume of a call that knows its place, and its target.
  lemma KnowsItsPath(x: Surroundings, l: Layout, table: Table, call: Call, pc: PC)
    requires LayoutOk(l) && Refines(l, AbstractOf(l, table), table) && Knows(x, l, table, call, pc) && !call.Expand?
    ensures call.Volume() in l.staging && Belongs(l, call.Target(), call.Volume()) && !call.IsBlockPublish()
    ensures Only(table, call.Target(), MountedAt(table, call.Target()), l.device[call.Volume()])
    ensures call.Stage? || call.Unstage? <==> call.Target() !in l.owner
    ensures call.Publish? ==> Only(table, call.publish.staging, true, l.device[call.Volume()])
  {
  }

  // The places each kind of call can be in.
  lemma KnowsItsKind(x: Surroundings, l: Layout, table: Table, call: Call, pc: PC)
    requires LayoutOk(l) && Knows(x, l, table, call, pc)
    ensures InSection(pc) && !call.IsBlockPublish()
    ensures pc.Formatting? ==> call.Stage?
    ensures pc.TakingOff? ==> call.Unstage?
    ensures pc.Binding? || pc.TakingOffCorrupted? ==> call.Publish?
    ensures pc.TakingOffTarget? ==> call.Unpublish?
  {
  }

  lemma MountsOwnDevice(x: Surroundings, l: Layout, table: Table, call: Call, pc: PC)
    requires LayoutOk(l) && Refines(l, AbstractOf(l, table), table) && Knows(x, l, table, call, pc)
    requires pc.Formatting? || (pc.Binding? && call.Publish?)
    ensures call.Volume() in l.device && !MountedAt(table, call.Target())
    ensures MountMade(x, table, call, pc).device == l.device[call.Volume()]
  {
    KnowsItsKind(x, l, table, call, pc);
    KnowsItsPath(x, l, table, call, pc);
    if call.Publish? {
      assert pc.source == call.publish.staging;
      assert |MountsAt(table, pc.source)| == 1 && MountsAt(table, pc.source)[0].device == l.device[call.Volume()];
    }
  }

  // A handler's step mounts its volume's device on its target, where nothing is
  // mounted, or unmounts the target, or leaves the table alone.
  lemma StepOnTarget(x: Surroundings, l: Layout, s: Os, call: Call, pc: PC, told: Told, s': Os)
    requires !call.Expand? && LayoutOk(l) && Refines(l, AbstractOf(l, s.table), s.table)
    requires Knows(x, l, s.table, call, pc)
    requires Asks(call, pc).Some? && Spec(x, s, Asks(call, pc).value, told, s')
    ensures if Mounting(pc, told) || Unmounting(pc, told)
      then Elsewhere(s.table, s'.table, call.Target())
        && Only(s'.table, call.Target(), Mounting(pc, told), l.device[call.Volume()])
      else s'.table == s.table
  {
    StepOnTable(x, s, call, pc, told, s');
    if Mounting(pc, told) {
      MountsOwnDevice(x, l, s.table, call, pc);
      AppendedElsewhere(s.table, MountMade(x, s.table, call, pc));
    } else if Unmounting(pc, told) {
      KnowsItsPath(x, l, s.table, call, pc);
      UnmountedElsewhere(s.table, call.Target());
    }
  }

  lemma MissingIsUnmounted(s: Os, path: string)
    requires TableInv(s)
    ensures path !in s.paths ==> !MountedAt(s.table, path)
  {
    var ms := MountsAt(s.table, path);
    if ms != [] {
      MountsAtMember(s.table, path, ms[0]);
    }
  }

  // The protocol that the caller followed still holds after the handler's own step.
  lemma StillConforms(x: Surroundings, l: Layout, table: Table, table': Table, call: Call)
    requires LayoutOk(l) && Conforms(x, l, table, call) && Elsewhere(table, table', call.Target())
    ensures Conforms(x, l, table', call)
  {
  }

  // What a handler's next place asks of the mounts on its target.
  lemma StageSees(x: Surroundings, l: Layout, s: Os, req: StageRequest, pc: PC, told: Told, s': Os)
    requires LayoutOk(l) && KnowsStage(x, l, s.table, req, pc) && Asks(Stage(req), pc).Some?
    requires Spec(x, s, Asks(Stage(req), pc).value, told, s') && Conforms(x, l, s'.table, Stage(req))
    requires MountedAt(s'.table, req.target) == (MountedAt(s.table, req.target) || Mounting(pc, told))
    requires MountedAt(s.table, req.target) ==> DeviceAt(s.table, req.target) == l.device[req.volume]
    ensures KnowsStage(x, l, s'.table, req, Next(Stage(req), pc, told))
  {
    if pc.ReadingDevice? {
      StageReads(x, l, s, req, pc.device, told);
    } else if pc.FindingDevice? {
      assert told.Found? ==> told.device == l.device[req.volume];
    } else if pc.Formatting? {
      assert told == Done || told.Failed?;
    }
  }

  // The comparison of the device on the staging path with the volume's own.
  lemma StageReads(x: Surroundings, l: Layout, s: Os, req: StageRequest, device: string, told: Told)
    requires LayoutOk(l) && KnowsStage(x, l, s.table, req, ReadingDevice(device))
    requires Spec(x, s, GetDeviceName(req.target), told, s)
    requires MountedAt(s.table, req.target) ==> DeviceAt(s.table, req.target) == l.device[req.volume]
    ensures told.Device? ==> (told.name == device <==> MountedAt(s.table, req.target))
  {
    assert l.device[req.volume] in l.device.Values;
  }

  lemma UnstageSees(x: Surroundings, l: Layout, s: Os, call: Call, pc: PC, told: Told, s': Os)
    requires OsInv(x, s) && call.Unstage? && KnowsUnstage(x, l, s.table, call, pc) && Asks(call, pc).Some?
    requires Spec(x, s, Asks(call, pc).value, told, s') && Conforms(x, l, s'.table, call)
    requires MountedAt(s'.table, call.target) == (MountedAt(s.table, call.target) && !Unmounting(pc, told))
    ensures KnowsUnstage(x, l, s'.table, call, Next(call, pc, told))
  {
    RefCountOfPath(s, call.target);
  }

  lemma PublishSees(x: Surroundings, l: Layout, s: Os, req: PublishRequest, pc: PC, told: Told, s': Os)
    requires KnowsPublish(x, l, s.table, req, pc) && Asks(Publish(req), pc).Some?
    requires Spec(x, s, Asks(Publish(req), pc).value, told, s') && Conforms(x, l, s'.table, Publish(req))
    requires req.target !in s.paths ==> !MountedAt(s.table, req.target)
    requires MountedAt(s'.table, req.target) ==
      ((MountedAt(s.table, req.target) && !Unmounting(pc, told)) || Mounting(pc, told))
    ensures KnowsPublish(x, l, s'.table, req, Next(Publish(req), pc, told))
  {
    if pc.CheckingMount? {
      PublishChecks(x, s, req, pc.source, told);
    } else if pc.Binding? || pc.TakingOffCorrupted? {
      assert told == Done || told.Failed?;
    }
  }

  // Where the check for a mount on the target leads.
  lemma PublishChecks(x: Surroundings, s: Os, req: PublishRequest, source: string, told: Told)
    requires Spec(x, s, IsLikelyNotMountPoint(req.target), told, s)
    requires req.target !in s.paths ==> !MountedAt(s.table, req.target)
    ensures var pc := Next(Publish(req), CheckingMount(source), told);
      && (pc == Unlocking(Ok) ==> MountedAt(s.table, req.target))
      && (pc.Binding? ==> pc.source == source && !MountedAt(s.table, req.target))
      && (pc.CheckingCorruption? ==> pc.source == source)
  {
  }

  lemma UnpublishSees(x: Surroundings, l: Layout, s: Os, call: Call, pc: PC, told: Told, s': Os)
    requires call.Unpublish? && KnowsUnpublish(x, l, s.table, call, pc) && Asks(call, pc).Some?
    requires Spec(x, s, Asks(call, pc).value, told, s')
    requires MountedAt(s'.table, call.target) == (MountedAt(s.table, call.target) && !Unmounting(pc, told))
    ensures KnowsUnpublish(x, l, s'.table, call, Next(call, pc, told))
  {
  }

  lemma ExpandSees(call: Call, pc: PC, told: Told)
    requires call.Expand? && KnowsExpand(pc) && Asks(call, pc).Some?
    ensures KnowsExpand(Next(call, pc, told))
  {
  }

  // What the step leaves on the target, and that the protocol still holds.
  lemma MountedAfter(x: Surroundings, l: Layout, s: Os, call: Call, pc: PC, told: Told, s': Os)
    requires !call.Expand? && LayoutOk(l) && Refines(l, AbstractOf(l, s.table), s.table)
    requires Knows(x, l, s.table, call, pc)
    requires Asks(call, pc).Some? && Spec(x, s, Asks(call, pc).value, told, s')
    ensures Conforms(x, l, s'.table, call)
    ensures MountedAt(s'.table, call.Target()) ==
      ((MountedAt(s.table, call.Target()) && !Unmounting(pc, told)) || Mounting(pc, told))
    ensures call.Volume() in l.device
    ensures MountedAt(s.table, call.Target()) ==> DeviceAt(s.table, call.Target()) == l.device[call.Volume()]
  {
    KnowsItsPath(x, l, s.table, call, pc);
    StepOnTarget(x, l, s, call, pc, told, s');
    if s'.table != s.table {
      StillConforms(x, l, s.table, s'.table, call);
    }
  }

  lemma StageCallSees(x: Surroundings, l: Layout, s: Os, req: StageRequest, pc: PC, told: Told, s': Os)
    requires LayoutOk(l) && Refines(l, AbstractOf(l, s.table), s.table) && KnowsStage(x, l, s.table, req, pc)
    requires Asks(Stage(req), pc).Some? && Spec(x, s, Asks(Stage(req), pc).value, told, s')
    ensures KnowsStage(x, l, s'.table, req, Next(Stage(req), pc, told))
  {
    MountedAfter(x, l, s, Stage(req), pc, told, s');
    StageSees(x, l, s, req, pc, told, s');
  }

  lemma PublishCallSees(x: Surroundings, l: Layout, s: Os, req: PublishRequest, pc: PC, told: Told, s': Os)
    requires LayoutOk(l) && OsInv(x, s) && Refines(l, AbstractOf(l, s.table), s.table)
    requires KnowsPublish(x, l, s.table, req, pc)
    requires Asks(Publish(req), pc).Some? && Spec(x, s, Asks(Publish(req), pc).value, told, s')
    ensures KnowsPublish(x, l, s'.table, req, Next(Publish(req), pc, told))
  {
    MountedAfter(x, l, s, Publish(req), pc, told, s');
    MissingIsUnmounted(s, req.target);
    PublishSees(x, l, s, req, pc, told, s');
  }

  lemma UndoingCallSees(x: Surroundings, l: Layout, s: Os, call: Call, pc: PC, told: Told, s': Os)
    requires LayoutOk(l) && OsInv(x, s) && Refines(l, AbstractOf(l, s.table), s.table) && Knows(x, l, s.table, call, pc)
    requires call.Unstage? || call.Unpublish?
    requires Asks(call, pc).Some? && Spec(x, s, Asks(call, pc).value, told, s')
    ensures Knows(x, l, s'.table, call, Next(call, pc, told))
  {
    MountedAfter(x, l, s, call, pc, told, s');
    if call.Unstage? {
      UnstageSees(x, l, s, call, pc, told, s');
    } else {
      UnpublishSees(x, l, s, call, pc, told, s');
    }
  }

  lemma CallSees(x: Surroundings, l: Layout, s: Os, call: Call, pc: PC, told: Told, s': Os)
    requires LayoutOk(l) && OsInv(x, s) && Refines(l, AbstractOf(l, s.table), s.table) && Knows(x, l, s.table, call, pc)
    requires Asks(call, pc).Some? && Spec(x, s, Asks(call, pc).value, told, s')
    ensures Knows(x, l, s'.table, call, Next(call, pc, told))
  {
    match call
    case Stage(req) => StageCallSees(x, l, s, req, pc, told, s');
    case Publish(req) => PublishCallSees(x, l, s, req, pc, told, s');
    case Expand(_, _, _) => ExpandSees(call, pc, told);
    case _ => UndoingCallSees(x, l, s, call, pc, told, s');
  }

  lemma CallRefines(x: Surroundings, l: Layout, s: Os, call: Call, pc: PC, told: Told, s': Os)
    requires LayoutOk(l) && Refines(l, AbstractOf(l, s.table), s.table) && Knows(x, l, s.table, call, pc)
    requires Asks(call, pc).Some? && Spec(x, s, Asks(call, pc).value, told, s')
    ensures Refines(l, AbstractOf(l, s'.table), s'.table)
  {
    StepOnTable(x, s, call, pc, told, s');
    if s'.table != s.table {
      KnowsItsKind(x, l, s.table, call, pc);
      TargetRefines(x, l, s, call, pc, told, s');
    }
    assert Refines(l, AbstractOf(l, s'.table), s'.table);
  }

  lemma TargetRefines(x: Surroundings, l: Layout, s: Os, call: Call, pc: PC, told: Told, s': Os)
    requires !call.Expand? && LayoutOk(l) && Refines(l, AbstractOf(l, s.table), s.table)
    requires Knows(x, l, s.table, call, pc)
    requires Asks(call, pc).Some? && Spec(x, s, Asks(call, pc).value, told, s') && s'.table != s.table
    ensures Refines(l, AbstractOf(l, s'.table), s'.table)
  {
    KnowsItsPath(x, l, s.table, call, pc);
    StepOnTarget(x, l, s, call, pc, told, s');
    PathChanged(l, s.table, s'.table, call.Target(), call.Volume());
    assert Refines(l, AbstractOf(l, s'.table), s'.table);
  }

  // What the place a call has come to says of its volume's part.
  lemma KnowsSuits(x: Surroundings, l: Layout, table: Table, call: Call, pc: PC)
    requires !call.Expand? && LayoutOk(l) && Refines(l, AbstractOf(l, table), table) && Knows(x, l, table, call, pc)
    ensures Suits(call, pc, Part(l, AbstractOf(l, table), call.Volume()))
    ensures pc.Binding? || pc.RemovingDevice? ==> !Shows(call, Part(l, AbstractOf(l, table), call.Volume()))
  {
    KnowsItsPath(x, l, table, call, pc);
    PartShows(l, table, call.Target(), call.Volume());
  }

  // What mounting or unmounting its target does to the part.
  lemma PartFollows(x: Surroundings, l: Layout, s: Os, call: Call, pc: PC, told: Told, s': Os)
    requires !call.Expand? && LayoutOk(l) && Refines(l, AbstractOf(l, s.table), s.table)
    requires Knows(x, l, s.table, call, pc)
    requires Asks(call, pc).Some? && Spec(x, s, Asks(call, pc).value, told, s')
    requires (Mounting(pc, told) || Unmounting(pc, told))
    ensures var now := Part(l, AbstractOf(l, s.table), call.Volume());
      var now' := Part(l, AbstractOf(l, s'.table), call.Volume());
      var changed := if call.Stage? || call.Unstage? then {call.Volume()} else {call.Target()};
      now' == if call.Stage? || call.Unstage?
        then now.(staged := if Mounting(pc, told) then now.staged + changed else now.staged - changed)
        else now.(published := if Mounting(pc, told) then now.published + changed else now.published - changed)
  {
    KnowsItsPath(x, l, s.table, call, pc);
    StepOnTarget(x, l, s, call, pc, told, s');
    PartChanged(l, s.table, s'.table, call.Target(), call.Volume());
  }

  lemma ChangingCall(x: Surroundings, l: Layout, s: Os, call: Call, pc: PC, told: Told, s': Os, a: Abstract)
    requires LayoutOk(l) && Refines(l, AbstractOf(l, s.table), s.table) && Knows(x, l, s.table, call, pc)
    requires Asks(call, pc).Some? && Spec(x, s, Asks(call, pc).value, told, s')
    requires (Mounting(pc, told) || Unmounting(pc, told))
    requires Progress(call, pc, a, Part(l, AbstractOf(l, s.table), call.Volume())) && Next(call, pc, told) != Stuck
    ensures Progress(call, Next(call, pc, told), a, Part(l, AbstractOf(l, s'.table), call.Volume()))
  {
    var now, now' := Part(l, AbstractOf(l, s.table), call.Volume()), Part(l, AbstractOf(l, s'.table), call.Volume());
    KnowsItsKind(x, l, s.table, call, pc);
    PartFollows(x, l, s, call, pc, told, s');
    assert told == Done;
    ChangingProgress(call, pc, a, now, now');
    assert Progress(call, Next(call, pc, Done), a, now');
  }

  lemma LookingCall(x: Surroundings, l: Layout, s: Os, call: Call, pc: PC, told: Told, s': Os, a: Abstract)
    requires LayoutOk(l) && Refines(l, AbstractOf(l, s.table), s.table) && Knows(x, l, s.table, call, pc)
    requires Asks(call, pc).Some? && Spec(x, s, Asks(call, pc).value, told, s') && !Mounting(pc, told)
    requires !Unmounting(pc, told)
    requires Knows(x, l, s'.table, call, Next(call, pc, told)) && Next(call, pc, told) != Stuck
    requires Progress(call, pc, a, Part(l, AbstractOf(l, s.table), call.Volume()))
    ensures Progress(call, Next(call, pc, told), a, Part(l, AbstractOf(l, s'.table), call.Volume()))
  {
    StepOnTable(x, s, call, pc, told, s');
    KnowsItsKind(x, l, s.table, call, pc);
    if !call.Expand? {
      KnowsSuits(x, l, s.table, call, Next(call, pc, told));
    }
    LookingProgress(call, pc, told, a, Part(l, AbstractOf(l, s.table), call.Volume()));
    assert Progress(call, Next(call, pc, told), a, Part(l, AbstractOf(l, s'.table), call.Volume()));
  }

  lemma CallProgresses(x: Surroundings, l: Layout, s: Os, call: Call, pc: PC, told: Told, s': Os, a: Abstract)
    requires LayoutOk(l) && OsInv(x, s) && Refines(l, AbstractOf(l, s.table), s.table) && Knows(x, l, s.table, call, pc)
    requires Asks(call, pc).Some? && Spec(x, s, Asks(call, pc).value, told, s')
    requires Progress(call, pc, a, Part(l, AbstractOf(l, s.table), call.Volume()))
    ensures Progress(call, Next(call, pc, told), a, Part(l, AbstractOf(l, s'.table), call.Volume()))
  {
    CallSees(x, l, s, call, pc, told, s');
    KnowsItsKind(x, l, s'.table, call, Next(call, pc, told));
    if Mounting(pc, told) || Unmounting(pc, told) {
      ChangingCall(x, l, s, call, pc, told, s', a);
    } else {
      LookingCall(x, l, s, call, pc, told, s', a);
    }
  }
}
