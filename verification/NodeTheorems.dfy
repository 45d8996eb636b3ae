/** What the node service's calls do in sequence: round trips, repeats and repairs. */
module NodeTheorems {
  import opened Wrappers
  import opened Mounts
  import opened Node
  import opened NodeSteps
  import Controller

  // ---------- publish: repeats, repairs and failures ----------

  // Publishing a target that is mounted and healthy changes nothing.
  lemma PublishIsIdempotent(s: Os, source: string, target: string, host: string, options: seq<string>, s': Os, s'': Os)
    requires PublishPost(s, source, target, host, options, s', Ok)
    requires PublishPost(s', source, target, host, options, s'', Ok)
    ensures s''.table == s'.table && MountedAt(s''.table, target) && !CorruptedAt(s''.table, target)
  {
  }

  lemma Appended(table: Table, m: Mount)
    ensures forall path :: MountsAt(table + [m], path) == MountsAt(table, path) + (if m.path == path then [m] else [])
  {
    forall path
      ensures MountsAt(table + [m], path) == MountsAt(table, path) + (if m.path == path then [m] else [])
    {
      MountsAtAppended(table, m, path);
    }
  }

  // Cleaning takes a lone corrupted mount off the target, and nothing else.
  lemma CleanedMounts(table: Table, target: string, path: string)
    requires |MountsAt(table, target)| <= 1
    ensures MountsAt(Cleaned(table, target), path) ==
      if path == target && CorruptedAt(table, target) then [] else MountsAt(table, path)
  {
    MountsAtWithoutLast(table, target, path);
  }

  // A corrupted mount is replaced: success ends with exactly one mount on the target,
  // a healthy one, and every other path as it was.
  lemma PublishHeals(s: Os, source: string, target: string, host: string, options: seq<string>, s': Os)
    requires PublishPost(s, source, target, host, options, s', Ok)
    requires |MountsAt(s.table, target)| <= 1
    ensures |MountsAt(s'.table, target)| == 1 && !CorruptedAt(s'.table, target)
    ensures forall path :: path != target ==> MountsAt(s'.table, path) == MountsAt(s.table, path)
    ensures MountsAt(s'.table, target) ==
      if HealthyAt(s.table, target) then MountsAt(s.table, target)
      else [Bound(Cleaned(s.table, target), source, target, host, options)]
  {
    if !HealthyAt(s.table, target) {
      var cleaned := Cleaned(s.table, target);
      Appended(cleaned, Bound(cleaned, source, target, host, options));
      forall path
        ensures MountsAt(cleaned, path) == if path == target then [] else MountsAt(s.table, path)
      {
        CleanedMounts(s.table, target, path);
      }
    }
  }

  // A publish that fails never adds a mount anywhere.
  lemma FailedPublishAddsNothing(s: Os, source: string, target: string, host: string, options: seq<string>, s': Os,
                                 r: Reply)
    requires PublishPost(s, source, target, host, options, s', r) && r != Ok
    ensures multiset(s'.table) <= multiset(s.table)
    ensures forall path :: |MountsAt(s'.table, path)| <= |MountsAt(s.table, path)|
  {
    WithoutLastMultiset(s.table, target);
    forall path
      ensures |MountsAt(s'.table, path)| <= |MountsAt(s.table, path)|
    {
      MountsAtWithoutLast(s.table, target, path);
    }
  }

  lemma {:induction false} WithoutLastMultiset(table: Table, path: string)
    ensures multiset(WithoutLast(table, path)) <= multiset(table)
  {
    if table != [] {
      var init, last := table[..|table| - 1], table[|table| - 1];
      WithoutLastMultiset(init, path);
      assert table == init + [last];
    }
  }

  // ---------- the round trip ----------

  predicate Distinct(paths: seq<string>) {
    forall i, j :: 0 <= i < j < |paths| ==> paths[i] != paths[j]
  }

  // Successful publishes of the targets, in order, each with options of its own.
  ghost predicate PublishedAll(s: Os, source: string, targets: seq<string>, host: string, options: seq<seq<string>>,
                               s': Os)
    requires |options| == |targets|
    decreases targets
  {
    if targets == [] then s' == s
    else exists mid ::
      && PublishPost(s, source, targets[0], host, options[0], mid, Ok)
      && PublishedAll(mid, source, targets[1..], host, options[1..], s')
  }

  // Successful unpublishes, in whatever order they come.
  ghost predicate UnpublishedAll(s: Os, targets: seq<string>, s': Os)
    decreases targets
  {
    if targets == [] then s' == s
    else exists mid :: UnpublishPost(s, targets[0], mid, Ok) && UnpublishedAll(mid, targets[1..], s')
  }

  // The table with the mounts on the given paths left out.
  function Without(table: Table, paths: set<string>): Table {
    if table == [] then []
    else
      var init, last := table[..|table| - 1], table[|table| - 1];
      if last.path in paths then Without(init, paths) else Without(init, paths) + [last]
  }

  lemma WithoutAppended(table: Table, m: Mount, paths: set<string>)
    ensures Without(table + [m], paths) ==
      if m.path in paths then Without(table, paths) else Without(table, paths) + [m]
  {
  }

  lemma {:induction false} WithoutNone(table: Table, paths: set<string>)
    requires forall path :: path in paths ==> MountsAt(table, path) == []
    ensures Without(table, paths) == table
  {
    if table != [] {
      var init, last := table[..|table| - 1], table[|table| - 1];
      assert MountsAt(table, last.path) != [];
      WithoutNone(init, paths);
    }
  }

  // A path with one mount loses all of them to one unmount.
  lemma {:induction false} WithoutLastIsWithout(table: Table, path: string)
    requires |MountsAt(table, path)| <= 1
    ensures WithoutLast(table, path) == Without(table, {path})
  {
    if table != [] {
      var init, last := table[..|table| - 1], table[|table| - 1];
      if last.path == path {
        assert MountsAt(init, path) == [];
        WithoutNone(init, {path});
      } else {
        WithoutLastIsWithout(init, path);
      }
    }
  }

  lemma {:induction false} WithoutTwice(table: Table, paths: set<string>, more: set<string>)
    ensures Without(Without(table, paths), more) == Without(table, paths + more)
  {
    if table != [] {
      var init, last := table[..|table| - 1], table[|table| - 1];
      WithoutTwice(init, paths, more);
      if last.path !in paths {
        WithoutAppended(Without(init, paths), last, more);
      }
    }
  }

  lemma {:induction false} MountsAtWithout(table: Table, paths: set<string>, path: string)
    ensures MountsAt(Without(table, paths), path) == if path in paths then [] else MountsAt(table, path)
  {
    if table != [] {
      var init, last := table[..|table| - 1], table[|table| - 1];
      MountsAtWithout(init, paths, path);
      if last.path !in paths {
        MountsAtAppended(Without(init, paths), last, path);
      }
    }
  }

  function Members(paths: seq<string>): set<string> {
    set p | p in paths
  }

  // Unpublishing targets with at most one mount each takes exactly their mounts away.
  lemma {:induction false} UnpublishedAllEffect(s: Os, targets: seq<string>, s': Os)
    requires UnpublishedAll(s, targets, s')
    requires forall t :: t in targets ==> |MountsAt(s.table, t)| <= 1
    ensures s'.table == Without(s.table, Members(targets)) && s'.present == s.present
    decreases targets
  {
    if targets == [] {
      assert Members(targets) == {};
      WithoutNone(s.table, {});
    } else {
      var t, rest := targets[0], targets[1..];
      var mid :| UnpublishPost(s, t, mid, Ok) && UnpublishedAll(mid, rest, s');
      WithoutLastIsWithout(s.table, t);
      if !MountedAt(s.table, t) {
        WithoutNone(s.table, {t});
      }
      assert mid.table == Without(s.table, {t});
      forall u | u in rest
        ensures |MountsAt(mid.table, u)| <= 1
      {
        MountsAtWithout(s.table, {t}, u);
        assert u in targets;
      }
      UnpublishedAllEffect(mid, rest, s');
      WithoutTwice(s.table, {t}, Members(rest));
      assert Members(targets) == {t} + Members(rest);
    }
  }

  // One publish of an unmounted target.
  lemma PublishedOneEffect(s: Os, source: string, t: string, host: string, options: seq<string>, s': Os)
    requires PublishPost(s, source, t, host, options, s', Ok) && MountsAt(s.table, t) == []
    ensures Without(s'.table, {t}) == s.table && s'.present == s.present
    ensures |MountsAt(s'.table, t)| == 1
    ensures forall path :: path != t ==> MountsAt(s'.table, path) == MountsAt(s.table, path)
  {
    var made := Bound(s.table, source, t, host, options);
    assert s'.table == s.table + [made];
    Appended(s.table, made);
    assert Without(s'.table, {t}) == s.table by {
      WithoutAppended(s.table, made, {t});
      WithoutNone(s.table, {t});
    }
  }

  // Publishing unmounted targets adds mounts on them and nowhere else.
  lemma {:induction false} PublishedAllEffect(s: Os, source: string, targets: seq<string>, host: string,
                                              options: seq<seq<string>>, s': Os)
    requires |options| == |targets| && PublishedAll(s, source, targets, host, options, s') && Distinct(targets)
    requires forall t :: t in targets ==> MountsAt(s.table, t) == []
    ensures Without(s'.table, Members(targets)) == s.table && s'.present == s.present
    ensures forall t :: t in targets ==> |MountsAt(s'.table, t)| == 1
    ensures forall path :: path !in targets ==> MountsAt(s'.table, path) == MountsAt(s.table, path)
    decreases targets
  {
    if targets == [] {
      assert Members(targets) == {};
      WithoutNone(s.table, {});
    } else {
      var t, rest := targets[0], targets[1..];
      var mid :|
        && PublishPost(s, source, t, host, options[0], mid, Ok)
        && PublishedAll(mid, source, rest, host, options[1..], s');
      assert t in targets && t !in rest && forall u :: u in targets <==> u == t || u in rest;
      assert Without(mid.table, {t}) == s.table && mid.present == s.present && |MountsAt(mid.table, t)| == 1
        && forall path :: path != t ==> MountsAt(mid.table, path) == MountsAt(s.table, path) by {
        PublishedOneEffect(s, source, t, host, options[0], mid);
      }
      assert Distinct(rest);
      PublishedAllEffect(mid, source, rest, host, options[1..], s');
      assert Without(s'.table, Members(targets)) == s.table by {
        WithoutTwice(s'.table, Members(rest), {t});
        assert Members(rest) + {t} == Members(targets);
      }
    }
  }

  // Stage, publish to any number of targets, read-only or not and with whatever flags
  // each, unpublish them in any order, unstage: if all succeed on paths that had no mounts,
  // the mount table is the one before.  Of the devices only the volume's own is offline
  // that was not; and since a stage brings all attached devices online, no other has
  // changed exactly when none was waiting.
  lemma RoundTrip(scsi: map<string, string>, attached: set<string>, host: string, req: StageRequest,
                  targets: seq<string>, options: seq<seq<string>>, undone: seq<string>,
                  s0: Os, s1: Os, s2: Os, s3: Os, s4: Os)
    requires TableInv(s0) && req.cap.Some? && req.cap.value.access.MountAccess?
    requires forall id :: id in scsi ==> scsi[id] != ""
    requires MountsAt(s0.table, req.target) == []
    requires forall t :: t in targets ==> t != req.target && MountsAt(s0.table, t) == []
    requires Distinct(targets) && |options| == |targets| && Members(undone) == Members(targets)
    requires StagePost(scsi, attached, s0, req, s1, Ok)
    requires PublishedAll(s1, req.target, targets, host, options, s2)
    requires UnpublishedAll(s2, undone, s3)
    requires UnstagePost(s3, req.target, s4, Ok)
    ensures s4.table == s0.table
    ensures req.devicePath.Some? && req.devicePath.value in scsi
    ensures s4.present == s0.present + attached - {scsi[req.devicePath.value]}
    ensures s4.present == s0.present - {scsi[req.devicePath.value]}
      <==> attached <= s0.present + {scsi[req.devicePath.value]}
  {
    var m := Formatted(scsi[req.devicePath.value], req.target);
    assert s1.table == s0.table + [m];
    forall path
      ensures MountsAt(s1.table, path) == MountsAt(s0.table, path) + (if path == req.target then [m] else [])
    {
      MountsAtAppended(s0.table, m, path);
    }
    PublishedAllEffect(s1, req.target, targets, host, options, s2);
    forall t | t in undone
      ensures |MountsAt(s2.table, t)| <= 1
    {
      assert t in Members(undone);
    }
    UnpublishedAllEffect(s2, undone, s3);
    assert s3.table == s1.table;
    WithoutLastAppended(s0.table, m);
    OthersWaiting(s0.present, attached, m.device);
  }

  lemma OthersWaiting(present: set<string>, attached: set<string>, device: string)
    ensures present + attached - {device} == present - {device} <==> attached <= present + {device}
  {
    if present + attached - {device} == present - {device} {
      forall d | d in attached && d != device
        ensures d in present
      {
        assert d in present + attached - {device};
      }
    }
  }

  lemma WithoutLastAppended(table: Table, m: Mount)
    ensures WithoutLast(table + [m], m.path) == table
  {
  }

  // ---------- retried unstages ----------

  // An unstage that fails and one retry that succeeds: the device stays online exactly
  // when the call that failed had unmounted it already.
  lemma RetriedUnstageIff(s: Os, target: string, s': Os, code: Code, s'': Os)
    requires |MountsAt(s.table, target)| == 1 && DeviceAt(s.table, target) in s.present
    requires UnstagePost(s, target, s', Fail(code)) && UnstagePost(s', target, s'', Ok)
    ensures s''.table == WithoutLast(s.table, target)
    ensures DeviceAt(s.table, target) in s''.present <==> s'.table != s.table
  {
    MountsAtWithoutLast(s.table, target, target);
  }

  // The handler makes its next call of the Mounter, is told this, and goes on there.
  ghost predicate Does(x: Surroundings, s: Os, call: Call, pc: PC, told: Told, s': Os, pc': PC) {
    Asks(call, pc).Some? && Spec(x, s, Asks(call, pc).value, told, s') && Next(call, pc, told) == pc'
  }

  // Reading the references tells exactly whether the staging path is mounted.
  lemma ReadsReferences(x: Surroundings, s: Os, volume: string, target: string)
    requires OsInv(x, s)
    ensures var device := DeviceAt(s.table, target);
      Does(x, s, Unstage(volume, target), ReadingReferences, Device(device, RefCount(s.table, device)), s,
           if MountedAt(s.table, target) then TakingOff(device) else Unlocking(Ok))
  {
    RefCountOfPath(s, target);
  }

  lemma TakesOff(x: Surroundings, s: Os, volume: string, target: string, device: string, s': Os)
    requires MountedAt(s.table, target) && s' == s.(table := WithoutLast(s.table, target))
    ensures var call := Unstage(volume, target);
      && Does(x, s, call, TakingOff(device), Done, s', RemovingDevice(device))
      && Does(x, s', call, RemovingDevice(device), Failed(OtherError), s', Unlocking(Fail(Controller.Internal)))
  {
  }

  // It happens: for every volume staged once, the unstage that fails on the Mounter's
  // last call, and then its retry, step by step under the lock.
  lemma RetriedUnstageLeavesDevice(x: Surroundings, s: Os, volume: string, target: string, device: string, s': Os)
    requires OsInv(x, s) && |MountsAt(s.table, target)| == 1 && DeviceAt(s.table, target) == device
    requires device in s.present
    requires s' == s.(table := WithoutLast(s.table, target))
    ensures var call := Unstage(volume, target);
      && Does(x, s, call, ReadingReferences, Device(device, RefCount(s.table, device)), s, TakingOff(device))
      && Does(x, s, call, TakingOff(device), Done, s', RemovingDevice(device))
      && Does(x, s', call, RemovingDevice(device), Failed(OtherError), s', Unlocking(Fail(Controller.Internal)))
      && Does(x, s', call, ReadingReferences, Device("", RefCount(s'.table, "")), s', Unlocking(Ok))
    ensures device in s'.present && OsInv(x, s')
  {
    assert !MountedAt(s'.table, target) && OsInv(x, s') by {
      MountsAtWithoutLast(s.table, target, target);
      WithoutLastMembers(s.table, target);
    }
    ReadsReferences(x, s, volume, target);
    TakesOff(x, s, volume, target, device, s');
    ReadsReferences(x, s', volume, target);
  }

  // ---------- retried stages ----------

  // A stage that fails on a path without mounts and one retry that succeeds: the device is
  // mounted once in the end, and the retry mounts nothing exactly when the call that failed
  // had mounted it.  (StageTheorems: it then does not check the size either.)
  lemma RetriedStageIff(scsi: map<string, string>, s: Os, req: StageRequest, s': Os, code: Code, s'': Os)
    requires req.cap.Some? && req.cap.value.access.MountAccess?
    requires (forall id :: id in scsi ==> scsi[id] != "") && !MountedAt(s.table, req.target)
    requires StageTablePost(scsi, s, req, s', Fail(code)) && StageTablePost(scsi, s', req, s'', Ok)
    ensures req.devicePath.Some? && req.devicePath.value in scsi
    ensures s''.table == s.table + [Formatted(scsi[req.devicePath.value], req.target)]
    ensures s''.table == s'.table <==> s'.table != s.table
  {
    if s'.table != s.table {
      MountsAtAppended(s.table, Formatted(scsi[req.devicePath.value], req.target), req.target);
    }
  }

  // The stage that fails on its size check, ...
  lemma MountsThenFails(x: Surroundings, s: Os, req: StageRequest, device: string, s': Os)
    requires device in s.present && req.target in s.paths
    requires s' == s.(table := s.table + [Formatted(device, req.target)])
    ensures Does(x, s, Stage(req), Formatting(device), Done, s', CheckingSize(device))
    ensures Does(x, s', Stage(req), CheckingSize(device), Failed(OtherError), s', Unlocking(Fail(Controller.Internal)))
  {
  }

  // ... and a stage of a device that is mounted already, once its path is found to exist.
  lemma FindsMounted(x: Surroundings, s: Os, req: StageRequest, device: string)
    requires DeviceAt(s.table, req.target) == device
    ensures Does(x, s, Stage(req), ReadingDevice(device), Device(device, RefCount(s.table, device)), s, Unlocking(Ok))
  {
  }

  lemma FindsPath(x: Surroundings, s: Os, req: StageRequest, device: string)
    requires req.devicePath.Some? && req.devicePath.value in x.scsi && x.scsi[req.devicePath.value] == device
    requires device in s.present && req.target in s.paths && !CorruptedAt(s.table, req.target)
    ensures Does(x, s, Stage(req), AfterLock(Stage(req)), Found(device), s, CheckingPath(device))
    ensures Does(x, s, Stage(req), CheckingPath(device), Answer(true), s, ReadingDevice(device))
  {
  }

  // It happens: for every volume whose device is online, the stage that fails on its size
  // check, and then its retry, which is told of the mount and replies Ok at once.
  lemma RetriedStageSkipsResize(x: Surroundings, s: Os, req: StageRequest, device: string, s': Os)
    requires req.devicePath.Some? && req.devicePath.value in x.scsi && x.scsi[req.devicePath.value] == device
    requires device in s.present && req.target in s.paths && !MountedAt(s.table, req.target)
    requires s' == s.(table := s.table + [Formatted(device, req.target)])
    ensures var call := Stage(req);
      && Does(x, s, call, Formatting(device), Done, s', CheckingSize(device))
      && Does(x, s', call, CheckingSize(device), Failed(OtherError), s', Unlocking(Fail(Controller.Internal)))
      && Does(x, s', call, AfterLock(call), Found(device), s', CheckingPath(device))
      && Does(x, s', call, CheckingPath(device), Answer(true), s', ReadingDevice(device))
      && Does(x, s', call, ReadingDevice(device), Device(device, RefCount(s'.table, device)), s', Unlocking(Ok))
  {
    MountsAtAppended(s.table, Formatted(device, req.target), req.target);
    MountsThenFails(x, s, req, device, s');
    FindsPath(x, s', req, device);
    FindsMounted(x, s', req, device);
  }

  // ---------- what a publish that succeeds shows ----------

  function Latest(table: Table, path: string): Mount
    requires MountedAt(table, path)
  {
    var ms := MountsAt(table, path);
    ms[|ms| - 1]
  }

  predicate SameShown(m: Mount, m': Mount) {
    m.device == m'.device && m.root == m'.root
  }

  // The target shows what the publish was asked for exactly when it was not mounted
  // healthily before, or showed it already: isMounted does not look at what is mounted.
  lemma PublishShowsSourceIff(s: Os, source: string, target: string, host: string, options: seq<string>, s': Os)
    requires PublishPost(s, source, target, host, options, s', Ok)
    ensures HealthyAt(s'.table, target)
    ensures var wanted := Bound(Cleaned(s.table, target), source, target, host, options);
      SameShown(Latest(s'.table, target), wanted) <==>
        (HealthyAt(s.table, target) ==> SameShown(Latest(s.table, target), wanted))
  {
    var cleaned := Cleaned(s.table, target);
    MountsAtAppended(cleaned, Bound(cleaned, source, target, host, options), target);
  }

  // It happens: on any target with a healthy mount, whatever that shows, a publish of any
  // source replies Ok at its check.
  lemma PublishIgnoresMount(x: Surroundings, s: Os, req: PublishRequest, source: string)
    requires HealthyAt(s.table, req.target)
    ensures Does(x, s, Publish(req), CheckingMount(source), Answer(false), s, Unlocking(Ok))
  {
  }

  // A block publish that mounts tells its device: the target shows the device file of the
  // request's devicePath and no other.
  lemma BlockPublishShowsDevice(scsi: map<string, string>, s: Os, req: PublishRequest, host: string,
                                options: seq<string>,
                                s': Os, device: string)
    requires BlockPublishPost(scsi, s, req, host, options, s', Ok) && !HealthyAt(s.table, req.target)
    requires req.devicePath.Some? && req.devicePath.value in scsi ==>
      !MountedAt(Cleaned(s.table, req.target), scsi[req.devicePath.value])
    ensures HealthyAt(s'.table, req.target)
    ensures Latest(s'.table, req.target).root == device
      <==> req.devicePath.Some? && req.devicePath.value in scsi && scsi[req.devicePath.value] == device
  {
    var made := Mount(req.target, host, scsi[req.devicePath.value], options, true);
    MountsAtAppended(Cleaned(s.table, req.target), made, req.target);
  }
}
