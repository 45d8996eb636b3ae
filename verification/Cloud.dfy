/**
  The cloud as the driver sees it: disks with tags, sizes and attachments, and what
  it means to poll a disk until it reaches a state.
 */
module CloudModel {
  import opened Wrappers
  import opened Sizes
  import Parameters

  datatype AttachmentStatus = Attaching | Attached | Detaching | Detached

  datatype Attachment = Attachment(node: string, devicePath: string, status: AttachmentStatus)

  datatype DiskStatus = Creating | Ready | Updating

  datatype Disk = Disk(
    tags: map<Parameters.TagKey, string>,
    volumeType: string,
    zone: string,
    sizeGiB: int64,
    status: DiskStatus,
    attachments: seq<Attachment>)

  // The disks that exist, and every id that a disk had or that a request named:
  // a new disk's uuid is none of them.
  datatype Cloud = Cloud(disks: map<string, Disk>, seen: set<string>)

  // The disk carries the CSI volume name, as the filter of ListDisks sees it.
  predicate Named(disk: Disk, name: string) {
    Parameters.CsiVolumeName in disk.tags && disk.tags[Parameters.CsiVolumeName] == name
  }

  predicate HasName(c: Cloud, name: string) {
    exists id :: id in c.disks && Named(c.disks[id], name)
  }

  // The state waitForDiskAttachment compares: no attachment counts as DETACHED.
  function CurrentState(attachments: seq<Attachment>): AttachmentStatus {
    if attachments == [] then Detached else attachments[0].status
  }

  predicate AttachedTo(disk: Disk, node: string) {
    exists a :: a in disk.attachments && a.node == node && a.status != Detached
  }

  // ---------- polling ----------

  // What one probe of a disk brings: the disk, or an error.
  datatype Probe = Found(disk: Disk) | Failed(notFound: bool)

  datatype WaitResult = Reached | LookupFailed(notFound: bool) | TimedOut

  // What waitForDiskAttachment and waitForDisk wait for.
  ghost function StateIs(expected: AttachmentStatus): Disk -> bool {
    (disk: Disk) => CurrentState(disk.attachments) == expected
  }

  ghost function IsReady(): Disk -> bool {
    (disk: Disk) => disk.status == Ready
  }

  // The wait goes on after this probe.
  ghost predicate Short(probe: Probe, goal: Disk -> bool) {
    probe.Found? && !goal(probe.disk)
  }

  ghost predicate AllShort(probes: seq<Probe>, goal: Disk -> bool) {
    forall i :: 0 <= i < |probes| ==> Short(probes[i], goal)
  }

  // wait.Poll with time for `budget` probes, of which it made these: all before the
  // last found the disk short of the goal, the last reached it or failed, or the time
  // was used up.
  ghost predicate Waited(probes: seq<Probe>, goal: Disk -> bool, budget: nat, r: WaitResult) {
    && |probes| <= budget
    && (forall i :: 0 <= i < |probes| - 1 ==> Short(probes[i], goal))
    && match r
       case Reached => probes != [] && probes[|probes| - 1].Found? && goal(probes[|probes| - 1].disk)
       case LookupFailed(notFound) => probes != [] && probes[|probes| - 1] == Failed(notFound)
       case TimedOut => |probes| == budget && (probes != [] ==> Short(probes[|probes| - 1], goal))
  }

  // The first answer that ends a wait.
  ghost function FirstDecisive(answers: seq<Probe>, goal: Disk -> bool): (k: nat)
    ensures k <= |answers|
  {
    if answers == [] || !Short(answers[0], goal) then 0 else 1 + FirstDecisive(answers[1..], goal)
  }

  lemma {:induction false} FirstDecisiveIsFirst(answers: seq<Probe>, goal: Disk -> bool)
    ensures var k := FirstDecisive(answers, goal);
      && (forall i :: 0 <= i < k ==> Short(answers[i], goal))
      && (k < |answers| ==> !Short(answers[k], goal))
  {
    if answers != [] && Short(answers[0], goal) {
      FirstDecisiveIsFirst(answers[1..], goal);
      assert forall i :: 0 < i < |answers| ==> answers[i] == answers[1..][i - 1];
    }
  }

  // Whatever the cloud would answer, a wait ends in exactly one way: after its first
  // decisive probe with what that says, or with its time when there is none in time.
  lemma WaitEndsOneWay(answers: seq<Probe>, goal: Disk -> bool, budget: nat, used: nat, r: WaitResult)
    requires budget <= |answers| && used <= |answers|
    ensures var k := FirstDecisive(answers[..budget], goal);
      Waited(answers[..used], goal, budget, r) <==>
        if k == budget then used == budget && r == TimedOut
        else used == k + 1 && r == if answers[k].Found? then Reached else LookupFailed(answers[k].notFound)
  {
    FirstDecisiveIsFirst(answers[..budget], goal);
  }
}
