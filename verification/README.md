# Verified model of the NIFCLOUD Hatoba disk CSI driver

The driver makes, deletes, attaches, detaches and grows cloud disks for a container
orchestrator (the controller service), and formats and mounts them on a node (the node
service). This project models both services and proves what they promise, over every
input, every interleaving of the services' calls, request by request to the cloud and
call by call of the Mounter, and every failure of the outside world. The protocol
is the Container Storage Interface specification v1.6.0; the calls concerned are
`CreateVolume`, `DeleteVolume`, `ControllerPublishVolume`, `ControllerUnpublishVolume`,
`ControllerExpandVolume`, `NodeStageVolume`, `NodeUnstageVolume`, `NodePublishVolume`,
`NodeUnpublishVolume` and `NodeExpandVolume`.

`dafny verify dfyconfig.toml` checks everything.

## How the model is built

**Controller.** A call in flight is a handler with a program counter (`Controller.dfy`).
One step is one access to what handlers share: a lock taken or released, or one request
to the cloud. Handlers, the cloud's own completions (a disk becomes READY, an attach
completes or is dropped, a detach completes) and restarts of the driver interleave
freely, and any request may fail, before or after it took effect.
`ControllerSafety.dfy` proves the invariant that ties program counters, lock owners and
cloud state together; `ControllerTheorems.dfy`, `CreateTheorems.dfy`,
`PublishTheorems.dfy`, `ExpandTheorems.dfy`, `ReadyTheorems.dfy` and `Serial.dfy` draw the
conclusions. `ControllerTalks.dfy` records what every handler asks of the locks and the
cloud and what it is told, writes down for each call its plan (what it asks, in order, and
what it must be told to go on) and its verdict (the response, by the last thing it was told),
and proves of every run that every call goes by its plan and answers by its verdict;
`TalkTheorems.dfy` draws from this what happened to get there. `Handlers.dfy` holds the
handlers in the shape of the source, as methods with early returns and polling loops
that call the cloud while everyone else's steps come in between. Each is proved to go
through its handler's steps and to end with the same response, so the conclusions hold
of what the methods return; the trace it leaves says what it asked and was told.

**Node.** `Mounts.dfy` is the mount table and the contract of every call of the Mounter,
each of which may fail. `NodeSteps.dfy` says which call of the Mounter a handler makes
next, by what the calls before told it and nothing else. `Mounter.dfy` is the Mounter as
a class that takes only the call its handler's machine makes next, and `Node.dfy` holds
the handlers as methods on it: each is proved to follow its machine to the reply, and,
when it runs alone, to keep a relation between the node before and after, from which
`NodeTheorems.dfy` derives round trips, repeats and repairs. `NodeSystem.dfy` lets any
number of these machines run at once, with restarts and mounts going bad in between;
`NodeRefinement.dfy` and `NodeConcurrency.dfy` prove what all such runs keep, and
`StageTheorems.dfy` in which of them a stage checks the size of its file system.
`NodeTalks.dfy` writes down the whole conversations with the Mounter that end well, and what
else can go wrong in one, and proves that the log of every call decides its reply;
`NodeTalkRuns.dfy` carries that to the concurrent runs.

**Arithmetic and loops.** `Sizes.dfy` is the int64 chain from bytes to GiB to 100 GiB
units, with Go's truncating division and wrap-around; `Parameters.dfy`,
`MountOptions.dfy` and `Topology.dfy` are the loops over parameters, mount flags and
topologies; `Locks.dfy` is the lock set; `Cloud.dfy` says what polling means.

## What is assumed of the outside

- A new disk's id is no id that a disk had or a request named before, and is not empty.
- The listing by tag is exact and immediate; the order of its entries is not determined.
- A create or update that takes effect gives the disk the size, zone, type and tags asked
  for. A request that fails has taken effect already or never will. A delete that is
  accepted removes the disk at once.
- An attach is accepted only while the disk has no attachment. A detach is answered with
  not-found or detached only when the disk is not attached to that node.
- Disks are changed only by the driver and by the cloud's completions of its requests.
- On a node, `GetDeviceName` reports the first mount listed on a path and the number of
  mounts of its device; a bind mount shows what the latest mount on its source shows, or
  else the source itself, on the host's file system; mounts are on existing paths.
- A mount that fails leaves the table as it was, although a bind mount with options may be
  made as a mount and a remount. An answer of `IsLikelyNotMountPoint` other than an error is
  exact, bind mounts included.
- Callers of the node service give every volume its own staging path and targets; when a
  call takes its volume's lock, it is for the volume's own paths and device, it publishes
  only a staged file-system volume, and it unstages only a volume without published targets
  (`NodeSystem.Conforms`).

## Where the code is weaker than it may look

- The limit of a request is compared before the size is rounded to 100 GiB units
  (`Sizes.LimitIsKeptIff` says when the limit is kept). The excess is at most 99 GiB, except
  for some negative requests, which the truncating division turns into 100 GiB
  (`Sizes.LimitOvershootIsBoundedIff` is exact).
- Requests above 8589934500 GiB overflow int64 (`Sizes.ReportCoversRequestIff`).
- Parameter keys that differ only in case make the result depend on Go's map order
  (`Parameters.OrderFreeIff` says exactly when it does not).
- The repository's README documents the parameter `csi.storage.k8s.io/fsType`; the loop
  refuses it (`Parameters.DocumentedFsTypeKeyIsRefused`). The model follows the code. The
  usual caller, the external-provisioner, takes that key out of the parameters, so it
  reaches the loop only from another caller.
- Publishing a disk that is attached already, to the same node even, is an Internal error
  (`ControllerTheorems.AttachAcceptedIff`): after a publish that succeeded, every further one
  fails until an unpublish or a delete of the volume (`PublishTheorems.RepeatedPublishIsInternal`,
  `PublishTheorems.RepeatedPublishHappens`); `AlreadyExists` is never answered there, since
  `AttachDisk` never returns that error. Nor does `GetDiskByName` ever return its error for
  several disks.
- A create that finds its disk may return it before it is READY. In every run in which no
  create of the name, and no expand of a disk of the name, fails or dies so that a disk of the
  name is left neither READY nor waited for, that happens only while an expand of the disk
  waits (`ReadyTheorems.AnswersAreReady`). It does happen then, with nothing failing: by two
  requests exactly when the expand wants more than the volume has and the create wants as much
  as the expand (`ReadyTheorems.UnreadyAnswerPossibleIff`, `ReadyTheorems.UnreadyWhileExpanding`).
  And a disk that was left so is answered as it is (`ReadyTheorems.UnreadyIsAnswered`). A disk
  still in creation is answered only after a create of the name failed or died
  (`CreateTheorems.AnswersAreMade`), and then by its retry
  (`CreateTheorems.RetryMayAnswerInCreationIff`, `CreateTheorems.RestartMayAnswerInCreationIff`,
  `CreateTheorems.InCreationAnswerIsReachable`).
- Expands take no lock. Two requests for a volume can shrink it exactly when they want
  different sizes, both larger than it has (`ExpandTheorems.ShrinkPossibleIff`).
- A disk that disappears during a detach's wait counts as unpublished, as the code passes
  the lookup's not-found error on to the tolerant caller.
- CSI names and disk ids share one lock set, so a create whose name is some disk's id excludes
  that disk's operations while it runs.
- A stage checks the size, and grows, only what it mounts itself
  (`StageTheorems.StageChecksIff`). So when one mounts and then fails, or the service restarts,
  the retry finds the volume staged and neither checks nor grows it
  (`StageTheorems.RetriedStageChecksIff`, `StageTheorems.RestartedStageSkipsCheck`,
  `NodeTheorems.RetriedStageIff`, `NodeTheorems.RetriedStageSkipsResize`). An unstage that fails and is
  retried leaves the device online exactly when the failed call had unmounted it
  (`NodeTheorems.RetriedUnstageIff`, `NodeTheorems.RetriedUnstageLeavesDevice`). A publish
  whose capability has no access type succeeds without a mount (`Node.NodeService.NodePublishVolume`).
- A publish onto a target with a healthy mount succeeds whatever is mounted there
  (`NodeTheorems.PublishShowsSourceIff`, `NodeTheorems.PublishIgnoresMount`).

## Model

| member | source | states |
|---|---|---|
| Sizes.RoundUpBytesIsExact | pkg/util/util.go:9-32 | rounding to a GiB reaches the next GiB and no further, and converting to GiB loses nothing, while the sum fits an int64 |
| Sizes.RoundUpCapacityIsCeiling | pkg/cloud/cloud.go:502-511 | the 100 GiB rounding is a ceiling: a multiple of 100, not below its argument, less than one unit above it; negative sizes included |
| Sizes.DiskCapacityIsMultiple | pkg/cloud/cloud.go:185 | every size requested of the cloud is a multiple of 100 GiB, for every int64 |
| Sizes.CapacityIsLeastCover | pkg/cloud/cloud.go:185 | the composed chain gives the least multiple of 100 GiB covering the request, and the bytes reported are exactly that size |
| Sizes.ReportCoversRequestIff | pkg/driver/controller.go:445-473 | the bytes reported cover a non-negative request if and only if it is at most 8589934500 GiB |
| Sizes.LimitOvershootIsBoundedIff | pkg/driver/controller.go:460-473 | a request that passes the limit check gets at most 99 GiB more than the limit, with the exact set of int64 requests for which this fails |
| Sizes.LimitOvershootIsAttained | pkg/driver/controller.go:467-470 | an excess of 99 GiB occurs |
| Sizes.LimitIsKeptIff | pkg/driver/controller.go:467-470 | an accepted request stays within its limit if and only if a whole number of 100 GiB units lies between request and limit |
| Parameters.CollectParameters | pkg/driver/controller.go:123-147 | the loop, with its early exit, collects what the fold over the parameters says |
| Parameters.TagKeysDiffer | pkg/driver/constants.go:16-22 | no two tag keys have the same wording |
| Parameters.VolumeNameTagIsKept | pkg/driver/controller.go:125-144 | whatever the parameters, the CSI volume name tag keeps the volume's name |
| Parameters.FoldStoresGiven | pkg/driver/controller.go:129-144 | each tag and the type hold one of the values given for their key, or nothing when none is given |
| Parameters.VerdictIsOrderFree | pkg/driver/controller.go:141-143 | the InvalidArgument verdict is the same for every order of the parameters |
| Parameters.OrderFreeIff | pkg/driver/controller.go:129-147 | type and tags are the same for every order if and only if a key is unknown or keys equal in lower case agree on their value |
| Parameters.DocumentedFsTypeKeyIsRefused | pkg/driver/controller.go:130-143 | the documented file system key is refused, the deprecated one accepted |
| Parameters.CollectMeaning | pkg/driver/constants.go:7-20 | the parameters are refused exactly for a key other than the five; otherwise the type and the tag of each wording hold the last value given under the key that goes with it, in any case of its letters, or the volume's name, or the driver's |
| MountOptions.HasOption | pkg/driver/node.go:543-550 | true exactly for the options in the list |
| MountOptions.MergeFlags | pkg/driver/node.go:551-555 | the loop appends the first occurrences of the flags that the options lack |
| MountOptions.FirstOccurrencesMeaning | pkg/driver/node.go:551-555 | the flags appended are without duplicates, and are exactly the flags not among the options |
| MountOptions.KeepsFirstOccurrenceOrder | pkg/driver/node.go:551-555 | the flags appended stand in the order of their first occurrences in the request |
| MountOptions.PublishOptions | pkg/driver/node.go:333-336 | bind, ro if read-only, then the flags: no duplicates, and as a set just these |
| MountOptions.MergeIsIdempotent | pkg/driver/node.go:551-555 | merging the same flags again changes nothing |
| Topology.PickAvailabilityZone | pkg/driver/controller.go:397-424 | the two loops are one search over preferred followed by requisite, for the first topology with either key, the well-known key before the driver's |
| Topology.FirstZoneIsFirstMatch | pkg/driver/controller.go:401-423 | of the first topology that has either key the search returns the well-known key's value, or the driver key's when that is missing; the empty string when none has any |
| Topology.FirstZonePicks | pkg/driver/controller.go:397-424 | the zone found is the only one that the search, said in the keys themselves, allows |
| Topology.ReportedTopologyLeadsBack | pkg/driver/controller.go:445-457 | the topology of a create response, as a requirement, picks the disk's zone |
| CloudModel.WaitEndsOneWay | pkg/cloud/cloud.go:426-465 | for every sequence of cloud answers and every budget of probes a wait ends in exactly one way: after the first decisive answer with what that says, or when the budget is used up |
| Locks.VolumeLocks.TryAcquire | pkg/driver/lock.go:28-36 | succeeds exactly when the key is free, and then holds it |
| Locks.VolumeLocks.Release | pkg/driver/lock.go:38-42 | frees that key and no other |
| ControllerSafety.OwnStepReach | pkg/driver/controller.go:100-168 | a handler's step touches only the disk, and gives away only the name, that it has locked; disks keep tags and zone, and no id comes back |
| ControllerSafety.StepKeepsInv | pkg/driver/controller.go:79-373 | every step of every handler, completion and restart keeps the invariant of locks, disks and program counters |
| ControllerSafety.ReachableInv | pkg/driver/controller.go:79-373 | the invariant holds in every reachable state |
| ControllerSafety.RunEvolves | pkg/cloud/cloud.go:180-249 | along any run disks keep their tags and zone, and an id without its disk never has one again |
| ControllerTheorems.LocksAreOwners | pkg/driver/lock.go:13-42 | the lock set is the set of keys of the handlers in their critical sections, each with one owner |
| ControllerTheorems.AbortedIffOwned | pkg/driver/controller.go:100-103 | Aborted is answered exactly when another handler owns the key, and changes nothing; otherwise the handler becomes the owner |
| ControllerTheorems.OthersNeverRelease | pkg/driver/controller.go:178-181 | no step of another handler takes a lock from its owner |
| ControllerTheorems.IdleMeansUnlocked | pkg/driver/controller.go:103 | when all handlers have returned, on any path, no lock is held |
| ControllerTheorems.OneDiskPerName | pkg/cloud/cloud.go:345-367 | in every reachable state at most one disk has a CSI name; a handler about to create holds the name's lock and the name is unused |
| ControllerTheorems.CreateAnswersAgree | pkg/driver/controller.go:105-168 | a volume answered for a name is the disk of that name and zone while it lives, and two live answers for a name are the same volume |
| CreateTheorems.LookupVerdict | pkg/driver/controller.go:105-121 | a successful lookup of a name in use answers its disk, or AlreadyExists when the size differs, and leaves the cloud alone |
| CreateTheorems.CreateIsIdempotent | pkg/driver/controller.go:105-168 | in any run in which a create finds or makes its disk and answers, and no delete or expand of it follows, every later create of the name leaves the cloud alone and repeats the very answer, or says AlreadyExists for another size |
| ControllerTheorems.CreateAnswerCovers | pkg/driver/controller.go:86-168 | the capacity answered is the least multiple of 100 GiB covering the request and at most 99 GiB over a positive limit |
| CreateTheorems.AnswersAreMade | pkg/driver/controller.go:100-168 | a volume that a create answers with is past its creation, in every run in which no create of the name, once past its lookup, fails or dies with the driver while a disk of the name is in creation |
| CreateTheorems.RetryMayAnswerInCreationIff | pkg/cloud/cloud.go:195-232 | after a create has failed with its disk made, by a lost reply or a wait given up, some run of a retry of the same request answers with the disk still in creation, if and only if it is in creation then |
| CreateTheorems.RestartMayAnswerInCreationIff | pkg/cloud/cloud.go:227-232 | the same after the driver restarts while a create waits for its disk |
| CreateTheorems.InCreationAnswerIsReachable | pkg/cloud/cloud.go:345-367 | wherever a name is unused and unlocked, any request that can create a disk may fail and, repeated, succeed with the disk still in creation |
| ReadyTheorems.RunLooksAfter | pkg/cloud/cloud.go:180-343 | along every run in which no create or expand at work for the name fails or dies leaving a disk of the name neither READY nor waited for, every disk of the name that is not READY has a create or an expand waiting for it |
| ReadyTheorems.AnswersAreReady | pkg/driver/controller.go:100-168 | in every such run the disk that a create answers with exists and is READY at that moment, unless an expand of it is waiting just then |
| ReadyTheorems.UnreadyWhileExpanding | pkg/cloud/cloud.go:345-367 | wherever a disk has the name and the name is unlocked, an expand that wants more than it has and a create that wants as much as the expand lead to an answer with the disk not READY, nothing failing or left behind |
| ReadyTheorems.UnreadyAnswerPossibleIff | pkg/driver/controller.go:105-121 | of a create and an expand of its volume, each made any number of times in any run that leaves no disk behind, some create can answer with a disk that is not READY if and only if the expand wants more than the volume has at first and the create wants as much as the expand |
| ReadyTheorems.UnreadyIsAnswered | pkg/cloud/cloud.go:345-367 | however a disk came to be not READY, once its name is unlocked some run of a create of its name and size answers with it as it is |
| ControllerTheorems.PublishedMeansAttached | pkg/cloud/cloud.go:251-283 | on success the disk's only attachment is to the node asked for, ATTACHED, and its device path is the one returned |
| ControllerTheorems.AttachmentIsNotSwapped | pkg/cloud/cloud.go:269-282 | between the poll that saw ATTACHED and the second read nobody changes the attachment |
| ControllerTheorems.AttachAcceptedIff | pkg/cloud/cloud.go:252-265 | an attach the cloud serves goes on exactly when the disk exists without attachments, and is an Internal error otherwise |
| PublishTheorems.RepeatedPublishIsInternal | pkg/driver/controller.go:227-242 | after a publish that succeeded, in every run without delete or detach of the volume, every further publish of it leaves the cloud alone and ends in Internal, whatever the cloud answers |
| PublishTheorems.RepeatMayFail | pkg/driver/controller.go:194-242 | from every successful publish some run leads to the Internal of the same request made again |
| PublishTheorems.RepeatedPublishHappens | pkg/driver/controller.go:194-242 | wherever a volume is neither locked nor attached, any valid publish of it may succeed and then, repeated, fail |
| ControllerTheorems.UnpublishedMeansDetached | pkg/driver/controller.go:268-282 | on success the disk is gone or not attached to the node when the lock is released |
| ControllerTheorems.DeletedForGood | pkg/driver/controller.go:178-191 | after a successful delete the disk is in no later state of any run |
| ExpandTheorems.GetSizeVerdict | pkg/cloud/cloud.go:309-319 | a smaller wish fails, an equal one is answered at once, neither touching the disk; only a larger one is sent on |
| ExpandTheorems.OnlyResizeChangesSize | pkg/cloud/cloud.go:321-328 | no step but a served resize changes the size of a disk, and that to the size it wants |
| ExpandTheorems.ExpandAnswers | pkg/driver/controller.go:351-372 | while the expands under way for a volume always want the same size, every successful one answered with the size it wanted |
| ExpandTheorems.ExpandHistory | pkg/cloud/cloud.go:303-343 | while the expands under way for a volume always want the same size, its size never decreases along any run |
| ExpandTheorems.ExpandSuccessCovers | pkg/driver/controller.go:357-372 | the bytes of an expand that succeeded in such a run are the least multiple of 100 GiB covering the request |
| ExpandTheorems.RepeatedExpandIsNoOp | pkg/cloud/cloud.go:309-319 | after an expand that succeeded in such a run, and no delete or resize since, the next expand leaves the cloud alone: the same request gets the same answer, a smaller one fails, only a larger one goes on |
| ExpandTheorems.SizesInUnits | pkg/cloud/cloud.go:185 | every disk's size is a multiple of 100 GiB in every reachable state |
| ExpandTheorems.OverlappingExpandsShrink | pkg/cloud/cloud.go:303-343 | for any two requests that want different sizes, both larger than the volume has, a run in which they overlap and the volume shrinks |
| ExpandTheorems.ShrinkPossibleIff | pkg/cloud/cloud.go:303-343 | two requests for a volume, made any number of times in any run, can shrink it if and only if they want different sizes and both want more than it has at first |
| ControllerTalks.GoesByWhatItIsTold | pkg/driver/controller.go:105-373 | where a handler goes next depends on its request and on what it is told, and on nothing else of the cloud |
| ControllerTalks.EveryAnswerIsRight | pkg/driver/controller.go:79-373 | in every run every call has asked the asks of its plan in order, each after being told what the one before needed, stopped at the first other answer, and answered by the last thing it was told; a malformed request, in the request's own terms, asked nothing and was InvalidArgument |
| ControllerTalks.EveryEffectIsAsked | pkg/cloud/cloud.go:194-328 | in every run a step of a handler changes the cloud by what it asks for and no more: this disk made, deleted, attached to this node, detached from it, given this size |
| TalkTheorems.WasTold | pkg/cloud/cloud.go:387-481 | what a handler was told was so in the step in which it asked |
| TalkTheorems.NodeIsChecked | pkg/driver/controller.go:216-224 | a publish or unpublish asks for its node first and goes on only if told that it exists; otherwise it answers NotFound, having asked nothing else and taken no lock |
| TalkTheorems.NodeWasFound | pkg/driver/controller.go:257-265 | every publish or unpublish that succeeded had its node lookup served with the node found |
| TalkTheorems.NodeExpansionIff | pkg/driver/controller.go:362-367 | in every reachable state a successful expand requires an expansion on the node exactly if the volume is not said to be a block device |
| TalkTheorems.EveryNewDisk | pkg/cloud/cloud.go:180-206 | every disk that comes to be in a run has the size its request asks for, 100 GiB when it asks for none, the type and tags by its parameters, and the zone of the first topology with a zone key, the well-known key first |
| Serial.CallEffect | pkg/cloud/cloud.go:241-301 | the one request of a critical section has an effect the serial system allows, and ends the section at once or leaves it polling as that effect requires |
| Serial.StepMatches | pkg/driver/controller.go:171-283 | every step, seen from one disk, is a step of the serial system or not noticed |
| Serial.ConcurrentRunsAreSerial | pkg/driver/controller.go:171-283 | every concurrent run, projected onto a disk's existence and attachments, is a run in which critical sections come one after another, change the disk at most once, answer as their effect and the disk require, and end with a response true of the disk |
| Serial.SectionsAreDisjoint | pkg/driver/lock.go:26-36 | in a serial run two sections never overlap |
| Serial.ExpandChangesOnlySizeAndStatus | pkg/cloud/cloud.go:303-343 | an expand changes no disk's existence, attachments, tags or zone |
| Handlers.ControllerService.TryAcquire | pkg/driver/lock.go:28-36 | enters the critical section or ends the handler with Aborted |
| Handlers.ControllerService.Return | pkg/driver/controller.go:103 | releases the lock in a state in which the response is true |
| Handlers.ControllerService.WaitForDiskAttachment | pkg/cloud/cloud.go:443-465 | of the probes it made of the cloud, by the trace: at most the budget, all before the last fell short, and the last reached the state or failed, or the whole budget fell short; an empty list counts as DETACHED |
| Handlers.ControllerService.WaitForDisk | pkg/cloud/cloud.go:426-440 | the same for a READY disk |
| Handlers.ControllerService.AttachDisk | pkg/cloud/cloud.go:251-271 | takes its handler from the attach request to the response, with the device path or an error |
| Handlers.ControllerService.ReadDevicePath | pkg/cloud/cloud.go:273-282 | the second read of the disk, and its three failures |
| Handlers.ControllerService.DetachDisk | pkg/cloud/cloud.go:285-301 | takes its handler from the detach request to the response, not-found counting as success |
| Handlers.ControllerService.DeleteDisk | pkg/cloud/cloud.go:241-249 | takes its handler through the delete request, not-found counting as success |
| Handlers.ControllerService.GetDiskByName | pkg/cloud/cloud.go:345-368 | the lookup and its three failures |
| Handlers.ControllerService.CreateDisk | pkg/cloud/cloud.go:180-239 | takes its handler from the create request to the response, losing the disk's trace when the reply is lost |
| Handlers.ControllerService.ResizeDisk | pkg/cloud/cloud.go:303-319 | takes its handler from the size comparison to the response, with a size the disk had |
| Handlers.ControllerService.UpdateAndRead | pkg/cloud/cloud.go:321-332 | takes its handler from the update request to the response |
| Handlers.ControllerService.ReadNewSize | pkg/cloud/cloud.go:334-342 | the second read of the disk's size |
| Handlers.ControllerService.IsExistNode | pkg/cloud/cloud.go:387-393 | true exactly if the lookup of this node told the handler that it exists; otherwise the handler ends with NotFound |
| Handlers.ControllerService.CheckDiskExists | pkg/cloud/cloud.go:370-385 | the unlocked check of the disk and its two failures |
| Handlers.ControllerService.CreateVolume | pkg/driver/controller.go:79-103 | under any interference, answers what the conversation that it leaves in the trace leads to (`ControllerTalks.Right`); ends with its handler's response; a volume returned is known under the name and zone and has the capacity asked for |
| Handlers.ControllerService.CreateLocked | pkg/driver/controller.go:105-169 | lookup, parameters, zone and create, with the response of the source on every path |
| Handlers.ControllerService.DeleteVolume | pkg/driver/controller.go:171-192 | under any interference, answers what the conversation that it leaves in the trace leads to (`ControllerTalks.Right`); success means the disk is gone on return |
| Handlers.ControllerService.ControllerPublishVolume | pkg/driver/controller.go:194-243 | under any interference, answers what the conversation that it leaves in the trace leads to (`ControllerTalks.Right`); success means the disk is attached to the node, and to it alone, on return |
| Handlers.ControllerService.ControllerUnpublishVolume | pkg/driver/controller.go:245-283 | under any interference, answers what the conversation that it leaves in the trace leads to (`ControllerTalks.Right`); success means the disk is not attached to the node on return |
| Handlers.ControllerService.ControllerExpandVolume | pkg/driver/controller.go:339-373 | under any interference, answers what the conversation that it leaves in the trace leads to (`ControllerTalks.Right`); ends with its handler's response; a capacity returned is one the disk had during the call, and it is the one wanted and covers the request unless expands that wanted different sizes were under way at once; an expansion on the node is required exactly if the volume is not said to be a block device |
| Mounts.RefCountOfPath | pkg/driver/node.go:200-208 | the reference count is 0 exactly when nothing is mounted on the path |
| Mounts.MountsAtWithoutLast | pkg/driver/node.go:369-378 | unmounting a path takes its latest mount and leaves every other path alone |
| Node.NodeService.NodeStageVolume | pkg/driver/node.go:78-122 | follows its machine; replies what its log of calls and answers leads to (`NodeTalks.Replies`); at most the volume's device is mounted on the staging path, success means it is mounted there and the attached devices are online, and the lock set is left as found |
| Node.NodeService.StageScanned | pkg/driver/node.go:103-122 | the part after the scan: access type, lock and release |
| Node.NodeService.StageLocked | pkg/driver/node.go:124-181 | the same for the part under the lock; Ok only after one of the whole conversations of a stage |
| Node.NodeService.FindAndPrepare | pkg/driver/node.go:124-146 | finds the device of the request's devicePath and makes the staging path |
| Node.NodeService.MountStaged | pkg/driver/node.go:148-162 | mounts the device once, unless the path shows it already |
| Node.NodeService.FitFileSystem | pkg/driver/node.go:164-180 | Ok only if the size check said no and no resize was made, or it said yes and the resize of that device on that path was done |
| Node.NodeService.NodeUnstageVolume | pkg/driver/node.go:183-198 | follows its machine; replies what its log of calls and answers leads to (`NodeTalks.Replies`); success means one mount less on the path and its device offline, or nothing was mounted; Aborted exactly when the volume is locked |
| Node.NodeService.UnstageLocked | pkg/driver/node.go:200-230 | the same for the part under the lock |
| Node.NodeService.NodePublishVolume | pkg/driver/node.go:302-350 | follows its machine; replies what its log of calls and answers leads to (`NodeTalks.Replies`); success means a healthy mount on the target; one that it makes has the merged options and shows what the staged path shows or, for a block volume, the device file of the request's devicePath; failure adds nothing; without an access type it replies Ok and mounts nothing; Aborted exactly when the arguments are valid and the volume is locked |
| Node.NodeService.PublishFileSystem | pkg/driver/node.go:539-589 | the file system part: a mount of the staged device, once |
| Node.NodeService.PublishBlock | pkg/driver/node.go:479-491 | the block part: a mount that it makes shows the device file of the request's devicePath |
| Node.NodeService.PublishDevice | pkg/driver/node.go:493-537 | the block part from there: one bind mount, which shows the given device file or what is mounted on it |
| Node.NodeService.IsMounted | pkg/driver/node.go:592-617 | tells a healthy mount from none, takes a corrupted one off, and otherwise changes nothing |
| Node.NodeService.NodeUnpublishVolume | pkg/driver/node.go:352-379 | follows its machine; replies what its log of calls and answers leads to (`NodeTalks.Replies`); success means one mount less on the target, or none was there; failure changes nothing |
| Node.NodeService.NodeExpandVolume | pkg/driver/node.go:233-247 | follows its machine; replies what its log of calls and answers leads to (`NodeTalks.Replies`); changes no mount and leaves the lock set as found; Aborted exactly when the volume is locked |
| Node.NodeService.ExpandLocked | pkg/driver/node.go:249-271 | the checks under the lock: Ok only for a block volume, left alone, or after the file system was grown |
| Node.NodeService.ExpandFileSystem | pkg/driver/node.go:273-297 | Ok only after the device mounted on the path was read, rescanned and grown, in this order |
| NodeTheorems.PublishIsIdempotent | pkg/driver/node.go:563-572 | publishing twice adds no second mount |
| NodeTheorems.PublishHeals | pkg/driver/node.go:592-603 | a corrupted mount is replaced by exactly one healthy one, and other paths are left alone |
| NodeTheorems.FailedPublishAddsNothing | pkg/driver/node.go:479-589 | a failing publish adds no mount anywhere |
| NodeTheorems.PublishShowsSourceIff | pkg/driver/node.go:563-589 | after a publish that succeeded the target shows what was asked for if and only if it had no healthy mount before, or one that showed it already |
| NodeTheorems.PublishIgnoresMount | pkg/driver/node.go:592-617 | on any target with a healthy mount a publish of any source replies Ok at its check |
| NodeTheorems.BlockPublishShowsDevice | pkg/driver/node.go:479-537 | a block publish that mounts shows the device file of the request's devicePath and no other |
| NodeTheorems.PublishedAllEffect | pkg/driver/node.go:539-589 | publishing any number of unmounted targets, each with options of its own, mounts each once and nothing else |
| NodeTheorems.UnpublishedAllEffect | pkg/driver/node.go:369-378 | unpublishing targets, in any order, removes exactly their mounts |
| NodeTheorems.RoundTrip | pkg/driver/node.go:153-228 | stage, publishes each with its own options, unpublishes in any order and unstage restore the mount table; of the devices the volume's own is offline, and no other has changed exactly when none was waiting for the stage's scan |
| NodeTheorems.RetriedStageIff | pkg/driver/node.go:148-180 | when a failed stage is retried with success, the device is mounted once, and the retry mounts nothing exactly when the failed call had mounted |
| NodeTheorems.RetriedStageSkipsResize | pkg/driver/node.go:148-180 | for every volume whose device is online, the stage that fails at its size check and its retry, which replies Ok without one, Mounter call by Mounter call |
| NodeTheorems.RetriedUnstageIff | pkg/driver/node.go:213-227 | when a failed unstage is retried with success, the device stays online exactly when the failed call had unmounted it |
| NodeTheorems.RetriedUnstageLeavesDevice | pkg/driver/node.go:213-227 | for every volume staged once, the unstage whose last Mounter call fails and its successful retry, Mounter call by Mounter call, leave the device online |
| NodeTalks.ReplyDecided | pkg/driver/node.go:78-617 | the reply of every call is Internal exactly if something in its log went wrong, Aborted exactly if its lock was taken, InvalidArgument exactly if neither and the request is malformed or its file system unknown and needed; otherwise Ok |
| NodeTalks.StopsAtFirstWrong | pkg/driver/node.go:78-617 | after the first thing that goes wrong a call only removes the block target it made and gives its lock back |
| NodeTalks.EveryReply | pkg/driver/node.go:78-617 | the same, and a call that replies Ok had one of the whole conversations that end well: the calls of its kind, in order, on its paths and devices, with its options and file system |
| NodeTalkRuns.EveryCallReplies | pkg/driver/node.go:78-617 | this of every call in every concurrent run |
| NodeTalkRuns.WasTold | pkg/driver/node.go:78-617 | what the Mounter told a call in a concurrent run agreed with the node in that step |
| NodeTalkRuns.ExpandGrew | pkg/driver/node.go:249-297 | in every concurrent run an expand that replies Ok has rescanned and then grown the device that was mounted on its path when it looked, or was for a block device and did neither |
| NodeRefinement.OtherPathsUntouched | pkg/driver/node.go:78-379 | whatever the Mounter answers and whether or not the caller follows the protocol, no step of a handler changes the mounts of a path other than its target |
| NodeRefinement.StepOnTarget | pkg/driver/node.go:124-617 | a step under the lock mounts the volume's own device where nothing is mounted, or unmounts, or leaves the table alone |
| NodeRefinement.CallSees | pkg/driver/node.go:124-617 | what a handler relies on at each place (not mounted before it mounts, mounted when it replies Ok, and so on) holds after every step of its own |
| NodeRefinement.CallProgresses | pkg/driver/node.go:124-617 | each step keeps the account of what the call has done to its volume since it took the lock |
| NodeRefinement.RefinesOnlyOne | pkg/driver/node.go:148-208 | the mount table determines which volumes are staged and which targets published |
| NodeConcurrency.NodeRunInv | pkg/driver/node.go:78-379 | the invariant of mounts, locks and handlers holds in every state of every concurrent run, Mounter call by Mounter call, restarts and mounts going bad included |
| NodeConcurrency.NodeAbortedIff | pkg/driver/node.go:119-122 | Aborted is answered exactly when another call holds the volume, otherwise the call becomes the one holder |
| NodeConcurrency.NodeOthersNeverRelease | pkg/driver/node.go:119-122 | no step but the holder's own release, and a restart, takes a volume or its lock from the call that holds it |
| NodeConcurrency.NodeIdleMeansUnlocked | pkg/driver/lock.go:38-42 | in every run, when all calls have replied, on any path, no lock is held |
| NodeConcurrency.OthersLeavePart | pkg/driver/node.go:78-379 | while a call holds its volume, no step but its own changes whether the volume is staged or where it is published |
| NodeConcurrency.TableIsRefined | pkg/driver/node.go:78-379 | in every state of every concurrent run the mounts on the driver's paths are exactly those of one set of staged volumes and published targets, one to a path |
| NodeConcurrency.NodeRefinesAbstract | pkg/driver/node.go:78-379 | whatever calls for other volumes do meanwhile, a call does to its volume, from its lock to the release, what one step of the abstract service with the same call and reply does |
| StageTheorems.StageChecksIff | pkg/driver/node.go:148-180 | in every concurrent run a stage has come to its size check, since its lock, if and only if its path was unmounted then and is mounted now; it replies Ok only when mounted |
| StageTheorems.StageFitsFileSystem | pkg/driver/node.go:153-180 | in every concurrent run a stage that found its path unmounted and replies Ok has formatted and mounted its volume's device, and then either was told that it needs no growing and grew nothing, or was told that it does and has grown that device on that path |
| StageTheorems.RetriedStageChecksIff | pkg/driver/node.go:148-180 | of a stage of an unmounted volume that fails or is cut off by a restart, and a later one that replies Ok, exactly one comes to the size check |
| StageTheorems.RestartedStageSkipsCheck | pkg/driver/node.go:148-156 | from every state in which a stage is about to mount its unmounted path, a run in which it mounts, the service restarts and the same stage replies Ok without a size check, no call failing |

## Left out

- Parameters.ToLower is exact only for telling the known keys apart: letters whose lower case is not ASCII are left as they are.
- The file system under the Mounter: `filepath.Dir` is modelled without its cleaning of superfluous slashes and dots, and `MakeDir` does not record parent directories.
- Wall-clock time and deadlines: a wait has an arbitrary number of probes instead.
- HTTP, signing, JSON and error texts of `pkg/cloud/client.go`: replaced by the kinds of answer that the driver tells apart.
- The bodies of the Mounter (sysfs writes, device lookup by pattern, mount commands): kept as contracts.
- `NodeGetVolumeStats`, `ValidateVolumeCapabilities`, capability listings and unimplemented calls: they change no state modelled here and take no lock. The bytes that `NodeExpandVolume` reports.
- Registration, endpoints, flags, environment, region detection and the node's zone label: plumbing.
- Lower bounds on progress (a call that is not disturbed succeeds in the end): nothing in the code forces the cloud to answer.
