/**
  The node service under way: any number of calls at once, each one call of the
  Mounter at a time, with the service's restarts and mounts going bad in between.
 */
module NodeSystem {
  import opened Wrappers
  import opened Mounts
  import opened NodeSteps
  import Controller

  // ---------- the callers' side ----------

  // Which paths and devices belong to which volume.
  datatype Layout = Layout(staging: map<string, string>, device: map<string, string>, owner: map<string, string>)

  ghost predicate LayoutOk(l: Layout) {
    && l.device.Keys == l.staging.Keys && "" !in l.device.Values
    && (forall v, v' :: v in l.staging && v' in l.staging && l.staging[v] == l.staging[v'] ==> v == v')
    && (forall t :: t in l.owner ==> l.owner[t] in l.staging)
    && (forall v :: v in l.staging ==> l.staging[v] !in l.owner)
  }

  predicate DriverPath(l: Layout, path: string) {
    path in l.owner || path in l.staging.Values
  }

  predicate IsFileSystem(cap: Option<Capability>) {
    cap.Some? && cap.value.access.MountAccess?
  }

  // A call that follows the protocol at the moment it takes its volume's lock: on the
  // volume's own paths and device; only staged file-system volumes are published, and
  // a volume is unstaged after its targets are unpublished.
  predicate Conforms(x: Surroundings, l: Layout, table: Table, call: Call) {
    match call
    case Stage(req) =>
      && req.volume in l.staging && req.volume in l.device && req.target == l.staging[req.volume]
      && IsFileSystem(req.cap)
      && (req.devicePath.Some? && req.devicePath.value in x.scsi
          ==> x.scsi[req.devicePath.value] == l.device[req.volume])
    case Unstage(volume, target) =>
      && volume in l.staging && target == l.staging[volume]
      && (forall t :: t in l.owner && l.owner[t] == volume ==> !MountedAt(table, t))
    case Publish(req) =>
      && IsFileSystem(req.cap) && req.target in l.owner && l.owner[req.target] == req.volume
      && req.volume in l.staging && req.staging == l.staging[req.volume] && MountedAt(table, req.staging)
    case Unpublish(volume, target) => target in l.owner && l.owner[target] == volume
    case Expand(_, _, _) => true
  }

  // ---------- steps ----------

  datatype InFlight = InFlight(call: Call, pc: PC)

  datatype NodeWorld = NodeWorld(os: Os, locks: set<string>, calls: map<nat, InFlight>)

  datatype NodeStep =
    | Arrive(p: nat, call: Call)
    | Ask(p: nat, told: Told)
    | TryLock(p: nat)
    | Unlock(p: nat)
    | Leave(p: nat)
    | Crash
    | Surprise // mounts go bad or well, and anything happens on paths that are not the driver's

  predicate SameDevices(ms: seq<Mount>, ms': seq<Mount>) {
    |ms'| == |ms| && forall i :: 0 <= i < |ms| ==> ms'[i].device == ms[i].device
  }

  function GoesTo(w: NodeWorld, p: nat, pc: PC): map<nat, InFlight>
    requires p in w.calls
  {
    w.calls[p := w.calls[p].(pc := pc)]
  }

  ghost predicate Steps(x: Surroundings, l: Layout, w: NodeWorld, step: NodeStep, w': NodeWorld) {
    match step
    case Arrive(p, call) => p !in w.calls && w' == w.(calls := w.calls[p := InFlight(call, Start(call))])
    case Ask(p, told) =>
      && p in w.calls && Asks(w.calls[p].call, w.calls[p].pc).Some?
      && Spec(x, w.os, Asks(w.calls[p].call, w.calls[p].pc).value, told, w'.os)
      && w' == NodeWorld(w'.os, w.locks, GoesTo(w, p, Next(w.calls[p].call, w.calls[p].pc, told)))
    case TryLock(p) =>
      && p in w.calls && w.calls[p].pc == Locking
      && (w.calls[p].call.Volume() !in w.locks ==> Conforms(x, l, w.os.table, w.calls[p].call))
      && w' == NodeWorld(w.os, w.locks + {w.calls[p].call.Volume()},
                         GoesTo(w, p, AfterTry(w.calls[p].call, w.calls[p].call.Volume() !in w.locks)))
    case Unlock(p) =>
      && p in w.calls && w.calls[p].pc.Unlocking?
      && w' == NodeWorld(w.os, w.locks - {w.calls[p].call.Volume()}, GoesTo(w, p, Replied(w.calls[p].pc.reply)))
    case Leave(p) => p in w.calls && w.calls[p].pc.Replied? && w' == w.(calls := w.calls - {p})
    case Crash => w' == NodeWorld(w.os, {}, map[])
    case Surprise =>
      && w' == w.(os := w'.os) && OsInv(x, w'.os)
      && forall path :: DriverPath(l, path) ==> SameDevices(MountsAt(w.os.table, path), MountsAt(w'.os.table, path))
  }

  ghost predicate NodeFollows(x: Surroundings, l: Layout, w: NodeWorld, w': NodeWorld) {
    exists step :: Steps(x, l, w, step, w')
  }

  ghost predicate NodeLinked(x: Surroundings, l: Layout, ws: seq<NodeWorld>, i: nat) {
    i + 1 < |ws| && NodeFollows(x, l, ws[i], ws[i + 1])
  }

  ghost predicate IsNodeRun(x: Surroundings, l: Layout, ws: seq<NodeWorld>) {
    ws != [] && forall i: nat :: i + 1 < |ws| ==> NodeLinked(x, l, ws, i)
  }

  // ---------- locks ----------

  // The call has its volume's lock.
  predicate InSection(pc: PC) {
    !pc.Scanning? && !pc.Locking? && !pc.Replied? && !pc.Stuck?
  }

  predicate Holds(w: NodeWorld, p: nat, v: string) {
    p in w.calls && InSection(w.calls[p].pc) && w.calls[p].call.Volume() == v
  }

  ghost predicate LocksHeld(w: NodeWorld) {
    && (forall p, v :: Holds(w, p, v) ==> v in w.locks)
    && (forall v :: v in w.locks ==> exists p :: Holds(w, p, v))
    && (forall p, q, v :: Holds(w, p, v) && Holds(w, q, v) ==> p == q)
  }

  lemma StartsOutside(call: Call)
    ensures !InSection(Start(call))
  {
  }
}
