/**
  The loop of CreateVolume that turns the StorageClass parameters into a disk type
  and the disk's tags.  Go ranges over a map in no particular order, so the
  parameters come as a sequence: one order among all those the loop may take.
 */
module Parameters {
  import opened Wrappers

  type Pairs = seq<(string, string)>

  // The cases of the loop's switch; Unknown is its default.
  datatype Key = FsType | VolumeType | ClaimName | ClaimNamespace | PersistentVolumeName | Unknown

  // The tag keys of a disk made by the driver; Text gives their wording.
  datatype TagKey = CsiVolumeName | CreatedForClaim | CreatedForNamespace | CreatedForVolume | CreatedBy {
    function Text(): string {
      match this
      case CsiVolumeName => "disk.csi.hatoba.nifcloud.com/csi-volume-name"
      case CreatedForClaim => "kubernetes.io/created-for/pvc/name"
      case CreatedForNamespace => "kubernetes.io/created-for/pvc/namespace"
      case CreatedForVolume => "kubernetes.io/created-for/pv/name"
      case CreatedBy => "disk.csi.hatoba.nifcloud.com/created-by"
    }
  }

  // No two tag keys are worded alike, so one never stands for another.
  lemma TagKeysDiffer(a: TagKey, b: TagKey)
    ensures a.Text() == b.Text() <==> a == b
  {
  }

  const DRIVER_NAME := "disk.csi.hatoba.nifcloud.com"

  // strings.ToLower as far as the known keys can tell: besides A-Z, only the dotted
  // capital I and the Kelvin sign have an ASCII lower case.
  function LowerChar(c: char): char {
    if 'A' <= c <= 'Z' then ((c as int) + 32) as char
    else if c == '\U{0130}' then 'i'
    else if c == '\U{212A}' then 'k'
    else c
  }

  function ToLower(s: string): string {
    seq(|s|, i requires 0 <= i < |s| => LowerChar(s[i]))
  }

  function Classify(key: string): Key {
    var lower := ToLower(key);
    if lower == "fstype" then FsType
    else if lower == "type" then VolumeType
    else if lower == "csi.storage.k8s.io/pvc/name" then ClaimName
    else if lower == "csi.storage.k8s.io/pvc/namespace" then ClaimNamespace
    else if lower == "csi.storage.k8s.io/pv/name" then PersistentVolumeName
    else Unknown
  }

  datatype Collected = Collected(volumeType: string, tags: map<TagKey, string>)

  // What one parameter with a known key does.
  function Apply(c: Collected, key: Key, value: string): Collected {
    match key
    case VolumeType => c.(volumeType := value)
    case ClaimName => c.(tags := c.tags[CreatedForClaim := value])
    case ClaimNamespace => c.(tags := c.tags[CreatedForNamespace := value])
    case PersistentVolumeName => c.(tags := c.tags[CreatedForVolume := value])
    case _ => c
  }

  // All parameters in order, the last one first in the recursion.
  function Fold(volName: string, params: Pairs): Collected {
    if params == [] then Collected("", map[CsiVolumeName := volName])
    else
      var (key, value) := params[|params| - 1];
      Apply(Fold(volName, params[..|params| - 1]), Classify(key), value)
  }

  predicate AllKnown(params: Pairs) {
    forall p :: p in params ==> Classify(p.0) != Unknown
  }

  // The type and tags the disk is created with, or None for InvalidArgument.
  function Collect(volName: string, params: Pairs): Option<Collected> {
    if AllKnown(params) then
      var c := Fold(volName, params);
      Some(c.(tags := c.tags[CreatedBy := DRIVER_NAME]))
    else None
  }

  // The loop as the handler runs it, leaving at the first unknown key.
  method CollectParameters(volName: string, params: Pairs) returns (r: Option<Collected>)
    ensures r == Collect(volName, params)
  {
    var volumeType := "";
    var volumeTags := map[CsiVolumeName := volName];
    for i := 0 to |params|
      invariant AllKnown(params[..i])
      invariant CsiVolumeName in volumeTags
      invariant Collected(volumeType, volumeTags) == Fold(volName, params[..i])
    {
      var (key, value) := params[i];
      assert params[..i + 1] == params[..i] + [params[i]];
      match Classify(key) {
        case FsType => // the deprecated spelling, only logged
        case VolumeType => volumeType := value;
        case ClaimName => volumeTags := volumeTags[CreatedForClaim := value];
        case ClaimNamespace => volumeTags := volumeTags[CreatedForNamespace := value];
        case PersistentVolumeName => volumeTags := volumeTags[CreatedForVolume := value];
        case Unknown =>
          assert params[i] in params;
          return None;
      }
    }
    assert params[..|params|] == params;
    if |volumeTags| > 0 {
      volumeTags := volumeTags[CreatedBy := DRIVER_NAME];
    }
    r := Some(Collected(volumeType, volumeTags));
  }

  // No two parameters that matter fall together, after lower-casing, with
  // different values.
  ghost predicate Agreeing(params: Pairs) {
    forall p, q :: p in params && q in params && Classify(p.0) == Classify(q.0) != FsType ==> p.1 == q.1
  }

  // The outcome for the parameters does not depend on the order they come in.
  ghost predicate OrderFree(volName: string, params: Pairs) {
    forall other: Pairs :: multiset(other) == multiset(params) ==> Collect(volName, other) == Collect(volName, params)
  }

  function Tag(c: Collected, tag: TagKey): Option<string> {
    if tag in c.tags then Some(c.tags[tag]) else None
  }

  // What is stored for a parameter key; no type and the empty type are the same.
  function Stored(c: Collected, key: Key): Option<string> {
    match key
    case VolumeType => Given(VolumeType, c.volumeType)
    case ClaimName => Tag(c, CreatedForClaim)
    case ClaimNamespace => Tag(c, CreatedForNamespace)
    case PersistentVolumeName => Tag(c, CreatedForVolume)
    case _ => None
  }

  function Given(key: Key, value: string): Option<string> {
    if key == FsType || key == Unknown || (key == VolumeType && value == "") then None else Some(value)
  }

  // No parameter can reach the tag that GetDiskByName searches by, whatever the
  // keys, their case and their order.
  lemma {:induction false} VolumeNameTagIsKept(volName: string, params: Pairs)
    ensures Tag(Fold(volName, params), CsiVolumeName) == Some(volName)
    ensures Collect(volName, params).Some? ==> Tag(Collect(volName, params).value, CsiVolumeName) == Some(volName)
  {
    if params != [] {
      VolumeNameTagIsKept(volName, params[..|params| - 1]);
    }
  }

  // One parameter more: it decides what is stored for its own key, and for no other.
  lemma StoredAfter(c: Collected, last: Key, value: string, key: Key)
    ensures Stored(Apply(c, last, value), key) == if last == key then Given(key, value) else Stored(c, key)
    ensures CreatedBy in Apply(c, last, value).tags <==> CreatedBy in c.tags
  {
  }

  // For each key the loop stores one of the values given for it, if there is any.
  lemma {:induction false} FoldStoresGiven(volName: string, params: Pairs, key: Key)
    ensures CreatedBy !in Fold(volName, params).tags
    ensures Stored(Fold(volName, params), key) == None
      || exists p :: p in params && Classify(p.0) == key && Stored(Fold(volName, params), key) == Given(key, p.1)
    ensures forall p | p in params && Classify(p.0) == key ::
      exists q :: q in params && Classify(q.0) == key && Stored(Fold(volName, params), key) == Given(key, q.1)
  {
    if params != [] {
      var init, last := params[..|params| - 1], params[|params| - 1];
      FoldStoresGiven(volName, init, key);
      StoredAfter(Fold(volName, init), Classify(last.0), last.1, key);
      assert last in params && forall p :: p in params <==> p in init || p == last;
    }
  }

  // What is stored for the keys determines type and tags.
  lemma SameStoreSameFold(volName: string, a: Pairs, b: Pairs)
    requires forall key :: Stored(Fold(volName, a), key) == Stored(Fold(volName, b), key)
    ensures Fold(volName, a) == Fold(volName, b)
  {
    FoldStoresGiven(volName, a, FsType);
    FoldStoresGiven(volName, b, FsType);
    VolumeNameTagIsKept(volName, a);
    VolumeNameTagIsKept(volName, b);
    SameStoreSameCollected(Fold(volName, a), Fold(volName, b));
  }

  lemma SameStoreSameCollected(x: Collected, y: Collected)
    requires forall key :: Stored(x, key) == Stored(y, key)
    requires Tag(x, CsiVolumeName) == Tag(y, CsiVolumeName) && CreatedBy !in x.tags && CreatedBy !in y.tags
    ensures x == y
  {
    assert Stored(x, VolumeType) == Stored(y, VolumeType);
    forall tag: TagKey
      ensures Tag(x, tag) == Tag(y, tag)
    {
      match tag
      case CsiVolumeName =>
      case CreatedForClaim => assert Stored(x, ClaimName) == Stored(y, ClaimName);
      case CreatedForNamespace => assert Stored(x, ClaimNamespace) == Stored(y, ClaimNamespace);
      case CreatedForVolume => assert Stored(x, PersistentVolumeName) == Stored(y, PersistentVolumeName);
      case CreatedBy =>
    }
    assert forall tag :: tag in x.tags <==> Tag(x, tag).Some?;
    assert forall tag :: tag in y.tags <==> Tag(y, tag).Some?;
    assert x.tags == y.tags;
  }

  lemma SameMembers(a: Pairs, b: Pairs)
    requires multiset(a) == multiset(b)
    ensures forall p :: p in a <==> p in b
  {
    forall p
      ensures p in a <==> p in b
    {
      assert p in a <==> p in multiset(a);
      assert p in b <==> p in multiset(b);
    }
  }

  // The InvalidArgument verdict never depends on the order.
  lemma VerdictIsOrderFree(volName: string, a: Pairs, b: Pairs)
    requires multiset(a) == multiset(b)
    ensures Collect(volName, a).None? <==> Collect(volName, b).None?
  {
    SameMembers(a, b);
  }

  lemma AgreeingIsOrderFree(volName: string, a: Pairs, b: Pairs)
    requires multiset(a) == multiset(b) && Agreeing(a)
    ensures Collect(volName, a) == Collect(volName, b)
  {
    VerdictIsOrderFree(volName, a, b);
    SameMembers(a, b);
    forall key: Key
      ensures Stored(Fold(volName, a), key) == Stored(Fold(volName, b), key)
    {
      FoldStoresGiven(volName, a, key);
      FoldStoresGiven(volName, b, key);
    }
    SameStoreSameFold(volName, a, b);
  }

  function MoveLast(params: Pairs, i: nat): (r: Pairs)
    requires i < |params|
    ensures multiset(r) == multiset(params)
    ensures r != [] && r[|r| - 1] == params[i]
  {
    assert params == params[..i] + [params[i]] + params[i + 1..];
    params[..i] + params[i + 1..] + [params[i]]
  }

  lemma MovedLastIsStored(volName: string, params: Pairs, i: nat)
    requires i < |params| && AllKnown(params)
    ensures var r := Collect(volName, MoveLast(params, i));
      r.Some? && Stored(r.value, Classify(params[i].0)) == Given(Classify(params[i].0), params[i].1)
  {
  }

  // Exactly when the order of a Go map does not matter: some key is unknown, and
  // every order is refused, or the keys that fall together in lower case agree.
  lemma OrderFreeIff(volName: string, params: Pairs)
    ensures OrderFree(volName, params) <==> !AllKnown(params) || Agreeing(params)
  {
    if !AllKnown(params) || Agreeing(params) {
      forall other: Pairs | multiset(other) == multiset(params)
        ensures Collect(volName, other) == Collect(volName, params)
      {
        if Agreeing(params) {
          AgreeingIsOrderFree(volName, params, other);
        } else {
          VerdictIsOrderFree(volName, other, params);
        }
      }
    } else {
      var p, q :| p in params && q in params && Classify(p.0) == Classify(q.0) != FsType && p.1 != q.1;
      var i :| 0 <= i < |params| && params[i] == p;
      var j :| 0 <= j < |params| && params[j] == q;
      MovedLastIsStored(volName, params, i);
      MovedLastIsStored(volName, params, j);
      assert Collect(volName, MoveLast(params, i)) != Collect(volName, MoveLast(params, j));
    }
  }

  // The file system key that the repository's README documents is one the loop
  // refuses: only the deprecated spelling without the prefix is known.
  lemma DocumentedFsTypeKeyIsRefused(volName: string, fsType: string)
    ensures Collect(volName, [("csi.storage.k8s.io/fsType", fsType)]).None?
    ensures Collect(volName, [("fsType", fsType)]).Some?
  {
  }

  // ---------- what the loop collects, key by key ----------

  // The last of the values given under this key, however its letters are cased.
  function LastGiven(params: Pairs, key: string): Option<string> {
    if params == [] then None
    else if ToLower(params[|params| - 1].0) == key then Some(params[|params| - 1].1)
    else LastGiven(params[..|params| - 1], key)
  }

  // The tag of this wording that a new disk of this name is to have.
  function TagWanted(volName: string, params: Pairs, wording: string): Option<string> {
    if wording == "disk.csi.hatoba.nifcloud.com/csi-volume-name" then Some(volName)
    else if wording == "disk.csi.hatoba.nifcloud.com/created-by" then Some("disk.csi.hatoba.nifcloud.com")
    else if wording == "kubernetes.io/created-for/pvc/name" then LastGiven(params, "csi.storage.k8s.io/pvc/name")
    else if wording == "kubernetes.io/created-for/pvc/namespace" then
      LastGiven(params, "csi.storage.k8s.io/pvc/namespace")
    else if wording == "kubernetes.io/created-for/pv/name" then LastGiven(params, "csi.storage.k8s.io/pv/name")
    else None
  }

  predicate KnownKey(key: string) {
    ToLower(key) in {"fstype", "type", "csi.storage.k8s.io/pvc/name", "csi.storage.k8s.io/pvc/namespace",
                     "csi.storage.k8s.io/pv/name"}
  }

  lemma {:induction false} FoldMeaning(volName: string, params: Pairs)
    ensures var c := Fold(volName, params);
      && c.volumeType == (if LastGiven(params, "type").Some? then LastGiven(params, "type").value else "")
      && Tag(c, CsiVolumeName) == Some(volName) && Tag(c, CreatedBy) == None
      && Tag(c, CreatedForClaim) == LastGiven(params, "csi.storage.k8s.io/pvc/name")
      && Tag(c, CreatedForNamespace) == LastGiven(params, "csi.storage.k8s.io/pvc/namespace")
      && Tag(c, CreatedForVolume) == LastGiven(params, "csi.storage.k8s.io/pv/name")
  {
    if params != [] {
      FoldMeaning(volName, params[..|params| - 1]);
    }
  }

  // The parameters are refused exactly for a key that is none of the five; otherwise type
  // and tags, by their wordings, hold the last value given under the key that goes with
  // each, the volume's name and the driver's.
  lemma CollectMeaning(volName: string, params: Pairs)
    ensures Collect(volName, params).None? <==> exists p :: p in params && !KnownKey(p.0)
    ensures Collect(volName, params).Some? ==>
      var c := Collect(volName, params).value;
      && c.volumeType == (if LastGiven(params, "type").Some? then LastGiven(params, "type").value else "")
      && forall tag: TagKey :: Tag(c, tag) == TagWanted(volName, params, tag.Text())
  {
    FoldMeaning(volName, params);
    assert forall p :: p in params ==> (KnownKey(p.0) <==> Classify(p.0) != Unknown);
    if AllKnown(params) {
      forall tag: TagKey
        ensures Tag(Collect(volName, params).value, tag) == TagWanted(volName, params, tag.Text())
      {
        TagMeaning(volName, params, tag);
      }
    }
  }

  lemma TagMeaning(volName: string, params: Pairs, tag: TagKey)
    requires AllKnown(params)
    ensures Tag(Collect(volName, params).value, tag) == TagWanted(volName, params, tag.Text())
  {
    FoldMeaning(volName, params);
    assert tag != CreatedBy ==> Tag(Collect(volName, params).value, tag) == Tag(Fold(volName, params), tag);
  }
}
