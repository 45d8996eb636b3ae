/** The zone search of CreateVolume over a topology requirement. */
module Topology {
  import opened Wrappers

  datatype Key = WellKnownZone | DriverZone | Other(name: string)

  type Segments = map<Key, string>

  datatype Requirement = Requirement(preferred: seq<Segments>, requisite: seq<Segments>)

  predicate HasZone(s: Segments) {
    WellKnownZone in s || DriverZone in s
  }

  // The zone of one topology: the well-known key goes before the driver's own.
  function ZoneOf(s: Segments): string
    requires HasZone(s)
  {
    if WellKnownZone in s then s[WellKnownZone] else s[DriverZone]
  }

  // The first topology of `terms` that names a zone.
  function FirstZone(terms: seq<Segments>): string {
    if terms == [] then ""
    else if HasZone(terms[0]) then ZoneOf(terms[0])
    else FirstZone(terms[1..])
  }

  function PickedZone(requirement: Option<Requirement>): string {
    match requirement
    case None => ""
    case Some(r) => FirstZone(r.preferred + r.requisite)
  }

  // What the search is for, in the keys themselves: the zone of the first topology that has
  // either key, which is that of the well-known key where that is there; or none has any.
  ghost predicate Picks(terms: seq<Segments>, zone: string) {
    || (exists i {:trigger terms[i]} ::
      && 0 <= i < |terms| && NoneBefore(terms, i)
      && (WellKnownZone in terms[i] ==> zone == terms[i][WellKnownZone])
      && (WellKnownZone !in terms[i] ==> DriverZone in terms[i] && zone == terms[i][DriverZone]))
    || (NoneBefore(terms, |terms|) && zone == "")
  }

  ghost predicate NoneBefore(terms: seq<Segments>, i: nat)
    requires i <= |terms|
  {
    forall j :: 0 <= j < i ==> WellKnownZone !in terms[j] && DriverZone !in terms[j]
  }

  // pickAvailabilityZone: two loops, which come to one search over preferred
  // followed by requisite.
  method PickAvailabilityZone(requirement: Option<Requirement>) returns (zone: string)
    ensures zone == PickedZone(requirement)
    ensures requirement.Some? ==> Picks(requirement.value.preferred + requirement.value.requisite, zone)
  {
    if requirement.None? {
      return "";
    }
    var preferred, requisite := requirement.value.preferred, requirement.value.requisite;
    FirstZonePicks(preferred + requisite, FirstZone(preferred + requisite));
    for i := 0 to |preferred|
      invariant FirstZone(preferred + requisite) == FirstZone(preferred[i..] + requisite)
    {
      assert (preferred[i..] + requisite)[1..] == preferred[i + 1..] + requisite;
      if WellKnownZone in preferred[i] {
        return preferred[i][WellKnownZone];
      }
      if DriverZone in preferred[i] {
        return preferred[i][DriverZone];
      }
    }
    assert preferred[|preferred|..] + requisite == requisite;
    for i := 0 to |requisite|
      invariant FirstZone(preferred + requisite) == FirstZone(requisite[i..])
    {
      if WellKnownZone in requisite[i] {
        return requisite[i][WellKnownZone];
      }
      if DriverZone in requisite[i] {
        return requisite[i][DriverZone];
      }
    }
    return "";
  }

  // The search without recursion: the topology that decides is the first to carry either
  // zone key, its well-known key goes before the driver's own, and "" stands for a list in
  // which none does.
  lemma {:induction false} FirstZoneIsFirstMatch(terms: seq<Segments>, i: nat)
    requires i <= |terms| && NoneBefore(terms, i)
    ensures i < |terms| && WellKnownZone in terms[i] ==> FirstZone(terms) == terms[i][WellKnownZone]
    ensures i < |terms| && WellKnownZone !in terms[i] && DriverZone in terms[i] ==>
      FirstZone(terms) == terms[i][DriverZone]
    ensures i == |terms| ==> FirstZone(terms) == ""
  {
    if i > 0 {
      FirstZoneIsFirstMatch(terms[1..], i - 1);
    }
  }

  // The search finds what it is for, and nothing else is.
  lemma FirstZonePicks(terms: seq<Segments>, zone: string)
    ensures Picks(terms, zone) <==> zone == FirstZone(terms)
  {
    var i := 0;
    while i < |terms| && WellKnownZone !in terms[i] && DriverZone !in terms[i]
      invariant i <= |terms| && NoneBefore(terms, i)
    {
      i := i + 1;
    }
    FirstZoneIsFirstMatch(terms, i);
    if i < |terms| {
      assert forall k :: 0 <= k < |terms| && NoneBefore(terms, k) && HasZone(terms[k]) ==> k == i;
      assert !NoneBefore(terms, |terms|);
    }
  }

  // The accessible topology newCreateVolumeResponse reports for a disk.
  function ResponseTopology(zone: string): seq<Segments> {
    [map[DriverZone := zone, WellKnownZone := zone]]
  }

  // A reported topology fed back as a requirement, as the preferred or as the
  // requisite one, leads to the zone of the disk it was reported for.
  lemma ReportedTopologyLeadsBack(zone: string, requisite: seq<Segments>)
    ensures PickedZone(Some(Requirement(ResponseTopology(zone), requisite))) == zone
    ensures PickedZone(Some(Requirement([], ResponseTopology(zone) + requisite))) == zone
  {
  }
}
