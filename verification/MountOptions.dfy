/** The mount options of NodePublishVolume: base options, then the request's flags. */
module MountOptions {

  // nodePublishVolume's own options.
  function BaseOptions(readonly: bool): seq<string> {
    if readonly then ["bind", "ro"] else ["bind"]
  }

  predicate NoDuplicates(s: seq<string>) {
    forall i, j :: 0 <= i < j < |s| ==> s[i] != s[j]
  }

  // The flags of `flags` that are neither in `seen` nor earlier in `flags`, in order.
  function FirstOccurrences(seen: set<string>, flags: seq<string>): seq<string>
    decreases flags
  {
    if flags == [] then []
    else if flags[0] in seen then FirstOccurrences(seen, flags[1..])
    else [flags[0]] + FirstOccurrences(seen + {flags[0]}, flags[1..])
  }

  function Members(s: seq<string>): set<string> {
    set x | x in s
  }

  function Merged(options: seq<string>, flags: seq<string>): seq<string> {
    options + FirstOccurrences(Members(options), flags)
  }

  method HasOption(options: seq<string>, opt: string) returns (found: bool)
    ensures found <==> opt in options
  {
    for i := 0 to |options|
      invariant opt !in options[..i]
    {
      if options[i] == opt {
        return true;
      }
    }
    return false;
  }

  // The loop of nodePublishVolumeForFileSystem.
  method MergeFlags(options: seq<string>, flags: seq<string>) returns (merged: seq<string>)
    ensures merged == Merged(options, flags)
  {
    merged := options;
    for i := 0 to |flags|
      invariant Merged(merged, flags[i..]) == Merged(options, flags)
    {
      assert flags[i..][0] == flags[i] && flags[i..][1..] == flags[i + 1..];
      var found := HasOption(merged, flags[i]);
      if !found {
        assert Members(merged + [flags[i]]) == Members(merged) + {flags[i]};
        merged := merged + [flags[i]];
      }
    }
  }

  // The flags kept: each flag once, at its first occurrence, and in that order.
  lemma {:induction false} FirstOccurrencesMeaning(seen: set<string>, flags: seq<string>)
    ensures var kept := FirstOccurrences(seen, flags);
      && NoDuplicates(kept)
      && (forall x :: x in kept <==> x in flags && x !in seen)
      && (Members(flags) <= seen ==> kept == [])
    decreases flags
  {
    if flags != [] {
      var rest := flags[1..];
      assert forall x :: x in flags <==> x == flags[0] || x in rest;
      if flags[0] in seen {
        FirstOccurrencesMeaning(seen, rest);
      } else {
        FirstOccurrencesMeaning(seen + {flags[0]}, rest);
        var kept := FirstOccurrences(seen + {flags[0]}, rest);
        assert FirstOccurrences(seen, flags) == [flags[0]] + kept;
        assert forall x :: x in [flags[0]] + kept <==> x == flags[0] || x in kept;
      }
    }
  }

  ghost predicate FirstAt(s: seq<string>, x: string, i: nat) {
    i < |s| && s[i] == x && x !in s[..i]
  }

  // Two kept flags stand in the order in which they first occur in the request.
  lemma {:induction false} KeepsFirstOccurrenceOrder(seen: set<string>, flags: seq<string>, i: nat, j: nat)
    requires i < j < |FirstOccurrences(seen, flags)|
    ensures var kept := FirstOccurrences(seen, flags);
      exists m: nat, n: nat :: m < n && FirstAt(flags, kept[i], m) && FirstAt(flags, kept[j], n)
    decreases flags
  {
    var kept := FirstOccurrences(seen, flags);
    var rest := flags[1..];
    FirstOccurrencesMeaning(seen, flags);
    if flags[0] in seen {
      KeepsFirstOccurrenceOrder(seen, rest, i, j);
      var m: nat, n: nat :| m < n && FirstAt(rest, kept[i], m) && FirstAt(rest, kept[j], n);
      ShiftFirstAt(flags, kept[i], m);
      ShiftFirstAt(flags, kept[j], n);
    } else if i == 0 {
      assert FirstAt(flags, kept[0], 0);
      var n := FirstIndex(flags, kept[j]);
    } else {
      KeepsFirstOccurrenceOrder(seen + {flags[0]}, rest, i - 1, j - 1);
      assert kept[0] == flags[0] && kept[i] != kept[0] && kept[j] != kept[0];
      var m: nat, n: nat :| m < n && FirstAt(rest, kept[i], m) && FirstAt(rest, kept[j], n);
      ShiftFirstAt(flags, kept[i], m);
      ShiftFirstAt(flags, kept[j], n);
    }
  }

  lemma ShiftFirstAt(flags: seq<string>, x: string, i: nat)
    requires flags != [] && flags[0] != x && FirstAt(flags[1..], x, i)
    ensures FirstAt(flags, x, i + 1)
  {
  }

  lemma FirstIndex(s: seq<string>, x: string) returns (i: nat)
    requires x in s
    ensures FirstAt(s, x, i)
  {
    i := 0;
    while s[i] != x
      invariant i < |s| && x !in s[..i]
      decreases |s| - i
    {
      assert s[..i + 1] == s[..i] + [s[i]];
      i := i + 1;
    }
  }

  // The options a publish ends up with: no duplicates, bind and ro first, and just
  // the flags asked for besides.
  lemma PublishOptions(readonly: bool, flags: seq<string>)
    ensures var merged := Merged(BaseOptions(readonly), flags);
      && NoDuplicates(merged)
      && BaseOptions(readonly) <= merged
      && Members(merged) == {"bind"} + (if readonly then {"ro"} else {}) + Members(flags)
  {
    var base := BaseOptions(readonly);
    FirstOccurrencesMeaning(Members(base), flags);
    var kept := FirstOccurrences(Members(base), flags);
    assert |"bind"| != |"ro"|;
    assert NoDuplicates(base);
    assert forall i :: 0 <= i < |base| ==> base[i] in Members(base);
    assert forall i :: 0 <= i < |kept| ==> kept[i] in kept && kept[i] !in Members(base);
    assert Members(base + kept) == Members(base) + Members(kept);
  }

  // Merging the same flags again changes nothing.
  lemma MergeIsIdempotent(options: seq<string>, flags: seq<string>)
    ensures Merged(Merged(options, flags), flags) == Merged(options, flags)
  {
    var once := Merged(options, flags);
    FirstOccurrencesMeaning(Members(options), flags);
    FirstOccurrencesMeaning(Members(once), flags);
  }
}
