/**
 Who manages a Helm release after the controller restarts (controllers/chartmanager/chartmanager.go:
 rebuildRegistrations;
 controllers/handlers_helm.go: resetHelmReleaseSummaries).

 The registrations are kept in memory only. They are rebuilt from the statuses of all ClusterSummaries: first those
 with an entry that says Managing, then the others, in the order in which they are listed.
 */
module ChartRestart {
  import opened Common
  import opened ChartManager

  datatype Entry = Entry(release: Release, managing: bool)

  /** A ClusterSummary and its Status.HelmReleaseSummaries. */
  datatype Summary = Summary(name: Name, entries: seq<Entry>)

  /** The ClusterSummary has such an entry for the release. */
  predicate Has(s: Summary, release: Release, managing: bool) {
    Entry(release, managing) in s.entries
  }

  /** The registrants after these ClusterSummaries were walked for entries of one sort. */
  function Added(registrants: seq<Name>, list: seq<Summary>, release: Release, managing: bool): seq<Name> {
    if list == [] then registrants
    else
      var before := Added(registrants, list[..|list| - 1], release, managing);
      if Has(list[|list| - 1], release, managing) then Enrolled(before, list[|list| - 1].name) else before
  }

  function Rebuilt(list: seq<Summary>, release: Release): seq<Name> {
    Added(Added([], list, release, true), list, release, false)
  }

  /** addManagers and addNonManagers */
  method AddRegistrations(regs: Registrations, s: Summary, managing: bool) returns (updated: Registrations)
    ensures forall r :: Registrants(updated, r) ==
                        if Has(s, r, managing) then Enrolled(Registrants(regs, r), s.name) else Registrants(regs, r)
  {
    updated := regs;
    for i := 0 to |s.entries|
      invariant forall r :: Registrants(updated, r) ==
                            if Entry(r, managing) in s.entries[..i] then Enrolled(Registrants(regs, r), s.name)
                            else Registrants(regs, r)
    {
      var e := s.entries[i];
      assert s.entries[..i + 1] == s.entries[..i] + [e];
      if e.managing == managing {
        assert e == Entry(e.release, managing);
        if e.release !in updated {
          updated := updated[e.release := []];
        }
        if s.name !in updated[e.release] {
          updated := updated[e.release := updated[e.release] + [s.name]];
        }
      } else {
        assert forall r :: Entry(r, managing) != e;
      }
    }
    assert s.entries[..|s.entries|] == s.entries;
  }

  method RebuildRegistrations(list: seq<Summary>) returns (regs: Registrations)
    ensures forall r :: Registrants(regs, r) == Rebuilt(list, r)
  {
    regs := map[];
    for i := 0 to |list|
      invariant forall r :: Registrants(regs, r) == Added([], list[..i], r, true)
    {
      assert list[..i + 1][..i] == list[..i];
      regs := AddRegistrations(regs, list[i], true);
    }
    assert list[..|list|] == list;
    for i := 0 to |list|
      invariant forall r :: Registrants(regs, r) == Added(Added([], list, r, true), list[..i], r, false)
    {
      assert list[..i + 1][..i] == list[..i];
      regs := AddRegistrations(regs, list[i], false);
    }
  }

  /** The entry of a ClusterSummary that loses the release is replaced by its last entry. */
  method ResetHelmReleaseSummaries(entries: seq<Entry>, release: Release) returns (rest: seq<Entry>)
    requires forall i, j :: 0 <= i < j < |entries| ==> entries[i].release != entries[j].release
    ensures forall e :: e in rest <==> e in entries && e.release != release
  {
    for i := 0 to |entries|
      invariant forall k :: 0 <= k < i ==> entries[k].release != release
    {
      if entries[i].release == release {
        var last := |entries| - 1;
        rest := if i < last then entries[i := entries[last]] else entries;
        rest := rest[..last];
        forall e | e in entries && e.release != release
          ensures e in rest
        {
          var k :| 0 <= k < |entries| && entries[k] == e;
          assert rest[if k == last then i else k] == e;
        }
        return;
      }
    }
    rest := entries;
  }

  // ----- What a restart brings back -----

  lemma {:induction false} AddedMembers(registrants: seq<Name>, list: seq<Summary>, release: Release, managing: bool)
    requires Distinct(registrants)
    ensures var after := Added(registrants, list, release, managing);
            && Distinct(after) && |registrants| <= |after| && after[..|registrants|] == registrants
            && forall n :: n in after <==>
                 n in registrants || exists i :: 0 <= i < |list| && list[i].name == n && Has(list[i], release, managing)
    decreases |list|
  {
    if list != [] {
      var rest, last := list[..|list| - 1], list[|list| - 1];
      AddedMembers(registrants, rest, release, managing);
      var before, after := Added(registrants, rest, release, managing), Added(registrants, list, release, managing);
      assert forall n :: n in after <==> n in before || (n == last.name && Has(last, release, managing));
      forall n
        ensures n in after <==>
                n in registrants || exists i :: 0 <= i < |list| && list[i].name == n && Has(list[i], release, managing)
      {
        if n in before && n !in registrants {
          var i :| 0 <= i < |rest| && rest[i].name == n && Has(rest[i], release, managing);
          assert list[i] == rest[i];
        }
        if i :| 0 <= i < |list| && list[i].name == n && Has(list[i], release, managing) {
          assert i < |rest| ==> rest[i] == list[i];
        }
      }
    }
  }

  /** A restart registers exactly the ClusterSummaries with an entry for the release, each once. */
  lemma RebuiltMembers(list: seq<Summary>, release: Release)
    ensures Distinct(Rebuilt(list, release))
    ensures forall n :: n in Rebuilt(list, release) <==>
              exists i :: 0 <= i < |list| && list[i].name == n
                && (Has(list[i], release, true) || Has(list[i], release, false))
  {
    AddedMembers([], list, release, true);
    AddedMembers(Added([], list, release, true), list, release, false);
  }

  /** The first of the list with such an entry. */
  predicate IsFirst(list: seq<Summary>, release: Release, managing: bool, i: nat) {
    i < |list| && Has(list[i], release, managing) && forall k :: 0 <= k < i ==> !Has(list[k], release, managing)
  }

  lemma {:induction false} AddedHead(list: seq<Summary>, release: Release, managing: bool, n: Name)
    ensures var after := Added([], list, release, managing);
            after != [] && after[0] == n <==> exists i: nat :: IsFirst(list, release, managing, i) && list[i].name == n
    ensures Added([], list, release, managing) == [] <==>
            forall k :: 0 <= k < |list| ==> !Has(list[k], release, managing)
    decreases |list|
  {
    if list != [] {
      var rest, last := list[..|list| - 1], list[|list| - 1];
      AddedHead(rest, release, managing, n);
      assert forall k :: 0 <= k < |rest| ==> rest[k] == list[k];
      if Added([], rest, release, managing) == [] {
        assert forall i: nat :: IsFirst(list, release, managing, i) ==> i == |rest|;
        assert Has(last, release, managing) ==> IsFirst(list, release, managing, |rest|);
      } else {
        assert forall i: nat :: IsFirst(list, release, managing, i) ==>
               i < |rest| && IsFirst(rest, release, managing, i);
        assert forall i: nat :: IsFirst(rest, release, managing, i) ==> IsFirst(list, release, managing, i);
      }
    }
  }

  /**
   After a restart a ClusterSummary manages the release exactly if it is the first one listed as Managing, or nobody
   is listed so and it is the first one with any entry.
   */
  lemma RestartManagerIff(list: seq<Summary>, release: Release, n: Name)
    ensures Rebuilt(list, release) != [] && Rebuilt(list, release)[0] == n <==>
              || (exists i: nat :: IsFirst(list, release, true, i) && list[i].name == n)
              || ((forall k :: 0 <= k < |list| ==> !Has(list[k], release, true))
                  && exists i: nat :: IsFirst(list, release, false, i) && list[i].name == n)
  {
    AddedHead(list, release, true, n);
    AddedHead(list, release, false, n);
    AddedMembers([], list, release, true);
    AddedMembers(Added([], list, release, true), list, release, false);
    var managers := Added([], list, release, true);
    if managers != [] {
      assert Rebuilt(list, release)[0] == managers[0];
    }
  }

  /** The first one listed as Managing manages, or with nobody listed so the first one listed otherwise. */
  lemma FirstListedManages(list: seq<Summary>, release: Release, managing: bool, i: nat)
    requires i < |list| && Entry(release, managing) in list[i].entries
    requires forall k :: 0 <= k < i ==> Entry(release, managing) !in list[k].entries
    requires managing || forall k :: 0 <= k < |list| ==> Entry(release, true) !in list[k].entries
    ensures Rebuilt(list, release) != [] && Rebuilt(list, release)[0] == list[i].name
  {
    assert IsFirst(list, release, managing, i);
    RestartManagerIff(list, release, list[i].name);
  }

  /** Whoever has no entry for the release is not registered for it. */
  lemma UnlistedIsForgotten(list: seq<Summary>, release: Release, n: Name)
    requires forall k :: 0 <= k < |list| && list[k].name == n ==>
               forall e :: e in list[k].entries ==> e.release != release
    ensures n !in Rebuilt(list, release)
  {
    RebuiltMembers(list, release);
  }

  /** A manager whose entry alone says Managing is the manager again. */
  lemma RestartKeepsManager(list: seq<Summary>, release: Release, i: nat)
    requires i < |list| && Has(list[i], release, true)
    requires forall k :: 0 <= k < |list| && k != i ==> !Has(list[k], release, true)
    ensures Rebuilt(list, release) != [] && Rebuilt(list, release)[0] == list[i].name
  {
    assert IsFirst(list, release, true, i);
    RestartManagerIff(list, release, list[i].name);
  }

  /**
   A takeover first removes the entry of the manager and then asks for it to be requeued, which may be refused. The
   manager still manages; a restart now does not even register it, and gives the release to the first of the others.
   */
  lemma RefusedTakeoverIsForgotten(list: seq<Summary>, release: Release, i: nat, rest: seq<Entry>, n: Name)
    requires i < |list| && Has(list[i], release, true)
             && (forall e :: e in rest <==> e in list[i].entries && e.release != release)
    requires forall k :: 0 <= k < |list| && k != i ==> !Has(list[k], release, true) && list[k].name != list[i].name
    ensures var after := list[i := Summary(list[i].name, rest)];
            && list[i].name !in Rebuilt(after, release)
            && (Rebuilt(after, release) != [] && Rebuilt(after, release)[0] == n <==>
                  exists k: nat :: IsFirst(after, release, false, k) && list[k].name == n && k != i)
  {
    var after := list[i := Summary(list[i].name, rest)];
    RebuiltMembers(after, release);
    RestartManagerIff(after, release, n);
    assert forall k :: 0 <= k < |after| ==> after[k].name == list[k].name && !Has(after[k], release, true);
    assert !Has(after[i], release, false);
    assert forall k: nat :: IsFirst(after, release, false, k) ==> k != i && after[k].name == list[k].name;
  }
}
