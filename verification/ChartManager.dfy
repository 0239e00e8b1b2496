/**
 Registrations for Helm releases (controllers/chartmanager/chartmanager.go).

 For each release of a managed cluster, an ordered list of the ClusterSummaries that want to deploy it.
 The first one is the manager. The registrations of different clusters never meet, so the class holds
 those of one cluster.
 */
module ChartManager {
  import opened Common

  type Name = string
  type Registrations = map<Release, seq<Name>>

  predicate Distinct<T(==)>(s: seq<T>) {
    forall i, j :: 0 <= i < j < |s| ==> s[i] != s[j]
  }

  function Members(s: seq<Name>): set<Name> {
    set n | n in s
  }

  function Registrants(regs: Registrations, release: Release): seq<Name> {
    if release in regs then regs[release] else []
  }

  /** Only the first registrant can manage a release. A release without registrants can be managed by anybody. */
  predicate CanManage(registrants: seq<Name>, name: Name) {
    registrants == [] || registrants[0] == name
  }

  function Enrolled(s: seq<Name>, name: Name): seq<Name> {
    if name in s then s else s + [name]
  }

  function Position(s: seq<Name>, name: Name): (i: nat)
    ensures i <= |s|
    ensures name !in s[..i]
    ensures i < |s| ==> s[i] == name
  {
    if s == [] || s[0] == name then 0 else
      var rest := Position(s[1..], name);
      assert s[..1 + rest] == [s[0]] + s[1..][..rest];
      1 + rest
  }

  /** Removal moves the last element to the place of the removed one. */
  function Removed(s: seq<Name>, name: Name): seq<Name> {
    var i := Position(s, name);
    if i == |s| then s else s[i := s[|s| - 1]][..|s| - 1]
  }

  function WithManager(s: seq<Name>, name: Name): seq<Name> {
    [name] + Removed(s, name)
  }

  /** Removal takes out the name, and nothing else. */
  lemma RemovedMembers(s: seq<Name>, name: Name)
    requires Distinct(s)
    ensures Distinct(Removed(s, name))
    ensures Members(Removed(s, name)) == Members(s) - {name}
    ensures |Removed(s, name)| == if name in s then |s| - 1 else |s|
  {
    var i := Position(s, name);
    if i < |s| {
      var t := Removed(s, name);
      forall n | n in s && n != name
        ensures n in t
      {
        var k :| 0 <= k < |s| && s[k] == n;
        assert t[if k == |s| - 1 then i else k] == n;
      }
      forall n | n in t
        ensures n in s && n != name
      {
        var k :| 0 <= k < |t| && t[k] == n;
        assert n == s[if k == i then |s| - 1 else k];
      }
    } else {
      assert s[..i] == s;
    }
  }

  /**
   Who manages a release once its manager leaves: the last registrant. The comments of the package speak of
   the next in line, which is the same ClusterSummary exactly when no more than two were registered.
   */
  lemma LastRegistrantTakesOver(s: seq<Name>)
    requires |s| >= 2 && Distinct(s)
    ensures Removed(s, s[0]) != [] && Removed(s, s[0])[0] == s[|s| - 1]
    ensures Removed(s, s[0])[0] == s[1] <==> |s| == 2
  {
  }

  class ChartManager {
    var registrations: Registrations

    constructor ()
      ensures registrations == map[]
    {
      registrations := map[];
    }

    /** Every listed chart gets the ClusterSummary as registrant, after the ones already there. */
    method RegisterClusterSummaryForCharts(name: Name, charts: seq<Release>)
      modifies this
      ensures registrations.Keys == old(registrations).Keys + (set c | c in charts)
      ensures forall r :: r in registrations ==>
                registrations[r] == if r in charts then Enrolled(Registrants(old(registrations), r), name)
                                    else old(registrations)[r]
    {
      for i := 0 to |charts|
        invariant registrations.Keys == old(registrations).Keys + (set c | c in charts[..i])
        invariant forall r :: r in registrations ==>
                    registrations[r] == if r in charts[..i] then Enrolled(Registrants(old(registrations), r), name)
                                        else old(registrations)[r]
      {
        var release := charts[i];
        assert charts[..i + 1] == charts[..i] + [release];
        if release !in registrations {
          registrations := registrations[release := []];
        }
        if name !in registrations[release] {
          registrations := registrations[release := registrations[release] + [name]];
        }
      }
      assert charts[..|charts|] == charts;
    }

    /** The loop shared by the three operations that drop a registrant. */
    method RemoveRegistrant(release: Release, name: Name)
      modifies this
      ensures registrations == if release in old(registrations)
                               then old(registrations)[release := Removed(old(registrations)[release], name)]
                               else old(registrations)
    {
      if release !in registrations {
        return;
      }
      var s := registrations[release];
      var i := 0;
      while i < |s|
        invariant i <= |s| && name !in s[..i]
        invariant registrations == old(registrations)
      {
        if s[i] == name {
          FirstPosition(s, name, i);
          registrations := registrations[release := s[i := s[|s| - 1]][..|s| - 1]];
          return;
        }
        assert s[..i + 1] == s[..i] + [s[i]];
        i := i + 1;
      }
      assert s[..i] == s;
      assert Position(s, name) == |s|;
      assert registrations == registrations[release := s];
    }

    method SetManagerForChart(name: Name, release: Release)
      modifies this
      ensures registrations ==
                old(registrations)[release := WithManager(Registrants(old(registrations), release), name)]
    {
      if release !in registrations {
        registrations := registrations[release := []];
      }
      RemoveRegistrant(release, name);
      registrations := registrations[release := [name] + registrations[release]];
    }

    method UnregisterClusterSummaryForChart(name: Name, release: Release)
      modifies this
      ensures registrations == if release in old(registrations)
                               then old(registrations)[release := Removed(old(registrations)[release], name)]
                               else old(registrations)
    {
      RemoveRegistrant(release, name);
    }

    /** Every release that is not referenced loses the ClusterSummary, in whatever order the map is walked. */
    method CleanRegistrations(name: Name, referenced: set<Release>)
      modifies this
      ensures registrations.Keys == old(registrations).Keys
      ensures forall r :: r in registrations ==>
                registrations[r] == if r in referenced then old(registrations)[r]
                                    else Removed(old(registrations)[r], name)
    {
      var todo := registrations.Keys;
      while todo != {}
        invariant registrations.Keys == old(registrations).Keys && todo <= registrations.Keys
        invariant forall r :: r in registrations ==>
                    registrations[r] == if r in todo || r in referenced then old(registrations)[r]
                                        else Removed(old(registrations)[r], name)
        decreases todo
      {
        var release :| release in todo;
        if release !in referenced {
          RemoveRegistrant(release, name);
        }
        todo := todo - {release};
      }
    }

    method CanManageChart(name: Name, release: Release) returns (can: bool)
      ensures can <==> CanManage(Registrants(registrations, release), name)
    {
      if release !in registrations || |registrations[release]| == 0 {
        return true;
      }
      can := registrations[release][0] == name;
    }

    method GetManagerForChart(release: Release) returns (manager: Option<Name>)
      ensures manager.None? <==> Registrants(registrations, release) == []
      ensures manager.Some? ==> forall n :: CanManage(Registrants(registrations, release), n) <==> n == manager.value
    {
      if release !in registrations || |registrations[release]| == 0 {
        return None;
      }
      manager := Some(registrations[release][0]);
    }

    method GetRegisteredClusterSummariesForChart(release: Release) returns (registered: seq<Name>)
      ensures registered == Registrants(registrations, release)
    {
      registered := [];
      if release in registrations {
        registered := registrations[release];
      }
    }

    /** The number of releases the ClusterSummary is registered for. */
    method GetRegisteredChartsCount(name: Name) returns (count: nat)
      ensures count == |RegisteredFor(registrations, name)|
    {
      count := 0;
      var todo := registrations.Keys;
      ghost var done: set<Release> := {};
      while todo != {}
        invariant todo <= registrations.Keys && done == registrations.Keys - todo
        invariant count == |set r | r in done && name in registrations[r]|
        decreases todo
      {
        var release :| release in todo;
        var i := 0;
        var found := false;
        while i < |registrations[release]| && !found
          invariant i <= |registrations[release]|
          invariant found <==> name in registrations[release][..i]
        {
          assert registrations[release][..i + 1] == registrations[release][..i] + [registrations[release][i]];
          found := registrations[release][i] == name;
          i := i + 1;
        }
        assert registrations[release][..|registrations[release]|] == registrations[release];
        ghost var before := set r | r in done && name in registrations[r];
        done := done + {release};
        todo := todo - {release};
        ghost var after := set r | r in done && name in registrations[r];
        assert found ==> name in registrations[release];
        assert after == if found then before + {release} else before;
        if found {
          count := count + 1;
        }
      }
      assert RegisteredFor(registrations, name) == set r | r in done && name in registrations[r];
    }
  }

  lemma {:induction false} FirstPosition(s: seq<Name>, name: Name, i: nat)
    requires i < |s| && s[i] == name && name !in s[..i]
    ensures Position(s, name) == i
  {
    var p := Position(s, name);
    assert forall k :: 0 <= k < i ==> s[k] in s[..i];
    assert forall k :: 0 <= k < p ==> s[k] in s[..p];
  }

  function RegisteredFor(regs: Registrations, name: Name): set<Release> {
    set r | r in regs && name in regs[r]
  }

  // ----- The slice that callers keep -----

  /**
   GetRegisteredClusterSummariesForChart hands out the slice stored in the map, and removal works in place on
   the array behind it. This is what a caller that kept the slice, with its old length, then sees.
   */
  method RemoveInPlace(a: array<Name>, name: Name) returns (length: nat)
    requires Distinct(a[..])
    modifies a
    ensures length <= a.Length && a[..length] == Removed(old(a[..]), name)
    ensures length < a.Length ==> a[length] == old(a[length])
  {
    var i := 0;
    while i < a.Length
      invariant i <= a.Length && name !in a[..i] && a[..] == old(a[..])
    {
      if a[i] == name {
        FirstPosition(a[..], name, i);
        a[i] := a[a.Length - 1];
        length := a.Length - 1;
        return;
      }
      i := i + 1;
    }
    length := a.Length;
    assert a[..a.Length] == a[..];
  }

  /**
   "Requeue all other ClusterSummaries" walks the kept slice: it names every other registrant, and it does not
   name the one that left exactly when that one was not the last registrant.
   */
  lemma KeptSliceNamesOthers(before: seq<Name>, after: seq<Name>, name: Name)
    requires Distinct(before) && name in before
    requires |after| == |before| && after[..|before| - 1] == Removed(before, name)
    requires after[|before| - 1] == before[|before| - 1]
    ensures Members(before) - {name} <= Members(after) <= Members(before)
    ensures name !in after <==> before[|before| - 1] != name
  {
    RemovedMembers(before, name);
    var n := |before| - 1;
    assert after == after[..n] + [after[n]];
    assert forall x :: x in after <==> x in Members(after[..n]) || x == after[n];
  }
}
