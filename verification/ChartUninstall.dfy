/**
 When the delete path may uninstall a Helm release (controllers/handlers_helm.go: canUninstallHelmChart,
 allMatchingProfilesProcessed and what they call).

 The decision reads the registrations twice: once to see that nobody else is registered for the release, and
 later to see that every other matching profile has registered its charts. Reconciliations of other profiles
 may run in between.
 */
module ChartUninstall {
  import opened Common
  import opened Labels
  import opened ChartManager
  import opened ChartOwnership

  datatype Cluster = Missing | Leaving | Live(labels: LabelSet)

  /** The namespace of a ClusterProfile is empty. */
  datatype ProfileSpec = ProfileSpec(
    namespace: string, name: string, selector: Selector, clusterRefs: seq<ClusterRef>, charts: seq<Release>,
    dryRun: bool, deleted: bool, createdAt: int)

  datatype Summary = Summary(name: Name, paused: bool)

  /**
   What the check reads from the API server. Profiles of all namespaces are listed; a ClusterSummary is looked up in
   the namespace of the cluster, by the name of its profile.
   */
  datatype World = World(cluster: Cluster, clusterProfiles: seq<ProfileSpec>, profiles: seq<ProfileSpec>,
                         summaries: map<(ProfileKind, string), Summary>)

  /** The ClusterSummary whose release is at stake. */
  datatype Leaver = Leaver(name: Name, kind: ProfileKind, profile: string, cluster: ClusterRef, deletedAt: Option<int>)

  /** The label that holds the owner is empty for an owner of the other kind. */
  function OwnerName(me: Leaver, kind: ProfileKind): string {
    if me.kind == kind then me.profile else ""
  }

  /** A profile whose claim the leaver has to wait for. Only ClusterProfiles in DryRun are passed over. */
  predicate Eligible(me: Leaver, kind: ProfileKind, p: ProfileSpec, labels: LabelSet) {
    && !(kind == ClusterProfile && p.dryRun)
    && p.name != OwnerName(me, kind) && p.charts != [] && !p.deleted
    && (me.deletedAt.Some? ==> p.createdAt <= me.deletedAt.value)
    && SelectorMatchesCluster(p.selector, p.clusterRefs, labels, me.cluster)
  }

  /** isProfileFullyProcessed: a paused ClusterSummary is not waited for. */
  predicate FullyProcessed(w: World, regs: Registrations, kind: ProfileKind, p: ProfileSpec) {
    && (kind, p.name) in w.summaries
    && (w.summaries[(kind, p.name)].paused
        || |RegisteredFor(regs, w.summaries[(kind, p.name)].name)| >= |p.charts|)
  }

  function ProfilesOf(w: World, kind: ProfileKind): seq<ProfileSpec> {
    if kind == ClusterProfile then w.clusterProfiles else w.profiles
  }

  ghost predicate AllProcessed(w: World, regs: Registrations, me: Leaver) {
    w.cluster.Live? ==>
      forall kind, p :: p in ProfilesOf(w, kind) && Eligible(me, kind, p, w.cluster.labels) ==>
                          FullyProcessed(w, regs, kind, p)
  }

  datatype Verdict =
    | Uninstall
    | NotManager
    | ManagerInProgress
    | HandOver
    | WaitForProfiles

  /** canUninstallHelmChart, whose last check reads the world w and the registrations regs. */
  ghost function CanUninstall(cs: Claimants, st: State, w: World, regs: Registrations, me: Leaver): (Verdict, seq<Name>)
  {
    var (ownership, registrants) := DetermineChartOwnership(cs, st, me.name);
    if ownership == Failed then (ManagerInProgress, registrants)
    else if ownership == Denied then (NotManager, registrants)
    else if |registrants| > 1 then (HandOver, Removed(registrants, me.name))
    else if !AllProcessed(w, regs, me) then (WaitForProfiles, registrants)
    else (Uninstall, registrants)
  }

  // ----- The operations -----

  method IsProfileProcessed(mgr: ChartManager, w: World, me: Leaver, kind: ProfileKind, p: ProfileSpec)
    returns (processed: bool)
    requires w.cluster.Live?
    ensures processed <==>
              (kind == ClusterProfile && p.dryRun) || !Eligible(me, kind, p, w.cluster.labels)
                || FullyProcessed(w, mgr.registrations, kind, p)
  {
    if kind == ClusterProfile && p.dryRun {
      return true;
    }
    if p.name == OwnerName(me, kind) || |p.charts| == 0 {
      return true;
    }
    if p.deleted {
      return true;
    }
    if me.deletedAt.Some? && p.createdAt > me.deletedAt.value {
      return true;
    }
    if !SelectorMatchesCluster(p.selector, p.clusterRefs, w.cluster.labels, me.cluster) {
      return true;
    }
    if (kind, p.name) !in w.summaries {
      return false;
    }
    var summary := w.summaries[(kind, p.name)];
    if summary.paused {
      return true;
    }
    var count := mgr.GetRegisteredChartsCount(summary.name);
    processed := count >= |p.charts|;
  }

  method AllMatchingProfilesProcessed(mgr: ChartManager, w: World, me: Leaver) returns (processed: bool)
    ensures processed <==> AllProcessed(w, mgr.registrations, me)
  {
    if w.cluster.Missing? || w.cluster.Leaving? {
      return true;
    }
    for i := 0 to |w.clusterProfiles|
      invariant forall p :: p in w.clusterProfiles[..i] && Eligible(me, ClusterProfile, p, w.cluster.labels)
                            ==> FullyProcessed(w, mgr.registrations, ClusterProfile, p)
    {
      assert w.clusterProfiles[..i + 1] == w.clusterProfiles[..i] + [w.clusterProfiles[i]];
      var one := IsProfileProcessed(mgr, w, me, ClusterProfile, w.clusterProfiles[i]);
      if !one {
        assert w.clusterProfiles[i] in ProfilesOf(w, ClusterProfile);
        return false;
      }
    }
    assert w.clusterProfiles[..|w.clusterProfiles|] == w.clusterProfiles;
    for i := 0 to |w.profiles|
      invariant forall p :: p in w.profiles[..i] && Eligible(me, ProfileKind.Profile, p, w.cluster.labels)
                            ==> FullyProcessed(w, mgr.registrations, ProfileKind.Profile, p)
    {
      assert w.profiles[..i + 1] == w.profiles[..i] + [w.profiles[i]];
      var one := IsProfileProcessed(mgr, w, me, ProfileKind.Profile, w.profiles[i]);
      if !one {
        assert w.profiles[i] in ProfilesOf(w, ProfileKind.Profile);
        return false;
      }
    }
    assert w.profiles[..|w.profiles|] == w.profiles;
    processed := true;
  }

  /** The whole decision, with nothing else running. */
  method CanUninstallHelmChart(mgr: ChartManager, release: Release, cs: Claimants, st: State, w: World, me: Leaver)
    returns (verdict: Verdict)
    requires me.name in cs && Members(st.registrants) <= cs.Keys
    requires Registrants(mgr.registrations, release) == st.registrants
    modifies mgr
    ensures verdict == CanUninstall(cs, st, w, mgr.registrations, me).0
    ensures Registrants(mgr.registrations, release) == CanUninstall(cs, st, w, mgr.registrations, me).1
    ensures forall r :: r != release ==> Registrants(mgr.registrations, r) == old(Registrants(mgr.registrations, r))
  {
    var ownership := ClaimChart(mgr, release, cs, st, me.name);
    if ownership == Failed {
      return ManagerInProgress;
    }
    if ownership == Denied {
      return NotManager;
    }
    var registrants := mgr.GetRegisteredClusterSummariesForChart(release);
    if |registrants| > 1 {
      mgr.UnregisterClusterSummaryForChart(me.name, release);
      return HandOver;
    }
    var processed := AllMatchingProfilesProcessed(mgr, w, me);
    if !processed {
      return WaitForProfiles;
    }
    verdict := Uninstall;
  }

  // ----- What the counting stands for -----

  function Charts(p: ProfileSpec): set<Release> {
    set c | c in p.charts
  }

  lemma {:induction false} DistinctCount<T>(s: seq<T>)
    ensures |set x | x in s| <= |s|
    ensures |set x | x in s| == |s| <==> Distinct(s)
  {
    if s == [] {
      assert (set x | x in s) == {};
    } else {
      var rest := s[..|s| - 1];
      var last := s[|s| - 1];
      DistinctCount(rest);
      assert s == rest + [last];
      assert (set x | x in s) == (set x | x in rest) + {last};
      if last in rest {
        assert (set x | x in s) == (set x | x in rest);
        var k :| 0 <= k < |rest| && rest[k] == last;
        assert s[k] == s[|s| - 1];
      } else {
        assert forall k :: 0 <= k < |rest| ==> s[k] == rest[k];
        assert Distinct(rest) ==> Distinct(s);
        assert Distinct(s) ==> Distinct(rest) by {
          if Distinct(s) {
            assert forall i, j :: 0 <= i < j < |rest| ==> rest[i] == s[i] && rest[j] == s[j];
          }
        }
      }
    }
  }

  /** Registrations for releases that the profile does not list any more. They go at the end of a pass only. */
  function Stale(regs: Registrations, name: Name, p: ProfileSpec): set<Release> {
    RegisteredFor(regs, name) - Charts(p)
  }

  /** Charts that the ClusterSummary has not registered for yet. */
  function Missing(regs: Registrations, name: Name, p: ProfileSpec): set<Release> {
    Charts(p) - RegisteredFor(regs, name)
  }

  /** How many charts of the profile are for a release that another one is for already. */
  function Repetitions(p: ProfileSpec): (n: nat)
    ensures n == 0 <==> Distinct(p.charts)
  {
    DistinctCount(p.charts);
    |p.charts| - |Charts(p)|
  }

  lemma SplitCount<T>(a: set<T>, b: set<T>)
    ensures |a| == |a - b| + |a * b|
  {
    assert a == (a - b) + (a * b);
  }

  /**
   What the comparison of the count stands for: it is reached exactly if the stale registrations make up for the
   missing ones and for the repetitions. Without stale ones that means that every chart is registered, each once.
   */
  lemma CountReachedIff(regs: Registrations, name: Name, p: ProfileSpec)
    ensures |RegisteredFor(regs, name)| >= |p.charts| <==>
              |Stale(regs, name, p)| >= |Missing(regs, name, p)| + Repetitions(p)
    ensures Stale(regs, name, p) == {} ==>
              (|RegisteredFor(regs, name)| >= |p.charts| <==> Missing(regs, name, p) == {} && Distinct(p.charts))
  {
    SplitCount(RegisteredFor(regs, name), Charts(p));
    SplitCount(Charts(p), RegisteredFor(regs, name));
    assert RegisteredFor(regs, name) * Charts(p) == Charts(p) * RegisteredFor(regs, name);
  }

  // ----- When a release is uninstalled -----

  /** The verdict in both directions: manager, alone, and everybody else done. */
  lemma UninstallIff(cs: Claimants, st: State, w: World, regs: Registrations, me: Leaver)
    requires me.name in cs && !cs[me.name].dryRun && Listed(cs, st)
    ensures CanUninstall(cs, st, w, regs, me).0 == Uninstall <==>
              Members(st.registrants) <= {me.name} && AllProcessed(w, regs, me)
    ensures CanUninstall(cs, st, w, regs, me).0 == Uninstall ==> CanUninstall(cs, st, w, regs, me).1 == st.registrants
  {
    if st.registrants != [] {
      assert st.registrants[0] in Members(st.registrants);
      WithManagerMembers(st.registrants, me.name);
      if |st.registrants| > 1 {
        assert st.registrants[1] in Members(st.registrants);
      }
      if st.registrants[0] != me.name {
        RemovedMembers(st.registrants, me.name);
      }
    }
  }

  /** A profile that the leaver waits for, and whose ClusterSummary is not paused. */
  ghost predicate WaitedFor(w: World, me: Leaver, kind: ProfileKind, p: ProfileSpec) {
    && w.cluster.Live? && p in ProfilesOf(w, kind) && Eligible(me, kind, p, w.cluster.labels)
    && !((kind, p.name) in w.summaries && w.summaries[(kind, p.name)].paused)
  }

  ghost predicate OthersProcessed(w: World, regs: Registrations, me: Leaver, kind: ProfileKind, p: ProfileSpec)
    requires w.cluster.Live?
  {
    forall k, q :: q in ProfilesOf(w, k) && Eligible(me, k, q, w.cluster.labels) && (k, q) != (kind, p) ==>
                     FullyProcessed(w, regs, k, q)
  }

  /** The profile has a ClusterSummary, with stale registrations for all that is missing or repeated. */
  predicate MadeUp(w: World, regs: Registrations, kind: ProfileKind, p: ProfileSpec) {
    && (kind, p.name) in w.summaries
    && var name := w.summaries[(kind, p.name)].name;
       |Stale(regs, name, p)| >= |Missing(regs, name, p)| + Repetitions(p)
  }

  /** What one profile has to do with the verdict, for any registrations at all. */
  lemma EligibleUninstallIff(cs: Claimants, st: State, w: World, regs: Registrations, me: Leaver,
                             kind: ProfileKind, p: ProfileSpec)
    requires me.name in cs && !cs[me.name].dryRun && Listed(cs, st) && WaitedFor(w, me, kind, p)
    ensures CanUninstall(cs, st, w, regs, me).0 == Uninstall <==>
              Members(st.registrants) <= {me.name} && OthersProcessed(w, regs, me, kind, p) && MadeUp(w, regs, kind, p)
  {
    UninstallIff(cs, st, w, regs, me);
    if (kind, p.name) in w.summaries {
      CountReachedIff(regs, w.summaries[(kind, p.name)].name, p);
    }
    assert FullyProcessed(w, regs, kind, p) <==> MadeUp(w, regs, kind, p);
  }

  // ----- Who is waited for -----

  function WithProfile(w: World, kind: ProfileKind, i: nat, p: ProfileSpec): World
    requires i <= |ProfilesOf(w, kind)|
  {
    var profiles := ProfilesOf(w, kind)[..i] + [p] + ProfilesOf(w, kind)[i..];
    if kind == ClusterProfile then w.(clusterProfiles := profiles) else w.(profiles := profiles)
  }

  lemma WithProfileHolds(w: World, kind: ProfileKind, i: nat, p: ProfileSpec)
    requires i <= |ProfilesOf(w, kind)|
    ensures forall q :: q in ProfilesOf(WithProfile(w, kind, i, p), kind) <==> q == p || q in ProfilesOf(w, kind)
    ensures forall other :: other != kind ==> ProfilesOf(WithProfile(w, kind, i, p), other) == ProfilesOf(w, other)
  {
    var profiles := ProfilesOf(w, kind);
    assert profiles == profiles[..i] + profiles[i..];
    assert forall q :: q in profiles <==> q in profiles[..i] || q in profiles[i..];
  }

  /** The selector is empty or does not match, and the cluster is not among those that are named. */
  predicate DoesNotMatch(p: ProfileSpec, labels: LabelSet, cluster: ClusterRef) {
    && (p.selector.Malformed? || p.selector.requirements == []
        || exists r :: r in p.selector.requirements && !Satisfies(labels, r))
    && (p.clusterRefs == [] || forall ref :: ref in p.clusterRefs ==> ref != cluster)
  }

  /** The reasons for which a profile is passed over. */
  predicate IsPassedOver(w: World, me: Leaver, kind: ProfileKind, p: ProfileSpec)
    requires w.cluster.Live?
  {
    || p.deleted || p.charts == []
    || (kind == me.kind && p.name == me.profile)
    || (kind != me.kind && p.name == "")
    || (kind == ClusterProfile && p.dryRun)
    || (me.deletedAt.Some? && me.deletedAt.value < p.createdAt)
    || DoesNotMatch(p, w.cluster.labels, me.cluster)
  }

  /** Such a profile makes no difference, wherever it is listed. */
  lemma PassedOverMakesNoDifference(cs: Claimants, st: State, w: World, regs: Registrations, me: Leaver,
                                    kind: ProfileKind, i: nat, p: ProfileSpec)
    requires i <= |ProfilesOf(w, kind)| && (w.cluster.Live? ==> IsPassedOver(w, me, kind, p))
    ensures CanUninstall(cs, st, WithProfile(w, kind, i, p), regs, me) == CanUninstall(cs, st, w, regs, me)
  {
    WithProfileHolds(w, kind, i, p);
    var w' := WithProfile(w, kind, i, p);
    if w.cluster.Live? {
      assert !Eligible(me, kind, p, w.cluster.labels);
      assert forall k, q :: FullyProcessed(w', regs, k, q) == FullyProcessed(w, regs, k, q);
    }
    assert AllProcessed(w', regs, me) <==> AllProcessed(w, regs, me);
  }

  /**
   Any other profile counts: as long as it has no ClusterSummary, or one that is not paused and has too few
   registrations, nothing is uninstalled. Once it has enough, or is paused, it makes no difference either.
   */
  lemma OthersAreWaitedForIff(cs: Claimants, st: State, w: World, regs: Registrations, me: Leaver,
                              kind: ProfileKind, i: nat, p: ProfileSpec)
    requires i <= |ProfilesOf(w, kind)| && w.cluster.Live? && !IsPassedOver(w, me, kind, p)
    requires CanUninstall(cs, st, w, regs, me).0 == Uninstall
    ensures CanUninstall(cs, st, WithProfile(w, kind, i, p), regs, me).0
            == if (kind, p.name) !in w.summaries then WaitForProfiles
               else var summary := w.summaries[(kind, p.name)];
                    if summary.paused || |RegisteredFor(regs, summary.name)| >= |p.charts| then Uninstall
                    else WaitForProfiles
  {
    WithProfileHolds(w, kind, i, p);
    var w' := WithProfile(w, kind, i, p);
    assert Eligible(me, kind, p, w.cluster.labels);
    assert forall k, q :: FullyProcessed(w', regs, k, q) == FullyProcessed(w, regs, k, q);
    assert AllProcessed(w, regs, me);
    assert AllProcessed(w', regs, me) <==> FullyProcessed(w, regs, kind, p);
  }

  /** The verdict in the order of the checks: the manager, the other registrants, and the other profiles last. */
  lemma VerdictIs(cs: Claimants, st: State, w: World, regs: Registrations, me: Leaver)
    requires me.name in cs && !cs[me.name].dryRun && Members(st.registrants) <= cs.Keys
    ensures var verdict := CanUninstall(cs, st, w, regs, me).0;
            var answer := DetermineChartOwnership(cs, st, me.name).0;
            && (verdict == ManagerInProgress <==> answer == Failed)
            && (verdict == NotManager <==> answer == Denied)
            && (st.registrants == [] || st.registrants == [me.name] ==> verdict in {Uninstall, WaitForProfiles})
            && (st.registrants == [] && !w.cluster.Live? ==> verdict == Uninstall)
            && (|st.registrants| > 1 && st.registrants[0] == me.name ==> verdict == HandOver)
  {
  }

  // ----- A wanted release -----

  /**
   Another profile lists the release: one that is not paused on this cluster, was not created after the deletion, and
   is of the namespace of the cluster if its kind has one.
   */
  ghost predicate WantedBy(w: World, me: Leaver, release: Release, kind: ProfileKind, p: ProfileSpec) {
    && WaitedFor(w, me, kind, p) && release in p.charts
    && (kind == ProfileKind.Profile ==> p.namespace == me.cluster.namespace)
  }

  ghost predicate Wanted(w: World, me: Leaver, release: Release) {
    exists kind, p :: WantedBy(w, me, release, kind, p)
  }

  /** The ClusterSummary of every other profile is another one. */
  ghost predicate OwnSummaries(w: World, me: Leaver) {
    forall kind, p :: p in ProfilesOf(w, kind) && (kind, p.name) in w.summaries && p.name != OwnerName(me, kind) ==>
                        w.summaries[(kind, p.name)].name != me.name
  }

  /** It registered for the release after the first read and before the second. */
  ghost predicate Arrived(w: World, regs: Registrations, registrants: seq<Name>, release: Release,
                          kind: ProfileKind, p: ProfileSpec)
  {
    && (kind, p.name) in w.summaries
    && w.summaries[(kind, p.name)].name in Registrants(regs, release)
    && w.summaries[(kind, p.name)].name !in registrants
  }

  /** It has not registered for the release, and the count came out right by stale registrations. */
  ghost predicate Overlooked(w: World, regs: Registrations, release: Release, kind: ProfileKind, p: ProfileSpec) {
    MadeUp(w, regs, kind, p) && release in Missing(regs, w.summaries[(kind, p.name)].name, p)
  }

  /**
   When the delete path uninstalls, the release is still wanted exactly if some profile that wants it arrived between
   the two reads, or was overlooked. There is no third way.
   */
  lemma UninstalledThoughWantedIff(cs: Claimants, st: State, w: World, regs: Registrations, me: Leaver,
                                   release: Release)
    requires me.name in cs && !cs[me.name].dryRun && Listed(cs, st) && OwnSummaries(w, me)
    requires CanUninstall(cs, st, w, regs, me).0 == Uninstall
    ensures Wanted(w, me, release) <==>
              exists kind, p :: WantedBy(w, me, release, kind, p)
                                && (|| Arrived(w, regs, st.registrants, release, kind, p)
                                    || Overlooked(w, regs, release, kind, p))
  {
    UninstallIff(cs, st, w, regs, me);
    if kind, p :| WantedBy(w, me, release, kind, p) {
      EligibleUninstallIff(cs, st, w, regs, me, kind, p);
      var name := w.summaries[(kind, p.name)].name;
      assert name in st.registrants ==> name in Members(st.registrants);
      assert Arrived(w, regs, st.registrants, release, kind, p) || Overlooked(w, regs, release, kind, p);
    }
  }

  /**
   With both reads in one step and nobody else registered, a release that a profile wants is kept exactly if another
   profile is not done, or this one has too few stale registrations to make up for what is missing and repeated. The
   release is among the missing ones, so that it takes one stale registration at least.
   */
  lemma WantedReleaseIsKeptIff(cs: Claimants, st: State, w: World, regs: Registrations, me: Leaver, release: Release,
                               kind: ProfileKind, p: ProfileSpec)
    requires me.name in cs && !cs[me.name].dryRun && Listed(cs, st) && OwnSummaries(w, me)
    requires Registrants(regs, release) == st.registrants && Members(st.registrants) <= {me.name}
    requires WantedBy(w, me, release, kind, p)
    ensures CanUninstall(cs, st, w, regs, me).0 != Uninstall <==>
              !OthersProcessed(w, regs, me, kind, p) || !MadeUp(w, regs, kind, p)
    ensures (kind, p.name) in w.summaries ==> release in Missing(regs, w.summaries[(kind, p.name)].name, p)
    ensures MadeUp(w, regs, kind, p) ==> Stale(regs, w.summaries[(kind, p.name)].name, p) != {}
  {
    EligibleUninstallIff(cs, st, w, regs, me, kind, p);
    if (kind, p.name) in w.summaries {
      var name := w.summaries[(kind, p.name)].name;
      assert name in Registrants(regs, release) ==> name in Members(st.registrants);
      assert release in Missing(regs, name, p);
    }
  }

  /** Without stale registrations a wanted release is never uninstalled in one step. */
  lemma WantedReleaseIsKept(cs: Claimants, st: State, w: World, regs: Registrations, me: Leaver, release: Release,
                            kind: ProfileKind, p: ProfileSpec)
    requires me.name in cs && !cs[me.name].dryRun && Listed(cs, st) && OwnSummaries(w, me)
    requires Registrants(regs, release) == st.registrants && WantedBy(w, me, release, kind, p)
    ensures CanUninstall(cs, st, w, regs, me).0 == Uninstall ==> MadeUp(w, regs, kind, p)
    ensures CanUninstall(cs, st, w, regs, me).0 == Uninstall ==>
              Stale(regs, w.summaries[(kind, p.name)].name, p) != {}
  {
    EligibleUninstallIff(cs, st, w, regs, me, kind, p);
    if CanUninstall(cs, st, w, regs, me).0 == Uninstall {
      WantedReleaseIsKeptIff(cs, st, w, regs, me, release, kind, p);
    }
  }

  /** Handing over drops the leaver, keeps everybody else, and makes the last of the others the manager. */
  lemma HandOverToLast(cs: Claimants, st: State, w: World, regs: Registrations, me: Leaver)
    requires me.name in cs && !cs[me.name].dryRun && Listed(cs, st)
    requires CanUninstall(cs, st, w, regs, me).0 == HandOver
    ensures var before := DetermineChartOwnership(cs, st, me.name).1;
            var after := CanUninstall(cs, st, w, regs, me).1;
            && Members(after) == Members(st.registrants) - {me.name}
            && after != [] && after[0] == before[|before| - 1]
            && CanManage(after, before[|before| - 1])
  {
    var before := DetermineChartOwnership(cs, st, me.name).1;
    WithManagerMembers(st.registrants, me.name);
    assert before[0] == me.name;
    RemovedMembers(before, me.name);
    LastRegistrantTakesOver(before);
    assert Members(before) == Members(st.registrants) + {me.name};
  }

  // ----- Where the check falls short -----

  /**
   A profile that is registered for all its charts is done exactly if it has a stale registration for every chart that
   repeats a release. With a repetition and nothing stale it blocks every uninstall on its clusters.
   */
  lemma DuplicateChartsBlockIff(cs: Claimants, st: State, w: World, regs: Registrations, me: Leaver,
                                kind: ProfileKind, p: ProfileSpec)
    requires me.name in cs && !cs[me.name].dryRun && Listed(cs, st) && WaitedFor(w, me, kind, p)
    requires (kind, p.name) in w.summaries && Missing(regs, w.summaries[(kind, p.name)].name, p) == {}
    ensures CanUninstall(cs, st, w, regs, me).0 == Uninstall <==>
              && Members(st.registrants) <= {me.name} && OthersProcessed(w, regs, me, kind, p)
              && |Stale(regs, w.summaries[(kind, p.name)].name, p)| >= Repetitions(p)
    ensures !Distinct(p.charts) && Stale(regs, w.summaries[(kind, p.name)].name, p) == {} ==>
              CanUninstall(cs, st, w, regs, me).0 != Uninstall
  {
    EligibleUninstallIff(cs, st, w, regs, me, kind, p);
  }

  /**
   A Profile of another namespace never gets a ClusterSummary for the cluster. If its selector matches, it is waited
   for all the same, and as long as no Profile of its name has one nothing is uninstalled.
   */
  lemma ForeignProfileBlocks(cs: Claimants, st: State, w: World, regs: Registrations, me: Leaver, p: ProfileSpec)
    requires me.name in cs && !cs[me.name].dryRun && Listed(cs, st)
    requires WaitedFor(w, me, ProfileKind.Profile, p) && p.namespace != me.cluster.namespace
    requires (ProfileKind.Profile, p.name) !in w.summaries
    ensures CanUninstall(cs, st, w, regs, me).0 != Uninstall
    ensures forall release :: !WantedBy(w, me, release, ProfileKind.Profile, p)
  {
    EligibleUninstallIff(cs, st, w, regs, me, ProfileKind.Profile, p);
  }

  /** The profile b wants the charts of `wanted`; its ClusterSummary "b" is there. */
  function Scene(wanted: seq<Release>): World {
    World(Live(map["env" := "prod"]),
          [ProfileSpec("", "b", Selector([In("env", {"prod"})]), [], wanted, false, false, 0)], [],
          map[(ClusterProfile, "b") := Summary("b", false)])
  }

  /** The ClusterSummary of a ClusterProfile a that was deleted at time 5. */
  const LEAVER := Leaver("a", ClusterProfile, "a", ClusterRef("ns", "c"), Some(5))

  lemma SceneIsSound(release: Release)
    ensures OwnSummaries(Scene([release]), LEAVER) && Wanted(Scene([release]), LEAVER, release)
    ensures forall regs :: FullyProcessed(Scene([release]), regs, ClusterProfile, Scene([release]).clusterProfiles[0])
                           ==> AllProcessed(Scene([release]), regs, LEAVER)
  {
    var w := Scene([release]);
    var p := w.clusterProfiles[0];
    assert WantedBy(w, LEAVER, release, ClusterProfile, p);
  }

  const CLAIMANTS: Claimants := map["a" := Claimant(100, ClusterProfile, "a", {}, false),
                                    "b" := Claimant(100, ClusterProfile, "b", {}, false)]

  /** b registers after the first read and before the second: the release it wants is uninstalled. */
  lemma ArrivalBetweenReads(release: Release)
    ensures var w, regs := Scene([release]), map[release := ["a", "b"]];
            && Wanted(w, LEAVER, release) && Stale(regs, "b", w.clusterProfiles[0]) == {}
            && CanUninstall(CLAIMANTS, State(["a"], map[], {}, {}), w, regs, LEAVER).0 == Uninstall
  {
    SceneIsSound(release);
    assert RegisteredFor(map[release := ["a", "b"]], "b") == {release};
  }

  /** b is still registered for a release it dropped: the count is right and the release it wants is uninstalled. */
  lemma StaleRegistrationFoolsTheCount(release: Release, dropped: Release)
    requires release != dropped
    ensures var w, regs := Scene([release]), map[release := ["a"], dropped := ["b"]];
            && Wanted(w, LEAVER, release) && Overlooked(w, regs, release, ClusterProfile, w.clusterProfiles[0])
            && CanUninstall(CLAIMANTS, State(Registrants(regs, release), map[], {}, {}), w, regs, LEAVER).0 == Uninstall
  {
    var w, regs := Scene([release]), map[release := ["a"], dropped := ["b"]];
    SceneIsSound(release);
    assert RegisteredFor(regs, "b") == {dropped};
    assert Charts(w.clusterProfiles[0]) == {release};
    CountReachedIff(regs, "b", w.clusterProfiles[0]);
  }
}
