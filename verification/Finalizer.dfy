/**
 The finalizer of a deleted ClusterSummary (controllers/clustersummary_controller.go: reconcileDelete,
 cleanupBeforeFinalizerRemoval, canRemoveFinalizer).
 */
module Finalizer {
  import opened Common
  import opened Deployer
  import opened FeatureDeployment
  import opened FeatureRemoval
  import opened Transition
  import Dependencies

  /**
   What one reconciliation of a deleted ClusterSummary reads: key is its own, listed the ClusterSummaries of the
   cluster. None stands for a read that fails; later is the second read of the cluster, at the very end.
   */
  datatype DeleteEnv = DeleteEnv(
    healthMonitoringRemoved: bool, ready: Option<bool>, cluster: ClusterRead, paused: Option<bool>,
    resourceSummariesRemoved: bool, key: Dependencies.Key,
    listed: Option<(Dependencies.Summaries, seq<Dependencies.Key>)>,
    successors: Successors,
    pull: Option<map<FeatureID, RemovePull>>, later: ClusterRead, profileDeleting: Option<bool>,
    deletedClusterHandled: bool, wanted: set<FeatureID>)

  ghost predicate ValidEnv(env: DeleteEnv) {
    && (env.pull.Some? ==> forall id: FeatureID :: id in env.pull.value)
    && (env.listed.Some? ==> forall k :: k in env.listed.value.1 <==> k in env.listed.value.0)
    && (forall c :: c in env.successors.candidates ==> c.name in env.successors.summaries)
  }

  function PullOf(env: DeleteEnv, id: FeatureID): Option<RemovePull>
    requires ValidEnv(env)
  {
    if env.pull.None? then None else Some(env.pull.value[id])
  }

  predicate AllRemoved(summaries: seq<FeatureSummary>) {
    forall i :: 0 <= i < |summaries| ==> summaries[i].feature.status == Removed
  }

  /** No other ClusterSummary of the cluster lists the profile. */
  predicate DependentsGone(env: DeleteEnv) {
    env.listed.Some? && Dependencies.DependentsRemoved(env.listed.value.0, env.key)
  }

  predicate Lasting(cluster: ClusterRead) {
    cluster.Present? && !cluster.deleting
  }

  /** The gates in front of the undeploy. */
  predicate GatesOpen(env: DeleteEnv) {
    && env.paused == Some(false)
    && (Lasting(env.cluster) ==> env.resourceSummariesRemoved)
    && DependentsGone(env) && AllLetGo(env.successors)
  }

  /** In terms of what is read: not paused, nothing left to look after, and nobody who depends on it or takes over. */
  lemma GatesOpenIff(env: DeleteEnv)
    requires ValidEnv(env) && env.successors.read.Present?
    ensures GatesOpen(env) <==>
              && env.paused == Some(false)
              && (env.cluster.Present? && !env.cluster.deleting ==> env.resourceSummariesRemoved)
              && env.listed.Some?
              && (forall k :: k in env.listed.value.0 && k != env.key ==>
                                env.key.profile !in env.listed.value.0[k].dependsOn)
              && (forall c :: c in env.successors.candidates ==> !HoldsUp(env.successors, c))
  {
    AllLetGoIff(env.successors);
  }

  ghost function Features(scope: Scope): map<FeatureID, Option<Feature>>
    reads scope
  {
    map id | id in {Helm, Kustomize, Resources} :: scope.Get(id)
  }

  /** The cluster is gone, at the first read or at the last one, or it is leaving and cannot be reached. */
  predicate ClusterIsGone(env: DeleteEnv) {
    || env.cluster.NotFound? || env.later.NotFound?
    || (env.cluster.Present? && env.cluster.deleting && env.ready == Some(false))
  }

  /** What has to be the case, outside of DryRun, for the finalizer to leave. */
  ghost predicate MayLeave(env: DeleteEnv, features: map<FeatureID, Option<Feature>>) {
    ClusterIsGone(env) || (GatesOpen(env) && forall id :: id in features ==> HasStatus(features[id], Removed))
  }

  lemma MayLeaveIff(env: DeleteEnv, scope: Scope)
    ensures MayLeave(env, Features(scope)) <==>
              || env.cluster.NotFound? || env.later.NotFound?
              || (env.cluster.Present? && env.cluster.deleting && env.ready == Some(false))
              || (GatesOpen(env) && forall id :: HasStatus(scope.Get(id), Removed))
  {
    if MayLeave(env, Features(scope)) && !ClusterIsGone(env) {
      forall id
        ensures HasStatus(scope.Get(id), Removed)
      {
        match id
        case Helm | Kustomize | Resources => assert id in Features(scope);
      }
    }
  }

  lemma {:induction false} LookupFinds(summaries: seq<FeatureSummary>, id: FeatureID)
    requires Lookup(summaries, id).Some?
    ensures exists i ::
              0 <= i < |summaries| && summaries[i].id == id && summaries[i].feature == Lookup(summaries, id).value
  {
    if summaries[0].id != id {
      LookupFinds(summaries[1..], id);
      var i :| 0 <= i < |summaries[1..]| && summaries[1..][i].id == id
               && summaries[1..][i].feature == Lookup(summaries[1..], id).value;
      assert summaries[i + 1] == summaries[1..][i];
    }
  }

  /** Only the features of the profile get the status. */
  function Reset(f: Option<Feature>, id: FeatureID, wanted: set<FeatureID>, status: Status, dryRun: bool)
    : Option<Feature>
  {
    if id in wanted then Some(WithStatus(f, status, None, None, dryRun)) else f
  }

  method ResetFeatureStatus(scope: Scope, wanted: set<FeatureID>, status: Status)
    modifies scope
    ensures OneEach(old(scope.summaries)) ==> OneEach(scope.summaries)
    ensures forall id :: scope.Get(id) == Reset(old(scope.Get(id)), id, wanted, status, scope.dryRun)
    ensures forall id :: id in wanted ==> HasStatus(scope.Get(id), status)
    ensures forall id :: id !in wanted ==> scope.Get(id) == old(scope.Get(id))
  {
    if Helm in wanted {
      scope.SetFeatureStatus(Helm, status, None, None);
    }
    if Resources in wanted {
      scope.SetFeatureStatus(Resources, status, None, None);
    }
    if Kustomize in wanted {
      scope.SetFeatureStatus(Kustomize, status, None, None);
    }
    forall id: FeatureID
      ensures scope.Get(id) == Reset(old(scope.Get(id)), id, wanted, status, scope.dryRun)
    {
      match id
      case Helm | Kustomize | Resources =>
    }
  }

  /** The cluster has vanished; or, in DryRun, the profile is being deleted; or every feature is Removed. */
  ghost predicate CanRemove(scope: Scope, env: DeleteEnv)
    reads scope
  {
    || env.later.NotFound?
    || (env.later.Present? &&
        if scope.dryRun then env.profileDeleting == Some(true) else AllRemoved(scope.summaries))
  }

  method CanRemoveFinalizer(scope: Scope, env: DeleteEnv) returns (can: bool)
    ensures can <==> CanRemove(scope, env)
  {
    if env.later.NotFound? {
      return true;
    }
    if env.later.Unreadable? {
      return false;
    }
    if scope.dryRun {
      return env.profileDeleting == Some(true);
    }
    for i := 0 to |scope.summaries|
      invariant forall k :: 0 <= k < i ==> scope.summaries[k].feature.status == Removed
    {
      if scope.summaries[i].feature.status != Removed {
        return false;
      }
    }
    can := true;
  }

  /** Everything is Removed, and no deployment is running. */
  ghost predicate AllGone(scope: Scope, resources: Client, kustomize: Client, helm: Client)
    reads scope, resources, kustomize, helm
  {
    && AllRemoved(scope.summaries) && (forall id :: scope.Get(id).Some?)
    && resources.deploys.running.None? && kustomize.deploys.running.None? && helm.deploys.running.None?
  }

  ghost function PassOn(scope: Scope, client: Client, id: FeatureID, pull: Option<RemovePull>): Removal
    reads scope, client
  {
    UndeployPass(scope.dryRun, pull, scope.Get(id), client.deploys, client.cleanups)
  }

  /** The feature has been undeployed once: its status and its requests are those of that pass. */
  twostate predicate IsUndeployed(scope: Scope, client: Client, id: FeatureID, pull: Option<RemovePull>)
    reads scope, client
  {
    var r := old(PassOn(scope, client, id, pull));
    scope.Get(id) == r.feature && client.deploys == r.deploys && client.cleanups == r.cleanups
  }

  twostate predicate AllUndeployed(scope: Scope, resources: Client, kustomize: Client, helm: Client, env: DeleteEnv)
    requires ValidEnv(env)
    reads scope, resources, kustomize, helm
  {
    && IsUndeployed(scope, resources, Resources, PullOf(env, Resources))
    && IsUndeployed(scope, kustomize, Kustomize, PullOf(env, Kustomize))
    && IsUndeployed(scope, helm, Helm, PullOf(env, Helm))
  }

  /** What the three passes say. */
  ghost predicate AllDone(scope: Scope, resources: Client, kustomize: Client, helm: Client, env: DeleteEnv)
    requires ValidEnv(env)
    reads scope, resources, kustomize, helm
  {
    && PassOn(scope, resources, Resources, PullOf(env, Resources)).done
    && PassOn(scope, kustomize, Kustomize, PullOf(env, Kustomize)).done
    && PassOn(scope, helm, Helm, PullOf(env, Helm)).done
  }

  /** After these passes every feature will be Removed. */
  ghost predicate AllEnd(scope: Scope, resources: Client, kustomize: Client, helm: Client, env: DeleteEnv)
    requires ValidEnv(env)
    reads scope, resources, kustomize, helm
  {
    && AllDone(scope, resources, kustomize, helm, env)
    && HasStatus(PassOn(scope, resources, Resources, PullOf(env, Resources)).feature, Removed)
    && HasStatus(PassOn(scope, kustomize, Kustomize, PullOf(env, Kustomize)).feature, Removed)
    && HasStatus(PassOn(scope, helm, Helm, PullOf(env, Helm)).feature, Removed)
  }

  /** All three features are undeployed whatever becomes of the others. */
  method UndeployAll(scope: Scope, resources: Client, kustomize: Client, helm: Client, env: DeleteEnv)
    returns (done: bool)
    requires ValidEnv(env) && resources != kustomize && resources != helm && kustomize != helm
    modifies scope, resources, kustomize, helm
    ensures AllUndeployed(scope, resources, kustomize, helm, env)
    ensures done <==> old(AllDone(scope, resources, kustomize, helm, env))
    ensures OneEach(old(scope.summaries)) ==> OneEach(scope.summaries)
    ensures done ==> forall id :: scope.Get(id).Some?
    ensures (forall id :: HasStatus(old(scope.Get(id)), Removed)) ==> scope.summaries == old(scope.summaries)
  {
    var r := UndeployFeature(scope, resources, Resources, PullOf(env, Resources));
    var k := UndeployFeature(scope, kustomize, Kustomize, PullOf(env, Kustomize));
    var h := UndeployFeature(scope, helm, Helm, PullOf(env, Helm));
    done := r && k && h;
    forall id | done
      ensures scope.Get(id).Some?
    {
      match id
      case Helm | Kustomize | Resources =>
    }
  }

  lemma UndeployPassFacts(dryRun: bool, pull: Option<RemovePull>, f: Option<Feature>, deploys: Slot, cleanups: Slot)
    ensures var r := UndeployPass(dryRun, pull, f, deploys, cleanups);
            && (r.done ==> r.feature.Some?)
            && (HasStatus(f, Removed) && deploys.running.None? ==> r.done && r.feature == f)
  {
  }

  lemma AllGoneIsDone(scope: Scope, resources: Client, kustomize: Client, helm: Client, env: DeleteEnv)
    requires ValidEnv(env) && AllGone(scope, resources, kustomize, helm)
    ensures AllDone(scope, resources, kustomize, helm, env) && forall id :: HasStatus(scope.Get(id), Removed)
  {
    forall id
      ensures HasStatus(scope.Get(id), Removed)
    {
      assert scope.Get(id).Some?;
      LookupFinds(scope.summaries, id);
    }
    UndeployPassFacts(scope.dryRun, PullOf(env, Resources), scope.Get(Resources),
                      resources.deploys, resources.cleanups);
    UndeployPassFacts(scope.dryRun, PullOf(env, Kustomize), scope.Get(Kustomize),
                      kustomize.deploys, kustomize.cleanups);
    UndeployPassFacts(scope.dryRun, PullOf(env, Helm), scope.Get(Helm), helm.deploys, helm.cleanups);
  }

  lemma {:induction false} LookupEach(summaries: seq<FeatureSummary>, i: nat)
    requires OneEach(summaries) && i < |summaries|
    ensures Lookup(summaries, summaries[i].id) == Some(summaries[i].feature)
  {
    forall k | 0 <= k < i
      ensures summaries[k].id != summaries[i].id
    {
    }
    LookupFirst(summaries, summaries[i].id, i);
  }

  /** With one entry for each, all entries are Removed exactly if all features are that have one. */
  lemma AllRemovedIff(summaries: seq<FeatureSummary>)
    requires OneEach(summaries)
    ensures AllRemoved(summaries) <==>
              forall id :: Lookup(summaries, id).Some? ==> HasStatus(Lookup(summaries, id), Removed)
  {
    if AllRemoved(summaries) {
      forall id | Lookup(summaries, id).Some?
        ensures HasStatus(Lookup(summaries, id), Removed)
      {
        LookupFinds(summaries, id);
      }
    } else {
      var i :| 0 <= i < |summaries| && summaries[i].feature.status != Removed;
      LookupEach(summaries, i);
    }
  }

  lemma AllRemovedIsRemoved(summaries: seq<FeatureSummary>)
    requires AllRemoved(summaries)
    ensures forall id :: Lookup(summaries, id).Some? ==> HasStatus(Lookup(summaries, id), Removed)
  {
    forall id | Lookup(summaries, id).Some?
      ensures HasStatus(Lookup(summaries, id), Removed)
    {
      LookupFinds(summaries, id);
    }
  }

  /** The last two steps before the finalizer: every feature is undeployed, and then asked for its status. */
  method UndeployAndCheck(scope: Scope, resources: Client, kustomize: Client, helm: Client, env: DeleteEnv)
    returns (can: bool)
    requires ValidEnv(env) && resources != kustomize && resources != helm && kustomize != helm
    modifies scope, resources, kustomize, helm
    ensures AllUndeployed(scope, resources, kustomize, helm, env)
    ensures can <==> old(AllDone(scope, resources, kustomize, helm, env)) && CanRemove(scope, env)
    ensures OneEach(old(scope.summaries)) ==> OneEach(scope.summaries)
    ensures can && !scope.dryRun && env.later.Present? ==> forall id :: HasStatus(scope.Get(id), Removed)
    ensures (env.later.Present? && !scope.dryRun && old(AllGone(scope, resources, kustomize, helm))) ==> can
  {
    if AllGone(scope, resources, kustomize, helm) {
      AllGoneIsDone(scope, resources, kustomize, helm, env);
    }
    var undeployed := UndeployAll(scope, resources, kustomize, helm, env);
    if !undeployed {
      return false;
    }
    if AllRemoved(scope.summaries) {
      AllRemovedIsRemoved(scope.summaries);
    }
    can := CanRemoveFinalizer(scope, env);
  }

  /** A cluster that stays can be reached; what belongs to one that does not has been dealt with. */
  predicate GoesOn(env: DeleteEnv) {
    && env.healthMonitoringRemoved && env.ready.Some? && !env.cluster.Unreadable?
    && if Lasting(env.cluster) then env.ready == Some(true) else env.deletedClusterHandled
  }

  /**
   reconcileDelete. Outside of DryRun the finalizer leaves only if the cluster is gone, or it is being deleted and
   not ready, or all gates were open and every feature is Removed unless the cluster went away at the last moment.
   As long as a gate is closed nothing is undeployed, and when all are open everything is.
   */
  method ReconcileDelete(scope: Scope, resources: Client, kustomize: Client, helm: Client, env: DeleteEnv)
    returns (leaves: bool)
    requires ValidEnv(env) && resources != kustomize && resources != helm && kustomize != helm
    modifies scope, resources, kustomize, helm
    ensures leaves <==>
              && GoesOn(env)
              && (env.cluster.Present? && env.ready == Some(true) ==>
                    && GatesOpen(env) && old(AllDone(scope, resources, kustomize, helm, env)) && CanRemove(scope, env))
    ensures (env.healthMonitoringRemoved && env.ready == Some(true) && Lasting(env.cluster) && GatesOpen(env)) ==>
              AllUndeployed(scope, resources, kustomize, helm, env)
    ensures leaves && !scope.dryRun ==> MayLeave(env, Features(scope))
    ensures leaves && scope.dryRun && Lasting(env.cluster) ==> env.later.NotFound? || env.profileDeleting == Some(true)
    ensures leaves ==> env.healthMonitoringRemoved && env.ready.Some? && !env.cluster.Unreadable?
    ensures leaves && (env.cluster.NotFound? || (env.cluster.Present? && env.cluster.deleting)) ==>
              env.deletedClusterHandled
    ensures (&& env.healthMonitoringRemoved && env.deletedClusterHandled && env.ready == Some(false)
             && env.cluster.Present? && env.cluster.deleting) ==> leaves
    ensures leaves ==> !Lasting(env.cluster) || (env.ready == Some(true) && GatesOpen(env))
    ensures !GatesOpen(env) && Lasting(env.cluster) ==>
              && resources.deploys == old(resources.deploys) && resources.cleanups == old(resources.cleanups)
              && kustomize.deploys == old(kustomize.deploys) && kustomize.cleanups == old(kustomize.cleanups)
              && helm.deploys == old(helm.deploys) && helm.cleanups == old(helm.cleanups)
    ensures env.healthMonitoringRemoved && env.deletedClusterHandled && env.ready.Some? && env.cluster.NotFound?
            ==> leaves
    ensures (&& env.healthMonitoringRemoved && env.ready == Some(true) && Lasting(env.cluster) && GatesOpen(env)
             && env.later.Present? && !scope.dryRun && old(AllGone(scope, resources, kustomize, helm))) ==> leaves
    ensures (&& env.healthMonitoringRemoved && env.ready == Some(true) && Lasting(env.cluster) && GatesOpen(env)
             && env.later.Present? && !scope.dryRun && OneEach(old(scope.summaries))
             && old(AllEnd(scope, resources, kustomize, helm, env))) ==> leaves
  {
    ghost var ends := AllEnd(scope, resources, kustomize, helm, env);
    if !env.healthMonitoringRemoved || env.ready.None? || env.cluster.Unreadable? {
      return false;
    }
    if env.cluster.Present? && env.ready.value {
      var done := CleanupBeforeFinalizerRemoval(scope, resources, kustomize, helm, env);
      if ends && GatesOpen(env) && OneEach(scope.summaries) {
        forall id
          ensures HasStatus(scope.Get(id), Removed)
        {
          match id
          case Helm | Kustomize | Resources =>
        }
        AllRemovedIff(scope.summaries);
      }
      if done {
        return false;
      }
    } else if env.cluster.Present? && !env.cluster.deleting {
      return false;
    }
    if env.cluster.NotFound? || env.cluster.deleting {
      helm.CleanupEntries(CleaningUp);
      kustomize.CleanupEntries(CleaningUp);
      resources.CleanupEntries(CleaningUp);
      if !env.deletedClusterHandled {
        return false;
      }
    }
    leaves := true;
  }

  /** done tells the caller to stop here and come back later. */
  method CleanupBeforeFinalizerRemoval(scope: Scope, resources: Client, kustomize: Client, helm: Client, env: DeleteEnv)
    returns (done: bool)
    requires ValidEnv(env) && resources != kustomize && resources != helm && kustomize != helm
    requires env.cluster.Present?
    modifies scope, resources, kustomize, helm
    ensures !done <==>
              GatesOpen(env) && old(AllDone(scope, resources, kustomize, helm, env)) && CanRemove(scope, env)
    ensures GatesOpen(env) ==> AllUndeployed(scope, resources, kustomize, helm, env)
    ensures !done && !scope.dryRun && env.later.Present? ==> forall id :: HasStatus(scope.Get(id), Removed)
    ensures !GatesOpen(env) ==>
              && resources.deploys == old(resources.deploys) && resources.cleanups == old(resources.cleanups)
              && kustomize.deploys == old(kustomize.deploys) && kustomize.cleanups == old(kustomize.cleanups)
              && helm.deploys == old(helm.deploys) && helm.cleanups == old(helm.cleanups)
    ensures env.paused == Some(false) && (env.cluster.deleting || env.resourceSummariesRemoved)
            && env.listed.Some? && !DependentsGone(env) ==>
              forall id :: scope.Get(id) == Reset(old(scope.Get(id)), id, env.wanted, Blocked, scope.dryRun)
    ensures env.paused == Some(false) && Lasting(env.cluster) && !env.resourceSummariesRemoved ==>
              forall id :: scope.Get(id) == Reset(old(scope.Get(id)), id, env.wanted, Failed, scope.dryRun)
    ensures env.paused == Some(false) && (env.cluster.deleting || env.resourceSummariesRemoved)
            && DependentsGone(env) && !AllLetGo(env.successors) && NoReadFails(env.successors) ==>
              forall id :: scope.Get(id) == Reset(old(scope.Get(id)), id, env.wanted, Blocked, scope.dryRun)
    ensures env.paused != Some(false) ==> scope.summaries == old(scope.summaries)
    ensures (GatesOpen(env) && env.later.Present? && !scope.dryRun
             && old(AllGone(scope, resources, kustomize, helm))) ==> !done
    ensures OneEach(old(scope.summaries)) ==> OneEach(scope.summaries)
  {
    done := true;
    if env.paused != Some(false) {
      return;
    }
    if !env.cluster.deleting && !env.resourceSummariesRemoved {
      ResetFeatureStatus(scope, env.wanted, Failed);
      return;
    }
    if env.listed.None? {
      return;
    }
    var allRemoved := Dependencies.AreDependentsRemoved(env.listed.value.0, env.listed.value.1, env.key);
    if !allRemoved {
      ResetFeatureStatus(scope, env.wanted, Blocked);
      return;
    }
    var allProvisioned := AreSuccessorsProvisioned(env.successors);
    if allProvisioned.None? {
      return;
    }
    if !allProvisioned.value {
      ResetFeatureStatus(scope, env.wanted, Blocked);
      return;
    }
    var can := UndeployAndCheck(scope, resources, kustomize, helm, env);
    done := !can;
  }

  // ----- Nothing is left behind -----

  type Contents = map<FeatureID, Content>

  datatype FeatureEvent = FeatureEvent(id: FeatureID, event: Event)

  predicate IsComplete(all: Contents) {
    Helm in all && Kustomize in all && Resources in all
  }

  /** The features are deployed, overwritten and undeployed one by one; their jobs run side by side. */
  ghost predicate Runs(max: Option<nat>, pullMode: bool, all: Contents, events: seq<FeatureEvent>)
    requires IsComplete(all)
    decreases |events|
  {
    events != [] ==>
      var id, e := events[0].id, events[0].event;
      && id in all && Possible(pullMode, all[id], e)
      && Runs(max, pullMode, all[id := Step(Config(id, false, max), pullMode, all[id], e)], events[1..])
  }

  function Finally(max: Option<nat>, pullMode: bool, all: Contents, events: seq<FeatureEvent>): (last: Contents)
    requires IsComplete(all) && Runs(max, pullMode, all, events)
    ensures IsComplete(last)
    decreases |events|
  {
    if events == [] then all
    else
      var id, e := events[0].id, events[0].event;
      Finally(max, pullMode, all[id := Step(Config(id, false, max), pullMode, all[id], e)], events[1..])
  }

  /** For none of the features a job is queued unnoticed. */
  ghost predicate AllNoticed(max: Option<nat>, pullMode: bool, all: Contents, events: seq<FeatureEvent>)
    requires IsComplete(all) && Runs(max, pullMode, all, events)
    decreases |events|
  {
    events != [] ==>
      var id, e := events[0].id, events[0].event;
      && !QueuesUnnoticed(all[id], e)
      && AllNoticed(max, pullMode, all[id := Step(Config(id, false, max), pullMode, all[id], e)], events[1..])
  }

  ghost predicate AllReal(pullMode: bool, all: Contents) {
    forall id :: id in all ==> Inv(pullMode, all[id])
  }

  ghost predicate AlwaysAllReal(max: Option<nat>, pullMode: bool, all: Contents, events: seq<FeatureEvent>)
    requires IsComplete(all) && Runs(max, pullMode, all, events)
    decreases |events|
  {
    && AllReal(pullMode, all)
    && (events != [] ==>
          var id, e := events[0].id, events[0].event;
          AlwaysAllReal(max, pullMode, all[id := Step(Config(id, false, max), pullMode, all[id], e)], events[1..]))
  }

  lemma {:induction false} RunsKeepRealIff(max: Option<nat>, pullMode: bool, all: Contents, events: seq<FeatureEvent>)
    requires IsComplete(all) && AllReal(pullMode, all) && Runs(max, pullMode, all, events)
    ensures AlwaysAllReal(max, pullMode, all, events) <==> AllNoticed(max, pullMode, all, events)
    ensures AllNoticed(max, pullMode, all, events) ==> AllReal(pullMode, Finally(max, pullMode, all, events))
    decreases |events|
  {
    if events != [] {
      var id, e := events[0].id, events[0].event;
      var next := all[id := Step(Config(id, false, max), pullMode, all[id], e)];
      StepKeepsInvIff(Config(id, false, max), pullMode, all[id], e);
      if QueuesUnnoticed(all[id], e) {
        assert id in next && !Inv(pullMode, next[id]);
      } else {
        RunsKeepRealIff(max, pullMode, next, events[1..]);
      }
    }
  }

  function Statuses(all: Contents): map<FeatureID, Option<Feature>> {
    map id | id in all :: all[id].feature
  }

  /**
   The finalizer leaves nothing behind: after any run, it may leave outside of DryRun only if the cluster is gone, or
   the content of every feature is, or some job was queued unnoticed.
   */
  lemma FinalizerLeavesNothingBehind(max: Option<nat>, pullMode: bool, all: Contents, events: seq<FeatureEvent>,
                                     env: DeleteEnv)
    requires IsComplete(all) && AllReal(pullMode, all) && Runs(max, pullMode, all, events)
    requires MayLeave(env, Statuses(Finally(max, pullMode, all, events)))
    ensures var last := Finally(max, pullMode, all, events);
            || ClusterIsGone(env)
            || (forall id :: id in last ==> if pullMode then last[id].seen && last[id].gone else !last[id].dirty)
            || !AllNoticed(max, pullMode, all, events)
  {
    RunsKeepRealIff(max, pullMode, all, events);
    var last := Finally(max, pullMode, all, events);
    if !ClusterIsGone(env) && AllNoticed(max, pullMode, all, events) {
      forall id | id in last
        ensures if pullMode then last[id].seen && last[id].gone else !last[id].dirty
      {
        assert id in Statuses(last) && Inv(pullMode, last[id]);
      }
    }
  }

  /** In push mode none ever is. */
  lemma {:induction false} PushModeIsNoticed(max: Option<nat>, all: Contents, events: seq<FeatureEvent>)
    requires IsComplete(all) && Runs(max, false, all, events)
    ensures AllNoticed(max, false, all, events)
    decreases |events|
  {
    if events != [] {
      var id, e := events[0].id, events[0].event;
      PushModeIsNoticed(max, all[id := Step(Config(id, false, max), false, all[id], e)], events[1..]);
    }
  }
}
