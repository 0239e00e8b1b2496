/**
 Deploying one feature of a ClusterSummary (controllers/clustersummary_deployer.go, pkg/scope/clustersummary.go).

 A reconciliation reads the configuration hash and the result of the last deployment job, updates the status
 of the feature, and possibly queues another job.
 */
module FeatureDeployment {
  import opened Common
  import opened Deployer

  datatype FeatureID = Helm | Kustomize | Resources

  datatype Status =
    | Provisioning
    | Provisioned
    | Failed
    | FailedNonRetriable
    | Removing
    | AgentRemoving
    | Removed
    | Blocked

  datatype Feature = Feature(status: Status, hash: Hash, failures: nat)

  datatype FeatureSummary = FeatureSummary(id: FeatureID, feature: Feature)

  // ----- The status of the features -----

  function Lookup(summaries: seq<FeatureSummary>, id: FeatureID): Option<Feature> {
    if summaries == [] then None
    else if summaries[0].id == id then Some(summaries[0].feature)
    else Lookup(summaries[1..], id)
  }

  /** No feature has two entries. */
  predicate OneEach(summaries: seq<FeatureSummary>) {
    forall i, j :: 0 <= i < j < |summaries| ==> summaries[i].id != summaries[j].id
  }

  /** A failure counts, a success clears the count, and in DryRun only the first failure is counted. */
  function WithStatus(f: Option<Feature>, status: Status, hash: Hash, failed: Option<bool>, dryRun: bool): Feature {
    Feature(status, hash,
            if f.None? then (if failed == Some(true) then 1 else 0)
            else if dryRun || failed.None? then f.value.failures
            else if failed.value then f.value.failures + 1
            else 0)
  }

  function IsFailure(status: Status): Option<bool> {
    if status in {Provisioned, Removed} then Some(false)
    else if status in {Failed, FailedNonRetriable} then Some(true)
    else None
  }

  function Updated(f: Option<Feature>, status: Status, hash: Hash, dryRun: bool): Feature {
    WithStatus(f, status, hash, IsFailure(status), dryRun)
  }

  class Scope {
    var summaries: seq<FeatureSummary>
    const dryRun: bool

    constructor (summaries: seq<FeatureSummary>, dryRun: bool)
      ensures this.summaries == summaries && this.dryRun == dryRun
    {
      this.summaries, this.dryRun := summaries, dryRun;
    }

    function Get(id: FeatureID): Option<Feature>
      reads this
    {
      Lookup(summaries, id)
    }

    method SetFeatureStatus(id: FeatureID, status: Status, hash: Hash, failed: Option<bool>)
      modifies this
      ensures OneEach(old(summaries)) ==> OneEach(summaries)
      ensures Get(id) == Some(WithStatus(old(Get(id)), status, hash, failed, dryRun))
      ensures forall other :: other != id ==> Get(other) == old(Get(other))
    {
      for i := 0 to |summaries|
        invariant summaries == old(summaries)
        invariant forall k :: 0 <= k < i ==> summaries[k].id != id
      {
        if summaries[i].id == id {
          LookupFirst(summaries, id, i);
          var before := summaries[i].feature;
          var failures := before.failures;
          if !dryRun && failed.Some? {
            failures := if failed.value then failures + 1 else 0;
          }
          summaries := summaries[i := FeatureSummary(id, Feature(status, hash, failures))];
          LookupFirst(summaries, id, i);
          LookupOthers(old(summaries), id, i, summaries[i].feature);
          return;
        }
      }
      LookupAppended(summaries, FeatureSummary(id, Feature(status, hash, if failed == Some(true) then 1 else 0)));
      summaries := summaries + [FeatureSummary(id, Feature(status, hash, if failed == Some(true) then 1 else 0))];
    }

    method ResetConsecutiveFailures(id: FeatureID)
      modifies this
      ensures OneEach(old(summaries)) ==> OneEach(summaries)
      ensures Get(id) == WithoutFailures(old(Get(id)))
      ensures forall other :: other != id ==> Get(other) == old(Get(other))
    {
      for i := 0 to |summaries|
        invariant summaries == old(summaries)
        invariant forall k :: 0 <= k < i ==> summaries[k].id != id
      {
        if summaries[i].id == id {
          LookupFirst(summaries, id, i);
          summaries := summaries[i := FeatureSummary(id, summaries[i].feature.(failures := 0))];
          LookupFirst(summaries, id, i);
          LookupOthers(old(summaries), id, i, summaries[i].feature);
          return;
        }
      }
      LookupMissing(summaries, id);
    }

    method UpdateFeatureStatus(id: FeatureID, status: Status, hash: Hash)
      modifies this
      ensures OneEach(old(summaries)) ==> OneEach(summaries)
      ensures Get(id) == Some(Updated(old(Get(id)), status, hash, dryRun))
      ensures forall other :: other != id ==> Get(other) == old(Get(other))
    {
      match status
      case Provisioned | Removed => SetFeatureStatus(id, status, hash, Some(false));
      case Failed | FailedNonRetriable => SetFeatureStatus(id, status, hash, Some(true));
      case _ => SetFeatureStatus(id, status, hash, None);
    }
  }

  function WithoutFailures(f: Option<Feature>): Option<Feature> {
    if f.None? then None else Some(f.value.(failures := 0))
  }

  lemma {:induction false} LookupFirst(summaries: seq<FeatureSummary>, id: FeatureID, i: nat)
    requires i < |summaries| && summaries[i].id == id && forall k :: 0 <= k < i ==> summaries[k].id != id
    ensures Lookup(summaries, id) == Some(summaries[i].feature)
    decreases i
  {
    if i > 0 {
      LookupFirst(summaries[1..], id, i - 1);
    }
  }

  lemma {:induction false} LookupOthers(summaries: seq<FeatureSummary>, id: FeatureID, i: nat, feature: Feature)
    requires i < |summaries| && summaries[i].id == id
    ensures forall other :: other != id ==>
              Lookup(summaries[i := FeatureSummary(id, feature)], other) == Lookup(summaries, other)
    decreases i
  {
    if i > 0 {
      LookupOthers(summaries[1..], id, i - 1, feature);
      assert summaries[i := FeatureSummary(id, feature)][1..] == summaries[1..][i - 1 := FeatureSummary(id, feature)];
    } else {
      assert summaries[0 := FeatureSummary(id, feature)][1..] == summaries[1..];
    }
  }

  lemma {:induction false} LookupMissing(summaries: seq<FeatureSummary>, id: FeatureID)
    requires forall k :: 0 <= k < |summaries| ==> summaries[k].id != id
    ensures Lookup(summaries, id) == None
  {
    if summaries != [] {
      LookupMissing(summaries[1..], id);
    }
  }

  lemma {:induction false} LookupAppended(summaries: seq<FeatureSummary>, last: FeatureSummary)
    requires forall k :: 0 <= k < |summaries| ==> summaries[k].id != last.id
    ensures Lookup(summaries, last.id) == None && Lookup(summaries + [last], last.id) == Some(last.feature)
    ensures forall other :: other != last.id ==> Lookup(summaries + [last], other) == Lookup(summaries, other)
  {
    if summaries == [] {
      assert [last][1..] == [];
    } else {
      LookupAppended(summaries[1..], last);
      assert (summaries + [last])[1..] == summaries[1..] + [last];
    }
  }

  // ----- One reconciliation -----

  datatype Config = Config(id: FeatureID, dryRun: bool, max: Option<nat>)

  /** An error that is not retriable, or a missing resource, leaves the feature without a hash. */
  datatype HashRead = Computed(hash: Hash) | HashError

  /** What the agent of a pull-mode cluster has left in the management cluster. */
  datatype PullMode = PullMode(beingProvisioned: bool, requestorHash: Option<Hash>, agent: Option<Status>,
                               yielded: bool)

  datatype Env = Env(hash: HashRead, pull: Option<PullMode>, conflictResolved: bool)

  function StoredHash(f: Option<Feature>): Hash {
    if f.None? then None else f.value.hash
  }

  predicate HasStatus(f: Option<Feature>, status: Status) {
    f.Some? && f.value.status == status
  }

  predicate MaxReached(cfg: Config, f: Option<Feature>) {
    cfg.max.Some? && (if f.None? then 0 else f.value.failures) >= cfg.max.value
  }

  predicate ShouldRedeploy(cfg: Config, f: Option<Feature>, same: bool) {
    cfg.dryRun || !same || !(HasStatus(f, Provisioned) || HasStatus(f, FailedNonRetriable))
  }

  /** The status after a failed job, and whether the job is queued again at once. */
  function AfterError(cfg: Config, env: Env, f: Option<Feature>, hash: Hash, error: DeployError): (Feature, bool) {
    var failed := Updated(f, Failed, hash, cfg.dryRun);
    if error == NonRetriable && cfg.id == Helm && env.conflictResolved then
      (Updated(Some(failed), Provisioning, hash, cfg.dryRun), false)
    else if error in {NonRetriable, Template} || MaxReached(cfg, Some(failed)) then
      (Updated(Some(failed), FailedNonRetriable, hash, cfg.dryRun), false)
    else
      (failed, error != HealthCheck)
  }

  /** proceedDeployingFeatureInPullMode: the status, and whether a job is queued. */
  function PullModeStatus(cfg: Config, pull: PullMode, f: Option<Feature>, same: bool, hash: Hash)
    : (Option<Feature>, bool)
  {
    var agent := if same && (pull.requestorHash.None? || pull.requestorHash.value == hash) then pull.agent else None;
    if agent.None? then (Some(Updated(f, Provisioning, hash, cfg.dryRun)), true)
    else match agent.value
      case Provisioned => (if pull.yielded then f else Some(Updated(f, Provisioned, hash, cfg.dryRun)), false)
      case Provisioning => (Some(Updated(f, Provisioning, hash, cfg.dryRun)), false)
      case Failed =>
        if MaxReached(cfg, f) then (Some(Updated(f, FailedNonRetriable, hash, cfg.dryRun)), false)
        else (Some(Updated(f, Failed, hash, cfg.dryRun)), true)
      case _ => (f, true)
  }

  /** proceedDeployingFeature, after what the deployer said. */
  function Proceeded(cfg: Config, env: Env, f: Option<Feature>, same: bool, hash: Hash, reading: Reading)
    : (Option<Feature>, bool)
  {
    match reading
    case Available(outcome) =>
      if outcome.error.Some? then
        var (failed, again) := AfterError(cfg, env, f, hash, outcome.error.value);
        (Some(failed), again)
      else if env.pull.Some? then
        PullModeStatus(cfg, env.pull.value, Some(Updated(f, Provisioning, hash, cfg.dryRun)), same, hash)
      else if HasStatus(f, Provisioned) && f.value.hash == hash then (f, false)
      else (Some(Updated(f, Provisioned, hash, cfg.dryRun)), false)
    case InProgress => (Some(Updated(f, Provisioning, hash, cfg.dryRun)), false)
    case Unavailable =>
      if env.pull.Some? && env.pull.value.beingProvisioned then PullModeStatus(cfg, env.pull.value, f, same, hash)
      else (Some(Updated(f, Provisioning, hash, cfg.dryRun)), true)
  }

  datatype PassResult = PassResult(feature: Option<Feature>, deploys: Slot, cleanups: Slot, queued: bool)

  /** deployFeature */
  function DeployPass(cfg: Config, env: Env, f: Option<Feature>, deploys: Slot, cleanups: Slot): PassResult {
    var cleanups' := Purged(cleanups);
    if cleanups'.running.Some? then PassResult(f, deploys, cleanups', false)
    else if env.hash.HashError? then PassResult(Some(Updated(f, Failed, None, cfg.dryRun)), deploys, cleanups', false)
    else
      var hash := env.hash.hash;
      var same := StoredHash(f) == hash;
      var f' := if same then f else WithoutFailures(f);
      if !ShouldRedeploy(cfg, f', same) then PassResult(f', deploys, cleanups', false)
      else
        var (reading, deploys') := if same then Read(deploys) else (Unavailable, deploys);
        var (feature, again) := Proceeded(cfg, env, f', same, hash, reading);
        PassResult(feature, if again then Enqueued(deploys', hash) else deploys', cleanups', again)
  }

  method DeployFeature(scope: Scope, client: Client, cfg: Config, env: Env) returns (queued: bool)
    requires scope.dryRun == cfg.dryRun
    modifies scope, client
    ensures var r := DeployPass(cfg, env, old(scope.Get(cfg.id)), old(client.deploys), old(client.cleanups));
            scope.Get(cfg.id) == r.feature && client.deploys == r.deploys && client.cleanups == r.cleanups
              && queued == r.queued
    ensures forall other :: other != cfg.id ==> scope.Get(other) == old(scope.Get(other))
  {
    client.CleanupEntries(CleaningUp);
    var cleaning := client.IsInProgress(CleaningUp);
    if cleaning {
      return false;
    }
    if env.hash.HashError? {
      scope.UpdateFeatureStatus(cfg.id, Failed, None);
      return false;
    }
    var hash := env.hash.hash;
    var same := StoredHash(scope.Get(cfg.id)) == hash;
    if !same {
      scope.ResetConsecutiveFailures(cfg.id);
    }
    if !ShouldRedeploy(cfg, scope.Get(cfg.id), same) {
      return false;
    }
    queued := ProceedDeployingFeature(scope, client, cfg, env, same, hash);
  }

  method ProceedDeployingFeature(scope: Scope, client: Client, cfg: Config, env: Env, same: bool, hash: Hash)
    returns (queued: bool)
    requires scope.dryRun == cfg.dryRun
    modifies scope, client
    ensures var (reading, deploys) := if same then Read(old(client.deploys)) else (Unavailable, old(client.deploys));
            && scope.Get(cfg.id) == Proceeded(cfg, env, old(scope.Get(cfg.id)), same, hash, reading).0
            && queued == Proceeded(cfg, env, old(scope.Get(cfg.id)), same, hash, reading).1
            && client.deploys == (if queued then Enqueued(deploys, hash) else deploys)
    ensures client.cleanups == old(client.cleanups)
    ensures forall other :: other != cfg.id ==> scope.Get(other) == old(scope.Get(other))
  {
    var reading := Unavailable;
    if same {
      reading := client.GetResult(Deploying);
    }
    match reading {
      case Available(outcome) =>
        if outcome.error.None? {
          if env.pull.Some? {
            scope.UpdateFeatureStatus(cfg.id, Provisioning, hash);
            queued := ProceedDeployingFeatureInPullMode(scope, client, cfg, env.pull.value, same, hash);
            return;
          }
          if HasStatus(scope.Get(cfg.id), Provisioned) && scope.Get(cfg.id).value.hash == hash {
            return false;
          }
          scope.UpdateFeatureStatus(cfg.id, Provisioned, hash);
          return false;
        }
        scope.UpdateFeatureStatus(cfg.id, Failed, hash);
        if cfg.id == Helm && outcome.error == Some(NonRetriable) && env.conflictResolved {
          scope.UpdateFeatureStatus(cfg.id, Provisioning, hash);
          return false;
        }
        var shouldReturn := HandleDeployerError(scope, cfg, hash, outcome.error.value);
        if shouldReturn {
          return false;
        }
      case InProgress =>
        scope.UpdateFeatureStatus(cfg.id, Provisioning, hash);
        return false;
      case Unavailable =>
        if env.pull.Some? && env.pull.value.beingProvisioned {
          queued := ProceedDeployingFeatureInPullMode(scope, client, cfg, env.pull.value, same, hash);
          return;
        }
        scope.UpdateFeatureStatus(cfg.id, Provisioning, hash);
    }
    client.Deploy(Deploying, hash);
    queued := true;
  }

  method HandleDeployerError(scope: Scope, cfg: Config, hash: Hash, error: DeployError) returns (shouldReturn: bool)
    requires scope.dryRun == cfg.dryRun && scope.Get(cfg.id).Some?
    modifies scope
    ensures var stop := error in {NonRetriable, Template} || MaxReached(cfg, old(scope.Get(cfg.id)));
            && scope.Get(cfg.id)
               == (if stop then Some(Updated(old(scope.Get(cfg.id)), FailedNonRetriable, hash, cfg.dryRun))
                                     else old(scope.Get(cfg.id)))
            && shouldReturn == (stop || error == HealthCheck)
    ensures forall other :: other != cfg.id ==> scope.Get(other) == old(scope.Get(other))
  {
    if error == NonRetriable || error == Template {
      scope.UpdateFeatureStatus(cfg.id, FailedNonRetriable, hash);
      return true;
    }
    if error == HealthCheck {
      if MaxReached(cfg, scope.Get(cfg.id)) {
        scope.UpdateFeatureStatus(cfg.id, FailedNonRetriable, hash);
      }
      return true;
    }
    if MaxReached(cfg, scope.Get(cfg.id)) {
      scope.UpdateFeatureStatus(cfg.id, FailedNonRetriable, hash);
      return true;
    }
    shouldReturn := false;
  }

  method ProceedDeployingFeatureInPullMode(scope: Scope, client: Client, cfg: Config, pull: PullMode, same: bool,
                                           hash: Hash)
    returns (queued: bool)
    requires scope.dryRun == cfg.dryRun
    modifies scope, client
    ensures scope.Get(cfg.id) == PullModeStatus(cfg, pull, old(scope.Get(cfg.id)), same, hash).0
    ensures queued == PullModeStatus(cfg, pull, old(scope.Get(cfg.id)), same, hash).1
    ensures client.deploys == (if queued then Enqueued(old(client.deploys), hash) else old(client.deploys))
    ensures client.cleanups == old(client.cleanups)
    ensures forall other :: other != cfg.id ==> scope.Get(other) == old(scope.Get(other))
  {
    var configSame := same;
    if configSame && pull.requestorHash.Some? {
      configSame := pull.requestorHash.value == hash;
    }
    if configSame && pull.agent.Some? {
      match pull.agent.value {
        case Provisioned =>
          if !pull.yielded {
            scope.UpdateFeatureStatus(cfg.id, Provisioned, hash);
          }
          return false;
        case Provisioning =>
          scope.UpdateFeatureStatus(cfg.id, Provisioning, hash);
          return false;
        case Failed =>
          if MaxReached(cfg, scope.Get(cfg.id)) {
            scope.UpdateFeatureStatus(cfg.id, FailedNonRetriable, hash);
            return false;
          }
          scope.UpdateFeatureStatus(cfg.id, Failed, hash);
        case _ =>
      }
    } else {
      scope.UpdateFeatureStatus(cfg.id, Provisioning, hash);
    }
    client.Deploy(Deploying, hash);
    queued := true;
  }

  /**
   requeueClusterSummary: refused while a deploy job runs. Otherwise a result that nobody has read is dropped, and the
   feature is provisioned anew.
   */
  method RequeueClusterSummary(scope: Scope, client: Client, id: FeatureID) returns (ok: bool)
    modifies scope, client
    ensures ok <==> old(client.deploys).running.None?
    ensures client.deploys == if ok then Read(old(client.deploys)).1 else old(client.deploys)
    ensures client.cleanups == old(client.cleanups)
    ensures scope.Get(id) == if ok then Some(Updated(old(scope.Get(id)), Provisioning, None, scope.dryRun))
            else old(scope.Get(id))
    ensures forall other :: other != id ==> scope.Get(other) == old(scope.Get(other))
  {
    var running := client.IsInProgress(Deploying);
    if running {
      return false;
    }
    var _ := client.GetResult(Deploying);
    scope.SetFeatureStatus(id, Provisioning, None, None);
    ok := true;
  }
}
