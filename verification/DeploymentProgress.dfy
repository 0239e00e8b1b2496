/**
 A feature whose deployments succeed becomes Provisioned (controllers/clustersummary_deployer.go), over all runs of
 reconciliations and workers.
 */
module DeploymentProgress {
  import opened Common
  import opened Deployer
  import opened FeatureDeployment
  import opened DeploymentAttempts

  // ----- What one pass does -----

  /** A pass for another configuration than the stored one queues a job for it, whatever the status was. */
  lemma ChangedConfigurationIsQueued(cfg: Config, env: Env, f: Option<Feature>, deploys: Slot, cleanups: Slot)
    requires env.hash.Computed? && StoredHash(f) != env.hash.hash && cleanups.running.None?
    ensures var r := DeployPass(cfg, env, f, deploys, cleanups);
            && r.queued && r.deploys == Enqueued(deploys, env.hash.hash) && r.deploys.queued.Some?
            && r.feature == Some(Feature(Provisioning, env.hash.hash, 0))
  {
  }

  /** With the stored one, a feature that is neither Provisioned nor given up and has no job is queued, in push mode. */
  lemma UnfinishedFeatureIsQueued(cfg: Config, env: Env, f: Option<Feature>, cleanups: Slot)
    requires env.hash == Computed(StoredHash(f)) && env.pull.None? && cleanups.running.None?
    requires f.Some? ==> f.value.status !in {Provisioned, FailedNonRetriable}
    ensures var r := DeployPass(cfg, env, f, IDLE, cleanups);
            && r.queued && r.deploys == Slot(Some(env.hash.hash), None, None)
            && r.feature.Some? && r.feature.value.status == Provisioning && r.feature.value.hash == env.hash.hash
  {
  }

  /** The success of a job is taken, in push mode. */
  lemma SuccessIsProvisioned(cfg: Config, env: Env, f: Option<Feature>, deploys: Slot, cleanups: Slot)
    requires env.hash == Computed(StoredHash(f)) && env.pull.None? && cleanups.running.None?
    requires f.Some? ==> f.value.status !in {Provisioned, FailedNonRetriable}
    requires deploys.result.Some? && deploys.result.value.error.None?
    ensures DeployPass(cfg, env, f, deploys, cleanups).feature
            == Some(Feature(Provisioned, env.hash.hash, if f.Some? && cfg.dryRun then f.value.failures else 0))
    ensures !DeployPass(cfg, env, f, deploys, cleanups).queued
  {
  }

  /** With the stored configuration, a feature that is done, or given up, is left alone. In DryRun it is not. */
  lemma FinishedFeatureIsLeft(cfg: Config, env: Env, f: Option<Feature>, deploys: Slot, cleanups: Slot)
    requires env.hash == Computed(StoredHash(f)) && cleanups.running.None? && !cfg.dryRun
    requires HasStatus(f, Provisioned) || HasStatus(f, FailedNonRetriable)
    ensures DeployPass(cfg, env, f, deploys, cleanups) == PassResult(f, deploys, Purged(cleanups), false)
  {
  }

  lemma DryRunGoesOn(cfg: Config, env: Env, f: Option<Feature>, cleanups: Slot)
    requires env.hash == Computed(StoredHash(f)) && env.pull.None? && cleanups.running.None? && cfg.dryRun
    ensures DeployPass(cfg, env, f, IDLE, cleanups).queued
  {
  }

  /** A success that says nothing new is not written again. */
  lemma SameSuccessIsNotWritten(cfg: Config, env: Env, f: Option<Feature>, deploys: Slot, cleanups: Slot)
    requires env.hash == Computed(StoredHash(f)) && env.pull.None? && cleanups.running.None?
    requires HasStatus(f, Provisioned) && deploys.result.Some? && deploys.result.value.error.None?
    ensures DeployPass(cfg, env, f, deploys, cleanups).feature == f
    ensures !DeployPass(cfg, env, f, deploys, cleanups).queued
  {
  }

  /** A job that waits or runs is waited for. */
  lemma DeploymentIsAwaited(cfg: Config, env: Env, f: Option<Feature>, deploys: Slot, cleanups: Slot)
    requires env.hash == Computed(StoredHash(f)) && cleanups.running.None?
    requires f.Some? ==> f.value.status !in {Provisioned, FailedNonRetriable}
    requires Active(deploys) && deploys.result.None?
    ensures var r := DeployPass(cfg, env, f, deploys, cleanups);
            !r.queued && r.deploys == deploys && HasStatus(r.feature, Provisioning)
  {
  }

  /** A running cleanup holds a deployment up, but nothing that only waits does. */
  lemma RunningCleanupIsAwaited(cfg: Config, env: Env, f: Option<Feature>, deploys: Slot, cleanups: Slot)
    requires cleanups.running.Some?
    ensures DeployPass(cfg, env, f, deploys, cleanups)
            == PassResult(f, deploys, Slot(None, cleanups.running, None), false)
  {
  }

  /** Without a hash the feature has failed once more, and nothing is asked of the deployer. */
  lemma HashErrorIsAFailure(cfg: Config, env: Env, f: Option<Feature>, deploys: Slot, cleanups: Slot)
    requires env.hash.HashError? && cleanups.running.None? && !cfg.dryRun
    ensures var r := DeployPass(cfg, env, f, deploys, cleanups);
            && r.feature == Some(Feature(Failed, None, (if f.Some? then f.value.failures else 0) + 1))
            && !r.queued && r.deploys == deploys
  {
  }

  /**
   A failed job: a conflict that is gone is tried again by the next pass; an error that cannot be helped, or one too
   many, ends the attempts; a failing health check is tried again later, and everything else at once.
   */
  lemma FailureIsHandled(cfg: Config, env: Env, f: Option<Feature>, deploys: Slot, cleanups: Slot)
    requires env.hash == Computed(StoredHash(f)) && cleanups.running.None? && !cfg.dryRun
    requires f.Some? ==> f.value.status !in {Provisioned, FailedNonRetriable}
    requires deploys.result.Some? && deploys.result.value.error.Some?
    ensures var r := DeployPass(cfg, env, f, deploys, cleanups);
            var error := deploys.result.value.error.value;
            var failures := (if f.Some? then f.value.failures else 0) + 1;
            && r.feature.Some? && r.feature.value.hash == env.hash.hash
            && if error == NonRetriable && cfg.id == Helm && env.conflictResolved then
                 r.feature.value.status == Provisioning && !r.queued
               else if error == NonRetriable || error == Template || (cfg.max.Some? && failures >= cfg.max.value) then
                 r.feature.value.status == FailedNonRetriable && !r.queued
               else
                 r.feature.value.status == Failed && r.feature.value.failures == failures
                 && (r.queued <==> error != HealthCheck)
  {
  }

  /** Outside of DryRun successes clear the count, failures add to it, and other statuses leave it. */
  lemma FailuresAreCounted(f: Feature, status: Status, hash: Hash)
    ensures Updated(Some(f), status, hash, false)
            == Feature(status, hash, match status
                                     case Provisioned | Removed => 0
                                     case Failed | FailedNonRetriable => f.failures + 1
                                     case Provisioning | Removing | AgentRemoving | Blocked => f.failures)
    ensures Updated(Some(f), status, hash, true) == Feature(status, hash, f.failures)
    ensures Updated(None, status, hash, false)
            == Feature(status, hash, if status == Failed || status == FailedNonRetriable then 1 else 0)
  {
  }

  // ----- Push mode -----

  /** Jobs succeed, the hash can be computed, and no cleanup is in the way. */
  predicate Fair(hash: Hash, e: Event) {
    match e
    case Pass(env, cleanups) => env.hash == Computed(hash) && env.pull.None? && cleanups.running.None?
    case Begin => true
    case End(error) => error.None?
  }

  predicate AllFair(hash: Hash, events: seq<Event>) {
    forall i :: 0 <= i < |events| ==> Fair(hash, events[i])
  }

  /** Passes that find the workers done. */
  function CalmPasses(cfg: Config, p: Progress, events: seq<Event>): nat
    requires Run(cfg, p, events)
    decreases |events|
  {
    if events == [] then 0
    else (if events[0].Pass? && !Active(p.deploys) then 1 else 0)
         + CalmPasses(cfg, Step(cfg, p, events[0]), events[1..])
  }

  /** How many of them it takes at most. */
  function Remaining(p: Progress, hash: Hash): nat {
    if StoredHash(p.feature) == hash && HasStatus(p.feature, Provisioned) then 0
    else if StoredHash(p.feature) == hash && (Active(p.deploys) || p.deploys.result.Some?) then 1
    else 2
  }

  /** Not given up for this configuration, and no failure unread. */
  predicate Hopeful(p: Progress, hash: Hash) {
    && !(p.feature.Some? && p.feature.value.hash == hash && p.feature.value.status == FailedNonRetriable)
    && (p.deploys.result.Some? ==> p.deploys.result.value.error.None?)
  }

  lemma FairStepHelps(cfg: Config, p: Progress, hash: Hash, e: Event)
    requires !cfg.dryRun && Hopeful(p, hash) && Possible(p, e) && Fair(hash, e)
    ensures var next := Step(cfg, p, e);
            && Hopeful(next, hash) && Remaining(next, hash) <= Remaining(p, hash)
            && (e.Pass? && !Active(p.deploys) && Remaining(p, hash) > 0 ==> Remaining(next, hash) < Remaining(p, hash))
  {
  }

  /**
   A feature whose jobs succeed becomes Provisioned with the current hash: in every run with two passes that find the
   workers done, however these are interleaved with others, and whatever the status and the configuration were before.
   */
  lemma {:induction false} FeatureIsProvisionedInTheEnd(cfg: Config, p: Progress, hash: Hash, events: seq<Event>)
    requires !cfg.dryRun && Hopeful(p, hash) && Run(cfg, p, events) && AllFair(hash, events)
    requires CalmPasses(cfg, p, events) >= Remaining(p, hash)
    ensures var f := Final(cfg, p, events).feature; HasStatus(f, Provisioned) && f.value.hash == hash
    decreases |events|
  {
    if events != [] {
      assert Fair(hash, events[0]);
      FairStepHelps(cfg, p, hash, events[0]);
      assert forall i :: 0 <= i < |events[1..]| ==> events[1..][i] == events[i + 1];
      FeatureIsProvisionedInTheEnd(cfg, Step(cfg, p, events[0]), hash, events[1..]);
    }
  }

  // ----- Pull mode -----

  /** A report of the agent on this configuration is taken as it is, when the job that committed it has succeeded. */
  lemma ReportIsTaken(cfg: Config, env: Env, f: Option<Feature>, deploys: Slot, cleanups: Slot)
    requires env.hash == Computed(StoredHash(f)) && env.pull.Some? && cleanups.running.None?
    requires f.Some? ==> f.value.status !in {Provisioned, FailedNonRetriable}
    requires deploys.result.Some? && deploys.result.value.error.None?
    requires env.pull.value.requestorHash in {None, Some(env.hash.hash)} && env.pull.value.agent.Some?
    ensures var r := DeployPass(cfg, env, f, deploys, cleanups);
            match env.pull.value.agent.value {
              case Provisioned => !r.queued && (HasStatus(r.feature, Provisioned) <==> !env.pull.value.yielded)
              case Provisioning => !r.queued && HasStatus(r.feature, Provisioning)
              case Failed =>
                r.queued == !MaxReached(cfg, f) && HasStatus(r.feature, if r.queued then Failed else FailedNonRetriable)
              case _ => r.queued
            }
  {
  }

  /** Jobs succeed, what they committed is found, and the agent reports that it is at work or done. */
  predicate PullFair(hash: Hash, x: PullProgress, e: Event) {
    match e
    case Pass(env, cleanups) =>
      && env.hash == Computed(hash) && env.pull.Some? && cleanups.running.None?
      && env.pull.value.agent in {Some(Provisioning), Some(Provisioned)} && !env.pull.value.yielded
      && !IsBlind(hash, x, e)
    case Begin => true
    case End(error) => error.None?
  }

  ghost predicate AllPullFair(cfg: Config, hash: Hash, x: PullProgress, events: seq<Event>)
    requires PullRun(cfg, hash, x, events)
    decreases |events|
  {
    events != [] ==>
      PullFair(hash, x, events[0]) && AllPullFair(cfg, hash, PullStep(cfg, x, events[0]), events[1..])
  }

  /** Passes that find the workers done, and the agent too. */
  predicate IsDecisive(x: PullProgress, e: Event) {
    e.Pass? && !Active(x.progress.deploys) && e.env.pull.Some? && e.env.pull.value.agent == Some(Provisioned)
  }

  function DecisivePasses(cfg: Config, hash: Hash, x: PullProgress, events: seq<Event>): nat
    requires PullRun(cfg, hash, x, events)
    decreases |events|
  {
    if events == [] then 0
    else (if IsDecisive(x, events[0]) then 1 else 0)
         + DecisivePasses(cfg, hash, PullStep(cfg, x, events[0]), events[1..])
  }

  function PullRemaining(x: PullProgress, hash: Hash): nat {
    var p := x.progress;
    if StoredHash(p.feature) == hash && HasStatus(p.feature, Provisioned) then 0
    else if StoredHash(p.feature) == hash && (Active(p.deploys) || x.waiting) then 1
    else 2
  }

  predicate PullHopeful(x: PullProgress, hash: Hash) {
    Hopeful(x.progress, hash) && (x.progress.deploys.result.Some? ==> x.waiting || Active(x.progress.deploys))
  }

  lemma PullFairStepHelps(cfg: Config, x: PullProgress, hash: Hash, e: Event)
    requires !cfg.dryRun && PullHopeful(x, hash) && Possible(x.progress, e) && PullFair(hash, x, e)
    ensures var next := PullStep(cfg, x, e);
            && PullHopeful(next, hash) && PullRemaining(next, hash) <= PullRemaining(x, hash)
            && (IsDecisive(x, e) && PullRemaining(x, hash) > 0 ==> PullRemaining(next, hash) < PullRemaining(x, hash))
  {
  }

  /** The same in pull mode, in every run with two passes that find the workers done and the agent too. */
  lemma {:induction false} PulledFeatureIsProvisionedInTheEnd(cfg: Config, x: PullProgress, hash: Hash,
                                                             events: seq<Event>)
    requires !cfg.dryRun && PullHopeful(x, hash) && PullRun(cfg, hash, x, events) && AllPullFair(cfg, hash, x, events)
    requires DecisivePasses(cfg, hash, x, events) >= PullRemaining(x, hash)
    ensures var f := PullFinal(cfg, hash, x, events).progress.feature; HasStatus(f, Provisioned) && f.value.hash == hash
    decreases |events|
  {
    if events != [] {
      PullFairStepHelps(cfg, x, hash, events[0]);
      PulledFeatureIsProvisionedInTheEnd(cfg, PullStep(cfg, x, events[0]), hash, events[1..]);
    }
  }
}
