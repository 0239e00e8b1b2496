/**
 Removing one feature of a ClusterSummary (controllers/clustersummary_deployer.go: undeployFeature and what it calls).
 */
module FeatureRemoval {
  import opened Common
  import opened Deployer
  import opened FeatureDeployment

  // ----- Undeploying a feature -----

  /** What GetRemoveStatus returns. It answers with a status only for a group with action Remove. */
  datatype RemoveReport =
    | GroupNotFound
    | ReadFailed
    | NoStatus
    | GroupStatus(removed: bool, failureMessage: bool)

  /** The agent side: a left-over deployment group, the group of the removal, and whether tracking could be ended. */
  datatype RemovePull = RemovePull(activeSource: bool, beingRemoved: bool, report: RemoveReport, terminated: bool)

  datatype Removal = Removal(feature: Option<Feature>, deploys: Slot, cleanups: Slot, done: bool,
                             consulted: Option<RemoveReport>)

  datatype AgentAnswer = AgentAnswer(feature: Option<Feature>, done: bool, again: bool)

  /** processUndeployResultInPullMode */
  function AskAgent(dryRun: bool, pull: RemovePull, f: Option<Feature>): AgentAnswer {
    match pull.report
    case GroupNotFound =>
      if HasStatus(f, AgentRemoving) then AgentAnswer(Some(Updated(f, Removed, None, dryRun)), true, false)
      else AgentAnswer(f, false, false)
    case ReadFailed => AgentAnswer(f, false, false)
    case NoStatus => AgentAnswer(Some(Updated(f, Removing, None, dryRun)), false, true)
    case GroupStatus(removed, failureMessage) =>
      if removed then
        if pull.terminated then AgentAnswer(Some(Updated(f, Removed, None, dryRun)), true, false)
        else AgentAnswer(f, false, false)
      else if failureMessage then AgentAnswer(f, false, true)
      else AgentAnswer(Some(Updated(f, AgentRemoving, None, dryRun)), true, false)
  }

  function AskedAgent(dryRun: bool, pull: RemovePull, f: Option<Feature>, deploys: Slot, cleanups: Slot): Removal {
    var answer := AskAgent(dryRun, pull, f);
    Removal(answer.feature, deploys, if answer.again then Enqueued(cleanups, None) else cleanups,
            answer.done, Some(pull.report))
  }

  /** undeployFeature, with no pull-mode data for a cluster in push mode. */
  function UndeployPass(dryRun: bool, pull: Option<RemovePull>, f: Option<Feature>, deploys: Slot, cleanups: Slot)
    : Removal
  {
    var deploys' := Purged(deploys);
    if deploys'.running.Some? then Removal(f, deploys', cleanups, false, None)
    else if HasStatus(f, Removed) then Removal(f, deploys', cleanups, true, None)
    else if pull.Some? && pull.value.activeSource then Removal(f, deploys', cleanups, false, None)
    else
      var (reading, cleanups') := Read(cleanups);
      match reading
      case InProgress => Removal(Some(Updated(f, Removing, None, dryRun)), deploys', cleanups', false, None)
      case Unavailable =>
        if pull.Some? && HasStatus(f, AgentRemoving) && pull.value.beingRemoved then
          AskedAgent(dryRun, pull.value, f, deploys', cleanups')
        else Removal(Some(Updated(f, Removing, None, dryRun)), deploys', Enqueued(cleanups', None), false, None)
      case Available(outcome) =>
        if outcome.error.None? then
          if pull.Some? then AskedAgent(dryRun, pull.value, f, deploys', cleanups')
          else Removal(Some(Updated(f, Removed, None, dryRun)), deploys', cleanups', true, None)
        else match outcome.error.value
          case Forbidden => Removal(Some(Updated(f, Removing, None, dryRun)), deploys', cleanups', true, None)
          case HandOver | WaitForProfiles => Removal(f, deploys', cleanups', false, None)
          case NonRetriable | Template =>
            Removal(Some(Updated(f, Removing, None, dryRun)), deploys', cleanups', false, None)
          case HealthCheck | Other =>
            Removal(Some(Updated(f, Failed, None, dryRun)), deploys', Enqueued(cleanups', None), false, None)
  }

  method UndeployFeature(scope: Scope, client: Client, id: FeatureID, pull: Option<RemovePull>) returns (done: bool)
    modifies scope, client
    ensures OneEach(old(scope.summaries)) ==> OneEach(scope.summaries)
    ensures var r := UndeployPass(scope.dryRun, pull, old(scope.Get(id)), old(client.deploys), old(client.cleanups));
            scope.Get(id) == r.feature && client.deploys == r.deploys && client.cleanups == r.cleanups && done == r.done
    ensures forall other :: other != id ==> scope.Get(other) == old(scope.Get(other))
    ensures HasStatus(old(scope.Get(id)), Removed) ==> scope.summaries == old(scope.summaries)
    ensures done ==> scope.Get(id).Some?
  {
    client.CleanupEntries(Deploying);
    var deploying := client.IsInProgress(Deploying);
    if deploying {
      return false;
    }
    if HasStatus(scope.Get(id), Removed) {
      return true;
    }
    if pull.Some? && pull.value.activeSource {
      return false;
    }
    done := ProcessUndeployResult(scope, client, id, pull);
  }

  method ProcessUndeployResult(scope: Scope, client: Client, id: FeatureID, pull: Option<RemovePull>)
    returns (done: bool)
    requires client.deploys == Purged(client.deploys) && client.deploys.running.None?
    requires !HasStatus(scope.Get(id), Removed) && !(pull.Some? && pull.value.activeSource)
    modifies scope, client
    ensures OneEach(old(scope.summaries)) ==> OneEach(scope.summaries)
    ensures var r := UndeployPass(scope.dryRun, pull, old(scope.Get(id)), old(client.deploys), old(client.cleanups));
            scope.Get(id) == r.feature && client.deploys == r.deploys && client.cleanups == r.cleanups && done == r.done
    ensures forall other :: other != id ==> scope.Get(other) == old(scope.Get(other))
  {
    var reading := client.GetResult(CleaningUp);
    match reading {
      case InProgress =>
        scope.UpdateFeatureStatus(id, Removing, None);
        return false;
      case Available(outcome) =>
        match outcome.error {
          case None =>
            if pull.Some? {
              done := ProcessUndeployResultInPullMode(scope, client, id, pull.value);
              return;
            }
            scope.UpdateFeatureStatus(id, Removed, None);
            return true;
          case Some(Forbidden) =>
            scope.UpdateFeatureStatus(id, Removing, None);
            return true;
          case Some(HandOver) => return false;
          case Some(WaitForProfiles) => return false;
          case Some(NonRetriable) =>
            scope.UpdateFeatureStatus(id, Removing, None);
            return false;
          case Some(Template) =>
            scope.UpdateFeatureStatus(id, Removing, None);
            return false;
          case Some(_) =>
            scope.UpdateFeatureStatus(id, Failed, None);
        }
      case Unavailable =>
        if pull.Some? && HasStatus(scope.Get(id), AgentRemoving) && pull.value.beingRemoved {
          done := ProcessUndeployResultInPullMode(scope, client, id, pull.value);
          return;
        }
        scope.UpdateFeatureStatus(id, Removing, None);
    }
    client.Deploy(CleaningUp, None);
    done := false;
  }

  method ProcessUndeployResultInPullMode(scope: Scope, client: Client, id: FeatureID, pull: RemovePull)
    returns (done: bool)
    modifies scope, client
    ensures OneEach(old(scope.summaries)) ==> OneEach(scope.summaries)
    ensures var r := AskedAgent(scope.dryRun, pull, old(scope.Get(id)), old(client.deploys), old(client.cleanups));
            scope.Get(id) == r.feature && client.deploys == r.deploys && client.cleanups == r.cleanups && done == r.done
    ensures forall other :: other != id ==> scope.Get(other) == old(scope.Get(other))
  {
    match pull.report {
      case GroupNotFound =>
        if HasStatus(scope.Get(id), AgentRemoving) {
          scope.UpdateFeatureStatus(id, Removed, None);
          return true;
        }
        return false;
      case ReadFailed => return false;
      case NoStatus => scope.UpdateFeatureStatus(id, Removing, None);
      case GroupStatus(removed, failureMessage) =>
        if removed {
          if !pull.terminated {
            return false;
          }
          scope.UpdateFeatureStatus(id, Removed, None);
          return true;
        }
        if !failureMessage {
          scope.UpdateFeatureStatus(id, AgentRemoving, None);
          return true;
        }
    }
    client.Deploy(CleaningUp, None);
    done := false;
  }

  // ----- Removed means removed -----

  /**
   The feature, its two deployer slots, and what has happened to its content: in push mode `dirty` from the start of
   a deployment to the end of a successful cleanup; in pull mode `seen` once the group of the removal was seen after
   the last request to deploy, and `gone` once that group was then reported Removed or had vanished.
   */
  datatype Content = Content(feature: Option<Feature>, deploys: Slot, cleanups: Slot, dirty: bool, seen: bool,
                             gone: bool)

  datatype Event =
    | DeployAgain(env: Env)
    | Undeploy(pull: Option<RemovePull>)
    | Begin(kind: Kind, serial: nat)
    | End(kind: Kind, error: Option<DeployError>)
    | Overwrite(status: Status)

  /** The cluster is in pull mode or it is not. Overwrites are the statuses set when something else is in the way. */
  predicate Possible(pullMode: bool, c: Content, e: Event) {
    match e
    case DeployAgain(env) => env.pull.Some? == pullMode
    case Undeploy(pull) => pull.Some? == pullMode
    case Begin(k, _) => CanStart(if k == Deploying then c.deploys else c.cleanups)
    case End(k, _) => (if k == Deploying then c.deploys else c.cleanups).running.Some?
    case Overwrite(status) => status in {Blocked, Failed, FailedNonRetriable, Provisioning}
  }

  function Step(cfg: Config, pullMode: bool, c: Content, e: Event): Content
    requires Possible(pullMode, c, e)
  {
    match e
    case DeployAgain(env) =>
      var r := DeployPass(cfg, env, c.feature, c.deploys, c.cleanups);
      Content(r.feature, r.deploys, r.cleanups, c.dirty, c.seen && !r.queued, c.gone && !r.queued)
    case Undeploy(pull) =>
      var r := UndeployPass(cfg.dryRun, pull, c.feature, c.deploys, c.cleanups);
      var seen := c.seen || (r.consulted.Some? && r.consulted.value.GroupStatus?);
      Content(r.feature, r.deploys, r.cleanups, c.dirty, seen,
              c.gone || (seen && r.consulted.Some?
                         && (r.consulted.value.GroupNotFound?
                             || (r.consulted.value.GroupStatus? && r.consulted.value.removed))))
    case Begin(Deploying, serial) => c.(deploys := Started(c.deploys, serial), dirty := true)
    case Begin(CleaningUp, serial) => c.(cleanups := Started(c.cleanups, serial))
    case End(Deploying, error) => c.(deploys := Finished(c.deploys, error))
    case End(CleaningUp, error) => c.(cleanups := Finished(c.cleanups, error), dirty := c.dirty && error.Some?)
    case Overwrite(status) => c.(feature := Some(WithStatus(c.feature, status, None, None, cfg.dryRun)))
  }

  /**
   What may be said to be gone. Content comes with the start of a deployment and goes with the success of a cleanup;
   in pull mode a request to deploy makes it count as there, and a group that was seen and then reported as removed,
   or not found any more, as gone.
   */
  lemma ContentComesAndGoes(cfg: Config, pullMode: bool, c: Content, e: Event)
    requires Possible(pullMode, c, e)
    ensures var next := Step(cfg, pullMode, c, e);
            && (e.Begin? && e.kind == Deploying ==> next.dirty)
            && (c.dirty && !next.dirty ==> e == End(CleaningUp, None))
            && (e.DeployAgain? && DeployPass(cfg, e.env, c.feature, c.deploys, c.cleanups).queued ==>
                  !next.seen && !next.gone)
            && (!c.seen && next.seen ==> e.Undeploy? && e.pull.Some? && e.pull.value.report.GroupStatus?)
            && (!c.gone && next.gone ==>
                  && e.Undeploy? && e.pull.Some?
                  && var report := e.pull.value.report;
                     (c.seen && report.GroupNotFound?) || (report.GroupStatus? && report.removed))
  {
  }

  /** The status Removed stands for content that is gone. */
  predicate RemovedIsReal(pullMode: bool, c: Content) {
    HasStatus(c.feature, Removed) ==> if pullMode then c.seen && c.gone else !c.dirty
  }

  predicate Inv(pullMode: bool, c: Content) {
    && RemovedIsReal(pullMode, c)
    && !(Active(c.deploys) && Active(c.cleanups))
    && (c.cleanups.result.Some? && c.cleanups.result.value.error.None? ==> !c.dirty && !Active(c.deploys))
    && (HasStatus(c.feature, Removed) ==> c.feature.value.hash.None? && !Active(c.deploys))
    && (HasStatus(c.feature, AgentRemoving) ==> c.feature.value.hash.None? && (pullMode ==> c.seen))
  }

  predicate IsRemoval(f: Option<Feature>) {
    HasStatus(f, Removed) || HasStatus(f, AgentRemoving)
  }

  /**
   In pull mode, a configuration without a hash looks unchanged once the feature is removed. When the agent then reports
   neither a deployment nor a failure, a job is queued and the status stays as it is.
   */
  predicate QueuesUnnoticed(c: Content, e: Event) {
    && e.DeployAgain? && e.env.pull.Some? && e.env.hash == Computed(None)
    && c.cleanups.running.None?
    && IsRemoval(c.feature) && !Active(c.deploys) && c.deploys.result.None?
    && e.env.pull.value.beingProvisioned
    && (e.env.pull.value.requestorHash.None? || e.env.pull.value.requestorHash.value.None?)
    && e.env.pull.value.agent.Some? && e.env.pull.value.agent.value !in {Provisioning, Provisioned, Failed}
  }

  lemma ProceededIsRemoval(cfg: Config, env: Env, f: Option<Feature>, same: bool, hash: Hash, reading: Reading)
    requires IsRemoval(Proceeded(cfg, env, f, same, hash, reading).0)
    ensures Proceeded(cfg, env, f, same, hash, reading).0 == f
    ensures reading.Unavailable? && env.pull.Some? && env.pull.value.beingProvisioned && same
    ensures var pull := env.pull.value;
            && pull.agent.Some? && (pull.requestorHash.None? || pull.requestorHash.value == hash)
            && (Proceeded(cfg, env, f, same, hash, reading).1 ==>
                  pull.agent.value !in {Provisioning, Provisioned, Failed})
  {
  }

  /** A deploying pass leaves one of these statuses only as it found it. */
  lemma RemovalIsKept(cfg: Config, c: Content, env: Env)
    requires IsRemoval(c.feature) ==> c.feature.value.hash.None?
    requires IsRemoval(DeployPass(cfg, env, c.feature, c.deploys, c.cleanups).feature)
    ensures var r := DeployPass(cfg, env, c.feature, c.deploys, c.cleanups);
            r.feature == c.feature && (r.queued || r.deploys == c.deploys)
    ensures var r := DeployPass(cfg, env, c.feature, c.deploys, c.cleanups);
            r.queued ==> QueuesUnnoticed(c, DeployAgain(env))
  {
    if c.cleanups.running.None? {
      var hash := env.hash.hash;
      var same := StoredHash(c.feature) == hash;
      var f := if same then c.feature else WithoutFailures(c.feature);
      if ShouldRedeploy(cfg, f, same) {
        ProceededIsRemoval(cfg, env, f, same, hash, if same then Read(c.deploys).0 else Unavailable);
      }
    }
  }

  lemma UnnoticedIsQueued(cfg: Config, c: Content, env: Env)
    requires QueuesUnnoticed(c, DeployAgain(env)) && c.feature.value.hash.None?
    ensures var r := DeployPass(cfg, env, c.feature, c.deploys, c.cleanups); r.queued && r.feature == c.feature
  {
  }

  lemma DeployKeepsInvIff(cfg: Config, pullMode: bool, c: Content, env: Env)
    requires Inv(pullMode, c) && Possible(pullMode, c, DeployAgain(env))
    ensures Inv(pullMode, Step(cfg, pullMode, c, DeployAgain(env))) <==> !QueuesUnnoticed(c, DeployAgain(env))
  {
    var r := DeployPass(cfg, env, c.feature, c.deploys, c.cleanups);
    if IsRemoval(r.feature) {
      RemovalIsKept(cfg, c, env);
    }
    if QueuesUnnoticed(c, DeployAgain(env)) {
      UnnoticedIsQueued(cfg, c, env);
    }
  }

  lemma UndeployKeepsInv(cfg: Config, pullMode: bool, c: Content, pull: Option<RemovePull>)
    requires Inv(pullMode, c) && Possible(pullMode, c, Undeploy(pull))
    ensures Inv(pullMode, Step(cfg, pullMode, c, Undeploy(pull)))
  {
  }

  /** A step keeps what the statuses stand for, unless it queues a job unnoticed. */
  lemma StepKeepsInvIff(cfg: Config, pullMode: bool, c: Content, e: Event)
    requires Inv(pullMode, c) && Possible(pullMode, c, e)
    ensures Inv(pullMode, Step(cfg, pullMode, c, e)) <==> !QueuesUnnoticed(c, e)
  {
    match e
    case DeployAgain(env) => DeployKeepsInvIff(cfg, pullMode, c, env);
    case Undeploy(pull) => UndeployKeepsInv(cfg, pullMode, c, pull);
    case _ =>
  }

  ghost predicate Run(cfg: Config, pullMode: bool, c: Content, events: seq<Event>)
    decreases |events|
  {
    events != [] ==>
      Possible(pullMode, c, events[0]) && Run(cfg, pullMode, Step(cfg, pullMode, c, events[0]), events[1..])
  }

  function Final(cfg: Config, pullMode: bool, c: Content, events: seq<Event>): Content
    requires Run(cfg, pullMode, c, events)
    decreases |events|
  {
    if events == [] then c else Final(cfg, pullMode, Step(cfg, pullMode, c, events[0]), events[1..])
  }

  /** No job is queued unnoticed. */
  ghost predicate Noticed(cfg: Config, pullMode: bool, c: Content, events: seq<Event>)
    requires Run(cfg, pullMode, c, events)
    decreases |events|
  {
    events != [] ==>
      !QueuesUnnoticed(c, events[0]) && Noticed(cfg, pullMode, Step(cfg, pullMode, c, events[0]), events[1..])
  }

  /** However deployments, removals and jobs alternate, a feature is Removed only when its content is gone. */
  lemma {:induction false} RemovedOnlyWhenGone(cfg: Config, pullMode: bool, c: Content, events: seq<Event>)
    requires Inv(pullMode, c) && Run(cfg, pullMode, c, events) && Noticed(cfg, pullMode, c, events)
    ensures RemovedIsReal(pullMode, Final(cfg, pullMode, c, events)) && Inv(pullMode, Final(cfg, pullMode, c, events))
    decreases |events|
  {
    if events != [] {
      StepKeepsInvIff(cfg, pullMode, c, events[0]);
      RemovedOnlyWhenGone(cfg, pullMode, Step(cfg, pullMode, c, events[0]), events[1..]);
    }
  }

  /** Some continuation in which no further job is queued unnoticed ends in a status Removed that is not real. */
  ghost predicate CanBecomeUnreal(cfg: Config, pullMode: bool, c: Content) {
    exists events :: Run(cfg, pullMode, c, events) && Noticed(cfg, pullMode, c, events)
                     && !RemovedIsReal(pullMode, Final(cfg, pullMode, c, events))
  }

  /** Nothing is left of the group of the removal, and the pass finds out. */
  const VANISHED := Undeploy(Some(RemovePull(false, true, GroupNotFound, false)))

  /** A job that was queued unnoticed and then runs leaves a feature Removed with its content deployed. */
  lemma UnnoticedCanBecomeUnreal(cfg: Config, pullMode: bool, c: Content, e: Event)
    requires Inv(pullMode, c) && Possible(pullMode, c, e) && QueuesUnnoticed(c, e)
    ensures CanBecomeUnreal(cfg, pullMode, Step(cfg, pullMode, c, e))
  {
    var next := Step(cfg, pullMode, c, e);
    UnnoticedIsQueued(cfg, c, e.env);
    assert pullMode && next.feature == c.feature && !next.seen && !next.gone;
    if HasStatus(c.feature, Removed) {
      assert Run(cfg, pullMode, next, []) && Noticed(cfg, pullMode, next, []);
      assert !RemovedIsReal(pullMode, Final(cfg, pullMode, next, []));
    } else {
      var last := Step(cfg, pullMode, next, VANISHED);
      assert HasStatus(last.feature, Removed) && !last.seen;
      assert [VANISHED][1..] == [];
      assert Run(cfg, pullMode, last, []) && Noticed(cfg, pullMode, last, []);
      assert Run(cfg, pullMode, next, [VANISHED]) && Noticed(cfg, pullMode, next, [VANISHED]);
      assert Final(cfg, pullMode, next, [VANISHED]) == last;
    }
  }

  ghost predicate AlwaysReal(cfg: Config, pullMode: bool, c: Content, events: seq<Event>)
    requires Run(cfg, pullMode, c, events)
    decreases |events|
  {
    && !CanBecomeUnreal(cfg, pullMode, c)
    && (events != [] ==> AlwaysReal(cfg, pullMode, Step(cfg, pullMode, c, events[0]), events[1..]))
  }

  /** Over all runs: at no state can Removed come to stand for content that is there, exactly if no job is unnoticed. */
  lemma {:induction false} RemovedIsRealIff(cfg: Config, pullMode: bool, c: Content, events: seq<Event>)
    requires Inv(pullMode, c) && Run(cfg, pullMode, c, events)
    ensures AlwaysReal(cfg, pullMode, c, events) <==> Noticed(cfg, pullMode, c, events)
    decreases |events|
  {
    forall more | Run(cfg, pullMode, c, more) && Noticed(cfg, pullMode, c, more)
      ensures RemovedIsReal(pullMode, Final(cfg, pullMode, c, more))
    {
      RemovedOnlyWhenGone(cfg, pullMode, c, more);
    }
    if events != [] {
      var next := Step(cfg, pullMode, c, events[0]);
      StepKeepsInvIff(cfg, pullMode, c, events[0]);
      if QueuesUnnoticed(c, events[0]) {
        UnnoticedCanBecomeUnreal(cfg, pullMode, c, events[0]);
      } else {
        RemovedIsRealIff(cfg, pullMode, next, events[1..]);
      }
    }
  }

  /** A feature that was removed for good is Removed again right after its content is deployed anew. */
  lemma RemovedThoughQueued(cfg: Config)
    ensures var c := Content(Some(Feature(Removed, None, 0)), IDLE, IDLE, false, true, true);
            var e := DeployAgain(Env(Computed(None), Some(PullMode(true, None, Some(Removed), false)), false));
            && Inv(true, c) && QueuesUnnoticed(c, e)
            && Step(cfg, true, c, e).deploys.queued.Some? && !RemovedIsReal(true, Step(cfg, true, c, e))
  {
  }
}
