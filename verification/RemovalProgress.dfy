/**
 A feature whose cleanups succeed is Removed, and then the finalizer leaves (controllers/clustersummary_deployer.go,
 controllers/clustersummary_controller.go), over all runs of reconciliations and workers.
 */
module RemovalProgress {
  import opened Common
  import opened Deployer
  import opened FeatureDeployment
  import opened FeatureRemoval
  import opened Finalizer

  // ----- What one pass does -----

  /** A feature without a cleanup is queued for one as soon as no deployment runs. */
  lemma RemovalIsQueued(dryRun: bool, pull: Option<RemovePull>, f: Option<Feature>, deploys: Slot)
    requires deploys.running.None? && !HasStatus(f, Removed) && (pull.Some? ==> !pull.value.activeSource)
    requires pull.Some? && HasStatus(f, AgentRemoving) ==> !pull.value.beingRemoved
    ensures var r := UndeployPass(dryRun, pull, f, deploys, IDLE);
            && r.cleanups.queued.Some? && !r.done && HasStatus(r.feature, Removing)
            && r.deploys.queued.None? && r.deploys.result.None?
  {
  }

  /** A running deployment holds the removal up, but nothing that only waits does. */
  lemma RunningDeploymentIsAwaited(dryRun: bool, pull: Option<RemovePull>, f: Option<Feature>, deploys: Slot,
                                   cleanups: Slot)
    requires deploys.running.Some?
    ensures var r := UndeployPass(dryRun, pull, f, deploys, cleanups);
            !r.done && r.feature == f && r.cleanups == cleanups && r.deploys == Slot(None, deploys.running, None)
  {
  }

  /** The success of a cleanup ends the removal in push mode; in pull mode the agent is asked. */
  lemma CleanedUpIsRemoved(dryRun: bool, f: Option<Feature>, deploys: Slot, cleanups: Slot)
    requires deploys.running.None? && cleanups.result.Some? && cleanups.result.value.error.None?
    ensures var r := UndeployPass(dryRun, None, f, deploys, cleanups);
            r.done && HasStatus(r.feature, Removed)
            && (!HasStatus(f, Removed) ==> r.cleanups == cleanups.(result := None))
  {
  }

  /** A failed cleanup is done again, unless the error says to wait or that nothing can be done. */
  lemma FailedCleanupIsRetriedIff(dryRun: bool, pull: Option<RemovePull>, f: Option<Feature>, deploys: Slot,
                                  outcome: Outcome)
    requires deploys.running.None? && !HasStatus(f, Removed) && (pull.Some? ==> !pull.value.activeSource)
    requires outcome.error.Some?
    ensures var r := UndeployPass(dryRun, pull, f, deploys, Slot(None, None, Some(outcome)));
            && (r.cleanups.queued.Some? <==> outcome.error.value in {HealthCheck, DeployError.Other})
            && (r.done <==> outcome.error == Some(Forbidden))
            && (outcome.error.value in {HandOver, WaitForProfiles} ==> r.feature == f)
            && (outcome.error.value in {NonRetriable, Template, Forbidden} ==> HasStatus(r.feature, Removing))
            && (outcome.error.value in {HealthCheck, DeployError.Other} ==> HasStatus(r.feature, Status.Failed))
  {
  }

  /** A cleanup that waits or runs is waited for. */
  lemma CleanupIsAwaited(dryRun: bool, pull: Option<RemovePull>, f: Option<Feature>, deploys: Slot, cleanups: Slot)
    requires deploys.running.None? && !HasStatus(f, Removed) && (pull.Some? ==> !pull.value.activeSource)
    requires Active(cleanups) && cleanups.result.None?
    ensures var r := UndeployPass(dryRun, pull, f, deploys, cleanups);
            !r.done && HasStatus(r.feature, Removing) && r.cleanups == cleanups
  {
  }

  /** Once the feature is Removed, nothing is done any more. */
  lemma RemovedIsDone(dryRun: bool, pull: Option<RemovePull>, f: Option<Feature>, deploys: Slot, cleanups: Slot)
    requires deploys.running.None? && HasStatus(f, Removed)
    ensures UndeployPass(dryRun, pull, f, deploys, cleanups) == Removal(f, Slot(None, None, None), cleanups, true, None)
  {
  }

  /** While a deployment group is still active, nothing is done either. */
  lemma ActiveSourceIsAwaited(dryRun: bool, pull: RemovePull, f: Option<Feature>, deploys: Slot, cleanups: Slot)
    requires deploys.running.None? && !HasStatus(f, Removed) && pull.activeSource
    ensures UndeployPass(dryRun, Some(pull), f, deploys, cleanups)
            == Removal(f, Slot(None, None, None), cleanups, false, None)
  {
  }

  /** The agent is asked when the job that prepares the removal has succeeded, and from then on. */
  predicate IsAsked(pull: RemovePull, f: Option<Feature>, deploys: Slot, cleanups: Slot) {
    && deploys.running.None? && !HasStatus(f, Removed) && !pull.activeSource
    && if cleanups.result.Some? then cleanups.result.value.error.None?
       else cleanups == IDLE && HasStatus(f, AgentRemoving) && pull.beingRemoved
  }

  /** What each answer leads to: the end, a wait for the agent, another try, or just another look. */
  lemma AgentAnswers(dryRun: bool, pull: RemovePull, f: Option<Feature>, deploys: Slot, cleanups: Slot)
    requires IsAsked(pull, f, deploys, cleanups)
    ensures var r := UndeployPass(dryRun, Some(pull), f, deploys, cleanups);
            var left := cleanups.(result := None);
            match pull.report {
              case GroupStatus(true, _) =>
                if pull.terminated then r.done && HasStatus(r.feature, Removed) && r.cleanups == left
                else !r.done && r.feature == f && r.cleanups == left
              case GroupStatus(false, false) => r.done && HasStatus(r.feature, AgentRemoving) && r.cleanups == left
              case GroupStatus(false, true) => !r.done && r.feature == f && r.cleanups.queued.Some?
              case NoStatus => !r.done && HasStatus(r.feature, Removing) && r.cleanups.queued.Some?
              case ReadFailed => !r.done && r.feature == f && r.cleanups == left
              case GroupNotFound =>
                if HasStatus(f, AgentRemoving) then r.done && HasStatus(r.feature, Removed) && r.cleanups == left
                else !r.done && r.feature == f && r.cleanups == left
            }
  {
  }

  // ----- Runs -----

  /**
   Cleanups succeed, nothing is deployed or overwritten, and the agent, if asked, reports that it is at work or done.
   */
  predicate Fair(e: Event) {
    match e
    case DeployAgain(_) => false
    case Undeploy(pull) =>
      pull.Some? ==>
        && !pull.value.activeSource && pull.value.terminated
        && pull.value.report.GroupStatus? && !pull.value.report.failureMessage
    case Begin(_, _) => true
    case End(kind, error) => kind == CleaningUp ==> error.None?
    case Overwrite(_) => false
  }

  predicate AllFair(events: seq<Event>) {
    forall i :: 0 <= i < |events| ==> Fair(events[i])
  }

  /** A pass that finds the workers done, and the agent too. */
  predicate IsDecisive(c: Content, e: Event) {
    && e.Undeploy? && c.deploys.running.None? && !Active(c.cleanups)
    && (e.pull.Some? ==> e.pull.value.beingRemoved && e.pull.value.report.GroupStatus? && e.pull.value.report.removed)
  }

  function Decisive(cfg: Config, pullMode: bool, c: Content, events: seq<Event>): nat
    requires Run(cfg, pullMode, c, events)
    decreases |events|
  {
    if events == [] then 0
    else (if IsDecisive(c, events[0]) then 1 else 0)
         + Decisive(cfg, pullMode, Step(cfg, pullMode, c, events[0]), events[1..])
  }

  function Remaining(pullMode: bool, c: Content): nat {
    if HasStatus(c.feature, Removed) then 0
    else if Active(c.cleanups) || c.cleanups.result.Some? || (pullMode && HasStatus(c.feature, AgentRemoving)) then 1
    else 2
  }

  predicate Hopeful(c: Content) {
    c.cleanups.result.Some? ==> c.cleanups.result.value.error.None?
  }

  lemma FairStepHelps(cfg: Config, pullMode: bool, c: Content, e: Event)
    requires Hopeful(c) && Possible(pullMode, c, e) && Fair(e)
    ensures var next := Step(cfg, pullMode, c, e);
            && Hopeful(next) && Remaining(pullMode, next) <= Remaining(pullMode, c)
            && (IsDecisive(c, e) && Remaining(pullMode, c) > 0 ==> Remaining(pullMode, next) < Remaining(pullMode, c))
            && (IsDecisive(c, e) || !Active(c.deploys) ==> !Active(next.deploys))
  {
  }

  /** In every run with two passes that find the workers and the agent done, the feature is Removed. */
  lemma {:induction false} FeatureIsRemovedInTheEnd(cfg: Config, pullMode: bool, c: Content, events: seq<Event>)
    requires Hopeful(c) && Run(cfg, pullMode, c, events) && AllFair(events)
    requires Decisive(cfg, pullMode, c, events) >= Remaining(pullMode, c)
    ensures HasStatus(Final(cfg, pullMode, c, events).feature, Removed)
    decreases |events|
  {
    if events != [] {
      assert Fair(events[0]);
      FairStepHelps(cfg, pullMode, c, events[0]);
      assert forall i :: 0 <= i < |events[1..]| ==> events[1..][i] == events[i + 1];
      FeatureIsRemovedInTheEnd(cfg, pullMode, Step(cfg, pullMode, c, events[0]), events[1..]);
    }
  }

  // ----- The finalizer -----

  /** The passes that are decisive for one of the features. */
  function DecisiveFor(max: Option<nat>, pullMode: bool, all: Contents, events: seq<FeatureEvent>, id: FeatureID): nat
    requires IsComplete(all) && Runs(max, pullMode, all, events)
    decreases |events|
  {
    if events == [] then 0
    else
      var e := events[0];
      (if e.id == id && IsDecisive(all[id], e.event) then 1 else 0)
      + DecisiveFor(max, pullMode, all[e.id := Step(Config(e.id, false, max), pullMode, all[e.id], e.event)],
                    events[1..], id)
  }

  lemma {:induction false} EachIsRemovedInTheEnd(max: Option<nat>, pullMode: bool, all: Contents,
                                                 events: seq<FeatureEvent>, id: FeatureID)
    requires IsComplete(all) && id in all && Hopeful(all[id]) && Runs(max, pullMode, all, events)
    requires forall i :: 0 <= i < |events| ==> Fair(events[i].event)
    requires DecisiveFor(max, pullMode, all, events, id) >= Remaining(pullMode, all[id])
    ensures var last := Finally(max, pullMode, all, events); id in last && HasStatus(last[id].feature, Removed)
    ensures DecisiveFor(max, pullMode, all, events, id) > 0 || !Active(all[id].deploys) ==>
              !Active(Finally(max, pullMode, all, events)[id].deploys)
    decreases |events|
  {
    if events != [] {
      var e := events[0];
      assert Fair(e.event);
      assert forall i :: 0 <= i < |events[1..]| ==> events[1..][i] == events[i + 1];
      if e.id == id {
        FairStepHelps(Config(id, false, max), pullMode, all[id], e.event);
      }
      EachIsRemovedInTheEnd(max, pullMode, all[e.id := Step(Config(e.id, false, max), pullMode, all[e.id], e.event)],
                            events[1..], id);
    }
  }

  /**
   With cleanups that succeed, after two decisive passes over each feature the next reconciliation ends all of them.
   That is what AllEnd says, so that with open gates the finalizer leaves then.
   */
  lemma FinalizerLeavesInTheEnd(max: Option<nat>, pullMode: bool, all: Contents, events: seq<FeatureEvent>,
                                env: DeleteEnv)
    requires IsComplete(all) && Runs(max, pullMode, all, events) && ValidEnv(env)
    requires forall i :: 0 <= i < |events| ==> Fair(events[i].event)
    requires forall id :: id in all ==> Hopeful(all[id]) && DecisiveFor(max, pullMode, all, events, id) >= 2
    ensures var last := Finally(max, pullMode, all, events);
            forall id :: id in all ==>
              && id in last
              && var r := UndeployPass(false, PullOf(env, id), last[id].feature, last[id].deploys, last[id].cleanups);
                 r.done && HasStatus(r.feature, Removed)
  {
    forall id | id in all
      ensures var last := Finally(max, pullMode, all, events);
              && id in last && HasStatus(last[id].feature, Removed) && !Active(last[id].deploys)
    {
      EachIsRemovedInTheEnd(max, pullMode, all, events, id);
    }
  }
}
