/**
 A requeued feature is deployed again before it is Provisioned (controllers/conflicts.go,
 controllers/clustersummary_deployer.go). In push mode a success is the result of a job; in pull mode it is the report
 of the agent on the group that a job has committed.
 */
module RequeueSafety {
  import opened Common
  import opened Deployer
  import opened FeatureDeployment

  /** A reconciliation that has read the object and the result, and has not written the status yet. */
  datatype OpenPass = OpenPass(seen: Option<Feature>, out: Option<Feature>, source: Option<nat>)

  /**
   group is the job that committed what the agent works on, and report what the agent says about it. Serials below the
   fence are of jobs that started before the last requeue; source is the serial of the job that the Provisioned status
   goes back to. Both are bookkeeping of the proof.
   */
  datatype Requeues = Requeues(pullMode: bool, feature: Option<Feature>, deploys: Slot, serial: nat,
                               group: Option<Job>, report: Option<Status>, pass: Option<OpenPass>,
                               checked: bool, source: Option<nat>, fence: nat)

  /** ended: the pass ends the tracking of the group. */
  datatype Act =
    | BeginJob
    | CommitGroup
    | EndJob(error: Option<DeployError>)
    | Report(status: Status)
    | Open(env: Env, cleanups: Slot, ended: bool)
    | Close
    | CheckIdle
    | Reset

  /** The pass sees the group there is, and no report but the one on it. Provisioning also stands for none so far. */
  predicate Sees(q: Requeues, pull: PullMode) {
    && (q.group.Some? ==> pull.requestorHash == Some(q.group.value.hash))
    && (pull.agent.Some? ==> q.group.Some? && (pull.agent == Some(Provisioning) || pull.agent == q.report))
    && (pull.beingProvisioned ==> q.group.Some?)
  }

  predicate CanAct(q: Requeues, act: Act) {
    match act
    case BeginJob => CanStart(q.deploys)
    case CommitGroup => q.pullMode && q.deploys.running.Some?
    case EndJob(_) => q.deploys.running.Some?
    case Report(_) => q.pullMode && q.group.Some?
    case Open(env, _, ended) =>
      q.pass.None? && env.pull.Some? == q.pullMode && (env.pull.Some? ==> Sees(q, env.pull.value))
    case Close => q.pass.Some?
    case CheckIdle => q.deploys.running.None?
    case Reset => q.checked
  }

  /** The status becomes Provisioned. */
  predicate Succeeds(before: Option<Feature>, after: Option<Feature>) {
    HasStatus(after, Provisioned) && after != before
  }

  /** The job behind a Provisioned status that the reconciliation is about to write. */
  function SourceOf(q: Requeues, out: Option<Feature>): Option<nat> {
    if !Succeeds(q.feature, out) then q.source
    else if q.pullMode then (if q.group.Some? then Some(q.group.value.serial) else None)
    else if q.deploys.result.Some? then Some(q.deploys.result.value.job.serial)
    else None
  }

  function Opened(q: Requeues, r: PassResult, ended: bool): Requeues {
    q.(deploys := r.deploys, pass := Some(OpenPass(q.feature, r.feature, SourceOf(q, r.feature))),
       group := if ended then None else q.group, report := if ended then None else q.report)
  }

  /** A reconciliation patches the status with what it changed, whatever is there by then. */
  function Closed(q: Requeues): Requeues
    requires q.pass.Some?
  {
    if q.pass.value.out == q.pass.value.seen then q.(pass := None)
    else q.(pass := None, feature := q.pass.value.out, source := q.pass.value.source)
  }

  /**
   requeueClusterSummary is CheckIdle (refuse while a job runs, drain the result) and Reset (write Provisioning
   without a hash).
   */
  function Acted(cfg: Config, q: Requeues, act: Act): Requeues
    requires CanAct(q, act)
  {
    match act
    case BeginJob => q.(deploys := Started(q.deploys, q.serial), serial := q.serial + 1)
    case CommitGroup => q.(group := q.deploys.running, report := None)
    case EndJob(error) => q.(deploys := Finished(q.deploys, error))
    case Report(status) => q.(report := Some(status))
    case Open(env, cleanups, ended) => Opened(q, DeployPass(cfg, env, q.feature, q.deploys, cleanups), ended)
    case Close => Closed(q)
    case CheckIdle => q.(deploys := Read(q.deploys).1, checked := true)
    case Reset =>
      q.(feature := Some(Updated(q.feature, Provisioning, None, cfg.dryRun)), checked := false, fence := q.serial)
  }

  ghost predicate Acts(cfg: Config, q: Requeues, acts: seq<Act>)
    decreases |acts|
  {
    acts != [] ==> CanAct(q, acts[0]) && Acts(cfg, Acted(cfg, q, acts[0]), acts[1..])
  }

  function AfterActs(cfg: Config, q: Requeues, acts: seq<Act>): Requeues
    requires Acts(cfg, q, acts)
    decreases |acts|
  {
    if acts == [] then q else AfterActs(cfg, Acted(cfg, q, acts[0]), acts[1..])
  }

  predicate NoReset(acts: seq<Act>) {
    forall i :: 0 <= i < |acts| ==> acts[i] != Reset
  }

  /** Provisioned on the word of a job that started before the requeue. */
  predicate Stale(q: Requeues) {
    HasStatus(q.feature, Provisioned) && q.source.Some? && q.source.value < q.fence
  }

  /** Some run without a further requeue ends in a stale success. */
  ghost predicate CanGoStale(cfg: Config, q: Requeues) {
    exists acts :: Acts(cfg, q, acts) && NoReset(acts) && Stale(AfterActs(cfg, q, acts))
  }

  // ----- What every act keeps -----

  predicate WritesSuccess(pass: OpenPass) {
    Succeeds(pass.seen, pass.out)
  }

  predicate HasSuccess(slot: Slot) {
    slot.result.Some? && slot.result.value.error.None?
  }

  /** Serials are given out in order. */
  predicate Ordered(q: Requeues) {
    && q.fence <= q.serial
    && (q.deploys.running.Some? ==> q.deploys.running.value.serial < q.serial)
    && (q.deploys.result.Some? ==> q.deploys.result.value.job.serial < q.serial)
    && (q.group.Some? ==> q.group.value.serial < q.serial)
    && (q.source.Some? ==> q.source.value < q.serial)
    && (HasStatus(q.feature, Provisioned) ==> q.source.Some?)
    && (q.pass.Some? && q.pass.value.source.Some? ==> q.pass.value.source.value < q.serial)
    && (q.pass.Some? && WritesSuccess(q.pass.value) ==> q.pass.value.source.Some?)
  }

  /** Nothing that started before the fence can still be taken for a success. */
  predicate Fenced(q: Requeues) {
    && Ordered(q)
    && (q.deploys.running.Some? ==> q.deploys.running.value.serial >= q.fence)
    && (if q.pullMode then q.group.Some? ==> q.group.value.serial >= q.fence
        else HasSuccess(q.deploys) ==> q.deploys.result.value.job.serial >= q.fence)
    && (HasStatus(q.feature, Provisioned) ==> q.source.value >= q.fence)
    && (q.pass.Some? && WritesSuccess(q.pass.value) ==> q.pass.value.source.value >= q.fence)
  }

  /** The pass leaves the running job alone, adds no result, and takes a success from where successes come from. */
  predicate IsPass(q: Requeues, r: PassResult) {
    && r.deploys.running == q.deploys.running
    && (r.deploys.result.Some? ==> r.deploys.result == q.deploys.result)
    && (Succeeds(q.feature, r.feature) ==> if q.pullMode then q.group.Some? else HasSuccess(q.deploys))
  }

  lemma DeployPassIsPass(cfg: Config, q: Requeues, env: Env, cleanups: Slot, ended: bool)
    requires !cfg.dryRun && CanAct(q, Open(env, cleanups, ended))
    ensures IsPass(q, DeployPass(cfg, env, q.feature, q.deploys, cleanups))
  {
    var r := DeployPass(cfg, env, q.feature, q.deploys, cleanups);
    assert r.deploys.running == q.deploys.running;
    assert r.deploys.result.Some? ==> r.deploys.result == q.deploys.result;
  }

  lemma OpenedKeepsOrder(q: Requeues, r: PassResult, ended: bool)
    requires Ordered(q) && q.pass.None? && IsPass(q, r)
    ensures Ordered(Opened(q, r, ended))
    ensures Fenced(q) ==> Fenced(Opened(q, r, ended))
  {
  }

  lemma JobKeepsOrder(cfg: Config, q: Requeues, act: Act)
    requires Ordered(q) && CanAct(q, act) && (act.BeginJob? || act.EndJob? || act.CheckIdle?)
    ensures Ordered(Acted(cfg, q, act))
    ensures Fenced(q) ==> Fenced(Acted(cfg, q, act))
  {
  }

  lemma GroupKeepsOrder(cfg: Config, q: Requeues, act: Act)
    requires Ordered(q) && CanAct(q, act) && (act.CommitGroup? || act.Report?)
    ensures Ordered(Acted(cfg, q, act))
    ensures Fenced(q) ==> Fenced(Acted(cfg, q, act))
  {
  }

  lemma ClosedKeepsOrder(q: Requeues)
    requires Ordered(q) && q.pass.Some?
    ensures Ordered(Closed(q))
    ensures Fenced(q) ==> Fenced(Closed(q))
  {
    var pass := q.pass.value;
    if pass.out != pass.seen {
      assert HasStatus(pass.out, Provisioned) ==> WritesSuccess(pass);
    }
  }

  /** What a reset has to find: nothing that can still report a success, and no success about to be written. */
  predicate Quiet(q: Requeues) {
    && q.deploys.running.None?
    && (if q.pullMode then q.group.None? else !HasSuccess(q.deploys))
    && !(q.pass.Some? && WritesSuccess(q.pass.value))
  }

  lemma ResetKeepsOrder(cfg: Config, q: Requeues)
    requires Ordered(q) && CanAct(q, Reset)
    ensures Ordered(Acted(cfg, q, Reset))
    ensures Quiet(q) ==> Fenced(Acted(cfg, q, Reset))
  {
  }

  lemma ActKeepsOrder(cfg: Config, q: Requeues, act: Act)
    requires !cfg.dryRun && Ordered(q) && CanAct(q, act)
    ensures Ordered(Acted(cfg, q, act))
    ensures act != Reset && Fenced(q) ==> Fenced(Acted(cfg, q, act))
  {
    match act
    case BeginJob | EndJob(_) | CheckIdle => JobKeepsOrder(cfg, q, act);
    case CommitGroup | Report(_) => GroupKeepsOrder(cfg, q, act);
    case Open(env, cleanups, ended) =>
      DeployPassIsPass(cfg, q, env, cleanups, ended);
      OpenedKeepsOrder(q, DeployPass(cfg, env, q.feature, q.deploys, cleanups), ended);
    case Close => ClosedKeepsOrder(q);
    case Reset => ResetKeepsOrder(cfg, q);
  }

  /** Until the next requeue, a Provisioned status goes back to a job that started after this one. */
  lemma {:induction false} FenceHolds(cfg: Config, q: Requeues, acts: seq<Act>)
    requires !cfg.dryRun && Fenced(q) && Acts(cfg, q, acts) && NoReset(acts)
    ensures Fenced(AfterActs(cfg, q, acts)) && !Stale(AfterActs(cfg, q, acts))
    decreases |acts|
  {
    if acts != [] {
      assert acts[0] != Reset;
      ActKeepsOrder(cfg, q, acts[0]);
      assert forall i :: 0 <= i < |acts[1..]| ==> acts[1..][i] == acts[i + 1];
      FenceHolds(cfg, Acted(cfg, q, acts[0]), acts[1..]);
    }
  }

  // ----- What goes wrong otherwise -----

  lemma GoesStaleLater(cfg: Config, q: Requeues, act: Act)
    requires CanAct(q, act) && act != Reset && CanGoStale(cfg, Acted(cfg, q, act))
    ensures CanGoStale(cfg, q)
  {
    var rest :| Acts(cfg, Acted(cfg, q, act), rest) && NoReset(rest)
                && Stale(AfterActs(cfg, Acted(cfg, q, act), rest));
    assert ([act] + rest)[1..] == rest;
    assert forall i :: 0 < i < |[act] + rest| ==> ([act] + rest)[i] == rest[i - 1];
    assert Acts(cfg, q, [act] + rest);
  }

  lemma IsStaleNow(cfg: Config, q: Requeues)
    requires Stale(q)
    ensures CanGoStale(cfg, q)
  {
    assert Acts(cfg, q, []) && NoReset([]);
  }

  function EnvFor(q: Requeues, hash: HashRead, agent: Option<Status>): Env {
    Env(hash, if !q.pullMode then None
              else if q.group.None? then Some(PullMode(false, None, None, false))
              else Some(PullMode(true, Some(q.group.value.hash), agent, false)), false)
  }

  /** A whole reconciliation, which cannot compute the hash if there is none. */
  function Passed(cfg: Config, q: Requeues, hash: HashRead): Requeues
    requires q.pass.None?
  {
    Acted(cfg, Acted(cfg, q, Open(EnvFor(q, hash, None), IDLE, false)), Close)
  }

  lemma GoesStaleAfterPass(cfg: Config, q: Requeues, hash: HashRead)
    requires q.pass.None? && CanGoStale(cfg, Passed(cfg, q, hash))
    ensures CanGoStale(cfg, q)
  {
    var open := Open(EnvFor(q, hash, None), IDLE, false);
    GoesStaleLater(cfg, Acted(cfg, q, open), Close);
    GoesStaleLater(cfg, q, open);
  }

  /** Push mode: a success that was not read is taken by a pass that finds the hash it stored. */
  lemma UnreadSuccessGoesStale(cfg: Config, q: Requeues)
    requires !cfg.dryRun && !q.pullMode && q.pass.None? && HasSuccess(q.deploys)
    requires q.deploys.result.value.job.serial < q.fence
    ensures CanGoStale(cfg, q)
  {
    var q1 := Passed(cfg, q, HashError);
    assert q1.feature.value.hash == None && q1.feature.value.status == Failed;
    IsStaleNow(cfg, Passed(cfg, q1, Computed(None)));
    GoesStaleAfterPass(cfg, q1, Computed(None));
    GoesStaleAfterPass(cfg, q, HashError);
  }

  function Drained(q: Requeues): Requeues {
    q.(deploys := IDLE, checked := true, serial := if q.deploys.queued.Some? then q.serial + 1 else q.serial)
  }

  /** A queued job runs and fails, and its result is read by a requeue that is not completed. */
  lemma GoesStaleDrained(cfg: Config, q: Requeues)
    requires q.deploys.running.None? && CanGoStale(cfg, Drained(q))
    ensures CanGoStale(cfg, q)
  {
    if q.deploys.queued.Some? {
      var q1 := Acted(cfg, q, BeginJob);
      var q2 := Acted(cfg, q1, EndJob(Some(HealthCheck)));
      assert Acted(cfg, q2, CheckIdle) == Drained(q);
      GoesStaleLater(cfg, q2, CheckIdle);
      GoesStaleLater(cfg, q1, EndJob(Some(HealthCheck)));
      GoesStaleLater(cfg, q, BeginJob);
    } else {
      assert Acted(cfg, q, CheckIdle) == Drained(q);
      GoesStaleLater(cfg, q, CheckIdle);
    }
  }

  /** Pull mode: the agent reports on the group, and the pass finds the hash the group was committed for. */
  lemma ReportGoesStale(cfg: Config, q: Requeues)
    requires !cfg.dryRun && q.pullMode && q.pass.None? && q.deploys == IDLE
    requires q.group.Some? && q.group.value.serial < q.fence
    requires q.feature.Some? && q.feature.value.status in {Provisioning, Failed}
    requires q.feature.value.hash == q.group.value.hash
    ensures CanGoStale(cfg, q)
  {
    var q1 := Acted(cfg, q, Report(Provisioned));
    var open := Open(EnvFor(q1, Computed(q.group.value.hash), Some(Provisioned)), IDLE, false);
    var q2 := Acted(cfg, q1, open);
    IsStaleNow(cfg, Acted(cfg, q2, Close));
    GoesStaleLater(cfg, q2, Close);
    GoesStaleLater(cfg, q1, open);
    GoesStaleLater(cfg, q, Report(Provisioned));
  }

  lemma GroupGoesStale(cfg: Config, q: Requeues)
    requires !cfg.dryRun && q.pullMode && q.pass.None? && q.deploys.running.None?
    requires q.group.Some? && q.group.value.serial < q.fence
    ensures CanGoStale(cfg, q)
  {
    var q1 := Drained(q);
    var q2 := Passed(cfg, q1, HashError);
    var hash := q.group.value.hash;
    if hash.None? {
      ReportGoesStale(cfg, q2);
    } else {
      var q3 := Passed(cfg, q2, Computed(hash));
      ReportGoesStale(cfg, Drained(q3));
      GoesStaleDrained(cfg, q3);
      GoesStaleAfterPass(cfg, q2, Computed(hash));
    }
    GoesStaleAfterPass(cfg, q1, HashError);
    GoesStaleDrained(cfg, q);
  }

  lemma SuccessGoesStale(cfg: Config, q: Requeues)
    requires !cfg.dryRun && q.pass.None? && q.deploys.running.None?
    requires q.pullMode ==> q.group.Some? && q.group.value.serial < q.fence
    requires !q.pullMode ==> HasSuccess(q.deploys) && q.deploys.result.value.job.serial < q.fence
    ensures CanGoStale(cfg, q)
  {
    if q.pullMode {
      GroupGoesStale(cfg, q);
    } else {
      UnreadSuccessGoesStale(cfg, q);
    }
  }

  /** What the reset did not find quiet can end in a Provisioned status though nothing has started since. */
  lemma UnquietResetGoesStale(cfg: Config, q: Requeues)
    requires !cfg.dryRun && Ordered(q) && CanAct(q, Reset) && !Quiet(q)
    ensures CanGoStale(cfg, Acted(cfg, q, Reset))
  {
    var q0 := Acted(cfg, q, Reset);
    if q.pass.Some? && WritesSuccess(q.pass.value) {
      IsStaleNow(cfg, Acted(cfg, q0, Close));
      GoesStaleLater(cfg, q0, Close);
      return;
    }
    var q1 := if q.pass.Some? then Acted(cfg, q0, Close) else q0;
    if q.deploys.running.None? {
      SuccessGoesStale(cfg, q1);
    } else if q.pullMode {
      var q2 := Acted(cfg, q1, CommitGroup);
      SuccessGoesStale(cfg, Acted(cfg, q2, EndJob(None)));
      GoesStaleLater(cfg, q2, EndJob(None));
      GoesStaleLater(cfg, q1, CommitGroup);
    } else {
      SuccessGoesStale(cfg, Acted(cfg, q1, EndJob(None)));
      GoesStaleLater(cfg, q1, EndJob(None));
    }
    if q.pass.Some? {
      GoesStaleLater(cfg, q0, Close);
    }
  }

  // ----- When a requeue is safe -----

  /** The reset is safe exactly when it finds everything quiet. */
  lemma ResetIsSafeIff(cfg: Config, q: Requeues)
    requires !cfg.dryRun && Ordered(q) && CanAct(q, Reset)
    ensures !CanGoStale(cfg, Acted(cfg, q, Reset)) <==> Quiet(q)
  {
    if Quiet(q) {
      ResetKeepsOrder(cfg, q);
      forall acts | Acts(cfg, Acted(cfg, q, Reset), acts) && NoReset(acts)
        ensures !Stale(AfterActs(cfg, Acted(cfg, q, Reset), acts))
      {
        FenceHolds(cfg, Acted(cfg, q, Reset), acts);
      }
    } else {
      UnquietResetGoesStale(cfg, q);
    }
  }

  function Requeued(cfg: Config, q: Requeues): Requeues
    requires CanAct(q, CheckIdle)
  {
    Acted(cfg, Acted(cfg, q, CheckIdle), Reset)
  }

  /**
   With nothing between the check and the reset, a requeue is safe exactly if no success is about to be written and, in
   pull mode, the agent has no group to work on. The check itself asks for neither.
   */
  lemma RequeueIsSafeIff(cfg: Config, q: Requeues)
    requires !cfg.dryRun && Ordered(q) && CanAct(q, CheckIdle)
    ensures !CanGoStale(cfg, Requeued(cfg, q))
            <==> !(q.pass.Some? && WritesSuccess(q.pass.value)) && !(q.pullMode && q.group.Some?)
  {
    JobKeepsOrder(cfg, q, CheckIdle);
    ResetIsSafeIff(cfg, Acted(cfg, q, CheckIdle));
  }

  /** In push mode, and with no reconciliation half way through, it always is. */
  lemma RequeueLeavesNoStaleSuccess(cfg: Config, q: Requeues, acts: seq<Act>)
    requires !cfg.dryRun && Ordered(q) && !q.pullMode && q.pass.None? && CanAct(q, CheckIdle)
    requires Acts(cfg, Requeued(cfg, q), acts) && NoReset(acts)
    ensures !Stale(AfterActs(cfg, Requeued(cfg, q), acts))
  {
    RequeueIsSafeIff(cfg, q);
  }
}
