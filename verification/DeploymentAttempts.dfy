/**
 How often a feature is attempted for one configuration (controllers/clustersummary_deployer.go), over all runs of
 reconciliations and workers.
 */
module DeploymentAttempts {
  import opened Common
  import opened Deployer
  import opened FeatureDeployment

  datatype Progress = Progress(feature: Option<Feature>, deploys: Slot, serial: nat, attempts: nat)

  datatype Event =
    | Pass(env: Env, cleanups: Slot)
    | Begin
    | End(error: Option<DeployError>)

  predicate Possible(p: Progress, e: Event) {
    match e
    case Pass(_, _) => true
    case Begin => CanStart(p.deploys)
    case End(_) => p.deploys.running.Some?
  }

  /** An attempt is a request to deploy. */
  function Step(cfg: Config, p: Progress, e: Event): Progress
    requires Possible(p, e)
  {
    match e
    case Pass(env, cleanups) =>
      var r := DeployPass(cfg, env, p.feature, p.deploys, cleanups);
      p.(feature := r.feature, deploys := r.deploys, attempts := if r.queued then p.attempts + 1 else p.attempts)
    case Begin => p.(deploys := Started(p.deploys, p.serial), serial := p.serial + 1)
    case End(error) => p.(deploys := Finished(p.deploys, error))
  }

  ghost predicate Run(cfg: Config, p: Progress, events: seq<Event>)
    decreases |events|
  {
    events != [] ==> Possible(p, events[0]) && Run(cfg, Step(cfg, p, events[0]), events[1..])
  }

  function Final(cfg: Config, p: Progress, events: seq<Event>): Progress
    requires Run(cfg, p, events)
    decreases |events|
  {
    if events == [] then p else Final(cfg, Step(cfg, p, events[0]), events[1..])
  }

  function Min(a: int, b: int): int {
    if a < b then a else b
  }

  // ----- Push mode -----

  function Limit(cfg: Config): nat {
    if cfg.max.None? || cfg.max.value == 0 then 1 else cfg.max.value
  }

  /** The configuration does not change: a pass computes its hash, or fails to. Jobs may end in any way. */
  predicate Keeps(hash: Hash, e: Event) {
    e.Pass? ==> e.env.hash in {Computed(hash), HashError} && e.env.pull.None?
  }

  predicate AllKeep(hash: Hash, events: seq<Event>) {
    forall i :: 0 <= i < |events| ==> Keeps(hash, events[i])
  }

  /** The pass could not compute the hash. It stores none, and the next pass takes the configuration for changed. */
  predicate IsHashError(e: Event) {
    e.Pass? && e.env.hash.HashError?
  }

  /** The conflict that made the last job fail is gone when its result is read. */
  predicate IsResolved(e: Event) {
    e.Pass? && e.env.conflictResolved
  }

  function HashErrors(events: seq<Event>): nat {
    if events == [] then 0 else (if IsHashError(events[0]) then 1 else 0) + HashErrors(events[1..])
  }

  function Resolved(events: seq<Event>): nat {
    if events == [] then 0 else (if IsResolved(events[0]) then 1 else 0) + Resolved(events[1..])
  }

  predicate GivenUp(p: Progress, hash: Hash) {
    p.feature.Some? && p.feature.value.status == FailedNonRetriable && p.feature.value.hash == hash
  }

  /**
   Beyond the base, each attempt but one has been counted as a failure, and that one too when the deployer has nothing
   for the feature. With another hash in the status, or none of the feature at all, no attempt has been made yet.
   */
  predicate Counted(cfg: Config, p: Progress, hash: Hash, base: nat) {
    var pending := if p.deploys == IDLE then 0 else 1;
    if StoredHash(p.feature) != hash then p.attempts <= base
    else if p.feature.None? then p.attempts <= base + pending
    else if p.feature.value.status in {FailedNonRetriable, Provisioned} then p.attempts <= base + Limit(cfg)
    else p.attempts <= base + Min(p.feature.value.failures, Limit(cfg) - 1) + pending
  }

  lemma StepKeepsCounted(cfg: Config, p: Progress, hash: Hash, e: Event, base: nat)
    requires !cfg.dryRun && cfg.max.Some?
    requires Counted(cfg, p, hash, base) && Possible(p, e) && Keeps(hash, e)
    ensures Counted(cfg, Step(cfg, p, e), hash,
                    base + (if IsHashError(e) then Limit(cfg) else 0) + if IsResolved(e) then 1 else 0)
  {
  }

  /**
   The number of attempts for one configuration, in every run: at most max (one if max is zero), and as many again for
   every pass that cannot compute the hash, and one more for every conflict that was resolved in time. It makes no
   difference how the jobs end, how reconciliations and workers interleave, what the status was before, and what is
   still around of a job for an earlier configuration.
   */
  lemma {:induction false} AttemptsAreBounded(cfg: Config, p: Progress, hash: Hash, events: seq<Event>, base: nat)
    requires !cfg.dryRun && cfg.max.Some?
    requires p.attempts == 0 || Counted(cfg, p, hash, base)
    requires Run(cfg, p, events) && AllKeep(hash, events)
    ensures Final(cfg, p, events).attempts <= base + Limit(cfg) * (1 + HashErrors(events)) + Resolved(events)
    decreases |events|
  {
    assert Counted(cfg, p, hash, base);
    if events != [] {
      var e, rest := events[0], events[1..];
      assert Keeps(hash, e);
      assert forall i :: 0 <= i < |rest| ==> rest[i] == events[i + 1];
      StepKeepsCounted(cfg, p, hash, e, base);
      var next := base + (if IsHashError(e) then Limit(cfg) else 0) + if IsResolved(e) then 1 else 0;
      AttemptsAreBounded(cfg, Step(cfg, p, e), hash, rest, next);
      OnceMore(Limit(cfg), HashErrors(rest));
    } else {
      OnceMore(Limit(cfg), 0);
    }
  }

  lemma OnceMore(limit: nat, n: nat)
    ensures limit * (1 + n) == limit + limit * n && limit * (1 + (1 + n)) == limit + limit * (1 + n)
  {
  }

  /** Without failed hash reads and resolved conflicts: at most max attempts, once if max is zero. */
  lemma AttemptsWithoutHashErrors(cfg: Config, p: Progress, hash: Hash, events: seq<Event>)
    requires !cfg.dryRun && cfg.max.Some? && p.attempts == 0
    requires Run(cfg, p, events) && AllKeep(hash, events)
    requires forall i :: 0 <= i < |events| ==> !IsHashError(events[i]) && !IsResolved(events[i])
    ensures Final(cfg, p, events).attempts <= Limit(cfg)
  {
    NoneCounted(events);
    AttemptsAreBounded(cfg, p, hash, events, 0);
  }

  lemma {:induction false} NoneCounted(events: seq<Event>)
    requires forall i :: 0 <= i < |events| ==> !IsHashError(events[i]) && !IsResolved(events[i])
    ensures HashErrors(events) == 0 && Resolved(events) == 0
  {
    if events != [] {
      NoneCounted(events[1..]);
    }
  }

  /** A feature that was given up is taken up again exactly by a pass that cannot compute the hash. */
  lemma GivenUpEndsIff(cfg: Config, p: Progress, hash: Hash, e: Event)
    requires !cfg.dryRun && GivenUp(p, hash) && Possible(p, e) && Keeps(hash, e)
    ensures Step(cfg, p, e).feature != p.feature <==> IsHashError(e) && e.cleanups.running.None?
    ensures Step(cfg, p, e).attempts == p.attempts
  {
  }

  /** Until then it stays as it is, with no further attempt. */
  lemma {:induction false} GivenUpStays(cfg: Config, p: Progress, hash: Hash, events: seq<Event>)
    requires !cfg.dryRun && GivenUp(p, hash) && Run(cfg, p, events) && AllKeep(hash, events)
    requires forall i :: 0 <= i < |events| ==> !IsHashError(events[i])
    ensures Final(cfg, p, events).feature == p.feature && Final(cfg, p, events).attempts == p.attempts
    decreases |events|
  {
    if events != [] {
      assert Keeps(hash, events[0]) && !IsHashError(events[0]);
      GivenUpEndsIff(cfg, p, hash, events[0]);
      assert forall i :: 0 <= i < |events[1..]| ==> events[1..][i] == events[i + 1];
      GivenUpStays(cfg, Step(cfg, p, events[0]), hash, events[1..]);
    }
  }

  // ----- The bound is met -----

  function PushPass(hash: Hash): Event {
    Pass(Env(Computed(hash), None, false), IDLE)
  }

  const FAILED_READ := Pass(Env(HashError, None, false), IDLE)

  /** A run without resolved conflicts, with its number of failed hash reads. */
  ghost predicate Plain(cfg: Config, p: Progress, hash: Hash, events: seq<Event>, errors: nat) {
    Run(cfg, p, events) && AllKeep(hash, events) && HashErrors(events) == errors && Resolved(events) == 0
  }

  lemma Precede(cfg: Config, p: Progress, hash: Hash, e: Event, rest: seq<Event>, errors: nat)
    requires Possible(p, e) && Keeps(hash, e) && !IsResolved(e) && Plain(cfg, Step(cfg, p, e), hash, rest, errors)
    ensures Plain(cfg, p, hash, [e] + rest, if IsHashError(e) then errors + 1 else errors)
    ensures Final(cfg, p, [e] + rest) == Final(cfg, Step(cfg, p, e), rest)
  {
    assert ([e] + rest)[1..] == rest;
    assert forall i :: 0 < i < |[e] + rest| ==> ([e] + rest)[i] == rest[i - 1];
  }

  /**
   A job that was queued after some failures fails, and so on until the feature is given up. Then, as often as a pass
   cannot compute the hash, all of this starts again.
   */
  lemma {:induction false} RoundsToTheLimit(cfg: Config, p: Progress, hash: Hash, base: nat, errors: nat)
    returns (events: seq<Event>)
    requires !cfg.dryRun && cfg.max.Some? && hash.Some?
    requires p.feature.Some? && p.feature.value.hash == hash && p.feature.value.status in {Provisioning, Failed}
    requires p.feature.value.failures < Limit(cfg) && p.attempts == base + p.feature.value.failures + 1
    requires p.deploys == Slot(Some(hash), None, None)
    ensures Plain(cfg, p, hash, events, errors)
    ensures GivenUp(Final(cfg, p, events), hash)
    ensures Final(cfg, p, events).attempts == base + Limit(cfg) * (1 + errors)
    decreases errors, Limit(cfg) - p.feature.value.failures
  {
    var p1 := Step(cfg, p, Begin);
    var p2 := Step(cfg, p1, End(Some(DeployError.Other)));
    var p3 := Step(cfg, p2, PushPass(hash));
    OnceMore(Limit(cfg), if errors > 0 then errors - 1 else 0);
    if p.feature.value.failures + 1 < Limit(cfg) {
      events := RoundsToTheLimit(cfg, p3, hash, base, errors);
    } else if errors > 0 {
      assert GivenUp(p3, hash) && p3.attempts == base + Limit(cfg);
      var p4 := Step(cfg, p3, FAILED_READ);
      var p5 := Step(cfg, p4, PushPass(hash));
      events := RoundsToTheLimit(cfg, p5, hash, base + Limit(cfg), errors - 1);
      Precede(cfg, p4, hash, PushPass(hash), events, errors - 1);
      events := [PushPass(hash)] + events;
      Precede(cfg, p3, hash, FAILED_READ, events, errors - 1);
      events := [FAILED_READ] + events;
    } else {
      events := [];
      assert GivenUp(p3, hash);
    }
    Precede(cfg, p2, hash, PushPass(hash), events, errors);
    events := [PushPass(hash)] + events;
    Precede(cfg, p1, hash, End(Some(DeployError.Other)), events, errors);
    events := [End(Some(DeployError.Other))] + events;
    Precede(cfg, p, hash, Begin, events, errors);
    events := [Begin] + events;
  }

  /**
   For every max and every number of failed hash reads there is a run that makes as many attempts as the bound allows.
   */
  lemma LimitIsReached(cfg: Config, hash: Hash, errors: nat) returns (events: seq<Event>)
    requires !cfg.dryRun && cfg.max.Some? && hash.Some?
    ensures var p := Progress(None, IDLE, 0, 0);
            && Run(cfg, p, events) && AllKeep(hash, events) && HashErrors(events) == errors && Resolved(events) == 0
            && GivenUp(Final(cfg, p, events), hash)
            && Final(cfg, p, events).attempts == Limit(cfg) * (1 + errors)
  {
    var p := Progress(None, IDLE, 0, 0);
    var rest := RoundsToTheLimit(cfg, Step(cfg, p, PushPass(hash)), hash, 0, errors);
    Precede(cfg, p, hash, PushPass(hash), rest, errors);
    events := [PushPass(hash)] + rest;
  }

  /** One failed read is enough for a feature that was given up to be attempted again with nothing changed. */
  lemma FailedReadRevivesFeature(cfg: Config, p: Progress, hash: Hash)
    requires !cfg.dryRun && hash.Some? && GivenUp(p, hash)
    ensures var read := Step(cfg, p, FAILED_READ);
            var again := Step(cfg, read, PushPass(hash));
            again.attempts == p.attempts + 1 && !GivenUp(again, hash) && again.deploys.queued.Some?
  {
  }

  // ----- Pull mode -----

  /** waiting: a job has succeeded, and what it committed has neither been reported on nor been replaced. */
  datatype PullProgress = PullProgress(progress: Progress, waiting: bool)

  function PullStep(cfg: Config, x: PullProgress, e: Event): PullProgress
    requires Possible(x.progress, e)
  {
    var next := Step(cfg, x.progress, e);
    PullProgress(next,
                 match e
                 case Pass(_, _) => x.waiting && next.attempts == x.progress.attempts
                 case Begin => x.waiting
                 case End(error) => x.waiting || error.None?)
  }

  predicate PullKeeps(hash: Hash, e: Event) {
    e.Pass? ==> e.env.hash in {Computed(hash), HashError} && e.env.pull.Some?
  }

  /**
   The pass finds no report for the hash, or one that does not speak of a deployment, or it does not even find the
   content that waits for its report. It deploys again uncounted.
   */
  predicate IsBlind(hash: Hash, x: PullProgress, e: Event) {
    && e.Pass? && e.env.pull.Some?
    && (|| (e.env.pull.value.requestorHash.Some? && e.env.pull.value.requestorHash.value != hash)
        || e.env.pull.value.agent !in {Some(Provisioning), Some(Provisioned), Some(Failed)}
        || (x.progress.deploys == IDLE && x.waiting && !e.env.pull.value.beingProvisioned))
  }

  ghost predicate PullRun(cfg: Config, hash: Hash, x: PullProgress, events: seq<Event>)
    decreases |events|
  {
    events != [] ==>
      && Possible(x.progress, events[0]) && PullKeeps(hash, events[0])
      && PullRun(cfg, hash, PullStep(cfg, x, events[0]), events[1..])
  }

  function PullFinal(cfg: Config, hash: Hash, x: PullProgress, events: seq<Event>): PullProgress
    requires PullRun(cfg, hash, x, events)
    decreases |events|
  {
    if events == [] then x else PullFinal(cfg, hash, PullStep(cfg, x, events[0]), events[1..])
  }

  function Blind(cfg: Config, hash: Hash, x: PullProgress, events: seq<Event>): nat
    requires PullRun(cfg, hash, x, events)
    decreases |events|
  {
    if events == [] then 0
    else (if IsBlind(hash, x, events[0]) then 1 else 0) + Blind(cfg, hash, PullStep(cfg, x, events[0]), events[1..])
  }

  function PullLimit(cfg: Config): nat
    requires cfg.max.Some?
  {
    cfg.max.value + 1
  }

  /** Such a pass does deploy again, uncounted, unless the feature is done or given up or a job is under way. */
  lemma BlindPassDeploysAgain(cfg: Config, hash: Hash, x: PullProgress, env: Env, cleanups: Slot)
    requires !cfg.dryRun && env.hash == Computed(hash) && cleanups.running.None?
    requires IsBlind(hash, x, Pass(env, cleanups))
    requires var f := x.progress.feature;
             f.Some? && f.value.hash == hash && f.value.status !in {Provisioned, FailedNonRetriable}
    requires x.progress.deploys == IDLE || x.progress.deploys == IDLE.(result := x.progress.deploys.result)
    requires x.progress.deploys.result.Some? ==> x.progress.deploys.result.value.error.None? && x.waiting
    ensures var next := PullStep(cfg, x, Pass(env, cleanups));
            && next.progress.attempts == x.progress.attempts + 1 && !next.waiting
            && next.progress.feature.value.failures == x.progress.feature.value.failures
  {
  }

  predicate PullCounted(cfg: Config, x: PullProgress, hash: Hash, base: nat)
    requires cfg.max.Some?
  {
    var p := x.progress;
    var pending := if p.deploys == IDLE && !x.waiting then 0 else 1;
    && (p.deploys.result.Some? && p.deploys.result.value.error.None? ==> x.waiting || Active(p.deploys))
    && if StoredHash(p.feature) != hash then p.attempts <= base
       else if p.feature.None? then p.attempts <= base + pending
       else if p.feature.value.status in {FailedNonRetriable, Provisioned} then p.attempts <= base + PullLimit(cfg)
       else p.attempts <= base + Min(p.feature.value.failures, cfg.max.value) + pending
  }

  /** How many further attempts an event allows for. */
  function PullAllowance(cfg: Config, hash: Hash, x: PullProgress, e: Event): nat
    requires cfg.max.Some?
  {
    (if IsHashError(e) then PullLimit(cfg) else 0)
    + (if IsResolved(e) then 1 else 0) + if IsBlind(hash, x, e) then 1 else 0
  }

  lemma JobKeepsPullCounted(cfg: Config, x: PullProgress, hash: Hash, e: Event, base: nat)
    requires !cfg.dryRun && cfg.max.Some? && !e.Pass?
    requires PullCounted(cfg, x, hash, base) && Possible(x.progress, e)
    ensures PullCounted(cfg, PullStep(cfg, x, e), hash, base + PullAllowance(cfg, hash, x, e))
  {
  }

  /** The pass changes nothing, or only records that it could not compute the hash. */
  lemma IdlePassKeepsPullCounted(cfg: Config, x: PullProgress, hash: Hash, e: Event, base: nat)
    requires !cfg.dryRun && cfg.max.Some? && e.Pass?
    requires e.cleanups.running.Some? || e.env.hash == HashError
    requires PullCounted(cfg, x, hash, base)
    ensures PullCounted(cfg, PullStep(cfg, x, e), hash, base + PullAllowance(cfg, hash, x, e))
  {
  }

  /** The pass takes the configuration for a new one. */
  lemma FirstPassKeepsPullCounted(cfg: Config, x: PullProgress, hash: Hash, e: Event, base: nat)
    requires !cfg.dryRun && cfg.max.Some? && e.Pass? && PullKeeps(hash, e)
    requires e.cleanups.running.None? && e.env.hash == Computed(hash) && StoredHash(x.progress.feature) != hash
    requires PullCounted(cfg, x, hash, base)
    ensures PullCounted(cfg, PullStep(cfg, x, e), hash, base + PullAllowance(cfg, hash, x, e))
  {
    var p := x.progress;
    assert ShouldRedeploy(cfg, WithoutFailures(p.feature), false);
    var pull := e.env.pull.value;
    assert PullModeStatus(cfg, pull, WithoutFailures(p.feature), false, hash).1;
    assert Step(cfg, p, e).attempts == p.attempts + 1;
  }

  /** The pass reads the result of a job for this configuration. */
  lemma FurtherPassKeepsPullCounted(cfg: Config, x: PullProgress, hash: Hash, e: Event, base: nat)
    requires !cfg.dryRun && cfg.max.Some? && e.Pass? && PullKeeps(hash, e)
    requires e.cleanups.running.None? && e.env.hash == Computed(hash) && StoredHash(x.progress.feature) == hash
    requires PullCounted(cfg, x, hash, base)
    ensures PullCounted(cfg, PullStep(cfg, x, e), hash, base + PullAllowance(cfg, hash, x, e))
  {
    var p := x.progress;
    if ShouldRedeploy(cfg, p.feature, true) {
      var reading := Read(p.deploys).0;
      if reading.Available? {
        if reading.outcome.error.Some? {
          FailedJobKeepsPullCounted(cfg, x, hash, e, base);
        } else {
          ReportKeepsPullCounted(cfg, x, hash, e, base);
        }
      } else if reading.Unavailable? && e.env.pull.value.beingProvisioned {
        ReportKeepsPullCounted(cfg, x, hash, e, base);
      }
    }
  }

  lemma FailedJobKeepsPullCounted(cfg: Config, x: PullProgress, hash: Hash, e: Event, base: nat)
    requires !cfg.dryRun && cfg.max.Some? && e.Pass? && PullKeeps(hash, e)
    requires e.cleanups.running.None? && e.env.hash == Computed(hash) && StoredHash(x.progress.feature) == hash
    requires ShouldRedeploy(cfg, x.progress.feature, true)
    requires var result := x.progress.deploys.result; result.Some? && result.value.error.Some?
    requires PullCounted(cfg, x, hash, base)
    ensures PullCounted(cfg, PullStep(cfg, x, e), hash, base + PullAllowance(cfg, hash, x, e))
  {
  }

  lemma ReportKeepsPullCounted(cfg: Config, x: PullProgress, hash: Hash, e: Event, base: nat)
    requires !cfg.dryRun && cfg.max.Some? && e.Pass? && PullKeeps(hash, e)
    requires e.cleanups.running.None? && e.env.hash == Computed(hash) && StoredHash(x.progress.feature) == hash
    requires ShouldRedeploy(cfg, x.progress.feature, true)
    requires var reading := Read(x.progress.deploys).0;
             || (reading.Available? && reading.outcome.error.None?)
             || (reading.Unavailable? && e.env.pull.value.beingProvisioned)
    requires PullCounted(cfg, x, hash, base)
    ensures PullCounted(cfg, PullStep(cfg, x, e), hash, base + PullAllowance(cfg, hash, x, e))
  {
  }

  lemma StepKeepsPullCounted(cfg: Config, x: PullProgress, hash: Hash, e: Event, base: nat)
    requires !cfg.dryRun && cfg.max.Some?
    requires PullCounted(cfg, x, hash, base) && Possible(x.progress, e) && PullKeeps(hash, e)
    ensures PullCounted(cfg, PullStep(cfg, x, e), hash, base + PullAllowance(cfg, hash, x, e))
  {
    if !e.Pass? {
      JobKeepsPullCounted(cfg, x, hash, e, base);
    } else if e.cleanups.running.Some? || e.env.hash == HashError {
      IdlePassKeepsPullCounted(cfg, x, hash, e, base);
    } else if StoredHash(x.progress.feature) != hash {
      FirstPassKeepsPullCounted(cfg, x, hash, e, base);
    } else {
      FurtherPassKeepsPullCounted(cfg, x, hash, e, base);
    }
  }

  /**
   In pull mode the count is compared with max before the failure is added to it: max + 1 attempts, as many again for
   every failed hash read, and one more for every resolved conflict and for every pass that finds no usable report.
   */
  lemma {:induction false} PullModeAttemptsAreBounded(cfg: Config, x: PullProgress, hash: Hash, events: seq<Event>,
                                                      base: nat)
    requires !cfg.dryRun && cfg.max.Some?
    requires PullCounted(cfg, x, hash, base) && PullRun(cfg, hash, x, events)
    ensures PullFinal(cfg, hash, x, events).progress.attempts
            <= base + PullLimit(cfg) * (1 + HashErrors(events)) + Resolved(events) + Blind(cfg, hash, x, events)
    decreases |events|
  {
    if events != [] {
      var e, rest := events[0], events[1..];
      StepKeepsPullCounted(cfg, x, hash, e, base);
      PullModeAttemptsAreBounded(cfg, PullStep(cfg, x, e), hash, rest, base + PullAllowance(cfg, hash, x, e));
      OnceMore(PullLimit(cfg), HashErrors(rest));
    } else {
      OnceMore(PullLimit(cfg), 0);
    }
  }

  function AgentPass(hash: Hash, beingProvisioned: bool): Event {
    Pass(Env(Computed(hash), Some(PullMode(beingProvisioned, Some(hash), Some(Failed), false)), false), IDLE)
  }

  /** A run without anything that would allow for further attempts. */
  ghost predicate PullPlain(cfg: Config, x: PullProgress, hash: Hash, events: seq<Event>) {
    PullRun(cfg, hash, x, events) && HashErrors(events) == 0 && Resolved(events) == 0
    && Blind(cfg, hash, x, events) == 0
  }

  lemma PrecedeAgent(cfg: Config, x: PullProgress, hash: Hash, e: Event, rest: seq<Event>)
    requires Possible(x.progress, e) && PullKeeps(hash, e) && PullPlain(cfg, PullStep(cfg, x, e), hash, rest)
    requires !IsHashError(e) && !IsResolved(e) && !IsBlind(hash, x, e)
    ensures PullPlain(cfg, x, hash, [e] + rest)
    ensures PullFinal(cfg, hash, x, [e] + rest) == PullFinal(cfg, hash, PullStep(cfg, x, e), rest)
  {
    assert ([e] + rest)[1..] == rest;
  }

  lemma {:induction false} PullModeRounds(cfg: Config, x: PullProgress, hash: Hash) returns (events: seq<Event>)
    requires !cfg.dryRun && cfg.max.Some? && hash.Some?
    requires var p := x.progress;
             && p.feature.Some? && p.feature.value.hash == hash && p.feature.value.status in {Provisioning, Failed}
             && p.feature.value.failures <= cfg.max.value && p.attempts == p.feature.value.failures + 1
             && p.deploys == Slot(Some(hash), None, None)
    ensures PullPlain(cfg, x, hash, events)
    ensures GivenUp(PullFinal(cfg, hash, x, events).progress, hash)
    ensures PullFinal(cfg, hash, x, events).progress.attempts == PullLimit(cfg)
    decreases cfg.max.value - x.progress.feature.value.failures
  {
    var x1 := PullStep(cfg, x, Begin);
    var x2 := PullStep(cfg, x1, End(None));
    var x3 := PullStep(cfg, x2, AgentPass(hash, true));
    events := [];
    if x.progress.feature.value.failures < cfg.max.value {
      events := PullModeRounds(cfg, x3, hash);
    } else {
      assert GivenUp(x3.progress, hash);
    }
    PrecedeAgent(cfg, x2, hash, AgentPass(hash, true), events);
    events := [AgentPass(hash, true)] + events;
    PrecedeAgent(cfg, x1, hash, End(None), events);
    events := [End(None)] + events;
    PrecedeAgent(cfg, x, hash, Begin, events);
    events := [Begin] + events;
  }

  /** The extra attempt does take place, for every max. */
  lemma PullModeTakesOneMore(cfg: Config, hash: Hash) returns (events: seq<Event>)
    requires !cfg.dryRun && cfg.max.Some? && hash.Some?
    ensures var x := PullProgress(Progress(None, IDLE, 0, 0), false);
            && PullCounted(cfg, x, hash, 0) && PullPlain(cfg, x, hash, events)
            && GivenUp(PullFinal(cfg, hash, x, events).progress, hash)
            && PullFinal(cfg, hash, x, events).progress.attempts == PullLimit(cfg)
  {
    var x := PullProgress(Progress(None, IDLE, 0, 0), false);
    var rest := PullModeRounds(cfg, PullStep(cfg, x, AgentPass(hash, false)), hash);
    PrecedeAgent(cfg, x, hash, AgentPass(hash, false), rest);
    events := [AgentPass(hash, false)] + rest;
  }
}
