/**
 The hash of the Helm values in the status of a release (controllers/handlers_helm.go: deploySingleChart,
 buildReferencedHelmReleaseSummaries, shouldUpgradeForContinuousMode, updateValueHashOnHelmChartSummary).

 The values that a ClusterSummary wants for one release go through versions 0, 1, 2, ...; value(v) is the content of
 version v, and a hash is as good as the content. A pass over the release hashes the values, compares them with what
 is stored, possibly deploys them, and stores the hash. Each of these reads the values again, and they may change at
 any time.
 */
module ValuesHash {
  import opened Common

  type Value = nat -> nat

  datatype Phase =
    | Resting
    | Begun(copy: Option<nat>)
    | Hashed(copy: Option<nat>, hash: nat)
    | Upgrading(hash: nat)
    | Settled(hash: nat)

  /**
   Versions stand for what was hashed, stored or deployed. seen holds all that was ever stored: a pass may start from
   an old copy of the status, and writes that copy back. A release whose last upgrade broke is not in status deployed.
   */
  datatype State = State(current: nat, deployed: Option<nat>, broken: bool, stored: Option<nat>,
                         seen: set<Option<nat>>, phase: Phase)

  datatype Step =
    | Change
    | Begin(copy: Option<nat>)
    | TakeHash
    | Decide(forced: bool, covered: bool)
    | Deploy
    | FailDeploy(partly: bool)
    | Store
    | Abandon
    | Forget

  /**
   shouldUpgradeForContinuousMode for a release that may be installed already. forced stands for drift, another chart
   version or other patches. Without a stored hash, covered says that the desired values are a subset of the full
   values of the release, which is then adopted.
   */
  predicate Upgrades(value: Value, st: State, copy: Option<nat>, forced: bool, covered: bool) {
    || st.deployed.None? || st.broken || forced
    || !(if copy.None? then covered else value(copy.value) == value(st.current))
  }

  predicate Enabled(st: State, step: Step) {
    match step
    case Change => true
    case Begin(copy) => st.phase.Resting? && copy in st.seen
    case TakeHash => st.phase.Begun?
    case Decide(_, _) => st.phase.Hashed?
    case Deploy => st.phase.Upgrading?
    case FailDeploy(_) => st.phase.Upgrading?
    case Store => st.phase.Settled?
    case Abandon => true
    case Forget => st.phase.Resting?
  }

  function Next(value: Value, st: State, step: Step): State
    requires Enabled(st, step)
  {
    match step
    case Change => st.(current := st.current + 1)
    case Begin(copy) => st.(stored := copy, phase := Begun(copy))
    case TakeHash => st.(phase := Hashed(st.phase.copy, st.current))
    case Decide(forced, covered) =>
      st.(phase := if Upgrades(value, st, st.phase.copy, forced, covered) then Upgrading(st.phase.hash)
                   else Settled(st.phase.hash))
    case Deploy => st.(deployed := Some(st.current), broken := false, phase := Settled(st.phase.hash))
    case FailDeploy(partly) =>
      st.(deployed := if partly then Some(st.current) else st.deployed, broken := st.broken || partly, phase := Resting)
    case Store => st.(stored := Some(st.phase.hash), seen := st.seen + {Some(st.phase.hash)}, phase := Resting)
    case Abandon => st.(phase := Resting)
    case Forget => st.(stored := None, seen := st.seen + {None})
  }

  ghost predicate Run(value: Value, st: State, steps: seq<Step>)
    decreases |steps|
  {
    steps != [] ==> Enabled(st, steps[0]) && Run(value, Next(value, st, steps[0]), steps[1..])
  }

  function Final(value: Value, st: State, steps: seq<Step>): State
    requires Run(value, st, steps)
    decreases |steps|
  {
    if steps == [] then st else Final(value, Next(value, st, steps[0]), steps[1..])
  }

  /** No content comes back once it was replaced. */
  ghost predicate Fresh(value: Value) {
    forall v, w :: value(v) == value(w) ==> v == w
  }

  predicate NotNewer(v: Option<nat>, deployed: Option<nat>) {
    v.Some? ==> deployed.Some? && v.value <= deployed.value
  }

  /** Nothing that is stored, was stored or is about to be stored names values newer than the deployed ones. */
  ghost predicate Inv(st: State) {
    && NotNewer(st.stored, st.deployed) && (forall v :: v in st.seen ==> NotNewer(v, st.deployed))
    && (st.deployed.Some? ==> st.deployed.value <= st.current)
    && match st.phase {
         case Resting => true
         case Begun(copy) => NotNewer(copy, st.deployed)
         case Hashed(copy, hash) => NotNewer(copy, st.deployed) && hash <= st.current
         case Upgrading(hash) => hash <= st.current
         case Settled(hash) => NotNewer(Some(hash), st.deployed)
       }
  }

  /** What a decision has to find to pass over values that are not deployed: no stored hash, and values it covers. */
  predicate Adopts(st: State, forced: bool, covered: bool)
    requires st.phase.Hashed?
  {
    st.phase.copy.None? && covered && !forced && !st.broken && st.deployed.Some?
  }

  /** The release is adopted with a hash of values newer than its own. */
  predicate AdoptsNewer(st: State, step: Step)
    requires Enabled(st, step)
  {
    step.Decide? && Adopts(st, step.forced, step.covered) && st.deployed.value < st.phase.hash
  }

  /** Only an adoption with a newer hash breaks the invariant. */
  lemma StepKeepsInvIff(value: Value, st: State, step: Step)
    requires Fresh(value) && Inv(st) && Enabled(st, step)
    ensures Inv(Next(value, st, step)) <==> !AdoptsNewer(st, step)
  {
  }

  ghost predicate AlwaysInv(value: Value, st: State, steps: seq<Step>)
    requires Run(value, st, steps)
    decreases |steps|
  {
    Inv(st) && (steps != [] ==> AlwaysInv(value, Next(value, st, steps[0]), steps[1..]))
  }

  ghost predicate NeverAdoptsNewer(value: Value, st: State, steps: seq<Step>)
    requires Run(value, st, steps)
    decreases |steps|
  {
    steps != [] ==> !AdoptsNewer(st, steps[0]) && NeverAdoptsNewer(value, Next(value, st, steps[0]), steps[1..])
  }

  /** Over all runs: no hash is ever newer than what is deployed, exactly if no release is adopted with a newer one. */
  lemma {:induction false} HashesAreNeverNewerIff(value: Value, st: State, steps: seq<Step>)
    requires Fresh(value) && Inv(st) && Run(value, st, steps)
    ensures AlwaysInv(value, st, steps) <==> NeverAdoptsNewer(value, st, steps)
    ensures NeverAdoptsNewer(value, st, steps) ==> Inv(Final(value, st, steps))
    decreases |steps|
  {
    if steps != [] {
      StepKeepsInvIff(value, st, steps[0]);
      if !AdoptsNewer(st, steps[0]) {
        HashesAreNeverNewerIff(value, Next(value, st, steps[0]), steps[1..]);
      }
    }
  }

  /** The values are not the deployed ones, and the comparison does not see it. */
  predicate Lost(value: Value, st: State) {
    && st.deployed.Some? && value(st.deployed.value) != value(st.current)
    && st.stored.Some? && value(st.stored.value) == value(st.current)
  }

  /** In such runs the stored hash is not newer than what is deployed, and nothing is lost. */
  lemma StoredIsNeverNewer(value: Value, st: State, steps: seq<Step>)
    requires Fresh(value) && Inv(st) && Run(value, st, steps) && NeverAdoptsNewer(value, st, steps)
    ensures NotNewer(Final(value, st, steps).stored, Final(value, st, steps).deployed)
    ensures !Lost(value, Final(value, st, steps))
  {
    HashesAreNeverNewerIff(value, st, steps);
  }

  /** A decision does not deploy values that are not deployed yet exactly if it adopts the release instead. */
  lemma ChangeIsPassedOverIff(value: Value, st: State, forced: bool, covered: bool)
    requires Fresh(value) && Inv(st) && st.phase.Hashed? && st.deployed != Some(st.current)
    ensures !Next(value, st, Decide(forced, covered)).phase.Upgrading? <==> Adopts(st, forced, covered)
  {
  }

  /**
   A change is never lost: in such runs, as long as the deployed values are not the current ones, every pass that gets
   to decide upgrades, whatever copy of the status it started from, unless it adopts the release.
   */
  lemma NewerValuesUpgrade(value: Value, st: State, steps: seq<Step>, forced: bool, covered: bool)
    requires Fresh(value) && Inv(st) && Run(value, st, steps) && NeverAdoptsNewer(value, st, steps)
    requires var end := Final(value, st, steps); end.phase.Hashed? && end.deployed != Some(end.current)
    ensures var end := Final(value, st, steps);
            Next(value, end, Decide(forced, covered)).phase.Upgrading? <==> !Adopts(end, forced, covered)
  {
    HashesAreNeverNewerIff(value, st, steps);
    ChangeIsPassedOverIff(value, Final(value, st, steps), forced, covered);
  }

  // ----- Contents that come back -----

  /** A whole pass: it hashes, decides, deploys if it has to, and stores, with changes after each of these. */
  function Passed(value: Value, st: State, before: nat, during: nat, after: nat, forced: bool, covered: bool): State
    requires st.phase.Begun?
  {
    var hashed := Next(value, st, TakeHash).(current := st.current + before);
    var decided := Next(value, hashed, Decide(forced, covered)).(current := hashed.current + during);
    var settled := if decided.phase.Upgrading? then Next(value, decided, Deploy) else decided;
    Next(value, settled, Store).(current := settled.current + after)
  }

  /**
   For any contents at all, and any pass: it loses a change exactly when the current content is the hashed one and not
   the deployed one. What is deployed is the version of the deployment if it comes to one, and the former one otherwise.
   It does not come to one if the stored content is the desired one or, with none stored, covered by the release.
   */
  lemma PassLosesChangeIff(value: Value, st: State, before: nat, during: nat, after: nat, forced: bool, covered: bool)
    requires st.phase.Begun?
    ensures var kept := && st.deployed.Some? && !st.broken && !forced
                        && if st.phase.copy.None? then covered
                           else value(st.phase.copy.value) == value(st.current + before);
            var deployed := if kept then st.deployed.value else st.current + before + during;
            var end := st.current + before + during + after;
            Lost(value, Passed(value, st, before, during, after, forced, covered)) <==>
              value(st.current) == value(end) && value(deployed) != value(end)
  {
  }

  /** A deployment leaves the values of its time; one that fails half way leaves them too, but broken. */
  lemma DeploymentsLeave(value: Value, st: State, partly: bool)
    requires st.phase.Upgrading?
    ensures var done := Next(value, st, Deploy);
            done.deployed == Some(st.current) && !done.broken && done.phase == Settled(st.phase.hash)
    ensures var failed := Next(value, st, FailDeploy(partly));
            && failed.stored == st.stored && failed.phase.Resting?
            && (if partly then failed.deployed == Some(st.current) && failed.broken
                else failed.deployed == st.deployed && failed.broken == st.broken)
  {
  }

  /** What is broken, or not there at all, is upgraded by every pass that gets to decide. */
  lemma BrokenIsUpgraded(value: Value, st: State, forced: bool, covered: bool)
    requires st.phase.Hashed? && (st.broken || st.deployed.None? || forced)
    ensures Next(value, st, Decide(forced, covered)).phase.Upgrading?
  {
  }

  /**
   A pass with nothing in between, over a release that is new or has other values than are stored, deploys the current
   values; the next one then finds nothing to do, whether it starts from what was stored or adopts the release.
   */
  lemma UndisturbedPassSettles(value: Value, st: State, forced: bool, covered: bool)
    requires st.phase.Begun? && st.deployed != Some(st.current)
    requires st.deployed.None? || st.broken || forced
             || (if st.phase.copy.None? then !covered else value(st.phase.copy.value) != value(st.current))
    ensures var end := Passed(value, st, 0, 0, 0, forced, covered);
            && end.deployed == Some(st.current) && !end.broken && end.stored == Some(st.current)
            && end.current == st.current && end.phase.Resting?
            && Enabled(end, Begin(end.stored))
            && Passed(value, Next(value, end, Begin(end.stored)), 0, 0, 0, false, covered) == end
  {
  }

  /** A stored hash that is dropped is gone for the passes that start from then on, and those may adopt the release. */
  lemma ForgottenHashIsNone(value: Value, st: State)
    requires st.phase.Resting?
    ensures var next := Next(value, st, Forget);
            next.stored == None && Enabled(next, Begin(None)) && Next(value, next, Begin(None)).phase == Begun(None)
  {
  }

  /** A pass may be given up anywhere. It leaves what it has done, and another one may start from what was stored. */
  lemma PassMayBeGivenUp(value: Value, st: State)
    requires st.stored in st.seen
    ensures Enabled(st, Abandon)
    ensures var next := Next(value, st, Abandon);
            && next.deployed == st.deployed && next.broken == st.broken && next.stored == st.stored
            && Enabled(next, Begin(st.stored)) && Enabled(next, Forget)
  {
  }

  /** The state after a loss, at any point of a pass. */
  predicate Blind(value: Value, st: State) {
    && Lost(value, st) && !st.broken
    && match st.phase {
         case Resting => true
         case Begun(copy) => copy == st.stored
         case Hashed(copy, hash) => copy == st.stored && value(hash) == value(st.current)
         case Upgrading(_) => false
         case Settled(hash) => value(hash) == value(st.current)
       }
  }

  /** Nothing changes, nothing forces an upgrade, the stored hash is kept, and passes start from what is stored. */
  ghost predicate Calm(value: Value, st: State, steps: seq<Step>)
    requires Run(value, st, steps)
    decreases |steps|
  {
    steps != [] ==>
      && steps[0] != Change && steps[0] != Forget && (steps[0].Decide? ==> !steps[0].forced)
      && (steps[0].Begin? ==> steps[0].copy == st.stored)
      && Calm(value, Next(value, st, steps[0]), steps[1..])
  }

  /** What is lost stays lost: however many passes follow, none of them upgrades. */
  lemma {:induction false} LostStaysLost(value: Value, st: State, steps: seq<Step>)
    requires Blind(value, st) && Run(value, st, steps) && Calm(value, st, steps)
    ensures Blind(value, Final(value, st, steps)) && Final(value, st, steps).deployed == st.deployed
    decreases |steps|
  {
    if steps != [] {
      LostStaysLost(value, Next(value, st, steps[0]), steps[1..]);
    }
  }

  /** The values are changed while they are deployed, and changed back: the release keeps what nobody wants. */
  lemma RevertDuringDeploymentIsLost(value: Value) returns (steps: seq<Step>)
    requires value(1) != value(0) && value(2) == value(0)
    ensures var st := State(0, None, false, None, {None}, Resting);
            && Run(value, st, steps) && Lost(value, Final(value, st, steps))
            && (forall i :: 0 <= i < |steps| ==> steps[i] != Forget && steps[i] != Abandon && !steps[i].FailDeploy?)
  {
    var s0 := State(0, None, false, None, {None}, Resting);
    var s1 := Next(value, s0, Begin(None));
    var s2 := Next(value, s1, TakeHash);
    var s3 := Next(value, s2, Decide(false, false));
    var s4 := Next(value, s3, Change);
    var s5 := Next(value, s4, Deploy);
    var s6 := Next(value, s5, Change);
    var s7 := Next(value, s6, Store);
    Extend(value, s6, Store, s7, []);
    steps := [Store] + [];
    Extend(value, s5, Change, s6, steps);
    steps := [Change] + steps;
    Extend(value, s4, Deploy, s5, steps);
    steps := [Deploy] + steps;
    Extend(value, s3, Change, s4, steps);
    steps := [Change] + steps;
    Extend(value, s2, Decide(false, false), s3, steps);
    steps := [Decide(false, false)] + steps;
    Extend(value, s1, TakeHash, s2, steps);
    steps := [TakeHash] + steps;
    Extend(value, s0, Begin(None), s1, steps);
    steps := [Begin(None)] + steps;
  }

  lemma Extend(value: Value, st: State, step: Step, next: State, rest: seq<Step>)
    requires Enabled(st, step) && Next(value, st, step) == next && Run(value, next, rest)
    ensures Run(value, st, [step] + rest) && Final(value, st, [step] + rest) == Final(value, next, rest)
  {
    assert ([step] + rest)[1..] == rest;
  }

  /**
   Nothing is stored, and the new values only drop some of the old ones. The release covers them and is adopted: the
   hash of the new values is stored and the old ones stay, even though no content ever came back.
   */
  lemma AdoptionKeepsDroppedValues(value: Value)
    requires Fresh(value)
    ensures var st := State(1, Some(0), false, None, {None}, Resting);
            var steps := [Begin(None), TakeHash, Decide(false, true), Store];
            Run(value, st, steps) && Lost(value, Final(value, st, steps)) && !NeverAdoptsNewer(value, st, steps)
  {
    var s0 := State(1, Some(0), false, None, {None}, Resting);
    var s1 := Next(value, s0, Begin(None));
    var s2 := Next(value, s1, TakeHash);
    var s3 := Next(value, s2, Decide(false, true));
    var s4 := Next(value, s3, Store);
    assert value(0) != value(1);
    Extend(value, s3, Store, s4, []);
    Extend(value, s2, Decide(false, true), s3, [Store]);
    Extend(value, s1, TakeHash, s2, [Decide(false, true), Store]);
    Extend(value, s0, Begin(None), s1, [TakeHash, Decide(false, true), Store]);
    assert !NeverAdoptsNewer(value, s2, [Decide(false, true)] + [Store]);
  }
}
