/**
 Who may act on a Helm release (controllers/handlers_helm.go, controllers/conflicts.go,
 controllers/clustersummary_transition.go).

 The state is the one of a single release on a single cluster: the registrants, the deployer jobs of the
 ClusterSummaries, and the jobs that are running a Helm action on the release at this moment.
 A takeover (check that the manager is not in progress, requeue it, become the manager) is one step.
 */
module ChartOwnership {
  import opened Common
  import opened ChartManager

  /** What the ClusterSummary knows of its owning profile. */
  datatype Claimant = Claimant(tier: int, kind: ProfileKind, profile: string, transitionFrom: set<string>, dryRun: bool)

  type Claimants = map<Name, Claimant>

  /** deployer.HasHigherOwnershipPriority(a, b): the tier b beats the tier a. */
  predicate HasHigherOwnershipPriority(current: int, claiming: int) {
    claiming < current
  }

  /** The claiming profile declares that it replaces the profile of the manager. Same kind only. */
  predicate IsChartTransitioningFrom(current: Claimant, claiming: Claimant) {
    current.kind == claiming.kind && current.profile in claiming.transitionFrom
  }

  predicate Beats(cs: Claimants, claiming: Name, current: Name) {
    && claiming != current && claiming in cs && current in cs
    && (HasHigherOwnershipPriority(cs[current].tier, cs[claiming].tier)
        || IsChartTransitioningFrom(cs[current], cs[claiming]))
  }

  datatype Job = Deploying | Cleaning

  /** left: the ClusterSummaries that have unregistered within the deploy job they are running. */
  datatype State = State(registrants: seq<Name>, jobs: map<Name, Job>, acting: set<Name>, left: set<Name>)

  datatype Step =
    | Register(name: Name)
    | StartJob(name: Name, job: Job)
    | Claim(name: Name)
    | Act(name: Name)
    | ActionDone(name: Name)
    | EndJob(name: Name)
    | Leave(name: Name)
    | Yield(manager: Name)

  /** requeueClusterSummary refuses while the deployer reports a deploy, and only a deploy, in progress. */
  predicate Requeueable(st: State, name: Name) {
    name in st.jobs ==> st.jobs[name] != Deploying
  }

  /** The claim changes the manager. */
  predicate TakesOver(cs: Claimants, st: State, name: Name) {
    && !CanManage(st.registrants, name)
    && Beats(cs, name, st.registrants[0])
    && !cs[name].dryRun
    && Requeueable(st, st.registrants[0])
  }

  datatype Ownership = Granted | Denied | Failed

  /** determineChartOwnership: the answer, and the registrants after it. */
  function DetermineChartOwnership(cs: Claimants, st: State, name: Name): (Ownership, seq<Name>) {
    if CanManage(st.registrants, name) then (Granted, st.registrants)
    else if !Beats(cs, name, st.registrants[0]) then (Denied, st.registrants)
    else if cs[name].dryRun then (Granted, st.registrants)
    else if !Requeueable(st, st.registrants[0]) then (Failed, st.registrants)
    else (Granted, WithManager(st.registrants, name))
  }

  /** The registrant is requeued by a manager that looks for challengers of a lower tier. */
  predicate Challenges(cs: Claimants, st: State, name: Name, manager: Name)
    requires manager in cs
  {
    && name != manager && name in cs
    && HasHigherOwnershipPriority(cs[manager].tier, cs[name].tier)
    && Requeueable(st, name)
  }

  /**
   requeueLowerTierChallengers with transfer of the ownership. The registrants as listed at the start are
   walked, and each one that challenges becomes the manager in turn.
   */
  function Yielded(cs: Claimants, st: State, manager: Name, listed: seq<Name>, registrants: seq<Name>): seq<Name>
    requires manager in cs
  {
    if listed == [] then registrants
    else Yielded(cs, st, manager, listed[1..],
                 if Challenges(cs, st, listed[0], manager) then WithManager(registrants, listed[0]) else registrants)
  }

  /**
   A ClusterSummary registers before its deploy is queued and leaves the list only by itself. A deploy job leaves when
   its profile does not list the release any more, and does nothing about the release from then on. A DryRun job takes
   no Helm action. Yield is what a manager does from its own reconciliation, with no job of its own running.
   */
  predicate Enabled(cs: Claimants, st: State, step: Step) {
    match step
    case Register(n) => n in cs
    case StartJob(n, job) => n !in st.jobs && n in cs && (job == Deploying ==> n in st.registrants)
    case Claim(n) => n in st.jobs && n in cs && n !in st.left
    case Act(n) => n in st.jobs && n in cs && n !in st.left && !cs[n].dryRun && CanManage(st.registrants, n)
    case ActionDone(n) => n in st.acting
    case EndJob(n) => n in st.jobs && n !in st.acting
    case Leave(n) => n !in st.acting
    case Yield(m) => m !in st.jobs && m in cs && st.registrants != [] && st.registrants[0] == m
  }

  function LeavesJob(st: State, n: Name): set<Name> {
    if n in st.jobs && st.jobs[n] == Deploying then {n} else {}
  }

  function Next(cs: Claimants, st: State, step: Step): State
    requires Enabled(cs, st, step)
  {
    match step
    case Register(n) => st.(registrants := Enrolled(st.registrants, n))
    case StartJob(n, job) => st.(jobs := st.jobs[n := job])
    case Claim(n) => st.(registrants := DetermineChartOwnership(cs, st, n).1)
    case Act(n) => st.(acting := st.acting + {n})
    case ActionDone(n) => st.(acting := st.acting - {n})
    case EndJob(n) => st.(jobs := st.jobs - {n}, left := st.left - {n})
    case Leave(n) => st.(registrants := Removed(st.registrants, n), left := st.left + LeavesJob(st, n))
    case Yield(m) => st.(registrants := Yielded(cs, st, m, st.registrants, st.registrants))
  }

  /** determineChartOwnership over the registrations of the chart manager. */
  method ClaimChart(mgr: ChartManager, release: Release, cs: Claimants, st: State, name: Name)
    returns (answer: Ownership)
    requires name in cs && Members(st.registrants) <= cs.Keys
    requires Registrants(mgr.registrations, release) == st.registrants
    modifies mgr
    ensures answer == DetermineChartOwnership(cs, st, name).0
    ensures Registrants(mgr.registrations, release) == DetermineChartOwnership(cs, st, name).1
    ensures forall r :: r != release ==> Registrants(mgr.registrations, r) == old(Registrants(mgr.registrations, r))
  {
    var can := mgr.CanManageChart(name, release);
    if can {
      return Granted;
    }
    var managing := mgr.GetManagerForChart(release);
    var current := managing.value;
    assert CanManage(st.registrants, st.registrants[0]);
    if HasHigherOwnershipPriority(cs[current].tier, cs[name].tier) || IsChartTransitioningFrom(cs[current], cs[name]) {
      if cs[name].dryRun {
        return Granted;
      }
      if current in st.jobs && st.jobs[current] == Deploying {
        return Failed;
      }
      mgr.SetManagerForChart(name, release);
      return Granted;
    }
    answer := Denied;
  }

  lemma YieldedNext(cs: Claimants, st: State, manager: Name, listed: seq<Name>, i: nat, registrants: seq<Name>)
    requires manager in cs && i < |listed|
    ensures Yielded(cs, st, manager, listed[i..], registrants)
            == Yielded(cs, st, manager, listed[i + 1..],
                       if Challenges(cs, st, listed[i], manager) then WithManager(registrants, listed[i])
                       else registrants)
  {
    assert listed[i..][1..] == listed[i + 1..];
  }

  /**
   requeueLowerTierChallengers with transfer of the ownership. Whoever is not known any more is passed over, and so is
   whoever cannot be requeued. The list that is walked is the one of the start: the first transfer overwrites, in the
   array behind it, only the entry that was just read, and the later ones work on new arrays.
   */
  method RequeueLowerTierChallengers(mgr: ChartManager, release: Release, cs: Claimants, st: State, manager: Name)
    returns (requeued: bool)
    requires manager in cs && Registrants(mgr.registrations, release) == st.registrants
    modifies mgr
    ensures requeued <==> exists n :: n in st.registrants && Challenges(cs, st, n, manager)
    ensures Registrants(mgr.registrations, release) == Yielded(cs, st, manager, st.registrants, st.registrants)
    ensures forall r :: r != release ==> Registrants(mgr.registrations, r) == old(Registrants(mgr.registrations, r))
  {
    requeued := false;
    var registered := mgr.GetRegisteredClusterSummariesForChart(release);
    for i := 0 to |registered|
      invariant requeued <==> exists k :: 0 <= k < i && Challenges(cs, st, registered[k], manager)
      invariant Yielded(cs, st, manager, registered, registered)
                == Yielded(cs, st, manager, registered[i..], Registrants(mgr.registrations, release))
      invariant forall r :: r != release ==> Registrants(mgr.registrations, r) == old(Registrants(mgr.registrations, r))
    {
      var name := registered[i];
      YieldedNext(cs, st, manager, registered, i, Registrants(mgr.registrations, release));
      if name == manager || name !in cs || !HasHigherOwnershipPriority(cs[manager].tier, cs[name].tier) {
        continue;
      }
      if name in st.jobs && st.jobs[name] == Deploying {
        continue;
      }
      mgr.SetManagerForChart(name, release);
      requeued := true;
    }
  }

  // ----- Who gets the release -----

  /** The manager keeps it, and the first to come gets it. */
  lemma ManagerIsGranted(cs: Claimants, st: State, name: Name)
    requires name in cs && (st.registrants != [] ==> st.registrants[0] == name)
    ensures DetermineChartOwnership(cs, st, name) == (Granted, st.registrants)
  {
  }

  /** A claimant of a lower tier than the manager gets it, unless the manager is deploying. In DryRun nothing moves. */
  lemma LowerTierIsGranted(cs: Claimants, st: State, name: Name)
    requires name in cs && st.registrants != [] && st.registrants[0] in cs && name != st.registrants[0]
    requires cs[name].tier < cs[st.registrants[0]].tier
    ensures var (answer, after) := DetermineChartOwnership(cs, st, name);
            var busy := st.registrants[0] in st.jobs && st.jobs[st.registrants[0]] == Deploying;
            && (cs[name].dryRun ==> answer == Granted && after == st.registrants)
            && (!cs[name].dryRun && busy ==> answer == Failed && after == st.registrants)
            && (!cs[name].dryRun && !busy ==> answer == Granted && after != [] && after[0] == name)
  {
  }

  /** So does one, of the same kind, that names the profile of the manager in its TransitionFrom, whatever the tiers. */
  lemma SuccessorIsGranted(cs: Claimants, st: State, name: Name)
    requires name in cs && st.registrants != [] && st.registrants[0] in cs && name != st.registrants[0]
    requires cs[name].kind == cs[st.registrants[0]].kind && cs[st.registrants[0]].profile in cs[name].transitionFrom
    ensures var (answer, after) := DetermineChartOwnership(cs, st, name);
            var busy := st.registrants[0] in st.jobs && st.jobs[st.registrants[0]] == Deploying;
            && (cs[name].dryRun ==> answer == Granted && after == st.registrants)
            && (!cs[name].dryRun && busy ==> answer == Failed && after == st.registrants)
            && (!cs[name].dryRun && !busy ==> answer == Granted && after != [] && after[0] == name)
  {
  }

  /** Nobody else does. */
  lemma OthersAreDenied(cs: Claimants, st: State, name: Name)
    requires name in cs && st.registrants != [] && st.registrants[0] in cs && name != st.registrants[0]
    requires cs[name].tier >= cs[st.registrants[0]].tier
    requires cs[name].kind != cs[st.registrants[0]].kind || cs[st.registrants[0]].profile !in cs[name].transitionFrom
    ensures DetermineChartOwnership(cs, st, name) == (Denied, st.registrants)
  {
  }

  // ----- One manager per release -----

  /** Whoever is acting is the manager, so there is at most one. */
  ghost predicate ManagerActs(st: State) {
    forall n :: n in st.acting ==> st.registrants != [] && st.registrants[0] == n
  }

  predicate Listed(cs: Claimants, st: State) {
    Distinct(st.registrants) && Members(st.registrants) <= cs.Keys
  }

  ghost predicate Inv(cs: Claimants, st: State) {
    && Listed(cs, st)
    && st.acting <= st.jobs.Keys
    && (forall n :: n in st.jobs && st.jobs[n] == Deploying ==> n in st.registrants || n in st.left)
    && ManagerActs(st)
  }

  /**
   What the code leaves open. The in-progress check of a takeover does not see cleanups, and a cleanup
   may find an empty list of registrants and act without being one.
   */
  predicate Guarded(cs: Claimants, st: State, step: Step)
    requires Enabled(cs, st, step)
  {
    match step
    case Claim(n) => TakesOver(cs, st, n) ==> !(st.registrants[0] in st.acting)
    case Act(n) => n in st.registrants
    case _ => true
  }

  lemma WithManagerMembers(s: seq<Name>, name: Name)
    requires Distinct(s)
    ensures Distinct(WithManager(s, name)) && Members(WithManager(s, name)) == Members(s) + {name}
  {
    RemovedMembers(s, name);
    var rest, t := Removed(s, name), WithManager(s, name);
    assert forall n :: n in t <==> n == name || n in rest;
    assert forall i :: 0 <= i < |rest| ==> rest[i] in Members(rest) && rest[i] != name;
    forall i, j | 0 <= i < j < |t|
      ensures t[i] != t[j]
    {
      assert t[j] == rest[j - 1] && (i > 0 ==> t[i] == rest[i - 1]);
    }
    assert Members(t) == Members(rest) + {name};
  }

  /**
   The walk keeps the registrants, and the manager after it is the last challenger of the list. It is of a
   strictly lower tier than the manager that yields, which need not be the lowest one.
   */
  lemma {:induction false} YieldGoesToAChallenger(cs: Claimants, st: State, manager: Name, listed: seq<Name>,
                                                  registrants: seq<Name>)
    requires manager in cs && Distinct(registrants) && Members(listed) <= Members(registrants) && registrants != []
    ensures var after := Yielded(cs, st, manager, listed, registrants);
            && Distinct(after) && Members(after) == Members(registrants)
            && after != []
            && (after[0] != registrants[0] ==>
                  && after[0] in listed && Challenges(cs, st, after[0], manager)
                  && cs[after[0]].tier < cs[manager].tier)
            && ((forall n :: n in listed ==> !Challenges(cs, st, n, manager)) ==> after == registrants)
            && (forall k :: 0 <= k < |listed| && Challenges(cs, st, listed[k], manager)
                            && (forall l :: k < l < |listed| ==> !Challenges(cs, st, listed[l], manager))
                            ==> after[0] == listed[k])
    decreases |listed|
  {
    if listed != [] {
      var c := listed[0];
      assert c in Members(listed);
      WithManagerMembers(registrants, c);
      var next := if Challenges(cs, st, c, manager) then WithManager(registrants, c) else registrants;
      assert Members(listed[1..]) <= Members(listed);
      assert Members(next) == Members(registrants) + (if Challenges(cs, st, c, manager) then {c} else {});
      YieldGoesToAChallenger(cs, st, manager, listed[1..], next);
      var after := Yielded(cs, st, manager, listed[1..], next);
      forall k | 0 <= k < |listed| && Challenges(cs, st, listed[k], manager)
                 && (forall l :: k < l < |listed| ==> !Challenges(cs, st, listed[l], manager))
        ensures after[0] == listed[k]
      {
        if k == 0 {
          assert forall n :: n in listed[1..] ==> !Challenges(cs, st, n, manager);
        } else {
          assert listed[1..][k - 1] == listed[k];
          assert forall l :: k - 1 < l < |listed[1..]| ==> listed[1..][l] == listed[l + 1];
        }
      }
      if forall n :: n in listed ==> !Challenges(cs, st, n, manager) {
        assert forall n :: n in listed[1..] ==> n in listed;
      }
    }
  }

  /** A manager that yields: the last registrant of a lower tier that is not deploying gets the release. */
  lemma LastOfLowerTierGetsIt(cs: Claimants, st: State, manager: Name, k: nat)
    requires Distinct(st.registrants) && k < |st.registrants| && manager in cs && st.registrants[k] in cs
    requires var n := st.registrants[k]; cs[n].tier < cs[manager].tier && (n in st.jobs ==> st.jobs[n] == Cleaning)
    requires forall l :: k < l < |st.registrants| ==>
               var n := st.registrants[l];
               n !in cs || cs[n].tier >= cs[manager].tier || (n in st.jobs && st.jobs[n] == Deploying)
    ensures var after := Yielded(cs, st, manager, st.registrants, st.registrants);
            after != [] && after[0] == st.registrants[k]
  {
    YieldGoesToAChallenger(cs, st, manager, st.registrants, st.registrants);
  }

  /** With nobody of a lower tier it stays as it is. */
  lemma NobodyOfLowerTierGetsIt(cs: Claimants, st: State, manager: Name)
    requires Distinct(st.registrants) && st.registrants != [] && manager in cs
    requires forall n :: n in st.registrants && n in cs ==>
               cs[n].tier >= cs[manager].tier || (n in st.jobs && st.jobs[n] == Deploying)
    ensures Yielded(cs, st, manager, st.registrants, st.registrants) == st.registrants
  {
    YieldGoesToAChallenger(cs, st, manager, st.registrants, st.registrants);
  }

  /** A job ends when its action has, and one that has unregistered does nothing about the release until then. */
  lemma JobsComeAndGo(cs: Claimants, st: State, n: Name)
    requires n in cs && n in st.jobs && n !in st.acting
    ensures Enabled(cs, st, EndJob(n)) && n !in Next(cs, st, EndJob(n)).jobs && !Enabled(cs, st, ActionDone(n))
    ensures Enabled(cs, st, Leave(n))
    ensures st.jobs[n] == Deploying ==>
              var left := Next(cs, st, Leave(n));
              !Enabled(cs, left, Claim(n)) && !Enabled(cs, left, Act(n)) && n !in Next(cs, left, EndJob(n)).left
    ensures st.jobs[n] == Cleaning ==> Next(cs, st, Leave(n)).left == st.left
    ensures Enabled(cs, st, Act(n)) ==>
              var acting := Next(cs, st, Act(n));
              && !Enabled(cs, acting, EndJob(n)) && !Enabled(cs, acting, Leave(n))
              && Enabled(cs, acting, ActionDone(n)) && Next(cs, acting, ActionDone(n)) == st
  {
  }

  /** Registrants stay distinct. Nobody but the one that leaves drops out of the list. */
  lemma StepKeepsListed(cs: Claimants, st: State, step: Step)
    requires Listed(cs, st) && Enabled(cs, st, step)
    ensures Listed(cs, Next(cs, st, step))
    ensures forall n :: n in st.registrants && step != Leave(n) ==> n in Next(cs, st, step).registrants
  {
    match step
    case Register(n) =>
      assert forall m :: m in Enrolled(st.registrants, n) <==> m in st.registrants || m == n;
    case Claim(n) =>
      WithManagerMembers(st.registrants, n);
      assert forall m :: m in st.registrants ==> m in Members(WithManager(st.registrants, n));
    case Yield(m) =>
      YieldGoesToAChallenger(cs, st, m, st.registrants, st.registrants);
      assert forall n :: n in st.registrants ==> n in Members(Next(cs, st, step).registrants);
    case Leave(n) =>
      RemovedMembers(st.registrants, n);
      assert forall m :: m in st.registrants && m != n ==> m in Members(Removed(st.registrants, n));
    case _ =>
  }

  lemma StepKeepsInv(cs: Claimants, st: State, step: Step)
    requires Inv(cs, st) && Enabled(cs, st, step) && Guarded(cs, st, step)
    ensures Inv(cs, Next(cs, st, step))
  {
    StepKeepsListed(cs, st, step);
    if step.Leave? {
      RemovedMembers(st.registrants, step.name);
    }
  }

  /**
   A step lets two ClusterSummaries act, or one act that is not the manager, exactly when it takes over from a
   manager in the middle of a cleanup action, or is a cleanup by a ClusterSummary that is not registered.
   */
  lemma StepKeepsExclusionIff(cs: Claimants, st: State, step: Step)
    requires Inv(cs, st) && Enabled(cs, st, step)
    ensures ManagerActs(Next(cs, st, step)) <==> Guarded(cs, st, step)
  {
    if Guarded(cs, st, step) {
      StepKeepsInv(cs, st, step);
    } else if step.Claim? {
      var h := st.registrants[0];
      assert h in Next(cs, st, step).acting && Next(cs, st, step).registrants[0] == step.name;
    }
  }

  /** While it deploys, a manager loses the release only by leaving: every claim fails, and nobody can yield it. */
  lemma DeployingManagerIsSafe(cs: Claimants, st: State, step: Step)
    requires Inv(cs, st) && Enabled(cs, st, step)
    requires st.registrants != [] && st.registrants[0] in st.jobs && st.jobs[st.registrants[0]] == Deploying
    requires step != EndJob(st.registrants[0])
    ensures step != Leave(st.registrants[0]) ==>
              Next(cs, st, step).registrants != [] && Next(cs, st, step).registrants[0] == st.registrants[0]
    ensures (step.Claim? && step.name != st.registrants[0] && Beats(cs, step.name, st.registrants[0])
             && !cs[step.name].dryRun) ==> DetermineChartOwnership(cs, st, step.name).0 == Failed
  {
  }

  ghost predicate Run(cs: Claimants, st: State, steps: seq<Step>)
    decreases |steps|
  {
    steps != [] ==> Enabled(cs, st, steps[0]) && Run(cs, Next(cs, st, steps[0]), steps[1..])
  }

  function Final(cs: Claimants, st: State, steps: seq<Step>): State
    requires Run(cs, st, steps)
    decreases |steps|
  {
    if steps == [] then st else Final(cs, Next(cs, st, steps[0]), steps[1..])
  }

  /** Before and after every step, whoever is acting is the manager. */
  ghost predicate AlwaysExclusive(cs: Claimants, st: State, steps: seq<Step>)
    requires Run(cs, st, steps)
    decreases |steps|
  {
    ManagerActs(st) && (steps != [] ==> AlwaysExclusive(cs, Next(cs, st, steps[0]), steps[1..]))
  }

  predicate AlwaysGuarded(cs: Claimants, st: State, steps: seq<Step>)
    requires Run(cs, st, steps)
    decreases |steps|
  {
    steps != [] ==> Guarded(cs, st, steps[0]) && AlwaysGuarded(cs, Next(cs, st, steps[0]), steps[1..])
  }

  /**
   One manager per release, over all runs of deployments and cleanups: at most one ClusterSummary at a time runs a Helm
   action on the release, and it is the manager, exactly if every step of the run is guarded.
   */
  lemma {:induction false} OneManagerPerReleaseIff(cs: Claimants, st: State, steps: seq<Step>)
    requires Inv(cs, st) && Run(cs, st, steps)
    ensures AlwaysExclusive(cs, st, steps) <==> AlwaysGuarded(cs, st, steps)
    ensures AlwaysGuarded(cs, st, steps) ==> Inv(cs, Final(cs, st, steps))
    decreases |steps|
  {
    if steps != [] {
      StepKeepsExclusionIff(cs, st, steps[0]);
      if Guarded(cs, st, steps[0]) {
        StepKeepsInv(cs, st, steps[0]);
        OneManagerPerReleaseIff(cs, Next(cs, st, steps[0]), steps[1..]);
      }
    }
  }

  /** No cleanup job is ever started. */
  predicate DeploysOnly(steps: seq<Step>) {
    forall i :: 0 <= i < |steps| ==> !(steps[i].StartJob? && steps[i].job == Cleaning)
  }

  lemma {:induction false} DeploymentsAreGuarded(cs: Claimants, st: State, steps: seq<Step>)
    requires Inv(cs, st) && (forall n :: n in st.jobs ==> st.jobs[n] == Deploying)
    requires Run(cs, st, steps) && DeploysOnly(steps)
    ensures AlwaysGuarded(cs, st, steps)
    decreases |steps|
  {
    if steps != [] {
      assert !(steps[0].StartJob? && steps[0].job == Cleaning);
      assert forall i :: 0 <= i < |steps[1..]| ==> steps[1..][i] == steps[i + 1];
      assert forall n :: n in st.acting ==> n in st.jobs;
      StepKeepsInv(cs, st, steps[0]);
      DeploymentsAreGuarded(cs, Next(cs, st, steps[0]), steps[1..]);
    }
  }

  /** However the registrations, claims and transfers of deployments are interleaved, nobody acts beside the manager. */
  lemma OneManagerPerRelease(cs: Claimants, st: State, steps: seq<Step>)
    requires Inv(cs, st) && (forall n :: n in st.jobs ==> st.jobs[n] == Deploying)
    requires Run(cs, st, steps) && DeploysOnly(steps)
    ensures AlwaysExclusive(cs, st, steps)
    ensures forall a, b :: a in Final(cs, st, steps).acting && b in Final(cs, st, steps).acting ==> a == b
  {
    DeploymentsAreGuarded(cs, st, steps);
    OneManagerPerReleaseIff(cs, st, steps);
  }

  /** A cleanup is uninstalling the release when a profile of a lower tier takes it over and installs it. */
  lemma CleanupIsNotProtected(a: Name, b: Name)
    requires a != b
    ensures var cs := map[a := Claimant(100, ClusterProfile, "a", {}, false),
                          b := Claimant(10, ClusterProfile, "b", {}, false)];
            var st := State([a], map[], {}, {});
            var steps := [StartJob(a, Cleaning), Act(a), Register(b), StartJob(b, Deploying), Claim(b), Act(b)];
            && Inv(cs, st) && Run(cs, st, steps)
            && Final(cs, st, steps).acting == {a, b}
  {
    var cs := map[a := Claimant(100, ClusterProfile, "a", {}, false),
                  b := Claimant(10, ClusterProfile, "b", {}, false)];
    var s0 := State([a], map[], {}, {});
    var s1 := State([a], map[a := Cleaning], {}, {});
    var s2 := s1.(acting := {a});
    var s3 := s2.(registrants := [a, b]);
    var s4 := s3.(jobs := map[a := Cleaning, b := Deploying]);
    assert Position([a, b], b) == 1 by { FirstPosition([a, b], b, 1); }
    var s5 := s4.(registrants := [b, a]);
    var s6 := s5.(acting := {a, b});
    Extend(cs, s5, Act(b), s6, []);
    Extend(cs, s4, Claim(b), s5, [Act(b)]);
    Extend(cs, s3, StartJob(b, Deploying), s4, [Claim(b), Act(b)]);
    Extend(cs, s2, Register(b), s3, [StartJob(b, Deploying), Claim(b), Act(b)]);
    Extend(cs, s1, Act(a), s2, [Register(b), StartJob(b, Deploying), Claim(b), Act(b)]);
    Extend(cs, s0, StartJob(a, Cleaning), s1, [Act(a), Register(b), StartJob(b, Deploying), Claim(b), Act(b)]);
  }

  lemma Extend(cs: Claimants, st: State, step: Step, next: State, rest: seq<Step>)
    requires Enabled(cs, st, step) && Next(cs, st, step) == next && Run(cs, next, rest)
    ensures Run(cs, st, [step] + rest) && Final(cs, st, [step] + rest) == Final(cs, next, rest)
  {
    assert ([step] + rest)[1..] == rest;
  }

  /**
   With two challengers registered, the manager yields to the later one, though the earlier one has the lower tier.
   */
  lemma YieldMissesTheLowestTier(m: Name, a: Name, b: Name)
    requires m != a && m != b && a != b
    ensures var cs := map[m := Claimant(100, ClusterProfile, "m", {}, false),
                          a := Claimant(10, ClusterProfile, "a", {}, false),
                          b := Claimant(50, ClusterProfile, "b", {}, false)];
            var st := State([m, a, b], map[], {}, {});
            && Inv(cs, st) && Enabled(cs, st, Yield(m))
            && Next(cs, st, Yield(m)).registrants != [] && Next(cs, st, Yield(m)).registrants[0] == b
  {
    var cs := map[m := Claimant(100, ClusterProfile, "m", {}, false), a := Claimant(10, ClusterProfile, "a", {}, false),
                  b := Claimant(50, ClusterProfile, "b", {}, false)];
    var st := State([m, a, b], map[], {}, {});
    YieldGoesToAChallenger(cs, st, m, st.registrants, st.registrants);
    assert Challenges(cs, st, st.registrants[2], m);
  }

  // ----- Takeovers come to an end -----

  /** The head of the list changes hands without anybody leaving. */
  predicate Takeover(cs: Claimants, st: State, step: Step)
    requires Enabled(cs, st, step)
  {
    && !step.Leave? && st.registrants != []
    && Next(cs, st, step).registrants != [] && Next(cs, st, step).registrants[0] != st.registrants[0]
  }

  function Takeovers(cs: Claimants, st: State, steps: seq<Step>): nat
    requires Run(cs, st, steps)
    decreases |steps|
  {
    if steps == [] then 0
    else (if Takeover(cs, st, steps[0]) then 1 else 0) + Takeovers(cs, Next(cs, st, steps[0]), steps[1..])
  }

  predicate NobodyLeaves(steps: seq<Step>) {
    forall i :: 0 <= i < |steps| ==> !steps[i].Leave?
  }

  /** How often a ClusterSummary leaves the list, or tries to. */
  function Departures(steps: seq<Step>): nat {
    if steps == [] then 0 else (if steps[0].Leave? then 1 else 0) + Departures(steps[1..])
  }

  /** Over a lower tier the manager loses to anybody, but to a declared successor only if that one is not in DryRun. */
  predicate Wins(cs: Claimants, claiming: Name, current: Name) {
    && Beats(cs, claiming, current)
    && (!cs[claiming].dryRun || HasHigherOwnershipPriority(cs[current].tier, cs[claiming].tier))
  }

  /** A takeover goes to a strictly lower tier, or to the declared successor of the manager's profile. */
  lemma TakeoverIsWon(cs: Claimants, st: State, step: Step)
    requires Listed(cs, st) && Enabled(cs, st, step) && Takeover(cs, st, step)
    ensures Wins(cs, Next(cs, st, step).registrants[0], st.registrants[0])
    ensures Requeueable(st, st.registrants[0])
  {
    if step.Yield? {
      YieldGoesToAChallenger(cs, st, step.manager, st.registrants, st.registrants);
    }
  }

  /** A group of claimants each of which loses to one of the group. */
  ghost predicate Endless(cs: Claimants, group: set<Name>) {
    && group != {} && group <= cs.Keys
    && (forall b {:trigger LosesToSome(cs, group, b)} :: b in group ==> LosesToSome(cs, group, b))
  }

  predicate LosesToSome(cs: Claimants, group: set<Name>, b: Name) {
    exists a :: a in group && Wins(cs, a, b)
  }

  ghost predicate IsRank(cs: Claimants, rank: map<Name, nat>, names: set<Name>) {
    && rank.Keys == names
    && (forall n :: n in names ==> rank[n] < |names|)
    && (forall a, b :: a in names && b in names && Wins(cs, a, b) ==> rank[a] < rank[b])
  }

  lemma {:induction false} RankWithoutEndlessGroup(cs: Claimants, names: set<Name>) returns (rank: map<Name, nat>)
    requires names <= cs.Keys && forall group :: group <= names ==> !Endless(cs, group)
    ensures IsRank(cs, rank, names)
    decreases |names|
  {
    if names == {} {
      return map[];
    }
    assert !Endless(cs, names);
    var top :| top in names && !LosesToSome(cs, names, top);
    var rest := RankWithoutEndlessGroup(cs, names - {top});
    rank := map n | n in names :: if n == top then 0 else rest[n] + 1;
    assert |names| == |names - {top}| + 1;
  }

  lemma HeadStays(cs: Claimants, st: State, step: Step)
    requires Listed(cs, st) && Enabled(cs, st, step) && st.registrants != [] && !step.Leave? && !Takeover(cs, st, step)
    ensures Next(cs, st, step).registrants != [] && Next(cs, st, step).registrants[0] == st.registrants[0]
  {
    if step.Yield? {
      YieldGoesToAChallenger(cs, st, step.manager, st.registrants, st.registrants);
    }
  }

  lemma {:induction false} TakeoversWithinRank(cs: Claimants, rank: map<Name, nat>, st: State, steps: seq<Step>)
    requires Listed(cs, st) && IsRank(cs, rank, cs.Keys) && Run(cs, st, steps)
    ensures st.registrants != [] ==> st.registrants[0] in cs
    ensures Takeovers(cs, st, steps) <= (if st.registrants != [] then rank[st.registrants[0]] else |cs.Keys|)
                                        + |cs.Keys| * Departures(steps)
    decreases |steps|
  {
    if st.registrants != [] {
      assert st.registrants[0] in Members(st.registrants);
    }
    if steps != [] {
      var step, next := steps[0], Next(cs, st, steps[0]);
      StepKeepsListed(cs, st, step);
      TakeoversWithinRank(cs, rank, next, steps[1..]);
      assert |cs.Keys| * (1 + Departures(steps[1..])) == |cs.Keys| + |cs.Keys| * Departures(steps[1..]);
      if step.Leave? {
        assert next.registrants != [] ==> rank[next.registrants[0]] < |cs.Keys|;
      } else if Takeover(cs, st, step) {
        TakeoverIsWon(cs, st, step);
      } else if st.registrants != [] {
        HeadStays(cs, st, step);
      }
    }
  }

  /** A round of an endless group: one that the manager loses to registers, deploys and claims the release. */
  function Round(a: Name, rest: seq<Step>): seq<Step> {
    [Register(a)] + ([StartJob(a, Deploying)] + ([Claim(a)] + ([EndJob(a)] + rest)))
  }

  function AfterRound(st: State, a: Name): State {
    State(WithManager(Enrolled(st.registrants, a), a), map[], {}, {})
  }

  ghost predicate Idle(cs: Claimants, st: State) {
    Listed(cs, st) && st.registrants != [] && st.jobs == map[] && st.acting == {} && st.left == {}
  }

  function Registered(st: State, a: Name): State {
    st.(registrants := Enrolled(st.registrants, a))
  }

  function DeployingAlone(st: State, a: Name): State {
    Registered(st, a).(jobs := map[a := Deploying])
  }

  lemma RoundStarts(cs: Claimants, st: State, a: Name)
    requires Idle(cs, st) && Wins(cs, a, st.registrants[0]) && !cs[a].dryRun
    ensures var s1, s2 := Registered(st, a), DeployingAlone(st, a);
            && Enabled(cs, st, Register(a)) && Next(cs, st, Register(a)) == s1 && !Takeover(cs, st, Register(a))
            && Enabled(cs, s1, StartJob(a, Deploying)) && Next(cs, s1, StartJob(a, Deploying)) == s2
            && !Takeover(cs, s1, StartJob(a, Deploying))
            && Listed(cs, s2) && s2.registrants[0] == st.registrants[0]
  {
    StepKeepsListed(cs, st, Register(a));
    assert Registered(st, a).registrants[0] == st.registrants[0];
    assert st.jobs[a := Deploying] == map[a := Deploying];
  }

  /** A claim that beats a manager without a job of its own wins. */
  lemma ClaimWins(cs: Claimants, st: State, a: Name)
    requires st.registrants != [] && a in st.jobs && a !in st.left && st.registrants[0] !in st.jobs
    requires Wins(cs, a, st.registrants[0]) && !cs[a].dryRun
    ensures Enabled(cs, st, Claim(a)) && Next(cs, st, Claim(a)) == st.(registrants := WithManager(st.registrants, a))
    ensures Takeover(cs, st, Claim(a))
  {
  }

  lemma RoundEnds(cs: Claimants, st: State, a: Name)
    requires Idle(cs, st) && Wins(cs, a, st.registrants[0]) && !cs[a].dryRun
    ensures var s2 := DeployingAlone(st, a);
            var s3 := s2.(registrants := WithManager(s2.registrants, a));
            && Enabled(cs, s2, Claim(a)) && Next(cs, s2, Claim(a)) == s3 && Takeover(cs, s2, Claim(a))
            && Enabled(cs, s3, EndJob(a)) && Next(cs, s3, EndJob(a)) == AfterRound(st, a)
            && !Takeover(cs, s3, EndJob(a))
  {
    RoundStarts(cs, st, a);
    ClaimWins(cs, DeployingAlone(st, a), a);
    assert map[a := Deploying] - {a} == map[];
  }

  lemma RoundLeavesIdle(cs: Claimants, st: State, a: Name)
    requires Idle(cs, st) && Wins(cs, a, st.registrants[0]) && !cs[a].dryRun
    ensures Idle(cs, AfterRound(st, a)) && AfterRound(st, a).registrants[0] == a
  {
    RoundStarts(cs, st, a);
    WithManagerMembers(DeployingAlone(st, a).registrants, a);
  }

  /** A run with its number of takeovers, in which nobody leaves. */
  ghost predicate Counted(cs: Claimants, st: State, steps: seq<Step>, count: nat) {
    Run(cs, st, steps) && NobodyLeaves(steps) && Takeovers(cs, st, steps) == count
  }

  lemma ExtendCounted(cs: Claimants, st: State, step: Step, next: State, rest: seq<Step>, count: nat)
    requires Enabled(cs, st, step) && Next(cs, st, step) == next && !step.Leave? && Counted(cs, next, rest, count)
    ensures Counted(cs, st, [step] + rest, if Takeover(cs, st, step) then count + 1 else count)
  {
    var steps := [step] + rest;
    assert steps[1..] == rest && steps[0] == step;
    assert forall i :: 0 < i < |steps| ==> steps[i] == rest[i - 1];
  }

  lemma RoundTakesOver(cs: Claimants, st: State, a: Name, rest: seq<Step>, count: nat)
    requires Idle(cs, st) && Wins(cs, a, st.registrants[0]) && !cs[a].dryRun
    requires Counted(cs, AfterRound(st, a), rest, count)
    ensures Counted(cs, st, Round(a, rest), count + 1)
  {
    var s1, s2 := Registered(st, a), DeployingAlone(st, a);
    var s3 := s2.(registrants := WithManager(s2.registrants, a));
    RoundStarts(cs, st, a);
    RoundEnds(cs, st, a);
    ExtendCounted(cs, s3, EndJob(a), AfterRound(st, a), rest, count);
    ExtendCounted(cs, s2, Claim(a), s3, [EndJob(a)] + rest, count);
    ExtendCounted(cs, s1, StartJob(a, Deploying), s2, [Claim(a)] + ([EndJob(a)] + rest), count + 1);
    ExtendCounted(cs, st, Register(a), s1, [StartJob(a, Deploying)] + ([Claim(a)] + ([EndJob(a)] + rest)), count + 1);
  }

  /** A round without a job: the one of a lower tier registers, and the manager yields. */
  lemma YieldRound(cs: Claimants, st: State, a: Name) returns (next: State)
    requires Idle(cs, st) && a in cs && HasHigherOwnershipPriority(cs[st.registrants[0]].tier, cs[a].tier)
    requires st.registrants[0] in cs
    ensures var h := st.registrants[0];
            && Enabled(cs, st, Register(a)) && !Takeover(cs, st, Register(a))
            && Enabled(cs, Registered(st, a), Yield(h)) && next == Next(cs, Registered(st, a), Yield(h))
            && Takeover(cs, Registered(st, a), Yield(h))
    ensures Idle(cs, next) && Members(next.registrants) <= Members(st.registrants) + {a}
  {
    var h, s1 := st.registrants[0], Registered(st, a);
    StepKeepsListed(cs, st, Register(a));
    assert s1.registrants[0] == h;
    next := Next(cs, s1, Yield(h));
    YieldGoesToAChallenger(cs, s1, h, s1.registrants, s1.registrants);
    StepKeepsListed(cs, s1, Yield(h));
    assert a in s1.registrants && Challenges(cs, s1, a, h);
    var k := LastChallenger(cs, s1, h, s1.registrants);
    assert next.registrants[0] == s1.registrants[k];
  }

  lemma {:induction false} LastChallenger(cs: Claimants, st: State, manager: Name, listed: seq<Name>) returns (k: nat)
    requires manager in cs && exists n :: n in listed && Challenges(cs, st, n, manager)
    ensures k < |listed| && Challenges(cs, st, listed[k], manager)
    ensures forall l :: k < l < |listed| ==> !Challenges(cs, st, listed[l], manager)
  {
    k := |listed| - 1;
    if !Challenges(cs, st, listed[k], manager) {
      var n :| n in listed && Challenges(cs, st, n, manager);
      assert n in listed[..k];
      k := LastChallenger(cs, st, manager, listed[..k]);
    }
  }

  lemma YieldTakesOver(cs: Claimants, st: State, a: Name, rest: seq<Step>, next: State, count: nat)
    requires Idle(cs, st) && Enabled(cs, st, Register(a)) && !Takeover(cs, st, Register(a))
    requires var s1 := Registered(st, a);
             && Enabled(cs, s1, Yield(st.registrants[0])) && Next(cs, s1, Yield(st.registrants[0])) == next
             && Takeover(cs, s1, Yield(st.registrants[0]))
    requires Counted(cs, next, rest, count)
    ensures Counted(cs, st, [Register(a)] + ([Yield(st.registrants[0])] + rest), count + 1)
  {
    ExtendCounted(cs, Registered(st, a), Yield(st.registrants[0]), next, rest, count);
    ExtendCounted(cs, st, Register(a), Registered(st, a), [Yield(st.registrants[0])] + rest, count + 1);
  }

  /** Takeovers in a run, for every time that somebody leaves and once more. */
  ghost predicate TakeoversBoundedBy(cs: Claimants, bound: nat) {
    forall st, steps :: Listed(cs, st) && Run(cs, st, steps) ==>
      Takeovers(cs, st, steps) <= bound * (1 + Departures(steps))
  }

  /** Each takeover within an endless group can be followed by another one. */
  lemma {:induction false} EndlessGroupKeepsTakingOver(cs: Claimants, group: set<Name>, st: State, count: nat)
    returns (steps: seq<Step>)
    requires Endless(cs, group) && Idle(cs, st) && Members(st.registrants) <= group
    ensures Counted(cs, st, steps, count)
    decreases count
  {
    if count == 0 {
      steps := [];
      assert Run(cs, st, []) && Takeovers(cs, st, []) == 0;
    } else {
      var h := st.registrants[0];
      assert h in Members(st.registrants);
      assert LosesToSome(cs, group, h);
      var a :| a in group && Wins(cs, a, h);
      if cs[a].dryRun {
        var next := YieldRound(cs, st, a);
        var rest := EndlessGroupKeepsTakingOver(cs, group, next, count - 1);
        YieldTakesOver(cs, st, a, rest, next, count - 1);
        steps := [Register(a)] + ([Yield(h)] + rest);
      } else {
        RoundLeavesIdle(cs, st, a);
        var rest := EndlessGroupKeepsTakingOver(cs, group, AfterRound(st, a), count - 1);
        RoundTakesOver(cs, st, a, rest, count - 1);
        steps := Round(a, rest);
      }
    }
  }

  lemma {:induction false} NoDepartures(steps: seq<Step>)
    requires NobodyLeaves(steps)
    ensures Departures(steps) == 0
  {
    if steps != [] {
      assert !steps[0].Leave?;
      NoDepartures(steps[1..]);
    }
  }

  lemma EndlessGroupIsUnbounded(cs: Claimants, group: set<Name>, bound: nat)
    requires Endless(cs, group)
    ensures !TakeoversBoundedBy(cs, bound)
  {
    var h :| h in group;
    var st := State([h], map[], {}, {});
    assert Idle(cs, st);
    var steps := EndlessGroupKeepsTakingOver(cs, group, st, bound + 1);
    NoDepartures(steps);
    assert Listed(cs, st) && Run(cs, st, steps);
  }

  lemma RankBounds(cs: Claimants, rank: map<Name, nat>)
    requires IsRank(cs, rank, cs.Keys)
    ensures TakeoversBoundedBy(cs, |cs.Keys|)
  {
    forall st, steps | Listed(cs, st) && Run(cs, st, steps)
      ensures Takeovers(cs, st, steps) <= |cs.Keys| * (1 + Departures(steps))
    {
      TakeoversWithinRank(cs, rank, st, steps);
      assert |cs.Keys| * (1 + Departures(steps)) == |cs.Keys| + |cs.Keys| * Departures(steps);
    }
  }

  /**
   Ownership settles exactly when no group of claimants keeps losing to itself: then, however claims are interleaved,
   the release changes hands at most once per claimant for every time that somebody leaves, and once more.
   */
  lemma TakeoversAreBoundedIff(cs: Claimants)
    ensures (exists bound: nat :: TakeoversBoundedBy(cs, bound)) <==> (forall group :: !Endless(cs, group))
    ensures (forall group :: !Endless(cs, group)) ==> TakeoversBoundedBy(cs, |cs.Keys|)
  {
    if forall group :: !Endless(cs, group) {
      var rank := RankWithoutEndlessGroup(cs, cs.Keys);
      RankBounds(cs, rank);
    } else {
      var group :| Endless(cs, group);
      forall bound: nat
        ensures !TakeoversBoundedBy(cs, bound)
      {
        EndlessGroupIsUnbounded(cs, group, bound);
      }
    }
  }

  /** Tiers alone never give an endless group, so the bound holds whatever the tiers are. */
  lemma TiersAloneSettle(cs: Claimants)
    requires forall n :: n in cs ==> cs[n].transitionFrom == {}
    ensures TakeoversBoundedBy(cs, |cs.Keys|)
  {
    forall group
      ensures !Endless(cs, group)
    {
      if group != {} && group <= cs.Keys {
        var n := LowestTier(cs, group);
        assert !LosesToSome(cs, group, n);
      }
    }
    TakeoversAreBoundedIff(cs);
  }

  lemma {:induction false} LowestTier(cs: Claimants, group: set<Name>) returns (lowest: Name)
    requires group != {} && group <= cs.Keys
    ensures lowest in group && forall n :: n in group ==> cs[lowest].tier <= cs[n].tier
    decreases |group|
  {
    lowest :| lowest in group;
    if group - {lowest} != {} {
      var other := LowestTier(cs, group - {lowest});
      if cs[other].tier < cs[lowest].tier {
        lowest := other;
      }
    }
  }

  /** Two profiles of one kind that name each other in TransitionFrom are an endless group, whatever their tiers. */
  lemma MutualTransitionNeverSettles(cs: Claimants, a: Name, b: Name)
    requires a != b && a in cs && b in cs && cs[a].kind == cs[b].kind && !cs[a].dryRun && !cs[b].dryRun
    requires cs[a].profile in cs[b].transitionFrom && cs[b].profile in cs[a].transitionFrom
    ensures Endless(cs, {a, b})
    ensures forall bound: nat :: !TakeoversBoundedBy(cs, bound)
  {
    assert Wins(cs, a, b) && Wins(cs, b, a);
    assert LosesToSome(cs, {a, b}, a) && LosesToSome(cs, {a, b}, b);
    forall bound: nat
      ensures !TakeoversBoundedBy(cs, bound)
    {
      EndlessGroupIsUnbounded(cs, {a, b}, bound);
    }
  }

  /** Somewhere in the run the claimant asked for the release while the manager could be requeued. */
  predicate Asked(cs: Claimants, st: State, steps: seq<Step>, name: Name)
    requires Run(cs, st, steps)
    decreases |steps|
  {
    steps != [] && (|| (steps[0] == Claim(name) && st.registrants != [] && Requeueable(st, st.registrants[0]))
                    || Asked(cs, Next(cs, st, steps[0]), steps[1..], name))
  }

  /**
   The manager that no one takes over from is of minimal tier among those that asked, and replaced by none of them.
   */
  lemma {:induction false} SettledManagerIsMinimal(cs: Claimants, st: State, steps: seq<Step>, name: Name)
    requires Listed(cs, st) && Run(cs, st, steps) && NobodyLeaves(steps)
    requires st.registrants != [] && Takeovers(cs, st, steps) == 0
    requires name in cs && !cs[name].dryRun && Asked(cs, st, steps, name)
    ensures Final(cs, st, steps).registrants != []
    ensures Final(cs, st, steps).registrants[0] == st.registrants[0] && st.registrants[0] in cs
    ensures cs[st.registrants[0]].tier <= cs[name].tier
    ensures name != st.registrants[0] ==> !IsChartTransitioningFrom(cs[st.registrants[0]], cs[name])
    decreases |steps|
  {
    assert st.registrants[0] in Members(st.registrants);
    var next := Next(cs, st, steps[0]);
    assert !steps[0].Leave?;
    assert forall i :: 0 <= i < |steps[1..]| ==> steps[1..][i] == steps[i + 1];
    StepKeepsListed(cs, st, steps[0]);
    HeadStays(cs, st, steps[0]);
    if Asked(cs, next, steps[1..], name) {
      SettledManagerIsMinimal(cs, next, steps[1..], name);
    } else {
      assert steps[0] == Claim(name);
      ManagerStays(cs, next, steps[1..]);
    }
  }

  lemma {:induction false} ManagerStays(cs: Claimants, st: State, steps: seq<Step>)
    requires Listed(cs, st) && Run(cs, st, steps) && NobodyLeaves(steps)
    requires st.registrants != [] && Takeovers(cs, st, steps) == 0
    ensures Final(cs, st, steps).registrants != []
    ensures Final(cs, st, steps).registrants[0] == st.registrants[0]
    decreases |steps|
  {
    if steps != [] {
      assert !steps[0].Leave?;
      assert forall i :: 0 <= i < |steps[1..]| ==> steps[1..][i] == steps[i + 1];
      StepKeepsListed(cs, st, steps[0]);
      HeadStays(cs, st, steps[0]);
      ManagerStays(cs, Next(cs, st, steps[0]), steps[1..]);
    }
  }
}
