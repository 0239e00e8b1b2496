/**
 DependsOn, in both directions (controllers/clustersummary_controller.go, controllers/utils.go).

 A ClusterSummary is deployed only when the ones it depends on are provisioned, and one that others depend on is
 not undeployed before they are gone. All ClusterSummaries here are of one managed cluster.
 */
module Dependencies {
  import opened Common
  import opened FeatureDeployment

  /** There is one ClusterSummary per profile and cluster. */
  datatype Key = Key(kind: ProfileKind, profile: string)

  datatype Summary = Summary(dependsOn: seq<string>, wanted: set<FeatureID>, features: seq<FeatureSummary>,
                             started: bool, deleting: bool, undeployed: bool)

  type Summaries = map<Key, Summary>

  // ----- The gates -----

  predicate IsProvisioned(wanted: set<FeatureID>, features: seq<FeatureSummary>) {
    && (forall f :: f in features ==> f.feature.status == Provisioned)
    && (forall id :: id in wanted ==> exists i :: 0 <= i < |features| && features[i].id == id)
  }

  method IsClusterSummaryProvisioned(s: Summary) returns (provisioned: bool)
    ensures provisioned <==> IsProvisioned(s.wanted, s.features)
  {
    var deployed: set<FeatureID> := {};
    for i := 0 to |s.features|
      invariant forall k :: 0 <= k < i ==> s.features[k].feature.status == Provisioned
      invariant forall id :: id in deployed <==> exists k :: 0 <= k < i && s.features[k].id == id
    {
      if s.features[i].feature.status != Provisioned {
        assert s.features[i] in s.features;
        return false;
      }
      deployed := deployed + {s.features[i].id};
    }
    provisioned :=
      && (Helm in s.wanted ==> Helm in deployed)
      && (Resources in s.wanted ==> Resources in deployed)
      && (Kustomize in s.wanted ==> Kustomize in deployed);
    forall id | id in s.wanted && provisioned
      ensures id in deployed
    {
      match id
      case Helm | Resources | Kustomize =>
    }
  }

  /** Prerequisites are looked up among the profiles of the same kind. */
  predicate DependenciesDeployed(cs: Summaries, k: Key)
    requires k in cs
  {
    forall d :: d in cs[k].dependsOn ==>
      Key(k.kind, d) in cs && IsProvisioned(cs[Key(k.kind, d)].wanted, cs[Key(k.kind, d)].features)
  }

  /** Dependents are compared by the name they list, whatever the kinds. */
  predicate DependentsRemoved(cs: Summaries, k: Key) {
    forall other :: other in cs && other != k ==> k.profile !in cs[other].dependsOn
  }

  method AreDependenciesDeployed(cs: Summaries, k: Key) returns (all: bool)
    requires k in cs
    ensures all <==> DependenciesDeployed(cs, k)
  {
    for i := 0 to |cs[k].dependsOn|
      invariant forall d :: d in cs[k].dependsOn[..i] ==>
                  Key(k.kind, d) in cs && IsProvisioned(cs[Key(k.kind, d)].wanted, cs[Key(k.kind, d)].features)
    {
      var dependency := Key(k.kind, cs[k].dependsOn[i]);
      if dependency !in cs {
        return false;
      }
      var provisioned := IsClusterSummaryProvisioned(cs[dependency]);
      if !provisioned {
        return false;
      }
      assert cs[k].dependsOn[..i + 1] == cs[k].dependsOn[..i] + [cs[k].dependsOn[i]];
    }
    assert cs[k].dependsOn[..|cs[k].dependsOn|] == cs[k].dependsOn;
    all := true;
  }

  /** The list of the ClusterSummaries of the cluster comes in any order. */
  method AreDependentsRemoved(cs: Summaries, listed: seq<Key>, k: Key) returns (all: bool)
    requires forall o :: o in listed <==> o in cs
    ensures all <==> DependentsRemoved(cs, k)
  {
    for i := 0 to |listed|
      invariant forall l :: 0 <= l < i && listed[l] != k ==> k.profile !in cs[listed[l]].dependsOn
    {
      var other := listed[i];
      assert other in listed;
      if other == k {
        continue;
      }
      for j := 0 to |cs[other].dependsOn|
        invariant k.profile !in cs[other].dependsOn[..j]
      {
        if cs[other].dependsOn[j] == k.profile {
          return false;
        }
        assert cs[other].dependsOn[..j + 1] == cs[other].dependsOn[..j] + [cs[other].dependsOn[j]];
      }
      assert cs[other].dependsOn[..|cs[other].dependsOn|] == cs[other].dependsOn;
    }
    all := true;
  }

  // ----- Runs -----

  datatype State = State(summaries: Summaries, cleared: set<Key>)

  /** Clear is the check that dependents are gone; Undeploy is what the same reconciliation does next. */
  datatype Step =
    | Create(key: Key, dependsOn: seq<string>, wanted: set<FeatureID>)
    | Edit(key: Key, dependsOn: seq<string>)
    | Report(key: Key, features: seq<FeatureSummary>)
    | Delete(key: Key)
    | Start(key: Key)
    | Clear(key: Key)
    | Undeploy(key: Key, features: seq<FeatureSummary>)
    | Remove(key: Key)

  predicate AllRemoved(features: seq<FeatureSummary>) {
    features != [] && forall f :: f in features ==> f.feature.status == Removed
  }

  predicate Enabled(st: State, step: Step) {
    match step
    case Create(k, _, _) => k !in st.summaries
    case Edit(k, _) => k in st.summaries
    case Report(k, _) => k in st.summaries && !st.summaries[k].undeployed
    case Delete(k) => k in st.summaries
    case Start(k) => k in st.summaries && !st.summaries[k].deleting && DependenciesDeployed(st.summaries, k)
    case Clear(k) => k in st.summaries && st.summaries[k].deleting && DependentsRemoved(st.summaries, k)
    case Undeploy(k, features) =>
      k in st.summaries && k in st.cleared && st.summaries[k].deleting && AllRemoved(features)
    case Remove(k) => k in st.summaries && st.summaries[k].deleting && st.summaries[k].undeployed
  }

  function Next(st: State, step: Step): State
    requires Enabled(st, step)
  {
    var cs := st.summaries;
    match step
    case Create(k, ds, wanted) => st.(summaries := cs[k := Summary(ds, wanted, [], false, false, false)])
    case Edit(k, ds) => st.(summaries := cs[k := cs[k].(dependsOn := ds)])
    case Report(k, features) => st.(summaries := cs[k := cs[k].(features := features)])
    case Delete(k) => st.(summaries := cs[k := cs[k].(deleting := true)])
    case Start(k) => st.(summaries := cs[k := cs[k].(started := true)])
    case Clear(k) => st.(cleared := st.cleared + {k})
    case Undeploy(k, features) =>
      State(cs[k := cs[k].(undeployed := true, features := features)], st.cleared - {k})
    case Remove(k) => State(cs - {k}, st.cleared - {k})
  }

  /** Started, and not undeployed. */
  predicate Live(cs: Summaries, k: Key) {
    k in cs && cs[k].started && !cs[k].undeployed
  }

  ghost predicate HasPrerequisite(cs: Summaries, kind: ProfileKind, d: string) {
    Key(kind, d) in cs && !cs[Key(kind, d)].undeployed
  }

  /** Whatever runs has its prerequisites, and they have not been undeployed. */
  ghost predicate Supported(cs: Summaries) {
    forall k, d :: Live(cs, k) && d in cs[k].dependsOn ==> HasPrerequisite(cs, k.kind, d)
  }

  ghost predicate Inv(st: State) {
    && Supported(st.summaries)
    && (forall k :: k in st.summaries && st.summaries[k].undeployed ==>
                      st.summaries[k].deleting && AllRemoved(st.summaries[k].features))
  }

  /** Nothing live of the same kind depends on the ClusterSummary. */
  ghost predicate Unneeded(cs: Summaries, k: Key) {
    forall other :: Live(cs, other) && other != k && other.kind == k.kind ==> k.profile !in cs[other].dependsOn
  }

  /** What is undeployed is not needed by then, and what is live gets no new prerequisite that is not there. */
  ghost predicate Harmless(st: State, step: Step) {
    match step
    case Undeploy(k, _) => Unneeded(st.summaries, k)
    case Edit(k, ds) => Live(st.summaries, k) ==> forall d :: d in ds ==> HasPrerequisite(st.summaries, k.kind, d)
    case _ => true
  }

  /** A step leaves something live without its prerequisite exactly when it is not harmless. */
  lemma StepKeepsSupportIff(st: State, step: Step)
    requires Inv(st) && Enabled(st, step)
    ensures Supported(Next(st, step).summaries) <==> Harmless(st, step)
    ensures Harmless(st, step) ==> Inv(Next(st, step))
  {
    var cs, cs' := st.summaries, Next(st, step).summaries;
    match step
    case Start(k) =>
      forall d | d in cs[k].dependsOn
        ensures HasPrerequisite(cs', k.kind, d)
      {
        var p := cs[Key(k.kind, d)];
        assert p.features != [] ==> p.features[0] in p.features;
      }
    case Undeploy(k, _) =>
      if other :| Live(cs, other) && other != k && other.kind == k.kind && k.profile in cs[other].dependsOn {
        assert Live(cs', other) && k.profile in cs'[other].dependsOn && !HasPrerequisite(cs', other.kind, k.profile);
      }
      forall other, d | Live(cs', other) && d in cs'[other].dependsOn && Unneeded(cs, k)
        ensures HasPrerequisite(cs', other.kind, d)
      {
        assert Live(cs, other) && other != k && HasPrerequisite(cs, other.kind, d);
      }
    case Remove(k) =>
      forall other, d | Live(cs', other) && d in cs'[other].dependsOn
        ensures HasPrerequisite(cs', other.kind, d)
      {
        assert Live(cs, other) && HasPrerequisite(cs, other.kind, d);
      }
    case Create(k, _, _) =>
      forall other, d | Live(cs', other) && d in cs'[other].dependsOn
        ensures HasPrerequisite(cs', other.kind, d)
      {
        assert Live(cs, other) && HasPrerequisite(cs, other.kind, d);
      }
    case Edit(k, ds) =>
      forall other, d | Live(cs', other) && d in cs'[other].dependsOn && Harmless(st, step)
        ensures HasPrerequisite(cs', other.kind, d)
      {
        assert Live(cs, other) && HasPrerequisite(cs, other.kind, d);
      }
      if !Harmless(st, step) {
        var d :| d in ds && !HasPrerequisite(cs, k.kind, d);
        assert Live(cs', k) && d in cs'[k].dependsOn;
      }
    case Report(k, _) =>
      forall other, d | Live(cs', other) && d in cs'[other].dependsOn
        ensures HasPrerequisite(cs', other.kind, d)
      {
        assert Live(cs, other) && HasPrerequisite(cs, other.kind, d);
      }
    case Delete(k) =>
      forall other, d | Live(cs', other) && d in cs'[other].dependsOn
        ensures HasPrerequisite(cs', other.kind, d)
      {
        assert Live(cs, other) && HasPrerequisite(cs, other.kind, d);
      }
    case Clear(_) =>
  }

  /** It may start exactly if each prerequisite exists, with all that it wants there and nothing in another state. */
  lemma MayStartIff(st: State, k: Key)
    ensures Enabled(st, Start(k)) <==>
              && k in st.summaries && !st.summaries[k].deleting
              && forall d :: d in st.summaries[k].dependsOn ==>
                   && Key(k.kind, d) in st.summaries
                   && var p := st.summaries[Key(k.kind, d)];
                      && (forall i :: 0 <= i < |p.features| ==> p.features[i].feature.status == Provisioned)
                      && (forall id :: id in p.wanted ==> exists i :: 0 <= i < |p.features| && p.features[i].id == id)
  {
    if k in st.summaries {
      forall d | d in st.summaries[k].dependsOn && Key(k.kind, d) in st.summaries
        ensures var p := st.summaries[Key(k.kind, d)];
                (forall f :: f in p.features ==> f.feature.status == Provisioned)
                <==> forall i :: 0 <= i < |p.features| ==> p.features[i].feature.status == Provisioned
      {
        var p := st.summaries[Key(k.kind, d)];
        assert forall i :: 0 <= i < |p.features| ==> p.features[i] in p.features;
      }
    }
  }

  /** The teardown of one: it is cleared when nobody lists it, undeployed once for that, and removed after that. */
  lemma TeardownGoesBySteps(st: State, k: Key, features: seq<FeatureSummary>)
    ensures Enabled(st, Clear(k)) <==>
              && k in st.summaries && st.summaries[k].deleting
              && forall other :: other in st.summaries && other != k ==> k.profile !in st.summaries[other].dependsOn
    ensures Enabled(st, Clear(k)) ==> k in Next(st, Clear(k)).cleared
    ensures Enabled(st, Undeploy(k, features)) <==>
              && k in st.summaries && st.summaries[k].deleting && k in st.cleared && features != []
              && forall f :: f in features ==> f.feature.status == Removed
    ensures Enabled(st, Undeploy(k, features)) ==>
              var next := Next(st, Undeploy(k, features));
              next.summaries[k].undeployed && !Enabled(next, Undeploy(k, features)) && Enabled(next, Remove(k))
    ensures Enabled(st, Remove(k)) <==> k in st.summaries && st.summaries[k].deleting && st.summaries[k].undeployed
    ensures Enabled(st, Remove(k)) ==> k !in Next(st, Remove(k)).summaries && k !in Next(st, Remove(k)).cleared
  {
  }

  /** What is created is neither live nor being deleted, and becomes live when it starts. */
  lemma StartMakesLive(st: State, k: Key, dependsOn: seq<string>, wanted: set<FeatureID>)
    ensures Enabled(st, Create(k, dependsOn, wanted)) <==> k !in st.summaries
    ensures Enabled(st, Create(k, dependsOn, wanted)) ==>
              Next(st, Create(k, dependsOn, wanted)).summaries[k] == Summary(dependsOn, wanted, [], false, false, false)
    ensures Enabled(st, Start(k)) && !st.summaries[k].undeployed ==> Live(Next(st, Start(k)).summaries, k)
    ensures Enabled(st, Delete(k)) ==>
              Next(st, Delete(k)).summaries[k].deleting && !Enabled(Next(st, Delete(k)), Start(k))
  {
  }

  ghost predicate Run(st: State, steps: seq<Step>)
    decreases |steps|
  {
    steps != [] ==> Enabled(st, steps[0]) && Run(Next(st, steps[0]), steps[1..])
  }

  function Final(st: State, steps: seq<Step>): State
    requires Run(st, steps)
    decreases |steps|
  {
    if steps == [] then st else Final(Next(st, steps[0]), steps[1..])
  }

  ghost predicate AlwaysSupported(st: State, steps: seq<Step>)
    requires Run(st, steps)
    decreases |steps|
  {
    Supported(st.summaries) && (steps != [] ==> AlwaysSupported(Next(st, steps[0]), steps[1..]))
  }

  ghost predicate AlwaysHarmless(st: State, steps: seq<Step>)
    requires Run(st, steps)
    decreases |steps|
  {
    steps != [] ==> Harmless(st, steps[0]) && AlwaysHarmless(Next(st, steps[0]), steps[1..])
  }

  /**
   Over all runs: what is live has all its prerequisites, none of them undeployed, exactly if every step is harmless.
   */
  lemma {:induction false} PrerequisitesOutliveDependentsIff(st: State, steps: seq<Step>)
    requires Inv(st) && Run(st, steps)
    ensures AlwaysSupported(st, steps) <==> AlwaysHarmless(st, steps)
    decreases |steps|
  {
    if steps != [] {
      StepKeepsSupportIff(st, steps[0]);
      if Harmless(st, steps[0]) {
        PrerequisitesOutliveDependentsIff(Next(st, steps[0]), steps[1..]);
      }
    }
  }

  /** Every undeploy follows its check with nothing in between, and nothing that is live gets a further prerequisite. */
  ghost predicate Prompt(st: State, steps: seq<Step>)
    requires Run(st, steps)
    decreases |steps|
  {
    steps != [] ==>
      && (steps[0].Undeploy? ==> DependentsRemoved(st.summaries, steps[0].key))
      && (steps[0].Edit? && Live(st.summaries, steps[0].key) ==>
            forall d :: d in steps[0].dependsOn ==> d in st.summaries[steps[0].key].dependsOn)
      && Prompt(Next(st, steps[0]), steps[1..])
  }

  /** The check is enough for such runs. */
  lemma {:induction false} PrerequisitesOutliveDependents(st: State, steps: seq<Step>)
    requires Inv(st) && Run(st, steps) && Prompt(st, steps)
    ensures AlwaysSupported(st, steps) && Inv(Final(st, steps))
    decreases |steps|
  {
    if steps != [] {
      if steps[0].Edit? {
        assert Harmless(st, steps[0]);
      }
      StepKeepsSupportIff(st, steps[0]);
      PrerequisitesOutliveDependents(Next(st, steps[0]), steps[1..]);
    }
  }

  // ----- Teardown makes progress -----

  /** The listed names, for a fixed set of ClusterSummaries that are all being deleted. */
  type Lists = map<Key, seq<string>>

  /** What the gate says while `left` are still there. */
  predicate Blocked(lists: Lists, left: set<Key>, k: Key)
    requires left <= lists.Keys
  {
    exists other :: other in left && other != k && k.profile in lists[other]
  }

  /** The gate of the code, on ClusterSummaries with these lists. */
  lemma BlockedIsTheGate(cs: Summaries, k: Key)
    requires k in cs
    ensures Blocked(map o | o in cs :: cs[o].dependsOn, cs.Keys, k) <==> !DependentsRemoved(cs, k)
  {
  }

  /** A round tears down everything that is not blocked at its start. */
  function Round(lists: Lists, left: set<Key>): set<Key>
    requires left <= lists.Keys
  {
    set k | k in left && Blocked(lists, left, k)
  }

  function Rounds(lists: Lists, left: set<Key>, n: nat): (rest: set<Key>)
    requires left <= lists.Keys
    ensures rest <= left
  {
    if n == 0 then left else Rounds(lists, Round(lists, left), n - 1)
  }

  /** A group each of which is listed by another one of the group. */
  ghost predicate Stuck(lists: Lists, group: set<Key>) {
    && group != {} && group <= lists.Keys
    && (forall k {:trigger Blocked(lists, group, k)} :: k in group ==> Blocked(lists, group, k))
  }

  lemma {:induction false} StuckGroupStays(lists: Lists, left: set<Key>, group: set<Key>, n: nat)
    requires Stuck(lists, group) && group <= left <= lists.Keys
    ensures group <= Rounds(lists, left, n)
    decreases n
  {
    if n > 0 {
      forall k | k in group
        ensures k in Round(lists, left)
      {
        assert Blocked(lists, group, k);
      }
      StuckGroupStays(lists, Round(lists, left), group, n - 1);
    }
  }

  lemma {:induction false} TeardownWithoutStuckGroup(lists: Lists, left: set<Key>, n: nat)
    requires left <= lists.Keys && |left| <= n && forall group :: group <= left ==> !Stuck(lists, group)
    ensures Rounds(lists, left, n) == {}
    decreases n
  {
    if left == {} {
      if n > 0 {
        assert Round(lists, left) == {};
        TeardownWithoutStuckGroup(lists, {}, n - 1);
      }
    } else {
      assert !Stuck(lists, left);
      var k :| k in left && !Blocked(lists, left, k);
      var next := Round(lists, left);
      assert next <= left - {k} && |left - {k}| == |left| - 1;
      Smaller(next, left - {k});
      TeardownWithoutStuckGroup(lists, next, n - 1);
    }
  }

  lemma Smaller(a: set<Key>, b: set<Key>)
    requires a <= b
    ensures |a| <= |b|
  {
    assert b == a + (b - a);
  }

  /** n ClusterSummaries are torn down within n rounds exactly when no group of them lists itself. */
  lemma TeardownEndsIff(lists: Lists)
    ensures Rounds(lists, lists.Keys, |lists.Keys|) == {} <==> forall group :: !Stuck(lists, group)
    ensures (exists n: nat :: Rounds(lists, lists.Keys, n) == {}) <==> forall group :: !Stuck(lists, group)
  {
    if forall group :: !Stuck(lists, group) {
      TeardownWithoutStuckGroup(lists, lists.Keys, |lists.Keys|);
    } else {
      var group :| Stuck(lists, group);
      forall n: nat
        ensures Rounds(lists, lists.Keys, n) != {}
      {
        StuckGroupStays(lists, lists.Keys, group, n);
      }
    }
  }

  /** DependsOn goes down, among the profiles of each kind. */
  ghost predicate Acyclic(lists: Lists, rank: map<Key, nat>) {
    && rank.Keys == lists.Keys
    && (forall k, d :: k in lists && d in lists[k] && Key(k.kind, d) in lists && d != k.profile ==>
                         rank[Key(k.kind, d)] < rank[k])
  }

  /** With profiles of one kind, acyclic DependsOn is enough. */
  lemma AcyclicTearsDown(lists: Lists, rank: map<Key, nat>)
    requires Acyclic(lists, rank) && forall a, b :: a in lists && b in lists ==> a.kind == b.kind
    ensures Rounds(lists, lists.Keys, |lists.Keys|) == {}
  {
    forall group
      ensures !Stuck(lists, group)
    {
      if group != {} && group <= lists.Keys {
        var top := Highest(rank, group);
        assert forall other :: other in group ==> Key(other.kind, top.profile) == top;
        assert !Blocked(lists, group, top);
      }
    }
    TeardownEndsIff(lists);
  }

  lemma {:induction false} Highest(rank: map<Key, nat>, group: set<Key>) returns (top: Key)
    requires group != {} && group <= rank.Keys
    ensures top in group && forall k :: k in group ==> rank[k] <= rank[top]
    decreases |group|
  {
    top :| top in group;
    if group - {top} != {} {
      var other := Highest(rank, group - {top});
      if rank[other] > rank[top] {
        top := other;
      }
    }
  }

  /**
   With both kinds on one cluster it is not: the gate goes by the name alone. A Profile a that depends on b and a
   ClusterProfile b that depends on a block each other for ever, though neither kind has a cycle.
   */
  lemma KindsDeadlock(a: string, b: string)
    requires a != b
    ensures var lists := map[Key(ProfileKind.Profile, a) := [b], Key(ClusterProfile, b) := [a]];
            && Acyclic(lists, map[Key(ProfileKind.Profile, a) := 0, Key(ClusterProfile, b) := 0])
            && forall n: nat :: Rounds(lists, lists.Keys, n) == lists.Keys
  {
    var p, c := Key(ProfileKind.Profile, a), Key(ClusterProfile, b);
    var lists := map[p := [b], c := [a]];
    assert Blocked(lists, {p, c}, p) && Blocked(lists, {p, c}, c);
    assert lists.Keys == {p, c};
    forall n: nat
      ensures Rounds(lists, lists.Keys, n) == lists.Keys
    {
      StuckGroupStays(lists, lists.Keys, {p, c}, n);
    }
  }

  // ----- Deployment makes progress -----

  /** As long as prerequisites exist and DependsOn is acyclic, some ClusterSummary that is not provisioned may start. */
  lemma SomebodyMayStart(cs: Summaries, rank: map<Key, nat>)
    requires Acyclic(map k | k in cs :: cs[k].dependsOn, rank)
    requires forall k, d :: k in cs && d in cs[k].dependsOn ==> Key(k.kind, d) in cs && d != k.profile
    requires exists k :: k in cs && !IsProvisioned(cs[k].wanted, cs[k].features)
    ensures exists k :: k in cs && !IsProvisioned(cs[k].wanted, cs[k].features) && DependenciesDeployed(cs, k)
  {
    var waiting := set k | k in cs && !IsProvisioned(cs[k].wanted, cs[k].features);
    var someone :| someone in cs && !IsProvisioned(cs[someone].wanted, cs[someone].features);
    assert someone in waiting;
    var k := Lowest(rank, waiting);
    assert forall d :: d in cs[k].dependsOn ==> Key(k.kind, d) !in waiting;
    assert DependenciesDeployed(cs, k);
  }

  lemma {:induction false} Lowest(rank: map<Key, nat>, group: set<Key>) returns (low: Key)
    requires group != {} && group <= rank.Keys
    ensures low in group && forall k :: k in group ==> rank[low] <= rank[k]
    decreases |group|
  {
    low :| low in group;
    if group - {low} != {} {
      var other := Lowest(rank, group - {low});
      if rank[other] < rank[low] {
        low := other;
      }
    }
  }
}
