/**
 How the resources of a Helm chart are staged for the agent of a pull-mode cluster (controllers/handlers_helm.go:
 appendResources, splitResources, stageHelmResourcesForDeployment).
 */
module HelmBundles {
  import opened Common
  import opened Sorting

  /**
   hooks are the entries of the helm.sh/hook annotation; weight is none if that annotation is missing or no number.
   */
  datatype Resource = Resource(apiVersion: string, kind: string, namespace: string, name: string, hooks: set<string>,
                               hasDeletePolicy: bool, weight: Option<int>)

  const LIMIT := 15

  /** The order in which the groups are staged. */
  datatype Group =
    | PreInstall
    | PreRollback
    | HookDelete
    | PreDelete
    | Crds
    | Others
    | PostInstall
    | PostRollback
    | PostDelete
    | Tests

  function Rank(g: Group): nat {
    match g
    case PreInstall => 0
    case PreRollback => 1
    case HookDelete => 2
    case PreDelete => 3
    case Crds => 4
    case Others => 5
    case PostInstall => 6
    case PostRollback => 7
    case PostDelete => 8
    case Tests => 9
  }

  predicate IsCrd(r: Resource) {
    r.apiVersion == "apiextensions.k8s.io/v1" && r.kind == "CustomResourceDefinition"
  }

  /** A resource with several hooks belongs to the first of these that applies. */
  function GroupOf(r: Resource): Group {
    if IsCrd(r) then Crds
    else if "pre-install" in r.hooks then PreInstall
    else if "pre-upgrade" in r.hooks then PreInstall
    else if "post-install" in r.hooks then PostInstall
    else if "post-upgrade" in r.hooks then PostInstall
    else if "pre-rollback" in r.hooks then PreRollback
    else if "post-rollback" in r.hooks then PostRollback
    else if "pre-delete" in r.hooks then PreDelete
    else if "post-delete" in r.hooks then PostDelete
    else if "test" in r.hooks then Tests
    else if r.hasDeletePolicy then HookDelete
    else Others
  }

  function HookWeight(r: Resource): int {
    if r.weight.Some? then r.weight.value else 0
  }

  /** Everything but a CRD gets the namespace of the release if it has none. */
  function Placed(r: Resource, releaseNamespace: string): Resource {
    if !IsCrd(r) && r.namespace == "" then r.(namespace := releaseNamespace) else r
  }

  function PlacedAll(s: seq<Resource>, releaseNamespace: string): seq<Resource> {
    if s == [] then [] else PlacedAll(s[..|s| - 1], releaseNamespace) + [Placed(s[|s| - 1], releaseNamespace)]
  }

  type Bundles = seq<seq<Resource>>

  function Flatten(bundles: Bundles): seq<Resource> {
    if bundles == [] then [] else bundles[0] + Flatten(bundles[1..])
  }

  // ----- What a good split is -----

  /** The comparison that resources are sorted by. */
  predicate WeightLeq(a: Resource, b: Resource) {
    HookWeight(a) <= HookWeight(b)
  }

  /** Groups follow each other in order, and hook weights do not go down within a group. CRDs have no weight. */
  predicate InOrder(s: seq<Resource>) {
    forall i, j :: 0 <= i < j < |s| ==>
      || Rank(GroupOf(s[i])) < Rank(GroupOf(s[j]))
      || (GroupOf(s[i]) == GroupOf(s[j]) && (IsCrd(s[i]) || HookWeight(s[i]) <= HookWeight(s[j])))
  }

  predicate GoodBundle(b: seq<Resource>) {
    && 1 <= |b| <= LIMIT
    && (forall r :: r in b ==> GroupOf(r) == GroupOf(b[0]))
    && (IsCrd(b[0]) ==> |b| == 1)
  }

  predicate GoodBundles(bundles: Bundles) {
    && (forall i :: 0 <= i < |bundles| ==> GoodBundle(bundles[i]))
    && InOrder(Flatten(bundles))
  }

  /** Only groups before rank k so far. */
  predicate UpTo(bundles: Bundles, k: nat) {
    GoodBundles(bundles) && forall r :: r in Flatten(bundles) ==> Rank(GroupOf(r)) < k
  }

  predicate AllOf(s: seq<Resource>, g: Group) {
    forall r :: r in s ==> GroupOf(r) == g
  }

  // ----- The order, by the names of the hooks -----

  /** The hooks that are looked for, the first one that a resource has decides. */
  const HOOKS := ["pre-install", "pre-upgrade", "post-install", "post-upgrade", "pre-rollback", "post-rollback",
                  "pre-delete", "post-delete", "test"]

  /** The position at which each is staged: resources with a delete policy are third, CRDs fifth, the others sixth. */
  const STAGES := [0, 0, 6, 6, 1, 7, 3, 8, 9]

  lemma StageOfHook(r: Resource, k: nat)
    requires !IsCrd(r) && k < |HOOKS| && HOOKS[k] in r.hooks && forall l :: 0 <= l < k ==> HOOKS[l] !in r.hooks
    ensures Rank(GroupOf(r)) == STAGES[k]
  {
    assert HOOKS[0] == "pre-install" && HOOKS[1] == "pre-upgrade" && HOOKS[2] == "post-install";
    assert HOOKS[3] == "post-upgrade" && HOOKS[4] == "pre-rollback" && HOOKS[5] == "post-rollback";
    assert HOOKS[6] == "pre-delete" && HOOKS[7] == "post-delete" && HOOKS[8] == "test";
  }

  lemma StageWithoutHook(r: Resource)
    requires forall k :: 0 <= k < |HOOKS| ==> HOOKS[k] !in r.hooks
    ensures Rank(GroupOf(r)) == if IsCrd(r) then 4 else if r.hasDeletePolicy then 2 else 5
  {
    assert HOOKS[0] == "pre-install" && HOOKS[1] == "pre-upgrade" && HOOKS[2] == "post-install";
    assert HOOKS[3] == "post-upgrade" && HOOKS[4] == "pre-rollback" && HOOKS[5] == "post-rollback";
    assert HOOKS[6] == "pre-delete" && HOOKS[7] == "post-delete" && HOOKS[8] == "test";
  }

  lemma StageOfCrd(r: Resource)
    requires r.apiVersion == "apiextensions.k8s.io/v1" && r.kind == "CustomResourceDefinition"
    ensures Rank(GroupOf(r)) == 4
  {
  }

  /** In good bundles an earlier stage is staged first, and within a stage a lower weight; no weight counts as zero. */
  lemma StagesFollowEachOther(bundles: Bundles, i: nat, j: nat)
    requires GoodBundles(bundles) && i < |Flatten(bundles)| && j < |Flatten(bundles)|
    ensures var a, b := Flatten(bundles)[i], Flatten(bundles)[j];
            && (Rank(GroupOf(a)) < Rank(GroupOf(b)) ==> i < j)
            && (GroupOf(a) == GroupOf(b) && !IsCrd(a)
                && (if a.weight.Some? then a.weight.value else 0) < (if b.weight.Some? then b.weight.value else 0) ==>
                  i < j)
  {
    var a, b := Flatten(bundles)[i], Flatten(bundles)[j];
    if i == j {
    } else if j < i {
      assert Rank(GroupOf(b)) <= Rank(GroupOf(a));
    }
  }

  /** Only the namespace is ever set, and only where there is none and the resource is no CRD. */
  lemma PlacedIsInNamespace(r: Resource, releaseNamespace: string)
    ensures var isCrd := r.apiVersion == "apiextensions.k8s.io/v1" && r.kind == "CustomResourceDefinition";
            Placed(r, releaseNamespace)
            == r.(namespace := if r.namespace == "" && !isCrd then releaseNamespace else r.namespace)
  {
  }

  // ----- Sequences -----

  lemma Associative(a: seq<Resource>, b: seq<Resource>, c: seq<Resource>)
    ensures a + (b + c) == (a + b) + c
  {
  }

  lemma {:induction false} FlattenConcat(a: Bundles, b: Bundles)
    ensures Flatten(a + b) == Flatten(a) + Flatten(b)
  {
    if a == [] {
      assert a + b == b;
    } else {
      FlattenConcat(a[1..], b);
      assert (a + b)[1..] == a[1..] + b && (a + b)[0] == a[0];
      Associative(a[0], Flatten(a[1..]), Flatten(b));
    }
  }

  lemma InOrderConcat(front: seq<Resource>, back: seq<Resource>, k: nat)
    requires InOrder(front) && InOrder(back)
    requires forall r :: r in front ==> Rank(GroupOf(r)) < k
    requires forall r :: r in back ==> Rank(GroupOf(r)) >= k
    ensures InOrder(front + back)
  {
    var all := front + back;
    forall i, j | 0 <= i < j < |all|
      ensures || Rank(GroupOf(all[i])) < Rank(GroupOf(all[j]))
              || (GroupOf(all[i]) == GroupOf(all[j]) && (IsCrd(all[i]) || HookWeight(all[i]) <= HookWeight(all[j])))
    {
      if j < |front| {
        assert all[i] == front[i] && all[j] == front[j];
      } else if i >= |front| {
        assert all[i] == back[i - |front|] && all[j] == back[j - |front|];
      } else {
        assert all[i] in front && all[j] in back;
      }
    }
  }

  /** A group goes behind the groups before it. */
  lemma AppendGroup(g: Group, bundles: Bundles, more: Bundles)
    requires UpTo(bundles, Rank(g)) && GoodBundles(more) && AllOf(Flatten(more), g)
    ensures UpTo(bundles + more, Rank(g) + 1) && Flatten(bundles + more) == Flatten(bundles) + Flatten(more)
  {
    FlattenConcat(bundles, more);
    InOrderConcat(Flatten(bundles), Flatten(more), Rank(g));
  }

  /** All of one group, sorted by weight. */
  predicate SortedGroup(s: seq<Resource>, g: Group) {
    SortedBy(s, WeightLeq) && AllOf(s, g)
  }

  lemma SortedGroupIsInOrder(s: seq<Resource>, g: Group)
    requires SortedGroup(s, g)
    ensures InOrder(s)
  {
    assert forall i :: 0 <= i < |s| ==> s[i] in s;
  }

  lemma CrdsAreInOrder(s: seq<Resource>)
    requires AllOf(s, Crds)
    ensures InOrder(s)
  {
    assert forall i :: 0 <= i < |s| ==> s[i] in s && GroupOf(s[i]) == Crds;
  }

  // ----- The CRDs, in their order -----

  function CrdsIn(s: seq<Resource>): seq<Resource> {
    if s == [] then [] else CrdsIn(s[..|s| - 1]) + if IsCrd(s[|s| - 1]) then [s[|s| - 1]] else []
  }

  lemma {:induction false} CrdsInConcat(a: seq<Resource>, b: seq<Resource>)
    ensures CrdsIn(a + b) == CrdsIn(a) + CrdsIn(b)
    decreases |b|
  {
    if b == [] {
      assert a + b == a;
    } else {
      CrdsInConcat(a, b[..|b| - 1]);
      assert (a + b)[..|a + b| - 1] == a + b[..|b| - 1];
    }
  }

  lemma {:induction false} CrdsInGroup(s: seq<Resource>, g: Group)
    requires AllOf(s, g)
    ensures CrdsIn(s) == if g == Crds then s else []
  {
    if s != [] {
      assert s[|s| - 1] in s;
      CrdsInGroup(s[..|s| - 1], g);
      assert s == s[..|s| - 1] + [s[|s| - 1]];
    }
  }

  // ----- The operations -----

  /** The loop that cuts a sorted group into bundles of no more than 15. */
  method Chunks(sorted: seq<Resource>, ghost g: Group) returns (more: Bundles)
    requires SortedGroup(sorted, g) && g != Crds
    ensures GoodBundles(more) && Flatten(more) == sorted
  {
    more := [];
    var i := 0;
    while i < |sorted|
      invariant 0 <= i && Flatten(more) == sorted[..if i < |sorted| then i else |sorted|]
      invariant forall l :: 0 <= l < |more| ==> GoodBundle(more[l])
    {
      var end := i + LIMIT;
      if end > |sorted| {
        end := |sorted|;
      }
      FlattenConcat(more, [sorted[i..end]]);
      FlattenOne(sorted[i..end]);
      assert sorted[..i] + sorted[i..end] == sorted[..end];
      assert forall r :: r in sorted[i..end] ==> r in sorted;
      assert sorted[i] in sorted && GroupOf(sorted[i]) != Crds;
      assert GoodBundle(sorted[i..end]);
      more := more + [sorted[i..end]];
      i := i + LIMIT;
    }
    assert sorted[..|sorted|] == sorted;
    SortedGroupIsInOrder(sorted, g);
  }

  lemma FlattenOne(b: seq<Resource>)
    ensures Flatten([b]) == b
  {
    assert [b][1..] == [];
  }

  /** Bundles of no more than 15, in the order of the weights. */
  method AppendResources(result: Bundles, resources: seq<Resource>, ghost g: Group) returns (bundles: Bundles)
    requires UpTo(result, Rank(g)) && AllOf(resources, g) && g != Crds
    ensures UpTo(bundles, Rank(g) + 1)
    ensures multiset(Flatten(bundles)) == multiset(Flatten(result)) + multiset(resources)
    ensures CrdsIn(Flatten(bundles)) == CrdsIn(Flatten(result))
  {
    var sorted := SortBy(resources, WeightLeq);
    SameMembers(sorted, resources);
    var more := Chunks(sorted, g);
    AppendGroup(g, result, more);
    CrdsInConcat(Flatten(result), sorted);
    CrdsInGroup(sorted, g);
    bundles := result + more;
  }

  /** Each CRD in a bundle of its own. */
  method Singles(crds: seq<Resource>) returns (more: Bundles)
    requires AllOf(crds, Crds)
    ensures GoodBundles(more) && Flatten(more) == crds
  {
    more := [];
    for i := 0 to |crds|
      invariant Flatten(more) == crds[..i]
      invariant forall l :: 0 <= l < |more| ==> GoodBundle(more[l])
    {
      assert GoodBundle([crds[i]]);
      FlattenConcat(more, [[crds[i]]]);
      FlattenOne([crds[i]]);
      assert crds[..i] + [crds[i]] == crds[..i + 1];
      more := more + [[crds[i]]];
    }
    assert crds[..|crds|] == crds;
    CrdsAreInOrder(crds);
  }

  method AppendCrds(result: Bundles, crds: seq<Resource>) returns (bundles: Bundles)
    requires UpTo(result, Rank(Crds)) && AllOf(crds, Crds)
    ensures UpTo(bundles, Rank(Crds) + 1)
    ensures multiset(Flatten(bundles)) == multiset(Flatten(result)) + multiset(crds)
    ensures CrdsIn(Flatten(bundles)) == CrdsIn(Flatten(result)) + crds
  {
    var more := Singles(crds);
    AppendGroup(Crds, result, more);
    CrdsInConcat(Flatten(result), crds);
    CrdsInGroup(crds, Crds);
    bundles := result + more;
  }

  /** The slices of splitResources, one per group. */
  datatype Groups = Groups(
    crdInstances: seq<Resource>, preInstallHooks: seq<Resource>, postInstallHooks: seq<Resource>,
    preRollbackHooks: seq<Resource>, postRollbackHooks: seq<Resource>, preDeleteHooks: seq<Resource>,
    postDeleteHooks: seq<Resource>, testHooks: seq<Resource>, hookDeleteAnnotations: seq<Resource>,
    otherResources: seq<Resource>)

  predicate Proper(groups: Groups) {
    && AllOf(groups.crdInstances, Crds)
    && AllOf(groups.preInstallHooks, PreInstall) && AllOf(groups.postInstallHooks, PostInstall)
    && AllOf(groups.preRollbackHooks, PreRollback) && AllOf(groups.postRollbackHooks, PostRollback)
    && AllOf(groups.preDeleteHooks, PreDelete) && AllOf(groups.postDeleteHooks, PostDelete)
    && AllOf(groups.testHooks, Tests) && AllOf(groups.hookDeleteAnnotations, HookDelete)
    && AllOf(groups.otherResources, Others)
  }

  function Early(groups: Groups): multiset<Resource> {
    multiset(groups.preInstallHooks) + multiset(groups.preRollbackHooks) + multiset(groups.hookDeleteAnnotations)
    + multiset(groups.preDeleteHooks) + multiset(groups.crdInstances)
  }

  function Late(groups: Groups): multiset<Resource> {
    multiset(groups.otherResources) + multiset(groups.postInstallHooks) + multiset(groups.postRollbackHooks)
    + multiset(groups.postDeleteHooks) + multiset(groups.testHooks)
  }

  function Assigned(groups: Groups, r: Resource): Groups {
    match GroupOf(r)
    case Crds => groups.(crdInstances := groups.crdInstances + [r])
    case PreInstall => groups.(preInstallHooks := groups.preInstallHooks + [r])
    case PostInstall => groups.(postInstallHooks := groups.postInstallHooks + [r])
    case PreRollback => groups.(preRollbackHooks := groups.preRollbackHooks + [r])
    case PostRollback => groups.(postRollbackHooks := groups.postRollbackHooks + [r])
    case PreDelete => groups.(preDeleteHooks := groups.preDeleteHooks + [r])
    case PostDelete => groups.(postDeleteHooks := groups.postDeleteHooks + [r])
    case Tests => groups.(testHooks := groups.testHooks + [r])
    case HookDelete => groups.(hookDeleteAnnotations := groups.hookDeleteAnnotations + [r])
    case Others => groups.(otherResources := groups.otherResources + [r])
  }

  lemma AllOfAppended(s: seq<Resource>, r: Resource, g: Group)
    requires AllOf(s, g) && GroupOf(r) == g
    ensures AllOf(s + [r], g)
  {
  }

  lemma AssignedIsProper(groups: Groups, r: Resource)
    requires Proper(groups)
    ensures Proper(Assigned(groups, r))
  {
    match GroupOf(r)
    case Crds => AllOfAppended(groups.crdInstances, r, Crds);
    case PreInstall => AllOfAppended(groups.preInstallHooks, r, PreInstall);
    case PostInstall => AllOfAppended(groups.postInstallHooks, r, PostInstall);
    case PreRollback => AllOfAppended(groups.preRollbackHooks, r, PreRollback);
    case PostRollback => AllOfAppended(groups.postRollbackHooks, r, PostRollback);
    case PreDelete => AllOfAppended(groups.preDeleteHooks, r, PreDelete);
    case PostDelete => AllOfAppended(groups.postDeleteHooks, r, PostDelete);
    case Tests => AllOfAppended(groups.testHooks, r, Tests);
    case HookDelete => AllOfAppended(groups.hookDeleteAnnotations, r, HookDelete);
    case Others => AllOfAppended(groups.otherResources, r, Others);
  }

  /** One more in one of five. */
  lemma OneMore(a: multiset<Resource>, b: multiset<Resource>, c: multiset<Resource>, d: multiset<Resource>,
                e: multiset<Resource>, r: multiset<Resource>)
    ensures (a + r) + b + c + d + e == a + b + c + d + e + r
    ensures a + (b + r) + c + d + e == a + b + c + d + e + r
    ensures a + b + (c + r) + d + e == a + b + c + d + e + r
    ensures a + b + c + (d + r) + e == a + b + c + d + e + r
    ensures a + b + c + d + (e + r) == a + b + c + d + e + r
  {
  }

  lemma AssignedEarly(groups: Groups, r: Resource)
    ensures Early(Assigned(groups, r)) == Early(groups) + if Rank(GroupOf(r)) < 5 then multiset{r} else multiset{}
  {
    var a, b, c := multiset(groups.preInstallHooks), multiset(groups.preRollbackHooks),
      multiset(groups.hookDeleteAnnotations);
    var d, e := multiset(groups.preDeleteHooks), multiset(groups.crdInstances);
    OneMore(a, b, c, d, e, multiset{r});
    match GroupOf(r)
    case PreInstall => assert multiset(groups.preInstallHooks + [r]) == a + multiset{r};
    case PreRollback => assert multiset(groups.preRollbackHooks + [r]) == b + multiset{r};
    case HookDelete => assert multiset(groups.hookDeleteAnnotations + [r]) == c + multiset{r};
    case PreDelete => assert multiset(groups.preDeleteHooks + [r]) == d + multiset{r};
    case Crds => assert multiset(groups.crdInstances + [r]) == e + multiset{r};
    case _ =>
  }

  lemma AssignedLate(groups: Groups, r: Resource)
    ensures Late(Assigned(groups, r)) == Late(groups) + if Rank(GroupOf(r)) < 5 then multiset{} else multiset{r}
  {
    var a, b, c := multiset(groups.otherResources), multiset(groups.postInstallHooks),
      multiset(groups.postRollbackHooks);
    var d, e := multiset(groups.postDeleteHooks), multiset(groups.testHooks);
    OneMore(a, b, c, d, e, multiset{r});
    match GroupOf(r)
    case Others => assert multiset(groups.otherResources + [r]) == a + multiset{r};
    case PostInstall => assert multiset(groups.postInstallHooks + [r]) == b + multiset{r};
    case PostRollback => assert multiset(groups.postRollbackHooks + [r]) == c + multiset{r};
    case PostDelete => assert multiset(groups.postDeleteHooks + [r]) == d + multiset{r};
    case Tests => assert multiset(groups.testHooks + [r]) == e + multiset{r};
    case _ =>
  }

  lemma AssignedTotal(groups: Groups, r: Resource)
    ensures Early(Assigned(groups, r)) + Late(Assigned(groups, r)) == Early(groups) + Late(groups) + multiset{r}
  {
    AssignedEarly(groups, r);
    AssignedLate(groups, r);
  }

  /** The if-chain that hands a resource to its group. */
  method Assign(groups: Groups, r: Resource, releaseNamespace: string) returns (updated: Groups)
    ensures updated == Assigned(groups, Placed(r, releaseNamespace))
  {
    var resource := r;
    if IsCrd(resource) {
      updated := groups.(crdInstances := groups.crdInstances + [resource]);
      return;
    }
    if resource.namespace == "" {
      resource := resource.(namespace := releaseNamespace);
    }
    if "pre-install" in resource.hooks {
      updated := groups.(preInstallHooks := groups.preInstallHooks + [resource]);
    } else if "pre-upgrade" in resource.hooks {
      updated := groups.(preInstallHooks := groups.preInstallHooks + [resource]);
    } else if "post-install" in resource.hooks {
      updated := groups.(postInstallHooks := groups.postInstallHooks + [resource]);
    } else if "post-upgrade" in resource.hooks {
      updated := groups.(postInstallHooks := groups.postInstallHooks + [resource]);
    } else if "pre-rollback" in resource.hooks {
      updated := groups.(preRollbackHooks := groups.preRollbackHooks + [resource]);
    } else if "post-rollback" in resource.hooks {
      updated := groups.(postRollbackHooks := groups.postRollbackHooks + [resource]);
    } else if "pre-delete" in resource.hooks {
      updated := groups.(preDeleteHooks := groups.preDeleteHooks + [resource]);
    } else if "post-delete" in resource.hooks {
      updated := groups.(postDeleteHooks := groups.postDeleteHooks + [resource]);
    } else if "test" in resource.hooks {
      updated := groups.(testHooks := groups.testHooks + [resource]);
    } else if resource.hasDeletePolicy {
      updated := groups.(hookDeleteAnnotations := groups.hookDeleteAnnotations + [resource]);
    } else {
      updated := groups.(otherResources := groups.otherResources + [resource]);
    }
  }

  function AssignedAll(resources: seq<Resource>, releaseNamespace: string): Groups {
    if resources == [] then Groups([], [], [], [], [], [], [], [], [], [])
    else Assigned(AssignedAll(resources[..|resources| - 1], releaseNamespace),
                  Placed(resources[|resources| - 1], releaseNamespace))
  }

  lemma {:induction false} AssignedAllIsProper(resources: seq<Resource>, releaseNamespace: string)
    ensures Proper(AssignedAll(resources, releaseNamespace))
  {
    if resources != [] {
      AssignedAllIsProper(resources[..|resources| - 1], releaseNamespace);
      AssignedIsProper(AssignedAll(resources[..|resources| - 1], releaseNamespace),
                       Placed(resources[|resources| - 1], releaseNamespace));
    }
  }

  lemma AssignedCrds(groups: Groups, r: Resource)
    ensures Assigned(groups, r).crdInstances == groups.crdInstances + if IsCrd(r) then [r] else []
  {
  }

  lemma {:induction false} AssignedAllKeepsCrds(resources: seq<Resource>, releaseNamespace: string)
    ensures AssignedAll(resources, releaseNamespace).crdInstances == CrdsIn(resources)
  {
    if resources != [] {
      var rest, last := resources[..|resources| - 1], resources[|resources| - 1];
      AssignedAllKeepsCrds(rest, releaseNamespace);
      AssignedCrds(AssignedAll(rest, releaseNamespace), Placed(last, releaseNamespace));
    }
  }

  function Everything(groups: Groups): multiset<Resource> {
    Early(groups) + Late(groups)
  }

  lemma MultisetAppended(s: seq<Resource>, r: Resource)
    ensures multiset(s + [r]) == multiset(s) + multiset{r}
  {
  }

  lemma {:induction false} AssignedAllTotal(resources: seq<Resource>, releaseNamespace: string)
    ensures Everything(AssignedAll(resources, releaseNamespace)) == multiset(PlacedAll(resources, releaseNamespace))
  {
    if resources == [] {
      assert Everything(Groups([], [], [], [], [], [], [], [], [], [])) == multiset{};
    } else {
      var rest, last := resources[..|resources| - 1], Placed(resources[|resources| - 1], releaseNamespace);
      AssignedAllTotal(rest, releaseNamespace);
      OneMoreInAll(AssignedAll(rest, releaseNamespace), last);
      MultisetAppended(PlacedAll(rest, releaseNamespace), last);
    }
  }

  lemma OneMoreInAll(groups: Groups, r: Resource)
    ensures Everything(Assigned(groups, r)) == Everything(groups) + multiset{r}
  {
    AssignedTotal(groups, r);
  }

  method SeparateResources(resources: seq<Resource>, releaseNamespace: string) returns (groups: Groups)
    ensures Proper(groups)
    ensures Early(groups) + Late(groups) == multiset(PlacedAll(resources, releaseNamespace))
    ensures groups.crdInstances == CrdsIn(resources)
  {
    groups := Groups([], [], [], [], [], [], [], [], [], []);
    for i := 0 to |resources|
      invariant groups == AssignedAll(resources[..i], releaseNamespace)
    {
      assert resources[..i + 1][..i] == resources[..i];
      groups := Assign(groups, resources[i], releaseNamespace);
    }
    assert resources[..|resources|] == resources;
    AssignedAllIsProper(resources, releaseNamespace);
    AssignedAllTotal(resources, releaseNamespace);
    AssignedAllKeepsCrds(resources, releaseNamespace);
  }

  /** splitResources */
  method SplitResources(resources: seq<Resource>, releaseNamespace: string) returns (result: Bundles)
    ensures GoodBundles(result)
    ensures multiset(Flatten(result)) == multiset(PlacedAll(resources, releaseNamespace))
    ensures CrdsIn(Flatten(result)) == CrdsIn(resources)
  {
    var groups := SeparateResources(resources, releaseNamespace);
    var early := AppendEarlyHooks(groups);
    early := AppendCrds(early, groups.crdInstances);
    result := AppendRest(early, groups);
  }

  method AppendEarlyHooks(groups: Groups) returns (result: Bundles)
    requires Proper(groups)
    ensures UpTo(result, 4) && multiset(Flatten(result)) + multiset(groups.crdInstances) == Early(groups)
    ensures CrdsIn(Flatten(result)) == []
  {
    result := [];
    result := AppendResources(result, groups.preInstallHooks, PreInstall);
    result := AppendResources(result, groups.preRollbackHooks, PreRollback);
    result := AppendResources(result, groups.hookDeleteAnnotations, HookDelete);
    result := AppendResources(result, groups.preDeleteHooks, PreDelete);
  }

  method AppendRest(start: Bundles, groups: Groups) returns (result: Bundles)
    requires Proper(groups) && UpTo(start, 5)
    ensures UpTo(result, 10) && multiset(Flatten(result)) == multiset(Flatten(start)) + Late(groups)
    ensures CrdsIn(Flatten(result)) == CrdsIn(Flatten(start))
  {
    result := AppendResources(start, groups.otherResources, Others);
    result := AppendResources(result, groups.postInstallHooks, PostInstall);
    result := AppendResources(result, groups.postRollbackHooks, PostRollback);
    result := AppendResources(result, groups.postDeleteHooks, PostDelete);
    result := AppendResources(result, groups.testHooks, Tests);
  }

  lemma SplitIsNotEmpty(resources: seq<Resource>, releaseNamespace: string, split: Bundles)
    requires multiset(Flatten(split)) == multiset(PlacedAll(resources, releaseNamespace))
    ensures resources != [] ==> split != []
  {
    if resources != [] {
      assert |PlacedAll(resources, releaseNamespace)| > 0;
      assert PlacedAll(resources, releaseNamespace)[0] in multiset(Flatten(split));
    }
  }

  datatype Staged = Staged(index: nat, resources: seq<Resource>, isLast: bool)

  /** Staging stops at the first bundle that fails. */
  method StageHelmResources(resources: seq<Resource>, releaseNamespace: string, failing: set<nat>)
    returns (staged: seq<Staged>, ok: bool, ghost bundles: Bundles)
    ensures GoodBundles(bundles) && multiset(Flatten(bundles)) == multiset(PlacedAll(resources, releaseNamespace))
    ensures CrdsIn(Flatten(bundles)) == CrdsIn(resources)
    ensures |staged| <= |bundles|
    ensures forall i :: 0 <= i < |staged| ==>
              staged[i].index == i && staged[i].resources == bundles[i] && (staged[i].isLast <==> i == |bundles| - 1)
    ensures ok ==> |staged| == |bundles|
    ensures (ok && resources != []) ==> exists i :: 0 <= i < |staged| && staged[i].isLast
    ensures !ok ==> forall i :: 0 <= i < |staged| ==> !staged[i].isLast
  {
    var split := SplitResources(resources, releaseNamespace);
    bundles := split;
    staged := [];
    ok := true;
    for i := 0 to |split|
      invariant |staged| == i && ok
      invariant forall k :: 0 <= k < i ==>
                  staged[k].index == k && staged[k].resources == split[k] && (staged[k].isLast <==> k == |split| - 1)
    {
      if i in failing {
        ok := false;
        return;
      }
      staged := staged + [Staged(i, split[i], i == |split| - 1)];
    }
    SplitIsNotEmpty(resources, releaseNamespace, split);
    if resources != [] {
      assert staged[|split| - 1].isLast;
    }
  }
}
