/** Label selectors of Kubernetes, as far as the controllers look into them. */
module Labels {

  type LabelSet = map<string, string>

  datatype Requirement =
    | In(key: string, values: set<string>)
    | NotIn(key: string, values: set<string>)
    | Exists(key: string)
    | DoesNotExist(key: string)

  /** A selector that cannot be parsed is malformed. One without requirements is empty. */
  datatype Selector = Malformed | Selector(requirements: seq<Requirement>)

  predicate Satisfies(labels: LabelSet, r: Requirement) {
    match r
    case In(k, values) => k in labels && labels[k] in values
    case NotIn(k, values) => k in labels ==> labels[k] !in values
    case Exists(k) => k in labels
    case DoesNotExist(k) => k !in labels
  }

  predicate Matches(selector: Selector, labels: LabelSet) {
    selector.Selector? && forall r :: r in selector.requirements ==> Satisfies(labels, r)
  }

  /** The empty selector of a profile selects nothing. */
  predicate Selects(selector: Selector, labels: LabelSet) {
    selector.Selector? && selector.requirements != [] && Matches(selector, labels)
  }

  datatype ClusterRef = ClusterRef(namespace: string, name: string)

  /** A profile matches a cluster by its selector, or because it names the cluster. */
  predicate SelectorMatchesCluster(selector: Selector, clusterRefs: seq<ClusterRef>, labels: LabelSet,
                                   cluster: ClusterRef)
  {
    Selects(selector, labels) || cluster in clusterRefs
  }

  // ----- What selectors mean -----

  /** A label that is set meets what asks for its key, or for its value among others, and nothing else about the key. */
  lemma SetLabelSatisfiesIff(labels: LabelSet, k: string, v: string, values: set<string>)
    requires k in labels && labels[k] == v
    ensures Satisfies(labels, Exists(k)) && !Satisfies(labels, DoesNotExist(k))
    ensures Satisfies(labels, In(k, values)) <==> v in values
    ensures Satisfies(labels, NotIn(k, values)) <==> v !in values
  {
  }

  lemma MissingLabelSatisfiesIff(labels: LabelSet, k: string, values: set<string>)
    requires k !in labels
    ensures !Satisfies(labels, Exists(k)) && Satisfies(labels, DoesNotExist(k))
    ensures !Satisfies(labels, In(k, values)) && Satisfies(labels, NotIn(k, values))
  {
  }

  /** Requirements add up; none at all is met by any labels, except in a profile, where it is met by none. */
  lemma RequirementsAddUp(a: seq<Requirement>, r: Requirement, labels: LabelSet)
    ensures Matches(Selector(a + [r]), labels) <==> Matches(Selector(a), labels) && Satisfies(labels, r)
    ensures Selects(Selector(a + [r]), labels) <==> Matches(Selector(a + [r]), labels)
    ensures Matches(Selector([]), labels) && !Selects(Selector([]), labels)
    ensures !Matches(Malformed, labels) && !Selects(Malformed, labels)
  {
    assert forall q :: q in a + [r] <==> q in a || q == r;
  }

  /** By all its requirements, of which there has to be one, or by name. */
  lemma ClusterIsMatchedIff(selector: Selector, clusterRefs: seq<ClusterRef>, labels: LabelSet, cluster: ClusterRef)
    ensures SelectorMatchesCluster(selector, clusterRefs, labels, cluster) <==>
              || (&& selector.Selector? && |selector.requirements| > 0
                  && forall i :: 0 <= i < |selector.requirements| ==> Satisfies(labels, selector.requirements[i]))
              || exists i :: 0 <= i < |clusterRefs| && clusterRefs[i] == cluster
  {
    if selector.Selector? {
      assert forall i :: 0 <= i < |selector.requirements| ==> selector.requirements[i] in selector.requirements;
    }
  }
}
