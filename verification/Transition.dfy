/** TransitionFrom on the delete path: a profile waits for its successors (controllers/clustersummary_transition.go). */
module Transition {
  import opened Common
  import opened Labels
  import opened Dependencies

  /** A profile of the kind of the predecessor, and of its namespace where that kind has one. */
  datatype Candidate = Candidate(name: string, transitionFrom: seq<string>, selector: Selector,
                                 clusterRefs: seq<ClusterRef>)

  /** The ClusterSummary of a successor for the cluster. */
  datatype SummaryRead = Found(summary: Dependencies.Summary) | Absent | LookupFailed

  datatype ClusterRead = NotFound | Present(labels: LabelSet, deleting: bool) | Unreadable

  predicate Replaces(c: Candidate, predecessor: string) {
    predecessor in c.transitionFrom
  }

  /** The teardown is not held up by this profile. */
  predicate LetsGo(c: Candidate, predecessor: string, labels: LabelSet, cluster: ClusterRef,
                   summaries: map<string, SummaryRead>)
  {
    Replaces(c, predecessor) && SelectorMatchesCluster(c.selector, c.clusterRefs, labels, cluster) ==>
      c.name in summaries && summaries[c.name].Found?
        && IsProvisioned(summaries[c.name].summary.wanted, summaries[c.name].summary.features)
  }

  /** Everything the wait for successors looks at. */
  datatype Successors = Successors(candidates: seq<Candidate>, predecessor: string, read: ClusterRead,
                                   cluster: ClusterRef,
                                   summaries: map<string, SummaryRead>)

  predicate AllLetGo(x: Successors) {
    || (forall c :: c in x.candidates ==> !Replaces(c, x.predecessor))
    || x.read.NotFound?
    || (x.read.Present? && forall c :: c in x.candidates ==>
        LetsGo(c, x.predecessor, x.read.labels, x.cluster, x.summaries))
  }

  /** The selector is empty or not met, and the cluster is not named. */
  predicate PassesBy(c: Candidate, labels: LabelSet, cluster: ClusterRef) {
    && (c.selector.Malformed? || c.selector.requirements == []
        || exists i :: 0 <= i < |c.selector.requirements| && !Satisfies(labels, c.selector.requirements[i]))
    && (forall i :: 0 <= i < |c.clusterRefs| ==> c.clusterRefs[i] != cluster)
  }

  /** Everything that is listed is Provisioned, and what is wanted is listed. */
  predicate IsDone(s: Dependencies.Summary) {
    && (forall i :: 0 <= i < |s.features| ==> s.features[i].feature.status.Provisioned?)
    && (forall id :: id in s.wanted ==> exists i :: 0 <= i < |s.features| && s.features[i].id == id)
  }

  /** It names the predecessor and matches the cluster, and its ClusterSummary is not there or not done. */
  predicate HoldsUp(x: Successors, c: Candidate)
    requires x.read.Present? && c.name in x.summaries
  {
    && x.predecessor in c.transitionFrom && !PassesBy(c, x.read.labels, x.cluster)
    && (x.summaries[c.name].Found? ==> !IsDone(x.summaries[c.name].summary))
  }

  /** The teardown goes on exactly if nobody holds it up. */
  lemma AllLetGoIff(x: Successors)
    requires x.read.Present? && forall c :: c in x.candidates ==> c.name in x.summaries
    ensures AllLetGo(x) <==> forall c :: c in x.candidates ==> !HoldsUp(x, c)
  {
    forall c | c in x.candidates
      ensures LetsGo(c, x.predecessor, x.read.labels, x.cluster, x.summaries) <==> !HoldsUp(x, c)
    {
      ClusterIsMatchedIff(c.selector, c.clusterRefs, x.read.labels, x.cluster);
      if x.summaries[c.name].Found? {
        var s := x.summaries[c.name].summary;
        assert forall i :: 0 <= i < |s.features| ==> s.features[i] in s.features;
        assert IsProvisioned(s.wanted, s.features) <==> IsDone(s);
      }
    }
  }

  /** With no cluster left, or nobody who names the predecessor, it goes on in any case. */
  lemma AllLetGoWithoutClusterIff(x: Successors)
    requires !x.read.Present?
    ensures AllLetGo(x) <==> x.read.NotFound? || forall c :: c in x.candidates ==> x.predecessor !in c.transitionFrom
  {
  }

  method ContainsName(names: seq<string>, target: string) returns (found: bool)
    ensures found <==> target in names
  {
    for i := 0 to |names|
      invariant target !in names[..i]
    {
      if names[i] == target {
        return true;
      }
      assert names[..i + 1] == names[..i] + [names[i]];
    }
    assert names[..|names|] == names;
    found := false;
  }

  method GetTransitionSuccessors(candidates: seq<Candidate>, predecessor: string) returns (successors: seq<Candidate>)
    ensures forall c :: c in successors <==> c in candidates && Replaces(c, predecessor)
  {
    successors := [];
    for i := 0 to |candidates|
      invariant forall c :: c in successors <==> c in candidates[..i] && Replaces(c, predecessor)
    {
      assert candidates[..i + 1] == candidates[..i] + [candidates[i]];
      var named := ContainsName(candidates[i].transitionFrom, predecessor);
      if named {
        successors := successors + [candidates[i]];
      }
    }
    assert candidates[..|candidates|] == candidates;
  }

  predicate NoReadFails(x: Successors)
    requires forall c :: c in x.candidates ==> c.name in x.summaries
  {
    !x.read.Unreadable? && forall c :: c in x.candidates ==> !x.summaries[c.name].LookupFailed?
  }

  /**
   None is an error of a read. A successor that matches the cluster now holds up the teardown until its own
   ClusterSummary is there and provisioned; all of them do, and a cluster that is gone is matched by nobody.
   */
  method AreSuccessorsProvisioned(x: Successors) returns (all: Option<bool>)
    requires forall c :: c in x.candidates ==> c.name in x.summaries
    ensures all == Some(true) <==> AllLetGo(x)
    ensures all == Some(false) ==>
              x.read.Present? && exists c ::
                c in x.candidates && !LetsGo(c, x.predecessor, x.read.labels, x.cluster, x.summaries)
    ensures NoReadFails(x) ==> all.Some?
  {
    var successors := GetTransitionSuccessors(x.candidates, x.predecessor);
    if |successors| == 0 {
      assert forall c :: c in x.candidates ==> c !in successors;
      return Some(true);
    }
    assert successors[0] in successors;
    if x.read.NotFound? {
      return Some(true);
    }
    if x.read.Unreadable? {
      return None;
    }
    for i := 0 to |successors|
      invariant forall k :: 0 <= k < i ==> LetsGo(successors[k], x.predecessor, x.read.labels, x.cluster, x.summaries)
    {
      var c := successors[i];
      assert c in successors;
      if !SelectorMatchesCluster(c.selector, c.clusterRefs, x.read.labels, x.cluster) {
        continue;
      }
      match x.summaries[c.name] {
        case Absent => return Some(false);
        case LookupFailed => return None;
        case Found(summary) =>
          var provisioned := IsClusterSummaryProvisioned(summary);
          if !provisioned {
            return Some(false);
          }
      }
    }
    forall c | c in x.candidates
      ensures LetsGo(c, x.predecessor, x.read.labels, x.cluster, x.summaries)
    {
      if Replaces(c, x.predecessor) {
        assert c in successors;
        var k :| 0 <= k < |successors| && successors[k] == c;
      }
    }
    all := Some(true);
  }
}
