/**
 Which profiles and sets are interested in a cluster (controllers/clusterset_controller.go,
 controllers/clusterprofile_controller.go, controllers/profile_utils.go, controllers/profile_transformation_common.go).

 ClusterSets keep their index up to date by the difference with the clusters matched before, ClusterProfiles erase
 everything and insert again. Both indexes are read when a cluster changes.
 */
module ClusterIndex {
  import opened Labels

  datatype Ref = Ref(kind: string, namespace: string, name: string)

  type Index = map<Ref, set<Ref>>

  function At(index: Index, r: Ref): set<Ref> {
    if r in index then index[r] else {}
  }

  function Elements(s: seq<Ref>): set<Ref> {
    set r | r in s
  }

  // ----- ClusterSets: by difference -----

  /** clusters: for each cluster the sets that match it; matched: for each set the clusters it matched last. */
  datatype SetIndex = SetIndex(clusters: Index, matched: Index)

  function UpdatedByDifference(x: SetIndex, consumer: Ref, matching: set<Ref>): SetIndex {
    SetIndex(Differed(x.clusters, consumer, matching, At(x.matched, consumer) - matching),
             x.matched[consumer := matching])
  }

  function ErasedEverywhere(index: Index, consumer: Ref): Index {
    map c | c in index :: index[c] - {consumer}
  }

  function CleanedSet(x: SetIndex, consumer: Ref): SetIndex {
    SetIndex(ErasedEverywhere(x.clusters, consumer), x.matched - {consumer})
  }

  class ClusterSetReconciler {
    var clusterMap: Index
    var clusterSetMap: Index
    var clusterSets: map<Ref, Selector>
    var clusterLabels: map<Ref, LabelSet>

    constructor ()
      ensures clusterMap == map[] && clusterSetMap == map[] && clusterSets == map[] && clusterLabels == map[]
    {
      clusterMap, clusterSetMap, clusterSets, clusterLabels := map[], map[], map[], map[];
    }

    function Contents(): SetIndex
      reads this
    {
      SetIndex(clusterMap, clusterSetMap)
    }

    method UpdateMaps(consumer: Ref, matching: seq<Ref>, selector: Selector)
      modifies this
      ensures Contents() == UpdatedByDifference(old(Contents()), consumer, Elements(matching))
      ensures clusterSets == old(clusterSets)[consumer := selector] && clusterLabels == old(clusterLabels)
    {
      var current := set c | c in matching;
      var toBeRemoved: set<Ref> := {};
      if consumer in clusterSetMap {
        toBeRemoved := clusterSetMap[consumer] - current;
      }
      DifferenceInTwoSteps(clusterMap, consumer, current, toBeRemoved);
      clusterMap := InsertConsumer(clusterMap, consumer, matching);
      clusterMap := EraseFrom(clusterMap, consumer, toBeRemoved);
      clusterSetMap := clusterSetMap[consumer := current];
      clusterSets := clusterSets[consumer := selector];
    }

    method CleanMaps(consumer: Ref)
      modifies this
      ensures Contents() == CleanedSet(old(Contents()), consumer)
      ensures clusterSets == old(clusterSets) - {consumer} && clusterLabels == old(clusterLabels)
    {
      clusterSetMap := clusterSetMap - {consumer};
      clusterSets := clusterSets - {consumer};
      clusterMap := EraseConsumer(clusterMap, consumer);
    }

    method RequeueForCluster(cluster: Ref, labels: LabelSet) returns (requests: seq<Ref>)
      modifies this
      ensures Elements(requests) == Interested(old(clusterMap), clusterSets, cluster, labels)
      ensures clusterMap == old(clusterMap)[cluster := At(old(clusterMap), cluster)]
      ensures clusterLabels == old(clusterLabels)[cluster := labels]
      ensures clusterSetMap == old(clusterSetMap) && clusterSets == old(clusterSets)
    {
      clusterMap := clusterMap[cluster := At(clusterMap, cluster)];
      clusterLabels := clusterLabels[cluster := labels];
      requests := Requests(clusterMap[cluster], clusterSets, labels);
    }
  }

  function Tracked(index: Index, consumer: Ref, clusters: set<Ref>): Index {
    map c | c in index.Keys + clusters :: if c in clusters then At(index, c) + {consumer} else index[c]
  }

  function Untracked(index: Index, consumer: Ref, clusters: set<Ref>): Index {
    map c | c in index.Keys + clusters :: if c in clusters then At(index, c) - {consumer} else index[c]
  }

  lemma UntrackOneMore(index: Index, consumer: Ref, clusters: set<Ref>, c: Ref)
    requires c !in clusters
    ensures var t := Untracked(index, consumer, clusters);
            Untracked(index, consumer, clusters + {c}) == t[c := At(t, c) - {consumer}]
  {
  }

  /** The map after an update: the consumer is added to what matches, and taken from what matched before only. */
  function Differed(index: Index, consumer: Ref, matching: set<Ref>, stale: set<Ref>): Index {
    map c | c in index.Keys + matching + stale ::
      if c in matching then At(index, c) + {consumer}
      else if c in stale then At(index, c) - {consumer}
      else At(index, c)
  }

  lemma DifferenceInTwoSteps(index: Index, consumer: Ref, matching: set<Ref>, stale: set<Ref>)
    requires matching !! stale
    ensures Untracked(Tracked(index, consumer, matching), consumer, stale) == Differed(index, consumer, matching, stale)
  {
    var t := Tracked(index, consumer, matching);
    forall c | c in stale
      ensures At(t, c) == At(index, c)
    {
    }
  }

  lemma ElementsAppended(s: seq<Ref>, r: Ref)
    ensures Elements(s + [r]) == Elements(s) + {r}
  {
    assert (s + [r])[|s|] == r;
    assert forall x :: x in s + [r] <==> x in s || x == r;
  }

  lemma TrackOneMore(index: Index, consumer: Ref, clusters: set<Ref>, c: Ref)
    ensures var t := Tracked(index, consumer, clusters);
            Tracked(index, consumer, clusters + {c}) == t[c := At(t, c) + {consumer}]
  {
  }

  method InsertConsumer(index: Index, consumer: Ref, entries: seq<Ref>) returns (updated: Index)
    ensures updated == Tracked(index, consumer, Elements(entries))
  {
    updated := index;
    for i := 0 to |entries|
      invariant updated == Tracked(index, consumer, Elements(entries[..i]))
    {
      ElementsAppended(entries[..i], entries[i]);
      assert entries[..i + 1] == entries[..i] + [entries[i]];
      TrackOneMore(index, consumer, Elements(entries[..i]), entries[i]);
      updated := updated[entries[i] := At(updated, entries[i]) + {consumer}];
    }
    assert entries[..|entries|] == entries;
  }

  method EraseFrom(index: Index, consumer: Ref, clusters: set<Ref>) returns (rest: Index)
    ensures rest == Untracked(index, consumer, clusters)
  {
    rest := index;
    var todo := clusters;
    while todo != {}
      invariant todo <= clusters
      invariant rest == Untracked(index, consumer, clusters - todo)
      decreases todo
    {
      var c :| c in todo;
      UntrackOneMore(index, consumer, clusters - todo, c);
      assert clusters - (todo - {c}) == clusters - todo + {c};
      rest := rest[c := At(rest, c) - {consumer}];
      todo := todo - {c};
    }
  }

  method EraseConsumer(index: Index, consumer: Ref) returns (rest: Index)
    ensures rest == ErasedEverywhere(index, consumer)
  {
    rest := index;
    var todo := index.Keys;
    while todo != {}
      invariant todo <= index.Keys == rest.Keys
      invariant forall c :: c in rest ==> rest[c] == if c in todo then index[c] else index[c] - {consumer}
      decreases todo
    {
      var c :| c in todo;
      rest := rest[c := rest[c] - {consumer}];
      todo := todo - {c};
    }
  }

  // ----- Who is requeued when a cluster changes -----

  /** Whoever matched the cluster before, and whoever has a selector that matches the labels it has now. */
  function Interested(index: Index, selectors: map<Ref, Selector>, cluster: Ref, labels: LabelSet): set<Ref> {
    At(index, cluster) + set k | k in selectors && Matches(selectors[k], labels)
  }

  /** The previous consumers first, then those now matching; a selector that cannot be parsed is passed over. */
  method Requests(previous: set<Ref>, selectors: map<Ref, Selector>, labels: LabelSet) returns (requests: seq<Ref>)
    ensures Elements(requests) == previous + set k | k in selectors && Matches(selectors[k], labels)
  {
    requests := [];
    var todo := previous;
    while todo != {}
      invariant todo <= previous && Elements(requests) == previous - todo
      decreases todo
    {
      var consumer :| consumer in todo;
      todo := todo - {consumer};
      ElementsAppended(requests, consumer);
      requests := requests + [consumer];
    }
    var keys := selectors.Keys;
    while keys != {}
      invariant keys <= selectors.Keys
      invariant Elements(requests) == previous + set k | k in selectors.Keys - keys && Matches(selectors[k], labels)
      decreases keys
    {
      var k :| k in keys;
      keys := keys - {k};
      if selectors[k].Malformed? {
        continue;
      }
      if Matches(selectors[k], labels) {
        ElementsAppended(requests, k);
        requests := requests + [k];
      }
    }
  }

  // ----- ClusterProfiles: by rebuilding -----

  function Rebuilt(index: Index, consumer: Ref, entries: set<Ref>): Index {
    map c | c in index.Keys + entries && (c in entries || At(index, c) - {consumer} != {}) ::
      if c in entries then At(index, c) + {consumer} else At(index, c) - {consumer}
  }

  /** What is rebuilt: the consumer under exactly these entries, the others where they were, and no empty entries. */
  lemma RebuiltHolds(index: Index, consumer: Ref, entries: set<Ref>)
    ensures forall c :: c in Rebuilt(index, consumer, entries) ==> Rebuilt(index, consumer, entries)[c] != {}
    ensures forall c, d :: c in Rebuilt(index, consumer, entries) && d in Rebuilt(index, consumer, entries)[c] ==>
              (d == consumer && c in entries) || (d != consumer && c in index && d in index[c])
    ensures forall c :: c in entries ==>
              c in Rebuilt(index, consumer, entries) && consumer in Rebuilt(index, consumer, entries)[c]
    ensures forall c, d :: c in index && d in index[c] && d != consumer ==>
              c in Rebuilt(index, consumer, entries) && d in Rebuilt(index, consumer, entries)[c]
  {
    assert forall c :: c in entries ==> consumer in At(index, c) + {consumer};
    assert forall c, d :: c in index && d in index[c] && d != consumer ==> d in At(index, c) - {consumer};
  }

  class ClusterProfileReconciler {
    var clusterMap: Index
    var clusterSetMap: Index
    var clusterProfiles: map<Ref, Selector>
    var clusterLabels: map<Ref, LabelSet>

    constructor ()
      ensures clusterMap == map[] && clusterSetMap == map[] && clusterProfiles == map[] && clusterLabels == map[]
    {
      clusterMap, clusterSetMap, clusterProfiles, clusterLabels := map[], map[], map[], map[];
    }

    /** Both indexes: the matching clusters, and the ClusterSets that are referenced. */
    method UpdateMaps(consumer: Ref, matching: seq<Ref>, setRefs: seq<Ref>, selector: Selector)
      modifies this
      ensures clusterMap == Rebuilt(old(clusterMap), consumer, Elements(matching))
      ensures clusterSetMap == Rebuilt(old(clusterSetMap), consumer, Elements(setRefs))
      ensures clusterProfiles == old(clusterProfiles)[consumer := selector] && clusterLabels == old(clusterLabels)
    {
      clusterMap := EraseAndInsert(clusterMap, consumer, matching);
      clusterSetMap := EraseAndInsert(clusterSetMap, consumer, setRefs);
      clusterProfiles := clusterProfiles[consumer := selector];
    }

    method TrackClusters(consumer: Ref, clusters: seq<Ref>)
      modifies this`clusterMap
      ensures clusterMap == Tracked(old(clusterMap), consumer, Elements(clusters))
    {
      clusterMap := InsertConsumer(clusterMap, consumer, clusters);
    }

    method CleanMaps(consumer: Ref)
      modifies this
      ensures clusterMap == ErasedEverywhere(old(clusterMap), consumer)
      ensures clusterSetMap == ErasedEverywhere(old(clusterSetMap), consumer)
      ensures clusterProfiles == old(clusterProfiles) - {consumer} && clusterLabels == old(clusterLabels)
    {
      clusterProfiles := clusterProfiles - {consumer};
      clusterMap := EraseConsumer(clusterMap, consumer);
      clusterSetMap := EraseConsumer(clusterSetMap, consumer);
    }

    method RequeueForCluster(cluster: Ref, labels: LabelSet) returns (requests: seq<Ref>)
      modifies this
      ensures Elements(requests) == Interested(old(clusterMap), clusterProfiles, cluster, labels)
      ensures clusterMap == old(clusterMap)[cluster := At(old(clusterMap), cluster)]
      ensures clusterLabels == old(clusterLabels)[cluster := labels]
      ensures clusterSetMap == old(clusterSetMap) && clusterProfiles == old(clusterProfiles)
    {
      clusterMap := clusterMap[cluster := At(clusterMap, cluster)];
      clusterLabels := clusterLabels[cluster := labels];
      requests := Requests(clusterMap[cluster], clusterProfiles, labels);
    }
  }

  /** The two loops over one index. */
  method EraseAndInsert(index: Index, consumer: Ref, entries: seq<Ref>) returns (updated: Index)
    ensures updated == Rebuilt(index, consumer, Elements(entries))
  {
    var rest := EraseAndDrop(index, consumer);
    updated := InsertConsumer(rest, consumer, entries);
    InsertAfterErase(index, consumer, Elements(entries));
  }

  lemma InsertAfterErase(index: Index, consumer: Ref, entries: set<Ref>)
    ensures Tracked(Rebuilt(index, consumer, {}), consumer, entries) == Rebuilt(index, consumer, entries)
  {
    var rest := Rebuilt(index, consumer, {});
    var t, u := Tracked(rest, consumer, entries), Rebuilt(index, consumer, entries);
    forall c
      ensures c in t <==> c in u
      ensures c in t ==> t[c] == u[c]
    {
      assert At(rest, c) == At(index, c) - {consumer};
    }
  }

  /** Entries without consumers are dropped. */
  method EraseAndDrop(index: Index, consumer: Ref) returns (rest: Index)
    ensures rest == Rebuilt(index, consumer, {})
  {
    rest := index;
    var todo := index.Keys;
    while todo != {}
      invariant todo <= index.Keys
      invariant forall c :: c in rest <==> c in index && (c in todo || index[c] - {consumer} != {})
      invariant forall c :: c in rest ==> rest[c] == if c in todo then index[c] else index[c] - {consumer}
      decreases todo
    {
      var c :| c in todo;
      todo := todo - {c};
      var consumers := rest[c] - {consumer};
      rest := if consumers == {} then rest - {c} else rest[c := consumers];
    }
  }

  // ----- Over all runs -----

  /** What happens to an index. Touch is the entry that a changing cluster gets. Only ClusterProfiles track. */
  datatype Op =
    | Update(consumer: Ref, matching: set<Ref>)
    | Clean(consumer: Ref)
    | Track(consumer: Ref, clusters: set<Ref>)
    | Touch(cluster: Ref)

  function ByDifference(ops: seq<Op>): SetIndex {
    if ops == [] then SetIndex(map[], map[])
    else
      var x := ByDifference(ops[..|ops| - 1]);
      match ops[|ops| - 1]
      case Update(k, m) => UpdatedByDifference(x, k, m)
      case Clean(k) => CleanedSet(x, k)
      case Track(_, _) => x
      case Touch(c) => x.(clusters := x.clusters[c := At(x.clusters, c)])
  }

  function ByRebuilding(ops: seq<Op>): Index {
    if ops == [] then map[]
    else
      var x := ByRebuilding(ops[..|ops| - 1]);
      match ops[|ops| - 1]
      case Update(k, m) => Rebuilt(x, k, m)
      case Clean(k) => ErasedEverywhere(x, k)
      case Track(k, cs) => Tracked(x, k, cs)
      case Touch(c) => x[c := At(x, c)]
  }

  /** The clusters a consumer matches by the history alone: those of its last update, and those tracked since. */
  function Matched(ops: seq<Op>, consumer: Ref): set<Ref> {
    if ops == [] then {}
    else
      var before := Matched(ops[..|ops| - 1], consumer);
      match ops[|ops| - 1]
      case Update(k, m) => if k == consumer then m else before
      case Clean(k) => if k == consumer then {} else before
      case Track(k, cs) => if k == consumer then before + cs else before
      case Touch(_) => before
  }

  predicate WithoutTracking(ops: seq<Op>) {
    forall i :: 0 <= i < |ops| ==> !ops[i].Track?
  }

  /** One map is the inverse of the other. */
  ghost predicate Inverse(x: SetIndex) {
    forall c, k :: k in At(x.clusters, c) <==> c in At(x.matched, k)
  }

  lemma UpdateKeepsInverse(x: SetIndex, consumer: Ref, matching: set<Ref>)
    requires Inverse(x)
    ensures Inverse(UpdatedByDifference(x, consumer, matching))
    ensures forall c :: At(UpdatedByDifference(x, consumer, matching).clusters, c)
                        == At(x.clusters, c) - {consumer} + if c in matching then {consumer} else {}
  {
    var y := UpdatedByDifference(x, consumer, matching);
    forall c
      ensures At(y.clusters, c) == At(x.clusters, c) - {consumer} + if c in matching then {consumer} else {}
    {
      assert consumer in At(x.clusters, c) <==> c in At(x.matched, consumer);
    }
    forall c, k
      ensures k in At(y.clusters, c) <==> c in At(y.matched, k)
    {
      assert k in At(x.clusters, c) <==> c in At(x.matched, k);
    }
  }

  /** The index that is kept by differences says, for every cluster, exactly who matches it by the history. */
  lemma {:induction false} DifferenceIsExact(ops: seq<Op>, cluster: Ref, consumer: Ref)
    requires WithoutTracking(ops)
    ensures Inverse(ByDifference(ops))
    ensures consumer in At(ByDifference(ops).clusters, cluster) <==> cluster in Matched(ops, consumer)
    decreases |ops|
  {
    if ops != [] {
      var rest, last := ops[..|ops| - 1], ops[|ops| - 1];
      DifferenceIsExact(rest, cluster, consumer);
      var x, y := ByDifference(rest), ByDifference(ops);
      match last {
        case Update(k, m) =>
          UpdateKeepsInverse(x, k, m);
          assert At(y.clusters, cluster) == At(x.clusters, cluster) - {k} + if cluster in m then {k} else {};
        case Clean(k) =>
          forall c, j
            ensures j in At(y.clusters, c) <==> c in At(y.matched, j)
          {
            assert j in At(x.clusters, c) <==> c in At(x.matched, j);
          }
        case Touch(t) =>
          forall c, j
            ensures j in At(y.clusters, c) <==> c in At(y.matched, j)
          {
            assert j in At(x.clusters, c) <==> c in At(x.matched, j);
          }
        case Track(_, _) =>
      }
    }
  }

  /** So does the index that is rebuilt. */
  lemma {:induction false} RebuildIsExact(ops: seq<Op>, cluster: Ref, consumer: Ref)
    ensures consumer in At(ByRebuilding(ops), cluster) <==> cluster in Matched(ops, consumer)
    decreases |ops|
  {
    if ops != [] {
      RebuildIsExact(ops[..|ops| - 1], cluster, consumer);
    }
  }

  /** The incremental index and the rebuilt one are the same relation after every sequence of operations. */
  lemma DifferenceRefinesRebuild(ops: seq<Op>, cluster: Ref)
    requires WithoutTracking(ops)
    ensures At(ByDifference(ops).clusters, cluster) == At(ByRebuilding(ops), cluster)
  {
    forall k
      ensures k in At(ByDifference(ops).clusters, cluster) <==> k in At(ByRebuilding(ops), cluster)
    {
      DifferenceIsExact(ops, cluster, k);
      RebuildIsExact(ops, cluster, k);
    }
  }

  /** A cluster that changes wakes exactly the consumers it matched by the history and those it matches now. */
  lemma NobodyIsForgotten(ops: seq<Op>, selectors: map<Ref, Selector>, cluster: Ref, labels: LabelSet, consumer: Ref)
    requires WithoutTracking(ops)
    ensures consumer in Interested(ByDifference(ops).clusters, selectors, cluster, labels) <==>
              cluster in Matched(ops, consumer) || (consumer in selectors && Matches(selectors[consumer], labels))
    ensures consumer in Interested(ByRebuilding(ops), selectors, cluster, labels) <==>
              cluster in Matched(ops, consumer) || (consumer in selectors && Matches(selectors[consumer], labels))
  {
    DifferenceIsExact(ops, cluster, consumer);
    RebuildIsExact(ops, cluster, consumer);
  }
}
