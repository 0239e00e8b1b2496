/**
 The gauge of outdated Helm charts (controllers/helmchart_outdated_check.go).

 A pass checks every release that some ClusterSummary manages, with several workers. It exposes a series for each
 one found outdated, and afterwards clears what is outdated no more. Passes do not overlap.
 */
module OutdatedCharts {
  import opened Common

  /** The labels of a series. */
  datatype Key = Key(profileKind: string, profileNamespace: string, profileName: string, clusterType: string,
                     clusterNamespace: string, clusterName: string, chartName: string, release: Release)

  // ----- What a pass looks at -----

  datatype Owner = Owner(profileKind: string, profileNamespace: string, profileName: string, clusterType: string,
                         clusterNamespace: string, clusterName: string)

  datatype ReleaseStatus = ReleaseStatus(release: Release, managing: bool, repoURL: string, repositoryName: string,
                                         chartName: string, chartVersion: string)

  datatype ChartKey = ChartKey(repoURL: string, repositoryName: string, chartName: string)

  datatype Ref = Ref(key: Key, currentVersion: string)

  predicate HasIdentity(rs: ReleaseStatus) {
    rs.managing && rs.chartName != "" && rs.repoURL != "" && rs.chartVersion != ""
  }

  function ChartKeyOf(rs: ReleaseStatus): ChartKey {
    ChartKey(rs.repoURL, rs.repositoryName, rs.chartName)
  }

  function RefOf(owner: Owner, rs: ReleaseStatus): Ref {
    Ref(Key(owner.profileKind, owner.profileNamespace, owner.profileName, owner.clusterType, owner.clusterNamespace,
            owner.clusterName, rs.chartName, rs.release), rs.chartVersion)
  }

  function RefsAt(refs: map<ChartKey, seq<Ref>>, k: ChartKey): seq<Ref> {
    if k in refs then refs[k] else []
  }

  /** The managed releases with a resolved chart of this key, in order. */
  function Selected(owner: Owner, summaries: seq<ReleaseStatus>, k: ChartKey): seq<Ref> {
    if summaries == [] then []
    else
      var rest, last := Selected(owner, summaries[..|summaries| - 1], k), summaries[|summaries| - 1];
      if HasIdentity(last) && ChartKeyOf(last) == k then rest + [RefOf(owner, last)] else rest
  }

  /** A release is selected exactly if the ClusterSummary manages it and its chart is resolved, with this key. */
  lemma {:induction false} SelectedIff(owner: Owner, summaries: seq<ReleaseStatus>, k: ChartKey, ref: Ref)
    ensures ref in Selected(owner, summaries, k) <==>
              exists i :: 0 <= i < |summaries| && summaries[i].managing
                          && summaries[i].chartName != "" && summaries[i].repoURL != ""
                          && summaries[i].chartVersion != ""
                          && summaries[i].repoURL == k.repoURL && summaries[i].repositoryName == k.repositoryName
                          && summaries[i].chartName == k.chartName && ref == RefOf(owner, summaries[i])
  {
    if summaries != [] {
      SelectedIff(owner, summaries[..|summaries| - 1], k, ref);
    }
  }

  method CollectHelmChartRefs(owner: Owner, summaries: seq<ReleaseStatus>, refs: map<ChartKey, seq<Ref>>)
    returns (collected: map<ChartKey, seq<Ref>>)
    ensures forall k :: RefsAt(collected, k) == RefsAt(refs, k) + Selected(owner, summaries, k)
  {
    collected := refs;
    for i := 0 to |summaries|
      invariant forall k :: RefsAt(collected, k) == RefsAt(refs, k) + Selected(owner, summaries[..i], k)
    {
      var rs := summaries[i];
      assert summaries[..i + 1][..i] == summaries[..i];
      if !rs.managing {
        continue;
      }
      if rs.chartName == "" || rs.repoURL == "" || rs.chartVersion == "" {
        continue;
      }
      var key := ChartKeyOf(rs);
      collected := collected[key := RefsAt(collected, key) + [RefOf(owner, rs)]];
    }
    assert summaries[..|summaries|] == summaries;
  }

  // ----- The state of a pass, and its end -----

  class PassState {
    var referenced: set<Key>
    var currentlyOutdated: set<Key>
    var checkedThisPass: set<Key>

    constructor ()
      ensures referenced == {} && currentlyOutdated == {} && checkedThisPass == {}
    {
      referenced, currentlyOutdated, checkedThisPass := {}, {}, {};
    }

    method MarkReferenced(key: Key)
      modifies this
      ensures referenced == old(referenced) + {key}
      ensures currentlyOutdated == old(currentlyOutdated) && checkedThisPass == old(checkedThisPass)
    {
      referenced := referenced + {key};
    }

    method MarkChecked(key: Key, outdated: bool)
      modifies this
      ensures checkedThisPass == old(checkedThisPass) + {key}
      ensures currentlyOutdated == old(currentlyOutdated) + if outdated then {key} else {}
      ensures referenced == old(referenced)
    {
      checkedThisPass := checkedThisPass + {key};
      if outdated {
        currentlyOutdated := currentlyOutdated + {key};
      }
    }
  }

  /** What stays flagged: what was found outdated, and what could not be checked though it is still referenced. */
  function StillOutdated(previous: set<Key>, referenced: set<Key>, checked: set<Key>, outdated: set<Key>): set<Key> {
    outdated + set k | k in previous && k in referenced && k !in checked
  }

  class Checker {
    var previouslyOutdated: set<Key>
    var gauge: set<Key>

    constructor ()
      ensures previouslyOutdated == {} && gauge == {}
    {
      previouslyOutdated, gauge := {}, {};
    }

    method TrackOutdatedHelmChart(key: Key)
      modifies this`gauge
      ensures gauge == old(gauge) + {key}
    {
      gauge := gauge + {key};
    }

    method ClearOutdatedHelmChart(key: Key)
      modifies this`gauge
      ensures gauge == old(gauge) - {key}
    {
      gauge := gauge - {key};
    }

    /** No series that stays flagged is missing at any moment of the loop. */
    method ReconcileOutdatedHelmChartMetric(pass: PassState)
      modifies this
      ensures previouslyOutdated
              == StillOutdated(old(previouslyOutdated), pass.referenced, pass.checkedThisPass, pass.currentlyOutdated)
      ensures gauge == old(gauge) - (old(previouslyOutdated) - previouslyOutdated)
    {
      ghost var kept :=
        StillOutdated(previouslyOutdated, pass.referenced, pass.checkedThisPass, pass.currentlyOutdated);
      var next := pass.currentlyOutdated;
      var todo := previouslyOutdated;
      while todo != {}
        invariant todo <= previouslyOutdated == old(previouslyOutdated)
        invariant next == pass.currentlyOutdated + (kept * (previouslyOutdated - todo))
        invariant gauge == old(gauge) - (previouslyOutdated - todo - kept)
        invariant old(gauge) * kept <= gauge
        decreases todo
      {
        var key :| key in todo;
        todo := todo - {key};
        if key in pass.currentlyOutdated {
          continue;
        }
        if key !in pass.checkedThisPass && key in pass.referenced {
          next := next + {key};
          continue;
        }
        ClearOutdatedHelmChart(key);
      }
      previouslyOutdated := next;
    }
  }

  // ----- Runs -----

  /** A completed pass: what was referenced, what of it could be checked, what of that was outdated. */
  datatype Record = Record(referenced: set<Key>, checked: set<Key>, outdated: set<Key>)

  /** found holds what the workers have exposed in this pass; next and left belong to the loop at its end. */
  datatype Phase =
    | Between
    | Checking(record: Record, found: set<Key>)
    | Clearing(closed: Record, next: set<Key>, left: set<Key>)

  /** withdrawn holds the series that a deploy cleared since they were last exposed. history is bookkeeping. */
  datatype State = State(previous: set<Key>, gauge: set<Key>, phase: Phase, withdrawn: set<Key>, history: seq<Record>)

  datatype Step =
    | BeginPass(referenced: set<Key>)
    | Check(key: Key, outdated: bool)
    | Expose(key: Key)
    | EndChecks
    | ClearOne(key: Key)
    | EndPass
    | Withdraw(key: Key)

  /** A pass ends its checks only when each worker has exposed what it found outdated. */
  predicate Enabled(st: State, step: Step) {
    match step
    case BeginPass(_) => st.phase.Between?
    case Check(k, _) => st.phase.Checking? && k in st.phase.record.referenced
    case Expose(k) => st.phase.Checking? && k in st.phase.record.outdated
    case EndChecks => st.phase.Checking? && st.phase.record.outdated <= st.phase.found
    case ClearOne(k) => st.phase.Clearing? && k in st.phase.left
    case EndPass => st.phase.Clearing? && st.phase.left == {}
    case Withdraw(_) => true
  }

  function Next(st: State, step: Step): State
    requires Enabled(st, step)
  {
    match step
    case BeginPass(referenced) => st.(phase := Checking(Record(referenced, {}, {}), {}))
    case Check(k, outdated) =>
      var r := st.phase.record;
      st.(phase :=
          st.phase.(record := Record(r.referenced, r.checked + {k}, if outdated then r.outdated + {k} else r.outdated)))
    case Expose(k) =>
      st.(gauge := st.gauge + {k}, withdrawn := st.withdrawn - {k}, phase := st.phase.(found := st.phase.found + {k}))
    case EndChecks =>
      var r := st.phase.record;
      var next := StillOutdated(st.previous, r.referenced, r.checked, r.outdated);
      st.(phase := Clearing(r, next, st.previous - next))
    case ClearOne(k) => st.(gauge := st.gauge - {k}, phase := st.phase.(left := st.phase.left - {k}))
    case EndPass => st.(previous := st.phase.next, phase := Between, history := st.history + [st.phase.closed])
    case Withdraw(k) => st.(gauge := st.gauge - {k}, withdrawn := st.withdrawn + {k})
  }

  /** A check is on record, and so is what it found, unless another one has found the series outdated before. */
  lemma CheckIsRecorded(st: State, k: Key, outdated: bool)
    requires Enabled(st, Check(k, outdated))
    ensures var r := Next(st, Check(k, outdated)).phase.record;
            && r.referenced == st.phase.record.referenced && r.checked == st.phase.record.checked + {k}
            && (k in r.outdated <==> outdated || k in st.phase.record.outdated)
            && r.outdated - {k} == st.phase.record.outdated - {k}
  {
  }

  /** The last check that succeeded said outdated, and every pass since has seen the release referenced. */
  predicate Flagged(history: seq<Record>, k: Key) {
    exists i :: 0 <= i < |history| && FlaggedSince(history, k, i)
  }

  predicate FlaggedSince(history: seq<Record>, k: Key, i: int)
    requires 0 <= i < |history|
  {
    k in history[i].outdated && forall j :: i < j < |history| ==> k in history[j].referenced && k !in history[j].checked
  }

  ghost predicate Inv(st: State) {
    && (forall k :: k in st.previous <==> Flagged(st.history, k))
    && match st.phase {
         case Between => st.gauge == st.previous - st.withdrawn
         case Checking(r, found) => found <= r.outdated <= r.checked && st.gauge == st.previous + found - st.withdrawn
         case Clearing(r, next, left) =>
           && next == StillOutdated(st.previous, r.referenced, r.checked, r.outdated) && r.outdated <= r.checked
           && left <= st.previous - next && st.gauge == next + left - st.withdrawn
       }
  }

  lemma FlaggedAfter(history: seq<Record>, r: Record, k: Key)
    requires r.outdated <= r.checked
    ensures Flagged(history + [r], k) <==>
            k in r.outdated || (Flagged(history, k) && k in r.referenced && k !in r.checked)
  {
    var longer := history + [r];
    var n := |history|;
    assert longer[n] == r && forall j :: 0 <= j < n ==> longer[j] == history[j];
    if k in r.outdated {
      assert FlaggedSince(longer, k, n);
    }
    if Flagged(history, k) && k in r.referenced && k !in r.checked {
      var i :| 0 <= i < n && FlaggedSince(history, k, i);
      assert FlaggedSince(longer, k, i);
    }
    if Flagged(longer, k) && k !in r.outdated {
      var i :| 0 <= i < |longer| && FlaggedSince(longer, k, i);
      assert i < n && longer[n] == r;
      assert FlaggedSince(history, k, i);
    }
  }

  lemma StepKeepsInv(st: State, step: Step)
    requires Inv(st) && Enabled(st, step)
    ensures Inv(Next(st, step))
  {
    match step
    case EndPass =>
      forall k
        ensures k in Next(st, step).previous <==> Flagged(Next(st, step).history, k)
      {
        FlaggedAfter(st.history, st.phase.closed, k);
      }
    case _ =>
  }

  ghost predicate Run(st: State, steps: seq<Step>)
    decreases |steps|
  {
    steps != [] ==> Enabled(st, steps[0]) && Run(Next(st, steps[0]), steps[1..])
  }

  function Final(st: State, steps: seq<Step>): State
    requires Run(st, steps)
    decreases |steps|
  {
    if steps == [] then st else Final(Next(st, steps[0]), steps[1..])
  }

  /**
   A pass can check whatever is referenced, and a series may be withdrawn at any time. Wherever a pass is, it can come
   to an end, which puts it on record.
   */
  lemma {:induction false} PassCanEnd(st: State) returns (steps: seq<Step>)
    requires !st.phase.Between?
    ensures Run(st, steps) && Final(st, steps).phase.Between?
    ensures Final(st, steps).history == st.history + [if st.phase.Checking? then st.phase.record else st.phase.closed]
    ensures forall k, outdated :: st.phase.Checking? && k in st.phase.record.referenced ==>
              Enabled(st, Check(k, outdated))
    ensures forall k :: Enabled(st, Withdraw(k))
    decreases if st.phase.Checking? then 1 else 0,
              if st.phase.Checking? then st.phase.record.outdated - st.phase.found else st.phase.left
  {
    var step;
    if st.phase.Checking? {
      if st.phase.record.outdated <= st.phase.found {
        step := EndChecks;
      } else {
        var k :| k in st.phase.record.outdated && k !in st.phase.found;
        step := Expose(k);
      }
    } else if st.phase.left != {} {
      var k :| k in st.phase.left;
      step := ClearOne(k);
    } else {
      steps := [EndPass];
      return;
    }
    var rest := PassCanEnd(Next(st, step));
    steps := [step] + rest;
    assert steps[1..] == rest;
  }

  lemma {:induction false} RunKeepsInv(st: State, steps: seq<Step>)
    requires Inv(st) && Run(st, steps)
    ensures Inv(Final(st, steps))
    decreases |steps|
  {
    if steps != [] {
      StepKeepsInv(st, steps[0]);
      RunKeepsInv(Next(st, steps[0]), steps[1..]);
    }
  }

  /**
   Between passes the exposed series are those flagged by the history of the passes, apart from the ones that a
   deploy withdrew since.
   */
  lemma GaugeShowsTheHistory(steps: seq<Step>, k: Key)
    requires Run(State({}, {}, Between, {}, []), steps)
    requires Final(State({}, {}, Between, {}, []), steps).phase.Between?
    ensures var st := Final(State({}, {}, Between, {}, []), steps);
            k in st.gauge <==> Flagged(st.history, k) && k !in st.withdrawn
  {
    RunKeepsInv(State({}, {}, Between, {}, []), steps);
  }

  /**
   A series disappears only in two ways: a deploy withdraws it, or the loop at the end of a pass clears it, and then
   this pass has found it up to date or nobody references it any more.
   */
  lemma SeriesDisappearsOnlyIf(st: State, step: Step, k: Key)
    requires Inv(st) && Enabled(st, step) && k in st.gauge && k !in Next(st, step).gauge
    ensures || step == Withdraw(k)
            || (step == ClearOne(k) && k !in st.phase.closed.outdated
                && (k in st.phase.closed.checked || k !in st.phase.closed.referenced))
  {
  }

  /** At the end of each pass of the run the series is flagged, and no deploy withdraws it. */
  ghost predicate StaysFlagged(st: State, steps: seq<Step>, k: Key)
    requires Run(st, steps)
    decreases |steps|
  {
    steps != [] ==>
      && steps[0] != Withdraw(k)
      && (steps[0] == EndPass ==> Flagged(Next(st, steps[0]).history, k))
      && StaysFlagged(Next(st, steps[0]), steps[1..], k)
  }

  ghost predicate AlwaysExposed(st: State, steps: seq<Step>, k: Key)
    requires Run(st, steps)
    decreases |steps|
  {
    k in st.gauge && (steps != [] ==> AlwaysExposed(Next(st, steps[0]), steps[1..], k))
  }

  lemma {:induction false} DroppedIsNotFlagged(st: State, steps: seq<Step>, k: Key)
    requires Inv(st) && Run(st, steps) && Final(st, steps).phase.Between?
    requires st.phase.Clearing? && k !in st.phase.next
    ensures !StaysFlagged(st, steps, k)
    decreases |steps|
  {
    StepKeepsInv(st, steps[0]);
    if steps[0] != EndPass {
      DroppedIsNotFlagged(Next(st, steps[0]), steps[1..], k);
    }
  }

  /**
   A series that stays flagged from pass to pass is exposed at every single step on the way, whatever the workers do
   and wherever the clearing loop is.
   */
  lemma {:induction false} FlaggedSeriesNeverBlinks(st: State, steps: seq<Step>, k: Key)
    requires Inv(st) && Run(st, steps) && Final(st, steps).phase.Between?
    requires k in st.gauge && StaysFlagged(st, steps, k)
    ensures AlwaysExposed(st, steps, k)
    decreases |steps|
  {
    if steps != [] {
      if st.phase.Clearing? && k !in st.phase.next {
        DroppedIsNotFlagged(st, steps, k);
      }
      StepKeepsInv(st, steps[0]);
      FlaggedSeriesNeverBlinks(Next(st, steps[0]), steps[1..], k);
    }
  }
}
