/**
 Pull mode apply tracking (controllers/helm_apply_tracking.go).

 For every chart the handler decides whether the agent may skip the bundle it is about to receive.
 Skipping is "only ever granted with proof". This module models the records the decision reads, the
 handler pass that stages and commits bundles, the agent that applies them, and the confirmation that
 turns what was staged into what was applied.

 A hash is a string, and the empty string means that no hash is recorded, as in the Go code.
 Hashes are taken to be injective, so a hash stands for the content it was computed from.
 */
module HelmApplyTracking {
  import opened Common

  type Hash = string

  /** The fields of HelmChartSummary that drive the decision. */
  datatype HelmChartSummary = HelmChartSummary(
    release: Release,
    needsRedeploy: bool,
    stagedContentHash: Hash,
    appliedContentHash: Hash)

  /** The two fields of releaseInfo that are set when a chart is staged in pull mode. */
  datatype ReleaseInfo = ReleaseInfo(applyHash: Hash, skipApply: bool)

  /** The decision on one summary. */
  predicate MaySkip(summary: HelmChartSummary, applyHash: Hash) {
    && !summary.needsRedeploy
    && summary.stagedContentHash == ""
    && summary.appliedContentHash != ""
    && summary.appliedContentHash == applyHash
  }

  function Recorded(summary: HelmChartSummary, info: Option<ReleaseInfo>): HelmChartSummary {
    if info.Some? && info.value.skipApply then
      summary
    else
      summary.(needsRedeploy := false,
               stagedContentHash := if info.Some? && info.value.applyHash != "" then info.value.applyHash
                                    else summary.stagedContentHash)
  }

  function Confirmed(summary: HelmChartSummary): HelmChartSummary {
    if summary.stagedContentHash == "" then summary
    else summary.(appliedContentHash := summary.stagedContentHash, stagedContentHash := "")
  }

  // ----- The loops over Status.HelmReleaseSummaries -----

  /** Index of the first entry for the release, or the number of entries. */
  ghost predicate IsFirstEntry(summaries: seq<HelmChartSummary>, release: Release, i: nat) {
    && i <= |summaries|
    && (forall k :: 0 <= k < i ==> summaries[k].release != release)
    && (i < |summaries| ==> summaries[i].release == release)
  }

  method GetHelmChartSummary(summaries: array<HelmChartSummary>, release: Release) returns (i: nat)
    ensures IsFirstEntry(summaries[..], release, i)
  {
    i := 0;
    while i < summaries.Length
      invariant i <= summaries.Length
      invariant forall k :: 0 <= k < i ==> summaries[k].release != release
    {
      if summaries[i].release == release {
        return;
      }
      i := i + 1;
    }
  }

  /** Skipping needs an entry, and the first entry for the release decides. */
  method ShouldSkipApply(summaries: array<HelmChartSummary>, release: Release, applyHash: Hash) returns (skip: bool)
    ensures skip <==> exists i: nat :: IsFirstEntry(summaries[..], release, i) && i < summaries.Length
                                  && MaySkip(summaries[i], applyHash)
  {
    var i := GetHelmChartSummary(summaries, release);
    assert forall j: nat :: IsFirstEntry(summaries[..], release, j) ==> j == i;
    if i == summaries.Length {
      return false;
    }
    if summaries[i].needsRedeploy || summaries[i].stagedContentHash != "" || summaries[i].appliedContentHash == "" {
      return false;
    }
    skip := summaries[i].appliedContentHash == applyHash;
  }

  /** Every entry of the release is updated, no other entry is touched. */
  method RecordHelmChartApply(summaries: array<HelmChartSummary>, release: Release, info: Option<ReleaseInfo>)
    modifies summaries
    ensures forall i :: 0 <= i < summaries.Length ==>
              summaries[i] == if old(summaries[i]).release == release then Recorded(old(summaries[i]), info)
                              else old(summaries[i])
  {
    for i := 0 to summaries.Length
      invariant forall k :: 0 <= k < i ==>
                  summaries[k] == if old(summaries[k]).release == release then Recorded(old(summaries[k]), info)
                                  else old(summaries[k])
      invariant forall k :: i <= k < summaries.Length ==> summaries[k] == old(summaries[k])
    {
      if summaries[i].release == release {
        if !(info.Some? && info.value.skipApply) {
          summaries[i] := summaries[i].(needsRedeploy := false);
          if info.Some? && info.value.applyHash != "" {
            summaries[i] := summaries[i].(stagedContentHash := info.value.applyHash);
          }
        }
      }
    }
  }

  /** Everything staged becomes applied. Returns whether the status has to be written. */
  method ConfirmAppliedHelmCharts(summaries: array<HelmChartSummary>) returns (changed: bool)
    modifies summaries
    ensures forall i :: 0 <= i < summaries.Length ==> summaries[i] == Confirmed(old(summaries[i]))
    ensures changed <==> summaries[..] != old(summaries[..])
  {
    changed := false;
    for i := 0 to summaries.Length
      invariant forall k :: 0 <= k < i ==> summaries[k] == Confirmed(old(summaries[k]))
      invariant forall k :: i <= k < summaries.Length ==> summaries[k] == old(summaries[k])
      invariant changed <==> exists k :: 0 <= k < i && summaries[k] != old(summaries[k])
    {
      if summaries[i].stagedContentHash != "" {
        summaries[i] := summaries[i].(appliedContentHash := summaries[i].stagedContentHash);
        summaries[i] := summaries[i].(stagedContentHash := "");
        changed := true;
      }
    }
    if changed {
      ghost var k :| 0 <= k < summaries.Length && summaries[k] != old(summaries[k]);
      assert summaries[..][k] != old(summaries[..])[k];
    } else {
      assert summaries[..] == old(summaries[..]);
    }
  }

  /** Drift reported for some charts marks those, and marks every chart when none of them is known. */
  function Drifted(summary: HelmChartSummary, charts: set<Release>, matched: bool): HelmChartSummary {
    if !matched || summary.release in charts then summary.(needsRedeploy := true) else summary
  }

  method MarkDriftedHelmCharts(summaries: array<HelmChartSummary>, charts: set<Release>)
    modifies summaries
    ensures var matched := exists k :: 0 <= k < summaries.Length && old(summaries[k]).release in charts;
            forall i :: 0 <= i < summaries.Length ==> summaries[i] == Drifted(old(summaries[i]), charts, matched)
  {
    var matched := false;
    for i := 0 to summaries.Length
      invariant matched <==> exists k :: 0 <= k < i && old(summaries[k]).release in charts
      invariant forall k :: 0 <= k < i ==> summaries[k] == Drifted(old(summaries[k]), charts, true)
      invariant forall k :: i <= k < summaries.Length ==> summaries[k] == old(summaries[k])
    {
      if summaries[i].release in charts {
        summaries[i] := summaries[i].(needsRedeploy := true);
        matched := true;
      }
    }
    if !matched {
      for i := 0 to summaries.Length
        invariant forall k :: 0 <= k < i ==> summaries[k] == Drifted(old(summaries[k]), charts, false)
        invariant forall k :: i <= k < summaries.Length ==> summaries[k] == old(summaries[k])
      {
        summaries[i] := summaries[i].(needsRedeploy := true);
      }
    }
  }

  // ----- The passes of the handler, the agent and the confirmation -----

  datatype Kind = Apply | Skip | Uninstall

  datatype Bundle = Bundle(hash: Hash, kind: Kind)

  type Summaries = map<Release, HelmChartSummary>

  /**
   Reading: the handler holds the ClusterSummary it read when it started.
   Walking: the status was rebuilt from that read, and charts are being staged one after the other.
   */
  datatype Pass =
    | Idle
    | Reading(read: Summaries)
    | Walking(view: Summaries, charts: set<Release>, staging: map<Release, Bundle>)

  /**
   group is the last committed ConfigurationGroup. pending are the releases the agent still has to process:
   bundles to apply or uninstall, and releases the group does not carry anymore. tracked tells
   whether the controller still waits for the report on that group.
   agent is the content the agent applied last.
   drifted records history: releases that drifted and have not been applied since.
   */
  datatype State = State(
    status: Summaries,
    pass: Pass,
    group: map<Release, Bundle>,
    pending: set<Release>,
    tracked: bool,
    agent: map<Release, Hash>,
    drifted: set<Release>)

  const INIT := State(map[], Idle, map[], {}, false, map[], {})

  datatype Step =
    | BeginPass
    | Rebuild(managed: set<Release>, conflicting: set<Release>, kept: set<Release>)
    | Stage(release: Release, hash: Hash, mustApply: bool)
    | StageUninstall(release: Release)
    | Commit
    | Discard
    | ReportDrift(charts: set<Release>)
    | AgentApply(release: Release)
    | AgentFail(release: Release)
    | Confirm
    | Untrack

  function Fresh(r: Release): HelmChartSummary { HelmChartSummary(r, false, "", "") }

  /** What the agent is told about a chart: the view taken when the status was rebuilt decides. */
  function Decide(view: Summaries, r: Release, hash: Hash, mustApply: bool): Kind {
    if !mustApply && r in view && MaySkip(view[r], hash) then Skip else Apply
  }

  /**
   A pass ends with Commit only when every chart was staged. A confirmation needs a group the agent
   fully processed, and never runs while a pass does: the deployer then reports the feature in progress.
   When charts were yielded to another profile, tracking ends there without a confirmation. A release is listed at most
   once in a profile.
   */
  predicate Enabled(st: State, step: Step) {
    match step
    case BeginPass => st.pass.Idle?
    case Rebuild(managed, conflicting, kept) => st.pass.Reading? && managed !! conflicting && kept <= st.status.Keys
    case Stage(r, hash, _) => st.pass.Walking? && r in st.pass.charts && r !in st.pass.staging && hash != ""
    case StageUninstall(r) => st.pass.Walking? && r in st.pass.charts && r !in st.pass.staging
    case Commit => st.pass.Walking? && st.pass.staging.Keys == st.pass.charts
    case Discard => !st.pass.Idle?
    case ReportDrift(_) => true
    case AgentApply(r) => r in st.pending
    case AgentFail(r) => r in st.pending
    case Confirm | Untrack => st.pass.Idle? && st.tracked && st.pending == {}
  }

  /** Entries of managed charts are carried forward from the read of the handler, not from the current status. */
  function Rebuilt(st: State, managed: set<Release>, conflicting: set<Release>, kept: set<Release>): Summaries
    requires st.pass.Reading? && kept <= st.status.Keys
  {
    map r | r in managed + conflicting + kept ::
      if r in managed then (if r in st.pass.read then st.pass.read[r].(release := r) else Fresh(r))
      else if r in conflicting then Fresh(r)
      else st.status[r]
  }

  function Update(status: Summaries, r: Release, info: ReleaseInfo): Summaries {
    if r in status then status[r := Recorded(status[r], Some(info))] else status
  }

  function Staged(st: State, r: Release, bundle: Bundle, info: ReleaseInfo): State
    requires st.pass.Walking?
  {
    st.(status := Update(st.status, r, info), pass := st.pass.(staging := st.pass.staging[r := bundle]))
  }

  function Only(status: Summaries, keep: set<Release>): Summaries {
    map r | r in status && r in keep :: status[r]
  }

  function Next(st: State, step: Step): State
    requires Enabled(st, step)
  {
    match step
    case BeginPass => st.(pass := Reading(st.status))
    case Rebuild(managed, conflicting, kept) =>
      var status := Rebuilt(st, managed, conflicting, kept);
      st.(status := status, pass := Walking(status, managed + conflicting, map[]))
    case Stage(r, hash, mustApply) =>
      var kind := Decide(st.pass.view, r, hash, mustApply);
      Staged(st, r, Bundle(hash, kind), ReleaseInfo(hash, kind == Skip))
    case StageUninstall(r) => Staged(st, r, Bundle("", Uninstall), ReleaseInfo("", false))
    case Commit =>
      st.(status := Only(st.status, st.pass.charts), pass := Idle, group := st.pass.staging, tracked := true,
          pending := (set r | r in st.pass.staging && st.pass.staging[r].kind != Skip)
                     + (st.agent.Keys - st.pass.staging.Keys))
    case Discard =>
      if st.pass.Reading? then st.(pass := Idle)
      else st.(status := Only(st.status, st.pass.charts), pass := Idle)
    case ReportDrift(charts) =>
      var matched := charts * st.status.Keys != {};
      st.(status := (map r | r in st.status :: Drifted(st.status[r], charts, matched)),
          drifted := st.drifted + (if matched then charts * st.status.Keys else st.status.Keys))
    case AgentApply(r) =>
      st.(pending := st.pending - {r}, drifted := st.drifted - {r},
          agent := if r in st.group && st.group[r].kind == Apply then st.agent[r := st.group[r].hash]
                   else st.agent - {r})
    case AgentFail(r) => st.(agent := st.agent - {r})
    case Confirm =>
      st.(status := (map r | r in st.status :: Confirmed(st.status[r])), tracked := false)
    case Untrack => st.(tracked := false)
  }

  // ----- What the records claim -----

  /**
   How much is claimed of the records. Truthful: every confirmed hash stands for what the agent has. Proven: at least
   those that are not flagged do, which are the ones that grant a skip.
   */
  datatype Claim = Truthful | Proven

  /** The hash of the content that was confirmed last, with nothing staged after it. */
  predicate HasConfirmed(t: HelmChartSummary) {
    t.stagedContentHash == "" && t.appliedContentHash != ""
  }

  /** A flagged record is beyond the weaker claim. */
  predicate Covers(claim: Claim, t: HelmChartSummary) {
    claim.Truthful? || !t.needsRedeploy
  }

  /** A confirmed hash is what the agent applied last, and nothing is on its way. */
  predicate Backed(claim: Claim, st: State, r: Release, t: HelmChartSummary) {
    HasConfirmed(t) && Covers(claim, t) ==> r in st.agent && st.agent[r] == t.appliedContentHash && r !in st.pending
  }

  /** After a drift that is not repaired yet, the flag keeps a confirmed hash from being trusted. */
  predicate Flagged(st: State, r: Release, t: HelmChartSummary) {
    HasConfirmed(t) && r in st.drifted ==> t.needsRedeploy
  }

  ghost predicate Holds(claim: Claim, st: State) {
    forall r :: r in st.status ==> Backed(claim, st, r, st.status[r]) && Flagged(st, r, st.status[r])
  }

  /** The last committed group has the chart applied with this content. */
  predicate IsCommitted(st: State, r: Release, hash: Hash) {
    r in st.group && st.group[r].kind != Uninstall && st.group[r].hash == hash
  }

  /** What is recorded as staged is what the last committed group carries. */
  ghost predicate StagedIsCommitted(claim: Claim, st: State) {
    forall r :: r in st.status && st.status[r].stagedContentHash != "" && Covers(claim, st.status[r]) ==>
      IsCommitted(st, r, st.status[r].stagedContentHash)
  }

  /** No drift since the agent applied the chart has lost its flag. */
  ghost predicate NoDriftForgotten(st: State) {
    forall r :: r in st.status && st.status[r].stagedContentHash != "" && r in st.drifted ==> st.status[r].needsRedeploy
  }

  /**
   When a step leaves the claim as it is. The rebuild must not drop a flag that was set since the handler read the
   status. Staging an uninstall clears the flag, so the chart must not have drifted, and if flagged records are not
   covered its hash must be the one of the group. When an uninstall is committed, its chart must not have a confirmed
   hash. What is confirmed must be what was committed, with no drift forgotten.
   */
  ghost predicate Careful(claim: Claim, st: State, step: Step)
    requires Enabled(st, step)
  {
    match step
    case Rebuild(managed, _, _) =>
      forall r :: r in managed && r in st.status && HasConfirmed(st.status[r]) && st.status[r].needsRedeploy ==>
        r in st.pass.read && st.pass.read[r].needsRedeploy
    case StageUninstall(r) =>
      r in st.status && HasConfirmed(st.status[r]) ==>
        && r !in st.drifted
        && (claim.Truthful? || (r !in st.pending && IsCommitted(st, r, st.status[r].appliedContentHash)))
    case Commit =>
      forall r :: r in st.pass.staging && st.pass.staging[r].kind == Uninstall && r in st.status ==>
        !(HasConfirmed(st.status[r]) && Covers(claim, st.status[r]))
    case Confirm => StagedIsCommitted(claim, st) && NoDriftForgotten(st)
    case _ => true
  }

  predicate SameHashes(a: HelmChartSummary, b: HelmChartSummary) {
    a.stagedContentHash == b.stagedContentHash && a.appliedContentHash == b.appliedContentHash
  }

  /** What a chart staged in this pass has left in the status. */
  predicate StagedRight(st: State, r: Release, b: Bundle, t: HelmChartSummary) {
    match b.kind
    case Apply => b.hash != "" && t.stagedContentHash == b.hash
    case Skip => t.stagedContentHash == "" && r in st.agent && st.agent[r] == b.hash && r !in st.pending
    case Uninstall => true
  }

  /** Whatever the agent has processed is exactly what the group asks for. */
  ghost predicate AgentHasGroup(st: State) {
    && (forall r :: r in st.pending && r in st.group ==> st.group[r].kind != Skip)
    && forall r :: r !in st.pending ==>
      && (r in st.agent <==> r in st.group && st.group[r].kind != Uninstall)
      && (r in st.agent ==> st.agent[r] == st.group[r].hash)
  }

  /** What the handler has read differs from the status only in flags that were set since. */
  predicate ReadRight(claim: Claim, st: State, r: Release, read: HelmChartSummary, t: HelmChartSummary) {
    && SameHashes(read, t) && Backed(claim, st, r, read)
    && (read.needsRedeploy ==> t.needsRedeploy)
    && (HasConfirmed(t) && t.needsRedeploy && !read.needsRedeploy ==> r in st.drifted)
  }

  ghost predicate PassInv(claim: Claim, st: State) {
    match st.pass
    case Idle => true
    case Reading(read) =>
      read.Keys == st.status.Keys && forall r :: r in read ==> ReadRight(claim, st, r, read[r], st.status[r])
    case Walking(view, charts, staging) =>
      && charts <= st.status.Keys && staging.Keys <= charts && view.Keys == st.status.Keys
      && (forall r :: r in view ==>
            Backed(claim, st, r, view[r]) && (r !in staging ==> SameHashes(view[r], st.status[r])))
      && (forall r :: r in staging ==> StagedRight(st, r, staging[r], st.status[r]))
  }

  ghost predicate Inv(claim: Claim, st: State) {
    && (forall r :: r in st.status ==> st.status[r].release == r)
    && Holds(claim, st) && AgentHasGroup(st) && PassInv(claim, st)
  }

  // ----- What every step keeps -----

  lemma StagedKeepsClaim(claim: Claim, st: State, r: Release, bundle: Bundle, info: ReleaseInfo)
    requires Inv(claim, st) && st.pass.Walking? && r in st.pass.charts
    requires var t := Recorded(st.status[r], Some(info)); Backed(claim, st, r, t) && Flagged(st, r, t)
    ensures Holds(claim, Staged(st, r, bundle, info))
  {
    var st' := Staged(st, r, bundle, info);
    forall q | q in st'.status
      ensures Backed(claim, st', q, st'.status[q]) && Flagged(st', q, st'.status[q])
    {
      assert Backed(claim, st, q, st.status[q]) && Flagged(st, q, st.status[q]);
    }
  }

  lemma StagedKeepsPass(claim: Claim, st: State, r: Release, bundle: Bundle, info: ReleaseInfo)
    requires Inv(claim, st) && st.pass.Walking? && r in st.pass.charts && r !in st.pass.staging
    requires StagedRight(st, r, bundle, Recorded(st.status[r], Some(info)))
    ensures PassInv(claim, Staged(st, r, bundle, info))
  {
    var st' := Staged(st, r, bundle, info);
    forall q | q in st'.pass.staging
      ensures StagedRight(st', q, st'.pass.staging[q], st'.status[q])
    {
      assert q != r ==> StagedRight(st, q, st.pass.staging[q], st.status[q]);
    }
    forall q | q in st'.pass.view
      ensures Backed(claim, st', q, st'.pass.view[q])
      ensures q !in st'.pass.staging ==> SameHashes(st'.pass.view[q], st'.status[q])
    {
      assert Backed(claim, st, q, st.pass.view[q]);
    }
  }

  lemma StagedKeepsInv(claim: Claim, st: State, r: Release, bundle: Bundle, info: ReleaseInfo)
    requires Inv(claim, st) && st.pass.Walking? && r in st.pass.charts && r !in st.pass.staging
    requires var t := Recorded(st.status[r], Some(info));
             Backed(claim, st, r, t) && Flagged(st, r, t) && StagedRight(st, r, bundle, t)
    ensures Inv(claim, Staged(st, r, bundle, info))
  {
    StagedKeepsClaim(claim, st, r, bundle, info);
    StagedKeepsPass(claim, st, r, bundle, info);
  }

  lemma StageKeepsInv(claim: Claim, st: State, r: Release, hash: Hash, mustApply: bool)
    requires Inv(claim, st) && Enabled(st, Stage(r, hash, mustApply))
    ensures Inv(claim, Next(st, Stage(r, hash, mustApply)))
  {
    var kind := Decide(st.pass.view, r, hash, mustApply);
    assert SameHashes(st.pass.view[r], st.status[r]) && Backed(claim, st, r, st.pass.view[r]);
    assert Backed(claim, st, r, st.status[r]) && Flagged(st, r, st.status[r]);
    StagedKeepsInv(claim, st, r, Bundle(hash, kind), ReleaseInfo(hash, kind == Skip));
  }

  lemma StageUninstallKeepsInvIff(claim: Claim, st: State, r: Release)
    requires Inv(claim, st) && Enabled(st, StageUninstall(r))
    ensures Holds(claim, Next(st, StageUninstall(r))) <==> Careful(claim, st, StageUninstall(r))
    ensures Careful(claim, st, StageUninstall(r)) ==> Inv(claim, Next(st, StageUninstall(r)))
  {
    var st' := Next(st, StageUninstall(r));
    assert Backed(claim, st, r, st.status[r]);
    if Careful(claim, st, StageUninstall(r)) {
      StagedKeepsInv(claim, st, r, Bundle("", Uninstall), ReleaseInfo("", false));
    } else {
      assert !(Backed(claim, st', r, st'.status[r]) && Flagged(st', r, st'.status[r]));
    }
  }

  lemma RebuiltIsBacked(claim: Claim, st: State, managed: set<Release>, conflicting: set<Release>, kept: set<Release>,
                        r: Release)
    requires Inv(claim, st) && st.pass.Reading? && kept <= st.status.Keys
    requires r in Rebuilt(st, managed, conflicting, kept)
    ensures var t := Rebuilt(st, managed, conflicting, kept)[r]; t.release == r && Backed(claim, st, r, t)
  {
    if r in st.status {
      assert Backed(claim, st, r, st.status[r]) && ReadRight(claim, st, r, st.pass.read[r], st.status[r]);
    }
  }

  /** Whatever becomes of the flags, the hashes and what they stand for are carried forward. */
  lemma RebuildKeepsPass(claim: Claim, st: State, step: Step)
    requires Inv(claim, st) && step.Rebuild? && Enabled(st, step)
    ensures PassInv(claim, Next(st, step))
    ensures forall r :: r in Next(st, step).status ==>
              Next(st, step).status[r].release == r && Backed(claim, Next(st, step), r, Next(st, step).status[r])
  {
    var st' := Next(st, step);
    forall r | r in st'.status
      ensures st'.status[r].release == r && Backed(claim, st', r, st'.status[r])
    {
      RebuiltIsBacked(claim, st, step.managed, step.conflicting, step.kept, r);
    }
  }

  lemma RebuildKeepsInvIff(claim: Claim, st: State, step: Step)
    requires Inv(claim, st) && step.Rebuild? && Enabled(st, step)
    ensures Holds(claim, Next(st, step)) <==> Careful(claim, st, step)
    ensures Careful(claim, st, step) ==> Inv(claim, Next(st, step))
  {
    var st' := Next(st, step);
    RebuildKeepsPass(claim, st, step);
    forall r | r in st'.status && Careful(claim, st, step)
      ensures Flagged(st', r, st'.status[r])
    {
      if r in st.status {
        assert Flagged(st, r, st.status[r]) && ReadRight(claim, st, r, st.pass.read[r], st.status[r]);
      }
    }
    if !Careful(claim, st, step) {
      var r :| r in step.managed && r in st.status && HasConfirmed(st.status[r]) && st.status[r].needsRedeploy
               && !st.pass.read[r].needsRedeploy;
      assert ReadRight(claim, st, r, st.pass.read[r], st.status[r]);
      assert !Flagged(st', r, st'.status[r]);
    }
  }

  lemma CommitKeepsGroup(claim: Claim, st: State)
    requires Inv(claim, st) && Enabled(st, Commit)
    ensures AgentHasGroup(Next(st, Commit))
  {
    forall r | r in st.pass.staging
      ensures StagedRight(st, r, st.pass.staging[r], st.status[r])
    {
    }
  }

  lemma CommitKeepsInvIff(claim: Claim, st: State)
    requires Inv(claim, st) && Enabled(st, Commit)
    ensures Holds(claim, Next(st, Commit)) <==> Careful(claim, st, Commit)
    ensures Careful(claim, st, Commit) ==> Inv(claim, Next(st, Commit))
  {
    var st' := Next(st, Commit);
    CommitKeepsGroup(claim, st);
    forall r | r in st'.status && Careful(claim, st, Commit)
      ensures Backed(claim, st', r, st'.status[r]) && Flagged(st', r, st'.status[r])
    {
      assert Backed(claim, st, r, st.status[r]) && Flagged(st, r, st.status[r]);
      assert StagedRight(st, r, st.pass.staging[r], st.status[r]);
    }
    if !Careful(claim, st, Commit) {
      var r :| r in st.pass.staging && st.pass.staging[r].kind == Uninstall && r in st.status
               && HasConfirmed(st.status[r]) && Covers(claim, st.status[r]);
      assert !Backed(claim, st', r, st'.status[r]);
    }
  }

  lemma DiscardKeepsInv(claim: Claim, st: State)
    requires Inv(claim, st) && Enabled(st, Discard)
    ensures Inv(claim, Next(st, Discard))
  {
  }

  /** Only what the agent has of this release changes, and what drift is known of it. */
  ghost predicate OnlyAgent(st: State, st': State, r: Release) {
    && st' == st.(agent := st'.agent, pending := st'.pending, drifted := st'.drifted)
    && st'.drifted <= st.drifted
    && forall q :: q != r ==>
      && (q in st'.agent <==> q in st.agent) && (q in st.agent ==> st'.agent[q] == st.agent[q])
      && (q in st'.pending <==> q in st.pending) && (q in st'.drifted <==> q in st.drifted)
  }

  /** What the agent works on has no confirmed hash that is covered. */
  lemma OnlyAgentKeepsClaim(claim: Claim, st: State, st': State, r: Release)
    requires Inv(claim, st) && r in st.pending && OnlyAgent(st, st', r)
    ensures Holds(claim, st')
  {
    forall q | q in st'.status
      ensures Backed(claim, st', q, st'.status[q]) && Flagged(st', q, st'.status[q])
    {
      assert Backed(claim, st, q, st.status[q]) && Flagged(st, q, st.status[q]);
    }
  }

  lemma OnlyAgentKeepsPass(claim: Claim, st: State, st': State, r: Release)
    requires Inv(claim, st) && r in st.pending && OnlyAgent(st, st', r)
    ensures PassInv(claim, st')
  {
    match st.pass
    case Idle =>
    case Reading(read) =>
      forall q | q in read
        ensures ReadRight(claim, st', q, read[q], st'.status[q])
      {
        assert ReadRight(claim, st, q, read[q], st.status[q]);
        assert Backed(claim, st, q, st.status[q]);
      }
    case Walking(view, _, staging) =>
      forall q | q in view
        ensures Backed(claim, st', q, view[q]) && (q !in staging ==> SameHashes(view[q], st'.status[q]))
      {
        assert Backed(claim, st, q, view[q]);
      }
      forall q | q in staging
        ensures StagedRight(st', q, staging[q], st'.status[q])
      {
        assert StagedRight(st, q, staging[q], st.status[q]);
      }
  }

  lemma AgentKeepsInv(claim: Claim, st: State, step: Step)
    requires Inv(claim, st) && (step.AgentApply? || step.AgentFail?) && Enabled(st, step)
    ensures Inv(claim, Next(st, step))
  {
    var st' := Next(st, step);
    OnlyAgentKeepsClaim(claim, st, st', step.release);
    OnlyAgentKeepsPass(claim, st, st', step.release);
  }

  /** Only flags are set, and every new one for a drift. */
  ghost predicate OnlyFlags(st: State, st': State) {
    && st' == st.(status := st'.status, drifted := st'.drifted)
    && st'.status.Keys == st.status.Keys && st.drifted <= st'.drifted
    && forall r :: r in st.status ==>
      && st'.status[r] == st.status[r].(needsRedeploy := st'.status[r].needsRedeploy)
      && (st.status[r].needsRedeploy ==> st'.status[r].needsRedeploy)
      && (r in st'.drifted - st.drifted ==> st'.status[r].needsRedeploy)
      && (st'.status[r].needsRedeploy && !st.status[r].needsRedeploy ==> r in st'.drifted)
  }

  lemma ReportSetsOnlyFlags(st: State, charts: set<Release>)
    requires forall r :: r in st.status ==> st.status[r].release == r
    ensures OnlyFlags(st, Next(st, ReportDrift(charts)))
  {
  }

  lemma OnlyFlagsKeepsClaim(claim: Claim, st: State, st': State)
    requires Inv(claim, st) && OnlyFlags(st, st')
    ensures Holds(claim, st')
  {
    forall r | r in st'.status
      ensures Backed(claim, st', r, st'.status[r]) && Flagged(st', r, st'.status[r])
    {
      assert Backed(claim, st, r, st.status[r]) && Flagged(st, r, st.status[r]);
    }
  }

  lemma OnlyFlagsKeepsPass(claim: Claim, st: State, st': State)
    requires Inv(claim, st) && OnlyFlags(st, st')
    ensures PassInv(claim, st')
  {
    match st.pass
    case Idle =>
    case Reading(read) =>
      forall r | r in read
        ensures ReadRight(claim, st', r, read[r], st'.status[r])
      {
        assert ReadRight(claim, st, r, read[r], st.status[r]);
      }
    case Walking(view, _, staging) =>
      forall r | r in view
        ensures Backed(claim, st', r, view[r]) && (r !in staging ==> SameHashes(view[r], st'.status[r]))
      {
        assert Backed(claim, st, r, view[r]) && (r !in staging ==> SameHashes(view[r], st.status[r]));
      }
      forall r | r in staging
        ensures StagedRight(st', r, staging[r], st'.status[r])
      {
        assert StagedRight(st, r, staging[r], st.status[r]);
      }
  }

  lemma DriftKeepsInv(claim: Claim, st: State, charts: set<Release>)
    requires Inv(claim, st)
    ensures Inv(claim, Next(st, ReportDrift(charts)))
  {
    var st' := Next(st, ReportDrift(charts));
    ReportSetsOnlyFlags(st, charts);
    OnlyFlagsKeepsClaim(claim, st, st');
    OnlyFlagsKeepsPass(claim, st, st');
  }

  /**
   A confirmation, after whatever passes were discarded, leaves the truth exactly when the recorded hashes are the
   ones of the group that was committed and no drift has lost its flag.
   */
  lemma ConfirmIsTrueIff(claim: Claim, st: State)
    requires Inv(claim, st) && Enabled(st, Confirm)
    ensures Holds(claim, Next(st, Confirm)) <==> StagedIsCommitted(claim, st) && NoDriftForgotten(st)
    ensures StagedIsCommitted(claim, st) && NoDriftForgotten(st) ==> Inv(claim, Next(st, Confirm))
  {
    var st' := Next(st, Confirm);
    forall r | r in st.status
      ensures (Backed(claim, st', r, st'.status[r]) && Flagged(st', r, st'.status[r])) <==>
                (st.status[r].stagedContentHash != "" ==>
                   && (Covers(claim, st.status[r]) ==> IsCommitted(st, r, st.status[r].stagedContentHash))
                   && (r in st.drifted ==> st.status[r].needsRedeploy))
    {
      assert Backed(claim, st, r, st.status[r]) && Flagged(st, r, st.status[r]);
    }
  }

  /** For both claims: where it holds, it holds after a step exactly if the step is careful. */
  lemma StepKeepsClaimIff(claim: Claim, st: State, step: Step)
    requires Inv(claim, st) && Enabled(st, step)
    ensures Holds(claim, Next(st, step)) <==> Careful(claim, st, step)
    ensures Careful(claim, st, step) ==> Inv(claim, Next(st, step))
  {
    match step
    case BeginPass =>
    case Rebuild(_, _, _) => RebuildKeepsInvIff(claim, st, step);
    case Stage(r, hash, mustApply) => StageKeepsInv(claim, st, r, hash, mustApply);
    case StageUninstall(r) => StageUninstallKeepsInvIff(claim, st, r);
    case Commit => CommitKeepsInvIff(claim, st);
    case Discard => DiscardKeepsInv(claim, st);
    case ReportDrift(charts) => DriftKeepsInv(claim, st, charts);
    case AgentApply(_) => AgentKeepsInv(claim, st, step);
    case AgentFail(_) => AgentKeepsInv(claim, st, step);
    case Confirm => ConfirmIsTrueIff(claim, st);
    case Untrack =>
  }

  // ----- Runs -----

  ghost predicate Run(st: State, steps: seq<Step>)
    decreases |steps|
  {
    steps != [] ==> Enabled(st, steps[0]) && Run(Next(st, steps[0]), steps[1..])
  }

  function Final(st: State, steps: seq<Step>): State
    requires Run(st, steps)
    decreases |steps|
  {
    if steps == [] then st else Final(Next(st, steps[0]), steps[1..])
  }

  lemma {:induction false} Extend(st: State, steps: seq<Step>, step: Step)
    requires Run(st, steps) && Enabled(Final(st, steps), step)
    ensures Run(st, steps + [step]) && Final(st, steps + [step]) == Next(Final(st, steps), step)
    decreases |steps|
  {
    if steps == [] {
      assert Run(Next(st, step), []);
    } else {
      Extend(Next(st, steps[0]), steps[1..], step);
      assert (steps + [step])[1..] == steps[1..] + [step];
    }
  }

  ghost predicate AlwaysHolds(claim: Claim, st: State, steps: seq<Step>)
    requires Run(st, steps)
    decreases |steps|
  {
    Holds(claim, st) && (steps != [] ==> AlwaysHolds(claim, Next(st, steps[0]), steps[1..]))
  }

  ghost predicate CarefulRun(claim: Claim, st: State, steps: seq<Step>)
    requires Run(st, steps)
    decreases |steps|
  {
    steps != [] ==> Careful(claim, st, steps[0]) && CarefulRun(claim, Next(st, steps[0]), steps[1..])
  }

  lemma {:induction false} RunKeepsClaimIff(claim: Claim, st: State, steps: seq<Step>)
    requires Inv(claim, st) && Run(st, steps)
    ensures AlwaysHolds(claim, st, steps) <==> CarefulRun(claim, st, steps)
    ensures CarefulRun(claim, st, steps) ==> Inv(claim, Final(st, steps))
    decreases |steps|
  {
    if steps != [] {
      StepKeepsClaimIff(claim, st, steps[0]);
      if Careful(claim, st, steps[0]) {
        RunKeepsClaimIff(claim, Next(st, steps[0]), steps[1..]);
      }
    }
  }

  /** Over all runs: every confirmed hash is true throughout exactly if every step is careful in the stronger sense. */
  lemma RecordsAreTruthfulIff(steps: seq<Step>)
    requires Run(INIT, steps)
    ensures AlwaysHolds(Truthful, INIT, steps) <==> CarefulRun(Truthful, INIT, steps)
  {
    RunKeepsClaimIff(Truthful, INIT, steps);
  }

  /** The agent applied exactly this content last, has nothing left to process for the release, and nothing drifted. */
  predicate InPlace(st: State, r: Release, hash: Hash) {
    r in st.agent && st.agent[r] == hash && r !in st.pending && r !in st.drifted
  }

  /** Skip only with proof: whenever the records grant a skip for a hash, that content is in place. */
  ghost predicate SkipsAreProven(st: State) {
    forall r, hash :: r in st.status && MaySkip(st.status[r], hash) ==> InPlace(st, r, hash)
  }

  ghost predicate SkipsAlwaysProven(st: State, steps: seq<Step>)
    requires Run(st, steps)
    decreases |steps|
  {
    SkipsAreProven(st) && (steps != [] ==> SkipsAlwaysProven(Next(st, steps[0]), steps[1..]))
  }

  lemma ProvenIsWhatSkipsNeed(st: State)
    ensures SkipsAreProven(st) <==> Holds(Proven, st)
  {
    if SkipsAreProven(st) {
      forall r | r in st.status
        ensures Backed(Proven, st, r, st.status[r]) && Flagged(st, r, st.status[r])
      {
        assert HasConfirmed(st.status[r]) && !st.status[r].needsRedeploy ==>
            MaySkip(st.status[r], st.status[r].appliedContentHash);
      }
    } else {
      var r, hash :| r in st.status && MaySkip(st.status[r], hash) && !InPlace(st, r, hash);
      assert !(Backed(Proven, st, r, st.status[r]) && Flagged(st, r, st.status[r]));
    }
  }

  lemma {:induction false} AlwaysProvenIff(st: State, steps: seq<Step>)
    requires Run(st, steps)
    ensures SkipsAlwaysProven(st, steps) <==> AlwaysHolds(Proven, st, steps)
    decreases |steps|
  {
    ProvenIsWhatSkipsNeed(st);
    if steps != [] {
      AlwaysProvenIff(Next(st, steps[0]), steps[1..]);
    }
  }

  /** Over all runs: no skip is ever granted without proof exactly if every step is careful in the weaker sense. */
  lemma SkipNeedsProofIff(steps: seq<Step>)
    requires Run(INIT, steps)
    ensures SkipsAlwaysProven(INIT, steps) <==> CarefulRun(Proven, INIT, steps)
  {
    AlwaysProvenIff(INIT, steps);
    RunKeepsClaimIff(Proven, INIT, steps);
  }

  lemma {:induction false} TruthIsProof(st: State, steps: seq<Step>)
    requires Run(st, steps) && AlwaysHolds(Truthful, st, steps)
    ensures AlwaysHolds(Proven, st, steps)
    decreases |steps|
  {
    assert forall r :: r in st.status ==> Backed(Truthful, st, r, st.status[r]) && Flagged(st, r, st.status[r]);
    if steps != [] {
      TruthIsProof(Next(st, steps[0]), steps[1..]);
    }
  }

  /** What is careful in the stronger sense, over a whole run, is so in the weaker one. */
  lemma TruthfulRunsAreCareful(steps: seq<Step>)
    requires Run(INIT, steps) && CarefulRun(Truthful, INIT, steps)
    ensures CarefulRun(Proven, INIT, steps)
  {
    RunKeepsClaimIff(Truthful, INIT, steps);
    TruthIsProof(INIT, steps);
    RunKeepsClaimIff(Proven, INIT, steps);
  }

  /** At the end of such a run, for one chart. */
  lemma SkipNeedsProof(steps: seq<Step>, r: Release, hash: Hash)
    requires Run(INIT, steps) && CarefulRun(Proven, INIT, steps)
    requires r in Final(INIT, steps).status && MaySkip(Final(INIT, steps).status[r], hash)
    ensures InPlace(Final(INIT, steps), r, hash)
  {
    RunKeepsClaimIff(Proven, INIT, steps);
  }

  /** The same for the decision itself, which a pass takes on the view it holds; drift reported since is flagged. */
  lemma SkippedBundleIsInPlace(steps: seq<Step>, r: Release, hash: Hash, mustApply: bool)
    requires Run(INIT, steps) && CarefulRun(Proven, INIT, steps)
    requires Enabled(Final(INIT, steps), Stage(r, hash, mustApply))
    requires Decide(Final(INIT, steps).pass.view, r, hash, mustApply) == Skip
    ensures var st := Final(INIT, steps); InPlace(st.(drifted := {}), r, hash)
    ensures var st := Final(INIT, steps); r in st.status && (r in st.drifted ==> st.status[r].needsRedeploy)
  {
    RunKeepsClaimIff(Proven, INIT, steps);
    var st := Final(INIT, steps);
    assert Backed(Proven, st, r, st.pass.view[r]) && SameHashes(st.pass.view[r], st.status[r]);
  }

  /** And the other way round: a record that grants a skip without that makes the next pass skip the chart. */
  lemma GrantWithoutProofSkips(st: State, r: Release, hash: Hash)
    requires st.pass.Idle? && r in st.status && MaySkip(st.status[r], hash) && !InPlace(st, r, hash)
    ensures Run(st, [BeginPass, Rebuild({r}, {}, {})])
    ensures var last := Final(st, [BeginPass, Rebuild({r}, {}, {})]);
            && Enabled(last, Stage(r, hash, false)) && Decide(last.pass.view, r, hash, false) == Skip
            && !InPlace(last, r, hash)
  {
    Extend(st, [], BeginPass);
    Extend(st, [BeginPass], Rebuild({r}, {}, {}));
    assert [] + [BeginPass] == [BeginPass] && [BeginPass] + [Rebuild({r}, {}, {})] == [BeginPass, Rebuild({r}, {}, {})];
  }

  /** Nothing but the agent at work, and drift. */
  ghost predicate Undisturbed(steps: seq<Step>) {
    forall i :: 0 <= i < |steps| ==> steps[i].AgentApply? || steps[i].AgentFail? || steps[i].ReportDrift?
  }

  /** What was staged is in the group, and a drift without a flag is about to be repaired. */
  ghost predicate Committed(st: State) {
    && (forall r :: r in st.status ==> st.status[r].release == r)
    && StagedIsCommitted(Truthful, st)
    && forall r :: r in st.status && st.status[r].stagedContentHash != "" && r in st.drifted ==>
         st.status[r].needsRedeploy || r in st.pending
  }

  lemma UndisturbedKeepsCommitted(st: State, step: Step)
    requires Committed(st) && Enabled(st, step) && (step.AgentApply? || step.AgentFail? || step.ReportDrift?)
    ensures Committed(Next(st, step))
  {
    if step.ReportDrift? {
      ReportSetsOnlyFlags(st, step.charts);
    }
  }

  lemma {:induction false} CommittedPassIsConfirmed(claim: Claim, st: State, steps: seq<Step>)
    requires Committed(st) && Run(st, steps) && Undisturbed(steps) && Enabled(Final(st, steps), Confirm)
    ensures Careful(claim, Final(st, steps), Confirm)
    decreases |steps|
  {
    if steps != [] {
      assert steps[0].AgentApply? || steps[0].AgentFail? || steps[0].ReportDrift?;
      assert forall i :: 0 <= i < |steps[1..]| ==> steps[1..][i] == steps[i + 1];
      UndisturbedKeepsCommitted(st, steps[0]);
      CommittedPassIsConfirmed(claim, Next(st, steps[0]), steps[1..]);
    }
  }

  /** A pass that commits charts to apply, and no uninstalls, is confirmed truthfully, whatever drifts in between. */
  lemma UndisturbedPassIsConfirmed(claim: Claim, st: State, steps: seq<Step>)
    requires Inv(claim, st) && Enabled(st, Commit)
    requires forall r :: r in st.pass.staging ==> st.pass.staging[r].kind != Uninstall
    requires Run(Next(st, Commit), steps) && Undisturbed(steps) && Enabled(Final(Next(st, Commit), steps), Confirm)
    ensures Careful(claim, st, Commit) && Careful(claim, Final(Next(st, Commit), steps), Confirm)
  {
    forall r | r in st.pass.staging
      ensures StagedRight(st, r, st.pass.staging[r], st.status[r])
    {
    }
    assert Committed(Next(st, Commit));
    CommittedPassIsConfirmed(claim, Next(st, Commit), steps);
  }

  // ----- What was applied is skipped from then on -----

  /** A chart staged to be applied loses its flag and is recorded with its hash; confirmed, it may be skipped. */
  lemma AppliedChartIsRecorded(st: State, r: Release, hash: Hash, mustApply: bool)
    requires Enabled(st, Stage(r, hash, mustApply)) && r in st.status
    requires Decide(st.pass.view, r, hash, mustApply) == Apply
    ensures var st' := Next(st, Stage(r, hash, mustApply));
            && st'.pass.staging[r] == Bundle(hash, Apply)
            && !st'.status[r].needsRedeploy && st'.status[r].stagedContentHash == hash
            && st'.status[r].appliedContentHash == st.status[r].appliedContentHash
            && MaySkip(Confirmed(st'.status[r]), hash)
    ensures forall q :: q in st.status && q != r ==>
              q in Next(st, Stage(r, hash, mustApply)).status
              && Next(st, Stage(r, hash, mustApply)).status[q] == st.status[q]
  {
  }

  /** Any other deploy, without a hash to record, repairs a drift too and leaves the hashes alone. */
  lemma DeployRepairsDrift(t: HelmChartSummary, info: Option<ReleaseInfo>)
    requires info.Some? ==> !info.value.skipApply && info.value.applyHash == ""
    ensures !Recorded(t, info).needsRedeploy && SameHashes(Recorded(t, info), t)
  {
  }

  /** A report that names known charts leaves all others alone. */
  lemma DriftElsewhereIsIgnored(st: State, charts: set<Release>, r: Release)
    requires r in st.status && st.status[r].release == r && r !in charts && charts * st.status.Keys != {}
    ensures Next(st, ReportDrift(charts)).status[r] == st.status[r]
    ensures r in Next(st, ReportDrift(charts)).drifted ==> r in st.drifted
  {
  }

  /** A rebuild lists the charts there are with what the handler has read of them, and keeps the rest as told. */
  lemma RebuildCarriesForward(st: State, managed: set<Release>, conflicting: set<Release>, kept: set<Release>)
    requires Enabled(st, Rebuild(managed, conflicting, kept))
    ensures Next(st, Rebuild(managed, conflicting, kept)).pass
            == Walking(Next(st, Rebuild(managed, conflicting, kept)).status, managed + conflicting, map[])
    ensures var after := Next(st, Rebuild(managed, conflicting, kept)).status;
            && after.Keys == managed + conflicting + kept
            && (forall r :: r in managed && r in st.pass.read ==> after[r] == st.pass.read[r].(release := r))
            && (forall r :: r in managed && r !in st.pass.read ==> after[r] == HelmChartSummary(r, false, "", ""))
            && (forall r :: r in conflicting ==> after[r] == HelmChartSummary(r, false, "", ""))
            && (forall r :: r in kept && r !in managed && r !in conflicting ==> after[r] == st.status[r])
  {
  }

  /** A group is confirmed, or given up, once: the next time takes another commit. */
  lemma {:induction false} ConfirmedOnce(st: State, steps: seq<Step>)
    requires !st.tracked && Run(st, steps) && Commit !in steps
    ensures !Enabled(Final(st, steps), Confirm) && !Enabled(Final(st, steps), Untrack)
    decreases |steps|
  {
    if steps != [] {
      assert !Next(st, steps[0]).tracked;
      ConfirmedOnce(Next(st, steps[0]), steps[1..]);
    }
  }

  lemma TrackingEnds(st: State, step: Step, steps: seq<Step>)
    requires (step == Confirm || step == Untrack) && Enabled(st, step)
    requires Run(Next(st, step), steps) && Commit !in steps
    ensures !Enabled(Final(Next(st, step), steps), Confirm) && !Enabled(Final(Next(st, step), steps), Untrack)
  {
    ConfirmedOnce(Next(st, step), steps);
  }

  ghost predicate AgentWork(steps: seq<Step>) {
    forall i :: 0 <= i < |steps| ==> steps[i].AgentApply? || steps[i].AgentFail?
  }

  /** The agent gets through what it has to do. */
  lemma {:induction false} AgentCanFinish(st: State) returns (work: seq<Step>)
    ensures Run(st, work) && AgentWork(work)
    ensures Final(st, work).pending == {} && Final(st, work).pass == st.pass
    ensures Final(st, work).tracked == st.tracked && Final(st, work).status == st.status
    decreases |st.pending|
  {
    work := [];
    if st.pending != {} {
      var r :| r in st.pending;
      var rest := AgentCanFinish(Next(st, AgentApply(r)));
      work := [AgentApply(r)] + rest;
      assert work[1..] == rest;
    }
  }

  /** The chart is recorded with this hash in the pass under way, or in the last one. */
  predicate Settling(st: State, r: Release, hash: Hash) {
    && r in st.status && st.status[r].release == r && !st.status[r].needsRedeploy
    && st.status[r].stagedContentHash == hash && hash != "" && !st.pass.Reading?
    && (st.pass.Walking? ==> r in st.pass.charts && r in st.pass.staging)
  }

  /** No drift is reported, and the next pass has to wait for the confirmation. */
  ghost predicate Unread(steps: seq<Step>) {
    forall i :: 0 <= i < |steps| ==> steps[i] != BeginPass && steps[i] != Confirm && !steps[i].ReportDrift?
  }

  lemma {:induction false} SettlingIsKept(st: State, steps: seq<Step>, r: Release, hash: Hash)
    requires Settling(st, r, hash) && Run(st, steps) && Unread(steps)
    ensures Settling(Final(st, steps), r, hash)
    decreases |steps|
  {
    if steps != [] {
      assert steps[0] != BeginPass && steps[0] != Confirm && !steps[0].ReportDrift?;
      assert forall i :: 0 <= i < |steps[1..]| ==> steps[1..][i] == steps[i + 1];
      assert Settling(Next(st, steps[0]), r, hash);
      SettlingIsKept(Next(st, steps[0]), steps[1..], r, hash);
    }
  }

  /** The status grants a skip for the hash, and so does whatever copy of it a pass has taken. */
  predicate Skippable(st: State, r: Release, hash: Hash) {
    && r in st.status && st.status[r].release == r && MaySkip(st.status[r], hash)
    && (st.pass.Reading? ==> r in st.pass.read && MaySkip(st.pass.read[r], hash))
    && (st.pass.Walking? ==> r in st.pass.charts && r in st.pass.view && MaySkip(st.pass.view[r], hash))
  }

  /** The profile goes on listing the chart with the same content, nothing forces it, and no drift is reported. */
  predicate KeepsChart(step: Step, r: Release, hash: Hash) {
    match step
    case Rebuild(managed, _, _) => r in managed
    case Stage(q, h, mustApply) => q == r ==> h == hash && !mustApply
    case StageUninstall(q) => q != r
    case ReportDrift(_) => false
    case _ => true
  }

  lemma {:induction false} SkippableIsKept(st: State, steps: seq<Step>, r: Release, hash: Hash)
    requires Skippable(st, r, hash) && Run(st, steps) && forall step :: step in steps ==> KeepsChart(step, r, hash)
    ensures Skippable(Final(st, steps), r, hash)
    decreases |steps|
  {
    if steps != [] {
      assert KeepsChart(steps[0], r, hash);
      assert Skippable(Next(st, steps[0]), r, hash);
      SkippableIsKept(Next(st, steps[0]), steps[1..], r, hash);
    }
  }

  /**
   Applied once, a chart is skipped from then on: whatever else happens until the confirmation and after it, as long as
   the chart is listed with this content and no drift is reported, every pass decides to skip it.
   */
  lemma AppliedChartIsSkipped(st: State, r: Release, hash: Hash, mustApply: bool, steps: seq<Step>, more: seq<Step>)
    requires Enabled(st, Stage(r, hash, mustApply)) && r in st.status && st.status[r].release == r
    requires Decide(st.pass.view, r, hash, mustApply) == Apply
    requires Run(Next(st, Stage(r, hash, mustApply)), steps) && Unread(steps)
    requires Enabled(Final(Next(st, Stage(r, hash, mustApply)), steps), Confirm)
    requires var confirmed := Next(Final(Next(st, Stage(r, hash, mustApply)), steps), Confirm);
             Run(confirmed, more) && forall step :: step in more ==> KeepsChart(step, r, hash)
    ensures var confirmed := Next(Final(Next(st, Stage(r, hash, mustApply)), steps), Confirm);
            var last := Final(confirmed, more);
            && Skippable(last, r, hash)
            && (last.pass.Walking? ==> Decide(last.pass.view, r, hash, false) == Skip)
  {
    AppliedChartIsRecorded(st, r, hash, mustApply);
    var staged := Next(st, Stage(r, hash, mustApply));
    SettlingIsKept(staged, steps, r, hash);
    SkippableIsKept(Next(Final(staged, steps), Confirm), more, r, hash);
  }

  // ----- Drift reported after the decision -----

  /** The flag is set, and nothing of the current pass can still clear it. */
  predicate FlagKept(st: State, r: Release) {
    && r in st.status && st.status[r].needsRedeploy
    && st.status[r].release == r
    && !st.pass.Reading?
    && (st.pass.Walking? ==> r in st.pass.charts && r in st.pass.staging && st.pass.staging[r].kind == Skip)
  }

  /** Drift reported for a chart already skipped in this pass is still recorded when the next pass reads the status. */
  lemma {:induction false} DriftAfterSkipSurvives(st: State, steps: seq<Step>, r: Release)
    requires FlagKept(st, r)
    requires Run(st, steps) && BeginPass !in steps
    ensures FlagKept(Final(st, steps), r)
    decreases |steps|
  {
    if steps != [] {
      assert FlagKept(Next(st, steps[0]), r);
      DriftAfterSkipSurvives(Next(st, steps[0]), steps[1..], r);
    }
  }

  /** A flag the handler reads forces the chart to be applied in that pass. */
  lemma FlagForcesApply(st: State, rebuild: Step, r: Release, hash: Hash, mustApply: bool)
    requires st.pass.Reading? && r in st.pass.read && st.pass.read[r].needsRedeploy
    requires rebuild.Rebuild? && Enabled(st, rebuild) && r in rebuild.managed
    ensures Decide(Next(st, rebuild).pass.view, r, hash, mustApply) == Apply
  {
  }

  /**
   The carry-forward rebuilds the entries of managed charts from what the handler read: a flag set in between
   survives exactly when the handler had read it too.
   */
  lemma FlagSurvivesRebuildIff(claim: Claim, st: State, rebuild: Step, r: Release)
    requires Inv(claim, st) && rebuild.Rebuild? && Enabled(st, rebuild)
    requires r in rebuild.managed && r in st.status && st.status[r].needsRedeploy
    ensures Next(st, rebuild).status[r].needsRedeploy <==> st.pass.read[r].needsRedeploy
  {
  }

  // ----- When an uninstall leaves a record behind -----

  predicate HasHash(t: HelmChartSummary) {
    t.stagedContentHash != "" || t.appliedContentHash != ""
  }

  lemma {:induction false} AgentRemoves(st: State, steps: seq<Step>, r: Release)
    requires Run(st, steps) && AgentWork(steps)
    requires r in st.group && st.group[r].kind == Uninstall && (r in st.pending || r !in st.agent)
    ensures var last := Final(st, steps);
            last.status == st.status && last.pass == st.pass && last.tracked == st.tracked
            && (r in last.pending || r !in last.agent)
    decreases |steps|
  {
    if steps != [] {
      assert steps[0].AgentApply? || steps[0].AgentFail?;
      assert forall i :: 0 <= i < |steps[1..]| ==> steps[1..][i] == steps[i + 1];
      AgentRemoves(Next(st, steps[0]), steps[1..], r);
    }
  }

  /**
   An uninstall is staged and committed, the agent processes the group and the group is confirmed: the release
   is gone, and its entry grants a skip for some content exactly when a hash was recorded before.
   */
  lemma UninstallLeavesSkipIff(st: State, r: Release, work: seq<Step>)
    requires Enabled(st, StageUninstall(r)) && r in st.status
    requires var staged := Next(st, StageUninstall(r));
             && Enabled(staged, Commit)
             && var committed := Next(staged, Commit);
                Run(committed, work) && AgentWork(work) && Final(committed, work).pending == {}
    ensures var done := Final(Next(Next(st, StageUninstall(r)), Commit), work);
            && Enabled(done, Confirm)
            && r !in Next(done, Confirm).agent
            && r in Next(done, Confirm).status
            && ((exists h :: MaySkip(Next(done, Confirm).status[r], h)) <==> HasHash(st.status[r]))
  {
    var committed := Next(Next(st, StageUninstall(r)), Commit);
    assert committed.group[r].kind == Uninstall && r in committed.pending;
    AgentRemoves(committed, work, r);
    var last := Next(Final(committed, work), Confirm).status[r];
    assert SameHashes(committed.status[r], st.status[r]);
    if HasHash(st.status[r]) {
      assert MaySkip(last, last.appliedContentHash);
    }
  }

  // ----- Where the code grants a skip without proof -----

  ghost predicate WrongSkip(steps: seq<Step>, r: Release, hash: Hash) {
    && Run(INIT, steps)
    && var st := Final(INIT, steps);
       st.pass.Walking? && Decide(st.pass.view, r, hash, false) == Skip
       && !InPlace(st, r, hash)
  }

  /** A chart deployed and confirmed: its record grants skips. */
  function Provisioned(r: Release, hash: Hash): State {
    State(map[r := HelmChartSummary(r, false, "", hash)], Idle, map[r := Bundle(hash, Apply)], {}, false,
          map[r := hash], {})
  }

  lemma DeployAndConfirm(r: Release, hash: Hash) returns (steps: seq<Step>)
    requires hash != ""
    ensures Run(INIT, steps) && Final(INIT, steps) == Provisioned(r, hash)
  {
    steps := [];
    Extend(INIT, steps, BeginPass);
    steps := steps + [BeginPass];
    Extend(INIT, steps, Rebuild({r}, {}, {}));
    steps := steps + [Rebuild({r}, {}, {})];
    Extend(INIT, steps, Stage(r, hash, false));
    steps := steps + [Stage(r, hash, false)];
    assert Final(INIT, steps).pass.staging == map[r := Bundle(hash, Apply)];
    Extend(INIT, steps, Commit);
    steps := steps + [Commit];
    assert Final(INIT, steps).pending == {r};
    Extend(INIT, steps, AgentApply(r));
    steps := steps + [AgentApply(r)];
    assert Final(INIT, steps).agent == map[r := hash];
    Extend(INIT, steps, Confirm);
    steps := steps + [Confirm];
  }

  /** The next pass decides on the status the last steps left, when nothing happens in between. */
  lemma NextPass(st: State, steps: seq<Step>, r: Release) returns (all: seq<Step>)
    requires Run(st, steps) && Final(st, steps).pass.Idle? && r in Final(st, steps).status
    ensures Run(st, all) && Final(st, all).pass.Walking?
    ensures var last, next := Final(st, steps), Final(st, all);
            && next.pass.charts == {r} && next.pass.staging == map[] && next.status == next.pass.view
            && next.pass.view == map[r := last.status[r].(release := r)]
            && next == last.(status := next.status, pass := next.pass)
  {
    Extend(st, steps, BeginPass);
    Extend(st, steps + [BeginPass], Rebuild({r}, {}, {}));
    all := steps + [BeginPass] + [Rebuild({r}, {}, {})];
  }

  /**
   Deploy a chart, switch its action to uninstall, switch it back: the record of the first deployment is
   still there, and the chart is skipped although the agent removed it.
   */
  lemma ReinstallIsSkipped(r: Release, hash: Hash) returns (steps: seq<Step>)
    requires hash != ""
    ensures WrongSkip(steps, r, hash)
  {
    steps := DeployAndConfirm(r, hash);
    steps := NextPass(INIT, steps, r);
    Extend(INIT, steps, StageUninstall(r));
    steps := steps + [StageUninstall(r)];
    assert Final(INIT, steps).pass.staging == map[r := Bundle("", Uninstall)];
    Extend(INIT, steps, Commit);
    steps := steps + [Commit];
    assert r in Final(INIT, steps).pending;
    Extend(INIT, steps, AgentApply(r));
    steps := steps + [AgentApply(r)];
    assert Final(INIT, steps).pass.Idle? && r in Final(INIT, steps).status;
    steps := NextPass(INIT, steps, r);
  }

  /** An older content is committed, and the next pass records the hash of a newer one but is discarded. */
  lemma CommitThenDiscard(r: Release, older: Hash, newer: Hash) returns (steps: seq<Step>)
    requires older != "" && newer != "" && older != newer
    ensures Run(INIT, steps)
    ensures var st := Final(INIT, steps);
            && st.pass == Idle && st.tracked && st.pending == {r} && st.agent == map[] && st.drifted == {}
            && st.group == map[r := Bundle(older, Apply)]
            && st.status == map[r := HelmChartSummary(r, false, newer, "")]
  {
    steps := [];
    Extend(INIT, steps, BeginPass);
    steps := steps + [BeginPass];
    Extend(INIT, steps, Rebuild({r}, {}, {}));
    steps := steps + [Rebuild({r}, {}, {})];
    Extend(INIT, steps, Stage(r, older, false));
    steps := steps + [Stage(r, older, false)];
    Extend(INIT, steps, Commit);
    steps := steps + [Commit];
    assert Final(INIT, steps).pending == {r} && r in Final(INIT, steps).status;
    steps := NextPass(INIT, steps, r);
    Extend(INIT, steps, Stage(r, newer, false));
    steps := steps + [Stage(r, newer, false)];
    Extend(INIT, steps, Discard);
    steps := steps + [Discard];
  }

  /**
   A pass records the hash of new content, then another chart fails and everything staged is discarded.
   A report on the older group then confirms content that the agent never saw.
   */
  lemma DiscardedHashIsConfirmed(r: Release, older: Hash, newer: Hash) returns (steps: seq<Step>)
    requires older != "" && newer != "" && older != newer
    ensures WrongSkip(steps, r, newer)
  {
    steps := CommitThenDiscard(r, older, newer);
    Extend(INIT, steps, AgentApply(r));
    steps := steps + [AgentApply(r)];
    Extend(INIT, steps, Confirm);
    steps := steps + [Confirm];
    assert Final(INIT, steps).agent[r] == older && Final(INIT, steps).status[r].appliedContentHash == newer;
    steps := NextPass(INIT, steps, r);
  }

  /** Drift reported between the read of the handler and the rebuild is overwritten by the carry-forward. */
  lemma DriftDuringRebuildIsLost(r: Release, hash: Hash) returns (steps: seq<Step>)
    requires hash != ""
    ensures WrongSkip(steps, r, hash)
  {
    steps := DeployAndConfirm(r, hash);
    Extend(INIT, steps, BeginPass);
    steps := steps + [BeginPass];
    Extend(INIT, steps, ReportDrift({r}));
    steps := steps + [ReportDrift({r})];
    Extend(INIT, steps, Rebuild({r}, {}, {}));
    steps := steps + [Rebuild({r}, {}, {})];
  }
}
