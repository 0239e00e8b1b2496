# Models of the Sveltos addon controller

The addon controller deploys Helm charts, Kustomize content and plain resources to many clusters, on behalf of
ClusterProfiles and Profiles. For each matching cluster there is a ClusterSummary. Several ClusterSummaries may want the
same Helm release, deployments happen asynchronously or through an agent in the cluster, and everything may be
reconsidered, requeued or deleted at any time. The modules here state what the controllers have to keep through all of
that, and prove it; where the code does not keep it, the exact condition under which it does is proved, with an example
that violates it.

| file | what it models |
|---|---|
| `HelmApplyTracking.dfy` | when the agent of a pull-mode cluster may skip a chart |
| `ContentHash.dfy` | what the hash of a staged chart stands for |
| `ChartManager.dfy` | the registrants of a Helm release |
| `ChartOwnership.dfy` | who may act on a release, and how it changes hands |
| `ChartRestart.dfy` | who manages a release after the controller restarts |
| `ChartUninstall.dfy` | when the delete path may uninstall a release |
| `Deployer.dfy` | what is relied on from the asynchronous deployer |
| `FeatureDeployment.dfy` | one reconciliation that deploys a feature |
| `DeploymentPhases.dfy` | deployments and cleanups of a feature never meet |
| `DeploymentAttempts.dfy` | how often a feature is attempted for one configuration |
| `RequeueSafety.dfy` | a requeued feature is deployed again before it is Provisioned |
| `DeploymentProgress.dfy` | a feature whose deployments succeed is Provisioned in the end |
| `FeatureRemoval.dfy`, `Finalizer.dfy` | removal of a feature, and of the finalizer of a ClusterSummary |
| `RemovalProgress.dfy` | a feature whose cleanups succeed is Removed in the end, and then the finalizer leaves |
| `Dependencies.dfy`, `Transition.dfy` | DependsOn in both directions, and TransitionFrom on the delete path |
| `ValuesHash.dfy` | whether a change of Helm values can be lost |
| `Watchers.dfy` | the shared watchers of the management cluster |
| `ClusterIndex.dfy` | the indexes from clusters to profiles and sets |
| `HelmBundles.dfy` | splitting a chart into ordered bundles |
| `Semver.dfy` | the newest version of a chart |
| `LuaQuote.dfy` | the rendered Lua script |
| `OutdatedCharts.dfy` | the gauge of outdated charts |
| `Cooldown.dfy` | the time between two reconciliations |
| `Common.dfy`, `Labels.dfy`, `Sorting.dfy`, `Texts.dfy` | shared definitions |

The usual shape is this. A function on values says what an operation does; the class method or loop that does it in
place, as in the controllers, is proved equal to that function; a state machine takes these functions as its steps, with
everything that may run in between; and the lemmas speak about all its runs. What a single step does is also said in terms
of the fields alone, without these functions, and next to what can never happen it is proved what happens in the end.

## Assumptions

- The deployer of libsveltos and the pull-mode package are contracts: `Deployer` holds a queue, at most one running job
  and at most one unread result per kind of request, reading a result consumes it, a request that is waiting is not
  queued twice, and results are handed out before progress is. `IsInProgress` counts running jobs only.
- A report that a ConfigurationGroup is provisioned refers to the group committed last, and is only acted upon when no
  pass of the Helm handler is under way. A release is listed at most once in a profile. `GetRemoveStatus` answers with a
  status only for a group with action Remove.
- A claim that takes a release over (check that the manager is not deploying, requeue it, become the manager) is one
  step. Reconciliations of one ClusterSummary do not overlap.
- Hashes do not collide. Time is an integer. Reads of the API server, template instantiation and version parsing are
  parameters.

## What turned out to be conditional

- A chart that is uninstalled through the agent keeps its applied hash, so that a later reinstall of the same content is
  skipped. A pass that is discarded leaves its staged hashes behind, and a report on the older group confirms them. Drift
  reported between the read of the handler and the rebuild of the status is overwritten. `HelmApplyTracking.Careful` has the
  exact conditions, in two strengths: for runs in which every confirmed hash is true, and for runs in which no skip is
  granted without proof.
- The in-progress check of a takeover looks at deploys only: a release may change hands while its manager uninstalls it.
- A manager that yields goes through all challengers and ends with the last one listed, which need not have the lowest
  tier. Comments speak of the next registrant in line; removal moves the last one to the front.
- A takeover removes the status entry of the manager before it asks whether the manager may be requeued. If that is
  refused, a restart forgets the manager until it writes its status again.
- Two profiles that name each other in TransitionFrom never settle.
- The delete path counts registrants before it waits for other profiles. One that registers in between loses its release.
  The count of a profile comes out right too early exactly if stale registrations make up for the missing ones, and charts
  that repeat a release keep it from coming out right. A Profile of another namespace whose selector matches the cluster
  is waited for though it never gets a ClusterSummary there.
- A pass that cannot compute the hash of the configuration stores none. The next one takes the configuration for changed
  and forgets the failures, so that a feature that was given up is attempted all over again.
- In pull mode the failure count is compared with the maximum before the failure is added, which allows one attempt more
  than in push mode. A maximum of zero still allows one attempt.
- The in-progress check of a requeue looks at the deployer only. In pull mode the agent may still report on a group that
  was committed before, and the feature is Provisioned on that report once the stored hash is that of the group again. A
  success that a reconciliation is about to write is not seen in either mode.
- A removed feature has no hash. In pull mode, a configuration without one then looks unchanged, and for a report that is
  neither of a deployment nor of a failure a job is queued while the status stays Removed.
- The gate on dependents compares names across kinds, the gate on prerequisites does not.
- Dropping the last PolicyRef of a kind deletes the KustomizationRef requestors of that kind (line 713 of
  `controllers/clustersummary_watchers.go`).
- The comment above `splitResources` puts pre-delete hooks before CRDs and does not name rollbacks, tests or resources
  with a delete policy; the order modelled is the one of the code.
- Values changed back during a deployment, and values that only drop keys while no hash is stored, are not deployed, and
  stay so until something else changes. With contents that do not come back, the adoption is the only such case.
- A higher generation ends a cooldown only as long as the controller was not restarted. A deletion is skipped once more
  if no more than ten seconds have passed by the end of the wait.

## Model

| member | source | states |
|---|---|---|
| HelmApplyTracking.GetHelmChartSummary | controllers/helm_apply_tracking.go:144-155 | the first entry of the release, or none |
| HelmApplyTracking.ShouldSkipApply | controllers/helm_apply_tracking.go:127-140 | a skip is granted exactly if the first entry of the release is not flagged, has nothing staged, and its applied hash is the one asked for |
| HelmApplyTracking.RecordHelmChartApply | controllers/helm_apply_tracking.go:164-174 | a skipped chart keeps its entry; any other deploy clears the drift flag and records what was staged; no other entry changes |
| HelmApplyTracking.ConfirmAppliedHelmCharts | controllers/helm_apply_tracking.go:178-210 | everything staged becomes applied, and the status is written exactly if something changed |
| HelmApplyTracking.MarkDriftedHelmCharts | controllers/resourcesummary_collection.go:808-841 | the reported charts are flagged, or all of them when none is known |
| HelmApplyTracking.StepKeepsClaimIff | controllers/handlers_helm.go:1172-1276 | for two claims (every confirmed hash is true; every granted skip is proven): where the claim holds, it holds after a step of a pass, the agent, drift or the confirmation exactly if the step is careful |
| HelmApplyTracking.RecordsAreTruthfulIff | controllers/helm_apply_tracking.go:37-52 | over all runs, the confirmed hashes are what the agent applied last, with nothing under way and no drift unflagged, at every state exactly if every step is careful |
| HelmApplyTracking.SkipNeedsProofIff | controllers/helm_apply_tracking.go:37-52 | over all runs, no skip is ever granted unless the agent applied exactly that content last, nothing is under way and no drift is unrepaired, exactly if every step is careful in the weaker sense |
| HelmApplyTracking.TruthfulRunsAreCareful | controllers/helm_apply_tracking.go:37-52 | what is careful in the stronger sense is so in the weaker one |
| HelmApplyTracking.SkipNeedsProof | controllers/helm_apply_tracking.go:37-52 | the same for one chart at the end of such a run |
| HelmApplyTracking.GrantWithoutProofSkips | controllers/helm_apply_tracking.go:125-140 | and a record that grants a skip without that makes the next pass skip the chart |
| HelmApplyTracking.SkippedBundleIsInPlace | controllers/helm_apply_tracking.go:127-140 | the same for the decision that a pass takes on the copy it holds; drift reported since the copy was taken is flagged in the status |
| HelmApplyTracking.UndisturbedPassIsConfirmed | controllers/helm_apply_tracking.go:176-210 | a pass that commits charts to apply is confirmed truthfully, whatever the agent does and drifts in between |
| HelmApplyTracking.AppliedChartIsRecorded | controllers/helm_apply_tracking.go:157-174 | a chart staged to be applied loses its drift flag and is recorded with its hash, so that its confirmation may be skipped; no other entry changes |
| HelmApplyTracking.DeployRepairsDrift | controllers/helm_apply_tracking.go:157-174 | a deploy with no hash to record clears the flag and leaves the hashes alone |
| HelmApplyTracking.AppliedChartIsSkipped | controllers/helm_apply_tracking.go:37-52 | in every run: staged to be applied, with no drift reported until the group is confirmed, the chart is skipped by every later pass as long as it is listed with the same content, nothing forces it and no drift is reported |
| HelmApplyTracking.AgentCanFinish | controllers/helm_apply_tracking.go:37-52 | the agent can get through whatever it has to do, which leaves the confirmation enabled |
| HelmApplyTracking.ConfirmedOnce | controllers/handlers_helm.go:1211-1223 | a group that was confirmed, or given up, is not confirmed again without another commit |
| HelmApplyTracking.DriftElsewhereIsIgnored | controllers/resourcesummary_collection.go:808-841 | a report that names known charts leaves the others alone |
| HelmApplyTracking.RebuildCarriesForward | controllers/handlers_helm.go:3565-3587 | the rebuilt status lists exactly these charts: managed ones with what the handler had read, conflicting ones blank, kept ones as they were |
| HelmApplyTracking.DriftAfterSkipSurvives | controllers/helm_apply_tracking.go:157-174 | drift reported after a chart was skipped in a pass is still recorded when the next pass begins, in every run |
| HelmApplyTracking.FlagForcesApply | controllers/helm_apply_tracking.go:127-140 | a flag that the handler reads forces the chart to be applied |
| HelmApplyTracking.FlagSurvivesRebuildIff | controllers/handlers_helm.go:3565-3587 | the rebuild of the status keeps a flag exactly if the earlier read of the handler had it |
| HelmApplyTracking.ConfirmIsTrueIff | controllers/helm_apply_tracking.go:176-210 | a confirmation leaves the truth exactly if the staged hashes are those of the committed group and no drift has lost its flag |
| HelmApplyTracking.UninstallLeavesSkipIff | controllers/helm_apply_tracking.go:116-123 | after an uninstall through the agent, some content would be skipped exactly if a hash was recorded before |
| HelmApplyTracking.ReinstallIsSkipped | controllers/helm_apply_tracking.go:116-140 | deploy, uninstall, reinstall: the reinstall is skipped |
| HelmApplyTracking.DiscardedHashIsConfirmed | controllers/handlers_helm.go:1211-1223 | a pass is discarded on an error after it recorded a hash, and a report on the older group confirms that hash |
| HelmApplyTracking.DriftDuringRebuildIsLost | controllers/handlers_helm.go:3565-3587 | drift reported between the read of the handler and the rebuild is overwritten |
| ContentHash.GetResourcesHash | controllers/helm_apply_tracking.go:95-112 | the hash over the sorted hashes of the resources |
| ContentHash.SortedTextMatchesIff | controllers/helm_apply_tracking.go:94-112 | without collisions, the hashed text is the same exactly if the resources are, whatever their order |
| ContentHash.ApplyHashMatchesIff | controllers/helm_apply_tracking.go:54-92 | two charts have one apply hash exactly if resources, tier, timeout, namespace setting and version agree |
| ChartManager.ChartManager.RegisterClusterSummaryForCharts | controllers/chartmanager/chartmanager.go:126-149 | the ClusterSummary is registered once for every listed chart, behind those already there |
| ChartManager.ChartManager.SetManagerForChart | controllers/chartmanager/chartmanager.go:206-232 | the ClusterSummary becomes the first registrant, without being listed twice |
| ChartManager.ChartManager.UnregisterClusterSummaryForChart | controllers/chartmanager/chartmanager.go:235-258 | the entry is replaced by the last one |
| ChartManager.ChartManager.CleanRegistrations | controllers/chartmanager/chartmanager.go:281-313 | every release not referenced any more loses the ClusterSummary, the others keep theirs |
| ChartManager.ChartManager.GetRegisteredClusterSummariesForChart | controllers/chartmanager/chartmanager.go:396-405 | the registrants in order |
| ChartManager.ChartManager.GetRegisteredChartsCount | controllers/chartmanager/chartmanager.go:335-353 | the number of releases the ClusterSummary is registered for |
| ChartManager.ChartManager.CanManageChart | controllers/chartmanager/chartmanager.go:409-425 | only the first registrant can, and anybody if there is none |
| ChartManager.ChartManager.GetManagerForChart | controllers/chartmanager/chartmanager.go:430-455 | the one that can manage the chart, or none |
| ChartManager.RemovedMembers | controllers/chartmanager/chartmanager.go:315-328 | removal takes out the registrant and nobody else, and keeps the list free of repetitions |
| ChartManager.LastRegistrantTakesOver | controllers/chartmanager/chartmanager.go:234-258 | when the manager leaves, the last registrant manages; that is the next in line exactly if there were two |
| ChartManager.RemoveInPlace | controllers/chartmanager/chartmanager.go:315-328 | removal on the shared array, as a caller that kept the slice sees it |
| ChartManager.KeptSliceNamesOthers | controllers/handlers_helm.go:711-733 | the kept slice names every other registrant, and not the leaver exactly if it was not the last |
| ChartOwnership.ClaimChart | controllers/handlers_helm.go:1572-1628 | the answer to a claim and the registrants after it: the manager, a lower tier, or a declared successor, unless the manager is deploying |
| ChartOwnership.ManagerIsGranted | controllers/handlers_helm.go:1583-1627 | the manager keeps the release, and the first to come gets it |
| ChartOwnership.LowerTierIsGranted | controllers/handlers_helm.go:1602-1622 | a claimant of a strictly lower tier becomes the manager, is refused while the manager deploys, and in DryRun may go on with nothing moved |
| ChartOwnership.SuccessorIsGranted | controllers/clustersummary_transition.go:95-120 | so does a claimant of the same kind that names the profile of the manager in its TransitionFrom, whatever the tiers |
| ChartOwnership.OthersAreDenied | controllers/handlers_helm.go:1602-1624 | any other claimant is denied and nothing moves |
| ChartOwnership.RequeueLowerTierChallengers | controllers/handlers_helm.go:5574-5617 | the registrants are walked and each challenger becomes the manager in turn; whether there was one; other releases keep theirs |
| ChartOwnership.YieldGoesToAChallenger | controllers/handlers_helm.go:5569-5617 | the walk over the challengers keeps the registrants and ends with the last challenger of a strictly lower tier |
| ChartOwnership.LastOfLowerTierGetsIt | controllers/handlers_helm.go:5595-5613 | a manager that yields loses the release to the last registrant that is of a strictly lower tier and not deploying |
| ChartOwnership.NobodyOfLowerTierGetsIt | controllers/handlers_helm.go:5595-5613 | without one nothing changes |
| ChartOwnership.StepKeepsListed | controllers/handlers_helm.go:1572-1628 | registrants stay distinct and nobody drops out but the one that leaves |
| ChartOwnership.StepKeepsExclusionIff | controllers/conflicts.go:41-58 | a step breaks the exclusion exactly if it takes over from a cleanup in action, or acts without registration |
| ChartOwnership.DeployingManagerIsSafe | controllers/conflicts.go:41-58 | a manager that deploys keeps the release unless it leaves by itself, and claims that would win fail |
| ChartOwnership.OneManagerPerReleaseIff | controllers/handlers_helm.go:1572-1628 | over all runs of deployments and cleanups: at most one ClusterSummary at a time acts on the release, and it is the manager, exactly if no step takes over from a cleanup in action or acts without registration |
| ChartOwnership.OneManagerPerRelease | controllers/conflicts.go:41-58 | in every run of deployments, however interleaved, this is the case |
| ChartOwnership.CleanupIsNotProtected | controllers/conflicts.go:41-43 | a takeover during an uninstall lets two ClusterSummaries act at once |
| ChartOwnership.YieldMissesTheLowestTier | controllers/handlers_helm.go:5584-5613 | with two challengers the manager yields to the later one, not to the lower tier |
| ChartOwnership.TakeoverIsWon | controllers/handlers_helm.go:1596-1621 | a takeover goes to a strictly lower tier or to a declared successor, and the old manager was not deploying |
| ChartOwnership.TakeoversAreBoundedIff | controllers/handlers_helm.go:1572-1628 | takeovers are bounded over all runs exactly if no group of claimants keeps losing to itself; then there is one per claimant at most for every time that somebody leaves, and once more |
| ChartOwnership.TiersAloneSettle | controllers/handlers_helm.go:1596-1597 | without TransitionFrom this bound holds whatever the tiers |
| ChartOwnership.MutualTransitionNeverSettles | controllers/clustersummary_transition.go:100-120 | two profiles of one kind that name each other take the release from each other without bound |
| ChartOwnership.SettledManagerIsMinimal | controllers/handlers_helm.go:1572-1628 | a manager nobody took over from has minimal tier among those that asked while it could be requeued |
| ChartRestart.AddRegistrations | controllers/chartmanager/chartmanager.go:683-716 | the ClusterSummary is registered for exactly the releases of its entries of one sort |
| ChartRestart.RebuildRegistrations | controllers/chartmanager/chartmanager.go:626-650 | the registrants of every release after a restart |
| ChartRestart.ResetHelmReleaseSummaries | controllers/handlers_helm.go:1630-1650 | exactly the entry of the release goes |
| ChartRestart.RebuiltMembers | controllers/chartmanager/chartmanager.go:623-650 | a restart registers exactly the ClusterSummaries with an entry, each once |
| ChartRestart.RestartManagerIff | controllers/chartmanager/chartmanager.go:623-650 | after a restart the first one listed as Managing manages, or the first with any entry if there is none, and nobody else |
| ChartRestart.FirstListedManages | controllers/chartmanager/chartmanager.go:623-716 | the same by the entries alone: the first one listed as Managing manages, or with nobody listed so the first one listed otherwise |
| ChartRestart.UnlistedIsForgotten | controllers/chartmanager/chartmanager.go:623-716 | whoever has no entry for the release is not registered for it |
| ChartRestart.RestartKeepsManager | controllers/handlers_helm.go:1602-1604 | a manager whose entry alone says Managing is the manager again |
| ChartRestart.RefusedTakeoverIsForgotten | controllers/handlers_helm.go:1602-1615 | a takeover that is refused after the entry was removed: a restart gives the release to the first of the others |
| ChartUninstall.IsProfileProcessed | controllers/handlers_helm.go:827-887 | a profile is waited for exactly if it is eligible and its registrations are not complete |
| ChartUninstall.AllMatchingProfilesProcessed | controllers/handlers_helm.go:759-825 | true exactly if the cluster is gone or leaving, or every eligible profile is processed |
| ChartUninstall.CanUninstallHelmChart | controllers/handlers_helm.go:697-748 | the verdict of the delete path and the registrants it leaves |
| ChartUninstall.CountReachedIff | controllers/handlers_helm.go:910-948 | the count of registrations is reached exactly if the stale ones make up for the missing ones and for charts that repeat a release |
| ChartUninstall.EligibleUninstallIff | controllers/handlers_helm.go:827-887 | for any registrations, and any profile that is waited for: the release is uninstalled exactly if nobody else is registered, every other profile is done, and the stale registrations of this one make up for what is missing and repeated |
| ChartUninstall.UninstallIff | controllers/handlers_helm.go:697-748 | a release is uninstalled exactly if nobody else is registered and every eligible profile is processed |
| ChartUninstall.PassedOverMakesNoDifference | controllers/handlers_helm.go:827-887 | a profile that is being deleted, has no charts, was created after the deletion, is the leaving one, is a ClusterProfile in DryRun, or does not match the cluster by selector or by name makes no difference to the verdict or the registrants, wherever it is listed |
| ChartUninstall.OthersAreWaitedForIff | controllers/handlers_helm.go:910-948 | any other profile turns the verdict into a wait exactly if it has no ClusterSummary, or one that is not paused and has too few registrations |
| ChartUninstall.VerdictIs | controllers/handlers_helm.go:697-748 | which verdict goes with which answer about the manager and with which registrants |
| ChartUninstall.UninstalledThoughWantedIff | controllers/handlers_helm.go:711-745 | an uninstalled release is still wanted exactly if a profile that wants it registered between the two reads, or was overlooked because of stale registrations |
| ChartUninstall.WantedReleaseIsKeptIff | controllers/handlers_helm.go:691-696 | with both reads in one step, a wanted release is kept exactly if another profile is not done or the wanting one has too few stale registrations |
| ChartUninstall.WantedReleaseIsKept | controllers/handlers_helm.go:691-696 | in particular it is never uninstalled while the wanting profile has no stale registration |
| ChartUninstall.HandOverToLast | controllers/handlers_helm.go:714-733 | otherwise the leaver unregisters, everybody else stays, and the last one manages |
| ChartUninstall.DuplicateChartsBlockIff | controllers/handlers_helm.go:910-948 | a profile with several charts for one release is done exactly if it has a stale registration for every repetition; without one it blocks every uninstall on its clusters |
| ChartUninstall.ForeignProfileBlocks | controllers/handlers_helm.go:807-823 | a Profile of another namespace with a matching selector blocks every uninstall on the cluster |
| ChartUninstall.ArrivalBetweenReads | controllers/handlers_helm.go:711-745 | a profile that registers between the two reads loses its release |
| ChartUninstall.StaleRegistrationFoolsTheCount | controllers/handlers_helm.go:947 | a registration for a dropped chart makes up for a missing one, and a wanted release is uninstalled |
| FeatureDeployment.Scope.SetFeatureStatus | pkg/scope/clustersummary.go:104-142 | status, hash and failure count of the feature; no other feature changes |
| FeatureDeployment.Scope.ResetConsecutiveFailures | pkg/scope/clustersummary.go:145-152 | the failure count of the feature is zero; no other feature changes |
| FeatureDeployment.Scope.UpdateFeatureStatus | controllers/clustersummary_deployer.go:914-983 | which statuses count as failures, as successes, or leave the count |
| FeatureDeployment.DeployFeature | controllers/clustersummary_deployer.go:76-134 | the pass over one feature: new status, deployer queues, and whether a request was queued |
| FeatureDeployment.ProceedDeployingFeature | controllers/clustersummary_deployer.go:136-240 | what each deployer result leads to |
| FeatureDeployment.HandleDeployerError | controllers/clustersummary_deployer.go:242-295 | which errors end the attempts and which pace them |
| FeatureDeployment.ProceedDeployingFeatureInPullMode | controllers/clustersummary_deployer.go:346-439 | what each report of the agent leads to |
| FeatureDeployment.RequeueClusterSummary | controllers/conflicts.go:34-85 | refused exactly while a deploy job runs; otherwise the unread result is dropped and the status is Provisioning without a hash |
| DeploymentProgress.ChangedConfigurationIsQueued | controllers/clustersummary_deployer.go:1006-1036 | whatever the status was, a pass with another hash than the stored one queues a job for it, and the feature is Provisioning with that hash and no failures |
| DeploymentProgress.FinishedFeatureIsLeft | controllers/clustersummary_deployer.go:1006-1036 | with the stored hash, a feature that is Provisioned or given up is left alone outside of DryRun |
| DeploymentProgress.UnfinishedFeatureIsQueued | controllers/clustersummary_deployer.go:76-134 | with the stored hash and no job, any other feature is queued |
| DeploymentProgress.SuccessIsProvisioned | controllers/clustersummary_deployer.go:136-240 | the success of a job makes the feature Provisioned with no failures |
| DeploymentProgress.FailureIsHandled | controllers/clustersummary_deployer.go:242-295 | which status a failed job leads to and whether it is tried again at once, by the error and the number of failures |
| DeploymentProgress.FailuresAreCounted | controllers/clustersummary_deployer.go:914-983 | successes clear the count, failures add one to it, other statuses and DryRun leave it |
| DeploymentProgress.FeatureIsProvisionedInTheEnd | controllers/clustersummary_deployer.go:76-240 | in every run whose jobs succeed and in which two passes find the workers done, a feature that is not given up becomes Provisioned with the current hash, whatever status and configuration it had |
| DeploymentProgress.ReportIsTaken | controllers/clustersummary_deployer.go:346-439 | what each report of the agent on the current configuration leads to |
| DeploymentProgress.PulledFeatureIsProvisionedInTheEnd | controllers/clustersummary_deployer.go:136-439 | the same in pull mode, in every run in which two passes find the workers and the agent done |
| DeploymentPhases.DeployAndCleanupNeverMeet | controllers/clustersummary_deployer.go:88-99 | no deploy and cleanup of a feature are both queued or running, with worker steps anywhere between purge, check and request |
| DeploymentPhases.DeployPassFollowsThePhases | controllers/clustersummary_deployer.go:76-134 | a deploying pass is a run of these phases |
| DeploymentPhases.UndeployPassFollowsThePhases | controllers/clustersummary_deployer.go:464-607 | so is a pass that removes the feature |
| DeploymentAttempts.StepKeepsCounted | controllers/clustersummary_deployer.go:136-295 | requests that are not counted as failures are at most one, whatever the hash and however jobs end; a failed hash read allows for max more |
| DeploymentAttempts.AttemptsAreBounded | controllers/clustersummary_deployer.go:76-240 | in every run for one configuration: at most max requests (one if max is zero), as many again for every pass that cannot compute the hash, and one more for every conflict resolved in time |
| DeploymentAttempts.AttemptsWithoutHashErrors | controllers/clustersummary_deployer.go:188-207 | without those at most max |
| DeploymentAttempts.GivenUpEndsIff | controllers/clustersummary_deployer.go:101-116 | a feature that was given up is taken up again exactly by a pass that cannot compute the hash |
| DeploymentAttempts.GivenUpStays | controllers/clustersummary_deployer.go:76-134 | until then it stays as it is, with no further request |
| DeploymentAttempts.FailedReadRevivesFeature | controllers/clustersummary_deployer.go:101-118 | one failed read makes it be attempted again with nothing changed |
| DeploymentAttempts.LimitIsReached | controllers/clustersummary_deployer.go:242-295 | the bound is met for every max and every number of failed hash reads |
| DeploymentAttempts.PullModeAttemptsAreBounded | controllers/clustersummary_deployer.go:346-439 | in pull mode: at most max + 1 requests, as many again for every failed hash read, and one more for every conflict resolved in time and every pass that finds no usable report or not even the content that waits for one |
| DeploymentAttempts.BlindPassDeploysAgain | controllers/clustersummary_deployer.go:346-439 | a pass that finds no usable report, or not the content that waits for one, does request another deployment and counts no failure |
| DeploymentAttempts.PullModeTakesOneMore | controllers/clustersummary_deployer.go:398-407 | the extra request does occur, for every max |
| RequeueSafety.FenceHolds | controllers/clustersummary_deployer.go:136-439 | after a quiet reset, Provisioned never goes back to a job from before it, in every run, in push mode and in pull mode |
| RequeueSafety.UnquietResetGoesStale | controllers/conflicts.go:41-84 | whatever the reset did not find quiet, with any reconciliation half way through, some run ends in a stale success |
| RequeueSafety.ResetIsSafeIff | controllers/conflicts.go:41-84 | no run goes stale exactly if the reset finds no job running, nothing that can still report a success (in push mode an unread result, in pull mode a group), and no success about to be written |
| RequeueSafety.RequeueIsSafeIff | controllers/conflicts.go:34-85 | with the check and the reset in one step: exactly if no success is about to be written and, in pull mode, the agent has no group |
| RequeueSafety.RequeueLeavesNoStaleSuccess | controllers/conflicts.go:34-85 | in push mode with no reconciliation half way through it always is |
| FeatureRemoval.UndeployFeature | controllers/clustersummary_deployer.go:464-514 | the pass that removes one feature: new status, deployer queues, and whether it is done |
| FeatureRemoval.ProcessUndeployResult | controllers/clustersummary_deployer.go:516-607 | what each cleanup result leads to |
| FeatureRemoval.ProcessUndeployResultInPullMode | controllers/clustersummary_deployer.go:652-719 | what each answer about the removal group leads to |
| RemovalProgress.RemovalIsQueued | controllers/clustersummary_deployer.go:464-514 | a feature that is not Removed and has no cleanup is queued for one as soon as no deployment runs |
| RemovalProgress.CleanedUpIsRemoved | controllers/clustersummary_deployer.go:516-607 | the success of a cleanup makes the feature Removed in push mode |
| RemovalProgress.FailedCleanupIsRetriedIff | controllers/clustersummary_deployer.go:516-607 | a failed cleanup is queued again exactly for a failing health check and for an error of no special kind, and ends the removal exactly if it is forbidden; the status by the error |
| RemovalProgress.AgentAnswers | controllers/clustersummary_deployer.go:652-719 | the status, the queue and the end of the removal for each answer of the agent |
| RemovalProgress.FeatureIsRemovedInTheEnd | controllers/clustersummary_deployer.go:464-719 | in every run whose cleanups succeed, with nothing deployed or overwritten and two passes that find the workers and the agent done, the feature becomes Removed, in push mode and in pull mode |
| FeatureRemoval.StepKeepsInvIff | controllers/clustersummary_deployer.go:464-719 | deployments, removals and jobs keep what the statuses stand for, except exactly for a pull-mode deployment without a hash that queues a job and leaves the status |
| FeatureRemoval.ContentComesAndGoes | controllers/clustersummary_deployer.go:516-719 | what counts as content that is there: it comes with the start of a deployment and goes with the success of a cleanup; in pull mode with a request to deploy, and with the report that a group seen before is removed or not found |
| FeatureRemoval.RemovedIsRealIff | controllers/clustersummary_deployer.go:656-668 | over all runs, at no state can Removed come to stand for content that is there, exactly if no job is queued unnoticed; gone means, in push mode, cleaned up since the last deployment started, and in pull mode that the removal group was seen since and then reported removed or vanished |
| FeatureRemoval.RemovedOnlyWhenGone | controllers/clustersummary_deployer.go:656-668 | in every such run Removed means that the content is gone |
| FeatureRemoval.UnnoticedCanBecomeUnreal | controllers/clustersummary_deployer.go:409-432 | a job queued unnoticed has a continuation after which Removed is not real |
| FeatureRemoval.RemovedThoughQueued | controllers/clustersummary_deployer.go:409-432 | the exception: the status stays Removed though a job is queued |
| Finalizer.ResetFeatureStatus | controllers/clustersummary_controller.go:1916-1930 | exactly the features of the profile get the status |
| Finalizer.CanRemoveFinalizer | controllers/clustersummary_controller.go:1591-1643 | cluster gone, profile deleted for DryRun, or every feature Removed |
| Finalizer.UndeployAll | controllers/clustersummary_controller.go:999-1021 | all three features are undeployed whatever becomes of the others |
| Finalizer.CleanupBeforeFinalizerRemoval | controllers/clustersummary_controller.go:398-478 | the caller goes on exactly if all gates are open, every feature has come to an end and the finalizer may go; open gates undeploy all three features, closed ones leave the deployer alone and mark the features Blocked or Failed |
| Finalizer.UndeployAndCheck | controllers/clustersummary_controller.go:466-478 | all three features are undeployed as by the passes on what they were, and then it is asked whether the finalizer may go |
| Finalizer.GatesOpenIff | controllers/clustersummary_controller.go:398-466 | which conditions the gates are |
| Finalizer.AllRemovedIff | controllers/clustersummary_controller.go:1623-1642 | with one entry for each feature, all entries are Removed exactly if all features with an entry are |
| Finalizer.ReconcileDelete | controllers/clustersummary_controller.go:326-387 | exactly when the finalizer leaves; with a ready cluster that stays and open gates all three features are undeployed as by the passes on what they were; if these passes end with every feature Removed it leaves; outside DryRun it leaves only if the cluster is gone, or leaving and not ready, or all gates are open and every feature is Removed unless the cluster vanished at the end |
| RemovalProgress.FinalizerLeavesInTheEnd | controllers/clustersummary_controller.go:326-478 | in every run of all features whose cleanups succeed, after two decisive passes over each the next reconciliation finds what makes the finalizer leave |
| Finalizer.MayLeaveIff | controllers/clustersummary_controller.go:326-387 | what may be said when it leaves outside of DryRun: a cluster that is gone, or leaving and not ready, or open gates and every feature Removed |
| Finalizer.FinalizerLeavesNothingBehind | controllers/clustersummary_controller.go:326-387 | after every run of all features, outside DryRun the finalizer may leave only if the cluster is gone, or leaving and not ready, or the content of every feature is gone, or some job was queued unnoticed on the way |
| Finalizer.PushModeIsNoticed | controllers/clustersummary_deployer.go:207-232 | in push mode no job ever is |
| Dependencies.IsClusterSummaryProvisioned | controllers/utils.go:159-214 | all listed features Provisioned and none of the wanted ones missing |
| Dependencies.AreDependenciesDeployed | controllers/clustersummary_controller.go:1799-1844 | exactly if every prerequisite of the same kind exists and is provisioned |
| Dependencies.AreDependentsRemoved | controllers/clustersummary_controller.go:1858-1902 | exactly if no other ClusterSummary of the cluster lists the name |
| Dependencies.MayStartIff | controllers/clustersummary_controller.go:1799-1844 | a ClusterSummary may start exactly if every prerequisite of its kind exists, lists all wanted features and has every listed one Provisioned |
| Dependencies.TeardownGoesBySteps | controllers/clustersummary_controller.go:434-478 | it is cleared exactly if nobody else lists it, undeployed only with features that are all Removed, and removed only after that |
| Dependencies.StepKeepsSupportIff | controllers/clustersummary_controller.go:434-447 | a step leaves something live without a prerequisite exactly if it undeploys what is needed by then, or gives something live a prerequisite that is not there |
| Dependencies.PrerequisitesOutliveDependentsIff | controllers/clustersummary_controller.go:1846-1857 | over all runs, whatever is live has its prerequisites, none undeployed, exactly if no step does that |
| Dependencies.PrerequisitesOutliveDependents | controllers/clustersummary_controller.go:1846-1857 | in every run whose undeploys follow their check with nothing in between this is the case |
| Dependencies.BlockedIsTheGate | controllers/clustersummary_controller.go:1884-1899 | the blocking relation of the rounds is the gate of the code |
| Dependencies.TeardownEndsIff | controllers/clustersummary_controller.go:1858-1902 | n ClusterSummaries go within n rounds, or ever, exactly if no group of them lists itself |
| Dependencies.AcyclicTearsDown | controllers/clustersummary_controller.go:1858-1902 | with one kind, acyclic DependsOn suffices |
| Dependencies.KindsDeadlock | controllers/clustersummary_controller.go:1884-1899 | a Profile and a ClusterProfile with no cycle in either kind block each other for ever |
| Dependencies.SomebodyMayStart | controllers/clustersummary_controller.go:1799-1844 | with acyclic DependsOn and existing prerequisites, something not provisioned may start |
| Transition.ContainsName | controllers/clustersummary_transition.go:122-129 | the list holds the name |
| Transition.GetTransitionSuccessors | controllers/clustersummary_transition.go:57-93 | exactly the candidates that name the predecessor |
| Transition.AreSuccessorsProvisioned | controllers/clustersummary_transition.go:148-211 | true exactly if nobody names the predecessor, the cluster is gone, or every successor that matches it is provisioned |
| Transition.AllLetGoIff | controllers/clustersummary_transition.go:148-211 | with the cluster there: exactly if no candidate names the predecessor, matches the cluster by selector or by name, and is absent or has a wanted feature missing or a listed one not Provisioned |
| ValuesHash.StepKeepsInvIff | controllers/handlers_helm.go:3287-3303 | each step of a pass keeps what is stored no newer than what is deployed, except exactly an adoption of a release with the hash of newer values |
| ValuesHash.HashesAreNeverNewerIff | controllers/handlers_helm.go:1347-1374 | over all runs with fresh versions, across failures, old copies and changes at any time, no hash names values newer than the deployed ones at any state exactly if there is no such adoption |
| ValuesHash.StoredIsNeverNewer | controllers/handlers_helm.go:1347-1374 | in such runs the stored hash is not newer than the deployed values, and nothing is lost |
| ValuesHash.ChangeIsPassedOverIff | controllers/handlers_helm.go:3272-3334 | a decision leaves values that are not deployed exactly if nothing is stored, the release covers them and nothing forces an upgrade |
| ValuesHash.NewerValuesUpgrade | controllers/handlers_helm.go:3272-3334 | in such runs, as long as the deployed values are not the current ones, a pass that decides upgrades exactly if it does not adopt the release |
| ValuesHash.LostStaysLost | controllers/handlers_helm.go:3272-3334 | a lost change stays lost: however many passes follow, none upgrades until something else changes or forces it |
| ValuesHash.PassLosesChangeIff | controllers/handlers_helm.go:1343-1374 | for any contents and any pass, whether it deploys or not: it loses a change exactly if the current content is the hashed one and not the one deployed by then |
| ValuesHash.UndisturbedPassSettles | controllers/handlers_helm.go:1343-1374 | a pass with nothing in between, over a release that is new, broken, forced or has other values than are stored, deploys and stores the current values, and the next one finds nothing to do |
| ValuesHash.DeploymentsLeave | controllers/handlers_helm.go:1347-1374 | what a deployment, a failed one and one that failed half way leave deployed |
| ValuesHash.RevertDuringDeploymentIsLost | controllers/handlers_helm.go:1343-1374 | changed and changed back during a deployment: the release keeps what nobody wants |
| ValuesHash.AdoptionKeepsDroppedValues | controllers/handlers_helm.go:3287-3303 | without a stored hash, values that only drop keys are taken as deployed |
| Watchers.Manager.StartWatcher | controllers/clustersummary_watchers.go:362-396 | a watcher runs for the kind unless it cannot be started |
| Watchers.Manager.StartWatcherForMgmtResource | controllers/clustersummary_watchers.go:116-145 | watcher, requestor and consumer are added together, or nothing is |
| Watchers.Manager.StartWatcherForTemplateResourceRef | controllers/clustersummary_watchers.go:151-219 | the consumer moves to one of the two buckets of the resource |
| Watchers.Manager.StopIfUnused | controllers/clustersummary_watchers.go:638-661 | the watcher goes exactly if all three requestor sets of the kind are empty |
| Watchers.Manager.StopStaleWatchForMgmtResource | controllers/clustersummary_watchers.go:225-278 | the consumer leaves every kind and resource it does not use any more, with the deletion from the other map at line 713 |
| Watchers.Manager.StopStaleWatchForTemplateResourceRef | controllers/clustersummary_watchers.go:284-360 | the same for TemplateResourceRefs, in both buckets |
| Watchers.InterestedAreServed | controllers/clustersummary_watchers.go:52-83 | under coherence every registered consumer has a watcher for the kind |
| Watchers.StartMgmtKeepsCoherence | controllers/clustersummary_watchers.go:116-145 | starting keeps coherence |
| Watchers.StartTemplateKeepsCoherence | controllers/clustersummary_watchers.go:151-219 | starting keeps coherence, and no consumer is in both buckets |
| Watchers.StopKustomizeKeepsCoherence | controllers/clustersummary_watchers.go:225-278 | stopping for KustomizationRefs keeps coherence |
| Watchers.StopTemplateKeepsCoherence | controllers/clustersummary_watchers.go:284-360 | stopping for TemplateResourceRefs keeps coherence |
| Watchers.StopPolicyKeepsCoherenceIff | controllers/clustersummary_watchers.go:709-714 | stopping for PolicyRefs keeps coherence exactly if no kind whose entry comes out empty has a resource watched by a KustomizationRef |
| Watchers.RunsStayCoherentIff | controllers/clustersummary_watchers.go:116-360 | a run stays coherent exactly if no stop hits such a kind |
| Watchers.IntendedStopKeepsCoherence | controllers/clustersummary_watchers.go:709-714 | deleting from the map that was looked at would always keep coherence |
| Watchers.StopDiffersFromIntendedIn | controllers/clustersummary_watchers.go:709-714 | for which kinds the code then differs, in requestors and in watchers |
| Watchers.PolicyStopSilencesKustomize | controllers/clustersummary_watchers.go:713 | a stop for PolicyRefs takes the watcher from a consumer of a KustomizationRef |
| Watchers.DiscardingStore.Add | controllers/clustersummary_watchers.go:474-486 | the generation is remembered and the object counts as new |
| Watchers.DiscardingStore.Update | controllers/clustersummary_watchers.go:488-505 | the previous generation is handed on if there was one |
| Watchers.DiscardingStore.Delete | controllers/clustersummary_watchers.go:507-519 | the generation is forgotten |
| Watchers.StatusChangesAreIgnoredIff | controllers/clustersummary_watchers.go:557-600 | a consumer that ignores the status hears of an event exactly if the generation is not the previous one |
| Watchers.HeardAfterStart | controllers/clustersummary_watchers.go:116-145 | after a start for a PolicyRef or a KustomizationRef the consumer hears of every event about the resource |
| Watchers.HeardAfterTemplateStartIff | controllers/clustersummary_watchers.go:151-219 | after a start for a TemplateResourceRef it does, and with the status ignored exactly if the generation is not the previous one |
| Watchers.StartsAreOwn | controllers/clustersummary_watchers.go:116-145 | a start changes nothing for other consumers and other resources |
| Watchers.TemplateStartsAreOwn | controllers/clustersummary_watchers.go:151-219 | nor does one for a TemplateResourceRef |
| Watchers.SilentAfterStops | controllers/clustersummary_watchers.go:225-360 | after the three stops a consumer hears nothing of a resource it does not use |
| Watchers.PolicyStopsAreOwn | controllers/clustersummary_watchers.go:225-278 | a stop takes no notification from other consumers or about resources still used, as far as the sets of consumers go |
| ClusterIndex.ClusterSetReconciler.UpdateMaps | controllers/clusterset_controller.go:215-245 | the index after an update by difference |
| ClusterIndex.ClusterSetReconciler.CleanMaps | controllers/clusterset_controller.go:200-213 | the set is gone from both maps |
| ClusterIndex.ClusterSetReconciler.RequeueForCluster | controllers/profile_transformation_common.go:36-92 | exactly the previous consumers and those whose selector matches the new labels are queued |
| ClusterIndex.ClusterProfileReconciler.UpdateMaps | controllers/clusterprofile_controller.go:316-353 | both indexes are erased and filled again for the profile |
| ClusterIndex.RebuiltHolds | controllers/clusterprofile_controller.go:316-353 | the rebuilt index has the profile under exactly the new entries, the others where they were, and no empty entries |
| ClusterIndex.ClusterProfileReconciler.TrackClusters | controllers/clusterprofile_controller.go:305-314 | the profile is added to the clusters |
| ClusterIndex.ClusterProfileReconciler.CleanMaps | controllers/clusterprofile_controller.go:278-299 | the profile is gone from both indexes |
| ClusterIndex.ClusterProfileReconciler.RequeueForCluster | controllers/profile_transformation_common.go:36-92 | exactly the previous consumers and those whose selector matches the new labels are queued |
| ClusterIndex.Requests | controllers/profile_transformation_common.go:49-91 | the queue holds these and nobody else; selectors that cannot be parsed are passed over |
| ClusterIndex.UpdateKeepsInverse | controllers/clusterset_controller.go:215-245 | the two maps stay inverse to each other, and the update by difference is an erase and insert |
| ClusterIndex.DifferenceIsExact | controllers/clusterset_controller.go:200-245 | after every history the index says exactly who matches a cluster by that history |
| ClusterIndex.RebuildIsExact | controllers/clusterprofile_controller.go:278-353 | so does the rebuilt index |
| ClusterIndex.DifferenceRefinesRebuild | controllers/clusterset_controller.go:215-245 | the incremental and the rebuilt index are the same relation after every history |
| ClusterIndex.NobodyIsForgotten | controllers/profile_transformation_common.go:36-92 | a changed cluster wakes exactly those that matched it by the history and those that match it now |
| Labels.SetLabelSatisfiesIff | controllers/handlers_helm.go:889-908 | what a label that is set means for each sort of requirement |
| Labels.MissingLabelSatisfiesIff | controllers/handlers_helm.go:889-908 | and one that is missing |
| Labels.ClusterIsMatchedIff | controllers/handlers_helm.go:889-908 | a cluster is matched exactly by a selector with requirements that all hold, or by its namespace and name |
| HelmBundles.AppendResources | controllers/handlers_helm.go:5991-6011 | bundles of one to fifteen in the order of the weights go behind what is there |
| HelmBundles.SeparateResources | controllers/handlers_helm.go:6034-6085 | every resource goes to the group it belongs to, and none is lost |
| HelmBundles.SplitResources | controllers/handlers_helm.go:6031-6124 | the bundles hold exactly the resources, one to fifteen each, CRDs alone and in their order, groups in the fixed order, weights not going down within a group |
| HelmBundles.StageOfHook | controllers/handlers_helm.go:6047-6080 | the stage of each hook by its name; the first of the nine names counts |
| HelmBundles.StageWithoutHook | controllers/handlers_helm.go:6048-6085 | the stage of CRDs, of resources with a delete policy and of all others |
| HelmBundles.StagesFollowEachOther | controllers/handlers_helm.go:6089-6121 | in the bundles an earlier stage comes first, and within a stage a lower weight |
| HelmBundles.PlacedIsInNamespace | controllers/handlers_helm.go:6047-6085 | only a missing namespace is set, to that of the release, and not on CRDs |
| HelmBundles.StageHelmResources | controllers/handlers_helm.go:6126-6153 | bundles are staged in order up to the first failure; exactly one is last if all are staged and there is any, none otherwise |
| Semver.PrecedenceIsTotalPreorder | controllers/helmchart_semver.go:51-63 | the precedence is a total preorder, and equivalent versions differ in metadata at most |
| Semver.PrecedenceIsSection11 | controllers/helmchart_semver.go:51-63 | the precedence is that of section 11 of Semantic Versioning 2.0.0: numbers first, a release over its prereleases, prereleases by the first field that differs, numeric before alphanumeric, and fewer fields before more |
| Semver.HelmChartVersionDiff | controllers/helmchart_semver.go:33-69 | a greatest eligible version, and a greatest one in the same minor line; none exactly if there is none |
| Semver.GreatestIsUnique | controllers/helmchart_semver.go:57-65 | order and repetitions of the list do not matter up to metadata |
| Semver.NoUpdateIsMissed | controllers/helmchart_semver.go:33-69 | if an available version follows the current one, and is no prerelease of a stable pin, one is reported that it does not follow |
| Semver.NoUpdateIsInvented | controllers/helmchart_semver.go:33-69 | what is reported is available, follows the current version and, for the patch, is of its minor line |
| Semver.PatchIsWithinOverall | controllers/helmchart_semver.go:33-69 | the patch is not above the overall one, both are newer, and a stable pin gets no prerelease |
| Semver.NewestIsUpToDate | controllers/helmchart_semver.go:33-69 | nothing is newer than what was reported as newest |
| LuaQuote.QuoteLuaString | controllers/health_monitoring.go:254-276 | the quoted literal |
| LuaQuote.QuotingRoundTrips | controllers/health_monitoring.go:253-276 | for all bytes and every following text, a Lua reader gets the string back and stops at its end |
| LuaQuote.QuotedIsPrintable | controllers/health_monitoring.go:253-276 | no control character is ever written |
| LuaQuote.GetManagedHelmReleases | controllers/health_monitoring.go:187-205 | exactly the managed releases, sorted |
| LuaQuote.ManagedIff | controllers/health_monitoring.go:187-205 | a release is listed exactly if an entry of it says Managing |
| LuaQuote.ListChangesIffManagedChange | controllers/health_monitoring.go:175-205 | two of these lists differ exactly if what is managed differs |
| LuaQuote.RenderHealthMonitoringLua | controllers/health_monitoring.go:280-292 | the rendered script |
| LuaQuote.ScriptRoundTrips | controllers/health_monitoring.go:280-292 | the script reads back to the owner, the keys of all releases in order, and the library |
| LuaQuote.KeyNamesTheRelease | controllers/health_monitoring.go:286-287 | without a slash in the namespaces a key stands for one release |
| LuaQuote.SlashMakesKeysClash | controllers/health_monitoring.go:286-287 | with one there is another release with the same key |
| OutdatedCharts.CollectHelmChartRefs | controllers/helmchart_outdated_check.go:227-266 | exactly the managed releases with a resolved chart, by chart |
| OutdatedCharts.SelectedIff | controllers/helmchart_outdated_check.go:227-266 | a release is selected under a chart exactly if it is managed, has a chart, a repository and a version, and the key is its own |
| OutdatedCharts.PassState.MarkReferenced | controllers/helmchart_outdated_check.go:114-119 | the series is referenced |
| OutdatedCharts.PassState.MarkChecked | controllers/helmchart_outdated_check.go:121-129 | the series is checked, and outdated if it was found so |
| OutdatedCharts.Checker.TrackOutdatedHelmChart | controllers/metrics.go:350-367 | the series is exposed, and no other one changes |
| OutdatedCharts.Checker.ClearOutdatedHelmChart | controllers/metrics.go:372-386 | the series is withdrawn, and no other one changes |
| OutdatedCharts.Checker.ReconcileOutdatedHelmChartMetric | controllers/helmchart_outdated_check.go:194-219 | what stays flagged, and the gauge without the rest; nothing that stays flagged is ever missing in the loop |
| OutdatedCharts.FlaggedAfter | controllers/helmchart_outdated_check.go:186-219 | one more pass, in terms of the history |
| OutdatedCharts.GaugeShowsTheHistory | controllers/helmchart_outdated_check.go:135-219 | between passes a series is exposed exactly if the last check that succeeded said outdated, it was referenced ever since, and no deploy withdrew it |
| OutdatedCharts.PassCanEnd | controllers/helmchart_outdated_check.go:135-219 | wherever a pass is it can come to an end, which puts it on record; whatever is referenced can be checked, and a series may be withdrawn at any time |
| OutdatedCharts.SeriesDisappearsOnlyIf | controllers/helmchart_outdated_check.go:204-215 | a series disappears only by a deploy, or because this pass found it up to date or unreferenced |
| OutdatedCharts.FlaggedSeriesNeverBlinks | controllers/helmchart_outdated_check.go:189-193 | a series that stays flagged is exposed at every step of every interleaving |
| Cooldown.Reconciler.SetNextReconcileTime | controllers/clustersummary_controller.go:727-740 | the cooldown is set in the status and in memory |
| Cooldown.Reconciler.RemainingCooldown | controllers/clustersummary_controller.go:744-763 | the longer of the two remaining times, ten seconds if the status has none |
| Cooldown.Reconciler.SkipReconciliation | controllers/clustersummary_controller.go:1977-2019 | whether to skip, and what memory and status are then |
| Cooldown.Reconciler.UpdateDeletedInstances | controllers/clustersummary_controller.go:311-324 | the time of the deletion is recorded and the cooldown dropped |
| Cooldown.NoPassBeforeDeadline | controllers/clustersummary_controller.go:722-740 | the first reconciliation not skipped comes at the deadline or at a higher generation, across restarts with persisted status |
| Cooldown.GenerationWinsInMemory | controllers/clustersummary_controller.go:1993-2000 | a higher generation goes ahead while the cooldown is in memory |
| Cooldown.ChangeOrTimeHelps | controllers/clustersummary_controller.go:1993-2003 | while the cooldown is in memory a change of the specification ends it, and otherwise exactly the time up to the deadline |
| Cooldown.GenerationLosesAfterRestart | controllers/clustersummary_controller.go:2006-2013 | after a restart it does not |
| Cooldown.RestartBeforePersist | controllers/clustersummary_controller.go:727-740 | a restart before the status is written loses the cooldown |
| Cooldown.RemainingIsTheLongest | controllers/clustersummary_controller.go:744-763 | the wait is never zero, covers both known deadlines, and is one of them or ten seconds |
| Cooldown.SkippedThenPassesIff | controllers/clustersummary_controller.go:744-763 | waiting for the remaining time lets the next one go ahead, except exactly for a deletion not yet more than ten seconds old |
| Cooldown.LiveNeverSticks | controllers/clustersummary_controller.go:744-763 | for an object that is not in deletion it always does |
| Cooldown.DeletionIsSkippedTwice | controllers/clustersummary_controller.go:1984-1991 | a deletion reconsidered in the second it was recorded is skipped twice |
| Cooldown.DeletionPassesInTheEnd | controllers/clustersummary_controller.go:1977-2019 | two waits always suffice |

## Left out

- API server calls, conflict retries, the Helm SDK, registries, Flux sources, tar, Kustomize and Lua execution: only their
  outcomes appear, as parameters or free steps.
- SHA-256, JSON and YAML encodings, template instantiation, parsing of version strings, of hook annotations and of hook
  weights: parameters, or already parsed values.
- `controllers/init_container_work.go`, which overwrites stored hashes at startup on purpose, and the chart versions kept
  beside the registrations.
- The uninstall of releases that a profile no longer lists: it looks at the other registrants only.
- DryRun passes of the Helm handler, beyond what they do to ownership and failure counts.
- Events, metrics other than the gauge, logging, finalizer and patch plumbing, sharding, feature registration, the license
  manager, predicates, option getters, credentials and the upgrade of drift detection.
- The keys that `refreshInternalState` uses, which have other kinds than those of `updateMaps`.
- The clusters of a profile and their selection, beyond the reading of the indexes.
- HelmApplyTracking.SkipNeedsProof: holds for careful runs; by SkipNeedsProofIff these are all the runs in which no skip
  is granted without proof.
- ChartOwnership.OneManagerPerReleaseIff: a takeover is one step.
- ChartUninstall.WantedReleaseIsKeptIff: both reads are one step; UninstalledThoughWantedIff has them apart.
- DeploymentAttempts.AttemptsAreBounded: outside of DryRun, where failures are not counted beyond the first; a restart of
  the controller, which forgets running jobs, is not a step.
- RequeueSafety.ResetIsSafeIff: outside of DryRun, where every pass deploys again.
- FeatureRemoval.RemovedIsRealIff: a reconciliation is one step between the steps of the workers;
  DeploymentPhases.DeployAndCleanupNeverMeet has the finer steps.
- Dependencies.TeardownEndsIff: no ClusterSummary is created during the teardown.
- ValuesHash.HashesAreNeverNewerIff: contents do not come back; PassLosesChangeIff is for any contents, over one pass.
- LuaQuote.ScriptRoundTrips: the reader knows the layout of the table; only its string literals follow the Lua manual.
- DeploymentProgress.FeatureIsProvisionedInTheEnd: outside of DryRun, where every pass deploys again; that the workers get
  done and that passes keep coming is what the queues are relied on for.
- RemovalProgress.FinalizerLeavesInTheEnd: the runs are of the features; the reconciliation that then lets the finalizer go
  is `Finalizer.ReconcileDelete`, by its last clause.
