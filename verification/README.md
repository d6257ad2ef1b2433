# Verified model of the YTsaurus Kubernetes operator's update protocol

This project models how the YTsaurus operator brings a cluster up and updates it, and proves what
the update protocol promises. The subject is a persisted state machine: a reconcile pass loads the
stored status, asks every component for its status, and then either stores one transition or lets
the components act on the cluster. Any status write and any call may be lost, or may take effect and
still report an error. Jobs and pods go away on their own time, and the spec may change between any
two passes.

`dafny verify dfyconfig.toml` checks everything.

## How the model is built

- `ClusterStatus`, `Components`, `World` and `Reconcile` hold the state and the pass as functions:
  the stored status, the decision every component takes, the effect of every action, and `RunPass`.
  A run is any sequence of passes (each with its own spec, observations and outcomes) and steps of
  the environment: a job succeeds, a job object disappears, a removed cell disappears.
- `Operator` is the operator in its own form: a class whose fields are the status in memory, the
  stored status and the cluster, with the four flow handlers, the status writers, the component
  manager's loops, the client's tablet cell and snapshot loops, the init jobs and the pass itself as
  methods. `Operator.Reconciler.Sync` is proved to be exactly `RunPass`.
- `PossibilityCheck` and `FlowChoice` are two decisions with loops of their own.
- `Effects` says what the single steps promise their callers; the methods of `Operator` carry those
  promises beside their exact effect.
- `Actions`, `Cells`, `Safety`, `Gates`, `Freshness`, `JobIdentity`, `Durable` and `Removal` prove
  invariants of every pass and every run; `Guarantees` states what follows for whole runs.
- `Readiness` is about the dependency graph; `Names` about component names.
- `Initialised`, `Rounds`, `Building`, `FairPasses`, `ClientStages`, `JobStages`, `PodStages` and
  `Progress` prove that updates end, `BringUp` that clusters come up, and `Lifecycle` that an admitted
  cluster always comes back to Running.
- `Viability`, `ReadOnlyExit` and `Removal` show where a promise fails, and exactly when.
  `Reachability` builds runs from a new cluster into every stage of an update, and `Witnesses` and
  `TwoUpdates` such runs into the states on the wrong side of each of these conditions.
- `Overrides` is the config override merge, `ConditionList` the sorted condition list, `Admission`
  the webhook, and `Carcass` the parts of the config generators that can fail.

A favourable round is what "the environment answers" means in the results about progress. First
running jobs succeed and deleted objects go away; then comes one pass in which calls and writes
succeed and the pods of up-to-date servers are ready. What the operator wrote, made or scaled down
since the rounds began lasts; before that, any secret, service or server may be missing or stale, so
a round may find a bare cluster (`Progress.FromNothing`), and the operator has to make them itself.
The YT client is there once the client component gets past its own dependencies.

The event log of the cluster restarts when an update is stored. It is bookkeeping for the statements:
what happened to the cluster and what the operator saw, in order. Nothing in a pass reads it.

## What turned out to differ from expectations

- The master's exit from read-only mode notes its preparation in the same pass that starts to delete
  the old job. If a job object is still there afterwards, its old success can be taken for the new
  run. `ReadOnlyExit.ExitIsFreshIff` gives the exact condition, and `TwoUpdates.OwnJobIsLeftOver` two
  full updates in a row after which the operator's own earlier job is the one left over. The
  operations archive and the query tracker state wait for the deletion and do not have this problem.
- An update that has reached the dead end "impossible to start" is always cancelled, although the log
  message speaks of a spec that changed back: every component but the client reports Ready there, and
  the client does as soon as it has its secret.
- An update can get stuck when the spec changes under it. `Viability.Viable` is the exact condition,
  over the stored status and the layout from then on: `Progress.UpdateEndsIff`. It fails when the
  scheduler is taken out while the operations archive is being updated, or the tablet nodes while the
  archive job is not done; when the query tracker is taken out while its state is being updated; and
  when, before pods are created, the update meets a queue agent or a first tablet node that was never
  initialized, because during an update there is no client to initialize it with. `Witnesses` has a
  run from a new cluster into each of these five cases. Over the layout with which the cluster last
  came up, every update ends.
- A component may have been scaled down and seen without pods, and still not count as removed: the
  status write of that pass was lost. `Removal.RemovedIffRecorded` gives the exact condition, and
  `Witnesses.CompletedNeedNotBeRecorded` a run.
- The webhook accepts a negative number of masters. The generator then asks Go for a list with a
  negative capacity, which panics; in all other cases there is one address per master.
- Merging the two override files first is not the same as applying them one after the other;
  `Overrides.OverridesCompose` says exactly when it is.
- An empty list of component names is dropped by the JSON encoding of the status and would read back
  as "everything"; the model encodes it that way, and no reachable update stores one.

## Model

| member | source | states |
|---|---|---|
| Operator.Reconciler.SaveClusterState | pkg/apiproxy/ytsaurus.go:107-116 | the cluster state changes in memory and nothing else does; the store holds what it held or the encoded memory; success means that the next pass loads this cluster state with all conditions and the update state as they were |
| Operator.Reconciler.SaveUpdateState | pkg/apiproxy/ytsaurus.go:118-126 | the same for the update state |
| Operator.Reconciler.ClearUpdateStatus | pkg/apiproxy/ytsaurus.go:78-85 | success means that the next pass finds no condition, list, path or flow of the update, every updatable component in its (absent) list, and the old update state; the rest of the status is kept |
| Operator.Reconciler.SaveUpdatingClusterState | pkg/apiproxy/ytsaurus.go:93-105 | success means that the next pass finds an update with this flow, which updates exactly the named components, or all of them for no list or an empty one; a lost write leaves store and cluster as they were |
| Operator.Reconciler.SetUpdateStatusCondition | pkg/apiproxy/ytsaurus.go:71-76 | the condition reads back as set, every other as before; only the memory changes |
| Operator.Reconciler.ArePodsRemoved | controllers/component_manager.go:257-269 | true exactly when every updating component is noted as removed |
| Operator.Reconciler.TakeSurvey | controllers/component_manager.go:142-182 | the loop computes the survey of all components, or none when one of them fails |
| Operator.NewComponents | controllers/component_manager.go:42-137 | the construction loops give exactly the component list of the layout, in order |
| Operator.Reconciler.HandleEverything | controllers/sync.go:18-162 | the switch of the Full flow stores exactly the next stop of its route, jumps over stages that are not needed, or leaves the update |
| Operator.Reconciler.HandleStateless | controllers/sync.go:164-234 | same for the Stateless flow |
| Operator.Reconciler.HandleMasterOnly | controllers/sync.go:236-310 | same for the Master flow |
| Operator.Reconciler.HandleTabletNodesOnly | controllers/sync.go:312-387 | same for the TabletNodes flow |
| Operator.Reconciler.HandleUpdate | controllers/sync.go:569-586 | the handler of the stored flow runs; without a flow nothing happens |
| Operator.Reconciler.HandleRunning | controllers/sync.go:535-567 | a running cluster rests, is reconfigured, starts an update, or falls through |
| Operator.Reconciler.FinishUpdate | controllers/sync.go:588-612 | whichever writes are lost, Running is never stored with anything of the update left; with none lost the store says Running; the cluster is not touched |
| Operator.Reconciler.HandleClusterState | controllers/sync.go:521-620 | the switch over the cluster state, and when the pass falls through to the components |
| Operator.Reconciler.SyncComponent | controllers/component_manager.go:203-218 | besides the exact effect: the stored status is not touched, and no condition, finished job, initialization or place on the route is taken back, except by the restarts of the current stage; a refusal stays |
| Operator.Reconciler.SyncEverything | controllers/component_manager.go:199-231 | components sync in order up to the first failure; the status is written only if all succeeded |
| Operator.Reconciler.Sync | controllers/sync.go:507-623 | the whole pass leaves store and cluster exactly as the model's pass does, for all observations and outcomes |
| Operator.Reconciler.MarkArchive | pkg/components/scheduler.go:236-239 | asking for statuses notes that the archive needs no update exactly in the one case, nothing else, and asking again adds nothing |
| Operator.Reconciler.HandleUpdatingState | pkg/components/ytsaurus_client.go:152-336 | besides the exact effect of each stage: the client touches no job, job config or bundle, no other component's condition and not the stored status, and never turns a refusal into a permission |
| Operator.Reconciler.CheckPossibility | pkg/components/ytsaurus_client.go:156-181 | the question is asked once, never answered both ways, and when all queries are answered the note says yes exactly for a healthy cluster; a failed query changes nothing |
| Operator.Reconciler.SwitchSafeMode | pkg/components/ytsaurus_client.go:183-198 | success means that safe mode is as asked; a failure leaves the status alone; once noted it is not repeated |
| Operator.Reconciler.SaveTabletCells | pkg/components/ytsaurus_client.go:200-216 | success saves the true number of cells of every bundle, in order, and changes no cell; once saved the numbers are not overwritten |
| Operator.Reconciler.RemoveListed | pkg/components/ytsaurus_client.go:517-539 | cells are marked for removal in order, up to the first failing call |
| Operator.Reconciler.StartRemovingTabletCells | pkg/components/ytsaurus_client.go:218-232 | success means that every cell is marked for removal; cells are only marked, never dropped or unmarked; a failure leaves the status alone |
| Operator.Reconciler.AwaitTabletCellsRemoved | pkg/components/ytsaurus_client.go:234-252 | noted as removed exactly when no cell is left, and nothing else changes |
| Operator.Reconciler.CreateTabletCells | pkg/components/helpers.go:25-52 | the bundle is filled from its current count up to the target, one call per cell, up to the first failure |
| Operator.Reconciler.RecoverTabletCells | pkg/components/ytsaurus_client.go:557-565 | bundle after bundle, up to the first failure |
| Operator.Reconciler.RestoreTabletCells | pkg/components/ytsaurus_client.go:302-316 | success means that every bundle has its saved number of cells again; cells are only added; a failure leaves the status alone |
| Operator.GetMasterMonitoringPaths | pkg/components/ytsaurus_client.go:569-583 | one path per address of every master cell, in order |
| Effects.MonitoringPathsAre | pkg/components/ytsaurus_client.go:569-583 | a path is noted exactly if it belongs to some address of some master cell |
| Operator.Reconciler.SaveMasterMonitoringPaths | pkg/components/ytsaurus_client.go:256-269 | success saves a path for every address of every listed master and no other, once |
| Operator.AreAllReadOnly | pkg/components/ytsaurus_client.go:587-597 | stops at the first master that is not read-only or does not answer |
| Operator.Reconciler.StartBuildMasterSnapshots | pkg/components/ytsaurus_client.go:271-282 | success means that snapshots were requested, unless every master answered that it is read-only already |
| Operator.Reconciler.AreMasterSnapshotsBuilt | pkg/components/ytsaurus_client.go:611-624 | yes only after a read-only last snapshot was read from every path |
| Operator.Reconciler.BuildMasterSnapshots | pkg/components/ytsaurus_client.go:254-300 | noted as saved only after every noted master was seen with a read-only last snapshot; noted paths do not change; nothing but the log of the cluster changes |
| Operator.Reconciler.SyncJob | pkg/components/init_job.go:136-175 | status and effect of an init job, dry or not |
| Operator.Reconciler.CreateJobObjects | pkg/components/init_job.go:148-157 | success means that the config is there and a job object that did not exist before; no other job and no status changes |
| Operator.Reconciler.PrepareRestart | pkg/components/init_job.go:177-196 | success means that the job counts as undone and whatever the pass had fetched of it is going; no object disappears at once, no other job changes, and a failure leaves the status alone |
| Operator.Reconciler.RemovePods | pkg/components/pods_manager.go:19-35 | scaling is noted with its event and without the end; the end is noted only in a later call, with the pods seen gone; a failure leaves the status alone |
| Operator.Reconciler.ExitReadOnlyMode | pkg/components/master.go:357-389 | status and effect of the exit from read-only mode in all its phases, dry or not |
| Operator.Reconciler.UpdateOpArchive | pkg/components/scheduler.go:232-258 | the early answer of an updating scheduler and its effect, dry or not |
| Operator.Reconciler.UpdateQTState | pkg/components/query_tracker.go:437-459 | the same for the query tracker |
| Operator.Reconciler.InitializeBundles | pkg/components/tablet_node.go:182-246 | success means that both bundles exist with at least their cells and that this is noted; nothing that was there is taken away, and every call may fail on its own |
| Operator.Reconciler.EnsureSystemBundle | pkg/components/tablet_node.go:186-205 | success means that the system bundle exists; no other bundle goes |
| PossibilityCheck.HandlePossibilityCheck | pkg/components/ytsaurus_client.go:414-490 | the loops over bundles and masters compute the verdict |
| PossibilityCheck.CheckIsExact | pkg/components/ytsaurus_client.go:414-490 | when every query is answered, yes if and only if bundles are good, no chunk is lost, all masters are active, one leads and all others follow |
| FlowChoice.ChooseUpdateFlow | controllers/sync.go:409-505 | the sorting loop and the selector compute the choice |
| FlowChoice.ChoiceIsSound | controllers/sync.go:409-505 | an unblocked choice has no list exactly for the Full flow; otherwise the list is the non-empty subsequence the selector allows, in order, and a Stateless flow holds no master or tablet node |
| Actions.DecisionsAreAllowed | pkg/components/helpers.go:116-146 | whatever a pass observes, a component writes its server, creates secrets and services, creates or completes jobs and sets conditions only in its own windows |
| Readiness.SyncMeaning | controllers/component_manager.go:148-182 | needSync and needInit say exactly that some component is not Ready, or not running |
| Readiness.ReadyMeaning | controllers/component_manager.go:148-182 | allReadyOrUpdating and the update list say exactly what they are named after |
| Readiness.RunningIsExhaustive | controllers/sync.go:535-567 | needing a sync without needing an initialization means that some component needs an update |
| Readiness.RunningNeverSyncs | controllers/sync.go:535-567 | a pass over a running cluster touches nothing in the cluster and stores at most one transition |
| Readiness.ReadinessIsClosed | controllers/component_manager.go:42-137 | while a cluster comes up, a ready component stands on ready components along every chain of dependencies, and no chain is circular |
| Cells.RecoverCounts | pkg/components/ytsaurus_client.go:557-565 | recovery raises every listed bundle at most to its saved count, exactly to it on success, and leaves all other bundles alone |
| Safety.RunBase | controllers/sync.go:507-623 | the invariant that ties the stored status to the cluster holds at the end of every run |
| Gates.RunLog | controllers/sync.go:25-89 | the invariant about the event log holds at the end of every run |
| Guarantees.CrashSafeReset | controllers/sync.go:588-612 | outside an update the stored update status is empty, whatever writes were lost |
| Guarantees.UpdatesFollowTheirRoute | controllers/sync.go:164-387 | the handler of the stored flow knows the stored state, flow and components never change during an update, and every step keeps the state or raises its rank |
| Guarantees.SafeModeIsBalanced | controllers/sync.go:31-54 | safe mode is on only inside a Full or Master update that passed its check |
| Guarantees.CancelledUpdateIsHarmless | controllers/sync.go:36-47 | a cancelled update changed no safe mode, cell, snapshot, server or pod |
| Guarantees.CellsAreConserved | pkg/components/ytsaurus_client.go:200-252 | an update ends with exactly the cells every bundle had at its start, for any number of partial failures; flows that do not touch tablets leave the cells alone |
| Guarantees.ReturningTouchesNothing | controllers/sync.go:588-612 | going back to Running changes the status only |
| Guarantees.PodsGoOnlyBehindTheGates | controllers/sync.go:25-89 | nothing is scaled to zero before this same update passed the check, turned safe mode on and saw every listed master's read-only snapshot, or saved and removed all cells, as its flow demands |
| Guarantees.WritesStayInTheirWindows | pkg/components/helpers.go:116-146 | during an update servers, secrets and services are written only for updating components (the client's own secret apart): scaled down only in the pod removal stage, written only in the pod creation stage, or by scheduler and query tracker in their own update stages |
| Freshness.UpdatedMeansFreshJobRan | pkg/components/init_job.go:136-207 | the archive or the query tracker state counts as updated only after a job created in that stage of this update has succeeded |
| JobIdentity.UpdatedMeansOneJobRan | pkg/components/init_job.go:136-207 | exactly one job object stands for the archive or the query tracker state of an update: created in that stage of this update, then succeeded, and no other creation has its identity |
| ReadOnlyExit.PreparationLeavesTheObject | pkg/components/master.go:357-368 | the preparing pass leaves a job object exactly if it found one |
| ReadOnlyExit.ExitIsFreshIff | pkg/components/master.go:357-389 | the exit counted by an update is a run of this update in every continuation if and only if no job object is left when the preparation is stored |
| Witnesses.StaleExitIsReachable | pkg/components/master.go:357-368 | over every layout, a run from a new cluster with some old exit job into the state in which the exit need not be a run of this update |
| TwoUpdates.OwnJobIsLeftOver | pkg/components/master.go:357-389 | over every layout, a run from a new cluster without jobs through one whole full update into the same state of the next, with the first one's job left over |
| Names.NamesAreDistinct | pkg/ytconfig/names.go:195-200 | without repeated group names, all component names are pairwise distinct |
| Names.RepeatedGroupNamesClash | pkg/ytconfig/names.go:195-200 | a repeated group name makes two components indistinguishable |
| Removal.RemovedMeansCompleted | controllers/component_manager.go:257-269 | with distinct names and one layout since the update began, whoever is noted as removed was itself scaled to zero and then seen without pods |
| Removal.RemovedIffRecorded | controllers/component_manager.go:257-269 | during such an update "all pods removed" holds if and only if for each updating component some pass saw its pods gone, synced everyone, and got its status write through |
| Removal.StepRecords | pkg/components/pods_manager.go:19-35 | one step: a component is noted as removed after it exactly if it was before, or the step saw its pods gone and stored that |
| Witnesses.CompletedNeedNotBeRecorded | pkg/components/pods_manager.go:19-35 | over every layout with distinct names, a run from a new cluster in which every updating component has completed its removal and "all pods removed" still fails |
| Initialised.AllReadyIsInitialised | controllers/sync.go:527-533 | a cluster that comes up with every component ready has done all its init jobs |
| Initialised.RunSteady | controllers/sync.go:569-620 | over the layout with which the cluster last came up, whatever was before, what was initialized stays so, except for the job the current stage restarts |
| Durable.RunCore | controllers/sync.go:507-623 | over any layouts: from the first Running state on the client and the masters are initialized, no update names the client, and once a removal of cells has started all of them are on their way out |
| Rounds.RoundIsARun | controllers/sync.go:507-623 | a favourable round is steps of the environment and one pass |
| Rounds.FavourableAnswersExist | controllers/sync.go:507-623 | favourable answers exist in every state, whenever the rounds began |
| Progress.FromNothing | controllers/sync.go:507-623 | there is an always favourable environment in which every component at first lacks its secret, its service and its server |
| FairPasses.SecretFirst | pkg/components/ytsaurus_client.go:348-356 | a favourable pass of an update whose client lacks its secret moves along the route or leaves one thing less to make |
| ClientStages.ImpossibleNeverSticks | controllers/sync.go:42-47 | a favourable pass in the dead end cancels the update if and only if the spec forbids full updates or the client has its secret; otherwise it brings the end nearer |
| Progress.RoundIsNearer | controllers/sync.go:569-586 | a favourable round leaves the update, moves along the route, makes a secret or service that was missing, or shortens the distance left in the stage, and never leaves more to make |
| Progress.EveryUpdateEnds | controllers/sync.go:569-586 | whatever happened before the cluster last came up, and whatever is missing or stale now: while the layout stays as it was then, finitely many rounds that are favourable from now on finish or cancel every update |
| Progress.UpdateEndsIff | controllers/sync.go:569-586 | from every reachable state of an update, over any layouts before, whatever is missing or stale: rounds with a given spec that are favourable from now on always end it if and only if the spec is managed, has an HTTP proxy, and the update is viable over its layout |
| Viability.NextViable | controllers/sync.go:569-586 | over one layout a viable update stays viable, whatever is answered or lost |
| Viability.HopelessForever | controllers/sync.go:569-586 | an update that is not viable and not refused stays so in every run over that layout, and never ends |
| Witnesses.DroppingTheSchedulerSticks | controllers/sync.go:126-131 | a run from a new cluster to an update that would end, and that waits forever once the scheduler is taken out |
| Witnesses.DroppingTheTabletNodesSticks | pkg/components/scheduler.go:197-262 | the same with the tablet nodes, before the archive job of the update has run |
| Witnesses.DroppingTheQueryTrackerSticks | controllers/sync.go:145-150 | the same with the query tracker |
| Witnesses.AddingAQueueAgentSticks | pkg/components/queue_agent.go:172-208 | the same when a queue agent is added during a full update |
| Witnesses.AddingTabletNodesSticks | pkg/components/tablet_node.go:115-134 | the same when the first tablet nodes are added during a full update |
| Reachability.EveryStopIsReachable | controllers/sync.go:18-162 | over every layout with a proxy a new cluster comes up, stores a full update and gets to each stop of its route that the layout has |
| Reachability.OnlyVisitedStops | controllers/sync.go:18-162 | and, over that layout, to no other, apart from the dead end |
| BringUp.EveryClusterComesUp | controllers/sync.go:521-534 | from every reachable state of a cluster that is initializing or being reconfigured, with whatever secrets, services and servers are missing or stale, rounds that are favourable from now on lead to Running |
| Lifecycle.AlwaysBackToRunning | controllers/sync.go:521-620 | over the layout with which the cluster last came up, rounds that are favourable from now on lead from every reachable state, bare or stale as it may be, back to Running |
| Lifecycle.AdmittedClustersComeBack | api/v1/ytsaurus_webhook.go:481-505 | the same for the layout of every spec that the webhook accepts |
| Lifecycle.AdmittedRemovalsAreHonest | api/v1/ytsaurus_webhook.go:481-505 | for every accepted spec, whoever is noted as removed completed its own removal |
| Overrides.MergeMapsRecursively | pkg/components/config_helper.go:53-77 | the loop over the keys, in any order, with nested copies, leaves the deep merge in place and does not touch the override |
| Overrides.MergedAt | pkg/components/config_helper.go:53-65 | what stands at every path of a merge |
| Overrides.OverrideLeafWins | pkg/components/config_helper.go:53-65 | a leaf of the override always wins |
| Overrides.BaseLeafSurvives | pkg/components/config_helper.go:53-65 | a leaf of the base survives exactly when the override replaces neither it nor a prefix of it |
| Overrides.MergeIsIdempotent | pkg/components/config_helper.go:53-65 | applying the same override again changes nothing |
| Overrides.OverridesCompose | pkg/components/config_helper.go:53-65 | two overrides may be merged first if and only if they never turn a map into something else and back into a smaller map |
| Overrides.OverridesNeedNotCompose | pkg/components/config_helper.go:53-65 | a map, then a plain value, then a map: the two orders differ |
| Overrides.ApplyOverrides | pkg/components/config_helper.go:122-140 | both override files are applied in order; a missing or malformed one is skipped |
| Overrides.SpecificOverrideWins | pkg/components/config_helper.go:122-140 | the override for the config map has the last word |
| ConditionList.Conditions.Set | pkg/apiproxy/ytsaurus.go:71-76 | the set type reads back its new status, every other type its old one, one entry per type, sorted |
| ConditionList.Conditions.Sort | pkg/apiproxy/ytsaurus.go:141-149 | the entries are ordered by status and age, none is lost or added, and entries with equal status and age keep their order |
| ConditionList.IsConditionTrue | pkg/apiproxy/ytsaurus.go:67-69 | the lookup answers what the list stands for |
| ConditionList.SortFacts | pkg/apiproxy/ytsaurus.go:141-149 | the sort orders the entries and keeps each of them |
| ConditionList.SortIsStable | pkg/apiproxy/ytsaurus.go:141-149 | entries that the comparison does not tell apart keep their order |
| ConditionList.ListRefinesMap | pkg/apiproxy/ytsaurus.go:67-76 | after any sequence of sets the list answers exactly like a map from types to statuses |
| Admission.ValidateInstanceSpec | api/v1/ytsaurus_webhook.go:430-454 | no error exactly when the deprecated flag is unset and every location lies in a mount |
| Admission.FindFirstLocation | api/v1/helpers.go:3-10 | the first location of the kind, exactly if there is one |
| Admission.ValidateHttpProxies | api/v1/ytsaurus_webhook.go:142-167 | no error exactly for unrepeated roles, valid instances and a default proxy |
| Admission.ValidateProxies | api/v1/ytsaurus_webhook.go:169-201 | no error exactly for unrepeated roles and valid instances |
| Admission.ValidateDataNodes | api/v1/ytsaurus_webhook.go:203-223 | unrepeated names, valid instances, a chunk store each |
| Admission.ValidateSidecars | api/v1/ytsaurus_webhook.go:225-241 | every sidecar parses and no name repeats |
| Admission.ValidateExecNodes | api/v1/ytsaurus_webhook.go:243-280 | unrepeated names, valid instances, cache and slots each, valid sidecars, a scheduler |
| Admission.ValidateTabletNodes | api/v1/ytsaurus_webhook.go:312-328 | unrepeated names and valid instances |
| Admission.ValidateHostAddresses | api/v1/ytsaurus_webhook.go:113-140 | host addresses need host network and one address per master |
| Admission.ValidatePrimaryMasters | api/v1/ytsaurus_webhook.go:72-99 | both locations, an unchanged cell tag, anti-affinity where needed |
| Admission.ValidateSecondaryMasters | api/v1/ytsaurus_webhook.go:101-111 | valid instances and host addresses |
| Admission.ValidateUi | api/v1/ytsaurus_webhook.go:408-426 | a secure UI needs HTTPS on the first default proxy |
| Admission.ValidateYtsaurus | api/v1/ytsaurus_webhook.go:481-505 | no error if and only if the spec is acceptable |
| Carcass.FindAllLocations | api/v1/helpers.go:12-20 | all locations of the kind, in order |
| Carcass.OfKindMeans | api/v1/helpers.go:12-20 | exactly the locations of the kind, none exactly if there is none |
| Carcass.FindVolumeMountForPath | pkg/ytconfig/node.go:218-225 | the first mount whose path is a prefix |
| Carcass.MountedMeans | pkg/ytconfig/node.go:218-225 | a mount is found exactly if one has a prefix of the path |
| Carcass.MasterServerCarcass | pkg/ytconfig/master.go:50-82 | fails exactly without a changelog or snapshot location, otherwise takes the first of each |
| Carcass.DataNodeServerCarcass | pkg/ytconfig/node.go:314-352 | fails exactly without a chunk store, otherwise lists all of them with their quotas |
| Carcass.ExecNodeServerCarcass | pkg/ytconfig/node.go:493-533 | fails exactly without a cache or slot location, otherwise lists all of them |
| Carcass.MasterAddresses | pkg/ytconfig/generator.go:58-76 | the given hosts, or one per pod, each with the port |
| Carcass.AdmissionIsSound | api/v1/ytsaurus_webhook.go:481-505 | every accepted spec has an HTTP proxy, buildable configs, a mount for every validated location, one address per master unless their number is negative, distinct component names, and all services it asks for |
| Carcass.NegativeMastersAreAccepted | api/v1/ytsaurus_webhook.go:72-99 | a negative number of masters passes admission |

## Left out

- Component `doSync` bodies are modelled on values, as a decision and one action per sync. The order of in-place changes inside one sync is kept for init jobs, pods, the client, the exit from read-only mode, the archive and the query tracker state.
- BringUp.EveryClusterComesUp: asks that the default bundle is there, which the YT cluster brings with it, or that the bundles are initialized already.
- JobIdentity.UpdatedMeansOneJobRan: that the API server gives every object an identity of its own is an assumption of the model.
- Reachability.EveryStopIsReachable: speaks of the Full flow, which has all the stops of the other three.
- Guarantees.WritesStayInTheirWindows: a server's own config maps and services count as part of the server; the config maps of init jobs are covered by `Actions.DecisionsAreAllowed` only.
- Overrides.MergeMapsRecursively: nested maps are values, so the sharing of an inner map between result and override is not modelled.
- ConditionList.Conditions.Sort: the library's stable sort is modelled by an insertion sort, which gives the same list.
- Carcass.ExecNodeServerCarcass: stops after the location loops; the job environment and logging that follow cannot fail.
- Reads of the status by a pass are current; stale caches of the API server are not modelled, nor are conflicts between two passes.
- The environment acts between passes, not within one, except that observations may differ between the survey, the status check and the sync.
- The `Ready` conditions, messages and reasons of components, and all logging and events.
- Requeue delays; only whether a pass changes anything is modelled.
- The CHYT, SPYT and remote node controllers, which repeat the init job pattern.
- Texts of configs, scripts, pod specs and volumes; the YSON, JSON and TOML encodings of configs; watermark heuristics and journal quorums.
- The monitoring port, which the generators dereference without a check: the API server fills in its default.
- Secrets, tokens and the YT HTTP client; calls are abstract effects that may fail.
