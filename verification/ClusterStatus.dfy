/** The persisted status of a Ytsaurus resource: what one reconcile pass loads, changes in
    memory and tries to store back. */
module ClusterStatus {

  datatype Option<+T> = None | Some(value: T)

  datatype ClusterState =
    Created | Initializing | Running | Reconfiguration | Updating | UpdateFinishing | CancelUpdate

  datatype UpdateState =
    | StateNone
    | PossibilityCheck
    | ImpossibleToStart
    | SafeModeEnabling
    | TabletCellsSaving
    | TabletCellsRemovingStart
    | TabletCellsRemoving
    | SnapshotsBuilding
    | PodsRemoval
    | PodsCreation
    | MasterExitingReadOnly
    | TabletCellsRecovery
    | OpArchivePreparing
    | OpArchiveUpdating
    | QTStatePreparing
    | QTStateUpdating
    | SafeModeDisabling

  datatype UpdateFlow = FlowNone | FlowStateless | FlowMaster | FlowTabletNodes | FlowFull

  /** Condition types kept in the update status. The last two are built from a component name. */
  datatype Condition =
    | HasPossibility
    | NoPossibility
    | SafeModeEnabled
    | TabletCellsSaved
    | TabletCellsRemovingStarted
    | TabletCellsRemoved
    | SnapshotsMonitoringInfoSaved
    | SnapshotsBuildingStarted
    | SnapshotsSaved
    | MasterExitReadOnlyPrepared
    | MasterExitedReadOnly
    | TabletCellsRecovered
    | NotNecessaryToUpdateOpArchive
    | OpArchivePreparedForUpdating
    | OpArchiveUpdated
    | QTStatePreparedForUpdating
    | QTStateUpdated
    | SafeModeDisabled
    | PodsRemovingStarted(name: string)
    | PodsRemoved(name: string)

  /** The one-shot Kubernetes jobs the operator runs, one constructor per (component, job) pair. */
  datatype JobId =
    | ClientUser
    | MasterDefault
    | ExitReadOnly
    | SchedulerUser
    | OpArchive
    | QTState
    | QAState
    | YqlEnvironment
    | UiDefault
    | StrawberryUser
    | StrawberryCluster

  datatype BundleInfo = BundleInfo(name: string, cellCount: nat)

  /** `components == None` is Go's nil slice and stands for "every updatable component". */
  datatype UpdateStatus = UpdateStatus(
    state: UpdateState,
    flow: UpdateFlow,
    components: Option<seq<string>>,
    conditions: map<Condition, bool>,
    bundles: seq<BundleInfo>,
    monitoringPaths: seq<string>)
  {
    predicate Has(c: Condition) { c in conditions && conditions[c] }

    function With(c: Condition, value: bool): UpdateStatus {
      this.(conditions := conditions[c := value])
    }
  }

  const Blank := UpdateStatus(StateNone, FlowNone, None, map[], [], [])

  /** `initDone` holds the init-job completion conditions; the three flags are the init
      conditions of the first tablet node, the query tracker and the queue agent. */
  datatype Status = Status(
    cluster: ClusterState,
    update: UpdateStatus,
    initDone: map<JobId, bool>,
    bundlesReady: bool,
    queryTrackerReady: bool,
    queueAgentReady: bool)
  {
    predicate Done(j: JobId) { j in initDone && initDone[j] }
    predicate MarkedUndone(j: JobId) { j in initDone && !initDone[j] }

    function WithCondition(c: Condition, value: bool): Status {
      this.(update := update.With(c, value))
    }
  }

  const Fresh := Status(Created, Blank, map[], false, false, false)

  /** What the API server holds after a status write: an empty component list is dropped by the
      JSON encoding and reads back as nil. */
  function Encoded(st: Status): Status {
    if st.update.components == Some([]) then st.(update := st.update.(components := None)) else st
  }

  /** How a call to the outside ended. A call may take effect although it reports an error. */
  datatype Outcome = Done | Lost | DoneButFailed

  // ----- the four update routes -----

  /** All routes visit their states in the order of this rank. */
  function Rank(s: UpdateState): nat {
    match s
    case StateNone => 0
    case PossibilityCheck => 1
    case ImpossibleToStart => 2
    case SafeModeEnabling => 3
    case TabletCellsSaving => 4
    case TabletCellsRemovingStart => 5
    case TabletCellsRemoving => 6
    case SnapshotsBuilding => 7
    case PodsRemoval => 8
    case PodsCreation => 9
    case MasterExitingReadOnly => 10
    case TabletCellsRecovery => 11
    case OpArchivePreparing => 12
    case OpArchiveUpdating => 13
    case QTStatePreparing => 14
    case QTStateUpdating => 15
    case SafeModeDisabling => 16
  }

  /** The stops of each route, without the dead end ImpossibleToStart. */
  predicate OnRoute(f: UpdateFlow, s: UpdateState) {
    match s
    case StateNone => f != FlowNone
    case PossibilityCheck => (f == FlowFull || f == FlowMaster || f == FlowTabletNodes)
    case ImpossibleToStart => false
    case SafeModeEnabling | SnapshotsBuilding | MasterExitingReadOnly | SafeModeDisabling => f == FlowFull || f == FlowMaster
    case TabletCellsSaving | TabletCellsRemovingStart | TabletCellsRemoving | TabletCellsRecovery =>
      f == FlowFull || f == FlowTabletNodes
    case PodsRemoval | PodsCreation => f != FlowNone
    case OpArchivePreparing | OpArchiveUpdating | QTStatePreparing | QTStateUpdating => f == FlowFull || f == FlowStateless
  }

  predicate HasCase(f: UpdateFlow, s: UpdateState) {
    OnRoute(f, s) || (s == ImpossibleToStart && (f == FlowFull || f == FlowMaster || f == FlowTabletNodes))
  }

  /** The first stop of route `f` whose rank is above `r`, if any. */
  function NextStop(f: UpdateFlow, r: nat): (next: Option<UpdateState>)
    ensures next.Some? ==> OnRoute(f, next.value) && Rank(next.value) > r
  {
    match f
    case FlowNone => None
    case FlowStateless =>
      if r < 8 then Some(PodsRemoval)
      else if r < 9 then Some(PodsCreation)
      else if r < 12 then Some(OpArchivePreparing)
      else if r < 13 then Some(OpArchiveUpdating)
      else if r < 14 then Some(QTStatePreparing)
      else if r < 15 then Some(QTStateUpdating)
      else None
    case FlowMaster =>
      if r < 1 then Some(PossibilityCheck)
      else if r < 3 then Some(SafeModeEnabling)
      else if r < 7 then Some(SnapshotsBuilding)
      else if r < 8 then Some(PodsRemoval)
      else if r < 9 then Some(PodsCreation)
      else if r < 10 then Some(MasterExitingReadOnly)
      else if r < 16 then Some(SafeModeDisabling)
      else None
    case FlowTabletNodes =>
      if r < 1 then Some(PossibilityCheck)
      else if r < 4 then Some(TabletCellsSaving)
      else if r < 5 then Some(TabletCellsRemovingStart)
      else if r < 6 then Some(TabletCellsRemoving)
      else if r < 8 then Some(PodsRemoval)
      else if r < 9 then Some(PodsCreation)
      else if r < 11 then Some(TabletCellsRecovery)
      else None
    case FlowFull =>
      if r < 1 then Some(PossibilityCheck)
      else if r < 3 then Some(SafeModeEnabling)
      else if r < 4 then Some(TabletCellsSaving)
      else if r < 5 then Some(TabletCellsRemovingStart)
      else if r < 6 then Some(TabletCellsRemoving)
      else if r < 7 then Some(SnapshotsBuilding)
      else if r < 8 then Some(PodsRemoval)
      else if r < 9 then Some(PodsCreation)
      else if r < 10 then Some(MasterExitingReadOnly)
      else if r < 11 then Some(TabletCellsRecovery)
      else if r < 12 then Some(OpArchivePreparing)
      else if r < 13 then Some(OpArchiveUpdating)
      else if r < 14 then Some(QTStatePreparing)
      else if r < 15 then Some(QTStateUpdating)
      else if r < 16 then Some(SafeModeDisabling)
      else None
  }

  /** No stop of the route lies between, and none is left behind the last. */
  lemma NextStopIsNext(f: UpdateFlow, r: nat, t: UpdateState)
    requires OnRoute(f, t) && Rank(t) > r
    ensures NextStop(f, r).Some? && Rank(NextStop(f, r).value) <= Rank(t)
  {}
}
