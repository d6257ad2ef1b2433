/** One reconcile pass as a function of the stored status, the cluster and the environment's
    answers, and runs of such passes interleaved with steps of the environment. */
module Reconcile {
  import opened ClusterStatus
  import opened Components
  import opened World
  import opened FlowChoice

  datatype Spec = Spec(
    managed: bool,
    layout: Layout,
    selector: Selector,
    enableFullUpdate: bool,
    bootstrap: (nat, nat))

  /** What outlives a pass. */
  datatype State = State(stored: Status, cluster: Cluster)

  // ----- surveying the components -----

  datatype Survey = Survey(
    needSync: bool,
    needInit: bool,
    needUpdate: seq<Component>,
    allReadyOrUpdating: bool)

  function Counted(s: Survey, c: Component, status: SyncStatus): Survey {
    Survey(
      s.needSync || status != Ready,
      s.needInit || !IsRunning(status),
      if status == NeedLocalUpdate then s.needUpdate + [c] else s.needUpdate,
      s.allReadyOrUpdating && (status == Ready || status == SyncUpdating))
  }

  /** `None` when some component fails to report its status. */
  function SurveyOf(v: View, st: Status, cs: seq<Component>): Option<Survey>
  {
    if cs == [] then Some(Survey(false, false, [], true))
    else
      match SurveyOf(v, st, cs[..|cs| - 1])
      case None => None
      case Some(s) =>
        match Decide(v, st, cs[|cs| - 1])
        case Fail => None
        case Do(status, _) => Some(Counted(s, cs[|cs| - 1], status))
  }

  /** Asking the scheduler for its status already sets this condition in memory. */
  function Marked(l: Layout, st: Status): Status {
    if l.schedulers && |l.tabletNodes| == 0 && st.cluster == Updating
       && st.update.state == OpArchivePreparing && IsUpdatingComponent(st, Single(Scheduler))
    then st.WithCondition(NotNecessaryToUpdateOpArchive, true)
    else st
  }

  // ----- the flow handlers -----

  predicate ArePodsRemoved(l: Layout, st: Status) {
    forall c :: c in AllComponents(l) && IsUpdatingComponent(st, c) ==> st.update.Has(PodsRemoved(c.name))
  }

  predicate NeedSchedulerUpdate(l: Layout, st: Status) {
    l.schedulers && IsUpdatingComponent(st, Single(Scheduler))
  }

  predicate NeedQueryTrackerUpdate(l: Layout, st: Status) {
    HasQueryTracker(l) && IsUpdatingComponent(st, Single(QueryTracker))
  }

  /** At each stop of a route: wait, go to the next stop, jump over the next stop, or give up. */
  datatype Signal = Hold | Go | Skip | Refuse

  function When(b: bool): Signal { if b then Go else Hold }

  function SignalAt(l: Layout, st: Status, allReadyOrUpdating: bool): Signal {
    var u := st.update;
    match u.state
    case StateNone => Go
    case PossibilityCheck => if u.Has(HasPossibility) then Go else if u.Has(NoPossibility) then Refuse else Hold
    case ImpossibleToStart => Hold
    case SafeModeEnabling => When(u.Has(SafeModeEnabled))
    case TabletCellsSaving => When(u.Has(TabletCellsSaved))
    case TabletCellsRemovingStart => When(u.Has(TabletCellsRemovingStarted))
    case TabletCellsRemoving => When(u.Has(TabletCellsRemoved))
    case SnapshotsBuilding => When(u.Has(SnapshotsSaved))
    case PodsRemoval => When(ArePodsRemoved(l, st))
    case PodsCreation => When(allReadyOrUpdating)
    case MasterExitingReadOnly => When(u.Has(MasterExitedReadOnly))
    case TabletCellsRecovery => When(u.Has(TabletCellsRecovered))
    case OpArchivePreparing =>
      if !NeedSchedulerUpdate(l, st) || u.Has(NotNecessaryToUpdateOpArchive) then Skip
      else When(u.Has(OpArchivePreparedForUpdating))
    case OpArchiveUpdating => When(u.Has(OpArchiveUpdated))
    case QTStatePreparing =>
      if !NeedQueryTrackerUpdate(l, st) then Skip else When(u.Has(QTStatePreparedForUpdating))
    case QTStateUpdating => When(u.Has(QTStateUpdated))
    case SafeModeDisabling => When(u.Has(SafeModeDisabled))
  }

  datatype Move = Stay | ToUpdate(update: UpdateState) | ToCluster(cluster: ClusterState)

  function Toward(next: Option<UpdateState>): Move {
    if next.Some? then ToUpdate(next.value) else ToCluster(UpdateFinishing)
  }

  /** Where an updating cluster goes: along its route, into the dead end, or out of the update. */
  function Advance(spec: Spec, st: Status, s: Survey): Move {
    var f, here := st.update.flow, st.update.state;
    if !HasCase(f, here) then Stay
    else if here == ImpossibleToStart then
      if !s.needSync || !spec.enableFullUpdate then ToCluster(CancelUpdate) else Stay
    else
      match SignalAt(spec.layout, st, s.allReadyOrUpdating)
      case Hold => Stay
      case Go => Toward(NextStop(f, Rank(here)))
      case Skip => Toward(NextStop(f, Rank(here) + 1))
      case Refuse => ToUpdate(ImpossibleToStart)
  }

  // ----- status writes -----

  function Store(p: Pass, o: Outcome): Step {
    Step(if o == Lost then p else p.(stored := Encoded(p.mem)), o == Done)
  }

  function SaveClusterState(p: Pass, c: ClusterState, o: Outcome): Step {
    Store(p.(mem := p.mem.(cluster := c)), o)
  }

  function SaveUpdateState(p: Pass, s: UpdateState, o: Outcome): Step {
    Store(p.(mem := p.mem.(update := p.mem.update.(state := s))), o)
  }

  function ClearUpdateStatus(p: Pass, o: Outcome): Step {
    Store(p.(mem := p.mem.(update := Blank.(state := p.mem.update.state))), o)
  }

  /** A stored start of an update opens a new log and remembers the tablet cells. */
  function SaveUpdatingClusterState(p: Pass, f: UpdateFlow, names: Option<seq<string>>, o: Outcome): Step {
    var q := p.(mem := p.mem.(cluster := Updating, update := p.mem.update.(flow := f, components := names)));
    var s := Store(q, o);
    if o == Lost then s
    else s.(pass := s.pass.(cluster := s.pass.cluster.(log := [], baseline := s.pass.cluster.cells)))
  }

  /** Leaving UpdateFinishing or CancelUpdate: three writes, each only after the one before it. */
  function ReturnToRunning(p: Pass, w: Outcomes): Pass {
    var a := SaveUpdateState(p, StateNone, w.first);
    if !a.ok then a.pass
    else
      var b := ClearUpdateStatus(a.pass, w.second);
      if !b.ok then b.pass else SaveClusterState(b.pass, Running, w.third).pass
  }

  // ----- syncing the components -----

  function ViewOf(spec: Spec, k: Cluster, seen: map<string, Observation>, a: Answers): View {
    View(spec.layout, seen, k.jobs, k.jobConfigs, a.clientFails)
  }

  /** `fetched` is the cluster as the pass found it: jobs are read once, at its start. */
  function SyncOne(p: Pass, spec: Spec, fetched: Cluster, a: Answers, c: Component): Step
  {
    match Decide(ViewOf(spec, fetched, a.checked, a), p.mem, c)
    case Fail => Step(p, false)
    case Do(status, _) =>
      if status != Pending && status != SyncUpdating then Step(p, true)
      else
        var v := ViewOf(spec, fetched, a.synced, a);
        match Decide(v, p.mem, c)
        case Fail => Step(p, false)
        case Do(_, action) => Perform(p, v, c, action, spec.bootstrap, a)
  }

  function SyncAll(p: Pass, spec: Spec, fetched: Cluster, a: Answers, cs: seq<Component>): Step
    decreases |cs|
  {
    if cs == [] then Step(p, true)
    else
      var s := SyncOne(p, spec, fetched, a, cs[0]);
      if s.ok then SyncAll(s.pass, spec, fetched, a, cs[1..]) else s
  }

  /** ComponentManager.Sync: the status is written only if every component synced. */
  function SyncComponents(p: Pass, spec: Spec, a: Answers): Pass
  {
    var s := SyncAll(p, spec, p.cluster, a, AllComponents(spec.layout));
    if s.ok then Store(s.pass, a.writes.first).pass else s.pass
  }

  // ----- the pass -----

  function Dispatch(p: Pass, spec: Spec, s: Survey, a: Answers): Pass
  {
    DispatchOr(p, spec, s, a.writes, SyncComponents(p, spec, a))
  }

  /** The switch over the cluster state; `synced` is what it falls through to. */
  function DispatchOr(p: Pass, spec: Spec, s: Survey, w: Outcomes, synced: Pass): Pass {
    match p.mem.cluster
    case Created => SaveClusterState(p, Initializing, w.first).pass
    case Initializing =>
      if !s.needSync then SaveClusterState(p, Running, w.first).pass else synced
    case Running =>
      if !s.needSync then p
      else if s.needInit then SaveClusterState(p, Reconfiguration, w.first).pass
      else if s.needUpdate != [] then
        (match Choose(spec.selector, spec.enableFullUpdate, s.needUpdate)
         case Refused => p
         case Chosen(f, names) => SaveUpdatingClusterState(p, f, names, w.first).pass)
      else synced
    case Updating =>
      (match Advance(spec, p.mem, s)
       case Stay => synced
       case ToUpdate(u) => SaveUpdateState(p, u, w.first).pass
       case ToCluster(c) => SaveClusterState(p, c, w.first).pass)
    case CancelUpdate | UpdateFinishing => ReturnToRunning(p, w)
    case Reconfiguration =>
      if !s.needInit then SaveClusterState(p, Running, w.first).pass else synced
  }

  /** A pass with an unmanaged spec, no HTTP proxy, a failed fetch or a failed status changes nothing. */
  function RunPass(w: State, spec: Spec, a: Answers): State {
    if !spec.managed || |spec.layout.httpProxies| == 0 || a.fetchFails then w
    else
      match SurveyOf(ViewOf(spec, w.cluster, a.surveyed, a), w.stored, AllComponents(spec.layout))
      case None => w
      case Some(s) =>
        var p := Dispatch(Pass(Marked(spec.layout, w.stored), w.stored, w.cluster), spec, s, a);
        State(p.stored, p.cluster)
  }

  // ----- runs -----

  /** Steps of the environment: a job succeeds, a job object goes away (deletion finished, its time
      to live ran out, or somebody removed it), or a cell marked for removal goes away. */
  datatype EnvEvent = JobSucceeds(job: JobId) | JobGone(job: JobId) | CellGone(index: nat)

  function EnvStep(k: Cluster, e: EnvEvent): Cluster {
    match e
    case JobSucceeds(j) =>
      if j in k.jobs && !k.jobs[j].succeeded
      then k.(jobs := k.jobs[j := k.jobs[j].(succeeded := true)]).Log(JobSucceeded(j, k.jobs[j].uid))
      else k
    case JobGone(j) => k.(jobs := k.jobs - {j})
    case CellGone(i) =>
      if i < |k.cells| && k.cells[i].dying then k.(cells := k.cells[..i] + k.cells[i + 1..]) else k
  }

  /** The spec belongs to the label: a user may change it between any two passes. */
  datatype Label = PassWith(spec: Spec, answers: Answers) | Env(event: EnvEvent)

  function Next(w: State, act: Label): State {
    match act
    case PassWith(spec, a) => RunPass(w, spec, a)
    case Env(e) => w.(cluster := EnvStep(w.cluster, e))
  }

  function Run(w: State, labels: seq<Label>): State {
    if labels == [] then w else Next(Run(w, labels[..|labels| - 1]), labels[|labels| - 1])
  }

  /** A fresh resource on a cluster with safe mode off and no cell being removed; old jobs may be around. */
  ghost predicate Initial(w: State) {
    && w.stored == Fresh
    && !w.cluster.safeMode
    && (forall i :: 0 <= i < |w.cluster.cells| ==> !w.cluster.cells[i].dying)
    && (forall i, j :: 0 <= i < j < |w.cluster.bundles| ==> w.cluster.bundles[i] != w.cluster.bundles[j])
    && (forall i :: 0 <= i < |w.cluster.cells| ==> w.cluster.cells[i].bundle in w.cluster.bundles)
  }
}
