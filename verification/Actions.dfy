/** Which actions a component can decide on in which state, and what an action leaves alone. */
module Actions {
  import opened ClusterStatus
  import opened Components
  import opened World

  predicate OwnJob(k: Kind, j: JobId) {
    match j
    case ClientUser => k == YtsaurusClient
    case MasterDefault | ExitReadOnly => k == Master
    case SchedulerUser | OpArchive => k == Scheduler
    case QTState => k == QueryTracker
    case QAState => k == QueueAgent
    case YqlEnvironment => k == YqlAgent
    case UiDefault => k == UI
    case StrawberryUser | StrawberryCluster => k == StrawberryController
  }

  /** The states in which a job of an updating cluster may be created or completed. */
  predicate JobWindow(k: Kind, j: JobId, s: UpdateState) {
    match j
    case ClientUser => true
    case ExitReadOnly => s == MasterExitingReadOnly
    case _ => InWindow(k, s)
  }

  /** Jobs outside an update, and jobs that need tablet nodes. */
  predicate JobPlace(v: View, st: Status, k: Kind, j: JobId) {
    && (if st.cluster == Updating then JobWindow(k, j, st.update.state) else j != ExitReadOnly)
    && (j == OpArchive || j == SchedulerUser ==> |v.layout.tabletNodes| > 0)
  }

  predicate CompletesSeenJob(v: View, j: JobId) { j in v.jobs && v.jobs[j].succeeded }

  predicate JobAction(v: View, st: Status, c: Component, action: Action) {
    match action
    case Nothing => true
    case CreateJob(j) => OwnJob(c.kind, j) && j !in v.jobs && !st.Done(j) && JobPlace(v, st, c.kind, j)
    case CompleteJob(j) => OwnJob(c.kind, j) && CompletesSeenJob(v, j) && !st.Done(j) && JobPlace(v, st, c.kind, j)
    case _ => false
  }

  predicate SetsCondition(v: View, st: Status, c: Component, cond: Condition) {
    match cond
    case NotNecessaryToUpdateOpArchive =>
      c.kind == Scheduler && st.update.state == OpArchivePreparing && |v.layout.tabletNodes| == 0
    case OpArchivePreparedForUpdating =>
      c.kind == Scheduler && st.update.state == OpArchivePreparing && RestartPrepared(v, st, OpArchive)
    case OpArchiveUpdated => c.kind == Scheduler && st.update.state == OpArchiveUpdating && st.Done(OpArchive)
    case QTStatePreparedForUpdating =>
      c.kind == QueryTracker && st.update.state == QTStatePreparing && RestartPrepared(v, st, QTState)
    case QTStateUpdated => c.kind == QueryTracker && st.update.state == QTStateUpdating && st.Done(QTState)
    case _ => false
  }

  /** All a decision can ask for. Outside an update no update condition is touched; during one,
      server objects are written only by updating components in their window. */
  predicate Allowed(v: View, st: Status, c: Component, action: Action) {
    var s := st.update.state;
    match action
    case Nothing => true
    case WriteServer => st.cluster == Updating ==> IsUpdatingComponent(st, c) && InWindow(c.kind, s)
    case CreateAuxiliary =>
      st.cluster == Updating ==> c.kind == YtsaurusClient || (IsUpdatingComponent(st, c) && InWindow(c.kind, s))
    case CreateJob(_) => JobAction(v, st, c, action)
    case CompleteJob(_) => JobAction(v, st, c, action)
    case InitBundles => c.kind == TabletNode && st.cluster != Updating
    case InitQueryTracker(next) =>
      c.kind == QueryTracker && JobAction(v, st, c, next)
      && (st.cluster == Updating ==> InWindow(c.kind, s))
    case InitQueueAgent => c.kind == QueueAgent && (st.cluster == Updating ==> InWindow(c.kind, s))
    case RemovePods => st.cluster == Updating && IsUpdatingComponent(st, c) && s == PodsRemoval
    case PrepareRestart(j) =>
      st.cluster == Updating && IsUpdatingComponent(st, c)
      && ((j == OpArchive && s == OpArchivePreparing && c.kind == Scheduler && |v.layout.tabletNodes| > 0)
          || (j == QTState && s == QTStatePreparing && c.kind == QueryTracker))
    case SetCondition(cond) => st.cluster == Updating && IsUpdatingComponent(st, c) && SetsCondition(v, st, c, cond)
    case PrepareExit(restart) =>
      st.cluster == Updating && s == MasterExitingReadOnly && c.kind == Master
      && !st.update.Has(MasterExitReadOnlyPrepared) && (restart <==> !RestartPrepared(v, st, ExitReadOnly))
    case FinishExit =>
      st.cluster == Updating && s == MasterExitingReadOnly && c.kind == Master
      && st.update.Has(MasterExitReadOnlyPrepared) && st.Done(ExitReadOnly)
    case HandleUpdatingState => st.cluster == Updating && c.kind == YtsaurusClient
  }

  predicate PlainPlace(v: View, j: JobId) {
    j != ExitReadOnly && (j == OpArchive || j == SchedulerUser ==> |v.layout.tabletNodes| > 0)
  }

  predicate PlainJob(v: View, st: Status, k: Kind, action: Action) {
    match action
    case Nothing => true
    case CreateJob(j) => OwnJob(k, j) && PlainPlace(v, j) && j !in v.jobs && !st.Done(j)
    case CompleteJob(j) => OwnJob(k, j) && PlainPlace(v, j) && CompletesSeenJob(v, j) && !st.Done(j)
    case _ => false
  }

  /** What an ordinary sync, past all update handling, can ask for. */
  predicate Plain(v: View, st: Status, k: Kind, d: Decision) {
    d.Do? ==>
      match d.action
      case WriteServer => true
      case CreateAuxiliary => true
      case InitBundles => k == TabletNode && st.cluster != Updating
      case InitQueryTracker(next) => k == QueryTracker && PlainJob(v, st, k, next)
      case InitQueueAgent => k == QueueAgent
      case _ => PlainJob(v, st, k, d.action)
  }

  lemma JobPlain(v: View, st: Status, k: Kind, j: JobId, d: Decision)
    requires OwnJob(k, j) && PlainPlace(v, j) && Plain(v, st, k, d)
    ensures Plain(v, st, k, DecideJob(v, st, j))
    ensures Plain(v, st, k, AfterJob(v, st, j, d))
  {}

  /** The client is never Ready while pods are being created, so bundles are not initialized then. */
  lemma ClientNotReady(v: View, st: Status)
    requires |v.layout.httpProxies| > 0 && st.cluster == Updating && st.update.state != ImpossibleToStart
    ensures var d := Decide(v, st, Single(YtsaurusClient)); d.Do? ==> d.status != Ready
  {}

  lemma SchedulerPlain(v: View, st: Status, c: Component, g: GateSet)
    requires c.kind == Scheduler
    ensures Plain(v, st, c.kind, DecideScheduler(v, st, c, g))
  {
    if |v.layout.tabletNodes| > 0 {
      JobPlain(v, st, c.kind, OpArchive, Settled);
      JobPlain(v, st, c.kind, SchedulerUser, Then(g.tabletNodes, DecideJob(v, st, OpArchive)));
    }
  }

  lemma StrawberryPlain(v: View, st: Status, c: Component, g: GateSet)
    requires c.kind == StrawberryController
    ensures Plain(v, st, c.kind, DecideStrawberry(v, st, c, g))
  {
    var last := if NeedSync(v, st, c) then Do(Pending, WriteServer) else Settled;
    JobPlain(v, st, c.kind, StrawberryCluster, last);
    JobPlain(v, st, c.kind, StrawberryUser, AfterJob(v, st, StrawberryCluster, last));
  }

  lemma UiPlain(v: View, st: Status, c: Component, g: GateSet)
    requires c.kind == UI
    ensures Plain(v, st, c.kind, DecideUI(v, st, c, g))
  {
    var last := if NeedSync(v, st, c) then Do(Pending, WriteServer)
                else if !v.Of(c).podsReady then Do(Pending, Nothing)
                else Settled;
    JobPlain(v, st, c.kind, UiDefault, last);
  }

  lemma QueueAgentPlain(v: View, st: Status, c: Component, g: GateSet)
    requires c.kind == QueueAgent
    ensures Plain(v, st, c.kind, DecideQueueAgent(v, st, c, g))
  {
    JobPlain(v, st, c.kind, QAState, if st.queueAgentReady then Settled else Do(Pending, InitQueueAgent));
  }

  lemma OrdinaryIsPlain(v: View, st: Status, c: Component, g: GateSet)
    requires c.kind != YtsaurusClient
    requires st.cluster == Updating && c.kind == TabletNode ==> g.client != Open
    ensures Plain(v, st, c.kind, OrdinaryBehind(v, st, c, g))
  {
    match c.kind
    case Scheduler => SchedulerPlain(v, st, c, g);
    case StrawberryController => StrawberryPlain(v, st, c, g);
    case UI => UiPlain(v, st, c, g);
    case QueueAgent => QueueAgentPlain(v, st, c, g);
    case Master => JobPlain(v, st, c.kind, MasterDefault, Settled);
    case YqlAgent => JobPlain(v, st, c.kind, YqlEnvironment, Settled);
    case _ =>
  }

  lemma ClientGateShut(v: View, st: Status, c: Component)
    requires |v.layout.httpProxies| > 0 && c.kind == TabletNode
    requires st.cluster == Updating && st.update.state != ImpossibleToStart
    ensures GatesOf(v, st, c).client != Open
  {
    ClientNotReady(v, st);
  }

  lemma OrdinaryPlain(v: View, st: Status, c: Component)
    requires |v.layout.httpProxies| > 0 && c.kind != YtsaurusClient
    requires st.cluster == Updating ==> st.update.state != ImpossibleToStart
    ensures Plain(v, st, c.kind, DecideOrdinary(v, st, c))
  {
    if st.cluster == Updating && c.kind == TabletNode { ClientGateShut(v, st, c); }
    OrdinaryIsPlain(v, st, c, GatesOf(v, st, c));
  }

  lemma UpdatingAllowed(v: View, st: Status, c: Component)
    requires c.kind != YtsaurusClient && st.cluster == Updating && DecideUpdating(v, st, c).Some?
    ensures var d := DecideUpdating(v, st, c).value; d.Do? ==> Allowed(v, st, c, d.action)
  {}

  lemma ClientAllowed(v: View, st: Status, c: Component)
    requires |v.layout.httpProxies| > 0 && c.kind == YtsaurusClient
    ensures var d := DecideClient(v, st, c); d.Do? ==> Allowed(v, st, c, d.action)
  {}

  lemma PlainIsAllowed(v: View, st: Status, c: Component, d: Decision)
    requires d.Do? && Plain(v, st, c.kind, d)
    requires st.cluster == Updating ==> IsUpdatingComponent(st, c) && InWindow(c.kind, st.update.state)
    ensures Allowed(v, st, c, d.action)
  {}

  lemma OrdinaryAllowed(v: View, st: Status, c: Component)
    requires |v.layout.httpProxies| > 0 && c.kind != YtsaurusClient
    requires st.cluster == Updating ==> IsUpdatingComponent(st, c) && InWindow(c.kind, st.update.state)
    ensures var d := DecideOrdinary(v, st, c); d.Do? ==> Allowed(v, st, c, d.action)
  {
    var d := DecideOrdinary(v, st, c);
    OrdinaryPlain(v, st, c);
    if d.Do? { PlainIsAllowed(v, st, c, d); }
  }

  /** Every decision stays within these bounds, whatever the pass observed. */
  lemma DecisionsAreAllowed(v: View, st: Status, c: Component)
    requires |v.layout.httpProxies| > 0
    ensures Decide(v, st, c).Do? ==> Allowed(v, st, c, Decide(v, st, c).action)
  {
    if c.kind == YtsaurusClient {
      ClientAllowed(v, st, c);
    } else if st.cluster == Updating && DecideUpdating(v, st, c).Some? {
      UpdatingAllowed(v, st, c);
    } else if !(st.cluster == Running && v.Of(c).needUpdate) {
      OrdinaryAllowed(v, st, c);
    }
  }

  // ----- what actions leave alone -----

  /** Conditions only come, except the one the master takes back when it is done. */
  ghost predicate Grew(a: UpdateStatus, b: UpdateStatus) {
    && b.state == a.state && b.flow == a.flow && b.components == a.components
    && forall c :: a.Has(c) ==> b.Has(c) || c == MasterExitReadOnlyPrepared
  }

  /** No action changes the stored status, the place on the route or the list of components. */
  ghost predicate Framed(p: Pass, q: Pass) {
    && q.stored == p.stored
    && q.mem.cluster == p.mem.cluster
    && Grew(p.mem.update, q.mem.update)
    && p.cluster.log <= q.cluster.log
    && q.cluster.baseline == p.cluster.baseline
  }

  /** Conditions that only the YT client sets. */
  predicate ClientCondition(c: Condition) {
    match c
    case HasPossibility | NoPossibility | SafeModeEnabled | SafeModeDisabled => true
    case TabletCellsSaved | TabletCellsRemovingStarted | TabletCellsRemoved | TabletCellsRecovered => true
    case SnapshotsMonitoringInfoSaved | SnapshotsBuildingStarted | SnapshotsSaved => true
    case _ => false
  }

  /** What every action but the client's and the bundle initialization keeps: safe mode, tablet
      cells, and the part of the update status that belongs to the client. */
  ghost predicate Quiet(p: Pass, q: Pass) {
    && Framed(p, q)
    && q.cluster.safeMode == p.cluster.safeMode
    && q.cluster.cells == p.cluster.cells
    && q.cluster.bundles == p.cluster.bundles
    && q.mem.update.bundles == p.mem.update.bundles
    && q.mem.update.monitoringPaths == p.mem.update.monitoringPaths
    && forall c :: ClientCondition(c) ==> q.mem.update.Has(c) == p.mem.update.Has(c)
  }

  lemma PodsQuiet(p: Pass, c: Component, gone: bool, o: Outcome)
    ensures Quiet(p, RemovePodsStep(p, c, gone, o).pass)
  {}

  lemma CreateJobQuiet(p: Pass, j: JobId, o1: Outcome, o2: Outcome)
    ensures Quiet(p, CreateJobStep(p, j, o1, o2).pass)
    ensures CreateJobStep(p, j, o1, o2).pass.mem == p.mem
  {}

  lemma RestartQuiet(p: Pass, v: View, j: JobId, o1: Outcome, o2: Outcome)
    ensures var q := PrepareRestartStep(p, v, j, o1, o2).pass;
      Quiet(p, q) && q.mem.update == p.mem.update && q.cluster.log == p.cluster.log
  {}

  lemma NoteQuiet(p: Pass, c: Condition)
    requires !ClientCondition(c)
    ensures Quiet(p, p.Note(c))
  {}

  lemma LogQuiet(p: Pass, o: Outcome, e: Event)
    ensures Quiet(p, Applied(p, o, p.cluster.Log(e)).pass)
  {}

  lemma ExitQuiet(p: Pass, v: View, restart: bool, o1: Outcome, o2: Outcome)
    ensures var s := if restart then PrepareRestartStep(p, v, ExitReadOnly, o1, o2) else Step(p, true);
      Quiet(p, Bind(s, s.pass.Note(MasterExitReadOnlyPrepared)).pass)
  {
    RestartQuiet(p, v, ExitReadOnly, o1, o2);
    var s := if restart then PrepareRestartStep(p, v, ExitReadOnly, o1, o2) else Step(p, true);
    NoteQuiet(s.pass, MasterExitReadOnlyPrepared);
  }

  lemma MemoryQuiet(p: Pass, v: View, c: Component, action: Action, b: (nat, nat), a: Answers)
    requires action in {Nothing, FinishExit, InitQueueAgent} || action.CompleteJob?
    ensures Quiet(p, Perform(p, v, c, action, b, a).pass)
  {}

  lemma {:induction false} PerformQuiet(p: Pass, v: View, c: Component, action: Action, b: (nat, nat), a: Answers)
    requires Allowed(v, p.mem, c, action)
    requires action != HandleUpdatingState && action != InitBundles
    ensures Quiet(p, Perform(p, v, c, action, b, a).pass)
    decreases action
  {
    var o := a.CallsOf(c);
    match action
    case RemovePods => PodsQuiet(p, c, v.Of(c).podsGone, o.first);
    case WriteServer => LogQuiet(p, o.first, ServerWritten(c, p.mem.update.state));
    case CreateAuxiliary => LogQuiet(p, o.first, AuxiliaryCreated(c, p.mem.update.state));
    case CreateJob(j) => CreateJobQuiet(p, j, o.first, o.second);
    case PrepareRestart(j) => RestartQuiet(p, v, j, o.first, o.second);
    case PrepareExit(restart) => ExitQuiet(p, v, restart, o.first, o.second);
    case SetCondition(cond) => NoteQuiet(p, cond);
    case InitQueryTracker(next) =>
      if !a.clientMissing && o.third == Done {
        PerformQuiet(p.(mem := p.mem.(queryTrackerReady := true)), v, c, next, b, a);
      }
    case _ => MemoryQuiet(p, v, c, action, b, a);
  }

  lemma {:induction false} RemoveCellsFrame(k: Cluster, ids: seq<nat>, outs: seq<Outcome>)
    ensures var r := RemoveCells(k, ids, outs).cluster;
      && k.log <= r.log
      && r == k.(cells := r.cells, log := r.log)
      && |r.cells| == |k.cells|
      && (forall i :: 0 <= i < |r.cells| ==> r.cells[i].bundle == k.cells[i].bundle)
      && (forall i :: 0 <= i < |r.log| ==> i < |k.log| || r.log[i].CellRemovalRequested?)
    decreases |ids|
  {
    if ids != [] && First(outs) == Done { RemoveCellsFrame(RemoveCell(k, ids[0]), ids[1..], Rest(outs)); }
  }

  lemma {:induction false} CreateCellsFrame(k: Cluster, bundle: string, missing: nat, outs: seq<Outcome>)
    ensures var r := CreateCells(k, bundle, missing, outs).cluster;
      && k.log <= r.log && k.cells <= r.cells
      && r == k.(cells := r.cells, nextId := r.nextId, log := r.log) && k.nextId <= r.nextId
      && (forall i :: 0 <= i < |r.log| ==> i < |k.log| || r.log[i].CellCreated?)
      && (forall i :: 0 <= i < |r.cells| ==> i < |k.cells| || (r.cells[i].bundle == bundle && !r.cells[i].dying))
    decreases missing
  {
    if missing > 0 && First(outs) == Done { CreateCellsFrame(CreateCell(k, bundle), bundle, missing - 1, Rest(outs)); }
  }

  lemma {:induction false} RecoverCellsFrame(k: Cluster, infos: seq<BundleInfo>, outs: seq<Outcome>)
    ensures var r := RecoverCells(k, infos, outs).cluster;
      && k.log <= r.log && k.cells <= r.cells
      && r == k.(cells := r.cells, nextId := r.nextId, log := r.log) && k.nextId <= r.nextId
      && (forall i :: 0 <= i < |r.log| ==> i < |k.log| || r.log[i].CellCreated?)
      && (forall i :: 0 <= i < |r.cells| ==> i < |k.cells| || (r.cells[i].bundle in k.bundles && !r.cells[i].dying))
    decreases |infos|
  {
    if infos != [] {
      var c := FillBundle(k, infos[0], outs);
      if First(outs) == Done && infos[0].name in k.bundles {
        var have := Count(k.cells, infos[0].name);
        CreateCellsFrame(k, infos[0].name, if have < infos[0].cellCount then infos[0].cellCount - have else 0, Rest(outs));
      }
      if c.ok { RecoverCellsFrame(c.cluster, infos[1..], c.outs); }
    }
  }

  lemma {:induction false} SnapshotReadsFrame(k: Cluster, paths: seq<string>, answers: seq<Option<bool>>)
    ensures var r := SnapshotReads(k, paths, answers);
      && k.log <= r.0.log
      && r.0 == k.(log := r.0.log)
      && (forall i :: 0 <= i < |r.0.log| ==> i < |k.log| || r.0.log[i].ReadOnlySnapshotSeen?)
      && (r.1 == Some(true) ==> forall p :: p in paths ==> ReadOnlySnapshotSeen(p) in r.0.log)
    decreases |paths|
  {
    if paths != [] && answers != [] && answers[0] == Some(true) {
      var k' := k.Log(ReadOnlySnapshotSeen(paths[0]));
      SnapshotReadsFrame(k', paths[1..], answers[1..]);
      assert k'.log[|k.log|] == ReadOnlySnapshotSeen(paths[0]);
    }
  }

  /** The client's step touches no job. */
  ghost predicate ClientFramed(p: Pass, q: Pass) {
    && Framed(p, q)
    && q.cluster.jobs == p.cluster.jobs
    && q.cluster.jobConfigs == p.cluster.jobConfigs
    && q.cluster.bundles == p.cluster.bundles
    && q.mem == p.mem.(update := q.mem.update)
    && forall c :: !ClientCondition(c) ==> q.mem.update.Has(c) == p.mem.update.Has(c)
  }

  lemma ClientFramedTrans(p: Pass, q: Pass, r: Pass)
    requires ClientFramed(p, q) && ClientFramed(q, r)
    ensures ClientFramed(p, r)
  {}

  lemma SwitchFrame(p: Pass, on: bool, yt: YtAnswers)
    ensures ClientFramed(p, SwitchSafeMode(p, on, if on then SafeModeEnabled else SafeModeDisabled, yt).pass)
  {}

  lemma RemovingFrame(p: Pass, yt: YtAnswers)
    ensures ClientFramed(p, StartRemovingCells(p, yt).pass)
  {
    RemoveCellsFrame(p.cluster, Ids(p.cluster.cells), Rest(yt.outcomes));
  }

  lemma RestoringFrame(p: Pass, yt: YtAnswers)
    ensures ClientFramed(p, RestoreCells(p, yt).pass)
  {
    RecoverCellsFrame(p.cluster, p.mem.update.bundles, yt.outcomes);
  }

  lemma SavingFrame(p: Pass, yt: YtAnswers)
    ensures ClientFramed(p, SaveCells(p, yt).pass)
  {}

  lemma NoCellsFrame(p: Pass, yt: YtAnswers)
    ensures ClientFramed(p, AwaitNoCells(p, yt).pass)
  {}

  lemma PossibilityFrame(p: Pass, yt: YtAnswers)
    ensures ClientFramed(p, CheckPossibility(p, yt).pass)
  {}

  lemma PathsFrame(p: Pass, yt: YtAnswers)
    ensures ClientFramed(p, SaveMonitoringPaths(p, yt).pass)
  {}

  lemma StartFrame(p: Pass, yt: YtAnswers)
    ensures ClientFramed(p, StartSnapshots(p, yt).pass)
  {}

  lemma AwaitFrame(p: Pass, yt: YtAnswers)
    ensures ClientFramed(p, AwaitSnapshots(p, yt).pass)
  {
    SnapshotReadsFrame(p.cluster, p.mem.update.monitoringPaths, yt.snapshots);
  }

  lemma SnapshotsFrame(p: Pass, yt: YtAnswers)
    ensures ClientFramed(p, BuildSnapshots(p, yt).pass)
  {
    var s := SaveMonitoringPaths(p, yt);
    var t := StartSnapshots(s.pass, yt);
    PathsFrame(p, yt);
    StartFrame(s.pass, yt);
    AwaitFrame(t.pass, yt);
    ClientFramedTrans(p, s.pass, t.pass);
    ClientFramedTrans(p, t.pass, AwaitSnapshots(t.pass, yt).pass);
  }

  lemma ClientFrame(p: Pass, yt: YtAnswers)
    ensures ClientFramed(p, ClientStep(p, yt).pass)
  {
    match p.mem.update.state
    case SafeModeEnabling => SwitchFrame(p, true, yt);
    case SafeModeDisabling => SwitchFrame(p, false, yt);
    case TabletCellsRemovingStart => RemovingFrame(p, yt);
    case TabletCellsRecovery => RestoringFrame(p, yt);
    case SnapshotsBuilding => SnapshotsFrame(p, yt);
    case PossibilityCheck => PossibilityFrame(p, yt);
    case TabletCellsSaving => SavingFrame(p, yt);
    case TabletCellsRemoving => NoCellsFrame(p, yt);
    case _ =>
  }

  /** Outside an update no action touches the update status. */
  lemma {:induction false} OutsideUpdate(p: Pass, v: View, c: Component, action: Action, b: (nat, nat), a: Answers)
    requires Allowed(v, p.mem, c, action) && p.mem.cluster != Updating
    ensures Perform(p, v, c, action, b, a).pass.mem.update == p.mem.update
    decreases action
  {
    var o := a.CallsOf(c);
    match action
    case CreateJob(j) => CreateJobQuiet(p, j, o.first, o.second);
    case InitQueryTracker(next) =>
      if !a.clientMissing && o.third == Done {
        OutsideUpdate(p.(mem := p.mem.(queryTrackerReady := true)), v, c, next, b, a);
      }
    case _ =>
  }

  // ----- which events an action adds -----

  /** Events of the client: about the YT cluster, never about jobs, servers or pods. */
  predicate ClientEvent(e: Event) {
    match e
    case ScaledToZero(_, _) => false
    case PodsSeenGone(_) => false
    case ServerWritten(_, _) => false
    case AuxiliaryCreated(_, _) => false
    case JobCreated(_, _, _) => false
    case JobSucceeded(_, _) => false
    case _ => true
  }

  ghost predicate AddsClientEvents(k: Cluster, r: Cluster) {
    k.log <= r.log && forall i :: |k.log| <= i < |r.log| ==> ClientEvent(r.log[i])
  }

  lemma SnapshotEvents(p: Pass, yt: YtAnswers)
    ensures AddsClientEvents(p.cluster, BuildSnapshots(p, yt).pass.cluster)
  {
    var s := SaveMonitoringPaths(p, yt).pass;
    var t := StartSnapshots(s, yt).pass;
    assert AddsClientEvents(p.cluster, s.cluster) && AddsClientEvents(p.cluster, t.cluster);
    SnapshotReadsFrame(t.cluster, t.mem.update.monitoringPaths, yt.snapshots);
  }

  lemma ClientEvents(p: Pass, yt: YtAnswers)
    ensures AddsClientEvents(p.cluster, ClientStep(p, yt).pass.cluster)
  {
    match p.mem.update.state
    case TabletCellsRemovingStart => RemoveCellsFrame(p.cluster, Ids(p.cluster.cells), Rest(yt.outcomes));
    case TabletCellsRecovery => RecoverCellsFrame(p.cluster, p.mem.update.bundles, yt.outcomes);
    case SnapshotsBuilding => SnapshotEvents(p, yt);
    case _ =>
  }

  lemma InitBundlesEvents(p: Pass, b: (nat, nat), outs: seq<Outcome>)
    ensures var q := InitBundlesStep(p, b, outs).pass;
      AddsClientEvents(p.cluster, q.cluster) && q.cluster.jobs == p.cluster.jobs && q.mem == p.mem.(bundlesReady := q.mem.bundlesReady)
  {
    var s := EnsureSysBundle(p.cluster, outs);
    RecoverCellsFrame(s.cluster, [BundleInfo("default", b.0), BundleInfo("sys", b.1)], Rest(s.outs));
  }

  /** What an action logs beside the client's events. */
  predicate EventOf(c: Component, action: Action, e: Event) {
    || ClientEvent(e)
    || (action == RemovePods && (e.ScaledToZero? || e == PodsSeenGone(c)))
    || (action == WriteServer && e.ServerWritten?)
    || (action == CreateAuxiliary && e.AuxiliaryCreated?)
    || (e.JobCreated? && (action == CreateJob(e.job) || action == InitQueryTracker(CreateJob(e.job))))
  }

  ghost predicate Logs(c: Component, action: Action, k: Cluster, r: Cluster) {
    k.log <= r.log && forall i :: |k.log| <= i < |r.log| ==> EventOf(c, action, r.log[i])
  }

  lemma SmallLogs(p: Pass, v: View, c: Component, action: Action, b: (nat, nat), a: Answers)
    requires action in {Nothing, FinishExit, InitQueueAgent} || action.CompleteJob? || action.SetCondition?
    ensures Perform(p, v, c, action, b, a).pass.cluster.log == p.cluster.log
  {}

  lemma ServerLogs(p: Pass, v: View, c: Component, action: Action, b: (nat, nat), a: Answers)
    requires action == RemovePods || action == WriteServer || action == CreateAuxiliary
    ensures Logs(c, action, p.cluster, Perform(p, v, c, action, b, a).pass.cluster)
  {}

  lemma CreateLogs(p: Pass, c: Component, j: JobId, o1: Outcome, o2: Outcome)
    ensures Logs(c, CreateJob(j), p.cluster, CreateJobStep(p, j, o1, o2).pass.cluster)
  {}

  lemma QueryTrackerLogs(p: Pass, v: View, c: Component, next: Action, b: (nat, nat), a: Answers)
    requires next == Nothing || next.CreateJob? || next.CompleteJob?
    ensures Logs(c, InitQueryTracker(next), p.cluster, Perform(p, v, c, InitQueryTracker(next), b, a).pass.cluster)
  {
    if next.CreateJob? {
      CreateLogs(p.(mem := p.mem.(queryTrackerReady := true)), c, next.job, a.CallsOf(c).first, a.CallsOf(c).second);
    }
  }

  lemma PerformLogs(p: Pass, v: View, c: Component, action: Action, b: (nat, nat), a: Answers)
    requires Allowed(v, p.mem, c, action)
    ensures Logs(c, action, p.cluster, Perform(p, v, c, action, b, a).pass.cluster)
  {
    var o := a.CallsOf(c);
    match action
    case RemovePods => ServerLogs(p, v, c, action, b, a);
    case WriteServer => ServerLogs(p, v, c, action, b, a);
    case CreateAuxiliary => ServerLogs(p, v, c, action, b, a);
    case CreateJob(j) => CreateLogs(p, c, j, o.first, o.second);
    case PrepareRestart(j) => RestartQuiet(p, v, j, o.first, o.second);
    case PrepareExit(_) => RestartQuiet(p, v, ExitReadOnly, o.first, o.second);
    case HandleUpdatingState => ClientEvents(p, a.yt);
    case InitBundles => InitBundlesEvents(p, b, a.yt.outcomes);
    case InitQueryTracker(next) => QueryTrackerLogs(p, v, c, next, b, a);
    case _ => SmallLogs(p, v, c, action, b, a);
  }
}
