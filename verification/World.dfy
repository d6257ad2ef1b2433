/** The cluster outside the operator, and what every action of a pass does to it and to the
    in-memory status. */
module World {
  import opened ClusterStatus
  import opened Components
  import PossibilityCheck

  /** Removing a cell only marks it; the cell goes away later. */
  datatype Cell = Cell(id: nat, bundle: string, dying: bool)

  /** What happened to the cluster, and what the operator saw of it, since the update began. */
  datatype Event =
    | PossibilityPassed
    | SafeModeSet(on: bool)
    | CellRemovalRequested(id: nat)
    | CellCreated(bundle: string)
    | CellsSaved(infos: seq<BundleInfo>)
    | NoCellsSeen
    | MastersListed(masters: seq<seq<string>>)
    | SnapshotsRequested
    | ReadOnlySnapshotSeen(path: string)
    | ScaledToZero(component: Component, during: UpdateState)
    | PodsSeenGone(component: Component)
    | ServerWritten(component: Component, during: UpdateState)
    | AuxiliaryCreated(component: Component, during: UpdateState)
    | JobCreated(job: JobId, uid: nat, during: UpdateState)
    | JobSucceeded(job: JobId, uid: nat)

  /** `log` and `baseline` are bookkeeping: they restart when an update is stored, and record
      events and the tablet cells from then on. */
  datatype Cluster = Cluster(
    safeMode: bool,
    bundles: seq<string>,
    cells: seq<Cell>,
    jobs: map<JobId, JobObject>,
    jobConfigs: set<JobId>,
    nextId: nat,
    log: seq<Event>,
    baseline: seq<Cell>)
  {
    function Log(e: Event): Cluster { this.(log := log + [e]) }
  }

  // ----- tablet cells -----

  function Count(cells: seq<Cell>, b: string): nat {
    if cells == [] then 0 else (if cells[0].bundle == b then 1 else 0) + Count(cells[1..], b)
  }

  function Census(bundles: seq<string>, cells: seq<Cell>): (infos: seq<BundleInfo>)
    ensures |infos| == |bundles|
    ensures forall i :: 0 <= i < |infos| ==> infos[i] == BundleInfo(bundles[i], Count(cells, bundles[i]))
  {
    seq(|bundles|, i requires 0 <= i < |bundles| => BundleInfo(bundles[i], Count(cells, bundles[i])))
  }

  function First(outs: seq<Outcome>): Outcome { if outs == [] then Done else outs[0] }
  function Rest(outs: seq<Outcome>): seq<Outcome> { if outs == [] then [] else outs[1..] }

  /** The cluster after some calls, whether they all succeeded, and the outcomes not yet used. */
  datatype Calls = Calls(cluster: Cluster, ok: bool, outs: seq<Outcome>)

  function MarkDying(cells: seq<Cell>, id: nat): (r: seq<Cell>)
    ensures |r| == |cells|
    ensures forall i :: 0 <= i < |r| ==> r[i] == cells[i].(dying := cells[i].dying || cells[i].id == id)
  {
    seq(|cells|, i requires 0 <= i < |cells| => cells[i].(dying := cells[i].dying || cells[i].id == id))
  }

  function Ids(cells: seq<Cell>): seq<nat> { seq(|cells|, i requires 0 <= i < |cells| => cells[i].id) }

  function RemoveCell(k: Cluster, id: nat): Cluster {
    k.(cells := MarkDying(k.cells, id)).Log(CellRemovalRequested(id))
  }

  function RemoveCells(k: Cluster, ids: seq<nat>, outs: seq<Outcome>): Calls
    decreases |ids|
  {
    if ids == [] then Calls(k, true, outs)
    else
      var o := First(outs);
      var k' := if o == Lost then k else RemoveCell(k, ids[0]);
      if o == Done then RemoveCells(k', ids[1..], Rest(outs)) else Calls(k', false, Rest(outs))
  }

  function CreateCell(k: Cluster, bundle: string): Cluster {
    k.(cells := k.cells + [Cell(k.nextId, bundle, false)], nextId := k.nextId + 1).Log(CellCreated(bundle))
  }

  function CreateCells(k: Cluster, bundle: string, missing: nat, outs: seq<Outcome>): Calls
    decreases missing
  {
    if missing == 0 then Calls(k, true, outs)
    else
      var o := First(outs);
      var k' := if o == Lost then k else CreateCell(k, bundle);
      if o == Done then CreateCells(k', bundle, missing - 1, Rest(outs)) else Calls(k', false, Rest(outs))
  }

  /** Brings one bundle up to its target: read the count, then create what is missing. */
  function FillBundle(k: Cluster, info: BundleInfo, outs: seq<Outcome>): Calls {
    if First(outs) != Done || info.name !in k.bundles then Calls(k, false, Rest(outs))
    else
      var have := Count(k.cells, info.name);
      CreateCells(k, info.name, if have < info.cellCount then info.cellCount - have else 0, Rest(outs))
  }

  function RecoverCells(k: Cluster, infos: seq<BundleInfo>, outs: seq<Outcome>): Calls
    decreases |infos|
  {
    if infos == [] then Calls(k, true, outs)
    else
      var c := FillBundle(k, infos[0], outs);
      if c.ok then RecoverCells(c.cluster, infos[1..], c.outs) else c
  }

  // ----- master snapshots -----

  function MonitoringPath(address: string): string {
    "//sys/cluster_masters/" + address + "/orchid/monitoring/hydra"
  }

  function CellPaths(addresses: seq<string>): (paths: seq<string>)
    ensures |paths| == |addresses| && forall i :: 0 <= i < |paths| ==> paths[i] == MonitoringPath(addresses[i])
  {
    seq(|addresses|, i requires 0 <= i < |addresses| => MonitoringPath(addresses[i]))
  }

  function MonitoringPaths(masters: seq<seq<string>>): seq<string> {
    if masters == [] then [] else CellPaths(masters[0]) + MonitoringPaths(masters[1..])
  }

  /** `answers[i]` is what monitoring path `i` answers; a missing or `None` entry is a failed read. */
  function SnapshotReads(k: Cluster, paths: seq<string>, answers: seq<Option<bool>>): (r: (Cluster, Option<bool>))
    decreases |paths|
  {
    if paths == [] then (k, Some(true))
    else if answers == [] || answers[0].None? then (k, None)
    else if !answers[0].value then (k, Some(false))
    else SnapshotReads(k.Log(ReadOnlySnapshotSeen(paths[0])), paths[1..], answers[1..])
  }

  /** Whether all masters already are read-only; `None` when a read fails first. */
  function AllReadOnly(n: nat, answers: seq<Option<bool>>): Option<bool> {
    if n == 0 then Some(true)
    else if answers == [] || answers[0].None? then None
    else if !answers[0].value then Some(false)
    else AllReadOnly(n - 1, answers[1..])
  }

  // ----- answers of the environment to one pass -----

  datatype YtAnswers = YtAnswers(
    possibility: PossibilityCheck.Queries,
    outcomes: seq<Outcome>,
    masters: Option<seq<seq<string>>>,
    readOnly: seq<Option<bool>>,
    snapshots: seq<Option<bool>>)

  datatype Outcomes = Outcomes(first: Outcome, second: Outcome, third: Outcome)

  /** Observations may change between the survey, the status check and the sync of a component. */
  datatype Answers = Answers(
    fetchFails: bool,
    surveyed: map<string, Observation>,
    checked: map<string, Observation>,
    synced: map<string, Observation>,
    clientFails: bool,
    clientMissing: bool,
    calls: map<string, Outcomes>,
    yt: YtAnswers,
    writes: Outcomes)
  {
    function CallsOf(c: Component): Outcomes {
      if c.name in calls then calls[c.name] else Outcomes(Done, Done, Done)
    }
  }

  // ----- the state of a pass -----

  /** `mem` is the status loaded at the start of the pass, `stored` what the API server holds. */
  datatype Pass = Pass(mem: Status, stored: Status, cluster: Cluster)
  {
    function Note(c: Condition): Pass { this.(mem := mem.WithCondition(c, true)) }
  }

  datatype Step = Step(pass: Pass, ok: bool)

  function Applied(p: Pass, o: Outcome, k: Cluster): Step {
    Step(if o == Lost then p else p.(cluster := k), o == Done)
  }

  function Bind(s: Step, next: Pass): Step { if s.ok then Step(next, true) else s }

  function RemovePodsStep(p: Pass, c: Component, gone: bool, o: Outcome): Step {
    if !p.mem.update.Has(PodsRemovingStarted(c.name)) then
      var s := Applied(p, o, p.cluster.Log(ScaledToZero(c, p.mem.update.state)));
      Bind(s, s.pass.Note(PodsRemovingStarted(c.name)))
    else if !gone then Step(p, true)
    else Step(p.(cluster := p.cluster.Log(PodsSeenGone(c))).Note(PodsRemoved(c.name)), true)
  }

  function WithInitDone(p: Pass, j: JobId, value: bool): Pass {
    p.(mem := p.mem.(initDone := p.mem.initDone[j := value]))
  }

  function CreateJobStep(p: Pass, j: JobId, config: Outcome, job: Outcome): Step {
    var withConfig := p.cluster.(jobConfigs := p.cluster.jobConfigs + {j});
    var s := Applied(p, config, withConfig);
    if !s.ok then s
    else
      var uid := s.pass.cluster.nextId;
      var created := s.pass.cluster.(
        jobs := s.pass.cluster.jobs[j := JobObject(uid, false, false)],
        nextId := uid + 1).Log(JobCreated(j, uid, p.mem.update.state));
      Applied(s.pass, job, created)
  }

  function RemoveConfigStep(p: Pass, v: View, j: JobId, o: Outcome): Step {
    if j in v.jobConfigs then Applied(p, o, p.cluster.(jobConfigs := p.cluster.jobConfigs - {j})) else Step(p, true)
  }

  /** Deletion in the foreground: the object stays, terminating, until it is really gone. */
  function RemoveJobStep(p: Pass, v: View, j: JobId, o: Outcome): Step {
    var k := p.cluster;
    var deleted := if j in k.jobs then k.(jobs := k.jobs[j := k.jobs[j].(terminating := true)]) else k;
    if j in v.jobs then Applied(p, o, deleted) else Step(p, true)
  }

  /** Deletes the config and the job if the pass fetched them, then marks the job undone. */
  function PrepareRestartStep(p: Pass, v: View, j: JobId, config: Outcome, job: Outcome): Step {
    var s := RemoveConfigStep(p, v, j, config);
    if !s.ok then s
    else
      var t := RemoveJobStep(s.pass, v, j, job);
      Bind(t, WithInitDone(t.pass, j, false))
  }

  /** Makes sure that the system bundle exists: one call to look, one to create it. */
  function EnsureSysBundle(k: Cluster, outs: seq<Outcome>): Calls {
    if First(outs) != Done then Calls(k, false, Rest(outs))
    else if "sys" in k.bundles then Calls(k, true, Rest(outs))
    else
      var o := First(Rest(outs));
      Calls(if o == Lost then k else k.(bundles := k.bundles + ["sys"]), o == Done, Rest(Rest(outs)))
  }

  /** The next call stands for the options of the default bundle, which succeed where none are set. */
  function InitBundlesStep(p: Pass, bootstrap: (nat, nat), outs: seq<Outcome>): Step {
    var s := EnsureSysBundle(p.cluster, outs);
    var q := p.(cluster := s.cluster);
    if !s.ok || First(s.outs) != Done then Step(q, false)
    else
      var c := RecoverCells(s.cluster, [BundleInfo("default", bootstrap.0), BundleInfo("sys", bootstrap.1)], Rest(s.outs));
      Step(p.(cluster := c.cluster, mem := if c.ok then p.mem.(bundlesReady := true) else p.mem), c.ok)
  }

  /** The client's part of an update: one effect per update state, then its condition. */
  function ClientStep(p: Pass, yt: YtAnswers): Step {
    match p.mem.update.state
    case PossibilityCheck => CheckPossibility(p, yt)
    case SafeModeEnabling => SwitchSafeMode(p, true, SafeModeEnabled, yt)
    case TabletCellsSaving => SaveCells(p, yt)
    case TabletCellsRemovingStart => StartRemovingCells(p, yt)
    case TabletCellsRemoving => AwaitNoCells(p, yt)
    case SnapshotsBuilding => BuildSnapshots(p, yt)
    case TabletCellsRecovery => RestoreCells(p, yt)
    case SafeModeDisabling => SwitchSafeMode(p, false, SafeModeDisabled, yt)
    case _ => Step(p, true)
  }

  function CheckPossibility(p: Pass, yt: YtAnswers): Step {
    if p.mem.update.Has(HasPossibility) || p.mem.update.Has(NoPossibility) then Step(p, true)
    else
      match PossibilityCheck.Judge(yt.possibility)
      case QueryFailed => Step(p, false)
      case Impossible => Step(p.Note(NoPossibility), true)
      case Possible => Step(p.(cluster := p.cluster.Log(PossibilityPassed)).Note(HasPossibility), true)
  }

  function SaveCells(p: Pass, yt: YtAnswers): Step {
    if p.mem.update.Has(TabletCellsSaved) then Step(p, true)
    else if First(yt.outcomes) != Done then Step(p, false)
    else
      var saved := Census(p.cluster.bundles, p.cluster.cells);
      var q := p.(mem := p.mem.(update := p.mem.update.(bundles := saved)), cluster := p.cluster.Log(CellsSaved(saved)));
      Step(q.Note(TabletCellsSaved), true)
  }

  function StartRemovingCells(p: Pass, yt: YtAnswers): Step {
    if p.mem.update.Has(TabletCellsRemovingStarted) then Step(p, true)
    else if First(yt.outcomes) != Done then Step(p, false)
    else
      var c := RemoveCells(p.cluster, Ids(p.cluster.cells), Rest(yt.outcomes));
      var q := p.(cluster := c.cluster);
      Bind(Step(q, c.ok), q.Note(TabletCellsRemovingStarted))
  }

  function AwaitNoCells(p: Pass, yt: YtAnswers): Step {
    if p.mem.update.Has(TabletCellsRemoved) then Step(p, true)
    else if First(yt.outcomes) != Done then Step(p, false)
    else if p.cluster.cells != [] then Step(p, true)
    else Step(p.(cluster := p.cluster.Log(NoCellsSeen)).Note(TabletCellsRemoved), true)
  }

  function BuildSnapshots(p: Pass, yt: YtAnswers): Step {
    if p.mem.update.Has(SnapshotsSaved) then Step(p, true)
    else
      var s := SaveMonitoringPaths(p, yt);
      if !s.ok then s
      else
        var t := StartSnapshots(s.pass, yt);
        if !t.ok then t else AwaitSnapshots(t.pass, yt)
  }

  function RestoreCells(p: Pass, yt: YtAnswers): Step {
    if p.mem.update.Has(TabletCellsRecovered) then Step(p, true)
    else
      var c := RecoverCells(p.cluster, p.mem.update.bundles, yt.outcomes);
      var q := p.(cluster := c.cluster);
      Bind(Step(q, c.ok), q.Note(TabletCellsRecovered))
  }

  function SwitchSafeMode(p: Pass, on: bool, c: Condition, yt: YtAnswers): Step {
    if p.mem.update.Has(c) then Step(p, true)
    else
      var s := Applied(p, First(yt.outcomes), p.cluster.(safeMode := on).Log(SafeModeSet(on)));
      Bind(s, s.pass.Note(c))
  }

  function SaveMonitoringPaths(p: Pass, yt: YtAnswers): Step {
    if p.mem.update.Has(SnapshotsMonitoringInfoSaved) then Step(p, true)
    else if yt.masters.None? then Step(p, false)
    else
      var q := p.(cluster := p.cluster.Log(MastersListed(yt.masters.value)),
                  mem := p.mem.(update := p.mem.update.(monitoringPaths := MonitoringPaths(yt.masters.value))));
      Step(q.Note(SnapshotsMonitoringInfoSaved), true)
  }

  function StartSnapshots(p: Pass, yt: YtAnswers): Step {
    if p.mem.update.Has(SnapshotsBuildingStarted) then Step(p, true)
    else
      match AllReadOnly(|p.mem.update.monitoringPaths|, yt.readOnly)
      case None => Step(p, false)
      case Some(true) => Step(p.Note(SnapshotsBuildingStarted), true)
      case Some(false) =>
        var s := Applied(p, First(yt.outcomes), p.cluster.Log(SnapshotsRequested));
        Bind(s, s.pass.Note(SnapshotsBuildingStarted))
  }

  function AwaitSnapshots(p: Pass, yt: YtAnswers): Step {
    var (k, built) := SnapshotReads(p.cluster, p.mem.update.monitoringPaths, yt.snapshots);
    var q := p.(cluster := k);
    match built
    case None => Step(q, false)
    case Some(false) => Step(q, true)
    case Some(true) => Step(q.Note(SnapshotsSaved), true)
  }

  /** The effect of a component's action. `v` is the view the component synced with. */
  function Perform(p: Pass, v: View, c: Component, action: Action, bootstrap: (nat, nat), a: Answers): Step
    decreases action
  {
    var o := a.CallsOf(c);
    match action
    case Nothing => Step(p, true)
    case RemovePods => RemovePodsStep(p, c, v.Of(c).podsGone, o.first)
    case WriteServer => Applied(p, o.first, p.cluster.Log(ServerWritten(c, p.mem.update.state)))
    case CreateAuxiliary => Applied(p, o.first, p.cluster.Log(AuxiliaryCreated(c, p.mem.update.state)))
    case CreateJob(j) => CreateJobStep(p, j, o.first, o.second)
    case CompleteJob(j) => Step(WithInitDone(p, j, true), true)
    case PrepareRestart(j) => PrepareRestartStep(p, v, j, o.first, o.second)
    case SetCondition(cond) => Step(p.Note(cond), true)
    case PrepareExit(restart) =>
      var s := if restart then PrepareRestartStep(p, v, ExitReadOnly, o.first, o.second) else Step(p, true);
      Bind(s, s.pass.Note(MasterExitReadOnlyPrepared))
    case FinishExit =>
      Step(p.(mem := p.mem.WithCondition(MasterExitedReadOnly, true).WithCondition(MasterExitReadOnlyPrepared, false)), true)
    case InitBundles => InitBundlesStep(p, bootstrap, a.yt.outcomes)
    case InitQueryTracker(next) =>
      if a.clientMissing then Step(p, true)
      else if o.third != Done then Step(p, false)
      else Perform(p.(mem := p.mem.(queryTrackerReady := true)), v, c, next, bootstrap, a)
    case InitQueueAgent =>
      // While updating the client variable is nil and the pass dies here.
      if p.mem.cluster == Updating || o.first != Done then Step(p, false)
      else Step(p.(mem := p.mem.(queueAgentReady := true)), true)
    case HandleUpdatingState => ClientStep(p, a.yt)
  }
}
