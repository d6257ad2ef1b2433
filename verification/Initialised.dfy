/** With a fixed layout, everything a component initializes once stays initialized from the first
    Running state on, except for the one job that the current stage of an update restarts. */
module Initialised {
  import opened ClusterStatus
  import opened Components
  import opened World
  import opened FlowChoice
  import opened Reconcile
  import opened Actions
  import opened Safety
  import opened Readiness
  import opened Names

  predicate HasArchive(l: Layout) { l.schedulers && |l.tabletNodes| > 0 }

  /** The jobs and flags that no update takes back. */
  predicate OnceDone(l: Layout, st: Status) {
    && st.Done(ClientUser) && st.Done(MasterDefault)
    && (l.ui ==> st.Done(UiDefault))
    && (l.yqlAgents ==> st.Done(YqlEnvironment))
    && (HasArchive(l) ==> st.Done(SchedulerUser))
    && (|l.tabletNodes| > 0 ==> st.bundlesReady)
    && (HasQueueAgent(l) ==> st.Done(QAState) && st.queueAgentReady)
    && (HasQueryTracker(l) ==> st.queryTrackerReady)
    && (HasStrawberry(l) ==> st.Done(StrawberryUser) && st.Done(StrawberryCluster))
  }

  predicate RestartingArchive(l: Layout, st: Status) {
    st.cluster == Updating && (st.update.state == OpArchivePreparing || st.update.state == OpArchiveUpdating)
    && NeedSchedulerUpdate(l, st)
  }

  predicate RestartingQueries(l: Layout, st: Status) {
    st.cluster == Updating && (st.update.state == QTStatePreparing || st.update.state == QTStateUpdating)
    && NeedQueryTrackerUpdate(l, st)
  }

  predicate StatesDone(l: Layout, st: Status) {
    && (HasArchive(l) ==> st.Done(OpArchive) || RestartingArchive(l, st))
    && (HasQueryTracker(l) ==> st.Done(QTState) || RestartingQueries(l, st))
  }

  /** What the conditions of the last stages say, and who is being updated. */
  predicate StagesOk(l: Layout, st: Status) {
    var u := st.update;
    && (u.Has(OpArchiveUpdated) ==> Rank(u.state) >= 13 && (HasArchive(l) ==> st.Done(OpArchive)))
    && (u.Has(QTStateUpdated) ==> Rank(u.state) >= 15 && (HasQueryTracker(l) ==> st.Done(QTState)))
    && (u.Has(NotNecessaryToUpdateOpArchive) ==> |l.tabletNodes| == 0)
    && (u.state == OpArchiveUpdating ==> NeedSchedulerUpdate(l, st) && HasArchive(l))
    && (u.state == QTStateUpdating ==> NeedQueryTrackerUpdate(l, st))
    && (u.components.Some? ==> BaseName(YtsaurusClient) !in u.components.value)
  }

  predicate PastInit(c: ClusterState) { c == Running || c == Updating || c == UpdateFinishing || c == CancelUpdate }

  predicate Initialised(l: Layout, st: Status) {
    && (PastInit(st.cluster) ==> OnceDone(l, st) && StatesDone(l, st))
    && (st.cluster == Updating ==> StagesOk(l, st))
  }

  // ----- who is in the layout -----

  lemma FoundationResidents(l: Layout, c: Component)
    requires c in Foundation(l)
    ensures c.kind != Scheduler && c.kind != QueryTracker
    ensures c.kind == YtsaurusClient ==> c == Single(YtsaurusClient)
    ensures c.kind == Master ==> c == Single(Master)
  {}

  lemma AgentsResidents(l: Layout, c: Component)
    requires c in Agents(l)
    ensures c.kind !in {Scheduler, QueryTracker, YtsaurusClient, Master}
  {}

  lemma Residents(l: Layout, c: Component)
    requires c in AllComponents(l)
    ensures c.kind == Scheduler ==> l.schedulers && c == Single(Scheduler)
    ensures c.kind == QueryTracker ==> HasQueryTracker(l) && c == Single(QueryTracker)
    ensures c.kind == YtsaurusClient ==> c == Single(YtsaurusClient)
    ensures c.kind == Master ==> c == Single(Master)
  {
    if c in Foundation(l) {
      FoundationResidents(l, c);
    } else if c in Agents(l) {
      AgentsResidents(l, c);
    }
  }

  lemma Members(l: Layout)
    ensures Single(YtsaurusClient) in AllComponents(l) && Single(Master) in AllComponents(l)
    ensures forall c :: c in Foundation(l) ==> c in AllComponents(l)
    ensures forall c :: c in Agents(l) ==> c in AllComponents(l)
    ensures l.schedulers ==> Single(Scheduler) in AllComponents(l)
    ensures HasQueryTracker(l) ==> Single(QueryTracker) in AllComponents(l)
  {
    assert Foundation(l)[1] == Single(Master) && Foundation(l)[2] == Single(YtsaurusClient);
  }

  // ----- the first Running state -----

  lemma ReadyIsDone(v: View, st: Status, c: Component, g: GateSet)
    requires ComingUp(st) && DecideBehind(v, st, c, g).Do? && DecideBehind(v, st, c, g).status == Ready
    ensures match c.kind
      case YtsaurusClient => st.Done(ClientUser)
      case Master => st.Done(MasterDefault)
      case UI => st.Done(UiDefault)
      case YqlAgent => st.Done(YqlEnvironment)
      case Scheduler => |v.layout.tabletNodes| > 0 ==> st.Done(SchedulerUser) && st.Done(OpArchive)
      case TabletNode => c.first ==> st.bundlesReady
      case QueueAgent => st.Done(QAState) && st.queueAgentReady
      case QueryTracker => st.Done(QTState) && st.queryTrackerReady
      case StrawberryController => st.Done(StrawberryUser) && st.Done(StrawberryCluster)
      case _ => true
  {}

  lemma ResidentIsDone(v: View, st: Status, c: Component)
    requires |v.layout.httpProxies| > 0 && ComingUp(st) && StatusIs(v, st, c, Ready)
    ensures var g := GatesOf(v, st, c); DecideBehind(v, st, c, g).Do? && DecideBehind(v, st, c, g).status == Ready
  {
    DecideComingUp(v, st, c);
  }

  lemma AgentsDone(v: View, st: Status)
    requires |v.layout.httpProxies| > 0 && ComingUp(st)
    requires forall c :: c in Agents(v.layout) ==> StatusIs(v, st, c, Ready)
    ensures var l := v.layout;
      && (l.yqlAgents ==> st.Done(YqlEnvironment))
      && (HasQueueAgent(l) ==> st.Done(QAState) && st.queueAgentReady)
      && (HasStrawberry(l) ==> st.Done(StrawberryUser) && st.Done(StrawberryCluster))
  {
    var l := v.layout;
    forall c | c in Agents(l)
      ensures var g := GatesOf(v, st, c); DecideBehind(v, st, c, g).Do? && DecideBehind(v, st, c, g).status == Ready
    {
      ResidentIsDone(v, st, c);
    }
    if l.yqlAgents { ReadyIsDone(v, st, Single(YqlAgent), GatesOf(v, st, Single(YqlAgent))); }
    if HasQueueAgent(l) { ReadyIsDone(v, st, Single(QueueAgent), GatesOf(v, st, Single(QueueAgent))); }
    if HasStrawberry(l) { ReadyIsDone(v, st, Strawberry(l), GatesOf(v, st, Strawberry(l))); }
  }

  lemma ReadyResident(v: View, st: Status, c: Component)
    requires |v.layout.httpProxies| > 0 && ComingUp(st) && c in AllComponents(v.layout)
    requires forall c :: c in AllComponents(v.layout) ==> StatusIs(v, st, c, Ready)
    ensures match c.kind
      case YtsaurusClient => st.Done(ClientUser)
      case Master => st.Done(MasterDefault)
      case UI => st.Done(UiDefault)
      case Scheduler => |v.layout.tabletNodes| > 0 ==> st.Done(SchedulerUser) && st.Done(OpArchive)
      case TabletNode => c.first ==> st.bundlesReady
      case QueryTracker => st.Done(QTState) && st.queryTrackerReady
      case _ => true
  {
    ResidentIsDone(v, st, c);
    ReadyIsDone(v, st, c, GatesOf(v, st, c));
  }

  lemma FoundationMembers(l: Layout)
    ensures l.ui ==> Single(UI) in AllComponents(l)
    ensures |l.tabletNodes| > 0 ==> Group(TabletNode, l.tabletNodes)[0] in AllComponents(l)
  {
    Members(l);
    if |l.tabletNodes| > 0 { assert Group(TabletNode, l.tabletNodes)[0] in Group(TabletNode, l.tabletNodes); }
  }

  /** A cluster that comes up with every component ready has initialized everything. */
  lemma AllReadyIsInitialised(v: View, st: Status)
    requires |v.layout.httpProxies| > 0 && ComingUp(st)
    requires forall c :: c in AllComponents(v.layout) ==> StatusIs(v, st, c, Ready)
    ensures OnceDone(v.layout, st) && StatesDone(v.layout, st)
  {
    var l := v.layout;
    Members(l);
    FoundationMembers(l);
    AgentsDone(v, st);
    ReadyResident(v, st, Single(YtsaurusClient));
    ReadyResident(v, st, Single(Master));
    if l.ui { ReadyResident(v, st, Single(UI)); }
    if l.schedulers { ReadyResident(v, st, Single(Scheduler)); }
    if HasQueryTracker(l) { ReadyResident(v, st, Single(QueryTracker)); }
    if |l.tabletNodes| > 0 { ReadyResident(v, st, Group(TabletNode, l.tabletNodes)[0]); }
  }

  // ----- actions -----

  predicate Tracked(c: Condition) { c == OpArchiveUpdated || c == QTStateUpdated || c == NotNecessaryToUpdateOpArchive }

  /** Nothing done is undone, and the tracked conditions and the place on the route stay. */
  ghost predicate Forward(st: Status, to: Status) {
    && to.cluster == st.cluster
    && to.update.state == st.update.state && to.update.components == st.update.components
    && (forall j :: st.Done(j) ==> to.Done(j))
    && (st.bundlesReady ==> to.bundlesReady)
    && (st.queryTrackerReady ==> to.queryTrackerReady)
    && (st.queueAgentReady ==> to.queueAgentReady)
    && (forall c :: Tracked(c) ==> to.update.Has(c) == st.update.Has(c))
  }

  lemma ForwardKeeps(l: Layout, st: Status, to: Status)
    requires Initialised(l, st) && Forward(st, to)
    ensures Initialised(l, to)
  {}

  lemma JobsForward(p: Pass, v: View, c: Component, action: Action, b: (nat, nat), a: Answers)
    requires action.CreateJob? || action.CompleteJob?
    ensures Forward(p.mem, Perform(p, v, c, action, b, a).pass.mem)
  {
    if action.CreateJob? { CreateJobQuiet(p, action.job, a.CallsOf(c).first, a.CallsOf(c).second); }
  }

  lemma ClientForward(p: Pass, yt: YtAnswers)
    ensures Forward(p.mem, ClientStep(p, yt).pass.mem)
  {
    ClientFrame(p, yt);
  }

  lemma ServersForward(p: Pass, v: View, c: Component, action: Action, b: (nat, nat), a: Answers)
    requires action == WriteServer || action == CreateAuxiliary || action == Nothing || action == FinishExit
    ensures Forward(p.mem, Perform(p, v, c, action, b, a).pass.mem)
  {}

  lemma PodsForward(p: Pass, c: Component, gone: bool, o: Outcome)
    ensures Forward(p.mem, RemovePodsStep(p, c, gone, o).pass.mem)
  {}

  lemma InitForward(p: Pass, v: View, c: Component, action: Action, b: (nat, nat), a: Answers)
    requires action == InitBundles || action == InitQueueAgent
    ensures Forward(p.mem, Perform(p, v, c, action, b, a).pass.mem)
  {}

  lemma RestartMemory(p: Pass, v: View, j: JobId, o1: Outcome, o2: Outcome)
    ensures var q := PrepareRestartStep(p, v, j, o1, o2).pass;
      q.mem == p.mem || q.mem == p.mem.(initDone := p.mem.initDone[j := false])
  {}

  /** The jobs a stage may mark undone. */
  predicate MayRestart(l: Layout, st: Status, j: JobId) {
    || j == ExitReadOnly
    || (j == OpArchive && st.update.state == OpArchivePreparing && NeedSchedulerUpdate(l, st))
    || (j == QTState && st.update.state == QTStatePreparing && NeedQueryTrackerUpdate(l, st))
  }

  lemma UndoneInit(l: Layout, st: Status, j: JobId)
    requires Initialised(l, st) && st.cluster == Updating && MayRestart(l, st, j)
    ensures Initialised(l, st.(initDone := st.initDone[j := false]))
  {}

  predicate MayNote(l: Layout, st: Status, cond: Condition) {
    match cond
    case NotNecessaryToUpdateOpArchive => |l.tabletNodes| == 0
    case OpArchiveUpdated => st.update.state == OpArchiveUpdating && st.Done(OpArchive)
    case QTStateUpdated => st.update.state == QTStateUpdating && st.Done(QTState)
    case _ => true
  }

  lemma NotedInit(l: Layout, st: Status, cond: Condition)
    requires Initialised(l, st) && MayNote(l, st, cond)
    ensures Initialised(l, st.WithCondition(cond, true))
  {}

  lemma RestartInit(l: Layout, p: Pass, v: View, c: Component, j: JobId, o1: Outcome, o2: Outcome)
    requires Initialised(l, p.mem) && v.layout == l && c in AllComponents(l) && Allowed(v, p.mem, c, PrepareRestart(j))
    ensures Initialised(l, PrepareRestartStep(p, v, j, o1, o2).pass.mem)
  {
    RestartMemory(p, v, j, o1, o2);
    Residents(l, c);
    UndoneInit(l, p.mem, j);
  }

  lemma ExitInit(l: Layout, p: Pass, v: View, restart: bool, o1: Outcome, o2: Outcome)
    requires Initialised(l, p.mem) && p.mem.cluster == Updating
    ensures var s := if restart then PrepareRestartStep(p, v, ExitReadOnly, o1, o2) else Step(p, true);
      Initialised(l, Bind(s, s.pass.Note(MasterExitReadOnlyPrepared)).pass.mem)
  {
    var s := if restart then PrepareRestartStep(p, v, ExitReadOnly, o1, o2) else Step(p, true);
    RestartMemory(p, v, ExitReadOnly, o1, o2);
    UndoneInit(l, p.mem, ExitReadOnly);
    NotedInit(l, s.pass.mem, MasterExitReadOnlyPrepared);
  }

  lemma MayNoteAllowed(l: Layout, v: View, st: Status, c: Component, cond: Condition)
    requires v.layout == l && Allowed(v, st, c, SetCondition(cond))
    ensures MayNote(l, st, cond)
  {}

  /** Actions that only add to what is done. */
  lemma OrdinaryForward(p: Pass, v: View, c: Component, action: Action, b: (nat, nat), a: Answers)
    requires !action.PrepareRestart? && !action.PrepareExit? && !action.SetCondition? && !action.InitQueryTracker?
    requires Allowed(v, p.mem, c, action)
    ensures Forward(p.mem, Perform(p, v, c, action, b, a).pass.mem)
  {
    match action
    case CreateJob(_) => JobsForward(p, v, c, action, b, a);
    case CompleteJob(_) => JobsForward(p, v, c, action, b, a);
    case HandleUpdatingState => ClientForward(p, a.yt);
    case RemovePods => PodsForward(p, c, v.Of(c).podsGone, a.CallsOf(c).first);
    case InitBundles => InitForward(p, v, c, action, b, a);
    case InitQueueAgent => InitForward(p, v, c, action, b, a);
    case _ => ServersForward(p, v, c, action, b, a);
  }

  lemma QueryTrackerForward(p: Pass, v: View, c: Component, next: Action, b: (nat, nat), a: Answers)
    requires Allowed(v, p.mem, c, InitQueryTracker(next))
    ensures Forward(p.mem, Perform(p, v, c, InitQueryTracker(next), b, a).pass.mem)
  {
    var ready := p.(mem := p.mem.(queryTrackerReady := true));
    if !a.clientMissing && a.CallsOf(c).third == Done { OrdinaryForward(ready, v, c, next, b, a); }
  }

  lemma ForwardInit(l: Layout, p: Pass, v: View, c: Component, action: Action, b: (nat, nat), a: Answers)
    requires Initialised(l, p.mem) && Allowed(v, p.mem, c, action)
    requires !action.PrepareRestart? && !action.PrepareExit? && !action.SetCondition?
    ensures Initialised(l, Perform(p, v, c, action, b, a).pass.mem)
  {
    if action.InitQueryTracker? { QueryTrackerForward(p, v, c, action.next, b, a); } else { OrdinaryForward(p, v, c, action, b, a); }
    ForwardKeeps(l, p.mem, Perform(p, v, c, action, b, a).pass.mem);
  }

  lemma PerformInit(l: Layout, p: Pass, v: View, c: Component, action: Action, b: (nat, nat), a: Answers)
    requires Initialised(l, p.mem) && v.layout == l && c in AllComponents(l) && Allowed(v, p.mem, c, action)
    ensures Initialised(l, Perform(p, v, c, action, b, a).pass.mem)
  {
    var o := a.CallsOf(c);
    match action
    case PrepareRestart(j) => RestartInit(l, p, v, c, j, o.first, o.second);
    case PrepareExit(restart) => ExitInit(l, p, v, restart, o.first, o.second);
    case SetCondition(cond) => MayNoteAllowed(l, v, p.mem, c, cond); NotedInit(l, p.mem, cond);
    case _ => ForwardInit(l, p, v, c, action, b, a);
  }

  // ----- cells on their way out -----

  predicate AllDying(cells: seq<Cell>) { forall i :: 0 <= i < |cells| ==> cells[i].dying }

  /** Once removal has started, every cell is marked, until recovery begins. */
  predicate RemovalOk(st: Status, k: Cluster) {
    var u := st.update;
    st.cluster == Updating ==>
      && (u.Has(TabletCellsRemovingStarted) ==> Rank(u.state) >= 5 && (Rank(u.state) < 11 ==> AllDying(k.cells)))
      && (TouchesTablets(u.flow) && Rank(u.state) > 5 ==> u.Has(TabletCellsRemovingStarted))
  }

  lemma {:induction false} RemoveCellsMarks(k: Cluster, ids: seq<nat>, outs: seq<Outcome>)
    ensures var r := RemoveCells(k, ids, outs);
      && |r.cluster.cells| == |k.cells|
      && (forall i :: 0 <= i < |k.cells| ==> r.cluster.cells[i].id == k.cells[i].id && (k.cells[i].dying ==> r.cluster.cells[i].dying))
      && (r.ok ==> forall i :: 0 <= i < |k.cells| && k.cells[i].id in ids ==> r.cluster.cells[i].dying)
    decreases |ids|
  {
    if ids != [] && First(outs) == Done {
      var k' := RemoveCell(k, ids[0]);
      RemoveCellsMarks(k', ids[1..], Rest(outs));
      assert forall x :: x in ids <==> x == ids[0] || x in ids[1..];
    }
  }

  lemma RemovingMarksAll(p: Pass, yt: YtAnswers)
    requires p.mem.update.state == TabletCellsRemovingStart && !p.mem.update.Has(TabletCellsRemovingStarted)
    ensures var q := StartRemovingCells(p, yt).pass; q.mem.update.Has(TabletCellsRemovingStarted) ==> AllDying(q.cluster.cells)
  {
    var ids := Ids(p.cluster.cells);
    RemoveCellsMarks(p.cluster, ids, Rest(yt.outcomes));
    forall i | 0 <= i < |p.cluster.cells| ensures p.cluster.cells[i].id in ids { assert ids[i] == p.cluster.cells[i].id; }
  }

  /** The cells and the mark that their removal has started are as before. */
  predicate CellsKept(p: Pass, q: Pass) {
    q.cluster.cells == p.cluster.cells
    && q.mem.update.Has(TabletCellsRemovingStarted) == p.mem.update.Has(TabletCellsRemovingStarted)
  }

  lemma SnapshotsKeepCells(p: Pass, yt: YtAnswers)
    ensures CellsKept(p, BuildSnapshots(p, yt).pass)
  {
    SavingKeepsCells(p, yt);
    StartKeepsCells(SaveMonitoringPaths(p, yt).pass, yt);
    AwaitKeepsCells(StartSnapshots(SaveMonitoringPaths(p, yt).pass, yt).pass, yt);
  }

  lemma SavingKeepsCells(p: Pass, yt: YtAnswers)
    ensures CellsKept(p, SaveMonitoringPaths(p, yt).pass)
  {}

  lemma StartKeepsCells(p: Pass, yt: YtAnswers)
    ensures CellsKept(p, StartSnapshots(p, yt).pass)
  {}

  lemma AwaitKeepsCells(p: Pass, yt: YtAnswers)
    ensures CellsKept(p, AwaitSnapshots(p, yt).pass)
  {
    SnapshotReadsFrame(p.cluster, p.mem.update.monitoringPaths, yt.snapshots);
  }

  lemma ClientCells(p: Pass, yt: YtAnswers)
    requires p.mem.update.state != TabletCellsRemovingStart && p.mem.update.state != TabletCellsRecovery
    ensures CellsKept(p, ClientStep(p, yt).pass)
  {
    if p.mem.update.state == SnapshotsBuilding { SnapshotsKeepCells(p, yt); }
  }

  lemma RestoreKeepsMark(p: Pass, yt: YtAnswers)
    ensures RestoreCells(p, yt).pass.mem.update.Has(TabletCellsRemovingStarted) == p.mem.update.Has(TabletCellsRemovingStarted)
  {}

  lemma RemovingRemoval(p: Pass, yt: YtAnswers)
    requires Syncing(p) && RemovalOk(p.mem, p.cluster) && RemovalOk(p.stored, p.cluster)
    requires p.mem.update.state == TabletCellsRemovingStart
    ensures var q := StartRemovingCells(p, yt).pass; RemovalOk(q.mem, q.cluster) && RemovalOk(q.stored, q.cluster)
  {
    RemovingFrame(p, yt);
    if !p.mem.update.Has(TabletCellsRemovingStarted) { RemovingMarksAll(p, yt); }
  }

  lemma ClientRemoval(p: Pass, yt: YtAnswers)
    requires Syncing(p) && RemovalOk(p.mem, p.cluster) && RemovalOk(p.stored, p.cluster)
    ensures var q := ClientStep(p, yt).pass; RemovalOk(q.mem, q.cluster) && RemovalOk(q.stored, q.cluster)
  {
    ClientFrame(p, yt);
    if p.mem.update.state == TabletCellsRemovingStart {
      RemovingRemoval(p, yt);
    } else if p.mem.update.state == TabletCellsRecovery {
      RestoreKeepsMark(p, yt);
    } else {
      ClientCells(p, yt);
    }
  }

  lemma PerformRemoval(p: Pass, v: View, c: Component, action: Action, b: (nat, nat), a: Answers)
    requires Syncing(p) && RemovalOk(p.mem, p.cluster) && RemovalOk(p.stored, p.cluster) && Allowed(v, p.mem, c, action)
    ensures var q := Perform(p, v, c, action, b, a).pass; RemovalOk(q.mem, q.cluster) && RemovalOk(q.stored, q.cluster)
  {
    if action == HandleUpdatingState {
      ClientRemoval(p, a.yt);
    } else {
      PerformQuiet(p, v, c, action, b, a);
    }
  }

  // ----- passes and runs with a fixed layout -----

  predicate Steady(l: Layout, st: Status, k: Cluster) { Initialised(l, st) && RemovalOk(st, k) }

  ghost predicate PassSteady(l: Layout, p: Pass) {
    PassBase(p) && SyncState(p.mem.cluster) && Steady(l, p.mem, p.cluster) && Steady(l, p.stored, p.cluster)
  }

  lemma PerformStored(p: Pass, v: View, c: Component, action: Action, b: (nat, nat), a: Answers)
    requires Allowed(v, p.mem, c, action)
    ensures Perform(p, v, c, action, b, a).pass.stored == p.stored
  {
    if action == HandleUpdatingState {
      ClientFrame(p, a.yt);
    } else if action != InitBundles {
      PerformQuiet(p, v, c, action, b, a);
    }
  }

  lemma SyncOneSteady(l: Layout, p: Pass, spec: Spec, fetched: Cluster, a: Answers, c: Component)
    requires PassSteady(l, p) && spec.layout == l && |l.httpProxies| > 0 && c in AllComponents(l)
    ensures PassSteady(l, SyncOne(p, spec, fetched, a, c).pass)
  {
    var v := ViewOf(spec, fetched, a.synced, a);
    var d := Decide(v, p.mem, c);
    SyncOneBase(p, spec, fetched, a, c);
    if d.Do? {
      DecisionsAreAllowed(v, p.mem, c);
      PerformSteady(l, p, v, c, d.action, spec.bootstrap, a);
    }
  }

  lemma PerformSteady(l: Layout, p: Pass, v: View, c: Component, action: Action, b: (nat, nat), a: Answers)
    requires PassBase(p) && Initialised(l, p.mem) && RemovalOk(p.mem, p.cluster) && RemovalOk(p.stored, p.cluster)
    requires v.layout == l && c in AllComponents(l) && Allowed(v, p.mem, c, action)
    ensures var q := Perform(p, v, c, action, b, a).pass;
      && q.stored == p.stored && Initialised(l, q.mem)
      && (p.mem.cluster == Updating ==> RemovalOk(q.mem, q.cluster) && RemovalOk(q.stored, q.cluster))
  {
    PerformStored(p, v, c, action, b, a);
    PerformInit(l, p, v, c, action, b, a);
    if p.mem.cluster == Updating { PerformRemoval(p, v, c, action, b, a); }
  }

  lemma {:induction false} SyncAllSteady(l: Layout, p: Pass, spec: Spec, fetched: Cluster, a: Answers, cs: seq<Component>)
    requires PassSteady(l, p) && spec.layout == l && |l.httpProxies| > 0 && forall c :: c in cs ==> c in AllComponents(l)
    ensures PassSteady(l, SyncAll(p, spec, fetched, a, cs).pass)
    decreases |cs|
  {
    if cs != [] {
      SyncOneSteady(l, p, spec, fetched, a, cs[0]);
      var s := SyncOne(p, spec, fetched, a, cs[0]);
      if s.ok { SyncAllSteady(l, s.pass, spec, fetched, a, cs[1..]); }
    }
  }

  lemma StoreSteady(l: Layout, s: Step, o: Outcome)
    requires PassSteady(l, s.pass)
    ensures var q := if s.ok then Store(s.pass, o).pass else s.pass; Steady(l, q.stored, q.cluster)
  {}

  lemma SyncComponentsSteady(l: Layout, p: Pass, spec: Spec, a: Answers)
    requires PassSteady(l, p) && spec.layout == l && |l.httpProxies| > 0
    ensures var q := SyncComponents(p, spec, a); Steady(l, q.stored, q.cluster)
  {
    SyncAllSteady(l, p, spec, p.cluster, a, AllComponents(l));
    StoreSteady(l, SyncAll(p, spec, p.cluster, a, AllComponents(l)), a.writes.first);
  }

  /** Leaving a stage that restarts a job: the job is done again, or was never touched. */
  lemma MoveSteady(spec: Spec, st: Status, s: Survey, k: Cluster)
    requires Steady(spec.layout, st, k) && st.cluster == Updating && RouteOk(st) && ArchiveMarked(spec.layout, st)
    requires Advance(spec, st, s).ToUpdate?
    ensures Steady(spec.layout, st.(update := st.update.(state := Advance(spec, st, s).update)), k)
  {
    RouteAdvances(spec, st, s);
    var next := Advance(spec, st, s).update;
    MovePassesArchive(spec, st, s);
    MovePassesQueries(spec, st, s);
    MovePassesCells(spec, st, s);
    MoveInit(spec.layout, st, next);
  }

  /** What asking the scheduler for its status has already noted. */
  predicate ArchiveMarked(l: Layout, st: Status) {
    var unneeded := st.update.state == OpArchivePreparing && NeedSchedulerUpdate(l, st) && |l.tabletNodes| == 0;
    unneeded ==> st.update.Has(NotNecessaryToUpdateOpArchive)
  }

  /** What is known when a move passes over or into the last stages. */
  predicate PassedArchive(l: Layout, st: Status, next: UpdateState) {
    var u, r, n := st.update, Rank(st.update.state), Rank(next);
    && (n == 13 ==> r == 12 && NeedSchedulerUpdate(l, st) && |l.tabletNodes| > 0)
    && (r == 12 && n > 13 ==> !NeedSchedulerUpdate(l, st) || u.Has(NotNecessaryToUpdateOpArchive))
    && (r == 13 ==> u.Has(OpArchiveUpdated))
  }

  predicate PassedQueries(l: Layout, st: Status, next: UpdateState) {
    var u, r, n := st.update, Rank(st.update.state), Rank(next);
    && (n == 15 ==> r == 14 && NeedQueryTrackerUpdate(l, st))
    && (r == 14 && n > 15 ==> !NeedQueryTrackerUpdate(l, st))
    && (r == 15 ==> u.Has(QTStateUpdated))
  }

  predicate Passed(l: Layout, st: Status, next: UpdateState) { PassedArchive(l, st, next) && PassedQueries(l, st, next) }

  lemma MovePassesArchive(spec: Spec, st: Status, s: Survey)
    requires st.cluster == Updating && RouteOk(st) && ArchiveMarked(spec.layout, st) && Advance(spec, st, s).ToUpdate?
    ensures PassedArchive(spec.layout, st, Advance(spec, st, s).update)
  {}

  lemma MovePassesQueries(spec: Spec, st: Status, s: Survey)
    requires st.cluster == Updating && RouteOk(st) && Advance(spec, st, s).ToUpdate?
    ensures PassedQueries(spec.layout, st, Advance(spec, st, s).update)
  {}

  lemma MovePassesCells(spec: Spec, st: Status, s: Survey)
    requires st.cluster == Updating && RouteOk(st) && Advance(spec, st, s).ToUpdate?
    ensures TouchesTablets(st.update.flow) && Rank(st.update.state) <= 5 < Rank(Advance(spec, st, s).update)
      ==> st.update.Has(TabletCellsRemovingStarted)
  {}

  lemma MoveInit(l: Layout, st: Status, next: UpdateState)
    requires Initialised(l, st) && st.cluster == Updating && Rank(next) > Rank(st.update.state) && Passed(l, st, next)
    ensures Initialised(l, st.(update := st.update.(state := next)))
  {}

  /** An update ends with every restarted job done again. */
  lemma LeaveSteady(spec: Spec, st: Status, s: Survey, k: Cluster)
    requires Steady(spec.layout, st, k) && st.cluster == Updating && RouteOk(st) && Advance(spec, st, s).ToCluster?
    ensures Steady(spec.layout, st.(cluster := Advance(spec, st, s).cluster), k)
  {
    ExitsOfRoutes(spec, st, s);
  }

  lemma StoredSteady(l: Layout, p: Pass, o: Outcome)
    requires !SyncState(p.mem.cluster) || p.mem.cluster == Running
    requires OnceDone(l, p.mem) && StatesDone(l, p.mem) && Steady(l, p.stored, p.cluster)
    ensures var q := Store(p, o).pass; Steady(l, q.stored, q.cluster) && q.mem == p.mem && q.cluster == p.cluster
  {}

  lemma ReturnSteady(l: Layout, p: Pass, w: Outcomes)
    requires PassBase(p) && !SyncState(p.mem.cluster) && Steady(l, p.mem, p.cluster) && Steady(l, p.stored, p.cluster)
    ensures var q := ReturnToRunning(p, w); Steady(l, q.stored, q.cluster)
  {
    StoredSteady(l, p.(mem := p.mem.(update := p.mem.update.(state := StateNone))), w.first);
    var a := SaveUpdateState(p, StateNone, w.first).pass;
    StoredSteady(l, a.(mem := a.mem.(update := Blank)), w.second);
    var b := ClearUpdateStatus(a, w.second).pass;
    StoredSteady(l, b.(mem := b.mem.(cluster := Running)), w.third);
  }

  lemma StartSteady(l: Layout, p: Pass, f: UpdateFlow, names: Option<seq<string>>, o: Outcome)
    requires PassBase(p) && p.mem.cluster == Running && Steady(l, p.mem, p.cluster) && Steady(l, p.stored, p.cluster)
    requires names.Some? ==> names.value != [] && BaseName(YtsaurusClient) !in names.value
    ensures var q := SaveUpdatingClusterState(p, f, names, o).pass; Steady(l, q.stored, q.cluster)
  {}

  /** Whoever reports that it needs an update is not the client. */
  lemma UpdateNeverNamesTheClient(v: View, st: Status, s: Survey, spec: Spec)
    requires |v.layout.httpProxies| > 0 && SurveyOf(v, st, AllComponents(v.layout)) == Some(s) && s.needUpdate != []
    requires Choose(spec.selector, spec.enableFullUpdate, s.needUpdate).Chosen?
    ensures var names := Choose(spec.selector, spec.enableFullUpdate, s.needUpdate).names;
      names.Some? ==> names.value != [] && BaseName(YtsaurusClient) !in names.value
  {
    var picks := ChoiceIsSound(spec.selector, spec.enableFullUpdate, s.needUpdate);
    ReadyMeaning(v, st, AllComponents(v.layout));
    forall c | c in s.needUpdate ensures c.name != BaseName(YtsaurusClient) {
      assert StatusIs(v, st, c, NeedLocalUpdate);
      if c.kind == YtsaurusClient { ClientNeverStale(v, st, c); }
      ResidentsWellNamed(v.layout, c);
      KindsDoNotClash(c, Single(YtsaurusClient));
    }
  }

  lemma ClientNeverStale(v: View, st: Status, c: Component)
    requires |v.layout.httpProxies| > 0 && c.kind == YtsaurusClient
    ensures !StatusIs(v, st, c, NeedLocalUpdate)
  {
    assert Decide(v, st, c) == ClientBehind(v, st, c, GatesOf(v, st, c));
  }

  lemma RunningSteady(p: Pass, v: View, spec: Spec, s: Survey, w: Outcomes, synced: Pass)
    requires PassBase(p) && p.mem.cluster == Running && p.mem == p.stored && v.layout == spec.layout && |v.layout.httpProxies| > 0
    requires SurveyOf(v, p.mem, AllComponents(v.layout)) == Some(s)
    requires Steady(v.layout, p.mem, p.cluster) && Steady(v.layout, synced.stored, synced.cluster)
    ensures var q := DispatchOr(p, spec, s, w, synced); Steady(v.layout, q.stored, q.cluster)
  {
    if s.needUpdate != [] && Choose(spec.selector, spec.enableFullUpdate, s.needUpdate).Chosen? {
      var c := Choose(spec.selector, spec.enableFullUpdate, s.needUpdate);
      UpdateNeverNamesTheClient(v, p.mem, s, spec);
      StartSteady(v.layout, p, c.flow, c.names, w.first);
    }
  }

  lemma UpMeansInitialised(v: View, st: Status, s: Survey)
    requires |v.layout.httpProxies| > 0 && ComingUp(st) && SurveyOf(v, st, AllComponents(v.layout)) == Some(s)
    requires !s.needSync || !s.needInit
    ensures OnceDone(v.layout, st) && StatesDone(v.layout, st)
  {
    SyncMeaning(v, st, AllComponents(v.layout));
    forall c | c in AllComponents(v.layout) ensures StatusIs(v, st, c, Ready) { NoUpdateWhileComingUp(v, st, c); }
    AllReadyIsInitialised(v, st);
  }

  lemma SettleSteady(l: Layout, p: Pass, c: ClusterState, o: Outcome)
    requires p.mem == p.stored && p.mem.cluster in {Created, Initializing, Reconfiguration} && c != Updating
    requires PastInit(c) ==> OnceDone(l, p.mem) && StatesDone(l, p.mem)
    ensures var q := SaveClusterState(p, c, o).pass; Steady(l, q.stored, q.cluster)
  {}

  /** A cluster that comes up goes to Running only with every component ready. */
  lemma ComingUpSteady(p: Pass, v: View, spec: Spec, s: Survey, w: Outcomes, synced: Pass)
    requires p.mem.cluster in {Created, Initializing, Reconfiguration} && p.mem == p.stored
    requires v.layout == spec.layout && |v.layout.httpProxies| > 0 && SurveyOf(v, p.mem, AllComponents(v.layout)) == Some(s)
    requires Steady(v.layout, synced.stored, synced.cluster)
    ensures var q := DispatchOr(p, spec, s, w, synced); Steady(v.layout, q.stored, q.cluster)
  {
    if p.mem.cluster == Created {
      SettleSteady(v.layout, p, Initializing, w.first);
    } else if if p.mem.cluster == Initializing then !s.needSync else !s.needInit {
      UpMeansInitialised(v, p.mem, s);
      SettleSteady(v.layout, p, Running, w.first);
    }
  }

  lemma UpdatingSteady(p: Pass, spec: Spec, s: Survey, w: Outcomes, synced: Pass)
    requires Syncing(p) && ArchiveMarked(spec.layout, p.mem)
    requires Steady(spec.layout, p.mem, p.cluster) && Steady(spec.layout, p.stored, p.cluster)
    requires Steady(spec.layout, synced.stored, synced.cluster)
    ensures var q := DispatchOr(p, spec, s, w, synced); Steady(spec.layout, q.stored, q.cluster)
  {
    match Advance(spec, p.mem, s)
    case Stay =>
    case ToUpdate(u) => MoveSteady(spec, p.mem, s, p.cluster);
    case ToCluster(c) => LeaveSteady(spec, p.mem, s, p.cluster);
  }

  lemma MarkedSteady(l: Layout, st: Status, k: Cluster)
    requires Steady(l, st, k)
    ensures Steady(l, Marked(l, st), k) && (st.cluster == Updating ==> ArchiveMarked(l, Marked(l, st)))
    ensures st.cluster != Updating ==> Marked(l, st) == st
  {
    if Marked(l, st) != st { NotedInit(l, st, NotNecessaryToUpdateOpArchive); }
  }

  lemma SwitchSteady(p: Pass, v: View, spec: Spec, s: Survey, w: Outcomes, synced: Pass)
    requires v.layout == spec.layout && |v.layout.httpProxies| > 0
    requires PassBase(p) && (p.mem.cluster == Updating ==> ArchiveMarked(spec.layout, p.mem))
    requires p.mem.cluster != Updating ==> p.mem == p.stored && SurveyOf(v, p.mem, AllComponents(v.layout)) == Some(s)
    requires Steady(v.layout, p.mem, p.cluster) && Steady(v.layout, p.stored, p.cluster)
    requires SyncState(p.mem.cluster) ==> Steady(v.layout, synced.stored, synced.cluster)
    ensures var q := DispatchOr(p, spec, s, w, synced); Steady(v.layout, q.stored, q.cluster)
  {
    if p.mem.cluster == Updating {
      UpdatingSteady(p, spec, s, w, synced);
    } else if p.mem.cluster == Running {
      RunningSteady(p, v, spec, s, w, synced);
    } else if SyncState(p.mem.cluster) {
      ComingUpSteady(p, v, spec, s, w, synced);
    } else {
      ReturnSteady(v.layout, p, w);
    }
  }

  lemma DispatchSteady(p: Pass, v: View, spec: Spec, s: Survey, a: Answers)
    requires v.layout == spec.layout && |v.layout.httpProxies| > 0
    requires PassBase(p) && (p.mem.cluster == Updating ==> ArchiveMarked(spec.layout, p.mem))
    requires p.mem.cluster != Updating ==> p.mem == p.stored && SurveyOf(v, p.mem, AllComponents(v.layout)) == Some(s)
    requires Steady(v.layout, p.mem, p.cluster) && Steady(v.layout, p.stored, p.cluster)
    ensures var q := Dispatch(p, spec, s, a); Steady(v.layout, q.stored, q.cluster)
  {
    if SyncState(p.mem.cluster) { SyncComponentsSteady(v.layout, p, spec, a); }
    SwitchSteady(p, v, spec, s, a.writes, SyncComponents(p, spec, a));
  }

  lemma EnvSteady(l: Layout, st: Status, k: Cluster, e: EnvEvent)
    requires Steady(l, st, k)
    ensures Steady(l, st, EnvStep(k, e))
  {}

  predicate FixedLayout(l: Layout, act: Label) { act.PassWith? ==> act.spec.layout == l }

  lemma NextSteady(l: Layout, w: State, act: Label)
    requires Base(w.stored, w.cluster) && Steady(l, w.stored, w.cluster) && FixedLayout(l, act)
    ensures Steady(l, Next(w, act).stored, Next(w, act).cluster)
  {
    match act
    case Env(e) => EnvSteady(l, w.stored, w.cluster, e);
    case PassWith(spec, a) => RunPassSteady(w, spec, a);
  }

  lemma RunPassSteady(w: State, spec: Spec, a: Answers)
    requires Base(w.stored, w.cluster) && Steady(spec.layout, w.stored, w.cluster)
    ensures Steady(spec.layout, RunPass(w, spec, a).stored, RunPass(w, spec, a).cluster)
  {
    if spec.managed && |spec.layout.httpProxies| > 0 && !a.fetchFails {
      var v := ViewOf(spec, w.cluster, a.surveyed, a);
      var s := SurveyOf(v, w.stored, AllComponents(spec.layout));
      if s.Some? {
        MarkedBase(spec.layout, w.stored, w.cluster);
        MarkedSteady(spec.layout, w.stored, w.cluster);
        DispatchSteady(Pass(Marked(spec.layout, w.stored), w.stored, w.cluster), v, spec, s.value, a);
      }
    }
  }

  lemma RunStep(w: State, acts: seq<Label>, act: Label)
    ensures Run(w, acts + [act]) == Next(Run(w, acts), act)
  {
    assert (acts + [act])[..|acts|] == acts;
  }

  lemma {:induction false} RunAppend(w: State, pre: seq<Label>, post: seq<Label>)
    ensures Run(w, pre + post) == Run(Run(w, pre), post)
    decreases |post|
  {
    if post == [] {
      assert pre + post == pre;
    } else {
      RunAppend(w, pre, post[..|post| - 1]);
      RunAppendOne(w, pre, post[..|post| - 1], post[|post| - 1]);
      assert post == post[..|post| - 1] + [post[|post| - 1]];
    }
  }

  lemma RunAppendOne(w: State, pre: seq<Label>, front: seq<Label>, last: Label)
    requires Run(w, pre + front) == Run(Run(w, pre), front)
    ensures Run(w, pre + (front + [last])) == Run(Run(w, pre), front + [last])
  {
    assert pre + (front + [last]) == (pre + front) + [last];
    RunStep(w, pre + front, last);
    RunStep(Run(w, pre), front, last);
  }

  lemma {:induction false} SteadyOver(l: Layout, w: State, acts: seq<Label>)
    requires Base(w.stored, w.cluster) && Steady(l, w.stored, w.cluster)
    requires forall i :: 0 <= i < |acts| ==> FixedLayout(l, acts[i])
    ensures var r := Run(w, acts); Base(r.stored, r.cluster) && Steady(l, r.stored, r.cluster)
    decreases |acts|
  {
    if acts != [] {
      SteadyOver(l, w, acts[..|acts| - 1]);
      NextBase(Run(w, acts[..|acts| - 1]), acts[|acts| - 1]);
      NextSteady(l, Run(w, acts[..|acts| - 1]), acts[|acts| - 1]);
    }
  }

  /** Over the layout with which the cluster last came up, whatever was before, what was initialized
      stays so. */
  lemma RunSteady(l: Layout, w: State, pre: seq<Label>, post: seq<Label>)
    requires Initial(w) && Run(w, pre).stored.cluster in {Created, Initializing, Reconfiguration}
    requires forall i :: 0 <= i < |post| ==> FixedLayout(l, post[i])
    ensures var r := Run(w, pre + post); Base(r.stored, r.cluster) && Steady(l, r.stored, r.cluster)
  {
    RunBase(w, pre);
    SteadyOver(l, Run(w, pre), post);
    RunAppend(w, pre, post);
  }

  /** Every state of the run belongs to the update of its first state. */
  ghost predicate WithinUpdate(w: State, acts: seq<Label>) {
    forall n :: 0 <= n <= |acts| ==> Run(w, acts[..n]).stored.cluster == Updating
  }

  lemma WithinFront(w: State, acts: seq<Label>)
    requires WithinUpdate(w, acts) && acts != []
    ensures WithinUpdate(w, acts[..|acts| - 1]) && Run(w, acts).stored.cluster == Updating
    ensures Run(w, acts[..|acts| - 1]).stored.cluster == Updating
  {
    var front := acts[..|acts| - 1];
    forall n | 0 <= n <= |front| ensures Run(w, front[..n]).stored.cluster == Updating { assert front[..n] == acts[..n]; }
    assert acts[..|acts|] == acts && front[..|front|] == front;
  }
}
