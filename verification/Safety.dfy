/** What holds at every point of every run: the invariant of the stored status together with the
    cluster, and the safety properties of updates that follow from it. */
module Safety {
  import opened ClusterStatus
  import opened Components
  import opened World
  import opened FlowChoice
  import opened Reconcile
  import opened Actions
  import opened Cells

  predicate TouchesMasters(f: UpdateFlow) { f == FlowFull || f == FlowMaster }
  predicate TouchesTablets(f: UpdateFlow) { f == FlowFull || f == FlowTabletNodes }

  // ----- the place on the route -----

  /** Outside an update nothing of it is left; during one the handler of the flow knows the state. */
  predicate RouteOk(st: Status) {
    match st.cluster
    case Updating =>
      && HasCase(st.update.flow, st.update.state)
      && (st.update.components.None? <==> st.update.flow == FlowFull)
      && st.update.components != Some([])
    case UpdateFinishing | CancelUpdate => true
    case _ => st.update == Blank
  }

  /** A state behind a gate is only reached with the condition of that gate. */
  predicate Earned(u: UpdateStatus) { EarnedBeforePods(u) && EarnedAfterPods(u) }

  predicate EarnedBeforePods(u: UpdateStatus) {
    var r := Rank(u.state);
    && (u.flow != FlowStateless && r > 2 ==> u.Has(HasPossibility))
    && (TouchesMasters(u.flow) && r > 3 ==> u.Has(SafeModeEnabled))
    && (TouchesTablets(u.flow) && r > 4 ==> u.Has(TabletCellsSaved))
    && (TouchesTablets(u.flow) && r > 6 ==> u.Has(TabletCellsRemoved))
    && (TouchesMasters(u.flow) && r > 7 ==> u.Has(SnapshotsSaved))
  }

  predicate EarnedAfterPods(u: UpdateStatus) {
    var r := Rank(u.state);
    && (TouchesMasters(u.flow) && r > 10 ==> u.Has(MasterExitedReadOnly))
    && (TouchesTablets(u.flow) && r > 11 ==> u.Has(TabletCellsRecovered))
    && (r == 13 ==> u.Has(OpArchivePreparedForUpdating))
    && (r == 15 ==> u.Has(QTStatePreparedForUpdating))
  }

  // ----- conditions tell the truth -----

  ghost predicate SnapshotsSeen(masters: seq<seq<string>>, log: seq<Event>) {
    MastersListed(masters) in log
    && forall path :: path in MonitoringPaths(masters) ==> ReadOnlySnapshotSeen(path) in log
  }

  ghost predicate Honest(u: UpdateStatus, log: seq<Event>) {
    && (u.Has(HasPossibility) ==> PossibilityPassed in log)
    && (u.Has(SafeModeEnabled) ==> SafeModeSet(true) in log)
    && (u.Has(TabletCellsSaved) ==> CellsSaved(u.bundles) in log)
    && (u.Has(TabletCellsRemoved) ==> NoCellsSeen in log)
    && (u.Has(SnapshotsMonitoringInfoSaved) ==>
          exists masters :: MastersListed(masters) in log && u.monitoringPaths == MonitoringPaths(masters))
    && (u.Has(SnapshotsSaved) ==>
          u.Has(SnapshotsMonitoringInfoSaved)
          && forall path :: path in u.monitoringPaths ==> ReadOnlySnapshotSeen(path) in log)
  }

  // ----- safe mode -----

  predicate SafeModeOk(st: Status, on: bool) {
    var u := st.update;
    && (on ==> st.cluster == Updating && TouchesMasters(u.flow) && Rank(u.state) > 2)
    && (st.cluster == Updating && u.Has(SafeModeEnabled) && u.state != SafeModeDisabling ==> on)
    && (st.cluster == Updating && u.Has(SafeModeDisabled) ==> !on && u.state == SafeModeDisabling)
  }

  // ----- tablet cells -----

  predicate NoneDying(cells: seq<Cell>) { forall i :: 0 <= i < |cells| ==> !cells[i].dying }

  ghost predicate BundlesOk(k: Cluster) {
    && (forall i, j :: 0 <= i < j < |k.bundles| ==> k.bundles[i] != k.bundles[j])
    && (forall i :: 0 <= i < |k.cells| ==> k.cells[i].bundle in k.bundles)
  }

  ghost predicate AtMost(k: Cluster) { forall b :: b in k.bundles ==> Count(k.cells, b) <= Count(k.baseline, b) }
  ghost predicate Restored(k: Cluster) { forall b :: b in k.bundles ==> Count(k.cells, b) == Count(k.baseline, b) }

  ghost predicate CellsOk(st: Status, k: Cluster) {
    var u := st.update;
    match st.cluster
    case Updating =>
      if !TouchesTablets(u.flow) || Rank(u.state) <= 4 then
        && k.cells == k.baseline && NoneDying(k.cells)
        && !u.Has(TabletCellsRemoved) && !u.Has(TabletCellsRecovered)
        && (u.Has(TabletCellsSaved) ==> u.bundles == Census(k.bundles, k.baseline))
      else
        && u.bundles == Census(k.bundles, k.baseline)
        && (u.Has(TabletCellsRemoved) && Rank(u.state) < 11 ==> k.cells == [])
        && (Rank(u.state) >= 11 ==> NoneDying(k.cells) && AtMost(k))
        && (u.Has(TabletCellsRecovered) ==> Rank(u.state) >= 11 && Restored(k))
    case UpdateFinishing => NoneDying(k.cells) && Restored(k)
    case CancelUpdate => NoneDying(k.cells) && k.cells == k.baseline
    case _ => NoneDying(k.cells)
  }

  // ----- one invariant for the status and the cluster -----

  ghost predicate Base(st: Status, k: Cluster) {
    && RouteOk(st)
    && (st.cluster == Updating ==> Earned(st.update) && Honest(st.update, k.log))
    && SafeModeOk(st, k.safeMode)
    && BundlesOk(k)
    && CellsOk(st, k)
  }

  /** Both copies of the status satisfy the invariant, and memory is ahead of the store. */
  ghost predicate PassBase(p: Pass) {
    && Base(p.mem, p.cluster) && Base(p.stored, p.cluster)
    && p.mem.cluster == p.stored.cluster && Grew(p.stored.update, p.mem.update)
  }

  lemma HonestGrows(u: UpdateStatus, log: seq<Event>, more: seq<Event>)
    requires Honest(u, log) && log <= more
    ensures Honest(u, more)
  {
    assert forall e :: e in log ==> e in more by {
      forall e | e in log ensures e in more {
        var i :| 0 <= i < |log| && log[i] == e;
        assert more[i] == e;
      }
    }
  }

  lemma QuietKeepsStored(p: Pass, q: Pass)
    requires Quiet(p, q) && Base(p.stored, p.cluster)
    ensures Base(q.stored, q.cluster)
  {
    if p.stored.cluster == Updating { HonestGrows(p.stored.update, p.cluster.log, q.cluster.log); }
  }

  lemma QuietKeepsMemory(p: Pass, q: Pass)
    requires Quiet(p, q) && Base(p.mem, p.cluster)
    requires p.mem.cluster != Updating ==> q.mem.update == p.mem.update
    ensures Base(q.mem, q.cluster)
  {
    if p.mem.cluster == Updating {
      HonestGrows(p.mem.update, p.cluster.log, q.cluster.log);
    }
  }

  // ----- the client's step -----

  /** A pass that is syncing components of an updating cluster. */
  ghost predicate Syncing(p: Pass) { PassBase(p) && p.mem.cluster == Updating }

  lemma LogKeepsStored(p: Pass, q: Pass)
    requires Base(p.stored, p.cluster) && q.stored == p.stored
    requires p.cluster.log <= q.cluster.log && q.cluster == p.cluster.(log := q.cluster.log, jobs := q.cluster.jobs, nextId := q.cluster.nextId)
    ensures Base(q.stored, q.cluster)
  {
    if p.stored.cluster == Updating { HonestGrows(p.stored.update, p.cluster.log, q.cluster.log); }
  }

  /** Conditions no invariant reads. */
  predicate Neutral(c: Condition) { c == NoPossibility || c == TabletCellsRemovingStarted || c == SnapshotsBuildingStarted }

  lemma NoteNeutral(p: Pass, c: Condition)
    requires Syncing(p) && Neutral(c)
    ensures PassBase(p.Note(c))
  {}

  lemma LogBase(p: Pass, e: Event)
    requires Syncing(p)
    ensures PassBase(p.(cluster := p.cluster.Log(e)))
    ensures e in p.cluster.Log(e).log
  {
    var q := p.(cluster := p.cluster.Log(e));
    LogKeepsStored(p, q);
    HonestGrows(p.mem.update, p.cluster.log, q.cluster.log);
    assert q.cluster.log[|p.cluster.log|] == e;
  }

  lemma NotePossibility(p: Pass)
    requires Syncing(p) && PossibilityPassed in p.cluster.log
    ensures PassBase(p.Note(HasPossibility))
  {}

  lemma PossibilityBase(p: Pass, yt: YtAnswers)
    requires Syncing(p) && p.mem.update.state == PossibilityCheck
    ensures PassBase(CheckPossibility(p, yt).pass)
  {
    LogBase(p, PossibilityPassed);
    NotePossibility(p.(cluster := p.cluster.Log(PossibilityPassed)));
    NoteNeutral(p, NoPossibility);
  }

  lemma SafeModeBase(p: Pass, on: bool)
    requires Syncing(p) && p.mem.update.state == (if on then SafeModeEnabling else SafeModeDisabling)
    requires !p.mem.update.Has(if on then SafeModeEnabled else SafeModeDisabled)
    ensures PassBase(p.(cluster := p.cluster.(safeMode := on)))
  {}

  lemma NoteSafeMode(p: Pass, on: bool)
    requires Syncing(p) && p.mem.update.state == (if on then SafeModeEnabling else SafeModeDisabling)
    requires p.cluster.safeMode == on && SafeModeSet(on) in p.cluster.log
    ensures PassBase(p.Note(if on then SafeModeEnabled else SafeModeDisabled))
  {}

  lemma SwitchBase(p: Pass, on: bool, yt: YtAnswers)
    requires Syncing(p) && p.mem.update.state == (if on then SafeModeEnabling else SafeModeDisabling)
    ensures PassBase(SwitchSafeMode(p, on, if on then SafeModeEnabled else SafeModeDisabled, yt).pass)
  {
    if !p.mem.update.Has(if on then SafeModeEnabled else SafeModeDisabled) {
      SafeModeBase(p, on);
      var q := p.(cluster := p.cluster.(safeMode := on));
      LogBase(q, SafeModeSet(on));
      NoteSafeMode(q.(cluster := q.cluster.Log(SafeModeSet(on))), on);
    }
  }

  lemma SavingBase(p: Pass, yt: YtAnswers)
    requires Syncing(p) && p.mem.update.state == TabletCellsSaving
    ensures PassBase(SaveCells(p, yt).pass)
  {
    var q := SaveCells(p, yt).pass;
    SavingFrame(p, yt);
    LogKeepsStored(p, q);
    HonestGrows(p.mem.update, p.cluster.log, q.cluster.log);
    assert q.cluster.log == p.cluster.log || q.cluster.log[|p.cluster.log|] == CellsSaved(q.mem.update.bundles);
  }

  lemma RemovingBase(p: Pass, yt: YtAnswers)
    requires Syncing(p) && p.mem.update.state == TabletCellsRemovingStart
    ensures PassBase(StartRemovingCells(p, yt).pass)
  {
    var q := StartRemovingCells(p, yt).pass;
    RemovingFrame(p, yt);
    RemoveCellsFrame(p.cluster, Ids(p.cluster.cells), Rest(yt.outcomes));
    HonestGrows(p.stored.update, p.cluster.log, q.cluster.log);
    HonestGrows(p.mem.update, p.cluster.log, q.cluster.log);
  }

  lemma NoCellsBase(p: Pass, yt: YtAnswers)
    requires Syncing(p) && p.mem.update.state == TabletCellsRemoving
    ensures PassBase(AwaitNoCells(p, yt).pass)
  {
    var q := AwaitNoCells(p, yt).pass;
    NoCellsFrame(p, yt);
    LogKeepsStored(p, q);
    HonestGrows(p.mem.update, p.cluster.log, q.cluster.log);
    assert q.cluster.log == p.cluster.log || q.cluster.log[|p.cluster.log|] == NoCellsSeen;
  }

  /** Recovering from the saved list stays below the baseline, and meets it on success. */
  lemma RecoveryCounts(k: Cluster, infos: seq<BundleInfo>, outs: seq<Outcome>)
    requires BundlesOk(k) && infos == Census(k.bundles, k.baseline) && AtMost(k)
    ensures var r := RecoverCells(k, infos, outs); AtMost(r.cluster) && (r.ok ==> Restored(r.cluster))
    ensures BundlesOk(RecoverCells(k, infos, outs).cluster)
  {
    var r := RecoverCells(k, infos, outs);
    RecoverCellsFrame(k, infos, outs);
    RecoverCounts(k, infos, outs);
    forall b | b in k.bundles
      ensures Count(r.cluster.cells, b) <= Count(k.baseline, b)
      ensures r.ok ==> Count(r.cluster.cells, b) == Count(k.baseline, b)
    {
      var i :| 0 <= i < |k.bundles| && k.bundles[i] == b;
      assert infos[i] == BundleInfo(b, Count(k.baseline, b));
    }
  }

  lemma RestoringBase(p: Pass, yt: YtAnswers)
    requires Syncing(p) && p.mem.update.state == TabletCellsRecovery
    ensures PassBase(RestoreCells(p, yt).pass)
  {
    if !p.mem.update.Has(TabletCellsRecovered) {
      var q := RestoreCells(p, yt).pass;
      RestoringFrame(p, yt);
      RecoverCellsFrame(p.cluster, p.mem.update.bundles, yt.outcomes);
      RecoveryCounts(p.cluster, p.mem.update.bundles, yt.outcomes);
      HonestGrows(p.stored.update, p.cluster.log, q.cluster.log);
      HonestGrows(p.mem.update, p.cluster.log, q.cluster.log);
    }
  }

  lemma PathsBase(p: Pass, yt: YtAnswers)
    requires Syncing(p) && p.mem.update.state == SnapshotsBuilding && !p.mem.update.Has(SnapshotsSaved)
    ensures PassBase(SaveMonitoringPaths(p, yt).pass)
  {
    var q := SaveMonitoringPaths(p, yt).pass;
    PathsFrame(p, yt);
    LogKeepsStored(p, q);
    HonestGrows(p.mem.update, p.cluster.log, q.cluster.log);
    if q.cluster.log != p.cluster.log {
      assert q.cluster.log[|p.cluster.log|] == MastersListed(yt.masters.value);
    }
  }

  lemma StartBase(p: Pass, yt: YtAnswers)
    requires Syncing(p) && p.mem.update.state == SnapshotsBuilding
    ensures PassBase(StartSnapshots(p, yt).pass)
  {
    LogBase(p, SnapshotsRequested);
    NoteNeutral(p, SnapshotsBuildingStarted);
    NoteNeutral(p.(cluster := p.cluster.Log(SnapshotsRequested)), SnapshotsBuildingStarted);
  }

  lemma AwaitBase(p: Pass, yt: YtAnswers)
    requires Syncing(p) && p.mem.update.state == SnapshotsBuilding && p.mem.update.Has(SnapshotsMonitoringInfoSaved)
    ensures PassBase(AwaitSnapshots(p, yt).pass)
  {
    var q := AwaitSnapshots(p, yt).pass;
    AwaitFrame(p, yt);
    SnapshotReadsFrame(p.cluster, p.mem.update.monitoringPaths, yt.snapshots);
    LogKeepsStored(p, q);
    HonestGrows(p.mem.update, p.cluster.log, q.cluster.log);
  }

  lemma SnapshotsBase(p: Pass, yt: YtAnswers)
    requires Syncing(p) && p.mem.update.state == SnapshotsBuilding
    ensures PassBase(BuildSnapshots(p, yt).pass)
  {
    if !p.mem.update.Has(SnapshotsSaved) {
      var s := SaveMonitoringPaths(p, yt);
      PathsBase(p, yt);
      PathsFrame(p, yt);
      if s.ok {
        var t := StartSnapshots(s.pass, yt);
        StartBase(s.pass, yt);
        StartFrame(s.pass, yt);
        if t.ok { AwaitBase(t.pass, yt); }
      }
    }
  }

  lemma ClientBase(p: Pass, yt: YtAnswers)
    requires Syncing(p)
    ensures PassBase(ClientStep(p, yt).pass)
  {
    match p.mem.update.state
    case PossibilityCheck => PossibilityBase(p, yt);
    case SafeModeEnabling => SwitchBase(p, true, yt);
    case SafeModeDisabling => SwitchBase(p, false, yt);
    case TabletCellsSaving => SavingBase(p, yt);
    case TabletCellsRemovingStart => RemovingBase(p, yt);
    case TabletCellsRemoving => NoCellsBase(p, yt);
    case SnapshotsBuilding => SnapshotsBase(p, yt);
    case TabletCellsRecovery => RestoringBase(p, yt);
    case _ =>
  }

  // ----- syncing components -----

  /** The cluster states in which components are synced. */
  predicate SyncState(c: ClusterState) { c != UpdateFinishing && c != CancelUpdate }

  lemma InitBundlesBase(p: Pass, b: (nat, nat), outs: seq<Outcome>)
    requires PassBase(p) && p.mem.cluster != Updating && SyncState(p.mem.cluster)
    ensures PassBase(InitBundlesStep(p, b, outs).pass)
    ensures InitBundlesStep(p, b, outs).pass.mem.cluster == p.mem.cluster
  {
    var s := EnsureSysBundle(p.cluster, outs);
    RecoverCellsFrame(s.cluster, [BundleInfo("default", b.0), BundleInfo("sys", b.1)], Rest(s.outs));
  }

  lemma PerformBase(p: Pass, v: View, c: Component, action: Action, b: (nat, nat), a: Answers)
    requires PassBase(p) && SyncState(p.mem.cluster) && Allowed(v, p.mem, c, action)
    ensures var q := Perform(p, v, c, action, b, a).pass; PassBase(q) && q.mem.cluster == p.mem.cluster
  {
    var q := Perform(p, v, c, action, b, a).pass;
    if action == HandleUpdatingState {
      ClientBase(p, a.yt);
      ClientFrame(p, a.yt);
    } else if action == InitBundles {
      InitBundlesBase(p, b, a.yt.outcomes);
    } else {
      PerformQuiet(p, v, c, action, b, a);
      if p.mem.cluster != Updating { OutsideUpdate(p, v, c, action, b, a); }
      QuietKeepsStored(p, q);
      QuietKeepsMemory(p, q);
    }
  }

  lemma SyncOneBase(p: Pass, spec: Spec, fetched: Cluster, a: Answers, c: Component)
    requires PassBase(p) && SyncState(p.mem.cluster) && |spec.layout.httpProxies| > 0
    ensures var q := SyncOne(p, spec, fetched, a, c).pass; PassBase(q) && q.mem.cluster == p.mem.cluster
  {
    var v := ViewOf(spec, fetched, a.synced, a);
    var d := Decide(v, p.mem, c);
    if d.Do? {
      DecisionsAreAllowed(v, p.mem, c);
      PerformBase(p, v, c, d.action, spec.bootstrap, a);
    }
  }

  lemma {:induction false} SyncAllBase(p: Pass, spec: Spec, fetched: Cluster, a: Answers, cs: seq<Component>)
    requires PassBase(p) && SyncState(p.mem.cluster) && |spec.layout.httpProxies| > 0
    ensures PassBase(SyncAll(p, spec, fetched, a, cs).pass)
    decreases |cs|
  {
    if cs != [] {
      SyncOneBase(p, spec, fetched, a, cs[0]);
      var s := SyncOne(p, spec, fetched, a, cs[0]);
      if s.ok { SyncAllBase(s.pass, spec, fetched, a, cs[1..]); }
    }
  }

  // ----- status writes -----

  lemma EncodedBase(st: Status, k: Cluster)
    requires Base(st, k)
    ensures Base(Encoded(st), k)
  {}

  /** A write that may fail leaves the old or the new status, and both satisfy the invariant. */
  lemma StoreBase(p: Pass, o: Outcome)
    requires Base(p.mem, p.cluster) && Base(p.stored, p.cluster)
    ensures var q := Store(p, o).pass; Base(q.stored, q.cluster) && q.mem == p.mem && q.cluster == p.cluster
  {
    EncodedBase(p.mem, p.cluster);
  }

  lemma SyncComponentsBase(p: Pass, spec: Spec, a: Answers)
    requires PassBase(p) && SyncState(p.mem.cluster) && |spec.layout.httpProxies| > 0
    ensures var q := SyncComponents(p, spec, a); Base(q.stored, q.cluster)
  {
    SyncAllBase(p, spec, p.cluster, a, AllComponents(spec.layout));
    var s := SyncAll(p, spec, p.cluster, a, AllComponents(spec.layout));
    StoreBase(s.pass, a.writes.first);
  }

  /** The next state is one the handler of the same flow knows, and strictly further on the way. */
  lemma RouteAdvances(spec: Spec, st: Status, s: Survey)
    requires st.cluster == Updating && RouteOk(st)
    ensures Advance(spec, st, s).ToUpdate? ==>
      var u := Advance(spec, st, s).update; HasCase(st.update.flow, u) && Rank(u) > Rank(st.update.state)
  {}

  lemma EarnedBeforeAdvances(spec: Spec, st: Status, s: Survey)
    requires st.cluster == Updating && RouteOk(st) && EarnedBeforePods(st.update) && Advance(spec, st, s).ToUpdate?
    ensures EarnedBeforePods(st.update.(state := Advance(spec, st, s).update))
  {}

  lemma EarnedAfterAdvances(spec: Spec, st: Status, s: Survey)
    requires st.cluster == Updating && RouteOk(st) && EarnedAfterPods(st.update) && Advance(spec, st, s).ToUpdate?
    ensures EarnedAfterPods(st.update.(state := Advance(spec, st, s).update))
  {}

  lemma TabletGates(spec: Spec, st: Status, s: Survey)
    requires st.cluster == Updating && RouteOk(st) && TouchesTablets(st.update.flow) && Advance(spec, st, s).ToUpdate?
    ensures var r, next := Rank(st.update.state), Rank(Advance(spec, st, s).update);
      && (r <= 4 < next ==> st.update.Has(TabletCellsSaved))
      && (r < 11 <= next ==> r > 6)
  {}

  lemma CellsMove(st: Status, k: Cluster, next: UpdateState)
    requires Base(st, k) && st.cluster == Updating && Rank(next) > Rank(st.update.state)
    requires TouchesTablets(st.update.flow) ==>
      && (Rank(st.update.state) <= 4 < Rank(next) ==> st.update.Has(TabletCellsSaved))
      && (Rank(st.update.state) < 11 <= Rank(next) ==> Rank(st.update.state) > 6)
    ensures CellsOk(st.(update := st.update.(state := next)), k)
  {}

  lemma SafeModeAdvances(spec: Spec, st: Status, s: Survey, k: Cluster)
    requires Base(st, k) && st.cluster == Updating && Advance(spec, st, s).ToUpdate?
    ensures SafeModeOk(st.(update := st.update.(state := Advance(spec, st, s).update)), k.safeMode)
  {}

  /** Moving along the route keeps the invariant, strictly raises the rank and keeps the flow. */
  lemma AdvanceBase(spec: Spec, st: Status, s: Survey, k: Cluster)
    requires Base(st, k) && st.cluster == Updating && Advance(spec, st, s).ToUpdate?
    ensures Base(st.(update := st.update.(state := Advance(spec, st, s).update)), k)
  {
    RouteAdvances(spec, st, s);
    EarnedBeforeAdvances(spec, st, s);
    EarnedAfterAdvances(spec, st, s);
    if TouchesTablets(st.update.flow) { TabletGates(spec, st, s); }
    CellsMove(st, k, Advance(spec, st, s).update);
    SafeModeAdvances(spec, st, s, k);
  }

  /** An update is cancelled only from the dead end, and finished only behind its last gate. */
  lemma ExitsOfRoutes(spec: Spec, st: Status, s: Survey)
    requires st.cluster == Updating && RouteOk(st) && Advance(spec, st, s).ToCluster?
    ensures var u, c := st.update, Advance(spec, st, s).cluster;
      && (c == CancelUpdate <==> u.state == ImpossibleToStart)
      && (c != CancelUpdate ==> c == UpdateFinishing)
      && (c == UpdateFinishing && TouchesMasters(u.flow) ==> u.state == SafeModeDisabling && u.Has(SafeModeDisabled))
      && (c == UpdateFinishing && u.flow == FlowTabletNodes ==> u.state == TabletCellsRecovery && u.Has(TabletCellsRecovered))
  {}

  lemma LeaveBase(spec: Spec, st: Status, s: Survey, k: Cluster)
    requires Base(st, k) && st.cluster == Updating && Advance(spec, st, s).ToCluster?
    ensures Base(st.(cluster := Advance(spec, st, s).cluster), k)
  {
    ExitsOfRoutes(spec, st, s);
  }

  // ----- whole passes and runs -----

  lemma MarkedBase(l: Layout, st: Status, k: Cluster)
    requires Base(st, k)
    ensures Base(Marked(l, st), k) && Grew(st.update, Marked(l, st).update) && Marked(l, st).cluster == st.cluster
  {}

  lemma StartBaseOfUpdate(p: Pass, spec: Spec, s: Survey, o: Outcome)
    requires PassBase(p) && p.mem.cluster == Running && s.needUpdate != []
    requires Choose(spec.selector, spec.enableFullUpdate, s.needUpdate).Chosen?
    ensures var c := Choose(spec.selector, spec.enableFullUpdate, s.needUpdate);
      var q := SaveUpdatingClusterState(p, c.flow, c.names, o).pass; Base(q.stored, q.cluster)
  {
    var picks := ChoiceIsSound(spec.selector, spec.enableFullUpdate, s.needUpdate);
  }

  lemma ReturnBase(p: Pass, w: Outcomes)
    requires PassBase(p) && !SyncState(p.mem.cluster)
    ensures var q := ReturnToRunning(p, w); Base(q.stored, q.cluster)
  {
    var first := p.(mem := p.mem.(update := p.mem.update.(state := StateNone)));
    StoreBase(first, w.first);
    var a := SaveUpdateState(p, StateNone, w.first);
    var second := a.pass.(mem := a.pass.mem.(update := Blank));
    StoreBase(second, w.second);
    var b := ClearUpdateStatus(a.pass, w.second);
    StoreBase(b.pass.(mem := b.pass.mem.(cluster := Running)), w.third);
  }

  lemma SettleBase(p: Pass, c: ClusterState, o: Outcome)
    requires PassBase(p) && p.mem.cluster in {Created, Initializing, Running, Reconfiguration}
    requires c in {Initializing, Running, Reconfiguration}
    ensures var q := SaveClusterState(p, c, o).pass; Base(q.stored, q.cluster)
  {}

  lemma UpdatingBase(p: Pass, spec: Spec, s: Survey, w: Outcomes, synced: Pass)
    requires PassBase(p) && p.mem.cluster == Updating && Base(synced.stored, synced.cluster)
    ensures var q := DispatchOr(p, spec, s, w, synced); Base(q.stored, q.cluster)
  {
    match Advance(spec, p.mem, s)
    case Stay =>
    case ToUpdate(u) =>
      AdvanceBase(spec, p.mem, s, p.cluster);
      StoreBase(p.(mem := p.mem.(update := p.mem.update.(state := u))), w.first);
    case ToCluster(c) =>
      LeaveBase(spec, p.mem, s, p.cluster);
      StoreBase(p.(mem := p.mem.(cluster := c)), w.first);
  }

  lemma RunningBase(p: Pass, spec: Spec, s: Survey, w: Outcomes, synced: Pass)
    requires PassBase(p) && p.mem.cluster == Running && Base(synced.stored, synced.cluster)
    ensures var q := DispatchOr(p, spec, s, w, synced); Base(q.stored, q.cluster)
  {
    SettleBase(p, Reconfiguration, w.first);
    if s.needUpdate != [] && Choose(spec.selector, spec.enableFullUpdate, s.needUpdate).Chosen? {
      StartBaseOfUpdate(p, spec, s, w.first);
    }
  }

  lemma DispatchBase(p: Pass, spec: Spec, s: Survey, w: Outcomes, synced: Pass)
    requires PassBase(p) && (SyncState(p.mem.cluster) ==> Base(synced.stored, synced.cluster))
    ensures var q := DispatchOr(p, spec, s, w, synced); Base(q.stored, q.cluster)
  {
    match p.mem.cluster
    case Updating => UpdatingBase(p, spec, s, w, synced);
    case Running => RunningBase(p, spec, s, w, synced);
    case UpdateFinishing => ReturnBase(p, w);
    case CancelUpdate => ReturnBase(p, w);
    case Created => SettleBase(p, Initializing, w.first);
    case Initializing => SettleBase(p, Running, w.first);
    case Reconfiguration => SettleBase(p, Running, w.first);
  }

  lemma EnvBase(st: Status, k: Cluster, e: EnvEvent)
    requires Base(st, k)
    ensures Base(st, EnvStep(k, e))
  {
    var k' := EnvStep(k, e);
    if st.cluster == Updating { HonestGrows(st.update, k.log, k'.log); }
  }

  lemma NextBase(w: State, act: Label)
    requires Base(w.stored, w.cluster)
    ensures Base(Next(w, act).stored, Next(w, act).cluster)
  {
    match act
    case Env(e) => EnvBase(w.stored, w.cluster, e);
    case PassWith(spec, a) =>
      if spec.managed && |spec.layout.httpProxies| > 0 && !a.fetchFails {
        var s := SurveyOf(ViewOf(spec, w.cluster, a.surveyed, a), w.stored, AllComponents(spec.layout));
        if s.Some? {
          MarkedBase(spec.layout, w.stored, w.cluster);
          var p := Pass(Marked(spec.layout, w.stored), w.stored, w.cluster);
          if SyncState(p.mem.cluster) { SyncComponentsBase(p, spec, a); }
          DispatchBase(p, spec, s.value, a.writes, SyncComponents(p, spec, a));
        }
      }
  }

  /** The invariant holds at the end of every run. */
  lemma {:induction false} RunBase(w: State, acts: seq<Label>)
    requires Initial(w)
    ensures Base(Run(w, acts).stored, Run(w, acts).cluster)
    decreases |acts|
  {
    if acts != [] {
      RunBase(w, acts[..|acts| - 1]);
      NextBase(Run(w, acts[..|acts| - 1]), acts[|acts| - 1]);
    }
  }
}
