/** The operator itself, in its own form: a status in memory that its methods change step by step, a
    stored copy that writes may or may not reach, and the cluster. Every method is proved against
    the functions of the model. */
module Operator {
  import opened ClusterStatus
  import opened Components
  import opened World
  import opened FlowChoice
  import opened Reconcile
  import opened Actions
  import opened Durable
  import opened Effects
  import PossibilityCheck

  class Reconciler {
    var mem: Status
    var stored: Status
    var cluster: Cluster

    function Now(): Pass
      reads this
    {
      Pass(mem, stored, cluster)
    }

    /** A pass loads the stored status. */
    constructor (stored: Status, cluster: Cluster)
      ensures Now() == Pass(stored, stored, cluster)
    {
      this.mem := stored;
      this.stored := stored;
      this.cluster := cluster;
    }

    // ----- the status proxy -----

    method UpdateStatus(o: Outcome) returns (ok: bool)
      modifies this
      ensures Step(Now(), ok) == Store(old(Now()), o)
      ensures mem == old(mem) && Saved(old(Now()), Now(), ok)
    {
      if o != Lost {
        stored := if mem.update.components == Some([]) then mem.(update := mem.update.(components := None)) else mem;
      }
      ok := o == Done;
    }

    method SaveClusterState(c: ClusterState, o: Outcome) returns (ok: bool)
      modifies this
      ensures Step(Now(), ok) == Reconcile.SaveClusterState(old(Now()), c, o)
      ensures mem == old(mem).(cluster := c) && Saved(old(Now()), Now(), ok)
      ensures ok ==> stored.cluster == c && stored.update.state == old(mem).update.state && SameConditions(old(mem), stored)
    {
      mem := mem.(cluster := c);
      ok := UpdateStatus(o);
    }

    method SaveUpdateState(s: UpdateState, o: Outcome) returns (ok: bool)
      modifies this
      ensures Step(Now(), ok) == Reconcile.SaveUpdateState(old(Now()), s, o)
      ensures mem == old(mem).(update := old(mem).update.(state := s)) && Saved(old(Now()), Now(), ok)
      ensures ok ==> stored.update.state == s && stored.cluster == old(mem).cluster && SameConditions(old(mem), stored)
    {
      mem := mem.(update := mem.update.(state := s));
      ok := UpdateStatus(o);
    }

    method ClearUpdateStatus(o: Outcome) returns (ok: bool)
      modifies this
      ensures Step(Now(), ok) == Reconcile.ClearUpdateStatus(old(Now()), o)
      ensures mem.(update := old(mem).update) == old(mem) && Saved(old(Now()), Now(), ok)
      ensures ok ==> stored.update == Blank.(state := old(mem).update.state) && forall c :: IsUpdatingComponent(stored, c) <==> IsUpdatable(c)
    {
      mem := mem.(update := mem.update.(conditions := map[], bundles := [], monitoringPaths := [], components := None, flow := FlowNone));
      ok := UpdateStatus(o);
    }

    method SaveUpdatingClusterState(f: UpdateFlow, names: Option<seq<string>>, o: Outcome) returns (ok: bool)
      modifies this
      ensures Step(Now(), ok) == Reconcile.SaveUpdatingClusterState(old(Now()), f, names, o)
      ensures ok ==> stored.cluster == Updating && stored.update.flow == f && forall c :: ReadsAs(stored, names, c)
      ensures ok ==> cluster.log == [] && cluster.baseline == cluster.cells && SameConditions(old(mem), stored)
      ensures mem.initDone == old(mem).initDone && mem.update.state == old(mem).update.state
      ensures || (stored == old(stored) && cluster == old(cluster))
              || (stored == Encoded(mem) && cluster == old(cluster).(log := [], baseline := old(cluster).cells))
    {
      mem := mem.(cluster := Updating, update := mem.update.(flow := f, components := names));
      ok := UpdateStatus(o);
      if o != Lost { cluster := cluster.(log := [], baseline := cluster.cells); }
    }

    method SetUpdateStatusCondition(c: Condition, value: bool)
      modifies this`mem
      ensures Now() == old(Now()).(mem := old(mem).WithCondition(c, value))
      ensures mem.update.Has(c) == value && forall d :: d != c ==> mem.update.Has(d) == old(mem).update.Has(d)
    {
      mem := mem.(update := mem.update.(conditions := mem.update.conditions[c := value]));
    }

    // ----- the component manager's questions -----

    method ArePodsRemoved(cs: seq<Component>) returns (removed: bool)
      ensures removed <==> forall c :: c in cs && IsUpdatingComponent(mem, c) ==> mem.update.Has(PodsRemoved(c.name))
    {
      for i := 0 to |cs|
        invariant forall k :: 0 <= k < i && IsUpdatingComponent(mem, cs[k]) ==> mem.update.Has(PodsRemoved(cs[k].name))
      {
        if IsUpdatingComponent(mem, cs[i]) && !mem.update.Has(PodsRemoved(cs[i].name)) {
          assert cs[i] in cs;
          return false;
        }
      }
      return true;
    }

    /** The status loop of the component manager. */
    method TakeSurvey(v: View, cs: seq<Component>) returns (s: Option<Survey>)
      requires |v.layout.httpProxies| > 0
      ensures s == SurveyOf(v, mem, cs)
    {
      var needSync, needInit, allReadyOrUpdating := false, false, true;
      var needUpdate := [];
      for i := 0 to |cs|
        invariant SurveyOf(v, mem, cs[..i]) == Some(Survey(needSync, needInit, needUpdate, allReadyOrUpdating))
      {
        assert cs[..i + 1][..i] == cs[..i];
        var d := Decide(v, mem, cs[i]);
        if d.Fail? {
          SurveyStops(v, mem, cs, i + 1);
          return None;
        }
        if d.status == NeedLocalUpdate { needUpdate := needUpdate + [cs[i]]; }
        if !IsRunning(d.status) { needInit := true; }
        if d.status != Ready && d.status != SyncUpdating { allReadyOrUpdating := false; }
        if d.status != Ready { needSync := true; }
      }
      assert cs[..|cs|] == cs;
      return Some(Survey(needSync, needInit, needUpdate, allReadyOrUpdating));
    }

    // ----- the flow handlers, each a switch over its own states -----

    /** Stores the transition a handler decided on, if any. */
    method Apply(move: Move, o: Outcome) returns (handled: bool)
      modifies this
      ensures (Now(), handled) == AfterMove(old(Now()), move, o)
    {
      var ok: bool;
      match move {
        case Stay => return false;
        case ToUpdate(u) => ok := SaveUpdateState(u, o);
        case ToCluster(c) => ok := SaveClusterState(c, o);
      }
      return true;
    }

    /** The handler of the Full flow. */
    method DecideEverything(spec: Spec, s: Survey) returns (move: Move)
      requires mem.update.flow == FlowFull
      ensures move == Advance(spec, mem, s)
    {
      move := Stay;
      match mem.update.state {
        case StateNone =>
          move := ToUpdate(PossibilityCheck);
        case PossibilityCheck =>
          if mem.update.Has(HasPossibility) {
            move := ToUpdate(SafeModeEnabling);
          } else if mem.update.Has(NoPossibility) {
            move := ToUpdate(ImpossibleToStart);
          }
        case ImpossibleToStart =>
          if !s.needSync || !spec.enableFullUpdate {
            move := ToCluster(CancelUpdate);
          }
        case SafeModeEnabling =>
          if mem.update.Has(SafeModeEnabled) {
            move := ToUpdate(TabletCellsSaving);
          }
        case TabletCellsSaving =>
          if mem.update.Has(TabletCellsSaved) {
            move := ToUpdate(TabletCellsRemovingStart);
          }
        case TabletCellsRemovingStart =>
          if mem.update.Has(TabletCellsRemovingStarted) {
            move := ToUpdate(TabletCellsRemoving);
          }
        case TabletCellsRemoving =>
          if mem.update.Has(TabletCellsRemoved) {
            move := ToUpdate(SnapshotsBuilding);
          }
        case SnapshotsBuilding =>
          if mem.update.Has(SnapshotsSaved) {
            move := ToUpdate(PodsRemoval);
          }
        case PodsRemoval =>
          var removed := ArePodsRemoved(AllComponents(spec.layout));
          if removed {
            move := ToUpdate(PodsCreation);
          }
        case PodsCreation =>
          if s.allReadyOrUpdating {
            move := ToUpdate(MasterExitingReadOnly);
          }
        case MasterExitingReadOnly =>
          if mem.update.Has(MasterExitedReadOnly) {
            move := ToUpdate(TabletCellsRecovery);
          }
        case TabletCellsRecovery =>
          if mem.update.Has(TabletCellsRecovered) {
            move := ToUpdate(OpArchivePreparing);
          }
        case OpArchivePreparing =>
          if !NeedSchedulerUpdate(spec.layout, mem) || mem.update.Has(NotNecessaryToUpdateOpArchive) {
            move := ToUpdate(QTStatePreparing);
          } else if mem.update.Has(OpArchivePreparedForUpdating) {
            move := ToUpdate(OpArchiveUpdating);
          }
        case OpArchiveUpdating =>
          if mem.update.Has(OpArchiveUpdated) {
            move := ToUpdate(QTStatePreparing);
          }
        case QTStatePreparing =>
          if !NeedQueryTrackerUpdate(spec.layout, mem) {
            move := ToUpdate(SafeModeDisabling);
          } else if mem.update.Has(QTStatePreparedForUpdating) {
            move := ToUpdate(QTStateUpdating);
          }
        case QTStateUpdating =>
          if mem.update.Has(QTStateUpdated) {
            move := ToUpdate(SafeModeDisabling);
          }
        case SafeModeDisabling =>
          if mem.update.Has(SafeModeDisabled) {
            move := ToCluster(UpdateFinishing);
          }
      }
    }

    method HandleEverything(spec: Spec, s: Survey, o: Outcome) returns (handled: bool)
      requires mem.update.flow == FlowFull
      modifies this
      ensures (Now(), handled) == AfterMove(old(Now()), Advance(spec, old(mem), s), o)
    {
      var move := DecideEverything(spec, s);
      handled := Apply(move, o);
    }

    /** The handler of the Stateless flow. */
    method DecideStateless(spec: Spec, s: Survey) returns (move: Move)
      requires mem.update.flow == FlowStateless
      ensures move == Advance(spec, mem, s)
    {
      move := Stay;
      match mem.update.state {
        case StateNone =>
          move := ToUpdate(PodsRemoval);
        case PodsRemoval =>
          var removed := ArePodsRemoved(AllComponents(spec.layout));
          if removed {
            move := ToUpdate(PodsCreation);
          }
        case PodsCreation =>
          if s.allReadyOrUpdating {
            move := ToUpdate(OpArchivePreparing);
          }
        case OpArchivePreparing =>
          if !NeedSchedulerUpdate(spec.layout, mem) || mem.update.Has(NotNecessaryToUpdateOpArchive) {
            move := ToUpdate(QTStatePreparing);
          } else if mem.update.Has(OpArchivePreparedForUpdating) {
            move := ToUpdate(OpArchiveUpdating);
          }
        case OpArchiveUpdating =>
          if mem.update.Has(OpArchiveUpdated) {
            move := ToUpdate(QTStatePreparing);
          }
        case QTStatePreparing =>
          if !NeedQueryTrackerUpdate(spec.layout, mem) {
            move := ToCluster(UpdateFinishing);
          } else if mem.update.Has(QTStatePreparedForUpdating) {
            move := ToUpdate(QTStateUpdating);
          }
        case QTStateUpdating =>
          if mem.update.Has(QTStateUpdated) {
            move := ToCluster(UpdateFinishing);
          }
        case _ =>
      }
    }

    method HandleStateless(spec: Spec, s: Survey, o: Outcome) returns (handled: bool)
      requires mem.update.flow == FlowStateless
      modifies this
      ensures (Now(), handled) == AfterMove(old(Now()), Advance(spec, old(mem), s), o)
    {
      var move := DecideStateless(spec, s);
      handled := Apply(move, o);
    }

    /** The handler of the Master flow. */
    method DecideMasterOnly(spec: Spec, s: Survey) returns (move: Move)
      requires mem.update.flow == FlowMaster
      ensures move == Advance(spec, mem, s)
    {
      move := Stay;
      match mem.update.state {
        case StateNone =>
          move := ToUpdate(PossibilityCheck);
        case PossibilityCheck =>
          if mem.update.Has(HasPossibility) {
            move := ToUpdate(SafeModeEnabling);
          } else if mem.update.Has(NoPossibility) {
            move := ToUpdate(ImpossibleToStart);
          }
        case ImpossibleToStart =>
          if !s.needSync || !spec.enableFullUpdate {
            move := ToCluster(CancelUpdate);
          }
        case SafeModeEnabling =>
          if mem.update.Has(SafeModeEnabled) {
            move := ToUpdate(SnapshotsBuilding);
          }
        case SnapshotsBuilding =>
          if mem.update.Has(SnapshotsSaved) {
            move := ToUpdate(PodsRemoval);
          }
        case PodsRemoval =>
          var removed := ArePodsRemoved(AllComponents(spec.layout));
          if removed {
            move := ToUpdate(PodsCreation);
          }
        case PodsCreation =>
          if s.allReadyOrUpdating {
            move := ToUpdate(MasterExitingReadOnly);
          }
        case MasterExitingReadOnly =>
          if mem.update.Has(MasterExitedReadOnly) {
            move := ToUpdate(SafeModeDisabling);
          }
        case SafeModeDisabling =>
          if mem.update.Has(SafeModeDisabled) {
            move := ToCluster(UpdateFinishing);
          }
        case _ =>
      }
    }

    method HandleMasterOnly(spec: Spec, s: Survey, o: Outcome) returns (handled: bool)
      requires mem.update.flow == FlowMaster
      modifies this
      ensures (Now(), handled) == AfterMove(old(Now()), Advance(spec, old(mem), s), o)
    {
      var move := DecideMasterOnly(spec, s);
      handled := Apply(move, o);
    }

    /** The handler of the TabletNodes flow. */
    method DecideTabletNodesOnly(spec: Spec, s: Survey) returns (move: Move)
      requires mem.update.flow == FlowTabletNodes
      ensures move == Advance(spec, mem, s)
    {
      move := Stay;
      match mem.update.state {
        case StateNone =>
          move := ToUpdate(PossibilityCheck);
        case PossibilityCheck =>
          if mem.update.Has(HasPossibility) {
            move := ToUpdate(TabletCellsSaving);
          } else if mem.update.Has(NoPossibility) {
            move := ToUpdate(ImpossibleToStart);
          }
        case ImpossibleToStart =>
          if !s.needSync || !spec.enableFullUpdate {
            move := ToCluster(CancelUpdate);
          }
        case TabletCellsSaving =>
          if mem.update.Has(TabletCellsSaved) {
            move := ToUpdate(TabletCellsRemovingStart);
          }
        case TabletCellsRemovingStart =>
          if mem.update.Has(TabletCellsRemovingStarted) {
            move := ToUpdate(TabletCellsRemoving);
          }
        case TabletCellsRemoving =>
          if mem.update.Has(TabletCellsRemoved) {
            move := ToUpdate(PodsRemoval);
          }
        case PodsRemoval =>
          var removed := ArePodsRemoved(AllComponents(spec.layout));
          if removed {
            move := ToUpdate(PodsCreation);
          }
        case PodsCreation =>
          if s.allReadyOrUpdating {
            move := ToUpdate(TabletCellsRecovery);
          }
        case TabletCellsRecovery =>
          if mem.update.Has(TabletCellsRecovered) {
            move := ToCluster(UpdateFinishing);
          }
        case _ =>
      }
    }

    method HandleTabletNodesOnly(spec: Spec, s: Survey, o: Outcome) returns (handled: bool)
      requires mem.update.flow == FlowTabletNodes
      modifies this
      ensures (Now(), handled) == AfterMove(old(Now()), Advance(spec, old(mem), s), o)
    {
      var move := DecideTabletNodesOnly(spec, s);
      handled := Apply(move, o);
    }

    // ----- calls to the YT cluster: tablet cells -----

    /** RemoveTabletCells after the listing: stops at the first call that fails. */
    method RemoveListed(ids: seq<nat>, outs: seq<Outcome>) returns (ok: bool)
      modifies this`cluster
      ensures var r := RemoveCells(old(cluster), ids, outs); cluster == r.cluster && ok == r.ok
    {
      var rest := outs;
      ghost var all := RemoveCells(cluster, ids, outs);
      for i := 0 to |ids|
        invariant all == RemoveCells(cluster, ids[i..], rest)
      {
        var o := First(rest);
        assert ids[i..][1..] == ids[i + 1..];
        if o != Lost { cluster := RemoveCell(cluster, ids[i]); }
        rest := Rest(rest);
        if o != Done { return false; }
      }
      return true;
    }

    /** CreateTabletCells: reads the count, then creates one cell after the other up to the target. */
    method CreateTabletCells(info: BundleInfo, outs: seq<Outcome>) returns (ok: bool, rest: seq<Outcome>)
      modifies this`cluster
      ensures Calls(cluster, ok, rest) == FillBundle(old(cluster), info, outs)
    {
      rest := Rest(outs);
      if First(outs) != Done || info.name !in cluster.bundles { return false, rest; }
      var i: int := Count(cluster.cells, info.name);
      ghost var all := FillBundle(cluster, info, outs);
      while i < info.cellCount
        invariant all == CreateCells(cluster, info.name, if i < info.cellCount then info.cellCount - i else 0, rest)
      {
        var o := First(rest);
        if o != Lost { cluster := CreateCell(cluster, info.name); }
        rest := Rest(rest);
        if o != Done { return false, rest; }
        i := i + 1;
      }
      return true, rest;
    }

    method RecoverTabletCells(infos: seq<BundleInfo>, outs: seq<Outcome>) returns (ok: bool)
      modifies this`cluster
      ensures var r := RecoverCells(old(cluster), infos, outs); cluster == r.cluster && ok == r.ok
    {
      var rest := outs;
      ghost var all := RecoverCells(cluster, infos, outs);
      for i := 0 to |infos|
        invariant all == RecoverCells(cluster, infos[i..], rest)
      {
        assert infos[i..][1..] == infos[i + 1..];
        ok, rest := CreateTabletCells(infos[i], rest);
        if !ok { return false; }
      }
      return true;
    }

    // ----- calls to the YT cluster: master snapshots -----

    /** AreMasterSnapshotsBuilt: asks master after master until one is not there yet or fails. */
    method AreMasterSnapshotsBuilt(paths: seq<string>, answers: seq<Option<bool>>) returns (built: Option<bool>)
      modifies this`cluster
      ensures (cluster, built) == SnapshotReads(old(cluster), paths, answers)
    {
      ghost var all := SnapshotReads(cluster, paths, answers);
      for i := 0 to |paths|
        invariant i <= |answers|
        invariant all == SnapshotReads(cluster, paths[i..], answers[i..])
      {
        assert paths[i..][1..] == paths[i + 1..];
        if i == |answers| || answers[i].None? { return None; }
        if !answers[i].value { return Some(false); }
        assert answers[i..][1..] == answers[i + 1..];
        cluster := cluster.Log(ReadOnlySnapshotSeen(paths[i]));
      }
      return Some(true);
    }

    // ----- the client's part of an update -----

    method CheckPossibility(yt: YtAnswers) returns (ok: bool)
      modifies this
      ensures Step(Now(), ok) == World.CheckPossibility(old(Now()), yt)
      ensures Answered(old(Now()), Now(), ok, yt.possibility)
    {
      CheckMeans(Now(), yt);
      if mem.update.Has(HasPossibility) || mem.update.Has(NoPossibility) { return true; }
      var v := PossibilityCheck.HandlePossibilityCheck(yt.possibility);
      match v {
        case QueryFailed => return false;
        case Impossible => SetUpdateStatusCondition(NoPossibility, true);
        case Possible =>
          cluster := cluster.Log(PossibilityPassed);
          SetUpdateStatusCondition(HasPossibility, true);
      }
      return true;
    }

    method SwitchSafeMode(on: bool, c: Condition, yt: YtAnswers) returns (ok: bool)
      modifies this
      ensures Step(Now(), ok) == World.SwitchSafeMode(old(Now()), on, c, yt)
      ensures Switched(old(Now()), Now(), ok, on, c)
    {
      SwitchMeans(Now(), on, c, yt);
      if mem.update.Has(c) { return true; }
      ok := SetSafeMode(on, First(yt.outcomes));
      if ok { SetUpdateStatusCondition(c, true); }
    }

    method SetSafeMode(on: bool, o: Outcome) returns (ok: bool)
      modifies this
      ensures Step(Now(), ok) == Applied(old(Now()), o, old(cluster).(safeMode := on).Log(SafeModeSet(on)))
    {
      if o != Lost { cluster := cluster.(safeMode := on).Log(SafeModeSet(on)); }
      return o == Done;
    }

    method SaveTabletCells(yt: YtAnswers) returns (ok: bool)
      modifies this
      ensures Step(Now(), ok) == SaveCells(old(Now()), yt)
      ensures CellsNoted(old(Now()), Now(), ok)
    {
      SaveCellsMeans(Now(), yt);
      if mem.update.Has(TabletCellsSaved) { return true; }
      if First(yt.outcomes) != Done { return false; }
      var saved := Census(cluster.bundles, cluster.cells);
      mem := mem.(update := mem.update.(bundles := saved));
      cluster := cluster.Log(CellsSaved(saved));
      SetUpdateStatusCondition(TabletCellsSaved, true);
      return true;
    }

    method StartRemovingTabletCells(yt: YtAnswers) returns (ok: bool)
      modifies this
      ensures Step(Now(), ok) == StartRemovingCells(old(Now()), yt)
      ensures RemovalBegun(old(Now()), Now(), ok)
    {
      StartRemovingMeans(Now(), yt);
      if mem.update.Has(TabletCellsRemovingStarted) { return true; }
      if First(yt.outcomes) != Done { return false; }
      ok := RemoveListed(Ids(cluster.cells), Rest(yt.outcomes));
      if ok { SetUpdateStatusCondition(TabletCellsRemovingStarted, true); }
    }

    method AwaitTabletCellsRemoved(yt: YtAnswers) returns (ok: bool)
      modifies this
      ensures Step(Now(), ok) == AwaitNoCells(old(Now()), yt)
      ensures RemovalAwaited(old(Now()), Now(), ok)
    {
      AwaitMeans(Now(), yt);
      if mem.update.Has(TabletCellsRemoved) { return true; }
      if First(yt.outcomes) != Done { return false; }
      if |cluster.cells| != 0 { return true; }
      cluster := cluster.Log(NoCellsSeen);
      SetUpdateStatusCondition(TabletCellsRemoved, true);
      return true;
    }

    method RestoreTabletCells(yt: YtAnswers) returns (ok: bool)
      modifies this
      ensures Step(Now(), ok) == RestoreCells(old(Now()), yt)
      ensures CellsRestored(old(Now()), Now(), ok)
    {
      RestoreMeans(Now(), yt);
      if mem.update.Has(TabletCellsRecovered) { return true; }
      ok := RecoverTabletCells(mem.update.bundles, yt.outcomes);
      if ok { SetUpdateStatusCondition(TabletCellsRecovered, true); }
    }

    method SaveMasterMonitoringPaths(yt: YtAnswers) returns (ok: bool)
      modifies this
      ensures Step(Now(), ok) == SaveMonitoringPaths(old(Now()), yt)
      ensures MastersNoted(old(Now()), Now(), ok, yt.masters)
    {
      SavePathsMeans(Now(), yt);
      if mem.update.Has(SnapshotsMonitoringInfoSaved) { return true; }
      if yt.masters.None? { return false; }
      var paths := GetMasterMonitoringPaths(yt.masters.value);
      cluster := cluster.Log(MastersListed(yt.masters.value));
      mem := mem.(update := mem.update.(monitoringPaths := paths));
      SetUpdateStatusCondition(SnapshotsMonitoringInfoSaved, true);
      return true;
    }

    method StartBuildMasterSnapshots(yt: YtAnswers) returns (ok: bool)
      modifies this
      ensures Step(Now(), ok) == StartSnapshots(old(Now()), yt)
      ensures SnapshotsAsked(old(Now()), Now(), ok, yt.readOnly)
    {
      StartSnapshotsMeans(Now(), yt);
      if mem.update.Has(SnapshotsBuildingStarted) { return true; }
      var readOnly := AreAllReadOnly(|mem.update.monitoringPaths|, yt.readOnly);
      if readOnly.None? { return false; }
      if !readOnly.value {
        var o := First(yt.outcomes);
        if o != Lost { cluster := cluster.Log(SnapshotsRequested); }
        if o != Done { return false; }
      }
      SetUpdateStatusCondition(SnapshotsBuildingStarted, true);
      return true;
    }

    method AwaitMasterSnapshots(yt: YtAnswers) returns (ok: bool)
      modifies this
      ensures Step(Now(), ok) == AwaitSnapshots(old(Now()), yt)
    {
      var built := AreMasterSnapshotsBuilt(mem.update.monitoringPaths, yt.snapshots);
      if built.None? { return false; }
      if built.value { SetUpdateStatusCondition(SnapshotsSaved, true); }
      return true;
    }

    method BuildMasterSnapshots(yt: YtAnswers) returns (ok: bool)
      modifies this
      ensures Step(Now(), ok) == BuildSnapshots(old(Now()), yt)
      ensures SnapshotsBuilt(old(Now()), Now(), ok)
    {
      BuildMeans(Now(), yt);
      if mem.update.Has(SnapshotsSaved) { return true; }
      ok := SaveMasterMonitoringPaths(yt);
      if ok { ok := StartBuildMasterSnapshots(yt); }
      if ok { ok := AwaitMasterSnapshots(yt); }
    }

    method HandleUpdatingState(yt: YtAnswers) returns (ok: bool)
      modifies this
      ensures Step(Now(), ok) == ClientStep(old(Now()), yt)
      ensures ClientFramed(old(Now()), Now()) && AnswerKept(old(mem), mem)
    {
      ClientFrame(Now(), yt);
      ClientAnswerKept(Now(), yt);
      match mem.update.state {
        case PossibilityCheck => ok := CheckPossibility(yt);
        case SafeModeEnabling => ok := SwitchSafeMode(true, SafeModeEnabled, yt);
        case TabletCellsSaving => ok := SaveTabletCells(yt);
        case TabletCellsRemovingStart => ok := StartRemovingTabletCells(yt);
        case TabletCellsRemoving => ok := AwaitTabletCellsRemoved(yt);
        case SnapshotsBuilding => ok := BuildMasterSnapshots(yt);
        case TabletCellsRecovery => ok := RestoreTabletCells(yt);
        case SafeModeDisabling => ok := SwitchSafeMode(false, SafeModeDisabled, yt);
        case _ => ok := true;
      }
    }

    // ----- init jobs and pods -----

    /** InitJob.Sync: reports the status and, unless dry, creates the job or notes its completion. */
    method SyncJob(v: View, c: Component, j: JobId, dry: bool, b: (nat, nat), a: Answers) returns (status: SyncStatus, ok: bool)
      modifies this
      ensures status == DecideJob(v, old(mem), j).status
      ensures Step(Now(), ok) ==
        if dry then Step(old(Now()), true) else Perform(old(Now()), v, c, DecideJob(v, old(mem), j).action, b, a)
    {
      if mem.Done(j) { return Ready, true; }
      if j !in v.jobs {
        ok := true;
        if !dry { ok := CreateJobObjects(j, a.CallsOf(c).first, a.CallsOf(c).second); }
        return Pending, ok;
      }
      if !v.jobs[j].succeeded { return Blocked, true; }
      if !dry { mem := mem.(initDone := mem.initDone[j := true]); }
      return Pending, true;
    }

    method CreateJobObjects(j: JobId, config: Outcome, job: Outcome) returns (ok: bool)
      modifies this
      ensures Step(Now(), ok) == CreateJobStep(old(Now()), j, config, job)
      ensures JobStarted(old(Now()), Now(), ok, j)
    {
      CreateJobMeans(Now(), j, config, job);
      if config != Lost { cluster := cluster.(jobConfigs := cluster.jobConfigs + {j}); }
      if config != Done { return false; }
      if job != Lost {
        var uid := cluster.nextId;
        cluster := cluster.(jobs := cluster.jobs[j := JobObject(uid, false, false)], nextId := uid + 1)
          .Log(JobCreated(j, uid, mem.update.state));
      }
      return job == Done;
    }

    method RemoveConfigIfExists(v: View, j: JobId, o: Outcome) returns (ok: bool)
      modifies this
      ensures Step(Now(), ok) == RemoveConfigStep(old(Now()), v, j, o)
    {
      if j !in v.jobConfigs { return true; }
      if o != Lost { cluster := cluster.(jobConfigs := cluster.jobConfigs - {j}); }
      return o == Done;
    }

    method RemoveJobIfExists(v: View, j: JobId, o: Outcome) returns (ok: bool)
      modifies this
      ensures Step(Now(), ok) == RemoveJobStep(old(Now()), v, j, o)
    {
      if j !in v.jobs { return true; }
      if o != Lost && j in cluster.jobs {
        cluster := cluster.(jobs := cluster.jobs[j := cluster.jobs[j].(terminating := true)]);
      }
      return o == Done;
    }

    method PrepareRestart(v: View, j: JobId, config: Outcome, job: Outcome) returns (ok: bool)
      modifies this
      ensures Step(Now(), ok) == PrepareRestartStep(old(Now()), v, j, config, job)
      ensures Restarting(old(Now()), Now(), ok, v, j)
    {
      RestartMeans(Now(), v, j, config, job);
      ok := RemoveConfigIfExists(v, j, config);
      if !ok { return false; }
      ok := RemoveJobIfExists(v, j, job);
      if !ok { return false; }
      mem := mem.(initDone := mem.initDone[j := false]);
    }

    method RemovePods(c: Component, gone: bool, o: Outcome) returns (ok: bool)
      modifies this
      ensures Step(Now(), ok) == RemovePodsStep(old(Now()), c, gone, o)
      ensures PodsAdvanced(old(Now()), Now(), ok, c, gone)
    {
      RemovePodsMeans(Now(), c, gone, o);
      if !mem.update.Has(PodsRemovingStarted(c.name)) {
        if o != Lost { cluster := cluster.Log(ScaledToZero(c, mem.update.state)); }
        if o != Done { return false; }
        SetUpdateStatusCondition(PodsRemovingStarted(c.name), true);
        return true;
      }
      if !gone { return true; }
      cluster := cluster.Log(PodsSeenGone(c));
      SetUpdateStatusCondition(PodsRemoved(c.name), true);
      return true;
    }

    /** Master.exitReadOnly. */
    method ExitReadOnlyMode(v: View, dry: bool, b: (nat, nat), a: Answers) returns (status: SyncStatus, ok: bool)
      modifies this
      ensures status == DecideExitReadOnly(v, old(mem)).status
      ensures Step(Now(), ok) ==
        if dry then Step(old(Now()), true)
        else Perform(old(Now()), v, Single(Master), DecideExitReadOnly(v, old(mem)).action, b, a)
    {
      var o := a.CallsOf(Single(Master));
      if !mem.update.Has(MasterExitReadOnlyPrepared) {
        ok := true;
        if !dry { ok := PrepareExitReadOnly(v, !RestartPrepared(v, mem, ExitReadOnly), o.first, o.second); }
        return SyncUpdating, ok;
      }
      if !mem.Done(ExitReadOnly) {
        status, ok := SyncJob(v, Single(Master), ExitReadOnly, dry, b, a);
        return;
      }
      ok := true;
      if !dry { ok := FinishExitReadOnly(); }
      return SyncUpdating, ok;
    }

    /** Scheduler.updateOpArchive of an updating scheduler; `None` lets its sync go on. The first
        branch notes its condition even in a dry run. */
    method UpdateOpArchive(v: View, dry: bool, o: Outcomes) returns (status: Option<SyncStatus>, ok: bool)
      requires mem.cluster == Updating && IsUpdatingComponent(mem, Single(Scheduler))
      modifies this
      ensures Step(Now(), ok) == ArchiveStep(old(Now()), v, dry, o)
      ensures status.Some? <==> mem.update.state == OpArchivePreparing || (mem.update.state == OpArchiveUpdating && old(mem).Done(OpArchive))
      ensures status.Some? ==> status.value == SyncUpdating
    {
      match mem.update.state {
        case OpArchivePreparing =>
          if |v.layout.tabletNodes| == 0 {
            SetUpdateStatusCondition(NotNecessaryToUpdateOpArchive, true);
            return Some(SyncUpdating), true;
          }
          ok := true;
          if !RestartPrepared(v, mem, OpArchive) {
            if !dry { ok := PrepareRestart(v, OpArchive, o.first, o.second); }
          } else if !dry {
            SetUpdateStatusCondition(OpArchivePreparedForUpdating, true);
          }
          return Some(SyncUpdating), ok;
        case OpArchiveUpdating =>
          if !mem.Done(OpArchive) { return None, true; }
          if !dry { SetUpdateStatusCondition(OpArchiveUpdated, true); }
          return Some(SyncUpdating), true;
        case _ => return None, true;
      }
    }

    /** QueryTracker.updateQTState of an updating query tracker. */
    method UpdateQTState(v: View, dry: bool, o: Outcomes) returns (status: Option<SyncStatus>, ok: bool)
      requires mem.cluster == Updating && IsUpdatingComponent(mem, Single(QueryTracker))
      modifies this
      ensures Step(Now(), ok) == QueriesStep(old(Now()), v, dry, o)
      ensures status.Some? <==> mem.update.state == QTStatePreparing || (mem.update.state == QTStateUpdating && old(mem).Done(QTState))
      ensures status.Some? ==> status.value == SyncUpdating
    {
      match mem.update.state {
        case QTStatePreparing =>
          ok := true;
          if !RestartPrepared(v, mem, QTState) {
            if !dry { ok := PrepareRestart(v, QTState, o.first, o.second); }
          } else if !dry {
            SetUpdateStatusCondition(QTStatePreparedForUpdating, true);
          }
          return Some(SyncUpdating), ok;
        case QTStateUpdating =>
          if !mem.Done(QTState) { return None, true; }
          if !dry { SetUpdateStatusCondition(QTStateUpdated, true); }
          return Some(SyncUpdating), true;
        case _ => return None, true;
      }
    }

    // ----- components -----

    /** The effect of a component's sync, once it has decided what to do. */
    method PerformAction(v: View, c: Component, action: Action, b: (nat, nat), a: Answers) returns (ok: bool)
      modifies this
      ensures Step(Now(), ok) == Perform(old(Now()), v, c, action, b, a)
      decreases action
    {
      var o := a.CallsOf(c);
      match action {
        case Nothing => ok := true;
        case RemovePods => ok := RemovePods(c, v.Of(c).podsGone, o.first);
        case WriteServer => ok := WriteServerObjects(c, o.first);
        case CreateAuxiliary => ok := CreateSecretOrService(c, o.first);
        case CreateJob(j) => ok := CreateJobObjects(j, o.first, o.second);
        case CompleteJob(j) => ok := CompleteJob(j);
        case PrepareRestart(j) => ok := PrepareRestart(v, j, o.first, o.second);
        case SetCondition(cond) =>
          SetUpdateStatusCondition(cond, true);
          ok := true;
        case PrepareExit(restart) => ok := PrepareExitReadOnly(v, restart, o.first, o.second);
        case FinishExit => ok := FinishExitReadOnly();
        case InitBundles => ok := InitializeBundles(b, a.yt.outcomes);
        case InitQueryTracker(next) =>
          if a.clientMissing { return true; }
          if o.third != Done { return false; }
          mem := mem.(queryTrackerReady := true);
          ok := PerformAction(v, c, next, b, a);
        case InitQueueAgent =>
          ok := mem.cluster != Updating && o.first == Done;
          if ok { mem := mem.(queueAgentReady := true); }
        case HandleUpdatingState => ok := HandleUpdatingState(a.yt);
      }
    }

    method WriteServerObjects(c: Component, o: Outcome) returns (ok: bool)
      modifies this
      ensures Step(Now(), ok) == Applied(old(Now()), o, old(cluster).Log(ServerWritten(c, old(mem).update.state)))
    {
      if o != Lost { cluster := cluster.Log(ServerWritten(c, mem.update.state)); }
      return o == Done;
    }

    method CreateSecretOrService(c: Component, o: Outcome) returns (ok: bool)
      modifies this
      ensures Step(Now(), ok) == Applied(old(Now()), o, old(cluster).Log(AuxiliaryCreated(c, old(mem).update.state)))
    {
      if o != Lost { cluster := cluster.Log(AuxiliaryCreated(c, mem.update.state)); }
      return o == Done;
    }

    method CompleteJob(j: JobId) returns (ok: bool)
      modifies this
      ensures ok && Now() == WithInitDone(old(Now()), j, true)
    {
      mem := mem.(initDone := mem.initDone[j := true]);
      return true;
    }

    method PrepareExitReadOnly(v: View, restart: bool, config: Outcome, job: Outcome) returns (ok: bool)
      modifies this
      ensures Step(Now(), ok) ==
        var s := if restart then PrepareRestartStep(old(Now()), v, ExitReadOnly, config, job) else Step(old(Now()), true);
        Bind(s, s.pass.Note(MasterExitReadOnlyPrepared))
    {
      ok := true;
      if restart { ok := PrepareRestart(v, ExitReadOnly, config, job); }
      if ok { SetUpdateStatusCondition(MasterExitReadOnlyPrepared, true); }
    }

    method FinishExitReadOnly() returns (ok: bool)
      modifies this
      ensures ok && Now() == old(Now()).(mem :=
        old(mem).WithCondition(MasterExitedReadOnly, true).WithCondition(MasterExitReadOnlyPrepared, false))
    {
      SetUpdateStatusCondition(MasterExitedReadOnly, true);
      SetUpdateStatusCondition(MasterExitReadOnlyPrepared, false);
      return true;
    }

    /** TabletNode.initBundles: the system bundle, then the cells of both bundles. */
    method InitializeBundles(bootstrap: (nat, nat), outs: seq<Outcome>) returns (ok: bool)
      modifies this
      ensures Step(Now(), ok) == InitBundlesStep(old(Now()), bootstrap, outs)
      ensures BundlesMade(old(Now()), Now(), ok, bootstrap)
    {
      InitBundlesMeans(Now(), bootstrap, outs);
      var rest: seq<Outcome>;
      ok, rest := EnsureSystemBundle(outs);
      if !ok || First(rest) != Done { return false; }
      ok := RecoverTabletCells([BundleInfo("default", bootstrap.0), BundleInfo("sys", bootstrap.1)], Rest(rest));
      if ok { mem := mem.(bundlesReady := true); }
    }

    method EnsureSystemBundle(outs: seq<Outcome>) returns (ok: bool, rest: seq<Outcome>)
      modifies this`cluster
      ensures Calls(cluster, ok, rest) == EnsureSysBundle(old(cluster), outs)
      ensures ok ==> "sys" in cluster.bundles
      ensures forall b :: b in old(cluster).bundles ==> b in cluster.bundles
    {
      rest := Rest(outs);
      if First(outs) != Done { return false, rest; }
      if "sys" in cluster.bundles { return true, rest; }
      var o := First(rest);
      if o != Lost { cluster := cluster.(bundles := cluster.bundles + ["sys"]); }
      return o == Done, Rest(rest);
    }

    /** One turn of ComponentManager.Sync. */
    method SyncComponent(spec: Spec, fetched: Cluster, a: Answers, c: Component) returns (ok: bool)
      requires |spec.layout.httpProxies| > 0
      modifies this
      ensures Step(Now(), ok) == SyncOne(old(Now()), spec, fetched, a, c)
      ensures stored == old(stored) && Kept(old(mem), mem)
    {
      SyncOneKept(Now(), spec, fetched, a, c);
      var d := Decide(ViewOf(spec, fetched, a.checked, a), mem, c);
      if d.Fail? { return false; }
      if d.status != Pending && d.status != SyncUpdating { return true; }
      var v := ViewOf(spec, fetched, a.synced, a);
      d := Decide(v, mem, c);
      if d.Fail? { return false; }
      ok := PerformAction(v, c, d.action, spec.bootstrap, a);
    }

    /** ComponentManager.Sync: component by component, then the status write. */
    method SyncEverything(spec: Spec, a: Answers)
      requires |spec.layout.httpProxies| > 0
      modifies this
      ensures Now() == SyncComponents(old(Now()), spec, a)
    {
      var fetched, cs := cluster, AllComponents(spec.layout);
      ghost var all := SyncAll(Now(), spec, fetched, a, cs);
      for i := 0 to |cs|
        invariant all == SyncAll(Now(), spec, fetched, a, cs[i..])
      {
        assert cs[i..][1..] == cs[i + 1..] && cs[i..][0] == cs[i];
        var ok := SyncComponent(spec, fetched, a, cs[i]);
        if !ok { return; }
      }
      var ok := UpdateStatus(a.writes.first);
    }

    // ----- the pass -----

    /** What both ways out of an update do. */
    method FinishUpdate(w: Outcomes)
      modifies this
      ensures Now() == ReturnToRunning(old(Now()), w)
      ensures Returned(old(Now()), Now(), w)
    {
      ReturnMeans(Now(), w);
      var ok := SaveUpdateState(StateNone, w.first);
      if !ok { return; }
      ok := ClearUpdateStatus(w.second);
      if !ok { return; }
      ok := SaveClusterState(Running, w.third);
    }

    /** Runs the handler of the stored flow. */
    method HandleUpdate(spec: Spec, s: Survey, o: Outcome) returns (handled: bool)
      modifies this
      ensures (Now(), handled) == AfterMove(old(Now()), Advance(spec, old(mem), s), o)
    {
      match mem.update.flow {
        case FlowFull => handled := HandleEverything(spec, s, o);
        case FlowStateless => handled := HandleStateless(spec, s, o);
        case FlowMaster => handled := HandleMasterOnly(spec, s, o);
        case FlowTabletNodes => handled := HandleTabletNodesOnly(spec, s, o);
        case FlowNone => handled := false;
      }
    }

    /** The switch over the cluster state; reports whether the pass falls through. */
    method HandleClusterState(spec: Spec, s: Survey, w: Outcomes, ghost synced: Pass) returns (handled: bool)
      modifies this
      ensures if handled then Now() == DispatchOr(old(Now()), spec, s, w, synced)
              else Now() == old(Now()) && DispatchOr(old(Now()), spec, s, w, synced) == synced
    {
      var ok: bool;
      match mem.cluster {
        case Created =>
          ok := SaveClusterState(Initializing, w.first);
          return true;
        case Initializing =>
          if s.needSync { return false; }
          ok := SaveClusterState(Running, w.first);
          return true;
        case Running => handled := HandleRunning(spec, s, w, synced);
        case Updating => handled := HandleUpdate(spec, s, w.first);
        case CancelUpdate =>
          FinishUpdate(w);
          return true;
        case UpdateFinishing =>
          FinishUpdate(w);
          return true;
        case Reconfiguration =>
          if s.needInit { return false; }
          ok := SaveClusterState(Running, w.first);
          return true;
      }
    }

    method HandleRunning(spec: Spec, s: Survey, w: Outcomes, ghost synced: Pass) returns (handled: bool)
      requires mem.cluster == Running
      modifies this
      ensures if handled then Now() == DispatchOr(old(Now()), spec, s, w, synced)
              else Now() == old(Now()) && DispatchOr(old(Now()), spec, s, w, synced) == synced
    {
      var ok: bool;
      if !s.needSync { return true; }
      if s.needInit {
        ok := SaveClusterState(Reconfiguration, w.first);
        return true;
      }
      if s.needUpdate == [] { return false; }
      var choice := ChooseUpdateFlow(spec.selector, spec.enableFullUpdate, s.needUpdate);
      if choice.Chosen? { ok := SaveUpdatingClusterState(choice.flow, choice.names, w.first); }
      return true;
    }

    /** One reconcile pass, from the survey on. */
    method Sync(spec: Spec, a: Answers)
      requires mem == stored
      modifies this
      ensures State(stored, cluster) == RunPass(old(State(stored, cluster)), spec, a)
    {
      if !spec.managed || |spec.layout.httpProxies| == 0 || a.fetchFails { return; }
      var s := TakeSurvey(ViewOf(spec, cluster, a.surveyed, a), AllComponents(spec.layout));
      if s.None? { return; }
      MarkArchive(spec.layout);
      ghost var synced := SyncComponents(Now(), spec, a);
      var handled := HandleClusterState(spec, s.value, a.writes, synced);
      if !handled { SyncEverything(spec, a); }
    }

    /** The one mark that asking for statuses leaves in memory. */
    method MarkArchive(l: Layout)
      modifies this
      ensures Now() == old(Now()).(mem := Marked(l, old(mem)))
      ensures stored == old(stored) && cluster == old(cluster) && MarkedOnce(l, old(mem), mem)
    {
      MarkedMeans(l, mem);
      if l.schedulers && |l.tabletNodes| == 0 && mem.cluster == Updating
        && mem.update.state == OpArchivePreparing && IsUpdatingComponent(mem, Single(Scheduler))
      {
        SetUpdateStatusCondition(NotNecessaryToUpdateOpArchive, true);
      }
    }
  }

  /** What a handler leaves behind, and whether it ended the pass. */
  function AfterMove(p: Pass, move: Move, o: Outcome): (Pass, bool) {
    match move
    case Stay => (p, false)
    case ToUpdate(u) => (SaveUpdateState(p, u, o).pass, true)
    case ToCluster(c) => (SaveClusterState(p, c, o).pass, true)
  }

  /** What the scheduler does early in its sync, in the terms of the model: the action it decides on,
      or nothing; a dry run only marks the archive as unnecessary. */
  function EarlyStep(p: Pass, v: View, c: Component, dry: bool, o: Outcomes): Step {
    match DecideUpdating(v, p.mem, c)
    case Some(Do(_, SetCondition(cond))) =>
      Step(if dry && cond != NotNecessaryToUpdateOpArchive then p else p.Note(cond), true)
    case Some(Do(_, PrepareRestart(j))) => if dry then Step(p, true) else PrepareRestartStep(p, v, j, o.first, o.second)
    case _ => Step(p, true)
  }

  function ArchiveStep(p: Pass, v: View, dry: bool, o: Outcomes): Step { EarlyStep(p, v, Single(Scheduler), dry, o) }
  function QueriesStep(p: Pass, v: View, dry: bool, o: Outcomes): Step { EarlyStep(p, v, Single(QueryTracker), dry, o) }

  /** The first loop of StartBuildMasterSnapshots. */
  method AreAllReadOnly(n: nat, answers: seq<Option<bool>>) returns (all: Option<bool>)
    ensures all == AllReadOnly(n, answers)
  {
    for i := 0 to n
      invariant i <= |answers| && AllReadOnly(n, answers) == AllReadOnly(n - i, answers[i..])
    {
      if i == |answers| || answers[i].None? { return None; }
      if !answers[i].value { return Some(false); }
      assert answers[i..][1..] == answers[i + 1..];
    }
    return Some(true);
  }

  /** GetMasterMonitoringPaths: one path per address of every master cell. */
  method GetMasterMonitoringPaths(masters: seq<seq<string>>) returns (paths: seq<string>)
    ensures paths == MonitoringPaths(masters)
  {
    paths := [];
    for i := 0 to |masters|
      invariant MonitoringPaths(masters) == paths + MonitoringPaths(masters[i..])
    {
      ghost var before, own := paths, CellPaths(masters[i]);
      assert masters[i..][0] == masters[i] && masters[i..][1..] == masters[i + 1..];
      assert MonitoringPaths(masters[i..]) == own + MonitoringPaths(masters[i + 1..]);
      for k := 0 to |masters[i]|
        invariant paths == before + own[..k]
      {
        paths := paths + [MonitoringPath(masters[i][k])];
      }
      assert own[..|own|] == own;
    }
  }

  /** One loop of the manager's construction: a component per named group. */
  method NewGroup(k: Kind, names: seq<string>) returns (cs: seq<Component>)
    ensures cs == Group(k, names)
  {
    cs := [];
    for i := 0 to |names|
      invariant |cs| == i && forall n :: 0 <= n < i ==>
        cs[n] == Component(k, FormatWithDefault(BaseName(k), names[n]), k == TabletNode && n == 0)
    {
      cs := cs + [Component(k, FormatWithDefault(BaseName(k), names[i]), k == TabletNode && i == 0)];
    }
  }

  method NewSingle(present: bool, k: Kind) returns (cs: seq<Component>)
    ensures cs == If(present, k)
  {
    if present { return [Single(k)]; }
    return [];
  }

  method NewFoundation(l: Layout) returns (cs: seq<Component>)
    ensures cs == Foundation(l)
  {
    cs := [Single(Discovery), Single(Master), Single(YtsaurusClient)];
    var more := NewGroup(DataNode, l.dataNodes);
    cs := cs + more;
    more := NewGroup(HttpProxy, l.httpProxies);
    cs := cs + more;
    more := NewSingle(l.ui, UI);
    cs := cs + more;
    more := NewGroup(RpcProxy, l.rpcProxies);
    cs := cs + more;
    more := NewGroup(TcpProxy, l.tcpProxies);
    cs := cs + more;
    more := NewGroup(ExecNode, l.execNodes);
    cs := cs + more;
    more := NewGroup(TabletNode, l.tabletNodes);
    cs := cs + more;
  }

  /** The construction of all components, in order. */
  method NewComponents(l: Layout) returns (cs: seq<Component>)
    ensures cs == AllComponents(l)
  {
    cs := NewFoundation(l);
    var more := NewSingle(l.schedulers, Scheduler);
    cs := cs + more;
    more := NewSingle(l.controllerAgents, ControllerAgent);
    cs := cs + more;
    more := NewSingle(l.queryTrackers && l.schedulers && |l.tabletNodes| > 0, QueryTracker);
    cs := cs + more;
    more := NewAgents(l);
    cs := cs + more;
  }

  method NewAgents(l: Layout) returns (cs: seq<Component>)
    ensures cs == Agents(l)
  {
    cs := [];
    if l.queueAgents && |l.tabletNodes| > 0 { cs := cs + [Single(QueueAgent)]; }
    if l.yqlAgents { cs := cs + [Single(YqlAgent)]; }
    if (l.chyt || l.strawberry) && l.schedulers { cs := cs + [Strawberry(l)]; }
    if l.masterCaches { cs := cs + [Single(MasterCache)]; }
  }

  lemma {:induction false} SurveyStops(v: View, st: Status, cs: seq<Component>, i: nat)
    requires |v.layout.httpProxies| > 0 && i <= |cs| && SurveyOf(v, st, cs[..i]).None?
    ensures SurveyOf(v, st, cs).None?
    decreases |cs|
  {
    if i == |cs| {
      assert cs[..i] == cs;
    } else {
      assert cs[..|cs| - 1][..i] == cs[..i];
      SurveyStops(v, st, cs[..|cs| - 1], i);
    }
  }
}
