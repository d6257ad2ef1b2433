/** Stages that end by themselves, and the stages of the YT client: one favourable pass each. */
module ClientStages {
  import opened ClusterStatus
  import opened Components
  import opened World
  import opened Reconcile
  import opened Actions
  import opened Safety
  import opened Readiness
  import opened Initialised
  import opened Durable
  import opened Rounds
  import opened Building
  import opened FairPasses

  // ----- the client's stages -----

  lemma {:induction false} RemoveSucceeds(k: Cluster, ids: seq<nat>, outs: seq<Outcome>)
    requires AllSucceed(outs)
    ensures RemoveCells(k, ids, outs).ok
    decreases |ids|
  {
    if ids != [] { RemoveSucceeds(RemoveCell(k, ids[0]), ids[1..], Rest(outs)); }
  }

  lemma {:induction false} SnapshotsSucceed(k: Cluster, paths: seq<string>, answers: seq<Option<bool>>)
    requires |paths| <= |answers| && forall i :: 0 <= i < |paths| ==> answers[i] == Some(true)
    ensures SnapshotReads(k, paths, answers).1 == Some(true)
    decreases |paths|
  {
    if paths != [] { SnapshotsSucceed(k.Log(ReadOnlySnapshotSeen(paths[0])), paths[1..], answers[1..]); }
  }

  /** What ends a stage of the client. */
  predicate ClientDone(u: UpdateStatus) {
    match u.state
    case PossibilityCheck => u.Has(HasPossibility) || u.Has(NoPossibility)
    case SafeModeEnabling => u.Has(SafeModeEnabled)
    case TabletCellsSaving => u.Has(TabletCellsSaved)
    case TabletCellsRemovingStart => u.Has(TabletCellsRemovingStarted)
    case TabletCellsRemoving => u.Has(TabletCellsRemoved)
    case SnapshotsBuilding => u.Has(SnapshotsSaved)
    case TabletCellsRecovery => u.Has(TabletCellsRecovered)
    case SafeModeDisabling => u.Has(SafeModeDisabled)
    case _ => true
  }

  lemma SnapshotStageSucceeds(p: Pass, yt: YtAnswers)
    requires YtAnswersAll(p.mem.update, yt) && p.mem.update.state == SnapshotsBuilding
    ensures var s := BuildSnapshots(p, yt); s.ok && s.pass.mem.update.Has(SnapshotsSaved)
  {
    if !p.mem.update.Has(SnapshotsSaved) {
      var s := SaveMonitoringPaths(p, yt);
      assert s.ok && s.pass.mem.update.monitoringPaths == PathsToRead(p.mem.update, yt);
      var t := StartSnapshots(s.pass, yt);
      assert t.ok && t.pass.mem.update.monitoringPaths == s.pass.mem.update.monitoringPaths;
      SnapshotsSucceed(t.pass.cluster, t.pass.mem.update.monitoringPaths, yt.snapshots);
    }
  }

  lemma CellStagesSucceed(p: Pass, yt: YtAnswers)
    requires AllSucceed(yt.outcomes)
    ensures var s := StartRemovingCells(p, yt); s.ok && s.pass.mem.update.Has(TabletCellsRemovingStarted)
    ensures (forall i :: 0 <= i < |p.mem.update.bundles| ==> p.mem.update.bundles[i].name in p.cluster.bundles) ==>
      var s := RestoreCells(p, yt); s.ok && s.pass.mem.update.Has(TabletCellsRecovered)
  {
    RemoveSucceeds(p.cluster, Ids(p.cluster.cells), Rest(yt.outcomes));
    if forall i :: 0 <= i < |p.mem.update.bundles| ==> p.mem.update.bundles[i].name in p.cluster.bundles {
      RecoverSucceeds(p.cluster, p.mem.update.bundles, yt.outcomes);
    }
  }

  lemma SmallStagesSucceed(p: Pass, yt: YtAnswers)
    requires YtAnswersAll(p.mem.update, yt)
    ensures var s := CheckPossibility(p, yt); s.ok && (s.pass.mem.update.Has(HasPossibility) || s.pass.mem.update.Has(NoPossibility))
    ensures var s := SaveCells(p, yt); s.ok && s.pass.mem.update.Has(TabletCellsSaved)
    ensures p.cluster.cells == [] ==> var s := AwaitNoCells(p, yt); s.ok && s.pass.mem.update.Has(TabletCellsRemoved)
  {}

  lemma SwitchSucceeds(p: Pass, on: bool, c: Condition, yt: YtAnswers)
    requires AllSucceed(yt.outcomes)
    ensures var s := SwitchSafeMode(p, on, c, yt); s.ok && s.pass.mem.update.Has(c)
  {}

  lemma ClientSucceeds(p: Pass, yt: YtAnswers)
    requires YtAnswersAll(p.mem.update, yt) && ClientStage(p.mem.update.state)
    requires p.mem.update.state == TabletCellsRemoving ==> p.cluster.cells == []
    requires p.mem.update.state == TabletCellsRecovery ==>
      forall i :: 0 <= i < |p.mem.update.bundles| ==> p.mem.update.bundles[i].name in p.cluster.bundles
    ensures var s := ClientStep(p, yt); s.ok && ClientDone(s.pass.mem.update)
  {
    ClientFrame(p, yt);
    assert AllSucceed(yt.outcomes);
    match p.mem.update.state
    case SnapshotsBuilding => SnapshotStageSucceeds(p, yt);
    case SafeModeEnabling => SwitchSucceeds(p, true, SafeModeEnabled, yt);
    case SafeModeDisabling => SwitchSucceeds(p, false, SafeModeDisabled, yt);
    case TabletCellsRemovingStart => CellStagesSucceed(p, yt);
    case TabletCellsRecovery => CellStagesSucceed(p, yt);
    case _ => SmallStagesSucceed(p, yt);
  }

  lemma ClientFinishes(l: Layout, since: nat, w: State, spec: Spec, a: Answers) returns (q: Step)
    requires Fair(l, since, w, spec, a) && CaughtUp(w.cluster) && ClientStage(w.stored.update.state) && ClientHasSecret(w, spec, a)
    ensures SyncOne(Start(l, w), spec, w.cluster, a, Single(YtsaurusClient)) == q
    ensures q.ok && ClientDone(q.pass.mem.update) && Framed(Start(l, w), q.pass)
  {
    var p := Start(l, w);
    ClientReady(l, since, w, spec, a);
    ClientIsDone(l, since, w, spec, a);
    ClientSyncs(p, spec, w.cluster, a);
    ClientSucceeds(p, a.yt);
    ClientFrame(p, a.yt);
    q := ClientStep(p, a.yt);
  }

  lemma NobodyElse(s: UpdateState)
    requires ClientStage(s)
    ensures forall k :: k != YtsaurusClient ==> !OwnStage(k, s)
  {}

  /** By the time the client waits for cells they are gone, and saved bundles still exist. */
  lemma ClientReady(l: Layout, since: nat, w: State, spec: Spec, a: Answers)
    requires Fair(l, since, w, spec, a) && CaughtUp(w.cluster) && ClientStage(w.stored.update.state)
    ensures Marked(l, w.stored) == w.stored
    ensures w.stored.update.state == TabletCellsRemoving ==> w.cluster.cells == []
    ensures w.stored.update.state == TabletCellsRecovery ==>
      forall i :: 0 <= i < |w.stored.update.bundles| ==> w.stored.update.bundles[i].name in w.cluster.bundles
  {}

  lemma ClientStays(l: Layout, since: nat, w: State, spec: Spec, a: Answers) returns (q: Pass)
    requires Fair(l, since, w, spec, a) && CaughtUp(w.cluster) && ClientStage(w.stored.update.state) && ClientHasSecret(w, spec, a)
    ensures var r := SyncComponents(Start(l, w), spec, a); r.stored == q.mem && r.cluster == q.cluster
    ensures ClientDone(q.mem.update) && Framed(Start(l, w), q)
  {
    Members(l);
    NobodyElse(w.stored.update.state);
    var s := ClientFinishes(l, since, w, spec, a);
    q := s.pass;
    assert s == Step(q, true);
    ActorStores(l, since, w, spec, a, Single(YtsaurusClient), q);
  }

  lemma ClientStageNearer(l: Layout, since: nat, w: State, spec: Spec, a: Answers)
    requires Fair(l, since, w, spec, a) && CaughtUp(w.cluster) && ClientStage(w.stored.update.state)
    ensures Nearer(l, since, w, RunPass(w, spec, a))
  {
    if ClientHasSecret(w, spec, a) {
      var s := MovesOrStays(l, since, w, spec, a);
      var q := ClientStays(l, since, w, spec, a);
      if Advance(spec, Marked(l, w.stored), s) == Stay {
        ClientReady(l, since, w, spec, a);
        ClientHolds(spec, w.stored, s);
        ClientDistance(l, since, w, State(q.mem, q.cluster));
      }
    } else {
      SecretFirst(l, since, w, spec, a);
    }
  }

  lemma ClientHolds(spec: Spec, st: Status, s: Survey)
    requires st.cluster == Updating && RouteOk(st) && ClientStage(st.update.state) && Advance(spec, st, s) == Stay
    ensures !ClientDone(st.update)
  {}

  lemma ClientDistance(l: Layout, since: nat, w: State, r: State)
    requires ClientStage(w.stored.update.state) && r.stored.update.state == w.stored.update.state
    requires !ClientDone(w.stored.update) && ClientDone(r.stored.update)
    ensures Distance(l, since, r) < Distance(l, since, w)
  {}

  // ----- stages that end by themselves -----

  lemma StartsAtOnce(spec: Spec, st: Status, s: Survey)
    requires st.cluster == Updating && RouteOk(st) && st.update.state == StateNone
    ensures Advance(spec, st, s) != Stay
  {}

  lemma StartNearer(l: Layout, since: nat, w: State, spec: Spec, a: Answers)
    requires Fair(l, since, w, spec, a) && w.stored.update.state == StateNone
    ensures Nearer(l, since, w, RunPass(w, spec, a))
  {
    var s := MovesOrStays(l, since, w, spec, a);
    StartsAtOnce(spec, Marked(l, w.stored), s);
  }

  lemma DeadEndIsReady(l: Layout, since: nat, w: State, spec: Spec, a: Answers, s: Survey)
    requires Fair(l, since, w, spec, a) && w.stored.update.state == ImpossibleToStart
    requires SurveyOf(Seen(w, spec, a), w.stored, AllComponents(l)) == Some(s)
    ensures s.needSync <==> !ClientHasSecret(w, spec, a)
  {
    var v, client := Seen(w, spec, a), Single(YtsaurusClient);
    ClientIsDone(l, since, w, spec, a);
    SyncMeaning(v, w.stored, AllComponents(l));
    if ClientHasSecret(w, spec, a) {
      ClientDecides(v, w.stored);
      AllReadyInDeadEnd(v, w.stored);
    } else {
      ClientMakes(v, w.stored);
      assert !StatusIs(v, w.stored, client, Ready);
    }
  }

  lemma AllReadyInDeadEnd(v: View, st: Status)
    requires |v.layout.httpProxies| > 0 && st.cluster == Updating && st.update.state == ImpossibleToStart
    requires Decide(v, st, Single(YtsaurusClient)) == Settled
    ensures forall c :: c in AllComponents(v.layout) ==> StatusIs(v, st, c, Ready)
  {
    forall c | c in AllComponents(v.layout) ensures StatusIs(v, st, c, Ready) {
      Residents(v.layout, c);
      ReadyInDeadEnd(v, st, c);
    }
  }

  lemma ReadyInDeadEnd(v: View, st: Status, c: Component)
    requires |v.layout.httpProxies| > 0 && st.cluster == Updating && st.update.state == ImpossibleToStart
    requires Decide(v, st, Single(YtsaurusClient)) == Settled && (c.kind == YtsaurusClient ==> c == Single(YtsaurusClient))
    ensures StatusIs(v, st, c, Ready)
  {
    if c.kind != YtsaurusClient { RestsElsewhere(v, st, c); }
  }

  lemma DeadEndCancels(p: Pass, spec: Spec, s: Survey, synced: Pass)
    requires p.mem.cluster == Updating && RouteOk(p.mem) && p.mem.update.state == ImpossibleToStart && synced.stored.cluster == Updating
    ensures DispatchOr(p, spec, s, AllDone, synced).stored.cluster == CancelUpdate <==> !s.needSync || !spec.enableFullUpdate
  {}

  /** In the dead end every component is ready, except for a client that lacks its secret: the update
      is cancelled at once, or, where the spec allows full updates, as soon as that is made. */
  lemma ImpossibleNeverSticks(l: Layout, since: nat, w: State, spec: Spec, a: Answers)
    requires Fair(l, since, w, spec, a) && w.stored.update.state == ImpossibleToStart
    ensures RunPass(w, spec, a).stored.cluster == CancelUpdate <==> ClientHasSecret(w, spec, a) || !spec.enableFullUpdate
    ensures Nearer(l, since, w, RunPass(w, spec, a))
  {
    var s := FairPass(l, since, w, spec, a);
    DeadEndIsReady(l, since, w, spec, a, s);
    SyncAllKept(Start(l, w), spec, w.cluster, a, AllComponents(l));
    DeadEndCancels(Start(l, w), spec, s, SyncComponents(Start(l, w), spec, a));
    if !ClientHasSecret(w, spec, a) { SecretFirst(l, since, w, spec, a); }
  }
}
