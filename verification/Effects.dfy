/** What the single steps of an update promise their callers: what is true of the cluster once a step
    reports success, what a failed step leaves alone, and that a step that is done is not repeated. */
module Effects {
  import opened ClusterStatus
  import opened Components
  import opened World
  import opened Reconcile
  import opened Actions
  import opened Cells
  import opened Initialised
  import PossibilityCheck

  // ----- the status writes -----

  /** A write may or may not reach the store, and says so only when it has. */
  predicate Saved(p: Pass, q: Pass, ok: bool) {
    q.cluster == p.cluster && (q.stored == p.stored || q.stored == Encoded(q.mem)) && (ok ==> q.stored == Encoded(q.mem))
  }

  /** Whoever loads `b` sees the conditions of `a`. */
  ghost predicate SameConditions(a: Status, b: Status) { forall c :: b.update.Has(c) == a.update.Has(c) }

  /** What a later pass takes for the list of updating components: an empty list reads as all. */
  predicate ReadsAs(st: Status, names: Option<seq<string>>, c: Component) {
    IsUpdatingComponent(st, c) <==> if names.None? || names.value == [] then IsUpdatable(c) else c.name in names.value
  }

  /** Leaving an update is safe against crashes: whichever write is lost, Running is never stored with
      anything of the update left, and nothing outside the status changes. */
  ghost predicate Returned(p: Pass, q: Pass, w: Outcomes) {
    && q.cluster == p.cluster
    && (q.stored.cluster == Running && p.stored.cluster != Running && p.mem.cluster != Running ==> q.stored.update == Blank)
    && (w == Outcomes(Done, Done, Done) ==> q.stored.cluster == Running)
    && (q.stored != p.stored ==> q.stored.initDone == p.mem.initDone && q.stored.update.state == StateNone)
  }

  lemma ReturnMeans(p: Pass, w: Outcomes)
    ensures Returned(p, ReturnToRunning(p, w), w)
  {}

  // ----- the client -----

  /** The question is asked once; its answer is the health of the cluster. */
  ghost predicate Answered(p: Pass, q: Pass, ok: bool, queries: PossibilityCheck.Queries) {
    var was, now := p.mem.update, q.mem.update;
    if was.Has(HasPossibility) || was.Has(NoPossibility) then ok && q == p
    else
      && q.stored == p.stored && (!ok ==> q == p) && !(now.Has(HasPossibility) && now.Has(NoPossibility))
      && (ok ==> now.Has(HasPossibility) || now.Has(NoPossibility))
      && (PossibilityCheck.AllAnswered(queries) ==> ok && (now.Has(HasPossibility) <==> PossibilityCheck.ClusterHealthy(queries)))
  }

  lemma CheckMeans(p: Pass, yt: YtAnswers)
    ensures var s := CheckPossibility(p, yt); Answered(p, s.pass, s.ok, yt.possibility)
  {
    if PossibilityCheck.AllAnswered(yt.possibility) { PossibilityCheck.CheckIsExact(yt.possibility); }
  }

  predicate Switched(p: Pass, q: Pass, ok: bool, on: bool, c: Condition) {
    && q.stored == p.stored && q.cluster == p.cluster.(safeMode := q.cluster.safeMode, log := q.cluster.log)
    && (p.mem.update.Has(c) ==> ok && q == p)
    && (!p.mem.update.Has(c) && ok ==> q.cluster.safeMode == on && q.mem.update.Has(c))
    && (!ok ==> q.mem == p.mem)
    && (q.cluster.safeMode != p.cluster.safeMode ==> q.cluster.safeMode == on && SafeModeSet(on) in q.cluster.log)
  }

  lemma SwitchMeans(p: Pass, on: bool, c: Condition, yt: YtAnswers)
    ensures var s := SwitchSafeMode(p, on, c, yt); Switched(p, s.pass, s.ok, on, c)
  {
    var k := p.cluster.(safeMode := on).Log(SafeModeSet(on));
    assert k.log[|p.cluster.log|] == SafeModeSet(on);
  }

  /** The number of cells of every bundle, taken once. */
  predicate CellsNoted(p: Pass, q: Pass, ok: bool) {
    var infos := q.mem.update.bundles;
    && q.stored == p.stored && q.cluster == p.cluster.(log := q.cluster.log)
    && (!ok || p.mem.update.Has(TabletCellsSaved) ==> q == p)
    && (ok && !p.mem.update.Has(TabletCellsSaved) ==>
          && q.mem.update.Has(TabletCellsSaved) && |infos| == |p.cluster.bundles|
          && forall i :: 0 <= i < |infos| ==>
               infos[i].name == p.cluster.bundles[i] && infos[i].cellCount == Count(p.cluster.cells, infos[i].name))
  }

  lemma SaveCellsMeans(p: Pass, yt: YtAnswers)
    ensures var s := SaveCells(p, yt); CellsNoted(p, s.pass, s.ok)
  {}

  /** Success means that every cell is on its way out; cells are only marked, never moved. */
  predicate RemovalBegun(p: Pass, q: Pass, ok: bool) {
    && q.stored == p.stored && (!ok ==> q.mem == p.mem) && (p.mem.update.Has(TabletCellsRemovingStarted) ==> ok && q == p)
    && |q.cluster.cells| == |p.cluster.cells|
    && (forall i :: 0 <= i < |p.cluster.cells| ==>
          q.cluster.cells[i].id == p.cluster.cells[i].id && (p.cluster.cells[i].dying ==> q.cluster.cells[i].dying))
    && (ok && !p.mem.update.Has(TabletCellsRemovingStarted) ==>
          q.mem.update.Has(TabletCellsRemovingStarted) && AllDying(q.cluster.cells))
  }

  lemma StartRemovingMeans(p: Pass, yt: YtAnswers)
    ensures var s := StartRemovingCells(p, yt); RemovalBegun(p, s.pass, s.ok)
  {
    var ids := Ids(p.cluster.cells);
    RemoveCellsMarks(p.cluster, ids, Rest(yt.outcomes));
    forall i | 0 <= i < |p.cluster.cells| ensures p.cluster.cells[i].id in ids { assert ids[i] == p.cluster.cells[i].id; }
  }

  /** Noted as removed only when no cell is left, and then at once. */
  predicate RemovalAwaited(p: Pass, q: Pass, ok: bool) {
    && q.stored == p.stored && q.cluster == p.cluster.(log := q.cluster.log)
    && (!ok || p.mem.update.Has(TabletCellsRemoved) ==> q == p)
    && (ok && !p.mem.update.Has(TabletCellsRemoved) ==> (q.mem.update.Has(TabletCellsRemoved) <==> p.cluster.cells == []))
  }

  lemma AwaitMeans(p: Pass, yt: YtAnswers)
    ensures var s := AwaitNoCells(p, yt); RemovalAwaited(p, s.pass, s.ok)
  {}

  /** Cells are only added; success means that every bundle has its saved number again. */
  ghost predicate CellsRestored(p: Pass, q: Pass, ok: bool) {
    var infos := p.mem.update.bundles;
    && q.stored == p.stored && (!ok ==> q.mem == p.mem) && (p.mem.update.Has(TabletCellsRecovered) ==> ok && q == p)
    && p.cluster.cells <= q.cluster.cells && q.cluster.bundles == p.cluster.bundles
    && (Distinct(infos) && Bounded(p.cluster, infos) && ok && !p.mem.update.Has(TabletCellsRecovered) ==>
          forall i :: 0 <= i < |infos| ==> Count(q.cluster.cells, infos[i].name) == infos[i].cellCount)
  }

  lemma RestoreMeans(p: Pass, yt: YtAnswers)
    ensures var s := RestoreCells(p, yt); CellsRestored(p, s.pass, s.ok)
  {
    RecoverCellsFrame(p.cluster, p.mem.update.bundles, yt.outcomes);
    if Distinct(p.mem.update.bundles) && Bounded(p.cluster, p.mem.update.bundles) {
      RecoverCounts(p.cluster, p.mem.update.bundles, yt.outcomes);
    }
  }

  /** Both bundles are there with at least their cells; nothing that was there is taken away. */
  ghost predicate BundlesMade(p: Pass, q: Pass, ok: bool, bootstrap: (nat, nat)) {
    && q.stored == p.stored && q.mem == p.mem.(bundlesReady := ok || p.mem.bundlesReady)
    && p.cluster.bundles <= q.cluster.bundles && p.cluster.cells <= q.cluster.cells
    && (ok ==> "default" in q.cluster.bundles && "sys" in q.cluster.bundles)
    && (ok ==> Count(q.cluster.cells, "default") >= bootstrap.0 && Count(q.cluster.cells, "sys") >= bootstrap.1)
  }

  lemma FilledEnough(k: Cluster, info: BundleInfo, outs: seq<Outcome>)
    ensures var r := FillBundle(k, info, outs);
      r.ok ==> info.name in r.cluster.bundles && Count(r.cluster.cells, info.name) >= info.cellCount
  {
    FillCounts(k, info, outs, info.name);
  }

  lemma RecoveredTwo(k: Cluster, a: BundleInfo, b: BundleInfo, outs: seq<Outcome>)
    ensures var r := RecoverCells(k, [a, b], outs); r.ok ==>
      && a.name in r.cluster.bundles && b.name in r.cluster.bundles
      && Count(r.cluster.cells, a.name) >= a.cellCount && Count(r.cluster.cells, b.name) >= b.cellCount
  {
    var c := FillBundle(k, a, outs);
    FilledEnough(k, a, outs);
    assert [a, b][1..] == [b];
    if c.ok {
      var d := FillBundle(c.cluster, b, c.outs);
      FilledEnough(c.cluster, b, c.outs);
      FillCounts(c.cluster, b, c.outs, a.name);
      assert RecoverCells(c.cluster, [b], c.outs) == if d.ok then RecoverCells(d.cluster, [], d.outs) else d;
    }
  }

  lemma InitBundlesMeans(p: Pass, bootstrap: (nat, nat), outs: seq<Outcome>)
    ensures var s := InitBundlesStep(p, bootstrap, outs); BundlesMade(p, s.pass, s.ok, bootstrap)
  {
    var s := EnsureSysBundle(p.cluster, outs);
    var a, b := BundleInfo("default", bootstrap.0), BundleInfo("sys", bootstrap.1);
    RecoverCellsFrame(s.cluster, [a, b], Rest(s.outs));
    RecoveredTwo(s.cluster, a, b, Rest(s.outs));
  }

  // ----- master snapshots -----

  /** One path for every address of every master, and no other. */
  ghost predicate PathsOf(masters: seq<seq<string>>, paths: seq<string>) {
    && (forall i, j :: 0 <= i < |masters| && 0 <= j < |masters[i]| ==> MonitoringPath(masters[i][j]) in paths)
    && (forall path :: path in paths ==> exists i, j :: 0 <= i < |masters| && 0 <= j < |masters[i]| && path == MonitoringPath(masters[i][j]))
  }

  lemma {:induction false} MonitoringPathsAre(masters: seq<seq<string>>)
    ensures PathsOf(masters, MonitoringPaths(masters))
    decreases |masters|
  {
    if masters != [] {
      var rest, own, paths := masters[1..], CellPaths(masters[0]), MonitoringPaths(masters);
      MonitoringPathsAre(rest);
      assert paths == own + MonitoringPaths(rest);
      forall i, j | 0 <= i < |masters| && 0 <= j < |masters[i]| ensures MonitoringPath(masters[i][j]) in paths {
        if i == 0 { assert own[j] in paths; } else { assert rest[i - 1] == masters[i]; }
      }
      forall path | path in paths
        ensures exists i, j :: 0 <= i < |masters| && 0 <= j < |masters[i]| && path == MonitoringPath(masters[i][j])
      {
        if path in own {
          var j :| 0 <= j < |own| && own[j] == path;
          assert path == MonitoringPath(masters[0][j]);
        } else {
          var i, j :| 0 <= i < |rest| && 0 <= j < |rest[i]| && path == MonitoringPath(rest[i][j]);
          assert masters[i + 1] == rest[i];
        }
      }
    }
  }

  ghost predicate MastersNoted(p: Pass, q: Pass, ok: bool, masters: Option<seq<seq<string>>>) {
    if p.mem.update.Has(SnapshotsMonitoringInfoSaved) then ok && q == p
    else
      && q.stored == p.stored && (!ok ==> q == p) && (ok <==> masters.Some?)
      && (ok ==> q.mem.update.Has(SnapshotsMonitoringInfoSaved) && PathsOf(masters.value, q.mem.update.monitoringPaths))
  }

  lemma SavePathsMeans(p: Pass, yt: YtAnswers)
    ensures var s := SaveMonitoringPaths(p, yt); MastersNoted(p, s.pass, s.ok, yt.masters)
  {
    if yt.masters.Some? { MonitoringPathsAre(yt.masters.value); }
  }

  /** Snapshots are requested unless every master answered that it is read-only already. */
  predicate SnapshotsAsked(p: Pass, q: Pass, ok: bool, readOnly: seq<Option<bool>>) {
    var n := |p.mem.update.monitoringPaths|;
    && q.stored == p.stored && q.cluster == p.cluster.(log := q.cluster.log) && (!ok ==> q.mem == p.mem)
    && (p.mem.update.Has(SnapshotsBuildingStarted) ==> ok && q == p)
    && (ok && !p.mem.update.Has(SnapshotsBuildingStarted) ==>
          && q.mem.update.Has(SnapshotsBuildingStarted)
          && (SnapshotsRequested in q.cluster.log || (n <= |readOnly| && forall i :: 0 <= i < n ==> readOnly[i] == Some(true))))
  }

  lemma {:induction false} AllReadOnlyMeans(n: nat, answers: seq<Option<bool>>)
    ensures AllReadOnly(n, answers) == Some(true) <==> n <= |answers| && forall i :: 0 <= i < n ==> answers[i] == Some(true)
    decreases n
  {
    if n > 0 && answers != [] {
      AllReadOnlyMeans(n - 1, answers[1..]);
      assert forall i :: 0 < i < |answers| ==> answers[i] == answers[1..][i - 1];
    }
  }

  lemma StartSnapshotsMeans(p: Pass, yt: YtAnswers)
    ensures var s := StartSnapshots(p, yt); SnapshotsAsked(p, s.pass, s.ok, yt.readOnly)
  {
    AllReadOnlyMeans(|p.mem.update.monitoringPaths|, yt.readOnly);
    assert p.cluster.Log(SnapshotsRequested).log[|p.cluster.log|] == SnapshotsRequested;
  }

  /** Noted as saved only after every noted master was seen with a read-only snapshot. */
  ghost predicate SnapshotsBuilt(p: Pass, q: Pass, ok: bool) {
    && q.stored == p.stored && q.cluster == p.cluster.(log := q.cluster.log)
    && (p.mem.update.Has(SnapshotsSaved) ==> ok && q == p)
    && (p.mem.update.Has(SnapshotsMonitoringInfoSaved) ==> q.mem.update.monitoringPaths == p.mem.update.monitoringPaths)
    && (q.mem.update.Has(SnapshotsSaved) && !p.mem.update.Has(SnapshotsSaved) ==>
          ok && forall path :: path in q.mem.update.monitoringPaths ==> ReadOnlySnapshotSeen(path) in q.cluster.log)
  }

  lemma AwaitSnapshotsMeans(p: Pass, yt: YtAnswers)
    requires !p.mem.update.Has(SnapshotsSaved)
    ensures var s := AwaitSnapshots(p, yt); SnapshotsBuilt(p, s.pass, s.ok) && s.pass.mem.update.monitoringPaths == p.mem.update.monitoringPaths
  {
    SnapshotReadsFrame(p.cluster, p.mem.update.monitoringPaths, yt.snapshots);
  }

  lemma BuildMeans(p: Pass, yt: YtAnswers)
    ensures var s := BuildSnapshots(p, yt); SnapshotsBuilt(p, s.pass, s.ok)
  {
    if !p.mem.update.Has(SnapshotsSaved) {
      var s := SaveMonitoringPaths(p, yt);
      if s.ok {
        var t := StartSnapshots(s.pass, yt);
        StartKeepsPaths(s.pass, yt);
        if t.ok { AwaitSnapshotsMeans(t.pass, yt); }
      }
    }
  }

  lemma StartKeepsPaths(p: Pass, yt: YtAnswers)
    ensures var q := StartSnapshots(p, yt).pass;
      && q.mem.update.monitoringPaths == p.mem.update.monitoringPaths && q.stored == p.stored
      && q.cluster == p.cluster.(log := q.cluster.log) && q.mem.update.Has(SnapshotsSaved) == p.mem.update.Has(SnapshotsSaved)
  {}

  // ----- jobs and pods -----

  /** A new object that nobody has seen before; no other job is touched. */
  ghost predicate JobStarted(p: Pass, q: Pass, ok: bool, j: JobId) {
    && q.mem == p.mem && q.stored == p.stored && p.cluster.nextId <= q.cluster.nextId
    && (forall x :: x != j ==> (x in q.cluster.jobs <==> x in p.cluster.jobs) && (x in p.cluster.jobs ==> q.cluster.jobs[x] == p.cluster.jobs[x]))
    && (ok ==> j in q.cluster.jobs && j in q.cluster.jobConfigs)
    && (q.cluster.jobs != p.cluster.jobs ==>
          && j in q.cluster.jobs && !q.cluster.jobs[j].succeeded && !q.cluster.jobs[j].terminating
          && p.cluster.nextId <= q.cluster.jobs[j].uid < q.cluster.nextId)
  }

  lemma CreateJobMeans(p: Pass, j: JobId, config: Outcome, job: Outcome)
    ensures var s := CreateJobStep(p, j, config, job); JobStarted(p, s.pass, s.ok, j)
  {}

  /** Success means that the job counts as undone and that what the pass had fetched is going; no
      object disappears at once, and a failure leaves the status alone. */
  ghost predicate Restarting(p: Pass, q: Pass, ok: bool, v: View, j: JobId) {
    && q.stored == p.stored && q.mem.update == p.mem.update && q.cluster.log == p.cluster.log
    && (ok ==> !q.mem.Done(j)) && (!ok ==> q.mem == p.mem) && (forall x :: x != j ==> q.mem.Done(x) == p.mem.Done(x))
    && q.cluster.jobs.Keys == p.cluster.jobs.Keys
    && (forall x :: x != j && x in p.cluster.jobs ==> q.cluster.jobs[x] == p.cluster.jobs[x])
    && (ok && j in v.jobs && j in q.cluster.jobs ==> q.cluster.jobs[j].terminating)
    && (ok && j in v.jobConfigs ==> j !in q.cluster.jobConfigs)
  }

  lemma ConfigGone(p: Pass, v: View, j: JobId, o: Outcome)
    ensures var s := RemoveConfigStep(p, v, j, o);
      && s.pass == p.(cluster := p.cluster.(jobConfigs := s.pass.cluster.jobConfigs))
      && (s.ok && j in v.jobConfigs ==> j !in s.pass.cluster.jobConfigs)
  {}

  lemma ObjectGoing(p: Pass, v: View, j: JobId, o: Outcome)
    ensures var s := RemoveJobStep(p, v, j, o); var jobs := s.pass.cluster.jobs;
      && s.pass == p.(cluster := p.cluster.(jobs := jobs)) && jobs.Keys == p.cluster.jobs.Keys
      && (forall x :: x != j && x in p.cluster.jobs ==> jobs[x] == p.cluster.jobs[x])
      && (s.ok && j in v.jobs && j in jobs ==> jobs[j].terminating)
  {}

  lemma RestartMeans(p: Pass, v: View, j: JobId, config: Outcome, job: Outcome)
    ensures var s := PrepareRestartStep(p, v, j, config, job); Restarting(p, s.pass, s.ok, v, j)
  {
    ConfigGone(p, v, j, config);
    ObjectGoing(RemoveConfigStep(p, v, j, config).pass, v, j, job);
  }

  /** First the scaling, then, in a later call and only if the pods were seen gone, the end. */
  predicate PodsAdvanced(p: Pass, q: Pass, ok: bool, c: Component, gone: bool) {
    var was, now := p.mem.update, q.mem.update;
    && q.stored == p.stored && (!ok ==> q.mem == p.mem)
    && (now.Has(PodsRemovingStarted(c.name)) && !was.Has(PodsRemovingStarted(c.name)) ==>
          q.cluster == p.cluster.Log(ScaledToZero(c, was.state)) && now.Has(PodsRemoved(c.name)) == was.Has(PodsRemoved(c.name)))
    && (now.Has(PodsRemoved(c.name)) && !was.Has(PodsRemoved(c.name)) ==>
          was.Has(PodsRemovingStarted(c.name)) && gone && q.cluster == p.cluster.Log(PodsSeenGone(c)))
    && (ok ==> now.Has(PodsRemovingStarted(c.name)))
    && (ok && gone && was.Has(PodsRemovingStarted(c.name)) ==> now.Has(PodsRemoved(c.name)))
  }

  lemma RemovePodsMeans(p: Pass, c: Component, gone: bool, o: Outcome)
    ensures var s := RemovePodsStep(p, c, gone, o); PodsAdvanced(p, s.pass, s.ok, c, gone)
  {}

  // ----- asking for statuses -----

  /** One condition at most, exactly in the one case, and asking again adds nothing. */
  ghost predicate MarkedOnce(l: Layout, st: Status, to: Status) {
    && (to.update.Has(NotNecessaryToUpdateOpArchive) <==>
          st.update.Has(NotNecessaryToUpdateOpArchive)
          || (st.cluster == Updating && st.update.state == OpArchivePreparing && NeedSchedulerUpdate(l, st) && |l.tabletNodes| == 0))
    && (forall c :: c != NotNecessaryToUpdateOpArchive ==> to.update.Has(c) == st.update.Has(c))
    && to.(update := st.update) == st && Grew(st.update, to.update) && Marked(l, to) == to
  }

  lemma MarkedMeans(l: Layout, st: Status)
    ensures MarkedOnce(l, st, Marked(l, st))
  {}
}
