/** What an operator of the cluster can rely on, stated over whole runs: any passes, any changes of
    the spec, any status write lost or only seemingly failed, any step of the environment. */
module Guarantees {
  import opened ClusterStatus
  import opened Components
  import opened World
  import opened Reconcile
  import opened Actions
  import opened Safety
  import opened Gates

  /** Nothing of an update is left over: outside one, the stored update status is empty. */
  lemma CrashSafeReset(w: State, acts: seq<Label>)
    requires Initial(w)
    ensures var st := Run(w, acts).stored;
      st.cluster in {Created, Initializing, Running, Reconfiguration} ==> st.update == Blank
  {
    RunBase(w, acts);
  }

  // ----- the route -----

  /** One step within an update: same flow and components, and never back on the route. */
  predicate AlongTheRoute(st: Status, to: Status) {
    match to.cluster
    case Updating =>
      && to.update.flow == st.update.flow && to.update.components == st.update.components
      && HasCase(to.update.flow, to.update.state)
      && (to.update.state == st.update.state || Rank(to.update.state) > Rank(st.update.state))
    case UpdateFinishing => st.update.state != ImpossibleToStart
    case CancelUpdate => st.update.state == ImpossibleToStart
    case _ => false
  }

  lemma SyncStaysOnRoute(p: Pass, spec: Spec, a: Answers)
    requires Syncing(p) && LogOk(p.mem, p.cluster.log) && |spec.layout.httpProxies| > 0
    ensures AlongTheRoute(p.stored, SyncComponents(p, spec, a).stored)
  {
    SyncAllLog(p, spec, p.cluster, a, AllComponents(spec.layout));
    var s := SyncAll(p, spec, p.cluster, a, AllComponents(spec.layout));
    StoreStaysOnRoute(p, s, a.writes.first);
  }

  lemma StoreStaysOnRoute(p: Pass, s: Step, o: Outcome)
    requires Syncing(p) && Syncing(s.pass) && Framed(p, s.pass)
    ensures AlongTheRoute(p.stored, (if s.ok then Store(s.pass, o).pass else s.pass).stored)
  {}

  lemma MoveStaysOnRoute(p: Pass, spec: Spec, s: Survey, w: Outcomes, synced: Pass)
    requires Syncing(p) && AlongTheRoute(p.stored, synced.stored)
    ensures AlongTheRoute(p.stored, DispatchOr(p, spec, s, w, synced).stored)
  {
    match Advance(spec, p.mem, s)
    case Stay =>
    case ToUpdate(u) => RouteAdvances(spec, p.mem, s);
    case ToCluster(_) => ExitsOfRoutes(spec, p.mem, s);
  }

  lemma StepStaysOnRoute(w: State, act: Label)
    requires Base(w.stored, w.cluster) && LogOk(w.stored, w.cluster.log) && w.stored.cluster == Updating
    ensures AlongTheRoute(w.stored, Next(w, act).stored)
  {
    match act
    case Env(e) =>
    case PassWith(spec, a) =>
      if spec.managed && |spec.layout.httpProxies| > 0 && !a.fetchFails {
        var s := SurveyOf(ViewOf(spec, w.cluster, a.surveyed, a), w.stored, AllComponents(spec.layout));
        if s.Some? {
          var p := Pass(Marked(spec.layout, w.stored), w.stored, w.cluster);
          MarkedBase(spec.layout, w.stored, w.cluster);
          SamePlace(w.stored, p.mem, w.cluster.log);
          SyncStaysOnRoute(p, spec, a);
          MoveStaysOnRoute(p, spec, s.value, a.writes, SyncComponents(p, spec, a));
        }
      }
  }

  /** In every run the handler of the stored flow knows the stored state, and every step keeps the
      flow, keeps the components and only raises the rank, until the update is over. */
  lemma UpdatesFollowTheirRoute(w: State, acts: seq<Label>, act: Label)
    requires Initial(w)
    ensures var st := Run(w, acts).stored;
      st.cluster == Updating ==> HasCase(st.update.flow, st.update.state) && AlongTheRoute(st, Next(Run(w, acts), act).stored)
  {
    RunLog(w, acts);
    if Run(w, acts).stored.cluster == Updating { StepStaysOnRoute(Run(w, acts), act); }
  }

  // ----- safe mode, cells, pods -----

  /** Safe mode is on only within a Full or Master update that passed its check. */
  lemma SafeModeIsBalanced(w: State, acts: seq<Label>)
    requires Initial(w)
    ensures var r := Run(w, acts);
      r.cluster.safeMode ==> r.stored.cluster == Updating && TouchesMasters(r.stored.update.flow) && r.stored.update.Has(HasPossibility)
  {
    RunBase(w, acts);
  }

  /** A cancelled update has changed nothing: no safe mode, no cell, no snapshot, no server, no pod. */
  lemma CancelledUpdateIsHarmless(w: State, acts: seq<Label>)
    requires Initial(w) && Run(w, acts).stored.cluster == CancelUpdate
    ensures var k := Run(w, acts).cluster;
      !k.safeMode && k.cells == k.baseline && forall i :: 0 <= i < |k.log| ==> Harmless(k.log[i])
  {
    RunLog(w, acts);
  }

  /** Cells during and after an update, against the cells at its start. */
  ghost predicate CellsConserved(st: Status, k: Cluster) {
    && (st.cluster == UpdateFinishing ==> NoneDying(k.cells) && Restored(k))
    && (st.cluster == Updating && !TouchesTablets(st.update.flow) ==> k.cells == k.baseline)
    && (st.cluster == Updating && st.update.Has(TabletCellsSaved) ==> st.update.bundles == Census(k.bundles, k.baseline))
    && (st.cluster == Updating && st.update.Has(TabletCellsRecovered) ==> NoneDying(k.cells) && Restored(k))
  }

  /** However often removing and recreating cells fails halfway: an update ends with exactly the
      cells every bundle had when it began. */
  lemma CellsAreConserved(w: State, acts: seq<Label>)
    requires Initial(w)
    ensures CellsConserved(Run(w, acts).stored, Run(w, acts).cluster)
  {
    RunBase(w, acts);
  }

  lemma ReturnTouchesNothing(p: Pass, w: Outcomes)
    requires !SyncState(p.mem.cluster) && p.mem == p.stored
    ensures var q := ReturnToRunning(p, w); q.cluster == p.cluster && q.stored.cluster in {p.stored.cluster, Running}
  {}

  /** Going back to Running touches nothing but the status. */
  lemma ReturningTouchesNothing(w: State, spec: Spec, a: Answers)
    requires !SyncState(w.stored.cluster)
    ensures RunPass(w, spec, a).cluster == w.cluster
    ensures RunPass(w, spec, a).stored.cluster in {w.stored.cluster, Running}
  {
    if spec.managed && |spec.layout.httpProxies| > 0 && !a.fetchFails {
      var p := Pass(w.stored, w.stored, w.cluster);
      ReturnTouchesNothing(p, a.writes);
      var s := SurveyOf(ViewOf(spec, w.cluster, a.surveyed, a), w.stored, AllComponents(spec.layout));
      if s.Some? { OnlyReturns(p, spec, s.value, a.writes, SyncComponents(p, spec, a)); }
    }
  }

  lemma OnlyReturns(p: Pass, spec: Spec, s: Survey, w: Outcomes, synced: Pass)
    requires !SyncState(p.mem.cluster)
    ensures DispatchOr(p, spec, s, w, synced) == ReturnToRunning(p, w)
  {}

  /** No pod is taken away before every gate of the route has been seen open in this update, and
      while pods go the masters are in safe mode and the cells are gone. */
  lemma PodsGoOnlyBehindTheGates(w: State, acts: seq<Label>)
    requires Initial(w) && Run(w, acts).stored.cluster == Updating
    ensures var st, k := Run(w, acts).stored, Run(w, acts).cluster;
      && (forall i :: 0 <= i < |k.log| && k.log[i].ScaledToZero? ==> Cleared(st.update.flow, k.log[..i]))
      && (st.update.state == PodsRemoval && TouchesMasters(st.update.flow) ==> k.safeMode)
      && (st.update.state == PodsRemoval && TouchesTablets(st.update.flow) ==> k.cells == [])
  {
    RunLog(w, acts);
    GatesOfUpdate(Run(w, acts).stored, Run(w, acts).cluster);
  }

  lemma GatesOfUpdate(st: Status, k: Cluster)
    requires Base(st, k) && LogOk(st, k.log) && st.cluster == Updating
    ensures forall i :: 0 <= i < |k.log| && k.log[i].ScaledToZero? ==> Cleared(st.update.flow, k.log[..i])
    ensures st.update.state == PodsRemoval && TouchesMasters(st.update.flow) ==> k.safeMode
    ensures st.update.state == PodsRemoval && TouchesTablets(st.update.flow) ==> k.cells == []
  {}

  /** While updating, servers are written only for updating components in their windows. */
  lemma WritesStayInTheirWindows(w: State, acts: seq<Label>, i: nat)
    requires Initial(w) && Run(w, acts).stored.cluster == Updating && i < |Run(w, acts).cluster.log|
    ensures var st, e := Run(w, acts).stored, Run(w, acts).cluster.log[i];
      && (e.ScaledToZero? ==> IsUpdatingComponent(st, e.component) && e.during == PodsRemoval)
      && (e.ServerWritten? ==> IsUpdatingComponent(st, e.component) && InWindow(e.component.kind, e.during))
      && (e.AuxiliaryCreated? ==>
            e.component.kind == YtsaurusClient || (IsUpdatingComponent(st, e.component) && InWindow(e.component.kind, e.during)))
  {
    RunLog(w, acts);
    assert InsideWindow(Run(w, acts).stored, Run(w, acts).cluster.log[i]);
  }
}
