/** What an update has seen and done before it takes pods away, which components it writes, and
    what a cancelled update has left alone: properties of the event log over whole runs. */
module Gates {
  import opened ClusterStatus
  import opened Components
  import opened World
  import opened Reconcile
  import opened Actions
  import opened Safety

  /** What must have happened before route `f` scales anything to zero. */
  ghost predicate Cleared(f: UpdateFlow, past: seq<Event>) {
    && (f != FlowStateless ==> PossibilityPassed in past)
    && (TouchesMasters(f) ==> SafeModeSet(true) in past && exists masters :: SnapshotsSeen(masters, past))
    && (TouchesTablets(f) ==> (exists infos :: CellsSaved(infos) in past) && NoCellsSeen in past)
  }

  ghost predicate Gated(f: UpdateFlow, log: seq<Event>) {
    forall i :: 0 <= i < |log| && log[i].ScaledToZero? ==> Cleared(f, log[..i])
  }

  /** Only updating components are written, and only in their window. */
  predicate InsideWindow(st: Status, e: Event) {
    match e
    case ScaledToZero(c, s) => IsUpdatingComponent(st, c) && s == PodsRemoval
    case ServerWritten(c, s) => IsUpdatingComponent(st, c) && InWindow(c.kind, s)
    case AuxiliaryCreated(c, s) => c.kind == YtsaurusClient || (IsUpdatingComponent(st, c) && InWindow(c.kind, s))
    case _ => true
  }

  predicate Harmless(e: Event) {
    !e.SafeModeSet? && !e.CellRemovalRequested? && !e.CellCreated? && !e.SnapshotsRequested?
    && !e.ScaledToZero? && !e.ServerWritten? && (e.AuxiliaryCreated? ==> e.component.kind == YtsaurusClient)
  }

  ghost predicate LogOk(st: Status, log: seq<Event>) {
    && (st.cluster == Updating ==>
          && Gated(st.update.flow, log)
          && (forall i :: 0 <= i < |log| ==> InsideWindow(st, log[i]))
          && (Rank(st.update.state) <= 2 ==> forall i :: 0 <= i < |log| ==> Harmless(log[i])))
    && (st.cluster == CancelUpdate ==> forall i :: 0 <= i < |log| ==> Harmless(log[i]))
  }

  /** Events an action may add while the cluster is updating. */
  predicate Permitted(st: Status, e: Event) {
    && InsideWindow(st, e)
    && (e.ScaledToZero? ==> st.update.state == PodsRemoval)
    && (!Harmless(e) ==> Rank(st.update.state) > 2)
  }

  ghost predicate Adds(p: Pass, q: Pass) {
    p.cluster.log <= q.cluster.log
    && forall i :: |p.cluster.log| <= i < |q.cluster.log| ==> Permitted(p.mem, q.cluster.log[i])
  }

  lemma EventsKept(a: seq<Event>, b: seq<Event>)
    requires a <= b
    ensures forall e :: e in a ==> e in b
  {
    forall e | e in a ensures e in b {
      var i :| 0 <= i < |a| && a[i] == e;
      assert b[i] == e;
    }
  }

  /** By the time pods go, every gate of the route has been seen open. */
  lemma PodsRemovalIsCleared(st: Status, k: Cluster, past: seq<Event>)
    requires Base(st, k) && st.cluster == Updating && st.update.state == PodsRemoval && k.log <= past
    ensures Cleared(st.update.flow, past)
  {
    var u := st.update;
    EventsKept(k.log, past);
    if TouchesMasters(u.flow) {
      var masters :| MastersListed(masters) in k.log && u.monitoringPaths == MonitoringPaths(masters);
      assert SnapshotsSeen(masters, past);
    }
    if TouchesTablets(u.flow) { assert CellsSaved(u.bundles) in past; }
  }

  lemma AddsKeepLog(p: Pass, q: Pass)
    requires Base(p.mem, p.cluster) && p.mem.cluster == Updating && Adds(p, q) && LogOk(p.mem, p.cluster.log)
    ensures LogOk(p.mem, q.cluster.log)
  {
    var log := q.cluster.log;
    forall i | 0 <= i < |log| && log[i].ScaledToZero?
      ensures Cleared(p.mem.update.flow, log[..i])
    {
      if i < |p.cluster.log| {
        assert log[..i] == p.cluster.log[..i] && log[i] == p.cluster.log[i];
      } else {
        assert p.cluster.log <= log[..i];
        PodsRemovalIsCleared(p.mem, p.cluster, log[..i]);
      }
    }
  }

  // ----- every action adds only permitted events -----

  lemma SnapshotsAdd(p: Pass, yt: YtAnswers)
    requires p.mem.update.state == SnapshotsBuilding
    ensures Adds(p, BuildSnapshots(p, yt).pass)
  {
    var s := SaveMonitoringPaths(p, yt).pass;
    var t := StartSnapshots(s, yt).pass;
    SnapshotReadsFrame(t.cluster, t.mem.update.monitoringPaths, yt.snapshots);
    assert Adds(p, s) && Adds(p, t);
  }

  lemma ClientAdds(p: Pass, yt: YtAnswers)
    ensures Adds(p, ClientStep(p, yt).pass)
  {
    match p.mem.update.state
    case TabletCellsRemovingStart => RemoveCellsFrame(p.cluster, Ids(p.cluster.cells), Rest(yt.outcomes));
    case TabletCellsRecovery => RecoverCellsFrame(p.cluster, p.mem.update.bundles, yt.outcomes);
    case SnapshotsBuilding => SnapshotsAdd(p, yt);
    case _ =>
  }

  lemma ServersAdd(p: Pass, v: View, c: Component, action: Action, b: (nat, nat), a: Answers)
    requires Allowed(v, p.mem, c, action) && p.mem.cluster == Updating
    requires action == RemovePods || action == WriteServer || action == CreateAuxiliary
    ensures Adds(p, Perform(p, v, c, action, b, a).pass)
  {}

  lemma JobsAdd(p: Pass, j: JobId, o1: Outcome, o2: Outcome)
    ensures Adds(p, CreateJobStep(p, j, o1, o2).pass)
  {}

  lemma RestAdds(p: Pass, v: View, c: Component, action: Action, b: (nat, nat), a: Answers)
    requires Allowed(v, p.mem, c, action) && p.mem.cluster == Updating
    requires action !in {HandleUpdatingState, RemovePods, WriteServer, CreateAuxiliary} && !action.InitQueryTracker?
    ensures Adds(p, Perform(p, v, c, action, b, a).pass)
  {
    var o := a.CallsOf(c);
    match action
    case CreateJob(j) => JobsAdd(p, j, o.first, o.second);
    case PrepareRestart(j) => RestartQuiet(p, v, j, o.first, o.second);
    case PrepareExit(_) => RestartQuiet(p, v, ExitReadOnly, o.first, o.second);
    case _ => SmallLogs(p, v, c, action, b, a);
  }

  lemma QueryTrackerAdds(p: Pass, v: View, c: Component, next: Action, b: (nat, nat), a: Answers)
    requires Allowed(v, p.mem, c, InitQueryTracker(next)) && p.mem.cluster == Updating
    ensures Adds(p, Perform(p, v, c, InitQueryTracker(next), b, a).pass)
  {
    if !a.clientMissing && a.CallsOf(c).third == Done { RestAdds(p.(mem := p.mem.(queryTrackerReady := true)), v, c, next, b, a); }
  }

  lemma PerformAdds(p: Pass, v: View, c: Component, action: Action, b: (nat, nat), a: Answers)
    requires Allowed(v, p.mem, c, action) && p.mem.cluster == Updating
    ensures Adds(p, Perform(p, v, c, action, b, a).pass)
  {
    match action
    case HandleUpdatingState => ClientAdds(p, a.yt);
    case RemovePods => ServersAdd(p, v, c, action, b, a);
    case WriteServer => ServersAdd(p, v, c, action, b, a);
    case CreateAuxiliary => ServersAdd(p, v, c, action, b, a);
    case InitQueryTracker(next) => QueryTrackerAdds(p, v, c, next, b, a);
    case _ => RestAdds(p, v, c, action, b, a);
  }

  // ----- passes and runs -----

  /** The log invariant only reads the place on the route and the list of components. */
  lemma SamePlace(st: Status, other: Status, log: seq<Event>)
    requires LogOk(st, log) && st.cluster == other.cluster && Grew(st.update, other.update)
    ensures LogOk(other, log)
  {
    assert forall e :: InsideWindow(st, e) ==> InsideWindow(other, e);
  }

  lemma PerformFrame(p: Pass, v: View, c: Component, action: Action, b: (nat, nat), a: Answers)
    requires Allowed(v, p.mem, c, action) && p.mem.cluster == Updating
    ensures Framed(p, Perform(p, v, c, action, b, a).pass)
  {
    if action == HandleUpdatingState {
      ClientFrame(p, a.yt);
    } else {
      PerformQuiet(p, v, c, action, b, a);
    }
  }

  lemma SyncOneLog(p: Pass, spec: Spec, fetched: Cluster, a: Answers, c: Component)
    requires Syncing(p) && LogOk(p.mem, p.cluster.log) && |spec.layout.httpProxies| > 0
    ensures var q := SyncOne(p, spec, fetched, a, c).pass; Syncing(q) && Framed(p, q) && LogOk(q.mem, q.cluster.log)
  {
    SyncOneBase(p, spec, fetched, a, c);
    SyncOneAdds(p, spec, fetched, a, c);
    LogAfter(p, SyncOne(p, spec, fetched, a, c).pass);
  }

  lemma SyncOneAdds(p: Pass, spec: Spec, fetched: Cluster, a: Answers, c: Component)
    requires p.mem.cluster == Updating && |spec.layout.httpProxies| > 0
    ensures var q := SyncOne(p, spec, fetched, a, c).pass; Adds(p, q) && Framed(p, q)
  {
    var v := ViewOf(spec, fetched, a.synced, a);
    var d := Decide(v, p.mem, c);
    if d.Do? {
      DecisionsAreAllowed(v, p.mem, c);
      PerformAdds(p, v, c, d.action, spec.bootstrap, a);
      PerformFrame(p, v, c, d.action, spec.bootstrap, a);
    }
  }

  lemma LogAfter(p: Pass, q: Pass)
    requires Syncing(p) && LogOk(p.mem, p.cluster.log) && Adds(p, q) && Framed(p, q)
    ensures LogOk(q.mem, q.cluster.log)
  {
    AddsKeepLog(p, q);
    SamePlace(p.mem, q.mem, q.cluster.log);
  }

  lemma {:induction false} SyncAllLog(p: Pass, spec: Spec, fetched: Cluster, a: Answers, cs: seq<Component>)
    requires Syncing(p) && LogOk(p.mem, p.cluster.log) && |spec.layout.httpProxies| > 0
    ensures var q := SyncAll(p, spec, fetched, a, cs).pass;
      Syncing(q) && Framed(p, q) && LogOk(q.mem, q.cluster.log)
    decreases |cs|
  {
    if cs != [] {
      SyncOneLog(p, spec, fetched, a, cs[0]);
      var s := SyncOne(p, spec, fetched, a, cs[0]);
      if s.ok { SyncAllLog(s.pass, spec, fetched, a, cs[1..]); }
    }
  }

  lemma SyncComponentsLog(p: Pass, spec: Spec, a: Answers)
    requires Syncing(p) && LogOk(p.mem, p.cluster.log) && |spec.layout.httpProxies| > 0
    ensures var q := SyncComponents(p, spec, a); LogOk(q.stored, q.cluster.log)
  {
    SyncAllLog(p, spec, p.cluster, a, AllComponents(spec.layout));
    var s := SyncAll(p, spec, p.cluster, a, AllComponents(spec.layout)).pass;
    assert Encoded(s.mem) == s.mem;
    SamePlaceBack(s.stored, s.mem, s.cluster.log);
  }

  lemma SamePlaceBack(st: Status, other: Status, log: seq<Event>)
    requires LogOk(other, log) && st.cluster == other.cluster && Grew(st.update, other.update)
    ensures LogOk(st, log)
  {
    assert forall e :: InsideWindow(other, e) ==> InsideWindow(st, e);
  }

  /** Along the route the log may stop being harmless; into the dead end it still is. */
  lemma MoveLog(st: Status, log: seq<Event>, next: UpdateState)
    requires st.cluster == Updating && LogOk(st, log) && Rank(next) > Rank(st.update.state)
    ensures LogOk(st.(update := st.update.(state := next)), log)
  {
    var to := st.(update := st.update.(state := next));
    assert forall e :: InsideWindow(st, e) ==> InsideWindow(to, e);
  }

  lemma UpdatingLog(p: Pass, spec: Spec, s: Survey, w: Outcomes, synced: Pass)
    requires Syncing(p) && LogOk(p.mem, p.cluster.log) && LogOk(synced.stored, synced.cluster.log)
    ensures var q := DispatchOr(p, spec, s, w, synced); LogOk(q.stored, q.cluster.log)
  {
    SamePlaceBack(p.stored, p.mem, p.cluster.log);
    RouteAdvances(spec, p.mem, s);
    match Advance(spec, p.mem, s)
    case Stay =>
    case ToUpdate(u) => MoveLog(p.mem, p.cluster.log, u);
    case ToCluster(c) => ExitsOfRoutes(spec, p.mem, s);
  }

  lemma {:induction false} SyncAllElsewhere(p: Pass, spec: Spec, fetched: Cluster, a: Answers, cs: seq<Component>)
    requires PassBase(p) && SyncState(p.mem.cluster) && |spec.layout.httpProxies| > 0
    ensures var q := SyncAll(p, spec, fetched, a, cs).pass; q.mem.cluster == p.mem.cluster && q.stored.cluster == p.mem.cluster
    decreases |cs|
  {
    if cs != [] {
      SyncOneBase(p, spec, fetched, a, cs[0]);
      var s := SyncOne(p, spec, fetched, a, cs[0]);
      if s.ok { SyncAllElsewhere(s.pass, spec, fetched, a, cs[1..]); }
    }
  }

  lemma SyncElsewhere(p: Pass, spec: Spec, a: Answers)
    requires PassBase(p) && SyncState(p.mem.cluster) && |spec.layout.httpProxies| > 0
    ensures SyncComponents(p, spec, a).stored.cluster == p.mem.cluster
  {
    SyncAllElsewhere(p, spec, p.cluster, a, AllComponents(spec.layout));
  }

  lemma ReturnLog(p: Pass, w: Outcomes)
    requires PassBase(p) && !SyncState(p.mem.cluster) && LogOk(p.mem, p.cluster.log)
    ensures var q := ReturnToRunning(p, w); LogOk(q.stored, q.cluster.log)
  {}

  lemma RunningLog(p: Pass, spec: Spec, s: Survey, w: Outcomes, synced: Pass)
    requires PassBase(p) && p.mem.cluster == Running && synced.stored.cluster == Running
    ensures var q := DispatchOr(p, spec, s, w, synced); LogOk(q.stored, q.cluster.log)
  {}

  lemma InitializingLog(p: Pass, spec: Spec, s: Survey, w: Outcomes, synced: Pass)
    requires PassBase(p) && p.mem.cluster in {Created, Initializing, Reconfiguration} && synced.stored.cluster == p.mem.cluster
    ensures var q := DispatchOr(p, spec, s, w, synced); LogOk(q.stored, q.cluster.log)
  {}

  lemma DispatchLog(p: Pass, spec: Spec, s: Survey, a: Answers)
    requires PassBase(p) && LogOk(p.mem, p.cluster.log) && |spec.layout.httpProxies| > 0
    ensures var q := Dispatch(p, spec, s, a); LogOk(q.stored, q.cluster.log)
  {
    if p.mem.cluster == Updating {
      SyncComponentsLog(p, spec, a);
      UpdatingLog(p, spec, s, a.writes, SyncComponents(p, spec, a));
    } else if p.mem.cluster == Running {
      SyncElsewhere(p, spec, a);
      RunningLog(p, spec, s, a.writes, SyncComponents(p, spec, a));
    } else if SyncState(p.mem.cluster) {
      SyncElsewhere(p, spec, a);
      InitializingLog(p, spec, s, a.writes, SyncComponents(p, spec, a));
    } else {
      ReturnLog(p, a.writes);
    }
  }

  lemma EnvLog(st: Status, k: Cluster, e: EnvEvent)
    requires Base(st, k) && LogOk(st, k.log)
    ensures LogOk(st, EnvStep(k, e).log)
  {
    var p := Pass(st, st, k);
    assert forall i :: |k.log| <= i < |EnvStep(k, e).log| ==> Harmless(EnvStep(k, e).log[i]);
    if st.cluster == Updating { AddsKeepLog(p, p.(cluster := EnvStep(k, e))); }
  }

  lemma NextLog(w: State, act: Label)
    requires Base(w.stored, w.cluster) && LogOk(w.stored, w.cluster.log)
    ensures LogOk(Next(w, act).stored, Next(w, act).cluster.log)
  {
    match act
    case Env(e) => EnvLog(w.stored, w.cluster, e);
    case PassWith(spec, a) =>
      if spec.managed && |spec.layout.httpProxies| > 0 && !a.fetchFails {
        var s := SurveyOf(ViewOf(spec, w.cluster, a.surveyed, a), w.stored, AllComponents(spec.layout));
        if s.Some? {
          MarkedBase(spec.layout, w.stored, w.cluster);
          SamePlace(w.stored, Marked(spec.layout, w.stored), w.cluster.log);
          DispatchLog(Pass(Marked(spec.layout, w.stored), w.stored, w.cluster), spec, s.value, a);
        }
      }
  }

  /** The log invariant holds at the end of every run. */
  lemma {:induction false} RunLog(w: State, acts: seq<Label>)
    requires Initial(w)
    ensures var r := Run(w, acts); Base(r.stored, r.cluster) && LogOk(r.stored, r.cluster.log)
    decreases |acts|
  {
    RunBase(w, acts);
    if acts != [] {
      RunLog(w, acts[..|acts| - 1]);
      NextLog(Run(w, acts[..|acts| - 1]), acts[|acts| - 1]);
    }
  }
}
