/** What syncing never takes back, and what every run keeps whatever layouts its specs had. */
module Durable {
  import opened ClusterStatus
  import opened Components
  import opened World
  import opened FlowChoice
  import opened Reconcile
  import opened Actions
  import opened Safety
  import opened Initialised

  // ----- what syncing never takes back -----

  /** The only jobs that a stage marks undone. */
  predicate Undoes(st: Status, j: JobId) {
    && st.cluster == Updating
    && (|| (j == ExitReadOnly && st.update.state == MasterExitingReadOnly)
        || (j == OpArchive && st.update.state == OpArchivePreparing)
        || (j == QTState && st.update.state == QTStatePreparing))
  }

  ghost predicate DoneKept(st: Status, to: Status) {
    && (forall j :: st.Done(j) ==> to.Done(j) || Undoes(st, j))
    && (st.bundlesReady ==> to.bundlesReady)
    && (st.queryTrackerReady ==> to.queryTrackerReady)
    && (st.queueAgentReady ==> to.queueAgentReady)
  }

  /** A refusal is final. */
  predicate AnswerKept(st: Status, to: Status) {
    st.update.Has(NoPossibility) && to.update.Has(HasPossibility) ==> st.update.Has(HasPossibility)
  }

  ghost predicate Kept(st: Status, to: Status) {
    to.cluster == st.cluster && Grew(st.update, to.update) && DoneKept(st, to) && AnswerKept(st, to)
  }

  lemma KeptTrans(a: Status, b: Status, c: Status)
    requires Kept(a, b) && Kept(b, c)
    ensures Kept(a, c)
  {}

  lemma RestartDone(p: Pass, v: View, j: JobId, o1: Outcome, o2: Outcome)
    requires Undoes(p.mem, j)
    ensures DoneKept(p.mem, PrepareRestartStep(p, v, j, o1, o2).pass.mem)
  {
    RestartMemory(p, v, j, o1, o2);
  }

  lemma ExitDone(p: Pass, v: View, restart: bool, o1: Outcome, o2: Outcome)
    requires Undoes(p.mem, ExitReadOnly)
    ensures var s := if restart then PrepareRestartStep(p, v, ExitReadOnly, o1, o2) else Step(p, true);
      DoneKept(p.mem, Bind(s, s.pass.Note(MasterExitReadOnlyPrepared)).pass.mem)
  {
    RestartDone(p, v, ExitReadOnly, o1, o2);
  }

  lemma PerformDone(p: Pass, v: View, c: Component, action: Action, b: (nat, nat), a: Answers)
    requires Allowed(v, p.mem, c, action)
    ensures DoneKept(p.mem, Perform(p, v, c, action, b, a).pass.mem)
  {
    var o := a.CallsOf(c);
    match action
    case PrepareRestart(j) => RestartDone(p, v, j, o.first, o.second);
    case PrepareExit(restart) => ExitDone(p, v, restart, o.first, o.second);
    case SetCondition(cond) =>
    case InitQueryTracker(next) => QueryTrackerForward(p, v, c, next, b, a);
    case _ => OrdinaryForward(p, v, c, action, b, a);
  }

  /** The client answers the possibility check once and touches that answer in no other stage. */
  predicate SameAnswer(p: Pass, q: Pass) {
    q.mem.update.Has(HasPossibility) == p.mem.update.Has(HasPossibility)
    && q.mem.update.Has(NoPossibility) == p.mem.update.Has(NoPossibility)
  }

  lemma SnapshotsAnswer(p: Pass, yt: YtAnswers)
    ensures SameAnswer(p, BuildSnapshots(p, yt).pass)
  {
    var s := SaveMonitoringPaths(p, yt).pass;
    assert SameAnswer(p, s);
    StartAnswer(s, yt);
    AwaitAnswer(StartSnapshots(s, yt).pass, yt);
  }

  lemma StartAnswer(p: Pass, yt: YtAnswers)
    ensures SameAnswer(p, StartSnapshots(p, yt).pass)
  {}

  lemma AwaitAnswer(p: Pass, yt: YtAnswers)
    ensures SameAnswer(p, AwaitSnapshots(p, yt).pass)
  {}

  lemma CellsAnswer(p: Pass, yt: YtAnswers)
    ensures SameAnswer(p, SaveCells(p, yt).pass) && SameAnswer(p, StartRemovingCells(p, yt).pass)
    ensures SameAnswer(p, AwaitNoCells(p, yt).pass) && SameAnswer(p, RestoreCells(p, yt).pass)
  {}

  lemma SwitchAnswer(p: Pass, on: bool, yt: YtAnswers)
    ensures SameAnswer(p, SwitchSafeMode(p, on, if on then SafeModeEnabled else SafeModeDisabled, yt).pass)
  {}

  lemma ClientAnswer(p: Pass, yt: YtAnswers)
    ensures p.mem.update.state != PossibilityCheck ==> SameAnswer(p, ClientStep(p, yt).pass)
  {
    match p.mem.update.state
    case PossibilityCheck =>
    case SafeModeEnabling => SwitchAnswer(p, true, yt);
    case SafeModeDisabling => SwitchAnswer(p, false, yt);
    case SnapshotsBuilding => SnapshotsAnswer(p, yt);
    case _ => CellsAnswer(p, yt);
  }

  lemma ClientAnswerKept(p: Pass, yt: YtAnswers)
    ensures AnswerKept(p.mem, ClientStep(p, yt).pass.mem)
  {
    ClientAnswer(p, yt);
  }

  lemma PerformKept(p: Pass, v: View, c: Component, action: Action, b: (nat, nat), a: Answers)
    requires Allowed(v, p.mem, c, action)
    ensures var q := Perform(p, v, c, action, b, a).pass; q.stored == p.stored && Kept(p.mem, q.mem)
  {
    PerformDone(p, v, c, action, b, a);
    if action == HandleUpdatingState {
      ClientFrame(p, a.yt);
      ClientAnswerKept(p, a.yt);
    } else if action != InitBundles {
      PerformQuiet(p, v, c, action, b, a);
    }
  }

  lemma SyncOneKept(p: Pass, spec: Spec, fetched: Cluster, a: Answers, c: Component)
    requires |spec.layout.httpProxies| > 0
    ensures var q := SyncOne(p, spec, fetched, a, c).pass; q.stored == p.stored && Kept(p.mem, q.mem)
  {
    var v := ViewOf(spec, fetched, a.synced, a);
    var d := Decide(v, p.mem, c);
    if d.Do? {
      DecisionsAreAllowed(v, p.mem, c);
      PerformKept(p, v, c, d.action, spec.bootstrap, a);
    }
  }

  lemma {:induction false} SyncAllKept(p: Pass, spec: Spec, fetched: Cluster, a: Answers, cs: seq<Component>)
    requires |spec.layout.httpProxies| > 0
    ensures var q := SyncAll(p, spec, fetched, a, cs).pass; q.stored == p.stored && Kept(p.mem, q.mem)
    decreases |cs|
  {
    if cs != [] {
      SyncOneKept(p, spec, fetched, a, cs[0]);
      var s := SyncOne(p, spec, fetched, a, cs[0]);
      if s.ok {
        SyncAllKept(s.pass, spec, fetched, a, cs[1..]);
        KeptTrans(p.mem, s.pass.mem, SyncAll(s.pass, spec, fetched, a, cs[1..]).pass.mem);
      }
    }
  }

  /** A sync leaves the old status in the store, or one that keeps everything. */
  lemma SyncComponentsKept(p: Pass, spec: Spec, a: Answers)
    requires |spec.layout.httpProxies| > 0 && p.mem.update.components != Some([])
    ensures var q := SyncComponents(p, spec, a).stored; q == p.stored || Kept(p.mem, q)
  {
    SyncAllKept(p, spec, p.cluster, a, AllComponents(spec.layout));
  }

  lemma MarkedKept(l: Layout, st: Status)
    ensures Kept(st, Marked(l, st)) && Marked(l, st).cluster == st.cluster
  {}

  // ----- what holds whatever the layouts were -----

  predicate ClientUnlisted(st: Status) {
    st.update.components.Some? ==> BaseName(YtsaurusClient) !in st.update.components.value
  }

  /** Client and master are initialized from the first Running state on, no update names the client,
      and cells whose removal has started are all on their way out. */
  predicate Core(st: Status, k: Cluster) {
    && (PastInit(st.cluster) ==> st.Done(ClientUser) && st.Done(MasterDefault))
    && (st.cluster == Updating ==> ClientUnlisted(st))
    && RemovalOk(st, k)
  }

  ghost predicate RemovalPass(p: Pass) { Syncing(p) && RemovalOk(p.mem, p.cluster) && RemovalOk(p.stored, p.cluster) }

  lemma SyncOneRemoval(p: Pass, spec: Spec, fetched: Cluster, a: Answers, c: Component)
    requires RemovalPass(p) && |spec.layout.httpProxies| > 0
    ensures RemovalPass(SyncOne(p, spec, fetched, a, c).pass)
  {
    var v := ViewOf(spec, fetched, a.synced, a);
    var d := Decide(v, p.mem, c);
    SyncOneBase(p, spec, fetched, a, c);
    if d.Do? {
      DecisionsAreAllowed(v, p.mem, c);
      PerformRemoval(p, v, c, d.action, spec.bootstrap, a);
    }
  }

  lemma {:induction false} SyncAllRemoval(p: Pass, spec: Spec, fetched: Cluster, a: Answers, cs: seq<Component>)
    requires RemovalPass(p) && |spec.layout.httpProxies| > 0
    ensures RemovalPass(SyncAll(p, spec, fetched, a, cs).pass)
    decreases |cs|
  {
    if cs != [] {
      SyncOneRemoval(p, spec, fetched, a, cs[0]);
      var s := SyncOne(p, spec, fetched, a, cs[0]);
      if s.ok { SyncAllRemoval(s.pass, spec, fetched, a, cs[1..]); }
    }
  }

  ghost predicate CorePass(p: Pass) { PassBase(p) && Core(p.mem, p.cluster) && Core(p.stored, p.cluster) }

  lemma StoreCore(p: Pass, s: Step, o: Outcome)
    requires CorePass(p) && SyncState(p.mem.cluster)
    requires s.pass.stored == p.stored && Kept(p.mem, s.pass.mem) && RemovalOk(s.pass.mem, s.pass.cluster) && RemovalOk(s.pass.stored, s.pass.cluster)
    ensures var q := if s.ok then Store(s.pass, o).pass else s.pass; Core(q.stored, q.cluster)
  {}

  lemma SyncComponentsCore(p: Pass, spec: Spec, a: Answers)
    requires CorePass(p) && SyncState(p.mem.cluster) && |spec.layout.httpProxies| > 0
    ensures var q := SyncComponents(p, spec, a); Core(q.stored, q.cluster)
  {
    var s := SyncAll(p, spec, p.cluster, a, AllComponents(spec.layout));
    SyncAllKept(p, spec, p.cluster, a, AllComponents(spec.layout));
    if p.mem.cluster == Updating { SyncAllRemoval(p, spec, p.cluster, a, AllComponents(spec.layout)); }
    StoreCore(p, s, a.writes.first);
  }

  lemma MoveRemoval(st: Status, k: Cluster, next: UpdateState)
    requires RemovalOk(st, k) && st.cluster == Updating && Rank(next) > Rank(st.update.state)
    requires TouchesTablets(st.update.flow) && Rank(st.update.state) <= 5 < Rank(next) ==> st.update.Has(TabletCellsRemovingStarted)
    ensures RemovalOk(st.(update := st.update.(state := next)), k)
  {}

  lemma UpdatingCore(p: Pass, spec: Spec, s: Survey, w: Outcomes, synced: Pass)
    requires CorePass(p) && p.mem.cluster == Updating && Core(synced.stored, synced.cluster)
    ensures var q := DispatchOr(p, spec, s, w, synced); Core(q.stored, q.cluster)
  {
    match Advance(spec, p.mem, s)
    case Stay =>
    case ToUpdate(u) =>
      RouteAdvances(spec, p.mem, s);
      MovePassesCells(spec, p.mem, s);
      MoveRemoval(p.mem, p.cluster, u);
    case ToCluster(c) => ExitsOfRoutes(spec, p.mem, s);
  }

  lemma StartCore(p: Pass, f: UpdateFlow, names: Option<seq<string>>, o: Outcome)
    requires CorePass(p) && p.mem.cluster == Running
    requires names.Some? ==> names.value != [] && BaseName(YtsaurusClient) !in names.value
    ensures var q := SaveUpdatingClusterState(p, f, names, o).pass; Core(q.stored, q.cluster)
  {}

  lemma RunningCore(p: Pass, v: View, spec: Spec, s: Survey, w: Outcomes, synced: Pass)
    requires |v.layout.httpProxies| > 0 && v.layout == spec.layout && SurveyOf(v, p.mem, AllComponents(v.layout)) == Some(s)
    requires CorePass(p) && p.mem.cluster == Running && Core(synced.stored, synced.cluster)
    ensures var q := DispatchOr(p, spec, s, w, synced); Core(q.stored, q.cluster)
  {
    if s.needUpdate != [] && Choose(spec.selector, spec.enableFullUpdate, s.needUpdate).Chosen? {
      var c := Choose(spec.selector, spec.enableFullUpdate, s.needUpdate);
      UpdateNeverNamesTheClient(v, p.mem, s, spec);
      StartCore(p, c.flow, c.names, w.first);
    }
  }

  lemma SettleCore(p: Pass, c: ClusterState, o: Outcome)
    requires p.mem == p.stored && p.mem.cluster in {Created, Initializing, Reconfiguration} && c != Updating
    requires PastInit(c) ==> p.mem.Done(ClientUser) && p.mem.Done(MasterDefault)
    ensures var q := SaveClusterState(p, c, o).pass; Core(q.stored, q.cluster)
  {}

  lemma ComingUpCore(p: Pass, v: View, spec: Spec, s: Survey, w: Outcomes, synced: Pass)
    requires |v.layout.httpProxies| > 0 && v.layout == spec.layout && SurveyOf(v, p.mem, AllComponents(v.layout)) == Some(s)
    requires p.mem.cluster in {Created, Initializing, Reconfiguration} && p.mem == p.stored && Core(synced.stored, synced.cluster)
    ensures var q := DispatchOr(p, spec, s, w, synced); Core(q.stored, q.cluster)
  {
    if p.mem.cluster == Created {
      SettleCore(p, Initializing, w.first);
    } else if if p.mem.cluster == Initializing then !s.needSync else !s.needInit {
      UpMeansInitialised(v, p.mem, s);
      SettleCore(p, Running, w.first);
    }
  }

  lemma StoredCore(p: Pass, o: Outcome)
    requires !SyncState(p.mem.cluster) || p.mem.cluster == Running
    requires p.mem.Done(ClientUser) && p.mem.Done(MasterDefault) && Core(p.stored, p.cluster)
    ensures var q := Store(p, o).pass; Core(q.stored, q.cluster) && q.mem == p.mem && q.cluster == p.cluster
  {}

  lemma ReturnCore(p: Pass, w: Outcomes)
    requires CorePass(p) && !SyncState(p.mem.cluster)
    ensures var q := ReturnToRunning(p, w); Core(q.stored, q.cluster)
  {
    StoredCore(p.(mem := p.mem.(update := p.mem.update.(state := StateNone))), w.first);
    var a := SaveUpdateState(p, StateNone, w.first).pass;
    StoredCore(a.(mem := a.mem.(update := Blank)), w.second);
    var b := ClearUpdateStatus(a, w.second).pass;
    StoredCore(b.(mem := b.mem.(cluster := Running)), w.third);
  }

  lemma SwitchCore(p: Pass, v: View, spec: Spec, s: Survey, w: Outcomes, synced: Pass)
    requires |v.layout.httpProxies| > 0 && v.layout == spec.layout
    requires p.mem.cluster != Updating ==> p.mem == p.stored && SurveyOf(v, p.mem, AllComponents(v.layout)) == Some(s)
    requires CorePass(p) && (SyncState(p.mem.cluster) ==> Core(synced.stored, synced.cluster))
    ensures var q := DispatchOr(p, spec, s, w, synced); Core(q.stored, q.cluster)
  {
    if p.mem.cluster == Updating {
      UpdatingCore(p, spec, s, w, synced);
    } else if p.mem.cluster == Running {
      RunningCore(p, v, spec, s, w, synced);
    } else if SyncState(p.mem.cluster) {
      ComingUpCore(p, v, spec, s, w, synced);
    } else {
      ReturnCore(p, w);
    }
  }

  lemma DispatchCore(p: Pass, v: View, spec: Spec, s: Survey, a: Answers)
    requires |v.layout.httpProxies| > 0 && v.layout == spec.layout
    requires p.mem.cluster != Updating ==> p.mem == p.stored && SurveyOf(v, p.mem, AllComponents(v.layout)) == Some(s)
    requires CorePass(p)
    ensures var q := Dispatch(p, spec, s, a); Core(q.stored, q.cluster)
  {
    if SyncState(p.mem.cluster) { SyncComponentsCore(p, spec, a); }
    SwitchCore(p, v, spec, s, a.writes, SyncComponents(p, spec, a));
  }

  lemma MarkedCore(l: Layout, st: Status, k: Cluster)
    requires Core(st, k)
    ensures Core(Marked(l, st), k) && (st.cluster != Updating ==> Marked(l, st) == st)
  {}

  lemma EnvCore(st: Status, k: Cluster, e: EnvEvent)
    requires Core(st, k)
    ensures Core(st, EnvStep(k, e))
  {}

  lemma NextCore(w: State, act: Label)
    requires Base(w.stored, w.cluster) && Core(w.stored, w.cluster)
    ensures Core(Next(w, act).stored, Next(w, act).cluster)
  {
    match act
    case Env(e) => EnvCore(w.stored, w.cluster, e);
    case PassWith(spec, a) =>
      if spec.managed && |spec.layout.httpProxies| > 0 && !a.fetchFails {
        var v := ViewOf(spec, w.cluster, a.surveyed, a);
        var s := SurveyOf(v, w.stored, AllComponents(spec.layout));
        if s.Some? {
          MarkedBase(spec.layout, w.stored, w.cluster);
          MarkedCore(spec.layout, w.stored, w.cluster);
          DispatchCore(Pass(Marked(spec.layout, w.stored), w.stored, w.cluster), v, spec, s.value, a);
        }
      }
  }

  /** In every run, over any layouts. */
  lemma {:induction false} RunCore(w: State, acts: seq<Label>)
    requires Initial(w)
    ensures var r := Run(w, acts); Base(r.stored, r.cluster) && Core(r.stored, r.cluster)
    decreases |acts|
  {
    RunBase(w, acts);
    if acts != [] {
      RunCore(w, acts[..|acts| - 1]);
      NextCore(Run(w, acts[..|acts| - 1]), acts[|acts| - 1]);
    }
  }
}
