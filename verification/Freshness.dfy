/** The restarted init jobs: an update counts the operations archive or the query tracker state as
    updated only after a job created in that very stage of this update has succeeded. */
module Freshness {
  import opened ClusterStatus
  import opened Components
  import opened World
  import opened Reconcile
  import opened Actions
  import opened Safety
  import opened Gates

  /** The two jobs that wait until the old object is gone before they run again. */
  predicate Restartable(j: JobId) { j == OpArchive || j == QTState }

  /** The jobs an update runs again. */
  predicate Watched(j: JobId) { Restartable(j) || j == ExitReadOnly }

  function Preparing(j: JobId): UpdateState { if j == OpArchive then OpArchivePreparing else QTStatePreparing }

  function Renewing(j: JobId): UpdateState {
    if j == OpArchive then OpArchiveUpdating else if j == QTState then QTStateUpdating else MasterExitingReadOnly
  }

  function PreparedFor(j: JobId): Condition {
    if j == OpArchive then OpArchivePreparedForUpdating
    else if j == QTState then QTStatePreparedForUpdating
    else MasterExitReadOnlyPrepared
  }

  function Renewed(j: JobId): Condition {
    if j == OpArchive then OpArchiveUpdated else if j == QTState then QTStateUpdated else MasterExitedReadOnly
  }

  /** Job object `uid` was created in the renewing stage of this update, and later succeeded. */
  ghost predicate Ran(log: seq<Event>, j: JobId, uid: nat) {
    exists i, n :: 0 <= i < n < |log| && log[i] == JobCreated(j, uid, Renewing(j)) && log[n] == JobSucceeded(j, uid)
  }

  ghost predicate SomeRan(log: seq<Event>, j: JobId) { exists uid :: Ran(log, j, uid) }

  ghost predicate FreshObject(log: seq<Event>, j: JobId, o: JobObject) {
    JobCreated(j, o.uid, Renewing(j)) in log && (o.succeeded ==> Ran(log, j, o.uid))
  }

  ghost predicate RestartOk(st: Status, k: Cluster, j: JobId) {
    var u := st.update;
    st.cluster == Updating ==>
      && (u.Has(PreparedFor(j)) ==> Rank(u.state) >= Rank(Preparing(j)))
      && (u.state == Preparing(j) && u.Has(PreparedFor(j)) ==> j !in k.jobs && st.MarkedUndone(j))
      && (u.state == Renewing(j) && j in k.jobs ==> FreshObject(k.log, j, k.jobs[j]))
      && (u.state == Renewing(j) && st.Done(j) ==> SomeRan(k.log, j))
      && (u.Has(Renewed(j)) ==> Rank(u.state) >= Rank(Renewing(j)) && SomeRan(k.log, j))
  }

  /** What the pass fetched at its start is still good enough to decide on. */
  ghost predicate FetchedOk(p: Pass, fetched: map<JobId, JobObject>, j: JobId) {
    && (p.mem.update.state == Preparing(j) && j !in fetched ==> j !in p.cluster.jobs)
    && (p.mem.update.state == Renewing(j) && j in fetched ==> FreshObject(p.cluster.log, j, fetched[j]))
  }

  ghost predicate JobsOk(p: Pass, fetched: map<JobId, JobObject>, j: JobId) {
    && RestartOk(p.mem, p.cluster, j) && RestartOk(p.stored, p.cluster, j) && FetchedOk(p, fetched, j)
    && p.mem.cluster == Updating && p.stored.cluster == Updating && Grew(p.stored.update, p.mem.update)
  }

  lemma RanGrows(log: seq<Event>, more: seq<Event>, j: JobId, uid: nat)
    requires Ran(log, j, uid) && log <= more
    ensures Ran(more, j, uid)
  {
    var i, n :| 0 <= i < n < |log| && log[i] == JobCreated(j, uid, Renewing(j)) && log[n] == JobSucceeded(j, uid);
    assert more[i] == log[i] && more[n] == log[n];
  }

  lemma FreshGrows(log: seq<Event>, more: seq<Event>, j: JobId)
    requires log <= more
    ensures SomeRan(log, j) ==> SomeRan(more, j)
    ensures forall o :: FreshObject(log, j, o) ==> FreshObject(more, j, o)
  {
    EventsKept(log, more);
    if SomeRan(log, j) {
      var uid :| Ran(log, j, uid);
      RanGrows(log, more, j, uid);
    }
    forall o | FreshObject(log, j, o) ensures FreshObject(more, j, o) {
      if o.succeeded { RanGrows(log, more, j, o.uid); }
    }
  }

  /** Job `j` and its three conditions are the same before and after. */
  ghost predicate Untouched(p: Pass, q: Pass, j: JobId) {
    && Framed(p, q)
    && (j in q.cluster.jobs <==> j in p.cluster.jobs)
    && (j in p.cluster.jobs ==> q.cluster.jobs[j] == p.cluster.jobs[j])
    && q.mem.Done(j) == p.mem.Done(j) && q.mem.MarkedUndone(j) == p.mem.MarkedUndone(j)
    && q.mem.update.Has(PreparedFor(j)) == p.mem.update.Has(PreparedFor(j))
    && q.mem.update.Has(Renewed(j)) == p.mem.update.Has(Renewed(j))
  }

  lemma UntouchedKeeps(p: Pass, q: Pass, fetched: map<JobId, JobObject>, j: JobId)
    requires Restartable(j) && JobsOk(p, fetched, j) && Untouched(p, q, j)
    ensures JobsOk(q, fetched, j)
  {
    FreshGrows(p.cluster.log, q.cluster.log, j);
  }

  // ----- the actions on the job itself -----

  lemma CreateFresh(p: Pass, fetched: map<JobId, JobObject>, j: JobId, o1: Outcome, o2: Outcome)
    requires Restartable(j) && JobsOk(p, fetched, j)
    requires p.mem.update.state != Preparing(j)
    ensures JobsOk(CreateJobStep(p, j, o1, o2).pass, fetched, j)
  {
    var q := CreateJobStep(p, j, o1, o2).pass;
    CreateJobQuiet(p, j, o1, o2);
    FreshGrows(p.cluster.log, q.cluster.log, j);
    if q.cluster.log != p.cluster.log {
      assert q.cluster.log[|p.cluster.log|] == JobCreated(j, q.cluster.jobs[j].uid, p.mem.update.state);
    }
  }

  lemma CompleteFresh(p: Pass, fetched: map<JobId, JobObject>, j: JobId)
    requires Restartable(j) && JobsOk(p, fetched, j) && j in fetched && fetched[j].succeeded
    requires p.mem.update.state != Preparing(j)
    ensures JobsOk(WithInitDone(p, j, true), fetched, j)
  {}

  lemma RestartFresh(p: Pass, v: View, j: JobId, o1: Outcome, o2: Outcome)
    requires Restartable(j) && JobsOk(p, v.jobs, j) && p.mem.update.state == Preparing(j)
    ensures JobsOk(PrepareRestartStep(p, v, j, o1, o2).pass, v.jobs, j)
  {
    RestartQuiet(p, v, j, o1, o2);
  }

  lemma NoteFresh(p: Pass, v: View, c: Component, j: JobId, cond: Condition)
    requires Restartable(j) && JobsOk(p, v.jobs, j) && SetsCondition(v, p.mem, c, cond)
    ensures JobsOk(p.Note(cond), v.jobs, j)
  {}

  // ----- every action -----

  lemma CreateOther(p: Pass, other: JobId, j: JobId, o1: Outcome, o2: Outcome)
    requires other != j
    ensures Untouched(p, CreateJobStep(p, other, o1, o2).pass, j)
  {
    CreateJobQuiet(p, other, o1, o2);
  }

  /** The object and the completion mark of job `j` are the same before and after. */
  predicate SameJob(p: Pass, q: Pass, j: JobId) {
    && (j in q.cluster.jobs <==> j in p.cluster.jobs)
    && (j in p.cluster.jobs ==> q.cluster.jobs[j] == p.cluster.jobs[j])
    && q.mem.Done(j) == p.mem.Done(j) && q.mem.MarkedUndone(j) == p.mem.MarkedUndone(j)
  }

  lemma RestartLeaves(p: Pass, v: View, other: JobId, j: JobId, o1: Outcome, o2: Outcome)
    requires other != j
    ensures SameJob(p, PrepareRestartStep(p, v, other, o1, o2).pass, j)
  {
    var s := RemoveConfigStep(p, v, other, o1);
    var t := RemoveJobStep(s.pass, v, other, o2);
    RemovalLeaves(s.pass, v, other, j, o2);
    UndoneLeaves(t.pass, other, j);
  }

  lemma RemovalLeaves(p: Pass, v: View, other: JobId, j: JobId, o: Outcome)
    requires other != j
    ensures SameJob(p, RemoveJobStep(p, v, other, o).pass, j)
  {
    var k := p.cluster;
    if other in k.jobs {
      var jobs := k.jobs[other := k.jobs[other].(terminating := true)];
      assert (j in jobs <==> j in k.jobs) && (j in k.jobs ==> jobs[j] == k.jobs[j]);
    }
  }

  lemma UndoneLeaves(p: Pass, other: JobId, j: JobId)
    requires other != j
    ensures SameJob(p, WithInitDone(p, other, false), j)
  {}

  lemma RestartOther(p: Pass, v: View, other: JobId, j: JobId, o1: Outcome, o2: Outcome)
    requires other != j
    ensures Untouched(p, PrepareRestartStep(p, v, other, o1, o2).pass, j)
  {
    RestartQuiet(p, v, other, o1, o2);
    RestartLeaves(p, v, other, j, o1, o2);
  }

  lemma NoteOther(p: Pass, q: Pass, j: JobId, cond: Condition)
    requires Untouched(p, q, j) && cond != PreparedFor(j) && cond != Renewed(j)
    ensures Untouched(p, q.Note(cond), j)
  {}

  lemma ExitOther(p: Pass, v: View, restart: bool, o1: Outcome, o2: Outcome, j: JobId)
    requires Restartable(j)
    ensures var s := if restart then PrepareRestartStep(p, v, ExitReadOnly, o1, o2) else Step(p, true);
      Untouched(p, Bind(s, s.pass.Note(MasterExitReadOnlyPrepared)).pass, j)
  {
    var s := if restart then PrepareRestartStep(p, v, ExitReadOnly, o1, o2) else Step(p, true);
    RestartOther(p, v, ExitReadOnly, j, o1, o2);
    NoteOther(p, s.pass, j, MasterExitReadOnlyPrepared);
  }

  lemma FinishOther(p: Pass, j: JobId)
    requires Restartable(j)
    ensures Untouched(p, p.(mem := p.mem.WithCondition(MasterExitedReadOnly, true).WithCondition(MasterExitReadOnlyPrepared, false)), j)
  {}

  lemma PodsOther(p: Pass, c: Component, gone: bool, o: Outcome, j: JobId)
    requires Watched(j)
    ensures Untouched(p, RemovePodsStep(p, c, gone, o).pass, j)
  {
    PodsQuiet(p, c, gone, o);
  }

  lemma SmallOther(p: Pass, v: View, c: Component, action: Action, b: (nat, nat), a: Answers, j: JobId)
    requires Watched(j)
    requires action == Nothing || action == WriteServer || action == CreateAuxiliary || action == InitQueueAgent
    ensures Untouched(p, Perform(p, v, c, action, b, a).pass, j)
  {}

  /** Actions that do not concern job `j` at all. */
  lemma OtherAction(p: Pass, v: View, c: Component, action: Action, b: (nat, nat), a: Answers, j: JobId)
    requires Restartable(j) && !action.CreateJob? && !action.CompleteJob? && !action.PrepareRestart?
    requires !action.SetCondition? && !action.InitQueryTracker? && action != InitBundles
    ensures Untouched(p, Perform(p, v, c, action, b, a).pass, j)
  {
    var o := a.CallsOf(c);
    match action
    case RemovePods => PodsOther(p, c, v.Of(c).podsGone, o.first, j);
    case PrepareExit(restart) => ExitOther(p, v, restart, o.first, o.second, j);
    case FinishExit => FinishOther(p, j);
    case HandleUpdatingState => ClientFrame(p, a.yt);
    case _ => SmallOther(p, v, c, action, b, a, j);
  }

  lemma CreateKeeps(p: Pass, v: View, c: Component, other: JobId, b: (nat, nat), a: Answers, j: JobId)
    requires Restartable(j) && JobsOk(p, v.jobs, j) && Allowed(v, p.mem, c, CreateJob(other))
    ensures JobsOk(Perform(p, v, c, CreateJob(other), b, a).pass, v.jobs, j)
  {
    var o := a.CallsOf(c);
    if other == j {
      CreateFresh(p, v.jobs, j, o.first, o.second);
    } else {
      CreateOther(p, other, j, o.first, o.second);
      UntouchedKeeps(p, CreateJobStep(p, other, o.first, o.second).pass, v.jobs, j);
    }
  }

  lemma CompleteKeeps(p: Pass, v: View, c: Component, other: JobId, b: (nat, nat), a: Answers, j: JobId)
    requires Restartable(j) && JobsOk(p, v.jobs, j) && Allowed(v, p.mem, c, CompleteJob(other))
    ensures JobsOk(Perform(p, v, c, CompleteJob(other), b, a).pass, v.jobs, j)
  {
    if other == j { CompleteFresh(p, v.jobs, j); } else { UntouchedKeeps(p, WithInitDone(p, other, true), v.jobs, j); }
  }

  lemma RestartKeeps(p: Pass, v: View, c: Component, other: JobId, b: (nat, nat), a: Answers, j: JobId)
    requires Restartable(j) && JobsOk(p, v.jobs, j) && Allowed(v, p.mem, c, PrepareRestart(other))
    ensures JobsOk(Perform(p, v, c, PrepareRestart(other), b, a).pass, v.jobs, j)
  {
    var o := a.CallsOf(c);
    if other == j {
      RestartFresh(p, v, j, o.first, o.second);
    } else {
      RestartOther(p, v, other, j, o.first, o.second);
      UntouchedKeeps(p, PrepareRestartStep(p, v, other, o.first, o.second).pass, v.jobs, j);
    }
  }

  lemma OrdinaryFresh(p: Pass, v: View, c: Component, action: Action, b: (nat, nat), a: Answers, j: JobId)
    requires Restartable(j) && JobsOk(p, v.jobs, j) && Allowed(v, p.mem, c, action) && !action.InitQueryTracker?
    requires !action.PrepareRestart? && !action.SetCondition? && action != InitBundles
    ensures JobsOk(Perform(p, v, c, action, b, a).pass, v.jobs, j)
  {
    match action
    case CreateJob(other) => CreateKeeps(p, v, c, other, b, a, j);
    case CompleteJob(other) => CompleteKeeps(p, v, c, other, b, a, j);
    case _ =>
      OtherAction(p, v, c, action, b, a, j);
      UntouchedKeeps(p, Perform(p, v, c, action, b, a).pass, v.jobs, j);
  }

  lemma QueryTrackerFresh(p: Pass, v: View, c: Component, next: Action, b: (nat, nat), a: Answers, j: JobId)
    requires Restartable(j) && JobsOk(p, v.jobs, j) && Allowed(v, p.mem, c, InitQueryTracker(next))
    ensures JobsOk(Perform(p, v, c, InitQueryTracker(next), b, a).pass, v.jobs, j)
  {
    var ready := p.(mem := p.mem.(queryTrackerReady := true));
    UntouchedKeeps(p, ready, v.jobs, j);
    if !a.clientMissing && a.CallsOf(c).third == Done { OrdinaryFresh(ready, v, c, next, b, a, j); }
  }

  lemma PerformFresh(p: Pass, v: View, c: Component, action: Action, b: (nat, nat), a: Answers, j: JobId)
    requires Restartable(j) && JobsOk(p, v.jobs, j) && Allowed(v, p.mem, c, action)
    ensures JobsOk(Perform(p, v, c, action, b, a).pass, v.jobs, j)
  {
    match action
    case PrepareRestart(other) => RestartKeeps(p, v, c, other, b, a, j);
    case SetCondition(cond) => NoteFresh(p, v, c, j, cond);
    case InitQueryTracker(next) => QueryTrackerFresh(p, v, c, next, b, a, j);
    case _ => OrdinaryFresh(p, v, c, action, b, a, j);
  }

  // ----- passes and runs -----

  lemma SyncOneFresh(p: Pass, spec: Spec, fetched: Cluster, a: Answers, c: Component, j: JobId)
    requires Restartable(j) && JobsOk(p, fetched.jobs, j) && |spec.layout.httpProxies| > 0
    ensures JobsOk(SyncOne(p, spec, fetched, a, c).pass, fetched.jobs, j)
  {
    var v := ViewOf(spec, fetched, a.synced, a);
    var d := Decide(v, p.mem, c);
    if d.Do? {
      DecisionsAreAllowed(v, p.mem, c);
      PerformFresh(p, v, c, d.action, spec.bootstrap, a, j);
    }
  }

  lemma {:induction false} SyncAllFresh(p: Pass, spec: Spec, fetched: Cluster, a: Answers, cs: seq<Component>, j: JobId)
    requires Restartable(j) && JobsOk(p, fetched.jobs, j) && |spec.layout.httpProxies| > 0
    ensures JobsOk(SyncAll(p, spec, fetched, a, cs).pass, fetched.jobs, j)
    decreases |cs|
  {
    if cs != [] {
      SyncOneFresh(p, spec, fetched, a, cs[0], j);
      var s := SyncOne(p, spec, fetched, a, cs[0]);
      if s.ok { SyncAllFresh(s.pass, spec, fetched, a, cs[1..], j); }
    }
  }

  lemma SyncComponentsFresh(p: Pass, spec: Spec, a: Answers, j: JobId)
    requires Restartable(j) && JobsOk(p, p.cluster.jobs, j) && |spec.layout.httpProxies| > 0
    ensures var q := SyncComponents(p, spec, a); RestartOk(q.stored, q.cluster, j)
  {
    SyncAllFresh(p, spec, p.cluster, a, AllComponents(spec.layout), j);
    StoreFresh(SyncAll(p, spec, p.cluster, a, AllComponents(spec.layout)), a.writes.first, p.cluster.jobs, j);
  }

  lemma StoreFresh(s: Step, o: Outcome, fetched: map<JobId, JobObject>, j: JobId)
    requires JobsOk(s.pass, fetched, j)
    ensures var q := if s.ok then Store(s.pass, o).pass else s.pass; RestartOk(q.stored, q.cluster, j)
  {}

  /** The renewing stage begins without a job object and with the job marked undone. */
  lemma MoveFresh(st: Status, k: Cluster, next: UpdateState, j: JobId)
    requires Restartable(j) && RestartOk(st, k, j) && st.cluster == Updating && Rank(next) > Rank(st.update.state)
    requires next == Renewing(j) ==> st.update.Has(PreparedFor(j))
    ensures RestartOk(st.(update := st.update.(state := next)), k, j)
  {}

  lemma UpdatingFresh(p: Pass, spec: Spec, s: Survey, w: Outcomes, synced: Pass, j: JobId)
    requires Restartable(j) && Syncing(p) && JobsOk(p, p.cluster.jobs, j) && RestartOk(synced.stored, synced.cluster, j)
    ensures var q := DispatchOr(p, spec, s, w, synced); RestartOk(q.stored, q.cluster, j)
  {
    match Advance(spec, p.mem, s)
    case Stay =>
    case ToUpdate(u) => AdvanceFresh(p.mem, p.cluster, spec, s, j);
    case ToCluster(_) => ExitsOfRoutes(spec, p.mem, s);
  }

  lemma AdvanceFresh(st: Status, k: Cluster, spec: Spec, s: Survey, j: JobId)
    requires Restartable(j) && st.cluster == Updating && Base(st, k) && RestartOk(st, k, j) && Advance(spec, st, s).ToUpdate?
    ensures RestartOk(st.(update := st.update.(state := Advance(spec, st, s).update)), k, j)
  {
    RouteAdvances(spec, st, s);
    EarnedAfterAdvances(spec, st, s);
    MoveFresh(st, k, Advance(spec, st, s).update, j);
  }

  /** Not updating, or an update that has just been stored: no stop reached, nothing noted. */
  predicate Unstarted(st: Status) {
    st.cluster == Updating ==> st.update.state == StateNone && st.update.conditions == map[]
  }

  lemma RunningStarts(p: Pass, spec: Spec, s: Survey, w: Outcomes, synced: Pass)
    requires PassBase(p) && p.mem.cluster == Running && synced.stored.cluster == Running
    ensures Unstarted(DispatchOr(p, spec, s, w, synced).stored)
  {}

  lemma SettlingStarts(p: Pass, spec: Spec, s: Survey, w: Outcomes, synced: Pass)
    requires PassBase(p) && p.mem.cluster in {Created, Initializing, Reconfiguration} && synced.stored.cluster == p.mem.cluster
    ensures Unstarted(DispatchOr(p, spec, s, w, synced).stored)
  {}

  lemma ReturnStarts(p: Pass, w: Outcomes)
    requires PassBase(p) && !SyncState(p.mem.cluster)
    ensures Unstarted(ReturnToRunning(p, w).stored)
  {}

  /** A pass outside an update at most starts one. */
  lemma OutsideStarts(p: Pass, spec: Spec, s: Survey, a: Answers)
    requires PassBase(p) && p.mem.cluster != Updating && |spec.layout.httpProxies| > 0
    ensures Unstarted(Dispatch(p, spec, s, a).stored)
  {
    if p.mem.cluster == Running {
      SyncElsewhere(p, spec, a);
      RunningStarts(p, spec, s, a.writes, SyncComponents(p, spec, a));
    } else if SyncState(p.mem.cluster) {
      SyncElsewhere(p, spec, a);
      SettlingStarts(p, spec, s, a.writes, SyncComponents(p, spec, a));
    } else {
      ReturnStarts(p, a.writes);
    }
  }

  lemma DispatchFresh(p: Pass, spec: Spec, s: Survey, a: Answers, j: JobId)
    requires Restartable(j) && PassBase(p) && RestartOk(p.mem, p.cluster, j) && RestartOk(p.stored, p.cluster, j)
    requires |spec.layout.httpProxies| > 0
    ensures var q := Dispatch(p, spec, s, a); RestartOk(q.stored, q.cluster, j)
  {
    if p.mem.cluster == Updating {
      SyncComponentsFresh(p, spec, a, j);
      UpdatingFresh(p, spec, s, a.writes, SyncComponents(p, spec, a), j);
    } else {
      OutsideStarts(p, spec, s, a);
      UnstartedFresh(Dispatch(p, spec, s, a), j);
    }
  }

  lemma UnstartedFresh(p: Pass, j: JobId)
    requires Restartable(j) && Unstarted(p.stored)
    ensures RestartOk(p.stored, p.cluster, j)
  {}

  lemma EnvFresh(st: Status, k: Cluster, e: EnvEvent, j: JobId)
    requires Restartable(j) && RestartOk(st, k, j)
    ensures RestartOk(st, EnvStep(k, e), j)
  {
    var k' := EnvStep(k, e);
    FreshGrows(k.log, k'.log, j);
    if e == JobSucceeds(j) && k' != k && JobCreated(j, k.jobs[j].uid, Renewing(j)) in k.log {
      var i :| 0 <= i < |k.log| && k.log[i] == JobCreated(j, k.jobs[j].uid, Renewing(j));
      assert k'.log[i] == k.log[i] && k'.log[|k.log|] == JobSucceeded(j, k.jobs[j].uid);
    }
  }

  lemma MarkedFresh(l: Layout, st: Status, k: Cluster, j: JobId)
    requires Restartable(j) && RestartOk(st, k, j)
    ensures RestartOk(Marked(l, st), k, j)
  {}

  lemma NextFresh(w: State, act: Label, j: JobId)
    requires Restartable(j) && Base(w.stored, w.cluster) && RestartOk(w.stored, w.cluster, j)
    ensures RestartOk(Next(w, act).stored, Next(w, act).cluster, j)
  {
    match act
    case Env(e) => EnvFresh(w.stored, w.cluster, e, j);
    case PassWith(spec, a) =>
      if spec.managed && |spec.layout.httpProxies| > 0 && !a.fetchFails {
        var s := SurveyOf(ViewOf(spec, w.cluster, a.surveyed, a), w.stored, AllComponents(spec.layout));
        if s.Some? {
          var p := Pass(Marked(spec.layout, w.stored), w.stored, w.cluster);
          MarkedBase(spec.layout, w.stored, w.cluster);
          MarkedFresh(spec.layout, w.stored, w.cluster, j);
          DispatchFresh(p, spec, s.value, a, j);
        }
      }
  }

  lemma {:induction false} RunFresh(w: State, acts: seq<Label>, j: JobId)
    requires Initial(w) && Restartable(j)
    ensures RestartOk(Run(w, acts).stored, Run(w, acts).cluster, j)
    decreases |acts|
  {
    if acts != [] {
      RunBase(w, acts[..|acts| - 1]);
      RunFresh(w, acts[..|acts| - 1], j);
      NextFresh(Run(w, acts[..|acts| - 1]), acts[|acts| - 1], j);
    }
  }

  /** Whatever was lost or left over before: once an update counts the operations archive or the
      query tracker state as updated, a job created in that stage of this very update has succeeded. */
  lemma UpdatedMeansFreshJobRan(w: State, acts: seq<Label>, j: JobId)
    requires Initial(w) && Restartable(j)
    ensures var r := Run(w, acts);
      r.stored.cluster == Updating && r.stored.update.Has(Renewed(j)) ==> SomeRan(r.cluster.log, j)
  {
    RunFresh(w, acts, j);
  }
}
