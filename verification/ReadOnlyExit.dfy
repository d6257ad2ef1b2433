/** The job that takes the masters out of read-only mode. Its preparation is noted in the very pass
    that starts to delete the old job, so an update may count an old run: exactly when a job object
    is still there once the preparation is stored. */
module ReadOnlyExit {
  import opened ClusterStatus
  import opened Components
  import opened World
  import opened FlowChoice
  import opened Reconcile
  import opened Actions
  import opened Safety
  import opened Initialised
  import opened Durable
  import opened Viability
  import opened Freshness
  import opened Rounds
  import opened Building
  import opened FairPasses
  import opened JobStages

  /** The stored preparation, before any new job has been created. */
  ghost predicate Prepared(w: State) {
    var u := w.stored.update;
    && w.stored.cluster == Updating && u.state == MasterExitingReadOnly
    && u.Has(MasterExitReadOnlyPrepared) && !u.Has(MasterExitedReadOnly) && !w.stored.Done(ExitReadOnly)
    && forall uid :: JobCreated(ExitReadOnly, uid, MasterExitingReadOnly) !in w.cluster.log
  }

  // ----- without an old object the run is fresh -----

  ghost predicate ExitOk(st: Status, k: Cluster) {
    var u := st.update;
    st.cluster == Updating ==>
      && Rank(u.state) >= 10
      && (u.state == MasterExitingReadOnly ==>
            && (u.Has(MasterExitReadOnlyPrepared) || u.Has(MasterExitedReadOnly))
            && (ExitReadOnly in k.jobs ==> FreshObject(k.log, ExitReadOnly, k.jobs[ExitReadOnly]))
            && (st.Done(ExitReadOnly) ==> SomeRan(k.log, ExitReadOnly)))
      && (u.Has(MasterExitedReadOnly) ==> SomeRan(k.log, ExitReadOnly))
  }

  ghost predicate ExitPassOk(p: Pass, fetched: map<JobId, JobObject>) {
    && ExitOk(p.mem, p.cluster) && ExitOk(p.stored, p.cluster)
    && p.mem.cluster == Updating && p.stored.cluster == Updating && Grew(p.stored.update, p.mem.update)
    && (p.mem.update.state == MasterExitingReadOnly ==> (ExitReadOnly in fetched ==>
          FreshObject(p.cluster.log, ExitReadOnly, fetched[ExitReadOnly])))
  }

  lemma UntouchedExit(p: Pass, q: Pass, fetched: map<JobId, JobObject>)
    requires ExitPassOk(p, fetched) && Untouched(p, q, ExitReadOnly)
    ensures ExitPassOk(q, fetched)
  {
    FreshGrows(p.cluster.log, q.cluster.log, ExitReadOnly);
  }

  lemma CreateExit(p: Pass, fetched: map<JobId, JobObject>, o1: Outcome, o2: Outcome)
    requires ExitPassOk(p, fetched)
    ensures ExitPassOk(CreateJobStep(p, ExitReadOnly, o1, o2).pass, fetched)
  {
    var q := CreateJobStep(p, ExitReadOnly, o1, o2).pass;
    CreateJobQuiet(p, ExitReadOnly, o1, o2);
    FreshGrows(p.cluster.log, q.cluster.log, ExitReadOnly);
    if q.cluster.log != p.cluster.log {
      assert q.cluster.log[|p.cluster.log|] == JobCreated(ExitReadOnly, q.cluster.jobs[ExitReadOnly].uid, p.mem.update.state);
    }
  }

  lemma CompleteExit(p: Pass, fetched: map<JobId, JobObject>)
    requires ExitPassOk(p, fetched) && ExitReadOnly in fetched && fetched[ExitReadOnly].succeeded
    requires p.mem.update.state == MasterExitingReadOnly
    ensures ExitPassOk(WithInitDone(p, ExitReadOnly, true), fetched)
  {}

  lemma RestartExit(p: Pass, v: View, o1: Outcome, o2: Outcome)
    requires ExitPassOk(p, v.jobs)
    ensures ExitPassOk(PrepareRestartStep(p, v, ExitReadOnly, o1, o2).pass, v.jobs)
  {
    RestartQuiet(p, v, ExitReadOnly, o1, o2);
  }

  lemma PrepareAgain(p: Pass, v: View, restart: bool, o1: Outcome, o2: Outcome)
    requires ExitPassOk(p, v.jobs)
    ensures var s := if restart then PrepareRestartStep(p, v, ExitReadOnly, o1, o2) else Step(p, true);
      ExitPassOk(Bind(s, s.pass.Note(MasterExitReadOnlyPrepared)).pass, v.jobs)
  {
    RestartExit(p, v, o1, o2);
    var s := if restart then PrepareRestartStep(p, v, ExitReadOnly, o1, o2) else Step(p, true);
    NotePrepared(s.pass, v.jobs);
  }

  lemma NotePrepared(p: Pass, fetched: map<JobId, JobObject>)
    requires ExitPassOk(p, fetched)
    ensures ExitPassOk(p.Note(MasterExitReadOnlyPrepared), fetched)
  {}

  lemma FinishedExit(p: Pass, fetched: map<JobId, JobObject>)
    requires ExitPassOk(p, fetched) && p.mem.update.state == MasterExitingReadOnly && p.mem.Done(ExitReadOnly)
    ensures ExitPassOk(p.(mem := p.mem.WithCondition(MasterExitedReadOnly, true).WithCondition(MasterExitReadOnlyPrepared, false)), fetched)
  {}

  lemma JobsExit(p: Pass, v: View, c: Component, action: Action, b: (nat, nat), a: Answers)
    requires ExitPassOk(p, v.jobs) && Allowed(v, p.mem, c, action) && (action.CreateJob? || action.CompleteJob? || action.PrepareRestart?)
    ensures ExitPassOk(Perform(p, v, c, action, b, a).pass, v.jobs)
  {
    var o := a.CallsOf(c);
    match action
    case CreateJob(j) =>
      if j == ExitReadOnly {
        CreateExit(p, v.jobs, o.first, o.second);
      } else {
        CreateOther(p, j, ExitReadOnly, o.first, o.second);
        UntouchedExit(p, CreateJobStep(p, j, o.first, o.second).pass, v.jobs);
      }
    case CompleteJob(j) =>
      if j == ExitReadOnly { CompleteExit(p, v.jobs); } else { UntouchedExit(p, WithInitDone(p, j, true), v.jobs); }
    case PrepareRestart(j) =>
      RestartOther(p, v, j, ExitReadOnly, o.first, o.second);
      UntouchedExit(p, PrepareRestartStep(p, v, j, o.first, o.second).pass, v.jobs);
    case _ =>
  }

  lemma RestUntouched(p: Pass, v: View, c: Component, action: Action, b: (nat, nat), a: Answers)
    requires action in {RemovePods, HandleUpdatingState, Nothing, WriteServer, CreateAuxiliary, InitQueueAgent}
    ensures Untouched(p, Perform(p, v, c, action, b, a).pass, ExitReadOnly)
  {
    match action
    case RemovePods => PodsOther(p, c, v.Of(c).podsGone, a.CallsOf(c).first, ExitReadOnly);
    case HandleUpdatingState => ClientFrame(p, a.yt);
    case _ => SmallOther(p, v, c, action, b, a, ExitReadOnly);
  }

  lemma {:induction false} PerformExit(p: Pass, v: View, c: Component, action: Action, b: (nat, nat), a: Answers)
    requires ExitPassOk(p, v.jobs) && Allowed(v, p.mem, c, action)
    ensures ExitPassOk(Perform(p, v, c, action, b, a).pass, v.jobs)
    decreases action
  {
    var o := a.CallsOf(c);
    match action
    case CreateJob(_) => JobsExit(p, v, c, action, b, a);
    case CompleteJob(_) => JobsExit(p, v, c, action, b, a);
    case PrepareRestart(_) => JobsExit(p, v, c, action, b, a);
    case PrepareExit(restart) => PrepareAgain(p, v, restart, o.first, o.second);
    case FinishExit => FinishedExit(p, v.jobs);
    case SetCondition(cond) =>
      NoteOther(p, p, ExitReadOnly, cond);
      UntouchedExit(p, p.Note(cond), v.jobs);
    case InitQueryTracker(next) =>
      var q := p.(mem := p.mem.(queryTrackerReady := true));
      UntouchedExit(p, q, v.jobs);
      if !a.clientMissing && o.third == Done { PerformExit(q, v, c, next, b, a); }
    case _ =>
      RestUntouched(p, v, c, action, b, a);
      UntouchedExit(p, Perform(p, v, c, action, b, a).pass, v.jobs);
  }

  lemma SyncOneExit(p: Pass, spec: Spec, fetched: Cluster, a: Answers, c: Component)
    requires ExitPassOk(p, fetched.jobs) && |spec.layout.httpProxies| > 0
    ensures ExitPassOk(SyncOne(p, spec, fetched, a, c).pass, fetched.jobs)
  {
    var v := ViewOf(spec, fetched, a.synced, a);
    var d := Decide(v, p.mem, c);
    if d.Do? {
      DecisionsAreAllowed(v, p.mem, c);
      PerformExit(p, v, c, d.action, spec.bootstrap, a);
    }
  }

  lemma {:induction false} SyncAllExit(p: Pass, spec: Spec, fetched: Cluster, a: Answers, cs: seq<Component>)
    requires ExitPassOk(p, fetched.jobs) && |spec.layout.httpProxies| > 0
    ensures ExitPassOk(SyncAll(p, spec, fetched, a, cs).pass, fetched.jobs)
    decreases |cs|
  {
    if cs != [] {
      SyncOneExit(p, spec, fetched, a, cs[0]);
      var s := SyncOne(p, spec, fetched, a, cs[0]);
      if s.ok { SyncAllExit(s.pass, spec, fetched, a, cs[1..]); }
    }
  }

  lemma StoreExit(s: Step, o: Outcome, fetched: map<JobId, JobObject>)
    requires ExitPassOk(s.pass, fetched)
    ensures var q := if s.ok then Store(s.pass, o).pass else s.pass; ExitOk(q.stored, q.cluster)
  {}

  lemma SyncComponentsExit(p: Pass, spec: Spec, a: Answers)
    requires ExitPassOk(p, p.cluster.jobs) && |spec.layout.httpProxies| > 0
    ensures var q := SyncComponents(p, spec, a); ExitOk(q.stored, q.cluster)
  {
    SyncAllExit(p, spec, p.cluster, a, AllComponents(spec.layout));
    StoreExit(SyncAll(p, spec, p.cluster, a, AllComponents(spec.layout)), a.writes.first, p.cluster.jobs);
  }

  lemma UpdatingExit(p: Pass, spec: Spec, s: Survey, w: Outcomes, synced: Pass)
    requires Syncing(p) && ExitPassOk(p, p.cluster.jobs) && ExitOk(synced.stored, synced.cluster)
    ensures var q := DispatchOr(p, spec, s, w, synced); ExitOk(q.stored, q.cluster)
  {
    match Advance(spec, p.mem, s)
    case Stay =>
    case ToUpdate(u) =>
      RouteAdvances(spec, p.mem, s);
      MoveExit(p.mem, p.cluster, u);
    case ToCluster(_) => ExitsOfRoutes(spec, p.mem, s);
  }

  lemma MoveExit(st: Status, k: Cluster, next: UpdateState)
    requires ExitOk(st, k) && st.cluster == Updating && Rank(next) > Rank(st.update.state)
    ensures ExitOk(st.(update := st.update.(state := next)), k)
  {}

  lemma EnvExit(st: Status, k: Cluster, e: EnvEvent)
    requires ExitOk(st, k)
    ensures ExitOk(st, EnvStep(k, e))
  {
    var k', j := EnvStep(k, e), ExitReadOnly;
    FreshGrows(k.log, k'.log, j);
    if e == JobSucceeds(j) && k' != k && JobCreated(j, k.jobs[j].uid, Renewing(j)) in k.log {
      var i :| 0 <= i < |k.log| && k.log[i] == JobCreated(j, k.jobs[j].uid, Renewing(j));
      assert k'.log[i] == k.log[i] && k'.log[|k.log|] == JobSucceeded(j, k.jobs[j].uid);
    }
  }

  lemma MarkedExit(l: Layout, w: State)
    requires ExitOk(w.stored, w.cluster) && w.stored.cluster == Updating
    ensures ExitPassOk(Pass(Marked(l, w.stored), w.stored, w.cluster), w.cluster.jobs)
  {}

  lemma DispatchExit(p: Pass, spec: Spec, s: Survey, a: Answers)
    requires Syncing(p) && ExitPassOk(p, p.cluster.jobs) && |spec.layout.httpProxies| > 0
    ensures var q := Dispatch(p, spec, s, a); ExitOk(q.stored, q.cluster)
  {
    SyncComponentsExit(p, spec, a);
    UpdatingExit(p, spec, s, a.writes, SyncComponents(p, spec, a));
  }

  lemma NextExit(w: State, act: Label)
    requires Base(w.stored, w.cluster) && w.stored.cluster == Updating && ExitOk(w.stored, w.cluster)
    ensures ExitOk(Next(w, act).stored, Next(w, act).cluster)
  {
    match act
    case Env(e) => EnvExit(w.stored, w.cluster, e);
    case PassWith(spec, a) =>
      if spec.managed && |spec.layout.httpProxies| > 0 && !a.fetchFails {
        var s := SurveyOf(ViewOf(spec, w.cluster, a.surveyed, a), w.stored, AllComponents(spec.layout));
        if s.Some? {
          MarkedBase(spec.layout, w.stored, w.cluster);
          MarkedExit(spec.layout, w);
          DispatchExit(Pass(Marked(spec.layout, w.stored), w.stored, w.cluster), spec, s.value, a);
        }
      }
  }

  lemma {:induction false} RunExit(w: State, acts: seq<Label>)
    requires Base(w.stored, w.cluster) && ExitOk(w.stored, w.cluster) && WithinUpdate(w, acts)
    ensures var r := Run(w, acts); Base(r.stored, r.cluster) && ExitOk(r.stored, r.cluster)
    decreases |acts|
  {
    if acts != [] {
      var front := acts[..|acts| - 1];
      WithinFront(w, acts);
      RunExit(w, front);
      NextBase(Run(w, front), acts[|acts| - 1]);
      NextExit(Run(w, front), acts[|acts| - 1]);
    }
  }

  // ----- with an old object the run may be stale -----

  lemma HoldsUntilExited(spec: Spec, st: Status, s: Survey)
    requires st.cluster == Updating && RouteOk(st) && st.update.state == MasterExitingReadOnly && !st.update.Has(MasterExitedReadOnly)
    ensures Advance(spec, st, s) == Stay
  {}

  /** Both passes of the stale run: the old job counts as completed, then as the exit. */
  lemma StalePass(l: Layout, since: nat, w: State, spec: Spec, a: Answers, d: Decision, q: Pass)
    requires Fair(l, since, w, spec, a) && w.stored.update.state == MasterExitingReadOnly && !w.stored.update.Has(MasterExitedReadOnly)
    requires ClientHasSecret(w, spec, a)
    requires DecideExitReadOnly(Seen(w, spec, a), w.stored) == d && d.Do? && (d.status == Pending || d.status == SyncUpdating)
    requires Perform(Start(l, w), Seen(w, spec, a), Single(Master), d.action, spec.bootstrap, a) == Step(q, true)
    ensures RunPass(w, spec, a) == State(q.mem, q.cluster)
  {
    StaysAtExit(l, since, w, spec, a);
    Members(l);
    ActorNearer(l, since, w, spec, a, Single(Master), d, q);
  }

  lemma StaysAtExit(l: Layout, since: nat, w: State, spec: Spec, a: Answers)
    requires Fair(l, since, w, spec, a) && w.stored.update.state == MasterExitingReadOnly && !w.stored.update.Has(MasterExitedReadOnly)
    ensures var r := SyncComponents(Start(l, w), spec, a); RunPass(w, spec, a) == State(r.stored, r.cluster)
  {
    var s := MovesOrStays(l, since, w, spec, a);
    HoldsUntilExited(spec, w.stored, s);
  }

  lemma CompletesOld(p: Pass, v: View, b: (nat, nat), a: Answers)
    requires p.mem.update.Has(MasterExitReadOnlyPrepared) && !p.mem.Done(ExitReadOnly)
    requires ExitReadOnly in v.jobs && v.jobs[ExitReadOnly].succeeded
    ensures DecideExitReadOnly(v, p.mem) == Do(Pending, CompleteJob(ExitReadOnly))
    ensures Perform(p, v, Single(Master), CompleteJob(ExitReadOnly), b, a) == Step(WithInitDone(p, ExitReadOnly, true), true)
  {}

  lemma StaleCompletes(l: Layout, since: nat, w: State, spec: Spec, a: Answers)
    requires Fair(l, since, w, spec, a) && ClientHasSecret(w, spec, a) && Prepared(w)
    requires ExitReadOnly in w.cluster.jobs && w.cluster.jobs[ExitReadOnly].succeeded
    ensures RunPass(w, spec, a) == w.(stored := w.stored.(initDone := w.stored.initDone[ExitReadOnly := true]))
  {
    var q := WithInitDone(Start(l, w), ExitReadOnly, true);
    CompletesOld(Start(l, w), Seen(w, spec, a), spec.bootstrap, a);
    StalePass(l, since, w, spec, a, Do(Pending, CompleteJob(ExitReadOnly)), q);
  }

  function Exited(st: Status): Status {
    st.WithCondition(MasterExitedReadOnly, true).WithCondition(MasterExitReadOnlyPrepared, false)
  }

  lemma FinishesExit(p: Pass, v: View, b: (nat, nat), a: Answers)
    requires p.mem.update.Has(MasterExitReadOnlyPrepared) && p.mem.Done(ExitReadOnly)
    ensures DecideExitReadOnly(v, p.mem) == Do(SyncUpdating, FinishExit)
    ensures Perform(p, v, Single(Master), FinishExit, b, a) == Step(p.(mem := Exited(p.mem)), true)
  {}

  lemma StaleFinishes(l: Layout, since: nat, w: State, spec: Spec, a: Answers)
    requires Fair(l, since, w, spec, a) && w.stored.update.state == MasterExitingReadOnly && !w.stored.update.Has(MasterExitedReadOnly)
    requires w.stored.update.Has(MasterExitReadOnlyPrepared) && w.stored.Done(ExitReadOnly) && ClientHasSecret(w, spec, a)
    ensures RunPass(w, spec, a) == w.(stored := Exited(w.stored))
  {
    var q := Start(l, w).(mem := Exited(w.stored));
    FinishesExit(Start(l, w), Seen(w, spec, a), spec.bootstrap, a);
    StalePass(l, since, w, spec, a, Do(SyncUpdating, FinishExit), q);
  }

  lemma OneMoreStep(w: State, acts: seq<Label>, act: Label, to: State)
    requires WithinUpdate(w, acts) && Run(w, acts + [act]) == to && to.stored.cluster == Updating
    ensures WithinUpdate(w, acts + [act])
  {
    var all := acts + [act];
    forall n | 0 <= n <= |all| ensures Run(w, all[..n]).stored.cluster == Updating {
      assert all[..n] == if n <= |acts| then acts[..n] else all;
    }
  }

  lemma ThreeSteps(w: State, a: Label, b: Label, c: Label, one: State, two: State, three: State) returns (acts: seq<Label>)
    requires one == Next(w, a) && two == Next(one, b) && three == Next(two, c)
    requires w.stored.cluster == Updating && one.stored.cluster == Updating
    requires two.stored.cluster == Updating && three.stored.cluster == Updating
    ensures WithinUpdate(w, acts) && Run(w, acts) == three
  {
    RunStep(w, [], a);
    RunStep(w, [] + [a], b);
    RunStep(w, [] + [a] + [b], c);
    OneMoreStep(w, [], a, one);
    OneMoreStep(w, [] + [a], b, two);
    OneMoreStep(w, [] + [a] + [b], c, three);
    acts := [] + [a] + [b] + [c];
  }

  lemma NobodyRan(log: seq<Event>)
    requires forall uid :: JobCreated(ExitReadOnly, uid, MasterExitingReadOnly) !in log
    ensures !SomeRan(log, ExitReadOnly)
  {
    forall uid ensures !Ran(log, ExitReadOnly, uid) {
      assert JobCreated(ExitReadOnly, uid, MasterExitingReadOnly) !in log;
    }
  }

  /** The old job finishes, if it has not yet, and is still there when the pass looks. */
  lemma OldJobSucceeds(l: Layout, w: State) returns (r: State)
    requires Good(l, w) && Prepared(w) && ExitReadOnly in w.cluster.jobs
    ensures r == Next(w, Env(JobSucceeds(ExitReadOnly)))
    ensures Good(l, r) && Prepared(r) && ExitReadOnly in r.cluster.jobs && r.cluster.jobs[ExitReadOnly].succeeded
  {
    var e := JobSucceeds(ExitReadOnly);
    r := Next(w, Env(e));
    EnvBase(w.stored, w.cluster, e);
    EnvCore(w.stored, w.cluster, e);
    forall uid ensures JobCreated(ExitReadOnly, uid, MasterExitingReadOnly) !in r.cluster.log {
      assert JobCreated(ExitReadOnly, uid, MasterExitingReadOnly) !in w.cluster.log;
    }
  }

  lemma OldJobCounts(l: Layout, w: State, spec: Spec) returns (a: Answers, r: State)
    requires Good(l, w) && Prepared(w) && spec.managed && spec.layout == l
    requires ExitReadOnly in w.cluster.jobs && w.cluster.jobs[ExitReadOnly].succeeded
    ensures r == RunPass(w, spec, a) && Good(l, r)
    ensures r == w.(stored := w.stored.(initDone := w.stored.initDone[ExitReadOnly := true]))
  {
    a := FavourableAnswersExist(l, 0, w);
    r := RunPass(w, spec, a);
    StaleCompletes(l, 0, w, spec, a);
    NextBase(w, PassWith(spec, a));
    NextCore(w, PassWith(spec, a));
    NextViable(l, w, PassWith(spec, a));
  }

  lemma OldJobExits(l: Layout, w: State, spec: Spec) returns (a: Answers, r: State)
    requires Good(l, w) && spec.managed && spec.layout == l && w.stored.cluster == Updating
    requires w.stored.update.state == MasterExitingReadOnly && !w.stored.update.Has(MasterExitedReadOnly)
    requires w.stored.update.Has(MasterExitReadOnlyPrepared) && w.stored.Done(ExitReadOnly)
    ensures r == RunPass(w, spec, a) && r == w.(stored := Exited(w.stored))
  {
    a := FavourableAnswersExist(l, 0, w);
    StaleFinishes(l, 0, w, spec, a);
    r := w.(stored := Exited(w.stored));
  }

  /** An old object can always be taken for the new run. */
  lemma StaleRun(l: Layout, w: State) returns (acts: seq<Label>)
    requires Good(l, w) && Prepared(w) && ExitReadOnly in w.cluster.jobs
    ensures WithinUpdate(w, acts)
    ensures var r := Run(w, acts); r.stored.update.Has(MasterExitedReadOnly) && !SomeRan(r.cluster.log, ExitReadOnly)
  {
    var act, one, a, two, b, three := OldJobAnswers(l, w);
    acts := ThreeSteps(w, act, a, b, one, two, three);
  }

  lemma OldJobAnswers(l: Layout, w: State) returns (act: Label, one: State, a: Label, two: State, b: Label, three: State)
    requires Good(l, w) && Prepared(w) && ExitReadOnly in w.cluster.jobs
    ensures one == Next(w, act) && two == Next(one, a) && three == Next(two, b)
    ensures one.stored.cluster == Updating && two.stored.cluster == Updating && three.stored.cluster == Updating
    ensures three.stored.update.Has(MasterExitedReadOnly) && !SomeRan(three.cluster.log, ExitReadOnly)
  {
    var spec := Spec(true, l, Unspecified, false, (0, 0));
    one := OldJobSucceeds(l, w);
    var first, second;
    first, two := OldJobCounts(l, one, spec);
    second, three := OldJobExits(l, two, spec);
    NobodyRan(one.cluster.log);
    act, a, b := Env(JobSucceeds(ExitReadOnly)), PassWith(spec, first), PassWith(spec, second);
  }

  lemma FreshIff(l: Layout, w: State)
    requires Good(l, w) && Prepared(w)
    ensures ExitReadOnly !in w.cluster.jobs <==>
      forall acts :: WithinUpdate(w, acts) && Run(w, acts).stored.update.Has(MasterExitedReadOnly)
        ==> SomeRan(Run(w, acts).cluster.log, ExitReadOnly)
  {
    if ExitReadOnly in w.cluster.jobs {
      var acts := StaleRun(l, w);
    } else {
      forall acts | WithinUpdate(w, acts) && Run(w, acts).stored.update.Has(MasterExitedReadOnly)
        ensures SomeRan(Run(w, acts).cluster.log, ExitReadOnly)
      {
        RunExit(w, acts);
        assert acts[..|acts|] == acts;
      }
    }
  }

  /** In every run in which the preparation has just been stored: the exit counted by this update is a
      run of this update, however things go on, if and only if no job object is left. */
  lemma ExitIsFreshIff(w: State, acts: seq<Label>)
    requires Initial(w) && Prepared(Run(w, acts))
    ensures var r := Run(w, acts); ExitReadOnly !in r.cluster.jobs <==>
      forall more :: WithinUpdate(r, more) && Run(r, more).stored.update.Has(MasterExitedReadOnly)
        ==> SomeRan(Run(r, more).cluster.log, ExitReadOnly)
  {
    RunCore(w, acts);
    FreshIff(Layout(["default"], [], [], [], [], [], false, false, false, false, false, false, false, false, false), Run(w, acts));
  }

  lemma PrepareStep(p: Pass, v: View, b: (nat, nat), a: Answers) returns (q: Pass)
    requires v.jobs == p.cluster.jobs && v.jobConfigs == p.cluster.jobConfigs && a.CallsOf(Single(Master)) == AllDone
    ensures Perform(p, v, Single(Master), PrepareExit(!RestartPrepared(v, p.mem, ExitReadOnly)), b, a) == Step(q, true)
    ensures q.mem.update == p.mem.update.With(MasterExitReadOnlyPrepared, true) && q.mem.cluster == p.mem.cluster
    ensures !q.mem.Done(ExitReadOnly) && q.cluster.log == p.cluster.log
    ensures ExitReadOnly in q.cluster.jobs <==> ExitReadOnly in p.cluster.jobs
  {
    var s := Perform(p, v, Single(Master), PrepareExit(!RestartPrepared(v, p.mem, ExitReadOnly)), b, a);
    RestartSucceeds(p, v, ExitReadOnly);
    q := s.pass;
  }

  /** The master acts, then the client may make its secret, and everyone else rests. */
  lemma OnlyMasterAndClient(l: Layout, since: nat, w: State, spec: Spec, a: Answers, q: Pass, r: Pass)
    requires Fair(l, since, w, spec, a) && w.stored.update.state == MasterExitingReadOnly
    requires SyncOne(Start(l, w), spec, w.cluster, a, Single(Master)) == Step(q, true)
    requires SyncOne(q, spec, w.cluster, a, Single(YtsaurusClient)) == Step(r, true) && r.mem == q.mem
    ensures SyncAll(Start(l, w), spec, w.cluster, a, AllComponents(l)) == Step(r, true)
  {
    var cs := AllComponents(l);
    ClientIsThird(l);
    var same := BeforeTheClient(l, since, w, spec, a, cs);
    assert cs[2..][0] == cs[2] && cs[2..][1..] == cs[3..];
    SyncAllInTurn(q, spec, w.cluster, a, cs[2..]);
    OthersRest(l, since, w, spec, a, r, cs);
  }

  lemma OthersRest(l: Layout, since: nat, w: State, spec: Spec, a: Answers, r: Pass, cs: seq<Component>)
    requires Fair(l, since, w, spec, a) && r.mem.cluster == Updating && r.mem.update.state == MasterExitingReadOnly
    requires cs == AllComponents(l) && |cs| > 2
    ensures SyncAll(r, spec, w.cluster, a, cs[3..]) == Step(r, true)
  {
    MasterAndClientOnce(l);
    forall i | 3 <= i < |cs| ensures Idle(r, spec, w.cluster, a, cs[i]) { RestsAtExit(l, since, w, spec, a, r, cs[i]); }
    AllIdle(r, spec, w.cluster, a, cs[3..]);
  }

  lemma RestsAtExit(l: Layout, since: nat, w: State, spec: Spec, a: Answers, r: Pass, c: Component)
    requires Fair(l, since, w, spec, a) && r.mem.cluster == Updating && r.mem.update.state == MasterExitingReadOnly
    requires c.kind != Master && c.kind != YtsaurusClient
    ensures Idle(r, spec, w.cluster, a, c)
  {
    RestingIsIdle(l, since, w, spec, a, r, c);
  }

  lemma MasterAndClientOnce(l: Layout)
    ensures var cs := AllComponents(l); forall i :: 3 <= i < |cs| ==> cs[i].kind != Master && cs[i].kind != YtsaurusClient
  {
    ClientIsThird(l);
    var master := Sole(l, Single(Master));
    var client := Sole(l, Single(YtsaurusClient));
  }

  lemma ClientAtExit(l: Layout, since: nat, w: State, spec: Spec, a: Answers, q: Pass) returns (r: Pass)
    requires Fair(l, since, w, spec, a) && q.mem.cluster == Updating && q.mem.update.state == MasterExitingReadOnly && q.mem.Done(ClientUser)
    ensures SyncOne(q, spec, w.cluster, a, Single(YtsaurusClient)) == Step(r, true)
    ensures r.mem == q.mem && r.cluster == q.cluster.(log := r.cluster.log) && AddsNoJob(q.cluster.log, r.cluster.log)
  {
    r := q;
    if ClientHasSecret(w, spec, a) {
      ClientIdles(q, spec, w.cluster, a, Master);
    } else {
      r := SecretAtExit(q, spec, w.cluster, a);
    }
  }

  lemma SecretAtExit(q: Pass, spec: Spec, fetched: Cluster, a: Answers) returns (r: Pass)
    requires |spec.layout.httpProxies| > 0 && a.checked == a.surveyed && a.synced == a.surveyed
    requires forall n :: n in a.calls ==> a.calls[n] == AllDone
    requires q.mem.cluster == Updating && q.mem.update.state == MasterExitingReadOnly
    requires ViewOf(spec, fetched, a.surveyed, a).Of(Single(YtsaurusClient)).secretMissing
    ensures SyncOne(q, spec, fetched, a, Single(YtsaurusClient)) == Step(r, true)
    ensures r.mem == q.mem && r.cluster == q.cluster.(log := r.cluster.log) && AddsNoJob(q.cluster.log, r.cluster.log)
  {
    AllCallsDone(a, Single(YtsaurusClient));
    ClientMakesSecret(q, spec, fetched, a);
    r := q.(cluster := q.cluster.Log(AuxiliaryCreated(Single(YtsaurusClient), q.mem.update.state)));
  }

  ghost predicate AddsNoJob(log: seq<Event>, more: seq<Event>) { forall e :: e in more && e.JobCreated? ==> e in log }

  /** A pass at the exit leaves what the master did, and perhaps a new secret of the client. */
  lemma AtExitPass(l: Layout, since: nat, w: State, spec: Spec, a: Answers, d: Decision, q: Pass) returns (r: Pass)
    requires Fair(l, since, w, spec, a) && w.stored.update.state == MasterExitingReadOnly && !w.stored.update.Has(MasterExitedReadOnly)
    requires DecideExitReadOnly(Seen(w, spec, a), w.stored) == d && d.Do? && (d.status == Pending || d.status == SyncUpdating)
    requires Perform(Start(l, w), Seen(w, spec, a), Single(Master), d.action, spec.bootstrap, a) == Step(q, true)
    ensures RunPass(w, spec, a) == State(r.mem, r.cluster)
    ensures r.mem == q.mem && r.cluster == q.cluster.(log := r.cluster.log) && AddsNoJob(q.cluster.log, r.cluster.log)
  {
    r := SyncedAtExit(l, since, w, spec, a, d, q);
    StayedAtExit(l, since, w, spec, a, r);
  }

  lemma SyncedAtExit(l: Layout, since: nat, w: State, spec: Spec, a: Answers, d: Decision, q: Pass) returns (r: Pass)
    requires Fair(l, since, w, spec, a) && w.stored.update.state == MasterExitingReadOnly
    requires DecideExitReadOnly(Seen(w, spec, a), w.stored) == d && d.Do? && (d.status == Pending || d.status == SyncUpdating)
    requires Perform(Start(l, w), Seen(w, spec, a), Single(Master), d.action, spec.bootstrap, a) == Step(q, true)
    ensures SyncAll(Start(l, w), spec, w.cluster, a, AllComponents(l)) == Step(r, true)
    ensures r.mem == q.mem && r.cluster == q.cluster.(log := r.cluster.log) && AddsNoJob(q.cluster.log, r.cluster.log)
  {
    Members(l);
    ActorKeeps(l, since, w, spec, a, Single(Master), d, q);
    r := ClientAtExit(l, since, w, spec, a, q);
    OnlyMasterAndClient(l, since, w, spec, a, q, r);
  }

  /** The preparing pass stores the preparation and leaves a job object exactly if it found one. */
  lemma PreparationLeavesTheObject(l: Layout, since: nat, w: State, spec: Spec, a: Answers)
    requires Fair(l, since, w, spec, a) && w.stored.update.state == MasterExitingReadOnly && !w.stored.update.Has(MasterExitedReadOnly)
    requires !w.stored.update.Has(MasterExitReadOnlyPrepared)
    requires forall uid :: JobCreated(ExitReadOnly, uid, MasterExitingReadOnly) !in w.cluster.log
    ensures var r := RunPass(w, spec, a); Prepared(r) && (ExitReadOnly in r.cluster.jobs <==> ExitReadOnly in w.cluster.jobs)
  {
    var v := Seen(w, spec, a);
    AllCallsDone(a, Single(Master));
    var q := PrepareStep(Start(l, w), v, spec.bootstrap, a);
    var r := AtExitPass(l, since, w, spec, a, Do(SyncUpdating, PrepareExit(!RestartPrepared(v, w.stored, ExitReadOnly))), q);
    StillPrepared(w, q, r);
  }

  lemma StayedAtExit(l: Layout, since: nat, w: State, spec: Spec, a: Answers, r: Pass)
    requires Fair(l, since, w, spec, a) && w.stored.update.state == MasterExitingReadOnly && !w.stored.update.Has(MasterExitedReadOnly)
    requires SyncAll(Start(l, w), spec, w.cluster, a, AllComponents(l)) == Step(r, true)
    ensures RunPass(w, spec, a) == State(r.mem, r.cluster)
  {
    StaysAtExit(l, since, w, spec, a);
    SyncAllKept(Start(l, w), spec, w.cluster, a, AllComponents(l));
    StayedPass(l, w, spec, a, r);
  }

  lemma StillPrepared(w: State, q: Pass, r: Pass)
    requires w.stored.cluster == Updating && w.stored.update.state == MasterExitingReadOnly && !w.stored.update.Has(MasterExitedReadOnly)
    requires forall uid :: JobCreated(ExitReadOnly, uid, MasterExitingReadOnly) !in w.cluster.log
    requires q.mem.update == w.stored.update.With(MasterExitReadOnlyPrepared, true) && q.mem.cluster == w.stored.cluster
    requires !q.mem.Done(ExitReadOnly) && q.cluster.log == w.cluster.log
    requires r.mem == q.mem && r.cluster == q.cluster.(log := r.cluster.log) && AddsNoJob(q.cluster.log, r.cluster.log)
    ensures Prepared(State(r.mem, r.cluster))
  {
    forall uid ensures JobCreated(ExitReadOnly, uid, MasterExitingReadOnly) !in r.cluster.log {
      assert JobCreated(ExitReadOnly, uid, MasterExitingReadOnly) !in w.cluster.log;
    }
  }
}
