/** Stages of one component that restarts and runs an init job: every favourable pass takes the job
    one step further. */
module JobStages {
  import opened ClusterStatus
  import opened Components
  import opened World
  import opened Reconcile
  import opened Actions
  import opened Safety
  import opened Gates
  import opened Readiness
  import opened Names
  import opened Initialised
  import opened Durable
  import opened Viability
  import opened Rounds
  import opened Building
  import opened FairPasses

  // ----- leaving read-only mode -----

  lemma CreateSucceedsOnce(p: Pass, j: JobId)
    ensures var s := CreateJobStep(p, j, Done, Done);
      s.ok && s.pass.mem == p.mem && Present(s.pass.cluster, j) && p.cluster.log <= s.pass.cluster.log
  {}

  lemma RestartSucceeds(p: Pass, v: View, j: JobId)
    requires v.jobs == p.cluster.jobs && v.jobConfigs == p.cluster.jobConfigs
    ensures var s := PrepareRestartStep(p, v, j, Done, Done);
      && s.ok && s.pass.mem == p.mem.(initDone := p.mem.initDone[j := false])
      && !Present(s.pass.cluster, j) && j !in s.pass.cluster.jobConfigs
  {}

  lemma ExitPrepares(p: Pass, v: View, b: (nat, nat), a: Answers)
    requires !p.mem.update.Has(MasterExitedReadOnly) && !p.mem.update.Has(MasterExitReadOnlyPrepared)
    requires v.jobs == p.cluster.jobs && v.jobConfigs == p.cluster.jobConfigs && a.CallsOf(Single(Master)) == AllDone
    ensures var s := Perform(p, v, Single(Master), PrepareExit(!RestartPrepared(v, p.mem, ExitReadOnly)), b, a);
      s.ok && ExitPhase(s.pass.mem, s.pass.cluster) < ExitPhase(p.mem, p.cluster)
  {
    RestartSucceeds(p, v, ExitReadOnly);
  }

  lemma JobCreates(p: Pass, v: View, c: Component, j: JobId, b: (nat, nat), a: Answers)
    requires a.CallsOf(c) == AllDone
    ensures var s := Perform(p, v, c, CreateJob(j), b, a);
      s.ok && s.pass.mem == p.mem && Present(s.pass.cluster, j) && p.cluster.log <= s.pass.cluster.log
  {
    CreateSucceedsOnce(p, j);
  }

  /** One step of the job: created when absent, completed when it has succeeded. */
  lemma JobAdvances(p: Pass, v: View, c: Component, j: JobId, b: (nat, nat), a: Answers)
    requires !p.mem.Done(j) && v.jobs == p.cluster.jobs && CaughtUp(p.cluster) && a.CallsOf(c) == AllDone
    ensures var d := DecideJob(v, p.mem, j); var s := Perform(p, v, c, d.action, b, a);
      && d.status == Pending && s.ok && s.pass.mem.update == p.mem.update
      && (if Present(p.cluster, j) then s.pass.mem.Done(j) && s.pass.cluster == p.cluster
          else s.pass.mem == p.mem && Present(s.pass.cluster, j) && p.cluster.log <= s.pass.cluster.log)
  {
    if j in v.jobs {
      assert DecideJob(v, p.mem, j) == Do(Pending, CompleteJob(j));
    } else {
      assert DecideJob(v, p.mem, j) == Do(Pending, CreateJob(j));
      JobCreates(p, v, c, j, b, a);
    }
  }

  lemma ExitAdvances(p: Pass, v: View, b: (nat, nat), a: Answers)
    requires !p.mem.update.Has(MasterExitedReadOnly) && CaughtUp(p.cluster)
    requires v.jobs == p.cluster.jobs && v.jobConfigs == p.cluster.jobConfigs && a.CallsOf(Single(Master)) == AllDone
    ensures var d := DecideExitReadOnly(v, p.mem);
      && d.Do? && (d.status == Pending || d.status == SyncUpdating)
      && var s := Perform(p, v, Single(Master), d.action, b, a);
         s.ok && ExitPhase(s.pass.mem, s.pass.cluster) < ExitPhase(p.mem, p.cluster)
  {
    if !p.mem.update.Has(MasterExitReadOnlyPrepared) {
      ExitPrepares(p, v, b, a);
    } else if !p.mem.Done(ExitReadOnly) {
      JobAdvances(p, v, Single(Master), ExitReadOnly, b, a);
    }
  }

  // ----- restarting and renewing a job -----

  lemma RestartsFirst(p: Pass, v: View, c: Component, j: JobId, prepared: Condition, b: (nat, nat), a: Answers)
    requires !p.mem.update.Has(prepared) && a.CallsOf(c) == AllDone
    requires v.jobs == p.cluster.jobs && v.jobConfigs == p.cluster.jobConfigs
    ensures var s := Perform(p, v, c, PrepareRestart(j), b, a);
      s.ok && PreparePhase(s.pass.mem, s.pass.cluster, j, prepared) < 2
  {
    RestartSucceeds(p, v, j);
  }

  lemma PrepareAdvances(p: Pass, v: View, c: Component, j: JobId, prepared: Condition, b: (nat, nat), a: Answers)
    requires !p.mem.update.Has(prepared) && CaughtUp(p.cluster) && a.CallsOf(c) == AllDone
    requires v.jobs == p.cluster.jobs && v.jobConfigs == p.cluster.jobConfigs
    ensures var d := DecideRestart(v, p.mem, j, prepared);
      && d.Do? && d.status == SyncUpdating
      && var s := Perform(p, v, c, d.action, b, a);
         s.ok && PreparePhase(s.pass.mem, s.pass.cluster, j, prepared) < PreparePhase(p.mem, p.cluster, j, prepared)
  {
    if RestartPrepared(v, p.mem, j) {
      assert PreparePhase(p.mem, p.cluster, j, prepared) == 1;
    } else {
      assert PreparePhase(p.mem, p.cluster, j, prepared) == 2;
      RestartsFirst(p, v, c, j, prepared, b, a);
    }
  }

  /** In these stages nobody waits for anybody: all others rest. */
  lemma OpenElsewhere(v: View, st: Status, k: Kind, cs: seq<Component>)
    requires |v.layout.httpProxies| > 0 && st.cluster == Updating
    requires forall c :: c in cs ==> c.kind != YtsaurusClient && !OwnStage(c.kind, st.update.state)
    ensures Asked(v, st, k, cs) == Open
  {
    if forall c :: c in cs ==> Depth(c.kind) < Depth(k) {
      forall c | c in cs ensures StatusIs(v, st, c, Ready) { RestsElsewhere(v, st, c); }
      GateMeaning(v, st, cs, Depth(k));
    }
  }

  lemma RenewGates(v: View, st: Status, k: Kind)
    requires |v.layout.httpProxies| > 0 && st.cluster == Updating
    requires (k == Scheduler && st.update.state == OpArchiveUpdating) || (k == QueryTracker && st.update.state == QTStateUpdating)
    ensures OpenEnough(st, GatesOf(v, st, Single(k)))
  {
    OpenElsewhere(v, st, k, [Single(Master)]);
    OpenElsewhere(v, st, k, Group(ExecNode, v.layout.execNodes));
    OpenElsewhere(v, st, k, Group(DataNode, v.layout.dataNodes));
    OpenElsewhere(v, st, k, Group(TabletNode, v.layout.tabletNodes));
    OnlyStrawberryAsks(v, st, k);
  }

  lemma WindowDecides(v: View, st: Status, c: Component)
    requires |v.layout.httpProxies| > 0 && st.cluster == Updating && IsUpdatingComponent(st, c)
    requires (c.kind == Scheduler && st.update.state == OpArchiveUpdating && !st.Done(OpArchive))
      || (c.kind == QueryTracker && st.update.state == QTStateUpdating && !st.Done(QTState))
    ensures Decide(v, st, c) == DecideOrdinary(v, st, c)
  {
    assert DecideUpdating(v, st, c) == None;
  }

  // ----- stages with a job -----

  predicate JobStage(k: Kind, s: UpdateState) {
    || (k == Master && s == MasterExitingReadOnly)
    || (k == Scheduler && (s == OpArchivePreparing || s == OpArchiveUpdating))
    || (k == QueryTracker && (s == QTStatePreparing || s == QTStateUpdating))
  }

  lemma ClientIdles(p: Pass, spec: Spec, fetched: Cluster, a: Answers, k: Kind)
    requires |spec.layout.httpProxies| > 0 && a.checked == a.surveyed && a.synced == a.surveyed && !a.clientFails
    requires !ViewOf(spec, fetched, a.surveyed, a).Of(Single(YtsaurusClient)).secretMissing
    requires p.mem.cluster == Updating && p.mem.Done(ClientUser) && JobStage(k, p.mem.update.state)
    ensures Idle(p, spec, fetched, a, Single(YtsaurusClient))
  {
    var v := ViewOf(spec, fetched, a.surveyed, a);
    ClientDecides(v, p.mem);
    SyncsAsDecided(p, spec, fetched, a, Single(YtsaurusClient), Do(SyncUpdating, HandleUpdatingState));
    PerformsNothing(p, v, spec.bootstrap, a, k);
  }

  lemma PerformsNothing(p: Pass, v: View, b: (nat, nat), a: Answers, k: Kind)
    requires JobStage(k, p.mem.update.state)
    ensures Perform(p, v, Single(YtsaurusClient), HandleUpdatingState, b, a) == Step(p, true)
  {}

  /** What holds of the pass after the one actor of a stage has acted. */
  lemma ActorSyncs(l: Layout, since: nat, w: State, spec: Spec, a: Answers, c: Component, d: Decision, q: Pass)
    requires Fair(l, since, w, spec, a) && c in AllComponents(l) && Decide(Seen(w, spec, a), Start(l, w).mem, c) == d && d.Do?
    requires d.status == Pending || d.status == SyncUpdating
    requires Perform(Start(l, w), Seen(w, spec, a), c, d.action, spec.bootstrap, a) == Step(q, true)
    ensures SyncOne(Start(l, w), spec, w.cluster, a, c) == Step(q, true)
  {
    SyncsAsDecided(Start(l, w), spec, w.cluster, a, c, d);
  }

  lemma ActorFrame(p: Pass, v: View, c: Component, d: Decision, b: (nat, nat), a: Answers, q: Pass)
    requires |v.layout.httpProxies| > 0 && p.mem.cluster == Updating && Decide(v, p.mem, c) == d && d.Do?
    requires Perform(p, v, c, d.action, b, a) == Step(q, true)
    ensures Framed(p, q) && (p.mem.Done(ClientUser) ==> q.mem.Done(ClientUser))
  {
    DecisionsAreAllowed(v, p.mem, c);
    PerformFrame(p, v, c, d.action, b, a);
    PerformKept(p, v, c, d.action, b, a);
  }

  lemma ActorKeeps(l: Layout, since: nat, w: State, spec: Spec, a: Answers, c: Component, d: Decision, q: Pass)
    requires Fair(l, since, w, spec, a) && c in AllComponents(l) && Decide(Seen(w, spec, a), Start(l, w).mem, c) == d && d.Do?
    requires d.status == Pending || d.status == SyncUpdating
    requires Perform(Start(l, w), Seen(w, spec, a), c, d.action, spec.bootstrap, a) == Step(q, true)
    ensures SyncOne(Start(l, w), spec, w.cluster, a, c) == Step(q, true)
    ensures Framed(Start(l, w), q) && q.mem.Done(ClientUser) && Start(l, w).mem.Done(ClientUser)
  {
    ActorSyncs(l, since, w, spec, a, c, d, q);
    MarkedCore(l, w.stored, w.cluster);
    ActorFrame(Start(l, w), Seen(w, spec, a), c, d, spec.bootstrap, a, q);
  }

  lemma OnlyThisKind(k: Kind, s: UpdateState)
    requires JobStage(k, s)
    ensures forall other :: other != k && other != YtsaurusClient ==> !OwnStage(other, s)
    ensures !GroupKind(k)
  {}

  lemma ActorNearer(l: Layout, since: nat, w: State, spec: Spec, a: Answers, c: Component, d: Decision, q: Pass)
    requires Fair(l, since, w, spec, a) && c in AllComponents(l) && JobStage(c.kind, w.stored.update.state) && ClientHasSecret(w, spec, a)
    requires Decide(Seen(w, spec, a), Start(l, w).mem, c) == d && d.Do? && (d.status == Pending || d.status == SyncUpdating)
    requires Perform(Start(l, w), Seen(w, spec, a), c, d.action, spec.bootstrap, a) == Step(q, true)
    ensures var r := SyncComponents(Start(l, w), spec, a); r.stored == q.mem && r.cluster == q.cluster
    ensures Framed(Start(l, w), q)
  {
    ActorKeeps(l, since, w, spec, a, c, d, q);
    ClientIdles(Start(l, w), spec, w.cluster, a, c.kind);
    ClientIdles(q, spec, w.cluster, a, c.kind);
    OnlyThisKind(c.kind, w.stored.update.state);
    ActorStores(l, since, w, spec, a, c, q);
  }

  /** A stage that holds: its actor is updating, and what it works for is still missing. */
  lemma Holds(spec: Spec, st: Status, s: Survey)
    requires st.cluster == Updating && RouteOk(st) && ArchiveMarked(spec.layout, st) && Advance(spec, st, s) == Stay
    ensures match st.update.state
      case MasterExitingReadOnly => !st.update.Has(MasterExitedReadOnly)
      case OpArchivePreparing =>
        NeedSchedulerUpdate(spec.layout, st) && HasArchive(spec.layout) && !st.update.Has(OpArchivePreparedForUpdating)
      case OpArchiveUpdating => !st.update.Has(OpArchiveUpdated)
      case QTStatePreparing => NeedQueryTrackerUpdate(spec.layout, st) && !st.update.Has(QTStatePreparedForUpdating)
      case QTStateUpdating => !st.update.Has(QTStateUpdated)
      case PodsRemoval => !ArePodsRemoved(spec.layout, st)
      case PodsCreation => !s.allReadyOrUpdating
      case _ => true
  {}

  /** A stage with a job stays, and its actor `q` brought it nearer to its end. */
  ghost predicate StayedNearer(l: Layout, since: nat, w: State, spec: Spec, a: Answers, q: Pass)
    requires |l.httpProxies| > 0 && spec.layout == l
  {
    && (var r := SyncComponents(Start(l, w), spec, a); r.stored == q.mem && r.cluster == q.cluster)
    && Framed(Start(l, w), q)
    && Distance(l, since, State(q.mem, q.cluster)) < Distance(l, since, w)
  }

  lemma ExitActs(p: Pass, v: View, b: (nat, nat), a: Answers) returns (d: Decision, q: Pass)
    requires |v.layout.httpProxies| > 0 && p.mem.cluster == Updating && p.mem.update.state == MasterExitingReadOnly
    requires !p.mem.update.Has(MasterExitedReadOnly) && CaughtUp(p.cluster)
    requires v.jobs == p.cluster.jobs && v.jobConfigs == p.cluster.jobConfigs && a.CallsOf(Single(Master)) == AllDone
    ensures Decide(v, p.mem, Single(Master)) == d && d.Do? && (d.status == Pending || d.status == SyncUpdating)
    ensures Perform(p, v, Single(Master), d.action, b, a) == Step(q, true)
    ensures ExitPhase(q.mem, q.cluster) < ExitPhase(p.mem, p.cluster)
  {
    ExitAdvances(p, v, b, a);
    d := DecideExitReadOnly(v, p.mem);
    var s := Perform(p, v, Single(Master), d.action, b, a);
    q := s.pass;
  }

  lemma MasterStays(l: Layout, since: nat, w: State, spec: Spec, a: Answers) returns (q: Pass)
    requires Fair(l, since, w, spec, a) && CaughtUp(w.cluster) && w.stored.update.state == MasterExitingReadOnly
    requires ClientHasSecret(w, spec, a) && !w.stored.update.Has(MasterExitedReadOnly)
    ensures StayedNearer(l, since, w, spec, a, q)
  {
    Members(l);
    AllCallsDone(a, Single(Master));
    var d: Decision;
    d, q := ExitActs(Start(l, w), Seen(w, spec, a), spec.bootstrap, a);
    ActorNearer(l, since, w, spec, a, Single(Master), d, q);
  }

  lemma Preparer(v: View, st: Status, c: Component)
    requires |v.layout.httpProxies| > 0 && st.cluster == Updating && IsUpdatingComponent(st, c)
    requires (c.kind == Scheduler && st.update.state == OpArchivePreparing && |v.layout.tabletNodes| > 0)
      || (c.kind == QueryTracker && st.update.state == QTStatePreparing)
    ensures Decide(v, st, c) ==
      if c.kind == Scheduler then DecideRestart(v, st, OpArchive, OpArchivePreparedForUpdating)
      else DecideRestart(v, st, QTState, QTStatePreparedForUpdating)
  {}

  /** The two components that prepare a restart, with the job and the condition they work for. */
  predicate Restarter(l: Layout, st: Status, c: Component, j: JobId, prepared: Condition) {
    || (c == Single(Scheduler) && st.update.state == OpArchivePreparing && |l.tabletNodes| > 0
        && j == OpArchive && prepared == OpArchivePreparedForUpdating)
    || (c == Single(QueryTracker) && st.update.state == QTStatePreparing && j == QTState && prepared == QTStatePreparedForUpdating)
  }

  lemma PrepareActs(p: Pass, v: View, c: Component, j: JobId, prepared: Condition, b: (nat, nat), a: Answers)
    returns (d: Decision, q: Pass)
    requires |v.layout.httpProxies| > 0 && p.mem.cluster == Updating && IsUpdatingComponent(p.mem, c)
    requires Restarter(v.layout, p.mem, c, j, prepared) && !p.mem.update.Has(prepared) && a.CallsOf(c) == AllDone
    requires v.jobs == p.cluster.jobs && v.jobConfigs == p.cluster.jobConfigs && CaughtUp(p.cluster)
    ensures Decide(v, p.mem, c) == d && d.Do? && d.status == SyncUpdating && Perform(p, v, c, d.action, b, a) == Step(q, true)
    ensures PreparePhase(q.mem, q.cluster, j, prepared) < PreparePhase(p.mem, p.cluster, j, prepared)
  {
    Preparer(v, p.mem, c);
    PrepareAdvances(p, v, c, j, prepared, b, a);
    d := DecideRestart(v, p.mem, j, prepared);
    var s := Perform(p, v, c, d.action, b, a);
    q := s.pass;
  }

  lemma PrepareStays(l: Layout, since: nat, w: State, spec: Spec, a: Answers, c: Component, j: JobId, prepared: Condition) returns (q: Pass)
    requires Fair(l, since, w, spec, a) && CaughtUp(w.cluster) && c in AllComponents(l) && IsUpdatingComponent(w.stored, c)
    requires Marked(l, w.stored) == w.stored && !w.stored.update.Has(prepared) && Restarter(l, w.stored, c, j, prepared)
    requires ClientHasSecret(w, spec, a)
    ensures StayedNearer(l, since, w, spec, a, q)
  {
    AllCallsDone(a, c);
    var d: Decision;
    d, q := PrepareActs(Start(l, w), Seen(w, spec, a), c, j, prepared, spec.bootstrap, a);
    PrepareDistance(l, since, w, q, c, j, prepared);
    ActorNearer(l, since, w, spec, a, c, d, q);
  }

  lemma PrepareDistance(l: Layout, since: nat, w: State, q: Pass, c: Component, j: JobId, prepared: Condition)
    requires Restarter(l, w.stored, c, j, prepared)
    requires PreparePhase(q.mem, q.cluster, j, prepared) < PreparePhase(w.stored, w.cluster, j, prepared)
    ensures q.mem.update.state == w.stored.update.state ==> Distance(l, since, State(q.mem, q.cluster)) < Distance(l, since, w)
  {}

  /** The two components that renew a job, with that job and the condition they work for. */
  predicate Renewer(st: Status, c: Component, j: JobId, renewed: Condition) {
    || (c == Single(Scheduler) && st.update.state == OpArchiveUpdating && j == OpArchive && renewed == OpArchiveUpdated)
    || (c == Single(QueryTracker) && st.update.state == QTStateUpdating && j == QTState && renewed == QTStateUpdated)
  }

  /** A component that renews its job is not ready before the job is done. */
  lemma RenewerIsNotReady(v: View, st: Status, c: Component, j: JobId, renewed: Condition, g: GateSet)
    requires Renewer(st, c, j, renewed) && !st.Done(j) && |v.layout.tabletNodes| > 0
    ensures var d := OrdinaryBehind(v, st, c, g); d.Do? ==> d.status != Ready
  {}

  lemma RenewerGoesOn(l: Layout, since: nat, v: View, st: Status, log: seq<Event>, c: Component, j: JobId, renewed: Condition)
    requires |l.httpProxies| > 0 && st.cluster == Updating && Watched(l, since, v, st, log) && c in AllComponents(l)
    requires IsUpdatingComponent(st, c) && Renewer(st, c, j, renewed)
    ensures GoesOn(v, st, c, GatesOf(v, st, c))
  {
    GatesNotBroken(v, st, c);
    ResidentsAreHosted(l, c);
    assert ComesUp(st, c, v.Of(c), log, since);
  }

  /** Past the gates it writes its server or takes one of its jobs a step further. */
  lemma RenewerActs(l: Layout, since: nat, v: View, st: Status, log: seq<Event>, c: Component, j: JobId, renewed: Condition) returns (d: Decision)
    requires |l.httpProxies| > 0 && st.cluster == Updating && Watched(l, since, v, st, log) && c in AllComponents(l)
    requires IsUpdatingComponent(st, c) && Renewer(st, c, j, renewed) && !st.Done(j) && |l.tabletNodes| > 0
    ensures Decide(v, st, c) == d && d.Do? && d.status == Pending && Useful(v, st, c, d.action)
  {
    d := Decide(v, st, c);
    WindowDecides(v, st, c);
    OrdinaryUnfolds(v, st, c);
    RenewGates(v, st, c.kind);
    RenewerGoesOn(l, since, v, st, log, c, j, renewed);
    OrdinarySensible(v, st, c, GatesOf(v, st, c));
    RenewerIsNotReady(v, st, c, j, renewed, GatesOf(v, st, c));
  }

  /** What a renewer decides and does, and that it brings the stage nearer to its end. */
  ghost predicate Renews(l: Layout, since: nat, p: Pass, v: View, c: Component, j: JobId, renewed: Condition, b: (nat, nat), a: Answers, d: Decision, q: Pass)
  {
    && Decide(v, p.mem, c) == d && d.Do? && (d.status == Pending || d.status == SyncUpdating)
    && Perform(p, v, c, d.action, b, a) == Step(q, true)
    && RenewPhase(l, since, q.mem, q.cluster, j, renewed) < RenewPhase(l, since, p.mem, p.cluster, j, renewed)
  }

  lemma RenewNotes(l: Layout, since: nat, p: Pass, v: View, c: Component, j: JobId, renewed: Condition, b: (nat, nat), a: Answers)
    returns (d: Decision, q: Pass)
    requires |v.layout.httpProxies| > 0 && p.mem.cluster == Updating && IsUpdatingComponent(p.mem, c)
    requires Renewer(p.mem, c, j, renewed) && p.mem.Done(j) && !p.mem.update.Has(renewed)
    ensures Renews(l, since, p, v, c, j, renewed, b, a, d, q)
  {
    d := Do(SyncUpdating, SetCondition(renewed));
    q := p.Note(renewed);
  }

  lemma RenewWorks(l: Layout, since: nat, p: Pass, v: View, c: Component, j: JobId, renewed: Condition, b: (nat, nat), a: Answers)
    returns (d: Decision, q: Pass)
    requires |l.httpProxies| > 0 && p.mem.cluster == Updating && Watched(l, since, v, p.mem, p.cluster.log) && c in AllComponents(l)
    requires IsUpdatingComponent(p.mem, c) && Renewer(p.mem, c, j, renewed) && !p.mem.Done(j) && |l.tabletNodes| > 0
    requires !p.mem.update.Has(renewed) && v.jobs == p.cluster.jobs && CaughtUp(p.cluster) && since <= |p.cluster.log|
    requires a.CallsOf(c) == AllDone && AllSucceed(a.yt.outcomes) && !a.clientMissing
    ensures Renews(l, since, p, v, c, j, renewed, b, a, d, q)
  {
    d := RenewerActs(l, since, v, p.mem, p.cluster.log, c, j, renewed);
    ActionDoes(l, since, p, v, c, d.action, b, a);
    assert ComesUp(p.mem, c, v.Of(c), p.cluster.log, since);
    var s := Perform(p, v, c, d.action, b, a);
    q := s.pass;
    NoMoreWork(l, since, p, q);
  }

  lemma RenewerIsThere(l: Layout, since: nat, w: State, spec: Spec, a: Answers, c: Component, j: JobId, renewed: Condition)
    requires Fair(l, since, w, spec, a) && CaughtUp(w.cluster) && Renewer(w.stored, c, j, renewed) && !w.stored.update.Has(renewed)
    ensures Marked(l, w.stored) == w.stored && IsUpdatingComponent(w.stored, c) && c in AllComponents(l)
    ensures w.stored.Done(j) || |l.tabletNodes| > 0
    ensures Watched(l, since, Seen(w, spec, a), w.stored, w.cluster.log) && a.CallsOf(c) == AllDone
  {
    Members(l);
    AllCallsDone(a, c);
  }

  /** In these stages nobody holds up the client. */
  lemma RenewerHasClient(l: Layout, since: nat, w: State, spec: Spec, a: Answers)
    requires Fair(l, since, w, spec, a) && ClientHasSecret(w, spec, a)
    requires w.stored.update.state == OpArchiveUpdating || w.stored.update.state == QTStateUpdating
    ensures !a.clientMissing
  {
    ClientIsDone(l, since, w, spec, a);
    ClientDecides(Seen(w, spec, a), w.stored);
  }

  lemma RenewStays(l: Layout, since: nat, w: State, spec: Spec, a: Answers, c: Component, j: JobId, renewed: Condition) returns (q: Pass)
    requires Fair(l, since, w, spec, a) && CaughtUp(w.cluster) && Renewer(w.stored, c, j, renewed) && !w.stored.update.Has(renewed)
    requires ClientHasSecret(w, spec, a)
    ensures StayedNearer(l, since, w, spec, a, q)
  {
    RenewerHasClient(l, since, w, spec, a);
    RenewerIsThere(l, since, w, spec, a, c, j, renewed);
    var d: Decision;
    if w.stored.Done(j) {
      d, q := RenewNotes(l, since, Start(l, w), Seen(w, spec, a), c, j, renewed, spec.bootstrap, a);
    } else {
      d, q := RenewWorks(l, since, Start(l, w), Seen(w, spec, a), c, j, renewed, spec.bootstrap, a);
    }
    RenewDistance(l, since, w, q, c, j, renewed);
    ActorNearer(l, since, w, spec, a, c, d, q);
  }

  lemma RenewDistance(l: Layout, since: nat, w: State, q: Pass, c: Component, j: JobId, renewed: Condition)
    requires Renewer(w.stored, c, j, renewed)
    requires RenewPhase(l, since, q.mem, q.cluster, j, renewed) < RenewPhase(l, since, w.stored, w.cluster, j, renewed)
    ensures q.mem.update.state == w.stored.update.state ==> Distance(l, since, State(q.mem, q.cluster)) < Distance(l, since, w)
  {}

  lemma JobStageNearer(l: Layout, since: nat, w: State, spec: Spec, a: Answers, k: Kind)
    requires Fair(l, since, w, spec, a) && CaughtUp(w.cluster) && JobStage(k, w.stored.update.state)
    ensures Nearer(l, since, w, RunPass(w, spec, a))
  {
    if ClientHasSecret(w, spec, a) {
      var s := MovesOrStays(l, since, w, spec, a);
      if Advance(spec, Marked(l, w.stored), s) == Stay {
        var q := JobStageStays(l, since, w, spec, a, s);
      }
    } else {
      SecretFirst(l, since, w, spec, a);
    }
  }

  lemma JobStageStays(l: Layout, since: nat, w: State, spec: Spec, a: Answers, s: Survey) returns (q: Pass)
    requires Fair(l, since, w, spec, a) && CaughtUp(w.cluster) && ClientHasSecret(w, spec, a)
    requires exists k :: JobStage(k, w.stored.update.state)
    requires Advance(spec, Marked(l, w.stored), s) == Stay
    ensures StayedNearer(l, since, w, spec, a, q)
  {
    MarkedBase(l, w.stored, w.cluster);
    MarkedArchive(l, w.stored);
    Holds(spec, Marked(l, w.stored), s);
    Members(l);
    if w.stored.update.state == MasterExitingReadOnly {
      q := MasterStays(l, since, w, spec, a);
    } else if w.stored.update.state == OpArchivePreparing {
      q := PrepareStays(l, since, w, spec, a, Single(Scheduler), OpArchive, OpArchivePreparedForUpdating);
    } else if w.stored.update.state == OpArchiveUpdating {
      q := RenewStays(l, since, w, spec, a, Single(Scheduler), OpArchive, OpArchiveUpdated);
    } else if w.stored.update.state == QTStatePreparing {
      q := PrepareStays(l, since, w, spec, a, Single(QueryTracker), QTState, QTStatePreparedForUpdating);
    } else {
      q := RenewStays(l, since, w, spec, a, Single(QueryTracker), QTState, QTStateUpdated);
    }
  }
}
