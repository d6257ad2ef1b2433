/** How far an updating cluster is from the end of its stage, and what one pass with favourable
    answers does: it moves on, or it syncs the components that have a task in this stage. */
module FairPasses {
  import opened ClusterStatus
  import opened Components
  import opened World
  import opened Reconcile
  import opened Actions
  import opened Safety
  import opened Readiness
  import opened Names
  import opened Initialised
  import opened Durable
  import opened Rounds
  import opened Building

  // ----- what is missing in a stage -----

  function Missing(u: UpdateStatus, c: Condition): nat { if u.Has(c) then 0 else 1 }

  predicate AllStarted(l: Layout, st: Status) {
    forall c :: c in AllComponents(l) && IsUpdatingComponent(st, c) ==> st.update.Has(PodsRemovingStarted(c.name))
  }

  function PodsPhase(l: Layout, st: Status): nat {
    if ArePodsRemoved(l, st) then 0 else if AllStarted(l, st) then 1 else 2
  }

  function ExitPhase(st: Status, k: Cluster): nat {
    if st.update.Has(MasterExitedReadOnly) then 0
    else if !st.update.Has(MasterExitReadOnlyPrepared) then 4
    else if st.Done(ExitReadOnly) then 1
    else if Present(k, ExitReadOnly) then 2
    else 3
  }

  function PreparePhase(st: Status, k: Cluster, j: JobId, prepared: Condition): nat {
    if st.update.Has(prepared) then 0
    else if !Present(k, j) && j !in k.jobConfigs && st.MarkedUndone(j) then 1
    else 2
  }

  ghost function RenewPhase(l: Layout, since: nat, st: Status, k: Cluster, j: JobId, renewed: Condition): nat {
    if st.update.Has(renewed) then 0 else if st.Done(j) then 1 else 2 + Work(l, since, st, k)
  }

  /** How many favourable rounds the current stage still needs at most. */
  ghost function Distance(l: Layout, since: nat, w: State): nat {
    var st, u, k := w.stored, w.stored.update, w.cluster;
    match u.state
    case StateNone => 0
    case PossibilityCheck => if u.Has(HasPossibility) || u.Has(NoPossibility) then 0 else 1
    case ImpossibleToStart => 0
    case SafeModeEnabling => Missing(u, SafeModeEnabled)
    case TabletCellsSaving => Missing(u, TabletCellsSaved)
    case TabletCellsRemovingStart => Missing(u, TabletCellsRemovingStarted)
    case TabletCellsRemoving => Missing(u, TabletCellsRemoved)
    case SnapshotsBuilding => Missing(u, SnapshotsSaved)
    case PodsRemoval => PodsPhase(l, st)
    case PodsCreation => Work(l, since, st, k)
    case MasterExitingReadOnly => ExitPhase(st, k)
    case TabletCellsRecovery => Missing(u, TabletCellsRecovered)
    case OpArchivePreparing => PreparePhase(st, k, OpArchive, OpArchivePreparedForUpdating)
    case OpArchiveUpdating => RenewPhase(l, since, st, k, OpArchive, OpArchiveUpdated)
    case QTStatePreparing => PreparePhase(st, k, QTState, QTStatePreparedForUpdating)
    case QTStateUpdating => RenewPhase(l, since, st, k, QTState, QTStateUpdated)
    case SafeModeDisabling => Missing(u, SafeModeDisabled)
  }

  /** Secrets and services the operator has not made yet. While some are missing, others may have to wait. */
  ghost function MakingLeft(l: Layout, since: nat, k: Cluster): nat { Unmade(AllComponents(l), k.log, since) }

  lemma {:induction false} WritesSame(cs: seq<Component>, log: seq<Event>, more: seq<Event>, since: nat)
    requires forall c :: c in cs ==> Written(c, log, since) == Written(c, more, since) && Made(c, log, since) == Made(c, more, since)
    ensures Unwritten(cs, log, since) == Unwritten(cs, more, since) && Unmade(cs, log, since) == Unmade(cs, more, since)
    decreases |cs|
  {
    if cs != [] { WritesSame(cs[1..], log, more, since); }
  }

  lemma WritesSettled(k: Cluster, c: Component, since: nat)
    ensures Written(c, Settle(k).log, since) == Written(c, k.log, since) && Made(c, Settle(k).log, since) == Made(c, k.log, since)
  {
    SettleFacts(k, ClientUser);
    var log := Settle(k).log;
    WritesGrow(c, k.log, log, since);
    if i :| since <= i < |log| && log[i].ServerWritten? && log[i].component == c { assert k.log[i] == log[i]; }
    if i :| since <= i < |log| && log[i].AuxiliaryCreated? && log[i].component == c { assert k.log[i] == log[i]; }
  }

  lemma PresentSettled(k: Cluster, j: JobId)
    ensures Present(Settle(k), j) == Present(k, j)
  {
    SettleFacts(k, j);
  }

  lemma {:induction false} JobsLeftSettled(st: Status, k: Cluster, js: seq<JobId>)
    ensures JobsLeft(st, Settle(k), js) == JobsLeft(st, k, js)
    decreases |js|
  {
    if js != [] {
      JobsLeftSettled(st, k, js[1..]);
      PresentSettled(k, js[0]);
    }
  }

  lemma WorkSettled(l: Layout, since: nat, st: Status, k: Cluster)
    ensures Work(l, since, st, Settle(k)) == Work(l, since, st, k) && MakingLeft(l, since, Settle(k)) == MakingLeft(l, since, k)
  {
    JobsLeftSettled(st, k, AllJobs);
    forall c
      ensures Written(c, Settle(k).log, since) == Written(c, k.log, since) && Made(c, Settle(k).log, since) == Made(c, k.log, since)
    {
      WritesSettled(k, c, since);
    }
    WritesSame(AllComponents(l), Settle(k).log, k.log, since);
  }

  /** Catching up brings no stage further away from its end. */
  lemma SettleDistance(l: Layout, since: nat, w: State)
    ensures Distance(l, since, w.(cluster := Settle(w.cluster))) == Distance(l, since, w)
  {
    var k := w.cluster;
    SettleFacts(k, ExitReadOnly);
    PresentSettled(k, ExitReadOnly);
    PresentSettled(k, OpArchive);
    PresentSettled(k, QTState);
    WorkSettled(l, since, w.stored, k);
  }

  // ----- the log only grows -----

  lemma SyncOneLogs(p: Pass, spec: Spec, fetched: Cluster, a: Answers, c: Component)
    requires |spec.layout.httpProxies| > 0
    ensures p.cluster.log <= SyncOne(p, spec, fetched, a, c).pass.cluster.log
  {
    var v := ViewOf(spec, fetched, a.synced, a);
    var d := Decide(v, p.mem, c);
    if d.Do? {
      DecisionsAreAllowed(v, p.mem, c);
      PerformLogs(p, v, c, d.action, spec.bootstrap, a);
    }
  }

  lemma {:induction false} SyncAllLogs(p: Pass, spec: Spec, fetched: Cluster, a: Answers, cs: seq<Component>)
    requires |spec.layout.httpProxies| > 0
    ensures p.cluster.log <= SyncAll(p, spec, fetched, a, cs).pass.cluster.log
    decreases |cs|
  {
    if cs != [] {
      SyncOneLogs(p, spec, fetched, a, cs[0]);
      var s := SyncOne(p, spec, fetched, a, cs[0]);
      if s.ok { SyncAllLogs(s.pass, spec, fetched, a, cs[1..]); }
    }
  }

  lemma DispatchLogs(p: Pass, spec: Spec, s: Survey, w: Outcomes, synced: Pass)
    requires p.mem.cluster != Running && p.cluster.log <= synced.cluster.log
    ensures p.cluster.log <= DispatchOr(p, spec, s, w, synced).cluster.log
  {}

  /** Only the start of an update opens a new log. */
  lemma PassLogs(w: State, spec: Spec, a: Answers)
    requires w.stored.cluster != Running
    ensures w.cluster.log <= RunPass(w, spec, a).cluster.log
  {
    if spec.managed && |spec.layout.httpProxies| > 0 && !a.fetchFails {
      var s := SurveyOf(ViewOf(spec, w.cluster, a.surveyed, a), w.stored, AllComponents(spec.layout));
      if s.Some? {
        var p := Pass(Marked(spec.layout, w.stored), w.stored, w.cluster);
        SyncAllLogs(p, spec, p.cluster, a, AllComponents(spec.layout));
        DispatchLogs(p, spec, s.value, a.writes, SyncComponents(p, spec, a));
      }
    }
  }

  lemma RoundLogs(w: State, spec: Spec, a: Answers)
    requires w.stored.cluster != Running
    ensures w.cluster.log <= Round(w, spec, a).cluster.log
  {
    SettleFacts(w.cluster, ClientUser);
    PassLogs(w.(cluster := Settle(w.cluster)), spec, a);
  }

  // ----- syncing when only one component acts -----

  predicate Idle(p: Pass, spec: Spec, fetched: Cluster, a: Answers, c: Component)
  {
    SyncOne(p, spec, fetched, a, c) == Step(p, true)
  }

  lemma {:induction false} AllIdle(p: Pass, spec: Spec, fetched: Cluster, a: Answers, cs: seq<Component>)
    requires |spec.layout.httpProxies| > 0 && forall i :: 0 <= i < |cs| ==> Idle(p, spec, fetched, a, cs[i])
    ensures SyncAll(p, spec, fetched, a, cs) == Step(p, true)
    decreases |cs|
  {
    if cs != [] {
      assert Idle(p, spec, fetched, a, cs[0]);
      AllIdle(p, spec, fetched, a, cs[1..]);
    }
  }

  lemma {:induction false} OneActs(p: Pass, spec: Spec, fetched: Cluster, a: Answers, cs: seq<Component>, n: nat)
    requires |spec.layout.httpProxies| > 0 && n < |cs|
    requires forall i :: 0 <= i < n ==> Idle(p, spec, fetched, a, cs[i])
    requires var s := SyncOne(p, spec, fetched, a, cs[n]);
      s.ok && forall i :: n < i < |cs| ==> Idle(s.pass, spec, fetched, a, cs[i])
    ensures SyncAll(p, spec, fetched, a, cs) == SyncOne(p, spec, fetched, a, cs[n])
    decreases n
  {
    if n == 0 {
      AllIdle(SyncOne(p, spec, fetched, a, cs[0]).pass, spec, fetched, a, cs[1..]);
    } else {
      assert Idle(p, spec, fetched, a, cs[0]);
      OneActs(p, spec, fetched, a, cs[1..], n - 1);
    }
  }

  lemma Sole(l: Layout, c: Component) returns (n: nat)
    requires c in AllComponents(l) && !GroupKind(c.kind)
    ensures n < |AllComponents(l)| && AllComponents(l)[n] == c
    ensures forall i :: 0 <= i < |AllComponents(l)| && i != n ==> AllComponents(l)[i].kind != c.kind
  {
    LayoutSound(l, false);
    n :| 0 <= n < |AllComponents(l)| && AllComponents(l)[n] == c;
  }

  // ----- a fair pass -----

  /** No job is running or terminating, and cells that were all marked are gone. */
  ghost predicate CaughtUp(k: Cluster) {
    && (forall j :: j in k.jobs ==> k.jobs[j].succeeded && !k.jobs[j].terminating)
    && (AllDying(k.cells) ==> k.cells == [])
  }

  ghost predicate Fair(l: Layout, since: nat, w: State, spec: Spec, a: Answers) {
    && Good(l, w) && w.stored.cluster == Updating && since <= |w.cluster.log|
    && spec.managed && spec.layout == l && Favourable(l, since, w, a)
  }

  function Start(l: Layout, w: State): Pass { Pass(Marked(l, w.stored), w.stored, w.cluster) }

  function Seen(w: State, spec: Spec, a: Answers): View { ViewOf(spec, w.cluster, a.surveyed, a) }

  /** Every component answers a favourable survey. */
  lemma SurveyAnswers(spec: Spec, since: nat, w: State, a: Answers) returns (s: Survey)
    requires |spec.layout.httpProxies| > 0 && Favourable(spec.layout, since, w, a)
    ensures SurveyOf(Seen(w, spec, a), w.stored, AllComponents(spec.layout)) == Some(s)
  {
    var v := Seen(w, spec, a);
    forall c | c in AllComponents(spec.layout) ensures Reports(v, w.stored, c) {
      HasTablets(spec.layout, c);
      NeverFails(v, w.stored, c);
    }
    SurveyReports(v, w.stored, AllComponents(spec.layout));
    s := SurveyOf(v, w.stored, AllComponents(spec.layout)).value;
  }

  /** A fair pass surveys all components and then takes the branch of its stage. */
  lemma FairPass(l: Layout, since: nat, w: State, spec: Spec, a: Answers) returns (s: Survey)
    requires Fair(l, since, w, spec, a)
    ensures SurveyOf(Seen(w, spec, a), w.stored, AllComponents(l)) == Some(s)
    ensures RunPass(w, spec, a) ==
      (var q := DispatchOr(Start(l, w), spec, s, AllDone, SyncComponents(Start(l, w), spec, a)); State(q.stored, q.cluster))
  {
    s := SurveyAnswers(spec, since, w, a);
  }

  lemma HasTablets(l: Layout, c: Component)
    requires c in AllComponents(l)
    ensures c.kind == QueryTracker || c.kind == QueueAgent ==> |l.tabletNodes| > 0
  {}

  /** The pass left the update, moved along the route, made something that was missing, or came nearer
      to the end of the stage. */
  ghost predicate Nearer(l: Layout, since: nat, w: State, r: State) {
    || r.stored.cluster == UpdateFinishing
    || r.stored.cluster == CancelUpdate
    || (r.stored.cluster == Updating
        && (Rank(r.stored.update.state) > Rank(w.stored.update.state)
            || (r.stored.update.state == w.stored.update.state
                && (MakingLeft(l, since, r.cluster) < MakingLeft(l, since, w.cluster) || Distance(l, since, r) < Distance(l, since, w)))))
  }

  lemma MovesAreNearer(l: Layout, since: nat, w: State, spec: Spec, a: Answers, s: Survey, synced: Pass)
    requires Good(l, w) && w.stored.cluster == Updating && spec.layout == l
    requires Advance(spec, Marked(l, w.stored), s) != Stay
    ensures var q := DispatchOr(Start(l, w), spec, s, AllDone, synced); Nearer(l, since, w, State(q.stored, q.cluster))
  {
    MarkedBase(l, w.stored, w.cluster);
    var st := Marked(l, w.stored);
    if Advance(spec, st, s).ToUpdate? { RouteAdvances(spec, st, s); } else { ExitsOfRoutes(spec, st, s); }
  }

  // ----- who acts in a stage -----

  /** The stages in which only the client does something. */
  predicate ClientStage(s: UpdateState) {
    match s
    case PossibilityCheck | SafeModeEnabling | TabletCellsSaving | TabletCellsRemovingStart => true
    case TabletCellsRemoving | SnapshotsBuilding | TabletCellsRecovery | SafeModeDisabling => true
    case _ => false
  }

  /** The stages in which components of this kind have something of their own to do. */
  predicate OwnStage(k: Kind, s: UpdateState) {
    || s == PodsRemoval || s == PodsCreation
    || (k == Master && s == MasterExitingReadOnly)
    || (k == Scheduler && (s == OpArchivePreparing || s == OpArchiveUpdating))
    || (k == QueryTracker && (s == QTStatePreparing || s == QTStateUpdating))
  }

  lemma RestsElsewhere(v: View, st: Status, c: Component)
    requires |v.layout.httpProxies| > 0 && st.cluster == Updating
    requires c.kind != YtsaurusClient && !OwnStage(c.kind, st.update.state)
    ensures Decide(v, st, c) == Settled
  {}

  lemma ClientDecides(v: View, st: Status)
    requires |v.layout.httpProxies| > 0 && st.cluster == Updating && st.Done(ClientUser)
    requires st.update.state != PodsRemoval && st.update.state != PodsCreation
    requires !v.clientFails && !v.Of(Single(YtsaurusClient)).secretMissing
    ensures Decide(v, st, Single(YtsaurusClient)) ==
      if st.update.state == ImpossibleToStart then Settled else Do(SyncUpdating, HandleUpdatingState)
  {
    ProxiesRest(v, st);
    ClientUnfolds(v, st, Single(YtsaurusClient));
  }

  predicate ClientHasSecret(w: State, spec: Spec, a: Answers) { !Seen(w, spec, a).Of(Single(YtsaurusClient)).secretMissing }

  lemma ClientIsDone(l: Layout, since: nat, w: State, spec: Spec, a: Answers)
    requires Fair(l, since, w, spec, a)
    ensures w.stored.Done(ClientUser) && Single(YtsaurusClient) in AllComponents(l)
  {
    Members(l);
  }

  /** Without its secret the client makes that first. */
  lemma ClientMakes(v: View, st: Status)
    requires |v.layout.httpProxies| > 0 && st.cluster == Updating
    requires st.update.state != PodsRemoval && st.update.state != PodsCreation && v.Of(Single(YtsaurusClient)).secretMissing
    ensures Decide(v, st, Single(YtsaurusClient)) == Do(Pending, CreateAuxiliary)
  {
    ProxiesRest(v, st);
    ClientUnfolds(v, st, Single(YtsaurusClient));
  }

  lemma ProxiesRest(v: View, st: Status)
    requires |v.layout.httpProxies| > 0 && st.cluster == Updating
    requires st.update.state != PodsRemoval && st.update.state != PodsCreation
    ensures GatesOf(v, st, Single(YtsaurusClient)).firstProxy == Open
  {
    var proxy := Group(HttpProxy, v.layout.httpProxies)[0];
    RestsElsewhere(v, st, proxy);
    assert AllRunning(v, st, [proxy][1..], Depth(YtsaurusClient)) == Open;
    assert AllRunning(v, st, [proxy], Depth(YtsaurusClient)) == Open;
  }

  lemma RestingIsIdle(l: Layout, since: nat, w: State, spec: Spec, a: Answers, p: Pass, c: Component)
    requires Fair(l, since, w, spec, a) && p.mem.cluster == Updating
    requires c.kind != YtsaurusClient && !OwnStage(c.kind, p.mem.update.state)
    ensures Idle(p, spec, w.cluster, a, c)
  {
    RestsElsewhere(Seen(w, spec, a), p.mem, c);
  }

  lemma PerformsClientStep(p: Pass, v: View, c: Component, b: (nat, nat), a: Answers)
    ensures Perform(p, v, c, HandleUpdatingState, b, a) == ClientStep(p, a.yt)
  {}

  lemma ClientSyncs(p: Pass, spec: Spec, fetched: Cluster, a: Answers)
    requires |spec.layout.httpProxies| > 0 && a.checked == a.surveyed && a.synced == a.surveyed && !a.clientFails
    requires !ViewOf(spec, fetched, a.surveyed, a).Of(Single(YtsaurusClient)).secretMissing
    requires p.mem.cluster == Updating && p.mem.Done(ClientUser)
    requires p.mem.update.state != PodsRemoval && p.mem.update.state != PodsCreation && p.mem.update.state != ImpossibleToStart
    ensures SyncOne(p, spec, fetched, a, Single(YtsaurusClient)) == ClientStep(p, a.yt)
  {
    var v := ViewOf(spec, fetched, a.surveyed, a);
    ClientDecides(v, p.mem);
    SyncsAsDecided(p, spec, fetched, a, Single(YtsaurusClient), Do(SyncUpdating, HandleUpdatingState));
    PerformsClientStep(p, v, Single(YtsaurusClient), spec.bootstrap, a);
  }

  /** A pass that stays in its stage stores what syncing all components led to. */
  lemma StayedPass(l: Layout, w: State, spec: Spec, a: Answers, q: Pass)
    requires |l.httpProxies| > 0 && spec.layout == l && a.writes == AllDone
    requires SyncAll(Start(l, w), spec, w.cluster, a, AllComponents(l)) == Step(q, true)
    requires q.mem.update.components != Some([])
    ensures var r := SyncComponents(Start(l, w), spec, a); r.stored == q.mem && r.cluster == q.cluster
  {}

  lemma MovesOrStays(l: Layout, since: nat, w: State, spec: Spec, a: Answers) returns (s: Survey)
    requires Fair(l, since, w, spec, a)
    ensures SurveyOf(Seen(w, spec, a), w.stored, AllComponents(l)) == Some(s)
    ensures Advance(spec, Marked(l, w.stored), s) != Stay ==> Nearer(l, since, w, RunPass(w, spec, a))
    ensures Advance(spec, Marked(l, w.stored), s) == Stay ==>
      var q := SyncComponents(Start(l, w), spec, a); RunPass(w, spec, a) == State(q.stored, q.cluster)
  {
    s := FairPass(l, since, w, spec, a);
    if Advance(spec, Marked(l, w.stored), s) != Stay {
      MovesAreNearer(l, since, w, spec, a, s, SyncComponents(Start(l, w), spec, a));
    }
  }

  /** One component acts; the client and everyone without a task in this stage stay idle. */
  lemma ActsAlone(l: Layout, since: nat, w: State, spec: Spec, a: Answers, p: Pass, c: Component, q: Pass)
    requires Fair(l, since, w, spec, a) && c in AllComponents(l) && !GroupKind(c.kind)
    requires p.mem.cluster == Updating && q.mem.cluster == Updating && q.mem.update.state == p.mem.update.state
    requires SyncOne(p, spec, w.cluster, a, c) == Step(q, true)
    requires forall k :: k != c.kind && k != YtsaurusClient ==> !OwnStage(k, p.mem.update.state)
    requires c.kind != YtsaurusClient ==>
      Idle(p, spec, w.cluster, a, Single(YtsaurusClient)) && Idle(q, spec, w.cluster, a, Single(YtsaurusClient))
    ensures SyncAll(p, spec, w.cluster, a, AllComponents(l)) == Step(q, true)
  {
    var n := Sole(l, c);
    forall i | 0 <= i < |AllComponents(l)| && i != n
      ensures Idle(p, spec, w.cluster, a, AllComponents(l)[i]) && Idle(q, spec, w.cluster, a, AllComponents(l)[i])
    {
      BystanderIsIdle(l, since, w, spec, a, p, c, AllComponents(l)[i]);
      BystanderIsIdle(l, since, w, spec, a, q, c, AllComponents(l)[i]);
    }
    OneActs(p, spec, w.cluster, a, AllComponents(l), n);
  }

  lemma BystanderIsIdle(l: Layout, since: nat, w: State, spec: Spec, a: Answers, p: Pass, c: Component, other: Component)
    requires Fair(l, since, w, spec, a) && other in AllComponents(l) && other.kind != c.kind
    requires p.mem.cluster == Updating
    requires forall k :: k != c.kind && k != YtsaurusClient ==> !OwnStage(k, p.mem.update.state)
    requires c.kind != YtsaurusClient ==> Idle(p, spec, w.cluster, a, Single(YtsaurusClient))
    ensures Idle(p, spec, w.cluster, a, other)
  {
    if other.kind == YtsaurusClient { Residents(l, other); } else { RestingIsIdle(l, since, w, spec, a, p, other); }
  }

  /** What a stage with a single actor leads to. */
  lemma ActorStores(l: Layout, since: nat, w: State, spec: Spec, a: Answers, c: Component, q: Pass)
    requires Fair(l, since, w, spec, a) && c in AllComponents(l) && !GroupKind(c.kind)
    requires Framed(Start(l, w), q) && SyncOne(Start(l, w), spec, w.cluster, a, c) == Step(q, true)
    requires forall k :: k != c.kind && k != YtsaurusClient ==> !OwnStage(k, w.stored.update.state)
    requires c.kind != YtsaurusClient ==>
      Idle(Start(l, w), spec, w.cluster, a, Single(YtsaurusClient)) && Idle(q, spec, w.cluster, a, Single(YtsaurusClient))
    ensures var r := SyncComponents(Start(l, w), spec, a); r.stored == q.mem && r.cluster == q.cluster
  {
    ActsAlone(l, since, w, spec, a, Start(l, w), c, q);
    StayedPass(l, w, spec, a, q);
  }

  // ----- the client's secret comes first -----

  lemma MasterSucceeds(p: Pass, v: View, b: (nat, nat), a: Answers)
    requires p.mem.cluster == Updating && p.mem.update.state == MasterExitingReadOnly && a.CallsOf(Single(Master)) == AllDone
    ensures var d := DecideExitReadOnly(v, p.mem); d.Do? && Perform(p, v, Single(Master), d.action, b, a).ok
  {}

  lemma MasterSyncsAtExit(p: Pass, spec: Spec, fetched: Cluster, a: Answers)
    requires p.mem.cluster == Updating && p.mem.update.state == MasterExitingReadOnly && a.CallsOf(Single(Master)) == AllDone
    requires a.checked == a.surveyed && a.synced == a.surveyed
    ensures SyncOne(p, spec, fetched, a, Single(Master)).ok
  {
    MasterSucceeds(p, ViewOf(spec, fetched, a.surveyed, a), spec.bootstrap, a);
  }

  lemma MasterSyncs(l: Layout, since: nat, w: State, spec: Spec, a: Answers, p: Pass)
    requires Fair(l, since, w, spec, a) && p.mem.cluster == Updating
    requires p.mem.update.state != PodsRemoval && p.mem.update.state != PodsCreation
    ensures SyncOne(p, spec, w.cluster, a, Single(Master)).ok
  {
    if p.mem.update.state == MasterExitingReadOnly {
      AllCallsDone(a, Single(Master));
      MasterSyncsAtExit(p, spec, w.cluster, a);
    } else {
      RestingIsIdle(l, since, w, spec, a, p, Single(Master));
    }
  }

  lemma MakingIsLogged(p: Pass, v: View, c: Component, b: (nat, nat), a: Answers)
    requires a.CallsOf(c) == AllDone
    ensures Perform(p, v, c, CreateAuxiliary, b, a) == Step(p.(cluster := p.cluster.Log(AuxiliaryCreated(c, p.mem.update.state))), true)
  {}

  lemma ClientMakesSecret(p: Pass, spec: Spec, fetched: Cluster, a: Answers)
    requires |spec.layout.httpProxies| > 0 && a.checked == a.surveyed && a.synced == a.surveyed && p.mem.cluster == Updating
    requires p.mem.update.state != PodsRemoval && p.mem.update.state != PodsCreation && a.CallsOf(Single(YtsaurusClient)) == AllDone
    requires ViewOf(spec, fetched, a.surveyed, a).Of(Single(YtsaurusClient)).secretMissing
    ensures var client := Single(YtsaurusClient);
      SyncOne(p, spec, fetched, a, client) == Step(p.(cluster := p.cluster.Log(AuxiliaryCreated(client, p.mem.update.state))), true)
  {
    var v := ViewOf(spec, fetched, a.surveyed, a);
    ClientMakes(v, p.mem);
    SyncsAsDecided(p, spec, fetched, a, Single(YtsaurusClient), Do(Pending, CreateAuxiliary));
    MakingIsLogged(p, v, Single(YtsaurusClient), spec.bootstrap, a);
  }

  lemma {:induction false} SyncAllInTurn(p: Pass, spec: Spec, fetched: Cluster, a: Answers, cs: seq<Component>)
    requires |spec.layout.httpProxies| > 0 && |cs| > 0 && SyncOne(p, spec, fetched, a, cs[0]).ok
    ensures SyncAll(p, spec, fetched, a, cs) == SyncAll(SyncOne(p, spec, fetched, a, cs[0]).pass, spec, fetched, a, cs[1..])
  {}

  lemma ClientIsThird(l: Layout)
    ensures var cs := AllComponents(l); |cs| > 2 && cs[0] == Single(Discovery) && cs[1] == Single(Master) && cs[2] == Single(YtsaurusClient)
  {}

  /** The client is the third to act, and nothing before it fails. */
  lemma BeforeTheClient(l: Layout, since: nat, w: State, spec: Spec, a: Answers, cs: seq<Component>) returns (q: Pass)
    requires Fair(l, since, w, spec, a) && w.stored.update.state != PodsRemoval && w.stored.update.state != PodsCreation
    requires |cs| > 2 && cs[0] == Single(Discovery) && cs[1] == Single(Master)
    ensures SyncOne(Start(l, w), spec, w.cluster, a, Single(Master)) == Step(q, true)
    ensures SyncAll(Start(l, w), spec, w.cluster, a, cs) == SyncAll(q, spec, w.cluster, a, cs[2..])
    ensures Kept(Start(l, w).mem, q.mem) && w.cluster.log <= q.cluster.log
  {
    var p := Start(l, w);
    RestingIsIdle(l, since, w, spec, a, p, Single(Discovery));
    MasterSyncs(l, since, w, spec, a, p);
    AfterTwo(p, spec, w.cluster, a, cs);
    SyncOneKept(p, spec, w.cluster, a, Single(Master));
    SyncOneLogs(p, spec, w.cluster, a, Single(Master));
    var s := SyncOne(p, spec, w.cluster, a, Single(Master));
    q := s.pass;
  }

  lemma AfterTwo(p: Pass, spec: Spec, fetched: Cluster, a: Answers, cs: seq<Component>)
    requires |spec.layout.httpProxies| > 0 && |cs| > 2
    requires Idle(p, spec, fetched, a, cs[0]) && SyncOne(p, spec, fetched, a, cs[1]).ok
    ensures SyncAll(p, spec, fetched, a, cs) == SyncAll(SyncOne(p, spec, fetched, a, cs[1]).pass, spec, fetched, a, cs[2..])
  {
    SyncAllInTurn(p, spec, fetched, a, cs);
    assert cs[1..][1..] == cs[2..] && cs[1..][0] == cs[1];
    SyncAllInTurn(p, spec, fetched, a, cs[1..]);
  }

  lemma SecretIsMade(l: Layout, since: nat, w: State, spec: Spec, a: Answers)
    requires Fair(l, since, w, spec, a) && !ClientHasSecret(w, spec, a)
    requires w.stored.update.state != PodsRemoval && w.stored.update.state != PodsCreation
    ensures Made(Single(YtsaurusClient), SyncAll(Start(l, w), spec, w.cluster, a, AllComponents(l)).pass.cluster.log, since)
  {
    ClientIsThird(l);
    var q := BeforeTheClient(l, since, w, spec, a, AllComponents(l));
    SecretIsMadeFrom(l, since, w, spec, a, q, AllComponents(l)[2..]);
  }

  lemma SecretIsMadeFrom(l: Layout, since: nat, w: State, spec: Spec, a: Answers, q: Pass, cs: seq<Component>)
    requires Fair(l, since, w, spec, a) && !ClientHasSecret(w, spec, a) && q.mem.cluster == Updating && w.cluster.log <= q.cluster.log
    requires q.mem.update.state != PodsRemoval && q.mem.update.state != PodsCreation
    requires |cs| > 0 && cs[0] == Single(YtsaurusClient)
    ensures Made(Single(YtsaurusClient), SyncAll(q, spec, w.cluster, a, cs).pass.cluster.log, since)
  {
    var client := Single(YtsaurusClient);
    AllCallsDone(a, client);
    ClientMakesSecret(q, spec, w.cluster, a);
    SyncAllInTurn(q, spec, w.cluster, a, cs);
    var r := q.(cluster := q.cluster.Log(AuxiliaryCreated(client, q.mem.update.state)));
    assert r.cluster.log[|q.cluster.log|] == AuxiliaryCreated(client, q.mem.update.state);
    SyncAllLogs(r, spec, w.cluster, a, cs[1..]);
    WritesGrow(client, r.cluster.log, SyncAll(r, spec, w.cluster, a, cs[1..]).pass.cluster.log, since);
  }

  /** A pass in which the client lacks its secret leaves one thing less to make. */
  lemma SecretFirst(l: Layout, since: nat, w: State, spec: Spec, a: Answers)
    requires Fair(l, since, w, spec, a) && !ClientHasSecret(w, spec, a)
    requires w.stored.update.state != PodsRemoval && w.stored.update.state != PodsCreation
    ensures Nearer(l, since, w, RunPass(w, spec, a))
  {
    var client := Single(YtsaurusClient);
    var s := MovesOrStays(l, since, w, spec, a);
    if Advance(spec, Marked(l, w.stored), s) == Stay {
      SecretIsMade(l, since, w, spec, a);
      SyncAllLogs(Start(l, w), spec, w.cluster, a, AllComponents(l));
      SyncAllKept(Start(l, w), spec, w.cluster, a, AllComponents(l));
      ClientIsDone(l, since, w, spec, a);
      assert ComesUp(w.stored, client, Seen(w, spec, a).Of(client), w.cluster.log, since);
      UnmadeDrops(AllComponents(l), w.cluster.log, SyncComponents(Start(l, w), spec, a).cluster.log, since, client);
    }
  }
}
