/** The exact condition under which an update can still end when the layout stays as it is from now
    on, and that nothing but the layout ever changes it. */
module Viability {
  import opened ClusterStatus
  import opened Components
  import opened World
  import opened Reconcile
  import opened Actions
  import opened Safety
  import opened Readiness
  import opened Initialised
  import opened Durable
  import PossibilityCheck

  /** A component that is not initialized and cannot be while the cluster is updating: then there is no
      client for its initialization to use. */
  predicate NeedsClient(st: Status, c: Component) {
    || (c.kind == QueueAgent && !st.queueAgentReady)
    || (c.kind == TabletNode && c.first && !st.bundlesReady)
  }

  predicate Barred(l: Layout, st: Status) {
    exists c :: c in AllComponents(l) && IsUpdatingComponent(st, c) && NeedsClient(st, c)
  }

  /** On the way to being cancelled. */
  predicate Refused(st: Status) {
    var u := st.update;
    || u.state == ImpossibleToStart
    || (Rank(u.state) <= 1 && u.flow != FlowStateless && u.Has(NoPossibility) && !u.Has(HasPossibility))
  }

  /** Whether an update in this status can end over this layout: nobody who is still to be recreated
      lacks an initialization that needs the client, and whoever the stage waits for is there. */
  predicate Viable(l: Layout, st: Status) {
    var u := st.update;
    && (Rank(u.state) <= 9 && !Refused(st) ==> !Barred(l, st))
    && (u.state == OpArchiveUpdating && !u.Has(OpArchiveUpdated) ==>
          NeedSchedulerUpdate(l, st) && (|l.tabletNodes| > 0 || st.Done(OpArchive)))
    && (u.state == QTStateUpdating && !u.Has(QTStateUpdated) ==> NeedQueryTrackerUpdate(l, st))
  }

  // ----- a viable update stays viable -----

  lemma KeptBarred(l: Layout, st: Status, to: Status)
    requires Kept(st, to) && Barred(l, to)
    ensures Barred(l, st)
  {
    var c :| c in AllComponents(l) && IsUpdatingComponent(to, c) && NeedsClient(to, c);
    assert IsUpdatingComponent(st, c) && NeedsClient(st, c);
  }

  lemma KeptViable(l: Layout, st: Status, to: Status)
    requires st.cluster == Updating && Kept(st, to) && Viable(l, st)
    ensures Viable(l, to)
  {
    if Barred(l, to) { KeptBarred(l, st, to); }
  }

  lemma MoveViable(spec: Spec, st: Status, s: Survey)
    requires st.cluster == Updating && RouteOk(st) && ArchiveMarked(spec.layout, st) && Viable(spec.layout, st)
    requires Advance(spec, st, s).ToUpdate?
    ensures Viable(spec.layout, st.(update := st.update.(state := Advance(spec, st, s).update)))
  {
    RouteAdvances(spec, st, s);
    MovePassesArchive(spec, st, s);
    MovePassesQueries(spec, st, s);
    RefusalsAreCancelled(spec, st, s);
    MovedViable(spec.layout, st, Advance(spec, st, s).update);
  }

  /** A refused update moves to the dead end and nowhere else; other updates do not go there. */
  lemma RefusalsAreCancelled(spec: Spec, st: Status, s: Survey)
    requires st.cluster == Updating && RouteOk(st) && Advance(spec, st, s).ToUpdate?
    ensures var next := st.(update := st.update.(state := Advance(spec, st, s).update)); Refused(next) <==> Refused(st)
  {}

  lemma SameBarred(l: Layout, st: Status, next: UpdateState)
    ensures Barred(l, st.(update := st.update.(state := next))) <==> Barred(l, st)
  {
    var to := st.(update := st.update.(state := next));
    assert forall c :: IsUpdatingComponent(to, c) == IsUpdatingComponent(st, c) && NeedsClient(to, c) == NeedsClient(st, c);
  }

  lemma MovedViable(l: Layout, st: Status, next: UpdateState)
    requires st.cluster == Updating && Viable(l, st) && Rank(next) > Rank(st.update.state) && Passed(l, st, next)
    requires Refused(st.(update := st.update.(state := next))) <==> Refused(st)
    ensures Viable(l, st.(update := st.update.(state := next)))
  {
    SameBarred(l, st, next);
  }

  lemma UpdatingViable(p: Pass, spec: Spec, s: Survey, w: Outcomes, synced: Pass)
    requires Syncing(p) && ArchiveMarked(spec.layout, p.mem) && Viable(spec.layout, p.mem) && Viable(spec.layout, p.stored)
    requires Viable(spec.layout, synced.stored)
    ensures var q := DispatchOr(p, spec, s, w, synced).stored; q.cluster == Updating ==> Viable(spec.layout, q)
  {
    match Advance(spec, p.mem, s)
    case Stay =>
    case ToUpdate(u) => MoveViable(spec, p.mem, s);
    case ToCluster(_) => ExitsOfRoutes(spec, p.mem, s);
  }

  lemma MarkedArchive(l: Layout, st: Status)
    requires st.cluster == Updating
    ensures ArchiveMarked(l, Marked(l, st))
  {}

  lemma SyncViable(p: Pass, spec: Spec, a: Answers)
    requires Syncing(p) && |spec.layout.httpProxies| > 0 && Viable(spec.layout, p.mem) && Viable(spec.layout, p.stored)
    ensures Viable(spec.layout, SyncComponents(p, spec, a).stored)
  {
    SyncComponentsKept(p, spec, a);
    var q := SyncComponents(p, spec, a).stored;
    if q != p.stored { KeptViable(spec.layout, p.mem, q); }
  }

  /** Over one layout a viable update stays viable, whatever the answers. */
  lemma NextViable(l: Layout, w: State, act: Label)
    requires Base(w.stored, w.cluster) && w.stored.cluster == Updating && Viable(l, w.stored) && FixedLayout(l, act)
    ensures Next(w, act).stored.cluster == Updating ==> Viable(l, Next(w, act).stored)
  {
    if act.PassWith? && act.spec.managed && |l.httpProxies| > 0 && !act.answers.fetchFails {
      var spec, a := act.spec, act.answers;
      var s := SurveyOf(ViewOf(spec, w.cluster, a.surveyed, a), w.stored, AllComponents(l));
      if s.Some? {
        var p := Pass(Marked(l, w.stored), w.stored, w.cluster);
        MarkedBase(l, w.stored, w.cluster);
        MarkedKept(l, w.stored);
        MarkedArchive(l, w.stored);
        KeptViable(l, w.stored, p.mem);
        SyncViable(p, spec, a);
        UpdatingViable(p, spec, s.value, a.writes, SyncComponents(p, spec, a));
      }
    }
  }

  // ----- an update that is not viable stays so -----

  /** What one action can add to the status of an updating cluster. */
  predicate Gains(v: View, st: Status, to: Status, c: Component, yt: YtAnswers) {
    && to.bundlesReady == st.bundlesReady && to.queueAgentReady == st.queueAgentReady
    && (to.Done(OpArchive) ==> st.Done(OpArchive) || |v.layout.tabletNodes| > 0)
    && (to.update.Has(OpArchiveUpdated) ==>
          || st.update.Has(OpArchiveUpdated)
          || (st.update.state == OpArchiveUpdating && c.kind == Scheduler && IsUpdatingComponent(st, c) && st.Done(OpArchive)))
    && (to.update.Has(QTStateUpdated) ==>
          || st.update.Has(QTStateUpdated)
          || (st.update.state == QTStateUpdating && c.kind == QueryTracker && IsUpdatingComponent(st, c)))
    && (to.update.Has(NoPossibility) ==>
          st.update.Has(NoPossibility) || PossibilityCheck.Judge(yt.possibility) == PossibilityCheck.Impossible)
  }

  lemma JobGains(p: Pass, v: View, c: Component, action: Action, b: (nat, nat), a: Answers)
    requires Allowed(v, p.mem, c, action) && (action.CreateJob? || action.CompleteJob?)
    ensures Gains(v, p.mem, Perform(p, v, c, action, b, a).pass.mem, c, a.yt)
  {
    if action.CreateJob? { CreateJobQuiet(p, action.job, a.CallsOf(c).first, a.CallsOf(c).second); }
  }

  lemma RestartGains(p: Pass, v: View, c: Component, j: JobId, o1: Outcome, o2: Outcome, yt: YtAnswers)
    ensures Gains(v, p.mem, PrepareRestartStep(p, v, j, o1, o2).pass.mem, c, yt)
  {
    RestartMemory(p, v, j, o1, o2);
  }

  lemma ExitGains(p: Pass, v: View, c: Component, restart: bool, o1: Outcome, o2: Outcome, yt: YtAnswers)
    ensures var s := if restart then PrepareRestartStep(p, v, ExitReadOnly, o1, o2) else Step(p, true);
      Gains(v, p.mem, Bind(s, s.pass.Note(MasterExitReadOnlyPrepared)).pass.mem, c, yt)
  {
    RestartGains(p, v, c, ExitReadOnly, o1, o2, yt);
  }

  lemma PodsGains(p: Pass, v: View, c: Component, gone: bool, o: Outcome, yt: YtAnswers)
    ensures Gains(v, p.mem, RemovePodsStep(p, c, gone, o).pass.mem, c, yt)
  {}

  lemma ClientGains(p: Pass, v: View, c: Component, yt: YtAnswers)
    ensures Gains(v, p.mem, ClientStep(p, yt).pass.mem, c, yt)
  {
    ClientFrame(p, yt);
    ClientAnswer(p, yt);
  }

  lemma SmallGains(p: Pass, v: View, c: Component, action: Action, b: (nat, nat), a: Answers)
    requires p.mem.cluster == Updating
    requires action == Nothing || action == WriteServer || action == CreateAuxiliary || action == FinishExit || action == InitQueueAgent
    ensures Gains(v, p.mem, Perform(p, v, c, action, b, a).pass.mem, c, a.yt)
  {}

  lemma {:induction false} PerformGains(p: Pass, v: View, c: Component, action: Action, b: (nat, nat), a: Answers)
    requires Allowed(v, p.mem, c, action) && p.mem.cluster == Updating
    ensures Gains(v, p.mem, Perform(p, v, c, action, b, a).pass.mem, c, a.yt)
    decreases action
  {
    var o := a.CallsOf(c);
    match action
    case CreateJob(_) => JobGains(p, v, c, action, b, a);
    case CompleteJob(_) => JobGains(p, v, c, action, b, a);
    case PrepareRestart(j) => RestartGains(p, v, c, j, o.first, o.second, a.yt);
    case PrepareExit(restart) => ExitGains(p, v, c, restart, o.first, o.second, a.yt);
    case SetCondition(cond) =>
    case RemovePods => PodsGains(p, v, c, v.Of(c).podsGone, o.first, a.yt);
    case HandleUpdatingState => ClientGains(p, v, c, a.yt);
    case InitQueryTracker(next) =>
      if !a.clientMissing && o.third == Done {
        PerformGains(p.(mem := p.mem.(queryTrackerReady := true)), v, c, next, b, a);
      }
    case _ => SmallGains(p, v, c, action, b, a);
  }

  /** An update that cannot end over this layout. */
  predicate Hopeless(l: Layout, st: Status) { st.cluster == Updating && !Viable(l, st) }

  lemma GainsHopeless(l: Layout, v: View, st: Status, to: Status, c: Component, yt: YtAnswers)
    requires Hopeless(l, st) && Kept(st, to) && Gains(v, st, to, c, yt) && v.layout == l && c in AllComponents(l)
    requires PossibilityCheck.Judge(yt.possibility) != PossibilityCheck.Impossible
    ensures Hopeless(l, to)
  {
    Residents(l, c);
    if Barred(l, st) {
      var x :| x in AllComponents(l) && IsUpdatingComponent(st, x) && NeedsClient(st, x);
      assert IsUpdatingComponent(to, x) && NeedsClient(to, x);
    }
  }

  lemma SyncOneHopeless(l: Layout, p: Pass, spec: Spec, fetched: Cluster, a: Answers, c: Component)
    requires Hopeless(l, p.mem) && spec.layout == l && |l.httpProxies| > 0 && c in AllComponents(l)
    requires PossibilityCheck.Judge(a.yt.possibility) != PossibilityCheck.Impossible
    ensures var q := SyncOne(p, spec, fetched, a, c).pass; Hopeless(l, q.mem) && q.stored == p.stored
  {
    var v := ViewOf(spec, fetched, a.synced, a);
    var d := Decide(v, p.mem, c);
    if d.Do? {
      DecisionsAreAllowed(v, p.mem, c);
      PerformKept(p, v, c, d.action, spec.bootstrap, a);
      PerformGains(p, v, c, d.action, spec.bootstrap, a);
      GainsHopeless(l, v, p.mem, Perform(p, v, c, d.action, spec.bootstrap, a).pass.mem, c, a.yt);
    }
  }

  lemma {:induction false} SyncAllHopeless(l: Layout, p: Pass, spec: Spec, fetched: Cluster, a: Answers, cs: seq<Component>)
    requires Hopeless(l, p.mem) && spec.layout == l && |l.httpProxies| > 0 && forall c :: c in cs ==> c in AllComponents(l)
    requires PossibilityCheck.Judge(a.yt.possibility) != PossibilityCheck.Impossible
    ensures var q := SyncAll(p, spec, fetched, a, cs).pass; Hopeless(l, q.mem) && q.stored == p.stored
    decreases |cs|
  {
    if cs != [] {
      SyncOneHopeless(l, p, spec, fetched, a, cs[0]);
      var s := SyncOne(p, spec, fetched, a, cs[0]);
      if s.ok { SyncAllHopeless(l, s.pass, spec, fetched, a, cs[1..]); }
    }
  }

  lemma SyncHopeless(l: Layout, p: Pass, spec: Spec, a: Answers)
    requires Hopeless(l, p.mem) && Hopeless(l, p.stored) && p.mem.update.components != Some([])
    requires spec.layout == l && |l.httpProxies| > 0 && PossibilityCheck.Judge(a.yt.possibility) != PossibilityCheck.Impossible
    ensures Hopeless(l, SyncComponents(p, spec, a).stored)
  {
    SyncAllHopeless(l, p, spec, p.cluster, a, AllComponents(l));
    SyncAllKept(p, spec, p.cluster, a, AllComponents(l));
  }

  /** Whoever needs the client is not ready while pods are created. */
  lemma BarredIsNotReady(v: View, st: Status, c: Component)
    requires |v.layout.httpProxies| > 0 && st.cluster == Updating && st.update.state == PodsCreation
    requires IsUpdatingComponent(st, c) && NeedsClient(st, c)
    ensures !StatusIs(v, st, c, Ready) && !StatusIs(v, st, c, SyncUpdating)
  {
    assert DecideUpdating(v, st, c) == None;
    NotReadyBehind(v, st, c, GatesOf(v, st, c));
    assert DecideOrdinary(v, st, c) == OrdinaryBehind(v, st, c, GatesOf(v, st, c));
  }

  lemma NotReadyBehind(v: View, st: Status, c: Component, g: GateSet)
    requires st.cluster == Updating && NeedsClient(st, c)
    ensures var d := OrdinaryBehind(v, st, c, g); d.Do? ==> d.status != Ready && d.status != SyncUpdating
  {}

  lemma BarredHolds(v: View, st: Status, s: Survey)
    requires |v.layout.httpProxies| > 0 && st.cluster == Updating && st.update.state == PodsCreation && Barred(v.layout, st)
    requires SurveyOf(v, st, AllComponents(v.layout)) == Some(s)
    ensures !s.allReadyOrUpdating
  {
    ReadyMeaning(v, st, AllComponents(v.layout));
    var c :| c in AllComponents(v.layout) && IsUpdatingComponent(st, c) && NeedsClient(st, c);
    BarredIsNotReady(v, st, c);
  }

  /** Every route passes through the creation of pods, and only a refused update is cancelled before. */
  lemma PodsAreUnavoidable(spec: Spec, st: Status, s: Survey)
    requires st.cluster == Updating && RouteOk(st) && Rank(st.update.state) <= 9 && !Refused(st)
    requires st.update.state == PodsCreation ==> !s.allReadyOrUpdating
    ensures var m := Advance(spec, st, s); m == Stay || (m.ToUpdate? && Rank(m.update) <= 9)
  {}

  lemma WaitsOn(spec: Spec, st: Status, s: Survey)
    requires st.cluster == Updating && RouteOk(st) && Hopeless(spec.layout, st)
    requires Rank(st.update.state) > 9 || Refused(st)
    ensures Advance(spec, st, s) == Stay
  {}

  lemma MoveHopeless(p: Pass, spec: Spec, s: Survey, w: Outcomes, synced: Pass)
    requires Syncing(p) && Hopeless(spec.layout, p.mem) && Hopeless(spec.layout, p.stored) && Hopeless(spec.layout, synced.stored)
    requires p.mem.update.state == PodsCreation && Barred(spec.layout, p.mem) ==> !s.allReadyOrUpdating
    ensures Hopeless(spec.layout, DispatchOr(p, spec, s, w, synced).stored)
  {
    if Rank(p.mem.update.state) > 9 || Refused(p.mem) {
      WaitsOn(spec, p.mem, s);
    } else {
      PodsAreUnavoidable(spec, p.mem, s);
      if Advance(spec, p.mem, s).ToUpdate? {
        SameBarred(spec.layout, p.mem, Advance(spec, p.mem, s).update);
        RefusalsAreCancelled(spec, p.mem, s);
      }
    }
  }

  lemma MarkedHopeless(l: Layout, st: Status)
    requires Hopeless(l, st)
    ensures Hopeless(l, Marked(l, st))
  {
    if Barred(l, st) {
      var x :| x in AllComponents(l) && IsUpdatingComponent(st, x) && NeedsClient(st, x);
      assert IsUpdatingComponent(Marked(l, st), x) && NeedsClient(Marked(l, st), x);
    }
  }

  lemma MarkedBarred(l: Layout, st: Status)
    ensures Barred(l, Marked(l, st)) ==> Barred(l, st)
  {
    MarkedKept(l, st);
    if Barred(l, Marked(l, st)) { KeptBarred(l, st, Marked(l, st)); }
  }

  /** A pass that does not refuse the update. */
  predicate NotRefusing(act: Label) {
    act.PassWith? ==> PossibilityCheck.Judge(act.answers.yt.possibility) != PossibilityCheck.Impossible
  }

  lemma NextHopeless(l: Layout, w: State, act: Label)
    requires Base(w.stored, w.cluster) && Hopeless(l, w.stored) && FixedLayout(l, act) && NotRefusing(act)
    ensures Hopeless(l, Next(w, act).stored)
  {
    if act.PassWith? && act.spec.managed && |l.httpProxies| > 0 && !act.answers.fetchFails {
      var spec, a := act.spec, act.answers;
      var v := ViewOf(spec, w.cluster, a.surveyed, a);
      var s := SurveyOf(v, w.stored, AllComponents(l));
      if s.Some? {
        var p := Pass(Marked(l, w.stored), w.stored, w.cluster);
        MarkedBase(l, w.stored, w.cluster);
        MarkedHopeless(l, w.stored);
        MarkedBarred(l, w.stored);
        if w.stored.update.state == PodsCreation && Barred(l, w.stored) { BarredHolds(v, w.stored, s.value); }
        SyncHopeless(l, p, spec, a);
        MoveHopeless(p, spec, s.value, a.writes, SyncComponents(p, spec, a));
      }
    }
  }

  /** Over a layout for which it is not viable, an update that is not refused never ends, however the
      run goes on. */
  lemma {:induction false} HopelessForever(l: Layout, w: State, acts: seq<Label>)
    requires Base(w.stored, w.cluster) && Hopeless(l, w.stored)
    requires forall i :: 0 <= i < |acts| ==> FixedLayout(l, acts[i]) && NotRefusing(acts[i])
    ensures var r := Run(w, acts); Base(r.stored, r.cluster) && Hopeless(l, r.stored)
    decreases |acts|
  {
    if acts != [] {
      HopelessForever(l, w, acts[..|acts| - 1]);
      NextBase(Run(w, acts[..|acts| - 1]), acts[|acts| - 1]);
      NextHopeless(l, Run(w, acts[..|acts| - 1]), acts[|acts| - 1]);
    }
  }
}
