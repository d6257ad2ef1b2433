/** Runs that exist: every layout comes up, starts an update and gets to the stages that the other
    results talk about. */
module Reachability {
  import opened ClusterStatus
  import opened Components
  import opened World
  import opened FlowChoice
  import opened Reconcile
  import opened Actions
  import opened Safety
  import opened Readiness
  import opened Names
  import opened Initialised
  import opened Durable
  import opened Viability
  import opened Rounds
  import opened Building
  import opened FairPasses
  import opened Progress
  import opened BringUp
  import opened Removal
  import PossibilityCheck

  // ----- rounds are runs -----

  ghost predicate AllFixed(l: Layout, acts: seq<Label>) { forall i :: 0 <= i < |acts| ==> FixedLayout(l, acts[i]) }

  lemma OneRoundIsARun(spec: Spec, a: Answers, w: State) returns (acts: seq<Label>)
    ensures Run(w, acts) == Round(w, spec, a) && AllFixed(spec.layout, acts)
  {
    var env := RoundIsARun(w, spec, a);
    acts := env + [PassWith(spec, a)];
  }

  lemma {:induction false} RoundsAreARun(spec: Spec, env: State -> Answers, w: State, n: nat) returns (acts: seq<Label>)
    ensures Run(w, acts) == Iterate(RoundsOf(spec, env), w, n) && AllFixed(spec.layout, acts)
    decreases n
  {
    acts := [];
    if n > 0 {
      var one := OneRoundIsARun(spec, env(w), w);
      var rest := RoundsAreARun(spec, env, Run(w, one), n - 1);
      RunAppend(w, one, rest);
      acts := one + rest;
    }
  }

  predicate AtStop(t: UpdateState, w: State) { w.stored.cluster == Updating && w.stored.update.state == t }

  /** Passes outside an update and generous rounds with this spec keep `inv` until stop `t` is reached. */
  ghost predicate KeptUntil(spec: Spec, t: UpdateState, inv: State -> bool) {
    && (forall x, a :: inv(x) && x.stored.cluster != Updating ==> inv(RunPass(x, spec, a)))
    && (forall x :: inv(x) && !AtStop(t, x) ==> inv(Round(x, spec, GenerousAnswers(x))))
  }

  lemma {:induction false} IterateKeeps(spec: Spec, t: UpdateState, inv: State -> bool, w: State, n: nat)
    requires KeptUntil(spec, t, inv) && inv(w)
    requires forall m :: 0 <= m < n ==> !AtStop(t, Iterate(RoundsOf(spec, GenerousAnswers), w, m))
    ensures inv(Iterate(RoundsOf(spec, GenerousAnswers), w, n))
    decreases n
  {
    var step := RoundsOf(spec, GenerousAnswers);
    if n > 0 {
      assert Iterate(step, w, 0) == w;
      assert step(w) == Round(w, spec, GenerousAnswers(w));
      forall m | 0 <= m < n - 1 ensures !AtStop(t, Iterate(step, step(w), m)) {
        assert Iterate(step, w, m + 1) == Iterate(step, step(w), m);
      }
      IterateKeeps(spec, t, inv, step(w), n - 1);
    }
  }

  // ----- coming up -----

  /** A new cluster with the default bundle and perhaps some old jobs. */
  function NewCluster(jobs: map<JobId, JobObject>): State {
    State(Fresh, Cluster(false, ["default"], [], jobs, {}, 0, [], []))
  }

  /** The first pass of a new cluster. */
  lemma FirstPass(spec: Spec, jobs: map<JobId, JobObject>) returns (a: Answers)
    requires spec.managed && |spec.layout.httpProxies| > 0
    ensures Initial(NewCluster(jobs))
    ensures RunPass(NewCluster(jobs), spec, a) == NewCluster(jobs).(stored := Fresh.(cluster := Initializing))
  {
    a := FavourableAnswersExist(spec.layout, 0, NewCluster(jobs));
    CreatedPass(spec, 0, NewCluster(jobs), a);
  }

  lemma RisesGenerously(spec: Spec, w: State, t: UpdateState, inv: State -> bool) returns (acts: seq<Label>)
    requires spec.managed && Rising(spec.layout, w) && KeptUntil(spec, t, inv) && inv(w)
    ensures AllFixed(spec.layout, acts) && Run(w, acts).stored.cluster == Running && inv(Run(w, acts))
  {
    GenerousIsFavourable(spec.layout, 0);
    RoundsRise(spec, 0, GenerousAnswers);
    var n := RisesToRunning(spec.layout, 0, RoundsOf(spec, GenerousAnswers), w);
    IterateKeeps(spec, t, inv, w, n);
    acts := RoundsAreARun(spec, GenerousAnswers, w, n);
  }

  /** Every layout comes up. */
  lemma ReachRunning(spec: Spec, jobs: map<JobId, JobObject>, t: UpdateState, inv: State -> bool) returns (acts: seq<Label>)
    requires spec.managed && |spec.layout.httpProxies| > 0 && KeptUntil(spec, t, inv) && inv(NewCluster(jobs))
    ensures Initial(NewCluster(jobs)) && AllFixed(spec.layout, acts)
    ensures Run(NewCluster(jobs), acts).stored.cluster == Running && inv(Run(NewCluster(jobs), acts))
  {
    var first, x := FirstSteps(spec, jobs, t, inv);
    var rest := RisesGenerously(spec, x, t, inv);
    RunAppend(NewCluster(jobs), first, rest);
    acts := first + rest;
  }

  lemma FirstSteps(spec: Spec, jobs: map<JobId, JobObject>, t: UpdateState, inv: State -> bool) returns (acts: seq<Label>, x: State)
    requires spec.managed && |spec.layout.httpProxies| > 0 && KeptUntil(spec, t, inv) && inv(NewCluster(jobs))
    ensures Initial(NewCluster(jobs)) && AllFixed(spec.layout, acts)
    ensures Run(NewCluster(jobs), acts) == x && Rising(spec.layout, x) && inv(x)
  {
    var w := NewCluster(jobs);
    var a := FirstPass(spec, jobs);
    RunStep(w, [], PassWith(spec, a));
    acts := [] + [PassWith(spec, a)];
    x := RunPass(w, spec, a);
    RunBase(w, acts);
  }

  // ----- starting an update -----

  /** Nothing is missing and every server stands; some components may want an update. */
  ghost predicate Standing(l: Layout, v: View) {
    && v.layout == l && |l.httpProxies| > 0 && !v.clientFails
    && forall c :: c in AllComponents(l) ==> StandsUp(v.Of(c))
  }

  predicate StandsUp(o: Observation) { !o.secretMissing && !o.serviceMissing && !o.needBuild && o.podsReady }

  predicate AllDoneOnce(l: Layout, st: Status) {
    OnceDone(l, st) && (HasArchive(l) ==> st.Done(OpArchive)) && (HasQueryTracker(l) ==> st.Done(QTState))
  }

  predicate AllGatesOpen(g: GateSet) {
    && g.firstProxy == Open && g.master == Open && g.execNodes == Open && g.dataNodes == Open
    && g.tabletNodes == Open && g.scheduler == Open && g.client == Open
  }

  lemma DoneIsReady(v: View, st: Status, c: Component, g: GateSet)
    requires st.cluster == Running && AllDoneOnce(v.layout, st) && Hosts(v.layout, c.kind) && StandsUp(v.Of(c)) && AllGatesOpen(g)
    ensures c.kind != YtsaurusClient ==> OrdinaryBehind(v, st, c, g).Do? && OrdinaryBehind(v, st, c, g).status == Ready
    ensures c.kind == YtsaurusClient && !v.clientFails ==> ClientBehind(v, st, c, g) == Settled
  {}

  predicate RunsFine(v: View, st: Status, c: Component)
  {
    StatusIs(v, st, c, if c.kind != YtsaurusClient && v.Of(c).needUpdate then NeedLocalUpdate else Ready)
  }

  ghost predicate BelowFine(l: Layout, v: View, st: Status, depth: nat)
  {
    forall c :: c in AllComponents(l) && Depth(c.kind) < depth ==> RunsFine(v, st, c)
  }

  lemma AskedFine(l: Layout, v: View, st: Status, k: Kind, cs: seq<Component>)
    requires |v.layout.httpProxies| > 0 && BelowFine(l, v, st, Depth(k)) && forall c :: c in cs ==> c in AllComponents(l)
    ensures Asked(v, st, k, cs) == Open
  {
    if forall c :: c in cs ==> Depth(c.kind) < Depth(k) {
      assert forall c :: c in cs ==> RunsFine(v, st, c);
      GateMeaning(v, st, cs, Depth(k));
    }
  }

  lemma AskedOneFine(l: Layout, v: View, st: Status, k: Kind, c: Component)
    requires |v.layout.httpProxies| > 0 && BelowFine(l, v, st, Depth(k)) && c in AllComponents(l)
    ensures Asked(v, st, k, [c]) == Open
  {
    assert forall x :: x in [c] ==> x == c;
    AskedFine(l, v, st, k, [c]);
  }

  lemma GroupsFine(l: Layout, v: View, st: Status, k: Kind)
    requires |l.httpProxies| > 0 && v.layout == l && BelowFine(l, v, st, Depth(k))
    ensures Asked(v, st, k, Group(ExecNode, l.execNodes)) == Open
    ensures Asked(v, st, k, Group(DataNode, l.dataNodes)) == Open
    ensures Asked(v, st, k, Group(TabletNode, l.tabletNodes)) == Open
  {
    GroupsAreResident(l);
    AskedFine(l, v, st, k, Group(ExecNode, l.execNodes));
    AskedFine(l, v, st, k, Group(DataNode, l.dataNodes));
    AskedFine(l, v, st, k, Group(TabletNode, l.tabletNodes));
  }

  lemma SinglesFine(l: Layout, v: View, st: Status, k: Kind)
    requires |l.httpProxies| > 0 && v.layout == l && BelowFine(l, v, st, Depth(k)) && Hosts(l, k)
    ensures Asked(v, st, k, [Single(Master)]) == Open && Asked(v, st, k, [Single(Scheduler)]) == Open
    ensures Asked(v, st, k, FirstProxy(l)) == Open && AskedClient(v, st, k) == Open
  {
    Members(l);
    GroupsAreResident(l);
    AskedOneFine(l, v, st, k, Single(Master));
    AskedOneFine(l, v, st, k, Group(HttpProxy, l.httpProxies)[0]);
    if k == StrawberryController {
      AskedOneFine(l, v, st, k, Single(Scheduler));
    } else {
      OnlyStrawberryAsks(v, st, k);
    }
    if Depth(k) > Depth(YtsaurusClient) { assert RunsFine(v, st, Single(YtsaurusClient)); }
  }

  lemma {:induction false} RunningIsFine(l: Layout, v: View, st: Status, c: Component)
    requires Standing(l, v) && st.cluster == Running && AllDoneOnce(l, st) && c in AllComponents(l)
    ensures RunsFine(v, st, c)
    decreases Depth(c.kind)
  {
    forall x | x in AllComponents(l) && Depth(x.kind) < Depth(c.kind) ensures RunsFine(v, st, x) { RunningIsFine(l, v, st, x); }
    ResidentsAreHosted(l, c);
    SinglesFine(l, v, st, c.kind);
    GroupsFine(l, v, st, c.kind);
    FineBehind(v, st, c);
  }

  lemma FineBehind(v: View, st: Status, c: Component)
    requires |v.layout.httpProxies| > 0 && !v.clientFails && st.cluster == Running && AllDoneOnce(v.layout, st) && Hosts(v.layout, c.kind)
    requires StandsUp(v.Of(c)) && AllGatesOpen(GatesOf(v, st, c))
    ensures RunsFine(v, st, c)
  {
    DoneIsReady(v, st, c, GatesOf(v, st, c));
    OrdinaryUnfolds(v, st, c);
    if c.kind == YtsaurusClient { ClientUnfolds(v, st, c); }
  }

  /** Generous answers, except that one component wants an update. */
  function WantingAnswers(w: State, c: Component): Answers {
    GenerousAnswers(w).(surveyed := map[c.name := Healthy.(needUpdate := true)])
  }

  lemma WantingSurvey(spec: Spec, w: State, c: Component) returns (s: Survey)
    requires |spec.layout.httpProxies| > 0 && w.stored.cluster == Running && AllDoneOnce(spec.layout, w.stored)
    requires c in AllComponents(spec.layout) && c.kind != YtsaurusClient && !GroupKind(c.kind)
    ensures SurveyOf(Seen(w, spec, WantingAnswers(w, c)), w.stored, AllComponents(spec.layout)) == Some(s)
    ensures s.needSync && !s.needInit && s.needUpdate != [] && forall x :: x in s.needUpdate ==> x == c
  {
    var l, v := spec.layout, Seen(w, spec, WantingAnswers(w, c));
    assert Standing(l, v);
    forall x | x in AllComponents(l) ensures RunsFine(v, w.stored, x) { RunningIsFine(l, v, w.stored, x); }
    SurveyReports(v, w.stored, AllComponents(l));
    s := SurveyOf(v, w.stored, AllComponents(l)).value;
    SyncMeaning(v, w.stored, AllComponents(l));
    ReadyMeaning(v, w.stored, AllComponents(l));
    assert StatusIs(v, w.stored, c, NeedLocalUpdate);
    forall x | x in s.needUpdate ensures x == c { OnlyTheNamed(l, v, w.stored, c, x); }
    assert c in s.needUpdate;
  }

  lemma OnlyTheNamed(l: Layout, v: View, st: Status, c: Component, x: Component)
    requires |v.layout.httpProxies| > 0 && v.seen == map[c.name := Healthy.(needUpdate := true)]
    requires c in AllComponents(l) && x in AllComponents(l) && !GroupKind(c.kind)
    requires RunsFine(v, st, x) && StatusIs(v, st, x, NeedLocalUpdate)
    ensures x == c
  {
    assert x.name == c.name;
    OnlyOneSoNamed(l, c, x);
  }

  lemma OnlyOneSoNamed(l: Layout, c: Component, x: Component)
    requires c in AllComponents(l) && x in AllComponents(l) && !GroupKind(c.kind) && x.name == c.name
    ensures x == c
  {
    ResidentsWellNamed(l, c);
    ResidentsWellNamed(l, x);
    if x.kind != c.kind { KindsDoNotClash(x, c); }
    LayoutSound(l, false);
    var i :| 0 <= i < |AllComponents(l)| && AllComponents(l)[i] == x;
    var j :| 0 <= j < |AllComponents(l)| && AllComponents(l)[j] == c;
  }

  /** The pass that stores a full update because the master wants one. */
  lemma FullUpdateStarts(spec: Spec, w: State) returns (a: Answers)
    requires spec.managed && spec.selector == Everything && |spec.layout.httpProxies| > 0
    requires w.stored.cluster == Running && w.stored.update == Blank && AllDoneOnce(spec.layout, w.stored)
    ensures RunPass(w, spec, a) == State(
      w.stored.(cluster := Updating, update := Blank.(flow := FlowFull)),
      w.cluster.(log := [], baseline := w.cluster.cells))
  {
    a := WantingAnswers(w, Single(Master));
    Members(spec.layout);
    var s := WantingSurvey(spec, w, Single(Master));
    var p := Pass(w.stored, w.stored, w.cluster);
    assert s.needUpdate[0] in s.needUpdate;
    FullStartStored(p, spec, s, SyncComponents(p, spec, a));
  }

  lemma FullStartStored(p: Pass, spec: Spec, s: Survey, synced: Pass)
    requires spec.selector == Everything && p.mem.cluster == Running && p.mem.update == Blank && p.mem == p.stored
    requires s.needSync && !s.needInit && Single(Master) in s.needUpdate
    ensures var q := DispatchOr(p, spec, s, AllDone, synced);
      && q.stored == p.mem.(cluster := Updating, update := Blank.(flow := FlowFull))
      && q.cluster == p.cluster.(log := [], baseline := p.cluster.cells)
  {
    assert Choose(spec.selector, spec.enableFullUpdate, s.needUpdate) == Chosen(FlowFull, None);
  }

  // ----- along the route -----

  /** The stops that this layout has. */
  predicate Visits(l: Layout, t: UpdateState) {
    && OnRoute(FlowFull, t)
    && (t == OpArchiveUpdating ==> HasArchive(l))
    && (t == QTStateUpdating ==> HasQueryTracker(l))
  }

  /** A full update on its way to stop `t`. */
  ghost predicate OnWay(l: Layout, t: UpdateState, w: State) {
    Good(l, w) && Steady(l, w.stored, w.cluster) && Heading(t, w.stored)
  }

  /** What ends stop `t`, where that is told by one condition of a component. */
  function Fruit(t: UpdateState): Option<Condition> {
    match t
    case PodsRemoval => Some(PodsRemoved(BaseName(Master)))
    case OpArchiveUpdating => Some(OpArchiveUpdated)
    case QTStateUpdating => Some(QTStateUpdated)
    case _ => None
  }

  /** What syncing cannot add before it is time. */
  predicate Calm(t: UpdateState, st: Status, to: Status) {
    && (to.update.Has(NoPossibility) ==> st.update.Has(NoPossibility))
    && (Fruit(t).Some? && to.update.Has(Fruit(t).value) ==> st.update.Has(Fruit(t).value) || st.update.state == t)
  }

  lemma PerformCalm(t: UpdateState, p: Pass, v: View, c: Component, action: Action, b: (nat, nat), a: Answers)
    requires Allowed(v, p.mem, c, action) && p.mem.cluster == Updating
    requires PossibilityCheck.Judge(a.yt.possibility) != PossibilityCheck.Impossible
    ensures Calm(t, p.mem, Perform(p, v, c, action, b, a).pass.mem)
  {
    PerformGains(p, v, c, action, b, a);
    if action.InitQueryTracker? {
      QueryTrackerKeepsPods(p, v, c, action.next, b, a);
    } else if action != RemovePods {
      OthersSame(p, v, c, action, b, a);
    }
  }

  lemma SyncOneCalm(t: UpdateState, p: Pass, spec: Spec, fetched: Cluster, a: Answers, c: Component)
    requires |spec.layout.httpProxies| > 0 && p.mem.cluster == Updating
    requires PossibilityCheck.Judge(a.yt.possibility) != PossibilityCheck.Impossible
    ensures Calm(t, p.mem, SyncOne(p, spec, fetched, a, c).pass.mem)
  {
    var v := ViewOf(spec, fetched, a.synced, a);
    var d := Decide(v, p.mem, c);
    if d.Do? {
      DecisionsAreAllowed(v, p.mem, c);
      PerformCalm(t, p, v, c, d.action, spec.bootstrap, a);
    }
  }

  lemma {:induction false} SyncAllCalm(t: UpdateState, p: Pass, spec: Spec, fetched: Cluster, a: Answers, cs: seq<Component>)
    requires |spec.layout.httpProxies| > 0 && p.mem.cluster == Updating
    requires PossibilityCheck.Judge(a.yt.possibility) != PossibilityCheck.Impossible
    ensures Calm(t, p.mem, SyncAll(p, spec, fetched, a, cs).pass.mem)
    decreases |cs|
  {
    if cs != [] {
      SyncOneCalm(t, p, spec, fetched, a, cs[0]);
      SyncOneKept(p, spec, fetched, a, cs[0]);
      var s := SyncOne(p, spec, fetched, a, cs[0]);
      if s.ok { SyncAllCalm(t, s.pass, spec, fetched, a, cs[1..]); }
    }
  }

  /** The route leads to every stop ahead and not past it. */
  lemma HeadsFor(spec: Spec, st: Status, s: Survey, t: UpdateState)
    requires st.cluster == Updating && st.update.flow == FlowFull && st.update.components == None && !st.update.Has(NoPossibility)
    requires st.update.state != ImpossibleToStart && StagesOk(spec.layout, st)
    requires Visits(spec.layout, t) && Rank(st.update.state) < Rank(t)
    ensures var m := Advance(spec, st, s);
      m == Stay || (m.ToUpdate? && m.update != ImpossibleToStart && Rank(st.update.state) < Rank(m.update) <= Rank(t))
  {
    NextStopIsNext(FlowFull, Rank(st.update.state), t);
    if Rank(t) > Rank(st.update.state) + 1 { NextStopIsNext(FlowFull, Rank(st.update.state) + 1, t); }
  }

  lemma NotMarkedYet(l: Layout, st: Status)
    requires st.cluster == Updating
    ensures Marked(l, st).update.Has(NoPossibility) == st.update.Has(NoPossibility)
    ensures forall t :: Fruit(t).Some? ==> Marked(l, st).update.Has(Fruit(t).value) == st.update.Has(Fruit(t).value)
    ensures var u, v := st.update, Marked(l, st).update; v.state == u.state && v.flow == u.flow && v.components == u.components
  {}

  /** The part of `OnWay` that is about the stored update only. */
  predicate Heading(t: UpdateState, st: Status) {
    && st.cluster == Updating && st.update.flow == FlowFull && st.update.components == None
    && Rank(st.update.state) <= Rank(t) && !st.update.Has(NoPossibility) && st.update.state != ImpossibleToStart
    && (Fruit(t).Some? ==> !st.update.Has(Fruit(t).value))
  }

  lemma SyncedHeading(p: Pass, spec: Spec, a: Answers, t: UpdateState)
    requires |spec.layout.httpProxies| > 0 && Heading(t, p.mem) && Heading(t, p.stored) && Rank(p.mem.update.state) < Rank(t)
    requires PossibilityCheck.Judge(a.yt.possibility) != PossibilityCheck.Impossible
    ensures Heading(t, SyncComponents(p, spec, a).stored)
  {
    SyncAllCalm(t, p, spec, p.cluster, a, AllComponents(spec.layout));
    SyncAllKept(p, spec, p.cluster, a, AllComponents(spec.layout));
  }

  lemma MovedHeading(t: UpdateState, st: Status, next: UpdateState)
    requires Heading(t, st) && next != ImpossibleToStart && Rank(next) <= Rank(t)
    ensures Heading(t, st.(update := st.update.(state := next)))
  {}

  lemma DispatchHeading(p: Pass, spec: Spec, s: Survey, synced: Pass, t: UpdateState)
    requires Heading(t, p.mem) && Heading(t, p.stored) && Heading(t, synced.stored) && StagesOk(spec.layout, p.mem)
    requires Visits(spec.layout, t) && Rank(p.mem.update.state) < Rank(t)
    ensures Heading(t, DispatchOr(p, spec, s, AllDone, synced).stored)
  {
    HeadsFor(spec, p.mem, s, t);
    var m := Advance(spec, p.mem, s);
    if m.ToUpdate? { MovedHeading(t, p.mem, m.update); }
  }

  lemma PassHeading(spec: Spec, w: State, a: Answers, t: UpdateState)
    requires Fair(spec.layout, 0, w, spec, a) && PossibilityCheck.Judge(a.yt.possibility) != PossibilityCheck.Impossible
    requires Heading(t, w.stored) && Steady(spec.layout, w.stored, w.cluster) && Visits(spec.layout, t) && Rank(w.stored.update.state) < Rank(t)
    ensures Heading(t, RunPass(w, spec, a).stored)
  {
    var p := Start(spec.layout, w);
    var s := FairPass(spec.layout, 0, w, spec, a);
    NotMarkedYet(spec.layout, w.stored);
    MarkedSteady(spec.layout, w.stored, w.cluster);
    SyncedHeading(p, spec, a, t);
    DispatchHeading(p, spec, s, SyncComponents(p, spec, a), t);
  }

  lemma SettledSteady(l: Layout, w: State)
    requires Steady(l, w.stored, w.cluster)
    ensures Steady(l, w.stored, Settle(w.cluster))
  {
    SettleFacts(w.cluster, ClientUser);
  }

  /** One generous round stays on the way and comes nearer. */
  lemma OnWayRound(spec: Spec, w: State, t: UpdateState)
    requires OnWay(spec.layout, t, w) && Rank(w.stored.update.state) < Rank(t) && Visits(spec.layout, t) && spec.managed
    ensures var r := Round(w, spec, GenerousAnswers(w)); OnWay(spec.layout, t, r) && Closer(spec.layout, 0, w, r)
  {
    var l, a, settled := spec.layout, GenerousAnswers(w), w.(cluster := Settle(w.cluster));
    GenerousIsFavourable(l, 0);
    assert FavourableRound(l, 0, w, a);
    RoundIsNearer(l, 0, w, spec, a);
    RoundGood(l, w, spec, a);
    SettledSteady(l, w);
    SettledIsFair(l, 0, w, spec, a);
    NextSteady(l, settled, PassWith(spec, a));
    GenerousIsNotRefusing(spec, w);
    PassHeading(spec, settled, a, t);
  }

  lemma SameRank(s: UpdateState, t: UpdateState)
    requires Rank(s) == Rank(t)
    ensures s == t
  {}

  ghost function Way(l: Layout, t: UpdateState): State -> bool { (x: State) => OnWay(l, t, x) }
  function There(t: UpdateState): State -> bool { (x: State) => x.stored.update.state == t }
  function Ahead(): State -> nat { (x: State) => StopsLeft(x.stored.update.state) }
  ghost function Making(l: Layout): State -> nat { (x: State) => MakingLeft(l, 0, x.cluster) }
  ghost function Left(l: Layout): State -> nat { (x: State) => Distance(l, 0, x) }

  lemma CloserIsLower(l: Layout, t: UpdateState, w: State, r: State)
    requires Closer(l, 0, w, r) && OnWay(l, t, r)
    ensures Lower(Ahead(), Making(l), Left(l), w, r)
  {}

  /** Generous rounds lead to every stop ahead. */
  lemma RoundsDescend(spec: Spec, w: State, t: UpdateState)
    requires Visits(spec.layout, t) && spec.managed && Way(spec.layout, t)(w) && !There(t)(w)
    ensures var r := Round(w, spec, GenerousAnswers(w)); Way(spec.layout, t)(r) && Lower(Ahead(), Making(spec.layout), Left(spec.layout), w, r)
  {
    if Rank(w.stored.update.state) == Rank(t) { SameRank(w.stored.update.state, t); }
    OnWayRound(spec, w, t);
    CloserIsLower(spec.layout, t, w, Round(w, spec, GenerousAnswers(w)));
  }

  lemma ReachStop(spec: Spec, w: State, t: UpdateState) returns (n: nat)
    requires Visits(spec.layout, t) && spec.managed && Way(spec.layout, t)(w)
    ensures var step := RoundsOf(spec, GenerousAnswers);
      && Way(spec.layout, t)(Iterate(step, w, n)) && There(t)(Iterate(step, w, n))
      && forall m :: 0 <= m < n ==> !There(t)(Iterate(step, w, m))
  {
    var l, step := spec.layout, RoundsOf(spec, GenerousAnswers);
    forall x | Way(l, t)(x) && !There(t)(x) ensures Way(l, t)(step(x)) && Lower(Ahead(), Making(l), Left(l), x, step(x)) {
      RoundsDescend(spec, x, t);
    }
    n := Descend(step, Way(l, t), There(t), Ahead(), Making(l), Left(l), w);
  }

  lemma SteadyIsGood(l: Layout, w: State)
    requires |l.httpProxies| > 0 && Base(w.stored, w.cluster) && Steady(l, w.stored, w.cluster)
    ensures Good(l, w)
  {
    if w.stored.cluster == Updating { SteadyIsViable(l, w.stored, w.cluster); }
  }

  lemma AlongTheRoute(spec: Spec, w: State, t: UpdateState, inv: State -> bool) returns (acts: seq<Label>)
    requires spec.managed && OnWay(spec.layout, t, w) && Visits(spec.layout, t) && KeptUntil(spec, t, inv) && inv(w)
    ensures AllFixed(spec.layout, acts) && OnWay(spec.layout, t, Run(w, acts)) && AtStop(t, Run(w, acts)) && inv(Run(w, acts))
  {
    var n := ReachStop(spec, w, t);
    IterateKeeps(spec, t, inv, w, n);
    acts := RoundsAreARun(spec, GenerousAnswers, w, n);
  }

  lemma StartsOnWay(spec: Spec, w: State, t: UpdateState) returns (a: Answers)
    requires spec.managed && spec.selector == Everything && |spec.layout.httpProxies| > 0
    requires Base(w.stored, w.cluster) && Steady(spec.layout, w.stored, w.cluster) && w.stored.cluster == Running
    ensures var r := RunPass(w, spec, a); OnWay(spec.layout, t, r) && Begun(r.stored)
    ensures RunPass(w, spec, a).cluster == w.cluster.(log := [], baseline := w.cluster.cells)
  {
    var l := spec.layout;
    a := FullUpdateStarts(spec, w);
    NextBase(w, PassWith(spec, a));
    NextSteady(l, w, PassWith(spec, a));
    SteadyIsGood(l, RunPass(w, spec, a));
  }

  lemma ReachSteady(spec: Spec, jobs: map<JobId, JobObject>, t: UpdateState, inv: State -> bool) returns (acts: seq<Label>, x: State)
    requires spec.managed && |spec.layout.httpProxies| > 0 && KeptUntil(spec, t, inv) && inv(NewCluster(jobs))
    ensures Initial(NewCluster(jobs)) && AllFixed(spec.layout, acts) && Run(NewCluster(jobs), acts) == x && inv(x)
    ensures Base(x.stored, x.cluster) && Steady(spec.layout, x.stored, x.cluster) && x.stored.cluster == Running
  {
    acts := ReachRunning(spec, jobs, t, inv);
    RunSteady(spec.layout, NewCluster(jobs), [], acts);
    assert [] + acts == acts;
    x := Run(NewCluster(jobs), acts);
  }

  lemma ReachStart(spec: Spec, jobs: map<JobId, JobObject>, t: UpdateState, inv: State -> bool) returns (pre: seq<Label>)
    requires spec.managed && spec.selector == Everything && |spec.layout.httpProxies| > 0
    requires KeptUntil(spec, t, inv) && inv(NewCluster(jobs))
    ensures Initial(NewCluster(jobs)) && AllFixed(spec.layout, pre)
    ensures var r := Run(NewCluster(jobs), pre); OnWay(spec.layout, t, r) && Begun(r.stored) && inv(r)
  {
    var up, x := ReachSteady(spec, jobs, t, inv);
    var a := StartsOnWay(spec, x, t);
    RunStep(NewCluster(jobs), up, PassWith(spec, a));
    pre := up + [PassWith(spec, a)];
  }

  lemma ReachKeeping(spec: Spec, jobs: map<JobId, JobObject>, t: UpdateState, inv: State -> bool)
    returns (pre: seq<Label>, post: seq<Label>)
    requires spec.managed && spec.selector == Everything && |spec.layout.httpProxies| > 0 && Visits(spec.layout, t)
    requires KeptUntil(spec, t, inv) && inv(NewCluster(jobs))
    ensures Initial(NewCluster(jobs)) && AllFixed(spec.layout, pre) && AllFixed(spec.layout, post)
    ensures Begun(Run(NewCluster(jobs), pre).stored)
    ensures var r := Run(NewCluster(jobs), pre + post); OnWay(spec.layout, t, r) && AtStop(t, r) && inv(r)
  {
    pre := ReachStart(spec, jobs, t, inv);
    post := AlongTheRoute(spec, Run(NewCluster(jobs), pre), t, inv);
    RunAppend(NewCluster(jobs), pre, post);
  }

  /** Over every layout with a proxy, and whatever old jobs there are: a new cluster comes up, stores a
      full update, and gets to each stop that this layout has. */
  lemma EveryStopIsReachable(spec: Spec, jobs: map<JobId, JobObject>, t: UpdateState) returns (acts: seq<Label>)
    requires spec.managed && spec.selector == Everything && |spec.layout.httpProxies| > 0 && Visits(spec.layout, t)
    ensures Initial(NewCluster(jobs)) && AllFixed(spec.layout, acts) && AtStop(t, Run(NewCluster(jobs), acts))
  {
    var pre, post := ReachKeeping(spec, jobs, t, _ => true);
    acts := pre + post;
  }

  /** And to no other, apart from the dead end. */
  lemma OnlyVisitedStops(l: Layout, w: State, pre: seq<Label>, post: seq<Label>)
    requires Initial(w) && Run(w, pre).stored.cluster in {Created, Initializing, Reconfiguration} && AllFixed(l, post)
    ensures var st := Run(w, pre + post).stored;
      st.cluster == Updating && st.update.flow == FlowFull && st.update.state != ImpossibleToStart ==> Visits(l, st.update.state)
  {
    RunSteady(l, w, pre, post);
  }
}
