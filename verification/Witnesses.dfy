/** Runs in which a promise is not kept: for each result with an exact condition, a run from a new
    cluster into a state on the wrong side of it. */
module Witnesses {
  import opened ClusterStatus
  import opened Components
  import opened World
  import opened FlowChoice
  import opened Reconcile
  import opened Actions
  import opened Safety
  import opened Names
  import opened Initialised
  import opened Durable
  import opened Viability
  import opened Freshness
  import opened Removal
  import opened Rounds
  import opened Building
  import opened FairPasses
  import opened PodStages
  import opened Progress
  import opened ReadOnlyExit
  import opened Reachability

  // ----- an update that waits for a component that is gone -----

  function Over(spec: Spec, l: Layout): Spec { spec.(layout := l) }

  /** The update would have ended, and now it waits forever. */
  ghost predicate Sticks(spec: Spec, gone: Layout, w: State) {
    Ends(spec, GenerousAnswers, w) && !Ends(Over(spec, gone), GenerousAnswers, w)
  }

  lemma SticksWithout(spec: Spec, gone: Layout, w: State)
    requires Good(spec.layout, w) && spec.managed && w.stored.cluster == Updating && !Viable(gone, w.stored)
    ensures Sticks(spec, gone, w)
  {
    GenerousIsFavourable(spec.layout, 0);
    GoodEnds(spec, 0, GenerousAnswers, w);
    EndlessNeverEnds(Over(spec, gone), w);
  }

  lemma WaitsForTheGone(l: Layout, gone: Layout, w: State, t: UpdateState)
    requires OnWay(l, t, w) && AtStop(t, w)
    requires (t == OpArchiveUpdating && !gone.schedulers) || (t == QTStateUpdating && !gone.queryTrackers)
    ensures Good(l, w) && !Viable(gone, w.stored)
  {
    assert Fruit(t).Some? && !w.stored.update.Has(Fruit(t).value);
  }

  /** The scheduler is taken out of the spec while its archive is being updated. */
  lemma DroppingTheSchedulerSticks(spec: Spec) returns (acts: seq<Label>)
    requires spec.managed && spec.selector == Everything && |spec.layout.httpProxies| > 0 && HasArchive(spec.layout)
    ensures Initial(NewCluster(map[])) && AtStop(OpArchiveUpdating, Run(NewCluster(map[]), acts))
    ensures Sticks(spec, spec.layout.(schedulers := false), Run(NewCluster(map[]), acts))
  {
    var pre, post := ReachKeeping(spec, map[], OpArchiveUpdating, _ => true);
    acts := pre + post;
    var r, gone := Run(NewCluster(map[]), acts), spec.layout.(schedulers := false);
    WaitsForTheGone(spec.layout, gone, r, OpArchiveUpdating);
    SticksWithout(spec, gone, r);
  }

  /** The update of the archive begins with its job undone. */
  ghost predicate ArchiveFresh(w: State) {
    && Base(w.stored, w.cluster) && RestartOk(w.stored, w.cluster, OpArchive)
    && (AtStop(OpArchiveUpdating, w) ==> !w.stored.Done(OpArchive))
  }

  lemma ArrivesUndone(p: Pass, spec: Spec, s: Survey, w: Outcomes, synced: Pass)
    requires Syncing(p) && RestartOk(p.mem, p.cluster, OpArchive)
    requires p.mem.update.state != OpArchiveUpdating && p.stored.update.state != OpArchiveUpdating
    requires synced.stored.update.state != OpArchiveUpdating
    ensures var q := DispatchOr(p, spec, s, w, synced).stored;
      q.cluster == Updating && q.update.state == OpArchiveUpdating ==> !q.Done(OpArchive)
  {
    if Advance(spec, p.mem, s).ToUpdate? { MovesUndone(p.mem, p.cluster, spec, s); }
  }

  lemma MovesUndone(st: Status, k: Cluster, spec: Spec, s: Survey)
    requires st.cluster == Updating && Base(st, k) && RestartOk(st, k, OpArchive) && Advance(spec, st, s).ToUpdate?
    ensures Advance(spec, st, s).update == OpArchiveUpdating ==> !st.Done(OpArchive)
  {
    RouteAdvances(spec, st, s);
    EarnedAfterAdvances(spec, st, s);
  }

  lemma DispatchArrivesUndone(p: Pass, spec: Spec, s: Survey, a: Answers)
    requires Syncing(p) && RestartOk(p.mem, p.cluster, OpArchive) && |spec.layout.httpProxies| > 0
    requires p.mem.update.state != OpArchiveUpdating && p.stored.update.state != OpArchiveUpdating
    ensures var q := Dispatch(p, spec, s, a).stored;
      q.cluster == Updating && q.update.state == OpArchiveUpdating ==> !q.Done(OpArchive)
  {
    SyncAllKept(p, spec, p.cluster, a, AllComponents(spec.layout));
    ArrivesUndone(p, spec, s, a.writes, SyncComponents(p, spec, a));
  }

  lemma PassArrivesUndone(w: State, spec: Spec, a: Answers)
    requires ArchiveFresh(w) && !AtStop(OpArchiveUpdating, w)
    ensures AtStop(OpArchiveUpdating, RunPass(w, spec, a)) ==> !RunPass(w, spec, a).stored.Done(OpArchive)
  {
    if spec.managed && |spec.layout.httpProxies| > 0 && !a.fetchFails {
      var s := SurveyOf(ViewOf(spec, w.cluster, a.surveyed, a), w.stored, AllComponents(spec.layout));
      if s.Some? {
        var p := Pass(Marked(spec.layout, w.stored), w.stored, w.cluster);
        MarkedBase(spec.layout, w.stored, w.cluster);
        if w.stored.cluster == Updating {
          MarkedFresh(spec.layout, w.stored, w.cluster, OpArchive);
          DispatchArrivesUndone(p, spec, s.value, a);
        } else {
          OutsideStarts(p, spec, s.value, a);
        }
      }
    }
  }

  lemma PassKeepsArchive(w: State, spec: Spec, a: Answers)
    requires ArchiveFresh(w) && !AtStop(OpArchiveUpdating, w)
    ensures ArchiveFresh(RunPass(w, spec, a))
  {
    NextBase(w, PassWith(spec, a));
    NextFresh(w, PassWith(spec, a), OpArchive);
    PassArrivesUndone(w, spec, a);
  }

  lemma {:induction false} EnvKeepsArchive(st: Status, k: Cluster, es: seq<EnvEvent>)
    requires RestartOk(st, k, OpArchive)
    ensures RestartOk(st, EnvSteps(k, es), OpArchive)
    decreases |es|
  {
    if es != [] {
      EnvKeepsArchive(st, k, es[..|es| - 1]);
      EnvFresh(st, EnvSteps(k, es[..|es| - 1]), es[|es| - 1], OpArchive);
    }
  }

  lemma ArchiveIsFresh(spec: Spec)
    ensures KeptUntil(spec, OpArchiveUpdating, ArchiveFresh)
  {
    forall x: State, a: Answers | ArchiveFresh(x) && !AtStop(OpArchiveUpdating, x)
      ensures ArchiveFresh(RunPass(x, spec, a)) && ArchiveFresh(Round(x, spec, a))
    {
      PassKeepsArchive(x, spec, a);
      var es := SettleIsEnvironment(x.cluster);
      EnvKeepsArchive(x.stored, x.cluster, es);
      SettledBase(x);
      PassKeepsArchive(x.(cluster := Settle(x.cluster)), spec, a);
    }
  }

  /** The tablet nodes are taken out of the spec before the archive job of the update has run. */
  lemma DroppingTheTabletNodesSticks(spec: Spec) returns (acts: seq<Label>)
    requires spec.managed && spec.selector == Everything && |spec.layout.httpProxies| > 0 && HasArchive(spec.layout)
    ensures Initial(NewCluster(map[])) && AtStop(OpArchiveUpdating, Run(NewCluster(map[]), acts))
    ensures Sticks(spec, spec.layout.(tabletNodes := []), Run(NewCluster(map[]), acts))
  {
    ArchiveIsFresh(spec);
    RunBase(NewCluster(map[]), []);
    var pre, post := ReachKeeping(spec, map[], OpArchiveUpdating, ArchiveFresh);
    acts := pre + post;
    var r, gone := Run(NewCluster(map[]), acts), spec.layout.(tabletNodes := []);
    UndoneArchiveWaits(spec.layout, gone, r);
    SticksWithout(spec, gone, r);
  }

  lemma UndoneArchiveWaits(l: Layout, gone: Layout, w: State)
    requires OnWay(l, OpArchiveUpdating, w) && AtStop(OpArchiveUpdating, w) && ArchiveFresh(w) && gone.tabletNodes == []
    ensures Good(l, w) && !Viable(gone, w.stored)
  {
    assert !w.stored.update.Has(Fruit(OpArchiveUpdating).value);
  }

  /** The same with the query tracker and its state. */
  lemma DroppingTheQueryTrackerSticks(spec: Spec) returns (acts: seq<Label>)
    requires spec.managed && spec.selector == Everything && |spec.layout.httpProxies| > 0 && HasQueryTracker(spec.layout)
    ensures Initial(NewCluster(map[])) && AtStop(QTStateUpdating, Run(NewCluster(map[]), acts))
    ensures Sticks(spec, spec.layout.(queryTrackers := false), Run(NewCluster(map[]), acts))
  {
    var pre, post := ReachKeeping(spec, map[], QTStateUpdating, _ => true);
    acts := pre + post;
    var r, gone := Run(NewCluster(map[]), acts), spec.layout.(queryTrackers := false);
    WaitsForTheGone(spec.layout, gone, r, QTStateUpdating);
    SticksWithout(spec, gone, r);
  }

  // ----- an update that meets a component that was never initialized -----

  lemma ExitLeavesFlags(p: Pass, v: View, restart: bool, o1: Outcome, o2: Outcome)
    ensures var s := if restart then PrepareRestartStep(p, v, ExitReadOnly, o1, o2) else Step(p, true);
      var q := Bind(s, s.pass.Note(MasterExitReadOnlyPrepared)).pass;
      q.mem.queueAgentReady == p.mem.queueAgentReady && q.mem.bundlesReady == p.mem.bundlesReady
  {
    RestartMemory(p, v, ExitReadOnly, o1, o2);
  }

  /** A flag changes only by the component it belongs to. */
  predicate FlagsLeft(c: Component, st: Status, to: Status) {
    && (c.kind != QueueAgent ==> to.queueAgentReady == st.queueAgentReady)
    && (c.kind != TabletNode ==> to.bundlesReady == st.bundlesReady)
  }

  lemma {:induction false} PerformLeavesFlags(p: Pass, v: View, c: Component, action: Action, b: (nat, nat), a: Answers)
    requires Allowed(v, p.mem, c, action)
    ensures FlagsLeft(c, p.mem, Perform(p, v, c, action, b, a).pass.mem)
    decreases action
  {
    var o := a.CallsOf(c);
    match action
    case CreateJob(j) => CreateJobQuiet(p, j, o.first, o.second);
    case PrepareRestart(j) => RestartMemory(p, v, j, o.first, o.second);
    case PrepareExit(restart) => ExitLeavesFlags(p, v, restart, o.first, o.second);
    case HandleUpdatingState => ClientFrame(p, a.yt);
    case InitBundles => InitBundlesEvents(p, b, a.yt.outcomes);
    case InitQueryTracker(next) =>
      if !a.clientMissing && o.third == Done {
        PerformLeavesFlags(p.(mem := p.mem.(queryTrackerReady := true)), v, c, next, b, a);
      }
    case _ =>
  }

  /** Components that the layout lacks have not been initialized. */
  predicate FlagsDown(l: Layout, st: Status) {
    (!HasQueueAgent(l) ==> !st.queueAgentReady) && (l.tabletNodes == [] ==> !st.bundlesReady)
  }

  lemma {:induction false} SyncAllLeavesFlags(l: Layout, p: Pass, spec: Spec, fetched: Cluster, a: Answers, cs: seq<Component>)
    requires |spec.layout.httpProxies| > 0 && FlagsDown(l, p.mem) && forall c :: c in cs ==> Hosts(l, c.kind)
    ensures FlagsDown(l, SyncAll(p, spec, fetched, a, cs).pass.mem)
    decreases |cs|
  {
    if cs != [] {
      var v := ViewOf(spec, fetched, a.synced, a);
      var d := Decide(v, p.mem, cs[0]);
      if d.Do? {
        DecisionsAreAllowed(v, p.mem, cs[0]);
        PerformLeavesFlags(p, v, cs[0], d.action, spec.bootstrap, a);
      }
      var s := SyncOne(p, spec, fetched, a, cs[0]);
      if s.ok { SyncAllLeavesFlags(l, s.pass, spec, fetched, a, cs[1..]); }
    }
  }

  lemma DispatchLeavesFlags(l: Layout, p: Pass, spec: Spec, s: Survey, w: Outcomes, synced: Pass)
    requires FlagsDown(l, p.mem) && FlagsDown(l, p.stored) && FlagsDown(l, synced.stored)
    ensures FlagsDown(l, DispatchOr(p, spec, s, w, synced).stored)
  {}

  lemma PassLeavesFlags(w: State, spec: Spec, a: Answers)
    requires FlagsDown(spec.layout, w.stored)
    ensures FlagsDown(spec.layout, RunPass(w, spec, a).stored)
  {
    var l := spec.layout;
    if spec.managed && |l.httpProxies| > 0 && !a.fetchFails {
      var s := SurveyOf(ViewOf(spec, w.cluster, a.surveyed, a), w.stored, AllComponents(l));
      if s.Some? {
        var p := Pass(Marked(l, w.stored), w.stored, w.cluster);
        forall c | c in AllComponents(l) ensures Hosts(l, c.kind) { ResidentsAreHosted(l, c); }
        SyncAllLeavesFlags(l, p, spec, p.cluster, a, AllComponents(l));
        SyncAllKept(p, spec, p.cluster, a, AllComponents(l));
        DispatchLeavesFlags(l, p, spec, s.value, a.writes, SyncComponents(p, spec, a));
      }
    }
  }

  lemma FlagsStayDown(spec: Spec, t: UpdateState)
    ensures KeptUntil(spec, t, (w: State) => FlagsDown(spec.layout, w.stored))
  {
    forall x: State, a: Answers | FlagsDown(spec.layout, x.stored)
      ensures FlagsDown(spec.layout, RunPass(x, spec, a).stored) && FlagsDown(spec.layout, Round(x, spec, a).stored)
    {
      PassLeavesFlags(x, spec, a);
      PassLeavesFlags(x.(cluster := Settle(x.cluster)), spec, a);
    }
  }

  /** The layout `with` has a component that needs the client and was never initialized. */
  lemma MeetsTheUninitialized(l: Layout, with: Layout, w: State)
    requires OnWay(l, PossibilityCheck, w) && FlagsDown(l, w.stored)
    requires (HasQueueAgent(with) && !HasQueueAgent(l)) || (with.tabletNodes != [] && l.tabletNodes == [])
    ensures Good(l, w) && !Viable(with, w.stored)
  {
    Members(with);
    if HasQueueAgent(with) && !HasQueueAgent(l) {
      assert Single(QueueAgent) in Agents(with);
      assert IsUpdatingComponent(w.stored, Single(QueueAgent)) && NeedsClient(w.stored, Single(QueueAgent));
    } else {
      GroupsAreResident(with);
      var first := Group(TabletNode, with.tabletNodes)[0];
      assert first in Group(TabletNode, with.tabletNodes);
      assert IsUpdatingComponent(w.stored, first) && NeedsClient(w.stored, first);
    }
  }

  lemma AddingSticks(spec: Spec, with: Layout) returns (acts: seq<Label>)
    requires spec.managed && spec.selector == Everything && |spec.layout.httpProxies| > 0
    requires (HasQueueAgent(with) && !HasQueueAgent(spec.layout)) || (with.tabletNodes != [] && spec.layout.tabletNodes == [])
    ensures Initial(NewCluster(map[])) && AtStop(PossibilityCheck, Run(NewCluster(map[]), acts))
    ensures Sticks(spec, with, Run(NewCluster(map[]), acts))
  {
    FlagsStayDown(spec, PossibilityCheck);
    var pre, post := ReachKeeping(spec, map[], PossibilityCheck, (w: State) => FlagsDown(spec.layout, w.stored));
    acts := pre + post;
    MeetsTheUninitialized(spec.layout, with, Run(NewCluster(map[]), acts));
    SticksWithout(spec, with, Run(NewCluster(map[]), acts));
  }

  /** A queue agent is put into the spec while a full update is under way: its initialization has no
      client to use during an update, and without it the agent never becomes ready. */
  lemma AddingAQueueAgentSticks(spec: Spec) returns (acts: seq<Label>)
    requires spec.managed && spec.selector == Everything && |spec.layout.httpProxies| > 0
    requires !spec.layout.queueAgents && |spec.layout.tabletNodes| > 0
    ensures Initial(NewCluster(map[])) && AtStop(PossibilityCheck, Run(NewCluster(map[]), acts))
    ensures Sticks(spec, spec.layout.(queueAgents := true), Run(NewCluster(map[]), acts))
  {
    acts := AddingSticks(spec, spec.layout.(queueAgents := true));
  }

  /** The first tablet nodes are put into the spec meanwhile: the bundles wait for a client that is ready. */
  lemma AddingTabletNodesSticks(spec: Spec, names: seq<string>) returns (acts: seq<Label>)
    requires spec.managed && spec.selector == Everything && |spec.layout.httpProxies| > 0
    requires spec.layout.tabletNodes == [] && names != []
    ensures Initial(NewCluster(map[])) && AtStop(PossibilityCheck, Run(NewCluster(map[]), acts))
    ensures Sticks(spec, spec.layout.(tabletNodes := names), Run(NewCluster(map[]), acts))
  {
    acts := AddingSticks(spec, spec.layout.(tabletNodes := names));
  }

  // ----- a removal that is complete but not on record -----

  function LosingWrites(a: Answers): Answers { a.(writes := Outcomes(Lost, Lost, Lost)) }

  lemma {:induction false} PerformIgnoresWrites(p: Pass, v: View, c: Component, action: Action, b: (nat, nat), a: Answers)
    ensures Perform(p, v, c, action, b, LosingWrites(a)) == Perform(p, v, c, action, b, a)
    decreases action
  {
    if action.InitQueryTracker? {
      PerformIgnoresWrites(p.(mem := p.mem.(queryTrackerReady := true)), v, c, action.next, b, a);
    }
  }

  lemma SyncOneIgnoresWrites(p: Pass, spec: Spec, fetched: Cluster, a: Answers, c: Component)
    requires |spec.layout.httpProxies| > 0
    ensures SyncOne(p, spec, fetched, LosingWrites(a), c) == SyncOne(p, spec, fetched, a, c)
  {
    var v := ViewOf(spec, fetched, a.synced, a);
    var d := Decide(v, p.mem, c);
    if d.Do? { PerformIgnoresWrites(p, v, c, d.action, spec.bootstrap, a); }
  }

  lemma {:induction false} SyncAllIgnoresWrites(p: Pass, spec: Spec, fetched: Cluster, a: Answers, cs: seq<Component>)
    requires |spec.layout.httpProxies| > 0
    ensures SyncAll(p, spec, fetched, LosingWrites(a), cs) == SyncAll(p, spec, fetched, a, cs)
    decreases |cs|
  {
    if cs != [] {
      SyncOneIgnoresWrites(p, spec, fetched, a, cs[0]);
      SyncAllIgnoresWrites(SyncOne(p, spec, fetched, a, cs[0]).pass, spec, fetched, a, cs[1..]);
    }
  }

  lemma HoldsWhilePodsStand(l: Layout, p: Pass, spec: Spec, s: Survey, w: Outcomes, synced: Pass)
    requires Syncing(p) && spec.layout == l && p.mem.update.state == PodsRemoval && !ArePodsRemoved(l, p.mem)
    ensures DispatchOr(p, spec, s, w, synced) == synced
  {}

  lemma SurveyedEitherWay(w: State, spec: Spec, a: Answers)
    ensures Seen(w, spec, LosingWrites(a)) == Seen(w, spec, a)
  {}

  lemma LosingSync(p: Pass, spec: Spec, a: Answers, q: Pass)
    requires |spec.layout.httpProxies| > 0 && SyncAll(p, spec, p.cluster, a, AllComponents(spec.layout)) == Step(q, true)
    ensures var r := SyncComponents(p, spec, LosingWrites(a)); r.stored == q.stored && r.cluster == q.cluster
  {
    SyncAllIgnoresWrites(p, spec, p.cluster, a, AllComponents(spec.layout));
  }

  /** A favourable pass that removes pods. */
  lemma RemovingPass(l: Layout, since: nat, w: State, spec: Spec, a: Answers) returns (q: Pass)
    requires Fair(l, since, w, spec, a) && w.stored.update.state == PodsRemoval && !ArePodsRemoved(l, w.stored)
    ensures SyncAll(Start(l, w), spec, w.cluster, a, AllComponents(l)) == Step(q, true)
    ensures RunPass(w, spec, a) == State(q.mem, q.cluster) && OnlyNoted(w, q)
    ensures PodsPhase(l, q.mem) < PodsPhase(l, w.stored)
  {
    var s := FairPass(l, since, w, spec, a);
    q := PodsSyncAll(l, since, w, spec, a, Start(l, w), AllComponents(l));
    StayedPass(l, w, spec, a, q);
    PodsPhaseDrops(l, w, q);
    HoldsWhilePodsStand(l, Start(l, w), spec, s, AllDone, SyncComponents(Start(l, w), spec, a));
  }

  /** What is left of it when its status write is lost. */
  lemma LosingPass(l: Layout, since: nat, w: State, spec: Spec, a: Answers, q: Pass)
    requires Fair(l, since, w, spec, a) && w.stored.update.state == PodsRemoval && !ArePodsRemoved(l, w.stored)
    requires SyncAll(Start(l, w), spec, w.cluster, a, AllComponents(l)) == Step(q, true)
    ensures RunPass(w, spec, LosingWrites(a)) == State(w.stored, q.cluster)
  {
    var s := FairPass(l, since, w, spec, a);
    var b := LosingWrites(a);
    SurveyedEitherWay(w, spec, a);
    SyncAllKept(Start(l, w), spec, w.cluster, a, AllComponents(l));
    LosingSync(Start(l, w), spec, a, q);
    HoldsWhilePodsStand(l, Start(l, w), spec, s, b.writes, SyncComponents(Start(l, w), spec, b));
  }

  lemma PassGood(l: Layout, w: State, spec: Spec, a: Answers)
    requires Good(l, w) && w.stored.cluster == Updating && spec.layout == l
    ensures Good(l, RunPass(w, spec, a))
  {
    var act := PassWith(spec, a);
    NextBase(w, act);
    NextCore(w, act);
    NextViable(l, w, act);
  }

  /** The last pods: not all noted as removed before a pass, all noted after it. */
  ghost predicate LastPods(l: Layout, x: State, r: State) {
    && AtStop(PodsRemoval, x) && !ArePodsRemoved(l, x.stored)
    && r.stored.cluster == Updating && r.stored.update.components == x.stored.update.components && ArePodsRemoved(l, r.stored)
  }

  /** One pass, with its write and without. */
  lemma BothPasses(l: Layout, w: State, spec: Spec) returns (a: Answers, r: State)
    requires Good(l, w) && AtStop(PodsRemoval, w) && spec.managed && spec.layout == l && !ArePodsRemoved(l, w.stored)
    ensures RunPass(w, spec, a) == r && RunPass(w, spec, LosingWrites(a)) == State(w.stored, r.cluster)
    ensures AtStop(PodsRemoval, r) && r.stored.update.components == w.stored.update.components
    ensures PodsPhase(l, r.stored) < PodsPhase(l, w.stored)
  {
    a := FavourableAnswersExist(l, 0, w);
    var q := RemovingPass(l, 0, w, spec, a);
    LosingPass(l, 0, w, spec, a, q);
    r := State(q.mem, q.cluster);
  }

  lemma Prepend(l: Layout, w: State, first: Label, rest: seq<Label>, next: State) returns (acts: seq<Label>)
    requires Next(w, first) == next && FixedLayout(l, first) && AllFixed(l, rest)
    ensures AllFixed(l, acts) && Run(w, acts) == Run(next, rest)
  {
    RunStep(w, [], first);
    assert [] + [first] == [first];
    RunAppend(w, [first], rest);
    acts := [first] + rest;
  }

  ghost predicate EitherWay(spec: Spec, x: State, a: Answers, r: State) {
    RunPass(x, spec, a) == r && RunPass(x, spec, LosingWrites(a)) == State(x.stored, r.cluster)
  }

  lemma {:induction false} ReachLastPods(l: Layout, w: State, spec: Spec) returns (acts: seq<Label>, a: Answers, x: State, r: State)
    requires Good(l, w) && AtStop(PodsRemoval, w) && spec.managed && spec.layout == l && !ArePodsRemoved(l, w.stored)
    ensures AllFixed(l, acts) && Run(w, acts) == x && LastPods(l, x, r) && EitherWay(spec, x, a, r)
    decreases PodsPhase(l, w.stored), 0
  {
    x := w;
    a, r := BothPasses(l, w, spec);
    acts := [];
    if !ArePodsRemoved(l, r.stored) {
      PassGood(l, w, spec, a);
      acts, a, x, r := ReachAfter(l, w, spec, PassWith(spec, a), r);
    }
  }

  lemma {:induction false} ReachAfter(l: Layout, w: State, spec: Spec, first: Label, next: State)
    returns (acts: seq<Label>, a: Answers, x: State, r: State)
    requires Next(w, first) == next && FixedLayout(l, first)
    requires Good(l, next) && AtStop(PodsRemoval, next) && spec.managed && spec.layout == l && !ArePodsRemoved(l, next.stored)
    ensures AllFixed(l, acts) && Run(w, acts) == x && LastPods(l, x, r) && EitherWay(spec, x, a, r)
    decreases PodsPhase(l, next.stored), 1
  {
    var rest;
    rest, a, x, r := ReachLastPods(l, next, spec);
    acts := Prepend(l, w, first, rest, next);
  }

  lemma AllCompleted(l: Layout, w: State, pre: seq<Label>, post: seq<Label>, r: State)
    requires Initial(w) && GroupsUnrepeated(l) && Begun(Run(w, pre).stored) && AllFixed(l, post)
    requires Run(w, pre + post) == r && r.stored.cluster == Updating && ArePodsRemoved(l, r.stored)
    ensures forall c :: c in AllComponents(l) && IsUpdatingComponent(r.stored, c) ==> Completed(c, r.cluster.log)
  {
    forall c | c in AllComponents(l) && IsUpdatingComponent(r.stored, c) ensures Completed(c, r.cluster.log) {
      RemovedMeansCompleted(l, w, pre, post, c);
    }
  }

  lemma OneMore(l: Layout, w: State, pre: seq<Label>, post: seq<Label>, act: Label, x: State) returns (more: seq<Label>)
    requires AllFixed(l, post) && FixedLayout(l, act) && Run(w, pre + post) == x
    ensures AllFixed(l, more) && Run(w, pre + more) == Next(x, act)
  {
    RunStep(w, pre + post, act);
    assert pre + (post + [act]) == pre + post + [act];
    more := post + [act];
  }

  lemma MastersStand(l: Layout, w: State)
    requires OnWay(l, PodsRemoval, w)
    ensures Good(l, w) && !ArePodsRemoved(l, w.stored)
  {
    Members(l);
    assert !w.stored.update.Has(Fruit(PodsRemoval).value);
  }

  lemma ReachPods(spec: Spec) returns (pre: seq<Label>, post: seq<Label>)
    requires spec.managed && spec.selector == Everything && |spec.layout.httpProxies| > 0
    ensures Initial(NewCluster(map[])) && AllFixed(spec.layout, pre) && AllFixed(spec.layout, post)
    ensures Begun(Run(NewCluster(map[]), pre).stored)
    ensures var r := Run(NewCluster(map[]), pre + post); Good(spec.layout, r) && AtStop(PodsRemoval, r) && !ArePodsRemoved(spec.layout, r.stored)
  {
    pre, post := ReachKeeping(spec, map[], PodsRemoval, _ => true);
    MastersStand(spec.layout, Run(NewCluster(map[]), pre + post));
  }

  lemma Continue(l: Layout, w: State, pre: seq<Label>, there: seq<Label>, more: seq<Label>) returns (post: seq<Label>)
    requires AllFixed(l, there) && AllFixed(l, more)
    ensures AllFixed(l, post) && Run(w, pre + post) == Run(Run(w, pre + there), more)
  {
    RunAppend(w, pre + there, more);
    post := there + more;
    assert pre + post == pre + there + more;
  }

  /** With the write, everyone has completed the removal. */
  lemma WouldBeNoted(spec: Spec, w: State, pre: seq<Label>, post: seq<Label>, a: Answers, x: State, r: State)
    requires Initial(w) && GroupsUnrepeated(spec.layout) && Begun(Run(w, pre).stored) && AllFixed(spec.layout, post)
    requires Run(w, pre + post) == x && LastPods(spec.layout, x, r) && RunPass(x, spec, a) == r
    ensures forall c :: c in AllComponents(spec.layout) && IsUpdatingComponent(x.stored, c) ==> Completed(c, r.cluster.log)
  {
    var kept := OneMore(spec.layout, w, pre, post, PassWith(spec, a), x);
    AllCompleted(spec.layout, w, pre, kept, r);
  }

  lemma ButIsLost(spec: Spec, w: State, pre: seq<Label>, post: seq<Label>, a: Answers, x: State, r: State) returns (acts: seq<Label>)
    requires AllFixed(spec.layout, pre) && AllFixed(spec.layout, post) && Run(w, pre + post) == x && EitherWay(spec, x, a, r)
    ensures AllFixed(spec.layout, acts) && Run(w, acts) == State(x.stored, r.cluster)
  {
    var lost := OneMore(spec.layout, w, pre, post, PassWith(spec, LosingWrites(a)), x);
    acts := pre + lost;
  }

  /** Every updating component has completed its removal, and it is not on record: the last status
      write was lost. */
  lemma CompletedNeedNotBeRecorded(spec: Spec) returns (acts: seq<Label>)
    requires spec.managed && spec.selector == Everything && |spec.layout.httpProxies| > 0 && GroupsUnrepeated(spec.layout)
    ensures Initial(NewCluster(map[])) && AllFixed(spec.layout, acts)
    ensures var r := Run(NewCluster(map[]), acts);
      && AtStop(PodsRemoval, r) && !ArePodsRemoved(spec.layout, r.stored)
      && forall c :: c in AllComponents(spec.layout) && IsUpdatingComponent(r.stored, c) ==> Completed(c, r.cluster.log)
  {
    var w := NewCluster(map[]);
    var pre, there := ReachPods(spec);
    var more, a, x, r := ReachLastPods(spec.layout, Run(w, pre + there), spec);
    var post := Continue(spec.layout, w, pre, there, more);
    WouldBeNoted(spec, w, pre, post, a, x, r);
    acts := ButIsLost(spec, w, pre, post, a, x, r);
  }

  // ----- an exit from read-only mode that an old job answers for -----

  ghost predicate NoneNew(log: seq<Event>) { forall i :: 0 <= i < |log| && log[i].JobCreated? ==> log[i].job != ExitReadOnly }

  /** An old job object is still there, and the update has not got to it. */
  ghost predicate ExitLeft(st: Status, k: Cluster) {
    Present(k, ExitReadOnly) && NoneNew(k.log) && !st.update.Has(MasterExitReadOnlyPrepared) && !st.update.Has(MasterExitedReadOnly)
  }

  predicate SameExit(p: Pass, q: Pass) {
    && (Present(p.cluster, ExitReadOnly) ==> Present(q.cluster, ExitReadOnly))
    && q.mem.update.Has(MasterExitReadOnlyPrepared) == p.mem.update.Has(MasterExitReadOnlyPrepared)
    && q.mem.update.Has(MasterExitedReadOnly) == p.mem.update.Has(MasterExitedReadOnly)
  }

  lemma UntouchedIsSame(p: Pass, q: Pass)
    requires Untouched(p, q, ExitReadOnly)
    ensures SameExit(p, q)
  {}

  lemma JobsLeaveExit(p: Pass, v: View, c: Component, action: Action, b: (nat, nat), a: Answers)
    requires Allowed(v, p.mem, c, action) && !(p.mem.cluster == Updating && p.mem.update.state == MasterExitingReadOnly)
    requires action.CreateJob? || action.CompleteJob?
    ensures SameExit(p, Perform(p, v, c, action, b, a).pass)
  {
    var o := a.CallsOf(c);
    if action.CreateJob? {
      CreateOther(p, action.job, ExitReadOnly, o.first, o.second);
      UntouchedIsSame(p, CreateJobStep(p, action.job, o.first, o.second).pass);
    }
  }

  lemma RestartLeavesExit(p: Pass, v: View, j: JobId, o1: Outcome, o2: Outcome)
    requires j != ExitReadOnly
    ensures SameExit(p, PrepareRestartStep(p, v, j, o1, o2).pass)
  {
    RestartOther(p, v, j, ExitReadOnly, o1, o2);
    UntouchedIsSame(p, PrepareRestartStep(p, v, j, o1, o2).pass);
  }

  lemma NoteLeavesExit(p: Pass, cond: Condition)
    requires cond != MasterExitReadOnlyPrepared && cond != MasterExitedReadOnly
    ensures SameExit(p, p.Note(cond))
  {}

  lemma BundlesLeaveExit(p: Pass, b: (nat, nat), outs: seq<Outcome>)
    ensures SameExit(p, InitBundlesStep(p, b, outs).pass)
  {
    InitBundlesEvents(p, b, outs);
  }

  lemma RestLeaveExit(p: Pass, v: View, c: Component, action: Action, b: (nat, nat), a: Answers)
    requires Allowed(v, p.mem, c, action) && !(p.mem.cluster == Updating && p.mem.update.state == MasterExitingReadOnly)
    requires !action.CreateJob? && !action.CompleteJob? && !action.InitQueryTracker?
    ensures SameExit(p, Perform(p, v, c, action, b, a).pass)
  {
    match action
    case SetCondition(cond) => NoteLeavesExit(p, cond);
    case PrepareRestart(j) => RestartLeavesExit(p, v, j, a.CallsOf(c).first, a.CallsOf(c).second);
    case InitBundles => BundlesLeaveExit(p, b, a.yt.outcomes);
    case _ =>
      RestUntouched(p, v, c, action, b, a);
      UntouchedIsSame(p, Perform(p, v, c, action, b, a).pass);
  }

  lemma PerformLeavesExit(p: Pass, v: View, c: Component, action: Action, b: (nat, nat), a: Answers)
    requires Allowed(v, p.mem, c, action) && !(p.mem.cluster == Updating && p.mem.update.state == MasterExitingReadOnly)
    ensures SameExit(p, Perform(p, v, c, action, b, a).pass)
  {
    if action.InitQueryTracker? {
      var ready := p.(mem := p.mem.(queryTrackerReady := true));
      if !a.clientMissing && a.CallsOf(c).third == Done && action.next != Nothing { JobsLeaveExit(ready, v, c, action.next, b, a); }
    } else if action.CreateJob? || action.CompleteJob? {
      JobsLeaveExit(p, v, c, action, b, a);
    } else {
      RestLeaveExit(p, v, c, action, b, a);
    }
  }

  lemma PerformLogsNoExit(p: Pass, v: View, c: Component, action: Action, b: (nat, nat), a: Answers)
    requires Allowed(v, p.mem, c, action) && !(p.mem.cluster == Updating && p.mem.update.state == MasterExitingReadOnly)
    requires NoneNew(p.cluster.log)
    ensures NoneNew(Perform(p, v, c, action, b, a).pass.cluster.log)
  {
    PerformLogs(p, v, c, action, b, a);
  }

  ghost predicate PassLeft(p: Pass) {
    && ExitLeft(p.mem, p.cluster) && ExitLeft(p.stored, p.cluster)
    && !(p.mem.cluster == Updating && p.mem.update.state == MasterExitingReadOnly)
  }

  lemma SyncOneLeft(p: Pass, spec: Spec, fetched: Cluster, a: Answers, c: Component)
    requires |spec.layout.httpProxies| > 0 && PassLeft(p)
    ensures PassLeft(SyncOne(p, spec, fetched, a, c).pass)
  {
    var v := ViewOf(spec, fetched, a.synced, a);
    var d := Decide(v, p.mem, c);
    SyncOneKept(p, spec, fetched, a, c);
    if d.Do? {
      DecisionsAreAllowed(v, p.mem, c);
      PerformLeavesExit(p, v, c, d.action, spec.bootstrap, a);
      PerformLogsNoExit(p, v, c, d.action, spec.bootstrap, a);
    }
  }

  lemma {:induction false} SyncAllLeft(p: Pass, spec: Spec, fetched: Cluster, a: Answers, cs: seq<Component>)
    requires |spec.layout.httpProxies| > 0 && PassLeft(p)
    ensures PassLeft(SyncAll(p, spec, fetched, a, cs).pass)
    decreases |cs|
  {
    if cs != [] {
      SyncOneLeft(p, spec, fetched, a, cs[0]);
      var s := SyncOne(p, spec, fetched, a, cs[0]);
      if s.ok { SyncAllLeft(s.pass, spec, fetched, a, cs[1..]); }
    }
  }

  lemma SyncLeft(p: Pass, spec: Spec, a: Answers)
    requires |spec.layout.httpProxies| > 0 && PassLeft(p)
    ensures var q := SyncComponents(p, spec, a); ExitLeft(q.stored, q.cluster)
  {
    SyncAllLeft(p, spec, p.cluster, a, AllComponents(spec.layout));
  }

  lemma DispatchLeft(p: Pass, spec: Spec, s: Survey, w: Outcomes, synced: Pass)
    requires PassLeft(p) && ExitLeft(synced.stored, synced.cluster)
    ensures var q := DispatchOr(p, spec, s, w, synced); ExitLeft(q.stored, q.cluster)
  {
    if p.mem.cluster == Running {
      RunningLeft(p, spec, s, w, synced);
    } else if p.mem.cluster == UpdateFinishing || p.mem.cluster == CancelUpdate {
      ReturnLeft(p, w);
    }
  }

  lemma RunningLeft(p: Pass, spec: Spec, s: Survey, w: Outcomes, synced: Pass)
    requires PassLeft(p) && ExitLeft(synced.stored, synced.cluster) && p.mem.cluster == Running
    ensures var q := DispatchOr(p, spec, s, w, synced); ExitLeft(q.stored, q.cluster)
  {}

  lemma ReturnLeft(p: Pass, w: Outcomes)
    requires PassLeft(p)
    ensures var q := ReturnToRunning(p, w); ExitLeft(q.stored, q.cluster)
  {}

  predicate AtExit(w: State) { AtStop(MasterExitingReadOnly, w) }

  /** Every pass before the exit leaves the old object alone. */
  lemma PassLeavesExit(w: State, spec: Spec, a: Answers)
    requires ExitLeft(w.stored, w.cluster) && !AtExit(w)
    ensures ExitLeft(RunPass(w, spec, a).stored, RunPass(w, spec, a).cluster)
  {
    if spec.managed && |spec.layout.httpProxies| > 0 && !a.fetchFails {
      var s := SurveyOf(ViewOf(spec, w.cluster, a.surveyed, a), w.stored, AllComponents(spec.layout));
      if s.Some? {
        var p := Pass(Marked(spec.layout, w.stored), w.stored, w.cluster);
        SyncLeft(p, spec, a);
        DispatchLeft(p, spec, s.value, a.writes, SyncComponents(p, spec, a));
      }
    }
  }

  lemma SettleLeavesExit(w: State)
    requires ExitLeft(w.stored, w.cluster)
    ensures ExitLeft(w.stored, Settle(w.cluster))
  {
    var log, more := w.cluster.log, Settle(w.cluster).log;
    SettleFacts(w.cluster, ExitReadOnly);
    forall i | 0 <= i < |more| && more[i].JobCreated? ensures more[i].job != ExitReadOnly {
      assert i < |log| && more[i] == log[i];
    }
  }

  const StaleJob := map[ExitReadOnly := JobObject(0, true, false)]

  lemma ExitIsLeft(spec: Spec)
    ensures KeptUntil(spec, MasterExitingReadOnly, (w: State) => ExitLeft(w.stored, w.cluster))
  {
    forall x: State, a: Answers | ExitLeft(x.stored, x.cluster) && !AtStop(MasterExitingReadOnly, x)
      ensures ExitLeft(RunPass(x, spec, a).stored, RunPass(x, spec, a).cluster)
      ensures ExitLeft(Round(x, spec, a).stored, Round(x, spec, a).cluster)
    {
      PassLeavesExit(x, spec, a);
      SettleLeavesExit(x);
      PassLeavesExit(x.(cluster := Settle(x.cluster)), spec, a);
    }
  }

  lemma ReachStaleExit(spec: Spec) returns (acts: seq<Label>, x: State)
    requires spec.managed && spec.selector == Everything && |spec.layout.httpProxies| > 0
    ensures Initial(NewCluster(StaleJob)) && AllFixed(spec.layout, acts) && Run(NewCluster(StaleJob), acts) == x
    ensures Good(spec.layout, x) && AtExit(x) && ExitLeft(x.stored, x.cluster)
  {
    ExitIsLeft(spec);
    var inv := (w: State) => ExitLeft(w.stored, w.cluster);
    var pre, post := ReachKeeping(spec, StaleJob, MasterExitingReadOnly, inv);
    acts := pre + post;
    x := Run(NewCluster(StaleJob), acts);
  }

  lemma PreparesStale(spec: Spec, w: State) returns (a: Answers)
    requires Good(spec.layout, w) && spec.managed && AtExit(w) && ExitLeft(w.stored, w.cluster)
    ensures var r := RunPass(w, spec, a); Prepared(r) && ExitReadOnly in r.cluster.jobs
  {
    a := FavourableAnswersExist(spec.layout, 0, w);
    PreparationLeavesTheObject(spec.layout, 0, w, spec, a);
  }

  /** A job left from an earlier life of the cluster survives until the preparation of a full update is
      stored: the state in which the exit need not be fresh is reached over every layout. */
  lemma StaleExitIsReachable(spec: Spec) returns (acts: seq<Label>)
    requires spec.managed && spec.selector == Everything && |spec.layout.httpProxies| > 0
    ensures Initial(NewCluster(StaleJob)) && AllFixed(spec.layout, acts)
    ensures var r := Run(NewCluster(StaleJob), acts); Prepared(r) && ExitReadOnly in r.cluster.jobs
  {
    var there, x := ReachStaleExit(spec);
    var a := PreparesStale(spec, x);
    RunStep(NewCluster(StaleJob), there, PassWith(spec, a));
    acts := there + [PassWith(spec, a)];
  }
}
