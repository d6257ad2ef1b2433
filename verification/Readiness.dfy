/** What the survey of the components means, and how readiness follows the dependencies. */
module Readiness {
  import opened ClusterStatus
  import opened Components
  import opened World
  import opened FlowChoice
  import opened Reconcile

  // ----- the survey -----

  predicate Reports(v: View, st: Status, c: Component)
  {
    Decide(v, st, c).Do?
  }

  predicate StatusIs(v: View, st: Status, c: Component, s: SyncStatus)
  {
    Reports(v, st, c) && Decide(v, st, c).status == s
  }

  /** The flags the loop accumulates, said about all components at once. */
  ghost predicate SyncMeans(v: View, st: Status, cs: seq<Component>, s: Survey)
  {
    s.needSync <==> exists c :: c in cs && !StatusIs(v, st, c, Ready)
  }

  ghost predicate InitMeans(v: View, st: Status, cs: seq<Component>, s: Survey)
  {
    s.needInit <==> exists c :: c in cs && !StatusIs(v, st, c, Ready) && !StatusIs(v, st, c, NeedLocalUpdate)
  }

  ghost predicate ReadyMeans(v: View, st: Status, cs: seq<Component>, s: Survey)
  {
    s.allReadyOrUpdating <==> forall c :: c in cs ==> StatusIs(v, st, c, Ready) || StatusIs(v, st, c, SyncUpdating)
  }

  ghost predicate UpdateMeans(v: View, st: Status, cs: seq<Component>, s: Survey)
  {
    forall c :: c in s.needUpdate <==> c in cs && StatusIs(v, st, c, NeedLocalUpdate)
  }

  lemma {:induction false} SurveyReports(v: View, st: Status, cs: seq<Component>)
    requires |v.layout.httpProxies| > 0
    ensures SurveyOf(v, st, cs).Some? <==> forall c :: c in cs ==> Reports(v, st, c)
  {
    if cs != [] {
      var front, last := cs[..|cs| - 1], cs[|cs| - 1];
      SurveyReports(v, st, front);
      assert forall c :: c in cs <==> c in front || c == last;
      assert last in cs;
    }
  }

  /** One turn of the loop. */
  lemma SurveyTurn(v: View, st: Status, cs: seq<Component>)
    requires |v.layout.httpProxies| > 0 && cs != [] && SurveyOf(v, st, cs).Some?
    ensures var front, last := SurveyOf(v, st, cs[..|cs| - 1]), cs[|cs| - 1];
      && front.Some? && Reports(v, st, last)
      && SurveyOf(v, st, cs).value == Counted(front.value, last, Decide(v, st, last).status)
    ensures forall c :: c in cs <==> c in cs[..|cs| - 1] || c == cs[|cs| - 1]
    ensures cs[|cs| - 1] in cs
  {}

  lemma {:induction false} SyncMeaning(v: View, st: Status, cs: seq<Component>)
    requires |v.layout.httpProxies| > 0 && SurveyOf(v, st, cs).Some?
    ensures SyncMeans(v, st, cs, SurveyOf(v, st, cs).value) && InitMeans(v, st, cs, SurveyOf(v, st, cs).value)
  {
    if cs != [] {
      SurveyTurn(v, st, cs);
      SyncMeaning(v, st, cs[..|cs| - 1]);
    }
  }

  lemma {:induction false} ReadyMeaning(v: View, st: Status, cs: seq<Component>)
    requires |v.layout.httpProxies| > 0 && SurveyOf(v, st, cs).Some?
    ensures ReadyMeans(v, st, cs, SurveyOf(v, st, cs).value) && UpdateMeans(v, st, cs, SurveyOf(v, st, cs).value)
  {
    if cs != [] {
      SurveyTurn(v, st, cs);
      ReadyMeaning(v, st, cs[..|cs| - 1]);
    }
  }

  /** In a running cluster a component that is not ready either needs initialization or an update. */
  lemma RunningIsExhaustive(v: View, st: Status, cs: seq<Component>)
    requires |v.layout.httpProxies| > 0 && SurveyOf(v, st, cs).Some?
    ensures var s := SurveyOf(v, st, cs).value; s.needSync && !s.needInit ==> s.needUpdate != []
  {
    SyncMeaning(v, st, cs);
    ReadyMeaning(v, st, cs);
  }

  /** Bookkeeping aside, the cluster is the same. */
  predicate SameCluster(k: Cluster, r: Cluster) { r == k.(log := r.log, baseline := r.baseline) }

  /** No component was touched: a transition was stored, or nothing. */
  predicate OnlyTransition(st: Status, k: Cluster, r: State) {
    && SameCluster(k, r.cluster)
    && (|| r.stored == st
        || r.stored == Encoded(st.(cluster := Reconfiguration))
        || r.stored == Encoded(st.(cluster := Updating, update := st.update.(flow := r.stored.update.flow,
             components := r.stored.update.components))))
  }

  lemma RunningDispatch(p: Pass, spec: Spec, s: Survey, w: Outcomes, synced: Pass)
    requires p.mem.cluster == Running && p.stored == p.mem && (s.needSync && !s.needInit ==> s.needUpdate != [])
    ensures var q := DispatchOr(p, spec, s, w, synced); OnlyTransition(p.mem, p.cluster, State(q.stored, q.cluster))
  {
    if s.needUpdate != [] { var picks := ChoiceIsSound(spec.selector, spec.enableFullUpdate, s.needUpdate); }
  }

  /** A pass over a running cluster touches no component: it stores a transition or nothing. */
  lemma RunningNeverSyncs(w: State, spec: Spec, a: Answers)
    requires w.stored.cluster == Running
    ensures OnlyTransition(w.stored, w.cluster, RunPass(w, spec, a))
  {
    if spec.managed && |spec.layout.httpProxies| > 0 && !a.fetchFails {
      var v := ViewOf(spec, w.cluster, a.surveyed, a);
      var s := SurveyOf(v, w.stored, AllComponents(spec.layout));
      if s.Some? {
        var p := Pass(w.stored, w.stored, w.cluster);
        RunningIsExhaustive(v, w.stored, AllComponents(spec.layout));
        RunningDispatch(p, spec, s.value, a.writes, SyncComponents(p, spec, a));
      }
    }
  }

  // ----- dependencies -----

  /** Component `a` may only be ready when component `b` is. */
  predicate Needs(l: Layout, a: Component, b: Component) {
    match a.kind
    case Discovery | Master | MasterCache | TabletNode => false
    case YtsaurusClient => |l.httpProxies| > 0 && b == Group(HttpProxy, l.httpProxies)[0]
    case HttpProxy | RpcProxy | TcpProxy | DataNode | ExecNode | ControllerAgent | UI | YqlAgent => b == Single(Master)
    case Scheduler => b == Single(Master) || b in Group(ExecNode, l.execNodes) || b in Group(TabletNode, l.tabletNodes)
    case QueryTracker => b in Group(TabletNode, l.tabletNodes)
    case QueueAgent => b == Single(Master) || b in Group(TabletNode, l.tabletNodes) || b == Single(YtsaurusClient)
    case StrawberryController => b == Single(Master) || b == Single(Scheduler) || b in Group(DataNode, l.dataNodes)
  }

  lemma NeedsDescend(l: Layout, a: Component, b: Component)
    requires Needs(l, a, b)
    ensures Depth(b.kind) < Depth(a.kind)
  {}

  /** The cluster states in which components come up for the first time. */
  predicate ComingUp(st: Status) { st.cluster != Running && st.cluster != Updating }

  predicate Runs(v: View, st: Status, c: Component)
  {
    Reports(v, st, c) && IsRunning(Decide(v, st, c).status)
  }

  lemma {:induction false} GateRuns(v: View, st: Status, cs: seq<Component>, depth: nat)
    requires |v.layout.httpProxies| > 0 && forall c :: c in cs ==> Depth(c.kind) < depth
    ensures AllRunning(v, st, cs, depth) == Open <==> forall c :: c in cs ==> Runs(v, st, c)
    ensures (forall c :: c in cs ==> Reports(v, st, c)) ==> AllRunning(v, st, cs, depth) != Broken
    decreases |cs|
  {
    if cs != [] {
      assert cs[0] in cs && forall c :: c in cs <==> c == cs[0] || c in cs[1..];
      GateRuns(v, st, cs[1..], depth);
      if !Reports(v, st, cs[0]) {
        assert AllRunning(v, st, cs, depth) == Broken;
      } else if Runs(v, st, cs[0]) {
        assert AllRunning(v, st, cs, depth) == AllRunning(v, st, cs[1..], depth);
      } else {
        assert AllRunning(v, st, cs, depth) == Shut;
      }
    }
  }

  lemma GateMeaning(v: View, st: Status, cs: seq<Component>, depth: nat)
    requires |v.layout.httpProxies| > 0 && forall c :: c in cs ==> Depth(c.kind) < depth
    ensures AllRunning(v, st, cs, depth) == Open <==>
      forall c :: c in cs ==> StatusIs(v, st, c, Ready) || StatusIs(v, st, c, NeedLocalUpdate)
    ensures (forall c :: c in cs ==> Reports(v, st, c)) ==> AllRunning(v, st, cs, depth) != Broken
  {
    GateRuns(v, st, cs, depth);
    assert forall c :: Runs(v, st, c) <==> StatusIs(v, st, c, Ready) || StatusIs(v, st, c, NeedLocalUpdate);
  }

  lemma NoUpdateWhileComingUp(v: View, st: Status, c: Component)
    requires |v.layout.httpProxies| > 0 && ComingUp(st)
    ensures !StatusIs(v, st, c, NeedLocalUpdate)
  {
    NoUpdateBehind(v, st, c, GatesOf(v, st, c));
    DecideComingUp(v, st, c);
  }

  function DecideBehind(v: View, st: Status, c: Component, g: GateSet): Decision {
    if c.kind == YtsaurusClient then ClientBehind(v, st, c, g) else OrdinaryBehind(v, st, c, g)
  }

  lemma DecideComingUp(v: View, st: Status, c: Component)
    requires |v.layout.httpProxies| > 0 && ComingUp(st)
    ensures Decide(v, st, c) == DecideBehind(v, st, c, GatesOf(v, st, c))
  {}

  lemma NoUpdateBehind(v: View, st: Status, c: Component, g: GateSet)
    requires ComingUp(st)
    ensures var d := DecideBehind(v, st, c, g); d.Do? ==> d.status != NeedLocalUpdate
  {}

  /** An open gate to lower components means they are all ready. */
  lemma AskedReady(v: View, st: Status, k: Kind, cs: seq<Component>, b: Component)
    requires |v.layout.httpProxies| > 0 && ComingUp(st) && b in cs && forall c :: c in cs ==> Depth(c.kind) < Depth(k)
    ensures Asked(v, st, k, cs) == Open ==> StatusIs(v, st, b, Ready)
  {
    GateMeaning(v, st, cs, Depth(k));
    NoUpdateWhileComingUp(v, st, b);
  }

  /** The gate through which `a` asks for `b`. */
  function GateTo(l: Layout, g: GateSet, a: Component, b: Component): Gate {
    match b.kind
    case Master => g.master
    case HttpProxy => g.firstProxy
    case ExecNode => g.execNodes
    case DataNode => g.dataNodes
    case TabletNode => g.tabletNodes
    case Scheduler => g.scheduler
    case _ => g.client
  }

  lemma ReadyNeedsGates(v: View, st: Status, a: Component, b: Component, g: GateSet)
    requires ComingUp(st) && Needs(v.layout, a, b)
    requires DecideBehind(v, st, a, g).Do? && DecideBehind(v, st, a, g).status == Ready
    ensures GateTo(v.layout, g, a, b) == Open
  {}

  /** The components behind that gate. */
  function Behind(l: Layout, b: Component): seq<Component> {
    match b.kind
    case ExecNode => Group(ExecNode, l.execNodes)
    case DataNode => Group(DataNode, l.dataNodes)
    case TabletNode => Group(TabletNode, l.tabletNodes)
    case _ => [b]
  }

  lemma GateIsAsked(v: View, st: Status, a: Component, b: Component)
    requires |v.layout.httpProxies| > 0 && Needs(v.layout, a, b) && b.kind != YtsaurusClient
    ensures GateTo(v.layout, GatesOf(v, st, a), a, b) == Asked(v, st, a.kind, Behind(v.layout, b))
    ensures b in Behind(v.layout, b) && forall c :: c in Behind(v.layout, b) ==> Depth(c.kind) < Depth(a.kind)
  {}

  lemma OpenMeansReady(v: View, st: Status, a: Component, b: Component)
    requires |v.layout.httpProxies| > 0 && ComingUp(st) && Needs(v.layout, a, b)
    requires GateTo(v.layout, GatesOf(v, st, a), a, b) == Open
    ensures StatusIs(v, st, b, Ready)
  {
    if b.kind != YtsaurusClient {
      GateIsAsked(v, st, a, b);
      AskedReady(v, st, a.kind, Behind(v.layout, b), b);
    }
  }

  /** A ready component stands on ready components. */
  lemma ReadyStandsOnReady(v: View, st: Status, a: Component, b: Component)
    requires |v.layout.httpProxies| > 0 && ComingUp(st)
    requires StatusIs(v, st, a, Ready) && Needs(v.layout, a, b)
    ensures StatusIs(v, st, b, Ready)
  {
    DecideComingUp(v, st, a);
    ReadyNeedsGates(v, st, a, b, GatesOf(v, st, a));
    OpenMeansReady(v, st, a, b);
  }

  /** A chain of dependencies. */
  ghost predicate Chain(l: Layout, path: seq<Component>) {
    |path| > 0 && forall i :: 0 <= i < |path| - 1 ==> Needs(l, path[i], path[i + 1])
  }

  /** Readiness is closed along whole chains of dependencies, and no chain runs in a circle. */
  lemma {:induction false} ReadinessIsClosed(v: View, st: Status, path: seq<Component>)
    requires |v.layout.httpProxies| > 0 && ComingUp(st) && Chain(v.layout, path)
    requires StatusIs(v, st, path[0], Ready)
    ensures StatusIs(v, st, path[|path| - 1], Ready)
    ensures Depth(path[|path| - 1].kind) + |path| - 1 <= Depth(path[0].kind)
    decreases |path|
  {
    if |path| > 1 {
      var n := |path| - 1;
      assert Needs(v.layout, path[0], path[0 + 1]);
      ReadyStandsOnReady(v, st, path[0], path[1]);
      NeedsDescend(v.layout, path[0], path[1]);
      ReadinessIsClosed(v, st, path[1..]);
    }
  }
}
