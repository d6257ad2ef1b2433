/** The component graph built by the component manager and the decision each component takes
    in one pass: the sync status it reports and, when it is told to sync, the action it performs. */
module Components {
  import opened ClusterStatus

  datatype Kind =
    | Discovery | Master | YtsaurusClient | DataNode | HttpProxy | UI | RpcProxy | TcpProxy
    | ExecNode | TabletNode | Scheduler | ControllerAgent | QueryTracker | QueueAgent | YqlAgent
    | StrawberryController | MasterCache

  /** `first` marks the tablet node group that initializes the bundles. */
  datatype Component = Component(kind: Kind, name: string, first: bool)

  /** The parts of the spec that decide which components exist. */
  datatype Layout = Layout(
    httpProxies: seq<string>,
    dataNodes: seq<string>,
    rpcProxies: seq<string>,
    tcpProxies: seq<string>,
    execNodes: seq<string>,
    tabletNodes: seq<string>,
    ui: bool,
    schedulers: bool,
    controllerAgents: bool,
    queryTrackers: bool,
    queueAgents: bool,
    yqlAgents: bool,
    strawberry: bool,
    chyt: bool,
    masterCaches: bool)

  function BaseName(k: Kind): string {
    match k
    case Discovery => "Discovery"
    case Master => "Master"
    case YtsaurusClient => "YtsaurusClient"
    case DataNode => "DataNode"
    case HttpProxy => "HttpProxy"
    case UI => "UI"
    case RpcProxy => "RpcProxy"
    case TcpProxy => "TcpProxy"
    case ExecNode => "ExecNode"
    case TabletNode => "TabletNode"
    case Scheduler => "Scheduler"
    case ControllerAgent => "ControllerAgent"
    case QueryTracker => "QueryTracker"
    case QueueAgent => "QueueAgent"
    case YqlAgent => "YqlAgent"
    case StrawberryController => "StrawberryController"
    case MasterCache => "MasterCache"
  }

  function FormatWithDefault(base: string, name: string): string {
    if name != "default" then base + "-" + name else base
  }

  function Single(k: Kind): Component { Component(k, BaseName(k), false) }

  function Group(k: Kind, names: seq<string>): (cs: seq<Component>)
    ensures |cs| == |names|
    ensures forall i :: 0 <= i < |cs| ==>
      cs[i] == Component(k, FormatWithDefault(BaseName(k), names[i]), k == TabletNode && i == 0)
  {
    seq(|names|, i requires 0 <= i < |names| =>
      Component(k, FormatWithDefault(BaseName(k), names[i]), k == TabletNode && i == 0))
  }

  function If(b: bool, k: Kind): seq<Component> { if b then [Single(k)] else [] }

  predicate HasQueryTracker(l: Layout) { l.queryTrackers && l.schedulers && |l.tabletNodes| > 0 }
  predicate HasQueueAgent(l: Layout) { l.queueAgents && |l.tabletNodes| > 0 }
  predicate HasStrawberry(l: Layout) { (l.strawberry || l.chyt) && l.schedulers }

  /** The deprecated CHYT controller is the same component under its old name. */
  function Strawberry(l: Layout): Component {
    Component(StrawberryController, if l.strawberry then BaseName(StrawberryController) else "ChytController", false)
  }

  function StrawberryIf(l: Layout): seq<Component> { if HasStrawberry(l) then [Strawberry(l)] else [] }

  /** The part of the construction order before the scheduler. */
  function Foundation(l: Layout): seq<Component> {
    [Single(Discovery), Single(Master), Single(YtsaurusClient)]
    + Group(DataNode, l.dataNodes)
    + Group(HttpProxy, l.httpProxies)
    + If(l.ui, UI)
    + Group(RpcProxy, l.rpcProxies)
    + Group(TcpProxy, l.tcpProxies)
    + Group(ExecNode, l.execNodes)
    + Group(TabletNode, l.tabletNodes)
  }

  /** The part after the query tracker. */
  function Agents(l: Layout): seq<Component> {
    If(HasQueueAgent(l), QueueAgent)
    + If(l.yqlAgents, YqlAgent)
    + StrawberryIf(l)
    + If(l.masterCaches, MasterCache)
  }

  /** All components in the manager's construction order. */
  function AllComponents(l: Layout): seq<Component> {
    Foundation(l)
    + If(l.schedulers, Scheduler)
    + If(l.controllerAgents, ControllerAgent)
    + If(HasQueryTracker(l), QueryTracker)
    + Agents(l)
  }

  predicate IsUpdatable(c: Component) { c.kind != YtsaurusClient }

  predicate IsUpdatingComponent(st: Status, c: Component) {
    match st.update.components
    case None => IsUpdatable(c)
    case Some(names) => c.name in names
  }

  // ----- sync statuses -----

  datatype SyncStatus = Blocked | NeedLocalUpdate | Pending | Ready | SyncUpdating

  predicate IsRunning(s: SyncStatus) { s == Ready || s == NeedLocalUpdate }

  /** What a pass sees of one component's own objects. */
  datatype Observation = Observation(
    needUpdate: bool,
    configNeedsReload: bool,
    needBuild: bool,
    podsReady: bool,
    podsGone: bool,
    secretMissing: bool,
    serviceMissing: bool)

  /** A job object of the API server. Foreground deletion leaves it visible and terminating. */
  datatype JobObject = JobObject(uid: nat, succeeded: bool, terminating: bool)

  /** Everything a pass reads: the layout, the fetched objects, and whether a YT client can be built.
      A component without an entry is healthy. */
  datatype View = View(
    layout: Layout,
    seen: map<string, Observation>,
    jobs: map<JobId, JobObject>,
    jobConfigs: set<JobId>,
    clientFails: bool)
  {
    function Of(c: Component): Observation {
      if c.name in seen then seen[c.name] else Healthy
    }
  }

  const Healthy := Observation(false, false, false, true, true, false, false)

  datatype Action =
    | Nothing
    | RemovePods
    | WriteServer
    | CreateAuxiliary
    | CreateJob(job: JobId)
    | CompleteJob(job: JobId)
    | PrepareRestart(job: JobId)
    | SetCondition(condition: Condition)
    | PrepareExit(restart: bool)
    | FinishExit
    | InitBundles
    | InitQueryTracker(next: Action)
    | InitQueueAgent
    | HandleUpdatingState

  datatype Decision = Do(status: SyncStatus, action: Action) | Fail

  const Settled := Do(Ready, Nothing)
  const Waiting := Do(Blocked, Nothing)

  /** Outcome of checking dependencies: all running, one not running, or one failing. */
  datatype Gate = Open | Shut | Broken

  function Then(g: Gate, d: Decision): Decision {
    match g
    case Open => d
    case Shut => Waiting
    case Broken => Fail
  }

  predicate RestartPrepared(v: View, st: Status, j: JobId) {
    j !in v.jobs && j !in v.jobConfigs && st.MarkedUndone(j)
  }

  function DecideJob(v: View, st: Status, j: JobId): Decision {
    if st.Done(j) then Settled
    else if j !in v.jobs then Do(Pending, CreateJob(j))
    else if !v.jobs[j].succeeded then Waiting
    else Do(Pending, CompleteJob(j))
  }

  function AfterJob(v: View, st: Status, j: JobId, d: Decision): Decision {
    if st.Done(j) then d else DecideJob(v, st, j)
  }

  function AfterSecret(v: View, c: Component, d: Decision): Decision {
    if v.Of(c).secretMissing then Do(Pending, CreateAuxiliary) else d
  }

  predicate NeedSync(v: View, st: Status, c: Component) {
    (v.Of(c).configNeedsReload && st.cluster == Updating) || v.Of(c).needBuild
  }

  predicate HasBalancingService(k: Kind) { k in {HttpProxy, RpcProxy, TcpProxy} }

  function AfterServer(v: View, st: Status, c: Component, d: Decision): Decision {
    if NeedSync(v, st, c) then Do(Pending, WriteServer)
    else if HasBalancingService(c.kind) && v.Of(c).serviceMissing then Do(Pending, CreateAuxiliary)
    else if !v.Of(c).podsReady then Waiting
    else d
  }

  // ----- the updating cluster state -----

  function DecideExitReadOnly(v: View, st: Status): Decision {
    if !st.update.Has(MasterExitReadOnlyPrepared) then
      Do(SyncUpdating, PrepareExit(!RestartPrepared(v, st, ExitReadOnly)))
    else if !st.Done(ExitReadOnly) then DecideJob(v, st, ExitReadOnly)
    else Do(SyncUpdating, FinishExit)
  }

  function DecideRestart(v: View, st: Status, j: JobId, prepared: Condition): Decision {
    if !RestartPrepared(v, st, j) then Do(SyncUpdating, PrepareRestart(j))
    else Do(SyncUpdating, SetCondition(prepared))
  }

  /** The early answer of a component while the cluster is updating; `None` lets it go on. */
  function DecideUpdating(v: View, st: Status, c: Component): Option<Decision> {
    var s := st.update.state;
    if c.kind == Master && s == MasterExitingReadOnly then Some(DecideExitReadOnly(v, st))
    else if !IsUpdatingComponent(st, c) then Some(Settled)
    else if s == PodsRemoval then Some(Do(SyncUpdating, RemovePods))
    else if c.kind == Scheduler && s == OpArchivePreparing then
      Some(if |v.layout.tabletNodes| == 0 then Do(SyncUpdating, SetCondition(NotNecessaryToUpdateOpArchive))
           else DecideRestart(v, st, OpArchive, OpArchivePreparedForUpdating))
    else if c.kind == Scheduler && s == OpArchiveUpdating && st.Done(OpArchive) then
      Some(Do(SyncUpdating, SetCondition(OpArchiveUpdated)))
    else if c.kind == QueryTracker && s == QTStatePreparing then
      Some(DecideRestart(v, st, QTState, QTStatePreparedForUpdating))
    else if c.kind == QueryTracker && s == QTStateUpdating && st.Done(QTState) then
      Some(Do(SyncUpdating, SetCondition(QTStateUpdated)))
    else if InWindow(c.kind, s) then None
    else Some(Settled)
  }

  /** Update states in which an updating component goes through its ordinary sync. */
  predicate InWindow(k: Kind, s: UpdateState) {
    || s == PodsCreation
    || (k == Scheduler && s == OpArchiveUpdating)
    || (k == QueryTracker && s == QTStateUpdating)
  }

  // ----- the recursive status -----

  /** Components only ask components of lower depth, so the recursion ends. */
  function Depth(k: Kind): nat {
    match k
    case Discovery | Master | MasterCache => 0
    case HttpProxy | DataNode | ExecNode | RpcProxy | TcpProxy | UI | ControllerAgent | YqlAgent => 1
    case YtsaurusClient => 2
    case TabletNode => 3
    case Scheduler | QueryTracker | QueueAgent => 4
    case StrawberryController => 5
  }

  /** The proxy that the client asks. A pass over a layout without one ends before anybody asks. */
  function FirstProxy(l: Layout): seq<Component> {
    if l.httpProxies == [] then [] else [Group(HttpProxy, l.httpProxies)[0]]
  }

  /** What a component learns about the components it may wait for. */
  datatype GateSet = GateSet(
    firstProxy: Gate, master: Gate, execNodes: Gate, dataNodes: Gate, tabletNodes: Gate, scheduler: Gate, client: Gate)

  function Decide(v: View, st: Status, c: Component): Decision
    decreases Depth(c.kind), 4, 0
  {
    if c.kind == YtsaurusClient then DecideClient(v, st, c)
    else if st.cluster == Running && v.Of(c).needUpdate then Do(NeedLocalUpdate, Nothing)
    else if st.cluster == Updating && DecideUpdating(v, st, c).Some? then DecideUpdating(v, st, c).value
    else DecideOrdinary(v, st, c)
  }

  function DecideClient(v: View, st: Status, c: Component): Decision
    decreases Depth(c.kind), 3, 0
  {
    ClientBehind(v, st, c, GatesOf(v, st, c))
  }

  function DecideOrdinary(v: View, st: Status, c: Component): Decision
    decreases Depth(c.kind), 3, 0
  {
    OrdinaryBehind(v, st, c, GatesOf(v, st, c))
  }

  function GatesOf(v: View, st: Status, c: Component): GateSet
    decreases Depth(c.kind), 2, 0
  {
    GateSet(
      Asked(v, st, c.kind, FirstProxy(v.layout)),
      Asked(v, st, c.kind, [Single(Master)]),
      Asked(v, st, c.kind, Group(ExecNode, v.layout.execNodes)),
      Asked(v, st, c.kind, Group(DataNode, v.layout.dataNodes)),
      Asked(v, st, c.kind, Group(TabletNode, v.layout.tabletNodes)),
      Asked(v, st, c.kind, [Single(Scheduler)]),
      AskedClient(v, st, c.kind))
  }

  function Asked(v: View, st: Status, k: Kind, cs: seq<Component>): Gate
    decreases Depth(k), 1, 0
  {
    if forall c :: c in cs ==> Depth(c.kind) < Depth(k) then AllRunning(v, st, cs, Depth(k)) else Open
  }

  /** The client must be Ready, not merely running, before its users go on. */
  function AskedClient(v: View, st: Status, k: Kind): Gate
    decreases Depth(k), 1, 0
  {
    if Depth(k) <= Depth(YtsaurusClient) then Open
    else match Decide(v, st, Single(YtsaurusClient))
      case Fail => Broken
      case Do(s, _) => if s == Ready then Open else Shut
  }

  function AllRunning(v: View, st: Status, cs: seq<Component>, depth: nat): Gate
    requires forall c :: c in cs ==> Depth(c.kind) < depth
    decreases depth, 0, |cs|
  {
    if cs == [] then Open
    else match Decide(v, st, cs[0])
      case Fail => Broken
      case Do(s, _) => if IsRunning(s) then AllRunning(v, st, cs[1..], depth) else Shut
  }

  // ----- decisions behind the gates -----

  function ClientBehind(v: View, st: Status, c: Component, g: GateSet): Decision {
    Then(g.firstProxy,
      AfterSecret(v, c,
        AfterJob(v, st, ClientUser,
          if v.clientFails then Fail
          else if st.cluster != Updating || st.update.state == ImpossibleToStart then Settled
          else Do(SyncUpdating, HandleUpdatingState))))
  }

  function OrdinaryBehind(v: View, st: Status, c: Component, g: GateSet): Decision
  {
    match c.kind
    case Discovery | MasterCache | YtsaurusClient => AfterServer(v, st, c, Settled)
    case Master => AfterServer(v, st, c, DecideJob(v, st, MasterDefault))
    case UI => DecideUI(v, st, c, g)
    case YqlAgent => DecideYqlAgent(v, st, c, g)
    case TabletNode => DecideTabletNode(v, st, c, g)
    case Scheduler => DecideScheduler(v, st, c, g)
    case QueryTracker => DecideQueryTracker(v, st, c, g)
    case QueueAgent => DecideQueueAgent(v, st, c, g)
    case StrawberryController => DecideStrawberry(v, st, c, g)
    case HttpProxy | RpcProxy | TcpProxy | DataNode | ExecNode | ControllerAgent =>
      Then(g.master, AfterServer(v, st, c, Settled))
  }

  function DecideUI(v: View, st: Status, c: Component, g: GateSet): Decision {
    Then(g.master, AfterSecret(v, c, AfterJob(v, st, UiDefault,
      if NeedSync(v, st, c) then Do(Pending, WriteServer)
      else if !v.Of(c).podsReady then Do(Pending, Nothing)
      else Settled)))
  }

  function DecideYqlAgent(v: View, st: Status, c: Component, g: GateSet): Decision {
    Then(g.master, AfterSecret(v, c, AfterServer(v, st, c, DecideJob(v, st, YqlEnvironment))))
  }

  function DecideTabletNode(v: View, st: Status, c: Component, g: GateSet): Decision {
    AfterServer(v, st, c,
      if !c.first || st.bundlesReady then Settled else Then(g.client, Do(Pending, InitBundles)))
  }

  function DecideScheduler(v: View, st: Status, c: Component, g: GateSet): Decision {
    Then(g.master, Then(g.execNodes, AfterSecret(v, c, AfterServer(v, st, c,
      if |v.layout.tabletNodes| == 0 then Settled
      else AfterJob(v, st, SchedulerUser, Then(g.tabletNodes, DecideJob(v, st, OpArchive)))))))
  }

  function DecideQueryTracker(v: View, st: Status, c: Component, g: GateSet): Decision {
    AfterSecret(v, c, AfterServer(v, st, c,
      if |v.layout.tabletNodes| == 0 then Fail else Then(g.tabletNodes, DecideQueryTrackerState(v, st))))
  }

  function DecideQueryTrackerState(v: View, st: Status): Decision {
    var job := DecideJob(v, st, QTState);
    Do(if job.status == Ready && !st.queryTrackerReady then Pending else job.status, InitQueryTracker(job.action))
  }

  function DecideQueueAgent(v: View, st: Status, c: Component, g: GateSet): Decision {
    Then(g.master,
      if |v.layout.tabletNodes| == 0 then Fail
      else Then(g.tabletNodes, AfterSecret(v, c, AfterServer(v, st, c,
        if st.cluster == Updating then DecideQueueAgentState(v, st)
        else Then(g.client, DecideQueueAgentState(v, st))))))
  }

  function DecideQueueAgentState(v: View, st: Status): Decision {
    AfterJob(v, st, QAState, if st.queueAgentReady then Settled else Do(Pending, InitQueueAgent))
  }

  function DecideStrawberry(v: View, st: Status, c: Component, g: GateSet): Decision {
    Then(g.master, Then(g.scheduler, Then(g.dataNodes,
      AfterSecret(v, c, AfterJob(v, st, StrawberryUser, AfterJob(v, st, StrawberryCluster,
        if NeedSync(v, st, c) then Do(Pending, WriteServer) else Settled))))))
  }
}
