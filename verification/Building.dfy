/** Bringing servers up, for the first time or during an update: how much is left to do, and that a
    pass with favourable answers does some of it as long as a component is not ready. */
module Building {
  import opened ClusterStatus
  import opened Components
  import opened World
  import opened Reconcile
  import opened Actions
  import opened Readiness
  import opened Initialised
  import opened Durable
  import opened Viability
  import opened Rounds

  // ----- what is left to do -----

  /** How many of these components' servers and secrets or services have not been written since. */
  ghost function Unwritten(cs: seq<Component>, log: seq<Event>, since: nat): nat {
    if cs == [] then 0 else Unwritten(cs[1..], log, since) + (if Written(cs[0], log, since) then 0 else 1)
  }

  ghost function Unmade(cs: seq<Component>, log: seq<Event>, since: nat): nat {
    if cs == [] then 0 else Unmade(cs[1..], log, since) + (if Made(cs[0], log, since) then 0 else 1)
  }

  /** A job is created, then completed. */
  function JobPhase(st: Status, k: Cluster, j: JobId): nat {
    if st.Done(j) then 0 else if Present(k, j) then 1 else 2
  }

  function JobsLeft(st: Status, k: Cluster, js: seq<JobId>): nat {
    if js == [] then 0 else JobsLeft(st, k, js[1..]) + JobPhase(st, k, js[0])
  }

  function Flag(done: bool): nat { if done then 0 else 1 }

  function FlagsLeft(st: Status): nat { Flag(st.bundlesReady) + Flag(st.queryTrackerReady) + Flag(st.queueAgentReady) }

  /** Servers, secrets and services not written since, steps of jobs, and the three initializations
      without a job. */
  ghost function Work(l: Layout, since: nat, st: Status, k: Cluster): nat {
    Unwritten(AllComponents(l), k.log, since) + Unmade(AllComponents(l), k.log, since) + JobsLeft(st, k, AllJobs) + FlagsLeft(st)
  }

  lemma {:induction false} JobsLeftLess(js: seq<JobId>, st: Status, k: Cluster, to: Status, r: Cluster, less: JobId)
    requires forall j :: JobPhase(to, r, j) <= JobPhase(st, k, j)
    ensures JobsLeft(to, r, js) <= JobsLeft(st, k, js)
    ensures less in js && JobPhase(to, r, less) < JobPhase(st, k, less) ==> JobsLeft(to, r, js) < JobsLeft(st, k, js)
    decreases |js|
  {
    if js != [] {
      JobsLeftLess(js[1..], st, k, to, r, less);
      assert forall j :: j in js <==> j == js[0] || j in js[1..];
      assert JobPhase(to, r, js[0]) <= JobPhase(st, k, js[0]);
    }
  }

  lemma WritesGrow(c: Component, log: seq<Event>, more: seq<Event>, since: nat)
    requires log <= more
    ensures Written(c, log, since) ==> Written(c, more, since)
    ensures Made(c, log, since) ==> Made(c, more, since)
  {
    if i :| since <= i < |log| && log[i].ServerWritten? && log[i].component == c { assert more[i] == log[i]; }
    if i :| since <= i < |log| && log[i].AuxiliaryCreated? && log[i].component == c { assert more[i] == log[i]; }
  }

  lemma {:induction false} UnwrittenDrops(cs: seq<Component>, log: seq<Event>, more: seq<Event>, since: nat, c: Component)
    requires log <= more
    ensures Unwritten(cs, more, since) <= Unwritten(cs, log, since)
    ensures c in cs && !Written(c, log, since) && Written(c, more, since) ==> Unwritten(cs, more, since) < Unwritten(cs, log, since)
    decreases |cs|
  {
    if cs != [] {
      UnwrittenDrops(cs[1..], log, more, since, c);
      WritesGrow(cs[0], log, more, since);
    }
  }

  lemma {:induction false} UnmadeDrops(cs: seq<Component>, log: seq<Event>, more: seq<Event>, since: nat, c: Component)
    requires log <= more
    ensures Unmade(cs, more, since) <= Unmade(cs, log, since)
    ensures c in cs && !Made(c, log, since) && Made(c, more, since) ==> Unmade(cs, more, since) < Unmade(cs, log, since)
    decreases |cs|
  {
    if cs != [] {
      UnmadeDrops(cs[1..], log, more, since, c);
      WritesGrow(cs[0], log, more, since);
    }
  }

  // ----- a cluster whose servers come up -----

  /** Components are created or recreated, and nobody lacks an initialization that is out of reach. */
  ghost predicate Opening(l: Layout, st: Status) {
    && |l.httpProxies| > 0
    && (if st.cluster == Updating
        then st.update.state == PodsCreation && !Barred(l, st) && ClientUnlisted(st)
        else (st.cluster == Initializing || st.cluster == Reconfiguration) && st.update == Blank)
  }

  /** What a pass sees: components as they come up, and jobs that have succeeded. */
  ghost predicate Watched(l: Layout, since: nat, v: View, st: Status, log: seq<Event>) {
    && v.layout == l && !v.clientFails
    && (forall c :: c in AllComponents(l) ==> ComesUp(st, c, v.Of(c), log, since))
    && (forall j :: j in v.jobs ==> v.jobs[j].succeeded)
  }

  lemma OpeningDecides(l: Layout, v: View, st: Status, c: Component)
    requires Opening(l, st) && v.layout == l && c.kind != YtsaurusClient
    ensures Decide(v, st, c) == if IsUpdatingComponent(st, c) then DecideOrdinary(v, st, c) else Settled
  {
    if st.cluster == Updating { assert DecideUpdating(v, st, c) == if IsUpdatingComponent(st, c) then None else Some(Settled); }
  }

  // ----- every action is useful -----

  predicate UsefulJob(v: View, st: Status, action: Action) {
    match action
    case CreateJob(j) => !st.Done(j) && j !in v.jobs
    case CompleteJob(j) => !st.Done(j) && j in v.jobs
    case _ => false
  }

  predicate Useful(v: View, st: Status, c: Component, action: Action) {
    match action
    case WriteServer => !UpToDate(st, v.Of(c))
    case CreateAuxiliary => Lacks(v.Of(c))
    case CreateJob(_) => UsefulJob(v, st, action)
    case CompleteJob(_) => UsefulJob(v, st, action)
    case InitBundles => !st.bundlesReady && st.cluster != Updating
    case InitQueryTracker(next) => c.kind == QueryTracker && if next == Nothing then !st.queryTrackerReady else UsefulJob(v, st, next)
    case InitQueueAgent => !st.queueAgentReady && st.cluster != Updating
    case _ => false
  }

  predicate Resting(d: Decision) { d.Do? && (d.status == Ready || d.status == Blocked) }

  /** A decision that waits, or is done, or does something useful. */
  predicate Sensible(v: View, st: Status, c: Component, d: Decision) {
    Resting(d) || (d.Do? && d.status == Pending && Useful(v, st, c, d.action))
  }

  /** The gates a component may have to pass. In an update nobody has to wait for the client. */
  predicate OpenEnough(st: Status, g: GateSet) {
    && g.master == Open && g.execNodes == Open && g.dataNodes == Open && g.tabletNodes == Open && g.scheduler == Open
    && (st.cluster != Updating ==> g.client == Open)
  }

  /** Which kinds of components a layout has. */
  predicate Hosts(l: Layout, k: Kind) {
    match k
    case UI => l.ui
    case YqlAgent => l.yqlAgents
    case Scheduler => l.schedulers
    case QueryTracker => HasQueryTracker(l)
    case QueueAgent => HasQueueAgent(l)
    case StrawberryController => HasStrawberry(l)
    case TabletNode => |l.tabletNodes| > 0
    case _ => true
  }

  lemma FoundationIsHosted(l: Layout, c: Component)
    requires c in Foundation(l)
    ensures Hosts(l, c.kind)
  {}

  lemma AgentsAreHosted(l: Layout, c: Component)
    requires c in Agents(l)
    ensures Hosts(l, c.kind)
  {}

  lemma ResidentsAreHosted(l: Layout, c: Component)
    requires c in AllComponents(l)
    ensures Hosts(l, c.kind)
  {
    if c in Foundation(l) {
      FoundationIsHosted(l, c);
    } else if c in Agents(l) {
      AgentsAreHosted(l, c);
    }
  }

  /** What is known of a component that goes through its ordinary sync. */
  predicate GoesOn(v: View, st: Status, c: Component, g: GateSet) {
    && NoneBroken(g) && (UpToDate(st, v.Of(c)) ==> v.Of(c).podsReady) && Hosts(v.layout, c.kind)
    && IsUpdatingComponent(st, c) && (st.cluster == Updating ==> !NeedsClient(st, c))
    && (forall j :: j in v.jobs ==> v.jobs[j].succeeded)
  }

  lemma JobSensible(v: View, st: Status, c: Component, j: JobId)
    requires forall j :: j in v.jobs ==> v.jobs[j].succeeded
    ensures var d := DecideJob(v, st, j); Sensible(v, st, c, d) && d.status != Blocked
  {}

  predicate SensibleBehind(v: View, st: Status, c: Component, g: GateSet, d: Decision) {
    Sensible(v, st, c, d) && (OpenEnough(st, g) ==> d.status != Blocked)
  }

  lemma SchedulerSensible(v: View, st: Status, c: Component, g: GateSet)
    requires GoesOn(v, st, c, g) && c.kind == Scheduler
    ensures SensibleBehind(v, st, c, g, OrdinaryBehind(v, st, c, g))
  {
    JobSensible(v, st, c, SchedulerUser);
    JobSensible(v, st, c, OpArchive);
  }

  lemma StrawberrySensible(v: View, st: Status, c: Component, g: GateSet)
    requires GoesOn(v, st, c, g) && c.kind == StrawberryController
    ensures SensibleBehind(v, st, c, g, OrdinaryBehind(v, st, c, g))
  {
    JobSensible(v, st, c, StrawberryUser);
    JobSensible(v, st, c, StrawberryCluster);
  }

  lemma QueueAgentSensible(v: View, st: Status, c: Component, g: GateSet)
    requires GoesOn(v, st, c, g) && c.kind == QueueAgent
    ensures SensibleBehind(v, st, c, g, OrdinaryBehind(v, st, c, g))
  {
    JobSensible(v, st, c, QAState);
  }

  lemma QueryTrackerSensible(v: View, st: Status, c: Component, g: GateSet)
    requires GoesOn(v, st, c, g) && c.kind == QueryTracker
    ensures SensibleBehind(v, st, c, g, OrdinaryBehind(v, st, c, g))
  {
    JobSensible(v, st, c, QTState);
  }

  lemma OthersSensible(v: View, st: Status, c: Component, g: GateSet)
    requires GoesOn(v, st, c, g)
    requires c.kind !in {YtsaurusClient, Scheduler, StrawberryController, QueueAgent, QueryTracker}
    ensures SensibleBehind(v, st, c, g, OrdinaryBehind(v, st, c, g))
  {
    JobSensible(v, st, c, MasterDefault);
    JobSensible(v, st, c, UiDefault);
    JobSensible(v, st, c, YqlEnvironment);
  }

  lemma OrdinarySensible(v: View, st: Status, c: Component, g: GateSet)
    requires GoesOn(v, st, c, g) && c.kind != YtsaurusClient
    ensures SensibleBehind(v, st, c, g, OrdinaryBehind(v, st, c, g))
  {
    match c.kind
    case Scheduler => SchedulerSensible(v, st, c, g);
    case StrawberryController => StrawberrySensible(v, st, c, g);
    case QueueAgent => QueueAgentSensible(v, st, c, g);
    case QueryTracker => QueryTrackerSensible(v, st, c, g);
    case _ => OthersSensible(v, st, c, g);
  }

  lemma ClientSensible(v: View, st: Status, c: Component, g: GateSet)
    requires c.kind == YtsaurusClient && NoneBroken(g) && !v.clientFails
    requires forall j :: j in v.jobs ==> v.jobs[j].succeeded
    ensures var d := ClientBehind(v, st, c, g);
      && (Sensible(v, st, c, d) || (st.cluster == Updating && d == Do(SyncUpdating, HandleUpdatingState)))
      && (g.firstProxy == Open ==> d.status != Blocked)
  {
    JobSensible(v, st, c, ClientUser);
  }

  lemma OrdinaryUnfolds(v: View, st: Status, c: Component)
    requires |v.layout.httpProxies| > 0
    ensures DecideOrdinary(v, st, c) == OrdinaryBehind(v, st, c, GatesOf(v, st, c))
  {}

  lemma ClientUnfolds(v: View, st: Status, c: Component)
    requires |v.layout.httpProxies| > 0 && c.kind == YtsaurusClient
    ensures Decide(v, st, c) == ClientBehind(v, st, c, GatesOf(v, st, c))
  {}

  /** This component does not hold up the others. */
  predicate Settles(v: View, st: Status, c: Component)
  {
    StatusIs(v, st, c, Ready) || (c.kind == YtsaurusClient && st.cluster == Updating && StatusIs(v, st, c, SyncUpdating))
  }

  /** What any component of an opening cluster decides. */
  ghost predicate DecidesWell(v: View, st: Status, c: Component)
  {
    var d := Decide(v, st, c);
    || Sensible(v, st, c, d)
    || (c.kind == YtsaurusClient && st.cluster == Updating && d == Do(SyncUpdating, HandleUpdatingState))
  }

  lemma GoingOn(l: Layout, since: nat, v: View, st: Status, log: seq<Event>, c: Component)
    requires Opening(l, st) && Watched(l, since, v, st, log) && c in AllComponents(l) && c.kind != YtsaurusClient && IsUpdatingComponent(st, c)
    ensures GoesOn(v, st, c, GatesOf(v, st, c))
  {
    GatesNotBroken(v, st, c);
    ResidentsAreHosted(l, c);
    assert ComesUp(st, c, v.Of(c), log, since);
  }

  lemma EveryoneDecidesWell(l: Layout, since: nat, v: View, st: Status, log: seq<Event>, c: Component)
    requires Opening(l, st) && Watched(l, since, v, st, log) && c in AllComponents(l)
    ensures DecidesWell(v, st, c)
  {
    if c.kind == YtsaurusClient {
      ClientUnfolds(v, st, c);
      GatesNotBroken(v, st, c);
      assert ComesUp(st, c, v.Of(c), log, since);
      ClientSensible(v, st, c, GatesOf(v, st, c));
    } else {
      OpeningDecides(l, v, st, c);
      if IsUpdatingComponent(st, c) {
        GoingOn(l, since, v, st, log, c);
        OrdinaryUnfolds(v, st, c);
        OrdinarySensible(v, st, c, GatesOf(v, st, c));
      }
    }
  }

  // ----- somebody can always act -----

  ghost predicate BelowSettled(l: Layout, v: View, st: Status, depth: nat)
  {
    forall c :: c in AllComponents(l) && Depth(c.kind) < depth ==> Settles(v, st, c)
  }

  lemma AskedSettled(l: Layout, v: View, st: Status, k: Kind, cs: seq<Component>)
    requires |v.layout.httpProxies| > 0 && BelowSettled(l, v, st, Depth(k))
    requires forall c :: c in cs ==> c in AllComponents(l) && c.kind != YtsaurusClient
    ensures Asked(v, st, k, cs) == Open
  {
    if forall c :: c in cs ==> Depth(c.kind) < Depth(k) {
      assert forall c :: c in cs ==> Settles(v, st, c);
      GateMeaning(v, st, cs, Depth(k));
    }
  }

  lemma GroupsAreResident(l: Layout)
    ensures forall c :: c in Group(ExecNode, l.execNodes) ==> c in AllComponents(l)
    ensures forall c :: c in Group(DataNode, l.dataNodes) ==> c in AllComponents(l)
    ensures forall c :: c in Group(TabletNode, l.tabletNodes) ==> c in AllComponents(l)
    ensures |l.httpProxies| > 0 ==> Group(HttpProxy, l.httpProxies)[0] in AllComponents(l)
  {
    Members(l);
    if |l.httpProxies| > 0 { assert Group(HttpProxy, l.httpProxies)[0] in Group(HttpProxy, l.httpProxies); }
  }

  lemma NodesSettled(l: Layout, v: View, st: Status, k: Kind)
    requires |l.httpProxies| > 0 && v.layout == l && BelowSettled(l, v, st, Depth(k))
    ensures Asked(v, st, k, Group(ExecNode, l.execNodes)) == Open
    ensures Asked(v, st, k, Group(DataNode, l.dataNodes)) == Open
    ensures Asked(v, st, k, Group(TabletNode, l.tabletNodes)) == Open
  {
    GroupsAreResident(l);
    AskedSettled(l, v, st, k, Group(ExecNode, l.execNodes));
    AskedSettled(l, v, st, k, Group(DataNode, l.dataNodes));
    AskedSettled(l, v, st, k, Group(TabletNode, l.tabletNodes));
  }

  lemma AskedOneSettled(l: Layout, v: View, st: Status, k: Kind, c: Component)
    requires |v.layout.httpProxies| > 0 && BelowSettled(l, v, st, Depth(k)) && c in AllComponents(l) && c.kind != YtsaurusClient
    ensures Asked(v, st, k, [c]) == Open
  {
    assert forall x :: x in [c] ==> x == c;
    AskedSettled(l, v, st, k, [c]);
  }

  lemma OnlyStrawberryAsks(v: View, st: Status, k: Kind)
    requires |v.layout.httpProxies| > 0 && k != StrawberryController
    ensures Asked(v, st, k, [Single(Scheduler)]) == Open
  {
    assert Single(Scheduler) in [Single(Scheduler)];
  }

  lemma SinglesSettled(l: Layout, v: View, st: Status, k: Kind)
    requires |l.httpProxies| > 0 && v.layout == l && BelowSettled(l, v, st, Depth(k)) && Hosts(l, k)
    ensures Asked(v, st, k, [Single(Master)]) == Open && Asked(v, st, k, [Single(Scheduler)]) == Open
    ensures Asked(v, st, k, FirstProxy(l)) == Open
  {
    Members(l);
    GroupsAreResident(l);
    AskedOneSettled(l, v, st, k, Single(Master));
    AskedOneSettled(l, v, st, k, Group(HttpProxy, l.httpProxies)[0]);
    if k == StrawberryController {
      AskedOneSettled(l, v, st, k, Single(Scheduler));
    } else {
      OnlyStrawberryAsks(v, st, k);
    }
  }

  lemma ClientSettled(l: Layout, v: View, st: Status, k: Kind)
    requires |l.httpProxies| > 0 && v.layout == l && BelowSettled(l, v, st, Depth(k)) && st.cluster != Updating
    ensures AskedClient(v, st, k) == Open
  {
    Members(l);
    if Depth(k) > Depth(YtsaurusClient) { assert Settles(v, st, Single(YtsaurusClient)); }
  }

  lemma GatesSettled(l: Layout, v: View, st: Status, c: Component)
    requires |l.httpProxies| > 0 && v.layout == l && BelowSettled(l, v, st, Depth(c.kind)) && c in AllComponents(l)
    ensures var g := GatesOf(v, st, c); OpenEnough(st, g) && g.firstProxy == Open
  {
    ResidentsAreHosted(l, c);
    SinglesSettled(l, v, st, c.kind);
    NodesSettled(l, v, st, c.kind);
    if st.cluster != Updating { ClientSettled(l, v, st, c.kind); }
  }

  /** A component above settled ones is settled or has something to do. */
  lemma ActsAboveSettled(l: Layout, since: nat, v: View, st: Status, log: seq<Event>, c: Component)
    requires Opening(l, st) && Watched(l, since, v, st, log) && c in AllComponents(l) && BelowSettled(l, v, st, Depth(c.kind))
    ensures Settles(v, st, c) || StatusIs(v, st, c, Pending)
  {
    EveryoneDecidesWell(l, since, v, st, log, c);
    GatesSettled(l, v, st, c);
    if c.kind == YtsaurusClient {
      ClientUnfolds(v, st, c);
      assert ComesUp(st, c, v.Of(c), log, since);
      GatesNotBroken(v, st, c);
      ClientSensible(v, st, c, GatesOf(v, st, c));
    } else {
      OpeningDecides(l, v, st, c);
      if IsUpdatingComponent(st, c) {
        GoingOn(l, since, v, st, log, c);
        OrdinaryUnfolds(v, st, c);
        OrdinarySensible(v, st, c, GatesOf(v, st, c));
      }
    }
  }

  lemma LeastUnsettled(l: Layout, v: View, st: Status, c: Component) returns (low: Component)
    requires |v.layout.httpProxies| > 0 && c in AllComponents(l) && !Settles(v, st, c)
    ensures low in AllComponents(l) && !Settles(v, st, low) && BelowSettled(l, v, st, Depth(low.kind)) && Depth(low.kind) <= Depth(c.kind)
    decreases Depth(c.kind)
  {
    low := c;
    if !BelowSettled(l, v, st, Depth(c.kind)) {
      var below :| below in AllComponents(l) && Depth(below.kind) < Depth(c.kind) && !Settles(v, st, below);
      low := LeastUnsettled(l, v, st, below);
    }
  }

  /** As long as somebody is not settled, somebody has something to do. */
  lemma SomebodyActs(l: Layout, since: nat, v: View, st: Status, log: seq<Event>, c: Component) returns (actor: Component)
    requires Opening(l, st) && Watched(l, since, v, st, log) && c in AllComponents(l) && !Settles(v, st, c)
    ensures actor in AllComponents(l) && StatusIs(v, st, actor, Pending) && Depth(actor.kind) <= Depth(c.kind)
  {
    actor := LeastUnsettled(l, v, st, c);
    ActsAboveSettled(l, since, v, st, log, actor);
  }

  // ----- and what is done is done -----

  predicate AllSucceed(outs: seq<Outcome>) { forall i :: 0 <= i < |outs| ==> outs[i] == Done }

  lemma {:induction false} CreateSucceeds(k: Cluster, bundle: string, missing: nat, outs: seq<Outcome>)
    requires AllSucceed(outs)
    ensures var r := CreateCells(k, bundle, missing, outs); r.ok && AllSucceed(r.outs) && r.cluster.bundles == k.bundles
    decreases missing
  {
    if missing > 0 { CreateSucceeds(CreateCell(k, bundle), bundle, missing - 1, Rest(outs)); }
  }

  lemma {:induction false} RecoverSucceeds(k: Cluster, infos: seq<BundleInfo>, outs: seq<Outcome>)
    requires AllSucceed(outs) && forall i :: 0 <= i < |infos| ==> infos[i].name in k.bundles
    ensures RecoverCells(k, infos, outs).ok
    decreases |infos|
  {
    if infos != [] {
      var have := Count(k.cells, infos[0].name);
      CreateSucceeds(k, infos[0].name, if have < infos[0].cellCount then infos[0].cellCount - have else 0, Rest(outs));
      var c := FillBundle(k, infos[0], outs);
      RecoverSucceeds(c.cluster, infos[1..], c.outs);
    }
  }

  /** The default bundle comes with every YT cluster; it matters only to the first initialization. */
  predicate BundlesThere(st: Status, k: Cluster) { st.cluster == Updating || st.bundlesReady || "default" in k.bundles }

  /** From `p` to `q` nothing was undone. */
  ghost predicate NoMore(p: Pass, q: Pass) {
    && q.stored == p.stored && q.mem.cluster == p.mem.cluster && q.mem.update == p.mem.update
    && p.cluster.log <= q.cluster.log && (forall b :: b in p.cluster.bundles ==> b in q.cluster.bundles)
    && (forall j :: JobPhase(q.mem, q.cluster, j) <= JobPhase(p.mem, p.cluster, j))
    && (p.mem.bundlesReady ==> q.mem.bundlesReady)
    && (p.mem.queryTrackerReady ==> q.mem.queryTrackerReady)
    && (p.mem.queueAgentReady ==> q.mem.queueAgentReady)
  }

  /** And something was done. */
  ghost predicate Less(l: Layout, since: nat, p: Pass, q: Pass) {
    || (exists c :: c in AllComponents(l) && !Written(c, p.cluster.log, since) && Written(c, q.cluster.log, since))
    || (exists c :: c in AllComponents(l) && !Made(c, p.cluster.log, since) && Made(c, q.cluster.log, since))
    || (exists j :: JobPhase(q.mem, q.cluster, j) < JobPhase(p.mem, p.cluster, j))
    || FlagsLeft(q.mem) < FlagsLeft(p.mem)
  }

  lemma NoMoreWork(l: Layout, since: nat, p: Pass, q: Pass)
    requires NoMore(p, q)
    ensures Work(l, since, q.mem, q.cluster) <= Work(l, since, p.mem, p.cluster)
    ensures Less(l, since, p, q) ==> Work(l, since, q.mem, q.cluster) < Work(l, since, p.mem, p.cluster)
  {
    var cs, log, more := AllComponents(l), p.cluster.log, q.cluster.log;
    UnwrittenDrops(cs, log, more, since, Single(Master));
    UnmadeDrops(cs, log, more, since, Single(Master));
    JobsLeftLess(AllJobs, p.mem, p.cluster, q.mem, q.cluster, ClientUser);
    if c :| c in cs && !Written(c, log, since) && Written(c, more, since) { UnwrittenDrops(cs, log, more, since, c); }
    if c :| c in cs && !Made(c, log, since) && Made(c, more, since) { UnmadeDrops(cs, log, more, since, c); }
    if j :| JobPhase(q.mem, q.cluster, j) < JobPhase(p.mem, p.cluster, j) {
      AllJobsAreThere(j);
      JobsLeftLess(AllJobs, p.mem, p.cluster, q.mem, q.cluster, j);
    }
  }

  lemma NoMoreOpening(l: Layout, p: Pass, q: Pass)
    requires NoMore(p, q) && Opening(l, p.mem) && BundlesThere(p.mem, p.cluster)
    ensures Opening(l, q.mem) && BundlesThere(q.mem, q.cluster)
  {
    if Barred(l, q.mem) {
      var c :| c in AllComponents(l) && IsUpdatingComponent(q.mem, c) && NeedsClient(q.mem, c);
      assert IsUpdatingComponent(p.mem, c) && NeedsClient(p.mem, c);
    }
  }

  /** The view still agrees with the cluster. */
  ghost predicate Exact(since: nat, p: Pass, v: View, c: Component) {
    && (forall j :: j in v.jobs <==> Present(p.cluster, j))
    && (!UpToDate(p.mem, v.Of(c)) ==> !Written(c, p.cluster.log, since))
    && (Lacks(v.Of(c)) ==> !Made(c, p.cluster.log, since))
    && since <= |p.cluster.log|
  }

  lemma WriteDoes(l: Layout, since: nat, p: Pass, v: View, c: Component)
    requires Useful(v, p.mem, c, WriteServer) && c in AllComponents(l)
    ensures var q := p.(cluster := p.cluster.Log(ServerWritten(c, p.mem.update.state)));
      NoMore(p, q) && (Exact(since, p, v, c) ==> Less(l, since, p, q))
  {
    var e := ServerWritten(c, p.mem.update.state);
    var q := p.(cluster := p.cluster.Log(e));
    assert q.cluster.log[|p.cluster.log|] == e;
    if Exact(since, p, v, c) { assert Written(c, q.cluster.log, since); }
  }

  lemma MakeDoes(l: Layout, since: nat, p: Pass, v: View, c: Component)
    requires Useful(v, p.mem, c, CreateAuxiliary) && c in AllComponents(l)
    ensures var q := p.(cluster := p.cluster.Log(AuxiliaryCreated(c, p.mem.update.state)));
      NoMore(p, q) && (Exact(since, p, v, c) ==> Less(l, since, p, q))
  {
    var e := AuxiliaryCreated(c, p.mem.update.state);
    var q := p.(cluster := p.cluster.Log(e));
    assert q.cluster.log[|p.cluster.log|] == e;
    if Exact(since, p, v, c) { assert Made(c, q.cluster.log, since); }
  }

  lemma CreateDoes(l: Layout, since: nat, p: Pass, v: View, c: Component, j: JobId)
    requires UsefulJob(v, p.mem, CreateJob(j))
    ensures var s := CreateJobStep(p, j, Done, Done); s.ok && NoMore(p, s.pass) && (Exact(since, p, v, c) ==> Less(l, since, p, s.pass))
  {
    var q := CreateJobStep(p, j, Done, Done).pass;
    assert Present(q.cluster, j);
    assert forall i :: i != j ==> Present(q.cluster, i) == Present(p.cluster, i);
    if Exact(since, p, v, c) { assert JobPhase(q.mem, q.cluster, j) < JobPhase(p.mem, p.cluster, j); }
  }

  lemma CompleteDoes(l: Layout, since: nat, p: Pass, v: View, j: JobId)
    requires UsefulJob(v, p.mem, CompleteJob(j))
    ensures var q := WithInitDone(p, j, true); NoMore(p, q) && Less(l, since, p, q)
  {
    var q := WithInitDone(p, j, true);
    assert JobPhase(q.mem, q.cluster, j) < JobPhase(p.mem, p.cluster, j);
  }

  lemma InitBundlesSucceeds(p: Pass, b: (nat, nat), outs: seq<Outcome>)
    requires AllSucceed(outs) && "default" in p.cluster.bundles
    ensures var s := InitBundlesStep(p, b, outs); s.ok && NoMore(p, s.pass) && s.pass.mem == p.mem.(bundlesReady := true)
  {
    var s := EnsureSysBundle(p.cluster, outs);
    var infos := [BundleInfo("default", b.0), BundleInfo("sys", b.1)];
    assert s.ok && AllSucceed(Rest(s.outs)) && "default" in s.cluster.bundles && "sys" in s.cluster.bundles;
    RecoverSucceeds(s.cluster, infos, Rest(s.outs));
    RecoverCellsFrame(s.cluster, infos, Rest(s.outs));
    var q := InitBundlesStep(p, b, outs).pass;
    assert q.cluster.jobs == p.cluster.jobs;
  }

  /** Nothing fails, and whoever needs a YT client has one. */
  ghost predicate Succeeds(a: Answers, c: Component, action: Action) {
    a.CallsOf(c) == AllDone && AllSucceed(a.yt.outcomes) && (action.InitQueryTracker? ==> !a.clientMissing)
  }

  lemma JobDoes(l: Layout, since: nat, p: Pass, v: View, c: Component, action: Action, b: (nat, nat), a: Answers)
    requires UsefulJob(v, p.mem, action) && Succeeds(a, c, action)
    ensures var s := Perform(p, v, c, action, b, a); s.ok && NoMore(p, s.pass) && (Exact(since, p, v, c) ==> Less(l, since, p, s.pass))
  {
    match action
    case CreateJob(j) => CreateDoes(l, since, p, v, c, j);
    case CompleteJob(j) => CompleteDoes(l, since, p, v, j);
  }

  lemma QueryTrackerDoes(l: Layout, since: nat, p: Pass, v: View, c: Component, next: Action, b: (nat, nat), a: Answers)
    requires Useful(v, p.mem, c, InitQueryTracker(next)) && Succeeds(a, c, InitQueryTracker(next))
    ensures var s := Perform(p, v, c, InitQueryTracker(next), b, a); s.ok && NoMore(p, s.pass) && (Exact(since, p, v, c) ==> Less(l, since, p, s.pass))
  {
    var ready := p.(mem := p.mem.(queryTrackerReady := true));
    if next == Nothing {
      assert NoMore(p, ready) && Less(l, since, p, ready);
    } else {
      JobDoes(l, since, ready, v, c, next, b, a);
      LessAfterReady(l, since, p, ready, Perform(ready, v, c, next, b, a).pass);
    }
  }

  lemma ActionDoes(l: Layout, since: nat, p: Pass, v: View, c: Component, action: Action, b: (nat, nat), a: Answers)
    requires Useful(v, p.mem, c, action) && c in AllComponents(l) && BundlesThere(p.mem, p.cluster) && Succeeds(a, c, action)
    ensures var s := Perform(p, v, c, action, b, a); s.ok && NoMore(p, s.pass) && (Exact(since, p, v, c) ==> Less(l, since, p, s.pass))
  {
    match action
    case WriteServer => WriteDoes(l, since, p, v, c);
    case CreateAuxiliary => MakeDoes(l, since, p, v, c);
    case CreateJob(j) => JobDoes(l, since, p, v, c, action, b, a);
    case CompleteJob(j) => JobDoes(l, since, p, v, c, action, b, a);
    case InitBundles => InitBundlesSucceeds(p, b, a.yt.outcomes);
    case InitQueueAgent =>
    case InitQueryTracker(next) => QueryTrackerDoes(l, since, p, v, c, next, b, a);
  }

  lemma LessAfterReady(l: Layout, since: nat, p: Pass, ready: Pass, q: Pass)
    requires ready == p.(mem := p.mem.(queryTrackerReady := true)) && NoMore(ready, q)
    ensures NoMore(p, q) && (Less(l, since, ready, q) ==> Less(l, since, p, q))
  {
    assert forall j :: JobPhase(ready.mem, ready.cluster, j) == JobPhase(p.mem, p.cluster, j);
    assert forall c :: IsUpdatingComponent(ready.mem, c) == IsUpdatingComponent(p.mem, c);
  }

  // ----- a pass that syncs -----

  /** What a pass with favourable answers works with: the same view throughout. */
  ghost predicate Helped(spec: Spec, l: Layout, v: View, fetched: Cluster, a: Answers) {
    && spec.layout == l && |l.httpProxies| > 0 && a.checked == a.surveyed && a.synced == a.surveyed
    && v == ViewOf(spec, fetched, a.surveyed, a)
    && (forall n :: n in a.calls ==> a.calls[n] == AllDone) && AllSucceed(a.yt.outcomes)
  }

  lemma AllCallsDone(a: Answers, c: Component)
    requires forall n :: n in a.calls ==> a.calls[n] == AllDone
    ensures a.CallsOf(c) == AllDone
  {}

  /** Seen the same way twice, a component performs what it decided on. */
  lemma SyncsAsDecided(p: Pass, spec: Spec, fetched: Cluster, a: Answers, c: Component, d: Decision)
    requires |spec.layout.httpProxies| > 0 && a.checked == a.surveyed && a.synced == a.surveyed
    requires Decide(ViewOf(spec, fetched, a.surveyed, a), p.mem, c) == d && d.Do?
    requires d.status == Pending || d.status == SyncUpdating
    ensures SyncOne(p, spec, fetched, a, c) == Perform(p, ViewOf(spec, fetched, a.surveyed, a), c, d.action, spec.bootstrap, a)
  {}

  lemma RestsUnlessPending(p: Pass, spec: Spec, fetched: Cluster, a: Answers, c: Component)
    requires |spec.layout.httpProxies| > 0 && a.checked == a.surveyed
    requires Resting(Decide(ViewOf(spec, fetched, a.surveyed, a), p.mem, c))
    ensures SyncOne(p, spec, fetched, a, c) == Step(p, true)
  {}

  lemma PerformsNothingWhileCreating(p: Pass, v: View, c: Component, b: (nat, nat), a: Answers)
    requires p.mem.update.state == PodsCreation
    ensures Perform(p, v, c, HandleUpdatingState, b, a) == Step(p, true)
  {}

  /** A pass in the middle of its components. */
  ghost predicate Midway(l: Layout, since: nat, p: Pass, v: View, log: seq<Event>) {
    Opening(l, p.mem) && BundlesThere(p.mem, p.cluster) && Watched(l, since, v, p.mem, log)
  }

  /** The query tracker does nothing before there is a client. */
  predicate Able(a: Answers, c: Component) { c.kind == QueryTracker ==> !a.clientMissing }

  lemma WaitsForClient(p: Pass, v: View, c: Component, action: Action, b: (nat, nat), a: Answers)
    requires action.InitQueryTracker? && a.clientMissing
    ensures Perform(p, v, c, action, b, a) == Step(p, true)
  {}

  lemma SyncOneDoes(l: Layout, since: nat, p: Pass, spec: Spec, v: View, fetched: Cluster, log: seq<Event>, a: Answers, c: Component)
    returns (q: Pass)
    requires Helped(spec, l, v, fetched, a) && Midway(l, since, p, v, log) && c in AllComponents(l)
    ensures SyncOne(p, spec, fetched, a, c) == Step(q, true) && NoMore(p, q)
    ensures q == p || (Exact(since, p, v, c) ==> Less(l, since, p, q))
    ensures Exact(since, p, v, c) && StatusIs(v, p.mem, c, Pending) && Able(a, c) ==> Less(l, since, p, q)
  {
    var d := Decide(v, p.mem, c);
    EveryoneDecidesWell(l, since, v, p.mem, log, c);
    q := p;
    if Resting(d) {
      RestsUnlessPending(p, spec, fetched, a, c);
    } else {
      SyncsAsDecided(p, spec, fetched, a, c, d);
      if d == Do(SyncUpdating, HandleUpdatingState) {
        PerformsNothingWhileCreating(p, v, c, spec.bootstrap, a);
      } else if d.action.InitQueryTracker? && a.clientMissing {
        WaitsForClient(p, v, c, d.action, spec.bootstrap, a);
      } else {
        q := DoesUseful(l, since, p, spec, v, a, c, d.action);
      }
    }
  }

  lemma DoesUseful(l: Layout, since: nat, p: Pass, spec: Spec, v: View, a: Answers, c: Component, action: Action) returns (q: Pass)
    requires Useful(v, p.mem, c, action) && c in AllComponents(l) && BundlesThere(p.mem, p.cluster)
    requires (forall n :: n in a.calls ==> a.calls[n] == AllDone) && AllSucceed(a.yt.outcomes)
    requires action.InitQueryTracker? ==> !a.clientMissing
    ensures Perform(p, v, c, action, spec.bootstrap, a) == Step(q, true) && NoMore(p, q)
    ensures Exact(since, p, v, c) ==> Less(l, since, p, q)
  {
    AllCallsDone(a, c);
    ActionDoes(l, since, p, v, c, action, spec.bootstrap, a);
    var s := Perform(p, v, c, action, spec.bootstrap, a);
    q := s.pass;
  }

  lemma StillMidway(l: Layout, since: nat, p: Pass, q: Pass, v: View, log: seq<Event>)
    requires Midway(l, since, p, v, log) && NoMore(p, q)
    ensures Midway(l, since, q, v, log)
  {
    NoMoreOpening(l, p, q);
    forall c | c in AllComponents(l) ensures ComesUp(q.mem, c, v.Of(c), log, since) { assert ComesUp(p.mem, c, v.Of(c), log, since); }
  }

  ghost predicate LessWork(l: Layout, since: nat, start: Pass, p: Pass) {
    Work(l, since, p.mem, p.cluster) < Work(l, since, start.mem, start.cluster)
  }

  predicate SamePlaceAs(p: Pass, q: Pass) { q.stored == p.stored && q.mem.cluster == p.mem.cluster && q.mem.update == p.mem.update }

  /** One turn: nothing happens, or there is less to do than at the start. */
  lemma TurnDoes(l: Layout, since: nat, start: Pass, p: Pass, spec: Spec, v: View, fetched: Cluster, a: Answers, c: Component) returns (q: Pass)
    requires Helped(spec, l, v, fetched, a) && Midway(l, since, p, v, start.cluster.log) && c in AllComponents(l) && Exact(since, start, v, c)
    requires p == start || LessWork(l, since, start, p)
    ensures SyncOne(p, spec, fetched, a, c) == Step(q, true) && Midway(l, since, q, v, start.cluster.log)
    ensures SamePlaceAs(p, q) && p.cluster.log <= q.cluster.log
    ensures q == start || LessWork(l, since, start, q)
    ensures LessWork(l, since, start, p) ==> LessWork(l, since, start, q)
    ensures p == start && StatusIs(v, start.mem, c, Pending) && Able(a, c) ==> LessWork(l, since, start, q)
  {
    q := SyncOneDoes(l, since, p, spec, v, fetched, start.cluster.log, a, c);
    NoMoreWork(l, since, p, q);
    StillMidway(l, since, p, q, v, start.cluster.log);
  }

  ghost predicate SomeonePending(v: View, st: Status, a: Answers, cs: seq<Component>)
  {
    exists c :: c in cs && StatusIs(v, st, c, Pending) && Able(a, c)
  }

  lemma PendingInTurn(v: View, st: Status, a: Answers, cs: seq<Component>)
    requires cs != []
    ensures SomeonePending(v, st, a, cs) ==> (StatusIs(v, st, cs[0], Pending) && Able(a, cs[0])) || SomeonePending(v, st, a, cs[1..])
  {
    if c :| c in cs && StatusIs(v, st, c, Pending) && Able(a, c) { assert c == cs[0] || c in cs[1..]; }
  }

  lemma {:induction false} SyncAllDoes(
    l: Layout, since: nat, start: Pass, p: Pass, spec: Spec, v: View, fetched: Cluster, a: Answers, cs: seq<Component>) returns (q: Pass)
    requires Helped(spec, l, v, fetched, a) && Midway(l, since, p, v, start.cluster.log)
    requires forall c :: c in cs ==> c in AllComponents(l) && Exact(since, start, v, c)
    requires p == start || LessWork(l, since, start, p)
    ensures SyncAll(p, spec, fetched, a, cs) == Step(q, true) && Midway(l, since, q, v, start.cluster.log)
    ensures SamePlaceAs(p, q) && p.cluster.log <= q.cluster.log
    ensures q == start || LessWork(l, since, start, q)
    ensures LessWork(l, since, start, p) ==> LessWork(l, since, start, q)
    ensures p == start && SomeonePending(v, start.mem, a, cs) ==> LessWork(l, since, start, q)
    decreases |cs|
  {
    q := p;
    if cs != [] {
      var one := TurnDoes(l, since, start, p, spec, v, fetched, a, cs[0]);
      q := SyncAllDoes(l, since, start, one, spec, v, fetched, a, cs[1..]);
      PendingInTurn(v, start.mem, a, cs);
    }
  }

  lemma ClientIsThere(l: Layout)
    ensures Single(YtsaurusClient) in AllComponents(l)
  {
    Members(l);
  }

  /** Without a client it is the client that is not settled. */
  lemma WhereToLook(l: Layout, since: nat, v: View, st: Status, log: seq<Event>, a: Answers, c: Component) returns (first: Component)
    requires Opening(l, st) && Watched(l, since, v, st, log) && c in AllComponents(l) && !Settles(v, st, c)
    requires ClientUp(v, st) ==> !a.clientMissing
    ensures first in AllComponents(l) && !Settles(v, st, first)
    ensures a.clientMissing ==> Depth(first.kind) <= Depth(YtsaurusClient)
  {
    first := c;
    if a.clientMissing {
      ClientIsThere(l);
      first := Single(YtsaurusClient);
      if Settles(v, st, first) { SettledClientIsUp(l, since, v, st, log); }
    }
  }

  lemma SomebodyAbleActs(l: Layout, since: nat, v: View, st: Status, log: seq<Event>, a: Answers, c: Component) returns (actor: Component)
    requires Opening(l, st) && Watched(l, since, v, st, log) && c in AllComponents(l) && !Settles(v, st, c)
    requires ClientUp(v, st) ==> !a.clientMissing
    ensures actor in AllComponents(l) && StatusIs(v, st, actor, Pending) && Able(a, actor)
  {
    var first := WhereToLook(l, since, v, st, log, a, c);
    actor := SomebodyActs(l, since, v, st, log, first);
    AbleBelow(a, actor, first.kind);
  }

  lemma AbleBelow(a: Answers, c: Component, k: Kind)
    requires Depth(c.kind) <= Depth(k) && (a.clientMissing ==> Depth(k) <= Depth(YtsaurusClient))
    ensures Able(a, c)
  {}

  lemma SettledClientIsUp(l: Layout, since: nat, v: View, st: Status, log: seq<Event>)
    requires Opening(l, st) && Watched(l, since, v, st, log) && Settles(v, st, Single(YtsaurusClient))
    ensures ClientUp(v, st)
  {
    ClientUnfolds(v, st, Single(YtsaurusClient));
  }

  /** With the view taken from the cluster itself, a pass does some of the work unless all are settled. */
  lemma BuildsUnlessSettled(l: Layout, since: nat, start: Pass, spec: Spec, v: View, a: Answers, c: Component) returns (q: Pass)
    requires Helped(spec, l, v, start.cluster, a) && Midway(l, since, start, v, start.cluster.log) && since <= |start.cluster.log|
    requires ClientUp(v, start.mem) ==> !a.clientMissing
    requires forall j :: j in start.cluster.jobs ==> !start.cluster.jobs[j].terminating
    requires c in AllComponents(l) && !Settles(v, start.mem, c)
    ensures SyncAll(start, spec, start.cluster, a, AllComponents(l)) == Step(q, true)
    ensures SamePlaceAs(start, q) && start.cluster.log <= q.cluster.log
    ensures LessWork(l, since, start, q) && BundlesThere(q.mem, q.cluster)
  {
    var actor := SomebodyAbleActs(l, since, v, start.mem, start.cluster.log, a, c);
    assert SomeonePending(v, start.mem, a, AllComponents(l));
    forall c | c in AllComponents(l) ensures Exact(since, start, v, c) { assert ComesUp(start.mem, c, v.Of(c), start.cluster.log, since); }
    q := SyncAllDoes(l, since, start, start, spec, v, start.cluster, a, AllComponents(l));
  }
}
