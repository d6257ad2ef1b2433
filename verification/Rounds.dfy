/** Rounds in which the environment answers: first running jobs succeed, deleted jobs and removed
    cells go away, then one pass in which calls succeed and written objects come up. */
module Rounds {
  import opened ClusterStatus
  import opened Components
  import opened World
  import opened Reconcile
  import opened Safety
  import opened Readiness
  import opened Initialised
  import opened Durable
  import opened Viability
  import PossibilityCheck

  // ----- the environment catches up -----

  const AllJobs := [ClientUser, MasterDefault, ExitReadOnly, SchedulerUser, OpArchive, QTState, QAState,
                    YqlEnvironment, UiDefault, StrawberryUser, StrawberryCluster]

  function SettleJob(k: Cluster, j: JobId): Cluster {
    if j in k.jobs && k.jobs[j].terminating then EnvStep(k, JobGone(j)) else EnvStep(k, JobSucceeds(j))
  }

  function SettleJobs(k: Cluster, js: seq<JobId>): Cluster {
    if js == [] then k else SettleJob(SettleJobs(k, js[..|js| - 1]), js[|js| - 1])
  }

  /** Cells marked for removal go away, the last one first. */
  function SettleCells(k: Cluster, n: nat): Cluster
    requires n <= |k.cells|
    decreases n
  {
    if n == 0 then k
    else SettleCells(EnvStep(k, CellGone(n - 1)), n - 1)
  }

  function Settle(k: Cluster): Cluster {
    var r := SettleJobs(k, AllJobs);
    SettleCells(r, |r.cells|)
  }

  function EnvSteps(k: Cluster, es: seq<EnvEvent>): Cluster {
    if es == [] then k else EnvStep(EnvSteps(k, es[..|es| - 1]), es[|es| - 1])
  }

  lemma {:induction false} EnvStepsAppend(k: Cluster, es: seq<EnvEvent>, fs: seq<EnvEvent>)
    ensures EnvSteps(k, es + fs) == EnvSteps(EnvSteps(k, es), fs)
    decreases |fs|
  {
    if fs == [] {
      assert es + fs == es;
    } else {
      var front, all := fs[..|fs| - 1], es + fs;
      assert all[..|all| - 1] == es + front && all[|all| - 1] == fs[|fs| - 1];
      EnvStepsAppend(k, es, front);
    }
  }

  lemma {:induction false} SettleJobsSteps(k: Cluster, js: seq<JobId>) returns (es: seq<EnvEvent>)
    ensures EnvSteps(k, es) == SettleJobs(k, js)
  {
    if js == [] {
      es := [];
    } else {
      var j := js[|js| - 1];
      var before := SettleJobs(k, js[..|js| - 1]);
      es := SettleJobsSteps(k, js[..|js| - 1]);
      var e := if j in before.jobs && before.jobs[j].terminating then JobGone(j) else JobSucceeds(j);
      assert (es + [e])[..|es|] == es;
      es := es + [e];
    }
  }

  lemma {:induction false} SettleCellsSteps(k: Cluster, n: nat) returns (es: seq<EnvEvent>)
    requires n <= |k.cells|
    ensures EnvSteps(k, es) == SettleCells(k, n)
    decreases n
  {
    if n == 0 {
      es := [];
    } else {
      var rest := SettleCellsSteps(EnvStep(k, CellGone(n - 1)), n - 1);
      EnvStepsAppend(k, [CellGone(n - 1)], rest);
      assert EnvSteps(k, [CellGone(n - 1)][..0]) == k;
      es := [CellGone(n - 1)] + rest;
    }
  }

  /** Catching up is nothing but steps of the environment. */
  lemma SettleIsEnvironment(k: Cluster) returns (es: seq<EnvEvent>)
    ensures EnvSteps(k, es) == Settle(k)
  {
    var jobs := SettleJobsSteps(k, AllJobs);
    var r := SettleJobs(k, AllJobs);
    var cells := SettleCellsSteps(r, |r.cells|);
    EnvStepsAppend(k, jobs, cells);
    es := jobs + cells;
  }

  lemma {:induction false} EnvStepsKeep(st: Status, k: Cluster, es: seq<EnvEvent>)
    requires Base(st, k) && Core(st, k)
    ensures Base(st, EnvSteps(k, es)) && Core(st, EnvSteps(k, es))
    decreases |es|
  {
    if es != [] {
      EnvStepsKeep(st, k, es[..|es| - 1]);
      EnvBase(st, EnvSteps(k, es[..|es| - 1]), es[|es| - 1]);
      EnvCore(st, EnvSteps(k, es[..|es| - 1]), es[|es| - 1]);
    }
  }

  /** What catching up leaves of the jobs, and what it does not touch. */
  ghost predicate JobsSettled(k: Cluster, r: Cluster, js: seq<JobId>) {
    && r == k.(jobs := r.jobs, log := r.log)
    && k.log <= r.log && (forall i :: |k.log| <= i < |r.log| ==> r.log[i].JobSucceeded?)
    && (forall j :: j in js ==> if j in k.jobs && !k.jobs[j].terminating
          then j in r.jobs && r.jobs[j].succeeded && !r.jobs[j].terminating
          else j !in r.jobs)
    && (forall j :: j !in js ==> (j in r.jobs <==> j in k.jobs) && (j in k.jobs ==> r.jobs[j] == k.jobs[j]))
  }

  lemma {:induction false} SettleJobsFacts(k: Cluster, js: seq<JobId>)
    requires forall a, b :: 0 <= a < b < |js| ==> js[a] != js[b]
    ensures JobsSettled(k, SettleJobs(k, js), js)
    decreases |js|
  {
    if js != [] {
      var front, last := js[..|js| - 1], js[|js| - 1];
      SettleJobsFacts(k, front);
      assert last !in front;
      assert forall j :: j in js <==> j in front || j == last;
    }
  }

  lemma {:induction false} SettleCellsFacts(k: Cluster, n: nat)
    requires n <= |k.cells| && forall i :: n <= i < |k.cells| ==> !k.cells[i].dying
    ensures var r := SettleCells(k, n);
      && r == k.(cells := r.cells)
      && NoneDying(r.cells)
      && (AllDying(k.cells[..n]) && n == |k.cells| ==> r.cells == [])
    decreases n
  {
    if n > 0 {
      var k' := EnvStep(k, CellGone(n - 1));
      SettleCellsFacts(k', n - 1);
      if AllDying(k.cells) && n == |k.cells| { assert k'.cells == k.cells[..n - 1]; }
      assert k.cells[..|k.cells|] == k.cells;
    }
  }

  lemma AllJobsAreThere(j: JobId)
    ensures j in AllJobs
  {
    match j
    case ClientUser => assert AllJobs[0] == j;
    case MasterDefault => assert AllJobs[1] == j;
    case ExitReadOnly => assert AllJobs[2] == j;
    case SchedulerUser => assert AllJobs[3] == j;
    case OpArchive => assert AllJobs[4] == j;
    case QTState => assert AllJobs[5] == j;
    case QAState => assert AllJobs[6] == j;
    case YqlEnvironment => assert AllJobs[7] == j;
    case UiDefault => assert AllJobs[8] == j;
    case StrawberryUser => assert AllJobs[9] == j;
    case StrawberryCluster => assert AllJobs[10] == j;
  }

  /** Whether job `j` is there to stay, or is gone or going. */
  predicate Present(k: Cluster, j: JobId) { j in k.jobs && !k.jobs[j].terminating }

  lemma SettleFacts(k: Cluster, j: JobId)
    ensures var r := Settle(k);
      && r == k.(jobs := r.jobs, log := r.log, cells := r.cells)
      && k.log <= r.log && (forall i :: |k.log| <= i < |r.log| ==> r.log[i].JobSucceeded?)
      && NoneDying(r.cells) && (AllDying(k.cells) ==> r.cells == [])
      && (j in r.jobs <==> Present(k, j)) && (j in r.jobs ==> r.jobs[j].succeeded && !r.jobs[j].terminating)
  {
    var r := SettleJobs(k, AllJobs);
    SettleJobsFacts(k, AllJobs);
    AllJobsAreThere(j);
    SettleCellsFacts(r, |r.cells|);
    assert r.cells[..|r.cells|] == r.cells;
  }

  // ----- favourable answers -----

  const AllDone := Outcomes(Done, Done, Done)

  /** Nothing of the server is to be written; only an update reloads configs. */
  predicate UpToDate(st: Status, o: Observation) { !o.needBuild && !(o.configNeedsReload && st.cluster == Updating) }

  /** The operator has written this component's server since the log had this length. */
  ghost predicate Written(c: Component, log: seq<Event>, since: nat) {
    exists i :: since <= i < |log| && log[i].ServerWritten? && log[i].component == c
  }

  /** The operator has made this component's secret or service since then. */
  ghost predicate Made(c: Component, log: seq<Event>, since: nat) {
    exists i :: since <= i < |log| && log[i].AuxiliaryCreated? && log[i].component == c
  }

  predicate Lacks(o: Observation) { o.secretMissing || o.serviceMissing }

  /** What the operator did since then lasts: what it wrote is up to date, what it made is there, and
      what it scaled down is gone. Up-to-date servers have their pods. Whatever was missing or stale
      before may still be so. */
  ghost predicate ComesUp(st: Status, c: Component, o: Observation, log: seq<Event>, since: nat) {
    && (Made(c, log, since) ==> !Lacks(o))
    && (Written(c, log, since) ==> UpToDate(st, o))
    && (UpToDate(st, o) ==> o.podsReady)
    && (st.update.Has(PodsRemovingStarted(c.name)) ==> o.podsGone)
  }

  function PathsToRead(u: UpdateStatus, yt: YtAnswers): seq<string>
    requires yt.masters.Some?
  {
    if u.Has(SnapshotsMonitoringInfoSaved) then u.monitoringPaths else MonitoringPaths(yt.masters.value)
  }

  ghost predicate YtAnswersAll(u: UpdateStatus, yt: YtAnswers) {
    && PossibilityCheck.Judge(yt.possibility) != PossibilityCheck.QueryFailed
    && (forall i :: 0 <= i < |yt.outcomes| ==> yt.outcomes[i] == Done)
    && yt.masters.Some?
    && (var n := |PathsToRead(u, yt)|;
        && AllReadOnly(n, yt.readOnly).Some?
        && n <= |yt.snapshots| && forall i :: 0 <= i < n ==> yt.snapshots[i] == Some(true))
  }

  /** The YT client gets past its own dependencies, so there is one to use. */
  predicate ClientUp(v: View, st: Status)
  {
    Decide(v, st, Single(YtsaurusClient)) in {Settled, Do(SyncUpdating, HandleUpdatingState)}
  }

  /** Favourable answers, in rounds that began when the log had length `since`. */
  ghost predicate Favourable(l: Layout, since: nat, w: State, a: Answers) {
    && !a.fetchFails && !a.clientFails
    && (|l.httpProxies| > 0 && ClientUp(View(l, a.surveyed, w.cluster.jobs, w.cluster.jobConfigs, false), w.stored) ==> !a.clientMissing)
    && a.checked == a.surveyed && a.synced == a.surveyed
    && (forall n :: n in a.calls ==> a.calls[n] == AllDone)
    && a.writes == AllDone
    && YtAnswersAll(w.stored.update, a.yt)
    && forall c :: c in AllComponents(l) ==>
         ComesUp(w.stored, c, if c.name in a.surveyed then a.surveyed[c.name] else Healthy, w.cluster.log, since)
  }

  /** Answers that are favourable in every state: healthy components and masters, no failing call. */
  function GenerousAnswers(w: State): Answers {
    var leader := Some(PossibilityCheck.Hydra(true, PossibilityCheck.Leading));
    var yes := seq(|w.stored.update.monitoringPaths|, i => Some(true));
    var yt := YtAnswers(PossibilityCheck.Queries(Some([]), Some(0), Some(0), Some([leader])), [], Some([]), yes, yes);
    Answers(false, map[], map[], map[], false, false, map[], yt, AllDone)
  }

  lemma FavourableAnswersExist(l: Layout, since: nat, w: State) returns (a: Answers)
    ensures a == GenerousAnswers(w) && Favourable(l, since, w, a)
  {
    a := GenerousAnswers(w);
    PossibilityCheck.CheckIsExact(a.yt.possibility);
    AllReadOnlyAnswers(|w.stored.update.monitoringPaths|, a.yt.readOnly);
  }

  /** What a component looks like where nothing was there when the rounds began. */
  ghost function BareObservation(l: Layout, since: nat, log: seq<Event>, name: string): Observation {
    var stale := forall c :: c in AllComponents(l) && c.name == name ==> !Written(c, log, since);
    var bare := forall c :: c in AllComponents(l) && c.name == name ==> !Made(c, log, since);
    Observation(false, false, stale, !stale, true, bare, bare)
  }

  ghost function BareSurvey(l: Layout, since: nat, log: seq<Event>): map<string, Observation> {
    map n | n in set c | c in AllComponents(l) :: c.name :: BareObservation(l, since, log, n)
  }

  /** Answers for a cluster that had no secret, no service and no server when the rounds began. */
  ghost function BareAnswers(l: Layout, since: nat, w: State): Answers {
    var seen := BareSurvey(l, since, w.cluster.log);
    var up := |l.httpProxies| > 0 && ClientUp(View(l, seen, w.cluster.jobs, w.cluster.jobConfigs, false), w.stored);
    GenerousAnswers(w).(surveyed := seen, checked := seen, synced := seen, clientMissing := !up)
  }

  predicate HasNothing(seen: map<string, Observation>, c: Component) {
    c.name in seen && seen[c.name].secretMissing && seen[c.name].serviceMissing && seen[c.name].needBuild && !seen[c.name].podsReady
  }

  lemma BareIsFavourable(l: Layout, since: nat, w: State)
    ensures Favourable(l, since, w, BareAnswers(l, since, w))
    ensures |w.cluster.log| <= since ==> forall c :: c in AllComponents(l) ==> HasNothing(BareAnswers(l, since, w).surveyed, c)
  {
    var a := FavourableAnswersExist(l, since, w);
    var seen := BareSurvey(l, since, w.cluster.log);
    forall c | c in AllComponents(l)
      ensures c.name in seen && ComesUp(w.stored, c, seen[c.name], w.cluster.log, since)
      ensures |w.cluster.log| <= since ==> HasNothing(seen, c)
    {
      assert seen[c.name] == BareObservation(l, since, w.cluster.log, c.name);
    }
  }

  lemma {:induction false} AllReadOnlyAnswers(n: nat, answers: seq<Option<bool>>)
    requires n <= |answers| && forall i :: 0 <= i < n ==> answers[i] == Some(true)
    ensures AllReadOnly(n, answers) == Some(true)
    decreases n
  {
    if n > 0 { AllReadOnlyAnswers(n - 1, answers[1..]); }
  }

  // ----- a round -----

  function Round(w: State, spec: Spec, a: Answers): State {
    RunPass(w.(cluster := Settle(w.cluster)), spec, a)
  }

  lemma {:induction false} EnvStepsAreRuns(w: State, es: seq<EnvEvent>) returns (acts: seq<Label>)
    ensures Run(w, acts) == w.(cluster := EnvSteps(w.cluster, es))
    ensures |acts| == |es| && forall i :: 0 <= i < |acts| ==> acts[i] == Env(es[i])
    decreases |es|
  {
    acts := [];
    if es != [] {
      var front := EnvStepsAreRuns(w, es[..|es| - 1]);
      acts := front + [Env(es[|es| - 1])];
      assert acts[..|acts| - 1] == front;
    }
  }

  /** A round is a piece of a run: steps of the environment and one pass. */
  lemma RoundIsARun(w: State, spec: Spec, a: Answers) returns (acts: seq<Label>)
    ensures Run(w, acts + [PassWith(spec, a)]) == Round(w, spec, a)
    ensures forall i :: 0 <= i < |acts| ==> acts[i].Env?
  {
    var es := SettleIsEnvironment(w.cluster);
    acts := EnvStepsAreRuns(w, es);
    assert (acts + [PassWith(spec, a)])[..|acts|] == acts;
  }

  /** A reachable status, and an update that can end over this layout. */
  ghost predicate Good(l: Layout, w: State) {
    && |l.httpProxies| > 0 && Base(w.stored, w.cluster) && Core(w.stored, w.cluster)
    && (w.stored.cluster == Updating ==> Viable(l, w.stored))
  }

  lemma SettleGood(l: Layout, w: State)
    requires Good(l, w)
    ensures Good(l, w.(cluster := Settle(w.cluster)))
  {
    var es := SettleIsEnvironment(w.cluster);
    EnvStepsKeep(w.stored, w.cluster, es);
  }

  lemma RoundGood(l: Layout, w: State, spec: Spec, a: Answers)
    requires Good(l, w) && w.stored.cluster == Updating && spec.layout == l
    ensures Good(l, Round(w, spec, a))
  {
    var settled, act := w.(cluster := Settle(w.cluster)), PassWith(spec, a);
    SettleGood(l, w);
    NextBase(settled, act);
    NextCore(settled, act);
    NextViable(l, settled, act);
  }

  // ----- every component reports -----

  lemma {:induction false} NeverFails(v: View, st: Status, c: Component)
    requires |v.layout.httpProxies| > 0 && !v.clientFails
    requires c.kind == QueryTracker || c.kind == QueueAgent ==> |v.layout.tabletNodes| > 0
    ensures Reports(v, st, c)
    decreases Depth(c.kind), 2
  {
    GatesNotBroken(v, st, c);
    NeverFailsBehind(v, st, c, GatesOf(v, st, c));
    assert DecideClient(v, st, c).Do? && DecideOrdinary(v, st, c).Do?;
  }

  lemma {:induction false} GatesNotBroken(v: View, st: Status, c: Component)
    requires |v.layout.httpProxies| > 0 && !v.clientFails
    ensures NoneBroken(GatesOf(v, st, c))
    decreases Depth(c.kind), 1
  {
    NotBroken(v, st, c.kind, FirstProxy(v.layout));
    NotBroken(v, st, c.kind, [Single(Master)]);
    NotBroken(v, st, c.kind, Group(ExecNode, v.layout.execNodes));
    NotBroken(v, st, c.kind, Group(DataNode, v.layout.dataNodes));
    NotBroken(v, st, c.kind, Group(TabletNode, v.layout.tabletNodes));
    NotBroken(v, st, c.kind, [Single(Scheduler)]);
    if Depth(c.kind) > Depth(YtsaurusClient) { NeverFails(v, st, Single(YtsaurusClient)); }
    assert AskedClient(v, st, c.kind) != Broken;
  }

  lemma NotBroken(v: View, st: Status, k: Kind, cs: seq<Component>)
    requires |v.layout.httpProxies| > 0 && !v.clientFails
    requires forall c :: c in cs ==> c.kind != QueryTracker && c.kind != QueueAgent
    ensures Asked(v, st, k, cs) != Broken
    decreases Depth(k), 0
  {
    if forall c :: c in cs ==> Depth(c.kind) < Depth(k) {
      forall c | c in cs ensures Reports(v, st, c) { NeverFails(v, st, c); }
      GateMeaning(v, st, cs, Depth(k));
    }
  }

  predicate NoneBroken(g: GateSet) {
    Broken !in {g.firstProxy, g.master, g.execNodes, g.dataNodes, g.tabletNodes, g.scheduler, g.client}
  }

  lemma NeverFailsBehind(v: View, st: Status, c: Component, g: GateSet)
    requires !v.clientFails && NoneBroken(g)
    requires c.kind == QueryTracker || c.kind == QueueAgent ==> |v.layout.tabletNodes| > 0
    ensures ClientBehind(v, st, c, g).Do? && OrdinaryBehind(v, st, c, g).Do?
  {}
}
