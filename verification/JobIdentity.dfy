/** The success that an update counts belongs to one job object: objects created during an update have
    identities of their own, so no earlier or later object of that job can have answered for it. */
module JobIdentity {
  import opened ClusterStatus
  import opened Components
  import opened World
  import opened Reconcile
  import opened Actions
  import opened Freshness

  ghost predicate Identified(k: Cluster) {
    && (forall j :: j in k.jobs ==> k.jobs[j].uid < k.nextId)
    && (forall i :: 0 <= i < |k.log| && k.log[i].JobCreated? ==> k.log[i].uid < k.nextId)
    && (forall i, n :: 0 <= i < n < |k.log| && k.log[i].JobCreated? && k.log[n].JobCreated? ==> k.log[i].uid != k.log[n].uid)
  }

  /** No job was created; the jobs that are left are the same objects. */
  ghost predicate NoneCreated(k: Cluster, r: Cluster) {
    && k.nextId <= r.nextId && k.log <= r.log
    && (forall i :: |k.log| <= i < |r.log| ==> !r.log[i].JobCreated?)
    && (forall j :: j in r.jobs ==> j in k.jobs && r.jobs[j].uid == k.jobs[j].uid)
  }

  lemma NoneCreatedKeeps(k: Cluster, r: Cluster)
    requires Identified(k) && NoneCreated(k, r)
    ensures Identified(r)
  {
    assert forall i :: 0 <= i < |r.log| && r.log[i].JobCreated? ==> i < |k.log| && r.log[i] == k.log[i];
  }

  lemma CreateIdentified(p: Pass, j: JobId, o1: Outcome, o2: Outcome)
    requires Identified(p.cluster)
    ensures Identified(CreateJobStep(p, j, o1, o2).pass.cluster)
  {
    var r := CreateJobStep(p, j, o1, o2).pass.cluster;
    if r.log != p.cluster.log {
      var n := |p.cluster.log|;
      assert r.log[n].uid == p.cluster.nextId && r.log[..n] == p.cluster.log;
      assert forall i :: 0 <= i < n ==> r.log[i] == p.cluster.log[i];
    }
  }

  lemma RestartIdentified(p: Pass, v: View, j: JobId, o1: Outcome, o2: Outcome)
    ensures NoneCreated(p.cluster, PrepareRestartStep(p, v, j, o1, o2).pass.cluster)
  {
    var s := RemoveConfigStep(p, v, j, o1).pass;
    assert NoneCreated(p.cluster, s.cluster);
    assert NoneCreated(s.cluster, RemoveJobStep(s, v, j, o2).pass.cluster);
  }

  lemma SnapshotsIdentified(p: Pass, yt: YtAnswers)
    ensures NoneCreated(p.cluster, BuildSnapshots(p, yt).pass.cluster)
  {
    var s := SaveMonitoringPaths(p, yt).pass;
    var t := StartSnapshots(s, yt).pass;
    assert NoneCreated(p.cluster, s.cluster) && NoneCreated(p.cluster, t.cluster);
    SnapshotReadsFrame(t.cluster, t.mem.update.monitoringPaths, yt.snapshots);
  }

  lemma ClientIdentified(p: Pass, yt: YtAnswers)
    ensures NoneCreated(p.cluster, ClientStep(p, yt).pass.cluster)
  {
    match p.mem.update.state
    case TabletCellsRemovingStart => RemoveCellsFrame(p.cluster, Ids(p.cluster.cells), Rest(yt.outcomes));
    case TabletCellsRecovery => RecoverCellsFrame(p.cluster, p.mem.update.bundles, yt.outcomes);
    case SnapshotsBuilding => SnapshotsIdentified(p, yt);
    case _ =>
  }

  lemma InitIdentified(p: Pass, b: (nat, nat), outs: seq<Outcome>)
    ensures NoneCreated(p.cluster, InitBundlesStep(p, b, outs).pass.cluster)
  {
    var s := EnsureSysBundle(p.cluster, outs);
    RecoverCellsFrame(s.cluster, [BundleInfo("default", b.0), BundleInfo("sys", b.1)], Rest(s.outs));
  }

  lemma SmallIdentified(p: Pass, v: View, c: Component, action: Action, b: (nat, nat), a: Answers)
    requires action in {Nothing, RemovePods, WriteServer, CreateAuxiliary, FinishExit, InitQueueAgent} || action.CompleteJob? || action.SetCondition?
    ensures NoneCreated(p.cluster, Perform(p, v, c, action, b, a).pass.cluster)
  {}

  lemma {:induction false} PerformIdentified(p: Pass, v: View, c: Component, action: Action, b: (nat, nat), a: Answers)
    requires Identified(p.cluster)
    ensures Identified(Perform(p, v, c, action, b, a).pass.cluster)
    decreases action
  {
    var o, r := a.CallsOf(c), Perform(p, v, c, action, b, a).pass.cluster;
    match action
    case CreateJob(j) => CreateIdentified(p, j, o.first, o.second);
    case InitQueryTracker(next) =>
      if !a.clientMissing && o.third == Done {
        PerformIdentified(p.(mem := p.mem.(queryTrackerReady := true)), v, c, next, b, a);
      }
    case PrepareRestart(j) => RestartIdentified(p, v, j, o.first, o.second); NoneCreatedKeeps(p.cluster, r);
    case PrepareExit(_) => RestartIdentified(p, v, ExitReadOnly, o.first, o.second); NoneCreatedKeeps(p.cluster, r);
    case HandleUpdatingState => ClientIdentified(p, a.yt); NoneCreatedKeeps(p.cluster, r);
    case InitBundles => InitIdentified(p, b, a.yt.outcomes); NoneCreatedKeeps(p.cluster, r);
    case _ => SmallIdentified(p, v, c, action, b, a); NoneCreatedKeeps(p.cluster, r);
  }

  lemma {:induction false} SyncAllIdentified(p: Pass, spec: Spec, fetched: Cluster, a: Answers, cs: seq<Component>)
    requires Identified(p.cluster) && |spec.layout.httpProxies| > 0
    ensures Identified(SyncAll(p, spec, fetched, a, cs).pass.cluster)
    decreases |cs|
  {
    if cs != [] {
      var v := ViewOf(spec, fetched, a.synced, a);
      var d := Decide(v, p.mem, cs[0]);
      if d.Do? { PerformIdentified(p, v, cs[0], d.action, spec.bootstrap, a); }
      var s := SyncOne(p, spec, fetched, a, cs[0]);
      if s.ok { SyncAllIdentified(s.pass, spec, fetched, a, cs[1..]); }
    }
  }

  lemma DispatchIdentified(p: Pass, spec: Spec, s: Survey, w: Outcomes, synced: Pass)
    requires Identified(p.cluster) && Identified(synced.cluster)
    ensures Identified(DispatchOr(p, spec, s, w, synced).cluster)
  {}

  lemma EnvIdentified(k: Cluster, e: EnvEvent)
    requires Identified(k)
    ensures Identified(EnvStep(k, e))
  {
    NoneCreatedKeeps(k, EnvStep(k, e));
  }

  lemma NextIdentified(w: State, act: Label)
    requires Identified(w.cluster)
    ensures Identified(Next(w, act).cluster)
  {
    match act
    case Env(e) => EnvIdentified(w.cluster, e);
    case PassWith(spec, a) =>
      if spec.managed && |spec.layout.httpProxies| > 0 && !a.fetchFails {
        var s := SurveyOf(ViewOf(spec, w.cluster, a.surveyed, a), w.stored, AllComponents(spec.layout));
        if s.Some? {
          var p := Pass(Marked(spec.layout, w.stored), w.stored, w.cluster);
          SyncAllIdentified(p, spec, p.cluster, a, AllComponents(spec.layout));
          DispatchIdentified(p, spec, s.value, a.writes, SyncComponents(p, spec, a));
        }
      }
  }

  /** In every run, all job objects created since the update began have different identities. */
  lemma {:induction false} JobsAreNeverConfused(w: State, acts: seq<Label>)
    requires Identified(w.cluster)
    ensures Identified(Run(w, acts).cluster)
    decreases |acts|
  {
    if acts != [] {
      JobsAreNeverConfused(w, acts[..|acts| - 1]);
      NextIdentified(Run(w, acts[..|acts| - 1]), acts[|acts| - 1]);
    }
  }

  /** The only creation with this identity is that of job `j` in its renewing stage. */
  ghost predicate SoleObject(log: seq<Event>, j: JobId, uid: nat) {
    forall i :: 0 <= i < |log| && log[i].JobCreated? && log[i].uid == uid ==> log[i] == JobCreated(j, uid, Renewing(j))
  }

  /** Once an update counts the archive or the query tracker state as updated, exactly one job object
      stands for it: created in that stage of this update, and succeeded after that. */
  lemma UpdatedMeansOneJobRan(w: State, acts: seq<Label>, j: JobId) returns (uid: nat)
    requires Initial(w) && Identified(w.cluster) && Restartable(j)
    requires var r := Run(w, acts); r.stored.cluster == Updating && r.stored.update.Has(Renewed(j))
    ensures var log := Run(w, acts).cluster.log; Ran(log, j, uid) && SoleObject(log, j, uid)
  {
    UpdatedMeansFreshJobRan(w, acts, j);
    JobsAreNeverConfused(w, acts);
    var log := Run(w, acts).cluster.log;
    uid :| Ran(log, j, uid);
    SoleCreation(Run(w, acts).cluster, j, uid);
  }

  lemma SoleCreation(k: Cluster, j: JobId, uid: nat)
    requires Identified(k) && Ran(k.log, j, uid)
    ensures SoleObject(k.log, j, uid)
  {
    var i, n :| 0 <= i < n < |k.log| && k.log[i] == JobCreated(j, uid, Renewing(j)) && k.log[n] == JobSucceeded(j, uid);
    forall m | 0 <= m < |k.log| && k.log[m].JobCreated? && k.log[m].uid == uid ensures k.log[m] == JobCreated(j, uid, Renewing(j)) {
      assert m == i;
    }
  }
}
