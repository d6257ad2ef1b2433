/** Pod removal is tracked by component name. With distinct names, a component counts as removed
    only after it was itself scaled to zero and its pods were then seen gone. */
module Removal {
  import opened ClusterStatus
  import opened Components
  import opened World
  import opened Reconcile
  import opened Actions
  import opened Safety
  import opened Gates
  import opened Names
  import opened Initialised
  import opened Durable
  import opened Freshness

  /** The two phases of the removal of this very component, in order. */
  ghost predicate Completed(c: Component, log: seq<Event>) {
    exists i, j :: 0 <= i < j < |log| && log[i] == ScaledToZero(c, PodsRemoval) && log[j] == PodsSeenGone(c)
  }

  ghost predicate Truthful(u: UpdateStatus, log: seq<Event>, c: Component) {
    && (u.Has(PodsRemovingStarted(c.name)) ==> ScaledToZero(c, PodsRemoval) in log)
    && (u.Has(PodsRemoved(c.name)) ==> Completed(c, log))
  }

  ghost predicate PodsHonest(l: Layout, st: Status, log: seq<Event>) {
    st.cluster == Updating ==> forall c :: c in AllComponents(l) ==> Truthful(st.update, log, c)
  }

  ghost predicate PodsPass(l: Layout, p: Pass) {
    && p.mem.cluster == Updating && p.stored.cluster == Updating
    && PodsHonest(l, p.mem, p.cluster.log) && PodsHonest(l, p.stored, p.cluster.log)
  }

  lemma TruthGrows(u: UpdateStatus, log: seq<Event>, more: seq<Event>, c: Component)
    requires Truthful(u, log, c) && log <= more
    ensures Truthful(u, more, c)
  {
    EventsKept(log, more);
    if u.Has(PodsRemoved(c.name)) {
      var i, j :| 0 <= i < j < |log| && log[i] == ScaledToZero(c, PodsRemoval) && log[j] == PodsSeenGone(c);
      assert more[i] == log[i] && more[j] == log[j];
    }
  }

  /** The conditions about pods are as before. */
  ghost predicate PodsSame(p: Pass, q: Pass) {
    && q.stored == p.stored && q.mem.cluster == p.mem.cluster && p.cluster.log <= q.cluster.log
    && (forall n :: q.mem.update.Has(PodsRemovingStarted(n)) == p.mem.update.Has(PodsRemovingStarted(n)))
    && (forall n :: q.mem.update.Has(PodsRemoved(n)) == p.mem.update.Has(PodsRemoved(n)))
  }

  lemma SameKeeps(l: Layout, p: Pass, q: Pass)
    requires PodsPass(l, p) && PodsSame(p, q)
    ensures PodsPass(l, q)
  {
    forall c | c in AllComponents(l)
      ensures Truthful(q.mem.update, q.cluster.log, c) && Truthful(q.stored.update, q.cluster.log, c)
    {
      TruthGrows(p.mem.update, p.cluster.log, q.cluster.log, c);
      TruthGrows(p.stored.update, p.cluster.log, q.cluster.log, c);
    }
  }

  lemma SameName(l: Layout, a: Component, b: Component)
    requires GroupsUnrepeated(l) && a in AllComponents(l) && b in AllComponents(l) && a.name == b.name
    ensures a == b
  {
    NamesAreDistinct(l);
    var i :| 0 <= i < |AllComponents(l)| && AllComponents(l)[i] == a;
    var j :| 0 <= j < |AllComponents(l)| && AllComponents(l)[j] == b;
    assert i == j;
  }

  lemma RemovalTruthful(p: Pass, c: Component, gone: bool, o: Outcome, other: Component)
    requires Truthful(p.mem.update, p.cluster.log, c) && Truthful(p.mem.update, p.cluster.log, other)
    requires (other.name == c.name ==> other == c) && p.mem.update.state == PodsRemoval
    ensures var q := RemovePodsStep(p, c, gone, o).pass; Truthful(q.mem.update, q.cluster.log, other) && p.cluster.log <= q.cluster.log
  {
    var q := RemovePodsStep(p, c, gone, o).pass;
    TruthGrows(p.mem.update, p.cluster.log, q.cluster.log, other);
    if q.cluster.log != p.cluster.log {
      var n := |p.cluster.log|;
      if p.mem.update.Has(PodsRemovingStarted(c.name)) {
        var i :| 0 <= i < n && p.cluster.log[i] == ScaledToZero(c, PodsRemoval);
        assert q.cluster.log[i] == ScaledToZero(c, PodsRemoval) && q.cluster.log[n] == PodsSeenGone(c);
      } else {
        assert q.cluster.log[n] == ScaledToZero(c, PodsRemoval);
      }
    }
  }

  lemma RemovalKeeps(l: Layout, p: Pass, c: Component, gone: bool, o: Outcome)
    requires GroupsUnrepeated(l) && PodsPass(l, p) && c in AllComponents(l) && p.mem.update.state == PodsRemoval
    ensures PodsPass(l, RemovePodsStep(p, c, gone, o).pass)
  {
    var q := RemovePodsStep(p, c, gone, o).pass;
    PodsQuiet(p, c, gone, o);
    forall other | other in AllComponents(l)
      ensures Truthful(q.mem.update, q.cluster.log, other) && Truthful(q.stored.update, q.cluster.log, other)
    {
      if other.name == c.name { SameName(l, other, c); }
      RemovalTruthful(p, c, gone, o, other);
      TruthGrows(p.stored.update, p.cluster.log, q.cluster.log, other);
    }
  }

  lemma NoteSame(p: Pass, cond: Condition)
    requires !cond.PodsRemovingStarted? && !cond.PodsRemoved?
    ensures PodsSame(p, p.Note(cond))
  {}

  lemma ExitSame(p: Pass, v: View, restart: bool, o1: Outcome, o2: Outcome)
    ensures var s := if restart then PrepareRestartStep(p, v, ExitReadOnly, o1, o2) else Step(p, true);
      PodsSame(p, Bind(s, s.pass.Note(MasterExitReadOnlyPrepared)).pass)
  {
    var s := if restart then PrepareRestartStep(p, v, ExitReadOnly, o1, o2) else Step(p, true);
    RestartQuiet(p, v, ExitReadOnly, o1, o2);
    NoteSame(s.pass, MasterExitReadOnlyPrepared);
  }

  lemma SmallSame(p: Pass, v: View, c: Component, action: Action, b: (nat, nat), a: Answers)
    requires action in {Nothing, WriteServer, CreateAuxiliary, FinishExit, InitQueueAgent} || action.CompleteJob?
    ensures PodsSame(p, Perform(p, v, c, action, b, a).pass)
  {}

  lemma OthersSame(p: Pass, v: View, c: Component, action: Action, b: (nat, nat), a: Answers)
    requires Allowed(v, p.mem, c, action) && p.mem.cluster == Updating && action != RemovePods && !action.InitQueryTracker?
    ensures PodsSame(p, Perform(p, v, c, action, b, a).pass)
  {
    var o := a.CallsOf(c);
    match action
    case CreateJob(j) => CreateJobQuiet(p, j, o.first, o.second);
    case PrepareRestart(j) => RestartQuiet(p, v, j, o.first, o.second);
    case PrepareExit(restart) => ExitSame(p, v, restart, o.first, o.second);
    case SetCondition(cond) => NoteSame(p, cond);
    case HandleUpdatingState => ClientFrame(p, a.yt);
    case _ => SmallSame(p, v, c, action, b, a);
  }

  lemma QueryTrackerKeepsPods(p: Pass, v: View, actor: Component, next: Action, b: (nat, nat), a: Answers)
    requires Allowed(v, p.mem, actor, InitQueryTracker(next)) && p.mem.cluster == Updating
    ensures PodsSame(p, Perform(p, v, actor, InitQueryTracker(next), b, a).pass)
  {
    if !a.clientMissing && a.CallsOf(actor).third == Done {
      OthersSame(p.(mem := p.mem.(queryTrackerReady := true)), v, actor, next, b, a);
    }
  }

  lemma PerformPods(l: Layout, p: Pass, v: View, c: Component, action: Action, b: (nat, nat), a: Answers)
    requires GroupsUnrepeated(l) && PodsPass(l, p) && Allowed(v, p.mem, c, action) && c in AllComponents(l)
    ensures PodsPass(l, Perform(p, v, c, action, b, a).pass)
  {
    if action == RemovePods {
      RemovalKeeps(l, p, c, v.Of(c).podsGone, a.CallsOf(c).first);
    } else {
      if action.InitQueryTracker? { QueryTrackerKeepsPods(p, v, c, action.next, b, a); } else { OthersSame(p, v, c, action, b, a); }
      SameKeeps(l, p, Perform(p, v, c, action, b, a).pass);
    }
  }

  // ----- passes and runs -----

  lemma SyncOnePods(l: Layout, p: Pass, spec: Spec, fetched: Cluster, a: Answers, c: Component)
    requires GroupsUnrepeated(l) && PodsPass(l, p) && spec.layout == l && |l.httpProxies| > 0 && c in AllComponents(l)
    ensures PodsPass(l, SyncOne(p, spec, fetched, a, c).pass)
  {
    var v := ViewOf(spec, fetched, a.synced, a);
    var d := Decide(v, p.mem, c);
    if d.Do? {
      DecisionsAreAllowed(v, p.mem, c);
      PerformPods(l, p, v, c, d.action, spec.bootstrap, a);
    }
  }

  lemma {:induction false} SyncAllPods(l: Layout, p: Pass, spec: Spec, fetched: Cluster, a: Answers, cs: seq<Component>)
    requires GroupsUnrepeated(l) && PodsPass(l, p) && spec.layout == l && |l.httpProxies| > 0
    requires forall c :: c in cs ==> c in AllComponents(l)
    ensures PodsPass(l, SyncAll(p, spec, fetched, a, cs).pass)
    decreases |cs|
  {
    if cs != [] {
      SyncOnePods(l, p, spec, fetched, a, cs[0]);
      var s := SyncOne(p, spec, fetched, a, cs[0]);
      if s.ok { SyncAllPods(l, s.pass, spec, fetched, a, cs[1..]); }
    }
  }

  lemma StorePods(l: Layout, s: Step, o: Outcome)
    requires PodsPass(l, s.pass)
    ensures var q := if s.ok then Store(s.pass, o).pass else s.pass; PodsHonest(l, q.stored, q.cluster.log)
  {}

  lemma UpdatingPods(l: Layout, p: Pass, spec: Spec, s: Survey, w: Outcomes, synced: Pass)
    requires PodsPass(l, p) && PodsHonest(l, synced.stored, synced.cluster.log)
    ensures var q := DispatchOr(p, spec, s, w, synced); PodsHonest(l, q.stored, q.cluster.log)
  {
    match Advance(spec, p.mem, s)
    case Stay =>
    case ToUpdate(u) =>
      forall c | c in AllComponents(l) ensures Truthful(p.mem.update.(state := u), p.cluster.log, c) {
        assert Truthful(p.mem.update, p.cluster.log, c);
      }
    case ToCluster(_) =>
  }

  lemma DispatchPods(l: Layout, p: Pass, spec: Spec, s: Survey, a: Answers)
    requires GroupsUnrepeated(l) && PodsPass(l, p) && spec.layout == l && |l.httpProxies| > 0
    ensures var q := Dispatch(p, spec, s, a); PodsHonest(l, q.stored, q.cluster.log)
  {
    SyncAllPods(l, p, spec, p.cluster, a, AllComponents(l));
    StorePods(l, SyncAll(p, spec, p.cluster, a, AllComponents(l)), a.writes.first);
    UpdatingPods(l, p, spec, s, a.writes, SyncComponents(p, spec, a));
  }

  lemma MarkedPods(l: Layout, w: State)
    requires PodsHonest(l, w.stored, w.cluster.log) && w.stored.cluster == Updating
    ensures PodsPass(l, Pass(Marked(l, w.stored), w.stored, w.cluster))
  {
    var p := Pass(w.stored, w.stored, w.cluster);
    NoteSame(p, NotNecessaryToUpdateOpArchive);
    SameKeeps(l, p, p.Note(NotNecessaryToUpdateOpArchive));
  }

  lemma UnstartedPods(l: Layout, st: Status, log: seq<Event>)
    requires Unstarted(st)
    ensures PodsHonest(l, st, log)
  {}

  lemma EnvPods(l: Layout, st: Status, k: Cluster, e: EnvEvent)
    requires PodsHonest(l, st, k.log)
    ensures PodsHonest(l, st, EnvStep(k, e).log)
  {
    if st.cluster == Updating {
      forall c | c in AllComponents(l) ensures Truthful(st.update, EnvStep(k, e).log, c) {
        TruthGrows(st.update, k.log, EnvStep(k, e).log, c);
      }
    }
  }

  lemma NextPods(l: Layout, w: State, act: Label)
    requires GroupsUnrepeated(l) && Base(w.stored, w.cluster) && PodsHonest(l, w.stored, w.cluster.log) && FixedLayout(l, act)
    ensures PodsHonest(l, Next(w, act).stored, Next(w, act).cluster.log)
  {
    match act
    case Env(e) => EnvPods(l, w.stored, w.cluster, e);
    case PassWith(spec, a) =>
      if spec.managed && |l.httpProxies| > 0 && !a.fetchFails {
        var s := SurveyOf(ViewOf(spec, w.cluster, a.surveyed, a), w.stored, AllComponents(l));
        if s.Some? {
          var p := Pass(Marked(l, w.stored), w.stored, w.cluster);
          if w.stored.cluster == Updating {
            MarkedPods(l, w);
            DispatchPods(l, p, spec, s.value, a);
          } else {
            OutsideStarts(p, spec, s.value, a);
            UnstartedPods(l, Dispatch(p, spec, s.value, a).stored, Dispatch(p, spec, s.value, a).cluster.log);
          }
        }
      }
  }

  /** An update that has just been stored. */
  predicate Begun(st: Status) { st.cluster == Updating && st.update.state == StateNone && st.update.conditions == map[] }

  lemma {:induction false} RunPods(l: Layout, w: State, acts: seq<Label>)
    requires Base(w.stored, w.cluster) && PodsHonest(l, w.stored, w.cluster.log) && GroupsUnrepeated(l)
    requires forall i :: 0 <= i < |acts| ==> FixedLayout(l, acts[i])
    ensures var r := Run(w, acts); Base(r.stored, r.cluster) && PodsHonest(l, r.stored, r.cluster.log)
    decreases |acts|
  {
    if acts != [] {
      RunPods(l, w, acts[..|acts| - 1]);
      NextBase(Run(w, acts[..|acts| - 1]), acts[|acts| - 1]);
      NextPods(l, Run(w, acts[..|acts| - 1]), acts[|acts| - 1]);
    }
  }

  // ----- when the removal of a component is on record -----

  ghost predicate SeenSince(k: Cluster, r: Cluster, c: Component) {
    exists i :: |k.log| <= i < |r.log| && r.log[i] == PodsSeenGone(c)
  }

  /** Between `p` and `q`, a component became noted as removed exactly if its pods were seen gone. */
  ghost predicate NotedIff(p: Pass, q: Pass, c: Component) {
    p.cluster.log <= q.cluster.log
    && (q.mem.update.Has(PodsRemoved(c.name)) <==> p.mem.update.Has(PodsRemoved(c.name)) || SeenSince(p.cluster, q.cluster, c))
  }

  lemma NotedTrans(p: Pass, q: Pass, r: Pass, c: Component)
    requires NotedIff(p, q, c) && NotedIff(q, r, c)
    ensures NotedIff(p, r, c)
  {
    if SeenSince(p.cluster, q.cluster, c) {
      var i :| |p.cluster.log| <= i < |q.cluster.log| && q.cluster.log[i] == PodsSeenGone(c);
      assert r.cluster.log[i] == q.cluster.log[i];
    }
    if SeenSince(q.cluster, r.cluster, c) {
      var i :| |q.cluster.log| <= i < |r.cluster.log| && r.cluster.log[i] == PodsSeenGone(c);
    }
    if SeenSince(p.cluster, r.cluster, c) {
      var i :| |p.cluster.log| <= i < |r.cluster.log| && r.cluster.log[i] == PodsSeenGone(c);
      if i < |q.cluster.log| { assert q.cluster.log[i] == r.cluster.log[i]; }
    }
  }

  lemma RemovalNoted(p: Pass, actor: Component, gone: bool, o: Outcome, c: Component)
    requires c.name == actor.name ==> c == actor
    ensures NotedIff(p, RemovePodsStep(p, actor, gone, o).pass, c)
  {
    var q := RemovePodsStep(p, actor, gone, o).pass;
    if q.cluster.log != p.cluster.log { assert q.cluster.log[|p.cluster.log|] in {ScaledToZero(actor, p.mem.update.state), PodsSeenGone(actor)}; }
  }

  lemma OthersNoted(p: Pass, v: View, actor: Component, action: Action, b: (nat, nat), a: Answers, c: Component)
    requires Allowed(v, p.mem, actor, action) && p.mem.cluster == Updating && action != RemovePods
    ensures NotedIff(p, Perform(p, v, actor, action, b, a).pass, c)
  {
    PerformLogs(p, v, actor, action, b, a);
    if action.InitQueryTracker? {
      QueryTrackerKeepsPods(p, v, actor, action.next, b, a);
    } else {
      OthersSame(p, v, actor, action, b, a);
    }
  }

  lemma PerformNoted(l: Layout, p: Pass, v: View, actor: Component, action: Action, b: (nat, nat), a: Answers, c: Component)
    requires GroupsUnrepeated(l) && actor in AllComponents(l) && c in AllComponents(l)
    requires Allowed(v, p.mem, actor, action) && p.mem.cluster == Updating
    ensures NotedIff(p, Perform(p, v, actor, action, b, a).pass, c)
  {
    if action == RemovePods {
      if c.name == actor.name { SameName(l, c, actor); }
      RemovalNoted(p, actor, v.Of(actor).podsGone, a.CallsOf(actor).first, c);
    } else {
      OthersNoted(p, v, actor, action, b, a, c);
    }
  }

  lemma SyncOneNoted(l: Layout, p: Pass, spec: Spec, fetched: Cluster, a: Answers, actor: Component, c: Component)
    requires GroupsUnrepeated(l) && actor in AllComponents(l) && c in AllComponents(l)
    requires spec.layout == l && |l.httpProxies| > 0 && p.mem.cluster == Updating
    ensures var q := SyncOne(p, spec, fetched, a, actor).pass; NotedIff(p, q, c) && q.mem.cluster == Updating && q.stored == p.stored
  {
    var v := ViewOf(spec, fetched, a.synced, a);
    var d := Decide(v, p.mem, actor);
    SyncOneKept(p, spec, fetched, a, actor);
    if d.Do? {
      DecisionsAreAllowed(v, p.mem, actor);
      PerformNoted(l, p, v, actor, d.action, spec.bootstrap, a, c);
    }
  }

  lemma {:induction false} SyncAllNoted(l: Layout, p: Pass, spec: Spec, fetched: Cluster, a: Answers, cs: seq<Component>, c: Component)
    requires GroupsUnrepeated(l) && c in AllComponents(l) && forall x :: x in cs ==> x in AllComponents(l)
    requires spec.layout == l && |l.httpProxies| > 0 && p.mem.cluster == Updating
    ensures var q := SyncAll(p, spec, fetched, a, cs).pass; NotedIff(p, q, c) && q.mem.cluster == Updating && q.stored == p.stored
    decreases |cs|
  {
    if cs != [] {
      SyncOneNoted(l, p, spec, fetched, a, cs[0], c);
      var s := SyncOne(p, spec, fetched, a, cs[0]);
      if s.ok {
        SyncAllNoted(l, s.pass, spec, fetched, a, cs[1..], c);
        NotedTrans(p, s.pass, SyncAll(s.pass, spec, fetched, a, cs[1..]).pass, c);
      }
    }
  }

  /** The pass synced all its components and its status write reached the store. */
  predicate StatusReached(w: State, act: Label) {
    && act.PassWith? && |act.spec.layout.httpProxies| > 0 && act.answers.writes.first != Lost
    && SyncAll(Pass(Marked(act.spec.layout, w.stored), w.stored, w.cluster), act.spec, w.cluster, act.answers,
               AllComponents(act.spec.layout)).ok
  }

  /** The step saw the pods of this component gone, and what it noted reached the store. */
  ghost predicate Records(w: State, act: Label, c: Component) {
    SeenSince(w.cluster, Next(w, act).cluster, c) && StatusReached(w, act)
  }

  lemma SyncRecords(l: Layout, p: Pass, spec: Spec, a: Answers, c: Component)
    requires GroupsUnrepeated(l) && c in AllComponents(l) && spec.layout == l && |l.httpProxies| > 0 && Syncing(p)
    requires p.mem.update.Has(PodsRemoved(c.name)) == p.stored.update.Has(PodsRemoved(c.name))
    ensures var q := SyncComponents(p, spec, a);
      var reached := SyncAll(p, spec, p.cluster, a, AllComponents(l)).ok && a.writes.first != Lost;
      q.stored.update.Has(PodsRemoved(c.name)) <==>
        p.stored.update.Has(PodsRemoved(c.name)) || (SeenSince(p.cluster, q.cluster, c) && reached)
  {
    SyncAllNoted(l, p, spec, p.cluster, a, AllComponents(l), c);
    SyncAllBase(p, spec, p.cluster, a, AllComponents(l));
  }

  lemma DispatchRecords(l: Layout, p: Pass, spec: Spec, s: Survey, a: Answers, c: Component)
    requires GroupsUnrepeated(l) && c in AllComponents(l) && spec.layout == l && |l.httpProxies| > 0 && Syncing(p)
    requires p.mem.update.Has(PodsRemoved(c.name)) == p.stored.update.Has(PodsRemoved(c.name))
    ensures var q := Dispatch(p, spec, s, a);
      var reached := SyncAll(p, spec, p.cluster, a, AllComponents(l)).ok && a.writes.first != Lost;
      q.stored.cluster == Updating ==> (q.stored.update.Has(PodsRemoved(c.name)) <==>
        p.stored.update.Has(PodsRemoved(c.name)) || (SeenSince(p.cluster, q.cluster, c) && reached))
  {
    SyncRecords(l, p, spec, a, c);
    MoveRecords(p, spec, s, a.writes, SyncComponents(p, spec, a), c);
  }

  lemma MoveRecords(p: Pass, spec: Spec, s: Survey, w: Outcomes, synced: Pass, c: Component)
    requires Syncing(p) && p.mem.update.Has(PodsRemoved(c.name)) == p.stored.update.Has(PodsRemoved(c.name))
    ensures var q := DispatchOr(p, spec, s, w, synced);
      || q == synced
      || (q.cluster == p.cluster && q.stored.update.Has(PodsRemoved(c.name)) == p.stored.update.Has(PodsRemoved(c.name)))
  {}

  /** One step within an update: noted after it exactly if noted before or recorded by it. */
  lemma StepRecords(l: Layout, w: State, act: Label, c: Component)
    requires GroupsUnrepeated(l) && c in AllComponents(l) && FixedLayout(l, act)
    requires Base(w.stored, w.cluster) && w.stored.cluster == Updating && Next(w, act).stored.cluster == Updating
    ensures Next(w, act).stored.update.Has(PodsRemoved(c.name)) <==>
      w.stored.update.Has(PodsRemoved(c.name)) || Records(w, act, c)
  {
    if act.PassWith? && act.spec.managed && |l.httpProxies| > 0 && !act.answers.fetchFails {
      var spec, a := act.spec, act.answers;
      var s := SurveyOf(ViewOf(spec, w.cluster, a.surveyed, a), w.stored, AllComponents(l));
      if s.Some? {
        MarkedBase(l, w.stored, w.cluster);
        DispatchRecords(l, Pass(Marked(l, w.stored), w.stored, w.cluster), spec, s.value, a, c);
      }
    }
  }

  /** Some step of the run put the removal of this component on record. */
  ghost predicate Recorded(w: State, acts: seq<Label>, c: Component) {
    acts != []
    && (Recorded(w, acts[..|acts| - 1], c) || Records(Run(w, acts[..|acts| - 1]), acts[|acts| - 1], c))
  }

  lemma {:induction false} NotedIsRecorded(l: Layout, w: State, acts: seq<Label>, c: Component)
    requires GroupsUnrepeated(l) && c in AllComponents(l) && Base(w.stored, w.cluster) && Begun(w.stored) && WithinUpdate(w, acts)
    requires forall i :: 0 <= i < |acts| ==> FixedLayout(l, acts[i])
    ensures Base(Run(w, acts).stored, Run(w, acts).cluster)
    ensures Run(w, acts).stored.update.Has(PodsRemoved(c.name)) <==> Recorded(w, acts, c)
    decreases |acts|
  {
    if acts != [] {
      var front := acts[..|acts| - 1];
      WithinFront(w, acts);
      NotedIsRecorded(l, w, front, c);
      NextBase(Run(w, front), acts[|acts| - 1]);
      StepRecords(l, Run(w, front), acts[|acts| - 1], c);
    }
  }

  /** During an update over one layout with distinct names, "all pods removed" holds exactly when each
      updating component has its own removal on record: a pass saw its pods gone and stored that. */
  lemma RemovedIffRecorded(l: Layout, w: State, pre: seq<Label>, post: seq<Label>)
    requires Initial(w) && GroupsUnrepeated(l) && Begun(Run(w, pre).stored) && WithinUpdate(Run(w, pre), post)
    requires forall i :: 0 <= i < |post| ==> FixedLayout(l, post[i])
    ensures var r := Run(w, pre + post);
      ArePodsRemoved(l, r.stored) <==>
        forall c :: c in AllComponents(l) && IsUpdatingComponent(r.stored, c) ==> Recorded(Run(w, pre), post, c)
  {
    RunBase(w, pre);
    RunAppend(w, pre, post);
    forall c | c in AllComponents(l)
      ensures Run(w, pre + post).stored.update.Has(PodsRemoved(c.name)) <==> Recorded(Run(w, pre), post, c)
    {
      NotedIsRecorded(l, Run(w, pre), post, c);
    }
  }

  /** And whoever is noted as removed completed both phases itself, in order. */
  lemma RemovedMeansCompleted(l: Layout, w: State, pre: seq<Label>, post: seq<Label>, c: Component)
    requires Initial(w) && GroupsUnrepeated(l) && Begun(Run(w, pre).stored)
    requires forall i :: 0 <= i < |post| ==> FixedLayout(l, post[i])
    requires var st := Run(w, pre + post).stored; st.cluster == Updating && st.update.Has(PodsRemoved(c.name))
    requires c in AllComponents(l)
    ensures Completed(c, Run(w, pre + post).cluster.log)
  {
    RunBase(w, pre);
    RunAppend(w, pre, post);
    UnstartedPods(l, Run(w, pre).stored, Run(w, pre).cluster.log);
    RunPods(l, Run(w, pre), post);
    assert Truthful(Run(w, pre + post).stored.update, Run(w, pre + post).cluster.log, c);
  }
}
