/** Two full updates in a row: the job that ended read-only mode in the first one is still there when
    the second one prepares its own, so the operator's earlier run can answer for the later. */
module TwoUpdates {
  import opened ClusterStatus
  import opened Components
  import opened World
  import opened FlowChoice
  import opened Reconcile
  import opened Actions
  import opened Safety
  import opened Initialised
  import opened Durable
  import opened Freshness
  import opened Removal
  import opened Rounds
  import opened Building
  import opened FairPasses
  import opened JobStages
  import opened Progress
  import opened ReadOnlyExit
  import opened Lifecycle
  import opened Reachability
  import opened Witnesses

  // ----- the job object that an update leaves -----

  /** Whoever has noted the exit, or the completion of its job, has left the job object. */
  predicate ExitStands(st: Status, k: Cluster) {
    st.cluster == Updating ==>
      && (st.update.Has(MasterExitedReadOnly) ==> Present(k, ExitReadOnly))
      && (st.update.Has(MasterExitReadOnlyPrepared) && st.Done(ExitReadOnly) ==> Present(k, ExitReadOnly))
  }

  ghost predicate Lasting(l: Layout, w: State) {
    Base(w.stored, w.cluster) && Steady(l, w.stored, w.cluster) && ExitStands(w.stored, w.cluster)
  }

  // ----- away from the exit nothing touches it -----

  predicate SameExitJob(p: Pass, q: Pass) { SameExit(p, q) && q.mem.Done(ExitReadOnly) == p.mem.Done(ExitReadOnly) }

  lemma JobsLeaveDone(p: Pass, v: View, c: Component, action: Action, b: (nat, nat), a: Answers)
    requires Allowed(v, p.mem, c, action) && !(p.mem.cluster == Updating && p.mem.update.state == MasterExitingReadOnly)
    requires !action.InitQueryTracker?
    ensures Perform(p, v, c, action, b, a).pass.mem.Done(ExitReadOnly) == p.mem.Done(ExitReadOnly)
  {
    var o := a.CallsOf(c);
    match action
    case CreateJob(j) => CreateJobQuiet(p, j, o.first, o.second);
    case PrepareRestart(j) => RestartMemory(p, v, j, o.first, o.second);
    case HandleUpdatingState => ClientFrame(p, a.yt);
    case InitBundles => InitBundlesEvents(p, b, a.yt.outcomes);
    case _ =>
  }

  lemma PerformLeavesDone(p: Pass, v: View, c: Component, action: Action, b: (nat, nat), a: Answers)
    requires Allowed(v, p.mem, c, action) && !(p.mem.cluster == Updating && p.mem.update.state == MasterExitingReadOnly)
    ensures Perform(p, v, c, action, b, a).pass.mem.Done(ExitReadOnly) == p.mem.Done(ExitReadOnly)
  {
    if action.InitQueryTracker? {
      var ready := p.(mem := p.mem.(queryTrackerReady := true));
      if !a.clientMissing && a.CallsOf(c).third == Done { JobsLeaveDone(ready, v, c, action.next, b, a); }
    } else {
      JobsLeaveDone(p, v, c, action, b, a);
    }
  }

  lemma SyncOneLeavesExit(p: Pass, spec: Spec, fetched: Cluster, a: Answers, c: Component)
    requires |spec.layout.httpProxies| > 0 && !(p.mem.cluster == Updating && p.mem.update.state == MasterExitingReadOnly)
    ensures SameExitJob(p, SyncOne(p, spec, fetched, a, c).pass)
  {
    var v := ViewOf(spec, fetched, a.synced, a);
    var d := Decide(v, p.mem, c);
    if d.Do? {
      DecisionsAreAllowed(v, p.mem, c);
      PerformLeavesExit(p, v, c, d.action, spec.bootstrap, a);
      PerformLeavesDone(p, v, c, d.action, spec.bootstrap, a);
    }
  }

  lemma {:induction false} SyncAllLeavesExit(p: Pass, spec: Spec, fetched: Cluster, a: Answers, cs: seq<Component>)
    requires |spec.layout.httpProxies| > 0 && !(p.mem.cluster == Updating && p.mem.update.state == MasterExitingReadOnly)
    ensures SameExitJob(p, SyncAll(p, spec, fetched, a, cs).pass)
    decreases |cs|
  {
    if cs != [] {
      SyncOneLeavesExit(p, spec, fetched, a, cs[0]);
      SyncOneKept(p, spec, fetched, a, cs[0]);
      var s := SyncOne(p, spec, fetched, a, cs[0]);
      if s.ok { SyncAllLeavesExit(s.pass, spec, fetched, a, cs[1..]); }
    }
  }

  lemma UpdatingLeavesExit(p: Pass, spec: Spec, s: Survey, w: Outcomes, synced: Pass)
    requires p.mem.cluster == Updating && ExitStands(p.mem, p.cluster) && ExitStands(p.stored, p.cluster)
    requires ExitStands(synced.stored, synced.cluster) && (Present(p.cluster, ExitReadOnly) ==> Present(synced.cluster, ExitReadOnly))
    ensures var q := DispatchOr(p, spec, s, w, synced);
      ExitStands(q.stored, q.cluster) && (Present(p.cluster, ExitReadOnly) ==> Present(q.cluster, ExitReadOnly))
  {}

  lemma SyncStands(p: Pass, spec: Spec, a: Answers)
    requires |spec.layout.httpProxies| > 0 && p.mem.cluster == Updating && p.mem.update.state != MasterExitingReadOnly
    requires ExitStands(p.mem, p.cluster) && ExitStands(p.stored, p.cluster)
    ensures var q := SyncComponents(p, spec, a);
      ExitStands(q.stored, q.cluster) && (Present(p.cluster, ExitReadOnly) ==> Present(q.cluster, ExitReadOnly))
  {
    SyncAllLeavesExit(p, spec, p.cluster, a, AllComponents(spec.layout));
    SyncAllKept(p, spec, p.cluster, a, AllComponents(spec.layout));
  }

  /** A pass of an update that is not at the exit. */
  lemma ElsewhereStands(w: State, spec: Spec, a: Answers)
    requires w.stored.cluster == Updating && !AtExit(w) && ExitStands(w.stored, w.cluster)
    ensures var r := RunPass(w, spec, a);
      ExitStands(r.stored, r.cluster) && (Present(w.cluster, ExitReadOnly) ==> Present(r.cluster, ExitReadOnly))
  {
    if spec.managed && |spec.layout.httpProxies| > 0 && !a.fetchFails {
      var s := SurveyOf(ViewOf(spec, w.cluster, a.surveyed, a), w.stored, AllComponents(spec.layout));
      if s.Some? { DispatchStands(Pass(Marked(spec.layout, w.stored), w.stored, w.cluster), spec, s.value, a); }
    }
  }

  lemma DispatchStands(p: Pass, spec: Spec, s: Survey, a: Answers)
    requires |spec.layout.httpProxies| > 0 && p.mem.cluster == Updating && p.mem.update.state != MasterExitingReadOnly
    requires ExitStands(p.mem, p.cluster) && ExitStands(p.stored, p.cluster)
    ensures var q := Dispatch(p, spec, s, a);
      ExitStands(q.stored, q.cluster) && (Present(p.cluster, ExitReadOnly) ==> Present(q.cluster, ExitReadOnly))
  {
    SyncStands(p, spec, a);
    UpdatingLeavesExit(p, spec, s, a.writes, SyncComponents(p, spec, a));
  }

  /** A pass outside an update at most starts one, with nothing noted. */
  lemma OutsideStands(w: State, spec: Spec, a: Answers)
    requires Base(w.stored, w.cluster) && w.stored.cluster != Updating
    ensures ExitStands(RunPass(w, spec, a).stored, RunPass(w, spec, a).cluster)
  {
    if spec.managed && |spec.layout.httpProxies| > 0 && !a.fetchFails {
      var s := SurveyOf(ViewOf(spec, w.cluster, a.surveyed, a), w.stored, AllComponents(spec.layout));
      if s.Some? { OutsideStarts(Pass(w.stored, w.stored, w.cluster), spec, s.value, a); }
    }
  }

  // ----- at the exit the job is there before it counts -----

  lemma MasterActsAtExit(p: Pass, v: View, b: (nat, nat), a: Answers) returns (d: Decision, q: Pass)
    requires p.mem.cluster == Updating && !p.mem.update.Has(MasterExitedReadOnly) && ExitStands(p.mem, p.cluster)
    requires v.jobs == p.cluster.jobs && v.jobConfigs == p.cluster.jobConfigs && CaughtUp(p.cluster) && a.CallsOf(Single(Master)) == AllDone
    ensures DecideExitReadOnly(v, p.mem) == d && d.Do? && (d.status == Pending || d.status == SyncUpdating)
    ensures Perform(p, v, Single(Master), d.action, b, a) == Step(q, true) && ExitStands(q.mem, q.cluster)
  {
    d := DecideExitReadOnly(v, p.mem);
    ExitAdvances(p, v, b, a);
    if !p.mem.update.Has(MasterExitReadOnlyPrepared) {
      q := PrepareStep(p, v, b, a);
    } else {
      if !p.mem.Done(ExitReadOnly) { JobAdvances(p, v, Single(Master), ExitReadOnly, b, a); }
      var s := Perform(p, v, Single(Master), d.action, b, a);
      q := s.pass;
    }
  }

  lemma ExitStays(l: Layout, w: State, spec: Spec, a: Answers)
    requires Fair(l, 0, w, spec, a) && CaughtUp(w.cluster) && AtExit(w) && !w.stored.update.Has(MasterExitedReadOnly)
    requires ExitStands(w.stored, w.cluster)
    ensures ExitStands(RunPass(w, spec, a).stored, RunPass(w, spec, a).cluster)
  {
    AllCallsDone(a, Single(Master));
    var d, q := MasterActsAtExit(Start(l, w), Seen(w, spec, a), spec.bootstrap, a);
    var r := AtExitPass(l, 0, w, spec, a, d, q);
  }

  lemma ExitMoves(p: Pass, spec: Spec, s: Survey, synced: Pass)
    requires p.mem.cluster == Updating && RouteOk(p.mem) && p.mem.update.state == MasterExitingReadOnly && p.mem.update.Has(MasterExitedReadOnly)
    requires ExitStands(p.mem, p.cluster)
    ensures var q := DispatchOr(p, spec, s, AllDone, synced); ExitStands(q.stored, q.cluster)
  {}

  lemma ExitStandsOn(l: Layout, w: State, spec: Spec, a: Answers)
    requires Fair(l, 0, w, spec, a) && CaughtUp(w.cluster) && AtExit(w) && ExitStands(w.stored, w.cluster)
    ensures ExitStands(RunPass(w, spec, a).stored, RunPass(w, spec, a).cluster)
  {
    if w.stored.update.Has(MasterExitedReadOnly) {
      var s := FairPass(l, 0, w, spec, a);
      ExitMoves(Start(l, w), spec, s, SyncComponents(Start(l, w), spec, a));
    } else {
      ExitStays(l, w, spec, a);
    }
  }

  lemma SettleStands(w: State)
    ensures ExitStands(w.stored, w.cluster) ==> ExitStands(w.stored, Settle(w.cluster))
    ensures Present(w.cluster, ExitReadOnly) ==> Present(Settle(w.cluster), ExitReadOnly)
  {
    SettleFacts(w.cluster, ExitReadOnly);
  }

  // ----- the whole first update -----

  lemma LastingPass(l: Layout, w: State, spec: Spec, a: Answers)
    requires Lasting(l, w) && spec.layout == l && w.stored.cluster != Updating
    ensures Lasting(l, RunPass(w, spec, a))
  {
    NextBase(w, PassWith(spec, a));
    NextSteady(l, w, PassWith(spec, a));
    OutsideStands(w, spec, a);
  }

  lemma SettledLasting(l: Layout, w: State)
    requires Lasting(l, w)
    ensures Lasting(l, w.(cluster := Settle(w.cluster)))
  {
    SettledBase(w);
    SettledSteady(l, w);
    SettleStands(w);
  }

  lemma LastingUpdate(l: Layout, w: State, spec: Spec)
    requires Lasting(l, w) && spec.layout == l && w.stored.cluster == Updating && spec.managed && |l.httpProxies| > 0
    ensures Lasting(l, Round(w, spec, GenerousAnswers(w)))
  {
    var settled, a := w.(cluster := Settle(w.cluster)), GenerousAnswers(w);
    SettledLasting(l, w);
    NextBase(settled, PassWith(spec, a));
    NextSteady(l, settled, PassWith(spec, a));
    if AtExit(w) {
      SteadyIsGood(l, w);
      GenerousIsFavourable(l, 0);
      assert FavourableRound(l, 0, w, a);
      SettledIsFair(l, 0, w, spec, a);
      ExitStandsOn(l, settled, spec, a);
    } else {
      ElsewhereStands(settled, spec, a);
    }
  }

  lemma LastingIsKept(spec: Spec, t: UpdateState)
    requires spec.managed && |spec.layout.httpProxies| > 0
    ensures KeptUntil(spec, t, (w: State) => Lasting(spec.layout, w))
  {
    var l := spec.layout;
    forall x: State, a: Answers | Lasting(l, x) && x.stored.cluster != Updating ensures Lasting(l, RunPass(x, spec, a)) {
      LastingPass(l, x, spec, a);
    }
    forall x: State | Lasting(l, x) ensures Lasting(l, Round(x, spec, GenerousAnswers(x))) {
      if x.stored.cluster == Updating {
        LastingUpdate(l, x, spec);
      } else {
        SettledLasting(l, x);
        LastingPass(l, x.(cluster := Settle(x.cluster)), spec, GenerousAnswers(x));
      }
    }
  }

  lemma LastStopLeads(p: Pass, spec: Spec, s: Survey, synced: Pass)
    requires p.mem.cluster == Updating && RouteOk(p.mem) && p.mem.update.state == SafeModeDisabling && synced.stored.cluster == Updating
    ensures DispatchOr(p, spec, s, AllDone, synced).stored.cluster in {Updating, UpdateFinishing}
  {}

  lemma LastStopPass(l: Layout, w: State, spec: Spec, a: Answers)
    requires Fair(l, 0, w, spec, a) && AtStop(SafeModeDisabling, w)
    ensures RunPass(w, spec, a).stored.cluster in {Updating, UpdateFinishing}
  {
    var s := FairPass(l, 0, w, spec, a);
    SyncAllKept(Start(l, w), spec, w.cluster, a, AllComponents(l));
    LastStopLeads(Start(l, w), spec, s, SyncComponents(Start(l, w), spec, a));
  }

  /** The last stop of a full update, or just past it, with the job object still there. */
  ghost predicate Leaving(l: Layout, w: State) {
    && Present(w.cluster, ExitReadOnly)
    && (w.stored.cluster == UpdateFinishing
        || (UnderWay(l, 0, w) && AtStop(SafeModeDisabling, w) && ExitStands(w.stored, w.cluster)))
  }

  predicate Finishing(w: State) { w.stored.cluster == UpdateFinishing }
  function StillUpdating(w: State): nat { if w.stored.cluster == Updating then 1 else 0 }

  lemma LeavingStands(spec: Spec, w: State)
    requires Leaving(spec.layout, w) && !Finishing(w)
    ensures var r := Round(w, spec, GenerousAnswers(w)); ExitStands(r.stored, r.cluster) && Present(r.cluster, ExitReadOnly)
  {
    SettleStands(w);
    ElsewhereStands(w.(cluster := Settle(w.cluster)), spec, GenerousAnswers(w));
  }

  lemma LeavingCloser(spec: Spec, w: State) returns (r: State)
    requires Leaving(spec.layout, w) && !Finishing(w) && spec.managed
    ensures r == Round(w, spec, GenerousAnswers(w)) && Closer(spec.layout, 0, w, r) && r.stored.cluster in {Updating, UpdateFinishing}
  {
    var l, settled, a := spec.layout, w.(cluster := Settle(w.cluster)), GenerousAnswers(w);
    GenerousIsFavourable(l, 0);
    assert FavourableRound(l, 0, w, a);
    RoundIsNearer(l, 0, w, spec, a);
    RoundGood(l, w, spec, a);
    SettledIsFair(l, 0, w, spec, a);
    LastStopPass(l, settled, spec, a);
    r := RunPass(settled, spec, a);
  }

  lemma LeavingRound(spec: Spec, w: State)
    requires Leaving(spec.layout, w) && !Finishing(w) && spec.managed
    ensures var r := Round(w, spec, GenerousAnswers(w)); Leaving(spec.layout, r) && Lower(StillUpdating, Making(spec.layout), Left(spec.layout), w, r)
  {
    var r := LeavingCloser(spec, w);
    LeavingStands(spec, w);
    LeavingLower(spec.layout, w, r);
  }

  lemma LeavingLower(l: Layout, w: State, r: State)
    requires Leaving(l, w) && !Finishing(w) && Closer(l, 0, w, r) && r.stored.cluster in {Updating, UpdateFinishing}
    requires ExitStands(r.stored, r.cluster) && Present(r.cluster, ExitReadOnly)
    ensures Leaving(l, r) && Lower(StillUpdating, Making(l), Left(l), w, r)
  {
    NothingBehindTheLast(r);
    if r.stored.cluster == Updating { StaysAtTheLast(l, w, r); }
  }

  lemma StaysAtTheLast(l: Layout, w: State, r: State)
    requires AtStop(SafeModeDisabling, w) && Nearer(l, 0, w, r) && r.stored.cluster == Updating && Rank(r.stored.update.state) <= 16
    ensures AtStop(SafeModeDisabling, r)
    ensures MakingLeft(l, 0, r.cluster) < MakingLeft(l, 0, w.cluster) || Distance(l, 0, r) < Distance(l, 0, w)
  {}

  lemma NothingBehindTheLast(w: State)
    ensures Rank(w.stored.update.state) <= 16
    ensures Rank(w.stored.update.state) == 16 ==> w.stored.update.state == SafeModeDisabling
  {}

  lemma LeavesTheUpdate(spec: Spec, w: State) returns (acts: seq<Label>, x: State)
    requires Leaving(spec.layout, w) && spec.managed
    ensures AllFixed(spec.layout, acts) && Run(w, acts) == x && Finishing(x) && Present(x.cluster, ExitReadOnly)
  {
    var l, step := spec.layout, RoundsOf(spec, GenerousAnswers);
    var inv := (y: State) => Leaving(l, y);
    forall y | inv(y) && !Finishing(y) ensures inv(step(y)) && Lower(StillUpdating, Making(l), Left(l), y, step(y)) {
      LeavingRound(spec, y);
    }
    var n := Descend(step, inv, Finishing, StillUpdating, Making(l), Left(l), w);
    acts := RoundsAreARun(spec, GenerousAnswers, w, n);
    x := Run(w, acts);
  }

  lemma Joined(l: Layout, w: State, acts: seq<Label>, x: State, more: seq<Label>) returns (all: seq<Label>)
    requires Run(w, acts) == x && AllFixed(l, acts) && AllFixed(l, more)
    ensures AllFixed(l, all) && Run(w, all) == Run(x, more)
  {
    RunAppend(w, acts, more);
    all := acts + more;
  }

  lemma NewIsLasting(l: Layout)
    ensures Lasting(l, NewCluster(map[]))
  {
    RunBase(NewCluster(map[]), []);
  }

  lemma ReachLeaving(spec: Spec) returns (acts: seq<Label>, x: State)
    requires spec.managed && spec.selector == Everything && |spec.layout.httpProxies| > 0
    ensures Initial(NewCluster(map[])) && AllFixed(spec.layout, acts) && Run(NewCluster(map[]), acts) == x && Leaving(spec.layout, x)
  {
    LastingIsKept(spec, SafeModeDisabling);
    NewIsLasting(spec.layout);
    var pre, post := ReachKeeping(spec, map[], SafeModeDisabling, (w: State) => Lasting(spec.layout, w));
    acts := pre + post;
    x := Run(NewCluster(map[]), acts);
    LastStopHasExited(spec.layout, x);
  }

  lemma LastStopHasExited(l: Layout, w: State)
    requires OnWay(l, SafeModeDisabling, w) && AtStop(SafeModeDisabling, w) && Lasting(l, w)
    ensures Leaving(l, w)
  {}

  /** The way out of the update, back to Running. */
  lemma ComesBack(spec: Spec, x: State) returns (acts: seq<Label>, y: State)
    requires spec.managed && |spec.layout.httpProxies| > 0 && Finishing(x) && Present(x.cluster, ExitReadOnly)
    ensures AllFixed(spec.layout, acts) && Run(x, acts) == y && y.stored.cluster == Running && Present(y.cluster, ExitReadOnly)
  {
    GenerousIsFavourable(spec.layout, 0);
    assert FavourableRound(spec.layout, 0, x, GenerousAnswers(x));
    SettleStands(x);
    EndedPass(spec, 0, x.(cluster := Settle(x.cluster)), GenerousAnswers(x));
    acts := OneRoundIsARun(spec, GenerousAnswers(x), x);
    y := Round(x, spec, GenerousAnswers(x));
  }

  /** A new cluster after its first full update: the job of that update is still there. */
  lemma FirstUpdate(spec: Spec) returns (acts: seq<Label>, y: State)
    requires spec.managed && spec.selector == Everything && |spec.layout.httpProxies| > 0
    ensures Initial(NewCluster(map[])) && AllFixed(spec.layout, acts) && Run(NewCluster(map[]), acts) == y
    ensures Base(y.stored, y.cluster) && Steady(spec.layout, y.stored, y.cluster)
    ensures y.stored.cluster == Running && Present(y.cluster, ExitReadOnly)
  {
    var w := NewCluster(map[]);
    var there, x := ReachLeaving(spec);
    var out, z := LeavesTheUpdate(spec, x);
    var back;
    back, y := ComesBack(spec, z);
    acts := Joined(spec.layout, w, there, x, out);
    acts := Joined(spec.layout, w, acts, z, back);
    RunSteady(spec.layout, w, [], acts);
    assert [] + acts == acts;
  }

  // ----- the second update -----

  lemma SecondUpdate(spec: Spec, y: State) returns (acts: seq<Label>, x: State)
    requires spec.managed && spec.selector == Everything && |spec.layout.httpProxies| > 0
    requires Base(y.stored, y.cluster) && Steady(spec.layout, y.stored, y.cluster)
    requires y.stored.cluster == Running && Present(y.cluster, ExitReadOnly)
    ensures AllFixed(spec.layout, acts) && Run(y, acts) == x
    ensures Good(spec.layout, x) && AtExit(x) && ExitLeft(x.stored, x.cluster)
  {
    var first, z := StartsAgain(spec, y);
    ExitIsLeft(spec);
    var along := AlongTheRoute(spec, z, MasterExitingReadOnly, (w: State) => ExitLeft(w.stored, w.cluster));
    acts := Joined(spec.layout, y, first, z, along);
    x := Run(y, acts);
  }

  lemma StartsAgain(spec: Spec, y: State) returns (acts: seq<Label>, z: State)
    requires spec.managed && spec.selector == Everything && |spec.layout.httpProxies| > 0
    requires Base(y.stored, y.cluster) && Steady(spec.layout, y.stored, y.cluster)
    requires y.stored.cluster == Running && Present(y.cluster, ExitReadOnly)
    ensures AllFixed(spec.layout, acts) && Run(y, acts) == z
    ensures OnWay(spec.layout, MasterExitingReadOnly, z) && ExitLeft(z.stored, z.cluster)
  {
    var a := StartsOnWay(spec, y, MasterExitingReadOnly);
    z := RunPass(y, spec, a);
    BegunHasLeft(y.cluster, z);
    acts := OnePass(y, PassWith(spec, a), z);
  }

  lemma BegunHasLeft(k: Cluster, z: State)
    requires Present(k, ExitReadOnly) && Begun(z.stored) && z.cluster == k.(log := [], baseline := k.cells)
    ensures ExitLeft(z.stored, z.cluster)
  {}

  lemma OnePass(y: State, act: Label, z: State) returns (acts: seq<Label>)
    requires Next(y, act) == z && act.PassWith?
    ensures AllFixed(act.spec.layout, acts) && Run(y, acts) == z
  {
    RunStep(y, [], act);
    acts := [] + [act];
  }

  /** Over every layout, from a new cluster without any job: after two full updates in a row, the second
      one stores its preparation while the job object of the first is still there. */
  lemma OwnJobIsLeftOver(spec: Spec) returns (acts: seq<Label>)
    requires spec.managed && spec.selector == Everything && |spec.layout.httpProxies| > 0
    ensures Initial(NewCluster(map[])) && AllFixed(spec.layout, acts)
    ensures var r := Run(NewCluster(map[]), acts); Prepared(r) && ExitReadOnly in r.cluster.jobs
  {
    var w := NewCluster(map[]);
    var first, y := FirstUpdate(spec);
    var second, x := SecondUpdate(spec, y);
    var a := PreparesStale(spec, x);
    acts := Joined(spec.layout, w, first, y, second);
    RunStep(w, acts, PassWith(spec, a));
    acts := acts + [PassWith(spec, a)];
  }
}
