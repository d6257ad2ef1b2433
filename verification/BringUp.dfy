/** Clusters come up: over any layout, favourable rounds take a new or reconfigured cluster to Running. */
module BringUp {
  import opened ClusterStatus
  import opened Components
  import opened World
  import opened Reconcile
  import opened Safety
  import opened Readiness
  import opened Rounds
  import opened Building
  import opened FairPasses
  import opened Progress

  lemma CreatedMoves(p: Pass, spec: Spec, s: Survey, synced: Pass)
    requires p.mem.cluster == Created
    ensures var q := DispatchOr(p, spec, s, AllDone, synced); q.stored == Encoded(p.mem.(cluster := Initializing)) && q.cluster == p.cluster
  {}

  lemma CreatedPass(spec: Spec, since: nat, w: State, a: Answers)
    requires spec.managed && |spec.layout.httpProxies| > 0 && w.stored.cluster == Created && Favourable(spec.layout, since, w, a)
    ensures RunPass(w, spec, a) == State(Encoded(w.stored.(cluster := Initializing)), w.cluster)
  {
    var s := SurveyAnswers(spec, since, w, a);
    var p := Pass(w.stored, w.stored, w.cluster);
    CreatedMoves(p, spec, s, SyncComponents(p, spec, a));
  }

  /** On the way up, with the default bundle in place or no longer needed. */
  ghost predicate Rising(l: Layout, w: State) {
    && |l.httpProxies| > 0 && Base(w.stored, w.cluster) && BundlesThere(w.stored, w.cluster)
    && (w.stored.cluster == Initializing || w.stored.cluster == Reconfiguration)
  }

  lemma SettledRising(l: Layout, w: State)
    requires Rising(l, w)
    ensures Rising(l, w.(cluster := Settle(w.cluster)))
  {
    SettledBase(w);
    SettleFacts(w.cluster, ClientUser);
  }

  /** All components report; if one of them is not ready the pass syncs. */
  lemma RisingSurvey(l: Layout, since: nat, w: State, spec: Spec, a: Answers) returns (s: Survey)
    requires Rising(l, w) && spec.managed && spec.layout == l && Favourable(l, since, w, a)
    ensures SurveyOf(Seen(w, spec, a), w.stored, AllComponents(l)) == Some(s)
    ensures RunPass(w, spec, a) ==
      (var p := Pass(w.stored, w.stored, w.cluster);
       var q := DispatchOr(p, spec, s, AllDone, SyncComponents(p, spec, a)); State(q.stored, q.cluster))
  {
    s := SurveyAnswers(spec, since, w, a);
  }

  predicate GoesToRunning(st: Status, s: Survey) { if st.cluster == Initializing then !s.needSync else !s.needInit }

  lemma SomebodyIsNotUp(l: Layout, w: State, spec: Spec, a: Answers, s: Survey) returns (c: Component)
    requires Rising(l, w) && spec.layout == l && SurveyOf(Seen(w, spec, a), w.stored, AllComponents(l)) == Some(s)
    requires !GoesToRunning(w.stored, s)
    ensures c in AllComponents(l) && !Settles(Seen(w, spec, a), w.stored, c)
  {
    SyncMeaning(Seen(w, spec, a), w.stored, AllComponents(l));
    c :| c in AllComponents(l) && !StatusIs(Seen(w, spec, a), w.stored, c, Ready);
  }

  lemma RisingMidway(l: Layout, since: nat, w: State, spec: Spec, a: Answers)
    requires Rising(l, w) && spec.layout == l && Favourable(l, since, w, a) && CaughtUp(w.cluster)
    ensures Helped(spec, l, Seen(w, spec, a), w.cluster, a)
    ensures Midway(l, since, Pass(w.stored, w.stored, w.cluster), Seen(w, spec, a), w.cluster.log)
    ensures ClientUp(Seen(w, spec, a), w.stored) ==> !a.clientMissing
  {}

  lemma SyncedRising(p: Pass, spec: Spec, a: Answers, q: Pass)
    requires |spec.layout.httpProxies| > 0 && a.writes == AllDone && q.mem.update == Blank
    requires SyncAll(p, spec, p.cluster, a, AllComponents(spec.layout)) == Step(q, true)
    ensures var r := SyncComponents(p, spec, a); r.stored == q.mem && r.cluster == q.cluster
  {}

  lemma StaysWhileRising(p: Pass, spec: Spec, s: Survey, synced: Pass)
    requires p.mem.cluster == Initializing || p.mem.cluster == Reconfiguration
    ensures var q := DispatchOr(p, spec, s, AllDone, synced);
      if GoesToRunning(p.mem, s) then q.stored.cluster == Running else q == synced
  {}

  /** The pass reaches Running, or there is less work left. */
  ghost predicate Higher(l: Layout, since: nat, w: State, r: State) {
    || r.stored.cluster == Running
    || (r.stored.cluster == w.stored.cluster && Work(l, since, r.stored, r.cluster) < Work(l, since, w.stored, w.cluster)
        && BundlesThere(r.stored, r.cluster))
  }

  lemma RisingPass(l: Layout, since: nat, w: State, spec: Spec, a: Answers)
    requires Rising(l, w) && spec.managed && spec.layout == l && Favourable(l, since, w, a) && CaughtUp(w.cluster)
    requires since <= |w.cluster.log|
    ensures Higher(l, since, w, RunPass(w, spec, a))
  {
    var p := Pass(w.stored, w.stored, w.cluster);
    var s := RisingSurvey(l, since, w, spec, a);
    StaysWhileRising(p, spec, s, SyncComponents(p, spec, a));
    if !GoesToRunning(w.stored, s) {
      var c := SomebodyIsNotUp(l, w, spec, a, s);
      RisingMidway(l, since, w, spec, a);
      var q := RisingBuilds(l, since, p, spec, Seen(w, spec, a), a, c);
      SyncedRising(p, spec, a, q);
    }
  }

  lemma RisingBuilds(l: Layout, since: nat, p: Pass, spec: Spec, v: View, a: Answers, c: Component) returns (q: Pass)
    requires Helped(spec, l, v, p.cluster, a) && Midway(l, since, p, v, p.cluster.log) && p.mem.cluster != Updating
    requires since <= |p.cluster.log| && (ClientUp(v, p.mem) ==> !a.clientMissing)
    requires forall j :: j in p.cluster.jobs ==> !p.cluster.jobs[j].terminating
    requires c in AllComponents(l) && !Settles(v, p.mem, c)
    ensures SyncAll(p, spec, p.cluster, a, AllComponents(l)) == Step(q, true)
    ensures q.mem.update == Blank && q.mem.cluster == p.mem.cluster && LessWork(l, since, p, q) && BundlesThere(q.mem, q.cluster)
  {
    q := BuildsUnlessSettled(l, since, p, spec, v, a, c);
  }

  lemma RisingRound(l: Layout, since: nat, w: State, spec: Spec, a: Answers)
    requires Rising(l, w) && since <= |w.cluster.log| && spec.managed && spec.layout == l && FavourableRound(l, since, w, a)
    ensures Higher(l, since, w, Round(w, spec, a)) && Base(Round(w, spec, a).stored, Round(w, spec, a).cluster)
    ensures w.cluster.log <= Round(w, spec, a).cluster.log
  {
    RoundLogs(w, spec, a);
    SettleFacts(w.cluster, ClientUser);
    var settled := w.(cluster := Settle(w.cluster));
    SettledRising(l, w);
    SettledIsCaughtUp(w.cluster);
    RisingPass(l, since, settled, spec, a);
    WorkSettled(l, since, w.stored, w.cluster);
    NextBase(settled, PassWith(spec, a));
  }

  ghost predicate Rises(l: Layout, since: nat, step: State -> State) {
    forall w :: Rising(l, w) && since <= |w.cluster.log| ==>
      Higher(l, since, w, step(w)) && Base(step(w).stored, step(w).cluster) && since <= |step(w).cluster.log|
  }

  lemma {:induction false} RisesToRunning(l: Layout, since: nat, step: State -> State, w: State) returns (n: nat)
    requires Rises(l, since, step) && Rising(l, w) && since <= |w.cluster.log|
    ensures Iterate(step, w, n).stored.cluster == Running
    ensures forall m :: 0 <= m < n ==> Iterate(step, w, m).stored.cluster in {Initializing, Reconfiguration}
    decreases Work(l, since, w.stored, w.cluster)
  {
    var more := 0;
    if step(w).stored.cluster != Running {
      more := RisesToRunning(l, since, step, step(w));
    }
    n := more + 1;
    forall m | 0 <= m < n ensures Iterate(step, w, m).stored.cluster in {Initializing, Reconfiguration} {
      if m > 0 { assert Iterate(step, w, m) == Iterate(step, step(w), m - 1); }
    }
  }

  lemma RoundsRise(spec: Spec, since: nat, env: State -> Answers)
    requires spec.managed && AlwaysFavourable(spec.layout, since, env)
    ensures Rises(spec.layout, since, RoundsOf(spec, env))
  {
    var step := RoundsOf(spec, env);
    forall w | Rising(spec.layout, w) && since <= |w.cluster.log|
      ensures Higher(spec.layout, since, w, step(w)) && Base(step(w).stored, step(w).cluster) && since <= |step(w).cluster.log|
    {
      assert FavourableRound(spec.layout, since, w, env(w));
      RisingRound(spec.layout, since, w, spec, env(w));
    }
  }

  /** From every reachable state on the way up, with whatever secrets and services are missing and
      whatever servers are stale: over the layout of this spec, rounds that are favourable from now on
      lead to Running. The default bundle comes with the YT cluster. */
  lemma EveryClusterComesUp(w: State, acts: seq<Label>, spec: Spec, env: State -> Answers) returns (n: nat)
    requires Initial(w) && spec.managed && |spec.layout.httpProxies| > 0
    requires var r := Run(w, acts);
      r.stored.cluster in {Initializing, Reconfiguration} && (r.stored.bundlesReady || "default" in r.cluster.bundles)
    requires AlwaysFavourable(spec.layout, |Run(w, acts).cluster.log|, env)
    ensures Iterate(RoundsOf(spec, env), Run(w, acts), n).stored.cluster == Running
  {
    RunBase(w, acts);
    RoundsRise(spec, |Run(w, acts).cluster.log|, env);
    n := RisesToRunning(spec.layout, |Run(w, acts).cluster.log|, RoundsOf(spec, env), Run(w, acts));
  }
}
