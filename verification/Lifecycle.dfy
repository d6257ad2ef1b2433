/** The whole life of an admitted cluster: wherever a run got to, favourable rounds lead back to Running. */
module Lifecycle {
  import opened ClusterStatus
  import opened Components
  import opened World
  import opened Reconcile
  import opened Safety
  import opened Names
  import opened Initialised
  import opened Rounds
  import opened FairPasses
  import opened Progress
  import opened BringUp
  import opened Removal
  import opened Admission
  import opened Carcass

  // ----- the states between -----

  lemma EndedMoves(p: Pass, spec: Spec, s: Survey, synced: Pass)
    requires p.mem.cluster == UpdateFinishing || p.mem.cluster == CancelUpdate
    ensures var q := DispatchOr(p, spec, s, AllDone, synced); q.stored.cluster == Running && q.cluster == p.cluster
  {}

  /** Both ways out of an update lead to Running in one pass. */
  lemma EndedPass(spec: Spec, since: nat, w: State, a: Answers)
    requires spec.managed && |spec.layout.httpProxies| > 0 && Ended(w) && Favourable(spec.layout, since, w, a)
    ensures RunPass(w, spec, a).stored.cluster == Running && RunPass(w, spec, a).cluster == w.cluster
  {
    var s := SurveyAnswers(spec, since, w, a);
    var p := Pass(Marked(spec.layout, w.stored), w.stored, w.cluster);
    EndedMoves(p, spec, s, SyncComponents(p, spec, a));
  }

  // ----- back to Running -----

  ghost predicate Returns(spec: Spec, env: State -> Answers, w: State) {
    exists n :: Iterate(RoundsOf(spec, env), w, n).stored.cluster == Running
  }

  lemma {:induction false} IterateAppend(step: State -> State, w: State, n: nat, m: nat)
    ensures Iterate(step, w, n + m) == Iterate(step, Iterate(step, w, n), m)
    decreases n
  {
    if n > 0 { IterateAppend(step, step(w), n - 1, m); }
  }

  lemma ReturnsLater(spec: Spec, env: State -> Answers, w: State, n: nat)
    requires Returns(spec, env, Iterate(RoundsOf(spec, env), w, n))
    ensures Returns(spec, env, w)
  {
    var step := RoundsOf(spec, env);
    var m :| Iterate(step, Iterate(step, w, n), m).stored.cluster == Running;
    IterateAppend(step, w, n, m);
    assert Iterate(step, w, n + m).stored.cluster == Running;
  }

  lemma ReturnsNext(spec: Spec, env: State -> Answers, w: State)
    requires Returns(spec, env, Round(w, spec, env(w)))
    ensures Returns(spec, env, w)
  {
    var step := RoundsOf(spec, env);
    assert Iterate(step, w, 1) == Iterate(step, step(w), 0) == step(w);
    ReturnsLater(spec, env, w, 1);
  }

  lemma RunningReturns(spec: Spec, env: State -> Answers, w: State)
    requires w.stored.cluster == Running
    ensures Returns(spec, env, w)
  {
    assert Iterate(RoundsOf(spec, env), w, 0) == w;
  }

  lemma EndedReturns(spec: Spec, since: nat, env: State -> Answers, w: State)
    requires spec.managed && |spec.layout.httpProxies| > 0 && AlwaysFavourable(spec.layout, since, env) && Ended(w)
    ensures Returns(spec, env, w)
  {
    assert FavourableRound(spec.layout, since, w, env(w));
    EndedPass(spec, since, w.(cluster := Settle(w.cluster)), env(w));
    RunningReturns(spec, env, Round(w, spec, env(w)));
    ReturnsNext(spec, env, w);
  }

  lemma UpdatingReturns(spec: Spec, since: nat, env: State -> Answers, w: State)
    requires Ends(spec, env, w) && spec.managed && |spec.layout.httpProxies| > 0 && AlwaysFavourable(spec.layout, since, env)
    ensures Returns(spec, env, w)
  {
    var n :| Ended(Iterate(RoundsOf(spec, env), w, n));
    EndedReturns(spec, since, env, Iterate(RoundsOf(spec, env), w, n));
    ReturnsLater(spec, env, w, n);
  }

  lemma RisingReturns(spec: Spec, since: nat, env: State -> Answers, w: State)
    requires spec.managed && Rising(spec.layout, w) && since <= |w.cluster.log| && AlwaysFavourable(spec.layout, since, env)
    ensures Returns(spec, env, w)
  {
    RoundsRise(spec, since, env);
    var n := RisesToRunning(spec.layout, since, RoundsOf(spec, env), w);
  }

  /** The default bundle comes with the YT cluster, or the bundles have been initialized. */
  predicate HasDefaultBundle(w: State) { w.stored.bundlesReady || "default" in w.cluster.bundles }

  lemma CreatedReturns(spec: Spec, since: nat, env: State -> Answers, w: State)
    requires spec.managed && |spec.layout.httpProxies| > 0 && AlwaysFavourable(spec.layout, since, env)
    requires Base(w.stored, w.cluster) && w.stored.cluster == Created && HasDefaultBundle(w) && since <= |w.cluster.log|
    ensures Returns(spec, env, w)
  {
    var settled := w.(cluster := Settle(w.cluster));
    assert FavourableRound(spec.layout, since, w, env(w));
    SettledBase(w);
    SettleFacts(w.cluster, ClientUser);
    CreatedPass(spec, since, settled, env(w));
    NextBase(settled, PassWith(spec, env(w)));
    RisingReturns(spec, since, env, Round(w, spec, env(w)));
    ReturnsNext(spec, env, w);
  }

  /** Over one layout since the cluster last came up, whatever was before: wherever the run is, and
      whatever is missing or stale there, rounds that are favourable from then on lead back to Running. */
  lemma AlwaysBackToRunning(w: State, pre: seq<Label>, post: seq<Label>, spec: Spec, env: State -> Answers)
    requires Initial(w) && Run(w, pre).stored.cluster in {Created, Initializing, Reconfiguration}
    requires forall i :: 0 <= i < |post| ==> FixedLayout(spec.layout, post[i])
    requires spec.managed && |spec.layout.httpProxies| > 0 && HasDefaultBundle(Run(w, pre + post))
    requires AlwaysFavourable(spec.layout, |Run(w, pre + post).cluster.log|, env)
    ensures Returns(spec, env, Run(w, pre + post))
  {
    var r, since := Run(w, pre + post), |Run(w, pre + post).cluster.log|;
    RunBase(w, pre + post);
    match r.stored.cluster
    case Created => CreatedReturns(spec, since, env, r);
    case Initializing => RisingReturns(spec, since, env, r);
    case Reconfiguration => RisingReturns(spec, since, env, r);
    case Running => RunningReturns(spec, env, r);
    case Updating =>
      EveryUpdateEnds(w, pre, post, spec, env);
      UpdatingReturns(spec, since, env, r);
    case UpdateFinishing => EndedReturns(spec, since, env, r);
    case CancelUpdate => EndedReturns(spec, since, env, r);
  }

  // ----- what admission is worth -----

  /** For a spec that the webhook accepted: the cluster always comes back to Running, and no pods
      count as removed that the operator has not itself scaled down and seen gone. */
  lemma AdmittedClustersComeBack(s: ClusterSpec, previous: Option<ClusterSpec>, name: string, listed: Option<seq<string>>,
                                 spec: Spec, w: State, pre: seq<Label>, post: seq<Label>, env: State -> Answers)
    requires Acceptable(s, previous, name, listed) && spec.layout == LayoutOf(s) && spec.managed
    requires Initial(w) && Run(w, pre).stored.cluster in {Created, Initializing, Reconfiguration}
    requires forall i :: 0 <= i < |post| ==> FixedLayout(spec.layout, post[i])
    requires HasDefaultBundle(Run(w, pre + post)) && AlwaysFavourable(spec.layout, |Run(w, pre + post).cluster.log|, env)
    ensures Returns(spec, env, Run(w, pre + post))
  {
    AdmissionIsSound(s, previous, name, listed);
    AlwaysBackToRunning(w, pre, post, spec, env);
  }

  lemma AdmittedRemovalsAreHonest(s: ClusterSpec, previous: Option<ClusterSpec>, name: string, listed: Option<seq<string>>,
                                  w: State, pre: seq<Label>, post: seq<Label>, c: Component)
    requires Acceptable(s, previous, name, listed) && c in AllComponents(LayoutOf(s))
    requires Initial(w) && Begun(Run(w, pre).stored) && forall i :: 0 <= i < |post| ==> FixedLayout(LayoutOf(s), post[i])
    requires var st := Run(w, pre + post).stored; st.cluster == Updating && st.update.Has(PodsRemoved(c.name))
    ensures Completed(c, Run(w, pre + post).cluster.log)
  {
    AcceptedIsUnrepeated(s, previous, name, listed);
    RemovedMeansCompleted(LayoutOf(s), w, pre, post, c);
  }

  lemma AcceptedIsUnrepeated(s: ClusterSpec, previous: Option<ClusterSpec>, name: string, listed: Option<seq<string>>)
    requires Acceptable(s, previous, name, listed)
    ensures GroupsUnrepeated(LayoutOf(s))
  {}
}
