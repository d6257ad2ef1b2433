/** Updates end: every round with favourable answers moves an updating cluster along its route, makes
    something that was missing, or brings it nearer to the end of the stage it is in. */
module Progress {
  import opened ClusterStatus
  import opened Components
  import opened World
  import opened Reconcile
  import opened Safety
  import opened Initialised
  import opened Durable
  import opened Viability
  import opened Rounds
  import opened Building
  import PossibilityCheck
  import opened FairPasses
  import opened ClientStages
  import opened JobStages
  import opened PodStages

  // ----- every update ends -----

  /** A fair pass leaves the update, moves along the route, or shortens the stage. */
  lemma FairPassIsNearer(l: Layout, since: nat, w: State, spec: Spec, a: Answers)
    requires Fair(l, since, w, spec, a) && CaughtUp(w.cluster)
    ensures Nearer(l, since, w, RunPass(w, spec, a))
  {
    match w.stored.update.state
    case StateNone => StartNearer(l, since, w, spec, a);
    case ImpossibleToStart => ImpossibleNeverSticks(l, since, w, spec, a);
    case PodsRemoval => PodsRemovalNearer(l, since, w, spec, a);
    case PodsCreation => PodsCreationNearer(l, since, w, spec, a);
    case MasterExitingReadOnly => JobStageNearer(l, since, w, spec, a, Master);
    case OpArchivePreparing => JobStageNearer(l, since, w, spec, a, Scheduler);
    case OpArchiveUpdating => JobStageNearer(l, since, w, spec, a, Scheduler);
    case QTStatePreparing => JobStageNearer(l, since, w, spec, a, QueryTracker);
    case QTStateUpdating => JobStageNearer(l, since, w, spec, a, QueryTracker);
    case _ => ClientStageNearer(l, since, w, spec, a);
  }

  /** Favourable answers once the environment has caught up. */
  ghost predicate FavourableRound(l: Layout, since: nat, w: State, a: Answers) { Favourable(l, since, w.(cluster := Settle(w.cluster)), a) }

  lemma NothingLeftDying(cells: seq<Cell>)
    requires NoneDying(cells)
    ensures AllDying(cells) ==> cells == []
  {
    if cells != [] { assert !cells[0].dying; }
  }

  lemma SettledIsCaughtUp(k: Cluster)
    ensures CaughtUp(Settle(k))
  {
    var r := Settle(k);
    forall j | j in r.jobs ensures r.jobs[j].succeeded && !r.jobs[j].terminating { SettleFacts(k, j); }
    SettleFacts(k, ClientUser);
    NothingLeftDying(r.cells);
  }

  lemma SettledIsFair(l: Layout, since: nat, w: State, spec: Spec, a: Answers)
    requires Good(l, w) && w.stored.cluster == Updating && since <= |w.cluster.log|
    requires spec.managed && spec.layout == l && FavourableRound(l, since, w, a)
    ensures Fair(l, since, w.(cluster := Settle(w.cluster)), spec, a) && CaughtUp(Settle(w.cluster))
  {
    SettleGood(l, w);
    SettleFacts(w.cluster, ClientUser);
    SettledIsCaughtUp(w.cluster);
  }

  /** The measure (stages left, things to make, distance in the stage) drops in every favourable round. */
  lemma RoundIsNearer(l: Layout, since: nat, w: State, spec: Spec, a: Answers)
    requires Good(l, w) && w.stored.cluster == Updating && since <= |w.cluster.log|
    requires spec.managed && spec.layout == l && FavourableRound(l, since, w, a)
    ensures Nearer(l, since, w, Round(w, spec, a)) && w.cluster.log <= Round(w, spec, a).cluster.log
    ensures MakingLeft(l, since, Round(w, spec, a).cluster) <= MakingLeft(l, since, w.cluster)
  {
    RoundLogs(w, spec, a);
    UnmadeDrops(AllComponents(l), w.cluster.log, Round(w, spec, a).cluster.log, since, Single(Master));
    var settled := w.(cluster := Settle(w.cluster));
    SettledIsFair(l, since, w, spec, a);
    FairPassIsNearer(l, since, settled, spec, a);
    NearerAsSettled(l, since, w, RunPass(settled, spec, a));
  }

  lemma NearerAsSettled(l: Layout, since: nat, w: State, r: State)
    requires Nearer(l, since, w.(cluster := Settle(w.cluster)), r)
    ensures Nearer(l, since, w, r)
  {
    SettleDistance(l, since, w);
    WorkSettled(l, since, w.stored, w.cluster);
  }

  /** An environment that answers favourably in every state, from the log length `since` on. */
  ghost predicate AlwaysFavourable(l: Layout, since: nat, env: State -> Answers) { forall w :: FavourableRound(l, since, w, env(w)) }

  ghost function Iterate(step: State -> State, w: State, n: nat): State
    decreases n
  {
    if n == 0 then w else Iterate(step, step(w), n - 1)
  }

  /** An update in rounds that have begun. */
  ghost predicate UnderWay(l: Layout, since: nat, w: State) {
    Good(l, w) && w.stored.cluster == Updating && since <= |w.cluster.log|
  }

  ghost predicate Approaches(l: Layout, since: nat, step: State -> State) {
    forall w :: UnderWay(l, since, w) ==> Closer(l, since, w, step(w))
  }

  /** What a favourable round of an update leads to. */
  ghost predicate Closer(l: Layout, since: nat, w: State, r: State) {
    Good(l, r) && Nearer(l, since, w, r) && since <= |r.cluster.log| && MakingLeft(l, since, r.cluster) <= MakingLeft(l, since, w.cluster)
  }

  predicate Ended(w: State) { w.stored.cluster == UpdateFinishing || w.stored.cluster == CancelUpdate }

  ghost predicate Lower(rank: State -> nat, next: State -> nat, dist: State -> nat, w: State, r: State) {
    rank(r) < rank(w) || (rank(r) == rank(w) && (next(r) < next(w) || (next(r) == next(w) && dist(r) < dist(w))))
  }

  /** Steps that keep an invariant and lower a measure reach the goal. */
  lemma {:induction false} Descend(step: State -> State, inv: State -> bool, goal: State -> bool,
                                    rank: State -> nat, next: State -> nat, dist: State -> nat, w: State) returns (n: nat)
    requires inv(w) && forall x :: inv(x) && !goal(x) ==> inv(step(x)) && Lower(rank, next, dist, x, step(x))
    ensures inv(Iterate(step, w, n)) && goal(Iterate(step, w, n))
    ensures forall m :: 0 <= m < n ==> !goal(Iterate(step, w, m))
    decreases rank(w), next(w), dist(w)
  {
    n := 0;
    if !goal(w) {
      var more := Descend(step, inv, goal, rank, next, dist, step(w));
      n := more + 1;
      forall m | 0 <= m < n ensures !goal(Iterate(step, w, m)) {
        if m > 0 { assert Iterate(step, w, m) == Iterate(step, step(w), m - 1); }
      }
    }
  }

  function StopsLeft(s: UpdateState): nat { 16 - Rank(s) }

  function StopsToEnd(w: State): nat { if w.stored.cluster == Updating then 1 + StopsLeft(w.stored.update.state) else 0 }

  lemma CloserDescends(l: Layout, since: nat, w: State, r: State)
    requires UnderWay(l, since, w) && Closer(l, since, w, r)
    ensures UnderWay(l, since, r) || Ended(r)
    ensures Lower(StopsToEnd, (x: State) => MakingLeft(l, since, x.cluster), (x: State) => Distance(l, since, x), w, r)
  {}

  /** Steps that always come nearer reach an end: the measure is well-founded. */
  lemma ApproachEnds(l: Layout, since: nat, step: State -> State, w: State) returns (n: nat)
    requires Approaches(l, since, step) && UnderWay(l, since, w)
    ensures Ended(Iterate(step, w, n))
  {
    var inv := (x: State) => UnderWay(l, since, x) || Ended(x);
    var making, left := (x: State) => MakingLeft(l, since, x.cluster), (x: State) => Distance(l, since, x);
    forall x | inv(x) && !Ended(x) ensures inv(step(x)) && Lower(StopsToEnd, making, left, x, step(x)) {
      CloserDescends(l, since, x, step(x));
    }
    n := Descend(step, inv, Ended, StopsToEnd, making, left, w);
  }

  function RoundsOf(spec: Spec, env: State -> Answers): State -> State { (w: State) => Round(w, spec, env(w)) }

  lemma RoundsApproach(spec: Spec, since: nat, env: State -> Answers)
    requires spec.managed && AlwaysFavourable(spec.layout, since, env)
    ensures Approaches(spec.layout, since, RoundsOf(spec, env))
  {
    forall w | UnderWay(spec.layout, since, w) ensures Closer(spec.layout, since, w, RoundsOf(spec, env)(w)) {
      assert FavourableRound(spec.layout, since, w, env(w));
      RoundIsNearer(spec.layout, since, w, spec, env(w));
      RoundGood(spec.layout, w, spec, env(w));
    }
  }

  /** Favourable rounds with this spec bring the update to its end. */
  ghost predicate Ends(spec: Spec, env: State -> Answers, w: State) { exists n :: Ended(Iterate(RoundsOf(spec, env), w, n)) }

  /** What a user can check: the cluster is managed, has a proxy to ask, and the update is viable. */
  predicate CanEnd(spec: Spec, st: Status) {
    spec.managed && |spec.layout.httpProxies| > 0 && Viable(spec.layout, st)
  }

  lemma GoodEnds(spec: Spec, since: nat, env: State -> Answers, w: State)
    requires Base(w.stored, w.cluster) && Core(w.stored, w.cluster) && w.stored.cluster == Updating
    requires CanEnd(spec, w.stored) && since <= |w.cluster.log| && AlwaysFavourable(spec.layout, since, env)
    ensures Ends(spec, env, w)
  {
    RoundsApproach(spec, since, env);
    var n := ApproachEnds(spec.layout, since, RoundsOf(spec, env), w);
  }

  // ----- and where it does not -----

  ghost predicate Endless(spec: Spec, w: State) {
    Base(w.stored, w.cluster) && w.stored.cluster == Updating && !CanEnd(spec, w.stored)
  }

  lemma SettledBase(w: State)
    requires Base(w.stored, w.cluster)
    ensures Base(w.stored, Settle(w.cluster))
  {
    var es := SettleIsEnvironment(w.cluster);
    EnvStepsBase(w.stored, w.cluster, es);
  }

  lemma {:induction false} EnvStepsBase(st: Status, k: Cluster, es: seq<EnvEvent>)
    requires Base(st, k)
    ensures Base(st, EnvSteps(k, es))
    decreases |es|
  {
    if es != [] {
      EnvStepsBase(st, k, es[..|es| - 1]);
      EnvBase(st, EnvSteps(k, es[..|es| - 1]), es[|es| - 1]);
    }
  }

  lemma GenerousIsNotRefusing(spec: Spec, w: State)
    ensures NotRefusing(PassWith(spec, GenerousAnswers(w)))
  {
    PossibilityCheck.CheckIsExact(GenerousAnswers(w).yt.possibility);
    assert PossibilityCheck.LeaderIs(GenerousAnswers(w).yt.possibility.masters.value, 0);
  }

  lemma EndlessRound(spec: Spec, w: State)
    requires Endless(spec, w)
    ensures Endless(spec, Round(w, spec, GenerousAnswers(w)))
  {
    var settled, act := w.(cluster := Settle(w.cluster)), PassWith(spec, GenerousAnswers(w));
    SettledBase(w);
    NextBase(settled, act);
    GenerousIsNotRefusing(spec, w);
    if !Viable(spec.layout, w.stored) { NextHopeless(spec.layout, settled, act); }
  }

  lemma {:induction false} EndlessForever(spec: Spec, step: State -> State, w: State, n: nat)
    requires Endless(spec, w) && forall x :: Endless(spec, x) ==> Endless(spec, step(x))
    ensures !Ended(Iterate(step, w, n))
    decreases n
  {
    if n > 0 { EndlessForever(spec, step, step(w), n - 1); }
  }

  lemma GenerousIsFavourable(l: Layout, since: nat)
    ensures AlwaysFavourable(l, since, GenerousAnswers)
  {
    forall w ensures FavourableRound(l, since, w, GenerousAnswers(w)) {
      var settled := w.(cluster := Settle(w.cluster));
      var a := FavourableAnswersExist(l, since, settled);
      assert GenerousAnswers(settled) == GenerousAnswers(w);
    }
  }

  /** Favourable environments need not begin with anything: here every component at first lacks its
      secret, its service and its server. */
  lemma FromNothing(l: Layout, since: nat) returns (env: State -> Answers)
    ensures AlwaysFavourable(l, since, env)
    ensures forall w: State, c :: |Settle(w.cluster).log| <= since && c in AllComponents(l) ==> HasNothing(env(w).surveyed, c)
  {
    env := (w: State) => BareAnswers(l, since, w.(cluster := Settle(w.cluster)));
    forall w ensures FavourableRound(l, since, w, env(w)) { BareIsFavourable(l, since, w.(cluster := Settle(w.cluster))); }
    forall w: State, c | |Settle(w.cluster).log| <= since && c in AllComponents(l) ensures HasNothing(env(w).surveyed, c) {
      BareIsFavourable(l, since, w.(cluster := Settle(w.cluster)));
    }
  }

  lemma EndlessNeverEnds(spec: Spec, w: State)
    requires Endless(spec, w)
    ensures !Ends(spec, GenerousAnswers, w)
  {
    var step := RoundsOf(spec, GenerousAnswers);
    forall x | Endless(spec, x) ensures Endless(spec, step(x)) { EndlessRound(spec, x); }
    forall n ensures !Ended(Iterate(step, w, n)) { EndlessForever(spec, step, w, n); }
  }

  /** From every reachable state of an update, whatever specs there were before, whatever writes were
      lost, and whatever is missing or stale now: rounds with this spec that are favourable from now on
      end the update if and only if it can end. */
  lemma UpdateEndsIff(w: State, acts: seq<Label>, spec: Spec)
    requires Initial(w) && Run(w, acts).stored.cluster == Updating
    ensures CanEnd(spec, Run(w, acts).stored) <==>
      forall env :: AlwaysFavourable(spec.layout, |Run(w, acts).cluster.log|, env) ==> Ends(spec, env, Run(w, acts))
  {
    RunCore(w, acts);
    EndsIff(spec, Run(w, acts));
  }

  lemma EndsIff(spec: Spec, w: State)
    requires Base(w.stored, w.cluster) && Core(w.stored, w.cluster) && w.stored.cluster == Updating
    ensures CanEnd(spec, w.stored) <==>
      forall env :: AlwaysFavourable(spec.layout, |w.cluster.log|, env) ==> Ends(spec, env, w)
  {
    var since := |w.cluster.log|;
    if CanEnd(spec, w.stored) {
      forall env | AlwaysFavourable(spec.layout, since, env) ensures Ends(spec, env, w) { GoodEnds(spec, since, env, w); }
    } else {
      GenerousIsFavourable(spec.layout, since);
      EndlessNeverEnds(spec, w);
    }
  }

  // ----- a layout that stays as it was when the cluster came up -----

  lemma SteadyIsViable(l: Layout, st: Status, k: Cluster)
    requires Steady(l, st, k) && st.cluster == Updating
    ensures Viable(l, st)
  {
    if Barred(l, st) {
      var c :| c in AllComponents(l) && IsUpdatingComponent(st, c) && NeedsClient(st, c);
      ResidentsAreHosted(l, c);
    }
  }

  /** Whatever happened before the cluster last came up: as long as the layout stays as it was then,
      favourable rounds bring every update to its end. */
  lemma EveryUpdateEnds(w: State, pre: seq<Label>, post: seq<Label>, spec: Spec, env: State -> Answers)
    requires Initial(w) && Run(w, pre).stored.cluster in {Created, Initializing, Reconfiguration}
    requires forall i :: 0 <= i < |post| ==> FixedLayout(spec.layout, post[i])
    requires Run(w, pre + post).stored.cluster == Updating
    requires spec.managed && |spec.layout.httpProxies| > 0
    requires AlwaysFavourable(spec.layout, |Run(w, pre + post).cluster.log|, env)
    ensures Ends(spec, env, Run(w, pre + post))
  {
    RunSteady(spec.layout, w, pre, post);
    RunCore(w, pre + post);
    SteadyIsViable(spec.layout, Run(w, pre + post).stored, Run(w, pre + post).cluster);
    GoodEnds(spec, |Run(w, pre + post).cluster.log|, env, Run(w, pre + post));
  }
}
