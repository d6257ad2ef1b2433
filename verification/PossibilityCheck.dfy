/** The check a Full, Master or TabletNodes update must pass before it touches the cluster. */
module PossibilityCheck {
  import opened ClusterStatus

  datatype MasterState = Leading | Following | OtherState
  datatype Hydra = Hydra(active: bool, state: MasterState)

  /** Answers of the YT queries; `None` stands for a failed query. */
  datatype Queries = Queries(
    bundleHealth: Option<seq<string>>,
    lostVitalChunks: Option<int>,
    quorumMissingChunks: Option<int>,
    masters: Option<seq<Option<Hydra>>>)

  datatype Verdict = Possible | Impossible | QueryFailed

  predicate AllAnswered(q: Queries) {
    && q.bundleHealth.Some? && q.lostVitalChunks.Some? && q.quorumMissingChunks.Some? && q.masters.Some?
    && forall i :: 0 <= i < |q.masters.value| ==> q.masters.value[i].Some?
  }

  predicate Role(ms: seq<Option<Hydra>>, i: nat, s: MasterState)
    requires i < |ms|
  {
    ms[i].Some? && ms[i].value.state == s
  }

  ghost predicate LeaderIs(ms: seq<Option<Hydra>>, leader: nat) {
    && leader < |ms|
    && Role(ms, leader, Leading)
    && forall i: nat :: i < |ms| && i != leader ==> Role(ms, i, Following)
  }

  /** What the check is for: good bundles, no lost or quorum-missing chunks, all masters active,
      exactly one of them leading and every other one following. */
  ghost predicate ClusterHealthy(q: Queries)
    requires AllAnswered(q)
  {
    && (forall i :: 0 <= i < |q.bundleHealth.value| ==> q.bundleHealth.value[i] == "good")
    && q.lostVitalChunks.value <= 0
    && q.quorumMissingChunks.value <= 0
    && (forall i :: 0 <= i < |q.masters.value| ==> q.masters.value[i].value.active)
    && exists leader :: LeaderIs(q.masters.value, leader)
  }

  /** The master loop: how many lead and follow, unless a query fails or a master is inactive. */
  datatype Survey = Counted(leading: nat, following: nat) | Inactive | Unanswered

  function Tally(ms: seq<Option<Hydra>>): Survey {
    if ms == [] then Counted(0, 0)
    else
      match Tally(ms[..|ms| - 1])
      case Inactive => Inactive
      case Unanswered => Unanswered
      case Counted(l, f) =>
        match ms[|ms| - 1]
        case None => Unanswered
        case Some(h) =>
          if !h.active then Inactive
          else Counted(if h.state == Leading then l + 1 else l, if h.state == Following then f + 1 else f)
  }

  function Judge(q: Queries): Verdict {
    if q.bundleHealth.None? then QueryFailed
    else if exists i :: 0 <= i < |q.bundleHealth.value| && q.bundleHealth.value[i] != "good" then Impossible
    else if q.lostVitalChunks.None? then QueryFailed
    else if q.lostVitalChunks.value > 0 then Impossible
    else if q.quorumMissingChunks.None? then QueryFailed
    else if q.quorumMissingChunks.value > 0 then Impossible
    else if q.masters.None? then QueryFailed
    else
      match Tally(q.masters.value)
      case Unanswered => QueryFailed
      case Inactive => Impossible
      case Counted(l, f) => if l == 1 && f + 1 == |q.masters.value| then Possible else Impossible
  }

  method HandlePossibilityCheck(q: Queries) returns (v: Verdict)
    ensures v == Judge(q)
  {
    if q.bundleHealth.None? { return QueryFailed; }
    var notGood := [];
    for i := 0 to |q.bundleHealth.value|
      invariant notGood == [] <==> forall j :: 0 <= j < i ==> q.bundleHealth.value[j] == "good"
    {
      if q.bundleHealth.value[i] != "good" { notGood := notGood + [i]; }
    }
    if |notGood| > 0 { return Impossible; }
    if q.lostVitalChunks.None? { return QueryFailed; }
    if q.lostVitalChunks.value > 0 { return Impossible; }
    if q.quorumMissingChunks.None? { return QueryFailed; }
    if q.quorumMissingChunks.value > 0 { return Impossible; }
    if q.masters.None? { return QueryFailed; }
    var ms := q.masters.value;
    var leading, following := 0, 0;
    for i := 0 to |ms|
      invariant Tally(ms[..i]) == Counted(leading, following)
    {
      assert ms[..i + 1][..i] == ms[..i];
      match ms[i] {
        case None =>
          TallyStops(ms, i + 1);
          return QueryFailed;
        case Some(hydra) =>
          if !hydra.active {
            TallyStops(ms, i + 1);
            return Impossible;
          }
          match hydra.state {
            case Leading => leading := leading + 1;
            case Following => following := following + 1;
            case OtherState =>
          }
      }
    }
    assert ms[..|ms|] == ms;
    if leading == 1 && following + 1 == |ms| { return Possible; }
    return Impossible;
  }

  /** Once the loop has an early answer, later masters do not change it. */
  lemma {:induction false} TallyStops(ms: seq<Option<Hydra>>, i: nat)
    requires i <= |ms| && !Tally(ms[..i]).Counted?
    ensures Tally(ms) == Tally(ms[..i])
    decreases |ms|
  {
    if i == |ms| {
      assert ms[..i] == ms;
    } else {
      assert ms[..|ms| - 1][..i] == ms[..i];
      TallyStops(ms[..|ms| - 1], i);
    }
  }

  /** When every query is answered the check says yes exactly for a healthy cluster. */
  lemma {:induction false} CheckIsExact(q: Queries)
    requires AllAnswered(q)
    ensures Judge(q) != QueryFailed
    ensures Judge(q) == Possible <==> ClusterHealthy(q)
  {
    TallyAnswered(q.masters.value);
    if Tally(q.masters.value).Counted? { LeadersCount(q.masters.value); }
  }

  lemma {:induction false} TallyAnswered(ms: seq<Option<Hydra>>)
    requires forall i :: 0 <= i < |ms| ==> ms[i].Some?
    ensures Tally(ms) != Unanswered
    ensures Tally(ms).Counted? <==> forall i :: 0 <= i < |ms| ==> ms[i].value.active
  {
    if ms != [] { TallyAnswered(ms[..|ms| - 1]); }
  }

  /** One leader and the rest followers is the same as the two counts being right. */
  lemma {:induction false} LeadersCount(ms: seq<Option<Hydra>>)
    requires Tally(ms).Counted?
    ensures Tally(ms).leading + Tally(ms).following <= |ms|
    ensures Tally(ms).following == |ms| <==> forall i: nat :: i < |ms| ==> Role(ms, i, Following)
    ensures Tally(ms).leading == 1 && Tally(ms).following + 1 == |ms| <==> exists leader :: LeaderIs(ms, leader)
  {
    if ms != [] {
      var n := |ms| - 1;
      var front := ms[..n];
      LeadersCount(front);
      assert forall i: nat, s :: i < n ==> Role(ms, i, s) == Role(front, i, s);
      assert Tally(ms).following == |ms| <==> Role(ms, n, Following) && Tally(front).following == n;
      assert LeaderIs(ms, n) <==> Role(ms, n, Leading) && Tally(front).following == n;
      forall leader: nat | leader < n
        ensures LeaderIs(ms, leader) <==> LeaderIs(front, leader) && Role(ms, n, Following)
      {
        assert forall i: nat :: i < n && i != leader ==> Role(ms, i, Following) == Role(front, i, Following);
      }
    }
  }
}
