/** Removing and creating pods: every favourable pass advances all components that are being
    removed, and writes at least one more server of those being created. */
module PodStages {
  import opened ClusterStatus
  import opened Components
  import opened World
  import opened Reconcile
  import opened Readiness
  import opened Initialised
  import opened Rounds
  import opened Building
  import opened FairPasses
  import opened JobStages

  // ----- removing pods -----

  ghost predicate Noted(st: Status, to: Status) { forall c :: st.update.Has(c) ==> to.update.Has(c) }

  /** Only conditions have been added since the pass began. */
  ghost predicate OnlyNoted(w: State, p: Pass) {
    p.mem == w.stored.(update := w.stored.update.(conditions := p.mem.update.conditions)) && Noted(w.stored, p.mem)
  }

  /** In between the client waits, makes its secret, or has nothing to do. */
  lemma ClientCalm(v: View, st: Status)
    requires |v.layout.httpProxies| > 0 && st.cluster == Updating && st.Done(ClientUser)
    requires st.update.state != ImpossibleToStart && !v.clientFails
    ensures Decide(v, st, Single(YtsaurusClient)) in {Waiting, Do(Pending, CreateAuxiliary), Do(SyncUpdating, HandleUpdatingState)}
  {
    var client := Single(YtsaurusClient);
    GatesNotBroken(v, st, client);
    ClientUnfolds(v, st, client);
  }

  lemma ClientStaysCalm(l: Layout, since: nat, w: State, spec: Spec, a: Answers, p: Pass) returns (q: Pass)
    requires Fair(l, since, w, spec, a) && p.mem.cluster == Updating && p.mem.Done(ClientUser) && p.mem.update.state == PodsRemoval
    ensures SyncOne(p, spec, w.cluster, a, Single(YtsaurusClient)) == Step(q, true) && q.mem == p.mem
  {
    var v, client := Seen(w, spec, a), Single(YtsaurusClient);
    var d := Decide(v, p.mem, client);
    ClientCalm(v, p.mem);
    AllCallsDone(a, client);
    if d == Waiting {
      RestsUnlessPending(p, spec, w.cluster, a, client);
      q := p;
    } else {
      SyncsAsDecided(p, spec, w.cluster, a, client, d);
      q := PerformsCalmly(p, v, d.action, spec.bootstrap, a);
    }
  }

  lemma PerformsCalmly(p: Pass, v: View, action: Action, b: (nat, nat), a: Answers) returns (q: Pass)
    requires action == CreateAuxiliary || action == HandleUpdatingState
    requires a.CallsOf(Single(YtsaurusClient)) == AllDone && p.mem.update.state == PodsRemoval
    ensures Perform(p, v, Single(YtsaurusClient), action, b, a) == Step(q, true) && q.mem == p.mem
  {
    PerformsClientStep(p, v, Single(YtsaurusClient), b, a);
    MakingIsLogged(p, v, Single(YtsaurusClient), b, a);
    var s := Perform(p, v, Single(YtsaurusClient), action, b, a);
    q := s.pass;
  }

  lemma RemoverDecides(v: View, st: Status, c: Component)
    requires |v.layout.httpProxies| > 0 && st.cluster == Updating && st.update.state == PodsRemoval && c.kind != YtsaurusClient
    ensures Decide(v, st, c) == if IsUpdatingComponent(st, c) then Do(SyncUpdating, RemovePods) else Settled
  {}

  lemma RemovePodsAdvances(p: Pass, c: Component, gone: bool)
    ensures var s := RemovePodsStep(p, c, gone, Done); var q := s.pass;
      && s.ok && Noted(p.mem, q.mem) && q.mem == p.mem.(update := p.mem.update.(conditions := q.mem.update.conditions))
      && q.mem.update.Has(PodsRemovingStarted(c.name))
      && (gone && p.mem.update.Has(PodsRemovingStarted(c.name)) ==> q.mem.update.Has(PodsRemoved(c.name)))
  {}

  /** What a pass that begins with this status does to the removal of pods. */
  ghost predicate Removes(st: Status, q: Pass, c: Component) {
    IsUpdatingComponent(st, c) ==>
      && q.mem.update.Has(PodsRemovingStarted(c.name))
      && (st.update.Has(PodsRemovingStarted(c.name)) ==> q.mem.update.Has(PodsRemoved(c.name)))
  }

  lemma RemovesPods(p: Pass, spec: Spec, fetched: Cluster, a: Answers, c: Component) returns (q: Pass)
    requires |spec.layout.httpProxies| > 0 && a.checked == a.surveyed && a.synced == a.surveyed && a.CallsOf(c) == AllDone
    requires p.mem.cluster == Updating && p.mem.update.state == PodsRemoval && c.kind != YtsaurusClient
    requires IsUpdatingComponent(p.mem, c)
    ensures SyncOne(p, spec, fetched, a, c) == Step(q, true)
    ensures Noted(p.mem, q.mem) && q.mem == p.mem.(update := p.mem.update.(conditions := q.mem.update.conditions))
    ensures q.mem.update.Has(PodsRemovingStarted(c.name))
    ensures ViewOf(spec, fetched, a.surveyed, a).Of(c).podsGone && p.mem.update.Has(PodsRemovingStarted(c.name)) ==>
      q.mem.update.Has(PodsRemoved(c.name))
  {
    var gone := ViewOf(spec, fetched, a.surveyed, a).Of(c).podsGone;
    RemoverDecides(ViewOf(spec, fetched, a.surveyed, a), p.mem, c);
    SyncsAsDecided(p, spec, fetched, a, c, Do(SyncUpdating, RemovePods));
    RemovePodsAdvances(p, c, gone);
    var s := RemovePodsStep(p, c, gone, Done);
    q := s.pass;
  }

  lemma PodsSyncOne(l: Layout, since: nat, w: State, spec: Spec, a: Answers, p: Pass, c: Component) returns (q: Pass)
    requires Fair(l, since, w, spec, a) && OnlyNoted(w, p) && w.stored.update.state == PodsRemoval && c in AllComponents(l)
    ensures SyncOne(p, spec, w.cluster, a, c) == Step(q, true)
    ensures OnlyNoted(w, q) && Noted(p.mem, q.mem) && Removes(w.stored, q, c)
  {
    q := p;
    if c.kind == YtsaurusClient {
      Residents(l, c);
      ClientIsDone(l, since, w, spec, a);
      q := ClientStaysCalm(l, since, w, spec, a, p);
      ClientIsNotUpdating(l, w, c);
    } else if IsUpdatingComponent(p.mem, c) {
      AllCallsDone(a, c);
      PodsAreGone(l, since, w, spec, a, c);
      q := RemovesPods(p, spec, w.cluster, a, c);
    } else {
      RemoverDecides(Seen(w, spec, a), p.mem, c);
    }
  }

  lemma PodsAreGone(l: Layout, since: nat, w: State, spec: Spec, a: Answers, c: Component)
    requires Fair(l, since, w, spec, a) && c in AllComponents(l)
    ensures w.stored.update.Has(PodsRemovingStarted(c.name)) ==> ViewOf(spec, w.cluster, a.surveyed, a).Of(c).podsGone
  {
    assert ComesUp(w.stored, c, Seen(w, spec, a).Of(c), w.cluster.log, since);
  }

  lemma ClientIsNotUpdating(l: Layout, w: State, c: Component)
    requires Good(l, w) && w.stored.cluster == Updating && c == Single(YtsaurusClient)
    ensures !IsUpdatingComponent(w.stored, c)
  {}

  lemma {:induction false} PodsSyncAll(l: Layout, since: nat, w: State, spec: Spec, a: Answers, p: Pass, cs: seq<Component>) returns (q: Pass)
    requires Fair(l, since, w, spec, a) && OnlyNoted(w, p) && w.stored.update.state == PodsRemoval
    requires forall c :: c in cs ==> c in AllComponents(l)
    ensures SyncAll(p, spec, w.cluster, a, cs) == Step(q, true)
    ensures OnlyNoted(w, q) && Noted(p.mem, q.mem) && forall c :: c in cs ==> Removes(w.stored, q, c)
    decreases |cs|
  {
    q := p;
    if cs != [] {
      var one := PodsSyncOne(l, since, w, spec, a, p, cs[0]);
      q := PodsSyncAll(l, since, w, spec, a, one, cs[1..]);
      forall c | c in cs ensures Removes(w.stored, q, c) {
        if c == cs[0] { assert Removes(w.stored, one, c); }
      }
    }
  }

  lemma PodsPhaseDrops(l: Layout, w: State, q: Pass)
    requires OnlyNoted(w, q) && !ArePodsRemoved(l, w.stored)
    requires forall c :: c in AllComponents(l) ==> Removes(w.stored, q, c)
    ensures PodsPhase(l, q.mem) < PodsPhase(l, w.stored)
  {
    assert AllStarted(l, q.mem);
    if AllStarted(l, w.stored) { assert ArePodsRemoved(l, q.mem); }
  }

  lemma PodsRemovalNearer(l: Layout, since: nat, w: State, spec: Spec, a: Answers)
    requires Fair(l, since, w, spec, a) && w.stored.update.state == PodsRemoval
    ensures Nearer(l, since, w, RunPass(w, spec, a))
  {
    var s := MovesOrStays(l, since, w, spec, a);
    if Advance(spec, Marked(l, w.stored), s) == Stay {
      Holds(spec, w.stored, s);
      var q := PodsSyncAll(l, since, w, spec, a, Start(l, w), AllComponents(l));
      StayedPass(l, w, spec, a, q);
      PodsPhaseDrops(l, w, q);
    }
  }

  // ----- creating pods -----

  lemma FairIsOpening(l: Layout, since: nat, w: State, spec: Spec, a: Answers)
    requires Fair(l, since, w, spec, a) && CaughtUp(w.cluster) && w.stored.update.state == PodsCreation
    ensures Marked(l, w.stored) == w.stored && Helped(spec, l, Seen(w, spec, a), w.cluster, a)
    ensures Midway(l, since, Start(l, w), Seen(w, spec, a), w.cluster.log)
    ensures ClientUp(Seen(w, spec, a), w.stored) ==> !a.clientMissing
  {}

  lemma SomebodyIsUnsettled(l: Layout, since: nat, w: State, spec: Spec, a: Answers, s: Survey) returns (c: Component)
    requires Fair(l, since, w, spec, a) && SurveyOf(Seen(w, spec, a), w.stored, AllComponents(l)) == Some(s) && !s.allReadyOrUpdating
    ensures c in AllComponents(l) && !Settles(Seen(w, spec, a), w.stored, c)
  {
    var v := Seen(w, spec, a);
    ReadyMeaning(v, w.stored, AllComponents(l));
    c :| c in AllComponents(l) && !(StatusIs(v, w.stored, c, Ready) || StatusIs(v, w.stored, c, SyncUpdating));
  }

  lemma PodsCreationNearer(l: Layout, since: nat, w: State, spec: Spec, a: Answers)
    requires Fair(l, since, w, spec, a) && CaughtUp(w.cluster) && w.stored.update.state == PodsCreation
    ensures Nearer(l, since, w, RunPass(w, spec, a))
  {
    var s := MovesOrStays(l, since, w, spec, a);
    FairIsOpening(l, since, w, spec, a);
    if Advance(spec, Marked(l, w.stored), s) == Stay {
      Holds(spec, w.stored, s);
      var c := SomebodyIsUnsettled(l, since, w, spec, a, s);
      var q := BuildsUnlessSettled(l, since, Start(l, w), spec, Seen(w, spec, a), a, c);
      StayedPass(l, w, spec, a, q);
    }
  }
}
