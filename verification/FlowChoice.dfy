/** Which update flow starts for a set of components that need an update, and for which of them. */
module FlowChoice {
  import opened ClusterStatus
  import opened Components

  datatype Selector =
    | Unspecified | NothingAllowed | StatelessOnly | MasterOnly | TabletNodesOnly | ExecNodesOnly
    | Everything | UnknownSelector

  datatype Choice = Chosen(flow: UpdateFlow, names: Option<seq<string>>) | Refused

  /** The kinds a selector lets through when it starts a flow over a named list. */
  predicate Selected(s: Selector, k: Kind) {
    match s
    case MasterOnly => k == Master
    case TabletNodesOnly => k == TabletNode
    case ExecNodesOnly => k == ExecNode
    case _ => k != Master && k != TabletNode
  }

  predicate Stateful(k: Kind) { k == Master || k == TabletNode }

  function NamesOf(s: Selector, cs: seq<Component>): seq<string> {
    if cs == [] then []
    else
      var front := NamesOf(s, cs[..|cs| - 1]);
      var last := cs[|cs| - 1];
      if Selected(s, last.kind) then front + [last.name] else front
  }

  /** The choice as a function: everything, or exactly the selected names, or nothing at all. */
  function Choose(s: Selector, fullEnabled: bool, cs: seq<Component>): Choice {
    var stateful := exists c :: c in cs && Stateful(c.kind);
    match s
    case NothingAllowed | UnknownSelector => Refused
    case Unspecified | Everything =>
      if !stateful then Chosen(FlowStateless, Some(NamesOf(s, cs)))
      else if s == Everything || fullEnabled then Chosen(FlowFull, None)
      else Refused
    case _ =>
      if NamesOf(s, cs) == [] then Refused
      else Chosen(if s == MasterOnly then FlowMaster else if s == TabletNodesOnly then FlowTabletNodes else FlowStateless,
                  Some(NamesOf(s, cs)))
  }

  /** chooseUpdateFlow: one loop sorts the components by class, then the selector decides. */
  method ChooseUpdateFlow(s: Selector, fullEnabled: bool, needUpdate: seq<Component>) returns (choice: Choice)
    requires needUpdate != []
    ensures choice == Choose(s, fullEnabled, needUpdate)
  {
    var masters, tablets, execs, stateless, all := [], [], [], [], [];
    for i := 0 to |needUpdate|
      invariant masters == NamesOf(MasterOnly, needUpdate[..i])
      invariant tablets == NamesOf(TabletNodesOnly, needUpdate[..i])
      invariant execs == NamesOf(ExecNodesOnly, needUpdate[..i])
      invariant stateless == NamesOf(StatelessOnly, needUpdate[..i])
      invariant all == AllNames(needUpdate[..i])
      invariant masters == [] && tablets == [] <==> forall j :: 0 <= j < i ==> !Stateful(needUpdate[j].kind)
    {
      var c := needUpdate[i];
      assert needUpdate[..i + 1][..i] == needUpdate[..i];
      all := all + [c.name];
      if c.kind == Master {
        masters := masters + [c.name];
      } else if c.kind == TabletNode {
        tablets := tablets + [c.name];
      } else {
        if c.kind == ExecNode { execs := execs + [c.name]; }
        stateless := stateless + [c.name];
      }
    }
    assert needUpdate[..|needUpdate|] == needUpdate;
    var stateful := masters != [] || tablets != [];
    if !stateful {
      AllStateless(s, needUpdate);
    }
    match s {
      case Unspecified =>
        if stateful {
          if fullEnabled { return Chosen(FlowFull, None); }
          return Refused;
        }
        return Chosen(FlowStateless, Some(all));
      case NothingAllowed => return Refused;
      case Everything =>
        if stateful { return Chosen(FlowFull, None); }
        return Chosen(FlowStateless, Some(all));
      case MasterOnly =>
        if masters == [] { return Refused; }
        return Chosen(FlowMaster, Some(masters));
      case TabletNodesOnly =>
        if tablets == [] { return Refused; }
        return Chosen(FlowTabletNodes, Some(tablets));
      case ExecNodesOnly =>
        if execs == [] { return Refused; }
        return Chosen(FlowStateless, Some(execs));
      case StatelessOnly =>
        if stateless == [] { return Refused; }
        return Chosen(FlowStateless, Some(stateless));
      case UnknownSelector => return Refused;
    }
  }

  function AllNames(cs: seq<Component>): seq<string> {
    if cs == [] then [] else AllNames(cs[..|cs| - 1]) + [cs[|cs| - 1].name]
  }

  lemma {:induction false} AllStateless(s: Selector, cs: seq<Component>)
    requires forall c :: c in cs ==> !Stateful(c.kind)
    ensures s == Unspecified || s == Everything || s == StatelessOnly ==> NamesOf(s, cs) == AllNames(cs)
  {
    if cs != [] { AllStateless(s, cs[..|cs| - 1]); }
  }

  /** `picks` are the positions of a subsequence: increasing, and exactly the selected ones. */
  ghost predicate PicksSelected(s: Selector, cs: seq<Component>, picks: seq<nat>, names: seq<string>) {
    && |picks| == |names|
    && (forall i :: 0 <= i < |picks| ==> picks[i] < |cs| && Selected(s, cs[picks[i]].kind) && names[i] == cs[picks[i]].name)
    && (forall i, j :: 0 <= i < j < |picks| ==> picks[i] < picks[j])
    && (forall k: nat :: k < |cs| && Selected(s, cs[k].kind) ==> k in picks)
  }

  lemma {:induction false} NamesAreSelectedInOrder(s: Selector, cs: seq<Component>) returns (picks: seq<nat>)
    ensures PicksSelected(s, cs, picks, NamesOf(s, cs))
  {
    if cs == [] {
      picks := [];
    } else {
      var front := NamesAreSelectedInOrder(s, cs[..|cs| - 1]);
      picks := if Selected(s, cs[|cs| - 1].kind) then front + [|cs| - 1] else front;
      PicksGrow(s, cs, front, NamesOf(s, cs[..|cs| - 1]));
    }
  }

  lemma PicksGrow(s: Selector, cs: seq<Component>, picks: seq<nat>, names: seq<string>)
    requires cs != [] && PicksSelected(s, cs[..|cs| - 1], picks, names)
    ensures Selected(s, cs[|cs| - 1].kind) ==> PicksSelected(s, cs, picks + [|cs| - 1], names + [cs[|cs| - 1].name])
    ensures !Selected(s, cs[|cs| - 1].kind) ==> PicksSelected(s, cs, picks, names)
  {
    var n := |cs| - 1;
    var front := cs[..n];
    assert forall k :: 0 <= k < n ==> front[k] == cs[k];
    assert forall i :: 0 <= i < |picks| ==> picks[i] < n;
    forall k: nat | k < n && Selected(s, cs[k].kind) ensures k in picks { assert front[k] == cs[k]; }
    if Selected(s, cs[n].kind) {
      var more := picks + [n];
      assert forall k :: k in more <==> k in picks || k == n;
    }
  }

  /** An unblocked choice names nobody exactly when it is the full flow; otherwise it names, in
      order and without gaps, the components its selector allows, and at least one of them.
      A stateless flow never holds a master or a tablet node. */
  lemma {:induction false} ChoiceIsSound(s: Selector, fullEnabled: bool, cs: seq<Component>) returns (picks: seq<nat>)
    requires cs != []
    ensures Choose(s, fullEnabled, cs).Chosen? ==>
      var c := Choose(s, fullEnabled, cs);
      && c.flow != FlowNone
      && (c.names.None? <==> c.flow == FlowFull)
      && (c.names.Some? ==> c.names.value != [] && PicksSelected(s, cs, picks, c.names.value))
      && (c.flow == FlowStateless ==> forall i :: 0 <= i < |picks| ==> picks[i] < |cs| && !Stateful(cs[picks[i]].kind))
  {
    picks := NamesAreSelectedInOrder(s, cs);
    assert cs[0] in cs;
    assert Selected(s, cs[0].kind) ==> 0 in picks;
  }
}
