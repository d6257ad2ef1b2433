/** Names of components: for a layout without repeated group names they are pairwise distinct. */
module Names {
  import opened Components

  const Chyt := "ChytController"

  predicate GroupKind(k: Kind) { k in {DataNode, HttpProxy, RpcProxy, TcpProxy, ExecNode, TabletNode} }

  /** Group members append their group's name; everyone else bears one fixed name. */
  ghost predicate WellNamed(c: Component) {
    if GroupKind(c.kind) then exists n :: c.name == FormatWithDefault(BaseName(c.kind), n)
    else c.name == BaseName(c.kind) || (c.kind == StrawberryController && c.name == Chyt)
  }

  lemma GroupWellNamed(k: Kind, names: seq<string>, c: Component)
    requires GroupKind(k) && c in Group(k, names)
    ensures c.kind == k && WellNamed(c)
  {
    var i :| 0 <= i < |names| && Group(k, names)[i] == c;
    assert c.name == FormatWithDefault(BaseName(c.kind), names[i]);
  }

  lemma ResidentsWellNamed(l: Layout, c: Component)
    requires c in AllComponents(l)
    ensures WellNamed(c)
  {
    if c in Group(DataNode, l.dataNodes) { GroupWellNamed(DataNode, l.dataNodes, c); }
    else if c in Group(HttpProxy, l.httpProxies) { GroupWellNamed(HttpProxy, l.httpProxies, c); }
    else if c in Group(RpcProxy, l.rpcProxies) { GroupWellNamed(RpcProxy, l.rpcProxies, c); }
    else if c in Group(TcpProxy, l.tcpProxies) { GroupWellNamed(TcpProxy, l.tcpProxies, c); }
    else if c in Group(ExecNode, l.execNodes) { GroupWellNamed(ExecNode, l.execNodes, c); }
    else if c in Group(TabletNode, l.tabletNodes) { GroupWellNamed(TabletNode, l.tabletNodes, c); }
  }

  /** The first two letters of a name. */
  function Initials(k: Kind, chyt: bool): (char, char) {
    match k
    case Discovery => ('D', 'i')
    case Master | MasterCache => ('M', 'a')
    case YtsaurusClient => ('Y', 't')
    case DataNode => ('D', 'a')
    case HttpProxy => ('H', 't')
    case UI => ('U', 'I')
    case RpcProxy => ('R', 'p')
    case TcpProxy => ('T', 'c')
    case ExecNode => ('E', 'x')
    case TabletNode => ('T', 'a')
    case Scheduler => ('S', 'c')
    case ControllerAgent => ('C', 'o')
    case QueryTracker | QueueAgent => ('Q', 'u')
    case YqlAgent => ('Y', 'q')
    case StrawberryController => if chyt then ('C', 'h') else ('S', 't')
  }

  lemma NameBegins(c: Component)
    requires WellNamed(c)
    ensures |c.name| >= 2 && (c.name[0], c.name[1]) == Initials(c.kind, c.name == Chyt)
  {
    var base := BaseName(c.kind);
    assert |base| >= 2 && (base[0], base[1]) == Initials(c.kind, false);
    if GroupKind(c.kind) {
      var n :| c.name == FormatWithDefault(base, n);
      assert base <= c.name;
    }
  }

  /** Components of different kinds have different names. */
  lemma KindsDoNotClash(a: Component, b: Component)
    requires WellNamed(a) && WellNamed(b) && a.kind != b.kind
    ensures a.name != b.name
  {
    NameBegins(a);
    NameBegins(b);
  }

  // ----- all names of a layout -----

  ghost predicate Unrepeated(names: seq<string>) { forall i, j :: 0 <= i < j < |names| ==> names[i] != names[j] }

  /** What admission checks about the names of groups. */
  ghost predicate GroupsUnrepeated(l: Layout) {
    && Unrepeated(l.dataNodes) && Unrepeated(l.httpProxies) && Unrepeated(l.rpcProxies)
    && Unrepeated(l.tcpProxies) && Unrepeated(l.execNodes) && Unrepeated(l.tabletNodes)
  }

  ghost predicate NamesDistinct(cs: seq<Component>) { forall i, j :: 0 <= i < j < |cs| ==> cs[i].name != cs[j].name }

  function Order(k: Kind): nat {
    match k
    case Discovery => 0
    case Master => 1
    case YtsaurusClient => 2
    case DataNode => 3
    case HttpProxy => 4
    case UI => 5
    case RpcProxy => 6
    case TcpProxy => 7
    case ExecNode => 8
    case TabletNode => 9
    case Scheduler => 10
    case ControllerAgent => 11
    case QueryTracker => 12
    case QueueAgent => 13
    case YqlAgent => 14
    case StrawberryController => 15
    case MasterCache => 16
  }

  /** Only groups hold more than one component of a kind. */
  ghost predicate SinglesOnce(cs: seq<Component>) {
    forall i, j :: 0 <= i < j < |cs| && cs[i].kind == cs[j].kind ==> GroupKind(cs[i].kind)
  }

  /** The components so far are of kinds that come before position `n` of the construction order;
      without repeated group names, `plain`, their names are distinct. */
  ghost predicate Sound(cs: seq<Component>, n: nat, plain: bool) {
    && SinglesOnce(cs)
    && (plain ==> NamesDistinct(cs))
    && forall i :: 0 <= i < |cs| ==> WellNamed(cs[i]) && Order(cs[i].kind) < n
  }

  lemma Extend(cs: seq<Component>, more: seq<Component>, k: Kind, plain: bool)
    requires Sound(cs, Order(k), plain) && SinglesOnce(more) && (plain ==> NamesDistinct(more))
    requires forall i :: 0 <= i < |more| ==> WellNamed(more[i]) && more[i].kind == k
    ensures Sound(cs + more, Order(k) + 1, plain)
  {
    var all := cs + more;
    forall i, j | 0 <= i < j < |all| && plain ensures all[i].name != all[j].name {
      if i < |cs| <= j { KindsDoNotClash(all[i], all[j]); }
    }
  }

  lemma ExtendByGroup(cs: seq<Component>, k: Kind, names: seq<string>, plain: bool)
    requires Sound(cs, Order(k), plain) && GroupKind(k) && (plain ==> Unrepeated(names))
    ensures Sound(cs + Group(k, names), Order(k) + 1, plain)
  {
    var group := Group(k, names);
    forall i | 0 <= i < |group| ensures WellNamed(group[i]) { GroupWellNamed(k, names, group[i]); }
    forall i, j | 0 <= i < j < |group| && plain ensures group[i].name != group[j].name {
      FormatIsInjective(BaseName(k), names[i], names[j]);
    }
    Extend(cs, group, k, plain);
  }

  lemma FormatIsInjective(base: string, a: string, b: string)
    requires a != b
    ensures FormatWithDefault(base, a) != FormatWithDefault(base, b)
  {
    if a != "default" && b != "default" {
      assert (base + "-" + a)[|base| + 1..] == a && (base + "-" + b)[|base| + 1..] == b;
    }
  }

  lemma ExtendBy(cs: seq<Component>, k: Kind, present: bool, plain: bool)
    requires Sound(cs, Order(k), plain) && !GroupKind(k)
    ensures Sound(cs + If(present, k), Order(k) + 1, plain)
  {
    Extend(cs, If(present, k), k, plain);
  }

  lemma FirstSound(plain: bool)
    ensures Sound([Single(Discovery), Single(Master), Single(YtsaurusClient)], Order(DataNode), plain)
  {
    var cs := [Single(Discovery), Single(Master), Single(YtsaurusClient)];
    forall i, j | 0 <= i < j < |cs| ensures cs[i].name != cs[j].name { KindsDoNotClash(cs[i], cs[j]); }
  }

  lemma StorageSound(l: Layout, cs: seq<Component>, plain: bool)
    requires (plain ==> GroupsUnrepeated(l)) && Sound(cs, Order(DataNode), plain)
    ensures Sound(cs + Group(DataNode, l.dataNodes) + Group(HttpProxy, l.httpProxies) + If(l.ui, UI), Order(RpcProxy), plain)
  {
    ExtendByGroup(cs, DataNode, l.dataNodes, plain);
    ExtendByGroup(cs + Group(DataNode, l.dataNodes), HttpProxy, l.httpProxies, plain);
    ExtendBy(cs + Group(DataNode, l.dataNodes) + Group(HttpProxy, l.httpProxies), UI, l.ui, plain);
  }

  lemma ProxiesSound(l: Layout, cs: seq<Component>, plain: bool)
    requires (plain ==> GroupsUnrepeated(l)) && Sound(cs, Order(RpcProxy), plain)
    ensures Sound(cs + Group(RpcProxy, l.rpcProxies) + Group(TcpProxy, l.tcpProxies), Order(ExecNode), plain)
  {
    ExtendByGroup(cs, RpcProxy, l.rpcProxies, plain);
    ExtendByGroup(cs + Group(RpcProxy, l.rpcProxies), TcpProxy, l.tcpProxies, plain);
  }

  lemma ExecsSound(l: Layout, cs: seq<Component>, plain: bool)
    requires (plain ==> GroupsUnrepeated(l)) && Sound(cs, Order(ExecNode), plain)
    ensures Sound(cs + Group(ExecNode, l.execNodes), Order(TabletNode), plain)
  {
    ExtendByGroup(cs, ExecNode, l.execNodes, plain);
  }

  lemma TabletsSound(l: Layout, cs: seq<Component>, plain: bool)
    requires (plain ==> GroupsUnrepeated(l)) && Sound(cs, Order(TabletNode), plain)
    ensures Sound(cs + Group(TabletNode, l.tabletNodes), Order(Scheduler), plain)
  {
    ExtendByGroup(cs, TabletNode, l.tabletNodes, plain);
  }

  lemma FoundationSound(l: Layout, plain: bool)
    requires plain ==> GroupsUnrepeated(l)
    ensures Sound(Foundation(l), Order(Scheduler), plain)
  {
    FirstSound(plain);
    var first := [Single(Discovery), Single(Master), Single(YtsaurusClient)];
    StorageSound(l, first, plain);
    var storage := first + Group(DataNode, l.dataNodes) + Group(HttpProxy, l.httpProxies) + If(l.ui, UI);
    ProxiesSound(l, storage, plain);
    var proxies := storage + Group(RpcProxy, l.rpcProxies) + Group(TcpProxy, l.tcpProxies);
    ExecsSound(l, proxies, plain);
    TabletsSound(l, proxies + Group(ExecNode, l.execNodes), plain);
  }

  lemma SchedulingSound(l: Layout, cs: seq<Component>, plain: bool)
    requires Sound(cs, Order(Scheduler), plain)
    ensures Sound(cs + If(l.schedulers, Scheduler) + If(l.controllerAgents, ControllerAgent) + If(HasQueryTracker(l), QueryTracker),
                  Order(QueueAgent), plain)
  {
    ExtendBy(cs, Scheduler, l.schedulers, plain);
    ExtendBy(cs + If(l.schedulers, Scheduler), ControllerAgent, l.controllerAgents, plain);
    ExtendBy(cs + If(l.schedulers, Scheduler) + If(l.controllerAgents, ControllerAgent), QueryTracker, HasQueryTracker(l), plain);
  }

  lemma ExtendByStrawberry(l: Layout, cs: seq<Component>, plain: bool)
    requires Sound(cs, Order(StrawberryController), plain)
    ensures Sound(cs + StrawberryIf(l), Order(MasterCache), plain)
  {
    Extend(cs, StrawberryIf(l), StrawberryController, plain);
  }

  lemma Regroup(cs: seq<Component>, a: seq<Component>, b: seq<Component>, c: seq<Component>, d: seq<Component>)
    ensures cs + (a + b + c + d) == cs + a + b + c + d
  {}

  lemma AgentsSound(l: Layout, cs: seq<Component>, plain: bool)
    requires Sound(cs, Order(QueueAgent), plain)
    ensures Sound(cs + Agents(l), Order(MasterCache) + 1, plain)
  {
    ExtendBy(cs, QueueAgent, HasQueueAgent(l), plain);
    ExtendBy(cs + If(HasQueueAgent(l), QueueAgent), YqlAgent, l.yqlAgents, plain);
    ExtendByStrawberry(l, cs + If(HasQueueAgent(l), QueueAgent) + If(l.yqlAgents, YqlAgent), plain);
    ExtendBy(cs + If(HasQueueAgent(l), QueueAgent) + If(l.yqlAgents, YqlAgent) + StrawberryIf(l), MasterCache, l.masterCaches, plain);
    Regroup(cs, If(HasQueueAgent(l), QueueAgent), If(l.yqlAgents, YqlAgent), StrawberryIf(l), If(l.masterCaches, MasterCache));
  }

  lemma LayoutSound(l: Layout, plain: bool)
    requires plain ==> GroupsUnrepeated(l)
    ensures Sound(AllComponents(l), Order(MasterCache) + 1, plain)
  {
    FoundationSound(l, plain);
    SchedulingSound(l, Foundation(l), plain);
    AgentsSound(l, Foundation(l) + If(l.schedulers, Scheduler) + If(l.controllerAgents, ControllerAgent) + If(HasQueryTracker(l), QueryTracker), plain);
  }

  /** All components of a layout without repeated group names have pairwise distinct names. */
  lemma NamesAreDistinct(l: Layout)
    requires GroupsUnrepeated(l)
    ensures NamesDistinct(AllComponents(l))
  {
    LayoutSound(l, true);
  }

  /** A repeated group name would make two components indistinguishable by name. */
  lemma RepeatedGroupNamesClash(k: Kind, names: seq<string>, i: nat, j: nat)
    requires i < j < |names| && names[i] == names[j]
    ensures !NamesDistinct(Group(k, names))
  {
    assert Group(k, names)[i].name == Group(k, names)[j].name;
  }
}
