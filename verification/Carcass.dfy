/** The parts of the config generators that can fail, and that they never do for a spec the
    admission webhook accepts. */
module Carcass {
  import opened ClusterStatus
  import opened Components
  import opened Names
  import opened Admission

  // ----- searching -----

  function OfKind(locations: seq<Location>, kind: LocationType): seq<Location> {
    if locations == [] then []
    else
      var front, last := OfKind(locations[..|locations| - 1], kind), locations[|locations| - 1];
      if last.kind == kind then front + [last] else front
  }

  method FindAllLocations(locations: seq<Location>, kind: LocationType) returns (found: seq<Location>)
    ensures found == OfKind(locations, kind)
  {
    found := [];
    for i := 0 to |locations|
      invariant found == OfKind(locations[..i], kind)
    {
      assert locations[..i + 1][..i] == locations[..i];
      if locations[i].kind == kind { found := found + [locations[i]]; }
    }
    assert locations[..|locations|] == locations;
  }

  lemma {:induction false} OfKindMembers(locations: seq<Location>, kind: LocationType)
    ensures forall l :: l in OfKind(locations, kind) <==> l in locations && l.kind == kind
  {
    if locations != [] {
      var n := |locations| - 1;
      OfKindMembers(locations[..n], kind);
      assert forall l :: l in locations <==> l in locations[..n] || l == locations[n];
    }
  }

  lemma {:induction false} NoneOfKind(locations: seq<Location>, kind: LocationType)
    requires forall k :: 0 <= k < |locations| ==> locations[k].kind != kind
    ensures OfKind(locations, kind) == []
  {
    if locations != [] { NoneOfKind(locations[..|locations| - 1], kind); }
  }

  lemma {:induction false} OfKindFirst(locations: seq<Location>, kind: LocationType, l: nat)
    requires l < |locations| && IsFirst(locations, kind, l)
    ensures OfKind(locations, kind) != [] && OfKind(locations, kind)[0] == locations[l]
    decreases |locations|
  {
    var n := |locations| - 1;
    var front := locations[..n];
    if l < n {
      assert IsFirst(front, kind, l);
      OfKindFirst(front, kind, l);
    } else {
      assert forall k :: 0 <= k < n ==> front[k].kind != kind;
      NoneOfKind(front, kind);
    }
  }

  lemma FirstExists(locations: seq<Location>, kind: LocationType) returns (l: nat)
    requires HasLocation(locations, kind)
    ensures l < |locations| && IsFirst(locations, kind, l)
  {
    l := 0;
    while locations[l].kind != kind
      invariant l < |locations| && forall k :: 0 <= k < l ==> locations[k].kind != kind
      decreases |locations| - l
    {
      l := l + 1;
    }
  }

  /** All locations of the kind and no others; none exactly when there is none. */
  lemma OfKindMeans(locations: seq<Location>, kind: LocationType)
    ensures forall l :: l in OfKind(locations, kind) <==> l in locations && l.kind == kind
    ensures OfKind(locations, kind) == [] <==> !HasLocation(locations, kind)
  {
    OfKindMembers(locations, kind);
    if OfKind(locations, kind) != [] {
      assert OfKind(locations, kind)[0] in OfKind(locations, kind);
    }
    if HasLocation(locations, kind) {
      var l := FirstExists(locations, kind);
      OfKindFirst(locations, kind, l);
    }
  }

  function FirstMount(i: InstanceSpec, path: string, from: nat): Option<Mount>
    requires from <= |i.mounts|
    decreases |i.mounts| - from
  {
    if from == |i.mounts| then None
    else if i.mounts[from].path <= path then Some(i.mounts[from])
    else FirstMount(i, path, from + 1)
  }

  method FindVolumeMountForPath(path: string, i: InstanceSpec) returns (mount: Option<Mount>)
    ensures mount == FirstMount(i, path, 0)
  {
    for m := 0 to |i.mounts|
      invariant FirstMount(i, path, 0) == FirstMount(i, path, m)
    {
      if i.mounts[m].path <= path { return Some(i.mounts[m]); }
    }
    return None;
  }

  lemma {:induction false} MountedMeans(i: InstanceSpec, l: Location, from: nat)
    requires from <= |i.mounts|
    ensures FirstMount(i, l.path, from).Some? <==> exists m :: from <= m < |i.mounts| && i.mounts[m].path <= l.path
    decreases |i.mounts| - from
  {
    if from < |i.mounts| { MountedMeans(i, l, from + 1); }
  }

  // ----- the carcasses -----

  /** A generated config, or the generator's error. */
  datatype Config<T> = Built(value: T) | NoConfig

  datatype MasterPaths = MasterPaths(changelogs: string, snapshots: string)

  function MasterConfig(i: InstanceSpec): Config<MasterPaths> {
    var changelogs, snapshots := OfKind(i.locations, MasterChangelogs), OfKind(i.locations, MasterSnapshots);
    if changelogs == [] || snapshots == [] then NoConfig else Built(MasterPaths(changelogs[0].path, snapshots[0].path))
  }

  /** getMasterServerCarcass, as far as it can fail. */
  method MasterServerCarcass(i: InstanceSpec) returns (c: Config<MasterPaths>)
    ensures c == MasterConfig(i)
  {
    OfKindMeans(i.locations, MasterChangelogs);
    OfKindMeans(i.locations, MasterSnapshots);
    var changelogs := FindFirstLocation(i.locations, MasterChangelogs);
    if changelogs.None? { return NoConfig; }
    var snapshots := FindFirstLocation(i.locations, MasterSnapshots);
    if snapshots.None? { return NoConfig; }
    FirstIsUnique(i.locations, MasterChangelogs, changelogs.value);
    FirstIsUnique(i.locations, MasterSnapshots, snapshots.value);
    return Built(MasterPaths(changelogs.value.path, snapshots.value.path));
  }

  lemma FirstIsUnique(locations: seq<Location>, kind: LocationType, found: Location)
    requires exists l :: 0 <= l < |locations| && IsFirst(locations, kind, l) && locations[l] == found
    ensures OfKind(locations, kind) != [] && OfKind(locations, kind)[0] == found
  {
    var l :| 0 <= l < |locations| && IsFirst(locations, kind, l) && locations[l] == found;
    OfKindFirst(locations, kind, l);
  }

  datatype Storage = Storage(path: string, medium: string, quota: Option<int>)

  function SizeOfClaim(claims: seq<(string, int)>, volume: string): Option<int> {
    if claims == [] then None else if claims[0].0 == volume then Some(claims[0].1) else SizeOfClaim(claims[1..], volume)
  }

  function SizeOfVolume(volumes: seq<(string, Option<int>)>, volume: string): Option<int> {
    if volumes == [] then None else if volumes[0].0 == volume then volumes[0].1 else SizeOfVolume(volumes[1..], volume)
  }

  /** findQuotaForLocation: its own quota, else the size of the claim or volume it is mounted from. */
  function QuotaOf(l: Location, i: InstanceSpec): Option<int> {
    if l.quota.Some? then l.quota
    else
      match FirstMount(i, l.path, 0)
      case None => None
      case Some(m) =>
        match SizeOfClaim(i.claims, m.volume)
        case Some(size) => if size != 0 then Some(size) else None
        case None => SizeOfVolume(i.volumes, m.volume)
  }

  function Storages(ls: seq<Location>, i: InstanceSpec): (r: seq<Storage>)
    ensures |r| == |ls|
    ensures forall k :: 0 <= k < |r| ==> r[k] == Storage(ls[k].path, ls[k].medium, QuotaOf(ls[k], i))
  {
    seq(|ls|, k requires 0 <= k < |ls| => Storage(ls[k].path, ls[k].medium, QuotaOf(ls[k], i)))
  }

  function DataNodeConfig(i: InstanceSpec): Config<seq<Storage>> {
    var stores := Storages(OfKind(i.locations, ChunkStore), i);
    if stores == [] then NoConfig else Built(stores)
  }

  /** The location loop shared by the data and exec node carcasses. */
  method CollectStorages(i: InstanceSpec, kind: LocationType) returns (r: seq<Storage>)
    ensures r == Storages(OfKind(i.locations, kind), i)
  {
    var ls := FindAllLocations(i.locations, kind);
    r := [];
    for k := 0 to |ls|
      invariant r == Storages(ls[..k], i)
    {
      r := r + [Storage(ls[k].path, ls[k].medium, QuotaOf(ls[k], i))];
    }
    assert ls[..|ls|] == ls;
  }

  method DataNodeServerCarcass(i: InstanceSpec) returns (c: Config<seq<Storage>>)
    ensures c == DataNodeConfig(i)
  {
    var stores := CollectStorages(i, ChunkStore);
    if |stores| == 0 { return NoConfig; }
    return Built(stores);
  }

  datatype ExecStorage = ExecStorage(caches: seq<string>, slots: seq<Storage>)

  function Paths(ls: seq<Location>): (r: seq<string>)
    ensures |r| == |ls| && forall k :: 0 <= k < |r| ==> r[k] == ls[k].path
  {
    seq(|ls|, k requires 0 <= k < |ls| => ls[k].path)
  }

  function ExecNodeConfig(i: InstanceSpec): Config<ExecStorage> {
    var caches, slots := Paths(OfKind(i.locations, ChunkCache)), Storages(OfKind(i.locations, Slots), i);
    if caches == [] || slots == [] then NoConfig else Built(ExecStorage(caches, slots))
  }

  method ExecNodeServerCarcass(i: InstanceSpec) returns (c: Config<ExecStorage>)
    ensures c == ExecNodeConfig(i)
  {
    var ls := FindAllLocations(i.locations, ChunkCache);
    var caches := [];
    for k := 0 to |ls|
      invariant caches == Paths(ls[..k])
    {
      caches := caches + [ls[k].path];
    }
    assert ls[..|ls|] == ls;
    if |caches| == 0 { return NoConfig; }
    var slots := CollectStorages(i, Slots);
    if |slots| == 0 { return NoConfig; }
    return Built(ExecStorage(caches, slots));
  }

  // ----- master addresses -----

  function Decimal(n: nat): string {
    if n < 10 then ["0123456789"[n]] else Decimal(n / 10) + ["0123456789"[n % 10]]
  }

  const MasterRpcPort := ":9010"

  function PodHost(setName: string, domain: string, i: nat): string { setName + "-" + Decimal(i) + "." + domain }

  function Hosts(m: Masters, setName: string, domain: string): seq<string> {
    if m.hostAddresses != [] then m.hostAddresses
    else seq(if m.instance.count < 0 then 0 else m.instance.count, i requires i >= 0 => PodHost(setName, domain, i))
  }

  /** Go panics when asked to reserve room for a negative number of pod names: no config. */
  function AddressList(m: Masters, setName: string, domain: string): Config<seq<string>> {
    var hosts := Hosts(m, setName, domain);
    if m.hostAddresses == [] && m.instance.count < 0 then NoConfig
    else Built(seq(|hosts|, k requires 0 <= k < |hosts| => hosts[k] + MasterRpcPort))
  }

  /** getMasterAddresses with the pod names it falls back to. */
  method MasterAddresses(m: Masters, setName: string, domain: string) returns (c: Config<seq<string>>)
    ensures c == AddressList(m, setName, domain)
  {
    ghost var wanted := Hosts(m, setName, domain);
    var hosts := m.hostAddresses;
    if |hosts| == 0 {
      if m.instance.count < 0 { return NoConfig; }
      for i := 0 to m.instance.count
        invariant |hosts| == i && forall k :: 0 <= k < i ==> hosts[k] == PodHost(setName, domain, k)
      {
        hosts := hosts + [PodHost(setName, domain, i)];
      }
    }
    assert hosts == wanted;
    var addresses := new string[|hosts|](_ => "");
    for k := 0 to |hosts|
      invariant forall j :: 0 <= j < k ==> addresses[j] == hosts[j] + MasterRpcPort
    {
      addresses[k] := hosts[k] + MasterRpcPort;
    }
    assert addresses[..] == AddressList(m, setName, domain).value;
    return Built(addresses[..]);
  }

  // ----- soundness of admission -----

  /** The components a spec asks for. */
  function LayoutOf(s: ClusterSpec): Layout {
    Layout(Roles(s.httpProxies), GroupNames(s.dataNodes), Roles(s.rpcProxies), Roles(s.tcpProxies), ExecNames(s.execNodes),
      GroupNames(s.tabletNodes), s.secureUi.Some?, s.schedulers.Some?, s.controllerAgents.Some?, s.queryTrackers.Some?,
      s.queueAgents.Some?, s.yqlAgents.Some?, s.strawberry, s.chyt, s.masterCaches)
  }

  ghost predicate AllMounted(i: InstanceSpec) {
    forall k :: 0 <= k < |i.locations| ==> FirstMount(i, i.locations[k].path, 0).Some?
  }

  lemma OkIsMounted(i: InstanceSpec)
    requires InstanceOk(i)
    ensures AllMounted(i)
  {
    forall k | 0 <= k < |i.locations| ensures FirstMount(i, i.locations[k].path, 0).Some? {
      assert Mounted(i, i.locations[k]);
      MountedMeans(i, i.locations[k], 0);
    }
  }

  /** As many addresses as masters; no list at all only for a negative number. */
  predicate MastersListed(m: Masters, c: Config<seq<string>>) {
    (c.Built? <==> m.instance.count >= 0) && (c.Built? ==> |c.value| == m.instance.count)
  }

  /** Masters: a config, and one address for each requested instance unless their number is negative. */
  lemma MastersAreConfigured(s: ClusterSpec, previous: Option<ClusterSpec>)
    requires MastersOk(s, previous)
    ensures MasterConfig(s.primaryMasters.instance).Built? && AllMounted(s.primaryMasters.instance)
    ensures forall setName, domain :: MastersListed(s.primaryMasters, AddressList(s.primaryMasters, setName, domain))
  {
    var i := s.primaryMasters.instance;
    OfKindMeans(i.locations, MasterChangelogs);
    OfKindMeans(i.locations, MasterSnapshots);
    OkIsMounted(i);
  }

  lemma NodesAreConfigured(s: ClusterSpec)
    requires GroupsOk(s.dataNodes, {ChunkStore}) && ExecGroupsOk(s)
    ensures forall k :: 0 <= k < |s.dataNodes| ==> DataNodeConfig(s.dataNodes[k].instance).Built? && AllMounted(s.dataNodes[k].instance)
    ensures forall k :: 0 <= k < |s.execNodes| ==> ExecNodeConfig(s.execNodes[k].instance).Built? && AllMounted(s.execNodes[k].instance)
  {
    forall k | 0 <= k < |s.dataNodes|
      ensures DataNodeConfig(s.dataNodes[k].instance).Built? && AllMounted(s.dataNodes[k].instance)
    {
      assert GroupOk(s.dataNodes[k], {ChunkStore});
      OfKindMeans(s.dataNodes[k].instance.locations, ChunkStore);
      OkIsMounted(s.dataNodes[k].instance);
    }
    forall k | 0 <= k < |s.execNodes|
      ensures ExecNodeConfig(s.execNodes[k].instance).Built? && AllMounted(s.execNodes[k].instance)
    {
      assert ExecGroupOk(s.execNodes[k]);
      OfKindMeans(s.execNodes[k].instance.locations, ChunkCache);
      OfKindMeans(s.execNodes[k].instance.locations, Slots);
      OkIsMounted(s.execNodes[k].instance);
    }
  }

  /** Every location of every validated instance spec has a mount. */
  ghost predicate EverythingMounted(s: ClusterSpec) {
    && AllMounted(s.discovery) && AllMounted(s.primaryMasters.instance)
    && (forall k :: 0 <= k < |s.secondaryMasters| ==> AllMounted(s.secondaryMasters[k].instance))
    && ProxiesMounted(s.httpProxies) && ProxiesMounted(s.rpcProxies) && ProxiesMounted(s.tcpProxies)
    && (forall k :: 0 <= k < |s.dataNodes| ==> AllMounted(s.dataNodes[k].instance))
    && (forall k :: 0 <= k < |s.execNodes| ==> AllMounted(s.execNodes[k].instance))
    && (forall k :: 0 <= k < |s.tabletNodes| ==> AllMounted(s.tabletNodes[k].instance))
    && OptionalMounted(s.schedulers) && OptionalMounted(s.controllerAgents) && OptionalMounted(s.queryTrackers)
    && OptionalMounted(s.queueAgents) && OptionalMounted(s.yqlAgents)
  }

  ghost predicate ProxiesMounted(ps: seq<Proxy>) { forall k :: 0 <= k < |ps| ==> AllMounted(ps[k].instance) }
  ghost predicate OptionalMounted(i: Option<InstanceSpec>) { i.Some? ==> AllMounted(i.value) }

  lemma AcceptedIsMounted(s: ClusterSpec, previous: Option<ClusterSpec>, name: string, listed: Option<seq<string>>)
    requires Acceptable(s, previous, name, listed)
    ensures EverythingMounted(s)
  {
    forall i | InstanceOk(i) ensures AllMounted(i) { OkIsMounted(i); }
    assert forall k :: 0 <= k < |s.dataNodes| ==> GroupOk(s.dataNodes[k], {ChunkStore});
    assert forall k :: 0 <= k < |s.execNodes| ==> ExecGroupOk(s.execNodes[k]);
    assert forall k :: 0 <= k < |s.tabletNodes| ==> GroupOk(s.tabletNodes[k], {});
  }

  /** Every accepted spec has an HTTP proxy to ask, configs that can be built, a mount for every
      location, distinct component names, and every service it asks for among its components. */
  lemma AdmissionIsSound(s: ClusterSpec, previous: Option<ClusterSpec>, name: string, listed: Option<seq<string>>)
    requires Acceptable(s, previous, name, listed)
    ensures |LayoutOf(s).httpProxies| > 0
    ensures MasterConfig(s.primaryMasters.instance).Built?
    ensures forall k :: 0 <= k < |s.dataNodes| ==> DataNodeConfig(s.dataNodes[k].instance).Built?
    ensures forall k :: 0 <= k < |s.execNodes| ==> ExecNodeConfig(s.execNodes[k].instance).Built?
    ensures EverythingMounted(s)
    ensures forall setName, domain :: MastersListed(s.primaryMasters, AddressList(s.primaryMasters, setName, domain))
    ensures NamesDistinct(AllComponents(LayoutOf(s)))
    ensures var l := LayoutOf(s);
      (l.queryTrackers ==> HasQueryTracker(l)) && (l.queueAgents ==> HasQueueAgent(l)) && (l.strawberry ==> HasStrawberry(l))
  {
    MastersAreConfigured(s, previous);
    NodesAreConfigured(s);
    AcceptedIsMounted(s, previous, name, listed);
    NamesAreDistinct(LayoutOf(s));
  }

  /** A negative number of masters passes admission. */
  lemma NegativeMastersAreAccepted()
    ensures exists s, previous, name, listed ::
      Acceptable(s, previous, name, listed) && s.primaryMasters.hostAddresses == [] && s.primaryMasters.instance.count < 0
  {
    var empty := InstanceSpec(false, 1, [], [], [], []);
    var locations := [Location(MasterChangelogs, "/a", "", None), Location(MasterSnapshots, "/a", "", None)];
    var master := Masters(InstanceSpec(false, -1, locations, [Mount("v", "/a")], [], []), 1, None, [], false);
    var s := ClusterSpec(false, false, empty, master, [], [Proxy(DefaultRole, empty, false)], [], [], [], [], [],
                         None, None, None, None, None, false, false, None, false, false);
    assert locations[0].kind == MasterChangelogs && locations[1].kind == MasterSnapshots;
    assert master.instance.mounts[0].path <= locations[0].path && master.instance.mounts[0].path <= locations[1].path;
    assert Roles(s.httpProxies)[0] == DefaultRole;
    assert Acceptable(s, None, "c", Some([]));
  }
}
