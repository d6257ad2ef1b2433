/** The admission webhook: every section of a cluster spec is validated in turn, and the spec is
    accepted when no validator adds an error. */
module Admission {
  import opened ClusterStatus
  import opened Names

  datatype LocationType = ChunkStore | ChunkCache | Slots | MasterChangelogs | MasterSnapshots | ImageCache | OtherLocation

  datatype Location = Location(kind: LocationType, path: string, medium: string, quota: Option<int>)
  datatype Mount = Mount(volume: string, path: string)

  /** `claims` and `volumes` give the sizes of volume claim templates and of empty-dir volumes. */
  datatype InstanceSpec = InstanceSpec(
    antiAffinityFlag: bool,
    count: int,
    locations: seq<Location>,
    mounts: seq<Mount>,
    claims: seq<(string, int)>,
    volumes: seq<(string, Option<int>)>)

  datatype NodeGroup = NodeGroup(name: string, instance: InstanceSpec)
  datatype Proxy = Proxy(role: string, instance: InstanceSpec, https: bool)
  datatype Sidecar = Sidecar(parses: bool, name: string)
  datatype ExecGroup = ExecGroup(name: string, instance: InstanceSpec, initContainers: seq<Sidecar>, sidecars: seq<Sidecar>)

  datatype Masters = Masters(
    instance: InstanceSpec,
    cellTag: int,
    hostNetwork: Option<bool>,
    hostAddresses: seq<string>,
    podAntiAffinity: bool)

  datatype ClusterSpec = ClusterSpec(
    hostNetwork: bool,
    ephemeral: bool,
    discovery: InstanceSpec,
    primaryMasters: Masters,
    secondaryMasters: seq<Masters>,
    httpProxies: seq<Proxy>,
    rpcProxies: seq<Proxy>,
    tcpProxies: seq<Proxy>,
    dataNodes: seq<NodeGroup>,
    execNodes: seq<ExecGroup>,
    tabletNodes: seq<NodeGroup>,
    schedulers: Option<InstanceSpec>,
    controllerAgents: Option<InstanceSpec>,
    queryTrackers: Option<InstanceSpec>,
    queueAgents: Option<InstanceSpec>,
    yqlAgents: Option<InstanceSpec>,
    strawberry: bool,
    chyt: bool,
    secureUi: Option<bool>,
    spyt: bool,
    masterCaches: bool)

  const DefaultRole := "default"

  datatype Reason = Deprecated | NotMounted | Missing | Changed | Repeated | Unparsable | Conflict | Unlisted

  /** Where the error is, and what it is. */
  datatype Error = Error(section: string, reason: Reason)

  // ----- one instance spec -----

  predicate Mounted(i: InstanceSpec, l: Location) {
    exists m :: 0 <= m < |i.mounts| && i.mounts[m].path <= l.path
  }

  predicate InstanceOk(i: InstanceSpec) {
    !i.antiAffinityFlag && forall l :: 0 <= l < |i.locations| ==> Mounted(i, i.locations[l])
  }

  method ValidateInstanceSpec(i: InstanceSpec, section: string) returns (errors: seq<Error>)
    ensures errors == [] <==> InstanceOk(i)
  {
    errors := [];
    if i.antiAffinityFlag { errors := errors + [Error(section, Deprecated)]; }
    for l := 0 to |i.locations|
      invariant errors == [] <==> !i.antiAffinityFlag && forall k :: 0 <= k < l ==> Mounted(i, i.locations[k])
    {
      var mounted := false;
      for m := 0 to |i.mounts|
        invariant !mounted && forall k :: 0 <= k < m ==> !(i.mounts[k].path <= i.locations[l].path)
      {
        if i.mounts[m].path <= i.locations[l].path {
          mounted := true;
          break;
        }
      }
      if !mounted { errors := errors + [Error(section, NotMounted)]; }
    }
  }

  // ----- locations -----

  predicate HasLocation(locations: seq<Location>, kind: LocationType) {
    exists l :: 0 <= l < |locations| && locations[l].kind == kind
  }

  /** FindFirstLocation: the first location of the kind, if there is one. */
  method FindFirstLocation(locations: seq<Location>, kind: LocationType) returns (found: Option<Location>)
    ensures found.Some? <==> HasLocation(locations, kind)
    ensures found.Some? ==> exists l :: 0 <= l < |locations| && IsFirst(locations, kind, l) && locations[l] == found.value
  {
    for l := 0 to |locations|
      invariant forall k :: 0 <= k < l ==> locations[k].kind != kind
    {
      if locations[l].kind == kind {
        assert IsFirst(locations, kind, l);
        return Some(locations[l]);
      }
    }
    return None;
  }

  predicate IsFirst(locations: seq<Location>, kind: LocationType, l: nat)
    requires l < |locations|
  {
    locations[l].kind == kind && forall k :: 0 <= k < l ==> locations[k].kind != kind
  }

  // ----- sections with named members -----

  function Roles(ps: seq<Proxy>): (names: seq<string>)
    ensures |names| == |ps| && forall i :: 0 <= i < |ps| ==> names[i] == ps[i].role
  {
    seq(|ps|, i requires 0 <= i < |ps| => ps[i].role)
  }

  function GroupNames(gs: seq<NodeGroup>): (names: seq<string>)
    ensures |names| == |gs| && forall i :: 0 <= i < |gs| ==> names[i] == gs[i].name
  {
    seq(|gs|, i requires 0 <= i < |gs| => gs[i].name)
  }

  function ExecNames(gs: seq<ExecGroup>): (names: seq<string>)
    ensures |names| == |gs| && forall i :: 0 <= i < |gs| ==> names[i] == gs[i].name
  {
    seq(|gs|, i requires 0 <= i < |gs| => gs[i].name)
  }

  ghost predicate ProxiesOk(ps: seq<Proxy>) {
    Unrepeated(Roles(ps)) && forall i :: 0 <= i < |ps| ==> InstanceOk(ps[i].instance)
  }

  lemma UnrepeatedGrows(names: seq<string>, i: nat)
    requires i < |names|
    ensures Unrepeated(names[..i + 1]) <==> Unrepeated(names[..i]) && names[i] !in names[..i]
  {
    var a, b := names[..i], names[..i + 1];
    if names[i] in a {
      var k :| 0 <= k < i && a[k] == names[i];
      assert b[k] == b[i];
    }
  }

  /** The loop shared by the three proxy validators; reports also whether the default role is there. */
  method ValidateProxies(ps: seq<Proxy>, section: string) returns (errors: seq<Error>, hasDefault: bool)
    ensures errors == [] <==> ProxiesOk(ps)
    ensures hasDefault <==> DefaultRole in Roles(ps)
  {
    ghost var names := Roles(ps);
    errors, hasDefault := [], false;
    var seen: set<string> := {};
    for i := 0 to |ps|
      invariant forall r :: r in seen <==> r in names[..i]
      invariant hasDefault <==> DefaultRole in names[..i]
      invariant errors == [] <==> Unrepeated(names[..i]) && forall k :: 0 <= k < i ==> InstanceOk(ps[k].instance)
    {
      UnrepeatedGrows(names, i);
      if ps[i].role in seen { errors := errors + [Error(section, Repeated)]; }
      if ps[i].role == DefaultRole { hasDefault := true; }
      seen := seen + {ps[i].role};
      var more := ValidateInstanceSpec(ps[i].instance, section);
      errors := errors + more;
    }
    assert names[..|ps|] == names;
  }

  method ValidateHttpProxies(spec: ClusterSpec) returns (errors: seq<Error>)
    ensures errors == [] <==> ProxiesOk(spec.httpProxies) && DefaultRole in Roles(spec.httpProxies)
  {
    var hasDefault: bool;
    errors, hasDefault := ValidateProxies(spec.httpProxies, "httpProxies");
    if !hasDefault { errors := errors + [Error("httpProxies", Missing)]; }
  }

  /** Data nodes need a chunk store, tablet nodes nothing but a name of their own. */
  ghost predicate GroupsOk(gs: seq<NodeGroup>, needed: set<LocationType>) {
    && Unrepeated(GroupNames(gs))
    && forall i :: 0 <= i < |gs| ==> GroupOk(gs[i], needed)
  }

  predicate GroupOk(g: NodeGroup, needed: set<LocationType>) {
    InstanceOk(g.instance) && forall kind :: kind in needed ==> HasLocation(g.instance.locations, kind)
  }

  method ValidateDataNodes(spec: ClusterSpec) returns (errors: seq<Error>)
    ensures errors == [] <==> GroupsOk(spec.dataNodes, {ChunkStore})
  {
    var gs := spec.dataNodes;
    ghost var names := GroupNames(gs);
    errors := [];
    var seen: set<string> := {};
    for i := 0 to |gs|
      invariant forall r :: r in seen <==> r in names[..i]
      invariant errors == [] <==> Unrepeated(names[..i]) && forall k :: 0 <= k < i ==> GroupOk(gs[k], {ChunkStore})
    {
      UnrepeatedGrows(names, i);
      if gs[i].name in seen { errors := errors + [Error("dataNodes", Repeated)]; }
      seen := seen + {gs[i].name};
      var more := ValidateInstanceSpec(gs[i].instance, "dataNodes");
      errors := errors + more;
      var store := FindFirstLocation(gs[i].instance.locations, ChunkStore);
      if store.None? { errors := errors + [Error("dataNodes", Missing)]; }
    }
    assert names[..|gs|] == names;
  }

  method ValidateTabletNodes(spec: ClusterSpec) returns (errors: seq<Error>)
    ensures errors == [] <==> GroupsOk(spec.tabletNodes, {})
  {
    var gs := spec.tabletNodes;
    ghost var names := GroupNames(gs);
    errors := [];
    var seen: set<string> := {};
    for i := 0 to |gs|
      invariant forall r :: r in seen <==> r in names[..i]
      invariant errors == [] <==> Unrepeated(names[..i]) && forall k :: 0 <= k < i ==> GroupOk(gs[k], {})
    {
      UnrepeatedGrows(names, i);
      if gs[i].name in seen { errors := errors + [Error("tabletNodes", Repeated)]; }
      seen := seen + {gs[i].name};
      var more := ValidateInstanceSpec(gs[i].instance, "tabletNodes");
      errors := errors + more;
    }
    assert names[..|gs|] == names;
  }

  function SidecarNames(cs: seq<Sidecar>): (names: seq<string>)
    ensures |names| == |cs| && forall i :: 0 <= i < |cs| ==> names[i] == cs[i].name
  {
    seq(|cs|, i requires 0 <= i < |cs| => cs[i].name)
  }

  ghost predicate SidecarsOk(cs: seq<Sidecar>) {
    Unrepeated(SidecarNames(cs)) && forall i :: 0 <= i < |cs| ==> cs[i].parses
  }

  method ValidateSidecars(cs: seq<Sidecar>, section: string) returns (errors: seq<Error>)
    ensures errors == [] <==> SidecarsOk(cs)
  {
    ghost var names := SidecarNames(cs);
    errors := [];
    var seen: set<string> := {};
    for i := 0 to |cs|
      invariant forall r :: r in seen <==> r in names[..i]
      invariant errors == [] <==> Unrepeated(names[..i]) && forall k :: 0 <= k < i ==> cs[k].parses
    {
      UnrepeatedGrows(names, i);
      if !cs[i].parses { errors := errors + [Error(section, Unparsable)]; }
      if cs[i].name in seen { errors := errors + [Error(section, Repeated)]; }
      seen := seen + {cs[i].name};
    }
    assert names[..|cs|] == names;
  }

  ghost predicate ExecGroupOk(g: ExecGroup) {
    && InstanceOk(g.instance) && HasLocation(g.instance.locations, ChunkCache) && HasLocation(g.instance.locations, Slots)
    && SidecarsOk(g.initContainers) && SidecarsOk(g.sidecars)
  }

  ghost predicate ExecGroupsOk(spec: ClusterSpec) {
    && Unrepeated(ExecNames(spec.execNodes))
    && (forall i :: 0 <= i < |spec.execNodes| ==> ExecGroupOk(spec.execNodes[i]))
    && (|spec.execNodes| > 0 ==> spec.schedulers.Some?)
  }

  method ValidateExecGroup(g: ExecGroup) returns (errors: seq<Error>)
    ensures errors == [] <==> ExecGroupOk(g)
  {
    errors := ValidateInstanceSpec(g.instance, "execNodes");
    var cache := FindFirstLocation(g.instance.locations, ChunkCache);
    if cache.None? { errors := errors + [Error("execNodes", Missing)]; }
    var slots := FindFirstLocation(g.instance.locations, Slots);
    if slots.None? { errors := errors + [Error("execNodes", Missing)]; }
    var more := ValidateSidecars(g.initContainers, "initContainers");
    errors := errors + more;
    more := ValidateSidecars(g.sidecars, "sidecars");
    errors := errors + more;
  }

  ghost predicate ExecOkUpTo(gs: seq<ExecGroup>, n: nat)
    requires n <= |gs|
  {
    forall k :: 0 <= k < n ==> ExecGroupOk(gs[k])
  }

  method ValidateExecNodes(spec: ClusterSpec) returns (errors: seq<Error>)
    ensures errors == [] <==> ExecGroupsOk(spec)
  {
    var gs := spec.execNodes;
    ghost var names := ExecNames(gs);
    errors := [];
    var seen: set<string> := {};
    for i := 0 to |gs|
      invariant forall r :: r in seen <==> r in names[..i]
      invariant errors == [] <==> Unrepeated(names[..i]) && ExecOkUpTo(gs, i)
    {
      UnrepeatedGrows(names, i);
      if gs[i].name in seen { errors := errors + [Error("execNodes", Repeated)]; }
      seen := seen + {gs[i].name};
      var more := ValidateExecGroup(gs[i]);
      errors := errors + more;
    }
    assert names[..|gs|] == names;
    if |gs| > 0 && spec.schedulers.None? { errors := errors + [Error("schedulers", Missing)]; }
  }

  // ----- masters -----

  predicate HostAddressesOk(spec: ClusterSpec) {
    var m := spec.primaryMasters;
    var hostNetwork := if m.hostNetwork.Some? then m.hostNetwork.value else spec.hostNetwork;
    m.hostAddresses != [] ==> hostNetwork && |m.hostAddresses| == m.instance.count
  }

  method ValidateHostAddresses(spec: ClusterSpec, section: string) returns (errors: seq<Error>)
    ensures errors == [] <==> HostAddressesOk(spec)
  {
    var m := spec.primaryMasters;
    errors := [];
    var hostNetwork := if m.hostNetwork.Some? then m.hostNetwork.value else spec.hostNetwork;
    if !hostNetwork && |m.hostAddresses| != 0 { errors := errors + [Error("hostNetwork", Missing)]; }
    if |m.hostAddresses| != 0 && |m.hostAddresses| != m.instance.count { errors := errors + [Error(section, Conflict)]; }
  }

  predicate MastersOk(spec: ClusterSpec, previous: Option<ClusterSpec>) {
    var m := spec.primaryMasters;
    && InstanceOk(m.instance) && HostAddressesOk(spec)
    && HasLocation(m.instance.locations, MasterChangelogs) && HasLocation(m.instance.locations, MasterSnapshots)
    && (previous.Some? ==> previous.value.primaryMasters.cellTag == m.cellTag)
    && (m.instance.count > 1 && !spec.ephemeral ==> m.podAntiAffinity)
  }

  method ValidatePrimaryMasters(spec: ClusterSpec, previous: Option<ClusterSpec>) returns (errors: seq<Error>)
    ensures errors == [] <==> MastersOk(spec, previous)
  {
    var m := spec.primaryMasters;
    errors := ValidateInstanceSpec(m.instance, "primaryMasters");
    var more := ValidateHostAddresses(spec, "primaryMasters");
    errors := errors + more;
    var changelogs := FindFirstLocation(m.instance.locations, MasterChangelogs);
    if changelogs.None? { errors := errors + [Error("primaryMasters", Missing)]; }
    var snapshots := FindFirstLocation(m.instance.locations, MasterSnapshots);
    if snapshots.None? { errors := errors + [Error("primaryMasters", Missing)]; }
    if previous.Some? && previous.value.primaryMasters.cellTag != m.cellTag { errors := errors + [Error("cellTag", Changed)]; }
    if m.instance.count > 1 && !spec.ephemeral && !m.podAntiAffinity { errors := errors + [Error("podAntiAffinity", Missing)]; }
  }

  predicate SecondaryOk(spec: ClusterSpec) {
    && (forall i :: 0 <= i < |spec.secondaryMasters| ==> InstanceOk(spec.secondaryMasters[i].instance))
    && (|spec.secondaryMasters| > 0 ==> HostAddressesOk(spec))
  }

  method ValidateSecondaryMasters(spec: ClusterSpec) returns (errors: seq<Error>)
    ensures errors == [] <==> SecondaryOk(spec)
  {
    errors := [];
    for i := 0 to |spec.secondaryMasters|
      invariant errors == [] <==>
        (forall k :: 0 <= k < i ==> InstanceOk(spec.secondaryMasters[k].instance)) && (i > 0 ==> HostAddressesOk(spec))
    {
      var more := ValidateInstanceSpec(spec.secondaryMasters[i].instance, "secondaryMasters");
      errors := errors + more;
      more := ValidateHostAddresses(spec, "secondaryMasters");
      errors := errors + more;
    }
  }

  // ----- sections that need other sections -----

  predicate OptionalOk(i: Option<InstanceSpec>) { i.Some? ==> InstanceOk(i.value) }

  /** A section that is there must be valid and stand on the sections it needs. */
  method ValidateOptional(i: Option<InstanceSpec>, section: string, needs: bool, alsoNeeds: bool) returns (errors: seq<Error>)
    ensures errors == [] <==> OptionalOk(i) && (i.Some? ==> needs && alsoNeeds)
  {
    errors := [];
    if i.Some? {
      errors := ValidateInstanceSpec(i.value, section);
      if !needs { errors := errors + [Error(section, Missing)]; }
      if !alsoNeeds { errors := errors + [Error(section, Missing)]; }
    }
  }

  /** The first proxy of the default role, if any, must serve HTTPS for a secure UI. */
  predicate UiOk(spec: ClusterSpec) {
    spec.secureUi == Some(true) ==> forall i :: 0 <= i < |spec.httpProxies| && FirstDefault(spec.httpProxies, i) ==> spec.httpProxies[i].https
  }

  predicate FirstDefault(ps: seq<Proxy>, i: nat)
    requires i < |ps|
  {
    ps[i].role == DefaultRole && forall k :: 0 <= k < i ==> ps[k].role != DefaultRole
  }

  method ValidateUi(spec: ClusterSpec) returns (errors: seq<Error>)
    ensures errors == [] <==> UiOk(spec)
  {
    errors := [];
    if spec.secureUi == Some(true) {
      for i := 0 to |spec.httpProxies|
        invariant errors == [] && forall k :: 0 <= k < i ==> spec.httpProxies[k].role != DefaultRole
      {
        if spec.httpProxies[i].role != DefaultRole { continue; }
        if !spec.httpProxies[i].https { errors := errors + [Error("httpProxies", Missing)]; }
        break;
      }
    }
  }

  /** At most one cluster per namespace: nobody there yet, or only this one. */
  predicate OnlyOne(name: string, listed: Option<seq<string>>) {
    listed.Some? && (listed.value == [] || listed.value == [name])
  }

  predicate StandsOnOthers(spec: ClusterSpec) {
    && (spec.schedulers.Some? <==> spec.controllerAgents.Some?)
    && (spec.strawberry ==> spec.schedulers.Some?)
    && (spec.queryTrackers.Some? ==> |spec.tabletNodes| > 0 && spec.schedulers.Some?)
    && (spec.queueAgents.Some? ==> |spec.tabletNodes| > 0)
    && (spec.yqlAgents.Some? ==> spec.queryTrackers.Some?)
    && !spec.spyt
  }

  /** What the webhook accepts, said without its loops. */
  ghost predicate Acceptable(spec: ClusterSpec, previous: Option<ClusterSpec>, name: string, listed: Option<seq<string>>) {
    && InstanceOk(spec.discovery) && MastersOk(spec, previous) && SecondaryOk(spec)
    && ProxiesOk(spec.httpProxies) && DefaultRole in Roles(spec.httpProxies)
    && ProxiesOk(spec.rpcProxies) && ProxiesOk(spec.tcpProxies)
    && GroupsOk(spec.dataNodes, {ChunkStore}) && ExecGroupsOk(spec) && GroupsOk(spec.tabletNodes, {})
    && OptionalOk(spec.schedulers) && OptionalOk(spec.controllerAgents) && OptionalOk(spec.queryTrackers)
    && OptionalOk(spec.queueAgents) && OptionalOk(spec.yqlAgents)
    && StandsOnOthers(spec) && UiOk(spec) && OnlyOne(name, listed)
  }

  /** validateYtsaurus up to the node sections. */
  method ValidateServers(spec: ClusterSpec, previous: Option<ClusterSpec>) returns (errors: seq<Error>)
    ensures errors == [] <==>
      && InstanceOk(spec.discovery) && MastersOk(spec, previous) && SecondaryOk(spec)
      && ProxiesOk(spec.httpProxies) && DefaultRole in Roles(spec.httpProxies)
      && ProxiesOk(spec.rpcProxies) && ProxiesOk(spec.tcpProxies)
  {
    errors := ValidateInstanceSpec(spec.discovery, "discovery");
    var more := ValidatePrimaryMasters(spec, previous);
    errors := errors + more;
    more := ValidateSecondaryMasters(spec);
    errors := errors + more;
    more := ValidateHttpProxies(spec);
    errors := errors + more;
    var unused: bool;
    more, unused := ValidateProxies(spec.rpcProxies, "rpcProxies");
    errors := errors + more;
    more, unused := ValidateProxies(spec.tcpProxies, "tcpProxies");
    errors := errors + more;
  }

  /** validateYtsaurus from the node sections up to the tablet nodes. */
  method ValidateNodes(spec: ClusterSpec) returns (errors: seq<Error>)
    ensures errors == [] <==>
      && GroupsOk(spec.dataNodes, {ChunkStore}) && ExecGroupsOk(spec) && GroupsOk(spec.tabletNodes, {})
      && OptionalOk(spec.schedulers) && OptionalOk(spec.controllerAgents)
      && (spec.schedulers.Some? <==> spec.controllerAgents.Some?)
  {
    errors := ValidateDataNodes(spec);
    var more := ValidateExecNodes(spec);
    errors := errors + more;
    more := ValidateOptional(spec.schedulers, "schedulers", spec.controllerAgents.Some?, true);
    errors := errors + more;
    more := ValidateOptional(spec.controllerAgents, "controllerAgents", spec.schedulers.Some?, true);
    errors := errors + more;
    more := ValidateTabletNodes(spec);
    errors := errors + more;
  }

  /** validateYtsaurus after the tablet nodes. */
  method ValidateServices(spec: ClusterSpec, name: string, listed: Option<seq<string>>) returns (errors: seq<Error>)
    ensures errors == [] <==>
      && OptionalOk(spec.queryTrackers) && OptionalOk(spec.queueAgents) && OptionalOk(spec.yqlAgents)
      && (spec.strawberry ==> spec.schedulers.Some?)
      && (spec.queryTrackers.Some? ==> |spec.tabletNodes| > 0 && spec.schedulers.Some?)
      && (spec.queueAgents.Some? ==> |spec.tabletNodes| > 0)
      && (spec.yqlAgents.Some? ==> spec.queryTrackers.Some?)
      && !spec.spyt && UiOk(spec) && OnlyOne(name, listed)
  {
    errors := [];
    if spec.strawberry && spec.schedulers.None? { errors := errors + [Error("schedulers", Missing)]; }
    var more := ValidateOptional(spec.queryTrackers, "queryTrackers", |spec.tabletNodes| > 0, spec.schedulers.Some?);
    errors := errors + more;
    more := ValidateOptional(spec.queueAgents, "queueAgents", |spec.tabletNodes| > 0, true);
    errors := errors + more;
    if spec.spyt { errors := errors + [Error("spyt", Deprecated)]; }
    more := ValidateOptional(spec.yqlAgents, "yqlAgents", spec.queryTrackers.Some?, true);
    errors := errors + more;
    more := ValidateUi(spec);
    errors := errors + more;
    if listed.None? {
      errors := errors + [Error("k8sClient", Unlisted)];
    } else if !(|listed.value| == 1 && listed.value[0] == name) && |listed.value| != 0 {
      errors := errors + [Error("namespace", Conflict)];
    }
  }

  /** validateYtsaurus: no error exactly for acceptable specs. */
  method ValidateYtsaurus(spec: ClusterSpec, previous: Option<ClusterSpec>, name: string, listed: Option<seq<string>>)
    returns (errors: seq<Error>)
    ensures errors == [] <==> Acceptable(spec, previous, name, listed)
  {
    errors := ValidateServers(spec, previous);
    var more := ValidateNodes(spec);
    errors := errors + more;
    more := ValidateServices(spec, name, listed);
    errors := errors + more;
  }
}
