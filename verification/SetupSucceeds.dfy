/** When Setup and Delete succeed, if no call outside the daemon fails. */
module SetupSucceeds {
  import opened Wrappers
  import opened Ipv4
  import opened Naming
  import opened AddressPool
  import opened Host
  import opened Commands
  import opened Container
  import opened SandboxSafety
  import opened SetupEffects
  import opened SetupDelete

  // ---------- nothing fails ----------

  lemma PrimitiveNeverPlans(c: Command, ns: Ns, w: World)
    requires w.plan == []
    ensures ExecPrimitive(c, ns, w).w.plan == []
  {
  }

  /** Where no call is to fail, none is to fail later. */
  lemma {:induction false} NeverPlans(c: Command, ns: Ns, w: World)
    requires w.plan == []
    ensures Exec(c, ns, w).w.plan == []
    decreases c, 1
  {
    hide ExecPrimitive;
    match c
    case Group(members) => NeverPlansAll(members, ns, w);
    case Unless(_, body) => NeverPlans(body, ns, w);
    case InNamespace(inner, body) => NeverPlans(body, inner, w);
    case _ => PrimitiveNeverPlans(c, ns, w);
  }

  lemma {:induction false} NeverPlansAll(cs: seq<Command>, ns: Ns, w: World)
    requires w.plan == []
    ensures ExecAll(cs, ns, w).w.plan == []
    decreases cs, 0
  {
    if cs != [] {
      NeverPlans(cs[0], ns, w);
      if Exec(cs[0], ns, w).Ok() {
        NeverPlansAll(cs[1..], ns, Exec(cs[0], ns, w).w);
      }
    }
  }

  // ---------- the sandbox ----------

  lemma CreateSucceeds(name: string, ns: Ns, w: World)
    requires w.plan == [] && name !in w.sandboxes
    ensures var o := Exec(Command.CreateSandbox(name), ns, w);
      && (o.Ok() <==> name !in w.files)
      && (o.Ok() ==> o.w == w.(
            files := w.files[name := Mounted], sandboxes := w.sandboxes[name := Sandbox(false, false)],
            links := w.links[LinkId(SandboxNs(name), "lo") := NewLink(Loopback).(up := true)]))
  {
  }

  lemma VxlanSucceeds(cfg: SetupConfig, w: World)
    requires w.plan == [] && SandboxName(cfg.vni) in w.sandboxes && VxlanEnd(cfg) !in w.links
    ensures var a := Exec(CreateVxlan(VxlanName(cfg.vni), cfg.vni), HostNs, w);
      var b := Exec(Command.MoveLink(VxlanName(cfg.vni), SandboxName(cfg.vni)), HostNs, a.w);
      && (a.Ok() <==> LinkId(HostNs, VxlanName(cfg.vni)) !in w.links)
      && (a.Ok() ==> b.Ok() && b.w == w.(links := w.links[VxlanEnd(cfg) := NewLink(Vxlan(cfg.vni))]))
  {
    var id := LinkId(HostNs, VxlanName(cfg.vni));
    if id !in w.links {
      assert w.links[id := NewLink(Vxlan(cfg.vni))] - {id} == w.links;
    }
  }

  lemma DNSSucceeds(cfg: SetupConfig, ns: Ns, w: World)
    requires w.plan == [] && SandboxName(cfg.vni) in w.sandboxes && DNSEnd(cfg) !in w.links
    ensures var o := Exec(StartDNSServer(SandboxName(cfg.vni), cfg.dns), ns, w);
      && o.Ok()
      && (exists link: Link :: link.kind == Dummy && o.w.links == w.links[DNSEnd(cfg) := link])
      && o.w.files == w.files && o.w.sandboxes.Keys == w.sandboxes.Keys
  {
    var link := NewLink(Dummy).(addresses := [] + [Address(cfg.dns, 32)], up := true);
    var o := Exec(StartDNSServer(SandboxName(cfg.vni), cfg.dns), ns, w);
    assert o.w.links == w.links[DNSEnd(cfg) := link];
  }

  /** The sandbox as IdempotentlyCreateSandbox leaves it: a loopback, the vxlan link, and dns0. */
  ghost predicate NewSandbox(w: World, w': World, cfg: SetupConfig) {
    var ns := SandboxNs(SandboxName(cfg.vni));
    && w'.plan == [] && SandboxName(cfg.vni) in w'.sandboxes
    && SandboxName(cfg.vni) in w'.files && w'.files[SandboxName(cfg.vni)] == Mounted
    && VxlanEnd(cfg) in w'.links && w'.links[VxlanEnd(cfg)].kind.Vxlan?
    && DNSEnd(cfg) in w'.links && w'.links[DNSEnd(cfg)].kind.Dummy?
    && w'.links.Keys == w.links.Keys + {LinkId(ns, "lo"), VxlanEnd(cfg), DNSEnd(cfg)}
  }

  lemma SandboxTreeSucceeds(cfg: SetupConfig, w: World)
    requires w.plan == [] && SandboxName(cfg.vni) !in w.sandboxes && NoLinksIn(w.links, SandboxNs(SandboxName(cfg.vni)))
    ensures var o := Exec(SandboxTree(cfg.vni, cfg.dns), HostNs, w);
      && (o.Ok() <==> SandboxName(cfg.vni) !in w.files && LinkId(HostNs, VxlanName(cfg.vni)) !in w.links)
      && (o.Ok() ==> NewSandbox(w, o.w, cfg))
  {
    hide ExecPrimitive, ExecAll;
    var name, vxlan := SandboxName(cfg.vni), VxlanName(cfg.vni);
    var cs := SandboxSteps(cfg.vni, cfg.dns);
    assert Exec(Group(cs), HostNs, w) == ExecAll(cs, HostNs, w);
    ExecAllOfFour(cs, HostNs, w);
    CreateSucceeds(name, HostNs, w);
    var a := Exec(cs[0], HostNs, w);
    if a.Ok() {
      NeverPlans(cs[0], HostNs, w);
      assert vxlan[0] != "lo"[0];
      VxlanSucceeds(cfg, a.w);
      var b := Exec(cs[1], HostNs, a.w);
      if b.Ok() {
        var c := Exec(cs[2], HostNs, b.w);
        assert vxlan[0] != DNS_INTERFACE_NAME[0];
        assert "lo"[0] != DNS_INTERFACE_NAME[0];
        DNSSucceeds(cfg, HostNs, c.w);
        NeverPlans(cs[3], HostNs, c.w);
      }
    }
  }

  // ---------- the veth pair ----------

  predicate Distinct(hops: seq<Hop>) {
    forall i, j :: 0 <= i < j < |hops| ==> hops[i] != hops[j]
  }

  predicate NoneOf(hops: seq<Hop>, routes: seq<Hop>) {
    forall i :: 0 <= i < |hops| ==> hops[i] !in routes
  }

  lemma DistinctFirst(hops: seq<Hop>, routes: seq<Hop>)
    requires hops != []
    ensures Distinct(hops) && NoneOf(hops, routes) <==>
      hops[0] !in routes && Distinct(hops[1..]) && NoneOf(hops[1..], routes + [hops[0]])
  {
    var rest := hops[1..];
    if hops[0] !in routes && Distinct(rest) && NoneOf(rest, routes + [hops[0]]) {
      forall i, j | 0 <= i < j < |hops|
        ensures hops[i] != hops[j]
      {
        assert hops[j] == rest[j - 1];
        if i > 0 {
          assert hops[i] == rest[i - 1];
        }
      }
      forall i | 0 <= i < |hops|
        ensures hops[i] !in routes
      {
        if i > 0 {
          assert hops[i] == rest[i - 1];
        }
      }
    }
    if Distinct(hops) && NoneOf(hops, routes) {
      forall i | 0 <= i < |rest|
        ensures rest[i] !in routes + [hops[0]]
      {
        assert rest[i] == hops[i + 1];
      }
    }
  }

  lemma RouteSucceeds(interface: string, hop: Hop, ns: Ns, w: World)
    requires w.plan == [] && LinkId(ns, interface) in w.links
    ensures Exec(Command.AddRoute(interface, hop), ns, w).Ok() <==> hop !in w.links[LinkId(ns, interface)].routes
  {
  }

  /** A group succeeds exactly if its first member does and then the others. */
  lemma FirstThenOthers(cs: seq<Command>, ns: Ns, w: World)
    requires cs != []
    ensures var first := Exec(cs[0], ns, w);
      ExecAll(cs, ns, w).Ok() <==> first.Ok() && ExecAll(cs[1..], ns, first.w).Ok()
  {
    hide Exec;
  }

  /** The kernel takes a container's routes exactly when no two are the same and none is there already. */
  lemma {:induction false} RoutesSucceed(interface: string, routes: seq<Route>, gateway: IP, ns: Ns, w: World)
    requires w.plan == [] && LinkId(ns, interface) in w.links
    ensures var hops := HopsOf(routes, gateway);
      ExecAll(RouteCommands(interface, routes, gateway), ns, w).Ok() <==>
        Distinct(hops) && NoneOf(hops, w.links[LinkId(ns, interface)].routes)
    decreases routes, 1
  {
    if routes != [] {
      MoreRoutesSucceed(interface, routes, gateway, ns, w);
    }
  }

  lemma {:induction false} MoreRoutesSucceed(interface: string, routes: seq<Route>, gateway: IP, ns: Ns, w: World)
    requires w.plan == [] && LinkId(ns, interface) in w.links && routes != []
    ensures var hops := HopsOf(routes, gateway);
      ExecAll(RouteCommands(interface, routes, gateway), ns, w).Ok() <==>
        Distinct(hops) && NoneOf(hops, w.links[LinkId(ns, interface)].routes)
    decreases routes, 0
  {
    hide Exec, ExecAll, HopOf, HopsOf, RouteCommands, Distinct, NoneOf, LinkBecomes;
    var id := LinkId(ns, interface);
    var cs, hops := RouteCommands(interface, routes, gateway), HopsOf(routes, gateway);
    RoutesFirst(interface, routes, gateway);
    assert hops[0] == HopOf(routes[0], gateway) && hops[1..] == HopsOf(routes[1..], gateway);
    DistinctFirst(hops, w.links[id].routes);
    RouteSucceeds(interface, hops[0], ns, w);
    FirstThenOthers(cs, ns, w);
    var first := Exec(cs[0], ns, w);
    if first.Ok() {
      NeverPlans(cs[0], ns, w);
      RouteEffect(interface, hops[0], ns, w);
      BecomesHas(w, first.w, id, MoreRoutes(w.links[id], [hops[0]]));
      RoutesSucceed(interface, routes[1..], gateway, ns, first.w);
    }
  }

  /** The names a container's pair passes through are free. */
  ghost predicate PairFree(w: World, cfg: SetupConfig) {
    && cfg.interface != cfg.linkName
    && ContainerEnd(cfg) !in w.links && LinkId(ContainerNs(cfg.containerPath), cfg.linkName) !in w.links
    && SandboxEnd(cfg) !in w.links
  }

  lemma PairSucceeds(cfg: SetupConfig, w: World)
    requires w.plan == [] && SandboxName(cfg.vni) in w.sandboxes
    ensures var ns := ContainerNs(cfg.containerPath);
      var made := Exec(CreateVeth(cfg.interface, cfg.linkName), ns, w);
      var moved := Exec(Command.MoveLink(cfg.linkName, SandboxName(cfg.vni)), ns, made.w);
      made.Ok() && moved.Ok() <==> PairFree(w, cfg)
  {
  }

  /** On a link just made, address and link up succeed, and the routes exactly when no two are the same. */
  lemma ConfigureSucceeds(cfg: SetupConfig, ns: Ns, w: World, pair: nat)
    requires w.plan == []
    requires LinkId(ns, cfg.interface) in w.links && w.links[LinkId(ns, cfg.interface)] == NewLink(Veth(pair))
    ensures var cs := EndSteps(cfg);
      ExecAll(cs, ns, w).Ok() <==> Distinct(HopsOf(cfg.lease.routes, cfg.lease.gateway))
  {
    hide ExecAll, LinkBecomes, RouteCommands, HopsOf, Distinct;
    var id := LinkId(ns, cfg.interface);
    var address := Address(cfg.lease.ip, cfg.lease.ones);
    var cs := EndSteps(cfg);
    ExecAllOfThree(cs, ns, w);
    var a := Exec(cs[0], ns, w);
    AddressEffect(cfg.interface, address, ns, w);
    BecomesHas(w, a.w, id, Link(Veth(pair), false, None, [] + [address], []));
    var b := Exec(cs[1], ns, a.w);
    UpEffect(cfg.interface, ns, a.w);
    BecomesHas(a.w, b.w, id, Link(Veth(pair), true, None, [] + [address], []));
    RoutesSucceed(cfg.interface, cfg.lease.routes, cfg.lease.gateway, ns, b.w);
  }

  lemma VethTreeSucceeds(cfg: SetupConfig, ns: Ns, w: World)
    requires w.plan == [] && SandboxName(cfg.vni) in w.sandboxes
    ensures Exec(VethTree(cfg), ns, w).Ok() <==>
      PairFree(w, cfg) && Distinct(HopsOf(cfg.lease.routes, cfg.lease.gateway))
  {
    hide ExecAll, ExecPrimitive, RouteCommands, HopsOf, Distinct, PairFree;
    var inner := ContainerNs(cfg.containerPath);
    var first := PairSteps(cfg);
    var rest := EndSteps(cfg);
    assert Exec(Group(first + rest), inner, w) == ExecAll(first + rest, inner, w);
    ExecAllConcat(first, rest, inner, w);
    ExecAllOfTwo(first, inner, w);
    PairSucceeds(cfg, w);
    PairEffect(cfg, w);
    NeverPlansAll(first, inner, w);
    if ExecAll(first, inner, w).Ok() {
      ConfigureSucceeds(cfg, inner, ExecAll(first, inner, w).w, w.nextPair);
    }
  }

  // ---------- the bridge ----------

  lemma EnslaveSucceeds(master: string, slave: string, ns: Ns, w: World)
    requires w.plan == []
    ensures Exec(SetLinkMaster(master, slave), ns, w).Ok() <==>
      && LinkId(ns, master) in w.links && w.links[LinkId(ns, master)].kind.Bridge?
      && LinkId(ns, slave) in w.links && !BoundToNs(w.links[LinkId(ns, slave)].kind)
  {
  }

  /** A bridge with a free name is made, addressed and raised; the group succeeds exactly if dns0 can be put on it. */
  lemma NewBridgeSucceeds(cfg: SetupConfig, w: World)
    requires w.plan == [] && BridgeEnd(cfg) !in w.links
    ensures var o := Exec(NewBridgeTree(cfg), SandboxNs(SandboxName(cfg.vni)), w);
      && (o.Ok() <==> DNSEnd(cfg) in w.links && !BoundToNs(w.links[DNSEnd(cfg)].kind))
      && (o.Ok() ==> BridgeEnd(cfg) in o.w.links && o.w.links[BridgeEnd(cfg)].kind.Bridge?)
  {
    hide ExecAll, ExecPrimitive;
    var ns, bridge := SandboxNs(SandboxName(cfg.vni)), BridgeName(cfg.vni);
    var cs := NewBridgeSteps(cfg);
    assert Exec(Group(cs), ns, w) == ExecAll(cs, ns, w);
    ExecAllOfFour(cs, ns, w);
    BareBridgeSucceeds(bridge, Address(cfg.lease.gateway, cfg.lease.ones), ns, w);
    var c := Exec(cs[2], ns, Exec(cs[1], ns, Exec(cs[0], ns, w).w).w).w;
    assert bridge[0] != DNS_INTERFACE_NAME[0];
    EnslaveSucceeds(bridge, DNS_INTERFACE_NAME, ns, c);
    if Exec(cs[3], ns, c).Ok() {
      MasterEffect(bridge, DNS_INTERFACE_NAME, ns, c);
    }
  }

  lemma BareBridgeSucceeds(bridge: string, address: Address, ns: Ns, w: World)
    requires w.plan == [] && LinkId(ns, bridge) !in w.links
    ensures var a := Exec(CreateBridge(bridge), ns, w);
      var b := Exec(Command.AddAddress(bridge, address), ns, a.w);
      var c := Exec(SetLinkUp(bridge), ns, b.w);
      && a.Ok() && b.Ok() && c.Ok() && c.w.plan == []
      && exists link: Link :: link.kind.Bridge? && c.w.links == w.links[LinkId(ns, bridge) := link]
  {
    hide Exec, LinkBecomes;
    var id := LinkId(ns, bridge);
    var a := Exec(CreateBridge(bridge), ns, w);
    BridgeCreated(bridge, ns, w);
    var b := Exec(Command.AddAddress(bridge, address), ns, a.w);
    AddressSucceeds(bridge, address, ns, a.w);
    var c := Exec(SetLinkUp(bridge), ns, b.w);
    UpSucceeds(bridge, ns, b.w);
    var link := b.w.links[id].(up := true);
    assert c.w.links == w.links[id := link];
  }

  lemma BridgeCreated(bridge: string, ns: Ns, w: World)
    requires w.plan == [] && LinkId(ns, bridge) !in w.links
    ensures Exec(CreateBridge(bridge), ns, w) == Succeed(w.(links := w.links[LinkId(ns, bridge) := NewLink(Bridge)]))
  {
  }

  lemma AddressSucceeds(interface: string, address: Address, ns: Ns, w: World)
    requires w.plan == [] && LinkId(ns, interface) in w.links && w.links[LinkId(ns, interface)].addresses == []
    ensures var id := LinkId(ns, interface);
      Exec(Command.AddAddress(interface, address), ns, w) ==
        Succeed(w.(links := w.links[id := w.links[id].(addresses := [] + [address])]))
  {
  }

  /** A bridge is there, or can be made. */
  ghost predicate CanBridge(w: World, cfg: SetupConfig) {
    if BridgeEnd(cfg) in w.links then w.links[BridgeEnd(cfg)].kind.Bridge?
    else DNSEnd(cfg) in w.links && !BoundToNs(w.links[DNSEnd(cfg)].kind)
  }

  lemma BridgeTreeSucceeds(cfg: SetupConfig, ns: Ns, w: World)
    requires w.plan == [] && VxlanEnd(cfg) in w.links && VxlanEnd(cfg) != BridgeEnd(cfg)
    requires SandboxEnd(cfg) in w.links && w.links[SandboxEnd(cfg)].kind.Veth?
    ensures Exec(BridgeTree(cfg), ns, w).Ok() <==> !BoundToNs(w.links[VxlanEnd(cfg)].kind) && CanBridge(w, cfg)
  {
    hide Exec, ExecAll, NewBridgeTree, Local, Grown;
    var inner, bridge := SandboxNs(SandboxName(cfg.vni)), BridgeName(cfg.vni);
    var cs := BridgeSteps(cfg);
    InnerGroup(cs, inner, ns, w);
    ExecAllOfFour(cs, inner, w);
    TreesAreLocal(cfg);
    var a := Exec(cs[0], inner, w);
    var b := Exec(cs[1], inner, a.w);
    var c := Exec(cs[2], inner, b.w);
    NeverPlans(cs[0], inner, w);
    NeverPlans(cs[1], inner, a.w);
    NeverPlans(cs[2], inner, b.w);
    UpSucceeds(cfg.linkName, inner, w);
    LocalGrows(cs[0], inner, w);
    LocalGrows(cs[1], inner, a.w);
    LocalGrows(cs[2], inner, b.w);
    GrownTransitive(w, a.w, b.w, inner);
    GrownTransitive(w, b.w, c.w, inner);
    GrownKeepsKind(w, b.w, inner, VxlanEnd(cfg));
    GrownKeepsKind(w, c.w, inner, SandboxEnd(cfg));
    EnslaveSucceeds(bridge, VxlanName(cfg.vni), inner, b.w);
    EnslaveSucceeds(bridge, cfg.linkName, inner, c.w);
    if BridgeEnd(cfg) in w.links {
      GrownKeepsKind(w, b.w, inner, BridgeEnd(cfg));
      GrownKeepsKind(w, c.w, inner, BridgeEnd(cfg));
      BridgeIsThere(cfg, a.w);
    } else {
      NewBridgeSucceeds(cfg, a.w);
      if BridgeEnd(cfg) in b.w.links {
        GrownKeepsKind(b.w, c.w, inner, BridgeEnd(cfg));
      }
    }
  }

  lemma BridgeIsThere(cfg: SetupConfig, w: World)
    requires BridgeEnd(cfg) in w.links
    ensures Exec(NewBridgeTree(cfg), SandboxNs(SandboxName(cfg.vni)), w) == Succeed(w)
  {
  }

  lemma InnerGroup(cs: seq<Command>, inner: Ns, ns: Ns, w: World)
    requires w.plan == []
    ensures Exec(InNamespace(inner, Group(cs)), ns, w).Ok() <==> ExecAll(cs, inner, w).Ok()
  {
  }

  /** Raising a link succeeds exactly if it is there, and does nothing else. */
  lemma UpSucceeds(interface: string, ns: Ns, w: World)
    requires w.plan == []
    ensures var o := Exec(SetLinkUp(interface), ns, w);
      var id := LinkId(ns, interface);
      && (o.Ok() <==> id in w.links)
      && (o.Ok() ==> o.w == w.(links := w.links[id := w.links[id].(up := true)]))
  {
  }

  lemma GrownKeepsKind(w: World, w': World, ns: Ns, id: LinkId)
    requires Grown(w, w', ns) && id in w.links
    ensures id in w'.links && w'.links[id].kind == w.links[id].kind
  {
  }

  // ---------- Setup ----------

  /** The vxlan link is in the sandbox, and the monitor can find it there. */
  ghost predicate CanWatch(w: World, cfg: SetupConfig) {
    && VxlanEnd(cfg) in w.links
    && SandboxName(cfg.vni) in w.files && w.files[SandboxName(cfg.vni)] == Mounted
  }

  lemma VxlanTreeSucceeds(cfg: SetupConfig, w: World)
    requires w.plan == []
    ensures Exec(VxlanTree(cfg.vni), HostNs, w).Ok() <==> CanWatch(w, cfg)
  {
    hide ExecAll, ExecPrimitive;
    var name, vxlan := SandboxName(cfg.vni), VxlanName(cfg.vni);
    var cs := VxlanSteps(cfg.vni);
    assert Exec(VxlanTree(cfg.vni), HostNs, w) == ExecAll(cs, HostNs, w);
    ExecAllOfTwo(cs, HostNs, w);
    UpSucceeds(vxlan, SandboxNs(name), w);
    NeverPlans(SetLinkUp(vxlan), SandboxNs(name), w);
    MonitorStarts(name, vxlan, Exec(SetLinkUp(vxlan), SandboxNs(name), w).w);
  }

  lemma MonitorStarts(name: string, vxlan: string, w: World)
    requires w.plan == []
    ensures Exec(Command.StartMonitor(name, vxlan), HostNs, w).Ok() <==>
      name in w.files && w.files[name] == Mounted && LinkId(SandboxNs(name), vxlan) in w.links
  {
  }

  lemma NothingFails(w: World)
    requires w.plan == []
    ensures Fallible(w) == Succeed(w)
  {
  }

  lemma SetupStages(w: World, cfg: SetupConfig)
    requires w.plan == [] && AfterSandbox(w, cfg).Ok() && SandboxName(cfg.vni) in AfterSandbox(w, cfg).w.sandboxes
    requires AfterVxlan(w, cfg).Ok() && AfterVeth(w, cfg).Ok() && AfterBridge(w, cfg).Ok()
    requires AfterBridge(w, cfg).w.plan == [] && ContainerEnd(cfg) in AfterBridge(w, cfg).w.links
    ensures Setup(w, cfg).Ok()
  {
    hide SandboxTree, VxlanTree, VethTree, BridgeTree, ExecAll, Fallible;
    var created := AfterSandbox(w, cfg).w;
    var cs := WiringSteps(cfg);
    NothingFails(w);
    assert Exec(Group(cs), HostNs, created) == ExecAll(cs, HostNs, created);
    ExecAllOfThree(cs, HostNs, created);
    NothingFails(AfterBridge(w, cfg).w);
    assert Exec(GetHardwareAddress(cfg.interface), ContainerNs(cfg.containerPath), AfterBridge(w, cfg).w).Ok();
  }

  /** What a container needs of a sandbox that is there. */
  ghost predicate CanJoin(w: World, cfg: SetupConfig) {
    && CanWatch(w, cfg) && !BoundToNs(w.links[VxlanEnd(cfg)].kind)
    && PairFree(w, cfg) && Distinct(HopsOf(cfg.lease.routes, cfg.lease.gateway))
    && if BridgeEnd(cfg) in w.links then w.links[BridgeEnd(cfg)].kind.Bridge?
       else
         && cfg.linkName != BridgeName(cfg.vni)
         && (cfg.linkName == DNS_INTERFACE_NAME || (DNSEnd(cfg) in w.links && !BoundToNs(w.links[DNSEnd(cfg)].kind)))
  }

  /** What a container and a sandbox made for it need of the names in use, and of the routes. */
  ghost predicate CanSetUp(w: World, cfg: SetupConfig) {
    && SandboxName(cfg.vni) !in w.files && LinkId(HostNs, VxlanName(cfg.vni)) !in w.links
    && cfg.interface != cfg.linkName
    && ContainerEnd(cfg) !in w.links && LinkId(ContainerNs(cfg.containerPath), cfg.linkName) !in w.links
    && cfg.linkName !in ["lo", DNS_INTERFACE_NAME, VxlanName(cfg.vni), BridgeName(cfg.vni)]
    && Distinct(HopsOf(cfg.lease.routes, cfg.lease.gateway))
  }

  lemma LinkNamesDiffer(vni: nat)
    ensures VxlanName(vni) != BridgeName(vni)
  {
    assert |BridgeName(vni)| == |VxlanName(vni)| + 2;
  }

  /** In a sandbox just made, only the sandbox's own links can be in the pair's way. */
  lemma JoiningNewSandbox(w: World, s: World, cfg: SetupConfig)
    requires NewSandbox(w, s, cfg) && NoLinksIn(w.links, SandboxNs(SandboxName(cfg.vni)))
    requires SandboxName(cfg.vni) !in w.files && LinkId(HostNs, VxlanName(cfg.vni)) !in w.links
    ensures CanJoin(s, cfg) <==> CanSetUp(w, cfg)
  {
    hide Distinct, HopsOf;
    var bridge, vxlan := BridgeName(cfg.vni), VxlanName(cfg.vni);
    assert bridge[0] != "lo"[0] && bridge[0] != DNS_INTERFACE_NAME[0];
    LinkNamesDiffer(cfg.vni);
    assert BridgeEnd(cfg) !in s.links;
  }

  /** The three steps in a sandbox that is there. */
  lemma WiringSucceedsExactly(s: World, cfg: SetupConfig)
    requires s.plan == [] && SandboxName(cfg.vni) in s.sandboxes
    ensures var v := Exec(VxlanTree(cfg.vni), HostNs, s);
      var p := Exec(VethTree(cfg), HostNs, v.w);
      var b := Exec(BridgeTree(cfg), HostNs, p.w);
      && (v.Ok() && p.Ok() && b.Ok() <==> CanJoin(s, cfg))
      && (v.Ok() && p.Ok() && b.Ok() ==> b.w.plan == [] && ContainerEnd(cfg) in b.w.links)
  {
    hide Exec, VxlanTree, VethTree, BridgeTree, Distinct, HopsOf, Grown;
    LinkNamesDiffer(cfg.vni);
    VxlanTreeSucceeds(cfg, s);
    if CanWatch(s, cfg) {
      VxlanTreeEffect(cfg, s);
      NeverPlans(VxlanTree(cfg.vni), HostNs, s);
      var v := Exec(VxlanTree(cfg.vni), HostNs, s).w;
      assert v.links.Keys == s.links.Keys;
      VethTreeSucceeds(cfg, HostNs, v);
      if Exec(VethTree(cfg), HostNs, v).Ok() {
        VethTreeEffect(cfg, HostNs, v);
        NeverPlans(VethTree(cfg), HostNs, v);
        var p := Exec(VethTree(cfg), HostNs, v).w;
        BridgeTreeSucceeds(cfg, HostNs, p);
        NeverPlans(BridgeTree(cfg), HostNs, p);
        BridgingAfterPair(s, v, p, cfg);
        if Exec(BridgeTree(cfg), HostNs, p).Ok() {
          BridgeTreeEffect(cfg, HostNs, p);
          GrownKeepsPair(p, Exec(BridgeTree(cfg), HostNs, p).w, cfg);
        }
      }
    }
  }

  lemma BridgingAfterPair(s: World, v: World, p: World, cfg: SetupConfig)
    requires VxlanEnd(cfg) in s.links && VxlanEnd(cfg) != BridgeEnd(cfg)
    requires v.links == s.links[VxlanEnd(cfg) := s.links[VxlanEnd(cfg)].(up := true)] && SandboxEnd(cfg) !in v.links
    requires p.links == v.links[ContainerEnd(cfg) := ReadyEnd(cfg, v.nextPair)]
      [SandboxEnd(cfg) := NewLink(Veth(v.nextPair))]
    ensures p.links[VxlanEnd(cfg)].kind == s.links[VxlanEnd(cfg)].kind
    ensures CanBridge(p, cfg) <==>
      if BridgeEnd(cfg) in s.links then s.links[BridgeEnd(cfg)].kind.Bridge?
      else
        && cfg.linkName != BridgeName(cfg.vni)
        && (cfg.linkName == DNS_INTERFACE_NAME || (DNSEnd(cfg) in s.links && !BoundToNs(s.links[DNSEnd(cfg)].kind)))
  {
    assert VxlanName(cfg.vni)[0] != DNS_INTERFACE_NAME[0];
  }

  /**
   With no call failing, a Setup succeeds if and only if: for the first container of a network, the names it makes
   are free and no two routes are the same; for a further one, the vxlan link is in a mounted sandbox, the names of
   the pair are free, no two routes are the same, and a bridge is there or can be made.
   */
  lemma SetupSucceedsExactly(w: World, cfg: SetupConfig)
    requires Inv(w) && w.plan == []
    ensures Setup(w, cfg).Ok() <==> if SandboxName(cfg.vni) in w.sandboxes then CanJoin(w, cfg) else CanSetUp(w, cfg)
  {
    hide Exec, Setup, SandboxTree, VxlanTree, VethTree, BridgeTree, Inv, NewSandbox, CanJoin, CanSetUp;
    NothingFails(w);
    if Setup(w, cfg).Ok() {
      SetupSteps(w, cfg);
    }
    if SandboxName(cfg.vni) in w.sandboxes {
      SandboxIsThere(cfg, w);
      WiringSucceedsExactly(w, cfg);
      if CanJoin(w, cfg) {
        SetupStages(w, cfg);
      }
    } else {
      FirstSucceedsExactly(w, cfg);
    }
  }

  lemma SandboxIsThere(cfg: SetupConfig, w: World)
    requires SandboxName(cfg.vni) in w.sandboxes
    ensures Exec(SandboxTree(cfg.vni, cfg.dns), HostNs, w) == Succeed(w)
  {
  }

  lemma FirstSucceedsExactly(w: World, cfg: SetupConfig)
    requires Inv(w) && w.plan == [] && SandboxName(cfg.vni) !in w.sandboxes
    ensures Setup(w, cfg).Ok() <==> CanSetUp(w, cfg)
  {
    hide Exec, Setup, SandboxTree, VxlanTree, VethTree, BridgeTree, Inv, NewSandbox, CanJoin, Distinct, HopsOf;
    NothingFails(w);
    if Setup(w, cfg).Ok() {
      SetupSteps(w, cfg);
      NoLinksYet(w, cfg);
    }
    if SandboxName(cfg.vni) !in w.files {
      NoFileNoLinks(w, SandboxName(cfg.vni));
      SandboxTreeSucceeds(cfg, w);
      var s := AfterSandbox(w, cfg);
      if s.Ok() {
        NewSandboxIsRegistered(w, s.w, cfg);
        WiringSucceedsExactly(s.w, cfg);
        JoiningNewSandbox(w, s.w, cfg);
        if CanSetUp(w, cfg) {
          SetupStages(w, cfg);
        }
      }
    } else if Setup(w, cfg).Ok() {
      SandboxTreeSucceeds(cfg, w);
    }
  }

  lemma NewSandboxIsRegistered(w: World, s: World, cfg: SetupConfig)
    requires NewSandbox(w, s, cfg)
    ensures SandboxName(cfg.vni) in s.sandboxes && s.plan == []
  {
  }

  lemma NoFileNoLinks(w: World, name: string)
    requires Inv(w) && name !in w.files
    ensures NoLinksIn(w.links, SandboxNs(name))
  {
  }

  // ---------- Delete ----------

  lemma LinkDeletes(interface: string, ns: Ns, w: World)
    requires w.plan == []
    ensures Exec(Command.DeleteLink(interface), ns, w).Ok() <==> LinkId(ns, interface) in w.links
  {
  }

  /** With no call failing, Delete succeeds if and only if the container's link exists and cleanup gets through. */
  lemma DeleteSucceedsExactly(w: World, interface: string, path: string, vni: nat)
    requires w.plan == []
    ensures var id := LinkId(ContainerNs(path), interface);
      Delete(w, interface, path, vni).Ok() <==>
        id in w.links && CanCleanUp(w.(links := Without(w.links, id)), SandboxName(vni))
  {
    hide Cleanup, ExecAll, Without, Fallible;
    var id := LinkId(ContainerNs(path), interface);
    var name, vxlan := SandboxName(vni), VxlanName(vni);
    var cs := DeleteSteps(interface, path, vni);
    NothingFails(w);
    assert Exec(Group(cs), HostNs, w) == ExecAll(cs, HostNs, w);
    ExecAllOfTwo(cs, HostNs, w);
    LinkDeletes(interface, ContainerNs(path), w);
    LinkDeleted(interface, ContainerNs(path), w);
    NeverPlans(cs[0], HostNs, w);
    if id in w.links {
      var a := Exec(cs[0], HostNs, w).w;
      assert a == w.(links := Without(w.links, id));
      assert Exec(cs[1], HostNs, a) == Cleanup(a, name, vxlan).Wrap();
      CleanupSucceedsExactly(a, name, vxlan);
    }
  }

  /** A container set up in a sandbox that Setup made can be deleted again. */
  lemma SetUpCanBeDeleted(w: World, cfg: SetupConfig)
    requires Inv(w) && SandboxName(cfg.vni) !in w.sandboxes && Setup(w, cfg).Ok()
    ensures var w1 := Setup(w, cfg).w.(plan := []);
      Delete(w1, cfg.interface, cfg.containerPath, cfg.vni).Ok()
  {
    hide Setup, Delete, Exec, Without;
    var name := SandboxName(cfg.vni);
    var w1 := Setup(w, cfg).w.(plan := []);
    SetupInNewSandbox(w, cfg);
    SetupKeeps(w, cfg);
    SetupEstablishes(w, cfg);
    assert SandboxEnd(cfg) in w1.links && w1.links[SandboxEnd(cfg)].kind.Veth?;
    assert Ready(w1, name);
    DeleteSucceedsExactly(w1, cfg.interface, cfg.containerPath, cfg.vni);
  }

  /**
   With no call failing: on a network without a sandbox, and with the names free and the routes distinct, Setup
   succeeds, Delete succeeds after it, and links, namespace files, sandboxes and monitors are as before.
   */
  lemma ThereAndBack(w: World, cfg: SetupConfig)
    requires Inv(w) && w.plan == [] && SandboxName(cfg.vni) !in w.sandboxes && CanSetUp(w, cfg)
    ensures var there := Setup(w, cfg);
      var back := Delete(there.w.(plan := []), cfg.interface, cfg.containerPath, cfg.vni);
      && there.Ok() && back.Ok()
      && back.w.links == w.links && back.w.files == w.files
      && back.w.sandboxes == w.sandboxes && back.w.monitors == w.monitors
  {
    hide Inv, Setup, Delete, CanSetUp;
    SetupSucceedsExactly(w, cfg);
    SetUpCanBeDeleted(w, cfg);
    SetupThenDelete(w, cfg, []);
  }
}
