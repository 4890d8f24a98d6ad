/** What a successful Setup establishes. */
module SetupEffects {
  import opened Wrappers
  import opened Ipv4
  import opened Naming
  import opened AddressPool
  import opened Host
  import opened Commands
  import opened Container
  import opened SandboxSafety

  // ---------- commands inside one namespace ----------

  /** From w to w' links are only added or changed in `ns`; none goes, changes kind, goes down or loses an address. */
  ghost predicate Grown(w: World, w': World, ns: Ns) {
    && SameTables(w, w') && w'.nextPair == w.nextPair
    && (forall k :: k in w.links ==>
          && k in w'.links && w'.links[k].kind == w.links[k].kind
          && (w.links[k].up ==> w'.links[k].up) && w.links[k].addresses <= w'.links[k].addresses
          && (k.ns != ns ==> w'.links[k] == w.links[k]))
    && (forall k :: k in w'.links && k !in w.links ==> k.ns == ns && !w'.links[k].kind.Veth?)
  }

  predicate Local(c: Command)
    decreases c
  {
    match c
    case Group(members) => forall m :: m in members ==> Local(m)
    case Unless(_, body) => Local(body)
    case CreateBridge(_) => true
    case SetLinkUp(_) => true
    case SetLinkMaster(_, _) => true
    case AddAddress(_, _) => true
    case _ => false
  }

  lemma OneLinkGrows(w: World, u: World, id: LinkId, link: Link)
    requires u == w.(plan := u.plan, links := w.links[id := link])
    requires if id in w.links then
        link.kind == w.links[id].kind && (w.links[id].up ==> link.up) && w.links[id].addresses <= link.addresses
      else !link.kind.Veth?
    ensures Grown(w, u, id.ns)
  {
  }

  lemma LocalPrimitiveGrows(c: Command, ns: Ns, w: World)
    requires Local(c) && !c.Group? && !c.Unless?
    ensures Grown(w, ExecPrimitive(c, ns, w).w, ns)
  {
    hide Grown, Fallible;
    FallibleFrame(w);
    FallibleGrows(w, ns);
    GrownReflexive(w, ns);
    var u := ExecPrimitive(c, ns, w).w;
    var id := LinkId(ns, if c.CreateBridge? || c.SetLinkUp? || c.AddAddress? then c.link else c.slave);
    if u != w && u != Fallible(w).w {
      OneLinkGrows(w, u, id, u.links[id]);
    }
  }

  lemma {:induction false} LocalGrows(c: Command, ns: Ns, w: World)
    requires Local(c)
    ensures Grown(w, Exec(c, ns, w).w, ns)
    decreases c, 1
  {
    hide Grown, ExecPrimitive;
    match c
    case Group(members) => LocalAllGrows(members, ns, w);
    case Unless(_, body) =>
      GrownReflexive(w, ns);
      LocalGrows(body, ns, w);
    case _ => LocalPrimitiveGrows(c, ns, w);
  }

  lemma {:induction false} LocalAllGrows(cs: seq<Command>, ns: Ns, w: World)
    requires forall c :: c in cs ==> Local(c)
    ensures Grown(w, ExecAll(cs, ns, w).w, ns)
    decreases cs, 0
  {
    hide Grown;
    GrownReflexive(w, ns);
    if cs != [] {
      LocalGrows(cs[0], ns, w);
      var first := Exec(cs[0], ns, w);
      if first.Ok() {
        LocalAllGrows(cs[1..], ns, first.w);
        GrownTransitive(w, first.w, ExecAll(cs[1..], ns, first.w).w, ns);
      }
    }
  }

  lemma GrownReflexive(w: World, ns: Ns)
    ensures Grown(w, w, ns)
  {
  }

  lemma GrownTransitive(u: World, v: World, w: World, ns: Ns)
    requires Grown(u, v, ns) && Grown(v, w, ns)
    ensures Grown(u, w, ns)
  {
  }

  // ---------- the veth pair ----------

  ghost function ContainerEnd(cfg: SetupConfig): LinkId {
    LinkId(ContainerNs(cfg.containerPath), cfg.interface)
  }

  ghost function SandboxEnd(cfg: SetupConfig): LinkId {
    LinkId(SandboxNs(SandboxName(cfg.vni)), cfg.linkName)
  }

  /** The routes of a container, gateways filled in. */
  function HopsOf(routes: seq<Route>, gateway: IP): (hops: seq<Hop>)
    ensures |hops| == |routes| && forall i :: 0 <= i < |routes| ==> hops[i] == HopOf(routes[i], gateway)
  {
    if routes == [] then [] else [HopOf(routes[0], gateway)] + HopsOf(routes[1..], gateway)
  }

  /** The container's end as Setup leaves it. */
  ghost function ReadyEnd(cfg: SetupConfig, pair: nat): Link {
    Link(Veth(pair), true, None, [Address(cfg.lease.ip, cfg.lease.ones)], HopsOf(cfg.lease.routes, cfg.lease.gateway))
  }

  /** Where each route of a container goes, and through which gateway: its own, or else the lease's. */
  predicate RoutedAs(hops: seq<Hop>, routes: seq<Route>, gateway: IP) {
    && |hops| == |routes|
    && forall i :: 0 <= i < |hops| ==>
         && hops[i].destination == routes[i].destination
         && hops[i].gateway == match routes[i].gateway case Some(own) => own case None => gateway
  }

  lemma HopsAreRoutes(routes: seq<Route>, gateway: IP)
    ensures RoutedAs(HopsOf(routes, gateway), routes, gateway)
  {
  }

  function MoreRoutes(link: Link, hops: seq<Hop>): Link {
    link.(routes := link.routes + hops)
  }

  /** From w to w' one link has changed, and nothing else. */
  ghost predicate LinkBecomes(w: World, w': World, id: LinkId, link: Link) {
    SameTables(w, w') && w'.nextPair == w.nextPair && w'.links == w.links[id := link]
  }

  lemma BecomesTwice(u: World, v: World, w: World, id: LinkId, a: Link, b: Link)
    requires LinkBecomes(u, v, id, a) && LinkBecomes(v, w, id, b)
    ensures LinkBecomes(u, w, id, b)
  {
  }

  lemma RouteEffect(interface: string, hop: Hop, ns: Ns, w: World)
    requires LinkId(ns, interface) in w.links
    ensures var o := Exec(Command.AddRoute(interface, hop), ns, w);
      var id := LinkId(ns, interface);
      o.Ok() ==> LinkBecomes(w, o.w, id, MoreRoutes(w.links[id], [hop]))
  {
  }

  /** Adding routes appends each of them, in order, to the one link. */
  lemma {:induction false} RoutesEffect(interface: string, routes: seq<Route>, gateway: IP, ns: Ns, w: World)
    requires LinkId(ns, interface) in w.links
    ensures var o := ExecAll(RouteCommands(interface, routes, gateway), ns, w);
      var id := LinkId(ns, interface);
      o.Ok() ==> LinkBecomes(w, o.w, id, MoreRoutes(w.links[id], HopsOf(routes, gateway)))
    ensures RoutedAs(HopsOf(routes, gateway), routes, gateway)
    decreases routes, 1
  {
    HopsAreRoutes(routes, gateway);
    if routes == [] {
      var link := w.links[LinkId(ns, interface)];
      assert link.routes + [] == link.routes;
      assert w.links[LinkId(ns, interface) := link] == w.links;
    } else {
      MoreRoutesEffect(interface, routes, gateway, ns, w);
    }
  }

  lemma {:induction false} MoreRoutesEffect(interface: string, routes: seq<Route>, gateway: IP, ns: Ns, w: World)
    requires LinkId(ns, interface) in w.links && routes != []
    ensures var o := ExecAll(RouteCommands(interface, routes, gateway), ns, w);
      var id := LinkId(ns, interface);
      o.Ok() ==> LinkBecomes(w, o.w, id, MoreRoutes(w.links[id], HopsOf(routes, gateway)))
    decreases routes, 0
  {
    hide Exec, ExecAll, HopOf, LinkBecomes, HopsOf, RouteCommands;
    var id := LinkId(ns, interface);
    var cs := RouteCommands(interface, routes, gateway);
    var hops, rest := HopsOf(routes, gateway), HopsOf(routes[1..], gateway);
    var link := w.links[id];
    RoutesFirst(interface, routes, gateway);
    ExecAllFirst(cs, ns, w);
    if ExecAll(cs, ns, w).Ok() {
      var first := Exec(cs[0], ns, w).w;
      var last := ExecAll(cs[1..], ns, first).w;
      var one := MoreRoutes(link, [hops[0]]);
      RouteEffect(interface, hops[0], ns, w);
      BecomesHas(w, first, id, one);
      RoutesEffect(interface, routes[1..], gateway, ns, first);
      assert MoreRoutes(one, rest) == MoreRoutes(link, hops) by {
        assert link.routes + [hops[0]] + rest == link.routes + hops;
      }
      BecomesTwice(w, first, last, id, one, MoreRoutes(link, hops));
    }
  }

  lemma RoutesFirst(interface: string, routes: seq<Route>, gateway: IP)
    requires routes != []
    ensures HopsOf(routes, gateway) == [HopOf(routes[0], gateway)] + HopsOf(routes[1..], gateway)
    ensures var cs := RouteCommands(interface, routes, gateway);
      cs[0] == Command.AddRoute(interface, HopOf(routes[0], gateway)) &&
        cs[1..] == RouteCommands(interface, routes[1..], gateway)
  {
  }

  /** A group that succeeds ran its first member and then the others. */
  lemma ExecAllFirst(cs: seq<Command>, ns: Ns, w: World)
    requires cs != []
    ensures var o := ExecAll(cs, ns, w);
      var first := Exec(cs[0], ns, w);
      o.Ok() ==> first.Ok() && ExecAll(cs[1..], ns, first.w).Ok() && o.w == ExecAll(cs[1..], ns, first.w).w
  {
  }

  lemma BecomesHas(w: World, w': World, id: LinkId, link: Link)
    requires LinkBecomes(w, w', id, link)
    ensures id in w'.links && w'.links[id] == link
  {
  }

  lemma AddressEffect(interface: string, address: Address, ns: Ns, w: World)
    ensures var o := Exec(Command.AddAddress(interface, address), ns, w);
      var id := LinkId(ns, interface);
      o.Ok() ==> id in w.links && LinkBecomes(w, o.w, id, w.links[id].(addresses := w.links[id].addresses + [address]))
  {
  }

  lemma UpEffect(interface: string, ns: Ns, w: World)
    ensures var o := Exec(SetLinkUp(interface), ns, w);
      var id := LinkId(ns, interface);
      o.Ok() ==> id in w.links && LinkBecomes(w, o.w, id, w.links[id].(up := true))
  {
  }

  /** Address, link up and routes on a freshly made link. */
  lemma ConfigureEffect(cfg: SetupConfig, ns: Ns, w: World, pair: nat)
    requires LinkId(ns, cfg.interface) in w.links && w.links[LinkId(ns, cfg.interface)] == NewLink(Veth(pair))
    ensures var cs := EndSteps(cfg);
      var o := ExecAll(cs, ns, w);
      o.Ok() ==> LinkBecomes(w, o.w, LinkId(ns, cfg.interface), ReadyEnd(cfg, pair))
  {
    hide ExecAll, LinkBecomes, ExecPrimitive, RouteCommands, HopsOf;
    var id := LinkId(ns, cfg.interface);
    var address := Address(cfg.lease.ip, cfg.lease.ones);
    var cs := EndSteps(cfg);
    ExecAllOfThree(cs, ns, w);
    if ExecAll(cs, ns, w).Ok() {
      var a := Exec(cs[0], ns, w).w;
      var b := Exec(cs[1], ns, a).w;
      var c := Exec(cs[2], ns, b).w;
      AddressEffect(cfg.interface, address, ns, w);
      var addressed := Link(Veth(pair), false, None, [address], []);
      assert [] + [address] == [address];
      BecomesHas(w, a, id, addressed);
      UpEffect(cfg.interface, ns, a);
      var up := addressed.(up := true);
      BecomesHas(a, b, id, up);
      BecomesTwice(w, a, b, id, addressed, up);
      RoutesEffect(cfg.interface, cfg.lease.routes, cfg.lease.gateway, ns, b);
      var hops := HopsOf(cfg.lease.routes, cfg.lease.gateway);
      assert [] + hops == hops;
      BecomesTwice(w, b, c, id, up, ReadyEnd(cfg, pair));
    }
  }

  /** Making the pair and moving its far end into the sandbox. */
  lemma PairEffect(cfg: SetupConfig, w: World)
    ensures var ns := ContainerNs(cfg.containerPath);
      var made := Exec(CreateVeth(cfg.interface, cfg.linkName), ns, w);
      var moved := Exec(Command.MoveLink(cfg.linkName, SandboxName(cfg.vni)), ns, made.w);
      var end := NewLink(Veth(w.nextPair));
      made.Ok() && moved.Ok() ==>
        && ContainerEnd(cfg) !in w.links && SandboxEnd(cfg) !in w.links
        && SameTables(w, moved.w) && moved.w.nextPair == w.nextPair + 1
        && moved.w.links == w.links[ContainerEnd(cfg) := end][SandboxEnd(cfg) := end]
  {
    hide Exec;
    var ns := ContainerNs(cfg.containerPath);
    var a, b := ContainerEnd(cfg), LinkId(ns, cfg.linkName);
    var made := Exec(CreateVeth(cfg.interface, cfg.linkName), ns, w);
    MadeEffect(cfg, ns, w);
    MovedEffect(cfg, ns, made.w);
    if made.Ok() {
      var end := NewLink(Veth(w.nextPair));
      assert made.w.links - {b} == w.links[a := end];
    }
  }

  lemma MadeEffect(cfg: SetupConfig, ns: Ns, w: World)
    ensures var o := Exec(CreateVeth(cfg.interface, cfg.linkName), ns, w);
      var a, b, end := LinkId(ns, cfg.interface), LinkId(ns, cfg.linkName), NewLink(Veth(w.nextPair));
      o.Ok() ==>
        && a != b && a !in w.links && b !in w.links
        && SameTables(w, o.w) && o.w.nextPair == w.nextPair + 1
        && o.w.links == w.links[a := end][b := end]
  {
  }

  lemma MovedEffect(cfg: SetupConfig, ns: Ns, w: World)
    ensures var o := Exec(Command.MoveLink(cfg.linkName, SandboxName(cfg.vni)), ns, w);
      var id := LinkId(ns, cfg.linkName);
      o.Ok() ==>
        && id in w.links && SandboxEnd(cfg) !in w.links
        && SameTables(w, o.w) && o.w.nextPair == w.nextPair
        && o.w.links == (w.links - {id})[SandboxEnd(cfg) := NewLink(w.links[id].kind)]
  {
  }

  /** SetupVeth, when it succeeds, adds exactly the two ends of one new pair. */
  lemma VethTreeEffect(cfg: SetupConfig, ns: Ns, w: World)
    ensures var o := Exec(VethTree(cfg), ns, w);
      o.Ok() ==>
        && ContainerEnd(cfg) !in w.links && SandboxEnd(cfg) !in w.links
        && SameTables(w, o.w) && o.w.nextPair == w.nextPair + 1
        && o.w.links == w.links[ContainerEnd(cfg) := ReadyEnd(cfg, w.nextPair)][SandboxEnd(cfg) :=
          NewLink(Veth(w.nextPair))]
  {
    hide ExecAll, ExecPrimitive, RouteCommands, HopsOf, Fallible;
    var inner := ContainerNs(cfg.containerPath);
    var first := PairSteps(cfg);
    var rest := EndSteps(cfg);
    FallibleFrame(w);
    var entered := Fallible(w).w;
    assert Exec(Group(first + rest), inner, entered) == ExecAll(first + rest, inner, entered);
    ExecAllConcat(first, rest, inner, entered);
    ExecAllOfTwo(first, inner, entered);
    PairEffect(cfg, entered);
    if Exec(VethTree(cfg), ns, w).Ok() {
      ConfigureEffect(cfg, inner, ExecAll(first, inner, entered).w, w.nextPair);
    }
  }

  // ---------- the bridge ----------

  // The sandbox's own links.

  function VxlanOf(vni: nat): LinkId {
    LinkId(SandboxNs(SandboxName(vni)), VxlanName(vni))
  }

  function BridgeOf(vni: nat): LinkId {
    LinkId(SandboxNs(SandboxName(vni)), BridgeName(vni))
  }

  function DNSOf(vni: nat): LinkId {
    LinkId(SandboxNs(SandboxName(vni)), DNS_INTERFACE_NAME)
  }

  ghost function VxlanEnd(cfg: SetupConfig): LinkId {
    VxlanOf(cfg.vni)
  }

  ghost function BridgeEnd(cfg: SetupConfig): LinkId {
    BridgeOf(cfg.vni)
  }

  ghost function DNSEnd(cfg: SetupConfig): LinkId {
    DNSOf(cfg.vni)
  }

  /** A link of the sandbox that is up and on the bridge. */
  ghost predicate Bridged(w: World, cfg: SetupConfig, id: LinkId) {
    id in w.links && w.links[id].up && w.links[id].master == Some(BridgeName(cfg.vni))
  }

  lemma MasterEffect(master: string, slave: string, ns: Ns, w: World)
    ensures var o := Exec(SetLinkMaster(master, slave), ns, w);
      var id := LinkId(ns, slave);
      o.Ok() ==>
        && id in w.links && LinkBecomes(w, o.w, id, w.links[id].(master := Some(master)))
        && LinkId(ns, master) in w.links && w.links[LinkId(ns, master)].kind.Bridge?
  {
  }

  lemma TreesAreLocal(cfg: SetupConfig)
    ensures Local(NewBridgeTree(cfg)) && Local(SetLinkUp(cfg.linkName))
    ensures Local(SetLinkMaster(BridgeName(cfg.vni), VxlanName(cfg.vni))) &&
      Local(SetLinkMaster(BridgeName(cfg.vni), cfg.linkName))
  {
  }

  /** IdempotentlySetupBridge, when it succeeds, leaves both links up and on a bridge. */
  lemma BridgeTreeEffect(cfg: SetupConfig, ns: Ns, w: World)
    requires VxlanEnd(cfg) in w.links && w.links[VxlanEnd(cfg)].up && VxlanEnd(cfg) != SandboxEnd(cfg)
    ensures var o := Exec(BridgeTree(cfg), ns, w);
      o.Ok() ==>
        && Grown(w, o.w, SandboxNs(SandboxName(cfg.vni)))
        && Bridged(o.w, cfg, VxlanEnd(cfg)) && Bridged(o.w, cfg, SandboxEnd(cfg))
        && BridgeEnd(cfg) in o.w.links && o.w.links[BridgeEnd(cfg)].kind.Bridge?
  {
    hide Exec, ExecAll, Fallible, NewBridgeTree, Local, Grown, LinkBecomes;
    var inner := SandboxNs(SandboxName(cfg.vni));
    var bridge := BridgeName(cfg.vni);
    var cs := BridgeSteps(cfg);
    var u := Fallible(w).w;
    FallibleFrame(w);
    FallibleGrows(w, inner);
    InNamespaceOfGroup(cs, inner, ns, w);
    ExecAllOfFour(cs, inner, u);
    if Exec(BridgeTree(cfg), ns, w).Ok() {
      TreesAreLocal(cfg);
      var a := Exec(cs[0], inner, u).w;
      var b := Exec(cs[1], inner, a).w;
      UpEffect(cfg.linkName, inner, u);
      BecomesHas(u, a, SandboxEnd(cfg), u.links[SandboxEnd(cfg)].(up := true));
      LocalGrows(cs[0], inner, u);
      LocalGrows(cs[1], inner, a);
      GrownKeepsUp(u, a, inner, VxlanEnd(cfg));
      GrownKeepsUp(a, b, inner, VxlanEnd(cfg));
      GrownKeepsUp(a, b, inner, SandboxEnd(cfg));
      EnslaveEffect(cfg, b);
      var d := Exec(cs[3], inner, Exec(cs[2], inner, b).w).w;
      GrownTransitive(w, u, a, inner);
      GrownTransitive(w, a, b, inner);
      GrownTransitive(w, b, d, inner);
    }
  }

  lemma FallibleGrows(w: World, ns: Ns)
    ensures Grown(w, Fallible(w).w, ns)
  {
  }

  lemma GrownKeepsUp(w: World, w': World, ns: Ns, id: LinkId)
    requires Grown(w, w', ns) && id in w.links && w.links[id].up
    ensures id in w'.links && w'.links[id].up && w'.links[id].kind == w.links[id].kind
  {
  }

  /** Putting two links that are up on the bridge, one after the other. */
  lemma EnslaveEffect(cfg: SetupConfig, w: World)
    requires VxlanEnd(cfg) != SandboxEnd(cfg)
    requires VxlanEnd(cfg) in w.links && w.links[VxlanEnd(cfg)].up && SandboxEnd(cfg) in w.links &&
      w.links[SandboxEnd(cfg)].up
    ensures var ns, bridge := SandboxNs(SandboxName(cfg.vni)), BridgeName(cfg.vni);
      var c := Exec(SetLinkMaster(bridge, VxlanName(cfg.vni)), ns, w);
      var d := Exec(SetLinkMaster(bridge, cfg.linkName), ns, c.w);
      c.Ok() && d.Ok() ==>
        && Grown(w, d.w, ns)
        && Bridged(d.w, cfg, VxlanEnd(cfg)) && Bridged(d.w, cfg, SandboxEnd(cfg))
        && BridgeEnd(cfg) in d.w.links && d.w.links[BridgeEnd(cfg)].kind.Bridge?
  {
    hide Exec, Local, Grown;
    var ns, bridge := SandboxNs(SandboxName(cfg.vni)), BridgeName(cfg.vni);
    TreesAreLocal(cfg);
    var c := Exec(SetLinkMaster(bridge, VxlanName(cfg.vni)), ns, w).w;
    var d := Exec(SetLinkMaster(bridge, cfg.linkName), ns, c).w;
    LocalGrows(SetLinkMaster(bridge, VxlanName(cfg.vni)), ns, w);
    LocalGrows(SetLinkMaster(bridge, cfg.linkName), ns, c);
    GrownTransitive(w, c, d, ns);
    MasterEffect(bridge, VxlanName(cfg.vni), ns, w);
    MasterEffect(bridge, cfg.linkName, ns, c);
  }

  lemma InNamespaceOfGroup(cs: seq<Command>, inner: Ns, ns: Ns, w: World)
    ensures var o := Exec(InNamespace(inner, Group(cs)), ns, w);
      o.Ok() ==>
        && Fallible(w).Ok() && ExecAll(cs, inner, Fallible(w).w).Ok()
        && o.w == ExecAll(cs, inner, Fallible(w).w).w
  {
  }

  // ---------- Setup, step by step ----------

  ghost function AfterSandbox(w: World, cfg: SetupConfig): Out {
    Exec(SandboxTree(cfg.vni, cfg.dns), HostNs, Fallible(w).w)
  }

  ghost function AfterVxlan(w: World, cfg: SetupConfig): Out {
    Exec(VxlanTree(cfg.vni), HostNs, AfterSandbox(w, cfg).w)
  }

  ghost function AfterVeth(w: World, cfg: SetupConfig): Out {
    Exec(VethTree(cfg), HostNs, AfterVxlan(w, cfg).w)
  }

  ghost function AfterBridge(w: World, cfg: SetupConfig): Out {
    Exec(BridgeTree(cfg), HostNs, AfterVeth(w, cfg).w)
  }

  lemma SetupSteps(w: World, cfg: SetupConfig)
    requires Setup(w, cfg).Ok()
    ensures AfterSandbox(w, cfg).Ok() && SandboxName(cfg.vni) in AfterSandbox(w, cfg).w.sandboxes
    ensures AfterVxlan(w, cfg).Ok() && AfterVeth(w, cfg).Ok() && AfterBridge(w, cfg).Ok()
    ensures Setup(w, cfg).w == AfterBridge(w, cfg).w.(plan := Setup(w, cfg).w.plan)
  {
    hide SandboxTree, VxlanTree, VethTree, BridgeTree, ExecAll, ExecPrimitive;
    var created := AfterSandbox(w, cfg).w;
    ExecAllOfThree(WiringSteps(cfg), HostNs, created);
    FallibleFrame(AfterBridge(w, cfg).w);
    HardwareAddressEffect(cfg, AfterBridge(w, cfg).w);
  }

  lemma HardwareAddressEffect(cfg: SetupConfig, w: World)
    ensures var o := Exec(InNamespace(ContainerNs(cfg.containerPath), GetHardwareAddress(cfg.interface)), HostNs, w);
      o.w == w.(plan := o.w.plan)
  {
    hide Fallible;
    FallibleFrame(w);
    var entered := Fallible(w).w;
    assert Exec(GetHardwareAddress(cfg.interface), ContainerNs(cfg.containerPath), entered).w == entered;
  }

  /** IdempotentlyCreateVxlan, when it succeeds. */
  lemma VxlanTreeEffect(cfg: SetupConfig, w: World)
    ensures var o := Exec(VxlanTree(cfg.vni), HostNs, w);
      o.Ok() ==>
        && VxlanEnd(cfg) in w.links && o.w.links == w.links[VxlanEnd(cfg) := w.links[VxlanEnd(cfg)].(up := true)]
        && o.w.sandboxes == w.sandboxes && o.w.files == w.files && o.w.casualties == w.casualties
        && o.w.nextPair == w.nextPair && o.w.monitors == w.monitors + {SandboxName(cfg.vni)}
  {
    hide ExecPrimitive, ExecAll, Fallible;
    var name, vxlan := SandboxName(cfg.vni), VxlanName(cfg.vni);
    var cs := VxlanSteps(cfg.vni);
    ExecAllOfTwo(cs, HostNs, w);
    FallibleFrame(w);
    UpEffect(vxlan, SandboxNs(name), Fallible(w).w);
    var a := Exec(cs[0], HostNs, w).w;
    MonitorEffect(name, vxlan, a);
    assert Exec(VxlanTree(cfg.vni), HostNs, w) == ExecAll(cs, HostNs, w);
  }

  lemma MonitorEffect(name: string, vxlan: string, w: World)
    ensures var o := Exec(Command.StartMonitor(name, vxlan), HostNs, w);
      && o.w == w.(plan := o.w.plan, monitors := o.w.monitors)
      && (o.Ok() ==> o.w.monitors == w.monitors + {name})
  {
    hide Fallible, WatchMisses;
    FallibleFrame(w);
    FallibleFrame(Fallible(w).w);
    WatchEffect(name, vxlan, Fallible(Fallible(w).w).w);
  }

  lemma WatchEffect(name: string, vxlan: string, w: World)
    ensures var o := WatchMisses(w, name, vxlan);
      o.w == w.(plan := o.w.plan, monitors := w.monitors + {name})
  {
    hide Fallible;
    var registered := w.(monitors := w.monitors + {name});
    FallibleFrame(registered);
    FallibleFrame(Fallible(registered).w);
  }

  /**
   Whenever Setup succeeds, from any earlier state: the vxlan link and the sandbox end of the new pair are up in
   the sandbox and on the same bridge, the container end is up and carries exactly the leased address and the
   routes, and the sandbox is registered and monitored.
   */
  lemma SetupEstablishes(w: World, cfg: SetupConfig)
    requires Setup(w, cfg).Ok()
    ensures var w' := Setup(w, cfg).w;
      && Bridged(w', cfg, VxlanEnd(cfg)) && Bridged(w', cfg, SandboxEnd(cfg))
      && BridgeEnd(cfg) in w'.links && w'.links[BridgeEnd(cfg)].kind.Bridge?
      && SandboxName(cfg.vni) in w'.sandboxes && SandboxName(cfg.vni) in w'.monitors
      && exists pair :: ContainerEnd(cfg) in w'.links && w'.links[ContainerEnd(cfg)] == ReadyEnd(cfg, pair)
                        && w'.links[SandboxEnd(cfg)].kind == Veth(pair)
    ensures var id, w' := LinkId(ContainerNs(cfg.containerPath), cfg.interface), Setup(w, cfg).w;
      && id in w'.links && w'.links[id].up && w'.links[id].addresses == [Address(cfg.lease.ip, cfg.lease.ones)]
      && RoutedAs(w'.links[id].routes, cfg.lease.routes, cfg.lease.gateway)
  {
    hide Exec, Setup, Fallible, Grown;
    SetupSteps(w, cfg);
    VxlanTreeEffect(cfg, AfterSandbox(w, cfg).w);
    var v := AfterVxlan(w, cfg).w;
    VethTreeEffect(cfg, HostNs, v);
    var p := AfterVeth(w, cfg).w;
    BridgeTreeEffect(cfg, HostNs, p);
    GrownKeepsPair(p, AfterBridge(w, cfg).w, cfg);
    assert p.links[ContainerEnd(cfg)] == ReadyEnd(cfg, v.nextPair);
    HopsAreRoutes(cfg.lease.routes, cfg.lease.gateway);
  }

  lemma GrownKeepsPair(w: World, w': World, cfg: SetupConfig)
    requires Grown(w, w', SandboxNs(SandboxName(cfg.vni)))
    requires ContainerEnd(cfg) in w.links && SandboxEnd(cfg) in w.links
    ensures ContainerEnd(cfg) in w'.links && w'.links[ContainerEnd(cfg)] == w.links[ContainerEnd(cfg)]
    ensures SandboxEnd(cfg) in w'.links && w'.links[SandboxEnd(cfg)].kind == w.links[SandboxEnd(cfg)].kind
    ensures SameTables(w, w')
  {
  }
}
