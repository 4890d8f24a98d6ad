/**
 What every run of Add, Del and restart keeps: no sandbox is torn down with a veth in it, and a sandbox with a
 veth is registered, not torn down, and monitored.
 */
module SandboxSafety {
  import opened Wrappers
  import opened Ipv4
  import opened Naming
  import opened Host
  import opened Commands
  import opened Container

  predicate Alive(w: World, name: string) {
    name in w.sandboxes && !w.sandboxes[name].destroyed
  }

  /** A sandbox a veth may be moved into. */
  predicate Ready(w: World, name: string) {
    Alive(w, name) && name in w.monitors
  }

  predicate RegisteredHaveFiles(w: World) {
    w.sandboxes.Keys <= w.files.Keys
  }

  predicate LinksHaveFiles(w: World) {
    forall k :: k in w.links && k.ns.SandboxNs? ==> k.ns.name in w.files
  }

  predicate VethsAreGuarded(w: World) {
    forall k :: k in w.links && k.ns.SandboxNs? && w.links[k].kind.Veth? ==> Ready(w, k.ns.name)
  }

  /** A torn-down sandbox that is still registered has lost its vxlan link. */
  ghost predicate TornDownLostVxlan(w: World) {
    forall vni: nat {:trigger SandboxName(vni)} ::
      SandboxName(vni) in w.sandboxes && w.sandboxes[SandboxName(vni)].destroyed ==>
        LinkId(SandboxNs(SandboxName(vni)), VxlanName(vni)) !in w.links
  }

  predicate PairsAreOld(w: World) {
    forall k :: k in w.links && w.links[k].kind.Veth? ==> w.links[k].kind.pair < w.nextPair
  }

  ghost predicate Inv(w: World) {
    && RegisteredHaveFiles(w)
    && LinksHaveFiles(w)
    && VethsAreGuarded(w)
    && TornDownLostVxlan(w)
    && w.monitors <= w.sandboxes.Keys
    && PairsAreOld(w)
    && w.casualties == {}
  }

  /** Where a link other than a veth may be made. */
  predicate MayHold(w: World, ns: Ns) {
    ns.SandboxNs? ==> Alive(w, ns.name)
  }

  // ---------- primitives ----------

  lemma FallibleKeeps(w: World)
    requires Inv(w)
    ensures Inv(Fallible(w).w)
  {
  }

  lemma PlaceLinkKeeps(w: World, id: LinkId, link: Link)
    requires Inv(w) && !link.kind.Veth? && MayHold(w, id.ns)
    ensures Inv(WithLink(w, id, link))
  {
  }

  lemma AddLinkKeeps(w: World, id: LinkId, kind: Kind)
    requires Inv(w) && !kind.Veth? && MayHold(w, id.ns)
    ensures Inv(AddLink(w, id, kind).w)
  {
    hide Inv;
    FallibleKeeps(w);
    PlaceLinkKeeps(Fallible(w).w, id, NewLink(kind));
  }

  lemma AddVethKeeps(w: World, ns: Ns, name: string, peer: string)
    requires Inv(w) && (ns.SandboxNs? ==> Ready(w, ns.name))
    ensures Inv(AddVeth(w, ns, name, peer).w)
  {
    hide Fallible;
    FallibleFrame(w);
  }

  lemma DeleteLinkKeeps(w: World, id: LinkId)
    requires Inv(w)
    ensures Inv(Host.DeleteLink(w, id).w)
  {
  }

  lemma MoveLinkKeeps(w: World, id: LinkId, target: Ns)
    requires Inv(w) && MayHold(w, target)
    requires target.SandboxNs? && id in w.links && w.links[id].kind.Veth? ==> Ready(w, target.name)
    ensures Inv(Host.MoveLink(w, id, target).w)
  {
  }

  lemma ChangeLinkKeeps(w: World, id: LinkId, link: Link)
    requires Inv(w) && id in w.links && link.kind == w.links[id].kind
    ensures Inv(WithLink(w, id, link))
  {
  }

  // ---------- wiring commands ----------

  predicate SameTables(w: World, w': World) {
    w'.sandboxes == w.sandboxes && w'.monitors == w.monitors && w'.files == w.files && w'.casualties == w.casualties
  }

  /** The commands that only touch links, moving them at most into one sandbox. */
  predicate Wires(c: Command, sandbox: string)
    decreases c
  {
    match c
    case Group(members) => forall m :: m in members ==> Wires(m, sandbox)
    case Unless(condition, body) => Wires(body, sandbox)
    case InNamespace(ns, body) => (ns.SandboxNs? ==> ns.name == sandbox) && Wires(body, sandbox)
    case MoveLink(_, target) => target == sandbox
    case CreateVeth(_, _) => true
    case CreateBridge(_) => true
    case SetLinkUp(_) => true
    case SetLinkMaster(_, _) => true
    case AddAddress(_, _) => true
    case AddRoute(_, _) => true
    case GetHardwareAddress(_) => true
    case _ => false
  }

  lemma WiringPrimitiveKeepsTables(c: Command, sandbox: string, ns: Ns, w: World)
    requires Wires(c, sandbox) && !c.Group? && !c.Unless? && !c.InNamespace?
    ensures SameTables(w, ExecPrimitive(c, ns, w).w)
  {
    hide Fallible;
    FallibleFrame(w);
  }

  lemma WiringPrimitiveKeeps(c: Command, sandbox: string, ns: Ns, w: World)
    requires Inv(w) && Ready(w, sandbox) && Wires(c, sandbox) && (ns.SandboxNs? ==> ns.name == sandbox)
    requires !c.Group? && !c.Unless? && !c.InNamespace?
    ensures var o := ExecPrimitive(c, ns, w); Inv(o.w) && SameTables(w, o.w)
  {
    hide Inv, SameTables, Host.MoveLink, AddVeth, AddLink, SetUp, SetMaster, Host.AddAddress, Host.AddRoute;
    WiringPrimitiveKeepsTables(c, sandbox, ns, w);
    match c
    case MoveLink(link, _) => MoveLinkKeeps(w, LinkId(ns, link), SandboxNs(sandbox));
    case CreateVeth(link, peer) => AddVethKeeps(w, ns, link, peer);
    case CreateBridge(link) => AddLinkKeeps(w, LinkId(ns, link), Bridge);
    case SetLinkUp(link) => SetUpKeeps(w, LinkId(ns, link));
    case SetLinkMaster(master, slave) => SetMasterKeeps(w, ns, slave, master);
    case AddAddress(link, address) => AddAddressKeeps(w, LinkId(ns, link), address);
    case AddRoute(link, hop) => AddRouteKeeps(w, LinkId(ns, link), hop);
    case _ =>
  }

  lemma SetUpKeeps(w: World, id: LinkId)
    requires Inv(w)
    ensures Inv(SetUp(w, id).w)
  {
    hide Inv;
    if id in w.links {
      FallibleKeeps(w);
      ChangeLinkKeeps(Fallible(w).w, id, w.links[id].(up := true));
    }
  }

  lemma SetMasterKeeps(w: World, ns: Ns, slave: string, master: string)
    requires Inv(w)
    ensures Inv(SetMaster(w, ns, slave, master).w)
  {
    hide Inv;
    var id := LinkId(ns, slave);
    if id in w.links {
      FallibleKeeps(w);
      ChangeLinkKeeps(Fallible(w).w, id, w.links[id].(master := Some(master)));
    }
  }

  lemma AddAddressKeeps(w: World, id: LinkId, address: Address)
    requires Inv(w)
    ensures Inv(Host.AddAddress(w, id, address).w)
  {
    hide Inv;
    if id in w.links {
      FallibleKeeps(w);
      ChangeLinkKeeps(Fallible(w).w, id, w.links[id].(addresses := w.links[id].addresses + [address]));
    }
  }

  lemma AddRouteKeeps(w: World, id: LinkId, hop: Hop)
    requires Inv(w)
    ensures Inv(Host.AddRoute(w, id, hop).w)
  {
    hide Inv;
    if id in w.links {
      FallibleKeeps(w);
      ChangeLinkKeeps(Fallible(w).w, id, w.links[id].(routes := w.links[id].routes + [hop]));
    }
  }

  /** Every tree of wiring commands keeps the invariant and the daemon's tables, wherever it stops. */
  lemma {:induction false} WiringKeeps(c: Command, sandbox: string, ns: Ns, w: World)
    requires Inv(w) && Ready(w, sandbox) && Wires(c, sandbox) && (ns.SandboxNs? ==> ns.name == sandbox)
    ensures var o := Exec(c, ns, w); Inv(o.w) && SameTables(w, o.w)
    decreases c, 1
  {
    hide Inv;
    match c
    case Group(members) => WiringAllKeeps(members, sandbox, ns, w);
    case Unless(_, body) => WiringKeeps(body, sandbox, ns, w);
    case InNamespace(inner, body) =>
      FallibleKeeps(w);
      WiringKeeps(body, sandbox, inner, Fallible(w).w);
    case _ => WiringPrimitiveKeeps(c, sandbox, ns, w);
  }

  lemma {:induction false} WiringAllKeeps(cs: seq<Command>, sandbox: string, ns: Ns, w: World)
    requires Inv(w) && Ready(w, sandbox) && (ns.SandboxNs? ==> ns.name == sandbox)
    requires forall c :: c in cs ==> Wires(c, sandbox)
    ensures var o := ExecAll(cs, ns, w); Inv(o.w) && SameTables(w, o.w)
    decreases cs, 0
  {
    hide Inv;
    if cs != [] {
      WiringKeeps(cs[0], sandbox, ns, w);
      var first := Exec(cs[0], ns, w);
      if first.Ok() {
        WiringAllKeeps(cs[1..], sandbox, ns, first.w);
      }
    }
  }

  // ---------- creating a sandbox ----------

  lemma FallibleFrame(w: World)
    ensures Fallible(w).w == w.(plan := Fallible(w).w.plan)
  {
  }

  /** One link aside, two sets of links are the same. */
  predicate SameBut(links: Links, links': Links, id: LinkId) {
    && (forall k :: k in links && k != id ==> k in links' && links'[k] == links[k])
    && (forall k :: k in links' && k != id ==> k in links)
  }

  /** However it ends, making a namespace adds at most the file and the loopback. */
  lemma CreateNamespaceFrame(w: World, name: string)
    ensures var o := CreateNamespace(w, name);
      var lo := LinkId(SandboxNs(name), "lo");
      && o.w == w.(plan := o.w.plan, files := o.w.files, links := o.w.links)
      && w.files.Keys <= o.w.files.Keys && o.w.files - {name} == w.files - {name}
      && (o.Ok() ==> name in o.w.files && o.w.files[name] == Mounted)
      && (name in w.files ==> !o.Ok() && o.w.files == w.files && o.w.links == w.links)
      && SameBut(w.links, o.w.links, lo)
  {
    hide Fallible;
    FallibleFrame(w);
    var added := Fallible(w).w;
    FallibleFrame(added);
    var bare := Fallible(added).w.(files := w.files[name := Bare]);
    FallibleFrame(bare);
    var lo := LinkId(SandboxNs(name), "lo");
    var mounted := WithLink(Fallible(bare).w.(files := w.files[name := Mounted]), lo, NewLink(Loopback));
    FallibleFrame(mounted);
  }

  /** However it ends, a creation adds at most the sandbox, its file and its loopback. */
  lemma CreateSandboxFrame(w: World, name: string)
    ensures var w' := Host.CreateSandbox(w, name).w;
      var lo := LinkId(SandboxNs(name), "lo");
      && w' == w.(plan := w'.plan, files := w'.files, links := w'.links, sandboxes := w'.sandboxes)
      && (w'.sandboxes == w.sandboxes || w'.sandboxes == w.sandboxes[name := Sandbox(false, false)])
      && w.files.Keys <= w'.files.Keys && w'.files - {name} == w.files - {name}
      && (name in w'.sandboxes && name !in w.sandboxes ==> name in w'.files && w'.files[name] == Mounted)
      && (name in w.files || name in w.sandboxes ==>
            w'.files == w.files && w'.links == w.links && w'.sandboxes == w.sandboxes)
      && SameBut(w.links, w'.links, lo)
  {
    hide Fallible, CreateNamespace;
    CreateNamespaceFrame(w, name);
    var registered := CreateNamespace(w, name).w.(sandboxes := w.sandboxes[name := Sandbox(false, false)]);
    FallibleFrame(registered);
    FallibleFrame(Fallible(registered).w);
  }

  lemma NewFileKeeps(w: World, name: string)
    requires Inv(w)
    ensures Inv(w.(files := w.files[name := Bare])) && Inv(w.(files := w.files[name := Mounted]))
  {
  }

  /** A new namespace has a file but no sandbox yet; its loopback is no veth and no vxlan of a sandbox. */
  lemma LoopbackKeeps(w: World, name: string)
    requires Inv(w) && name !in w.sandboxes && name in w.files
    ensures Inv(WithLink(w, LinkId(SandboxNs(name), "lo"), NewLink(Loopback)))
  {
  }

  lemma CreateNamespaceKeeps(w: World, name: string)
    requires Inv(w) && name !in w.sandboxes
    ensures var o := CreateNamespace(w, name);
      Inv(o.w) && o.w.sandboxes == w.sandboxes && (o.Ok() ==> name in o.w.files)
  {
    hide Inv, Fallible;
    FallibleFrame(w);
    FallibleKeeps(w);
    var added := Fallible(w).w;
    FallibleFrame(added);
    FallibleKeeps(added);
    var touched := Fallible(added).w;
    if name !in w.files {
      var bare := touched.(files := touched.files[name := Bare]);
      NewFileKeeps(touched, name);
      FallibleFrame(bare);
      FallibleKeeps(bare);
      var full := Fallible(bare).w;
      var mounted := full.(files := full.files[name := Mounted]);
      assert mounted.files == w.files[name := Mounted];
      NewFileKeeps(full, name);
      LoopbackKeeps(mounted, name);
      var looped := WithLink(mounted, LinkId(SandboxNs(name), "lo"), NewLink(Loopback));
      FallibleFrame(looped);
      FallibleKeeps(looped);
    }
  }

  lemma RegisterKeeps(w: World, name: string)
    requires Inv(w) && name in w.files && name !in w.sandboxes
    ensures Inv(w.(sandboxes := w.sandboxes[name := Sandbox(false, false)]))
  {
  }

  lemma CreateSandboxKeeps(w: World, name: string)
    requires Inv(w)
    ensures var o := Host.CreateSandbox(w, name);
      Inv(o.w) && (o.Ok() ==> Alive(o.w, name))
  {
    hide Inv, CreateNamespace, Fallible;
    if name !in w.sandboxes {
      CreateNamespaceKeeps(w, name);
      var ns := CreateNamespace(w, name);
      if ns.Ok() {
        RegisterKeeps(ns.w, name);
        var registered := ns.w.(sandboxes := w.sandboxes[name := Sandbox(false, false)]);
        FallibleFrame(registered);
        FallibleKeeps(registered);
        FallibleFrame(Fallible(registered).w);
        SetUpKeeps(Fallible(registered).w, LinkId(SandboxNs(name), "lo"));
      }
    }
  }

  lemma LaunchKeeps(w: World, name: string)
    requires Inv(w) && Alive(w, name)
    ensures Inv(w.(sandboxes := w.sandboxes[name := w.sandboxes[name].(dns := true)]))
  {
  }

  lemma StartDNSKeeps(w: World, name: string, address: IP)
    requires Inv(w) && Alive(w, name)
    ensures Inv(StartDNS(w, name, address).w)
  {
    hide Inv, ListenDNS;
    FallibleKeeps(w);
    var resolved := Fallible(w);
    if resolved.Ok() {
      ListenDNSKeeps(resolved.w, name, address);
      var listening := ListenDNS(resolved.w, SandboxNs(name), address);
      LaunchKeeps(listening.w, name);
      FallibleKeeps(listening.w.(sandboxes := w.sandboxes[name := w.sandboxes[name].(dns := true)]));
    }
  }

  lemma ListenDNSKeeps(w: World, name: string, address: IP)
    requires Inv(w) && Alive(w, name)
    ensures var o := ListenDNS(w, SandboxNs(name), address); Inv(o.w) && SameTables(w, o.w)
  {
    hide Inv, AddLink, Host.AddAddress, SetUp, Fallible;
    var id := LinkId(SandboxNs(name), DNS_INTERFACE_NAME);
    FallibleKeeps(w);
    var entered := Fallible(w);
    LinkOpsKeepTables(w, id, Dummy, Address(address, 32));
    AddLinkKeeps(entered.w, id, Dummy);
    var created := AddLink(entered.w, id, Dummy);
    LinkOpsKeepTables(entered.w, id, Dummy, Address(address, 32));
    AddAddressKeeps(created.w, id, Address(address, 32));
    var addressed := Host.AddAddress(created.w, id, Address(address, 32));
    LinkOpsKeepTables(created.w, id, Dummy, Address(address, 32));
    SetUpKeeps(addressed.w, id);
    LinkOpsKeepTables(addressed.w, id, Dummy, Address(address, 32));
    FallibleKeeps(SetUp(addressed.w, id).w);
    LinkOpsKeepTables(SetUp(addressed.w, id).w, id, Dummy, Address(address, 32));
  }

  /** Link operations leave the daemon's tables alone. */
  lemma LinkOpsKeepTables(w: World, id: LinkId, kind: Kind, address: Address)
    ensures SameTables(w, Fallible(w).w)
    ensures SameTables(w, AddLink(w, id, kind).w)
    ensures SameTables(w, Host.AddAddress(w, id, address).w)
    ensures SameTables(w, SetUp(w, id).w)
  {
  }

  /** Creating the sandbox with its vxlan link and DNS server keeps the invariant, wherever it stops. */
  lemma SandboxTreeKeeps(vni: nat, dns: IP, w: World)
    requires Inv(w)
    ensures Inv(Exec(SandboxTree(vni, dns), HostNs, w).w)
  {
    hide Inv;
    hide Host.CreateSandbox, StartDNS;
    var name, vxlan := SandboxName(vni), VxlanName(vni);
    if name !in w.sandboxes {
      var cs := SandboxSteps(vni, dns);
      CreateSandboxKeeps(w, name);
      var a := Exec(cs[0], HostNs, w);
      AddLinkKeeps(a.w, LinkId(HostNs, vxlan), Vxlan(vni));
      var b := Exec(cs[1], HostNs, a.w);
      if a.Ok() && b.Ok() {
        MoveLinkKeeps(b.w, LinkId(HostNs, vxlan), SandboxNs(name));
        var c := Exec(cs[2], HostNs, b.w);
        if c.Ok() {
          StartDNSKeeps(c.w, name, dns);
        }
      }
      ExecAllOfFour(cs, HostNs, w);
    }
  }

  /** Four commands in a row. */
  lemma ExecAllOfFour(cs: seq<Command>, ns: Ns, w: World)
    requires |cs| == 4
    ensures var a := Exec(cs[0], ns, w);
      var b := Exec(cs[1], ns, a.w);
      var c := Exec(cs[2], ns, b.w);
      var d := Exec(cs[3], ns, c.w);
      var o := ExecAll(cs, ns, w);
      && o.w == (if !a.Ok() then a.w else if !b.Ok() then b.w else if !c.Ok() then c.w else d.w)
      && (o.Ok() <==> a.Ok() && b.Ok() && c.Ok() && d.Ok())
  {
    var a := Exec(cs[0], ns, w);
    var b := Exec(cs[1], ns, a.w);
    var c := Exec(cs[2], ns, b.w);
    assert cs[1..][0] == cs[1] && cs[2..][0] == cs[2] && cs[3..][0] == cs[3];
    assert cs[1..][1..] == cs[2..] && cs[2..][1..] == cs[3..] && cs[3..][1..] == [];
    assert ExecAll([], ns, Exec(cs[3], ns, c.w).w).Ok();
    var last := ExecAll(cs[3..], ns, c.w);
    var third := ExecAll(cs[2..], ns, b.w);
    var second := ExecAll(cs[1..], ns, a.w);
  }

  // ---------- starting the monitor ----------

  lemma WatchMissesKeeps(w: World, name: string, vxlan: string)
    requires Inv(w) && name in w.sandboxes
    ensures var o := WatchMisses(w, name, vxlan);
      Inv(o.w) && o.w.sandboxes == w.sandboxes && name in o.w.monitors && o.w.links == w.links
  {
    hide Fallible;
    var registered := w.(monitors := w.monitors + {name});
    assert Inv(registered);
    hide Inv;
    FallibleFrame(registered);
    FallibleKeeps(registered);
    FallibleFrame(Fallible(registered).w);
    FallibleKeeps(Fallible(registered).w);
  }

  lemma StartMonitorKeeps(w: World, name: string, vxlan: string)
    requires Inv(w) && name in w.sandboxes
    ensures var o := Host.StartMonitor(w, name, vxlan);
      Inv(o.w) && o.w.sandboxes == w.sandboxes && (o.Ok() ==> name in o.w.monitors)
  {
    hide Inv;
    FallibleKeeps(w);
    FallibleKeeps(Fallible(w).w);
    WatchMissesKeeps(Fallible(Fallible(w).w).w, name, vxlan);
  }

  lemma VxlanMeansAlive(w: World, vni: nat)
    requires Inv(w) && SandboxName(vni) in w.sandboxes
    requires LinkId(SandboxNs(SandboxName(vni)), VxlanName(vni)) in w.links
    ensures Alive(w, SandboxName(vni))
  {
  }

  /** Bringing the vxlan link up succeeds only in a sandbox that is alive; after the monitor it is ready. */
  lemma VxlanTreeKeeps(vni: nat, w: World)
    requires Inv(w) && SandboxName(vni) in w.sandboxes
    ensures var o := Exec(VxlanTree(vni), HostNs, w);
      Inv(o.w) && (o.Ok() ==> Ready(o.w, SandboxName(vni)))
  {
    hide Inv;
    var name, vxlan := SandboxName(vni), VxlanName(vni);
    var cs := VxlanSteps(vni);
    var id := LinkId(SandboxNs(name), vxlan);
    FallibleKeeps(w);
    var entered := Fallible(w);
    SetUpKeeps(entered.w, id);
    var up := Exec(SetLinkUp(vxlan), SandboxNs(name), entered.w);
    assert up == SetUp(entered.w, id).Wrap();
    var a := Exec(cs[0], HostNs, w);
    if a.Ok() {
      VxlanMeansAlive(w, vni);
      StartMonitorKeeps(a.w, name, vxlan);
    }
    ExecAllOfTwo(cs, HostNs, w);
  }

  lemma ExecAllOfTwo(cs: seq<Command>, ns: Ns, w: World)
    requires |cs| == 2
    ensures var a := Exec(cs[0], ns, w);
      var b := Exec(cs[1], ns, a.w);
      var o := ExecAll(cs, ns, w);
      && o.w == (if !a.Ok() then a.w else b.w)
      && (o.Ok() <==> a.Ok() && b.Ok())
  {
    var a := Exec(cs[0], ns, w);
    assert cs[1..][0] == cs[1] && cs[1..][1..] == [];
    assert ExecAll([], ns, Exec(cs[1], ns, a.w).w).Ok();
    var last := ExecAll(cs[1..], ns, a.w);
  }

  // ---------- setting up ----------

  lemma ExecAllOfThree(cs: seq<Command>, ns: Ns, w: World)
    requires |cs| == 3
    ensures var a := Exec(cs[0], ns, w);
      var b := Exec(cs[1], ns, a.w);
      var c := Exec(cs[2], ns, b.w);
      var o := ExecAll(cs, ns, w);
      && o.w == (if !a.Ok() then a.w else if !b.Ok() then b.w else c.w)
      && (o.Ok() <==> a.Ok() && b.Ok() && c.Ok())
  {
    var a := Exec(cs[0], ns, w);
    ExecAllOfTwo(cs[1..], ns, a.w);
  }

  lemma TreesWire(cfg: SetupConfig)
    ensures Wires(VethTree(cfg), SandboxName(cfg.vni)) && Wires(BridgeTree(cfg), SandboxName(cfg.vni))
  {
    RoutesWire(cfg);
    NewBridgeWires(cfg);
    hide RouteCommands, NewBridgeTree, SandboxName;
    var routes := Group(RouteCommands(cfg.interface, cfg.lease.routes, cfg.lease.gateway));
    assert Wires(VethTree(cfg).body, SandboxName(cfg.vni));
    assert Wires(BridgeTree(cfg).body, SandboxName(cfg.vni));
  }

  lemma RoutesWire(cfg: SetupConfig)
    ensures Wires(Group(RouteCommands(cfg.interface, cfg.lease.routes, cfg.lease.gateway)), SandboxName(cfg.vni))
  {
  }

  lemma NewBridgeWires(cfg: SetupConfig)
    ensures Wires(NewBridgeTree(cfg), SandboxName(cfg.vni))
  {
  }

  lemma SetupKeeps(w: World, cfg: SetupConfig)
    requires Inv(w)
    ensures Inv(Setup(w, cfg).w)
  {
    hide Inv, SandboxTree, VxlanTree, VethTree, BridgeTree, Fallible, Wires;
    var name := SandboxName(cfg.vni);
    FallibleKeeps(w);
    var container := Fallible(w);
    SandboxTreeKeeps(cfg.vni, cfg.dns, container.w);
    var created := Exec(SandboxTree(cfg.vni, cfg.dns), HostNs, container.w);
    if name in created.w.sandboxes {
      WireKeeps(created.w, cfg);
      var wired := Exec(Group(WiringSteps(cfg)), HostNs, created.w);
      FallibleKeeps(wired.w);
      var entered := Fallible(wired.w).w;
      assert Exec(GetHardwareAddress(cfg.interface), ContainerNs(cfg.containerPath), entered).w == entered;
    }
  }

  lemma WireKeeps(w: World, cfg: SetupConfig)
    requires Inv(w) && SandboxName(cfg.vni) in w.sandboxes
    ensures Inv(Exec(Group(WiringSteps(cfg)), HostNs, w).w)
  {
    hide Inv, VxlanTree, VethTree, BridgeTree, Wires;
    var name := SandboxName(cfg.vni);
    var cs := WiringSteps(cfg);
    TreesWire(cfg);
    ExecAllOfThree(cs, HostNs, w);
    VxlanTreeKeeps(cfg.vni, w);
    var a := Exec(cs[0], HostNs, w);
    if a.Ok() {
      WiringKeeps(cs[1], name, HostNs, a.w);
      WiringKeeps(cs[2], name, HostNs, Exec(cs[1], HostNs, a.w).w);
    }
  }

  // ---------- tearing down ----------

  lemma TeardownKeeps(w: World, vni: nat)
    requires Inv(w) && SandboxName(vni) in w.sandboxes
    requires VethsIn(w.links, SandboxNs(SandboxName(vni))) == {}
    requires LinkId(SandboxNs(SandboxName(vni)), VxlanName(vni)) !in w.links
    ensures Inv(Teardown(w, SandboxName(vni)).w)
  {
    var name := SandboxName(vni);
    var o := Teardown(w, name);
    forall k | k in o.w.links && k.ns.SandboxNs? && o.w.links[k].kind.Veth?
      ensures Ready(o.w, k.ns.name)
    {
      assert k.ns.name == name ==> k in VethsIn(w.links, SandboxNs(name));
    }
    forall v: nat | SandboxName(v) in o.w.sandboxes && o.w.sandboxes[SandboxName(v)].destroyed
      ensures LinkId(SandboxNs(SandboxName(v)), VxlanName(v)) !in o.w.links
    {
      if SandboxName(v) == name {
        SandboxNameInjective(v, vni);
      }
    }
  }

  /** Taking a torn-down sandbox away with its file and its links. */
  lemma RemovalKeeps(w: World, name: string)
    requires Inv(w) && name !in w.monitors
    ensures Inv(w.(files := w.files - {name}, links := WithoutNs(w.links, SandboxNs(name)), sandboxes :=
      w.sandboxes - {name}))
  {
  }

  lemma BareFileKeeps(w: World, name: string)
    requires Inv(w) && name in w.files
    ensures Inv(w.(files := w.files[name := Bare]))
  {
  }

  lemma DestroyKeeps(w: World, vni: nat)
    requires Inv(w) && SandboxName(vni) in w.sandboxes
    requires VethsIn(w.links, SandboxNs(SandboxName(vni))) == {}
    requires LinkId(SandboxNs(SandboxName(vni)), VxlanName(vni)) !in w.links
    ensures Inv(DestroySandbox(w, SandboxName(vni)).w)
  {
    hide Inv, Fallible, VethsIn, WithoutNs;
    var name := SandboxName(vni);
    TeardownKeeps(w, vni);
    var torn := Teardown(w, name);
    if torn.Ok() {
      FallibleFrame(torn.w);
      FallibleKeeps(torn.w);
      var unmounted := Fallible(torn.w).w;
      if name in unmounted.files {
        BareFileKeeps(unmounted, name);
        var bare := unmounted.(files := unmounted.files[name := Bare]);
        FallibleFrame(bare);
        FallibleKeeps(bare);
        var removed := Fallible(bare).w;
        RemovalKeeps(removed, name);
        assert removed.files - {name} == torn.w.files - {name};
      }
    }
  }

  lemma DropVxlanKeeps(w: World, ns: Ns, vxlan: string)
    requires Inv(w)
    ensures var o := DropVxlan(w, ns, vxlan);
      && Inv(o.w) && SameTables(w, o.w)
      && (o.Ok() ==> LinkId(ns, vxlan) !in o.w.links)
      && o.w.links.Keys <= w.links.Keys
      && (forall k :: k in o.w.links ==> o.w.links[k].kind == w.links[k].kind)
  {
    hide Inv;
    FallibleKeeps(w);
    DeleteLinkKeeps(Fallible(w).w, LinkId(ns, vxlan));
  }

  /** Cleaning up keeps the invariant, wherever it stops. */
  lemma CleanupKeeps(w: World, vni: nat)
    requires Inv(w)
    ensures Inv(Cleanup(w, SandboxName(vni), VxlanName(vni)).w)
  {
    hide Inv, DropVxlan, Fallible, DestroySandbox;
    var name, vxlan := SandboxName(vni), VxlanName(vni);
    if name in w.sandboxes {
      FallibleFrame(w);
      FallibleKeeps(w);
      var entered := Fallible(w);
      FallibleFrame(entered.w);
      FallibleKeeps(entered.w);
      var listed := Fallible(entered.w);
      DropVxlanKeeps(listed.w, SandboxNs(name), vxlan);
      var dropped := DropVxlan(listed.w, SandboxNs(name), vxlan);
      if dropped.Ok() && VethsIn(w.links, SandboxNs(name)) == {} {
        assert VethsIn(dropped.w.links, SandboxNs(name)) <= VethsIn(w.links, SandboxNs(name));
        DestroyKeeps(dropped.w, vni);
      }
    }
  }

  lemma DeleteKeeps(w: World, interface: string, containerPath: string, vni: nat)
    requires Inv(w)
    ensures Inv(Delete(w, interface, containerPath, vni).w)
  {
    hide Inv, Cleanup, Fallible, Host.DeleteLink;
    FallibleKeeps(w);
    var container := Fallible(w);
    FallibleKeeps(container.w);
    var entered := Fallible(container.w);
    var cs := DeleteSteps(interface, containerPath, vni);
    DeleteLinkKeeps(entered.w, LinkId(ContainerNs(containerPath), interface));
    var inner := Exec(Command.DeleteLink(interface), ContainerNs(containerPath), entered.w);
    var a := Exec(cs[0], HostNs, container.w);
    CleanupKeeps(a.w, vni);
    ExecAllOfTwo(cs, HostNs, container.w);
  }

  // ---------- runs ----------

  /** One request or restart, with the plan of which of its calls fail. */
  datatype Op =
    | Add(cfg: SetupConfig, plan: seq<bool>)
    | Del(interface: string, containerPath: string, vni: nat, plan: seq<bool>)
    | Restart(root: string)
    | ContainerGone(path: string)   // the container runtime removes a container's namespace

  /** A restart succeeds when every namespace file can be loaded and its monitor started. */
  predicate CanRestart(w: World, root: string) {
    AllReloadable(w, root, w.files.Keys)
  }

  predicate AllReloadable(w: World, root: string, names: set<string>) {
    forall name :: name in names ==> Reloadable(w, root, name)
  }

  /** The reloader's callback can find the file, the name and the vxlan link. */
  predicate Reloadable(w: World, root: string, name: string) {
    && name in w.files && w.files[name] == Mounted && GetVxlanName(root + "/" + name).Ok?
    && LinkId(SandboxNs(name), GetVxlanName(root + "/" + name).value) in w.links
  }

  /** Load and ForEach on an empty repository. */
  function Restarted(w: World): World {
    w.(sandboxes := map name | name in w.files :: Sandbox(false, false), monitors := w.files.Keys)
  }

  function Step(w: World, op: Op): World {
    match op
    case Add(cfg, plan) => Setup(w.(plan := plan), cfg).w
    case Del(interface, path, vni, plan) => Delete(w.(plan := plan), interface, path, vni).w
    case Restart(root) => if CanRestart(w, root) then Restarted(w) else w
    case ContainerGone(path) => w.(links := WithoutNs(w.links, ContainerNs(path)))
  }

  /** A first boot: no sandboxes, no monitors, no links in any sandbox; stale files may lie about. */
  predicate IsBoot(w: World) {
    && w.sandboxes == map[] && w.monitors == {} && w.casualties == {}
    && (forall k :: k in w.links ==> !k.ns.SandboxNs?)
    && PairsAreOld(w)
  }

  function Run(w: World, ops: seq<Op>): World {
    if ops == [] then w else Step(Run(w, ops[..|ops| - 1]), ops[|ops| - 1])
  }

  lemma PlanKeeps(w: World, plan: seq<bool>)
    requires Inv(w)
    ensures Inv(w.(plan := plan))
  {
  }

  lemma RestartKeeps(w: World)
    requires Inv(w)
    ensures Inv(Restarted(w))
  {
  }

  lemma NamespaceGoneKeeps(w: World, path: string)
    requires Inv(w)
    ensures Inv(w.(links := WithoutNs(w.links, ContainerNs(path))))
  {
  }

  lemma StepKeeps(w: World, op: Op)
    requires Inv(w)
    ensures Inv(Step(w, op))
  {
    hide Inv, Setup, Delete, WithoutNs;
    match op
    case Add(cfg, plan) =>
      PlanKeeps(w, plan);
      SetupKeeps(w.(plan := plan), cfg);
    case Del(interface, path, vni, plan) =>
      PlanKeeps(w, plan);
      DeleteKeeps(w.(plan := plan), interface, path, vni);
    case Restart(root) => RestartKeeps(w);
    case ContainerGone(path) => NamespaceGoneKeeps(w, path);
  }

  lemma {:induction false} RunKeeps(w: World, ops: seq<Op>)
    requires IsBoot(w)
    ensures Inv(Run(w, ops))
  {
    if ops != [] {
      RunKeeps(w, ops[..|ops| - 1]);
      StepKeeps(Run(w, ops[..|ops| - 1]), ops[|ops| - 1]);
    }
  }

  /**
   After every run from boot of Add, Del, restart and disappearing containers, whichever calls fail: no sandbox
   was ever torn down with a veth in it; a sandbox with a veth in it is registered, not torn down and monitored;
   and every registered sandbox has its file.
   */
  lemma SandboxesWithVethsAreSafe(w: World, ops: seq<Op>, id: LinkId)
    requires IsBoot(w)
    ensures var end := Run(w, ops);
      && end.casualties == {}
      && end.monitors <= end.sandboxes.Keys <= end.files.Keys
      && (id in end.links && id.ns.SandboxNs? && end.links[id].kind.Veth? ==>
            && id.ns.name in end.sandboxes && !end.sandboxes[id.ns.name].destroyed
            && id.ns.name in end.monitors)
  {
    RunKeeps(w, ops);
  }
}
