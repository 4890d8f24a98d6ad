/**
 When a network can be used again: exactly as long as its sandbox has the vxlan link, or nothing is in the way of
 making both. The runs are those of requests whose links are named as NameSandboxLink names them.
 */
module Lost {
  import opened Wrappers
  import opened Ipv4
  import opened Naming
  import opened AddressPool
  import opened Host
  import opened Commands
  import opened Container
  import opened SandboxSafety
  import opened SetupEffects
  import opened SetupDelete
  import opened SetupSucceeds
  import opened Sparing
  import opened Stranded
  import Bridges

  /**
   The sandbox has no vxlan link, and something is in the way of making it with one: it is registered, its file is
   there, or a link of the host bears the vxlan link's name for good.
   */
  predicate IsLost(w: World, vni: nat) {
    && VxlanOf(vni) !in w.links
    && (SandboxName(vni) in w.sandboxes || SandboxName(vni) in w.files || HostTaken(w, vni))
  }

  predicate NamedByBase32(ops: seq<Op>) {
    forall i :: 0 <= i < |ops| && ops[i].Add? ==> IsLinkName(ops[i].cfg.linkName)
  }

  // ---------- what every such run keeps of a network ----------

  /** The sandbox's own links are what their names say, and none of them bears a container's name. */
  ghost predicate LinksInOrder(w: World, vni: nat) {
    && (VxlanOf(vni) in w.links ==> w.links[VxlanOf(vni)].kind == Vxlan(vni) && SandboxName(vni) in w.sandboxes)
    && (BridgeOf(vni) in w.links ==> w.links[BridgeOf(vni)].kind.Bridge?)
    && (DNSOf(vni) in w.links ==> w.links[DNSOf(vni)].kind.Dummy?)
  }

  /** A registered sandbox that is not torn down is mounted; one without its vxlan link is torn down or unmonitored. */
  ghost predicate EntriesInOrder(w: World, vni: nat) {
    var name := SandboxName(vni);
    name in w.sandboxes ==>
      && (!w.sandboxes[name].destroyed ==> name in w.files && w.files[name] == Mounted)
      && (VxlanOf(vni) !in w.links ==> w.sandboxes[name].destroyed || name !in w.monitors)
  }

  ghost predicate InOrder(w: World, vni: nat) {
    LinksInOrder(w, vni) && EntriesInOrder(w, vni)
  }

  lemma SparedInOrder(w: World, w': World, vni: nat)
    requires InOrder(w, vni) && Spares(w, w', vni)
    ensures InOrder(w', vni)
  {
  }

  lemma OwnNamesDiffer(vni: nat)
    ensures VxlanOf(vni) != BridgeOf(vni) && VxlanOf(vni) != DNSOf(vni) && BridgeOf(vni) != DNSOf(vni)
    ensures var lo := LinkId(SandboxNs(SandboxName(vni)), "lo");
      lo != VxlanOf(vni) && lo != BridgeOf(vni) && lo != DNSOf(vni)
  {
    LinkNamesDiffer(vni);
    assert VxlanName(vni)[0] == 'v' && BridgeName(vni)[0] == 'v' && DNS_INTERFACE_NAME[0] == 'd' && "lo"[0] == 'l';
  }

  /** A container's link is named like none of the sandbox's own. */
  lemma ContainersNamesDiffer(linkName: string, vni: nat)
    requires IsLinkName(linkName)
    ensures linkName !in ["lo", DNS_INTERFACE_NAME, VxlanName(vni), BridgeName(vni)]
  {
    assert VxlanName(vni)[0] == 'v' && BridgeName(vni)[0] == 'v' && DNS_INTERFACE_NAME[0] == 'd' && "lo"[0] == 'l';
    assert linkName[0] <= 'Z';
  }

  // ---------- creating the sandbox ----------

  lemma CreationInOrder(w: World, vni: nat)
    requires InOrder(w, vni) && SandboxName(vni) !in w.sandboxes && SandboxName(vni) !in w.monitors
    ensures var o := Exec(Command.CreateSandbox(SandboxName(vni)), HostNs, w);
      && InOrder(o.w, vni) && SandboxName(vni) !in o.w.monitors && VxlanOf(vni) !in o.w.links
      && (o.Ok() ==> SandboxName(vni) in o.w.sandboxes)
  {
    hide Host.CreateSandbox;
    CreateSandboxFrame(w, SandboxName(vni));
    CreateRegisters(SandboxName(vni), HostNs, w);
    OwnNamesDiffer(vni);
  }

  /** Making the vxlan link in the host's namespace. */
  lemma VxlanMadeInOrder(w: World, vni: nat)
    requires InOrder(w, vni) && SandboxName(vni) in w.sandboxes && VxlanOf(vni) !in w.links
    requires SandboxName(vni) !in w.monitors
    ensures var o := Exec(CreateVxlan(VxlanName(vni), vni), HostNs, w);
      && o.w == w.(plan := o.w.plan, links := o.w.links) && SameBut(w.links, o.w.links, HostVxlan(vni))
      && (o.Ok() ==> HostVxlan(vni) in o.w.links && o.w.links[HostVxlan(vni)].kind == Vxlan(vni))
      && InOrder(o.w, vni)
  {
    hide Fallible;
    FallibleFrame(w);
  }

  lemma VxlanMovedInOrder(w: World, vni: nat)
    requires InOrder(w, vni) && HostVxlan(vni) in w.links && w.links[HostVxlan(vni)].kind == Vxlan(vni)
    requires SandboxName(vni) in w.sandboxes
    ensures var o := Exec(Command.MoveLink(VxlanName(vni), SandboxName(vni)), HostNs, w);
      InOrder(o.w, vni) && o.w.sandboxes == w.sandboxes
  {
    hide Fallible;
    FallibleFrame(w);
    OwnNamesDiffer(vni);
  }

  lemma DNSInOrder(w: World, vni: nat, dns: IP)
    requires InOrder(w, vni)
    ensures InOrder(Exec(StartDNSServer(SandboxName(vni), dns), HostNs, w).w, vni)
  {
    hide Fallible, ListenDNS;
    FallibleFrame(w);
    var name := SandboxName(vni);
    var resolved := Fallible(w).w;
    ListenKeepsTables(resolved, SandboxNs(name), dns);
    ListenKeepsDummy(resolved, SandboxNs(name), dns);
    OwnNamesDiffer(vni);
    var heard := ListenDNS(resolved, SandboxNs(name), dns).w;
    if name in w.sandboxes {
      FallibleFrame(heard.(sandboxes := w.sandboxes[name := w.sandboxes[name].(dns := true)]));
    }
  }

  /** The link that listening for DNS adds is a dummy. */
  lemma ListenKeepsDummy(w: World, ns: Ns, dns: IP)
    ensures var id := LinkId(ns, DNS_INTERFACE_NAME);
      var w' := ListenDNS(w, ns, dns).w;
      && (id in w.links ==> id in w'.links && w'.links[id].kind == w.links[id].kind)
      && (id in w'.links && id !in w.links ==> w'.links[id].kind.Dummy?)
  {
    hide Fallible;
    var id := LinkId(ns, DNS_INTERFACE_NAME);
    var entered := Fallible(w).w;
    var created := AddLink(entered, id, Dummy).w;
    var addressed := Host.AddAddress(created, id, Address(dns, 32)).w;
    FallibleFrame(w);
    FallibleFrame(entered);
    FallibleFrame(created);
    FallibleFrame(addressed);
    FallibleFrame(SetUp(addressed, id).w);
  }

  /** Creating the network's sandbox, wherever it stops. */
  lemma SandboxTreeInOrder(w: World, cfg: SetupConfig)
    requires InOrder(w, cfg.vni) && (SandboxName(cfg.vni) !in w.sandboxes ==> SandboxName(cfg.vni) !in w.monitors)
    ensures InOrder(Exec(SandboxTree(cfg.vni, cfg.dns), HostNs, w).w, cfg.vni)
  {
    hide ExecAll, ExecPrimitive, InOrder;
    if SandboxName(cfg.vni) !in w.sandboxes {
      var cs := SandboxSteps(cfg.vni, cfg.dns);
      assert Exec(Group(cs), HostNs, w) == ExecAll(cs, HostNs, w);
      ExecAllOfFour(cs, HostNs, w);
      CreationInOrder(w, cfg.vni);
      var a := Exec(cs[0], HostNs, w);
      if a.Ok() {
        VxlanMadeInOrder(a.w, cfg.vni);
        var b := Exec(cs[1], HostNs, a.w);
        if b.Ok() {
          VxlanMovedInOrder(b.w, cfg.vni);
          DNSInOrder(Exec(cs[2], HostNs, b.w).w, cfg.vni, cfg.dns);
        }
      }
    }
  }

  // ---------- wiring ----------

  /** From w to w' the tables are the same, and of the sandbox's own links at most a bridge has appeared. */
  ghost predicate Keeps(w: World, w': World, vni: nat) {
    && SameTables(w, w')
    && (VxlanOf(vni) in w'.links <==> VxlanOf(vni) in w.links)
    && (VxlanOf(vni) in w.links ==> w'.links[VxlanOf(vni)].kind == w.links[VxlanOf(vni)].kind)
    && (DNSOf(vni) in w'.links <==> DNSOf(vni) in w.links)
    && (DNSOf(vni) in w.links ==> w'.links[DNSOf(vni)].kind == w.links[DNSOf(vni)].kind)
    && (BridgeOf(vni) in w.links ==> BridgeOf(vni) in w'.links)
    && (BridgeOf(vni) in w'.links ==>
          if BridgeOf(vni) in w.links then w'.links[BridgeOf(vni)].kind == w.links[BridgeOf(vni)].kind
          else w'.links[BridgeOf(vni)].kind.Bridge?)
  }

  lemma KeptInOrder(w: World, w': World, vni: nat)
    requires InOrder(w, vni) && Keeps(w, w', vni)
    ensures InOrder(w', vni)
  {
  }

  lemma KeepsReflexive(w: World, vni: nat)
    ensures Keeps(w, w, vni) && Keeps(w, Fallible(w).w, vni)
  {
  }

  lemma KeepsTransitive(u: World, v: World, w: World, vni: nat)
    requires Keeps(u, v, vni) && Keeps(v, w, vni)
    ensures Keeps(u, w, vni)
  {
  }

  predicate IsOwn(id: LinkId, vni: nat) {
    id == VxlanOf(vni) || id == BridgeOf(vni) || id == DNSOf(vni)
  }

  /** The commands that make no link of the sandbox's own but the bridge, and take none away. */
  predicate Tidy(c: Command, ns: Ns, vni: nat)
    decreases c
  {
    match c
    case Group(members) => forall m :: m in members ==> Tidy(m, ns, vni)
    case Unless(_, body) => Tidy(body, ns, vni)
    case InNamespace(inner, body) => Tidy(body, inner, vni)
    case CreateBridge(link) => !IsOwn(LinkId(ns, link), vni) || LinkId(ns, link) == BridgeOf(vni)
    case CreateVeth(_, _) => ns.ContainerNs?
    case MoveLink(link, sandbox) => ns.ContainerNs? && !IsOwn(LinkId(SandboxNs(sandbox), link), vni)
    case SetLinkUp(_) => true
    case SetLinkMaster(_, _) => true
    case AddAddress(_, _) => true
    case AddRoute(_, _) => true
    case GetHardwareAddress(_) => true
    case _ => false
  }

  lemma OneOwnKept(w: World, w': World, id: LinkId, vni: nat)
    requires SameTables(w, w') && SameBut(w.links, w'.links, id)
    requires id in w.links ==> id in w'.links && w'.links[id].kind == w.links[id].kind
    requires id in w'.links && id !in w.links && IsOwn(id, vni) ==> id == BridgeOf(vni) && w'.links[id].kind.Bridge?
    ensures Keeps(w, w', vni)
  {
    OwnNamesDiffer(vni);
  }

  lemma PairKeeps(link: string, peer: string, ns: Ns, w: World, vni: nat)
    requires ns.ContainerNs?
    ensures Keeps(w, AddVeth(w, ns, link, peer).w, vni)
  {
    hide Fallible;
    FallibleFrame(w);
  }

  lemma MoveKeeps(link: string, sandbox: string, ns: Ns, w: World, vni: nat)
    requires Tidy(Command.MoveLink(link, sandbox), ns, vni)
    ensures Keeps(w, ExecPrimitive(Command.MoveLink(link, sandbox), ns, w).w, vni)
  {
    hide Fallible;
    FallibleFrame(w);
  }

  lemma TidyPrimitiveKeeps(c: Command, ns: Ns, w: World, vni: nat)
    requires Tidy(c, ns, vni) && !c.Group? && !c.Unless? && !c.InNamespace?
    ensures Keeps(w, ExecPrimitive(c, ns, w).w, vni)
  {
    hide Keeps, Fallible, AddVeth;
    FallibleFrame(w);
    KeepsReflexive(w, vni);
    if c.CreateVeth? {
      PairKeeps(c.link, c.peer, ns, w, vni);
    } else if c.MoveLink? {
      MoveKeeps(c.link, c.sandbox, ns, w, vni);
    } else {
      var w' := ExecPrimitive(c, ns, w).w;
      var id := LinkId(ns, if c.SetLinkMaster? then c.slave else c.link);
      if w' != w && w' != Fallible(w).w {
        OneOwnKept(w, w', id, vni);
      }
    }
  }

  lemma {:induction false} TidyKeeps(c: Command, ns: Ns, w: World, vni: nat)
    requires Tidy(c, ns, vni)
    ensures Keeps(w, Exec(c, ns, w).w, vni)
    decreases c, 1
  {
    hide Keeps, ExecPrimitive;
    KeepsReflexive(w, vni);
    match c
    case Group(members) => TidyAllKeeps(members, ns, w, vni);
    case Unless(_, body) => TidyKeeps(body, ns, w, vni);
    case InNamespace(inner, body) =>
      TidyKeeps(body, inner, Fallible(w).w, vni);
      KeepsTransitive(w, Fallible(w).w, Exec(body, inner, Fallible(w).w).w, vni);
    case _ => TidyPrimitiveKeeps(c, ns, w, vni);
  }

  lemma {:induction false} TidyAllKeeps(cs: seq<Command>, ns: Ns, w: World, vni: nat)
    requires forall c :: c in cs ==> Tidy(c, ns, vni)
    ensures Keeps(w, ExecAll(cs, ns, w).w, vni)
    decreases cs, 0
  {
    hide Keeps;
    KeepsReflexive(w, vni);
    if cs != [] {
      TidyKeeps(cs[0], ns, w, vni);
      var first := Exec(cs[0], ns, w);
      if first.Ok() {
        TidyAllKeeps(cs[1..], ns, first.w, vni);
        KeepsTransitive(w, first.w, ExecAll(cs[1..], ns, first.w).w, vni);
      }
    }
  }

  lemma VethIsTidy(cfg: SetupConfig)
    requires IsLinkName(cfg.linkName)
    ensures Tidy(VethTree(cfg), HostNs, cfg.vni)
  {
    ContainersNamesDiffer(cfg.linkName, cfg.vni);
    hide SandboxName, RouteCommands, IsLinkName;
    var ns := ContainerNs(cfg.containerPath);
    var routes := Group(RouteCommands(cfg.interface, cfg.lease.routes, cfg.lease.gateway));
    assert Tidy(routes, ns, cfg.vni);
    assert Tidy(Group(PairSteps(cfg) + EndSteps(cfg)), ns, cfg.vni);
  }

  lemma BridgeIsTidy(cfg: SetupConfig)
    ensures Tidy(BridgeTree(cfg), HostNs, cfg.vni)
  {
    hide SandboxName, BridgeName, VxlanName;
    var ns := SandboxNs(SandboxName(cfg.vni));
    assert Tidy(Group(NewBridgeSteps(cfg)), ns, cfg.vni);
    assert Tidy(NewBridgeTree(cfg), ns, cfg.vni);
    hide NewBridgeTree;
    assert Tidy(Group(BridgeSteps(cfg)), ns, cfg.vni);
  }

  /** Raising the vxlan link and watching, wherever it stops: the monitor is registered only if the link is there. */
  lemma VxlanTreeInOrder(w: World, vni: nat)
    requires InOrder(w, vni)
    ensures InOrder(Exec(VxlanTree(vni), HostNs, w).w, vni)
  {
    hide ExecAll, ExecPrimitive;
    var cs := VxlanSteps(vni);
    assert Exec(Group(cs), HostNs, w) == ExecAll(cs, HostNs, w);
    ExecAllOfTwo(cs, HostNs, w);
    var up := SetLinkUp(VxlanName(vni));
    assert Tidy(up, SandboxNs(SandboxName(vni)), vni) && Tidy(cs[0], HostNs, vni);
    TidyKeeps(cs[0], HostNs, w, vni);
    KeptInOrder(w, Exec(cs[0], HostNs, w).w, vni);
    var a := Exec(cs[0], HostNs, w);
    if a.Ok() {
      FallibleFrame(w);
      UpEffect(VxlanName(vni), SandboxNs(SandboxName(vni)), Fallible(w).w);
      MonitorFrame(SandboxName(vni), VxlanName(vni), a.w);
    }
  }

  lemma MonitorFrame(name: string, vxlan: string, w: World)
    ensures var o := Exec(Command.StartMonitor(name, vxlan), HostNs, w);
      && o.w == w.(plan := o.w.plan, monitors := o.w.monitors)
      && (o.w.monitors == w.monitors || o.w.monitors == w.monitors + {name})
  {
    hide Fallible, WatchMisses;
    FallibleFrame(w);
    FallibleFrame(Fallible(w).w);
    WatchEffect(name, vxlan, Fallible(Fallible(w).w).w);
  }

  lemma WiringInOrder(w: World, cfg: SetupConfig)
    requires InOrder(w, cfg.vni) && IsLinkName(cfg.linkName)
    ensures InOrder(Exec(Group(WiringSteps(cfg)), HostNs, w).w, cfg.vni)
  {
    hide InOrder, VxlanTree, VethTree, BridgeTree, ExecAll, Keeps, IsLinkName, Tidy;
    var cs := WiringSteps(cfg);
    assert Exec(Group(cs), HostNs, w) == ExecAll(cs, HostNs, w);
    ExecAllOfThree(cs, HostNs, w);
    VxlanTreeInOrder(w, cfg.vni);
    var a := Exec(cs[0], HostNs, w).w;
    VethIsTidy(cfg);
    TidyKeeps(cs[1], HostNs, a, cfg.vni);
    var b := Exec(cs[1], HostNs, a).w;
    KeptInOrder(a, b, cfg.vni);
    BridgeIsTidy(cfg);
    TidyKeeps(cs[2], HostNs, b, cfg.vni);
    KeptInOrder(b, Exec(cs[2], HostNs, b).w, cfg.vni);
  }

  lemma SetupInOrder(w: World, cfg: SetupConfig)
    requires Inv(w) && InOrder(w, cfg.vni) && IsLinkName(cfg.linkName)
    ensures InOrder(Setup(w, cfg).w, cfg.vni)
  {
    hide InOrder, Exec, Fallible, Keeps, IsLinkName, Tidy, Inv;
    MonitoredAreRegistered(w);
    FallibleFrame(w);
    KeepsReflexive(w, cfg.vni);
    var container := Fallible(w).w;
    KeptInOrder(w, container, cfg.vni);
    SandboxTreeInOrder(container, cfg);
    var created := Exec(SandboxTree(cfg.vni, cfg.dns), HostNs, container).w;
    WiringInOrder(created, cfg);
    var wired := Exec(Group(WiringSteps(cfg)), HostNs, created).w;
    HardwareAddressEffect(cfg, wired);
    var last := Exec(InNamespace(ContainerNs(cfg.containerPath), GetHardwareAddress(cfg.interface)), HostNs, wired).w;
    PlanInOrder(wired, last, cfg.vni);
  }

  lemma MonitoredAreRegistered(w: World)
    requires Inv(w)
    ensures w.monitors <= w.sandboxes.Keys
  {
  }

  lemma PlanInOrder(w: World, w': World, vni: nat)
    requires InOrder(w, vni) && w' == w.(plan := w'.plan)
    ensures InOrder(w', vni)
  {
  }

  // ---------- deleting ----------

  lemma DropInOrder(w: World, vni: nat)
    requires InOrder(w, vni) && VethsIn(w.links, SandboxNs(SandboxName(vni))) == {}
    ensures var o := DropVxlan(w, SandboxNs(SandboxName(vni)), VxlanName(vni));
      && SameTables(w, o.w) && LinksInOrder(o.w, vni)
      && (!o.Ok() ==> InOrder(o.w, vni))
      && (o.Ok() ==> VxlanOf(vni) !in o.w.links)
  {
    hide Fallible;
    FallibleFrame(w);
    FallibleFrame(Fallible(w).w);
    OwnNamesDiffer(vni);
  }

  /** Destroying a sandbox that has lost its vxlan link takes it away or leaves it torn down or unmonitored. */
  lemma DestroyInOrder(w: World, vni: nat)
    requires LinksInOrder(w, vni) && VxlanOf(vni) !in w.links
    requires SandboxName(vni) in w.sandboxes && !w.sandboxes[SandboxName(vni)].destroyed ==>
      SandboxName(vni) in w.files && w.files[SandboxName(vni)] == Mounted
    ensures InOrder(DestroySandbox(w, SandboxName(vni)).w, vni)
  {
    hide Fallible;
    var name := SandboxName(vni);
    if name in w.sandboxes {
      var torn := Host.Teardown(w, name).w;
      FallibleFrame(torn);
      FallibleFrame(Fallible(torn).w.(files := torn.files[name := Bare]));
    }
  }

  lemma CleanupInOrder(w: World, vni: nat)
    requires InOrder(w, vni)
    ensures InOrder(Cleanup(w, SandboxName(vni), VxlanName(vni)).w, vni)
  {
    hide Fallible, DropVxlan, DestroySandbox, LinksInOrder;
    var name := SandboxName(vni);
    if name in w.sandboxes {
      FallibleFrame(w);
      var entered := Fallible(w).w;
      PlanInOrder(w, entered, vni);
      FallibleFrame(entered);
      var listed := Fallible(entered).w;
      PlanInOrder(w, listed, vni);
      if VethsIn(w.links, SandboxNs(name)) == {} {
        DropInOrder(listed, vni);
        var dropped := DropVxlan(listed, SandboxNs(name), VxlanName(vni));
        if dropped.Ok() {
          DestroyInOrder(dropped.w, vni);
        }
      }
    }
  }

  lemma DeleteInOrder(w: World, interface: string, path: string, vni: nat)
    requires InOrder(w, vni)
    ensures InOrder(Delete(w, interface, path, vni).w, vni)
  {
    hide InOrder, Cleanup, ExecAll, Fallible, Host.DeleteLink, Spares;
    var cs := DeleteSteps(interface, path, vni);
    FallibleFrame(w);
    var container := Fallible(w).w;
    PlanInOrder(w, container, vni);
    FallibleFrame(container);
    var entered := Fallible(container).w;
    PlanInOrder(w, entered, vni);
    assert Exec(Group(cs), HostNs, container) == ExecAll(cs, HostNs, container);
    ExecAllOfTwo(cs, HostNs, container);
    DeletingSpares(LinkId(ContainerNs(path), interface), entered, vni);
    SparedInOrder(entered, Host.DeleteLink(entered, LinkId(ContainerNs(path), interface)).w, vni);
    CleanupInOrder(Exec(cs[0], HostNs, container).w, vni);
  }

  // ---------- runs ----------

  lemma RestartInOrder(w: World, root: string, vni: nat)
    requires Inv(w) && InOrder(w, vni) && CanRestart(w, root)
    ensures InOrder(Restarted(w), vni)
  {
    if SandboxName(vni) in w.files {
      ReloaderRecoversVxlanName(root, vni);
      assert Reloadable(w, root, SandboxName(vni));
    }
  }

  lemma StepInOrder(w: World, op: Op, vni: nat)
    requires Inv(w) && InOrder(w, vni) && (op.Add? ==> IsLinkName(op.cfg.linkName))
    ensures InOrder(Step(w, op), vni)
  {
    hide Inv, InOrder, Setup, Delete, Spares, CanRestart, IsLinkName;
    match op
    case Add(cfg, plan) =>
      var u := w.(plan := plan);
      PlanKeeps(w, plan);
      PlanInOrder(w, u, vni);
      if cfg.vni == vni {
        SetupInOrder(u, cfg);
      } else {
        SetupOfOtherSpares(u, cfg, vni);
        SparedInOrder(u, Setup(u, cfg).w, vni);
      }
    case Del(interface, path, other, plan) =>
      var u := w.(plan := plan);
      PlanInOrder(w, u, vni);
      if other == vni {
        DeleteInOrder(u, interface, path, vni);
      } else {
        DeleteOfOtherSpares(u, interface, path, other, vni);
        SparedInOrder(u, Delete(u, interface, path, other).w, vni);
      }
    case Restart(root) =>
      if CanRestart(w, root) {
        RestartInOrder(w, root, vni);
      }
    case ContainerGone(path) =>
      GoneSpares(w, path, vni);
      SparedInOrder(w, Step(w, op), vni);
  }

  lemma {:induction false} RunInOrder(boot: World, ops: seq<Op>, vni: nat)
    requires IsBoot(boot) && NamedByBase32(ops)
    ensures Inv(Run(boot, ops)) && InOrder(Run(boot, ops), vni)
  {
    hide InOrder, Inv, Step, IsLinkName;
    RunKeeps(boot, ops);
    if ops == [] {
      BootInOrder(boot, vni);
    } else {
      RunKeeps(boot, ops[..|ops| - 1]);
      RunInOrder(boot, ops[..|ops| - 1], vni);
      StepInOrder(Run(boot, ops[..|ops| - 1]), ops[|ops| - 1], vni);
    }
  }

  lemma BootInOrder(boot: World, vni: nat)
    requires IsBoot(boot)
    ensures InOrder(boot, vni)
  {
  }

  // ---------- lost for good ----------

  lemma SparedStaysLost(w: World, w': World, vni: nat)
    requires IsLost(w, vni) && Spares(w, w', vni)
    ensures IsLost(w', vni)
  {
  }

  lemma PlanStaysLost(w: World, w': World, vni: nat)
    requires IsLost(w, vni) && w' == w.(plan := w'.plan)
    ensures IsLost(w', vni)
  {
  }

  lemma LostIsStranded(w: World, vni: nat)
    requires IsLost(w, vni) && InOrder(w, vni) && SandboxName(vni) in w.sandboxes
    ensures IsStranded(w, vni)
  {
  }

  lemma StrandedIsLost(w: World, vni: nat)
    requires IsStranded(w, vni)
    ensures IsLost(w, vni)
  {
  }

  /** Where something is in the way, the sandbox is not made with its vxlan link, and something is in the way still. */
  lemma CreationOfLost(w: World, cfg: SetupConfig)
    requires IsLost(w, cfg.vni) && SandboxName(cfg.vni) !in w.sandboxes
    ensures var o := Exec(SandboxTree(cfg.vni, cfg.dns), HostNs, w); !o.Ok() && IsLost(o.w, cfg.vni)
  {
    hide ExecAll, ExecPrimitive, IsLost;
    var cs := SandboxSteps(cfg.vni, cfg.dns);
    assert Exec(Group(cs), HostNs, w) == ExecAll(cs, HostNs, w);
    ExecAllOfFour(cs, HostNs, w);
    SandboxMadeInLost(w, cfg.vni);
    var a := Exec(cs[0], HostNs, w);
    if a.Ok() {
      VxlanRefused(a.w, cfg.vni);
      PlanStaysLost(a.w, Exec(cs[1], HostNs, a.w).w, cfg.vni);
    }
  }

  lemma SandboxMadeInLost(w: World, vni: nat)
    requires IsLost(w, vni) && SandboxName(vni) !in w.sandboxes
    ensures var o := Exec(Command.CreateSandbox(SandboxName(vni)), HostNs, w);
      IsLost(o.w, vni) && (o.Ok() ==> HostVxlan(vni) in o.w.links)
  {
    hide Host.CreateSandbox;
    CreateSandboxFrame(w, SandboxName(vni));
    CreateNeedsNoFile(SandboxName(vni), HostNs, w);
    OwnNamesDiffer(vni);
  }

  lemma VxlanRefused(w: World, vni: nat)
    requires HostVxlan(vni) in w.links
    ensures var o := Exec(CreateVxlan(VxlanName(vni), vni), HostNs, w); !o.Ok() && o.w == w.(plan := o.w.plan)
  {
    hide Fallible;
    FallibleFrame(w);
  }

  lemma SetupOfLost(w: World, cfg: SetupConfig)
    requires IsLost(w, cfg.vni) && InOrder(w, cfg.vni)
    ensures !Setup(w, cfg).Ok() && IsLost(Setup(w, cfg).w, cfg.vni)
  {
    hide IsLost, InOrder, Exec, Fallible;
    if SandboxName(cfg.vni) in w.sandboxes {
      LostIsStranded(w, cfg.vni);
      AddStuck(w, cfg);
      PlanStaysLost(w, Setup(w, cfg).w, cfg.vni);
    } else {
      FallibleFrame(w);
      PlanStaysLost(w, Fallible(w).w, cfg.vni);
      CreationOfLost(Fallible(w).w, cfg);
    }
  }

  lemma DeleteOfLost(w: World, interface: string, path: string, vni: nat)
    requires IsLost(w, vni) && InOrder(w, vni) && Inv(w)
    ensures IsLost(Delete(w, interface, path, vni).w, vni)
  {
    hide IsLost, InOrder, Inv, IsStranded, VethsIn, Delete;
    if SandboxName(vni) in w.sandboxes {
      LostIsStranded(w, vni);
      NoVethInStranded(w, vni);
      DelStuck(w, interface, path, vni);
      StrandedIsLost(Delete(w, interface, path, vni).w, vni);
    } else {
      DeleteOfUnregistered(w, interface, path, vni);
      SparedStaysLost(w, Delete(w, interface, path, vni).w, vni);
    }
  }

  lemma DeleteOfUnregistered(w: World, interface: string, path: string, vni: nat)
    requires SandboxName(vni) !in w.sandboxes
    ensures Spares(w, Delete(w, interface, path, vni).w, vni)
  {
    hide ExecAll, Fallible, Host.DeleteLink, Spares, Cleanup;
    var cs := DeleteSteps(interface, path, vni);
    SparesFallible(w, vni);
    FallibleFrame(w);
    var container := Fallible(w).w;
    SparesFallible(container, vni);
    FallibleFrame(container);
    var entered := Fallible(container).w;
    SparesTransitive(w, container, entered, vni);
    assert Exec(Group(cs), HostNs, container) == ExecAll(cs, HostNs, container);
    ExecAllOfTwo(cs, HostNs, container);
    var deleted := Host.DeleteLink(entered, LinkId(ContainerNs(path), interface)).w;
    DeletingSpares(LinkId(ContainerNs(path), interface), entered, vni);
    SparesTransitive(w, entered, deleted, vni);
    DeletingUnregistered(entered, LinkId(ContainerNs(path), interface));
    CleanupOfNone(Exec(cs[0], HostNs, container).w, SandboxName(vni), VxlanName(vni));
  }

  lemma DeletingUnregistered(w: World, id: LinkId)
    ensures Host.DeleteLink(w, id).w.sandboxes == w.sandboxes
  {
    hide Fallible;
    FallibleFrame(w);
  }

  /** While the file of a lost network is there, no restart succeeds; one that succeeds without it changes no link. */
  lemma RestartOfLost(w: World, root: string, vni: nat)
    requires IsLost(w, vni)
    ensures SandboxName(vni) in w.files ==> !CanRestart(w, root)
    ensures SandboxName(vni) !in w.sandboxes && SandboxName(vni) !in w.files ==> IsLost(Restarted(w), vni)
  {
    ReloaderRecoversVxlanName(root, vni);
    assert SandboxName(vni) in w.files ==> !Reloadable(w, root, SandboxName(vni));
  }

  lemma StepStaysLost(w: World, op: Op, vni: nat)
    requires Inv(w) && InOrder(w, vni) && IsLost(w, vni)
    ensures IsLost(Step(w, op), vni)
  {
    hide Inv, InOrder, Setup, Delete, Spares, CanRestart, IsLost;
    match op
    case Add(cfg, plan) =>
      var u := w.(plan := plan);
      PlanStaysLost(w, u, vni);
      PlanInOrder(w, u, vni);
      if cfg.vni == vni {
        SetupOfLost(u, cfg);
      } else {
        SetupOfOtherSpares(u, cfg, vni);
        SparedStaysLost(u, Setup(u, cfg).w, vni);
      }
    case Del(interface, path, other, plan) =>
      var u := w.(plan := plan);
      PlanStaysLost(w, u, vni);
      PlanInOrder(w, u, vni);
      PlanKeeps(w, plan);
      if other == vni {
        DeleteOfLost(u, interface, path, vni);
      } else {
        DeleteOfOtherSpares(u, interface, path, other, vni);
        SparedStaysLost(u, Delete(u, interface, path, other).w, vni);
      }
    case Restart(root) =>
      FilesOfInv(w);
      RestartOfLost(w, root, vni);
    case ContainerGone(path) =>
      GoneSpares(w, path, vni);
      SparedStaysLost(w, Step(w, op), vni);
  }

  /**
   A network that is lost stays lost in every continuation: no Add on it succeeds, whichever calls fail, and while its
   file is there no restart of the daemon does.
   */
  lemma {:induction false} LostForGood(boot: World, ops: seq<Op>, more: seq<Op>, vni: nat)
    requires IsBoot(boot) && NamedByBase32(ops + more) && IsLost(Run(boot, ops), vni)
    ensures var end := Run(boot, ops + more);
      && IsLost(end, vni)
      && (forall cfg: SetupConfig, plan :: cfg.vni == vni ==> !Setup(end.(plan := plan), cfg).Ok())
      && (SandboxName(vni) in end.files ==> forall root :: !CanRestart(end, root))
  {
    hide Setup, CanRestart, Inv, InOrder, IsLost, Step, IsLinkName;
    if more == [] {
      assert ops + more == ops;
    } else {
      var init, last := more[..|more| - 1], more[|more| - 1];
      assert ops + more == (ops + init) + [last];
      assert NamedByBase32(ops + init) by {
        assert forall i :: 0 <= i < |ops + init| ==> (ops + init)[i] == (ops + more)[i];
      }
      LostForGood(boot, ops, init, vni);
      RunInOrder(boot, ops + init, vni);
      StepStaysLost(Run(boot, ops + init), last, vni);
      RunOneMore(boot, ops + init, last);
    }
    var end := Run(boot, ops + more);
    RunInOrder(boot, ops + more, vni);
    forall cfg: SetupConfig, plan | cfg.vni == vni
      ensures !Setup(end.(plan := plan), cfg).Ok()
    {
      PlanStaysLost(end, end.(plan := plan), vni);
      PlanInOrder(end, end.(plan := plan), vni);
      SetupOfLost(end.(plan := plan), cfg);
    }
    forall root | SandboxName(vni) in end.files
      ensures !CanRestart(end, root)
    {
      RestartOfLost(end, root, vni);
    }
  }

  // ---------- not lost ----------

  /** A container whose links are named as they are named, in a namespace where those names are free. */
  ghost predicate Fits(w: World, cfg: SetupConfig) {
    && IsLinkName(cfg.linkName) && cfg.interface != cfg.linkName
    && ContainerEnd(cfg) !in w.links && LinkId(ContainerNs(cfg.containerPath), cfg.linkName) !in w.links
    && SandboxEnd(cfg) !in w.links
    && Distinct(HopsOf(cfg.lease.routes, cfg.lease.gateway))
  }

  lemma JoinsAtOnce(w: World, cfg: SetupConfig)
    requires Inv(w) && InOrder(w, cfg.vni) && Fits(w, cfg) && VxlanOf(cfg.vni) in w.links
    requires BridgeOf(cfg.vni) in w.links || DNSOf(cfg.vni) in w.links
    ensures Setup(w.(plan := []), cfg).Ok()
  {
    hide Setup, Distinct, HopsOf;
    var u := w.(plan := []);
    PlanKeeps(w, []);
    ContainersNamesDiffer(cfg.linkName, cfg.vni);
    VxlanMeansAlive(w, cfg.vni);
    assert CanJoin(u, cfg);
    hide CanJoin, Inv, InOrder;
    SetupSucceedsExactly(u, cfg);
  }

  /** With neither bridge nor dns0 an Add fails, but leaves the bridge it made. */
  lemma FailingAddMakesBridge(w: World, cfg: SetupConfig)
    requires w.plan == [] && Inv(w) && InOrder(w, cfg.vni) && Fits(w, cfg) && VxlanOf(cfg.vni) in w.links
    requires BridgeOf(cfg.vni) !in w.links && DNSOf(cfg.vni) !in w.links
    ensures var w' := Setup(w, cfg).w;
      && VxlanOf(cfg.vni) in w'.links && w'.links[VxlanOf(cfg.vni)].kind.Vxlan?
      && BridgeOf(cfg.vni) in w'.links && w'.links[BridgeOf(cfg.vni)].kind.Bridge?
      && ContainerEnd(cfg) in w'.links && w'.links[ContainerEnd(cfg)].kind.Veth?
      && SandboxEnd(cfg) in w'.links && w'.links[SandboxEnd(cfg)].kind == w'.links[ContainerEnd(cfg)].kind
      && w'.links.Keys == w.links.Keys + {BridgeOf(cfg.vni), ContainerEnd(cfg), SandboxEnd(cfg)}
  {
    hide Exec, VxlanTree, VethTree, BridgeTree, Distinct, HopsOf, Grown, Inv, IsLinkName;
    ContainersNamesDiffer(cfg.linkName, cfg.vni);
    VxlanMeansAlive(w, cfg.vni);
    NothingFails(w);
    SandboxIsThere(cfg, w);
    VxlanTreeSucceeds(cfg, w);
    VxlanTreeEffect(cfg, w);
    NeverPlans(VxlanTree(cfg.vni), HostNs, w);
    var v := Exec(VxlanTree(cfg.vni), HostNs, w).w;
    assert v.links.Keys == w.links.Keys;
    VethTreeSucceeds(cfg, HostNs, v);
    VethTreeEffect(cfg, HostNs, v);
    NeverPlans(VethTree(cfg), HostNs, v);
    var p := Exec(VethTree(cfg), HostNs, v).w;
    OwnNamesDiffer(cfg.vni);
    BridgeLeftBehind(cfg, p);
    GrownKeepsPair(p, Exec(BridgeTree(cfg), HostNs, p).w, cfg);
    var b := Exec(BridgeTree(cfg), HostNs, p);
    GrownKeepsKind(p, b.w, SandboxNs(SandboxName(cfg.vni)), VxlanOf(cfg.vni));
    var cs := WiringSteps(cfg);
    WiringRun(cs, w);
    ExecAllOfThree(cs, HostNs, w);
  }

  lemma WiringRun(cs: seq<Command>, w: World)
    ensures Exec(Group(cs), HostNs, w) == ExecAll(cs, HostNs, w)
  {
  }

  /** Without dns0 the bridge is made, and putting dns0 on it fails. */
  lemma BridgeLeftBehind(cfg: SetupConfig, w: World)
    requires w.plan == [] && BridgeEnd(cfg) !in w.links && DNSEnd(cfg) !in w.links && SandboxEnd(cfg) in w.links
    ensures var o := Exec(BridgeTree(cfg), HostNs, w);
      && !o.Ok() && Grown(w, o.w, SandboxNs(SandboxName(cfg.vni)))
      && o.w.links.Keys == w.links.Keys + {BridgeEnd(cfg)} && o.w.links[BridgeEnd(cfg)].kind.Bridge?
  {
    hide Exec, ExecAll, NewBridgeTree, Local, Grown;
    var ns := SandboxNs(SandboxName(cfg.vni));
    var cs := BridgeSteps(cfg);
    InnerGroupRun(cs, ns, HostNs, w);
    ExecAllOfFour(cs, ns, w);
    TreesAreLocal(cfg);
    UpSucceeds(cfg.linkName, ns, w);
    LocalGrows(cs[0], ns, w);
    var a := Exec(cs[0], ns, w).w;
    NeverPlans(cs[0], ns, w);
    LocalGrows(cs[1], ns, a);
    GrownTransitive(w, a, Exec(cs[1], ns, a).w, ns);
    NewBridgeLeftBehind(cfg, a);
  }

  lemma InnerGroupRun(cs: seq<Command>, inner: Ns, ns: Ns, w: World)
    requires w.plan == []
    ensures Exec(InNamespace(inner, Group(cs)), ns, w) == ExecAll(cs, inner, w).Wrap()
  {
  }

  lemma NewBridgeLeftBehind(cfg: SetupConfig, w: World)
    requires w.plan == [] && BridgeEnd(cfg) !in w.links && DNSEnd(cfg) !in w.links
    ensures var o := Exec(NewBridgeTree(cfg), SandboxNs(SandboxName(cfg.vni)), w);
      !o.Ok() && o.w.links.Keys == w.links.Keys + {BridgeEnd(cfg)} && o.w.links[BridgeEnd(cfg)].kind.Bridge?
  {
    hide ExecAll, ExecPrimitive;
    var ns, bridge := SandboxNs(SandboxName(cfg.vni)), BridgeName(cfg.vni);
    var cs := NewBridgeSteps(cfg);
    assert Exec(Group(cs), ns, w) == ExecAll(cs, ns, w);
    ExecAllOfFour(cs, ns, w);
    BareBridgeSucceeds(bridge, Address(cfg.lease.gateway, cfg.lease.ones), ns, w);
    OwnNamesDiffer(cfg.vni);
    var c := Exec(cs[2], ns, Exec(cs[1], ns, Exec(cs[0], ns, w).w).w).w;
    MasterRefused(bridge, DNS_INTERFACE_NAME, ns, c);
  }

  lemma MasterRefused(master: string, slave: string, ns: Ns, w: World)
    requires w.plan == [] && LinkId(ns, slave) !in w.links
    ensures var o := Exec(SetLinkMaster(master, slave), ns, w); !o.Ok() && o.w == w
  {
  }

  /** When the container goes after that, its names are free again and the bridge stays. */
  lemma GoneAfterFailingAdd(w: World, w1: World, cfg: SetupConfig)
    requires Fits(w, cfg) && InOrder(w1, cfg.vni)
    requires VxlanOf(cfg.vni) in w1.links && w1.links[VxlanOf(cfg.vni)].kind.Vxlan?
    requires BridgeOf(cfg.vni) in w1.links && w1.links[BridgeOf(cfg.vni)].kind.Bridge?
    requires ContainerEnd(cfg) in w1.links && w1.links[ContainerEnd(cfg)].kind.Veth?
    requires SandboxEnd(cfg) in w1.links && w1.links[SandboxEnd(cfg)].kind == w1.links[ContainerEnd(cfg)].kind
    ensures var w2 := Step(w1, ContainerGone(cfg.containerPath));
      Fits(w2, cfg) && VxlanOf(cfg.vni) in w2.links && BridgeOf(cfg.vni) in w2.links
  {
    hide Distinct, HopsOf, IsLinkName;
    assert ContainerEnd(cfg) in VethsIn(w1.links, ContainerNs(cfg.containerPath));
  }

  lemma StartsAfresh(w: World, cfg: SetupConfig)
    requires Inv(w) && Fits(w, cfg) && SandboxName(cfg.vni) !in w.sandboxes && SandboxName(cfg.vni) !in w.files
    requires HostVxlan(cfg.vni) !in w.links
    ensures Setup(w.(plan := []), cfg).Ok()
  {
    hide Setup, Distinct, HopsOf;
    PlanKeeps(w, []);
    ContainersNamesDiffer(cfg.linkName, cfg.vni);
    assert CanSetUp(w.(plan := []), cfg);
    hide CanSetUp, Inv;
    SetupSucceedsExactly(w.(plan := []), cfg);
  }

  /** A veth of a container that bears the vxlan link's name goes with the container. */
  lemma NameIsFreed(w: World, cfg: SetupConfig) returns (path: string)
    requires Inv(w) && Fits(w, cfg) && HostVxlan(cfg.vni) in w.links && !HostTaken(w, cfg.vni)
    ensures var w' := Step(w, ContainerGone(path));
      && Fits(w', cfg) && HostVxlan(cfg.vni) !in w'.links && w'.sandboxes == w.sandboxes && w'.files == w.files
  {
    hide Distinct, HopsOf, IsLinkName;
    var h := HostVxlan(cfg.vni);
    var k :| k in w.links && k.ns.ContainerNs? && w.links[k].kind == w.links[h].kind;
    path := k.ns.path;
    assert k in VethsIn(w.links, ContainerNs(path));
  }

  /**
   From every state of such a run in which the network is not lost, every container that fits can be added after at
   most two more requests, none of them to be repeated.
   */
  lemma UsableUnlessLost(boot: World, ops: seq<Op>, cfg: SetupConfig) returns (more: seq<Op>)
    requires IsBoot(boot) && NamedByBase32(ops) && Fits(Run(boot, ops), cfg) && !IsLost(Run(boot, ops), cfg.vni)
    ensures |more| <= 2 && NamedByBase32(ops + more) && Setup(Run(boot, ops + more).(plan := []), cfg).Ok()
  {
    hide Setup, Inv, InOrder, Fits, HostTaken, Step, IsLinkName;
    var w, vni := Run(boot, ops), cfg.vni;
    RunInOrder(boot, ops, vni);
    assert IsLinkName(cfg.linkName) by { FitsIsNamed(w, cfg); }
    if VxlanOf(vni) in w.links {
      if BridgeOf(vni) in w.links || DNSOf(vni) in w.links {
        more := [];
        assert ops + more == ops;
        JoinsAtOnce(w, cfg);
      } else {
        more := BridgeFirst(boot, ops, cfg);
      }
    } else if HostVxlan(vni) !in w.links {
      more := [];
      assert ops + more == ops;
      StartsAfresh(w, cfg);
    } else {
      var path := NameIsFreed(w, cfg);
      more := [ContainerGone(path)];
      RunOneMore(boot, ops, more[0]);
      RunInOrder(boot, ops + more, vni);
      StartsAfresh(Run(boot, ops + more), cfg);
    }
  }

  lemma FitsIsNamed(w: World, cfg: SetupConfig)
    requires Fits(w, cfg)
    ensures IsLinkName(cfg.linkName)
  {
  }

  lemma BridgeFirst(boot: World, ops: seq<Op>, cfg: SetupConfig) returns (more: seq<Op>)
    requires IsBoot(boot) && NamedByBase32(ops) && Fits(Run(boot, ops), cfg)
    requires VxlanOf(cfg.vni) in Run(boot, ops).links
    requires BridgeOf(cfg.vni) !in Run(boot, ops).links && DNSOf(cfg.vni) !in Run(boot, ops).links
    ensures |more| == 2 && NamedByBase32(ops + more) && Setup(Run(boot, ops + more).(plan := []), cfg).Ok()
  {
    hide Setup, Inv, InOrder, Fits, IsLinkName;
    var w := Run(boot, ops);
    var first, second := Add(cfg, []), ContainerGone(cfg.containerPath);
    more := [first, second];
    FitsIsNamed(w, cfg);
    RunInOrder(boot, ops, cfg.vni);
    RunOneMore(boot, ops, first);
    RunInOrder(boot, ops + [first], cfg.vni);
    RunOneMore(boot, ops + [first], second);
    assert ops + more == ops + [first] + [second];
    RunInOrder(boot, ops + more, cfg.vni);
    var u := w.(plan := []);
    PlanKeeps(w, []);
    PlanInOrder(w, u, cfg.vni);
    PlanFits(w, u, cfg);
    FailingAddMakesBridge(u, cfg);
    GoneAfterFailingAdd(w, Run(boot, ops + [first]), cfg);
    JoinsAtOnce(Run(boot, ops + more), cfg);
  }

  lemma PlanFits(w: World, w': World, cfg: SetupConfig)
    requires Fits(w, cfg) && w' == w.(plan := w'.plan)
    ensures Fits(w', cfg)
  {
  }

  /** A network is lost if and only if no continuation ever lets a container that fits be added. */
  lemma LostExactly(boot: World, ops: seq<Op>, cfg: SetupConfig)
    requires IsBoot(boot) && NamedByBase32(ops) && Fits(Run(boot, ops), cfg)
    ensures IsLost(Run(boot, ops), cfg.vni) <==>
      forall more :: NamedByBase32(ops + more) ==> !Setup(Run(boot, ops + more).(plan := []), cfg).Ok()
  {
    hide Setup, IsLost, Fits, IsLinkName, NamedByBase32;
    if IsLost(Run(boot, ops), cfg.vni) {
      forall more | NamedByBase32(ops + more)
        ensures !Setup(Run(boot, ops + more).(plan := []), cfg).Ok()
      {
        LostForGood(boot, ops, more, cfg.vni);
      }
    } else {
      var more := UsableUnlessLost(boot, ops, cfg);
    }
  }

  // ---------- runs that lose a network ----------

  const MOUNT_FAILS := [false, false, false, true]

  /** The seven calls up to a sandbox that is there, its loopback up. */
  const SANDBOX_WORKS := [false, false, false, false, false, false, false]

  const VXLAN_FAILS := SANDBOX_WORKS + [true]

  const DNS_FAILS := SANDBOX_WORKS + [false, false, true]

  /** With the fourth call failing, a Setup leaves a file without a sandbox. */
  lemma MountFailure(w: World, cfg: SetupConfig)
    requires w.plan == MOUNT_FAILS && SandboxName(cfg.vni) !in w.sandboxes && SandboxName(cfg.vni) !in w.files
    ensures var w' := Setup(w, cfg).w;
      && w'.sandboxes == w.sandboxes && w'.links == w.links
      && w'.files == w.files[SandboxName(cfg.vni) := Bare]
  {
    hide ExecAll;
    var cs := SandboxSteps(cfg.vni, cfg.dns);
    var u := w.(plan := [false, false, true]);
    assert Fallible(w) == Succeed(u);
    assert Exec(Group(cs), HostNs, u) == ExecAll(cs, HostNs, u);
    ExecAllOfFour(cs, HostNs, u);
    MountFailureInside(u, SandboxName(cfg.vni));
  }

  lemma MountFailureInside(w: World, name: string)
    requires w.plan == [false, false, true] && name !in w.sandboxes && name !in w.files
    ensures var o := Exec(Command.CreateSandbox(name), HostNs, w);
      !o.Ok() && o.w == w.(plan := [], files := w.files[name := Bare])
  {
  }

  lemma NextWorks(w: World, rest: seq<bool>)
    requires w.plan == [false] + rest
    ensures Fallible(w) == Succeed(w.(plan := rest))
  {
    assert w.plan[1..] == rest;
  }

  lemma NamespaceWorks(w: World, name: string, rest: seq<bool>)
    requires w.plan == [false, false, false, false] + rest && name !in w.files
    ensures CreateNamespace(w, name) == Succeed(w.(
      plan := rest, files := w.files[name := Mounted],
      links := w.links[LinkId(SandboxNs(name), "lo") := NewLink(Loopback)]))
  {
    hide Fallible;
    assert w.plan == [false] + ([false, false, false] + rest);
    var added := w.(plan := [false, false, false] + rest);
    NextWorks(w, added.plan);
    assert added.plan == [false] + ([false, false] + rest);
    var touched := added.(plan := [false, false] + rest);
    NextWorks(added, touched.plan);
    var bare := touched.(files := w.files[name := Bare]);
    assert bare.plan == [false] + ([false] + rest);
    var mounted := bare.(plan := [false] + rest);
    NextWorks(bare, mounted.plan);
    var full := mounted.(files := w.files[name := Mounted]);
    var looped := WithLink(full, LinkId(SandboxNs(name), "lo"), NewLink(Loopback));
    NextWorks(looped, rest);
  }

  lemma SandboxWorks(w: World, name: string, rest: seq<bool>)
    requires w.plan == [false, false, false, false, false, false] + rest && name !in w.sandboxes && name !in w.files
    ensures var o := Exec(Command.CreateSandbox(name), HostNs, w);
      && o.Ok() && o.w.plan == rest
      && o.w.sandboxes == w.sandboxes[name := Sandbox(false, false)] && o.w.monitors == w.monitors
      && SameBut(w.links, o.w.links, LinkId(SandboxNs(name), "lo"))
  {
    hide Fallible, CreateNamespace;
    assert w.plan == [false, false, false, false] + ([false, false] + rest);
    NamespaceWorks(w, name, [false, false] + rest);
    var made := CreateNamespace(w, name).w.(sandboxes := w.sandboxes[name := Sandbox(false, false)]);
    assert made.plan == [false] + ([false] + rest);
    var entered := made.(plan := [false] + rest);
    NextWorks(made, entered.plan);
    NextWorks(entered, rest);
  }

  /** What is left of a Setup whose plan lets the sandbox be made. */
  lemma SetupAfterSandbox(w: World, cfg: SetupConfig, rest: seq<bool>)
    requires w.plan == SANDBOX_WORKS + rest && SandboxName(cfg.vni) !in w.sandboxes && SandboxName(cfg.vni) !in w.files
    ensures var cs := SandboxSteps(cfg.vni, cfg.dns);
      var a := Exec(cs[0], HostNs, w.(plan := w.plan[1..]));
      var b := Exec(cs[1], HostNs, a.w);
      var c := Exec(cs[2], HostNs, b.w);
      var d := Exec(cs[3], HostNs, c.w);
      && a.Ok() && a.w.plan == rest
      && a.w.sandboxes == w.sandboxes[SandboxName(cfg.vni) := Sandbox(false, false)] && a.w.monitors == w.monitors
      && SameBut(w.links, a.w.links, LinkId(SandboxNs(SandboxName(cfg.vni)), "lo"))
      && (!b.Ok() ==> Setup(w, cfg).w == b.w)
      && (b.Ok() && c.Ok() && !d.Ok() ==> Setup(w, cfg).w == d.w)
  {
    hide ExecAll, ExecPrimitive, Fallible;
    var cs := SandboxSteps(cfg.vni, cfg.dns);
    var u := w.(plan := [false, false, false, false, false, false] + rest);
    assert w.plan == [false] + u.plan && w.plan[1..] == u.plan;
    NextWorks(w, u.plan);
    assert Exec(Group(cs), HostNs, u) == ExecAll(cs, HostNs, u);
    ExecAllOfFour(cs, HostNs, u);
    SandboxWorks(u, SandboxName(cfg.vni), rest);
  }

  lemma VxlanRefusedByPlan(w: World, vni: nat)
    requires w.plan == [true]
    ensures var o := Exec(CreateVxlan(VxlanName(vni), vni), HostNs, w); !o.Ok() && o.w == w.(plan := [])
  {
  }

  /** With the eighth call failing, a Setup leaves a sandbox without a vxlan link. */
  lemma VxlanFailure(w: World, cfg: SetupConfig)
    requires w.plan == VXLAN_FAILS && SandboxName(cfg.vni) !in w.sandboxes && SandboxName(cfg.vni) !in w.files
    ensures var w' := Setup(w, cfg).w;
      && w'.sandboxes == w.sandboxes[SandboxName(cfg.vni) := Sandbox(false, false)] && w'.monitors == w.monitors
      && SameBut(w.links, w'.links, LinkId(SandboxNs(SandboxName(cfg.vni)), "lo"))
  {
    hide Exec, Setup;
    SetupAfterSandbox(w, cfg, [true]);
    VxlanRefusedByPlan(Exec(SandboxSteps(cfg.vni, cfg.dns)[0], HostNs, w.(plan := w.plan[1..])).w, cfg.vni);
  }

  /** Then two calls make the vxlan link and move it, and the DNS server is refused. */
  lemma VxlanWithoutDNS(w: World, cfg: SetupConfig)
    requires w.plan == [false, false, true] && SandboxName(cfg.vni) in w.sandboxes
    requires HostVxlan(cfg.vni) !in w.links && VxlanOf(cfg.vni) !in w.links
    ensures var b := Exec(CreateVxlan(VxlanName(cfg.vni), cfg.vni), HostNs, w);
      var c := Exec(Command.MoveLink(VxlanName(cfg.vni), SandboxName(cfg.vni)), HostNs, b.w);
      var d := Exec(StartDNSServer(SandboxName(cfg.vni), cfg.dns), HostNs, c.w);
      && b.Ok() && c.Ok() && !d.Ok()
      && d.w.links == w.links[VxlanOf(cfg.vni) := NewLink(Vxlan(cfg.vni))]
  {
    var h := HostVxlan(cfg.vni);
    assert w.links[h := NewLink(Vxlan(cfg.vni))] - {h} == w.links;
  }

  /** With the tenth call failing, a Setup leaves a sandbox with its vxlan link and without dns0. */
  lemma DNSFailure(w: World, cfg: SetupConfig)
    requires w.plan == DNS_FAILS && SandboxName(cfg.vni) !in w.sandboxes && SandboxName(cfg.vni) !in w.files
    requires HostVxlan(cfg.vni) !in w.links && VxlanOf(cfg.vni) !in w.links
    ensures var w' := Setup(w, cfg).w;
      VxlanOf(cfg.vni) in w'.links
      && forall k :: k in w'.links ==> k in w.links || k == VxlanOf(cfg.vni) || k.name == "lo"
  {
    hide Exec, Setup;
    SetupAfterSandbox(w, cfg, [false, false, true]);
    var a := Exec(SandboxSteps(cfg.vni, cfg.dns)[0], HostNs, w.(plan := w.plan[1..])).w;
    OwnNamesDiffer(cfg.vni);
    VxlanWithoutDNS(a, cfg);
  }

  const EMPTY_HOST := World(map[], 0, map[], map[], {}, {}, [])

  // Three containers of network 1.

  const CONTAINER_A := SetupConfig(
    1, "/proc/1/ns/net", "eth0", "AAAAAAAAAAAAAAA", Lease([10, 0, 0, 2], 24, [10, 0, 0, 1], []), [10, 0, 0, 53])

  const CONTAINER_B := SetupConfig(
    1, "/proc/2/ns/net", "eth0", "BBBBBBBBBBBBBBB", Lease([10, 0, 0, 3], 24, [10, 0, 0, 1], []), [10, 0, 0, 53])

  const CONTAINER_C := SetupConfig(
    1, "/proc/3/ns/net", "eth0", "CCCCCCCCCCCCCCC", Lease([10, 0, 0, 4], 24, [10, 0, 0, 1], []), [10, 0, 0, 53])

  /** From an empty host, one Add whose bind mount fails: the network is lost, though no sandbox is registered. */
  lemma LostToFailedMount()
    ensures var ops := [Add(CONTAINER_A, MOUNT_FAILS)];
      && IsBoot(EMPTY_HOST) && NamedByBase32(ops) && IsLost(Run(EMPTY_HOST, ops), 1)
      && !IsStranded(Run(EMPTY_HOST, ops), 1)
  {
    hide Setup;
    var cfg := CONTAINER_A;
    var op := Add(cfg, MOUNT_FAILS);
    RunOneMore(EMPTY_HOST, [], op);
    assert [] + [op] == [op];
    MountFailure(EMPTY_HOST.(plan := MOUNT_FAILS), cfg);
  }

  /** From an empty host, one Add whose vxlan link cannot be made: the sandbox is registered, and stranded. */
  lemma StrandedByFailedVxlan()
    ensures var ops := [Add(CONTAINER_A, VXLAN_FAILS)];
      IsBoot(EMPTY_HOST) && NamedByBase32(ops) && IsStranded(Run(EMPTY_HOST, ops), 1)
  {
    hide Setup;
    var cfg := CONTAINER_A;
    var op := Add(cfg, VXLAN_FAILS);
    RunOneMore(EMPTY_HOST, [], op);
    assert [] + [op] == [op];
    OwnNamesDiffer(1);
    VxlanFailure(EMPTY_HOST.(plan := VXLAN_FAILS), cfg);
  }

  /**
   From an empty host, an Add that fails at the DNS server, and one of a second container, which makes the bridge and
   fails at putting dns0 on it. The third container's Add succeeds, and leaves the bridge as it is: without dns0.
   */
  lemma BridgeNeverFinished()
    ensures var ops := [Add(CONTAINER_A, DNS_FAILS), Add(CONTAINER_B, [])];
      var w := Run(EMPTY_HOST, ops).(plan := []);
      && IsBoot(EMPTY_HOST) && NamedByBase32(ops)
      && BridgeOf(1) in w.links && Setup(w, CONTAINER_C).Ok()
      && !Bridges.Complete(Setup(w, CONTAINER_C).w, CONTAINER_C)
  {
    hide Setup, Inv, InOrder, IsLinkName;
    var first, second := Add(CONTAINER_A, DNS_FAILS), Add(CONTAINER_B, []);
    var ops := [first, second];
    NamesOfThree();
    RunOneMore(EMPTY_HOST, [], first);
    RunOneMore(EMPTY_HOST, [first], second);
    assert [] + [first] == [first] && [first] + [second] == ops;
    DNSFailure(EMPTY_HOST.(plan := DNS_FAILS), CONTAINER_A);
    var w1 := Run(EMPTY_HOST, [first]);
    RunInOrder(EMPTY_HOST, [first], 1);
    PlanKeeps(w1, []);
    PlanInOrder(w1, w1.(plan := []), 1);
    OwnNamesDiffer(1);
    FailingAddMakesBridge(w1.(plan := []), CONTAINER_B);
    var w2 := Run(EMPTY_HOST, ops);
    RunInOrder(EMPTY_HOST, ops, 1);
    assert w2.links.Keys == w1.links.Keys + {BridgeOf(1), ContainerEnd(CONTAINER_B), SandboxEnd(CONTAINER_B)};
    assert Fits(w2, CONTAINER_C);
    JoinsAtOnce(w2, CONTAINER_C);
    PlanKeeps(w2, []);
    Bridges.SetupCompletesBridge(w2.(plan := []), CONTAINER_C);
  }

  lemma NamesOfThree()
    ensures IsLinkName(CONTAINER_A.linkName) && IsLinkName(CONTAINER_B.linkName) && IsLinkName(CONTAINER_C.linkName)
    ensures CONTAINER_B.linkName != CONTAINER_C.linkName
  {
    assert CONTAINER_B.linkName[0] == 'B' && CONTAINER_C.linkName[0] == 'C';
  }
}
