/** What the steps of a request do to a network they do not name: at most, links of its sandbox change or veths go. */
module Sparing {
  import opened Wrappers
  import opened Ipv4
  import opened Naming
  import opened Host
  import opened Commands
  import opened Container
  import opened SandboxSafety
  import opened SetupEffects
  import opened SetupDelete

  /** A link that bears the name of the network's vxlan link, in the host's namespace. */
  function HostVxlan(vni: nat): LinkId {
    LinkId(HostNs, VxlanName(vni))
  }

  /** That name is taken for good: by a link that does not go when a container does. */
  predicate HostTaken(w: World, vni: nat) {
    var h := HostVxlan(vni);
    && h in w.links
    && (w.links[h].kind.Veth? ==>
          && w.links[h].kind.pair < w.nextPair
          && forall k :: k in w.links && k.ns.ContainerNs? ==> w.links[k].kind != w.links[h].kind)
  }

  /** From w to w' the sandbox's entries are the same, and of its links only veths may have gone. */
  ghost predicate Spares(w: World, w': World, vni: nat) {
    var name := SandboxName(vni);
    && (name in w'.sandboxes <==> name in w.sandboxes)
    && (name in w.sandboxes ==> w'.sandboxes[name] == w.sandboxes[name])
    && (name in w'.monitors <==> name in w.monitors)
    && (name in w'.files <==> name in w.files)
    && (name in w.files ==> w'.files[name] == w.files[name])
    && (forall k :: k in w'.links && k.ns == SandboxNs(name) ==> k in w.links && w'.links[k].kind == w.links[k].kind)
    && (forall k :: k in w.links && k.ns == SandboxNs(name) && !w.links[k].kind.Veth? ==> k in w'.links)
    && (HostTaken(w, vni) ==> HostTaken(w', vni))
  }

  lemma SparesReflexive(w: World, vni: nat)
    ensures Spares(w, w, vni)
  {
  }

  lemma SparesTransitive(u: World, v: World, w: World, vni: nat)
    requires Spares(u, v, vni) && Spares(v, w, vni)
    ensures Spares(u, w, vni)
  {
  }

  lemma SparesFallible(w: World, vni: nat)
    ensures Spares(w, Fallible(w).w, vni)
  {
  }

  /** Changing or adding one link that is no veth, outside the sandbox, spares it. */
  lemma OneLinkSpares(w: World, w': World, id: LinkId, vni: nat)
    requires SameBut(w.links, w'.links, id) && id.ns != SandboxNs(SandboxName(vni))
    requires id in w.links ==> id in w'.links && w'.links[id].kind == w.links[id].kind
    requires id in w'.links && id !in w.links ==> !w'.links[id].kind.Veth?
    requires w'.nextPair >= w.nextPair && w'.monitors == w.monitors
    requires var name := SandboxName(vni);
      && (name in w'.sandboxes <==> name in w.sandboxes)
      && (name in w.sandboxes ==> w'.sandboxes[name] == w.sandboxes[name])
      && (name in w'.files <==> name in w.files) && (name in w.files ==> w'.files[name] == w.files[name])
    ensures Spares(w, w', vni)
  {
  }

  /** The commands, run in `ns`, that do not name the network's sandbox, enter it, or take links from it or the host. */
  predicate Avoids(c: Command, ns: Ns, vni: nat)
    decreases c
  {
    var name := SandboxName(vni);
    && ns != SandboxNs(name)
    && match c
       case Group(members) => forall m :: m in members ==> Avoids(m, ns, vni)
       case Unless(_, body) => Avoids(body, ns, vni)
       case InNamespace(inner, body) => Avoids(body, inner, vni)
       case CreateSandbox(sandbox) => sandbox != name
       case CleanupSandbox(sandbox, _) => sandbox != name
       case StartDNSServer(sandbox, _) => sandbox != name
       case StartMonitor(sandbox, _) => sandbox != name
       case MoveLink(link, sandbox) => sandbox != name && LinkId(ns, link) != HostVxlan(vni)
       case DeleteLink(_) => ns.ContainerNs?
       case _ => true
  }

  lemma CreateSpares(w: World, other: string, vni: nat)
    requires other != SandboxName(vni)
    ensures Spares(w, Host.CreateSandbox(w, other).w, vni)
  {
    hide Host.CreateSandbox;
    CreateSandboxFrame(w, other);
    var w' := Host.CreateSandbox(w, other).w;
    assert forall n :: n != other ==>
      (n in w'.files <==> n in w'.files - {other}) && (n in w.files <==> n in w.files - {other});
    LoopbackSpares(w, w', other, vni);
  }

  lemma LoopbackSpares(w: World, w': World, other: string, vni: nat)
    requires other != SandboxName(vni) && SameBut(w.links, w'.links, LinkId(SandboxNs(other), "lo"))
    requires w'.nextPair == w.nextPair && w'.monitors == w.monitors
    requires var name := SandboxName(vni);
      && (name in w'.sandboxes <==> name in w.sandboxes)
      && (name in w.sandboxes ==> w'.sandboxes[name] == w.sandboxes[name])
      && (name in w'.files <==> name in w.files) && (name in w.files ==> w'.files[name] == w.files[name])
    ensures Spares(w, w', vni)
  {
  }

  /** Without veths, a sandbox goes without touching a link elsewhere. */
  lemma WithoutNsSpares(links: Links, ns: Ns)
    requires VethsIn(links, ns) == {}
    ensures WithoutNs(links, ns) == map k | k in links && k.ns != ns :: links[k]
  {
  }

  lemma DestroySpares(w: World, other: string, vni: nat)
    requires other != SandboxName(vni) && VethsIn(w.links, SandboxNs(other)) == {}
    ensures Spares(w, DestroySandbox(w, other).w, vni)
  {
    hide Fallible, WithoutNs, VethsIn;
    if other in w.sandboxes {
      var torn := Host.Teardown(w, other).w;
      FallibleFrame(torn);
      FallibleFrame(Fallible(torn).w.(files := torn.files[other := Bare]));
      WithoutNsSpares(w.links, SandboxNs(other));
    }
  }

  lemma DropSpares(w: World, other: string, vxlan: string, vni: nat)
    requires other != SandboxName(vni) && VethsIn(w.links, SandboxNs(other)) == {}
    ensures Spares(w, DropVxlan(w, SandboxNs(other), vxlan).w, vni)
  {
    hide Fallible;
    FallibleFrame(w);
    FallibleFrame(Fallible(w).w);
    var id := LinkId(SandboxNs(other), vxlan);
    if id in w.links {
      assert id !in VethsIn(w.links, SandboxNs(other));
    }
  }

  lemma CleanupSpares(w: World, other: string, vxlan: string, vni: nat)
    requires other != SandboxName(vni)
    ensures Spares(w, Cleanup(w, other, vxlan).w, vni)
  {
    hide Spares, Fallible, DropVxlan, DestroySandbox, VethsIn;
    SparesReflexive(w, vni);
    var entered := Fallible(w).w;
    SparesFallible(w, vni);
    SparesFallible(entered, vni);
    var listed := Fallible(entered).w;
    FallibleFrame(w);
    FallibleFrame(entered);
    SparesTransitive(w, entered, listed, vni);
    if VethsIn(w.links, SandboxNs(other)) == {} {
      DropSpares(listed, other, vxlan, vni);
      DropEffect(listed, SandboxNs(other), vxlan);
      var dropped := DropVxlan(listed, SandboxNs(other), vxlan).w;
      SparesTransitive(w, listed, dropped, vni);
      DestroySpares(dropped, other, vni);
      SparesTransitive(w, dropped, DestroySandbox(dropped, other).w, vni);
    }
  }

  lemma DNSSpares(w: World, other: string, dns: IP, vni: nat)
    requires other != SandboxName(vni)
    ensures Spares(w, StartDNS(w, other, dns).w, vni)
  {
    hide Fallible, ListenDNS;
    FallibleFrame(w);
    var resolved := Fallible(w).w;
    ListenKeepsTables(resolved, SandboxNs(other), dns);
    var heard := ListenDNS(resolved, SandboxNs(other), dns).w;
    if other in w.sandboxes {
      FallibleFrame(heard.(sandboxes := w.sandboxes[other := w.sandboxes[other].(dns := true)]));
    }
  }

  lemma MonitorSpares(w: World, other: string, vxlan: string, vni: nat)
    requires other != SandboxName(vni)
    ensures Spares(w, Host.StartMonitor(w, other, vxlan).w, vni)
  {
    hide Fallible, WatchMisses;
    FallibleFrame(w);
    FallibleFrame(Fallible(w).w);
    WatchEffect(other, vxlan, Fallible(Fallible(w).w).w);
  }

  lemma MovingSpares(link: string, sandbox: string, ns: Ns, w: World, vni: nat)
    requires Avoids(Command.MoveLink(link, sandbox), ns, vni)
    ensures Spares(w, ExecPrimitive(Command.MoveLink(link, sandbox), ns, w).w, vni)
  {
    hide Fallible;
    FallibleFrame(w);
  }

  lemma PairSpares(link: string, peer: string, ns: Ns, w: World, vni: nat)
    requires ns != SandboxNs(SandboxName(vni))
    ensures Spares(w, AddVeth(w, ns, link, peer).w, vni)
  {
    hide Fallible;
    FallibleFrame(w);
  }

  lemma DeletingSpares(id: LinkId, w: World, vni: nat)
    requires id.ns.ContainerNs?
    ensures Spares(w, Host.DeleteLink(w, id).w, vni)
  {
    hide Fallible;
    FallibleFrame(w);
  }

  lemma LinkCommandSpares(c: Command, ns: Ns, w: World, vni: nat)
    requires ns != SandboxNs(SandboxName(vni)) && Local(c) && !c.Group? && !c.Unless?
    ensures Spares(w, ExecPrimitive(c, ns, w).w, vni)
  {
    hide Grown, ExecPrimitive, Spares;
    LocalPrimitiveGrows(c, ns, w);
    GrowingSpares(w, ExecPrimitive(c, ns, w).w, ns, vni);
  }

  lemma GrowingSpares(w: World, w': World, ns: Ns, vni: nat)
    requires Grown(w, w', ns) && ns != SandboxNs(SandboxName(vni))
    ensures Spares(w, w', vni)
  {
  }

  lemma OtherCommandSpares(c: Command, ns: Ns, w: World, vni: nat)
    requires ns != SandboxNs(SandboxName(vni)) && (c.CreateVxlan? || c.AddRoute? || c.GetHardwareAddress?)
    ensures Spares(w, ExecPrimitive(c, ns, w).w, vni)
  {
    hide Fallible, Spares;
    FallibleFrame(w);
    SparesReflexive(w, vni);
    SparesFallible(w, vni);
    var w' := ExecPrimitive(c, ns, w).w;
    if !c.GetHardwareAddress? && w' != w && w' != Fallible(w).w {
      OneLinkSpares(w, w', LinkId(ns, c.link), vni);
    }
  }

  lemma PrimitiveSpares(c: Command, ns: Ns, w: World, vni: nat)
    requires Avoids(c, ns, vni) && !c.Group? && !c.Unless? && !c.InNamespace?
    ensures Spares(w, ExecPrimitive(c, ns, w).w, vni)
  {
    hide Spares, Host.CreateSandbox, Cleanup, StartDNS, Host.StartMonitor, AddVeth, Host.DeleteLink;
    match c
    case CreateSandbox(sandbox) => CreateSpares(w, sandbox, vni);
    case CleanupSandbox(sandbox, vxlan) => CleanupSpares(w, sandbox, vxlan, vni);
    case StartDNSServer(sandbox, dns) => DNSSpares(w, sandbox, dns, vni);
    case StartMonitor(sandbox, vxlan) => MonitorSpares(w, sandbox, vxlan, vni);
    case MoveLink(link, sandbox) => MovingSpares(link, sandbox, ns, w, vni);
    case CreateVeth(link, peer) => PairSpares(link, peer, ns, w, vni);
    case DeleteLink(link) => DeletingSpares(LinkId(ns, link), w, vni);
    case CreateVxlan(_, _) => OtherCommandSpares(c, ns, w, vni);
    case AddRoute(_, _) => OtherCommandSpares(c, ns, w, vni);
    case GetHardwareAddress(_) => OtherCommandSpares(c, ns, w, vni);
    case _ => LinkCommandSpares(c, ns, w, vni);
  }

  lemma {:induction false} AvoidingSpares(c: Command, ns: Ns, w: World, vni: nat)
    requires Avoids(c, ns, vni)
    ensures Spares(w, Exec(c, ns, w).w, vni)
    decreases c, 1
  {
    hide Spares, ExecPrimitive;
    SparesReflexive(w, vni);
    match c
    case Group(members) => AvoidingAllSpares(members, ns, w, vni);
    case Unless(_, body) => AvoidingSpares(body, ns, w, vni);
    case InNamespace(inner, body) =>
      SparesFallible(w, vni);
      AvoidingSpares(body, inner, Fallible(w).w, vni);
      SparesTransitive(w, Fallible(w).w, Exec(body, inner, Fallible(w).w).w, vni);
    case _ => PrimitiveSpares(c, ns, w, vni);
  }

  lemma {:induction false} AvoidingAllSpares(cs: seq<Command>, ns: Ns, w: World, vni: nat)
    requires forall c :: c in cs ==> Avoids(c, ns, vni)
    ensures Spares(w, ExecAll(cs, ns, w).w, vni)
    decreases cs, 0
  {
    hide Spares;
    SparesReflexive(w, vni);
    if cs != [] {
      AvoidingSpares(cs[0], ns, w, vni);
      var first := Exec(cs[0], ns, w);
      if first.Ok() {
        AvoidingAllSpares(cs[1..], ns, first.w, vni);
        SparesTransitive(w, first.w, ExecAll(cs[1..], ns, first.w).w, vni);
      }
    }
  }

  // ---------- requests on other networks ----------

  lemma NamesDiffer(v: nat, w: nat)
    requires v != w
    ensures SandboxName(v) != SandboxName(w) && VxlanName(v) != VxlanName(w)
  {
    if VxlanName(v) == VxlanName(w) {
      assert SandboxName(v) == "vni-" + VxlanName(v)[5..] && SandboxName(w) == "vni-" + VxlanName(w)[5..];
    }
    if SandboxName(v) == SandboxName(w) {
      SandboxNameInjective(v, w);
    }
  }

  lemma VxlanAvoids(other: nat, vni: nat)
    requires other != vni
    ensures Avoids(VxlanTree(other), HostNs, vni)
  {
    NamesDiffer(other, vni);
    hide SandboxName, VxlanName;
    assert Avoids(SetLinkUp(VxlanName(other)), SandboxNs(SandboxName(other)), vni);
    assert Avoids(VxlanSteps(other)[0], HostNs, vni) && Avoids(VxlanSteps(other)[1], HostNs, vni);
  }

  lemma VethAvoids(cfg: SetupConfig, vni: nat)
    requires cfg.vni != vni
    ensures Avoids(VethTree(cfg), HostNs, vni)
  {
    NamesDiffer(cfg.vni, vni);
    hide SandboxName, RouteCommands;
    var ns := ContainerNs(cfg.containerPath);
    var routes := Group(RouteCommands(cfg.interface, cfg.lease.routes, cfg.lease.gateway));
    assert Avoids(routes, ns, vni);
    assert Avoids(Group(PairSteps(cfg) + EndSteps(cfg)), ns, vni);
  }

  lemma BridgeAvoids(cfg: SetupConfig, vni: nat)
    requires cfg.vni != vni
    ensures Avoids(BridgeTree(cfg), HostNs, vni)
  {
    NamesDiffer(cfg.vni, vni);
    hide SandboxName, BridgeName, VxlanName;
    var ns := SandboxNs(SandboxName(cfg.vni));
    NewBridgeAvoids(cfg, ns, vni);
    hide NewBridgeTree;
    assert Avoids(Group(BridgeSteps(cfg)), ns, vni);
  }

  lemma NewBridgeAvoids(cfg: SetupConfig, ns: Ns, vni: nat)
    requires ns != SandboxNs(SandboxName(vni))
    ensures Avoids(NewBridgeTree(cfg), ns, vni)
  {
    hide BridgeName;
    assert Avoids(Group(NewBridgeSteps(cfg)), ns, vni);
  }

  lemma TreesAvoid(cfg: SetupConfig, vni: nat)
    requires cfg.vni != vni
    ensures Avoids(SandboxTree(cfg.vni, cfg.dns), HostNs, vni) && Avoids(Group(WiringSteps(cfg)), HostNs, vni)
    ensures Avoids(InNamespace(ContainerNs(cfg.containerPath), GetHardwareAddress(cfg.interface)), HostNs, vni)
  {
    NamesDiffer(cfg.vni, vni);
    hide SandboxName, VxlanName, VxlanTree, VethTree, BridgeTree;
    VxlanAvoids(cfg.vni, vni);
    VethAvoids(cfg, vni);
    BridgeAvoids(cfg, vni);
    assert Avoids(GetHardwareAddress(cfg.interface), ContainerNs(cfg.containerPath), vni);
    assert Avoids(Group(SandboxSteps(cfg.vni, cfg.dns)), HostNs, vni);
  }

  /** A Setup on another network spares this one, wherever it stops. */
  lemma SetupOfOtherSpares(w: World, cfg: SetupConfig, vni: nat)
    requires cfg.vni != vni
    ensures Spares(w, Setup(w, cfg).w, vni)
  {
    hide Exec, Spares, Fallible, Avoids;
    TreesAvoid(cfg, vni);
    SparesFallible(w, vni);
    var container := Fallible(w).w;
    var tree := SandboxTree(cfg.vni, cfg.dns);
    AvoidingSpares(tree, HostNs, container, vni);
    var created := Exec(tree, HostNs, container).w;
    SparesTransitive(w, container, created, vni);
    AvoidingSpares(Group(WiringSteps(cfg)), HostNs, created, vni);
    var wired := Exec(Group(WiringSteps(cfg)), HostNs, created).w;
    SparesTransitive(w, created, wired, vni);
    var last := InNamespace(ContainerNs(cfg.containerPath), GetHardwareAddress(cfg.interface));
    AvoidingSpares(last, HostNs, wired, vni);
    SparesTransitive(w, wired, Exec(last, HostNs, wired).w, vni);
  }

  /** So does a Delete. */
  lemma DeleteOfOtherSpares(w: World, interface: string, path: string, other: nat, vni: nat)
    requires other != vni
    ensures Spares(w, Delete(w, interface, path, other).w, vni)
  {
    hide Exec, Spares, Fallible;
    NamesDiffer(other, vni);
    SparesFallible(w, vni);
    var tree := Group(DeleteSteps(interface, path, other));
    assert Avoids(Command.DeleteLink(interface), ContainerNs(path), vni);
    assert Avoids(tree, HostNs, vni);
    AvoidingSpares(tree, HostNs, Fallible(w).w, vni);
    SparesTransitive(w, Fallible(w).w, Exec(tree, HostNs, Fallible(w).w).w, vni);
  }

  /** So does a container that goes. */
  lemma GoneSpares(w: World, path: string, vni: nat)
    ensures Spares(w, w.(links := WithoutNs(w.links, ContainerNs(path))), vni)
  {
  }
}
