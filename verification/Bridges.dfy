/** When a container's Setup leaves its network a complete bridge: up, with the gateway's address, and holding dns0. */
module Bridges {
  import opened Wrappers
  import opened Ipv4
  import opened Naming
  import opened Host
  import opened Commands
  import opened Container
  import opened SandboxSafety
  import opened SetupEffects
  import opened SetupDelete
  import opened SetupSucceeds

  ghost predicate Complete(w: World, cfg: SetupConfig) {
    && BridgeEnd(cfg) in w.links && w.links[BridgeEnd(cfg)].kind.Bridge? && w.links[BridgeEnd(cfg)].up
    && Address(cfg.lease.gateway, cfg.lease.ones) in w.links[BridgeEnd(cfg)].addresses
    && DNSEnd(cfg) in w.links && w.links[DNSEnd(cfg)].master == Some(BridgeName(cfg.vni))
  }

  /** The two links that make a bridge complete are the same, or both absent as before. */
  ghost predicate SameBridge(w: World, w': World, cfg: SetupConfig) {
    && (BridgeEnd(cfg) in w.links <==> BridgeEnd(cfg) in w'.links)
    && (BridgeEnd(cfg) in w.links ==> w'.links[BridgeEnd(cfg)] == w.links[BridgeEnd(cfg)])
    && (DNSEnd(cfg) in w.links <==> DNSEnd(cfg) in w'.links)
    && (DNSEnd(cfg) in w.links ==> w'.links[DNSEnd(cfg)] == w.links[DNSEnd(cfg)])
  }

  lemma LinksDiffer(cfg: SetupConfig)
    ensures VxlanEnd(cfg) != BridgeEnd(cfg) && VxlanEnd(cfg) != DNSEnd(cfg) && BridgeEnd(cfg) != DNSEnd(cfg)
    ensures LinkId(SandboxNs(SandboxName(cfg.vni)), "lo") != BridgeEnd(cfg)
  {
    LinkNamesDiffer(cfg.vni);
    assert VxlanName(cfg.vni)[0] == 'v' && BridgeName(cfg.vni)[0] == 'v' && DNS_INTERFACE_NAME[0] == 'd' &&
      "lo"[0] == 'l';
  }

  lemma OneLinkLeavesBridge(w: World, w': World, cfg: SetupConfig, id: LinkId, link: Link)
    requires LinkBecomes(w, w', id, link) && id != BridgeEnd(cfg) && id != DNSEnd(cfg)
    ensures SameBridge(w, w', cfg)
  {
  }

  /** A bridge made from nothing is complete. */
  lemma NewBridgeIsComplete(cfg: SetupConfig, ns: Ns, w: World)
    requires ns == SandboxNs(SandboxName(cfg.vni)) && BridgeEnd(cfg) !in w.links
    ensures var o := Exec(NewBridgeTree(cfg), ns, w); o.Ok() ==> Complete(o.w, cfg)
  {
    hide ExecAll, ExecPrimitive, LinkBecomes;
    var bridge := BridgeName(cfg.vni);
    var address := Address(cfg.lease.gateway, cfg.lease.ones);
    var cs := NewBridgeSteps(cfg);
    assert Exec(Group(cs), ns, w) == ExecAll(cs, ns, w);
    ExecAllOfFour(cs, ns, w);
    if ExecAll(cs, ns, w).Ok() {
      var a := Exec(cs[0], ns, w).w;
      BridgeMade(bridge, ns, w);
      AddressEffect(bridge, address, ns, a);
      var b := Exec(cs[1], ns, a).w;
      BecomesHas(a, b, BridgeEnd(cfg), a.links[BridgeEnd(cfg)].(addresses := [] + [address]));
      UpEffect(bridge, ns, b);
      var c := Exec(cs[2], ns, b).w;
      BecomesHas(b, c, BridgeEnd(cfg), b.links[BridgeEnd(cfg)].(up := true));
      MasterEffect(bridge, DNS_INTERFACE_NAME, ns, c);
      var d := Exec(cs[3], ns, c).w;
      LinksDiffer(cfg);
      BecomesHas(c, d, DNSEnd(cfg), c.links[DNSEnd(cfg)].(master := Some(bridge)));
      BecomesKeepsOthers(c, d, DNSEnd(cfg), c.links[DNSEnd(cfg)].(master := Some(bridge)), BridgeEnd(cfg));
    }
  }

  lemma BridgeMade(bridge: string, ns: Ns, w: World)
    ensures var o := Exec(CreateBridge(bridge), ns, w);
      o.Ok() ==> LinkId(ns, bridge) in o.w.links && o.w.links[LinkId(ns, bridge)] == NewLink(Bridge)
  {
  }

  lemma BecomesKeepsOthers(w: World, w': World, id: LinkId, link: Link, other: LinkId)
    requires LinkBecomes(w, w', id, link) && other != id && other in w.links
    ensures other in w'.links && w'.links[other] == w.links[other]
  {
  }

  /** A bridge cannot be put on a bridge, so the sandbox end is not named like it. */
  lemma SlaveIsNoBridge(master: string, slave: string, ns: Ns, w: World)
    requires Exec(SetLinkMaster(master, slave), ns, w).Ok()
    ensures LinkId(ns, slave) in w.links && !BoundToNs(w.links[LinkId(ns, slave)].kind)
    ensures LinkId(ns, master) in w.links && w.links[LinkId(ns, master)].kind.Bridge?
  {
  }

  lemma EnslavingLeavesBridge(cfg: SetupConfig, w: World)
    requires cfg.linkName != DNS_INTERFACE_NAME
    ensures var ns, bridge := SandboxNs(SandboxName(cfg.vni)), BridgeName(cfg.vni);
      var c := Exec(SetLinkMaster(bridge, VxlanName(cfg.vni)), ns, w);
      var d := Exec(SetLinkMaster(bridge, cfg.linkName), ns, c.w);
      c.Ok() && d.Ok() ==> SameBridge(w, d.w, cfg) && SandboxEnd(cfg) != BridgeEnd(cfg)
  {
    hide Exec, LinkBecomes;
    var ns, bridge := SandboxNs(SandboxName(cfg.vni)), BridgeName(cfg.vni);
    var c := Exec(SetLinkMaster(bridge, VxlanName(cfg.vni)), ns, w);
    var d := Exec(SetLinkMaster(bridge, cfg.linkName), ns, c.w);
    if c.Ok() && d.Ok() {
      LinksDiffer(cfg);
      MasterEffect(bridge, VxlanName(cfg.vni), ns, w);
      OneLinkLeavesBridge(w, c.w, cfg, VxlanEnd(cfg), w.links[VxlanEnd(cfg)].(master := Some(bridge)));
      SlaveIsNoBridge(bridge, cfg.linkName, ns, c.w);
      MasterEffect(bridge, cfg.linkName, ns, c.w);
      OneLinkLeavesBridge(c.w, d.w, cfg, SandboxEnd(cfg), c.w.links[SandboxEnd(cfg)].(master := Some(bridge)));
    }
  }

  /** IdempotentlySetupBridge completes a bridge only by making it: one that is there half made is left as it is. */
  lemma BridgeTreeCompletes(cfg: SetupConfig, ns: Ns, w: World)
    requires Exec(BridgeTree(cfg), ns, w).Ok() && cfg.linkName != DNS_INTERFACE_NAME
    ensures SandboxEnd(cfg) != BridgeEnd(cfg)
    ensures Complete(Exec(BridgeTree(cfg), ns, w).w, cfg) <==> BridgeEnd(cfg) !in w.links || Complete(w, cfg)
  {
    hide Exec, ExecAll, Fallible, NewBridgeTree, LinkBecomes, SameBridge;
    var inner := SandboxNs(SandboxName(cfg.vni));
    var cs := BridgeSteps(cfg);
    var u := Fallible(w).w;
    FallibleFrame(w);
    InNamespaceOfGroup(cs, inner, ns, w);
    ExecAllOfFour(cs, inner, u);
    var a := Exec(cs[0], inner, u).w;
    var b := Exec(cs[1], inner, a).w;
    var d := Exec(cs[3], inner, Exec(cs[2], inner, b).w).w;
    EnslavingLeavesBridge(cfg, b);
    SameCompletes(b, d, cfg);
    LinksDiffer(cfg);
    UpEffect(cfg.linkName, inner, u);
    OneLinkLeavesBridge(u, a, cfg, SandboxEnd(cfg), u.links[SandboxEnd(cfg)].(up := true));
    SameCompletes(u, a, cfg);
    if BridgeEnd(cfg) in a.links {
      BridgeIsThere(cfg, a);
    } else {
      NewBridgeIsComplete(cfg, inner, a);
    }
  }

  lemma SameCompletes(w: World, w': World, cfg: SetupConfig)
    requires SameBridge(w, w', cfg)
    ensures Complete(w, cfg) <==> Complete(w', cfg)
    ensures BridgeEnd(cfg) in w.links <==> BridgeEnd(cfg) in w'.links
  {
  }

  // ---------- Setup ----------

  /** A sandbox made afresh has only its own three links. */
  lemma NewSandboxLinks(cfg: SetupConfig, w: World)
    requires Exec(SandboxTree(cfg.vni, cfg.dns), HostNs, w).Ok() && SandboxName(cfg.vni) !in w.sandboxes
    ensures Exec(SandboxTree(cfg.vni, cfg.dns), HostNs, w).w.links.Keys
      <= w.links.Keys + {LinkId(SandboxNs(SandboxName(cfg.vni)), "lo"), VxlanEnd(cfg), DNSEnd(cfg)}
  {
    hide ExecAll, ExecPrimitive, LinkBecomes;
    var cs := SandboxSteps(cfg.vni, cfg.dns);
    assert Exec(Group(cs), HostNs, w) == ExecAll(cs, HostNs, w);
    ExecAllOfFour(cs, HostNs, w);
    var a := Exec(cs[0], HostNs, w).w;
    var b := Exec(cs[1], HostNs, a).w;
    var c := Exec(cs[2], HostNs, b).w;
    CreationLinks(cfg, w);
    VxlanEffect(cfg, a);
    BecomesAdds(a, c, VxlanEnd(cfg), NewLink(Vxlan(cfg.vni)));
    DNSLinks(cfg, c);
  }

  lemma CreationLinks(cfg: SetupConfig, w: World)
    ensures Exec(Command.CreateSandbox(SandboxName(cfg.vni)), HostNs, w).w.links.Keys
      <= w.links.Keys + {LinkId(SandboxNs(SandboxName(cfg.vni)), "lo")}
  {
    hide Host.CreateSandbox;
    CreateSandboxFrame(w, SandboxName(cfg.vni));
  }

  lemma BecomesAdds(w: World, w': World, id: LinkId, link: Link)
    requires LinkBecomes(w, w', id, link)
    ensures w'.links.Keys == w.links.Keys + {id}
  {
  }

  lemma DNSLinks(cfg: SetupConfig, w: World)
    ensures Exec(StartDNSServer(SandboxName(cfg.vni), cfg.dns), HostNs, w).w.links.Keys <= w.links.Keys + {DNSEnd(cfg)}
  {
    hide Fallible, ListenDNS;
    FallibleFrame(w);
    var resolved := Fallible(w).w;
    ListenKeepsTables(resolved, SandboxNs(SandboxName(cfg.vni)), cfg.dns);
    var heard := ListenDNS(resolved, SandboxNs(SandboxName(cfg.vni)), cfg.dns).w;
    if SandboxName(cfg.vni) in w.sandboxes {
      var name := SandboxName(cfg.vni);
      FallibleFrame(heard.(sandboxes := w.sandboxes[name := w.sandboxes[name].(dns := true)]));
    }
  }

  /** Before the bridge is set up, Setup has not touched what makes it complete; a new sandbox has none. */
  lemma BridgeBeforeBridgeTree(w: World, cfg: SetupConfig)
    requires Setup(w, cfg).Ok() && Inv(w) && SandboxEnd(cfg) != BridgeEnd(cfg) && cfg.linkName != DNS_INTERFACE_NAME
    ensures var p := AfterVeth(w, cfg).w;
      if SandboxName(cfg.vni) in w.sandboxes then SameBridge(w, p, cfg)
      else BridgeEnd(cfg) !in w.links && BridgeEnd(cfg) !in p.links
  {
    hide Exec, Setup, Fallible, Inv;
    SetupSteps(w, cfg);
    FallibleFrame(w);
    LinksDiffer(cfg);
    VxlanTreeEffect(cfg, AfterSandbox(w, cfg).w);
    VethTreeEffect(cfg, HostNs, AfterVxlan(w, cfg).w);
    if SandboxName(cfg.vni) in w.sandboxes {
      SandboxIsThere(cfg, Fallible(w).w);
    } else {
      NoLinksYet(w, cfg);
      NewSandboxLinks(cfg, Fallible(w).w);
    }
  }

  /**
   A Setup that succeeds leaves the network's bridge up, addressed and holding dns0 if and only if there was no such
   bridge or it was complete already. (The container's link is never called dns0: it has fifteen characters.)
   */
  lemma SetupCompletesBridge(w: World, cfg: SetupConfig)
    requires Setup(w, cfg).Ok() && Inv(w) && cfg.linkName != DNS_INTERFACE_NAME
    ensures Complete(Setup(w, cfg).w, cfg) <==> BridgeEnd(cfg) !in w.links || Complete(w, cfg)
  {
    hide Exec, Setup, Fallible, Inv, SameBridge;
    SetupSteps(w, cfg);
    var p := AfterVeth(w, cfg).w;
    BridgeTreeCompletes(cfg, HostNs, p);
    BridgeBeforeBridgeTree(w, cfg);
    if SandboxName(cfg.vni) in w.sandboxes {
      SameCompletes(w, p, cfg);
    }
  }

  // ---------- a network's first Setup ----------

  lemma ListenEffect(w: World, ns: Ns, dns: IP)
    ensures var o := ListenDNS(w, ns, dns);
      var id := LinkId(ns, DNS_INTERFACE_NAME);
      o.Ok() ==> id !in w.links && o.w.links == w.links[id := Link(Dummy, true, None, [Address(dns, 32)], [])]
  {
    hide Fallible;
    var id := LinkId(ns, DNS_INTERFACE_NAME);
    FallibleFrame(w);
    var entered := Fallible(w).w;
    FallibleFrame(entered);
    var created := AddLink(entered, id, Dummy).w;
    FallibleFrame(created);
    var addressed := Host.AddAddress(created, id, Address(dns, 32)).w;
    FallibleFrame(addressed);
    FallibleFrame(SetUp(addressed, id).w);
    assert [] + [Address(dns, 32)] == [Address(dns, 32)];
  }

  lemma DNSEffect(name: string, dns: IP, ns: Ns, w: World)
    ensures var o := Exec(StartDNSServer(name, dns), ns, w);
      var id := LinkId(SandboxNs(name), DNS_INTERFACE_NAME);
      o.Ok() ==>
        && name in w.sandboxes && o.w.sandboxes == w.sandboxes[name := w.sandboxes[name].(dns := true)]
        && id !in w.links && o.w.links == w.links[id := Link(Dummy, true, None, [Address(dns, 32)], [])]
  {
    hide Fallible, ListenDNS;
    FallibleFrame(w);
    var resolved := Fallible(w).w;
    ListenEffect(resolved, SandboxNs(name), dns);
    ListenKeepsTables(resolved, SandboxNs(name), dns);
    var heard := ListenDNS(resolved, SandboxNs(name), dns).w;
    if name in w.sandboxes {
      FallibleFrame(heard.(sandboxes := w.sandboxes[name := w.sandboxes[name].(dns := true)]));
    }
  }

  /** The sandbox's vxlan link is one of the network's VNI, dns0 has the server's address, and the server runs. */
  ghost predicate Equipped(w: World, cfg: SetupConfig) {
    var name := SandboxName(cfg.vni);
    && VxlanEnd(cfg) in w.links && w.links[VxlanEnd(cfg)].kind == Vxlan(cfg.vni)
    && DNSEnd(cfg) in w.links && w.links[DNSEnd(cfg)].kind == Dummy && w.links[DNSEnd(cfg)].up
    && [Address(cfg.dns, 32)] <= w.links[DNSEnd(cfg)].addresses
    && name in w.sandboxes && w.sandboxes[name] == Sandbox(false, true)
  }

  lemma NewSandboxIsEquipped(cfg: SetupConfig, w: World)
    requires Exec(SandboxTree(cfg.vni, cfg.dns), HostNs, w).Ok() && SandboxName(cfg.vni) !in w.sandboxes
    ensures Equipped(Exec(SandboxTree(cfg.vni, cfg.dns), HostNs, w).w, cfg)
  {
    hide ExecAll, ExecPrimitive, LinkBecomes;
    var cs := SandboxSteps(cfg.vni, cfg.dns);
    assert Exec(Group(cs), HostNs, w) == ExecAll(cs, HostNs, w);
    ExecAllOfFour(cs, HostNs, w);
    var a := Exec(cs[0], HostNs, w).w;
    var b := Exec(cs[1], HostNs, a).w;
    var c := Exec(cs[2], HostNs, b).w;
    CreationRegisters(cfg, w);
    VxlanEffect(cfg, a);
    BecomesHas(a, c, VxlanEnd(cfg), NewLink(Vxlan(cfg.vni)));
    SameSandboxes(a, c, VxlanEnd(cfg), NewLink(Vxlan(cfg.vni)));
    DNSEffect(SandboxName(cfg.vni), cfg.dns, HostNs, c);
    LinksDiffer(cfg);
  }

  lemma CreationRegisters(cfg: SetupConfig, w: World)
    requires SandboxName(cfg.vni) !in w.sandboxes
    ensures var o := Exec(Command.CreateSandbox(SandboxName(cfg.vni)), HostNs, w);
      o.Ok() ==> o.w.sandboxes == w.sandboxes[SandboxName(cfg.vni) := Sandbox(false, false)]
  {
    hide Host.CreateSandbox;
    CreateSandboxFrame(w, SandboxName(cfg.vni));
    CreateRegisters(SandboxName(cfg.vni), HostNs, w);
  }

  lemma SameSandboxes(w: World, w': World, id: LinkId, link: Link)
    requires LinkBecomes(w, w', id, link)
    ensures w'.sandboxes == w.sandboxes
  {
  }

  lemma GrownStaysEquipped(w: World, w': World, cfg: SetupConfig, ns: Ns)
    requires Equipped(w, cfg) && Grown(w, w', ns)
    ensures Equipped(w', cfg)
  {
  }

  lemma LinksStayEquipped(w: World, w': World, cfg: SetupConfig)
    requires Equipped(w, cfg) && w'.sandboxes == w.sandboxes
    requires VxlanEnd(cfg) in w'.links && w'.links[VxlanEnd(cfg)].kind == w.links[VxlanEnd(cfg)].kind
    requires DNSEnd(cfg) in w'.links && w'.links[DNSEnd(cfg)] == w.links[DNSEnd(cfg)]
    ensures Equipped(w', cfg)
  {
  }

  /** A network's first Setup that succeeds leaves its sandbox equipped, whatever was on the host before. */
  lemma FirstSetupEquips(w: World, cfg: SetupConfig)
    requires Setup(w, cfg).Ok() && SandboxName(cfg.vni) !in w.sandboxes
    ensures var w' := Setup(w, cfg).w;
      var name := SandboxName(cfg.vni);
      var vxlan, dns := LinkId(SandboxNs(name), VxlanName(cfg.vni)), LinkId(SandboxNs(name), "dns0");
      && vxlan in w'.links && w'.links[vxlan].kind == Vxlan(cfg.vni) && w'.links[vxlan].up
      && dns in w'.links && w'.links[dns].kind == Dummy && w'.links[dns].up
      && Address(cfg.dns, 32) in w'.links[dns].addresses
      && name in w'.sandboxes && w'.sandboxes[name] == Sandbox(false, true)
  {
    hide Exec, Setup, Fallible, Grown, Equipped;
    SetupSteps(w, cfg);
    SetupEstablishes(w, cfg);
    FallibleFrame(w);
    NewSandboxIsEquipped(cfg, Fallible(w).w);
    var s, v := AfterSandbox(w, cfg).w, AfterVxlan(w, cfg).w;
    VxlanTreeEffect(cfg, s);
    LinksDiffer(cfg);
    EquippedHas(s, cfg);
    LinksStayEquipped(s, v, cfg);
    EquippedHas(v, cfg);
    VethTreeEffect(cfg, HostNs, v);
    var p, b := AfterVeth(w, cfg).w, AfterBridge(w, cfg).w;
    LinksStayEquipped(v, p, cfg);
    BridgeTreeEffect(cfg, HostNs, p);
    GrownStaysEquipped(p, b, cfg, SandboxNs(SandboxName(cfg.vni)));
    EquippedHas(b, cfg);
  }

  lemma EquippedHas(w: World, cfg: SetupConfig)
    requires Equipped(w, cfg)
    ensures VxlanEnd(cfg) in w.links && w.links[VxlanEnd(cfg)].kind == Vxlan(cfg.vni)
    ensures DNSEnd(cfg) in w.links && w.links[DNSEnd(cfg)].kind == Dummy && w.links[DNSEnd(cfg)].up
    ensures Address(cfg.dns, 32) in w.links[DNSEnd(cfg)].addresses
    ensures SandboxName(cfg.vni) in w.sandboxes && w.sandboxes[SandboxName(cfg.vni)] == Sandbox(false, true)
  {
    assert [Address(cfg.dns, 32)][0] == w.links[DNSEnd(cfg)].addresses[0];
  }
}
