/** Delete undoes Setup. */
module SetupDelete {
  import opened Ipv4
  import opened Naming
  import opened Host
  import opened Commands
  import opened Container
  import opened SandboxSafety
  import opened SetupEffects

  predicate SameElsewhere(links: Links, links': Links, ns: Ns) {
    && (forall k :: k in links && k.ns != ns ==> k in links' && links'[k] == links[k])
    && (forall k :: k in links' && k.ns != ns ==> k in links)
  }

  predicate NoLinksIn(links: Links, ns: Ns) {
    forall k :: k in links ==> k.ns != ns
  }

  predicate NoVethsIn(links: Links, ns: Ns) {
    forall k :: k in links && k.ns == ns ==> !links[k].kind.Veth?
  }

  // ---------- what creating a sandbox adds ----------

  /** From w to w' one sandbox has appeared, with its file and links of its own. */
  predicate SandboxAppeared(w: World, w': World, name: string) {
    && name !in w.files && w'.files == w.files[name := Mounted]
    && name in w'.sandboxes && w'.sandboxes == w.sandboxes[name := w'.sandboxes[name]]
    && w'.monitors == w.monitors && w'.casualties == w.casualties && w'.nextPair == w.nextPair
    && SameElsewhere(w.links, w'.links, SandboxNs(name)) && NoVethsIn(w'.links, SandboxNs(name))
  }

  lemma NamespaceEffect(name: string, w: World)
    ensures var o := CreateNamespace(w, name);
      o.Ok() ==> name !in w.files && o.w == w.(
        plan := o.w.plan, files := w.files[name := Mounted],
        links := w.links[LinkId(SandboxNs(name), "lo") := NewLink(Loopback)])
  {
    hide Fallible;
    FallibleFrame(w);
    FallibleFrame(Fallible(w).w);
    var touched := Fallible(Fallible(w).w).w;
    var bare := touched.(files := w.files[name := Bare]);
    FallibleFrame(bare);
    FallibleFrame(WithLink(Fallible(bare).w.(files := w.files[name := Mounted]), LinkId(SandboxNs(name), "lo"),
      NewLink(Loopback)));
  }

  lemma CreateEffect(name: string, ns: Ns, w: World)
    requires NoLinksIn(w.links, SandboxNs(name)) && name !in w.sandboxes
    ensures var o := Exec(Command.CreateSandbox(name), ns, w);
      o.Ok() ==> SandboxAppeared(w, o.w, name)
  {
    hide CreateNamespace, Fallible;
    NamespaceEffect(name, w);
    var made := CreateNamespace(w, name).w;
    FallibleFrame(made.(sandboxes := w.sandboxes[name := Sandbox(false, false)]));
    var entered := Fallible(made.(sandboxes := w.sandboxes[name := Sandbox(false, false)])).w;
    FallibleFrame(entered);
  }

  lemma VxlanEffect(cfg: SetupConfig, w: World)
    ensures var a := Exec(CreateVxlan(VxlanName(cfg.vni), cfg.vni), HostNs, w);
      var b := Exec(Command.MoveLink(VxlanName(cfg.vni), SandboxName(cfg.vni)), HostNs, a.w);
      a.Ok() && b.Ok() ==> LinkBecomes(w, b.w, VxlanEnd(cfg), NewLink(Vxlan(cfg.vni)))
  {
    hide Exec;
    var id := LinkId(HostNs, VxlanName(cfg.vni));
    var a := Exec(CreateVxlan(VxlanName(cfg.vni), cfg.vni), HostNs, w);
    VxlanMade(cfg, w);
    VxlanMoved(cfg, a.w);
    if a.Ok() {
      assert a.w.links - {id} == w.links;
    }
  }

  lemma VxlanMade(cfg: SetupConfig, w: World)
    ensures var o := Exec(CreateVxlan(VxlanName(cfg.vni), cfg.vni), HostNs, w);
      var id := LinkId(HostNs, VxlanName(cfg.vni));
      o.Ok() ==> id !in w.links && o.w == w.(plan := o.w.plan, links := w.links[id := NewLink(Vxlan(cfg.vni))])
  {
  }

  lemma VxlanMoved(cfg: SetupConfig, w: World)
    ensures var o := Exec(Command.MoveLink(VxlanName(cfg.vni), SandboxName(cfg.vni)), HostNs, w);
      var id := LinkId(HostNs, VxlanName(cfg.vni));
      o.Ok() ==>
        && id in w.links
        && LinkBecomes(w.(links := w.links - {id}), o.w, VxlanEnd(cfg), NewLink(w.links[id].kind))
  {
  }

  lemma AddedVxlanKeeps(u: World, v: World, w: World, cfg: SetupConfig)
    requires SandboxAppeared(u, v, SandboxName(cfg.vni)) && LinkBecomes(v, w, VxlanEnd(cfg), NewLink(Vxlan(cfg.vni)))
    ensures SandboxAppeared(u, w, SandboxName(cfg.vni))
  {
  }

  /** The DNS server changes the sandbox's entry and its dns0 link. */
  lemma DNSEffect(name: string, dns: IP, ns: Ns, w: World)
    requires name in w.sandboxes && NoVethsIn(w.links, SandboxNs(name))
    ensures var o := Exec(StartDNSServer(name, dns), ns, w);
      o.Ok() ==>
        && o.w.files == w.files && o.w.monitors == w.monitors && o.w.casualties == w.casualties
        && o.w.nextPair == w.nextPair
        && name in o.w.sandboxes && o.w.sandboxes == w.sandboxes[name := o.w.sandboxes[name]]
        && SameElsewhere(w.links, o.w.links, SandboxNs(name)) && NoVethsIn(o.w.links, SandboxNs(name))
  {
    hide Fallible, ListenDNS;
    FallibleFrame(w);
    var resolved := Fallible(w).w;
    ListenEffect(name, dns, resolved);
    var heard := ListenDNS(resolved, SandboxNs(name), dns).w;
    FallibleFrame(heard.(sandboxes := w.sandboxes[name := w.sandboxes[name].(dns := true)]));
  }

  lemma ListenEffect(name: string, dns: IP, w: World)
    requires NoVethsIn(w.links, SandboxNs(name))
    ensures var o := ListenDNS(w, SandboxNs(name), dns);
      o.Ok() ==>
        && SameTables(w, o.w) && o.w.nextPair == w.nextPair
        && SameElsewhere(w.links, o.w.links, SandboxNs(name)) && NoVethsIn(o.w.links, SandboxNs(name))
  {
    hide Fallible;
    var id := LinkId(SandboxNs(name), DNS_INTERFACE_NAME);
    var entered := Fallible(w).w;
    var created := AddLink(entered, id, Dummy).w;
    var addressed := Host.AddAddress(created, id, Address(dns, 32)).w;
    var up := SetUp(addressed, id).w;
    FallibleFrame(w);
    FallibleFrame(entered);
    FallibleFrame(created);
    FallibleFrame(addressed);
    FallibleFrame(up);
  }

  /** IdempotentlyCreateSandbox, run where there is no such sandbox. */
  lemma SandboxTreeEffect(cfg: SetupConfig, w: World)
    requires SandboxName(cfg.vni) !in w.sandboxes && NoLinksIn(w.links, SandboxNs(SandboxName(cfg.vni)))
    ensures var o := Exec(SandboxTree(cfg.vni, cfg.dns), HostNs, w);
      o.Ok() ==> SandboxAppeared(w, o.w, SandboxName(cfg.vni))
  {
    hide ExecPrimitive, ExecAll, LinkBecomes;
    var name, vxlan := SandboxName(cfg.vni), VxlanName(cfg.vni);
    var cs := SandboxSteps(cfg.vni, cfg.dns);
    assert Exec(Group(cs), HostNs, w) == ExecAll(cs, HostNs, w);
    ExecAllOfFour(cs, HostNs, w);
    if Exec(SandboxTree(cfg.vni, cfg.dns), HostNs, w).Ok() {
      var a := Exec(cs[0], HostNs, w).w;
      CreateEffect(name, HostNs, w);
      VxlanEffect(cfg, a);
      var c := Exec(cs[2], HostNs, Exec(cs[1], HostNs, a).w).w;
      AddedVxlanKeeps(w, a, c, cfg);
      DNSEffect(name, cfg.dns, HostNs, c);
      ElsewhereTransitive(w.links, c.links, Exec(cs[3], HostNs, c).w.links, SandboxNs(name));
    }
  }

  lemma ElsewhereTransitive(a: Links, b: Links, c: Links, ns: Ns)
    requires SameElsewhere(a, b, ns) && SameElsewhere(b, c, ns)
    ensures SameElsewhere(a, c, ns)
  {
  }

  // ---------- what Setup adds ----------

  /** From w to w' a container has been set up in a sandbox made for it: the sandbox, and one veth pair. */
  ghost predicate ContainerAppeared(w: World, w': World, cfg: SetupConfig) {
    var name := SandboxName(cfg.vni);
    && name !in w.files && w'.files == w.files[name := Mounted]
    && name in w'.sandboxes && w'.sandboxes == w.sandboxes[name := w'.sandboxes[name]]
    && w'.monitors == w.monitors + {name} && w'.casualties == w.casualties
    && ContainerEnd(cfg) !in w.links && ContainerEnd(cfg) in w'.links
    && w'.links[ContainerEnd(cfg)].kind == Veth(w.nextPair)
    && SameElsewhere(w.links, w'.links - {ContainerEnd(cfg)}, SandboxNs(name))
    && (forall k :: k in w'.links && k.ns == SandboxNs(name) && w'.links[k].kind.Veth? ==>
      w'.links[k].kind == Veth(w.nextPair))
  }

  lemma SetupInNewSandbox(w: World, cfg: SetupConfig)
    requires Setup(w, cfg).Ok() && Inv(w) && SandboxName(cfg.vni) !in w.sandboxes
    ensures ContainerAppeared(w, Setup(w, cfg).w, cfg)
  {
    hide Exec, Setup, Fallible, Grown, SandboxAppeared, Inv;
    var name := SandboxName(cfg.vni);
    SetupSteps(w, cfg);
    FallibleFrame(w);
    NoLinksYet(w, cfg);
    SandboxTreeEffect(cfg, Fallible(w).w);
    var s := AfterSandbox(w, cfg).w;
    VxlanTreeEffect(cfg, s);
    var v := AfterVxlan(w, cfg).w;
    VethTreeEffect(cfg, HostNs, v);
    var p := AfterVeth(w, cfg).w;
    VxlanIsNoSandboxEnd(cfg, v, p);
    BridgeTreeEffect(cfg, HostNs, p);
    var b := AfterBridge(w, cfg).w;
    PutTogether(Fallible(w).w, s, v, p, b, cfg);
    PlanIrrelevant(w, Fallible(w).w, b, Setup(w, cfg).w, cfg);
  }

  lemma VxlanIsNoSandboxEnd(cfg: SetupConfig, v: World, p: World)
    requires VxlanEnd(cfg) in v.links && v.links[VxlanEnd(cfg)].up && SandboxEnd(cfg) !in v.links
    requires p.links == v.links[ContainerEnd(cfg) := ReadyEnd(cfg, v.nextPair)][SandboxEnd(cfg) :=
      NewLink(Veth(v.nextPair))]
    ensures VxlanEnd(cfg) in p.links && p.links[VxlanEnd(cfg)].up && VxlanEnd(cfg) != SandboxEnd(cfg)
  {
  }

  /** With no file for the sandbox there is no link in it; with one, it cannot be created. */
  lemma NoLinksYet(w: World, cfg: SetupConfig)
    requires Inv(w) && SandboxName(cfg.vni) !in w.sandboxes && AfterSandbox(w, cfg).Ok()
    ensures NoLinksIn(w.links, SandboxNs(SandboxName(cfg.vni)))
  {
    hide Fallible, ExecPrimitive, ExecAll;
    var name, vxlan := SandboxName(cfg.vni), VxlanName(cfg.vni);
    var cs := SandboxSteps(cfg.vni, cfg.dns);
    FallibleFrame(w);
    var u := Fallible(w).w;
    assert Exec(Group(cs), HostNs, u) == ExecAll(cs, HostNs, u);
    ExecAllOfFour(cs, HostNs, u);
    CreateNeedsNoFile(name, HostNs, u);
  }

  lemma CreateNeedsNoFile(name: string, ns: Ns, w: World)
    requires name !in w.sandboxes
    ensures Exec(Command.CreateSandbox(name), ns, w).Ok() ==> name !in w.files
  {
    hide Fallible;
    NamespaceEffect(name, w);
  }

  lemma PutTogether(w: World, s: World, v: World, p: World, b: World, cfg: SetupConfig)
    requires SandboxAppeared(w, s, SandboxName(cfg.vni))
    requires VxlanEnd(cfg) in s.links && v.links == s.links[VxlanEnd(cfg) := s.links[VxlanEnd(cfg)].(up := true)]
    requires v.sandboxes == s.sandboxes && v.files == s.files && v.casualties == s.casualties
    requires v.nextPair == s.nextPair && v.monitors == s.monitors + {SandboxName(cfg.vni)}
    requires ContainerEnd(cfg) !in v.links && SandboxEnd(cfg) !in v.links && SameTables(v, p)
    requires p.links == v.links[ContainerEnd(cfg) := ReadyEnd(cfg, v.nextPair)][SandboxEnd(cfg) :=
      NewLink(Veth(v.nextPair))]
    requires Grown(p, b, SandboxNs(SandboxName(cfg.vni)))
    ensures ContainerAppeared(w, b, cfg)
  {
    var name := SandboxName(cfg.vni);
    forall k | k in b.links && k.ns == SandboxNs(name) && b.links[k].kind.Veth?
      ensures b.links[k].kind == Veth(w.nextPair)
    {
      assert k in p.links;
    }
    forall k | k in b.links - {ContainerEnd(cfg)} && k.ns != SandboxNs(name)
      ensures k in w.links
    {
      assert k in p.links && k in s.links;
    }
    assert ContainerEnd(cfg) !in w.links;
  }

  lemma PlanIrrelevant(w: World, u: World, b: World, e: World, cfg: SetupConfig)
    requires u == w.(plan := u.plan) && e == b.(plan := e.plan) && ContainerAppeared(u, b, cfg)
    ensures ContainerAppeared(w, e, cfg)
  {
  }

  // ---------- what Delete takes away ----------

  lemma DeleteDoes(w: World, interface: string, path: string, vni: nat)
    requires Delete(w, interface, path, vni).Ok()
    ensures var id := LinkId(ContainerNs(path), interface);
      && id in w.links
      && exists plan :: var u := w.(plan := plan, links := Without(w.links, id));
           var o := Cleanup(u, SandboxName(vni), VxlanName(vni));
           o.Ok() && Delete(w, interface, path, vni).w == o.w
  {
    hide Cleanup, Fallible, ExecAll, Without;
    var id := LinkId(ContainerNs(path), interface);
    var name, vxlan := SandboxName(vni), VxlanName(vni);
    var cs := DeleteSteps(interface, path, vni);
    FallibleFrame(w);
    var u := Fallible(w).w;
    assert Exec(Group(cs), HostNs, u) == ExecAll(cs, HostNs, u);
    ExecAllOfTwo(cs, HostNs, u);
    FallibleFrame(u);
    LinkDeleted(interface, ContainerNs(path), Fallible(u).w);
    var a := Exec(cs[0], HostNs, u).w;
    assert a == w.(plan := a.plan, links := Without(w.links, id));
    var o := Exec(cs[1], HostNs, a);
    assert o == Cleanup(a, name, vxlan).Wrap();
  }

  lemma LinkDeleted(interface: string, ns: Ns, w: World)
    ensures var o := Exec(Command.DeleteLink(interface), ns, w);
      var id := LinkId(ns, interface);
      o.Ok() ==> id in w.links && o.w == w.(plan := o.w.plan, links := Without(w.links, id))
  {
  }

  /**
   A successful cleanup destroys the sandbox exactly when no veth is in it, taking its file, monitor and links,
   and otherwise changes nothing.
   */
  lemma CleanupEffect(w: World, name: string, vxlan: string)
    requires Cleanup(w, name, vxlan).Ok() && name in w.sandboxes
    ensures var w' := Cleanup(w, name, vxlan).w;
      if VethsIn(w.links, SandboxNs(name)) != {} then w' == w.(plan := w'.plan)
      else
        && w'.files == w.files - {name} && w'.sandboxes == w.sandboxes - {name} && w'.monitors == w.monitors - {name}
        && w'.casualties == w.casualties && w'.nextPair == w.nextPair
        && NoLinksIn(w'.links, SandboxNs(name)) && SameElsewhere(w.links, w'.links, SandboxNs(name))
  {
    hide Fallible, DestroySandbox, DropVxlan;
    FallibleFrame(w);
    FallibleFrame(Fallible(w).w);
    var listed := Fallible(Fallible(w).w).w;
    if VethsIn(w.links, SandboxNs(name)) == {} {
      DropEffect(listed, SandboxNs(name), vxlan);
      var dropped := DropVxlan(listed, SandboxNs(name), vxlan).w;
      DestroyEffect(dropped, name);
      ElsewhereTransitive(w.links, dropped.links, DestroySandbox(dropped, name).w.links, SandboxNs(name));
    }
  }

  lemma DropEffect(w: World, ns: Ns, vxlan: string)
    requires VethsIn(w.links, ns) == {}
    ensures var o := DropVxlan(w, ns, vxlan);
      && SameTables(w, o.w) && o.w.nextPair == w.nextPair
      && SameElsewhere(w.links, o.w.links, ns) && VethsIn(o.w.links, ns) == {}
  {
    hide Fallible;
    FallibleFrame(w);
    var entered := Fallible(w).w;
    FallibleFrame(entered);
    var id := LinkId(ns, vxlan);
    if id in w.links {
      assert !w.links[id].kind.Veth? by {
        assert id !in VethsIn(w.links, ns);
      }
    }
    assert VethsIn(DropVxlan(w, ns, vxlan).w.links, ns) <= VethsIn(w.links, ns);
  }

  lemma DestroyEffect(w: World, name: string)
    requires VethsIn(w.links, SandboxNs(name)) == {} && name in w.sandboxes
    ensures var o := DestroySandbox(w, name);
      && (o.Ok() ==>
            && o.w.files == w.files - {name} && o.w.sandboxes == w.sandboxes - {name}
            && o.w.monitors == w.monitors - {name}
            && o.w.casualties == w.casualties && o.w.nextPair == w.nextPair
            && NoLinksIn(o.w.links, SandboxNs(name)) && SameElsewhere(w.links, o.w.links, SandboxNs(name)))
      && (!o.Ok() ==> o.err.value.Wrapped?)
  {
    hide Fallible;
    var torn := Teardown(w, name).w;
    FallibleFrame(torn);
    var unmounted := Fallible(torn).w;
    FallibleFrame(unmounted.(files := torn.files[name := Bare]));
  }

  // ---------- there and back ----------

  lemma LinksRestored(w: World, w1: World, w2: World, cfg: SetupConfig)
    requires ContainerAppeared(w, w1, cfg) && PairsAreOld(w)
    requires NoLinksIn(w.links, SandboxNs(SandboxName(cfg.vni)))
    requires SameElsewhere(Without(w1.links, ContainerEnd(cfg)), w2.links, SandboxNs(SandboxName(cfg.vni)))
    requires NoLinksIn(w2.links, SandboxNs(SandboxName(cfg.vni)))
    ensures w2.links == w.links
  {
    var ns, id := SandboxNs(SandboxName(cfg.vni)), ContainerEnd(cfg);
    var less := Without(w1.links, id);
    forall k | k in w.links
      ensures k in w2.links && w2.links[k] == w.links[k]
    {
      assert k in w1.links - {id} && k in less;
    }
    forall k | k in w2.links
      ensures k in w.links
    {
      assert k in less && k in w1.links - {id};
    }
  }

  lemma PairRemoved(w: World, w1: World, cfg: SetupConfig)
    requires ContainerAppeared(w, w1, cfg)
    ensures VethsIn(Without(w1.links, ContainerEnd(cfg)), SandboxNs(SandboxName(cfg.vni))) == {}
  {
    var less := Without(w1.links, ContainerEnd(cfg));
    forall k | k in less && k.ns == SandboxNs(SandboxName(cfg.vni))
      ensures !less[k].kind.Veth?
    {
      assert k in w1.links && !GoesWith(w1.links, ContainerEnd(cfg), k);
    }
  }

  /**
   From any state in which the network has no sandbox, a Setup and a Delete that both succeed restore the links,
   the namespace files, the registered sandboxes and the monitored names exactly.
   */
  lemma SetupThenDelete(w: World, cfg: SetupConfig, plan: seq<bool>)
    requires Inv(w) && SandboxName(cfg.vni) !in w.sandboxes && Setup(w, cfg).Ok()
    requires Delete(Setup(w, cfg).w.(plan := plan), cfg.interface, cfg.containerPath, cfg.vni).Ok()
    ensures var end := Delete(Setup(w, cfg).w.(plan := plan), cfg.interface, cfg.containerPath, cfg.vni).w;
      end.links == w.links && end.files == w.files && end.sandboxes == w.sandboxes && end.monitors == w.monitors
  {
    hide Setup, Delete, Cleanup, Without, ContainerAppeared, Inv;
    var name := SandboxName(cfg.vni);
    SetupInNewSandbox(w, cfg);
    var w1 := Setup(w, cfg).w.(plan := plan);
    PlanIrrelevant(w, w, Setup(w, cfg).w, w1, cfg);
    SetupSteps(w, cfg);
    NoLinksYet(w, cfg);
    DeleteDoes(w1, cfg.interface, cfg.containerPath, cfg.vni);
    var p :| var u := w1.(plan := p, links := Without(w1.links, ContainerEnd(cfg)));
      var o := Cleanup(u, name, VxlanName(cfg.vni));
      o.Ok() && Delete(w1, cfg.interface, cfg.containerPath, cfg.vni).w == o.w;
    var u := w1.(plan := p, links := Without(w1.links, ContainerEnd(cfg)));
    PairRemoved(w, w1, cfg);
    TablesOf(w, w1, cfg);
    CleanupEffect(u, name, VxlanName(cfg.vni));
    var end := Cleanup(u, name, VxlanName(cfg.vni)).w;
    LinksRestored(w, w1, end, cfg);
  }

  lemma TablesOf(w: World, w1: World, cfg: SetupConfig)
    requires ContainerAppeared(w, w1, cfg) && Inv(w) && SandboxName(cfg.vni) !in w.sandboxes
    ensures var name := SandboxName(cfg.vni);
      && name in w1.sandboxes && PairsAreOld(w)
      && w1.files - {name} == w.files && w1.sandboxes - {name} == w.sandboxes && w1.monitors - {name} == w.monitors
  {
  }

  /**
   Where other containers use the sandbox, a Delete that succeeds removes exactly the container's veth pair and
   leaves files, sandboxes, monitors and every other link alone.
   */
  lemma DeleteRemovesOnlyThePair(w: World, interface: string, path: string, vni: nat, other: LinkId)
    requires Delete(w, interface, path, vni).Ok()
    requires SandboxName(vni) in w.sandboxes && other in VethsIn(w.links, SandboxNs(SandboxName(vni)))
    requires !GoesWith(w.links, LinkId(ContainerNs(path), interface), other)
    ensures var w' := Delete(w, interface, path, vni).w;
      var id := LinkId(ContainerNs(path), interface);
      && id in w.links
      && w'.files == w.files && w'.sandboxes == w.sandboxes && w'.monitors == w.monitors
      && (forall k :: k in w'.links <==> k in w.links && !GoesWith(w.links, id, k))
      && (w.links[id].kind.Veth? ==> forall k :: k in w'.links ==> w'.links[k] == w.links[k])
  {
    hide Delete, Cleanup;
    var name := SandboxName(vni);
    var id := LinkId(ContainerNs(path), interface);
    DeleteDoes(w, interface, path, vni);
    var p :| var u := w.(plan := p, links := Without(w.links, id));
      var o := Cleanup(u, name, VxlanName(vni));
      o.Ok() && Delete(w, interface, path, vni).w == o.w;
    var u := w.(plan := p, links := Without(w.links, id));
    assert other in VethsIn(u.links, SandboxNs(name));
    CleanupEffect(u, name, VxlanName(vni));
  }

  /** A Delete that succeeds, in whatever state, takes the container's link and its peer and adds none. */
  lemma DeleteTakesThePair(w: World, interface: string, path: string, vni: nat)
    requires Delete(w, interface, path, vni).Ok()
    ensures var w' := Delete(w, interface, path, vni).w;
      var id := LinkId(ContainerNs(path), interface);
      id in w.links && forall k :: k in w'.links ==> k in w.links && !GoesWith(w.links, id, k)
    ensures var w' := Delete(w, interface, path, vni).w;
      SandboxName(vni) in w'.sandboxes <==>
        SandboxName(vni) in w.sandboxes && VethsIn(w'.links, SandboxNs(SandboxName(vni))) != {}
  {
    hide Delete, Cleanup;
    var name := SandboxName(vni);
    var id := LinkId(ContainerNs(path), interface);
    DeleteDoes(w, interface, path, vni);
    var p :| var u := w.(plan := p, links := Without(w.links, id));
      var o := Cleanup(u, name, VxlanName(vni));
      o.Ok() && Delete(w, interface, path, vni).w == o.w;
    var u := w.(plan := p, links := Without(w.links, id));
    if name in w.sandboxes {
      CleanupEffect(u, name, VxlanName(vni));
    } else {
      CleanupOfNone(u, name, VxlanName(vni));
    }
  }

  lemma CleanupOfNone(w: World, name: string, vxlan: string)
    requires name !in w.sandboxes
    ensures Cleanup(w, name, vxlan) == Succeed(w)
  {
  }

  // ---------- what creation and cleanup do a second time ----------

  lemma CreateRegisters(name: string, ns: Ns, w: World)
    ensures Exec(Command.CreateSandbox(name), ns, w).Ok() ==>
      name in Exec(Command.CreateSandbox(name), ns, w).w.sandboxes
  {
    hide Fallible, CreateNamespace;
    if name !in w.sandboxes {
      var registered := CreateNamespace(w, name).w.(sandboxes := w.sandboxes[name := Sandbox(false, false)]);
      FallibleFrame(registered);
      FallibleFrame(Fallible(registered).w);
    }
  }

  lemma DNSKeepsRegistration(name: string, dns: IP, ns: Ns, w: World)
    requires name in w.sandboxes
    ensures name in Exec(StartDNSServer(name, dns), ns, w).w.sandboxes
  {
    hide Fallible, ListenDNS;
    FallibleFrame(w);
    var resolved := Fallible(w).w;
    ListenKeepsTables(resolved, SandboxNs(name), dns);
    var heard := ListenDNS(resolved, SandboxNs(name), dns).w;
    FallibleFrame(heard.(sandboxes := w.sandboxes[name := w.sandboxes[name].(dns := true)]));
  }

  /** From w to w' the daemon's tables are the same, and at most one link has been added or changed. */
  ghost predicate AddsAtMost(w: World, w': World, id: LinkId) {
    SameTables(w, w') && w'.nextPair == w.nextPair && SameBut(w.links, w'.links, id)
  }

  lemma AddsTransitive(u: World, v: World, w: World, id: LinkId)
    requires AddsAtMost(u, v, id) && AddsAtMost(v, w, id)
    ensures AddsAtMost(u, w, id)
  {
  }

  lemma LinkOpsAdd(w: World, id: LinkId, kind: Kind, address: Address)
    ensures AddsAtMost(w, Fallible(w).w, id) && AddsAtMost(w, AddLink(w, id, kind).w, id)
    ensures AddsAtMost(w, Host.AddAddress(w, id, address).w, id) && AddsAtMost(w, SetUp(w, id).w, id)
  {
    hide Fallible;
    FallibleFrame(w);
  }

  /** However it ends, listening for DNS adds at most dns0 and leaves the daemon's tables alone. */
  lemma ListenKeepsTables(w: World, ns: Ns, dns: IP)
    ensures var w' := ListenDNS(w, ns, dns).w;
      var id := LinkId(ns, DNS_INTERFACE_NAME);
      && SameTables(w, w') && w'.nextPair == w.nextPair && SameBut(w.links, w'.links, id)
  {
    hide ListenDNS;
    ListenAdds(w, ns, dns);
  }

  lemma ListenAdds(w: World, ns: Ns, dns: IP)
    ensures AddsAtMost(w, ListenDNS(w, ns, dns).w, LinkId(ns, DNS_INTERFACE_NAME))
  {
    hide Fallible, AddLink, Host.AddAddress, SetUp, AddsAtMost;
    var id, address := LinkId(ns, DNS_INTERFACE_NAME), Address(dns, 32);
    var entered := Fallible(w).w;
    var created := AddLink(entered, id, Dummy).w;
    var addressed := Host.AddAddress(created, id, address).w;
    var up := SetUp(addressed, id).w;
    LinkOpsAdd(w, id, Dummy, address);
    LinkOpsAdd(entered, id, Dummy, address);
    AddsTransitive(w, entered, created, id);
    LinkOpsAdd(created, id, Dummy, address);
    AddsTransitive(w, created, addressed, id);
    LinkOpsAdd(addressed, id, Dummy, address);
    AddsTransitive(w, addressed, up, id);
    LinkOpsAdd(up, id, Dummy, address);
    AddsTransitive(w, up, Fallible(up).w, id);
  }

  /**
   Creating a sandbox registers it when it succeeds, and once it is registered, even by an attempt that failed
   later, creating it again succeeds and changes nothing.
   */
  lemma CreatingTwiceIsCreatingOnce(cfg: SetupConfig, w: World)
    ensures var first := Exec(SandboxTree(cfg.vni, cfg.dns), HostNs, w);
      && (first.Ok() ==> SandboxName(cfg.vni) in first.w.sandboxes)
      && (SandboxName(cfg.vni) in first.w.sandboxes ==>
            Exec(SandboxTree(cfg.vni, cfg.dns), HostNs, first.w) == Succeed(first.w))
  {
    hide ExecPrimitive, ExecAll;
    var name, vxlan := SandboxName(cfg.vni), VxlanName(cfg.vni);
    if name !in w.sandboxes {
      var cs := SandboxSteps(cfg.vni, cfg.dns);
      assert Exec(Group(cs), HostNs, w) == ExecAll(cs, HostNs, w);
      ExecAllOfFour(cs, HostNs, w);
      var a := Exec(cs[0], HostNs, w).w;
      CreateRegisters(name, HostNs, w);
      VxlanEffect(cfg, a);
      var c := Exec(cs[2], HostNs, Exec(cs[1], HostNs, a).w).w;
      if name in c.sandboxes {
        DNSKeepsRegistration(name, cfg.dns, HostNs, c);
      }
    }
  }

  /** There is no such sandbox, or a veth keeps it, or it is intact: not torn down, monitored and mounted. */
  predicate CanCleanUp(w: World, name: string) {
    || name !in w.sandboxes
    || VethsIn(w.links, SandboxNs(name)) != {}
    || (!w.sandboxes[name].destroyed && name in w.monitors && name in w.files && w.files[name] == Mounted)
  }

  /**
   With no call failing, that is exactly when cleanup succeeds. A sandbox that an earlier cleanup tore down without
   destroying is not tolerated.
   */
  lemma CleanupSucceedsExactly(w: World, name: string, vxlan: string)
    requires w.plan == []
    ensures Cleanup(w, name, vxlan).Ok() <==> CanCleanUp(w, name)
  {
    if name in w.sandboxes && VethsIn(w.links, SandboxNs(name)) == {} {
      DropEffect(w, SandboxNs(name), vxlan);
    }
  }
}
