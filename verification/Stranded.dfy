/**
 How a network dies: a sandbox that is registered, has lost its vxlan link (or never got it), and is torn down or
 unmonitored stays so, and neither Add, Del nor a restart gets through on it again.
 */
module Stranded {
  import opened Wrappers
  import opened Ipv4
  import opened Naming
  import opened AddressPool
  import opened Host
  import opened Commands
  import opened Container
  import opened SandboxSafety
  import opened SetupEffects
  import opened SetupDelete
  import opened SetupSucceeds
  import opened Sparing

  predicate IsStranded(w: World, vni: nat) {
    var name := SandboxName(vni);
    && name in w.sandboxes && LinkId(SandboxNs(name), VxlanName(vni)) !in w.links
    && (w.sandboxes[name].destroyed || name !in w.monitors)
  }

  /** A sandbox torn down but not destroyed is stranded. */
  lemma TornDownIsStranded(w: World, vni: nat)
    requires Inv(w) && SandboxName(vni) in w.sandboxes && w.sandboxes[SandboxName(vni)].destroyed
    ensures IsStranded(w, vni)
  {
  }

  // ---------- a creation that fails half way ----------

  lemma VxlanUnmonitored(cfg: SetupConfig, w: World)
    ensures Exec(CreateVxlan(VxlanName(cfg.vni), cfg.vni), HostNs, w).w.monitors == w.monitors
    ensures Exec(Command.MoveLink(VxlanName(cfg.vni), SandboxName(cfg.vni)), HostNs, w).w.monitors == w.monitors
  {
    hide Fallible;
    FallibleFrame(w);
  }

  lemma DNSUnmonitored(w: World, name: string, dns: IP)
    ensures StartDNS(w, name, dns).w.monitors == w.monitors
  {
    hide Fallible, ListenDNS;
    FallibleFrame(w);
    var resolved := Fallible(w).w;
    ListenKeepsTables(resolved, SandboxNs(name), dns);
    var heard := ListenDNS(resolved, SandboxNs(name), dns).w;
    if name in w.sandboxes {
      FallibleFrame(heard.(sandboxes := w.sandboxes[name := w.sandboxes[name].(dns := true)]));
    }
  }

  lemma CreationUnmonitored(cfg: SetupConfig, w: World)
    ensures Exec(SandboxTree(cfg.vni, cfg.dns), HostNs, w).w.monitors == w.monitors
  {
    hide ExecAll, Host.CreateSandbox, StartDNS, AddLink, Host.MoveLink;
    var cs := SandboxSteps(cfg.vni, cfg.dns);
    assert Exec(Group(cs), HostNs, w) == ExecAll(cs, HostNs, w);
    ExecAllOfFour(cs, HostNs, w);
    var a := Exec(cs[0], HostNs, w).w;
    var b := Exec(cs[1], HostNs, a).w;
    var c := Exec(cs[2], HostNs, b).w;
    CreateSandboxFrame(w, SandboxName(cfg.vni));
    VxlanUnmonitored(cfg, a);
    VxlanUnmonitored(cfg, b);
    DNSUnmonitored(c, SandboxName(cfg.vni), cfg.dns);
  }

  /** A creation that registers the sandbox but does not get the vxlan link into it strands it. */
  lemma HalfMadeIsStranded(w: World, cfg: SetupConfig)
    requires Inv(w) && SandboxName(cfg.vni) !in w.sandboxes
    requires var w' := Exec(SandboxTree(cfg.vni, cfg.dns), HostNs, w).w;
      SandboxName(cfg.vni) in w'.sandboxes && VxlanEnd(cfg) !in w'.links
    ensures IsStranded(Exec(SandboxTree(cfg.vni, cfg.dns), HostNs, w).w, cfg.vni)
  {
    hide Exec;
    CreationUnmonitored(cfg, w);
  }

  // ---------- nothing gets through ----------

  lemma SparedStaysStranded(w: World, w': World, vni: nat)
    requires IsStranded(w, vni) && Spares(w, w', vni)
    ensures IsStranded(w', vni)
  {
  }

  lemma VxlanTreeStuck(w: World, vni: nat)
    requires LinkId(SandboxNs(SandboxName(vni)), VxlanName(vni)) !in w.links
    ensures var o := Exec(VxlanTree(vni), HostNs, w); !o.Ok() && o.w == w.(plan := o.w.plan)
  {
    hide ExecAll, Fallible;
    var cs := VxlanSteps(vni);
    FallibleFrame(w);
    assert Exec(Group(cs), HostNs, w) == ExecAll(cs, HostNs, w);
    ExecAllOfTwo(cs, HostNs, w);
    var up := Exec(SetLinkUp(VxlanName(vni)), SandboxNs(SandboxName(vni)), Fallible(w).w);
    assert !up.Ok() && up.w == Fallible(w).w;
  }

  /** An Add on a stranded network fails and changes nothing but which calls have been made. */
  lemma AddStuck(w: World, cfg: SetupConfig)
    requires IsStranded(w, cfg.vni)
    ensures !Setup(w, cfg).Ok() && Setup(w, cfg).w == w.(plan := Setup(w, cfg).w.plan)
  {
    hide VxlanTree, VethTree, BridgeTree, ExecAll, Fallible;
    FallibleFrame(w);
    var container := Fallible(w).w;
    var cs := WiringSteps(cfg);
    assert Exec(SandboxTree(cfg.vni, cfg.dns), HostNs, container) == Succeed(container);
    assert Exec(Group(cs), HostNs, container) == ExecAll(cs, HostNs, container);
    ExecAllOfThree(cs, HostNs, container);
    VxlanTreeStuck(container, cfg.vni);
  }

  lemma NoVethInStranded(w: World, vni: nat)
    requires Inv(w) && IsStranded(w, vni)
    ensures VethsIn(w.links, SandboxNs(SandboxName(vni))) == {}
  {
    assert VethsAreGuarded(w) && !Ready(w, SandboxName(vni));
  }

  lemma DestroyStuck(w: World, vni: nat)
    requires SandboxName(vni) in w.sandboxes
    requires w.sandboxes[SandboxName(vni)].destroyed || SandboxName(vni) !in w.monitors
    ensures var o := DestroySandbox(w, SandboxName(vni)); o.w == w && o.err.Some? && o.err.value.Wrapped?
  {
  }

  /** A cleanup of a stranded sandbox without veths fails and changes nothing. */
  lemma CleanupStuck(w: World, vni: nat)
    requires IsStranded(w, vni) && VethsIn(w.links, SandboxNs(SandboxName(vni))) == {}
    ensures var o := Cleanup(w, SandboxName(vni), VxlanName(vni));
      !o.Ok() && o.w == w.(plan := o.w.plan)
  {
    hide Fallible, DestroySandbox, VethsIn;
    FallibleFrame(w);
    var entered := Fallible(w).w;
    FallibleFrame(entered);
    var listed := Fallible(entered).w;
    FallibleFrame(listed);
    DestroyStuck(Fallible(listed).w, vni);
  }

  lemma DeletedLinkAddsNoVeth(w: World, id: LinkId, ns: Ns)
    requires VethsIn(w.links, ns) == {}
    ensures VethsIn(Host.DeleteLink(w, id).w.links, ns) == {}
  {
    hide Fallible;
    FallibleFrame(w);
    assert VethsIn(Host.DeleteLink(w, id).w.links, ns) <= VethsIn(w.links, ns);
  }

  /** A Del on a stranded network fails; the sandbox stays stranded. */
  lemma DelStuck(w: World, interface: string, path: string, vni: nat)
    requires IsStranded(w, vni) && VethsIn(w.links, SandboxNs(SandboxName(vni))) == {}
    ensures !Delete(w, interface, path, vni).Ok() && IsStranded(Delete(w, interface, path, vni).w, vni)
  {
    hide Cleanup, ExecAll, Fallible, VethsIn, Host.DeleteLink, Spares, IsStranded;
    var name := SandboxName(vni);
    var cs := DeleteSteps(interface, path, vni);
    FallibleFrame(w);
    PlanStaysStranded(w, Fallible(w).w, vni);
    var container := Fallible(w).w;
    FallibleFrame(container);
    PlanStaysStranded(w, Fallible(container).w, vni);
    var entered := Fallible(container).w;
    assert Exec(Group(cs), HostNs, container) == ExecAll(cs, HostNs, container);
    ExecAllOfTwo(cs, HostNs, container);
    DeletedLinkAddsNoVeth(entered, LinkId(ContainerNs(path), interface), SandboxNs(name));
    DeletingSpares(LinkId(ContainerNs(path), interface), entered, vni);
    var a := Exec(cs[0], HostNs, container);
    if a.Ok() {
      SparedStaysStranded(entered, a.w, vni);
      CleanupStuck(a.w, vni);
      PlanStaysStranded(a.w, Cleanup(a.w, name, VxlanName(vni)).w, vni);
    } else if Fallible(container).Ok() {
      SparedStaysStranded(entered, a.w, vni);
    }
  }

  lemma PlanStaysStranded(w: World, w': World, vni: nat)
    requires IsStranded(w, vni) && w' == w.(plan := w'.plan)
    ensures IsStranded(w', vni)
  {
  }

  /** No restart succeeds while a network is stranded. */
  lemma RestartStuck(w: World, vni: nat, root: string)
    requires IsStranded(w, vni) && RegisteredHaveFiles(w)
    ensures !CanRestart(w, root)
  {
    ReloaderRecoversVxlanName(root, vni);
    assert SandboxName(vni) in w.files;
    assert !Reloadable(w, root, SandboxName(vni));
  }

  // ---------- for good ----------

  lemma StepStaysStranded(w: World, op: Op, vni: nat)
    requires Inv(w) && IsStranded(w, vni)
    ensures IsStranded(Step(w, op), vni)
  {
    hide Inv, Setup, Delete, Spares, CanRestart, IsStranded, VethsIn;
    match op
    case Add(cfg, plan) =>
      var u := w.(plan := plan);
      PlanStaysStranded(w, u, vni);
      if cfg.vni == vni {
        AddStuck(u, cfg);
        PlanStaysStranded(u, Setup(u, cfg).w, vni);
      } else {
        SetupOfOtherSpares(u, cfg, vni);
        SparedStaysStranded(u, Setup(u, cfg).w, vni);
      }
    case Del(interface, path, other, plan) =>
      var u := w.(plan := plan);
      PlanStaysStranded(w, u, vni);
      if other == vni {
        NoVethInStranded(w, vni);
        DelStuck(u, interface, path, vni);
      } else {
        DeleteOfOtherSpares(u, interface, path, other, vni);
        SparedStaysStranded(u, Delete(u, interface, path, other).w, vni);
      }
    case Restart(root) =>
      FilesOfInv(w);
      RestartStuck(w, vni, root);
    case ContainerGone(path) =>
      GoneSpares(w, path, vni);
      SparedStaysStranded(w, Step(w, op), vni);
  }

  lemma FilesOfInv(w: World)
    requires Inv(w)
    ensures RegisteredHaveFiles(w)
  {
  }

  /**
   Once a run has stranded a network, it stays stranded in every continuation: no Add and no Del on it succeeds,
   whichever calls fail, and no restart of the daemon does.
   */
  lemma {:induction false} StrandedForGood(boot: World, ops: seq<Op>, more: seq<Op>, vni: nat)
    requires IsBoot(boot) && IsStranded(Run(boot, ops), vni)
    ensures var end := Run(boot, ops + more);
      && IsStranded(end, vni)
      && (forall cfg: SetupConfig, plan :: cfg.vni == vni ==> !Setup(end.(plan := plan), cfg).Ok())
      && (forall interface, path, plan :: !Delete(end.(plan := plan), interface, path, vni).Ok())
      && (forall root :: !CanRestart(end, root))
  {
    hide Setup, Delete, CanRestart, Inv, IsStranded, Step, VethsIn;
    if more == [] {
      assert ops + more == ops;
    } else {
      var init, last := more[..|more| - 1], more[|more| - 1];
      assert ops + more == (ops + init) + [last];
      StrandedForGood(boot, ops, init, vni);
      RunKeeps(boot, ops + init);
      StepStaysStranded(Run(boot, ops + init), last, vni);
      RunOneMore(boot, ops + init, last);
    }
    RunKeeps(boot, ops + more);
    NothingGetsThrough(Run(boot, ops + more), vni);
  }

  lemma RunOneMore(boot: World, ops: seq<Op>, last: Op)
    ensures Run(boot, ops + [last]) == Step(Run(boot, ops), last)
  {
    assert (ops + [last])[..|ops|] == ops;
  }

  lemma NothingGetsThrough(w: World, vni: nat)
    requires Inv(w) && IsStranded(w, vni)
    ensures forall cfg: SetupConfig, plan :: cfg.vni == vni ==> !Setup(w.(plan := plan), cfg).Ok()
    ensures forall interface, path, plan :: !Delete(w.(plan := plan), interface, path, vni).Ok()
    ensures forall root :: !CanRestart(w, root)
  {
    hide Setup, Delete, CanRestart, Inv, IsStranded, VethsIn;
    NoVethInStranded(w, vni);
    FilesOfInv(w);
    forall cfg: SetupConfig, plan | cfg.vni == vni
      ensures !Setup(w.(plan := plan), cfg).Ok()
    {
      PlanStaysStranded(w, w.(plan := plan), vni);
      AddStuck(w.(plan := plan), cfg);
    }
    forall interface, path, plan
      ensures !Delete(w.(plan := plan), interface, path, vni).Ok()
    {
      PlanStaysStranded(w, w.(plan := plan), vni);
      DelStuck(w.(plan := plan), interface, path, vni);
    }
    forall root
      ensures !CanRestart(w, root)
    {
      RestartStuck(w, vni, root);
    }
  }

  // ---------- a run that strands a network ----------

  /** With this plan a Del gets as far as tearing the sandbox down, and no further. */
  const UNMOUNT_FAILS := [false, false, false] + CLEANUP_UNMOUNT_FAILS

  const CLEANUP_UNMOUNT_FAILS := [false, false, false, false, true]

  lemma DestroyFailsLate(w: World, name: string)
    requires w.plan == [true] || w.plan == [false, true]
    requires name in w.sandboxes && !w.sandboxes[name].destroyed && name in w.monitors
    ensures var w' := DestroySandbox(w, name).w; name in w'.sandboxes && w'.sandboxes[name].destroyed
  {
  }

  lemma CleanupFailsLate(w: World, name: string, vxlan: string)
    requires w.plan == CLEANUP_UNMOUNT_FAILS && VethsIn(w.links, SandboxNs(name)) == {}
    requires name in w.sandboxes && !w.sandboxes[name].destroyed && name in w.monitors
    ensures var w' := Cleanup(w, name, vxlan).w; name in w'.sandboxes && w'.sandboxes[name].destroyed
  {
    hide DestroySandbox, VethsIn;
    var listed := w.(plan := [false, false, true]);
    assert Fallible(Fallible(w).w) == Succeed(listed);
    var dropped := DropVxlan(listed, SandboxNs(name), vxlan);
    assert dropped.Ok() && SameTables(listed, dropped.w);
    assert dropped.w.plan == [true] || dropped.w.plan == [false, true];
    DestroyFailsLate(dropped.w, name);
  }

  lemma DeleteFailsLate(w: World, interface: string, path: string, vni: nat)
    requires w.plan == UNMOUNT_FAILS && LinkId(ContainerNs(path), interface) in w.links
    requires var name := SandboxName(vni);
      && name in w.sandboxes && !w.sandboxes[name].destroyed && name in w.monitors
      && VethsIn(Without(w.links, LinkId(ContainerNs(path), interface)), SandboxNs(name)) == {}
    ensures var w' := Delete(w, interface, path, vni).w;
      SandboxName(vni) in w'.sandboxes && w'.sandboxes[SandboxName(vni)].destroyed
  {
    hide Cleanup, ExecAll, Without, VethsIn;
    var id := LinkId(ContainerNs(path), interface);
    var cs := DeleteSteps(interface, path, vni);
    var container := w.(plan := [false, false] + CLEANUP_UNMOUNT_FAILS);
    assert w.plan[1..] == container.plan;
    assert container.plan[1..] == [false] + CLEANUP_UNMOUNT_FAILS;
    assert ([false] + CLEANUP_UNMOUNT_FAILS)[1..] == CLEANUP_UNMOUNT_FAILS;
    assert Exec(Group(cs), HostNs, container) == ExecAll(cs, HostNs, container);
    ExecAllOfTwo(cs, HostNs, container);
    var a := Exec(cs[0], HostNs, container);
    assert a.Ok() && a.w == w.(plan := CLEANUP_UNMOUNT_FAILS, links := Without(w.links, id));
    CleanupFailsLate(a.w, SandboxName(vni), VxlanName(vni));
  }

  /** An Add that works and a Del whose unmount fails leave the sandbox registered and torn down. */
  lemma FailedUnmountStrands(w: World, cfg: SetupConfig)
    requires Inv(w) && w.plan == [] && SandboxName(cfg.vni) !in w.sandboxes && CanSetUp(w, cfg)
    ensures var end := Delete(Setup(w, cfg).w.(plan := UNMOUNT_FAILS), cfg.interface, cfg.containerPath, cfg.vni).w;
      SandboxName(cfg.vni) in end.sandboxes && end.sandboxes[SandboxName(cfg.vni)].destroyed && IsStranded(end, cfg.vni)
  {
    hide Setup, Delete, Exec, Without, CanSetUp, IsStranded;
    var name := SandboxName(cfg.vni);
    SetupSucceedsExactly(w, cfg);
    SetupInNewSandbox(w, cfg);
    SetupKeeps(w, cfg);
    SetupEstablishes(w, cfg);
    var w0 := Setup(w, cfg).w;
    var w1 := w0.(plan := UNMOUNT_FAILS);
    PairRemoved(w, w0, cfg);
    assert SandboxEnd(cfg) in w0.links && w0.links[SandboxEnd(cfg)].kind.Veth?;
    assert Ready(w0, name);
    DeleteFailsLate(w1, cfg.interface, cfg.containerPath, cfg.vni);
    PlanKeeps(w0, UNMOUNT_FAILS);
    DeleteKeeps(w1, cfg.interface, cfg.containerPath, cfg.vni);
    TornDownIsStranded(Delete(w1, cfg.interface, cfg.containerPath, cfg.vni).w, cfg.vni);
  }

  /**
   From an empty host: one Add, and one Del whose unmount fails. Cleaning the torn-down sandbox up again ends in the
   already-destroyed error, wrapped twice, and so it is for good.
   */
  lemma CleanupTriedAgain()
    ensures var boot := World(map[], 0, map[], map[], {}, {}, []);
      var cfg := SetupConfig(1, "/proc/1/ns/net", "eth0", "link", Lease([10, 0, 0, 2], 24, [10, 0, 0, 1], []),
        [10, 0, 0, 53]);
      var ops := [Add(cfg, []), Del(cfg.interface, cfg.containerPath, cfg.vni, UNMOUNT_FAILS)];
      var end := Run(boot, ops);
      && IsBoot(boot) && IsStranded(end, cfg.vni) && end.sandboxes[SandboxName(cfg.vni)].destroyed
      && Cleanup(end.(plan := []), SandboxName(cfg.vni), VxlanName(cfg.vni)).err
           == Some(Wrapped(Wrapped(AlreadyDestroyed)))
  {
    hide Setup, Delete, Inv, Cleanup;
    var boot := World(map[], 0, map[], map[], {}, {}, []);
    var lease := Lease([10, 0, 0, 2], 24, [10, 0, 0, 1], []);
    var cfg := SetupConfig(1, "/proc/1/ns/net", "eth0", "link", lease, [10, 0, 0, 53]);
    var first, second := Add(cfg, []), Del(cfg.interface, cfg.containerPath, cfg.vni, UNMOUNT_FAILS);
    RunKeeps(boot, []);
    RunOneMore(boot, [], first);
    RunOneMore(boot, [first], second);
    assert [] + [first] == [first] && [first] + [second] == [first, second];
    LinkNamesOf(cfg.vni);
    FailedUnmountStrands(boot, cfg);
    var end := Run(boot, [first, second]);
    RunKeeps(boot, [first, second]);
    NoVethInStranded(end, cfg.vni);
    CleanupOfDestroyed(end.(plan := []), SandboxName(cfg.vni), VxlanName(cfg.vni));
  }

  lemma LinkNamesOf(vni: nat)
    ensures "link" !in ["lo", DNS_INTERFACE_NAME, VxlanName(vni), BridgeName(vni)]
  {
    assert "link"[0] == 'l' && DNS_INTERFACE_NAME[0] == 'd' && VxlanName(vni)[0] == 'v' && BridgeName(vni)[0] == 'v';
  }

  lemma CleanupOfDestroyed(w: World, name: string, vxlan: string)
    requires w.plan == [] && name in w.sandboxes && w.sandboxes[name].destroyed &&
      VethsIn(w.links, SandboxNs(name)) == {}
    ensures Cleanup(w, name, vxlan).err == Some(Wrapped(Wrapped(AlreadyDestroyed)))
  {
    DropEffect(w, SandboxNs(name), vxlan);
  }
}
