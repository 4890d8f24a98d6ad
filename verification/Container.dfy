/** Setting a container up and taking it down: the command trees and the sequences that run them. */
module Container {
  import opened Ipv4
  import opened Naming
  import opened AddressPool
  import opened Host
  import opened Commands

  /** Creator.Setup's configuration: `linkName` is the container's link on the sandbox side. */
  datatype SetupConfig = SetupConfig(
    vni: nat, containerPath: string, interface: string, linkName: string, lease: Lease, dns: IP)

  function SandboxSteps(vni: nat, dns: IP): seq<Command> {
    [ Command.CreateSandbox(SandboxName(vni)),
      CreateVxlan(VxlanName(vni), vni),
      Command.MoveLink(VxlanName(vni), SandboxName(vni)),
      StartDNSServer(SandboxName(vni), dns) ]
  }

  function SandboxTree(vni: nat, dns: IP): Command {
    Unless(SandboxExists(SandboxName(vni)), Group(SandboxSteps(vni, dns)))
  }

  function VxlanSteps(vni: nat): seq<Command> {
    [ InNamespace(SandboxNs(SandboxName(vni)), SetLinkUp(VxlanName(vni))),
      Command.StartMonitor(SandboxName(vni), VxlanName(vni)) ]
  }

  function VxlanTree(vni: nat): Command {
    Group(VxlanSteps(vni))
  }

  /** A route without a gateway goes through the lease's. */
  function HopOf(route: Route, gateway: IP): Hop {
    Hop(route.destination, if route.gateway.Some? then route.gateway.value else gateway)
  }

  function RouteCommands(interface: string, routes: seq<Route>, gateway: IP): (cs: seq<Command>)
    ensures |cs| == |routes|
    ensures forall i :: 0 <= i < |cs| ==> cs[i] == Command.AddRoute(interface, HopOf(routes[i], gateway))
  {
    if routes == [] then []
    else [Command.AddRoute(interface, HopOf(routes[0], gateway))] + RouteCommands(interface, routes[1..], gateway)
  }

  /** CommandBuilder.AddRoutes. */
  method AddRoutes(interface: string, lease: Lease) returns (c: Command)
    ensures c == Group(RouteCommands(interface, lease.routes, lease.gateway))
    ensures |c.members| == |lease.routes|
    ensures forall i :: 0 <= i < |lease.routes| ==>
      c.members[i] == Command.AddRoute(interface, Hop(lease.routes[i].destination,
        match lease.routes[i].gateway case Some(own) => own case None => lease.gateway))
  {
    var commands: seq<Command> := [];
    for i := 0 to |lease.routes|
      invariant |commands| == i
      invariant forall j :: 0 <= j < i ==>
        commands[j] == Command.AddRoute(interface, HopOf(lease.routes[j], lease.gateway))
    {
      var route := lease.routes[i];
      commands := commands + [Command.AddRoute(interface, HopOf(route, lease.gateway))];
    }
    assert commands == RouteCommands(interface, lease.routes, lease.gateway);
    c := Group(commands);
  }

  /** Making the pair and moving its far end into the sandbox. */
  function PairSteps(cfg: SetupConfig): seq<Command> {
    [ CreateVeth(cfg.interface, cfg.linkName), Command.MoveLink(cfg.linkName, SandboxName(cfg.vni)) ]
  }

  /** Configuring the container's end. */
  function EndSteps(cfg: SetupConfig): seq<Command> {
    [ Command.AddAddress(cfg.interface, Address(cfg.lease.ip, cfg.lease.ones)),
      SetLinkUp(cfg.interface),
      Group(RouteCommands(cfg.interface, cfg.lease.routes, cfg.lease.gateway)) ]
  }

  function VethTree(cfg: SetupConfig): Command {
    InNamespace(ContainerNs(cfg.containerPath), Group(PairSteps(cfg) + EndSteps(cfg)))
  }

  /** Making the bridge, unless it is there. */
  function NewBridgeTree(cfg: SetupConfig): Command {
    Unless(LinkExists(BridgeName(cfg.vni)), Group(NewBridgeSteps(cfg)))
  }

  function NewBridgeSteps(cfg: SetupConfig): seq<Command> {
    var bridge := BridgeName(cfg.vni);
    [ CreateBridge(bridge),
      Command.AddAddress(bridge, Address(cfg.lease.gateway, cfg.lease.ones)),
      SetLinkUp(bridge),
      SetLinkMaster(bridge, DNS_INTERFACE_NAME) ]
  }

  function BridgeSteps(cfg: SetupConfig): seq<Command> {
    [ SetLinkUp(cfg.linkName),
      NewBridgeTree(cfg),
      SetLinkMaster(BridgeName(cfg.vni), VxlanName(cfg.vni)),
      SetLinkMaster(BridgeName(cfg.vni), cfg.linkName) ]
  }

  function BridgeTree(cfg: SetupConfig): Command {
    InNamespace(SandboxNs(SandboxName(cfg.vni)), Group(BridgeSteps(cfg)))
  }

  /** What Setup does in a sandbox it has locked. */
  function WiringSteps(cfg: SetupConfig): seq<Command> {
    [ VxlanTree(cfg.vni), VethTree(cfg), BridgeTree(cfg) ]
  }

  /** Creator.Setup, up to the record it returns. */
  function Setup(w: World, cfg: SetupConfig): Out {
    var container := Fallible(w);
    if !container.Ok() then container.Wrap()
    else
      var created := Exec(SandboxTree(cfg.vni, cfg.dns), HostNs, container.w);
      if !created.Ok() then created.Wrap()
      else if SandboxName(cfg.vni) !in created.w.sandboxes then Fail(created.w, NotFound).Wrap()
      else
        var wired := Exec(Group(WiringSteps(cfg)), HostNs, created.w);
        if !wired.Ok() then wired
        else Exec(InNamespace(ContainerNs(cfg.containerPath), GetHardwareAddress(cfg.interface)), HostNs, wired.w)
  }

  function DeleteSteps(interface: string, containerPath: string, vni: nat): seq<Command> {
    [ InNamespace(ContainerNs(containerPath), Command.DeleteLink(interface)),
      CleanupSandbox(SandboxName(vni), VxlanName(vni)) ]
  }

  /** Deletor.Delete, with the names DelController gives it. */
  function Delete(w: World, interface: string, containerPath: string, vni: nat): Out {
    var container := Fallible(w);
    if !container.Ok() then container.Wrap()
    else Exec(Group(DeleteSteps(interface, containerPath, vni)), HostNs, container.w)
  }
}
