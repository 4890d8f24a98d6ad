/** The daemon's own steps over its mutable state: the sandbox repository, cleanup, and the executor. */
module Daemon {
  import opened Wrappers
  import opened Ipv4
  import opened Naming
  import opened Host
  import opened Commands
  import opened Container
  import opened SandboxSafety
  import opened SetupEffects
  import opened SetupDelete

  /** An error reported by the members from the i-th on, seen from the whole group. */
  function From(i: nat, o: Out): Out {
    match o.err
    case Some(InGroup(index, cause)) => Out(o.w, Some(InGroup(index + i, cause)))
    case _ => o
  }

  lemma FromNext(cs: seq<Command>, ns: Ns, w: World, i: nat)
    requires i < |cs|
    ensures var here := Exec(cs[i], ns, w);
      match here.err
      case Some(cause) => From(i, ExecAll(cs[i..], ns, w)) == Fail(here.w, InGroup(i, cause))
      case None => From(i, ExecAll(cs[i..], ns, w)) == From(i + 1, ExecAll(cs[i + 1..], ns, here.w))
  {
    assert cs[i..][0] == cs[i] && cs[i..][1..] == cs[i + 1..];
  }

  class Daemon {
    // the kernel and the disk
    var links: Links
    var nextPair: nat
    var files: map<string, File>
    // the daemon
    var sandboxes: map<string, Sandbox>
    var monitors: set<string>
    // what the model keeps beside them
    var casualties: set<string>
    var plan: seq<bool>

    function State(): World
      reads this
    {
      World(links, nextPair, files, sandboxes, monitors, casualties, plan)
    }

    constructor (w: World)
      ensures State() == w
    {
      links, nextPair, files := w.links, w.nextPair, w.files;
      sandboxes, monitors, casualties, plan := w.sandboxes, w.monitors, w.casualties, w.plan;
    }

    /** A call whose only trace here is whether it fails. */
    method Try() returns (failed: bool)
      modifies this`plan
      ensures Out(State(), if failed then Some(CallFailed) else None) == Fallible(old(State()))
      ensures old(plan) == [] ==> !failed && plan == []
    {
      if plan == [] {
        return false;
      }
      failed := plan[0];
      plan := plan[1..];
    }

    // ---------- links ----------

    /** The kernel makes a link, unless the name is taken. */
    method AddLink(id: LinkId, kind: Kind) returns (err: Option<Error>)
      modifies this`links, this`plan
      ensures Out(State(), err) == Host.AddLink(old(State()), id, kind)
      ensures err.None? ==> id !in old(links) && links == old(links)[id := NewLink(kind)]
      ensures err.Some? ==> links == old(links)
    {
      var failed := Try();
      if failed {
        return Some(CallFailed);
      }
      if id in links {
        return Some(AlreadyExists);
      }
      links := links[id := NewLink(kind)];
      return None;
    }

    /** The kernel makes a veth pair, unless one of the names is taken. */
    method AddVeth(ns: Ns, name: string, peer: string) returns (err: Option<Error>)
      modifies this`links, this`nextPair, this`plan
      ensures Out(State(), err) == Host.AddVeth(old(State()), ns, name, peer)
      ensures err.Some? ==> links == old(links)
    {
      var failed := Try();
      if failed {
        return Some(CallFailed);
      }
      var a, b := LinkId(ns, name), LinkId(ns, peer);
      if a == b || a in links || b in links {
        return Some(AlreadyExists);
      }
      var end := NewLink(Veth(nextPair));
      links := links[a := end][b := end];
      nextPair := nextPair + 1;
      return None;
    }

    /** Factory.DeleteLinkByName. */
    method DeleteLink(id: LinkId) returns (err: Option<Error>)
      modifies this`links, this`plan
      ensures Out(State(), err) == Host.DeleteLink(old(State()), id)
      ensures err.None? ==> forall k :: k in links <==> k in old(links) && !GoesWith(old(links), id, k)
      ensures err.Some? ==> links == old(links)
    {
      if id !in links {
        return Some(NotFound);
      }
      var failed := Try();
      if failed {
        return Some(CallFailed);
      }
      links := Without(links, id);
      return None;
    }

    /** MoveLink: the sandbox is looked up by name, then the link, and the kernel moves it. */
    method MoveLink(ns: Ns, link: string, sandbox: string) returns (err: Option<Error>)
      modifies this`links, this`plan
      ensures Out(State(), err) == ExecPrimitive(Command.MoveLink(link, sandbox), ns, old(State()))
      ensures err.None? ==>
        var id, moved := LinkId(ns, link), LinkId(SandboxNs(sandbox), link);
        && sandbox in sandboxes && id in old(links) && moved !in old(links)
        && links == (old(links) - {id})[moved := NewLink(old(links)[id].kind)]
      ensures err.Some? ==> links == old(links)
    {
      if sandbox !in sandboxes {
        return Some(NotFound);
      }
      var id, moved := LinkId(ns, link), LinkId(SandboxNs(sandbox), link);
      if id !in links {
        return Some(NotFound);
      }
      var failed := Try();
      if failed || moved in links || BoundToNs(links[id].kind) {
        return Some(CallFailed);
      }
      var kind := links[id].kind;
      links := (links - {id})[moved := NewLink(kind)];
      return None;
    }

    /** Factory.SetUp. */
    method SetUp(id: LinkId) returns (err: Option<Error>)
      modifies this`links, this`plan
      ensures Out(State(), err) == Host.SetUp(old(State()), id)
      ensures err.None? ==> id in old(links) && links == old(links)[id := old(links)[id].(up := true)]
      ensures err.Some? ==> links == old(links)
    {
      if id !in links {
        return Some(NotFound);
      }
      var failed := Try();
      if failed {
        return Some(CallFailed);
      }
      links := links[id := links[id].(up := true)];
      return None;
    }

    /** Factory.SetMaster: the master must be a bridge. */
    method SetMaster(ns: Ns, slave: string, master: string) returns (err: Option<Error>)
      modifies this`links, this`plan
      ensures Out(State(), err) == Host.SetMaster(old(State()), ns, slave, master)
      ensures err.None? ==>
        var id := LinkId(ns, slave);
        && id in old(links) && links == old(links)[id := old(links)[id].(master := Some(master))]
        && LinkId(ns, master) in old(links) && old(links)[LinkId(ns, master)].kind.Bridge?
      ensures err.Some? ==> links == old(links)
    {
      var m, id := LinkId(ns, master), LinkId(ns, slave);
      if m !in links {
        return Some(NotFound);
      }
      if !links[m].kind.Bridge? {
        return Some(NotABridge);
      }
      if id !in links {
        return Some(NotFound);
      }
      var failed := Try();
      if failed || BoundToNs(links[id].kind) {
        return Some(CallFailed);
      }
      links := links[id := links[id].(master := Some(master))];
      return None;
    }

    /** AddressManager.AddAddress. */
    method AddAddress(id: LinkId, address: Address) returns (err: Option<Error>)
      modifies this`links, this`plan
      ensures Out(State(), err) == Host.AddAddress(old(State()), id, address)
      ensures err.None? ==>
        && id in old(links) && address !in old(links)[id].addresses
        && links == old(links)[id := old(links)[id].(addresses := old(links)[id].addresses + [address])]
      ensures err.Some? ==> links == old(links)
    {
      if id !in links {
        return Some(NotFound);
      }
      var failed := Try();
      if failed {
        return Some(CallFailed);
      }
      if address in links[id].addresses {
        return Some(AlreadyExists);
      }
      links := links[id := links[id].(addresses := links[id].addresses + [address])];
      return None;
    }

    /** RouteManager.AddRoute. */
    method AddRoute(id: LinkId, hop: Hop) returns (err: Option<Error>)
      modifies this`links, this`plan
      ensures Out(State(), err) == Host.AddRoute(old(State()), id, hop)
      ensures err.None? ==>
        && id in old(links) && hop !in old(links)[id].routes
        && links == old(links)[id := old(links)[id].(routes := old(links)[id].routes + [hop])]
      ensures err.Some? ==> links == old(links)
    {
      if id !in links {
        return Some(NotFound);
      }
      var failed := Try();
      if failed {
        return Some(CallFailed);
      }
      if hop in links[id].routes {
        return Some(AlreadyExists);
      }
      links := links[id := links[id].(routes := links[id].routes + [hop])];
      return None;
    }

    // ---------- namespace files ----------

    /** A failure leaves behind at most the file. */
    method CreateNamespace(name: string) returns (err: Option<Error>)
      modifies this`links, this`files, this`plan
      ensures Out(State(), err) == Host.CreateNamespace(old(State()), name)
      ensures err.None? ==> name !in old(files) && files == old(files)[name := Mounted]
      ensures old(files).Keys <= files.Keys <= old(files).Keys + {name}
      ensures RegisteredHaveFiles(old(State())) ==> RegisteredHaveFiles(State())
    {
      var failed := Try();
      if failed {
        return Some(CallFailed);
      }
      failed := Try();
      if failed {
        return Some(CallFailed);
      }
      if name in files {
        return Some(AlreadyExists);
      }
      files := files[name := Bare];
      failed := Try();
      if failed {
        return Some(CallFailed);
      }
      files := files[name := Mounted];
      assert files == old(files)[name := Mounted];
      links := links[LinkId(SandboxNs(name), "lo") := NewLink(Loopback)];
      failed := Try();
      return if failed then Some(CallFailed) else None;
    }

    /** The file and the links go together and last: a failure keeps both. */
    method DestroyNamespace(name: string) returns (err: Option<Error>)
      modifies this`links, this`files, this`plan
      ensures Out(State(), err) == Host.DestroyNamespace(old(State()), name)
      ensures err.None? ==> files == old(files) - {name} && NoLinksIn(links, SandboxNs(name))
      ensures err.Some? ==> files.Keys == old(files).Keys && links == old(links)
    {
      var failed := Try();
      if failed {
        return Some(CallFailed);
      }
      if name !in files || files[name] != Mounted {
        return Some(CallFailed);
      }
      files := files[name := Bare];
      failed := Try();
      if failed {
        return Some(CallFailed);
      }
      files := files - {name};
      assert files == old(files) - {name};
      links := WithoutNs(links, SandboxNs(name));
      return None;
    }

    // ---------- the sandbox repository ----------

    /** However it ends, every registered name has its file; on success the sandbox is there, its loopback up. */
    method CreateSandbox(name: string) returns (err: Option<Error>)
      modifies this`links, this`files, this`sandboxes, this`plan
      ensures Out(State(), err) == Host.CreateSandbox(old(State()), name)
      ensures RegisteredHaveFiles(old(State())) ==> RegisteredHaveFiles(State())
      ensures sandboxes.Keys <= old(sandboxes).Keys + {name}
      ensures err.None? ==>
        && name !in old(sandboxes) && sandboxes == old(sandboxes)[name := Sandbox(false, false)]
        && LinkId(SandboxNs(name), "lo") in links && links[LinkId(SandboxNs(name), "lo")].up
    {
      hide Host.CreateNamespace, Host.SetUp;
      if name in sandboxes {
        return Some(AlreadyExists);
      }
      err := CreateNamespace(name);
      if err.Some? {
        return Some(Wrapped(err.value));
      }
      sandboxes := sandboxes[name := Sandbox(false, false)];
      var failed := Try();
      if failed {
        return Some(Wrapped(CallFailed));
      }
      err := SetUp(LinkId(SandboxNs(name), "lo"));
      return if err.Some? then Some(Wrapped(err.value)) else None;
    }

    /** NetworkSandbox.Teardown: succeeds exactly once, on a monitored sandbox, and otherwise changes nothing. */
    method Teardown(name: string) returns (err: Option<Error>)
      requires name in sandboxes
      modifies this`monitors, this`sandboxes, this`casualties
      ensures Out(State(), err) == Host.Teardown(old(State()), name)
      ensures err.None? <==> !old(sandboxes)[name].destroyed && name in old(monitors)
      ensures err.None? ==> name !in monitors && sandboxes == old(sandboxes)[name := Sandbox(true, false)]
      ensures err.Some? ==> State() == old(State())
    {
      if sandboxes[name].destroyed {
        return Some(AlreadyDestroyed);
      }
      if name !in monitors {
        return Some(Wrapped(NotMonitored));
      }
      monitors := monitors - {name};
      if VethsIn(links, SandboxNs(name)) != {} {
        casualties := casualties + {name};
      }
      sandboxes := sandboxes[name := Sandbox(true, false)];
      return None;
    }

    /** However it ends, every registered name has its file; on success nothing of the sandbox is left. */
    method DestroySandbox(name: string) returns (err: Option<Error>)
      modifies this`links, this`files, this`sandboxes, this`monitors, this`casualties, this`plan
      ensures Out(State(), err) == Host.DestroySandbox(old(State()), name)
      ensures RegisteredHaveFiles(old(State())) ==> RegisteredHaveFiles(State())
      ensures err.None? ==>
        && sandboxes == old(sandboxes) - {name} && files == old(files) - {name}
        && name !in monitors && NoLinksIn(links, SandboxNs(name))
      ensures err.Some? ==> sandboxes.Keys == old(sandboxes).Keys
    {
      hide Host.DestroyNamespace, NoLinksIn;
      if name !in sandboxes {
        return Some(NotFound);
      }
      err := Teardown(name);
      if err.Some? {
        return Some(Wrapped(err.value));
      }
      err := DestroyNamespace(name);
      if err.Some? {
        return Some(Wrapped(err.value));
      }
      sandboxes := sandboxes - {name};
    }

    /** Registers name by name; on a repository whose names all have files, success registers exactly the files. */
    method Load(walk: seq<string>) returns (err: Option<Error>)
      modifies this`sandboxes, this`plan
      ensures Out(State(), err) == LoadAll(old(State()), walk)
      ensures err.None? ==>
        && (forall name :: name in walk ==> name in files)
        && sandboxes == old(sandboxes) + NewEntries(walk)
      ensures RegisteredHaveFiles(old(State())) ==>
        RegisteredHaveFiles(State()) && (err.None? && Walks(State(), walk) ==> sandboxes.Keys == files.Keys)
      ensures old(plan) == [] ==> plan == [] && (err.None? <==> forall name :: name in walk ==> name in files)
    {
      hide Fallible, LoadAll;
      ghost var start := State();
      for i := 0 to |walk|
        invariant LoadAll(start, walk) == LoadAll(State(), walk[i..])
        invariant forall j :: 0 <= j < i ==> walk[j] in files
        invariant sandboxes == old(sandboxes) + NewEntries(walk[..i])
        invariant old(plan) == [] ==> plan == []
      {
        LoadNext(State(), walk, i);
        if walk[i] !in files {
          return Some(Wrapped(NotFound));
        }
        var failed := Try();
        if failed {
          return Some(Wrapped(CallFailed));
        }
        RegisterNext(old(sandboxes), walk, i);
        sandboxes := sandboxes[walk[i] := Sandbox(false, false)];
      }
      LoadEnds(State(), walk);
      return None;
    }

    /** The reloader's callback: recover the vxlan name from the path and start the monitor. */
    method ReloadMonitor(root: string, name: string) returns (ok: bool)
      modifies this`monitors, this`plan
      ensures monitors == old(monitors) || monitors == old(monitors) + {name}
      ensures ok ==> monitors == old(monitors) + {name} && Reloadable(old(State()), root, name)
      ensures old(plan) == [] ==> plan == [] && (ok <==> Reloadable(old(State()), root, name))
    {
      var vxlan := GetVxlanName(root + "/" + name);
      if vxlan.Err? {
        return false;
      }
      var err := WatchMisses(name, vxlan.value);
      return err.None?;
    }

    /** ForEach with the reloader. */
    method ReloadMonitors(root: string) returns (ok: bool)
      modifies this`monitors, this`plan
      ensures old(monitors) <= monitors <= old(monitors) + sandboxes.Keys
      ensures ok ==> monitors == old(monitors) + sandboxes.Keys && AllReloadable(State(), root, sandboxes.Keys)
      ensures old(plan) == [] && AllReloadable(old(State()), root, sandboxes.Keys) ==> ok && plan == []
    {
      hide Reloadable;
      var names := sandboxes.Keys;
      while names != {}
        invariant names <= sandboxes.Keys && monitors == old(monitors) + (sandboxes.Keys - names)
        invariant AllReloadable(State(), root, sandboxes.Keys - names)
        invariant old(plan) == [] ==> plan == []
        decreases names
      {
        var name :| name in names;
        ghost var seen, before := sandboxes.Keys - names, State();
        SameToTheReloader(State(), old(State()), root, name);
        var done := ReloadMonitor(root, name);
        if !done {
          return false;
        }
        names := names - {name};
        assert sandboxes.Keys - names == seen + {name};
        forall n | n in seen + {name}
          ensures Reloadable(State(), root, n)
        {
          SameToTheReloader(State(), before, root, n);
        }
      }
      return true;
    }

    /** Start-up: an empty repository is loaded and every loaded sandbox's monitor started. */
    method Restart(root: string, walk: seq<string>) returns (ok: bool)
      requires Walks(State(), walk)
      modifies this`sandboxes, this`monitors, this`plan
      ensures ok ==> CanRestart(old(State()), root) && forall name :: name in walk ==> name in files
      ensures ok ==> sandboxes.Keys == monitors == files.Keys
      ensures ok ==> State() == Restarted(old(State())).(plan := plan)
      ensures ok && Inv(old(State())) ==> Inv(State())
      ensures old(plan) == [] && CanRestart(old(State()), root) && (forall name :: name in walk ==> name in files) ==>
        ok
    {
      hide Reloadable, Inv;
      sandboxes, monitors := map[], {};
      var err := Load(walk);
      ok := err.None?;
      if ok {
        label loaded:
        forall name | name in sandboxes
          ensures Reloadable(old(State()), root, name) <==> Reloadable(State(), root, name)
        {
          SameToTheReloader(State(), old(State()), root, name);
        }
        ok := ReloadMonitors(root);
        forall name | ok && name in files
          ensures Reloadable(old(State()), root, name)
        {
          SameToTheReloader(State(), old(State()), root, name);
        }
      }
      if ok {
        if Inv(old(State())) {
          RestartKeeps(old(State()));
          PlanKeeps(Restarted(old(State())), plan);
        }
      }
    }

    // ---------- monitors ----------

    /** StartMonitor: open the namespace file, enter the host namespace, start watching. */
    method StartMonitor(name: string, vxlan: string) returns (err: Option<Error>)
      modifies this`monitors, this`plan
      ensures Out(State(), err) == Host.StartMonitor(old(State()), name, vxlan)
      ensures err.None? ==>
        && monitors == old(monitors) + {name} && name in files && files[name] == Mounted
        && LinkId(SandboxNs(name), vxlan) in links
    {
      hide Host.WatchMisses;
      if name !in files {
        return Some(Wrapped(NotFound));
      }
      var failed := Try();
      if failed {
        return Some(Wrapped(CallFailed));
      }
      failed := Try();
      if failed {
        return Some(CallFailed);
      }
      err := WatchMisses(name, vxlan);
    }

    /** missWatcher.StartMonitor: a failure after registration leaves the registration. */
    method WatchMisses(name: string, vxlan: string) returns (err: Option<Error>)
      modifies this`monitors, this`plan
      ensures Out(State(), err) == Host.WatchMisses(old(State()), name, vxlan)
      ensures monitors == old(monitors) + {name}
      ensures err.None? ==> name in files && files[name] == Mounted && LinkId(SandboxNs(name), vxlan) in links
      ensures old(plan) == [] ==>
        && plan == []
        && (err.None? <==> name in files && files[name] == Mounted && LinkId(SandboxNs(name), vxlan) in links)
    {
      monitors := monitors + {name};
      var failed := Try();
      if failed {
        return Some(Wrapped(CallFailed));
      }
      if name !in files || files[name] != Mounted || LinkId(SandboxNs(name), vxlan) !in links {
        return Some(Wrapped(NotFound));
      }
      failed := Try();
      return if failed then Some(Wrapped(CallFailed)) else None;
    }

    // ---------- cleanup ----------

    /** Factory.VethDeviceCount over the links of one namespace. */
    method VethDeviceCount(ns: Ns) returns (count: nat)
      ensures count == |VethsIn(links, ns)|
    {
      count := 0;
      var rest := set k | k in links && k.ns == ns;
      assert VethsIn(links, ns) == VethsAmong(links, rest);
      while rest != {}
        invariant count + |VethsAmong(links, rest)| == |VethsIn(links, ns)|
        invariant rest <= links.Keys
        decreases rest
      {
        var k :| k in rest;
        OneFewerVeth(links, rest, k);
        rest := rest - {k};
        if links[k].kind.Veth? {
          count := count + 1;
        }
      }
    }

    /** On success the link is gone, whether or not it was there. */
    method DropVxlan(ns: Ns, vxlan: string) returns (err: Option<Error>)
      modifies this`links, this`plan
      ensures Out(State(), err) == Host.DropVxlan(old(State()), ns, vxlan)
      ensures err.None? ==> LinkId(ns, vxlan) !in links
      ensures err.Some? ==> links == old(links)
    {
      hide Host.DeleteLink;
      var failed := Try();
      if failed {
        return Some(CallFailed);
      }
      err := DeleteLink(LinkId(ns, vxlan));
      if err.Some? {
        if LinkId(ns, vxlan) in links {
          return Some(Wrapped(err.value));
        }
        return None;
      }
    }

    /**
     Keeps the safety invariant, wherever it stops; on success a sandbox without veths is gone and one with a veth
     is untouched.
     */
    method CleanupSandbox(name: string, vxlan: string) returns (err: Option<Error>)
      modifies this`links, this`files, this`sandboxes, this`monitors, this`casualties, this`plan
      ensures Out(State(), err) == Cleanup(old(State()), name, vxlan)
      ensures forall vni: nat :: name == SandboxName(vni) && vxlan == VxlanName(vni) && Inv(old(State())) ==>
        Inv(State())
      ensures err.None? && name in old(sandboxes) ==>
        if VethsIn(old(links), SandboxNs(name)) != {} then State() == old(State()).(plan := plan)
        else
          && sandboxes == old(sandboxes) - {name} && files == old(files) - {name} && monitors == old(monitors) - {name}
          && NoLinksIn(links, SandboxNs(name)) && SameElsewhere(old(links), links, SandboxNs(name))
    {
      hide Inv, Host.DropVxlan, Host.DestroySandbox, NoLinksIn, SameElsewhere;
      forall vni: nat | name == SandboxName(vni) && vxlan == VxlanName(vni) && Inv(State())
        ensures Inv(Cleanup(State(), name, vxlan).w)
      {
        CleanupKeeps(State(), vni);
      }
      if name in sandboxes && Cleanup(State(), name, vxlan).Ok() {
        CleanupEffect(State(), name, vxlan);
      }
      if name !in sandboxes {
        return None;
      }
      var failed := Try();
      if failed {
        return Some(Wrapped(CallFailed));
      }
      failed := Try();
      if failed {
        return Some(Wrapped(CallFailed));
      }
      var count := VethDeviceCount(SandboxNs(name));
      if count == 0 {
        err := DropVxlan(SandboxNs(name), vxlan);
        if err.Some? {
          return Some(Wrapped(err.value));
        }
        err := DestroySandbox(name);
        match err
        case None =>
        case Some(AlreadyDestroyed) => err := None;
        case Some(NotFound) => err := None;
        case Some(e) => err := Some(Wrapped(e));
      } else {
        err := None;
      }
    }

    // ---------- DNS ----------

    /** On success a new dns0 link is up with exactly the server's address. */
    method ListenDNS(ns: Ns, address: IP) returns (err: Option<Error>)
      modifies this`links, this`plan
      ensures Out(State(), err) == Host.ListenDNS(old(State()), ns, address)
      ensures err.None? ==>
        var id := LinkId(ns, DNS_INTERFACE_NAME);
        id !in old(links) && links == old(links)[id := Link(Dummy, true, None, [Address(address, 32)], [])]
    {
      hide Host.AddLink, Host.AddAddress, Host.SetUp;
      var failed := Try();
      if failed {
        return Some(CallFailed);
      }
      var id := LinkId(ns, DNS_INTERFACE_NAME);
      err := AddLink(id, Dummy);
      if err.Some? {
        return;
      }
      err := AddAddress(id, Address(address, 32));
      if err.Some? {
        return;
      }
      err := SetUp(id);
      if err.Some? {
        return;
      }
      assert [] + [Address(address, 32)] == [Address(address, 32)];
      assert links == old(links)[id := Link(Dummy, true, None, [Address(address, 32)], [])];
      failed := Try();
      return if failed then Some(CallFailed) else None;
    }

    method StartDNS(name: string, address: IP) returns (err: Option<Error>)
      modifies this`links, this`sandboxes, this`plan
      ensures Out(State(), err) == Host.StartDNS(old(State()), name, address)
      ensures err.None? ==>
        var id := LinkId(SandboxNs(name), DNS_INTERFACE_NAME);
        && id !in old(links) && links == old(links)[id := Link(Dummy, true, None, [Address(address, 32)], [])]
        && name in old(sandboxes) && sandboxes == old(sandboxes)[name := old(sandboxes)[name].(dns := true)]
      ensures err.Some? ==> sandboxes.Keys == old(sandboxes).Keys
    {
      hide Host.ListenDNS;
      var failed := Try();
      if failed {
        return Some(Wrapped(CallFailed));
      }
      if name !in sandboxes {
        return Some(Wrapped(NotFound));
      }
      err := ListenDNS(SandboxNs(name), address);
      if err.Some? {
        return Some(Wrapped(err.value));
      }
      sandboxes := sandboxes[name := sandboxes[name].(dns := true)];
      failed := Try();
      return if failed then Some(Wrapped(CallFailed)) else None;
    }

    // ---------- the executor ----------

    /** Command.Execute. */
    method Execute(c: Command, ns: Ns) returns (err: Option<Error>)
      modifies this
      ensures Out(State(), err) == Exec(c, ns, old(State()))
      decreases c
    {
      match c
      case Group(members) =>
        ghost var before := State();
        assert members[0..] == members;
        for i := 0 to |members|
          invariant ExecAll(members, ns, before) == From(i, ExecAll(members[i..], ns, State()))
        {
          FromNext(members, ns, State(), i);
          var e := Execute(members[i], ns);
          if e.Some? {
            return Some(InGroup(i, e.value));
          }
        }
        return None;
      case Unless(condition, body) =>
        if Satisfied(condition, ns, State()) {
          return None;
        }
        err := Execute(body, ns);
        err := if err.Some? then Some(Wrapped(err.value)) else None;
      case InNamespace(inner, body) =>
        var failed := Try();
        if failed {
          return Some(Wrapped(CallFailed));
        }
        err := Execute(body, inner);
        err := if err.Some? then Some(Wrapped(err.value)) else None;
      case _ => err := ExecutePrimitive(c, ns);
    }

    method ExecutePrimitive(c: Command, ns: Ns) returns (err: Option<Error>)
      requires !c.Group? && !c.Unless? && !c.InNamespace?
      modifies this
      ensures Out(State(), err) == ExecPrimitive(c, ns, old(State())).Wrap()
    {
      hide Inv, NoLinksIn, SameElsewhere, GoesWith;
      hide Host.CreateSandbox, Cleanup, Host.StartDNS, Host.StartMonitor, Host.MoveLink, Host.AddLink, Host.AddVeth;
      hide Host.DeleteLink, Host.SetUp, Host.SetMaster, Host.AddAddress, Host.AddRoute;
      match c {
        case CreateSandbox(sandbox) => err := CreateSandbox(sandbox);
        case CleanupSandbox(sandbox, vxlan) => err := CleanupSandbox(sandbox, vxlan);
        case StartDNSServer(sandbox, dns) => err := StartDNS(sandbox, dns);
        case StartMonitor(sandbox, vxlan) => err := StartMonitor(sandbox, vxlan);
        case MoveLink(link, sandbox) => err := MoveLink(ns, link, sandbox);
        case CreateVxlan(link, vni) => err := AddLink(LinkId(ns, link), Vxlan(vni));
        case CreateVeth(link, peer) => err := AddVeth(ns, link, peer);
        case CreateBridge(link) => err := AddLink(LinkId(ns, link), Bridge);
        case DeleteLink(link) => err := DeleteLink(LinkId(ns, link));
        case SetLinkUp(link) => err := SetUp(LinkId(ns, link));
        case SetLinkMaster(master, slave) => err := SetMaster(ns, slave, master);
        case AddAddress(link, address) => err := AddAddress(LinkId(ns, link), address);
        case AddRoute(link, hop) => err := AddRoute(LinkId(ns, link), hop);
        case GetHardwareAddress(link) => err := if LinkId(ns, link) in links then None else Some(NotFound);
      }
      err := if err.Some? then Some(Wrapped(err.value)) else None;
    }

    // ---------- containers ----------

    /**
     Creator.Setup: keeps the safety invariant, wherever it stops; on success the pair is there, configured, and on
     the sandbox's bridge.
     */
    method SetupContainer(cfg: SetupConfig) returns (err: Option<Error>)
      modifies this
      ensures Out(State(), err) == Setup(old(State()), cfg)
      ensures Inv(old(State())) ==> Inv(State())
      ensures err.None? ==>
        && Bridged(State(), cfg, VxlanEnd(cfg)) && Bridged(State(), cfg, SandboxEnd(cfg))
        && SandboxName(cfg.vni) in sandboxes && SandboxName(cfg.vni) in monitors
        && ContainerEnd(cfg) in links && links[ContainerEnd(cfg)].up
        && links[ContainerEnd(cfg)].addresses == [Address(cfg.lease.ip, cfg.lease.ones)]
        && RoutedAs(links[ContainerEnd(cfg)].routes, cfg.lease.routes, cfg.lease.gateway)
    {
      hide Inv, Exec;
      if Inv(State()) {
        SetupKeeps(State(), cfg);
      }
      if Setup(State(), cfg).Ok() {
        SetupEstablishes(State(), cfg);
      }
      var failed := Try();
      if failed {
        return Some(Wrapped(CallFailed));
      }
      err := Execute(SandboxTree(cfg.vni, cfg.dns), HostNs);
      if err.Some? {
        return Some(Wrapped(err.value));
      }
      if SandboxName(cfg.vni) !in sandboxes {
        return Some(Wrapped(NotFound));
      }
      err := Execute(Group(WiringSteps(cfg)), HostNs);
      if err.Some? {
        return;
      }
      err := Execute(InNamespace(ContainerNs(cfg.containerPath), GetHardwareAddress(cfg.interface)), HostNs);
    }

    /** Deletor.Delete: keeps the safety invariant, wherever it stops; on success the link and its peer are gone. */
    method DeleteContainer(interface: string, containerPath: string, vni: nat) returns (err: Option<Error>)
      modifies this
      ensures Out(State(), err) == Delete(old(State()), interface, containerPath, vni)
      ensures Inv(old(State())) ==> Inv(State())
      ensures err.None? ==>
        var id := LinkId(ContainerNs(containerPath), interface);
        id in old(links) && forall k :: k in links ==> k in old(links) && !GoesWith(old(links), id, k)
      ensures err.None? ==>
        (SandboxName(vni) in sandboxes <==>
           SandboxName(vni) in old(sandboxes) && VethsIn(links, SandboxNs(SandboxName(vni))) != {})
    {
      hide Inv, Exec;
      if Inv(State()) {
        DeleteKeeps(State(), interface, containerPath, vni);
      }
      if Delete(State(), interface, containerPath, vni).Ok() {
        DeleteTakesThePair(State(), interface, containerPath, vni);
      }
      var failed := Try();
      if failed {
        return Some(Wrapped(CallFailed));
      }
      err := Execute(Group(DeleteSteps(interface, containerPath, vni)), HostNs);
    }
  }

  /** The next turn of the loop of a load. */
  lemma LoadNext(w: World, walk: seq<string>, i: nat)
    requires i < |walk|
    ensures LoadAll(w, walk[i..]) ==
      if walk[i] !in w.files then Fail(w, Wrapped(NotFound))
      else if Fallible(w).Ok() then
        var got := Fallible(w).w;
        LoadAll(got.(sandboxes := got.sandboxes[walk[i] := Sandbox(false, false)]), walk[i + 1..])
      else Fallible(w).Wrap()
  {
    hide Fallible;
    assert walk[i..][0] == walk[i] && walk[i..][1..] == walk[i + 1..];
  }

  lemma LoadEnds(w: World, walk: seq<string>)
    ensures walk[..|walk|] == walk && LoadAll(w, walk[|walk|..]) == Succeed(w)
  {
  }

  /** What a load registers. */
  function NewEntries(names: seq<string>): map<string, Sandbox> {
    map name | name in names :: Sandbox(false, false)
  }

  lemma RegisterNext(before: map<string, Sandbox>, walk: seq<string>, i: nat)
    requires i < |walk|
    ensures (before + NewEntries(walk[..i]))[walk[i] := Sandbox(false, false)] == before + NewEntries(walk[..i + 1])
  {
    var next := walk[..i + 1];
    assert next == walk[..i] + [walk[i]];
  }

  /** The reloader looks at files and links only. */
  lemma SameToTheReloader(w: World, w': World, root: string, name: string)
    requires w.files == w'.files && w.links == w'.links
    ensures Reloadable(w, root, name) <==> Reloadable(w', root, name)
  {
  }

  function VethsAmong(links: Links, ids: set<LinkId>): set<LinkId> {
    set k | k in ids && k in links && links[k].kind.Veth?
  }

  lemma OneFewerVeth(links: Links, ids: set<LinkId>, k: LinkId)
    requires k in ids && k in links
    ensures |VethsAmong(links, ids)| == |VethsAmong(links, ids - {k})| + (if links[k].kind.Veth? then 1 else 0)
  {
    if links[k].kind.Veth? {
      assert VethsAmong(links, ids) == VethsAmong(links, ids - {k}) + {k};
    } else {
      assert VethsAmong(links, ids) == VethsAmong(links, ids - {k});
    }
  }
}
