/**
 What the daemon acts on: the kernel's links, the namespace files on disk, and the daemon's own tables of
 sandboxes and monitors. Kernel facts are assumptions of the model: link names are unique in a namespace,
 deleting one end of a veth pair deletes the other, and link look-ups answer truthfully. Every call that
 changes something outside the daemon may fail; which ones do is read off a plan.
 */
module Host {
  import opened Wrappers
  import opened Ipv4

  datatype Ns = HostNs | ContainerNs(path: string) | SandboxNs(name: string)

  datatype LinkId = LinkId(ns: Ns, name: string)

  /** The two ends of a veth pair carry the same pair number. */
  datatype Kind = Loopback | Dummy | Bridge | Vxlan(vni: nat) | Veth(pair: nat)

  datatype Address = Address(ip: IP, ones: nat)

  datatype Hop = Hop(destination: IPNet, gateway: IP)

  datatype Link = Link(kind: Kind, up: bool, master: Option<string>, addresses: seq<Address>, routes: seq<Hop>)

  type Links = map<LinkId, Link>

  /** A namespace file: an empty mount point, or one with a namespace mounted on it. */
  datatype File = Bare | Mounted

  /** A registered sandbox: whether it has been torn down, and whether its DNS server runs. */
  datatype Sandbox = Sandbox(destroyed: bool, dns: bool)

  datatype World = World(
    links: Links,
    nextPair: nat,
    files: map<string, File>,
    sandboxes: map<string, Sandbox>,
    monitors: set<string>,
    casualties: set<string>,   // sandboxes that were torn down with a veth in them
    plan: seq<bool>)           // which of the coming fallible calls fail

  datatype Error =
    | CallFailed
    | AlreadyExists
    | NotFound
    | NotABridge
    | AlreadyDestroyed
    | NotMonitored
    | Wrapped(cause: Error)
    | InGroup(index: nat, cause: Error)

  datatype Out = Out(w: World, err: Option<Error>) {
    predicate Ok() {
      err.None?
    }

    function Wrap(): Out {
      if err.None? then this else Out(w, Some(Wrapped(err.value)))
    }
  }

  function Fail(w: World, e: Error): Out {
    Out(w, Some(e))
  }

  function Succeed(w: World): Out {
    Out(w, None)
  }

  /** A call that may fail and otherwise does nothing. */
  function Fallible(w: World): Out {
    if w.plan == [] then Succeed(w)
    else if w.plan[0] then Fail(w.(plan := w.plan[1..]), CallFailed)
    else Succeed(w.(plan := w.plan[1..]))
  }

  // ---------- links ----------

  function NewLink(kind: Kind): Link {
    Link(kind, false, None, [], [])
  }

  function WithLink(w: World, id: LinkId, link: Link): World {
    w.(links := w.links[id := link])
  }

  function AddLink(w: World, id: LinkId, kind: Kind): Out {
    var o := Fallible(w);
    if !o.Ok() then o
    else if id in w.links then Fail(o.w, AlreadyExists)
    else Succeed(WithLink(o.w, id, NewLink(kind)))
  }

  /** Both ends of a new veth pair appear in one namespace. */
  function AddVeth(w: World, ns: Ns, name: string, peer: string): Out {
    var o := Fallible(w);
    var a, b := LinkId(ns, name), LinkId(ns, peer);
    if !o.Ok() then o
    else if a == b || a in w.links || b in w.links then Fail(o.w, AlreadyExists)
    else
      var end := NewLink(Veth(w.nextPair));
      Succeed(o.w.(links := w.links[a := end][b := end], nextPair := w.nextPair + 1))
  }

  /** The links that go when `id` goes: itself, and for a veth the other end of its pair. */
  predicate GoesWith(links: Links, id: LinkId, k: LinkId) {
    k == id || (id in links && k in links && links[id].kind.Veth? && links[k].kind == links[id].kind)
  }

  /** What remains after deleting a link; a deleted bridge releases its slaves. */
  function Without(links: Links, id: LinkId): Links
    requires id in links
  {
    map k | k in links && !GoesWith(links, id, k) ::
      if links[id].kind.Bridge? && k.ns == id.ns && links[k].master == Some(id.name)
      then links[k].(master := None) else links[k]
  }

  function DeleteLink(w: World, id: LinkId): Out {
    if id !in w.links then Fail(w, NotFound)
    else
      var o := Fallible(w);
      if !o.Ok() then o else Succeed(o.w.(links := Without(w.links, id)))
  }

  predicate BoundToNs(kind: Kind) {
    kind.Bridge? || kind.Loopback?
  }

  /** Moving a link to another namespace takes it down and off its bridge and flushes it. */
  function MoveLink(w: World, id: LinkId, target: Ns): Out {
    if id !in w.links then Fail(w, NotFound)
    else
      var o := Fallible(w);
      var moved := LinkId(target, id.name);
      if !o.Ok() then o
      else if moved in w.links || BoundToNs(w.links[id].kind) then Fail(o.w, CallFailed)
      else Succeed(o.w.(links := (w.links - {id})[moved := NewLink(w.links[id].kind)]))
  }

  function SetUp(w: World, id: LinkId): Out {
    if id !in w.links then Fail(w, NotFound)
    else
      var o := Fallible(w);
      if !o.Ok() then o else Succeed(WithLink(o.w, id, w.links[id].(up := true)))
  }

  function SetMaster(w: World, ns: Ns, slave: string, master: string): Out {
    var m, id := LinkId(ns, master), LinkId(ns, slave);
    if m !in w.links then Fail(w, NotFound)
    else if !w.links[m].kind.Bridge? then Fail(w, NotABridge)
    else if id !in w.links then Fail(w, NotFound)
    else
      var o := Fallible(w);
      if !o.Ok() then o
      else if BoundToNs(w.links[id].kind) then Fail(o.w, CallFailed)
      else Succeed(WithLink(o.w, id, w.links[id].(master := Some(master))))
  }

  function AddAddress(w: World, id: LinkId, address: Address): Out {
    if id !in w.links then Fail(w, NotFound)
    else
      var o := Fallible(w);
      if !o.Ok() then o
      else if address in w.links[id].addresses then Fail(o.w, AlreadyExists)
      else Succeed(WithLink(o.w, id, w.links[id].(addresses := w.links[id].addresses + [address])))
  }

  function AddRoute(w: World, id: LinkId, hop: Hop): Out {
    if id !in w.links then Fail(w, NotFound)
    else
      var o := Fallible(w);
      if !o.Ok() then o
      else if hop in w.links[id].routes then Fail(o.w, AlreadyExists)
      else Succeed(WithLink(o.w, id, w.links[id].(routes := w.links[id].routes + [hop])))
  }

  function VethsIn(links: Links, ns: Ns): set<LinkId> {
    set k | k in links && k.ns == ns && links[k].kind.Veth?
  }

  /** Dismantling a namespace removes its links, and the far ends of its veths. */
  function WithoutNs(links: Links, ns: Ns): Links {
    map k | k in links && k.ns != ns &&
      !(exists j :: j in VethsIn(links, ns) && links[j].kind == links[k].kind) :: links[k]
  }

  // ---------- namespace files and the sandbox repository ----------

  /**
   namespace.Repository.Create: `ip netns add`, create the mount point (which must not exist), mount, and give
   up the temporary name. A failure leaves behind what was done before it.
   */
  function CreateNamespace(w: World, name: string): Out {
    var added := Fallible(w);
    if !added.Ok() then added
    else
      var touched := Fallible(added.w);
      if !touched.Ok() then touched
      else if name in w.files then Fail(touched.w, AlreadyExists)
      else
        var mounted := Fallible(touched.w.(files := w.files[name := Bare]));
        if !mounted.Ok() then mounted
        else
          var lo := LinkId(SandboxNs(name), "lo");
          Fallible(WithLink(mounted.w.(files := w.files[name := Mounted]), lo, NewLink(Loopback)))
  }

  /** namespace.Repository.Destroy: unmount, then remove the file. */
  function DestroyNamespace(w: World, name: string): Out {
    var unmounted := Fallible(w);
    if !unmounted.Ok() then unmounted
    else if name !in w.files || w.files[name] != Mounted then Fail(unmounted.w, CallFailed)
    else
      var removed := Fallible(unmounted.w.(files := w.files[name := Bare]));
      if !removed.Ok() then removed
      else Succeed(removed.w.(files := w.files - {name}, links := WithoutNs(w.links, SandboxNs(name))))
  }

  /** Repository.Create: registers the sandbox before bringing its loopback up. */
  function CreateSandbox(w: World, name: string): Out {
    if name in w.sandboxes then Fail(w, AlreadyExists)
    else
      var ns := CreateNamespace(w, name);
      if !ns.Ok() then ns.Wrap()
      else
        var entered := Fallible(ns.w.(sandboxes := w.sandboxes[name := Sandbox(false, false)]));
        if !entered.Ok() then entered.Wrap()
        else SetUp(entered.w, LinkId(SandboxNs(name), "lo")).Wrap()
  }

  /** NetworkSandbox.Teardown. */
  function Teardown(w: World, name: string): Out
    requires name in w.sandboxes
  {
    if w.sandboxes[name].destroyed then Fail(w, AlreadyDestroyed)
    else if name !in w.monitors then Fail(w, NotMonitored).Wrap()
    else
      Succeed(w.(
        monitors := w.monitors - {name},
        sandboxes := w.sandboxes[name := Sandbox(true, false)],
        casualties := if VethsIn(w.links, SandboxNs(name)) == {} then w.casualties else w.casualties + {name}))
  }

  /** Repository.Destroy. The error of an already torn down sandbox arrives wrapped. */
  function DestroySandbox(w: World, name: string): Out {
    if name !in w.sandboxes then Fail(w, NotFound)
    else
      var torn := Teardown(w, name);
      if !torn.Ok() then torn.Wrap()
      else
        var gone := DestroyNamespace(torn.w, name);
        if !gone.Ok() then gone.Wrap()
        else Succeed(gone.w.(sandboxes := gone.w.sandboxes - {name}))
  }

  /**
   What a walk over the sandbox directory comes by: the last elements of the paths of all that is in it, at any
   depth. So every file's name is there, but a name from a sub-directory need not be one of a file.
   */
  predicate Walks(w: World, names: seq<string>) {
    forall name :: name in w.files ==> name in names
  }

  /** Repository.Load over a walk: open each name in the directory itself, then register it as a new sandbox. */
  function LoadAll(w: World, names: seq<string>): Out
    decreases names
  {
    if names == [] then Succeed(w)
    else if names[0] !in w.files then Fail(w, NotFound).Wrap()
    else
      var got := Fallible(w);
      if !got.Ok() then got.Wrap()
      else LoadAll(got.w.(sandboxes := got.w.sandboxes[names[0] := Sandbox(false, false)]), names[1..])
  }

  // ---------- monitors and DNS ----------

  /**
   StartMonitor: open the namespace file, enter the host namespace, register the monitor, find the vxlan link
   inside the sandbox, subscribe. A failure after registration leaves the registration.
   */
  function StartMonitor(w: World, name: string, vxlan: string): Out {
    if name !in w.files then Fail(w, NotFound).Wrap()
    else
      var file := Fallible(w);
      if !file.Ok() then file.Wrap()
      else
        var entered := Fallible(file.w);
        if !entered.Ok() then entered else WatchMisses(entered.w, name, vxlan)
  }

  /** missWatcher.StartMonitor. */
  function WatchMisses(w: World, name: string, vxlan: string): Out {
    var registered := w.(monitors := w.monitors + {name});
    var found := Fallible(registered);
    if !found.Ok() then found.Wrap()
    else if name !in w.files || w.files[name] != Mounted || LinkId(SandboxNs(name), vxlan) !in w.links
    then Fail(found.w, NotFound).Wrap()
    else Fallible(found.w).Wrap()
  }

  const DNS_INTERFACE_NAME := "dns0"

  /** StartDNSServer. The DNS process is launched before it is known to have stayed up. */
  function StartDNS(w: World, name: string, address: IP): Out {
    var resolved := Fallible(w);
    if !resolved.Ok() then resolved.Wrap()
    else if name !in w.sandboxes then Fail(resolved.w, NotFound).Wrap()
    else
      var listening := ListenDNS(resolved.w, SandboxNs(name), address);
      if !listening.Ok() then listening.Wrap()
      else
        var s := w.sandboxes;
        Fallible(listening.w.(sandboxes := s[name := s[name].(dns := true)])).Wrap()
  }

  /** The part of StartDNSServer inside the sandbox: the dns0 link, its address, and the socket. */
  function ListenDNS(w: World, ns: Ns, address: IP): Out {
    var entered := Fallible(w);
    if !entered.Ok() then entered
    else
      var id := LinkId(ns, DNS_INTERFACE_NAME);
      var created := AddLink(entered.w, id, Dummy);
      if !created.Ok() then created
      else
        var addressed := AddAddress(created.w, id, Address(address, 32));
        if !addressed.Ok() then addressed
        else
          var up := SetUp(addressed.w, id);
          if !up.Ok() then up else Fallible(up.w)
  }

  // ---------- cleanup ----------

  /** Deleting the vxlan link; failing to delete a link that is not there is no failure. */
  function DropVxlan(w: World, ns: Ns, vxlan: string): Out {
    var entered := Fallible(w);
    if !entered.Ok() then entered
    else
      var deleted := DeleteLink(entered.w, LinkId(ns, vxlan));
      if !deleted.Ok() && LinkId(ns, vxlan) !in deleted.w.links then Succeed(deleted.w) else deleted.Wrap()
  }

  /** CleanupSandbox: a sandbox without veths loses its vxlan link and is destroyed. */
  function Cleanup(w: World, name: string, vxlan: string): Out {
    if name !in w.sandboxes then Succeed(w)
    else
      var entered := Fallible(w);
      if !entered.Ok() then entered.Wrap()
      else
        var listed := Fallible(entered.w);
        if !listed.Ok() then listed.Wrap()
        else if VethsIn(w.links, SandboxNs(name)) != {} then listed
        else
          var dropped := DropVxlan(listed.w, SandboxNs(name), vxlan);
          if !dropped.Ok() then dropped.Wrap()
          else Tolerate(DestroySandbox(dropped.w, name))
  }

  /** Cleanup's switch over the error of Destroy. */
  function Tolerate(o: Out): Out {
    match o.err
    case None => o
    case Some(AlreadyDestroyed) => Succeed(o.w)
    case Some(NotFound) => Succeed(o.w)
    case Some(_) => o.Wrap()
  }
}
