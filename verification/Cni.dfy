/** CNI Add and Del: the allocator, the container's links and the datastore, one after the other. */
module Cni {
  import opened Wrappers
  import opened Ipv4
  import opened Naming
  import opened Records
  import P = AddressPool
  import I = Allocator
  import H = Host
  import C = Container
  import SandboxSafety
  import SetupDelete
  import SetupEffects
  import D = Daemon
  import M = Misses
  import Text

  /** What the daemon is started with. */
  datatype Env = Env(
    hash: string -> Digest, encode: string -> Encoded, subnet: P.Config, dns: IP, hostIP: string,
      defaultNetwork: string)

  datatype AddPayload = AddPayload(spaceID: string, app: string, containerPath: string, interface: string, id: string)

  datatype DelPayload = DelPayload(interface: string, containerPath: string, id: string)

  datatype Error =
    | Allocation(cause: P.Error)
    | ContainerSetup(setup: H.Error)
    | DatastoreCreate
    | DatastoreGet
    | Deletor(deletion: H.Error)
    | DatastoreDelete
    | Release

  /** The three places one network's containers leave their traces. */
  datatype System = System(pool: P.Pool, host: H.World, records: map<string, Container>)

  /** A payload without a space goes to the default network. */
  function NetworkOf(env: Env, p: AddPayload): (network: string)
    ensures p.spaceID == "" ==> network == env.defaultNetwork
    ensures p.spaceID != "" ==> network == p.spaceID
  {
    GetNetworkID(p.spaceID, env.defaultNetwork)
  }

  function ConfigOf(env: Env, p: AddPayload, lease: P.Lease): C.SetupConfig {
    C.SetupConfig(VNI(env.hash, NetworkOf(env, p)), p.containerPath, p.interface, SandboxLinkName(env.encode(p.id)),
      lease, env.dns)
  }

  function RecordFor(env: Env, p: AddPayload, lease: P.Lease, mac: string): Container
    requires To4(lease.ip).Some?
  {
    RecordOf(p.id, lease.ip, mac, env.hostIP, NetworkOf(env, p), SandboxName(VNI(env.hash, NetworkOf(env, p))), p.app)
  }

  /** Add on the pool of its network: a failure leaves whatever was done before it. */
  function Add(env: Env, s: System, p: AddPayload, mac: string, storeFails: bool): (System, Result<P.Lease, Error>)
    requires env.subnet.net.Valid()
  {
    var (pool, leased) := P.Allocate(env.subnet, s.pool, p.id);
    match leased
    case Err(e) => (s.(pool := pool), Err(Allocation(e)))
    case Ok(lease) =>
      var (host, records, r) := SetUpAndRecord(env, s.host, s.records, p, lease, mac, storeFails);
      (System(pool, host, records), r)
  }

  /** Add once it has an address. */
  function SetUpAndRecord(
    env: Env, host: H.World, records: map<string, Container>, p: AddPayload, lease: P.Lease, mac: string,
      storeFails: bool)
    : (H.World, map<string, Container>, Result<P.Lease, Error>)
  {
    var wired := C.Setup(host, ConfigOf(env, p, lease));
    if wired.err.Some? then (wired.w, records, Err(ContainerSetup(wired.err.value)))
    else if storeFails || p.id in records || To4(lease.ip).None? then (wired.w, records, Err(DatastoreCreate))
    else (wired.w, records[p.id := RecordFor(env, p, lease, mac)], Ok(lease))
  }

  /** Del on the pool of the network that the container's record names. */
  function Del(env: Env, s: System, p: DelPayload, getFails: bool, deleteFails: bool, releaseFails: bool)
    : (System, Option<Error>)
  {
    if getFails || p.id !in s.records then (s, Some(DatastoreGet))
    else
      var deleted := C.Delete(s.host, p.interface, p.containerPath, VNI(env.hash, s.records[p.id].network));
      if deleted.err.Some? then (s.(host := deleted.w), Some(Deletor(deleted.err.value)))
      else if deleteFails then (s.(host := deleted.w), Some(DatastoreDelete))
      else if releaseFails then (System(s.pool, deleted.w, s.records - {p.id}), Some(Release))
      else (System(P.Release(s.pool, p.id), deleted.w, s.records - {p.id}), None)
  }

  /**
   A failed Add keeps the address it was given: unless allocation itself failed, the container holds exactly one
   more address than before, and no record names it.
   */
  lemma FailedAddKeepsItsAddress(env: Env, s: System, p: AddPayload, mac: string, storeFails: bool)
    requires env.subnet.net.Valid() && Add(env, s, p, mac, storeFails).1.Err?
    ensures var (s', r) := Add(env, s, p, mac, storeFails);
      && s'.records == s.records
      && (r.error.Allocation? <==> P.Allocate(env.subnet, s.pool, p.id).1.Err?)
      && (r.error.Allocation? ==> s'.host == s.host && s'.pool.reserved == s.pool.reserved)
      && (!r.error.Allocation? ==>
            exists key :: key !in s.pool.reserved && s'.pool.reserved == s.pool.reserved[key := p.id])
  {
    hide C.Setup, P.Allocate;
    if p.id in s.pool.reserved.Values {
      AllocateRefuses(env.subnet, s.pool, p.id);
    } else {
      P.AllocateIsFirstFit(env.subnet, s.pool, p.id);
      var (pool, leased) := P.Allocate(env.subnet, s.pool, p.id);
      if leased.Ok? {
        P.FreeIsTested(P.Gateway(env.subnet, s.pool.gateway), s.pool.reserved, leased.value.ip);
        assert ToString(leased.value.ip) !in s.pool.reserved;
      }
    }
  }

  /** On subnet 10.0.0.0/24, an Add whose container namespace cannot be opened holds 10.0.0.2 all the same. */
  lemma FailedAddHoldsSecondAddress(env: Env, p: AddPayload, mac: string)
    requires env.subnet == P.Config(IPNet([10, 0, 0, 0], 24), None, [])
    ensures var host := H.World(map[], 0, map[], map[], {}, {}, [true]);
      var (s, r) := Add(env, System(P.Fresh(env.subnet), host, map[]), p, mac, false);
      && r == Err(ContainerSetup(H.Wrapped(H.CallFailed))) && s.records == map[]
      && s.pool.reserved == map[ToString([10, 0, 0, 2]) := p.id]
  {
    hide P.Allocate, ToString, P.IsFirstFit, P.IsExhausted;
    var base, second: IP := env.subnet.net.ip, [10, 0, 0, 2];
    ValueOfFour(base);
    ValueOfFour(second);
    P.ContainsOfWholeBytes(env.subnet.net, 3, second);
    P.FirstIsTwoAboveBase(env.subnet, p.id, second);
    LeaseIsNew(env.subnet, P.Fresh(env.subnet), p.id);
  }

  /** Allocation ended in an error of a factory or of the store. */
  predicate StoreErred(r: Result<P.Lease, Error>) {
    r.Err? && r.error.Allocation? && r.error.cause in {P.ConfigFailed, P.StoreFailed, P.ReserveFailed}
  }

  /**
   What a successful Add has done, on the network of the payload's space or else the default one: the record says who
   the container is and where it can be reached, the address was free and is reserved, the lease is the configured one,
   and the container's link is up with the address and the routes, its pair's other end in the network's sandbox.
   */
  ghost predicate Connected(env: Env, p: AddPayload, mac: string, s: System, s': System, lease: P.Lease) {
    var network := if p.spaceID == "" then env.defaultNetwork else p.spaceID;
    var sandbox := SandboxName(VNI(env.hash, network));
    var end, far := H.LinkId(H.ContainerNs(p.containerPath), p.interface),
      H.LinkId(H.SandboxNs(sandbox), env.encode(p.id)[..15]);
    && p.id !in s.records && |lease.ip| == 4
    && s'.records == s.records[p.id := Container(id := p.id, ip := ToString(lease.ip), mac := mac,
         hostIP := env.hostIP, network := network, sandbox := sandbox, app := p.app)]
    && ToString(lease.ip) !in s.pool.reserved && s'.pool.reserved == s.pool.reserved[ToString(lease.ip) := p.id]
    && lease.ones == env.subnet.net.ones && lease.routes == env.subnet.routes && s'.pool.gateway == Some(lease.gateway)
    && end in s'.host.links && s'.host.links[end].up
    && s'.host.links[end].addresses == [H.Address(lease.ip, env.subnet.net.ones)]
    && SetupEffects.RoutedAs(s'.host.links[end].routes, env.subnet.routes, lease.gateway)
    && far in s'.host.links && s'.host.links[far].up && s'.host.links[far].kind == s'.host.links[end].kind
    && sandbox in s'.host.sandboxes && sandbox in s'.host.monitors
  }

  lemma AddConnects(env: Env, s: System, p: AddPayload, mac: string, storeFails: bool)
    requires env.subnet.net.Valid()
    ensures var (s', r) := Add(env, s, p, mac, storeFails);
      r.Ok? ==> Connected(env, p, mac, s, s', r.value)
  {
    hide C.Setup, P.Allocate, ToString, VNI, SetupEffects.RoutedAs;
    if Add(env, s, p, mac, storeFails).1.Ok? {
      var lease := P.Allocate(env.subnet, s.pool, p.id).1.value;
      LeaseIsNew(env.subnet, s.pool, p.id);
      I.LeaseIsConfigured(env.subnet, s.pool, p.id);
      SetupEffects.SetupEstablishes(s.host, ConfigOf(env, p, lease));
    }
  }

  lemma AllocateRefuses(cfg: P.Config, pool: P.Pool, id: string)
    requires cfg.net.Valid() && id in pool.reserved.Values
    ensures P.Allocate(cfg, pool, id) == (pool, Err(P.AlreadyOnNetwork))
  {
  }

  /**
   An Add and a Del of a container that both succeed, on a network without a sandbox, leave no trace: the
   reservations, the records, the links, the namespace files, the sandboxes and the monitors are as before.
   */
  lemma AddThenDelLeavesNoTrace(
    env: Env, s: System, p: AddPayload, mac: string, plan: seq<bool>)
    requires env.subnet.net.Valid() && SandboxSafety.Inv(s.host)
    requires SandboxName(VNI(env.hash, NetworkOf(env, p))) !in s.host.sandboxes
    requires var (s1, r) := Add(env, s, p, mac, false);
      r.Ok? && Del(env, s1.(host := s1.host.(plan := plan)), DelPayload(p.interface, p.containerPath, p.id), false,
        false, false).1.None?
    ensures var s1 := Add(env, s, p, mac, false).0;
      var s2 := Del(env, s1.(host := s1.host.(plan := plan)), DelPayload(p.interface, p.containerPath, p.id), false,
        false, false).0;
      && s2.pool.reserved == s.pool.reserved && s2.records == s.records
      && s2.host.links == s.host.links && s2.host.files == s.host.files
      && s2.host.sandboxes == s.host.sandboxes && s2.host.monitors == s.host.monitors
  {
    hide SandboxSafety.Inv, C.Setup, C.Delete, P.Allocate;
    var lease := P.Allocate(env.subnet, s.pool, p.id).1.value;
    P.AllocateThenRelease(env.subnet, s.pool, p.id);
    SetupDelete.SetupThenDelete(s.host, ConfigOf(env, p, lease), plan);
  }

  // ---------- the controllers ----------

  class Datastore {
    var records: map<string, Container>

    constructor ()
      ensures records == map[]
    {
      records := map[];
    }

    method Create(c: Container, fails: bool) returns (ok: bool)
      modifies this
      ensures ok <==> !fails && c.id !in old(records)
      ensures records == if ok then old(records)[c.id := c] else old(records)
    {
      if fails || c.id in records {
        return false;
      }
      records := records[c.id := c];
      return true;
    }

    method Get(id: string, fails: bool) returns (r: Option<Container>)
      ensures r == if fails || id !in records then None else Some(records[id])
    {
      return if fails || id !in records then None else Some(records[id]);
    }

    method Delete(id: string, fails: bool) returns (ok: bool)
      modifies this
      ensures ok <==> !fails && id in old(records)
      ensures records == if ok then old(records) - {id} else old(records)
    {
      if fails || id !in records {
        return false;
      }
      records := records - {id};
      return true;
    }
  }

  class Controller {
    const env: Env
    const allocator: I.Allocator
    const daemon: D.Daemon
    const datastore: Datastore

    ghost predicate Valid()
      reads allocator
    {
      allocator.Valid() && allocator.config == env.subnet
    }

    ghost function SystemAt(network: string): System
      reads allocator, allocator.configs.Values, allocator.stores.Values, daemon, datastore
    {
      System(allocator.PoolAt(network), daemon.State(), datastore.records)
    }

    /** Every record is backed by a reservation of its address, under its ID, on its network. */
    ghost predicate Backed()
      reads allocator, allocator.configs.Values, allocator.stores.Values, datastore
    {
      forall id :: id in datastore.records ==> IsBacked(id, datastore.records[id])
    }

    ghost predicate IsBacked(id: string, c: Container)
      reads allocator, allocator.configs.Values, allocator.stores.Values
    {
      c.ip in allocator.PoolAt(c.network).reserved && allocator.PoolAt(c.network).reserved[c.ip] == id
    }

    /** A factory or the store returns an error to an allocation that reaches it. */
    ghost predicate AllocatorErrs(network: string, id: string, f: I.Faults)
      requires Valid()
      reads allocator, allocator.configs.Values, allocator.stores.Values
    {
      || (f.config && network !in allocator.configs) || (f.store && network !in allocator.stores)
      || P.Refused(env.subnet, allocator.PoolAt(network), id, f.reserve)
    }

    /** An error of a factory changes nothing; one of the store comes after the gateway is set. */
    function AfterStoreError(cause: P.Error, pool: P.Pool): P.Pool
      requires env.subnet.net.Valid()
    {
      if cause == P.ReserveFailed then pool.(gateway := Some(P.Gateway(env.subnet, pool.gateway))) else pool
    }

    /** Every record is under its ID and names the sandbox of its network. */
    ghost predicate Named()
      reads this, datastore
    {
      forall id :: id in datastore.records ==>
        datastore.records[id].id == id
        && datastore.records[id].sandbox == SandboxName(VNI(env.hash, datastore.records[id].network))
    }

    /**
     A record answers every miss for its address in its sandbox, with its hardware address and its host, however the
     store orders its records: no other record has both. Networks are told apart by their VNI here.
     */
    lemma RecordsAnswer(t: M.Texts, cs: seq<Container>, miss: M.Neighbor, id: string)
      requires Backed() && Named() && id in datastore.records
      requires forall c :: c in cs <==> c in datastore.records.Values
      requires forall c :: c in cs && VNI(env.hash, c.network) == VNI(env.hash, datastore.records[id].network) ==>
        c.network == datastore.records[id].network
      requires Text.Base(miss.sandbox) == datastore.records[id].sandbox
      requires t.ipText(miss.neigh.ip) == datastore.records[id].ip && t.parseMAC(datastore.records[id].mac).Some?
      ensures var r := M.Resolve(t, Some(cs), miss);
        r.Some? && M.TakenFrom(t, datastore.records[id], miss, r.value)
    {
      hide M.Resolve, M.TakenFrom, VNI, SandboxName, Text.Base;
      var c := datastore.records[id];
      assert c in datastore.records.Values;
      forall d | d in cs && d.sandbox == c.sandbox && d.ip == c.ip
        ensures d == c
      {
        var other :| other in datastore.records && datastore.records[other] == d;
        SandboxNameInjective(VNI(env.hash, d.network), VNI(env.hash, c.network));
        assert IsBacked(other, d) && IsBacked(id, c);
      }
      var i := M.FirstOf(t, cs, miss, c);
      M.ResolvesExactly(t, Some(cs), miss);
    }

    /** Records and reservations that stay, stay backed; a new record has to be. */
    twostate lemma BackedStays(id: string)
      requires old(Backed())
      requires forall j :: j in datastore.records && j != id ==>
        j in old(datastore.records) && datastore.records[j] == old(datastore.records)[j]
      requires forall n, k ::
        k in old(allocator.PoolAt(n)).reserved && old(allocator.PoolAt(n)).reserved[k] != id ==>
          k in allocator.PoolAt(n).reserved && allocator.PoolAt(n).reserved[k] == old(allocator.PoolAt(n)).reserved[k]
      requires id in datastore.records ==> IsBacked(id, datastore.records[id])
      ensures Backed()
    {
      forall j | j in datastore.records
        ensures IsBacked(j, datastore.records[j])
      {
        if j != id {
          assert old(IsBacked(j, datastore.records[j]));
        }
      }
    }

    twostate lemma NamedStays(id: string)
      requires old(Named())
      requires forall j :: j in datastore.records && j != id ==>
        j in old(datastore.records) && datastore.records[j] == old(datastore.records)[j]
      requires id in datastore.records && datastore.records != old(datastore.records) ==>
        datastore.records[id].id == id
        && datastore.records[id].sandbox == SandboxName(VNI(env.hash, datastore.records[id].network))
      ensures Named()
    {
      hide VNI, SandboxName;
    }

    /** With the records as they were and no reservation gone, what was backed is. */
    twostate lemma BackedAsBefore()
      requires old(Backed()) && datastore.records == old(datastore.records)
      requires forall n, k :: k in old(allocator.PoolAt(n)).reserved ==>
        k in allocator.PoolAt(n).reserved && allocator.PoolAt(n).reserved[k] == old(allocator.PoolAt(n)).reserved[k]
      ensures Backed()
    {
      forall j | j in datastore.records
        ensures IsBacked(j, datastore.records[j])
      {
        assert old(IsBacked(j, datastore.records[j]));
      }
    }

    constructor (env: Env, allocator: I.Allocator, daemon: D.Daemon, datastore: Datastore)
      requires allocator.Valid() && allocator.config == env.subnet
      ensures Valid() && this.env == env
      ensures this.allocator == allocator && this.daemon == daemon && this.datastore == datastore
    {
      this.env, this.allocator, this.daemon, this.datastore := env, allocator, daemon, datastore;
    }

    /**
     AddController.Add: keeps every record backed and named and the sandboxes safe, wherever it stops; on success the
     container is connected.
     */
    method AddContainer(p: AddPayload, mac: string, f: I.Faults, storeFails: bool) returns (r: Result<P.Lease, Error>)
      requires Valid()
      modifies allocator, allocator.configs.Values, allocator.stores.Values, daemon, datastore
      ensures Valid()
      ensures StoreErred(r) <==> old(AllocatorErrs(NetworkOf(env, p), p.id, f))
      ensures if StoreErred(r) then
          && datastore.records == old(datastore.records) && daemon.State() == old(daemon.State())
          && allocator.PoolAt(NetworkOf(env, p)) ==
               AfterStoreError(r.error.cause, old(allocator.PoolAt(NetworkOf(env, p))))
        else (SystemAt(NetworkOf(env, p)), r) == Add(env, old(SystemAt(NetworkOf(env, p))), p, mac, storeFails)
      ensures forall n :: n != NetworkOf(env, p) ==> allocator.PoolAt(n) == old(allocator.PoolAt(n))
      ensures old(Backed()) ==> Backed()
      ensures SandboxSafety.Inv(old(daemon.State())) ==> SandboxSafety.Inv(daemon.State())
      ensures old(Named()) ==> Named()
      ensures r.Ok? ==> p.id in datastore.records && IsBacked(p.id, datastore.records[p.id])
      ensures r.Ok? ==>
        Connected(env, p, mac, old(SystemAt(NetworkOf(env, p))), SystemAt(NetworkOf(env, p)), r.value)
      ensures r.Err? ==> datastore.records == old(datastore.records)
    {
      hide Add, Backed, Named, SandboxSafety.Inv, ToString, Connected, VNI, SandboxName;
      hide P.Refused, P.Gateway, AllocatorErrs, NetworkOf, GetNetworkID, RecordFor, H.VethsIn;
      ghost var before := SystemAt(NetworkOf(env, p));
      AddEffect(env, before, p, mac, storeFails);
      AddConnects(env, before, p, mac, storeFails);
      r := RunAdd(p, mac, f, storeFails);
      if old(Named()) {
        NamedStays(p.id);
      }
      if old(Backed()) {
        if r.Ok? {
          BackedStays(p.id);
        } else {
          BackedAsBefore();
        }
      }
    }

    /** The steps of Add. */
    method RunAdd(p: AddPayload, mac: string, f: I.Faults, storeFails: bool) returns (r: Result<P.Lease, Error>)
      requires Valid()
      modifies allocator, allocator.configs.Values, allocator.stores.Values, daemon, datastore
      ensures Valid()
      ensures StoreErred(r) <==> old(AllocatorErrs(NetworkOf(env, p), p.id, f))
      ensures if StoreErred(r) then
          && datastore.records == old(datastore.records) && daemon.State() == old(daemon.State())
          && allocator.PoolAt(NetworkOf(env, p)) ==
               AfterStoreError(r.error.cause, old(allocator.PoolAt(NetworkOf(env, p))))
        else (SystemAt(NetworkOf(env, p)), r) == Add(env, old(SystemAt(NetworkOf(env, p))), p, mac, storeFails)
      ensures forall n :: n != NetworkOf(env, p) ==> allocator.PoolAt(n) == old(allocator.PoolAt(n))
    {
      hide SetUpAndRecord, P.Allocate, I.Configured, RecordFor, H.VethsIn, ToString;
      var network := GetNetworkID(p.spaceID, env.defaultNetwork);
      ghost var before := allocator.PoolAt(network);
      var leased := allocator.AllocateIP(network, p.id, f);
      if leased.Err? {
        return Err(Allocation(leased.error));
      }
      LeaseIsNew(env.subnet, before, p.id);
      r := SetUpAndRecordContainer(p, leased.value, mac, storeFails);
    }

    method SetUpAndRecordContainer(p: AddPayload, lease: P.Lease, mac: string, storeFails: bool)
      returns (r: Result<P.Lease, Error>)
      requires |lease.ip| == 4
      modifies daemon, datastore
      ensures (daemon.State(), datastore.records, r)
        == SetUpAndRecord(env, old(daemon.State()), old(datastore.records), p, lease, mac, storeFails)
      ensures !StoreErred(r)
    {
      hide C.Setup, VNI, ToString, SandboxSafety.Inv;
      var network := GetNetworkID(p.spaceID, env.defaultNetwork);
      var vni := GetVNI(env.hash, network);
      var config := C.SetupConfig(
        vni, p.containerPath, p.interface, SandboxLinkName(env.encode(p.id)), lease, env.dns);
      var err := daemon.SetupContainer(config);
      if err.Some? {
        return Err(ContainerSetup(err.value));
      }
      var record := RecordOf(p.id, lease.ip, mac, env.hostIP, network, SandboxName(vni), p.app);
      var stored := datastore.Create(record, storeFails);
      if !stored {
        return Err(DatastoreCreate);
      }
      return Ok(lease);
    }

    /**
     DelController.Del: keeps every record backed and the sandboxes safe, wherever it stops; on success the
     container has no record and, on the network of its record, no address.
     */
    method DelContainer(p: DelPayload, getFails: bool, deleteFails: bool, f: I.Faults) returns (err: Option<Error>)
      requires Valid()
      modifies allocator, allocator.stores.Values, daemon, datastore
      ensures Valid()
      ensures var network := RecordedNetwork(p.id, old(datastore.records));
        && (SystemAt(network), err) == Del(env, old(SystemAt(network)), p, getFails, deleteFails,
             f.release || (f.store && network !in old(allocator.stores)))
        && forall n :: n != network ==> allocator.PoolAt(n) == old(allocator.PoolAt(n))
      ensures old(Backed()) ==> Backed()
      ensures SandboxSafety.Inv(old(daemon.State())) ==> SandboxSafety.Inv(daemon.State())
      ensures err.None? || err.value.Release? ==>
        p.id in old(datastore.records) && datastore.records == old(datastore.records) - {p.id}
      ensures old(Named()) ==> Named()
      ensures err.None? || err.value.Release? || err.value.DatastoreDelete? ==>
        && p.id in old(datastore.records)
        && Disconnected(env, p, old(datastore.records)[p.id].network, old(daemon.State()), daemon.State())
      ensures err.None? ==>
        p.id !in allocator.PoolAt(old(datastore.records)[p.id].network).reserved.Values
    {
      hide Del, Backed, SandboxSafety.Inv, Disconnected;
      ghost var before := SystemAt(RecordedNetwork(p.id, datastore.records));
      var releaseFails := f.release || (f.store && RecordedNetwork(p.id, datastore.records) !in allocator.stores);
      DelEffect(env, before, p, getFails, deleteFails, releaseFails);
      err := RunDel(p, getFails, deleteFails, f);
      if old(Backed()) {
        if err.None? || err.value.Release? {
          BackedStays(p.id);
        } else {
          BackedAsBefore();
        }
      }
    }

    /** The steps of Del. */
    method RunDel(p: DelPayload, getFails: bool, deleteFails: bool, f: I.Faults) returns (err: Option<Error>)
      requires Valid()
      modifies allocator, allocator.stores.Values, daemon, datastore
      ensures Valid()
      ensures var network := RecordedNetwork(p.id, old(datastore.records));
        && (SystemAt(network), err) == Del(env, old(SystemAt(network)), p, getFails, deleteFails,
             f.release || (f.store && network !in old(allocator.stores)))
        && forall n :: n != network ==> allocator.PoolAt(n) == old(allocator.PoolAt(n))
    {
      hide C.Delete, VNI, SandboxSafety.Inv, P.Release, H.GoesWith;
      var record := datastore.Get(p.id, getFails);
      if record.None? {
        return Some(DatastoreGet);
      }
      var network := record.value.network;
      var vni := GetVNI(env.hash, network);
      var failed := daemon.DeleteContainer(p.interface, p.containerPath, vni);
      if failed.Some? {
        return Some(Deletor(failed.value));
      }
      err := ForgetContainer(network, p.id, deleteFails, f);
    }

    /** The record goes first, then the addresses. */
    method ForgetContainer(network: string, id: string, deleteFails: bool, f: I.Faults) returns (err: Option<Error>)
      requires Valid() && id in datastore.records
      modifies allocator`stores, allocator.stores.Values, datastore
      ensures Valid()
      ensures err == if deleteFails then Some(DatastoreDelete)
        else if f.release || (f.store && network !in old(allocator.stores)) then Some(Release) else None
      ensures datastore.records == if deleteFails then old(datastore.records) else old(datastore.records) - {id}
      ensures err.None? ==> allocator.PoolAt(network) == P.Release(old(allocator.PoolAt(network)), id)
      ensures forall n :: err.Some? || n != network ==> allocator.PoolAt(n) == old(allocator.PoolAt(n))
    {
      hide P.Release;
      var gone := datastore.Delete(id, deleteFails);
      if !gone {
        return Some(DatastoreDelete);
      }
      var released := allocator.ReleaseIP(network, id, f);
      return if released then None else Some(Release);
    }

    /** The network that a container's record names; without a record, Del changes no network. */
    function RecordedNetwork(id: string, records: map<string, Container>): string {
      if id in records then records[id].network else env.defaultNetwork
    }
  }

  /** What an Add does to reservations, records and the sandboxes' safety, on success and on failure. */
  lemma AddEffect(env: Env, s: System, p: AddPayload, mac: string, storeFails: bool)
    requires env.subnet.net.Valid()
    ensures var (s', r) := Add(env, s, p, mac, storeFails);
      && (SandboxSafety.Inv(s.host) ==> SandboxSafety.Inv(s'.host))
      && (forall k :: k in s.pool.reserved ==> k in s'.pool.reserved && s'.pool.reserved[k] == s.pool.reserved[k])
      && (r.Err? ==> s'.records == s.records)
      && (r.Ok? ==>
            && |r.value.ip| == 4 && p.id in s'.records && s'.records == s.records[p.id := s'.records[p.id]]
            && s'.records[p.id].id == p.id && s'.records[p.id].ip == ToString(r.value.ip)
            && s'.records[p.id].network == NetworkOf(env, p)
            && s'.records[p.id].sandbox == SandboxName(VNI(env.hash, NetworkOf(env, p)))
            && ToString(r.value.ip) !in s.pool.reserved
            && s'.pool.reserved == s.pool.reserved[ToString(r.value.ip) := p.id])
  {
    hide C.Setup, P.Allocate, SandboxSafety.Inv, ToString;
    var leased := P.Allocate(env.subnet, s.pool, p.id).1;
    if leased.Ok? {
      LeaseIsNew(env.subnet, s.pool, p.id);
      if SandboxSafety.Inv(s.host) {
        SandboxSafety.SetupKeeps(s.host, ConfigOf(env, p, leased.value));
      }
    } else {
      ErrorKeepsReservations(env.subnet, s.pool, p.id);
    }
  }

  /**
   The container's link is gone, and of the sandbox of its network no more is left than the veths in it need: it is
   registered still exactly if it was and there are some.
   */
  ghost predicate Disconnected(env: Env, p: DelPayload, network: string, w: H.World, w': H.World) {
    var end := H.LinkId(H.ContainerNs(p.containerPath), p.interface);
    var sandbox := SandboxName(VNI(env.hash, network));
    && end in w.links && end !in w'.links
    && (sandbox in w'.sandboxes <==> sandbox in w.sandboxes && H.VethsIn(w'.links, H.SandboxNs(sandbox)) != {})
  }

  /** The same for a Del. */
  lemma DelEffect(env: Env, s: System, p: DelPayload, getFails: bool, deleteFails: bool, releaseFails: bool)
    ensures var (s', err) := Del(env, s, p, getFails, deleteFails, releaseFails);
      && (SandboxSafety.Inv(s.host) ==> SandboxSafety.Inv(s'.host))
      && (if err.None? || err.value.Release? then p.id in s.records && s'.records == s.records - {p.id}
          else s'.records == s.records)
      && (err.None? || err.value.Release? || err.value.DatastoreDelete? ==>
            p.id in s.records && Disconnected(env, p, s.records[p.id].network, s.host, s'.host))
      && s'.pool == (if err.None? then P.Release(s.pool, p.id) else s.pool)
      && p.id !in P.Release(s.pool, p.id).reserved.Values
      && forall k :: k in s.pool.reserved && s.pool.reserved[k] != p.id ==>
           k in P.Release(s.pool, p.id).reserved && P.Release(s.pool, p.id).reserved[k] == s.pool.reserved[k]
  {
    hide C.Delete, SandboxSafety.Inv, VNI, SandboxName, H.VethsIn;
    if p.id in s.records {
      var vni := VNI(env.hash, s.records[p.id].network);
      if SandboxSafety.Inv(s.host) {
        SandboxSafety.DeleteKeeps(s.host, p.interface, p.containerPath, vni);
      }
      if C.Delete(s.host, p.interface, p.containerPath, vni).Ok() {
        SetupDelete.DeleteTakesThePair(s.host, p.interface, p.containerPath, vni);
      }
    }
  }

  lemma ErrorKeepsReservations(cfg: P.Config, pool: P.Pool, id: string)
    requires cfg.net.Valid() && P.Allocate(cfg, pool, id).1.Err?
    ensures P.Allocate(cfg, pool, id).0.reserved == pool.reserved
  {
  }

  /** A leased address has four bytes and was free, and is the one reservation added. */
  lemma LeaseIsNew(cfg: P.Config, pool: P.Pool, id: string)
    requires cfg.net.Valid() && P.Allocate(cfg, pool, id).1.Ok?
    ensures var (q, r) := P.Allocate(cfg, pool, id);
      && |r.value.ip| == 4 && ToString(r.value.ip) !in pool.reserved
      && q.reserved == pool.reserved[ToString(r.value.ip) := id]
  {
    hide P.Allocate, ToString;
    if id in pool.reserved.Values {
      AllocateRefuses(cfg, pool, id);
    } else {
      P.AllocateIsFirstFit(cfg, pool, id);
      P.FreeIsTested(P.Gateway(cfg, pool.gateway), pool.reserved, P.Allocate(cfg, pool, id).1.value.ip);
    }
  }
}
