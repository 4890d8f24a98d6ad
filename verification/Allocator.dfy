/** The IP allocator: one configuration and one store per network, made on first use. */
module Allocator {
  import opened Wrappers
  import opened Ipv4
  import opened AddressPool
  import opened MemoryStore

  /** A network's types.IPConfig; only the gateway changes. */
  class NetworkConfig {
    var gateway: Option<IP>

    constructor (cfg: Config)
      ensures gateway == cfg.gateway
    {
      gateway := cfg.gateway;
    }
  }

  /** Where AllocateIP starts its loop: at the base, or at the gateway it has just computed. */
  lemma ScanStart(cfg: Config, p: Pool)
    requires cfg.net.Valid()
    ensures var gateway := Gateway(cfg, p.gateway);
      ScanPosition(cfg.net, gateway, p.reserved, if p.gateway.None? then gateway else cfg.net.ip)
  {
    hide Key, FromValue, NextIP, Contains, Shl, Shr;
    NextIPExact(cfg.net.ip);
    ContainsIsInterval(cfg.net, 0);
    ValueOfFour(To4(cfg.net.ip).value);
  }

  /** Which of the calls out of the allocator return an error; Reserve may on some addresses. */
  datatype Faults = Faults(config: bool, store: bool, reserve: IP -> bool, release: bool)

  /** The store returns an error on no address that the scan has tried so far. */
  ghost predicate NoneRefused(
    net: IPNet, gateway: IP, reserved: map<string, string>, refuses: IP -> bool, ip: IP)
    requires net.Valid()
  {
    forall v: nat :: Attempted(net, gateway, reserved, v) && To4(ip).Some? && v <= Value(To4(ip).value) ==>
      !refuses(FromValue(v))
  }

  /** The loop of AllocateIP: try the addresses after `start` one by one until one can be reserved. */
  method Scan(net: IPNet, gateway: IP, store: InMemoryStore, refuses: IP -> bool, id: string, start: IP)
    returns (r: Result<IP, Error>)
    requires net.Valid() && ScanPosition(net, gateway, store.reserved, start)
    requires NoneRefused(net, gateway, store.reserved, refuses, start)
    modifies store
    ensures r == Err(ReserveFailed) <==>
      exists v: nat :: Attempted(net, gateway, old(store.reserved), v) && refuses(FromValue(v))
    ensures r.Err? ==> store.reserved == old(store.reserved)
    ensures r != Err(ReserveFailed) ==>
      match LeastFree(net, gateway, old(store.reserved), net.Base())
      case Some(v) => r == Ok(FromValue(v)) && store.reserved == old(store.reserved)[Key(v) := id]
      case None => r == Err(NoMoreAddresses)
  {
    hide Key, FromValue, NextIP, Free, Value;
    var ip := start;
    ghost var reserved := store.reserved;
    while true
      invariant store.reserved == reserved && ScanPosition(net, gateway, reserved, ip)
      invariant NoneRefused(net, gateway, reserved, refuses, ip)
      decreases Remaining(net, ip)
    {
      var next := NextIP(ip);
      ScanAdvance(net, ip);
      if !Contains(net, next) {
        ScanEnds(net, gateway, reserved, ip);
        NoneRefusedAtAll(net, gateway, reserved, refuses, ip);
        return Err(NoMoreAddresses);
      }
      ScanMeets(net, gateway, reserved, ip);
      FreeIsTested(gateway, reserved, next);
      AttemptedNext(net, gateway, reserved, ip);
      ip := next;
      if Equal(gateway, ip) {
        continue;
      }
      if refuses(ip) {
        return Err(ReserveFailed);
      }
      var ok := store.Reserve(id, ip, ToString(ip));
      if ok {
        return Ok(ip);
      }
    }
  }

  /** A scan that has reached the top has tried everything it ever would. */
  lemma NoneRefusedAtAll(net: IPNet, gateway: IP, reserved: map<string, string>, refuses: IP -> bool, ip: IP)
    requires net.Valid() && ScanPosition(net, gateway, reserved, ip) && !Contains(net, NextIP(ip))
    requires NoneRefused(net, gateway, reserved, refuses, ip)
    ensures forall v: nat :: Attempted(net, gateway, reserved, v) ==> !refuses(FromValue(v))
  {
    hide Key, FromValue, NextIP, Free, Value;
    ScanAdvance(net, ip);
  }

  /** From a position of the scan, the next address is tried unless it is the gateway. */
  lemma AttemptedNext(net: IPNet, gateway: IP, reserved: map<string, string>, ip: IP)
    requires net.Valid() && ScanPosition(net, gateway, reserved, ip) && Contains(net, NextIP(ip))
    ensures var next := NextIP(ip);
      && |next| == 4 && Value(next) < SPACE && FromValue(Value(next)) == next && To4(ip).Some?
      && Value(next) == Value(To4(ip).value) + 1
      && (Attempted(net, gateway, reserved, Value(next)) <==> !Equal(gateway, next))
  {
    hide Key, FromValue, NextIP, Free, Value;
    ScanAdvance(net, ip);
    EqualIsSameV4(gateway, NextIP(ip));
    FreeIsTested(gateway, reserved, NextIP(ip));
  }

  /** AllocateIP once it has its network's configuration and store. */
  method AllocateFrom(cfg: Config, c: NetworkConfig, store: InMemoryStore, refuses: IP -> bool, id: string)
    returns (r: Result<Lease, Error>)
    requires cfg.net.Valid()
    modifies c, store
    ensures r == Err(ReserveFailed) <==> Refused(cfg, old(Pool(c.gateway, store.reserved)), id, refuses)
    ensures r == Err(ReserveFailed) ==>
      c.gateway == Some(Gateway(cfg, old(c.gateway))) && store.reserved == old(store.reserved)
    ensures r != Err(ReserveFailed) ==>
      (Pool(c.gateway, store.reserved), r) == Allocate(cfg, old(Pool(c.gateway, store.reserved)), id)
  {
    ghost var p := Pool(c.gateway, store.reserved);
    var present := store.Contains(id);
    if present {
      return Err(AlreadyOnNetwork);
    }
    var ip := cfg.net.ip;
    if c.gateway.None? {
      ip := NextIP(ip);
      c.gateway := Some(ip);
    }
    ScanStart(cfg, p);
    StartTriesNothing(cfg, p, refuses);
    var found := Scan(cfg.net, c.gateway.value, store, refuses, id, ip);
    if found.Err? {
      return Err(found.error);
    }
    return Ok(Lease(found.value, cfg.net.ones, c.gateway.value, cfg.routes));
  }

  /** Nothing up to where the loop starts is tried: there is at most the gateway. */
  lemma StartTriesNothing(cfg: Config, p: Pool, refuses: IP -> bool)
    requires cfg.net.Valid()
    ensures var gateway := Gateway(cfg, p.gateway);
      NoneRefused(cfg.net, gateway, p.reserved, refuses, if p.gateway.None? then gateway else cfg.net.ip)
  {
    hide Key, FromValue, NextIP, Free, Value;
    NextIPExact(cfg.net.ip);
    ValueOfFour(To4(cfg.net.ip).value);
  }

  class Allocator {
    /** What the configuration factory returns for every network. */
    const config: Config
    var configs: map<string, NetworkConfig>
    var stores: map<string, InMemoryStore>

    /** No two networks share a configuration or a store. */
    ghost predicate Valid()
      reads this
    {
      && config.net.Valid()
      && (forall m, n :: m in configs && n in configs && configs[m] == configs[n] ==> m == n)
      && (forall m, n :: m in stores && n in stores && stores[m] == stores[n] ==> m == n)
    }

    ghost function PoolAt(network: string): Pool
      reads this, configs.Values, stores.Values
    {
      Pool(
        if network in configs then configs[network].gateway else config.gateway,
        if network in stores then stores[network].reserved else map[])
    }

    constructor (cfg: Config)
      requires cfg.net.Valid()
      ensures Valid() && config == cfg && configs == map[] && stores == map[]
      ensures forall n :: PoolAt(n) == Fresh(cfg)
    {
      config := cfg;
      configs := map[];
      stores := map[];
    }

    method GetConfig(network: string, fails: bool) returns (c: Option<NetworkConfig>)
      requires Valid()
      modifies this`configs
      ensures Valid()
      ensures c.None? <==> fails && network !in old(configs)
      ensures if c.Some? then network in configs && configs[network] == c.value else configs == old(configs)
      ensures forall n :: PoolAt(n) == old(PoolAt(n))
      ensures fresh(configs.Values - old(configs.Values))
    {
      if network in configs {
        return Some(configs[network]);
      }
      if fails {
        return None;
      }
      var created := new NetworkConfig(config);
      configs := configs[network := created];
      return Some(created);
    }

    method GetStore(network: string, fails: bool) returns (s: Option<InMemoryStore>)
      requires Valid()
      modifies this`stores
      ensures Valid()
      ensures s.None? <==> fails && network !in old(stores)
      ensures if s.Some? then network in stores && stores[network] == s.value else stores == old(stores)
      ensures forall n :: PoolAt(n) == old(PoolAt(n))
      ensures fresh(stores.Values - old(stores.Values))
    {
      if network in stores {
        return Some(stores[network]);
      }
      if fails {
        return None;
      }
      var created := new InMemoryStore();
      stores := stores[network := created];
      return Some(created);
    }

    /** An error of a factory changes nothing; one of the store leaves at most the gateway set. */
    method AllocateIP(network: string, id: string, f: Faults) returns (r: Result<Lease, Error>)
      requires Valid()
      modifies this`configs, this`stores, configs.Values, stores.Values
      ensures Valid()
      ensures r == Err(ConfigFailed) <==> f.config && network !in old(configs)
      ensures r == Err(StoreFailed) <==> !(f.config && network !in old(configs)) && f.store && network !in old(stores)
      ensures r == Err(ConfigFailed) || r == Err(StoreFailed) ==> PoolAt(network) == old(PoolAt(network))
      ensures r == Err(ReserveFailed) ==>
        && Refused(config, old(PoolAt(network)), id, f.reserve)
        && PoolAt(network) == old(PoolAt(network)).(gateway := Some(Gateway(config, old(PoolAt(network)).gateway)))
      ensures r !in {Err(ConfigFailed), Err(StoreFailed), Err(ReserveFailed)} ==>
        && !Refused(config, old(PoolAt(network)), id, f.reserve)
        && (PoolAt(network), r) == Allocate(config, old(PoolAt(network)), id)
      ensures r.Ok? ==> Configured(config, PoolAt(network), r.value)
      ensures forall n :: n != network ==> PoolAt(n) == old(PoolAt(n))
    {
      hide Allocate, Refused, Gateway, Configured;
      var c := GetConfig(network, f.config);
      if c.None? {
        return Err(ConfigFailed);
      }
      var store := GetStore(network, f.store);
      if store.None? {
        return Err(StoreFailed);
      }
      r := AllocateFrom(config, c.value, store.value, f.reserve, id);
      AllocateErrors(config, old(PoolAt(network)), id);
      LeaseIsConfigured(config, old(PoolAt(network)), id);
    }

    method ReleaseIP(network: string, id: string, f: Faults) returns (ok: bool)
      requires Valid()
      modifies this`stores, stores.Values
      ensures Valid()
      ensures ok <==> !f.release && !(f.store && network !in old(stores))
      ensures PoolAt(network) == if ok then Release(old(PoolAt(network)), id) else old(PoolAt(network))
      ensures forall n :: n != network ==> PoolAt(n) == old(PoolAt(n))
    {
      var store := GetStore(network, f.store);
      if store.None? || f.release {
        return false;
      }
      store.value.ReleaseByID(id);
      return true;
    }
  }

  /** An address of the subnet, with the subnet's prefix, the network's gateway and the configured routes. */
  predicate Configured(cfg: Config, p: Pool, lease: Lease) {
    && |lease.ip| == 4 && cfg.net.Valid() && Contains(cfg.net, lease.ip)
    && p.gateway.Some? && lease == Lease(lease.ip, cfg.net.ones, p.gateway.value, cfg.routes)
  }

  lemma LeaseIsConfigured(cfg: Config, p: Pool, id: string)
    requires cfg.net.Valid()
    ensures var (q, r) := Allocate(cfg, p, id); r.Ok? ==> Configured(cfg, q, r.value)
  {
    hide Contains, Reserve;
    if Allocate(cfg, p, id).1.Ok? {
      AllocateIsFirstFit(cfg, p, id);
    }
  }

  /** The specification's own errors are the allocator's two. */
  lemma AllocateErrors(cfg: Config, p: Pool, id: string)
    requires cfg.net.Valid()
    ensures var r := Allocate(cfg, p, id).1;
      r.Err? ==> r.error == AlreadyOnNetwork || r.error == NoMoreAddresses
  {
  }
}
