/**
 What the allocator does to one network's gateway and reservations, as functions, and what that guarantees.
 */
module AddressPool {
  import opened Wrappers
  import opened Ipv4

  const SPACE: nat := 0x1_0000_0000

  datatype Route = Route(destination: IPNet, gateway: Option<IP>)

  /** types.IPConfig as the configuration factory hands it out: `gateway` is None for Go's nil. */
  datatype Config = Config(net: IPNet, gateway: Option<IP>, routes: seq<Route>)

  /** types.Result for an allocated address. */
  datatype Lease = Lease(ip: IP, ones: nat, gateway: IP, routes: seq<Route>)

  /** The last three are errors of the configuration factory, the store factory and a store. */
  datatype Error = AlreadyOnNetwork | NoMoreAddresses | ConfigFailed | StoreFailed | ReserveFailed

  /** One network: its gateway once it has one, and which container ID holds which address text. */
  datatype Pool = Pool(gateway: Option<IP>, reserved: map<string, string>)

  function Fresh(cfg: Config): Pool {
    Pool(cfg.gateway, map[])
  }

  /** The gateway in force once a call has passed the gateway check. */
  function Gateway(cfg: Config, gateway: Option<IP>): IP {
    if gateway.Some? then gateway.value else NextIP(cfg.net.ip)
  }

  /**
   The last number a scan can reach. A base whose successor starts with a zero octet has a successor of fewer
   than four bytes, so its scan reaches nothing.
   */
  function Top(net: IPNet): nat
    requires net.Valid()
  {
    if net.Base() + 1 < 0x100_0000 then net.Base() else net.High()
  }

  predicate Free(gateway: IP, reserved: map<string, string>, v: nat) {
    v < SPACE && Key(v) !in reserved && To4(gateway) != Some(FromValue(v))
  }

  predicate IsFirstFit(net: IPNet, gateway: IP, reserved: map<string, string>, v: nat)
    requires net.Valid()
  {
    && net.Base() < v <= Top(net)
    && Free(gateway, reserved, v)
    && forall u :: net.Base() < u < v ==> !Free(gateway, reserved, u)
  }

  predicate IsExhausted(net: IPNet, gateway: IP, reserved: map<string, string>)
    requires net.Valid()
  {
    forall u :: net.Base() < u <= Top(net) ==> !Free(gateway, reserved, u)
  }

  // ---------- the scan ----------

  /** A position of the scan loop: everything between the base and here has been found taken. */
  predicate ScanPosition(net: IPNet, gateway: IP, reserved: map<string, string>, ip: IP)
    requires net.Valid()
  {
    if To4(ip).Some? then
      && net.Base() <= Value(To4(ip).value)
      && (Value(To4(ip).value) == net.Base() || net.Base() + 1 >= 0x100_0000)
      && forall u :: net.Base() < u <= Value(To4(ip).value) ==> !Free(gateway, reserved, u)
    else
      Top(net) == net.Base()
  }

  /** What is left to scan. */
  function Remaining(net: IPNet, ip: IP): nat
    requires net.Valid()
  {
    if To4(ip).None? || Value(To4(ip).value) > net.High() then 0 else net.High() + 1 - Value(To4(ip).value)
  }

  /**
   One turn of the loop: the successor is in the subnet exactly when the scan has not reached the top, it is
   then the next number in four bytes, and less remains to be scanned.
   */
  lemma ScanAdvance(net: IPNet, ip: IP)
    requires net.Valid()
    requires To4(ip).Some? ==> net.Base() <= Value(To4(ip).value)
    ensures var next := NextIP(ip);
      if Contains(net, next) then
        && To4(ip).Some? && |next| == 4 && Value(next) == Value(To4(ip).value) + 1
        && Value(next) <= net.High() && 0x100_0000 <= Value(next)
        && Remaining(net, next) < Remaining(net, ip)
      else
        To4(ip).Some? ==> net.High() <= Value(To4(ip).value) || Value(To4(ip).value) + 1 < 0x100_0000
  {
    hide NextIP, Value, FromValue, Shr, Shl;
    if To4(ip).None? {
      NextIPOfOddLength(ip);
    } else {
      NextIPExact(ip);
      var n := Value(To4(ip).value) + 1;
      ValueOfFour(To4(ip).value);
      ContainsIsInterval(net, if n < SPACE then n else 0);
    }
  }

  /** The least free number above v, as a search over numbers. */
  function LeastFree(net: IPNet, gateway: IP, reserved: map<string, string>, v: nat): (r: Option<nat>)
    requires net.Valid()
    ensures r.Some? ==> r.value < SPACE
    decreases Top(net) - v
  {
    if v >= Top(net) then None
    else if Free(gateway, reserved, v + 1) then Some(v + 1)
    else LeastFree(net, gateway, reserved, v + 1)
  }

  lemma {:induction false} LeastFreeFinds(net: IPNet, gateway: IP, reserved: map<string, string>, v: nat)
    requires net.Valid() && net.Base() <= v
    requires forall u :: net.Base() < u <= v ==> !Free(gateway, reserved, u)
    ensures match LeastFree(net, gateway, reserved, v)
      case Some(w) => IsFirstFit(net, gateway, reserved, w)
      case None => IsExhausted(net, gateway, reserved)
    decreases Top(net) - v
  {
    hide Free, Top;
    if v < Top(net) && !Free(gateway, reserved, v + 1) {
      LeastFreeFinds(net, gateway, reserved, v + 1);
    }
  }

  lemma {:induction false} LeastFreeIs(net: IPNet, gateway: IP, reserved: map<string, string>, v: nat, w: nat)
    requires net.Valid() && net.Base() <= v < w && IsFirstFit(net, gateway, reserved, w)
    ensures LeastFree(net, gateway, reserved, v) == Some(w)
    decreases w - v
  {
    hide Free, Top;
    if v + 1 < w {
      LeastFreeIs(net, gateway, reserved, v + 1, w);
    }
  }

  /** The loop's own tests of an address decide whether its number is free. */
  lemma FreeIsTested(gateway: IP, reserved: map<string, string>, ip: IP)
    requires |ip| == 4
    ensures Value(ip) < SPACE && FromValue(Value(ip)) == ip && Key(Value(ip)) == ToString(ip)
    ensures Free(gateway, reserved, Value(ip)) <==> !Equal(gateway, ip) && ToString(ip) !in reserved
  {
    EqualIsSameV4(gateway, ip);
    FromValueOfValue(ip);
  }

  /** A scan that has reached the top has found nothing. */
  lemma ScanEnds(net: IPNet, gateway: IP, reserved: map<string, string>, ip: IP)
    requires net.Valid() && ScanPosition(net, gateway, reserved, ip) && !Contains(net, NextIP(ip))
    ensures LeastFree(net, gateway, reserved, net.Base()) == None
  {
    ScanAdvance(net, ip);
    LeastFreeFinds(net, gateway, reserved, net.Base());
  }

  /** A scan that meets a free address has met the least one; otherwise it goes on from there. */
  lemma ScanMeets(net: IPNet, gateway: IP, reserved: map<string, string>, ip: IP)
    requires net.Valid() && ScanPosition(net, gateway, reserved, ip) && Contains(net, NextIP(ip))
    ensures var next := NextIP(ip);
      && |next| == 4
      && if Free(gateway, reserved, Value(next))
         then LeastFree(net, gateway, reserved, net.Base()) == Some(Value(next))
         else ScanPosition(net, gateway, reserved, next)
  {
    hide Key, FromValue, NextIP;
    ScanAdvance(net, ip);
    var v := Value(NextIP(ip));
    if Free(gateway, reserved, v) {
      assert IsFirstFit(net, gateway, reserved, v);
      LeastFreeIs(net, gateway, reserved, net.Base(), v);
    }
  }

  // ---------- allocation and release ----------

  function Reserve(cfg: Config, p: Pool, id: string): (Pool, Result<Lease, Error>)
    requires cfg.net.Valid()
  {
    var gateway := Gateway(cfg, p.gateway);
    match LeastFree(cfg.net, gateway, p.reserved, cfg.net.Base())
    case None => (p.(gateway := Some(gateway)), Err(NoMoreAddresses))
    case Some(v) =>
      (Pool(Some(gateway), p.reserved[Key(v) := id]), Ok(Lease(FromValue(v), cfg.net.ones, gateway, cfg.routes)))
  }

  /** The scan tries to reserve v: it is not the gateway, and nothing before it was free. */
  predicate Attempted(net: IPNet, gateway: IP, reserved: map<string, string>, v: nat)
    requires net.Valid()
  {
    && net.Base() < v <= Top(net) && v < SPACE && To4(gateway) != Some(FromValue(v))
    && forall u :: net.Base() < u < v ==> !Free(gateway, reserved, u)
  }

  /** A store that returns an error on some addresses does so on one the scan tries. */
  ghost predicate Refused(cfg: Config, p: Pool, id: string, refuses: IP -> bool)
    requires cfg.net.Valid()
  {
    && id !in p.reserved.Values
    && exists v: nat :: Attempted(cfg.net, Gateway(cfg, p.gateway), p.reserved, v) && refuses(FromValue(v))
  }

  /** AllocateIP on one network. */
  function Allocate(cfg: Config, p: Pool, id: string): (Pool, Result<Lease, Error>)
    requires cfg.net.Valid()
  {
    if id in p.reserved.Values then (p, Err(AlreadyOnNetwork)) else Reserve(cfg, p, id)
  }

  function Released(reserved: map<string, string>, id: string): map<string, string> {
    map k | k in reserved && reserved[k] != id :: reserved[k]
  }

  /** ReleaseIP on one network. */
  function Release(p: Pool, id: string): Pool {
    p.(reserved := Released(p.reserved, id))
  }

  /**
   An ID that is not on the network gets the least address above the base that is in the subnet, not the
   gateway and not reserved, with the subnet's prefix, the gateway, which is the address after the base unless one was
   set, and the configured routes; it is refused exactly when there is none.
   */
  lemma AllocateIsFirstFit(cfg: Config, p: Pool, id: string)
    requires cfg.net.Valid() && id !in p.reserved.Values
    ensures var gateway := Gateway(cfg, p.gateway);
      var (q, r) := Allocate(cfg, p, id);
      && q.gateway == Some(gateway) && gateway == (if p.gateway.Some? then p.gateway.value else NextIP(cfg.net.ip))
      && (r.Ok? ==>
            && |r.value.ip| == 4 && Contains(cfg.net, r.value.ip)
            && r.value == Lease(r.value.ip, cfg.net.ones, gateway, cfg.routes)
            && IsFirstFit(cfg.net, gateway, p.reserved, Value(r.value.ip))
            && q.reserved == p.reserved[ToString(r.value.ip) := id])
      && (r.Err? ==> r.error == NoMoreAddresses && q.reserved == p.reserved)
      && (r.Err? <==> IsExhausted(cfg.net, gateway, p.reserved))
  {
    var gateway := Gateway(cfg, p.gateway);
    LeastFreeFinds(cfg.net, gateway, p.reserved, cfg.net.Base());
    var found := LeastFree(cfg.net, gateway, p.reserved, cfg.net.Base());
    if found.Some? {
      ContainsIsInterval(cfg.net, found.value);
    }
  }

  /** What a call may not hand out. */
  predicate Taken(gateway: IP, reserved: map<string, string>, ip: IP)
    requires |ip| == 4
  {
    Equal(gateway, ip) || ToString(ip) in reserved
  }

  /**
   The same of addresses as bytes: the address handed out is in the subnet, above the base and not taken, and all
   between are taken. A call is refused exactly when every address of the subnet above the base is taken, or the base's
   successor starts with a zero octet.
   */
  lemma AllocateByAddresses(cfg: Config, p: Pool, id: string)
    requires cfg.net.Valid() && id !in p.reserved.Values
    ensures var r := Allocate(cfg, p, id).1;
      var gateway := if p.gateway.Some? then p.gateway.value else NextIP(cfg.net.ip);
      && (r.Ok? ==>
            && |r.value.ip| == 4 && Contains(cfg.net, r.value.ip) && cfg.net.Base() < Value(r.value.ip)
            && !Taken(gateway, p.reserved, r.value.ip)
            && forall ip: IP :: |ip| == 4 && cfg.net.Base() < Value(ip) < Value(r.value.ip) ==>
                 Taken(gateway, p.reserved, ip))
      && (r.Err? <==>
            || cfg.net.Base() + 1 < 0x100_0000
            || forall ip: IP :: |ip| == 4 && Contains(cfg.net, ip) && cfg.net.Base() < Value(ip) ==>
                 Taken(gateway, p.reserved, ip))
  {
    hide Allocate, Contains, Value, FromValue, ToString, Free, Equal, NextIP, Shr, Shl;
    var gateway := Gateway(cfg, p.gateway);
    AllocateIsFirstFit(cfg, p, id);
    var r := Allocate(cfg, p, id).1;
    forall ip: IP | |ip| == 4
      ensures Value(ip) < SPACE && (Free(gateway, p.reserved, Value(ip)) <==> !Taken(gateway, p.reserved, ip))
      ensures Contains(cfg.net, ip) ==> Value(ip) <= cfg.net.High()
    {
      FreeIsTested(gateway, p.reserved, ip);
      ContainsIsInterval(cfg.net, Value(ip));
    }
    if r.Err? && cfg.net.Base() + 1 >= 0x100_0000 {
      assert Top(cfg.net) == cfg.net.High();
    }
  }

  /** Releasing right after a successful allocation restores the reservations exactly. */
  lemma AllocateThenRelease(cfg: Config, p: Pool, id: string)
    requires cfg.net.Valid() && Allocate(cfg, p, id).1.Ok?
    ensures Release(Allocate(cfg, p, id).0, id).reserved == p.reserved
  {
    AllocateIsFirstFit(cfg, p, id);
    var q := Allocate(cfg, p, id).0;
    forall k | k in p.reserved
      ensures p.reserved[k] != id
    {
      assert p.reserved[k] in p.reserved.Values;
    }
    assert Released(q.reserved, id) == p.reserved;
  }

  // ---------- what every pool keeps ----------

  /** Every reservation is the text of an address above the base, in the subnet, and not the gateway. */
  ghost predicate InRange(cfg: Config, p: Pool)
    requires cfg.net.Valid()
  {
    && (cfg.gateway.Some? ==> p.gateway == cfg.gateway)
    && (p.gateway.Some? ==> p.gateway.value == Gateway(cfg, cfg.gateway))
    && (p.reserved != map[] ==> p.gateway.Some?)
    && forall k :: k in p.reserved ==> exists v :: AddressOf(cfg, k, v)
  }

  ghost predicate AddressOf(cfg: Config, key: string, v: nat)
    requires cfg.net.Valid()
  {
    && cfg.net.Base() < v <= Top(cfg.net) && v < SPACE
    && key == Key(v) && To4(Gateway(cfg, cfg.gateway)) != Some(FromValue(v))
  }

  predicate OnePerID(reserved: map<string, string>) {
    forall j, k :: j in reserved && k in reserved && reserved[j] == reserved[k] ==> j == k
  }

  lemma AllocateKeeps(cfg: Config, p: Pool, id: string)
    requires cfg.net.Valid() && InRange(cfg, p) && OnePerID(p.reserved)
    ensures InRange(cfg, Allocate(cfg, p, id).0) && OnePerID(Allocate(cfg, p, id).0.reserved)
  {
    hide Key, FromValue, ToString, Contains, Reserve;
    if id !in p.reserved.Values {
      AllocateIsFirstFit(cfg, p, id);
      var (q, r) := Allocate(cfg, p, id);
      if r.Ok? {
        KeyOfValue(r.value.ip);
        FromValueOfValue(r.value.ip);
        assert AddressOf(cfg, ToString(r.value.ip), Value(r.value.ip));
        forall k | k in p.reserved
          ensures p.reserved[k] != id
        {
          assert p.reserved[k] in p.reserved.Values;
        }
      }
    }
  }

  lemma ReleaseKeeps(cfg: Config, p: Pool, id: string)
    requires cfg.net.Valid() && InRange(cfg, p) && OnePerID(p.reserved)
    ensures InRange(cfg, Release(p, id)) && OnePerID(Release(p, id).reserved)
    ensures id !in Release(p, id).reserved.Values
  {
  }

  // ---------- the overlay ----------

  function Range(lo: nat, hi: nat): (s: set<nat>)
    ensures forall v :: v in s <==> lo < v <= hi
  {
    if lo >= hi then {} else Range(lo, hi - 1) + {hi}
  }

  /** The numbers that can ever be reserved. */
  ghost function Reservable(cfg: Config): (s: set<nat>)
    requires cfg.net.Valid()
    ensures forall v :: v in s <==> cfg.net.Base() < v <= Top(cfg.net) && v < SPACE
                                    && To4(Gateway(cfg, cfg.gateway)) != Some(FromValue(v))
  {
    set v | v in Range(cfg.net.Base(), Top(cfg.net)) && v < SPACE
            && To4(Gateway(cfg, cfg.gateway)) != Some(FromValue(v))
  }

  /** The last number that can be reserved, or the base if there is none. */
  function LastReservable(cfg: Config): (v: nat)
    requires cfg.net.Valid()
    ensures v < SPACE && cfg.net.Base() <= v <= Top(cfg.net)
  {
    ContainsIsInterval(cfg.net, 0);
    var top := Top(cfg.net);
    if top > cfg.net.Base() && To4(Gateway(cfg, cfg.gateway)) == Some(FromValue(top)) then top - 1 else top
  }

  lemma LastIsReservable(cfg: Config)
    requires cfg.net.Valid()
    ensures forall v :: v in Reservable(cfg) ==> v <= LastReservable(cfg)
    ensures LastReservable(cfg) > cfg.net.Base() ==> LastReservable(cfg) in Reservable(cfg)
  {
    hide To4, NextIP, Gateway;
    ContainsIsInterval(cfg.net, 0);
    var top := Top(cfg.net);
    assert top > 0 ==> Value(FromValue(top - 1)) != Value(FromValue(top));
  }

  /**
   The start-up check asks only for the base. With it, everything that can be reserved lies in the overlay exactly
   when the last of it does; a local prefix at least as long as the overlay's makes sure of that.
   */
  lemma OverlayHoldsExactly(overlay: IPNet, cfg: Config)
    requires overlay.Valid() && cfg.net.Valid() && Contains(overlay, cfg.net.ip)
    ensures Contains(overlay, FromValue(LastReservable(cfg))) <==>
      forall v :: v in Reservable(cfg) ==> Contains(overlay, FromValue(v))
    ensures overlay.ones <= cfg.net.ones ==> Contains(overlay, FromValue(LastReservable(cfg)))
  {
    hide Contains, FromValue, ToString, Gateway, Top, LastReservable;
    var base, last := cfg.net.Base(), LastReservable(cfg);
    LastIsReservable(cfg);
    BaseInOverlay(overlay, cfg.net);
    ContainsIsInterval(overlay, last);
    forall v | v in Reservable(cfg) && Contains(overlay, FromValue(last))
      ensures Contains(overlay, FromValue(v))
    {
      ContainsIsInterval(overlay, v);
    }
    if overlay.ones <= cfg.net.ones {
      TopInSubnet(cfg.net);
      ContainsIsInterval(cfg.net, last);
      OverlayCoversSubnet(overlay, cfg.net, FromValue(last));
    }
  }

  lemma TopInSubnet(net: IPNet)
    requires net.Valid()
    ensures net.Low() <= net.Base() <= Top(net) <= net.High()
  {
    ContainsIsInterval(net, 0);
  }

  lemma BaseInOverlay(overlay: IPNet, net: IPNet)
    requires overlay.Valid() && net.Valid() && Contains(overlay, net.ip)
    ensures overlay.Low() <= net.Base() <= overlay.High()
  {
    FromValueOfValue(To4(net.ip).value);
    ContainsIsInterval(overlay, net.Base());
  }

  /** What is reserved lies in an overlay that holds the last of what can be. */
  lemma ReservedLiesInOverlay(cfg: Config, overlay: IPNet, key: string) returns (v: nat)
    requires cfg.net.Valid() && overlay.Valid() && exists v :: AddressOf(cfg, key, v)
    requires Contains(overlay, cfg.net.ip)
    requires overlay.ones <= cfg.net.ones || Contains(overlay, FromValue(LastReservable(cfg)))
    ensures v < SPACE && key == Key(v) && Contains(overlay, FromValue(v))
  {
    OverlayHoldsExactly(overlay, cfg);
    v :| AddressOf(cfg, key, v);
    assert v in Reservable(cfg);
  }

  /** Under a mask of whole bytes a byte is compared or ignored. */
  lemma WholeByteMask(x: byte, y: byte)
    ensures And(x, MaskByte(8)) == And(y, MaskByte(8)) <==> x == y
    ensures And(x, MaskByte(0)) == And(y, MaskByte(0))
  {
    MaskByteCompares(x, y, 8);
  }

  lemma ContainsOfWholeBytes(net: IPNet, n: nat, ip: IP)
    requires |net.ip| == |ip| == 4 && n <= 4 && net.ones == 8 * n
    ensures Contains(net, ip) <==> net.ip[..n] == ip[..n]
  {
    var mask := CIDRMask(net.ones, 4);
    forall i | 0 <= i < 4
      ensures And(net.ip[i], mask[i]) == And(ip[i], mask[i]) <==> i >= n || net.ip[i] == ip[i]
    {
      assert mask[i] == if i < n then MaskByte(8) else MaskByte(0);
      WholeByteMask(net.ip[i], ip[i]);
    }
    hide And, CIDRMask;
    assert net.ip[..n] == ip[..n] <==> forall i :: 0 <= i < n ==> net.ip[i] == ip[i];
  }

  /** With no gateway configured, the first address handed out is the second above the base. */
  lemma FirstIsTwoAboveBase(cfg: Config, id: string, second: IP)
    requires cfg.net.Valid() && cfg.gateway == None && |second| == 4 && Contains(cfg.net, second)
    requires 0x100_0000 <= cfg.net.Base() && Value(second) == cfg.net.Base() + 2
    ensures var r := Allocate(cfg, Fresh(cfg), id).1; r.Ok? && r.value.ip == second
  {
    hide Allocate, NextIP, Contains, Key, ToString, Value, FromValue;
    var base := cfg.net.Base();
    FromValueOfValue(second);
    ContainsIsInterval(cfg.net, Value(second));
    NextIPExact(cfg.net.ip);
    AllocateIsFirstFit(cfg, Fresh(cfg), id);
    var gateway := Gateway(cfg, None);
    assert gateway == FromValue(base + 1) && !Free(gateway, map[], base + 1);
    assert Free(gateway, map[], base + 2);
    var r := Allocate(cfg, Fresh(cfg), id).1;
    if r.Ok? {
      FromValueOfValue(r.value.ip);
    }
  }

  /** A subnet wider than the overlay passes the start-up check, and its first address may already lie outside. */
  lemma StartUpCheckMissesWideSubnets()
    ensures var overlay, cfg := IPNet([10, 0, 0, 0], 24), Config(IPNet([10, 0, 0, 254], 16), None, []);
      && Contains(overlay, cfg.net.ip)
      && var r := Allocate(cfg, Fresh(cfg), "c").1;
         r.Ok? && r.value.ip == [10, 0, 1, 0] && !Contains(overlay, r.value.ip)
  {
    hide Allocate, Contains, Value;
    var overlay, cfg := IPNet([10, 0, 0, 0], 24), Config(IPNet([10, 0, 0, 254], 16), None, []);
    var base, first: IP := cfg.net.ip, [10, 0, 1, 0];
    ValueOfFour(base);
    ValueOfFour(first);
    ContainsOfWholeBytes(overlay, 3, base);
    ContainsOfWholeBytes(overlay, 3, first);
    ContainsOfWholeBytes(cfg.net, 2, first);
    assert overlay.ip[..3][2] != first[..3][2];
    FirstIsTwoAboveBase(cfg, "c", first);
  }

  // ---------- capacity ----------

  lemma {:induction false} RangeSize(lo: nat, hi: nat)
    requires lo <= hi
    ensures |Range(lo, hi)| == hi - lo
  {
    if lo < hi {
      RangeSize(lo, hi - 1);
      var fewer := Range(lo, hi - 1);
      assert hi !in fewer && |fewer + {hi}| == |fewer| + 1;
    }
  }

  ghost function Keys(vs: set<nat>): set<string>
    requires forall v :: v in vs ==> v < SPACE
  {
    set v | v in vs :: Key(v)
  }

  lemma {:induction false} KeysSize(vs: set<nat>)
    requires forall v :: v in vs ==> v < SPACE
    ensures |Keys(vs)| <= |vs|
  {
    if vs != {} {
      var v :| v in vs;
      KeysSize(vs - {v});
      assert Keys(vs) == Keys(vs - {v}) + {Key(v)};
    }
  }

  /** The gateway in force is an address a scan would otherwise reach. */
  predicate GatewayInRange(cfg: Config)
    requires cfg.net.Valid()
  {
    var g := To4(Gateway(cfg, cfg.gateway));
    g.Some? && cfg.net.Base() < Value(g.value) <= Top(cfg.net)
  }

  lemma ReservableSize(cfg: Config)
    requires cfg.net.Valid()
    ensures |Reservable(cfg)| <= Top(cfg.net) - cfg.net.Base() - (if GatewayInRange(cfg) then 1 else 0)
  {
    var lo, hi, some := cfg.net.Base(), Top(cfg.net), Reservable(cfg);
    ContainsIsInterval(cfg.net, 0);
    RangeSize(lo, hi);
    SubsetSize(some, Range(lo, hi));
    var g := To4(Gateway(cfg, cfg.gateway));
    if g.Some? && lo < Value(g.value) <= hi {
      FromValueOfValue(g.value);
      SubsetSize(some, Range(lo, hi) - {Value(g.value)});
    }
  }

  /** Live reservations never exceed the addresses above the base, less a gateway among them. */
  lemma Capacity(cfg: Config, p: Pool)
    requires cfg.net.Valid() && InRange(cfg, p)
    ensures |p.reserved| <= Top(cfg.net) - cfg.net.Base() - (if GatewayInRange(cfg) then 1 else 0)
  {
    var some := Reservable(cfg);
    forall k | k in p.reserved
      ensures k in Keys(some)
    {
      var v :| AddressOf(cfg, k, v);
      assert v in some;
    }
    KeysSize(some);
    SubsetSize(p.reserved.Keys, Keys(some));
    ReservableSize(cfg);
  }

  lemma {:induction false} SubsetSize<T>(a: set<T>, b: set<T>)
    requires a <= b
    ensures |a| <= |b|
  {
    assert b == a + (b - a);
  }

  // ---------- sequential runs over all networks ----------

  datatype Call = AllocateCall(network: string, id: string) | ReleaseCall(network: string, id: string)

  type Pools = map<string, Pool>

  function PoolOf(cfg: Config, pools: Pools, network: string): Pool {
    if network in pools then pools[network] else Fresh(cfg)
  }

  function After(cfg: Config, pools: Pools, c: Call): Pools
    requires cfg.net.Valid()
  {
    var p := PoolOf(cfg, pools, c.network);
    pools[c.network := if c.AllocateCall? then Allocate(cfg, p, c.id).0 else Release(p, c.id)]
  }

  function RunCalls(cfg: Config, calls: seq<Call>): Pools
    requires cfg.net.Valid()
  {
    if calls == [] then map[]
    else After(cfg, RunCalls(cfg, calls[..|calls| - 1]), calls[|calls| - 1])
  }

  /** The calls that name a given network. */
  function Naming(calls: seq<Call>, network: string): (r: seq<Call>)
    ensures forall c :: c in r ==> c.network == network
  {
    if calls == [] then []
    else
      var before := Naming(calls[..|calls| - 1], network);
      if calls[|calls| - 1].network == network then before + [calls[|calls| - 1]] else before
  }

  /**
   After every sequence of calls: a network's pool is what its own calls alone would have made it, every
   container holds at most one address there, and the reservations fit the subnet.
   */
  lemma {:induction false} SequentialRuns(cfg: Config, calls: seq<Call>, network: string)
    requires cfg.net.Valid()
    ensures var p := PoolOf(cfg, RunCalls(cfg, calls), network);
      && p == PoolOf(cfg, RunCalls(cfg, Naming(calls, network)), network)
      && InRange(cfg, p) && OnePerID(p.reserved)
      && |p.reserved| <= Top(cfg.net) - cfg.net.Base() - (if GatewayInRange(cfg) then 1 else 0)
  {
    if calls != [] {
      var last := calls[|calls| - 1];
      SequentialRuns(cfg, calls[..|calls| - 1], network);
      var p := PoolOf(cfg, RunCalls(cfg, calls[..|calls| - 1]), network);
      if last.network == network {
        var own := Naming(calls, network);
        assert own[..|own| - 1] == Naming(calls[..|calls| - 1], network);
        AllocateKeeps(cfg, p, last.id);
        ReleaseKeeps(cfg, p, last.id);
      }
    }
    Capacity(cfg, PoolOf(cfg, RunCalls(cfg, calls), network));
  }
}
