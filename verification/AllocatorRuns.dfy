/**
 Interleaved AllocateIP and ReleaseIP calls. Any number of threads run; every access to shared state is one
 step: the two look-ups, the Contains check, the gateway read and write, every Reserve, every release.
 */
module AllocatorRuns {
  import opened Wrappers
  import opened Ipv4
  import opened AddressPool

  datatype Pc =
    | AtConfig                 // about to call getConfig
    | AtStore                  // about to call getStore
    | AtContains               // about to check whether the ID is on the network
    | AtGatewayRead            // about to read config.Gateway
    | AtGatewayWrite(ip: IP)   // has read nil, about to write the gateway
    | AtAdvance(ip: IP)        // about to advance the scan from ip and compare with the gateway
    | AtReserve(ip: IP)        // about to reserve ip
    | Returned(ip: IP)         // AllocateIP returned ip
    | AtReleaseStore           // ReleaseIP, about to call getStore
    | AtRelease                // about to release by ID
    | Finished                 // returned an error, or ReleaseIP returned

  datatype Thread = Thread(network: string, id: string, pc: Pc)

  datatype State = State(
    gateways: map<string, Option<IP>>,
    stores: map<string, map<string, string>>,
    threads: map<nat, Thread>)

  datatype Event =
    | CallAllocate(t: nat, network: string, id: string)
    | CallRelease(t: nat, network: string, id: string)
    | Step(t: nat)
    | Fail(t: nat)    // a factory or the store returns an error
    | Leave(t: nat)   // the caller takes the result

  const INIT := State(map[], map[], map[])

  predicate Done(pc: Pc) {
    pc.Returned? || pc.Finished?
  }

  predicate Enabled(s: State, e: Event) {
    match e
    case CallAllocate(t, _, _) => t !in s.threads
    case CallRelease(t, _, _) => t !in s.threads
    case Step(t) => t in s.threads && CanStep(s, s.threads[t])
    case Fail(t) => t in s.threads && !Done(s.threads[t].pc)
    case Leave(t) => t in s.threads && Done(s.threads[t].pc)
  }

  /** A thread that has passed its look-ups holds the configuration and the store they returned. */
  predicate CanStep(s: State, th: Thread) {
    && !Done(th.pc)
    && (th.pc.AtContains? || th.pc.AtReserve? || th.pc.AtRelease? ==> th.network in s.stores)
    && (th.pc.AtGatewayRead? || th.pc.AtGatewayWrite? ==> th.network in s.gateways)
    && (th.pc.AtAdvance? ==> th.network in s.gateways && s.gateways[th.network].Some?)
  }

  function SetPc(s: State, t: nat, pc: Pc): State
    requires t in s.threads
  {
    s.(threads := s.threads[t := s.threads[t].(pc := pc)])
  }

  function StepThread(cfg: Config, s: State, t: nat): State
    requires cfg.net.Valid() && t in s.threads && CanStep(s, s.threads[t])
  {
    var Thread(network, id, pc) := s.threads[t];
    match pc
    case AtConfig =>
      SetPc(s.(gateways := if network in s.gateways then s.gateways else s.gateways[network := cfg.gateway]), t,
        AtStore)
    case AtStore => SetPc(WithStore(s, network), t, AtContains)
    case AtContains => SetPc(s, t, if id in s.stores[network].Values then Finished else AtGatewayRead)
    case AtGatewayRead =>
      SetPc(s, t, if s.gateways[network].None? then AtGatewayWrite(NextIP(cfg.net.ip)) else AtAdvance(cfg.net.ip))
    case AtGatewayWrite(ip) => SetPc(s.(gateways := s.gateways[network := Some(ip)]), t, AtAdvance(ip))
    case AtAdvance(ip) =>
      var next := NextIP(ip);
      SetPc(s, t,
        if !Contains(cfg.net, next) then Finished
        else if Equal(s.gateways[network].value, next) then AtAdvance(next)
        else AtReserve(next))
    case AtReserve(ip) =>
      if To4(ip).None? then SetPc(s, t, Finished)
      else if ToString(ip) in s.stores[network] then SetPc(s, t, AtAdvance(ip))
      else SetPc(s.(stores := s.stores[network := s.stores[network][ToString(ip) := id]]), t, Returned(ip))
    case AtReleaseStore => SetPc(WithStore(s, network), t, AtRelease)
    case AtRelease => SetPc(s.(stores := s.stores[network := Released(s.stores[network], id)]), t, Finished)
  }

  function WithStore(s: State, network: string): State {
    if network in s.stores then s else s.(stores := s.stores[network := map[]])
  }

  function Apply(cfg: Config, s: State, e: Event): State
    requires cfg.net.Valid() && Enabled(s, e)
  {
    match e
    case CallAllocate(t, network, id) => s.(threads := s.threads[t := Thread(network, id, AtConfig)])
    case CallRelease(t, network, id) => s.(threads := s.threads[t := Thread(network, id, AtReleaseStore)])
    case Step(t) => StepThread(cfg, s, t)
    case Fail(t) => SetPc(s, t, Finished)
    case Leave(t) => s.(threads := s.threads - {t})
  }

  /** The state after a sequence of events from start-up; None if some event was not enabled. */
  function Run(cfg: Config, es: seq<Event>): Option<State>
    requires cfg.net.Valid()
  {
    if es == [] then Some(INIT)
    else
      var before := Run(cfg, es[..|es| - 1]);
      if before.Some? && Enabled(before.value, es[|es| - 1])
      then Some(Apply(cfg, before.value, es[|es| - 1])) else None
  }

  // ---------- the invariant ----------

  /** Every reservation is of an address above the base, in the subnet and not the gateway. */
  ghost predicate ReservedInRange(cfg: Config, reserved: map<string, string>)
    requires cfg.net.Valid()
  {
    forall k :: k in reserved ==> exists v :: AddressOf(cfg, k, v)
  }

  predicate HasConfig(pc: Pc) {
    pc.AtStore? || pc.AtContains? || pc.AtGatewayRead? || pc.AtGatewayWrite? || pc.AtAdvance? || pc.AtReserve?
  }

  predicate HasStore(pc: Pc) {
    pc.AtContains? || pc.AtGatewayRead? || pc.AtGatewayWrite? || pc.AtAdvance? || pc.AtReserve? || pc.AtRelease?
  }

  /** What a thread has learnt about shared state. */
  ghost predicate ThreadInv(cfg: Config, s: State, th: Thread)
    requires cfg.net.Valid()
  {
    && (HasConfig(th.pc) ==> th.network in s.gateways)
    && (HasStore(th.pc) ==> th.network in s.stores)
    && match th.pc
       case AtGatewayWrite(ip) => cfg.gateway.None? && ip == NextIP(cfg.net.ip)
       case AtAdvance(ip) => s.gateways[th.network].Some? && Cursor(cfg, ip)
       case AtReserve(ip) =>
         && s.gateways[th.network].Some? && Cursor(cfg, ip)
         && |ip| == 4 && AddressOf(cfg, ToString(ip), Value(ip))
       case Returned(ip) => |ip| == 4
       case _ => true
  }

  /** Where a scan can stand: at the base, or above it once the base has a four-byte successor. */
  predicate Cursor(cfg: Config, ip: IP)
    requires cfg.net.Valid()
  {
    To4(ip).Some? ==>
      && cfg.net.Base() <= Value(To4(ip).value)
      && (Value(To4(ip).value) == cfg.net.Base() || cfg.net.Base() + 1 >= 0x100_0000)
  }

  ghost predicate SharedInv(cfg: Config, s: State)
    requires cfg.net.Valid()
  {
    && (forall n :: n in s.gateways && s.gateways[n].Some? ==> s.gateways[n].value == Gateway(cfg, cfg.gateway))
    && (forall n :: n in s.gateways && s.gateways[n].None? ==> cfg.gateway.None?)
    && (forall n :: n in s.stores ==> ReservedInRange(cfg, s.stores[n]))
    && (forall n :: n in s.stores && s.stores[n] != map[] ==> n in s.gateways && s.gateways[n].Some?)
  }

  ghost predicate Inv(cfg: Config, s: State)
    requires cfg.net.Valid()
  {
    && SharedInv(cfg, s)
    && (forall t :: t in s.threads ==> ThreadInv(cfg, s, s.threads[t]))
  }

  /** The scan's next candidate, if the loop gets to reserve it, is in range. */
  lemma AdvanceKeeps(cfg: Config, ip: IP)
    requires cfg.net.Valid() && Cursor(cfg, ip) && Contains(cfg.net, NextIP(ip))
    ensures var next := NextIP(ip);
      && |next| == 4 && Cursor(cfg, next)
      && (!Equal(Gateway(cfg, cfg.gateway), next) ==> AddressOf(cfg, ToString(next), Value(next)))
  {
    ScanAdvance(cfg.net, ip);
    FreeIsTested(Gateway(cfg, cfg.gateway), map[], NextIP(ip));
  }

  lemma StartKeeps(cfg: Config)
    requires cfg.net.Valid()
    ensures Cursor(cfg, cfg.net.ip) && Cursor(cfg, NextIP(cfg.net.ip))
  {
    NextIPExact(cfg.net.ip);
  }

  /** Networks keep their configurations, stores and gateways. */
  predicate Grows(s: State, s': State) {
    && (forall n :: n in s.gateways ==> n in s'.gateways && (s.gateways[n].Some? ==> s'.gateways[n].Some?))
    && (forall n :: n in s.stores ==> n in s'.stores)
  }

  lemma ReservingStaysInRange(cfg: Config, reserved: map<string, string>, ip: IP, id: string)
    requires cfg.net.Valid() && ReservedInRange(cfg, reserved)
    requires |ip| == 4 && AddressOf(cfg, ToString(ip), Value(ip))
    ensures ReservedInRange(cfg, reserved[ToString(ip) := id])
  {
    hide AddressOf, ToString, Value;
  }

  lemma ReleasingStaysInRange(cfg: Config, reserved: map<string, string>, id: string)
    requires cfg.net.Valid() && ReservedInRange(cfg, reserved)
    ensures ReservedInRange(cfg, Released(reserved, id))
  {
    hide AddressOf;
  }

  lemma StepShared(cfg: Config, s: State, t: nat)
    requires cfg.net.Valid() && SharedInv(cfg, s) && t in s.threads && CanStep(s, s.threads[t])
    requires ThreadInv(cfg, s, s.threads[t])
    ensures SharedInv(cfg, StepThread(cfg, s, t))
  {
    hide AddressOf, Contains, Equal, NextIP, ToString, Cursor, ReservedInRange, Value;
    var Thread(network, id, pc) := s.threads[t];
    NothingIsInRange(cfg);
    if pc.AtReserve? {
      ReservingStaysInRange(cfg, s.stores[network], pc.ip, id);
    } else if pc.AtRelease? {
      ReleasingStaysInRange(cfg, s.stores[network], id);
    }
  }

  lemma NothingIsInRange(cfg: Config)
    requires cfg.net.Valid()
    ensures ReservedInRange(cfg, map[])
  {
  }

  lemma StepGrows(cfg: Config, s: State, t: nat)
    requires cfg.net.Valid() && t in s.threads && CanStep(s, s.threads[t])
    ensures Grows(s, StepThread(cfg, s, t))
  {
  }

  lemma StepSelf(cfg: Config, s: State, t: nat)
    requires cfg.net.Valid() && SharedInv(cfg, s) && t in s.threads && CanStep(s, s.threads[t])
    requires ThreadInv(cfg, s, s.threads[t])
    ensures ThreadInv(cfg, StepThread(cfg, s, t), StepThread(cfg, s, t).threads[t])
  {
    StartKeeps(cfg);
    var th := s.threads[t];
    if th.pc.AtAdvance? && Contains(cfg.net, NextIP(th.pc.ip)) {
      AdvanceKeeps(cfg, th.pc.ip);
    }
  }

  lemma StepKeeps(cfg: Config, s: State, t: nat)
    requires cfg.net.Valid() && Inv(cfg, s) && t in s.threads && CanStep(s, s.threads[t])
    ensures Inv(cfg, StepThread(cfg, s, t))
  {
    hide ThreadInv, SharedInv, Grows;
    assert ThreadInv(cfg, s, s.threads[t]);
    StepShared(cfg, s, t);
    StepGrows(cfg, s, t);
    StepSelf(cfg, s, t);
    var s' := StepThread(cfg, s, t);
    forall u | u in s'.threads && u != t
      ensures ThreadInv(cfg, s', s'.threads[u])
    {
      assert s'.threads[u] == s.threads[u];
      assert ThreadInv(cfg, s, s.threads[u]);
      ThreadInvGrows(cfg, s, s', s.threads[u]);
    }
  }

  lemma ThreadInvGrows(cfg: Config, s: State, s': State, th: Thread)
    requires cfg.net.Valid() && Grows(s, s') && ThreadInv(cfg, s, th)
    ensures ThreadInv(cfg, s', th)
  {
    hide AddressOf, Cursor, ToString, Value, NextIP;
  }

  lemma ApplyKeeps(cfg: Config, s: State, e: Event)
    requires cfg.net.Valid() && Inv(cfg, s) && Enabled(s, e)
    ensures Inv(cfg, Apply(cfg, s, e))
  {
    if e.Step? {
      StepKeeps(cfg, s, e.t);
    }
  }

  lemma {:induction false} RunKeeps(cfg: Config, es: seq<Event>)
    requires cfg.net.Valid()
    ensures Run(cfg, es).Some? ==> Inv(cfg, Run(cfg, es).value)
  {
    if es != [] {
      RunKeeps(cfg, es[..|es| - 1]);
      var before := Run(cfg, es[..|es| - 1]);
      if before.Some? && Enabled(before.value, es[|es| - 1]) {
        ApplyKeeps(cfg, before.value, es[|es| - 1]);
      }
    }
  }

  // ---------- what every run guarantees ----------

  /** Every reservation is in range, and a gateway that is set is the configured or computed one and unreserved. */
  lemma ReservationsInRange(cfg: Config, es: seq<Event>, network: string)
    requires cfg.net.Valid() && Run(cfg, es).Some?
    ensures var s := Run(cfg, es).value;
      && (network in s.stores ==>
            && ReservedInRange(cfg, s.stores[network])
            && (s.stores[network] != map[] ==> network in s.gateways && s.gateways[network].Some?))
      && (network in s.gateways && s.gateways[network].Some? ==>
            && s.gateways[network].value == Gateway(cfg, cfg.gateway)
            && (network in s.stores && To4(s.gateways[network].value).Some? ==>
                  ToString(s.gateways[network].value) !in s.stores[network]))
  {
    RunKeeps(cfg, es);
    var s := Run(cfg, es).value;
    if network in s.stores && network in s.gateways && s.gateways[network].Some? {
      var g := s.gateways[network].value;
      if To4(g).Some? && ToString(g) in s.stores[network] {
        var v :| AddressOf(cfg, ToString(g), v);
        ToStringInjective(FromValue(v), To4(g).value);
      }
    }
  }

  /** In every interleaving every reserved address lies in an overlay that holds the last that can be. */
  lemma ReservationsLieInOverlay(cfg: Config, es: seq<Event>, overlay: IPNet, network: string, key: string)
    returns (v: nat)
    requires cfg.net.Valid() && Run(cfg, es).Some?
    requires overlay.Valid() && Contains(overlay, cfg.net.ip)
    requires overlay.ones <= cfg.net.ones || Contains(overlay, FromValue(LastReservable(cfg)))
    requires network in Run(cfg, es).value.stores && key in Run(cfg, es).value.stores[network]
    ensures v < SPACE && key == Key(v) && Contains(overlay, FromValue(v))
  {
    ReservationsInRange(cfg, es, network);
    v := ReservedLiesInOverlay(cfg, overlay, key);
  }

  /** In every interleaving the reservations never exceed the addresses above the base, less a gateway among them. */
  lemma ReservationsFit(cfg: Config, es: seq<Event>, network: string)
    requires cfg.net.Valid() && Run(cfg, es).Some? && network in Run(cfg, es).value.stores
    ensures |Run(cfg, es).value.stores[network]|
      <= Top(cfg.net) - cfg.net.Base() - (if GatewayInRange(cfg) then 1 else 0)
  {
    hide Run, AddressOf, Top;
    RunKeeps(cfg, es);
    TopInSubnet(cfg.net);
    var s := Run(cfg, es).value;
    if s.stores[network] != map[] {
      Capacity(cfg, Pool(s.gateways[network], s.stores[network]));
    }
  }

  /** The prefix of a run is a run. */
  lemma {:induction false} PrefixRuns(cfg: Config, es: seq<Event>, i: nat)
    requires cfg.net.Valid() && Run(cfg, es).Some? && i <= |es|
    ensures Run(cfg, es[..i]).Some?
  {
    if i < |es| {
      PrefixRuns(cfg, es[..|es| - 1], i);
      assert es[..|es| - 1][..i] == es[..i];
    } else {
      assert es[..i] == es;
    }
  }

  /** The state of a run after its first i events. */
  function StateAt(cfg: Config, es: seq<Event>, i: nat): State
    requires cfg.net.Valid() && Run(cfg, es).Some? && i <= |es|
  {
    PrefixRuns(cfg, es, i);
    Run(cfg, es[..i]).value
  }

  lemma StateAfter(cfg: Config, es: seq<Event>, i: nat)
    requires cfg.net.Valid() && Run(cfg, es).Some? && i < |es|
    ensures Enabled(StateAt(cfg, es, i), es[i])
    ensures StateAt(cfg, es, i + 1) == Apply(cfg, StateAt(cfg, es, i), es[i])
  {
    PrefixRuns(cfg, es, i + 1);
    assert es[..i + 1][..i] == es[..i];
  }

  /** A gateway, once set, never changes. */
  lemma {:induction false} GatewayNeverChanges(cfg: Config, es: seq<Event>, i: nat, j: nat, network: string)
    requires cfg.net.Valid() && Run(cfg, es).Some? && i <= j <= |es|
    requires network in StateAt(cfg, es, i).gateways && StateAt(cfg, es, i).gateways[network].Some?
    ensures network in StateAt(cfg, es, j).gateways
    ensures StateAt(cfg, es, j).gateways[network] == StateAt(cfg, es, i).gateways[network]
    decreases j - i
  {
    if i < j {
      StateAfter(cfg, es, i);
      PrefixRuns(cfg, es, i);
      PrefixRuns(cfg, es, i + 1);
      RunKeeps(cfg, es[..i]);
      RunKeeps(cfg, es[..i + 1]);
      if es[i].Step? {
        StepGrows(cfg, StateAt(cfg, es, i), es[i].t);
      }
      GatewayNeverChanges(cfg, es, i + 1, j, network);
    }
  }

  /** At position i the run reserves an address for an ID. */
  predicate ReservesAt(cfg: Config, es: seq<Event>, i: nat, network: string, id: string, ip: IP)
    requires cfg.net.Valid() && Run(cfg, es).Some? && i < |es|
  {
    var s, s' := StateAt(cfg, es, i), StateAt(cfg, es, i + 1);
    && es[i].Step? && es[i].t in s.threads && s.threads[es[i].t] == Thread(network, id, AtReserve(ip))
    && es[i].t in s'.threads && s'.threads[es[i].t] == Thread(network, id, Returned(ip))
  }

  /** At position i the run releases an ID's addresses. */
  predicate ReleasesAt(cfg: Config, es: seq<Event>, i: nat, network: string, id: string)
    requires cfg.net.Valid() && Run(cfg, es).Some? && i < |es|
  {
    var s := StateAt(cfg, es, i);
    es[i].Step? && es[i].t in s.threads && s.threads[es[i].t] == Thread(network, id, AtRelease)
  }

  lemma StepKeepsReservation(cfg: Config, s: State, e: Event, network: string, id: string, key: string)
    requires cfg.net.Valid() && Enabled(s, e)
    requires network in s.stores && key in s.stores[network] && s.stores[network][key] == id
    requires !(e.Step? && s.threads[e.t] == Thread(network, id, AtRelease))
    ensures var s' := Apply(cfg, s, e);
      network in s'.stores && key in s'.stores[network] && s'.stores[network][key] == id
  {
    hide Contains, Equal, NextIP, ToString;
  }

  lemma {:induction false} ReservationStays(
    cfg: Config, es: seq<Event>, i: nat, j: nat, network: string, id: string, key: string)
    requires cfg.net.Valid() && Run(cfg, es).Some? && i <= j <= |es|
    requires var s := StateAt(cfg, es, i);
      network in s.stores && key in s.stores[network] && s.stores[network][key] == id
    requires forall k :: i <= k < j ==> !ReleasesAt(cfg, es, k, network, id)
    ensures var s := StateAt(cfg, es, j);
      network in s.stores && key in s.stores[network] && s.stores[network][key] == id
    decreases j - i
  {
    if i < j {
      StateAfter(cfg, es, i);
      assert !ReleasesAt(cfg, es, i, network, id);
      StepKeepsReservation(cfg, StateAt(cfg, es, i), es[i], network, id, key);
      ReservationStays(cfg, es, i + 1, j, network, id, key);
    }
  }

  lemma ReservedHasFourBytes(cfg: Config, es: seq<Event>, i: nat, network: string, id: string, ip: IP)
    requires cfg.net.Valid() && Run(cfg, es).Some? && i < |es| && ReservesAt(cfg, es, i, network, id, ip)
    ensures |ip| == 4
  {
    PrefixRuns(cfg, es, i);
    RunKeeps(cfg, es[..i]);
    assert ThreadInv(cfg, StateAt(cfg, es, i), StateAt(cfg, es, i).threads[es[i].t]);
  }

  /** An address returned to an ID stays reserved for it until the ID is released. */
  lemma ReturnedStaysReserved(cfg: Config, es: seq<Event>, i: nat, j: nat, network: string, id: string, ip: IP)
    requires cfg.net.Valid() && Run(cfg, es).Some? && i < j <= |es|
    requires ReservesAt(cfg, es, i, network, id, ip)
    requires forall k :: i < k < j ==> !ReleasesAt(cfg, es, k, network, id)
    ensures var s := StateAt(cfg, es, j);
      && To4(ip).Some?
      && network in s.stores && ToString(ip) in s.stores[network] && s.stores[network][ToString(ip)] == id
  {
    ReservedHasFourBytes(cfg, es, i, network, id, ip);
    StateAfter(cfg, es, i);
    ReservationStays(cfg, es, i + 1, j, network, id, ToString(ip));
  }

  /** No address is ever held by two IDs on one network: two holders that have not been released are one. */
  lemma NoAddressHeldTwice(
    cfg: Config, es: seq<Event>, j: nat, network: string, ip: IP,
    i1: nat, id1: string, i2: nat, id2: string)
    requires cfg.net.Valid() && Run(cfg, es).Some? && i1 < j <= |es| && i2 < j
    requires ReservesAt(cfg, es, i1, network, id1, ip) && ReservesAt(cfg, es, i2, network, id2, ip)
    requires forall k :: i1 < k < j ==> !ReleasesAt(cfg, es, k, network, id1)
    requires forall k :: i2 < k < j ==> !ReleasesAt(cfg, es, k, network, id2)
    ensures id1 == id2 && i1 == i2
  {
    ReturnedStaysReserved(cfg, es, i1, j, network, id1, ip);
    ReturnedStaysReserved(cfg, es, i2, j, network, id2, ip);
    if i1 < i2 {
      ReturnedStaysReserved(cfg, es, i1, i2, network, id1, ip);
      StateAfter(cfg, es, i2);
    } else if i2 < i1 {
      ReturnedStaysReserved(cfg, es, i2, i1, network, id2, ip);
      StateAfter(cfg, es, i1);
    }
  }

  // ---------- exhaustion ----------

  /** At some point from the i-th event to the j-th, the number v was reserved on the network. */
  ghost predicate WasReserved(cfg: Config, es: seq<Event>, i: nat, j: nat, network: string, v: nat)
    requires cfg.net.Valid() && Run(cfg, es).Some? && j <= |es| && v < SPACE
  {
    exists k :: i <= k <= j && IsReserved(StateAt(cfg, es, k), network, v)
  }

  predicate IsReserved(s: State, network: string, v: nat)
    requires v < SPACE
  {
    network in s.stores && Key(v) in s.stores[network]
  }

  /** How far the scan has got: everything that can be reserved up to there has been found taken. */
  ghost predicate FoundTaken(cfg: Config, es: seq<Event>, i: nat, j: nat, network: string, pc: Pc)
    requires cfg.net.Valid() && Run(cfg, es).Some? && j <= |es|
  {
    match pc
    case AtGatewayWrite(ip) => ip == NextIP(cfg.net.ip) && cfg.gateway.None?
    case AtAdvance(ip) =>
      && (To4(ip).None? ==> Top(cfg.net) == cfg.net.Base())
      && forall v :: v in Reservable(cfg) && To4(ip).Some? && v <= Value(To4(ip).value) ==>
           WasReserved(cfg, es, i, j, network, v)
    case AtReserve(ip) =>
      |ip| == 4 && forall v :: v in Reservable(cfg) && v < Value(ip) ==> WasReserved(cfg, es, i, j, network, v)
    case _ => true
  }

  lemma FoundTakenLater(cfg: Config, es: seq<Event>, i: nat, j: nat, network: string, pc: Pc)
    requires cfg.net.Valid() && Run(cfg, es).Some? && j < |es| && FoundTaken(cfg, es, i, j, network, pc)
    ensures FoundTaken(cfg, es, i, j + 1, network, pc)
  {
    hide Reservable, NextIP, Top, Value, StateAt;
    forall v | v in Reservable(cfg) && WasReserved(cfg, es, i, j, network, v)
      ensures WasReserved(cfg, es, i, j + 1, network, v)
    {
      var k :| i <= k <= j && IsReserved(StateAt(cfg, es, k), network, v);
      assert i <= k <= j + 1;
    }
  }

  /** Where the scan starts there is at most the gateway behind it. */
  lemma StartFound(cfg: Config, es: seq<Event>, i: nat, j: nat, network: string)
    requires cfg.net.Valid() && Run(cfg, es).Some? && j <= |es|
    ensures FoundTaken(cfg, es, i, j, network, AtAdvance(cfg.net.ip))
    ensures cfg.gateway.None? ==> FoundTaken(cfg, es, i, j, network, AtAdvance(NextIP(cfg.net.ip)))
  {
    hide WasReserved, NextIP, FromValue;
    NextIPExact(cfg.net.ip);
    TopInSubnet(cfg.net);
    ContainsIsInterval(cfg.net, 0);
    ValueOfFour(To4(cfg.net.ip).value);
  }

  /** One turn of the scan: it skips only the gateway. */
  lemma TurnFound(cfg: Config, es: seq<Event>, i: nat, j: nat, network: string, ip: IP)
    requires cfg.net.Valid() && Run(cfg, es).Some? && j <= |es|
    requires FoundTaken(cfg, es, i, j, network, AtAdvance(ip)) && Cursor(cfg, ip) && Contains(cfg.net, NextIP(ip))
    ensures FoundTaken(cfg, es, i, j, network, AtReserve(NextIP(ip)))
    ensures Equal(Gateway(cfg, cfg.gateway), NextIP(ip)) ==>
      FoundTaken(cfg, es, i, j, network, AtAdvance(NextIP(ip)))
  {
    hide WasReserved, NextIP, FromValue, Contains, Gateway;
    ScanAdvance(cfg.net, ip);
    EqualIsSameV4(Gateway(cfg, cfg.gateway), NextIP(ip));
    FromValueOfValue(NextIP(ip));
  }

  /** An address found taken is a number found taken. */
  lemma TakenFound(cfg: Config, es: seq<Event>, i: nat, j: nat, network: string, ip: IP)
    requires cfg.net.Valid() && Run(cfg, es).Some? && i <= j <= |es|
    requires FoundTaken(cfg, es, i, j, network, AtReserve(ip))
    requires network in StateAt(cfg, es, j).stores && ToString(ip) in StateAt(cfg, es, j).stores[network]
    ensures FoundTaken(cfg, es, i, j, network, AtAdvance(ip))
  {
    hide Reservable, StateAt, Key, ToString, FromValue;
    KeyOfValue(ip);
    assert IsReserved(StateAt(cfg, es, j), network, Value(ip));
    assert WasReserved(cfg, es, i, j, network, Value(ip));
    hide WasReserved;
  }

  lemma StepFinds(cfg: Config, es: seq<Event>, i: nat, j: nat, t: nat)
    requires cfg.net.Valid() && Run(cfg, es).Some? && i <= j < |es| && es[j] == Step(t)
    requires t in StateAt(cfg, es, j).threads
    requires var th := StateAt(cfg, es, j).threads[t]; FoundTaken(cfg, es, i, j, th.network, th.pc)
    ensures t in StateAt(cfg, es, j + 1).threads
    ensures var th := StateAt(cfg, es, j + 1).threads[t];
      && th.network == StateAt(cfg, es, j).threads[t].network && th.id == StateAt(cfg, es, j).threads[t].id
      && FoundTaken(cfg, es, i, j, th.network, th.pc)
  {
    hide FoundTaken, StateAt, Run, NextIP, Contains, Equal, ToString, Gateway, Value, AddressOf;
    var s := StateAt(cfg, es, j);
    var Thread(network, id, pc) := s.threads[t];
    StateAfter(cfg, es, j);
    InvAt(cfg, es, j);
    assert ThreadInv(cfg, s, s.threads[t]);
    StartFound(cfg, es, i, j, network);
    match pc
    case AtGatewayRead => WriteFound(cfg, es, i, j, network);
    case AtGatewayWrite(ip) => WritesNext(cfg, es, i, j, network, ip);
    case AtAdvance(ip) =>
      if Contains(cfg.net, NextIP(ip)) {
        TurnFound(cfg, es, i, j, network, ip);
      }
      FinishedFound(cfg, es, i, j, network);
    case AtReserve(ip) =>
      if To4(ip).Some? && ToString(ip) in s.stores[network] {
        TakenFound(cfg, es, i, j, network, ip);
      }
      FinishedFound(cfg, es, i, j, network);
    case _ => FinishedFound(cfg, es, i, j, network);
  }

  lemma InvAt(cfg: Config, es: seq<Event>, j: nat)
    requires cfg.net.Valid() && Run(cfg, es).Some? && j <= |es|
    ensures Inv(cfg, StateAt(cfg, es, j))
  {
    PrefixRuns(cfg, es, j);
    RunKeeps(cfg, es[..j]);
  }

  lemma WriteFound(cfg: Config, es: seq<Event>, i: nat, j: nat, network: string)
    requires cfg.net.Valid() && Run(cfg, es).Some? && j <= |es|
    ensures cfg.gateway.None? ==> FoundTaken(cfg, es, i, j, network, AtGatewayWrite(NextIP(cfg.net.ip)))
  {
  }

  lemma WritesNext(cfg: Config, es: seq<Event>, i: nat, j: nat, network: string, ip: IP)
    requires cfg.net.Valid() && Run(cfg, es).Some? && j <= |es|
    requires FoundTaken(cfg, es, i, j, network, AtGatewayWrite(ip))
    ensures cfg.gateway.None? && ip == NextIP(cfg.net.ip)
  {
  }

  lemma FinishedFound(cfg: Config, es: seq<Event>, i: nat, j: nat, network: string)
    requires cfg.net.Valid() && Run(cfg, es).Some? && j <= |es|
    ensures FoundTaken(cfg, es, i, j, network, Finished) && FoundTaken(cfg, es, i, j, network, AtStore)
    ensures FoundTaken(cfg, es, i, j, network, AtContains) && FoundTaken(cfg, es, i, j, network, AtGatewayRead)
    ensures FoundTaken(cfg, es, i, j, network, AtRelease)
    ensures forall ip :: FoundTaken(cfg, es, i, j, network, Returned(ip))
  {
  }

  /** From its call on, a scan has found taken what lies behind it. */
  lemma {:induction false} ScanFinds(cfg: Config, es: seq<Event>, i: nat, j: nat, t: nat, network: string, id: string)
    requires cfg.net.Valid() && Run(cfg, es).Some? && i < j <= |es| && es[i] == CallAllocate(t, network, id)
    requires forall m :: i < m < j ==> es[m] != Leave(t)
    ensures t in StateAt(cfg, es, j).threads
    ensures var th := StateAt(cfg, es, j).threads[t];
      th.network == network && th.id == id && FoundTaken(cfg, es, i, j, network, th.pc)
    decreases j
  {
    hide FoundTaken, StateAt, Run, StepThread;
    StateAfter(cfg, es, j - 1);
    if j == i + 1 {
      CalledFound(cfg, es, i, j, network);
    } else {
      ScanFinds(cfg, es, i, j - 1, t, network, id);
      var pc := StateAt(cfg, es, j - 1).threads[t].pc;
      assert es[j - 1] != Leave(t);
      if es[j - 1] == Step(t) {
        StepFinds(cfg, es, i, j - 1, t);
        FoundTakenLater(cfg, es, i, j - 1, network, StateAt(cfg, es, j).threads[t].pc);
      } else {
        FoundTakenLater(cfg, es, i, j - 1, network, pc);
        FinishedFound(cfg, es, i, j, network);
        OthersLeave(cfg, StateAt(cfg, es, j - 1), es[j - 1], t);
      }
    }
  }

  lemma CalledFound(cfg: Config, es: seq<Event>, i: nat, j: nat, network: string)
    requires cfg.net.Valid() && Run(cfg, es).Some? && j <= |es|
    ensures FoundTaken(cfg, es, i, j, network, AtConfig)
  {
  }

  /** An event that is no step of a thread and not its leaving moves it at most to the end. */
  lemma OthersLeave(cfg: Config, s: State, e: Event, t: nat)
    requires cfg.net.Valid() && Enabled(s, e) && t in s.threads && e != Step(t) && e != Leave(t)
    ensures t in Apply(cfg, s, e).threads
    ensures var th := Apply(cfg, s, e).threads[t]; th == s.threads[t] || th == s.threads[t].(pc := Finished)
  {
    hide NextIP, Contains, Equal, ToString, Released;
  }

  /**
   In every interleaving an AllocateIP that gives up for want of an address is right: every number that can be reserved
   was reserved at some point of the call.
   */
  lemma ExhaustionIsHonest(cfg: Config, es: seq<Event>, i: nat, j: nat, t: nat, network: string, id: string)
    requires cfg.net.Valid() && Run(cfg, es).Some? && i < j < |es| && es[i] == CallAllocate(t, network, id)
    requires forall m :: i < m < j ==> es[m] != Leave(t)
    requires es[j] == Step(t) && t in StateAt(cfg, es, j).threads && StateAt(cfg, es, j).threads[t].pc.AtAdvance?
    requires t in StateAt(cfg, es, j + 1).threads && StateAt(cfg, es, j + 1).threads[t].pc.Finished?
    ensures forall v :: v in Reservable(cfg) ==> WasReserved(cfg, es, i, j, network, v)
  {
    hide StateAt, Run, NextIP, Contains, Equal, ToString, Gateway, WasReserved, AddressOf;
    ScanFinds(cfg, es, i, j, t, network, id);
    StateAfter(cfg, es, j);
    InvAt(cfg, es, j);
    var s := StateAt(cfg, es, j);
    assert ThreadInv(cfg, s, s.threads[t]);
    var ip := s.threads[t].pc.ip;
    ScanAdvance(cfg.net, ip);
    TopInSubnet(cfg.net);
  }
}
