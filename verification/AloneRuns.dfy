/**
 A call that nobody interrupts, in whatever state the interleaving has come to, does what the specification of the
 allocator says: so the steps that the calls are interleaved of are those of AllocateIP and ReleaseIP.
 */
module AloneRuns {
  import opened Wrappers
  import opened Ipv4
  import opened AddressPool
  import opened AllocatorRuns
  import Allocator

  /** A network's gateway and reservations. */
  function PoolAt(cfg: Config, s: State, network: string): Pool {
    Pool(
      if network in s.gateways then s.gateways[network] else cfg.gateway,
      if network in s.stores then s.stores[network] else map[])
  }

  /** So many steps of one thread and no other. */
  function Alone(cfg: Config, s: State, t: nat, n: nat): Option<State>
    requires cfg.net.Valid()
    decreases n
  {
    if n == 0 then Some(s)
    else if t in s.threads && CanStep(s, s.threads[t]) then Alone(cfg, StepThread(cfg, s, t), t, n - 1)
    else None
  }

  function Steps(t: nat, n: nat): seq<Event> {
    if n == 0 then [] else [Step(t)] + Steps(t, n - 1)
  }

  lemma {:induction false} AloneAdds(cfg: Config, s: State, t: nat, m: nat, n: nat)
    requires cfg.net.Valid() && Alone(cfg, s, t, m).Some?
    ensures Alone(cfg, s, t, m + n) == Alone(cfg, Alone(cfg, s, t, m).value, t, n)
    decreases m
  {
    hide CanStep, StepThread;
    if m > 0 {
      AloneAdds(cfg, StepThread(cfg, s, t), t, m - 1, n);
    }
  }

  lemma OneStep(cfg: Config, s: State, t: nat)
    requires cfg.net.Valid() && t in s.threads && CanStep(s, s.threads[t])
    ensures Alone(cfg, s, t, 1) == Some(StepThread(cfg, s, t))
  {
    hide CanStep, StepThread;
    assert Alone(cfg, StepThread(cfg, s, t), t, 0) == Some(StepThread(cfg, s, t));
  }

  /** The state with one thread elsewhere. */
  function At(s: State, t: nat, th: Thread): State {
    s.(threads := s.threads[t := th])
  }

  /** Where the scan gets to. */
  function Scanned(cfg: Config, s: State, t: nat, network: string, id: string, gateway: IP): State
    requires cfg.net.Valid() && network in s.stores
  {
    var reserved := s.stores[network];
    match LeastFree(cfg.net, gateway, reserved, cfg.net.Base())
    case None => At(s, t, Thread(network, id, Finished))
    case Some(v) =>
      At(s.(stores := s.stores[network := reserved[Key(v) := id]]), t, Thread(network, id, Returned(FromValue(v))))
  }

  /** One turn of the scan: it ends, it reserves, or it stands one address further. */
  lemma Turn(cfg: Config, s: State, t: nat, network: string, id: string, gateway: IP, ip: IP) returns (n: nat)
    requires cfg.net.Valid() && network in s.stores && network in s.gateways && s.gateways[network] == Some(gateway)
    requires t in s.threads && s.threads[t] == Thread(network, id, AtAdvance(ip))
    requires ScanPosition(cfg.net, gateway, s.stores[network], ip)
    ensures Alone(cfg, s, t, n) == Some(Scanned(cfg, s, t, network, id, gateway)) ||
      (Contains(cfg.net, NextIP(ip)) && ScanPosition(cfg.net, gateway, s.stores[network], NextIP(ip))
       && Alone(cfg, s, t, n) == Some(At(s, t, Thread(network, id, AtAdvance(NextIP(ip))))))
  {
    hide Alone, NextIP, Contains, Equal, ToString, ScanPosition, LeastFree, Value, FromValue, Key, Free;
    var next := NextIP(ip);
    OneStep(cfg, s, t);
    if !Contains(cfg.net, next) {
      ScanEnds(cfg.net, gateway, s.stores[network], ip);
      return 1;
    }
    ScanMeets(cfg.net, gateway, s.stores[network], ip);
    FreeIsTested(gateway, s.stores[network], next);
    if Equal(gateway, next) {
      return 1;
    }
    var u := At(s, t, Thread(network, id, AtReserve(next)));
    assert StepThread(cfg, s, t) == u;
    FourBytes(next);
    OneStep(cfg, u, t);
    AloneAdds(cfg, s, t, 1, 1);
    ReservingStep(cfg, s, t, network, id, gateway, next);
    return 2;
  }

  /** The step that tries to reserve. */
  lemma ReservingStep(cfg: Config, s: State, t: nat, network: string, id: string, gateway: IP, next: IP)
    requires cfg.net.Valid() && network in s.stores && |next| == 4 && !Equal(gateway, next)
    requires var reserved := s.stores[network];
      if Free(gateway, reserved, Value(next))
      then LeastFree(cfg.net, gateway, reserved, cfg.net.Base()) == Some(Value(next)) else true
    ensures var u := At(s, t, Thread(network, id, AtReserve(next)));
      StepThread(cfg, u, t) == if Free(gateway, s.stores[network], Value(next))
        then Scanned(cfg, s, t, network, id, gateway)
        else At(s, t, Thread(network, id, AtAdvance(next)))
  {
    hide Equal, ToString, LeastFree, Value, FromValue, Key, Free;
    FreeIsTested(gateway, s.stores[network], next);
    FourBytes(next);
    var u := At(s, t, Thread(network, id, AtReserve(next)));
    var later, done := Thread(network, id, AtAdvance(next)), Thread(network, id, Returned(next));
    assert u.threads[t := later] == s.threads[t := later] && u.threads[t := done] == s.threads[t := done];
  }

  lemma FourBytes(ip: IP)
    requires |ip| == 4
    ensures To4(ip) == Some(ip)
  {
  }

  lemma {:induction false} ScanAlone(cfg: Config, s: State, t: nat, network: string, id: string, gateway: IP, ip: IP)
    returns (n: nat)
    requires cfg.net.Valid() && network in s.stores && network in s.gateways && s.gateways[network] == Some(gateway)
    requires t in s.threads && s.threads[t] == Thread(network, id, AtAdvance(ip))
    requires ScanPosition(cfg.net, gateway, s.stores[network], ip)
    ensures Alone(cfg, s, t, n) == Some(Scanned(cfg, s, t, network, id, gateway))
    decreases Remaining(cfg.net, ip)
  {
    hide Alone, NextIP, Contains, LeastFree, Key, FromValue, Value;
    n := Turn(cfg, s, t, network, id, gateway, ip);
    if Alone(cfg, s, t, n) != Some(Scanned(cfg, s, t, network, id, gateway)) {
      ScanAdvance(cfg.net, ip);
      var u := At(s, t, Thread(network, id, AtAdvance(NextIP(ip))));
      var m := ScanAlone(cfg, u, t, network, id, gateway, NextIP(ip));
      AloneAdds(cfg, s, t, n, m);
      assert Scanned(cfg, u, t, network, id, gateway) == Scanned(cfg, s, t, network, id, gateway);
      n := n + m;
    }
  }

  // ---------- allocating ----------

  /** The two look-ups make what is not there yet. */
  function LookedUp(cfg: Config, s: State, network: string): State {
    WithStore(s.(gateways := if network in s.gateways then s.gateways else s.gateways[network := cfg.gateway]), network)
  }

  lemma LookUps(cfg: Config, s: State, t: nat, network: string, id: string)
    requires cfg.net.Valid()
    ensures var looked := LookedUp(cfg, s, network);
      && Alone(cfg, At(s, t, Thread(network, id, AtConfig)), t, 2)
           == Some(At(looked, t, Thread(network, id, AtContains)))
      && network in looked.gateways && network in looked.stores && looked.threads == s.threads
      && forall m :: PoolAt(cfg, looked, m) == PoolAt(cfg, s, m)
  {
    hide Alone;
    var a := At(s, t, Thread(network, id, AtConfig));
    var g := s.(gateways := if network in s.gateways then s.gateways else s.gateways[network := cfg.gateway]);
    var b := At(g, t, Thread(network, id, AtStore));
    OneStep(cfg, a, t);
    assert StepThread(cfg, a, t) == b;
    OneStep(cfg, b, t);
    AloneAdds(cfg, a, t, 1, 1);
    assert b.threads[t := Thread(network, id, AtContains)] == s.threads[t := Thread(network, id, AtContains)];
  }

  /** From there the call refuses an ID that is on the network, or sets the gateway and comes to the scan. */
  lemma UpToScan(cfg: Config, s: State, t: nat, network: string, id: string) returns (n: nat)
    requires cfg.net.Valid() && network in s.gateways && network in s.stores
    ensures var gateway := Gateway(cfg, s.gateways[network]);
      Alone(cfg, At(s, t, Thread(network, id, AtContains)), t, n) ==
        if id in s.stores[network].Values then Some(At(s, t, Thread(network, id, Finished)))
        else Some(At(s.(gateways := s.gateways[network := Some(gateway)]), t,
          Thread(network, id, AtAdvance(if s.gateways[network].None? then gateway else cfg.net.ip))))
  {
    hide Alone, NextIP;
    var a := At(s, t, Thread(network, id, AtContains));
    OneStep(cfg, a, t);
    if id in s.stores[network].Values {
      assert a.threads[t := Thread(network, id, Finished)] == s.threads[t := Thread(network, id, Finished)];
      return 1;
    }
    var b := At(s, t, Thread(network, id, AtGatewayRead));
    assert StepThread(cfg, a, t) == b;
    OneStep(cfg, b, t);
    AloneAdds(cfg, a, t, 1, 1);
    if s.gateways[network].Some? {
      var there := Thread(network, id, AtAdvance(cfg.net.ip));
      assert b.threads[t := there] == s.threads[t := there] && s.gateways[network := s.gateways[network]] == s.gateways;
      return 2;
    }
    var gateway := NextIP(cfg.net.ip);
    var c := At(s, t, Thread(network, id, AtGatewayWrite(gateway)));
    assert StepThread(cfg, b, t) == c;
    OneStep(cfg, c, t);
    AloneAdds(cfg, a, t, 2, 1);
    var there := Thread(network, id, AtAdvance(gateway));
    assert c.threads[t := there] == s.threads[t := there];
    return 3;
  }

  /** What an AllocateIP leaves behind that nobody interrupts. */
  ghost predicate Allocates(cfg: Config, s: State, s': State, t: nat, network: string, id: string)
    requires cfg.net.Valid()
  {
    var (pool, r) := Allocate(cfg, PoolAt(cfg, s, network), id);
    && PoolAt(cfg, s', network) == pool
    && s'.threads == s.threads[t := Thread(network, id,
         match r case Ok(lease) => Returned(lease.ip) case Err(_) => Finished)]
    && forall m :: m != network ==> PoolAt(cfg, s', m) == PoolAt(cfg, s, m)
  }

  lemma AllocatesAlone(cfg: Config, s: State, t: nat, network: string, id: string) returns (n: nat)
    requires cfg.net.Valid()
    ensures var end := Alone(cfg, At(s, t, Thread(network, id, AtConfig)), t, n);
      end.Some? && Allocates(cfg, s, end.value, t, network, id)
  {
    hide Alone, LookedUp, ScanPosition, LeastFree, Key, FromValue, NextIP, Contains;
    var start := At(s, t, Thread(network, id, AtConfig));
    LookUps(cfg, s, t, network, id);
    var looked := LookedUp(cfg, s, network);
    var k := UpToScan(cfg, looked, t, network, id);
    AloneAdds(cfg, start, t, 2, k);
    n := 2 + k;
    if id !in looked.stores[network].Values {
      var gateway := Gateway(cfg, looked.gateways[network]);
      var ready := looked.(gateways := looked.gateways[network := Some(gateway)]);
      var ip := if looked.gateways[network].None? then gateway else cfg.net.ip;
      var scanning := At(ready, t, Thread(network, id, AtAdvance(ip)));
      Allocator.ScanStart(cfg, PoolAt(cfg, looked, network));
      var m := ScanAlone(cfg, scanning, t, network, id, gateway, ip);
      AloneAdds(cfg, start, t, n, m);
      n := n + m;
      ScanIsReserve(cfg, s, ready, t, Thread(network, id, AtAdvance(ip)), network, id, gateway);
    }
  }

  lemma ScanIsReserve(
    cfg: Config, s: State, ready: State, t: nat, th: Thread, network: string, id: string, gateway: IP)
    requires cfg.net.Valid() && network in ready.stores && ready.threads == s.threads
    requires PoolAt(cfg, s, network).reserved == ready.stores[network] && id !in ready.stores[network].Values
    requires gateway == Gateway(cfg, PoolAt(cfg, s, network).gateway)
    requires network in ready.gateways && ready.gateways[network] == Some(gateway)
    requires forall m :: m != network ==> PoolAt(cfg, ready, m) == PoolAt(cfg, s, m)
    ensures Allocates(cfg, s, Scanned(cfg, At(ready, t, th), t, network, id, gateway), t, network, id)
  {
    hide LeastFree, Key, FromValue, Gateway;
    var end := Scanned(cfg, At(ready, t, th), t, network, id, gateway);
    assert end.threads == s.threads[t := end.threads[t]];
  }

  // ---------- as runs ----------

  lemma RunOneMore(cfg: Config, es: seq<Event>, e: Event)
    requires cfg.net.Valid()
    ensures Run(cfg, es + [e]) == if Run(cfg, es).Some? && Enabled(Run(cfg, es).value, e)
      then Some(Apply(cfg, Run(cfg, es).value, e)) else None
  {
    hide Enabled, Apply;
    assert (es + [e])[..|es|] == es;
  }

  lemma {:induction false} RunAlone(cfg: Config, es: seq<Event>, t: nat, n: nat)
    requires cfg.net.Valid() && Run(cfg, es).Some? && Alone(cfg, Run(cfg, es).value, t, n).Some?
    ensures Run(cfg, es + Steps(t, n)) == Alone(cfg, Run(cfg, es).value, t, n)
    decreases n
  {
    hide Run, CanStep, StepThread;
    if n == 0 {
      assert es + Steps(t, 0) == es;
    } else {
      RunOneMore(cfg, es, Step(t));
      RunAlone(cfg, es + [Step(t)], t, n - 1);
      assert es + [Step(t)] + Steps(t, n - 1) == es + Steps(t, n);
    }
  }

  /**
   From every state that an interleaving comes to, an AllocateIP that runs on uninterrupted returns, and does to its
   network what the specification says, result included, and to no other network anything.
   */
  lemma UninterruptedAllocate(cfg: Config, es: seq<Event>, t: nat, network: string, id: string) returns (n: nat)
    requires cfg.net.Valid() && Run(cfg, es).Some? && t !in Run(cfg, es).value.threads
    ensures var end := Run(cfg, es + [CallAllocate(t, network, id)] + Steps(t, n));
      end.Some? && Allocates(cfg, Run(cfg, es).value, end.value, t, network, id)
  {
    hide Run, Allocates, Alone;
    var s := Run(cfg, es).value;
    RunOneMore(cfg, es, CallAllocate(t, network, id));
    n := AllocatesAlone(cfg, s, t, network, id);
    RunAlone(cfg, es + [CallAllocate(t, network, id)], t, n);
  }

  /** What a ReleaseIP leaves behind that nobody interrupts. */
  ghost predicate Releases(cfg: Config, s: State, s': State, t: nat, network: string, id: string) {
    && PoolAt(cfg, s', network) == Release(PoolAt(cfg, s, network), id)
    && s'.threads == s.threads[t := Thread(network, id, Finished)]
    && forall m :: m != network ==> PoolAt(cfg, s', m) == PoolAt(cfg, s, m)
  }

  lemma ReleasesAlone(cfg: Config, s: State, t: nat, network: string, id: string)
    requires cfg.net.Valid()
    ensures var end := Alone(cfg, At(s, t, Thread(network, id, AtReleaseStore)), t, 2);
      end.Some? && Releases(cfg, s, end.value, t, network, id)
  {
    hide Alone;
    var a := At(s, t, Thread(network, id, AtReleaseStore));
    var b := At(WithStore(s, network), t, Thread(network, id, AtRelease));
    OneStep(cfg, a, t);
    assert a.threads[t := Thread(network, id, AtRelease)] == s.threads[t := Thread(network, id, AtRelease)];
    assert StepThread(cfg, a, t) == b;
    OneStep(cfg, b, t);
    AloneAdds(cfg, a, t, 1, 1);
    assert b.threads[t := Thread(network, id, Finished)] == s.threads[t := Thread(network, id, Finished)];
  }

  /** The same of a ReleaseIP, which takes two steps. */
  lemma UninterruptedRelease(cfg: Config, es: seq<Event>, t: nat, network: string, id: string)
    requires cfg.net.Valid() && Run(cfg, es).Some? && t !in Run(cfg, es).value.threads
    ensures var end := Run(cfg, es + [CallRelease(t, network, id)] + Steps(t, 2));
      end.Some? && Releases(cfg, Run(cfg, es).value, end.value, t, network, id)
  {
    hide Run, Releases, Alone;
    RunOneMore(cfg, es, CallRelease(t, network, id));
    ReleasesAlone(cfg, Run(cfg, es).value, t, network, id);
    RunAlone(cfg, es + [CallRelease(t, network, id)], t, 2);
  }
}
