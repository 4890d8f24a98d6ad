/**
 Interleaved CNI Add and Del requests over the allocator and the datastore. A request is a thread; its calls
 into the allocator are the allocator's own steps. Any step may fail, and nothing is rolled back. Requests for
 one container ID do not overlap; apart from that any number of requests run at once. Other daemons share the
 datastore and may change any row that this daemon has not written.
 */
module CniRuns {
  import opened Wrappers
  import opened Ipv4
  import opened AddressPool
  import opened Records
  import A = AllocatorRuns

  datatype Phase =
    | Allocating                      // Add: inside AllocateIP
    | SettingUp(ip: IP)               // Add: inside Creator.Setup
    | Recording(record: Container)    // Add: about to insert the record
    | Fetching                        // Del: about to read the record
    | TearingDown(network: string)    // Del: inside Deletor.Delete
    | Unrecording(network: string)    // Del: about to delete the record
    | Releasing                       // Del: inside ReleaseIP

  datatype Request = Request(id: string, network: string, phase: Phase)

  datatype State = State(
    alloc: A.State,
    records: map<string, Container>,
    ours: set<string>,                // IDs whose record this daemon has inserted since boot
    requests: map<nat, Request>)

  datatype Event =
    | BeginAdd(t: nat, network: string, id: string)
    | BeginDel(t: nat, id: string)
    | AllocatorStep(t: nat)
    | AllocatorFails(t: nat)
    | AllocatorReturns(t: nat)
    | SetupSucceeds(t: nat, mac: string, hostIP: string, sandbox: string, app: string)
    | RecordInserted(t: nat)
    | RecordFetched(t: nat)
    | TornDown(t: nat)
    | RecordDeleted(t: nat)
    | StepFails(t: nat)               // Setup, a datastore call or Delete returns an error
    | PeersWrite(records: map<string, Container>)

  predicate InAllocator(phase: Phase) {
    phase.Allocating? || phase.Releasing?
  }

  predicate Active(s: State, id: string) {
    exists t :: t in s.requests && s.requests[t].id == id
  }

  ghost predicate Enabled(s: State, e: Event) {
    match e
    case BeginAdd(t, _, id) => t !in s.requests && t !in s.alloc.threads && !Active(s, id)
    case BeginDel(t, id) => t !in s.requests && !Active(s, id)
    case AllocatorStep(t) => t in s.requests && InAllocator(s.requests[t].phase) && A.Enabled(s.alloc, A.Step(t))
    case AllocatorFails(t) => t in s.requests && InAllocator(s.requests[t].phase) && A.Enabled(s.alloc, A.Fail(t))
    case AllocatorReturns(t) => t in s.requests && InAllocator(s.requests[t].phase) && A.Enabled(s.alloc, A.Leave(t))
    case SetupSucceeds(t, _, _, _, _) => t in s.requests && s.requests[t].phase.SettingUp? &&
      To4(s.requests[t].phase.ip).Some?
    case RecordInserted(t) => t in s.requests && s.requests[t].phase.Recording? && s.requests[t].id !in s.records
    case RecordFetched(t) => t in s.requests && s.requests[t].phase.Fetching? && s.requests[t].id in s.records
    case TornDown(t) => t in s.requests && s.requests[t].phase.TearingDown?
    case RecordDeleted(t) =>
      t in s.requests && s.requests[t].phase.Unrecording? && s.requests[t].id in s.records && t !in s.alloc.threads
    case StepFails(t) => t in s.requests && !InAllocator(s.requests[t].phase)
    case PeersWrite(records) =>
      forall id :: id in s.ours && id in s.records ==> id in records && records[id] == s.records[id]
  }

  function SetPhase(s: State, t: nat, phase: Phase): State
    requires t in s.requests
  {
    s.(requests := s.requests[t := s.requests[t].(phase := phase)])
  }

  function Drop(s: State, t: nat): State {
    s.(requests := s.requests - {t})
  }

  /** What an event does to the allocator, if anything. */
  function AllocatorEvent(s: State, e: Event): Option<A.Event>
    requires Enabled(s, e)
  {
    match e
    case BeginAdd(t, network, id) => Some(A.CallAllocate(t, network, id))
    case AllocatorStep(t) => Some(A.Step(t))
    case AllocatorFails(t) => Some(A.Fail(t))
    case AllocatorReturns(t) => Some(A.Leave(t))
    case RecordDeleted(t) => Some(A.CallRelease(t, s.requests[t].phase.network, s.requests[t].id))
    case _ => None
  }

  function Apply(cfg: Config, s: State, e: Event): State
    requires cfg.net.Valid() && Enabled(s, e)
  {
    var alloc := match AllocatorEvent(s, e) case Some(a) => A.Apply(cfg, s.alloc, a) case None => s.alloc;
    var r := ApplyRequest(s, e);
    r.(alloc := alloc)
  }

  /** The event's effect on requests and records. */
  function ApplyRequest(s: State, e: Event): State
    requires Enabled(s, e)
  {
    match e
    case BeginAdd(t, network, id) => s.(requests := s.requests[t := Request(id, network, Allocating)])
    case BeginDel(t, id) => s.(requests := s.requests[t := Request(id, "", Fetching)])
    case AllocatorStep(t) => s
    case AllocatorFails(t) => s
    case AllocatorReturns(t) =>
      var pc := s.alloc.threads[t].pc;
      if s.requests[t].phase.Allocating? && pc.Returned? then SetPhase(s, t, SettingUp(pc.ip)) else Drop(s, t)
    case SetupSucceeds(t, mac, hostIP, sandbox, app) =>
      var Request(id, network, phase) := s.requests[t];
      SetPhase(s, t, Recording(RecordOf(id, phase.ip, mac, hostIP, network, sandbox, app)))
    case RecordInserted(t) =>
      var Request(id, _, phase) := s.requests[t];
      Drop(s.(records := s.records[id := phase.record], ours := s.ours + {id}), t)
    case RecordFetched(t) => SetPhase(s, t, TearingDown(s.records[s.requests[t].id].network))
    case TornDown(t) => SetPhase(s, t, Unrecording(s.requests[t].phase.network))
    case RecordDeleted(t) =>
      var id := s.requests[t].id;
      SetPhase(s.(records := s.records - {id}, ours := s.ours - {id}), t, Releasing)
    case StepFails(t) => Drop(s, t)
    case PeersWrite(records) => s.(records := records)
  }

  /** Boot: nothing reserved, no requests, and whatever rows the datastore holds. */
  predicate IsInit(s: State) {
    s.alloc == A.INIT && s.ours == {} && s.requests == map[]
  }

  ghost predicate IsRun(cfg: Config, states: seq<State>, es: seq<Event>)
    requires cfg.net.Valid()
  {
    && |states| == |es| + 1 && IsInit(states[0])
    && forall i :: 0 <= i < |es| ==> Enabled(states[i], es[i]) && states[i + 1] == Apply(cfg, states[i], es[i])
  }

  // ---------- the invariant ----------

  predicate Holds(alloc: A.State, network: string, key: string, id: string) {
    network in alloc.stores && key in alloc.stores[network] && alloc.stores[network][key] == id
  }

  ghost predicate OnNetwork(alloc: A.State, network: string, id: string) {
    exists key :: Holds(alloc, network, key, id)
  }

  predicate InRelease(pc: A.Pc) {
    pc.AtReleaseStore? || pc.AtRelease? || pc.Finished?
  }

  /** The allocator has found the ID absent and has not reserved for it yet. */
  predicate Scanning(pc: A.Pc) {
    pc.AtGatewayRead? || pc.AtGatewayWrite? || pc.AtAdvance? || pc.AtReserve?
  }

  /** What a request knows: where it stands in the allocator, and that its address is held. */
  ghost predicate RequestInv(s: State, t: nat)
    requires t in s.requests
  {
    var Request(id, network, phase) := s.requests[t];
    && (InAllocator(phase) <==> t in s.alloc.threads)
    && match phase
       case Allocating =>
         var th := s.alloc.threads[t];
         && th.id == id && th.network == network
         && !th.pc.AtReleaseStore? && !th.pc.AtRelease?
         && (th.pc.Returned? ==> |th.pc.ip| == 4 && Holds(s.alloc, network, ToString(th.pc.ip), id))
         && (th.pc.AtReserve? ==> |th.pc.ip| == 4)
         && (Scanning(th.pc) ==> !OnNetwork(s.alloc, network, id))
       case SettingUp(ip) => |ip| == 4 && Holds(s.alloc, network, ToString(ip), id)
       case Recording(r) => r.id == id && r.network == network && Holds(s.alloc, network, r.ip, id)
       case Releasing => id !in s.ours && s.alloc.threads[t].id == id && InRelease(s.alloc.threads[t].pc)
       case _ => true
  }

  predicate DistinctIDs(s: State) {
    forall t, u :: t in s.requests && u in s.requests && s.requests[t].id == s.requests[u].id ==> t == u
  }

  ghost predicate RequestsInv(s: State) {
    && (forall t :: t in s.alloc.threads ==> t in s.requests)
    && (forall t :: t in s.requests ==> RequestInv(s, t))
  }

  /** Every record this daemon has inserted is backed by a reservation of its address under its ID. */
  predicate RecordsBacked(s: State) {
    forall id :: id in s.ours ==> id in s.records && Holds(s.alloc, s.records[id].network, s.records[id].ip, id)
  }

  predicate OneAddressEach(s: State) {
    forall n :: n in s.alloc.stores ==> OnePerID(s.alloc.stores[n])
  }

  ghost predicate LocalInv(s: State) {
    DistinctIDs(s) && RequestsInv(s) && RecordsBacked(s) && OneAddressEach(s)
  }

  ghost predicate Inv(cfg: Config, s: State)
    requires cfg.net.Valid()
  {
    A.Inv(cfg, s.alloc) && LocalInv(s)
  }

  // ---------- allocator steps ----------

  /** A thread's step leaves every other ID's reservations alone; only a release takes its own ID's away. */
  lemma StepTouchesOwnID(cfg: Config, alloc: A.State, t: nat, network: string, key: string, id: string)
    requires cfg.net.Valid() && A.Enabled(alloc, A.Step(t))
    ensures var alloc' := A.Apply(cfg, alloc, A.Step(t));
      var th := alloc.threads[t];
      && (Holds(alloc, network, key, id) && (id != th.id || !th.pc.AtRelease?) ==> Holds(alloc', network, key, id))
      && (Holds(alloc', network, key, id) && (id != th.id || !th.pc.AtReserve?) ==> Holds(alloc, network, key, id))
  {
  }

  lemma OtherIDsUnmoved(cfg: Config, alloc: A.State, t: nat, network: string, id: string)
    requires cfg.net.Valid() && A.Enabled(alloc, A.Step(t)) && !OnNetwork(alloc, network, id)
    requires id != alloc.threads[t].id || !alloc.threads[t].pc.AtReserve?
    ensures !OnNetwork(A.Apply(cfg, alloc, A.Step(t)), network, id)
  {
    var alloc' := A.Apply(cfg, alloc, A.Step(t));
    forall key
      ensures !Holds(alloc', network, key, id)
    {
      StepTouchesOwnID(cfg, alloc, t, network, key, id);
    }
  }

  function StoreOf(alloc: A.State, network: string): map<string, string> {
    if network in alloc.stores then alloc.stores[network] else map[]
  }

  /** What one step does to one store. */
  lemma StepOnStore(cfg: Config, alloc: A.State, t: nat, n: string)
    requires cfg.net.Valid() && A.Enabled(alloc, A.Step(t))
    ensures var before, after := StoreOf(alloc, n), StoreOf(A.Apply(cfg, alloc, A.Step(t)), n);
      var th := alloc.threads[t];
      || after == before
      || (th.pc.AtReserve? && th.network == n && To4(th.pc.ip).Some? && after == before[ToString(th.pc.ip) := th.id])
      || after == Released(before, th.id)
  {
    hide NextIP, Contains, Equal, ToString, Released;
  }

  lemma StepKeepsOnePerID(cfg: Config, s: State, t: nat, n: string)
    requires cfg.net.Valid() && Enabled(s, AllocatorStep(t)) && RequestInv(s, t) && OneAddressEach(s)
    requires n in A.Apply(cfg, s.alloc, A.Step(t)).stores
    ensures OnePerID(A.Apply(cfg, s.alloc, A.Step(t)).stores[n])
  {
    hide A.Apply, ToString;
    StepOnStore(cfg, s.alloc, t, n);
    var before, after := StoreOf(s.alloc, n), StoreOf(A.Apply(cfg, s.alloc, A.Step(t)), n);
    var th := s.alloc.threads[t];
    if after != before && after != Released(before, th.id) {
      forall k | k in before
        ensures before[k] != th.id
      {
        assert !Holds(s.alloc, n, k, th.id);
      }
    }
  }

  /** While an ID is scanned for, it stays off its network. */
  lemma StepKeepsScanning(cfg: Config, s: State, t: nat)
    requires cfg.net.Valid() && Enabled(s, AllocatorStep(t)) && RequestInv(s, t) && s.requests[t].phase.Allocating?
    ensures var th := A.Apply(cfg, s.alloc, A.Step(t)).threads[t];
      Scanning(th.pc) ==> !OnNetwork(A.Apply(cfg, s.alloc, A.Step(t)), th.network, th.id)
  {
    var alloc' := A.Apply(cfg, s.alloc, A.Step(t));
    var th := s.alloc.threads[t];
    if Scanning(alloc'.threads[t].pc) {
      assert alloc'.stores == s.alloc.stores;
      forall key
        ensures !Holds(alloc', th.network, key, th.id)
      {
        if Scanning(th.pc) {
          assert !Holds(s.alloc, th.network, key, th.id);
        } else {
          assert th.id !in s.alloc.stores[th.network].Values;
        }
      }
    }
  }

  lemma StepKeepsOwnRequest(cfg: Config, s: State, t: nat)
    requires cfg.net.Valid() && Enabled(s, AllocatorStep(t)) && RequestInv(s, t)
    requires A.ThreadInv(cfg, A.Apply(cfg, s.alloc, A.Step(t)), A.Apply(cfg, s.alloc, A.Step(t)).threads[t])
    ensures RequestInv(Apply(cfg, s, AllocatorStep(t)), t)
  {
    hide Apply, A.Apply, A.ThreadInv;
    if s.requests[t].phase.Allocating? {
      StepKeepsAllocating(cfg, s, t);
    } else {
      StepKeepsReleasing(cfg, s, t);
    }
  }

  lemma StepKeepsAllocating(cfg: Config, s: State, t: nat)
    requires cfg.net.Valid() && Enabled(s, AllocatorStep(t)) && RequestInv(s, t) && s.requests[t].phase.Allocating?
    requires A.ThreadInv(cfg, A.Apply(cfg, s.alloc, A.Step(t)), A.Apply(cfg, s.alloc, A.Step(t)).threads[t])
    ensures RequestInv(Apply(cfg, s, AllocatorStep(t)), t)
  {
    hide NextIP, Contains, Equal, ToString, Released, A.Cursor, AddressOf, Value, OnNetwork;
    StepKeepsScanning(cfg, s, t);
  }

  lemma StepKeepsReleasing(cfg: Config, s: State, t: nat)
    requires cfg.net.Valid() && Enabled(s, AllocatorStep(t)) && RequestInv(s, t) && s.requests[t].phase.Releasing?
    ensures RequestInv(Apply(cfg, s, AllocatorStep(t)), t)
  {
    hide NextIP, Contains, Equal, ToString, Released;
  }

  lemma StepKeepsOtherRequest(cfg: Config, s: State, t: nat, u: nat)
    requires cfg.net.Valid() && u in s.requests && DistinctIDs(s) && Enabled(s, AllocatorStep(t)) &&
      RequestInv(s, t) && RequestInv(s, u) && u != t
    ensures RequestInv(Apply(cfg, s, AllocatorStep(t)), u)
  {
    var s' := Apply(cfg, s, AllocatorStep(t));
    var Request(id, network, phase) := s.requests[u];
    assert id != s.alloc.threads[t].id;
    match phase
    case Allocating =>
      var th := s.alloc.threads[u];
      assert s'.alloc.threads[u] == th;
      if th.pc.Returned? {
        StepTouchesOwnID(cfg, s.alloc, t, network, ToString(th.pc.ip), id);
      }
      if Scanning(th.pc) {
        OtherIDsUnmoved(cfg, s.alloc, t, network, id);
      }
    case SettingUp(ip) => StepTouchesOwnID(cfg, s.alloc, t, network, ToString(ip), id);
    case Recording(r) => StepTouchesOwnID(cfg, s.alloc, t, network, r.ip, id);
    case _ =>
  }

  lemma AllocatorStepShape(cfg: Config, s: State, t: nat)
    requires cfg.net.Valid() && Enabled(s, AllocatorStep(t))
    ensures Apply(cfg, s, AllocatorStep(t)) == s.(alloc := A.Apply(cfg, s.alloc, A.Step(t)))
    ensures A.Apply(cfg, s.alloc, A.Step(t)).threads.Keys == s.alloc.threads.Keys
  {
  }

  /** Only an ID without a record of this daemon's is released. */
  lemma ReleasedHasNoRecord(s: State, t: nat)
    requires t in s.requests && RequestInv(s, t) && t in s.alloc.threads
    ensures s.alloc.threads[t].pc.AtRelease? ==> s.alloc.threads[t].id !in s.ours
  {
  }

  lemma AllocatorStepKeeps(cfg: Config, s: State, t: nat)
    requires cfg.net.Valid() && LocalInv(s) && Enabled(s, AllocatorStep(t))
    requires A.ThreadInv(cfg, A.Apply(cfg, s.alloc, A.Step(t)), A.Apply(cfg, s.alloc, A.Step(t)).threads[t])
    ensures LocalInv(Apply(cfg, s, AllocatorStep(t)))
  {
    hide A.Apply, Apply, RequestInv, A.ThreadInv, OnePerID;
    var s' := Apply(cfg, s, AllocatorStep(t));
    AllocatorStepShape(cfg, s, t);
    assert RequestInv(s, t);
    ReleasedHasNoRecord(s, t);
    forall n | n in s'.alloc.stores
      ensures OnePerID(s'.alloc.stores[n])
    {
      StepKeepsOnePerID(cfg, s, t, n);
    }
    StepKeepsOwnRequest(cfg, s, t);
    forall u | u in s'.requests && u != t
      ensures RequestInv(s', u)
    {
      StepKeepsOtherRequest(cfg, s, t, u);
    }
    forall id | id in s'.ours
      ensures id in s'.records && Holds(s'.alloc, s'.records[id].network, s'.records[id].ip, id)
    {
      StepTouchesOwnID(cfg, s.alloc, t, s.records[id].network, s.records[id].ip, id);
    }
  }

  // ---------- the other events ----------

  /** A request's invariant depends on the stores and on its own thread. */
  lemma RequestInvFrame(s: State, s': State, u: nat)
    requires u in s.requests && u in s'.requests && s'.requests[u] == s.requests[u] && RequestInv(s, u)
    requires s'.alloc.stores == s.alloc.stores
    requires u in s'.alloc.threads <==> u in s.alloc.threads
    requires u in s.alloc.threads ==> s'.alloc.threads[u] == s.alloc.threads[u]
    requires s.requests[u].phase.Releasing? ==> s.requests[u].id !in s'.ours
    ensures RequestInv(s', u)
  {
    var Request(id, network, phase) := s.requests[u];
    if phase.Allocating? && Scanning(s.alloc.threads[u].pc) {
      forall key
        ensures !Holds(s'.alloc, network, key, id)
      {
        assert !Holds(s.alloc, network, key, id);
      }
    }
  }

  /** Every event but an allocator step leaves the stores alone. */
  lemma StoresUntouched(cfg: Config, s: State, e: Event)
    requires cfg.net.Valid() && Enabled(s, e) && !e.AllocatorStep?
    ensures Apply(cfg, s, e).alloc.stores == s.alloc.stores
  {
  }

  lemma EventKeepsOwnRequest(cfg: Config, s: State, e: Event)
    requires cfg.net.Valid() && Enabled(s, e) && !e.AllocatorStep? && !e.PeersWrite?
    requires e.t in Apply(cfg, s, e).requests && (e.t in s.requests ==> RequestInv(s, e.t))
    requires e.t in s.alloc.threads ==> e.t in s.requests
    ensures RequestInv(Apply(cfg, s, e), e.t)
  {
    StoresUntouched(cfg, s, e);
  }

  /** An event leaves the other requests, their threads and the absence of their records alone. */
  lemma OtherThreadsUntouched(cfg: Config, s: State, e: Event, u: nat)
    requires cfg.net.Valid() && DistinctIDs(s) && Enabled(s, e) && !e.AllocatorStep? && (e.PeersWrite? || u != e.t)
    requires u in Apply(cfg, s, e).requests
    ensures var s' := Apply(cfg, s, e);
      && u in s.requests && s'.requests[u] == s.requests[u]
      && s'.alloc.stores == s.alloc.stores
      && (u in s'.alloc.threads <==> u in s.alloc.threads)
      && (u in s.alloc.threads ==> s'.alloc.threads[u] == s.alloc.threads[u])
      && (s.requests[u].id !in s.ours ==> s.requests[u].id !in s'.ours)
  {
  }

  lemma EventKeepsRequest(cfg: Config, s: State, e: Event, u: nat)
    requires cfg.net.Valid() && DistinctIDs(s) && RequestsInv(s) && Enabled(s, e) && !e.AllocatorStep?
    requires u in Apply(cfg, s, e).requests
    ensures RequestInv(Apply(cfg, s, e), u)
  {
    if !e.PeersWrite? && u == e.t {
      EventKeepsOwnRequest(cfg, s, e);
    } else {
      OtherThreadsUntouched(cfg, s, e, u);
      RequestInvFrame(s, Apply(cfg, s, e), u);
    }
  }

  /** The records of this daemon stay backed. */
  lemma EventKeepsRecords(cfg: Config, s: State, e: Event, id: string)
    requires cfg.net.Valid() && LocalInv(s) && Enabled(s, e) && !e.AllocatorStep?
    requires id in Apply(cfg, s, e).ours
    ensures var s' := Apply(cfg, s, e);
      id in s'.records && Holds(s'.alloc, s'.records[id].network, s'.records[id].ip, id)
  {
    StoresUntouched(cfg, s, e);
    if e.RecordInserted? {
      assert RequestInv(s, e.t);
    }
  }

  lemma EventKeepsLocal(cfg: Config, s: State, e: Event)
    requires cfg.net.Valid() && LocalInv(s) && Enabled(s, e) && !e.AllocatorStep?
    ensures LocalInv(Apply(cfg, s, e))
  {
    var s' := Apply(cfg, s, e);
    StoresUntouched(cfg, s, e);
    assert DistinctIDs(s');
    forall u | u in s'.requests
      ensures RequestInv(s', u)
    {
      EventKeepsRequest(cfg, s, e, u);
    }
    EventKeepsThreads(cfg, s, e);
    forall id | id in s'.ours
      ensures id in s'.records && Holds(s'.alloc, s'.records[id].network, s'.records[id].ip, id)
    {
      EventKeepsRecords(cfg, s, e, id);
    }
  }

  lemma EventKeepsThreads(cfg: Config, s: State, e: Event)
    requires cfg.net.Valid() && LocalInv(s) && Enabled(s, e) && !e.AllocatorStep?
    ensures forall t :: t in Apply(cfg, s, e).alloc.threads ==> t in Apply(cfg, s, e).requests
  {
    if !e.PeersWrite? && e.t in s.requests {
      assert RequestInv(s, e.t);
    }
  }

  lemma EventKeeps(cfg: Config, s: State, e: Event)
    requires cfg.net.Valid() && Inv(cfg, s) && Enabled(s, e)
    ensures Inv(cfg, Apply(cfg, s, e))
  {
    var a := AllocatorEvent(s, e);
    if a.Some? {
      A.ApplyKeeps(cfg, s.alloc, a.value);
    }
    if e.AllocatorStep? {
      assert A.ThreadInv(cfg, Apply(cfg, s, e).alloc, Apply(cfg, s, e).alloc.threads[e.t]);
      AllocatorStepKeeps(cfg, s, e.t);
    } else {
      EventKeepsLocal(cfg, s, e);
    }
  }

  lemma {:induction false} RunKeeps(cfg: Config, states: seq<State>, es: seq<Event>, i: nat)
    requires cfg.net.Valid() && IsRun(cfg, states, es) && i < |states|
    ensures Inv(cfg, states[i])
  {
    if i > 0 {
      RunKeeps(cfg, states, es, i - 1);
      EventKeeps(cfg, states[i - 1], es[i - 1]);
    }
  }

  // ---------- what every run guarantees ----------

  /** Every record made since boot is backed by a live reservation of exactly its address, under its ID. */
  lemma RecordsAreBacked(cfg: Config, states: seq<State>, es: seq<Event>, i: nat, id: string)
    requires cfg.net.Valid() && IsRun(cfg, states, es) && i < |states| && id in states[i].ours
    ensures var s := states[i];
      && id in s.records
      && Holds(s.alloc, s.records[id].network, s.records[id].ip, id)
      && exists v :: AddressOf(cfg, s.records[id].ip, v)
  {
    RunKeeps(cfg, states, es, i);
  }

  /** Two records made since boot on one network never share an address. */
  lemma RecordsNeverShare(cfg: Config, states: seq<State>, es: seq<Event>, i: nat, id1: string, id2: string)
    requires cfg.net.Valid() && IsRun(cfg, states, es) && i < |states|
    requires id1 in states[i].ours && id2 in states[i].ours && id1 != id2
    requires id1 in states[i].records && id2 in states[i].records
    requires states[i].records[id1].network == states[i].records[id2].network
    ensures states[i].records[id1].ip != states[i].records[id2].ip
  {
    RecordsAreBacked(cfg, states, es, i, id1);
    RecordsAreBacked(cfg, states, es, i, id2);
  }

  /** With no overlapping requests for one ID, an ID holds at most one address on each network. */
  lemma OneAddressPerContainer(cfg: Config, states: seq<State>, es: seq<Event>, i: nat, network: string, id: string,
    j: string, k: string)
    requires cfg.net.Valid() && IsRun(cfg, states, es) && i < |states|
    requires Holds(states[i].alloc, network, j, id) && Holds(states[i].alloc, network, k, id)
    ensures j == k
  {
    RunKeeps(cfg, states, es, i);
  }

  /** The allocator events of the first i events of a run. */
  ghost function Projected(states: seq<State>, es: seq<Event>, i: nat): seq<A.Event>
    requires i <= |es| < |states| && forall k {:trigger es[k]} :: 0 <= k < |es| ==> Enabled(states[k], es[k])
  {
    if i == 0 then []
    else
      var a := AllocatorEvent(states[i - 1], es[i - 1]);
      Projected(states, es, i - 1) + (if a.Some? then [a.value] else [])
  }

  /** The allocator inside a run of requests does what it does in a run of its own. */
  lemma {:induction false} RequestsRunTheAllocator(cfg: Config, states: seq<State>, es: seq<Event>, i: nat)
    requires cfg.net.Valid() && IsRun(cfg, states, es) && i < |states|
    ensures A.Run(cfg, Projected(states, es, i)) == Some(states[i].alloc)
  {
    if i > 0 {
      RequestsRunTheAllocator(cfg, states, es, i - 1);
      var before := Projected(states, es, i - 1);
      var a := AllocatorEvent(states[i - 1], es[i - 1]);
      assert Enabled(states[i - 1], es[i - 1]);
      if a.Some? {
        assert (before + [a.value])[..|before|] == before;
      } else {
        assert before + [] == before;
      }
    }
  }

  // ---------- what a request does, whatever runs in between ----------

  predicate Of(e: Event, t: nat) {
    !e.PeersWrite? && e.t == t
  }

  /** Nobody else moves a request along. */
  lemma {:induction false} RequestKept(cfg: Config, states: seq<State>, es: seq<Event>, i: nat, j: nat, t: nat)
    requires cfg.net.Valid() && IsRun(cfg, states, es) && i <= j <= |es| && t in states[i].requests
    requires forall k :: i <= k < j ==> !Of(es[k], t)
    ensures t in states[j].requests && states[j].requests[t] == states[i].requests[t]
    decreases j
  {
    hide Enabled, Apply;
    if i < j {
      RequestKept(cfg, states, es, i, j - 1, t);
      OthersKeepRequest(cfg, states[j - 1], es[j - 1], t);
    }
  }

  lemma OthersKeepRequest(cfg: Config, s: State, e: Event, t: nat)
    requires cfg.net.Valid() && Enabled(s, e) && !Of(e, t) && t in s.requests
    ensures t in Apply(cfg, s, e).requests && Apply(cfg, s, e).requests[t] == s.requests[t]
  {
    hide RecordOf, A.Apply, A.Enabled;
  }

  lemma SetUpStep(cfg: Config, s: State, e: Event)
    requires cfg.net.Valid() && Enabled(s, e) && e.SetupSucceeds?
    ensures e.t in s.requests && s.requests[e.t].phase.SettingUp? && To4(s.requests[e.t].phase.ip).Some?
    ensures var r := s.requests[e.t];
      Apply(cfg, s, e).requests == s.requests[e.t := r.(phase := Recording(
        Container(id := r.id, ip := ToString(r.phase.ip), mac := e.mac, hostIP := e.hostIP, network := r.network,
          sandbox := e.sandbox, app := e.app)))]
  {
  }

  lemma InsertStep(cfg: Config, s: State, t: nat)
    requires cfg.net.Valid() && Enabled(s, RecordInserted(t))
    ensures t in s.requests && s.requests[t].phase.Recording?
    ensures var r, s' := s.requests[t], Apply(cfg, s, RecordInserted(t));
      && r.id !in s.records && s'.records == s.records[r.id := r.phase.record] && s'.ours == s.ours + {r.id}
      && s'.requests == s.requests - {t} && s'.alloc == s.alloc
  {
  }

  /**
   An Add whose setup succeeds and whose record is then inserted adds, whatever other requests do in between, one
   record: of its ID, the address it was given and its network, with what the setup found.
   */
  lemma AddRecords(cfg: Config, states: seq<State>, es: seq<Event>, i: nat, j: nat, t: nat)
    requires cfg.net.Valid() && IsRun(cfg, states, es) && i < j < |es|
    requires es[i].SetupSucceeds? && es[i].t == t && es[j] == RecordInserted(t)
    requires forall k :: i < k < j ==> !Of(es[k], t)
    ensures t in states[i].requests && states[i].requests[t].phase.SettingUp?
    ensures To4(states[i].requests[t].phase.ip).Some?
    ensures var r, e := states[i].requests[t], es[i];
      && r.id !in states[j].records && r.id in states[j + 1].ours
      && states[j + 1].records == states[j].records[r.id := Container(id := r.id, ip := ToString(r.phase.ip),
           mac := e.mac, hostIP := e.hostIP, network := r.network, sandbox := e.sandbox, app := e.app)]
  {
    hide Apply, Enabled;
    SetUpStep(cfg, states[i], es[i]);
    RequestKept(cfg, states, es, i + 1, j, t);
    InsertStep(cfg, states[j], t);
  }

  lemma FetchStep(cfg: Config, s: State, t: nat)
    requires cfg.net.Valid() && Enabled(s, RecordFetched(t))
    ensures t in s.requests && s.requests[t].id in s.records
    ensures var r := s.requests[t];
      Apply(cfg, s, RecordFetched(t)).requests == s.requests[t := r.(phase := TearingDown(s.records[r.id].network))]
  {
  }

  lemma TornDownStep(cfg: Config, s: State, t: nat)
    requires cfg.net.Valid() && Enabled(s, TornDown(t))
    ensures t in s.requests && s.requests[t].phase.TearingDown?
    ensures var r := s.requests[t];
      Apply(cfg, s, TornDown(t)).requests == s.requests[t := r.(phase := Unrecording(r.phase.network))]
  {
  }

  lemma DeleteStep(cfg: Config, s: State, t: nat)
    requires cfg.net.Valid() && Enabled(s, RecordDeleted(t))
    ensures t in s.requests && s.requests[t].phase.Unrecording?
    ensures var r, s' := s.requests[t], Apply(cfg, s, RecordDeleted(t));
      && s'.records == s.records - {r.id} && r.id !in s'.ours
      && s'.alloc == s.alloc.(threads := s.alloc.threads[t := A.Thread(r.phase.network, r.id, A.AtReleaseStore)])
  {
  }

  /**
   A Del that has read a record, torn the container down and deleted the record goes on, whatever other requests do in
   between, to release the ID's addresses on the network that the record named.
   */
  lemma DelReleases(cfg: Config, states: seq<State>, es: seq<Event>, i: nat, m: nat, j: nat, t: nat)
    requires cfg.net.Valid() && IsRun(cfg, states, es) && i < m < j < |es|
    requires es[i] == RecordFetched(t) && es[m] == TornDown(t) && es[j] == RecordDeleted(t)
    requires forall k :: i < k < j && k != m ==> !Of(es[k], t)
    ensures t in states[i].requests && states[i].requests[t].id in states[i].records
    ensures var id := states[i].requests[t].id;
      && states[j + 1].records == states[j].records - {id} && id !in states[j + 1].ours
      && t in states[j + 1].alloc.threads
      && states[j + 1].alloc.threads[t] == A.Thread(states[i].records[id].network, id, A.AtReleaseStore)
  {
    hide Apply, Enabled;
    FetchStep(cfg, states[i], t);
    RequestKept(cfg, states, es, i + 1, m, t);
    TornDownStep(cfg, states[m], t);
    RequestKept(cfg, states, es, m + 1, j, t);
    DeleteStep(cfg, states[j], t);
  }
}
