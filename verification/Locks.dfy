/**
 The daemon's mutexes: one per sandbox, one of the sandbox repository, one of the miss watcher. Any number of
 calls run at once. A call is a program of work and scoped locking (every Lock has its deferred Unlock); any
 piece of work may fail, and a failing call gives up what it has left and only unlocks.
 */
module Locks {
  import opened Wrappers

  datatype Lock = SandboxLock(id: nat) | RepositoryLock | WatcherLock

  function Rank(l: Lock): nat {
    match l
    case SandboxLock(_) => 0
    case RepositoryLock => 1
    case WatcherLock => 2
  }

  /** A piece of work under no lock of its own; the numbers name sandbox objects. */
  datatype Piece =
    // what no lock guards
    | OpenContainer | ResolveAddress | MakeVxlan | MakeVeth | ConfigureEnd | ReadHardwareAddress | FindNamespace | Watch
    // the repository's table, and a sandbox nobody else has yet
    | LookUp | Register | LoopbackUp | LoadFiles | Unregister
    // the watcher's table of done channels
    | RegisterDone | CloseDone
    // the inside of a sandbox
    | CountVeths(s: nat) | DropVxlan(s: nat) | MakeDNS(s: nat) | LaunchDNS(s: nat) | VxlanUp(s: nat) | BridgeUp(s: nat)
    | MoveLink(s: nat) | MarkDestroyed(s: nat) | Dismantle(s: nat)

  datatype Prog = Work(piece: Piece) | With(lock: Lock, body: seq<Prog>)

  // ---------- the calls ----------

  /**
   A sandbox is looked up by name again and again, and another may be registered under it by then: so a call has one
   object for each look-up.
   */
  datatype Call =
    | Setup(create: bool, moved: nat, dns: nat, sandbox: nat, target: nat)   // Creator.Setup
    | Cleanup(sandbox: nat, empty: bool, destroyed: nat)                      // CleanupSandbox
    | StartDNS(sandbox: nat)                                                  // StartDNSServer
    | Reload(sandboxes: nat)                          // Repository.ForEach with the reloader
    | Load                                            // Repository.Load
    | Create                                          // Repository.Create
    | Get                                             // Repository.Get
    | Destroy(destroyed: nat)                         // Repository.Destroy
    | StartMonitor                                    // missWatcher.StartMonitor
    | StopMonitor                                     // missWatcher.StopMonitor

  const GET: Prog := With(RepositoryLock, [Work(LookUp)])

  const CREATE: Prog := With(RepositoryLock, [Work(LookUp), Work(Register), Work(LoopbackUp)])

  /** The watcher's lock is held only to register the channel; the goroutines start after it. */
  const START_MONITOR: seq<Prog> := [With(WatcherLock, [Work(RegisterDone)]), Work(Watch)]

  const STOP_MONITOR: Prog := With(WatcherLock, [Work(CloseDone)])

  /** Destroy tears the sandbox down, which stops its monitor, under the repository's lock. */
  function DestroyProg(destroyed: nat): Prog {
    With(RepositoryLock,
      [Work(LookUp), STOP_MONITOR, Work(MarkDestroyed(destroyed)), Work(Dismantle(destroyed)), Work(Unregister)])
  }

  function StartDNSProg(sandbox: nat): seq<Prog> {
    [Work(ResolveAddress), GET, With(SandboxLock(sandbox), [Work(MakeDNS(sandbox)), Work(LaunchDNS(sandbox))])]
  }

  /** Creation takes no lock of the sandbox before its DNS server is started. */
  function CreationProg(moved: nat, dns: nat): seq<Prog> {
    [CREATE, Work(MakeVxlan), GET, Work(MoveLink(moved))] + StartDNSProg(dns)
  }

  /** The namespace file is looked up without a lock; the move of the veth looks the sandbox up again. */
  function WiringProg(sandbox: nat, target: nat): Prog {
    With(SandboxLock(sandbox),
      [Work(VxlanUp(sandbox)), Work(FindNamespace)] + START_MONITOR
      + [Work(MakeVeth), GET, Work(MoveLink(target)), Work(ConfigureEnd), Work(BridgeUp(sandbox)),
         Work(ReadHardwareAddress)])
  }

  function ReloadProg(n: nat): seq<Prog> {
    if n == 0 then [] else [Work(LookUp)] + START_MONITOR + ReloadProg(n - 1)
  }

  function CleanupBody(sandbox: nat, empty: bool, destroyed: nat): seq<Prog> {
    [Work(CountVeths(sandbox))] + if empty then [Work(DropVxlan(sandbox)), DestroyProg(destroyed)] else []
  }

  function ProgOf(c: Call): seq<Prog> {
    match c
    case Setup(create, moved, dns, sandbox, target) =>
      [Work(OpenContainer), GET]
      + (if create then CreationProg(moved, dns) else [])
      + [GET, WiringProg(sandbox, target)]
    case Cleanup(sandbox, empty, destroyed) => [GET, With(SandboxLock(sandbox), CleanupBody(sandbox, empty, destroyed))]
    case StartDNS(sandbox) => StartDNSProg(sandbox)
    case Reload(n) => [With(RepositoryLock, ReloadProg(n))]
    case Load => [With(RepositoryLock, [Work(LoadFiles)])]
    case Create => [CREATE]
    case Get => [GET]
    case Destroy(destroyed) => [DestroyProg(destroyed)]
    case StartMonitor => START_MONITOR
    case StopMonitor => [STOP_MONITOR]
  }

  // ---------- running calls ----------

  datatype Frame = Todo(prog: Prog) | Unlock(lock: Lock)

  /** What a thread has yet to do, first thing first. */
  type Thread = seq<Frame>

  datatype State = State(owners: map<Lock, nat>, threads: seq<Thread>)

  datatype Event = Spawn(call: Call) | Step(t: nat) | Fail(t: nat)

  function Todos(ps: seq<Prog>): Thread {
    if ps == [] then [] else [Todo(ps[0])] + Todos(ps[1..])
  }

  /** What is left of a call that fails: its deferred unlocks. */
  function Unwind(th: Thread): Thread {
    if th == [] then [] else (if th[0].Unlock? then [th[0]] else []) + Unwind(th[1..])
  }

  predicate CanStep(s: State, t: nat) {
    && t < |s.threads| && s.threads[t] != []
    && (s.threads[t][0].Todo? && s.threads[t][0].prog.With? ==> s.threads[t][0].prog.lock !in s.owners)
  }

  predicate CanFail(s: State, t: nat) {
    t < |s.threads| && s.threads[t] != [] && s.threads[t][0].Todo? && s.threads[t][0].prog.Work?
  }

  predicate Enabled(s: State, e: Event) {
    match e
    case Spawn(_) => true
    case Step(t) => CanStep(s, t)
    case Fail(t) => CanFail(s, t)
  }

  function Apply(s: State, e: Event): State
    requires Enabled(s, e)
  {
    match e
    case Spawn(call) => s.(threads := s.threads + [Todos(ProgOf(call))])
    case Fail(t) => s.(threads := s.threads[t := Unwind(s.threads[t])])
    case Step(t) =>
      var rest := s.threads[t][1..];
      match s.threads[t][0]
      case Todo(Work(_)) => s.(threads := s.threads[t := rest])
      case Todo(With(l, body)) => State(s.owners[l := t], s.threads[t := Todos(body) + [Unlock(l)] + rest])
      case Unlock(l) => State(s.owners - {l}, s.threads[t := rest])
  }

  function Run(es: seq<Event>): Option<State> {
    if es == [] then Some(State(map[], []))
    else
      var before := Run(es[..|es| - 1]);
      if before.Some? && Enabled(before.value, es[|es| - 1])
      then Some(Apply(before.value, es[|es| - 1])) else None
  }

  // ---------- the order of locks ----------

  /** Every lock inside is taken above the locks around it: sandbox, then repository, then watcher. */
  predicate Ordered(p: Prog, floor: int)
    decreases p
  {
    p.With? ==> Rank(p.lock) > floor && forall q :: q in p.body ==> Ordered(q, Rank(p.lock))
  }

  predicate AllOrdered(ps: seq<Prog>, floor: int) {
    forall p :: p in ps ==> Ordered(p, floor)
  }

  /** The highest rank a thread holds. */
  function Floor(th: Thread): int {
    if th == [] then -1
    else if th[0].Unlock? then Rank(th[0].lock)
    else Floor(th[1..])
  }

  predicate WellNested(th: Thread) {
    th == [] || (WellNested(th[1..])
      && match th[0]
         case Todo(p) => Ordered(p, Floor(th[1..]))
         case Unlock(l) => Rank(l) > Floor(th[1..]))
  }

  lemma PartsOrdered(floor: int)
    requires floor < 1
    ensures Ordered(GET, floor) && Ordered(CREATE, floor) && forall d :: Ordered(DestroyProg(d), floor)
    ensures AllOrdered(START_MONITOR, 1) && AllOrdered(START_MONITOR, floor) && Ordered(STOP_MONITOR, floor)
  {
    assert forall w: Piece, f: int :: Ordered(Work(w), f);
    assert Ordered(STOP_MONITOR, 1);
  }

  lemma {:induction false} ReloadOrdered(n: nat)
    ensures AllOrdered(ReloadProg(n), 1)
  {
    if n > 0 {
      ReloadOrdered(n - 1);
      PartsOrdered(0);
    }
  }

  lemma WiringOrdered(sandbox: nat, target: nat)
    ensures Ordered(WiringProg(sandbox, target), -1)
  {
    PartsOrdered(0);
  }

  lemma StartDNSOrdered(sandbox: nat)
    ensures AllOrdered(StartDNSProg(sandbox), -1)
  {
    PartsOrdered(-1);
  }

  /** Every call of the daemon takes its locks in the order sandbox, repository, watcher. */
  lemma CallsAreOrdered(c: Call)
    ensures AllOrdered(ProgOf(c), -1)
  {
    PartsOrdered(-1);
    PartsOrdered(0);
    match c
    case Setup(_, _, dns, sandbox, target) =>
      StartDNSOrdered(dns);
      WiringOrdered(sandbox, target);
    case StartDNS(sandbox) => StartDNSOrdered(sandbox);
    case Reload(n) => ReloadOrdered(n);
    case _ =>
  }

  // ---------- the invariant ----------

  predicate Holds(th: Thread, l: Lock) {
    Unlock(l) in th
  }

  /** Threads are well nested, and a lock's owner is the one thread that will unlock it. */
  ghost predicate Inv(s: State) {
    && (forall t :: 0 <= t < |s.threads| ==> WellNested(s.threads[t]))
    && (forall l :: l in s.owners ==> s.owners[l] < |s.threads| && Holds(s.threads[s.owners[l]], l))
    && (forall t, l :: 0 <= t < |s.threads| && Holds(s.threads[t], l) ==> l in s.owners && s.owners[l] == t)
  }

  /** A thread by its first frame. */
  lemma FrameFirst(f: Frame, th: Thread)
    ensures WellNested([f] + th) <==>
      WellNested(th) && (if f.Todo? then Ordered(f.prog, Floor(th)) else Rank(f.lock) > Floor(th))
    ensures Floor([f] + th) == if f.Unlock? then Rank(f.lock) else Floor(th)
    ensures Left([f] + th) == (if f.Unlock? then 1 else Cost(f.prog)) + Left(th)
  {
    hide Ordered, Cost;
    assert ([f] + th)[0] == f && ([f] + th)[1..] == th;
  }

  lemma {:induction false} TodosNested(ps: seq<Prog>, rest: Thread)
    requires AllOrdered(ps, Floor(rest)) && WellNested(rest)
    ensures WellNested(Todos(ps) + rest) && Floor(Todos(ps) + rest) == Floor(rest)
  {
    hide Ordered, WellNested, Floor;
    if ps == [] {
      assert Todos(ps) + rest == rest;
    } else {
      TodosNested(ps[1..], rest);
      FrameFirst(Todo(ps[0]), Todos(ps[1..]) + rest);
      assert Todos(ps) + rest == [Todo(ps[0])] + (Todos(ps[1..]) + rest);
    }
  }

  /** What is still to do holds nothing yet. */
  lemma {:induction false} TodosHold(ps: seq<Prog>, rest: Thread, l: Lock)
    ensures Holds(Todos(ps) + rest, l) <==> Holds(rest, l)
  {
    if ps == [] {
      assert Todos(ps) + rest == rest;
    } else {
      TodosHold(ps[1..], rest, l);
      assert Todos(ps) + rest == [Todo(ps[0])] + (Todos(ps[1..]) + rest);
    }
  }

  lemma {:induction false} UnwindHolds(th: Thread, l: Lock)
    ensures Holds(Unwind(th), l) <==> Holds(th, l)
  {
    if th != [] {
      UnwindHolds(th[1..], l);
      assert th == [th[0]] + th[1..];
      if th[0].Unlock? {
        assert Unwind(th) == [th[0]] + Unwind(th[1..]);
      } else {
        assert Unwind(th) == Unwind(th[1..]);
      }
    }
  }

  lemma {:induction false} UnwindNested(th: Thread)
    requires WellNested(th)
    ensures WellNested(Unwind(th)) && Floor(Unwind(th)) == Floor(th)
  {
    if th != [] {
      UnwindNested(th[1..]);
      if th[0].Unlock? {
        assert Unwind(th)[1..] == Unwind(th[1..]);
      } else {
        assert Unwind(th) == Unwind(th[1..]);
      }
    }
  }

  /** A thread holds nothing above its floor, and nothing twice. */
  lemma {:induction false} FloorIsHighest(th: Thread, l: Lock)
    requires WellNested(th) && Holds(th, l)
    ensures Rank(l) <= Floor(th)
  {
    assert th == [th[0]] + th[1..];
    if th[0] != Unlock(l) {
      FloorIsHighest(th[1..], l);
    }
  }

  lemma ApplyKeeps(s: State, e: Event)
    requires Inv(s) && Enabled(s, e)
    ensures Inv(Apply(s, e))
  {
    match e
    case Spawn(call) =>
      CallsAreOrdered(call);
      TodosNested(ProgOf(call), []);
      assert Todos(ProgOf(call)) + [] == Todos(ProgOf(call));
      forall l
        ensures !Holds(Todos(ProgOf(call)), l)
      {
        TodosHold(ProgOf(call), [], l);
      }
    case Fail(t) =>
      UnwindNested(s.threads[t]);
      forall l
        ensures Holds(Unwind(s.threads[t]), l) <==> Holds(s.threads[t], l)
      {
        UnwindHolds(s.threads[t], l);
      }
    case Step(t) => StepKeeps(s, t);
  }

  lemma StepKeeps(s: State, t: nat)
    requires Inv(s) && CanStep(s, t)
    ensures Inv(Apply(s, Step(t)))
  {
    var th := s.threads[t];
    if th[0].Unlock? {
      UnlockKeeps(s, t);
    } else if th[0].prog.Work? {
      var rest := th[1..];
      assert th == [th[0]] + rest;
      assert forall l :: Holds(th, l) <==> Holds(rest, l);
    } else {
      LockKeeps(s, t);
    }
  }

  lemma LockKeeps(s: State, t: nat)
    requires Inv(s) && CanStep(s, t) && s.threads[t][0].Todo? && s.threads[t][0].prog.With?
    ensures Inv(Apply(s, Step(t)))
  {
    var th := s.threads[t];
    var rest := th[1..];
    var With(l, body) := th[0].prog;
    var unlock := [Unlock(l)] + rest;
    assert th == [th[0]] + rest && unlock[1..] == rest;
    TodosNested(body, unlock);
    assert Todos(body) + [Unlock(l)] + rest == Todos(body) + unlock;
    forall m
      ensures Holds(Todos(body) + unlock, m) <==> Holds(unlock, m)
    {
      TodosHold(body, unlock, m);
    }
    assert forall m :: Holds(unlock, m) <==> m == l || Holds(rest, m);
    assert forall m :: Holds(th, m) <==> Holds(rest, m);
  }

  lemma UnlockKeeps(s: State, t: nat)
    requires Inv(s) && CanStep(s, t) && s.threads[t][0].Unlock?
    ensures Inv(Apply(s, Step(t)))
  {
    var th := s.threads[t];
    var rest := th[1..];
    var l := th[0].lock;
    var s' := Apply(s, Step(t));
    assert th == [th[0]] + rest;
    assert Holds(th, l);
    assert forall m :: Holds(th, m) <==> m == l || Holds(rest, m);
    if Holds(rest, l) {
      FloorIsHighest(rest, l);
      assert false;
    }
    forall u, m | 0 <= u < |s'.threads| && Holds(s'.threads[u], m)
      ensures m in s'.owners && s'.owners[m] == u
    {
      if u == t {
        assert s'.threads[u] == rest && m != l && Holds(th, m);
      } else {
        assert s'.threads[u] == s.threads[u] && s.owners[m] == u && s.owners[l] == t;
      }
    }
  }

  lemma {:induction false} RunKeeps(es: seq<Event>)
    ensures Run(es).Some? ==> Inv(Run(es).value)
  {
    if es != [] {
      RunKeeps(es[..|es| - 1]);
      var before := Run(es[..|es| - 1]);
      if before.Some? && Enabled(before.value, es[|es| - 1]) {
        ApplyKeeps(before.value, es[|es| - 1]);
      }
    }
  }

  // ---------- no deadlock ----------

  /** Who can move when t cannot: follow the owner of the lock it waits for; ranks only go up. */
  lemma {:induction false} SomeoneCanStep(s: State, t: nat) returns (u: nat)
    requires Inv(s) && t < |s.threads| && s.threads[t] != []
    ensures CanStep(s, u)
    decreases 3 - Floor(s.threads[t])
  {
    u := t;
    if !CanStep(s, t) {
      var th := s.threads[t];
      var l := th[0].prog.lock;
      var owner := s.owners[l];
      FloorIsHighest(s.threads[owner], l);
      u := SomeoneCanStep(s, owner);
    }
  }

  /** No reachable state is deadlocked: while any call is unfinished, some call can move. */
  lemma NeverDeadlocked(es: seq<Event>, t: nat)
    requires Run(es).Some? && t < |Run(es).value.threads| && Run(es).value.threads[t] != []
    ensures exists u :: CanStep(Run(es).value, u)
  {
    RunKeeps(es);
    var u := SomeoneCanStep(Run(es).value, t);
  }

  /** A thread never holds two sandbox locks. */
  lemma OneSandboxLock(es: seq<Event>, t: nat, a: nat, b: nat)
    requires Run(es).Some? && t < |Run(es).value.threads|
    requires Holds(Run(es).value.threads[t], SandboxLock(a)) && Holds(Run(es).value.threads[t], SandboxLock(b))
    ensures a == b
  {
    RunKeeps(es);
    SandboxLockIsLowest(Run(es).value.threads[t], a, b);
  }

  lemma {:induction false} SandboxLockIsLowest(th: Thread, a: nat, b: nat)
    requires WellNested(th) && Holds(th, SandboxLock(a)) && Holds(th, SandboxLock(b))
    ensures a == b
  {
    assert th == [th[0]] + th[1..];
    if th[0] == Unlock(SandboxLock(a)) {
      if Holds(th[1..], SandboxLock(b)) {
        FloorIsHighest(th[1..], SandboxLock(b));
      }
    } else if th[0] == Unlock(SandboxLock(b)) {
      FloorIsHighest(th[1..], SandboxLock(a));
    } else {
      SandboxLockIsLowest(th[1..], a, b);
    }
  }

  // ---------- every call finishes ----------

  function Cost(p: Prog): nat
    decreases p, 1
  {
    match p
    case Work(_) => 1
    case With(_, body) => 2 + CostAll(body)
  }

  function CostAll(ps: seq<Prog>): nat
    decreases ps, 0
  {
    if ps == [] then 0 else Cost(ps[0]) + CostAll(ps[1..])
  }

  function Left(th: Thread): nat {
    if th == [] then 0 else (if th[0].Unlock? then 1 else Cost(th[0].prog)) + Left(th[1..])
  }

  function TotalLeft(ths: seq<Thread>): nat {
    if ths == [] then 0 else Left(ths[0]) + TotalLeft(ths[1..])
  }

  lemma {:induction false} LeftOfTodos(ps: seq<Prog>, rest: Thread)
    ensures Left(Todos(ps) + rest) == CostAll(ps) + Left(rest)
  {
    if ps == [] {
      assert Todos(ps) + rest == rest;
    } else {
      hide Left, Cost;
      LeftOfTodos(ps[1..], rest);
      FrameFirst(Todo(ps[0]), Todos(ps[1..]) + rest);
      assert Todos(ps) + rest == [Todo(ps[0])] + (Todos(ps[1..]) + rest);
    }
  }

  lemma {:induction false} LeftOfUnwind(th: Thread)
    ensures Left(Unwind(th)) <= Left(th)
  {
    if th != [] {
      LeftOfUnwind(th[1..]);
      if th[0].Unlock? {
        assert Unwind(th)[1..] == Unwind(th[1..]);
      } else {
        assert Unwind(th) == Unwind(th[1..]);
      }
    }
  }

  lemma {:induction false} TotalLeftUpdate(ths: seq<Thread>, t: nat, th: Thread)
    requires t < |ths|
    ensures TotalLeft(ths[t := th]) == TotalLeft(ths) - Left(ths[t]) + Left(th)
  {
    if t > 0 {
      TotalLeftUpdate(ths[1..], t - 1, th);
      assert ths[t := th][1..] == ths[1..][t - 1 := th];
    } else {
      assert ths[t := th][1..] == ths[1..];
    }
  }

  /** Every step and every failure leaves strictly less to do. */
  lemma StepsUseUp(s: State, e: Event)
    requires Enabled(s, e) && !e.Spawn?
    ensures TotalLeft(Apply(s, e).threads) < TotalLeft(s.threads)
  {
    var th := s.threads[e.t];
    var rest := th[1..];
    TotalLeftUpdate(s.threads, e.t, Apply(s, e).threads[e.t]);
    if e.Fail? {
      LeftOfUnwind(rest);
      assert Unwind(th) == Unwind(rest);
    } else if th[0].Todo? && th[0].prog.With? {
      var l := th[0].prog.lock;
      var unlock := [Unlock(l)] + rest;
      assert unlock[1..] == rest;
      LeftOfTodos(th[0].prog.body, unlock);
      assert Todos(th[0].prog.body) + [Unlock(l)] + rest == Todos(th[0].prog.body) + unlock;
    }
  }

  /** Where nobody can move, every call has finished and every lock is free. */
  lemma StuckIsDone(s: State)
    requires Inv(s)
    ensures (forall t: nat :: !CanStep(s, t)) ==> s.owners == map[] && forall t :: 0 <= t < |s.threads| ==>
      s.threads[t] == []
  {
    hide CanStep, WellNested;
    if forall t: nat :: !CanStep(s, t) {
      forall t | 0 <= t < |s.threads|
        ensures s.threads[t] == []
      {
        if s.threads[t] != [] {
          var u := SomeoneCanStep(s, t);
        }
      }
      assert s.owners == map[];
    }
  }

  /**
   Once no new calls arrive, only so many steps remain; and where none is possible every call has finished and
   every lock is free.
   */
  lemma {:induction false} CallsFinish(before: seq<Event>, es: seq<Event>)
    requires Run(before + es).Some? && forall e :: e in es ==> !e.Spawn?
    ensures Run(before).Some? &&
      |es| <= TotalLeft(Run(before).value.threads) - TotalLeft(Run(before + es).value.threads)
    ensures var end := Run(before + es).value;
      (forall t: nat :: !CanStep(end, t)) ==> end.owners == map[] && forall t :: 0 <= t < |end.threads| ==>
        end.threads[t] == []
  {
    RunKeeps(before + es);
    StuckIsDone(Run(before + es).value);
    hide Inv, Enabled, Apply, TotalLeft;
    if es == [] {
      assert before + es == before;
    } else {
      var init := es[..|es| - 1];
      assert (before + es)[..|before + es| - 1] == before + init;
      CallsFinish(before, init);
      StepsUseUp(Run(before + init).value, es[|es| - 1]);
    }
  }
}
