/**
 What the mutexes are for: whose lock a call holds at each piece of its work, and that nobody else is then inside the
 same sandbox, the repository's table or the watcher's. Two calls do not keep to it: moving a link into a sandbox and
 destroying one go by the sandbox's name, whoever holds the lock.
 */
module Exclusion {
  import opened Wrappers
  import opened Locks

  /**
   The lock that guards what a piece of work touches. If `strict`, moving a link into a sandbox and taking a sandbox
   down are among what its lock has to guard.
   */
  function Needs(x: Piece, strict: bool): Option<Lock> {
    match x
    case CountVeths(s) => Some(SandboxLock(s))
    case DropVxlan(s) => Some(SandboxLock(s))
    case MakeDNS(s) => Some(SandboxLock(s))
    case LaunchDNS(s) => Some(SandboxLock(s))
    case VxlanUp(s) => Some(SandboxLock(s))
    case BridgeUp(s) => Some(SandboxLock(s))
    case MoveLink(s) => if strict then Some(SandboxLock(s)) else None
    case MarkDestroyed(s) => if strict then Some(SandboxLock(s)) else None
    case Dismantle(s) => if strict then Some(SandboxLock(s)) else None
    case LookUp => Some(RepositoryLock)
    case Register => Some(RepositoryLock)
    case LoopbackUp => Some(RepositoryLock)
    case LoadFiles => Some(RepositoryLock)
    case Unregister => Some(RepositoryLock)
    case RegisterDone => Some(WatcherLock)
    case CloseDone => Some(WatcherLock)
    case _ => None
  }

  // ---------- the work of each call ----------

  function PiecesOf(p: Prog): seq<Piece>
    decreases p, 1
  {
    match p
    case Work(x) => [x]
    case With(_, body) => Pieces(body)
  }

  function Pieces(ps: seq<Prog>): seq<Piece>
    decreases ps, 0
  {
    if ps == [] then [] else PiecesOf(ps[0]) + Pieces(ps[1..])
  }

  lemma {:induction false} PiecesConcat(a: seq<Prog>, b: seq<Prog>)
    ensures Pieces(a + b) == Pieces(a) + Pieces(b)
  {
    hide PiecesOf;
    if a == [] {
      assert a + b == b;
    } else {
      PiecesConcat(a[1..], b);
      assert (a + b)[0] == a[0] && (a + b)[1..] == a[1..] + b;
      var first, more, rest := PiecesOf(a[0]), Pieces(a[1..]), Pieces(b);
      assert first + (more + rest) == (first + more) + rest;
    }
  }

  lemma PiecesFirst(p: Prog, ps: seq<Prog>)
    ensures Pieces([p] + ps) == (match p case Work(x) => [x] case With(_, body) => Pieces(body)) + Pieces(ps)
    ensures Pieces([p]) == match p case Work(x) => [x] case With(_, body) => Pieces(body)
  {
    assert ([p] + ps)[1..] == ps && [p][1..] == [];
  }

  lemma {:induction false} PiecesOfWorks(ps: seq<Prog>, xs: seq<Piece>)
    requires |ps| == |xs| && forall i :: 0 <= i < |ps| ==> ps[i] == Work(xs[i])
    ensures Pieces(ps) == xs
  {
    if ps != [] {
      PiecesOfWorks(ps[1..], xs[1..]);
      assert xs == [xs[0]] + xs[1..];
    }
  }

  lemma PiecesOfParts()
    ensures Pieces([GET]) == [LookUp] && Pieces([CREATE]) == [LookUp, Register, LoopbackUp]
    ensures Pieces(START_MONITOR) == [RegisterDone, Watch] && Pieces([STOP_MONITOR]) == [CloseDone]
  {
    PiecesFirst(GET, []);
    PiecesFirst(CREATE, []);
    PiecesFirst(STOP_MONITOR, []);
    PiecesOfWorks([Work(LookUp)], [LookUp]);
    PiecesOfWorks([Work(CloseDone)], [CloseDone]);
    PiecesOfWorks([Work(LookUp), Work(Register), Work(LoopbackUp)], [LookUp, Register, LoopbackUp]);
    PiecesOfWorks([Work(RegisterDone)], [RegisterDone]);
    PiecesFirst(With(WatcherLock, [Work(RegisterDone)]), [Work(Watch)]);
    PiecesOfWorks([Work(Watch)], [Watch]);
    assert START_MONITOR == [With(WatcherLock, [Work(RegisterDone)])] + [Work(Watch)];
  }

  lemma PiecesOfDestroy(d: nat)
    ensures Pieces([DestroyProg(d)]) == [LookUp, CloseDone, MarkDestroyed(d), Dismantle(d), Unregister]
  {
    hide Pieces;
    PiecesOfParts();
    PiecesFirst(DestroyProg(d), []);
    var rest := [Work(MarkDestroyed(d)), Work(Dismantle(d)), Work(Unregister)];
    PiecesOfWorks(rest, [MarkDestroyed(d), Dismantle(d), Unregister]);
    PiecesFirst(Work(LookUp), [STOP_MONITOR] + rest);
    PiecesConcat([STOP_MONITOR], rest);
    assert DestroyProg(d).body == [Work(LookUp)] + ([STOP_MONITOR] + rest);
  }

  lemma PiecesOfStartDNS(s: nat)
    ensures Pieces(StartDNSProg(s)) == [ResolveAddress, LookUp, MakeDNS(s), LaunchDNS(s)]
  {
    hide Pieces;
    PiecesOfParts();
    var inside := With(SandboxLock(s), [Work(MakeDNS(s)), Work(LaunchDNS(s))]);
    PiecesOfWorks(inside.body, [MakeDNS(s), LaunchDNS(s)]);
    PiecesFirst(inside, []);
    PiecesConcat([GET], [inside]);
    PiecesFirst(Work(ResolveAddress), [GET] + [inside]);
    assert StartDNSProg(s) == [Work(ResolveAddress)] + ([GET] + [inside]);
  }

  lemma PiecesOfCreation(moved: nat, dns: nat)
    ensures Pieces(CreationProg(moved, dns)) ==
      [LookUp, Register, LoopbackUp, MakeVxlan, LookUp, MoveLink(moved), ResolveAddress, LookUp, MakeDNS(dns),
       LaunchDNS(dns)]
  {
    hide Pieces;
    PiecesOfParts();
    PiecesOfStartDNS(dns);
    PiecesFirst(Work(MoveLink(moved)), StartDNSProg(dns));
    PiecesConcat([GET], [Work(MoveLink(moved))] + StartDNSProg(dns));
    PiecesFirst(Work(MakeVxlan), [GET] + ([Work(MoveLink(moved))] + StartDNSProg(dns)));
    PiecesConcat([CREATE], [Work(MakeVxlan)] + ([GET] + ([Work(MoveLink(moved))] + StartDNSProg(dns))));
    assert CreationProg(moved, dns) ==
      [CREATE] + ([Work(MakeVxlan)] + ([GET] + ([Work(MoveLink(moved))] + StartDNSProg(dns))));
  }

  lemma PiecesOfWiring(s: nat, target: nat)
    ensures Pieces([WiringProg(s, target)]) ==
      [VxlanUp(s), FindNamespace, RegisterDone, Watch, MakeVeth, LookUp, MoveLink(target), ConfigureEnd, BridgeUp(s),
       ReadHardwareAddress]
  {
    hide Pieces;
    PiecesOfParts();
    PiecesFirst(WiringProg(s, target), []);
    var first := [Work(VxlanUp(s)), Work(FindNamespace)];
    var last := [Work(MoveLink(target)), Work(ConfigureEnd), Work(BridgeUp(s)), Work(ReadHardwareAddress)];
    PiecesOfWorks(first, [VxlanUp(s), FindNamespace]);
    PiecesOfWorks(last, [MoveLink(target), ConfigureEnd, BridgeUp(s), ReadHardwareAddress]);
    PiecesConcat(first, START_MONITOR);
    PiecesConcat([GET], last);
    PiecesFirst(Work(MakeVeth), [GET] + last);
    PiecesConcat(first + START_MONITOR, [Work(MakeVeth)] + ([GET] + last));
    assert WiringProg(s, target).body == first + START_MONITOR + ([Work(MakeVeth)] + ([GET] + last));
  }

  lemma PiecesOfCleanup(s: nat, empty: bool, d: nat)
    ensures Pieces(CleanupBody(s, empty, d)) == [CountVeths(s)] +
      if empty then [DropVxlan(s), LookUp, CloseDone, MarkDestroyed(d), Dismantle(d), Unregister] else []
  {
    hide Pieces;
    PiecesOfDestroy(d);
    PiecesOfWorks([Work(CountVeths(s))], [CountVeths(s)]);
    if empty {
      PiecesFirst(Work(DropVxlan(s)), [DestroyProg(d)]);
      PiecesFirst(Work(CountVeths(s)), [Work(DropVxlan(s))] + [DestroyProg(d)]);
      assert CleanupBody(s, empty, d) == [Work(CountVeths(s))] + ([Work(DropVxlan(s))] + [DestroyProg(d)]);
    } else {
      assert CleanupBody(s, empty, d) == [Work(CountVeths(s))];
    }
  }

  /** What each call does, in order. */
  lemma CallsDoTheirWork(c: Call)
    requires !c.Reload?
    ensures Pieces(ProgOf(c)) == match c
      case Setup(create, moved, dns, s, target) =>
        [OpenContainer, LookUp]
        + (if create then
             [LookUp, Register, LoopbackUp, MakeVxlan, LookUp, MoveLink(moved),
              ResolveAddress, LookUp, MakeDNS(dns), LaunchDNS(dns)] else [])
        + [LookUp, VxlanUp(s), FindNamespace, RegisterDone, Watch, MakeVeth, LookUp, MoveLink(target), ConfigureEnd,
           BridgeUp(s), ReadHardwareAddress]
      case Cleanup(s, empty, d) =>
        [LookUp, CountVeths(s)]
        + (if empty then [DropVxlan(s), LookUp, CloseDone, MarkDestroyed(d), Dismantle(d), Unregister] else [])
      case StartDNS(s) => [ResolveAddress, LookUp, MakeDNS(s), LaunchDNS(s)]
      case Load => [LoadFiles]
      case Create => [LookUp, Register, LoopbackUp]
      case Get => [LookUp]
      case Destroy(d) => [LookUp, CloseDone, MarkDestroyed(d), Dismantle(d), Unregister]
      case StartMonitor => [RegisterDone, Watch]
      case StopMonitor => [CloseDone]
      case _ => []
  {
    hide Pieces;
    PiecesOfParts();
    match c
    case Setup(create, moved, dns, s, target) =>
      PiecesFirst(Work(OpenContainer), [GET]);
      assert [Work(OpenContainer)] + [GET] == [Work(OpenContainer), GET];
      var made := if create then CreationProg(moved, dns) else [];
      PiecesOfCreation(moved, dns);
      PiecesOfWorks([], []);
      PiecesConcat([Work(OpenContainer), GET], made);
      PiecesOfWiring(s, target);
      PiecesConcat([GET], [WiringProg(s, target)]);
      assert [GET] + [WiringProg(s, target)] == [GET, WiringProg(s, target)];
      PiecesConcat([Work(OpenContainer), GET] + made, [GET, WiringProg(s, target)]);
    case Cleanup(s, empty, d) =>
      PiecesOfCleanup(s, empty, d);
      PiecesFirst(With(SandboxLock(s), CleanupBody(s, empty, d)), []);
      PiecesConcat([GET], [With(SandboxLock(s), CleanupBody(s, empty, d))]);
      assert ProgOf(c) == [GET] + [With(SandboxLock(s), CleanupBody(s, empty, d))];
    case StartDNS(s) => PiecesOfStartDNS(s);
    case Load =>
      PiecesFirst(With(RepositoryLock, [Work(LoadFiles)]), []);
      PiecesOfWorks([Work(LoadFiles)], [LoadFiles]);
    case Destroy(d) => PiecesOfDestroy(d);
    case _ =>
  }

  /** Reloading takes the sandboxes one after the other. */
  lemma {:induction false} ReloadsAll(n: nat, k: nat)
    requires k < n
    ensures var xs := Pieces(ProgOf(Reload(n)));
      |xs| == 3 * n && xs[3 * k..3 * k + 3] == [LookUp, RegisterDone, Watch]
  {
    PiecesFirst(With(RepositoryLock, ReloadProg(n)), []);
    ReloadPieces(n, k);
  }

  lemma {:induction false} ReloadPieces(n: nat, k: nat)
    requires n > 0 ==> k < n
    ensures var xs := Pieces(ReloadProg(n));
      |xs| == 3 * n && (n > 0 ==> xs[3 * k..3 * k + 3] == [LookUp, RegisterDone, Watch])
  {
    hide Pieces;
    PiecesOfWorks([], []);
    if n > 0 {
      PiecesOfParts();
      ReloadPieces(n - 1, if k > 0 then k - 1 else 0);
      var rest := ReloadProg(n - 1);
      PiecesConcat(START_MONITOR, rest);
      PiecesFirst(Work(LookUp), START_MONITOR + rest);
      assert ReloadProg(n) == [Work(LookUp)] + (START_MONITOR + rest);
      var xs, more := Pieces(ReloadProg(n)), Pieces(rest);
      assert xs == [LookUp, RegisterDone, Watch] + more;
      if k > 0 {
        assert xs[3 * k..3 * k + 3] == more[3 * (k - 1)..3 * (k - 1) + 3];
      }
    }
  }

  // ---------- every piece under its lock ----------

  /** Whatever the program does, it does under the lock it needs, if it starts with the locks in `held`. */
  predicate Guarded(p: Prog, held: set<Lock>, strict: bool) {
    match p
    case Work(x) => Needs(x, strict).Some? ==> Needs(x, strict).value in held
    case With(l, body) => forall q :: q in body ==> Guarded(q, held + {l}, strict)
  }

  predicate AllGuarded(ps: seq<Prog>, held: set<Lock>, strict: bool) {
    forall p :: p in ps ==> Guarded(p, held, strict)
  }

  /** Moves into and takes down no sandbox but the one it has locked. */
  predicate Disciplined(c: Call) {
    match c
    case Setup(create, _, _, sandbox, target) => !create && target == sandbox
    case Cleanup(sandbox, empty, destroyed) => empty ==> destroyed == sandbox
    case Destroy(_) => false
    case _ => true
  }

  lemma PartsGuarded(held: set<Lock>, strict: bool)
    ensures Guarded(GET, held, strict) && Guarded(CREATE, held, strict) && Guarded(STOP_MONITOR, held, strict)
    ensures AllGuarded(START_MONITOR, held, strict)
  {
  }

  lemma DestroyGuarded(destroyed: nat, held: set<Lock>, strict: bool)
    ensures Guarded(DestroyProg(destroyed), held, strict) <==> (strict ==> SandboxLock(destroyed) in held)
  {
    PartsGuarded(held + {RepositoryLock}, strict);
    var body := DestroyProg(destroyed).body;
    assert Work(Dismantle(destroyed)) in body;
  }

  lemma StartDNSGuarded(sandbox: nat, strict: bool)
    ensures AllGuarded(StartDNSProg(sandbox), {}, strict)
  {
    PartsGuarded({}, strict);
  }

  lemma CreationGuarded(moved: nat, dns: nat, strict: bool)
    ensures AllGuarded(CreationProg(moved, dns), {}, strict) <==> !strict
  {
    PartsGuarded({}, strict);
    StartDNSGuarded(dns, strict);
    assert Work(MoveLink(moved)) in CreationProg(moved, dns);
  }

  lemma WiringGuarded(sandbox: nat, target: nat, strict: bool)
    ensures Guarded(WiringProg(sandbox, target), {}, strict) <==> (strict ==> target == sandbox)
  {
    hide START_MONITOR, GET;
    var held := {SandboxLock(sandbox)};
    PartsGuarded(held, strict);
    assert {} + held == held;
    var body := WiringProg(sandbox, target).body;
    assert Work(MoveLink(target)) in body;
    assert Guarded(Work(MoveLink(target)), held, strict) <==> (strict ==> target == sandbox);
    forall q | q in body && q != Work(MoveLink(target))
      ensures Guarded(q, held, strict)
    {
      assert q in START_MONITOR || q == GET || q.Work?;
    }
  }

  lemma CleanupGuarded(sandbox: nat, empty: bool, destroyed: nat, strict: bool)
    ensures Guarded(With(SandboxLock(sandbox), CleanupBody(sandbox, empty, destroyed)), {}, strict)
      <==> (strict && empty ==> destroyed == sandbox)
  {
    DestroyGuarded(destroyed, {SandboxLock(sandbox)}, strict);
    assert {} + {SandboxLock(sandbox)} == {SandboxLock(sandbox)};
    assert empty ==> DestroyProg(destroyed) in CleanupBody(sandbox, empty, destroyed);
  }

  lemma {:induction false} ReloadGuarded(n: nat, strict: bool)
    ensures AllGuarded(ReloadProg(n), {RepositoryLock}, strict)
  {
    PartsGuarded({RepositoryLock}, strict);
    if n > 0 {
      ReloadGuarded(n - 1, strict);
    }
  }

  /** Every call does each piece of its work under the lock it needs; strictly so exactly the disciplined ones. */
  lemma CallsAreGuarded(c: Call)
    ensures AllGuarded(ProgOf(c), {}, false)
    ensures AllGuarded(ProgOf(c), {}, true) <==> Disciplined(c)
  {
    forall strict: bool
      ensures AllGuarded(ProgOf(c), {}, strict) <==> (strict ==> Disciplined(c))
    {
      CallIsGuarded(c, strict);
    }
  }

  lemma CallIsGuarded(c: Call, strict: bool)
    ensures AllGuarded(ProgOf(c), {}, strict) <==> (strict ==> Disciplined(c))
  {
    hide Guarded, START_MONITOR;
    PartsGuarded({}, strict);
    WorkNeeds(OpenContainer, strict);
    match c
    case Setup(create, moved, dns, sandbox, target) =>
      CreationGuarded(moved, dns, strict);
      WiringGuarded(sandbox, target, strict);
      assert WiringProg(sandbox, target) in ProgOf(c);
      assert create ==> forall p :: p in CreationProg(moved, dns) ==> p in ProgOf(c);
    case Cleanup(sandbox, empty, destroyed) =>
      CleanupGuarded(sandbox, empty, destroyed, strict);
      assert With(SandboxLock(sandbox), CleanupBody(sandbox, empty, destroyed)) in ProgOf(c);
    case StartDNS(sandbox) => StartDNSGuarded(sandbox, strict);
    case Reload(n) =>
      ReloadGuarded(n, strict);
      UnderRepositoryLock(ReloadProg(n), strict);
    case Load =>
      UnderRepositoryLock([Work(LoadFiles)], strict);
    case Destroy(destroyed) =>
      DestroyGuarded(destroyed, {}, strict);
      assert DestroyProg(destroyed) in ProgOf(c);
    case _ =>
  }

  lemma WorkNeeds(x: Piece, strict: bool)
    ensures Guarded(Work(x), {}, strict) <==> Needs(x, strict).None?
    ensures x == LoadFiles ==> Guarded(Work(x), {RepositoryLock}, strict)
  {
  }

  lemma UnderRepositoryLock(body: seq<Prog>, strict: bool)
    ensures AllGuarded(body, {RepositoryLock}, strict) ==> Guarded(With(RepositoryLock, body), {}, strict)
    ensures AllGuarded([Work(LoadFiles)], {RepositoryLock}, strict)
  {
    assert {} + {RepositoryLock} == {RepositoryLock};
  }

  // ---------- threads ----------

  function HeldBy(th: Thread): set<Lock> {
    set f | f in th && f.Unlock? :: f.lock
  }

  /** Each thing the thread has yet to do, it will do under the locks it needs. */
  predicate ThreadGuarded(th: Thread, strict: bool) {
    th == [] || (ThreadGuarded(th[1..], strict)
      && (th[0].Todo? ==> Guarded(th[0].prog, HeldBy(th[1..]), strict)))
  }

  lemma HeldByFirst(f: Frame, th: Thread)
    ensures HeldBy([f] + th) == HeldBy(th) + (if f.Unlock? then {f.lock} else {})
    ensures forall l :: l in HeldBy(th) <==> Holds(th, l)
  {
  }

  lemma {:induction false} TodosGuarded(ps: seq<Prog>, rest: Thread, strict: bool)
    requires AllGuarded(ps, HeldBy(rest), strict) && ThreadGuarded(rest, strict)
    ensures ThreadGuarded(Todos(ps) + rest, strict) && HeldBy(Todos(ps) + rest) == HeldBy(rest)
  {
    hide Guarded, HeldBy;
    if ps == [] {
      assert Todos(ps) + rest == rest;
    } else {
      TodosGuarded(ps[1..], rest, strict);
      var later := Todos(ps[1..]) + rest;
      assert Todos(ps) + rest == [Todo(ps[0])] + later && ([Todo(ps[0])] + later)[1..] == later;
      HeldByFirst(Todo(ps[0]), later);
    }
  }

  lemma {:induction false} UnwindGuarded(th: Thread, strict: bool)
    ensures ThreadGuarded(Unwind(th), strict)
  {
    if th != [] {
      UnwindGuarded(th[1..], strict);
      var rest := Unwind(th[1..]);
      assert th[0].Unlock? ==> Unwind(th) == [th[0]] + rest && ([th[0]] + rest)[1..] == rest;
      assert !th[0].Unlock? ==> Unwind(th) == rest by { assert [] + rest == rest; }
    }
  }

  ghost predicate StateGuarded(s: State, strict: bool) {
    forall t :: 0 <= t < |s.threads| ==> ThreadGuarded(s.threads[t], strict)
  }

  lemma StepGuarded(s: State, t: nat, strict: bool)
    requires StateGuarded(s, strict) && CanStep(s, t)
    ensures StateGuarded(Apply(s, Step(t)), strict)
  {
    hide HeldBy;
    var th := s.threads[t];
    var rest := th[1..];
    if th[0].Todo? && th[0].prog.With? {
      var With(l, body) := th[0].prog;
      var unlock := [Unlock(l)] + rest;
      assert unlock[1..] == rest;
      HeldByFirst(Unlock(l), rest);
      TodosGuarded(body, unlock, strict);
      assert Todos(body) + [Unlock(l)] + rest == Todos(body) + unlock;
    }
  }

  lemma NothingIsGuarded(strict: bool)
    ensures ThreadGuarded([], strict)
  {
  }

  lemma SpawnGuarded(s: State, c: Call, strict: bool)
    requires StateGuarded(s, strict) && (strict ==> Disciplined(c))
    ensures StateGuarded(Apply(s, Spawn(c)), strict)
  {
    hide ThreadGuarded, Guarded, Disciplined;
    CallsAreGuarded(c);
    assert HeldBy([]) == {};
    NothingIsGuarded(strict);
    TodosGuarded(ProgOf(c), [], strict);
    assert Todos(ProgOf(c)) + [] == Todos(ProgOf(c));
  }

  /** All the calls of a run are disciplined. */
  predicate AllDisciplined(es: seq<Event>) {
    forall i :: 0 <= i < |es| && es[i].Spawn? ==> Disciplined(es[i].call)
  }

  lemma {:induction false} RunGuarded(es: seq<Event>, strict: bool)
    requires Run(es).Some? && (strict ==> AllDisciplined(es))
    ensures StateGuarded(Run(es).value, strict)
  {
    if es != [] {
      hide StateGuarded, Disciplined, CanStep, CanFail;
      var init, last := es[..|es| - 1], es[|es| - 1];
      RunGuarded(init, strict);
      var s := Run(init).value;
      match last
      case Spawn(c) => SpawnGuarded(s, c, strict);
      case Step(t) => StepGuarded(s, t, strict);
      case Fail(t) => FailGuarded(s, t, strict);
    }
  }

  lemma FailGuarded(s: State, t: nat, strict: bool)
    requires StateGuarded(s, strict) && CanFail(s, t)
    ensures StateGuarded(Apply(s, Fail(t)), strict)
  {
    UnwindGuarded(s.threads[t], strict);
  }

  /** The next thing the thread does is this piece of work. */
  predicate About(s: State, t: nat, x: Piece) {
    t < |s.threads| && s.threads[t] != [] && s.threads[t][0] == Todo(Work(x))
  }

  /** In every reachable state a call about to do a piece of work owns the lock that guards it. */
  lemma WorkIsGuarded(es: seq<Event>, t: nat, x: Piece, strict: bool)
    requires Run(es).Some? && (strict ==> AllDisciplined(es))
    requires About(Run(es).value, t, x) && Needs(x, strict).Some?
    ensures var owners := Run(es).value.owners;
      Needs(x, strict).value in owners && owners[Needs(x, strict).value] == t
  {
    RunKeeps(es);
    RunGuarded(es, strict);
    var th := Run(es).value.threads[t];
    HeldByFirst(th[0], th[1..]);
    assert Holds(th[1..], Needs(x, strict).value) && th == [th[0]] + th[1..];
  }

  /** So no two calls are ever inside one sandbox, or in one of the tables, at once. */
  lemma NoTwoInside(es: seq<Event>, t: nat, x: Piece, u: nat, y: Piece, strict: bool)
    requires Run(es).Some? && (strict ==> AllDisciplined(es))
    requires About(Run(es).value, t, x) && About(Run(es).value, u, y)
    requires Needs(x, strict).Some? && Needs(x, strict) == Needs(y, strict)
    ensures t == u
  {
    WorkIsGuarded(es, t, x, strict);
    WorkIsGuarded(es, u, y, strict);
  }

  // ---------- one visit to a sandbox is one critical section ----------

  /** Neither touches the sandbox nor takes its lock. */
  predicate KeepsOut(p: Prog, s: nat) {
    match p
    case Work(x) => Needs(x, true) != Some(SandboxLock(s))
    case With(l, body) => l != SandboxLock(s) && forall q :: q in body ==> KeepsOut(q, s)
  }

  predicate ThreadKeepsOut(th: Thread, s: nat) {
    forall f :: f in th && f.Todo? ==> KeepsOut(f.prog, s)
  }

  predicate Takes(f: Frame, s: nat) {
    f.Todo? && f.prog.With? && f.prog.lock == SandboxLock(s)
  }

  /** Once the thread has left the sandbox, or where it takes its lock next and leaves again, it does not come back. */
  predicate LastVisit(th: Thread, s: nat) {
    th == [] || (if th[0] == Unlock(SandboxLock(s)) || Takes(th[0], s) then ThreadKeepsOut(th[1..], s)
                 else LastVisit(th[1..], s))
  }

  /** The pieces with which cleanup and the wiring of a container begin what they do in a sandbox. */
  predicate Begins(x: Piece, s: nat) {
    x == CountVeths(s) || x == VxlanUp(s)
  }

  predicate NeverBegins(p: Prog, s: nat) {
    match p
    case Work(x) => !Begins(x, s)
    case With(_, body) => forall q :: q in body ==> NeverBegins(q, s)
  }

  /** Wherever the thread begins such a visit, it is the last. */
  predicate BeginsLast(th: Thread, s: nat) {
    th == [] || (BeginsLast(th[1..], s) && (th[0].Todo? && !NeverBegins(th[0].prog, s) ==> LastVisit(th, s)))
  }

  lemma {:induction false} KeepingOutIsLast(th: Thread, s: nat)
    requires ThreadKeepsOut(th, s)
    ensures LastVisit(th, s)
  {
    if th != [] {
      KeepingOutIsLast(th[1..], s);
    }
  }

  lemma {:induction false} LastVisitOver(ps: seq<Prog>, th: Thread, s: nat)
    requires LastVisit(th, s) && forall p :: p in ps ==> !Takes(Todo(p), s)
    ensures LastVisit(Todos(ps) + th, s)
  {
    if ps == [] {
      assert Todos(ps) + th == th;
    } else {
      LastVisitOver(ps[1..], th, s);
      var later := Todos(ps[1..]) + th;
      assert Todos(ps) + th == [Todo(ps[0])] + later && ([Todo(ps[0])] + later)[1..] == later;
    }
  }

  lemma {:induction false} BeginsLastOver(ps: seq<Prog>, th: Thread, s: nat)
    requires BeginsLast(th, s)
    requires (exists p :: p in ps && !NeverBegins(p, s)) ==>
      LastVisit(th, s) && forall p :: p in ps ==> !Takes(Todo(p), s)
    ensures BeginsLast(Todos(ps) + th, s)
  {
    hide NeverBegins, LastVisit;
    if ps == [] {
      assert Todos(ps) + th == th;
    } else {
      BeginsLastOver(ps[1..], th, s);
      if !NeverBegins(ps[0], s) {
        LastVisitOver(ps, th, s);
      }
      var later := Todos(ps[1..]) + th;
      assert Todos(ps) + th == [Todo(ps[0])] + later && ([Todo(ps[0])] + later)[1..] == later;
    }
  }

  lemma {:induction false} UnwoundKeepsOut(th: Thread, s: nat)
    ensures ThreadKeepsOut(Unwind(th), s) && LastVisit(Unwind(th), s) && BeginsLast(Unwind(th), s)
  {
    if th != [] {
      UnwoundKeepsOut(th[1..], s);
      var rest := Unwind(th[1..]);
      assert th[0].Unlock? ==> Unwind(th) == [th[0]] + rest && ([th[0]] + rest)[1..] == rest;
      assert !th[0].Unlock? ==> Unwind(th) == rest by { assert [] + rest == rest; }
      KeepingOutIsLast(Unwind(th), s);
    }
  }

  /** Inside a lock a sandbox's lock is never taken. */
  lemma NoSandboxLockInside(p: Prog, floor: int, s: nat)
    requires p.With? && Ordered(p, floor)
    ensures forall q :: q in p.body ==> !Takes(Todo(q), s)
  {
  }

  lemma StepKeepsLast(s: State, t: nat, box: nat)
    requires CanStep(s, t) && WellNested(s.threads[t])
    requires LastVisit(s.threads[t], box)
    ensures var th := Apply(s, Step(t)).threads[t];
      LastVisit(th, box) && (Holds(s.threads[t], SandboxLock(box)) ==>
        Holds(th, SandboxLock(box)) || ThreadKeepsOut(th, box))
  {
    hide ThreadKeepsOut, KeepsOut, Ordered;
    var th := s.threads[t];
    var rest := th[1..];
    assert th == [th[0]] + rest;
    if th[0].Todo? && th[0].prog.With? {
      var With(l, body) := th[0].prog;
      var unlock := [Unlock(l)] + rest;
      assert unlock[1..] == rest;
      NoSandboxLockInside(th[0].prog, Floor(rest), box);
      LastVisitOver(body, unlock, box);
      assert Todos(body) + [Unlock(l)] + rest == Todos(body) + unlock;
      TodosHold(body, unlock, SandboxLock(box));
    } else if th[0] == Unlock(SandboxLock(box)) {
      KeepingOutIsLast(rest, box);
    }
  }

  lemma {:induction false} TodosKeepOut(ps: seq<Prog>, th: Thread, s: nat)
    requires ThreadKeepsOut(th, s) && forall p :: p in ps ==> KeepsOut(p, s)
    ensures ThreadKeepsOut(Todos(ps) + th, s)
  {
    hide KeepsOut;
    if ps == [] {
      assert Todos(ps) + th == th;
    } else {
      TodosKeepOut(ps[1..], th, s);
      assert Todos(ps) + th == [Todo(ps[0])] + (Todos(ps[1..]) + th);
    }
  }

  lemma StepKeepsOut(s: State, t: nat, box: nat)
    requires CanStep(s, t) && ThreadKeepsOut(s.threads[t], box)
    ensures ThreadKeepsOut(Apply(s, Step(t)).threads[t], box)
  {
    var th := s.threads[t];
    var rest := th[1..];
    assert th == [th[0]] + rest;
    if th[0].Todo? && th[0].prog.With? {
      var With(l, body) := th[0].prog;
      var unlock := [Unlock(l)] + rest;
      TodosKeepOut(body, unlock, box);
      assert Todos(body) + [Unlock(l)] + rest == Todos(body) + unlock;
    }
  }

  lemma StepKeepsBeginsLast(s: State, t: nat, box: nat)
    requires CanStep(s, t) && WellNested(s.threads[t])
    requires BeginsLast(s.threads[t], box)
    ensures BeginsLast(Apply(s, Step(t)).threads[t], box)
  {
    hide LastVisit, Ordered;
    var th := s.threads[t];
    var rest := th[1..];
    assert th == [th[0]] + rest;
    if th[0].Todo? && th[0].prog.With? {
      var With(l, body) := th[0].prog;
      var unlock := [Unlock(l)] + rest;
      assert unlock[1..] == rest;
      NoSandboxLockInside(th[0].prog, Floor(rest), box);
      if exists p :: p in body && !NeverBegins(p, box) {
        LastAfterLocking(th, box);
      }
      BeginsLastOver(body, unlock, box);
      assert Todos(body) + [Unlock(l)] + rest == Todos(body) + unlock;
    }
  }

  lemma LastAfterLocking(th: Thread, box: nat)
    requires th != [] && th[0].Todo? && th[0].prog.With? && LastVisit(th, box)
    ensures LastVisit([Unlock(th[0].prog.lock)] + th[1..], box)
  {
    var unlock := [Unlock(th[0].prog.lock)] + th[1..];
    assert unlock[1..] == th[1..];
  }

  lemma PartsNeverBegin(box: nat)
    ensures NeverBegins(GET, box) && NeverBegins(CREATE, box) && NeverBegins(STOP_MONITOR, box)
    ensures forall p :: p in START_MONITOR ==> NeverBegins(p, box)
    ensures forall d :: NeverBegins(DestroyProg(d), box)
  {
    assert NeverBegins(STOP_MONITOR, box);
  }

  lemma StartDNSNeverBegins(sandbox: nat, box: nat)
    ensures forall p :: p in StartDNSProg(sandbox) ==> NeverBegins(p, box)
  {
    PartsNeverBegin(box);
  }

  lemma {:induction false} ReloadNeverBegins(n: nat, box: nat)
    ensures forall p :: p in ReloadProg(n) ==> NeverBegins(p, box)
  {
    PartsNeverBegin(box);
    if n > 0 {
      ReloadNeverBegins(n - 1, box);
    }
  }

  lemma CreationNeverBegins(moved: nat, dns: nat, box: nat)
    ensures forall p :: p in CreationProg(moved, dns) ==> NeverBegins(p, box)
  {
    PartsNeverBegin(box);
    StartDNSNeverBegins(dns, box);
  }

  lemma SectionsBegin(sandbox: nat, target: nat, empty: bool, destroyed: nat, box: nat)
    ensures sandbox != box ==>
      && NeverBegins(WiringProg(sandbox, target), box)
      && NeverBegins(With(SandboxLock(sandbox), CleanupBody(sandbox, empty, destroyed)), box)
  {
    hide GET, START_MONITOR, DestroyProg;
    PartsNeverBegin(box);
  }

  lemma WiringTakes(sandbox: nat, target: nat)
    ensures Takes(Todo(WiringProg(sandbox, target)), sandbox)
  {
  }

  lemma WithNeverBegins(l: Lock, body: seq<Prog>, box: nat)
    requires forall p :: p in body ==> NeverBegins(p, box)
    ensures NeverBegins(With(l, body), box)
  {
  }

  lemma PrimitivesNeverBegin(box: nat)
    ensures NeverBegins(Work(OpenContainer), box) && NeverBegins(Work(LoadFiles), box)
  {
  }

  /** Of a call's program at most the last part begins anything in the sandbox. */
  lemma OnlyTheLastBegins(c: Call, box: nat)
    ensures ProgOf(c) != [] && forall p :: p in ProgOf(c)[..|ProgOf(c)| - 1] ==> NeverBegins(p, box)
    ensures var last := ProgOf(c)[|ProgOf(c)| - 1];
      NeverBegins(last, box) || Takes(Todo(last), box)
  {
    hide NeverBegins, WiringProg, CleanupBody, CreationProg, DestroyProg, GET, CREATE, STOP_MONITOR;
    PartsNeverBegin(box);
    PrimitivesNeverBegin(box);
    match c
    case Setup(create, moved, dns, sandbox, target) =>
      var first := [Work(OpenContainer), GET] + (if create then CreationProg(moved, dns) else []);
      assert ProgOf(c)[..|ProgOf(c)| - 1] == first + [GET];
      CreationNeverBegins(moved, dns, box);
      SectionsBegin(sandbox, target, false, 0, box);
      WiringTakes(sandbox, target);
    case Cleanup(sandbox, empty, destroyed) =>
      SectionsBegin(sandbox, 0, empty, destroyed, box);
      assert ProgOf(c)[..1] == [GET];
    case StartDNS(sandbox) => StartDNSNeverBegins(sandbox, box);
    case Reload(n) =>
      ReloadNeverBegins(n, box);
      WithNeverBegins(RepositoryLock, ReloadProg(n), box);
    case Load => WithNeverBegins(RepositoryLock, [Work(LoadFiles)], box);
    case _ =>
  }

  lemma {:induction false} TodosConcat(a: seq<Prog>, b: seq<Prog>)
    ensures Todos(a + b) == Todos(a) + Todos(b)
  {
    if a == [] {
      assert a + b == b;
    } else {
      TodosConcat(a[1..], b);
      assert (a + b)[0] == a[0] && (a + b)[1..] == a[1..] + b;
    }
  }

  lemma SpawnBeginsLast(c: Call, box: nat)
    ensures BeginsLast(Todos(ProgOf(c)), box)
  {
    hide ProgOf, NeverBegins;
    OnlyTheLastBegins(c, box);
    var ps := ProgOf(c);
    var init, last := ps[..|ps| - 1], ps[|ps| - 1];
    assert ps == init + [last];
    TodosConcat(init, [last]);
    var th := [Todo(last)];
    assert Todos([last]) == th && th[1..] == [];
    assert BeginsLast([], box);
    assert ThreadKeepsOut([], box);
    assert BeginsLast(th, box);
    BeginsLastOver(init, th, box);
  }

  lemma {:induction false} RunBeginsLast(es: seq<Event>, box: nat)
    requires Run(es).Some?
    ensures forall t :: 0 <= t < |Run(es).value.threads| ==> BeginsLast(Run(es).value.threads[t], box)
  {
    if es != [] {
      hide BeginsLast, WellNested, CanStep, CanFail;
      var init, last := es[..|es| - 1], es[|es| - 1];
      RunBeginsLast(init, box);
      RunKeeps(init);
      var s := Run(init).value;
      match last
      case Spawn(c) => SpawnBeginsLast(c, box);
      case Step(t) => StepBeginsLast(s, t, box);
      case Fail(t) => UnwoundKeepsOut(s.threads[t], box);
    }
  }

  lemma StepBeginsLast(s: State, t: nat, box: nat)
    requires CanStep(s, t) && WellNested(s.threads[t])
    requires forall u :: 0 <= u < |s.threads| ==> BeginsLast(s.threads[u], box)
    ensures forall u :: 0 <= u < |Apply(s, Step(t)).threads| ==> BeginsLast(Apply(s, Step(t)).threads[u], box)
  {
    hide BeginsLast, WellNested;
    StepKeepsBeginsLast(s, t, box);
  }

  // ---------- alone inside ----------

  /** The state before the k-th event of a run. */
  function StateAt(es: seq<Event>, k: nat): State
    requires Run(es).Some? && k <= |es|
  {
    PrefixRuns(es, k);
    Run(es[..k]).value
  }

  lemma {:induction false} PrefixRuns(es: seq<Event>, k: nat)
    requires Run(es).Some? && k <= |es|
    ensures Run(es[..k]).Some?
    decreases |es|
  {
    if k < |es| {
      PrefixRuns(es[..|es| - 1], k);
      assert es[..|es| - 1][..k] == es[..k];
    } else {
      assert es[..k] == es;
    }
  }

  lemma StateAfter(es: seq<Event>, k: nat)
    requires Run(es).Some? && k < |es|
    ensures Enabled(StateAt(es, k), es[k]) && StateAt(es, k + 1) == Apply(StateAt(es, k), es[k])
  {
    hide Enabled, Apply;
    PrefixRuns(es, k + 1);
    assert es[..k + 1][..k] == es[..k];
  }

  /** From the beginning of its last visit on, a thread is in the sandbox until it keeps out for good. */
  predicate Visiting(th: Thread, box: nat) {
    LastVisit(th, box) && (Holds(th, SandboxLock(box)) || ThreadKeepsOut(th, box))
  }

  lemma EventKeepsVisiting(s: State, e: Event, t: nat, box: nat)
    requires Inv(s) && Enabled(s, e) && t < |s.threads| && Visiting(s.threads[t], box)
    ensures t < |Apply(s, e).threads| && Visiting(Apply(s, e).threads[t], box)
    ensures ThreadKeepsOut(s.threads[t], box) ==> ThreadKeepsOut(Apply(s, e).threads[t], box)
  {
    hide LastVisit, ThreadKeepsOut, WellNested;
    match e
    case Spawn(_) =>
    case Fail(u) => UnwoundKeepsOut(s.threads[u], box);
    case Step(u) =>
      if u == t {
        StepKeepsLast(s, t, box);
        if ThreadKeepsOut(s.threads[t], box) {
          StepKeepsOut(s, t, box);
        }
      }
  }

  lemma {:induction false} VisitGoesOn(es: seq<Event>, i: nat, k: nat, t: nat, box: nat)
    requires Run(es).Some? && i <= k <= |es|
    requires t < |StateAt(es, i).threads| && Visiting(StateAt(es, i).threads[t], box)
    ensures t < |StateAt(es, k).threads| && Visiting(StateAt(es, k).threads[t], box)
    ensures ThreadKeepsOut(StateAt(es, i).threads[t], box) ==> ThreadKeepsOut(StateAt(es, k).threads[t], box)
    decreases k
  {
    hide Visiting, ThreadKeepsOut, StateAt, Enabled, Apply, Inv;
    if i < k {
      VisitGoesOn(es, i, k - 1, t, box);
      StateAfter(es, k - 1);
      InvAt(es, k - 1);
      EventKeepsVisiting(StateAt(es, k - 1), es[k - 1], t, box);
    }
  }

  lemma InvAt(es: seq<Event>, k: nat)
    requires Run(es).Some? && k <= |es|
    ensures Inv(StateAt(es, k))
  {
    PrefixRuns(es, k);
    RunKeeps(es[..k]);
  }

  lemma BeginningsAreGuarded(x: Piece, box: nat)
    requires Begins(x, box)
    ensures Needs(x, false) == Some(SandboxLock(box))
  {
  }

  lemma BeginningVisits(es: seq<Event>, i: nat, t: nat, x: Piece, box: nat)
    requires Run(es).Some? && i < |es| && About(StateAt(es, i), t, x) && Begins(x, box)
    ensures Visiting(StateAt(es, i).threads[t], box)
  {
    hide LastVisit, ThreadKeepsOut, WellNested, Needs, Run;
    PrefixRuns(es, i);
    assert Needs(x, false) == Some(SandboxLock(box)) by { BeginningsAreGuarded(x, box); }
    RunBeginsLast(es[..i], box);
    WorkIsGuarded(es[..i], t, x, false);
    RunKeeps(es[..i]);
  }

  /** A thread that visits while another owns the lock has left already. */
  lemma OwnerIsOther(es: seq<Event>, k: nat, t: nat, u: nat, z: Piece, box: nat, strict: bool)
    requires Run(es).Some? && k <= |es| && u != t && t < |StateAt(es, k).threads|
    requires strict ==> AllDisciplined(es)
    requires About(StateAt(es, k), u, z) && Needs(z, strict) == Some(SandboxLock(box))
    requires Visiting(StateAt(es, k).threads[t], box)
    ensures ThreadKeepsOut(StateAt(es, k).threads[t], box)
  {
    hide ThreadKeepsOut, LastVisit, Needs, Disciplined;
    PrefixRuns(es, k);
    WorkIsGuarded(es[..k], u, z, strict);
    RunKeeps(es[..k]);
  }

  lemma NotOut(s: State, t: nat, y: Piece, box: nat)
    requires About(s, t, y) && Needs(y, true) == Some(SandboxLock(box))
    ensures !ThreadKeepsOut(s.threads[t], box)
  {
    assert s.threads[t][0] in s.threads[t];
    assert !KeepsOut(Work(y), box);
  }

  /**
   From the moment a cleanup counts the veths of a sandbox until it has taken the sandbox down, and from the moment
   the wiring of a container begins until it ends, no other call does anything inside that sandbox. If all calls are
   disciplined, none moves a link into it or takes it down either.
   */
  lemma AloneInside(es: seq<Event>, i: nat, j: nat, t: nat, x: Piece, y: Piece, box: nat, strict: bool)
    requires Run(es).Some? && i <= j < |es| && (strict ==> AllDisciplined(es))
    requires About(StateAt(es, i), t, x) && Begins(x, box)
    requires About(StateAt(es, j), t, y) && Needs(y, true) == Some(SandboxLock(box))
    ensures forall k, u, z :: i <= k <= j && u != t && About(StateAt(es, k), u, z) ==>
      Needs(z, strict) != Some(SandboxLock(box))
  {
    hide StateAt, Visiting, Needs, Begins, AllDisciplined, Inv;
    BeginningVisits(es, i, t, x, box);
    forall k, u, z | i <= k <= j && u != t && About(StateAt(es, k), u, z)
      ensures Needs(z, strict) != Some(SandboxLock(box))
    {
      VisitGoesOn(es, i, k, t, box);
      VisitGoesOn(es, k, j, t, box);
      if Needs(z, strict) == Some(SandboxLock(box)) {
        OwnerIsOther(es, k, t, u, z, box, strict);
        NotOut(StateAt(es, j), t, y, box);
      }
    }
  }

  // ---------- a link moved in while another call is inside ----------

  /** So many steps of one thread. */
  function Steps(t: nat, n: nat): (es: seq<Event>)
    ensures |es| == n
  {
    if n == 0 then [] else [Step(t)] + Steps(t, n - 1)
  }

  lemma {:induction false} StepsAdd(t: nat, m: nat, n: nat)
    ensures Steps(t, m) + Steps(t, n) == Steps(t, m + n)
  {
    if m > 0 {
      StepsAdd(t, m - 1, n);
    }
  }

  lemma OneMore(es: seq<Event>, e: Event)
    ensures Run(es + [e]) ==
      if Run(es).Some? && Enabled(Run(es).value, e) then Some(Apply(Run(es).value, e)) else None
  {
    hide Enabled, Apply;
    assert (es + [e])[..|es|] == es;
  }

  /** The thread has come to `th`, and nothing else has changed. */
  ghost predicate Comes(es: seq<Event>, s: State, t: nat, th: Thread) {
    t < |s.threads| && Run(es) == Some(s.(threads := s.threads[t := th]))
  }

  lemma Working(es: seq<Event>, s: State, t: nat, x: Piece, rest: Thread)
    requires Comes(es, s, t, [Todo(Work(x))] + rest)
    ensures Comes(es + [Step(t)], s, t, rest)
  {
    OneMore(es, Step(t));
    assert ([Todo(Work(x))] + rest)[1..] == rest;
    assert s.threads[t := [Todo(Work(x))] + rest][t := rest] == s.threads[t := rest];
  }

  lemma {:induction false} WorksOff(es: seq<Event>, s: State, t: nat, ps: seq<Prog>, rest: Thread)
    requires Comes(es, s, t, Todos(ps) + rest) && forall p :: p in ps ==> p.Work?
    ensures Comes(es + Steps(t, |ps|), s, t, rest)
    decreases |ps|
  {
    hide Comes;
    if ps == [] {
      assert es + Steps(t, 0) == es && Todos(ps) + rest == rest;
    } else {
      assert Todos(ps) + rest == [Todo(ps[0])] + (Todos(ps[1..]) + rest);
      Working(es, s, t, ps[0].piece, Todos(ps[1..]) + rest);
      WorksOff(es + [Step(t)], s, t, ps[1..], rest);
      assert es + [Step(t)] + Steps(t, |ps| - 1) == es + Steps(t, |ps|);
    }
  }

  lemma Locking(es: seq<Event>, s: State, t: nat, l: Lock, body: seq<Prog>, rest: Thread)
    requires Comes(es, s, t, [Todo(With(l, body))] + rest) && l !in s.owners
    ensures Comes(es + [Step(t)], s.(owners := s.owners[l := t]), t, Todos(body) + ([Unlock(l)] + rest))
  {
    OneMore(es, Step(t));
    assert ([Todo(With(l, body))] + rest)[1..] == rest;
    assert Todos(body) + [Unlock(l)] + rest == Todos(body) + ([Unlock(l)] + rest);
    var first := s.threads[t := [Todo(With(l, body))] + rest];
    var next := Todos(body) + ([Unlock(l)] + rest);
    assert first[t := next] == s.threads[t := next];
  }

  lemma Unlocking(es: seq<Event>, s: State, t: nat, l: Lock, rest: Thread)
    requires Comes(es, s.(owners := s.owners[l := t]), t, [Unlock(l)] + rest) && l !in s.owners
    ensures Comes(es + [Step(t)], s, t, rest)
  {
    OneMore(es, Step(t));
    assert ([Unlock(l)] + rest)[1..] == rest && s.owners[l := t] - {l} == s.owners;
    assert s.threads[t := [Unlock(l)] + rest][t := rest] == s.threads[t := rest];
  }

  /** A thread takes a free lock, does the work under it and gives it back. */
  lemma LocksAndUnlocks(es: seq<Event>, s: State, t: nat, l: Lock, body: seq<Prog>, rest: Thread)
    requires Comes(es, s, t, [Todo(With(l, body))] + rest) && l !in s.owners && forall p :: p in body ==> p.Work?
    ensures Comes(es + Steps(t, |body| + 2), s, t, rest)
  {
    hide Comes;
    Locking(es, s, t, l, body, rest);
    WorksOff(es + [Step(t)], s.(owners := s.owners[l := t]), t, body, [Unlock(l)] + rest);
    Unlocking(es + [Step(t)] + Steps(t, |body|), s, t, l, rest);
    StepsAdd(t, 1, |body|);
    StepsAdd(t, |body| + 1, 1);
    assert es + [Step(t)] + Steps(t, |body|) + [Step(t)] == es + Steps(t, |body| + 2);
  }

  /** What is left of the first Setup when it comes to move its vxlan link. */
  function ToMove(): seq<Prog> {
    [Work(MoveLink(0))] + StartDNSProg(0) + [GET, WiringProg(0, 0)]
  }

  lemma TodosFirst(p: Prog, ps: seq<Prog>)
    ensures Todos([p] + ps) == [Todo(p)] + Todos(ps)
  {
    assert ([p] + ps)[1..] == ps;
  }

  lemma FirstComesToMove(es: seq<Event>, s: State, t: nat)
    requires s.owners == map[] && Comes(es, s, t, Todos(ProgOf(Setup(true, 0, 0, 0, 0))))
    ensures Comes(es + Steps(t, 13), s, t, Todos(ToMove()))
  {
    hide Comes, GET, CREATE, Todos, WiringProg, StartDNSProg;
    var last := ToMove();
    var c := [GET] + last;
    var b := [Work(MakeVxlan)] + c;
    var a := [CREATE] + b;
    var g := [GET] + a;
    assert ProgOf(Setup(true, 0, 0, 0, 0)) == [Work(OpenContainer)] + g;
    TodosFirst(Work(OpenContainer), g);
    TodosFirst(GET, a);
    TodosFirst(CREATE, b);
    TodosFirst(Work(MakeVxlan), c);
    TodosFirst(GET, last);
    OneWork(es, s, t, OpenContainer, Todos(g));
    var es1 := es + Steps(t, 1);
    OneGet(es1, s, t, Todos(a));
    var es2 := es1 + Steps(t, 3);
    OneCreate(es2, s, t, Todos(b));
    var es3 := es2 + Steps(t, 5);
    OneWork(es3, s, t, MakeVxlan, Todos(c));
    var es4 := es3 + Steps(t, 1);
    OneGet(es4, s, t, Todos(last));
    StepsAdd(t, 1, 3);
    StepsAdd(t, 4, 5);
    StepsAdd(t, 9, 1);
    StepsAdd(t, 10, 3);
    assert es4 + Steps(t, 3) == es + Steps(t, 13);
  }

  lemma OneWork(es: seq<Event>, s: State, t: nat, x: Piece, rest: Thread)
    requires Comes(es, s, t, [Todo(Work(x))] + rest)
    ensures Comes(es + Steps(t, 1), s, t, rest)
  {
    hide Comes;
    assert Todos([Work(x)]) == [Todo(Work(x))];
    WorksOff(es, s, t, [Work(x)], rest);
  }

  lemma OneGet(es: seq<Event>, s: State, t: nat, rest: Thread)
    requires Comes(es, s, t, [Todo(GET)] + rest) && RepositoryLock !in s.owners
    ensures Comes(es + Steps(t, 3), s, t, rest)
  {
    hide Comes;
    LocksAndUnlocks(es, s, t, RepositoryLock, [Work(LookUp)], rest);
  }

  lemma OneCreate(es: seq<Event>, s: State, t: nat, rest: Thread)
    requires Comes(es, s, t, [Todo(CREATE)] + rest) && RepositoryLock !in s.owners
    ensures Comes(es + Steps(t, 5), s, t, rest)
  {
    hide Comes;
    LocksAndUnlocks(es, s, t, RepositoryLock, [Work(LookUp), Work(Register), Work(LoopbackUp)], rest);
  }

  lemma SecondComesInside(es: seq<Event>, s: State, t: nat)
    requires s.owners == map[] && Comes(es, s, t, Todos(ProgOf(Setup(false, 0, 0, 0, 0))))
    ensures Comes(es + Steps(t, 8), s.(owners := map[SandboxLock(0) := t]), t,
      Todos(WiringProg(0, 0).body) + [Unlock(SandboxLock(0))])
  {
    hide Comes, GET, Todos;
    var a := [WiringProg(0, 0)];
    var b := [GET] + a;
    var c := [GET] + b;
    assert ProgOf(Setup(false, 0, 0, 0, 0)) == [Work(OpenContainer)] + c;
    TodosFirst(Work(OpenContainer), c);
    TodosFirst(GET, b);
    TodosFirst(GET, a);
    OneWork(es, s, t, OpenContainer, Todos(c));
    OneGet(es + Steps(t, 1), s, t, Todos(b));
    OneGet(es + Steps(t, 1) + Steps(t, 3), s, t, Todos(a));
    StepsAdd(t, 1, 3);
    StepsAdd(t, 4, 3);
    StepsAdd(t, 7, 1);
    assert es + Steps(t, 1) + Steps(t, 3) + Steps(t, 3) == es + Steps(t, 7);
    WiringIsNext();
    Locking(es + Steps(t, 7), s, t, SandboxLock(0), WiringProg(0, 0).body, []);
    assert [Unlock(SandboxLock(0))] + [] == [Unlock(SandboxLock(0))];
    assert es + Steps(t, 7) + Steps(t, 1) == es + Steps(t, 8);
    assert Steps(t, 1) == [Step(t)];
    assert map[][SandboxLock(0) := t] == map[SandboxLock(0) := t];
  }

  lemma WiringIsNext()
    ensures Todos([WiringProg(0, 0)]) == [Todo(With(SandboxLock(0), WiringProg(0, 0).body))] + []
  {
  }

  /** Two Setups of one network: the first has registered the sandbox and comes to move its vxlan link in. */
  const MOVING_IN: seq<Event> :=
    [Spawn(Setup(true, 0, 0, 0, 0))] + Steps(0, 13) + [Spawn(Setup(false, 0, 0, 0, 0))] + Steps(1, 8)

  /** The second finds the sandbox, locks it and is about to work inside; the first moves the link in all the same. */
  lemma LinkMovedIntoLockedSandbox()
    ensures Run(MOVING_IN).Some?
    ensures var s := Run(MOVING_IN).value;
      && About(s, 0, MoveLink(0)) && About(s, 1, VxlanUp(0)) && s.owners == map[SandboxLock(0) := 1]
      && CanStep(s, 0)
  {
    hide Comes;
    var first, second := Setup(true, 0, 0, 0, 0), Setup(false, 0, 0, 0, 0);
    var s := State(map[], [Todos(ProgOf(first))]);
    FirstSpawned(first);
    FirstComesToMove([Spawn(first)], s, 0);
    var es := [Spawn(first)] + Steps(0, 13);
    SecondSpawned(es, s, ToMove(), second);
    var both := State(map[], [Todos(ToMove()), Todos(ProgOf(second))]);
    SecondComesInside(es + [Spawn(second)], both, 1);
    assert MOVING_IN == es + [Spawn(second)] + Steps(1, 8);
    Arrived(MOVING_IN, both.(owners := map[SandboxLock(0) := 1]));
  }

  lemma FirstSpawned(c: Call)
    ensures Comes([Spawn(c)], State(map[], [Todos(ProgOf(c))]), 0, Todos(ProgOf(c)))
  {
    hide ProgOf;
    OneMore([], Spawn(c));
    assert [] + [Spawn(c)] == [Spawn(c)];
    assert Run([]) == Some(State(map[], []));
    var th := Todos(ProgOf(c));
    assert [] + [th] == [th] && [th][0 := th] == [th];
  }

  lemma SecondSpawned(es: seq<Event>, s: State, ps: seq<Prog>, c: Call)
    requires s.owners == map[] && |s.threads| == 1 && Comes(es, s, 0, Todos(ps))
    ensures Comes(es + [Spawn(c)], State(map[], [Todos(ps), Todos(ProgOf(c))]), 1, Todos(ProgOf(c)))
  {
    hide ProgOf, Todos;
    OneMore(es, Spawn(c));
    var a, b := Todos(ps), Todos(ProgOf(c));
    assert s.threads[0 := a] == [a] && [a] + [b] == [a, b] && [a, b][1 := b] == [a, b];
  }

  lemma Arrived(es: seq<Event>, s: State)
    requires |s.threads| == 2 && s.threads[0] == Todos(ToMove()) && s.owners == map[SandboxLock(0) := 1]
    requires Comes(es, s, 1, Todos(WiringProg(0, 0).body) + [Unlock(SandboxLock(0))])
    ensures Run(es).Some? && Run(es).value.owners == s.owners
    ensures About(Run(es).value, 0, MoveLink(0)) && About(Run(es).value, 1, VxlanUp(0)) && CanStep(Run(es).value, 0)
  {
    hide Run;
    assert WiringProg(0, 0).body[0] == Work(VxlanUp(0)) && ToMove()[0] == Work(MoveLink(0));
  }
}
