/** The command language: command trees and what executing one does to the world. */
module Commands {
  import opened Wrappers
  import opened Ipv4
  import opened Host

  datatype Condition = LinkExists(name: string) | SandboxExists(name: string)

  datatype Command =
    | Group(members: seq<Command>)
    | Unless(condition: Condition, body: Command)
    | InNamespace(ns: Ns, body: Command)
    | CreateSandbox(sandbox: string)
    | CleanupSandbox(sandbox: string, vxlan: string)
    | StartDNSServer(sandbox: string, dns: IP)
    | StartMonitor(sandbox: string, vxlan: string)
    | MoveLink(link: string, sandbox: string)
    | CreateVxlan(link: string, vni: nat)
    | CreateVeth(link: string, peer: string)
    | CreateBridge(link: string)
    | DeleteLink(link: string)
    | SetLinkUp(link: string)
    | SetLinkMaster(master: string, slave: string)
    | AddAddress(link: string, address: Address)
    | AddRoute(link: string, hop: Hop)
    | GetHardwareAddress(link: string)

  predicate Satisfied(c: Condition, ns: Ns, w: World) {
    match c
    case LinkExists(name) => LinkId(ns, name) in w.links
    case SandboxExists(name) => name in w.sandboxes
  }

  /** Executing a command from within namespace `ns`. */
  function Exec(c: Command, ns: Ns, w: World): Out
    decreases c, 1
  {
    match c
    case Group(members) => ExecAll(members, ns, w)
    case Unless(condition, body) => if Satisfied(condition, ns, w) then Succeed(w) else Exec(body, ns, w).Wrap()
    case InNamespace(inner, body) =>
      var entered := Fallible(w);
      if !entered.Ok() then entered.Wrap() else Exec(body, inner, entered.w).Wrap()
    case _ => ExecPrimitive(c, ns, w).Wrap()
  }

  /** A command without members of its own. */
  function ExecPrimitive(c: Command, ns: Ns, w: World): Out {
    match c
    case CreateSandbox(sandbox) => Host.CreateSandbox(w, sandbox)
    case CleanupSandbox(sandbox, vxlan) => Cleanup(w, sandbox, vxlan)
    case StartDNSServer(sandbox, dns) => StartDNS(w, sandbox, dns)
    case StartMonitor(sandbox, vxlan) => Host.StartMonitor(w, sandbox, vxlan)
    case MoveLink(link, sandbox) =>
      if sandbox !in w.sandboxes then Fail(w, NotFound) else Host.MoveLink(w, LinkId(ns, link), SandboxNs(sandbox))
    case CreateVxlan(link, vni) => AddLink(w, LinkId(ns, link), Vxlan(vni))
    case CreateVeth(link, peer) => AddVeth(w, ns, link, peer)
    case CreateBridge(link) => AddLink(w, LinkId(ns, link), Bridge)
    case DeleteLink(link) => Host.DeleteLink(w, LinkId(ns, link))
    case SetLinkUp(link) => SetUp(w, LinkId(ns, link))
    case SetLinkMaster(master, slave) => SetMaster(w, ns, slave, master)
    case AddAddress(link, address) => Host.AddAddress(w, LinkId(ns, link), address)
    case AddRoute(link, hop) => Host.AddRoute(w, LinkId(ns, link), hop)
    case GetHardwareAddress(link) => if LinkId(ns, link) in w.links then Succeed(w) else Fail(w, NotFound)
    case _ => Succeed(w)
  }

  /** An error of a later member, seen from one member earlier. */
  function Later(o: Out): Out {
    match o.err
    case Some(InGroup(index, cause)) => Out(o.w, Some(InGroup(index + 1, cause)))
    case _ => o
  }

  /** Group.Execute: members in order, stopping at the first that fails. */
  function ExecAll(cs: seq<Command>, ns: Ns, w: World): Out
    decreases cs, 0
  {
    if cs == [] then Succeed(w)
    else
      var first := Exec(cs[0], ns, w);
      match first.err
      case Some(cause) => Fail(first.w, InGroup(0, cause))
      case None => Later(ExecAll(cs[1..], ns, first.w))
  }

  /** What a group of commands does, put together from its two halves. */
  lemma {:induction false} ExecAllConcat(a: seq<Command>, b: seq<Command>, ns: Ns, w: World)
    ensures var first := ExecAll(a, ns, w);
      var whole := ExecAll(a + b, ns, w);
      if first.Ok() then
        var second := ExecAll(b, ns, first.w);
        whole.w == second.w && (whole.Ok() <==> second.Ok())
      else whole == first
  {
    if a == [] {
      assert a + b == b;
    } else {
      assert (a + b)[0] == a[0] && (a + b)[1..] == a[1..] + b;
      var first := Exec(a[0], ns, w);
      if first.Ok() {
        ExecAllConcat(a[1..], b, ns, first.w);
      }
    }
  }

  /**
   A group fails with the index of its first failing member: the members before it all succeeded, it failed
   with the reported cause, and the state is the one it left, so no later member ran.
   */
  lemma {:induction false} GroupReportsFirstFailure(cs: seq<Command>, ns: Ns, w: World)
    ensures var o := ExecAll(cs, ns, w);
      o.err.Some? ==>
        && o.err.value.InGroup? && o.err.value.index < |cs|
        && var i := o.err.value.index;
           var before := ExecAll(cs[..i], ns, w);
           before.Ok() && Exec(cs[i], ns, before.w) == Out(o.w, Some(o.err.value.cause))
  {
    if cs != [] {
      var first := Exec(cs[0], ns, w);
      if first.Ok() {
        GroupReportsFirstFailure(cs[1..], ns, first.w);
        var o := ExecAll(cs[1..], ns, first.w);
        if o.err.Some? {
          var i := o.err.value.index;
          assert cs[..i + 1][0] == cs[0] && cs[..i + 1][1..] == cs[1..][..i];
        }
      }
    }
  }

  // ---------- flattening ----------

  /** A command tree with every group inside a group spliced into it, at every depth. */
  function Flatten(c: Command): Command
    decreases c, 1
  {
    match c
    case Group(members) => Group(Splice(members))
    case Unless(condition, body) => Unless(condition, Flatten(body))
    case InNamespace(ns, body) => InNamespace(ns, Flatten(body))
    case _ => c
  }

  function Splice(cs: seq<Command>): seq<Command>
    decreases cs, 0
  {
    if cs == [] then []
    else
      var first := Flatten(cs[0]);
      (if first.Group? then first.members else [first]) + Splice(cs[1..])
  }

  predicate IsFlat(c: Command)
    decreases c, 1
  {
    match c
    case Group(members) => forall m :: m in members ==> !m.Group? && IsFlat(m)
    case Unless(_, body) => IsFlat(body)
    case InNamespace(_, body) => IsFlat(body)
    case _ => true
  }

  lemma {:induction false} FlattenIsFlat(c: Command)
    ensures IsFlat(Flatten(c))
    decreases c, 1
  {
    match c
    case Group(members) => SpliceIsFlat(members);
    case Unless(_, body) => FlattenIsFlat(body);
    case InNamespace(_, body) => FlattenIsFlat(body);
    case _ =>
  }

  lemma {:induction false} SpliceIsFlat(cs: seq<Command>)
    ensures forall m :: m in Splice(cs) ==> !m.Group? && IsFlat(m)
    decreases cs, 0
  {
    if cs != [] {
      FlattenIsFlat(cs[0]);
      SpliceIsFlat(cs[1..]);
    }
  }

  /** Flattening preserves the final state and success, for every command tree. */
  lemma {:induction false} FlattenPreserves(c: Command, ns: Ns, w: World)
    ensures Exec(Flatten(c), ns, w).w == Exec(c, ns, w).w
    ensures Exec(Flatten(c), ns, w).Ok() == Exec(c, ns, w).Ok()
    decreases c, 1
  {
    match c
    case Group(members) => SplicePreserves(members, ns, w);
    case Unless(_, body) => FlattenPreserves(body, ns, w);
    case InNamespace(inner, body) => FlattenPreserves(body, inner, Fallible(w).w);
    case _ =>
  }

  lemma {:induction false} SplicePreserves(cs: seq<Command>, ns: Ns, w: World)
    ensures ExecAll(Splice(cs), ns, w).w == ExecAll(cs, ns, w).w
    ensures ExecAll(Splice(cs), ns, w).Ok() == ExecAll(cs, ns, w).Ok()
    decreases cs, 0
  {
    if cs != [] {
      var first := Flatten(cs[0]);
      var head := if first.Group? then first.members else [first];
      FlattenPreserves(cs[0], ns, w);
      ExecAllConcat(head, Splice(cs[1..]), ns, w);
      assert ExecAll(head, ns, w).w == Exec(first, ns, w).w && ExecAll(head, ns, w).Ok() == Exec(first, ns, w).Ok() by {
        if !first.Group? {
          assert head[0] == first && head[1..] == [];
        }
      }
      if Exec(cs[0], ns, w).Ok() {
        SplicePreserves(cs[1..], ns, Exec(cs[0], ns, w).w);
      }
    }
  }
}
