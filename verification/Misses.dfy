/** Neighbour misses: filtering netlink messages, resolving misses against the datastore, forwarding entries. */
module Misses {
  import opened Wrappers
  import opened Ipv4
  import opened Records
  import Text

  type MAC = seq<byte>

  const NUD_REACHABLE := 2
  const NUD_STALE := 4
  const AF_BRIDGE := 7
  const NTF_SELF := 2

  /** watcher.Neigh; None stands for Go's nil. */
  datatype Neigh = Neigh(
    linkIndex: int, family: int, state: int, kind: int, flags: int, ip: Option<IP>, hw: Option<MAC>)

  /** watcher.Neighbor. */
  datatype Neighbor = Neighbor(sandbox: string, vtep: Option<IP>, neigh: Neigh)

  /** A netlink message; None if it cannot be deserialized. */
  type Message = Option<Neigh>

  /** The library's conversions between text and addresses. */
  datatype Texts = Texts(ipText: Option<IP> -> string, parseMAC: string -> Option<MAC>, parseIP: string -> Option<IP>)

  // ---------- the subscriber's filter ----------

  /** A miss: there is an address to resolve, and no hardware address, or a stale one. */
  predicate IsMiss(n: Neigh) {
    n.ip.Some? && (n.hw.Some? ==> n.state == NUD_STALE)
  }

  /** What the receive loop forwards of a sequence of messages: the misses before the first bad message. */
  function Wanted(msgs: seq<Message>): seq<Neigh> {
    if msgs == [] || msgs[0].None? then []
    else (if IsMiss(msgs[0].value) then [msgs[0].value] else []) + Wanted(msgs[1..])
  }

  predicate Decodable(msgs: seq<Message>) {
    forall m :: m in msgs ==> m.Some?
  }

  lemma {:induction false} WantedConcat(a: seq<Message>, b: seq<Message>)
    requires Decodable(a)
    ensures Wanted(a + b) == Wanted(a) + Wanted(b)
  {
    if a == [] {
      assert a + b == b;
    } else {
      assert a[0] in a;
      WantedConcat(a[1..], b);
      assert (a + b)[0] == a[0] && (a + b)[1..] == a[1..] + b;
      var head := if IsMiss(a[0].value) then [a[0].value] else [];
      assert Wanted(a + b) == head + (Wanted(a[1..]) + Wanted(b)) == Wanted(a) + Wanted(b);
    }
  }

  /**
   After messages that could all be decoded, the next is forwarded exactly if it has an IP address, and no hardware
   address or the kernel's state 0x04; after one that cannot be decoded nothing is.
   */
  lemma NextIsForwarded(a: seq<Message>, m: Message, b: seq<Message>)
    requires Decodable(a)
    ensures Wanted([]) == []
    ensures m.Some? ==>
      Wanted(a + [m]) == Wanted(a) +
        if m.value.ip != None && (m.value.hw == None || m.value.state == 0x04) then [m.value] else []
    ensures m.None? ==> Wanted(a + [m] + b) == Wanted(a)
  {
    WantedConcat(a, [m]);
    WantedConcat(a, [m] + b);
    assert a + [m] + b == a + ([m] + b);
    assert [m][1..] == [];
  }

  /** The loop over one batch of received messages; `sent` is what goes down the channel. */
  method ExamineBatch(msgs: seq<Message>) returns (sent: seq<Neigh>, stopped: bool)
    ensures sent == Wanted(msgs)
    ensures stopped <==> !Decodable(msgs)
  {
    sent := [];
    for i := 0 to |msgs|
      invariant Decodable(msgs[..i]) && sent == Wanted(msgs[..i])
    {
      assert msgs[..i + 1] == msgs[..i] + [msgs[i]];
      assert msgs == msgs[..i] + msgs[i..];
      WantedConcat(msgs[..i], msgs[i..]);
      WantedConcat(msgs[..i], [msgs[i]]);
      if msgs[i].None? {
        assert msgs[i] in msgs;
        return sent, true;
      }
      var n := msgs[i].value;
      if n.ip.None? || (n.hw.Some? && n.state != NUD_STALE) {
        continue;
      }
      sent := sent + [n];
    }
    assert msgs[..|msgs|] == msgs;
    return sent, false;
  }

  // ---------- the resolver ----------

  predicate Matches(t: Texts, c: Container, miss: Neighbor) {
    c.sandbox == Text.Base(miss.sandbox) && c.ip == t.ipText(miss.neigh.ip)
  }

  function FirstMatch(t: Texts, cs: seq<Container>, miss: Neighbor): Option<Container> {
    if cs == [] then None
    else if Matches(t, cs[0], miss) then Some(cs[0])
    else FirstMatch(t, cs[1..], miss)
  }

  /** A miss as resolved by one record. */
  predicate ResolvedBy(t: Texts, c: Container, miss: Neighbor, r: Neighbor) {
    && Matches(t, c, miss) && t.parseMAC(c.mac).Some?
    && r == miss.(vtep := t.parseIP(c.hostIP), neigh := miss.neigh.(hw := t.parseMAC(c.mac)))
  }

  /** What the resolver makes of a miss given the datastore's answer, None if the query failed. */
  function Resolve(t: Texts, answer: Option<seq<Container>>, miss: Neighbor): Option<Neighbor> {
    match answer
    case None => None
    case Some(cs) =>
      match FirstMatch(t, cs, miss)
      case None => None
      case Some(c) =>
        if t.parseMAC(c.mac).None? then None
        else Some(miss.(vtep := t.parseIP(c.hostIP), neigh := miss.neigh.(hw := t.parseMAC(c.mac))))
  }

  lemma {:induction false} FirstMatchIsFirst(t: Texts, cs: seq<Container>, miss: Neighbor)
    ensures match FirstMatch(t, cs, miss)
      case Some(c) => exists i :: 0 <= i < |cs| && cs[i] == c && Matches(t, c, miss)
                                  && forall j :: 0 <= j < i ==> !Matches(t, cs[j], miss)
      case None => forall c :: c in cs ==> !Matches(t, c, miss)
  {
    if cs != [] && !Matches(t, cs[0], miss) {
      FirstMatchIsFirst(t, cs[1..], miss);
      if FirstMatch(t, cs, miss).Some? {
        var c := FirstMatch(t, cs, miss).value;
        var i :| 0 <= i < |cs| - 1 && cs[1..][i] == c && forall j :: 0 <= j < i ==> !Matches(t, cs[1..][j], miss);
        assert cs[i + 1] == c;
        assert forall j :: 1 <= j < i + 1 ==> cs[j] == cs[1..][j - 1];
      }
    }
  }

  /** A resolved miss takes its hardware address and its host from one and the same matching record. */
  lemma ResolvedFromOneRecord(t: Texts, cs: seq<Container>, miss: Neighbor)
    requires Resolve(t, Some(cs), miss).Some?
    ensures exists c :: c in cs && ResolvedBy(t, c, miss, Resolve(t, Some(cs), miss).value)
  {
    FirstMatchIsFirst(t, cs, miss);
    var c := FirstMatch(t, cs, miss).value;
    assert c in cs && ResolvedBy(t, c, miss, Resolve(t, Some(cs), miss).value);
  }

  /** The first record, in order, of the miss's sandbox with the miss's address. */
  predicate IsFirst(t: Texts, cs: seq<Container>, miss: Neighbor, i: int) {
    && 0 <= i < |cs| && cs[i].sandbox == Text.Base(miss.sandbox) && cs[i].ip == t.ipText(miss.neigh.ip)
    && forall j :: 0 <= j < i ==> !(cs[j].sandbox == Text.Base(miss.sandbox) && cs[j].ip == t.ipText(miss.neigh.ip))
  }

  /** Where the records of the miss's sandbox with its address are all the same one, the first of them is that one. */
  lemma FirstOf(t: Texts, cs: seq<Container>, miss: Neighbor, c: Container) returns (i: int)
    requires c in cs && c.sandbox == Text.Base(miss.sandbox) && c.ip == t.ipText(miss.neigh.ip)
    requires forall d :: d in cs && d.sandbox == c.sandbox && d.ip == c.ip ==> d == c
    ensures IsFirst(t, cs, miss, i) && cs[i] == c
  {
    i := 0;
    while !(cs[i].sandbox == c.sandbox && cs[i].ip == c.ip)
      invariant 0 <= i < |cs|
      invariant forall j :: 0 <= j < i ==> !(cs[j].sandbox == c.sandbox && cs[j].ip == c.ip)
      decreases |cs| - i
    {
      i := i + 1;
      assert i == |cs| ==> c !in cs;
    }
  }

  /** The miss with that record's hardware address and host, and all else as it was. */
  predicate TakenFrom(t: Texts, c: Container, miss: Neighbor, r: Neighbor) {
    var n := miss.neigh;
    && r.sandbox == miss.sandbox && r.vtep == t.parseIP(c.hostIP)
    && r.neigh == Neigh(n.linkIndex, n.family, n.state, n.kind, n.flags, n.ip, t.parseMAC(c.mac))
  }

  lemma {:induction false} FirstIsFound(t: Texts, cs: seq<Container>, miss: Neighbor, i: int)
    requires IsFirst(t, cs, miss, i)
    ensures FirstMatch(t, cs, miss) == Some(cs[i])
  {
    if i > 0 {
      assert forall j :: 0 <= j < i - 1 ==> cs[1..][j] == cs[j + 1];
      FirstIsFound(t, cs[1..], miss, i - 1);
    }
  }

  /**
   A miss is resolved if and only if the query worked and the first record of its sandbox with its address has a
   hardware address that can be read; it then has that hardware address, that record's host, and all else as before.
   */
  lemma ResolvesExactly(t: Texts, answer: Option<seq<Container>>, miss: Neighbor)
    ensures Resolve(t, answer, miss).Some? <==>
      answer.Some? && exists i :: IsFirst(t, answer.value, miss, i) && t.parseMAC(answer.value[i].mac).Some?
    ensures forall i :: answer.Some? && IsFirst(t, answer.value, miss, i) && t.parseMAC(answer.value[i].mac).Some? ==>
      Resolve(t, answer, miss).Some? && TakenFrom(t, answer.value[i], miss, Resolve(t, answer, miss).value)
  {
    if answer.Some? {
      var cs := answer.value;
      FirstMatchIsFirst(t, cs, miss);
      if FirstMatch(t, cs, miss).Some? {
        var c := FirstMatch(t, cs, miss).value;
        var i :| 0 <= i < |cs| && cs[i] == c && Matches(t, c, miss)
          && forall j :: 0 <= j < i ==> !Matches(t, cs[j], miss);
        assert IsFirst(t, cs, miss, i) by {
          forall j | 0 <= j < i
            ensures !(cs[j].sandbox == Text.Base(miss.sandbox) && cs[j].ip == t.ipText(miss.neigh.ip))
          {
            assert !Matches(t, cs[j], miss);
          }
        }
      }
      forall i | IsFirst(t, cs, miss, i)
        ensures FirstMatch(t, cs, miss) == Some(cs[i])
      {
        FirstIsFound(t, cs, miss, i);
      }
    }
  }

  /** One turn of ResolveMisses; `r` is what goes down the channel, if anything. */
  method ResolveOne(t: Texts, answer: Option<seq<Container>>, miss: Neighbor) returns (r: Option<Neighbor>)
    ensures r == Resolve(t, answer, miss)
    ensures r.Some? <==>
      answer.Some? && exists i :: IsFirst(t, answer.value, miss, i) && t.parseMAC(answer.value[i].mac).Some?
    ensures forall i :: answer.Some? && IsFirst(t, answer.value, miss, i) && t.parseMAC(answer.value[i].mac).Some? ==>
      r.Some? && TakenFrom(t, answer.value[i], miss, r.value)
  {
    hide IsFirst;
    ResolvesExactly(t, answer, miss);
    if answer.None? {
      return None;
    }
    var containers := answer.value;
    var msg := miss;
    var found := false;
    for i := 0 to |containers|
      invariant !found && msg == miss
      invariant FirstMatch(t, containers, miss) == FirstMatch(t, containers[i..], miss)
    {
      var container := containers[i];
      assert containers[i..][1..] == containers[i + 1..];
      if container.sandbox != Text.Base(msg.sandbox) {
        continue;
      }
      if container.ip == t.ipText(msg.neigh.ip) {
        var mac := t.parseMAC(container.mac);
        if mac.None? {
          break;
        }
        msg := msg.(neigh := msg.neigh.(hw := mac), vtep := t.parseIP(container.hostIP));
        found := true;
        break;
      }
    }
    return if found then Some(msg) else None;
  }

  // ---------- the inserter ----------

  /** What the inserter submits to the kernel: the L3 neighbour, and the L2 forwarding entry. */
  datatype Entry =
    | L3(neigh: Neigh)
    | L2(linkIndex: int, family: int, state: int, flags: int, ip: Option<IP>, hw: Option<MAC>)

  /** What of the namespace and the two calls worked for one neighbour. */
  datatype Outcome = Outcome(entered: bool, l3: bool)

  function L3Of(msg: Neighbor): Entry {
    L3(msg.neigh.(state := NUD_REACHABLE))
  }

  function L2Of(vxlanIndex: int, msg: Neighbor): Entry {
    L2(vxlanIndex, AF_BRIDGE, NUD_REACHABLE, NTF_SELF, msg.vtep, msg.neigh.hw)
  }

  /** The entries submitted for one neighbour: the forwarding entry only after the L3 neighbour was set. */
  function Submitted(vxlanIndex: int, msg: Neighbor, o: Outcome): seq<Entry> {
    if !o.entered then [] else if !o.l3 then [L3Of(msg)] else [L3Of(msg), L2Of(vxlanIndex, msg)]
  }

  function AllSubmitted(vxlanIndex: int, msgs: seq<Neighbor>, outcomes: seq<Outcome>): seq<Entry>
    requires |msgs| == |outcomes|
  {
    if msgs == [] then []
    else
      AllSubmitted(vxlanIndex, msgs[..|msgs| - 1], outcomes[..|msgs| - 1])
      + Submitted(vxlanIndex, msgs[|msgs| - 1], outcomes[|msgs| - 1])
  }

  /**
   For each neighbour that comes: nothing if the namespace cannot be entered; else first the neighbour itself, with the
   kernel's state 0x02, and then, only if that was set, the forwarding entry on the vxlan link (family 7, flag 0x02)
   that takes its hardware address to the host.
   */
  lemma NextIsSubmitted(vxlanIndex: int, msgs: seq<Neighbor>, outcomes: seq<Outcome>, msg: Neighbor, o: Outcome)
    requires |msgs| == |outcomes|
    ensures AllSubmitted(vxlanIndex, [], []) == []
    ensures AllSubmitted(vxlanIndex, msgs + [msg], outcomes + [o]) == AllSubmitted(vxlanIndex, msgs, outcomes) +
      var n := msg.neigh;
      if !o.entered then []
      else
        [L3(Neigh(n.linkIndex, n.family, 0x02, n.kind, n.flags, n.ip, n.hw))]
        + if o.l3 then [L2(vxlanIndex, 7, 0x02, 0x02, msg.vtep, n.hw)] else []
  {
    assert (msgs + [msg])[..|msgs|] == msgs && (outcomes + [o])[..|outcomes|] == outcomes;
  }

  /** addNeighbors over the neighbours it receives before the channel closes. */
  method AddNeighbors(vxlanIndex: int, msgs: seq<Neighbor>, outcomes: seq<Outcome>) returns (submitted: seq<Entry>)
    requires |msgs| == |outcomes|
    ensures submitted == AllSubmitted(vxlanIndex, msgs, outcomes)
  {
    submitted := [];
    for i := 0 to |msgs|
      invariant submitted == AllSubmitted(vxlanIndex, msgs[..i], outcomes[..i])
    {
      assert msgs[..i + 1][..i] == msgs[..i] && outcomes[..i + 1][..i] == outcomes[..i];
      var msg := msgs[i];
      var neigh := msg.neigh.(state := NUD_REACHABLE);
      var fdb := L2(vxlanIndex, AF_BRIDGE, NUD_REACHABLE, NTF_SELF, msg.vtep, neigh.hw);
      if outcomes[i].entered {
        submitted := submitted + [L3(neigh)];
        if outcomes[i].l3 {
          submitted := submitted + [fdb];
        }
      }
    }
    assert msgs[..|msgs|] == msgs && outcomes[..|msgs|] == outcomes;
  }
}
