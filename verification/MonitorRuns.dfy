/**
 The miss monitors: for each StartMonitor five goroutines joined by unbuffered channels, and the watcher's table
 of done channels. Any number of monitors start, stop and fail, interleaved step by step; a send and the receive
 it meets are one step.
 */
module MonitorRuns {
  import opened Wrappers
  import opened Records
  import opened Misses

  /** The goroutine that runs StartMonitor. */
  datatype Starter = Registering | AwaitingReady | Subscribing | Launching | Returned(ok: bool)

  /** HandleResolvedNeighbors. */
  datatype Inserter =
    | Unborn
    | Looking                    // for the vxlan link
    | Reporting                  // sending the error on ready
    | ClosingReady(found: bool)
    | Draining                   // receiving resolved neighbours
    | Handling(msg: Neighbor)
    | Gone

  /** The receive loop; `pending` is what is left of the last batch. */
  datatype Receiver =
    | Idle
    | Receiving(pending: seq<Message>)
    | SendingNeigh(neigh: Neigh, pending: seq<Message>)
    | ClosingSub
    | Ended

  /** The goroutine that closes the socket when the monitor is stopped. */
  datatype Closer = NoCloser | WaitingDone | SocketClosed

  datatype Forwarder = NotYet | Waiting | SendingMiss(miss: Neighbor) | Over

  datatype Resolver = NotRunning | AwaitingMiss | Resolving(miss: Neighbor) | SendingResolved(msg: Neighbor) | Finished

  /** The closed flag of each channel a StartMonitor makes. */
  datatype Closed = Closed(done: bool, ready: bool, sub: bool, misses: bool, resolved: bool)

  datatype Monitor = Monitor(
    ns: string,
    vxlanIndex: int,
    closed: Closed,
    starter: Starter, inserter: Inserter, receiver: Receiver, closer: Closer, forwarder: Forwarder, resolver: Resolver,
    received: seq<Message>,                       // every netlink message received
    answers: seq<Option<seq<Container>>>,         // the datastore's answer to each miss resolved
    handled: seq<Neighbor>,                       // every neighbour the inserter has handled
    outcomes: seq<Outcome>,                       // and what of its calls worked for each
    submitted: seq<Entry>)                        // every entry submitted to the kernel

  datatype Local =
    | LinkFound | LinkMissing
    | ReportError              // ready <- err meets <-ready
    | CloseReady
    | SeeReadyClosed
    | SubscribeOk | SubscribeError
    | Launch                   // the forwarder and the resolver
    | Receive(msgs: seq<Message>) | ReceiveError
    | Examine                  // the next message of the batch
    | SendNeigh                // subChan
    | CloseSub
    | SeeSubClosed
    | SendMiss                 // unresolvedMisses
    | SeeMissesClosed          // and close resolvedNeighbors
    | Answer(answer: Option<seq<Container>>)
    | SendResolved             // resolvedNeighbors
    | Insert(outcome: Outcome)
    | SeeResolvedClosed
    | CloseSocket

  predicate CanDo(m: Monitor, l: Local) {
    match l
    case LinkFound => m.inserter.Looking?
    case LinkMissing => m.inserter.Looking?
    case ReportError => m.inserter.Reporting? && m.starter.AwaitingReady?
    case CloseReady => m.inserter.ClosingReady?
    case SeeReadyClosed => m.starter.AwaitingReady? && m.closed.ready
    case SubscribeOk => m.starter.Subscribing?
    case SubscribeError => m.starter.Subscribing?
    case Launch => m.starter.Launching?
    case Receive(_) => m.receiver == Receiving([])
    case ReceiveError => m.receiver == Receiving([])
    case Examine => m.receiver.Receiving? && m.receiver.pending != []
    case SendNeigh => m.receiver.SendingNeigh? && m.forwarder.Waiting?
    case CloseSub => m.receiver.ClosingSub?
    case SeeSubClosed => m.forwarder.Waiting? && m.closed.sub
    case SendMiss => m.forwarder.SendingMiss? && m.resolver.AwaitingMiss?
    case SeeMissesClosed => m.resolver.AwaitingMiss? && m.closed.misses
    case Answer(_) => m.resolver.Resolving?
    case SendResolved => m.resolver.SendingResolved? && m.inserter.Draining?
    case Insert(_) => m.inserter.Handling?
    case SeeResolvedClosed => m.inserter.Draining? && m.closed.resolved
    case CloseSocket => m.closer.WaitingDone? && m.closed.done
  }

  function Do(t: Texts, m: Monitor, l: Local): Monitor
    requires CanDo(m, l)
  {
    match l
    case LinkFound => m.(inserter := ClosingReady(true))
    case LinkMissing => m.(inserter := Reporting)
    case ReportError => m.(inserter := ClosingReady(false), starter := Returned(false))
    case CloseReady => m.(closed := m.closed.(ready := true), inserter := if m.inserter.found then Draining else Gone)
    case SeeReadyClosed => m.(starter := Subscribing)
    case SubscribeOk => m.(starter := Launching, receiver := Receiving([]), closer := WaitingDone)
    case SubscribeError => m.(starter := Returned(false))
    case Launch => m.(starter := Returned(true), forwarder := Waiting, resolver := AwaitingMiss)
    case Receive(msgs) => m.(received := m.received + msgs, receiver := Receiving(msgs))
    case ReceiveError => m.(receiver := ClosingSub)
    case Examine =>
      var next, rest := m.receiver.pending[0], m.receiver.pending[1..];
      m.(receiver := if next.None? then ClosingSub else if IsMiss(next.value) then SendingNeigh(next.value, rest)
        else Receiving(rest))
    case SendNeigh =>
      m.(receiver := Receiving(m.receiver.pending), forwarder := SendingMiss(MissOf(m.ns, m.receiver.neigh)))
    case CloseSub => m.(closed := m.closed.(sub := true), receiver := Ended)
    case SeeSubClosed => m.(forwarder := Over)
    case SendMiss => m.(forwarder := Waiting, resolver := Resolving(m.forwarder.miss))
    case SeeMissesClosed => m.(closed := m.closed.(resolved := true), resolver := Finished)
    case Answer(answer) =>
      var r := Resolve(t, answer, m.resolver.miss);
      m.(answers := m.answers + [answer], resolver := if r.Some? then SendingResolved(r.value) else AwaitingMiss)
    case SendResolved => m.(resolver := AwaitingMiss, inserter := Handling(m.resolver.msg))
    case Insert(outcome) =>
      m.(handled := m.handled + [m.inserter.msg],
         outcomes := m.outcomes + [outcome],
         submitted := m.submitted + Submitted(m.vxlanIndex, m.inserter.msg, outcome),
         inserter := Draining)
    case SeeResolvedClosed => m.(inserter := Gone)
    case CloseSocket => m.(closer := SocketClosed)
  }

  function MissOf(ns: string, n: Neigh): Neighbor {
    Neighbor(ns, None, n)
  }

  // ---------- the watcher ----------

  /** `doneChans` maps a namespace to the monitor whose done channel is registered for it. */
  datatype State = State(monitors: seq<Monitor>, doneChans: map<string, nat>)

  datatype Event =
    | Start(ns: string, vxlanIndex: int)   // StartMonitor makes its channels
    | Register(i: nat, ns: string)         // and registers its done channel
    | Stop(ns: string)                     // StopMonitor
    | Within(i: nat, local: Local)

  function NewMonitor(ns: string, vxlanIndex: int): Monitor {
    Monitor(ns, vxlanIndex, Closed(false, false, false, false, false),
      Registering, Unborn, Idle, NoCloser, NotYet, NotRunning, [], [], [], [], [])
  }

  predicate Enabled(s: State, e: Event) {
    match e
    case Start(_, _) => true
    case Register(i, ns) => i < |s.monitors| && s.monitors[i].starter.Registering? && s.monitors[i].ns == ns
    case Stop(ns) => ns in s.doneChans ==> s.doneChans[ns] < |s.monitors|
    case Within(i, local) => i < |s.monitors| && CanDo(s.monitors[i], local)
  }

  function Apply(t: Texts, s: State, e: Event): State
    requires Enabled(s, e)
  {
    match e
    case Start(ns, vxlanIndex) => s.(monitors := s.monitors + [NewMonitor(ns, vxlanIndex)])
    case Register(i, ns) =>
      State(s.monitors[i := s.monitors[i].(starter := AwaitingReady, inserter := Looking)], s.doneChans[ns := i])
    case Stop(ns) =>
      if ns !in s.doneChans then s
      else
        var i := s.doneChans[ns];
        var m := s.monitors[i];
        State(s.monitors[i := m.(closed := m.closed.(done := true))], s.doneChans - {ns})
    case Within(i, local) => s.(monitors := s.monitors[i := Do(t, s.monitors[i], local)])
  }

  function Run(t: Texts, es: seq<Event>): Option<State> {
    if es == [] then Some(State([], map[]))
    else
      var before := Run(t, es[..|es| - 1]);
      if before.Some? && Enabled(before.value, es[|es| - 1])
      then Some(Apply(t, before.value, es[|es| - 1])) else None
  }

  // ---------- panics ----------

  /** An event that sends on, or closes, a channel that is already closed. */
  predicate Panics(s: State, e: Event)
    requires Enabled(s, e)
  {
    match e
    case Stop(ns) => ns in s.doneChans && s.monitors[s.doneChans[ns]].closed.done
    case Within(i, local) =>
      var c := s.monitors[i].closed;
      (match local
       case ReportError => c.ready
       case CloseReady => c.ready
       case SendNeigh => c.sub
       case CloseSub => c.sub
       case SendMiss => c.misses
       case SeeMissesClosed => c.resolved
       case SendResolved => c.resolved
       case _ => false)
    case _ => false
  }

  /** A goroutine that stands in a send on a channel that has been closed. */
  predicate SendsOnClosed(m: Monitor) {
    || (m.inserter.Reporting? && m.closed.ready)
    || (m.receiver.SendingNeigh? && m.closed.sub)
    || (m.forwarder.SendingMiss? && m.closed.misses)
    || (m.resolver.SendingResolved? && m.closed.resolved)
  }

  /** Who may still close or send on each channel. */
  predicate ChannelsInv(m: Monitor) {
    && (m.closed.ready ==> m.inserter.Draining? || m.inserter.Handling? || m.inserter.Gone?)
    && (m.closed.sub ==> m.receiver.Ended?)
    && !m.closed.misses
    && !m.closed.resolved && !m.resolver.Finished?
    && (m.starter.Registering? ==>
      m.inserter.Unborn? && m.receiver.Idle? && m.forwarder.NotYet? && m.resolver.NotRunning?)
    && (m.starter.AwaitingReady? || m.starter.Subscribing? ==> m.receiver.Idle?)
    && (m.starter.AwaitingReady? || m.starter.Subscribing? || m.starter.Launching? ==>
          m.forwarder.NotYet? && m.resolver.NotRunning?)
    && (m.closed.ready ==> !m.starter.Registering?)
    && (m.closed.done ==> !m.starter.Registering?)
    && (m.starter.AwaitingReady? ==> !m.inserter.Unborn? && (m.inserter.ClosingReady? ==> m.inserter.found))
    && (m.inserter.Draining? || m.inserter.Handling? || m.inserter.Gone? ==> m.closed.ready)
  }

  lemma DoKeepsChannels(t: Texts, m: Monitor, l: Local)
    requires ChannelsInv(m) && CanDo(m, l)
    ensures ChannelsInv(Do(t, m, l))
  {
  }

  predicate TableInv(s: State) {
    && (forall i :: 0 <= i < |s.monitors| ==> ChannelsInv(s.monitors[i]))
    && (forall ns :: ns in s.doneChans ==>
          && s.doneChans[ns] < |s.monitors|
          && s.monitors[s.doneChans[ns]].ns == ns
          && !s.monitors[s.doneChans[ns]].closed.done
          && !s.monitors[s.doneChans[ns]].starter.Registering?)
  }

  lemma ApplyKeepsTable(t: Texts, s: State, e: Event)
    requires TableInv(s) && Enabled(s, e)
    ensures TableInv(Apply(t, s, e))
  {
    if e.Within? {
      DoKeepsChannels(t, s.monitors[e.i], e.local);
      DoKeepsPlace(t, s.monitors[e.i], e.local);
    }
  }

  lemma DoKeepsPlace(t: Texts, m: Monitor, l: Local)
    requires CanDo(m, l)
    ensures var n := Do(t, m, l);
      n.ns == m.ns && n.vxlanIndex == m.vxlanIndex && n.closed.done == m.closed.done
      && (n.starter.Registering? <==> m.starter.Registering?)
  {
  }

  lemma {:induction false} RunKeepsTable(t: Texts, es: seq<Event>)
    ensures Run(t, es).Some? ==> TableInv(Run(t, es).value)
  {
    if es != [] {
      RunKeepsTable(t, es[..|es| - 1]);
      var before := Run(t, es[..|es| - 1]);
      if before.Some? && Enabled(before.value, es[|es| - 1]) {
        ApplyKeepsTable(t, before.value, es[|es| - 1]);
      }
    }
  }

  /** In every interleaving: nothing is sent on or closes a closed channel, and nobody is left sending on one. */
  lemma NoChannelPanics(t: Texts, es: seq<Event>, e: Event, i: nat)
    requires Run(t, es).Some? && Enabled(Run(t, es).value, e) && i < |Run(t, es).value.monitors|
    ensures !Panics(Run(t, es).value, e)
    ensures !SendsOnClosed(Run(t, es).value.monitors[i])
  {
    RunKeepsTable(t, es);
  }

  // ---------- the wait for the inserter ----------

  /** The events by which a StartMonitor and its inserter agree. */
  predicate Agreeing(l: Local) {
    l.LinkFound? || l.LinkMissing? || l.ReportError? || l.CloseReady? || l.SeeReadyClosed?
  }

  /** How far the inserter is from releasing the StartMonitor that waits for it. */
  function Distance(m: Monitor): nat {
    if m.inserter.Looking? then 2 else if m.inserter.Reporting? || m.inserter.ClosingReady? then 1 else 0
  }

  lemma WaitMakesProgress(t: Texts, m: Monitor)
    requires ChannelsInv(m) && m.starter.AwaitingReady?
    ensures exists l :: Agreeing(l) && CanDo(m, l)
    ensures forall l :: CanDo(m, l) && Do(t, m, l).starter.AwaitingReady? ==>
      if Agreeing(l) then Distance(Do(t, m, l)) < Distance(m) else Distance(Do(t, m, l)) <= Distance(m)
  {
    var l := match m.inserter
      case Looking => LinkFound
      case Reporting => ReportError
      case ClosingReady(_) => CloseReady
      case _ => SeeReadyClosed;
    assert Agreeing(l) && CanDo(m, l);
  }

  /**
   In every reachable state a StartMonitor that waits for its inserter, as one under a sandbox's or the repository's
   lock does, waits for nobody else: some step of the two is possible, each such step brings it closer to release,
   and no other step of the monitor takes it further away.
   */
  lemma StartersAreReleased(t: Texts, es: seq<Event>, i: nat)
    requires Run(t, es).Some? && i < |Run(t, es).value.monitors|
    requires Run(t, es).value.monitors[i].starter.AwaitingReady?
    ensures var m := Run(t, es).value.monitors[i];
      && Distance(m) <= 2
      && (exists l :: Agreeing(l) && Enabled(Run(t, es).value, Within(i, l)))
      && (forall l :: CanDo(m, l) && Do(t, m, l).starter.AwaitingReady? ==>
            if Agreeing(l) then Distance(Do(t, m, l)) < Distance(m) else Distance(Do(t, m, l)) <= Distance(m))
  {
    RunKeepsTable(t, es);
    var s := Run(t, es).value;
    WaitMakesProgress(t, s.monitors[i]);
    var l :| Agreeing(l) && CanDo(s.monitors[i], l);
    assert Enabled(s, Within(i, l));
  }

  // ---------- the table of done channels ----------

  /** The monitor whose registration for a namespace is the latest since the last stop, read off the events. */
  function Latest(es: seq<Event>, ns: string): Option<nat> {
    if es == [] then None
    else
      var last := es[|es| - 1];
      if last.Register? && last.ns == ns then Some(last.i)
      else if last == Stop(ns) then None
      else Latest(es[..|es| - 1], ns)
  }

  lemma {:induction false} TableIsLatest(t: Texts, es: seq<Event>, ns: string)
    requires Run(t, es).Some?
    ensures var table := Run(t, es).value.doneChans;
      match Latest(es, ns) case Some(i) => ns in table && table[ns] == i case None => ns !in table
  {
    if es != [] {
      TableIsLatest(t, es[..|es| - 1], ns);
    }
  }

  /**
   StopMonitor finds its namespace exactly when it has been registered, by a StartMonitor that succeeded or
   failed later, since it was last stopped; it then closes the latest registered done channel, which was open,
   and no other. Registered channels are open and pairwise distinct.
   */
  lemma StopClosesTheLatest(t: Texts, es: seq<Event>, ns: string)
    requires Run(t, es).Some?
    ensures var s := Run(t, es).value;
      && (ns in s.doneChans <==> Latest(es, ns).Some?)
      && Enabled(s, Stop(ns))
      && (forall m :: m in s.doneChans && m != ns && ns in s.doneChans ==> s.doneChans[m] != s.doneChans[ns])
      && (Latest(es, ns).Some? ==>
            var i, after := Latest(es, ns).value, Apply(t, s, Stop(ns));
            && i < |s.monitors| && !s.monitors[i].closed.done && after.monitors[i].closed.done
            && ns !in after.doneChans
            && forall j :: 0 <= j < |s.monitors| && j != i ==> after.monitors[j] == s.monitors[j])
  {
    RunKeepsTable(t, es);
    TableIsLatest(t, es, ns);
  }

  /** A started monitor whose done channel is open and no longer in the table. */
  predicate Orphaned(s: State, i: nat) {
    && i < |s.monitors| && !s.monitors[i].starter.Registering? && !s.monitors[i].closed.done
    && forall ns :: ns in s.doneChans ==> s.doneChans[ns] != i
  }

  lemma ApplyKeepsOrphan(t: Texts, s: State, e: Event, i: nat)
    requires Enabled(s, e) && Orphaned(s, i)
    ensures Orphaned(Apply(t, s, e), i)
  {
    hide Do, CanDo;
    if e.Within? {
      DoKeepsPlace(t, s.monitors[e.i], e.local);
    }
  }

  lemma OverwritingOrphans(t: Texts, es: seq<Event>, again: Event)
    requires Run(t, es).Some? && again.Register? && Enabled(Run(t, es).value, again) && Latest(es, again.ns).Some?
    ensures Orphaned(Apply(t, Run(t, es).value, again), Latest(es, again.ns).value)
  {
    hide ChannelsInv, Run, Latest;
    RunKeepsTable(t, es);
    TableIsLatest(t, es, again.ns);
    StopClosesTheLatest(t, es, again.ns);
  }

  lemma RunOneMore(t: Texts, es: seq<Event>, last: Event)
    ensures var before := Run(t, es);
      Run(t, es + [last]) == if before.Some? && Enabled(before.value, last) then Some(Apply(t, before.value, last))
        else None
  {
    hide Enabled, Apply;
    assert (es + [last])[..|es|] == es;
  }

  /** Registering a namespace again orphans the monitor registered before, and an orphan is never stopped. */
  lemma {:induction false} OverwrittenIsNeverStopped(t: Texts, es: seq<Event>, again: Event, after: seq<Event>)
    requires again.Register? && Run(t, es + [again] + after).Some? && Latest(es, again.ns).Some?
    ensures var i := Latest(es, again.ns).value;
      var end := Run(t, es + [again] + after).value;
      && Orphaned(end, i) && !CanDo(end.monitors[i], CloseSocket)
  {
    hide Run, Latest, Enabled, Apply;
    var before := es + [again];
    if after == [] {
      assert before + [] == before;
      RunOneMore(t, es, again);
      OverwritingOrphans(t, es, again);
    } else {
      var init, last := after[..|after| - 1], after[|after| - 1];
      assert before + after == (before + init) + [last];
      RunOneMore(t, before + init, last);
      OverwrittenIsNeverStopped(t, es, again, init);
      ApplyKeepsOrphan(t, Run(t, before + init).value, last, Latest(es, again.ns).value);
    }
  }

  /** Two starts and a stop of one namespace: the second monitor is stopped, the first never is. */
  lemma TwoStartsOneStop(t: Texts)
    ensures var es := [Start("ns", 1), Register(0, "ns"), Start("ns", 1)];
      var again, stop := Register(1, "ns"), Stop("ns");
      && Latest(es, "ns") == Some(0)
      && Run(t, es + [again] + [stop]).Some?
      && var end := Run(t, es + [again] + [stop]).value;
         end.doneChans == map[] && |end.monitors| == 2 && end.monitors[1].closed.done && Orphaned(end, 0)
  {
    hide Run, Do, CanDo, Orphaned;
    var es := [Start("ns", 1), Register(0, "ns"), Start("ns", 1)];
    var again, stop := Register(1, "ns"), Stop("ns");
    TwoStarts(t);
    RunOneMore(t, es, again);
    RunOneMore(t, es + [again], stop);
    hide Latest;
    OverwrittenIsNeverStopped(t, es, again, [stop]);
  }

  lemma TwoStarts(t: Texts)
    ensures var es := [Start("ns", 1), Register(0, "ns"), Start("ns", 1)];
      var first := NewMonitor("ns", 1).(starter := AwaitingReady, inserter := Looking);
      && Latest(es, "ns") == Some(0)
      && Run(t, es) == Some(State([first, NewMonitor("ns", 1)], map["ns" := 0]))
  {
    hide Do, CanDo;
    var es := [Start("ns", 1), Register(0, "ns"), Start("ns", 1)];
    var idle := NewMonitor("ns", 1);
    var first := idle.(starter := AwaitingReady, inserter := Looking);
    assert Latest(es[..2], "ns") == Some(0);
    assert Run(t, []) == Some(State([], map[]));
    hide Run, Latest;
    assert [] + [es[0]] == [es[0]] && [es[0]] + [es[1]] == [es[0], es[1]] && [es[0], es[1]] + [es[2]] == es;
    RunOneMore(t, [], es[0]);
    assert [] + [idle] == [idle] && [idle][0 := first] == [first] && [first] + [idle] == [first, idle];
    RunOneMore(t, [es[0]], es[1]);
    assert Run(t, [es[0], es[1]]) == Some(State([first], map["ns" := 0]));
    RunOneMore(t, [es[0], es[1]], es[2]);
  }

  // ---------- the pipeline ----------

  function MissesOf(ns: string, ns': seq<Neigh>): (r: seq<Neighbor>)
    ensures |r| == |ns'| && forall i :: 0 <= i < |r| ==> r[i] == MissOf(ns, ns'[i])
  {
    seq(|ns'|, i requires 0 <= i < |ns'| => MissOf(ns, ns'[i]))
  }

  /** Resolving misses one by one, each against its own answer. */
  function ResolveAll(t: Texts, misses: seq<Neighbor>, answers: seq<Option<seq<Container>>>): seq<Neighbor>
    requires |misses| == |answers|
  {
    if misses == [] then []
    else
      var k := |misses| - 1;
      var r := Resolve(t, answers[k], misses[k]);
      ResolveAll(t, misses[..k], answers[..k]) + (if r.Some? then [r.value] else [])
  }

  /** The messages of the current batch that the receive loop has not looked at. */
  function Pending(r: Receiver): seq<Message> {
    if r.Receiving? || r.SendingNeigh? then r.pending else []
  }

  predicate Alive(r: Receiver) {
    r.Idle? || r.Receiving? || r.SendingNeigh?
  }

  function InReceiver(r: Receiver): seq<Neigh> {
    (if r.SendingNeigh? then [r.neigh] else []) + Wanted(Pending(r))
  }

  function InForwarder(f: Forwarder): seq<Neighbor> {
    if f.SendingMiss? then [f.miss] else []
  }

  function ToResolve(r: Resolver): seq<Neighbor> {
    if r.Resolving? then [r.miss] else []
  }

  function JustResolved(r: Resolver): seq<Neighbor> {
    if r.SendingResolved? then [r.msg] else []
  }

  function InInserter(i: Inserter): seq<Neighbor> {
    if i.Handling? then [i.msg] else []
  }

  /** What is under way before the resolver, nearest first. */
  function Upstream(m: Monitor): seq<Neighbor> {
    ToResolve(m.resolver) + InForwarder(m.forwarder) + MissesOf(m.ns, InReceiver(m.receiver))
  }

  /** What is under way after the resolver, nearest to the inserter first. */
  function Downstream(m: Monitor): seq<Neighbor> {
    InInserter(m.inserter) + JustResolved(m.resolver)
  }

  /** The misses of a monitor: its received messages, filtered. */
  function AllMisses(m: Monitor): seq<Neighbor> {
    MissesOf(m.ns, Wanted(m.received))
  }

  /** The conveyor: what has been resolved and what is under way add up to what was received, in order. */
  predicate Conveys(t: Texts, m: Monitor) {
    var k := |m.answers|;
    && k <= |AllMisses(m)|
    && AllMisses(m)[k..] == Upstream(m)
    && m.handled + Downstream(m) == ResolveAll(t, AllMisses(m)[..k], m.answers)
    && Reading(m)
  }

  /** The receive loop has looked at all but the pending messages, and none of those was bad. */
  predicate Reading(m: Monitor) {
    && (Alive(m.receiver) ==>
          && |Pending(m.receiver)| <= |m.received|
          && Pending(m.receiver) == m.received[|m.received| - |Pending(m.receiver)|..]
          && Decodable(m.received[..|m.received| - |Pending(m.receiver)|]))
    && (m.receiver.Idle? ==> m.received == [])
  }

  lemma MissesOfConcat(ns: string, a: seq<Neigh>, b: seq<Neigh>)
    ensures MissesOf(ns, a + b) == MissesOf(ns, a) + MissesOf(ns, b)
  {
  }

  /** The events that move nothing along the conveyor. */
  predicate Stationary(l: Local) {
    !l.Receive? && !l.Examine? && !l.SendNeigh? && !l.SendMiss? && !l.Answer? && !l.SendResolved? && !l.Insert?
  }

  /** A change that moves things along without losing or adding any. */
  lemma ShiftConveys(t: Texts, m: Monitor, n: Monitor)
    requires Conveys(t, m) && Reading(n)
    requires n.ns == m.ns && n.received == m.received && n.answers == m.answers
    requires Upstream(n) == Upstream(m) && n.handled + Downstream(n) == m.handled + Downstream(m)
    ensures Conveys(t, n)
  {
    hide ResolveAll, Upstream, Downstream, Reading;
  }

  /** Nothing a goroutine holds changes. */
  predicate HoldsSame(m: Monitor, n: Monitor) {
    && InReceiver(n.receiver) == InReceiver(m.receiver) && InForwarder(n.forwarder) == InForwarder(m.forwarder)
    && ToResolve(n.resolver) == ToResolve(m.resolver) && JustResolved(n.resolver) == JustResolved(m.resolver)
    && InInserter(n.inserter) == InInserter(m.inserter) && n.handled == m.handled
    && n.ns == m.ns && n.received == m.received && n.answers == m.answers
  }

  lemma StationaryHolds(t: Texts, m: Monitor, l: Local)
    requires ChannelsInv(m) && CanDo(m, l) && Stationary(l)
    ensures HoldsSame(m, Do(t, m, l))
  {
    assert [] + Wanted([]) == [];
  }

  lemma StationaryReceiver(t: Texts, m: Monitor, l: Local)
    requires ChannelsInv(m) && CanDo(m, l) && Stationary(l)
    ensures var n := Do(t, m, l);
      && n.received == m.received
      && (n.receiver == m.receiver || !Alive(n.receiver) || (m.receiver.Idle? && n.receiver == Receiving([])))
  {
  }

  lemma StationaryReads(t: Texts, m: Monitor, l: Local)
    requires ChannelsInv(m) && CanDo(m, l) && Stationary(l) && Reading(m)
    ensures Reading(Do(t, m, l))
  {
    hide Do, CanDo, ChannelsInv;
    StationaryReceiver(t, m, l);
  }

  lemma StationaryConveys(t: Texts, m: Monitor, l: Local)
    requires Conveys(t, m) && ChannelsInv(m) && CanDo(m, l) && Stationary(l)
    ensures Conveys(t, Do(t, m, l))
  {
    hide Do, CanDo, ResolveAll, Reading, ChannelsInv, InReceiver, InForwarder, ToResolve, JustResolved, InInserter;
    StationaryHolds(t, m, l);
    StationaryReads(t, m, l);
    ShiftConveys(t, m, Do(t, m, l));
  }

  lemma ReceiveGrows(t: Texts, m: Monitor, msgs: seq<Message>)
    requires Reading(m) && CanDo(m, Receive(msgs))
    ensures var n := Do(t, m, Receive(msgs));
      && AllMisses(n) == AllMisses(m) + MissesOf(m.ns, Wanted(msgs)) && Reading(n)
  {
    assert m.received[..|m.received|] == m.received;
    WantedConcat(m.received, msgs);
    MissesOfConcat(m.ns, Wanted(m.received), Wanted(msgs));
    assert (m.received + msgs)[|m.received|..] == msgs && (m.received + msgs)[..|m.received|] == m.received;
  }

  lemma ReceiveHolds(t: Texts, m: Monitor, msgs: seq<Message>)
    requires CanDo(m, Receive(msgs))
    ensures var n := Do(t, m, Receive(msgs));
      && n.ns == m.ns && InReceiver(m.receiver) == [] && InReceiver(n.receiver) == Wanted(msgs)
      && n.resolver == m.resolver && n.forwarder == m.forwarder
  {
    assert [] + Wanted([]) == [] && [] + Wanted(msgs) == Wanted(msgs);
  }

  lemma ReceiveUpstream(t: Texts, m: Monitor, msgs: seq<Message>)
    requires CanDo(m, Receive(msgs))
    ensures Upstream(Do(t, m, Receive(msgs))) == Upstream(m) + MissesOf(m.ns, Wanted(msgs))
  {
    hide Do, CanDo, InReceiver, InForwarder, ToResolve, MissesOf, Wanted;
    ReceiveHolds(t, m, msgs);
  }

  lemma GrowsTogether(all: seq<Neighbor>, up: seq<Neighbor>, more: seq<Neighbor>, k: nat)
    requires k <= |all| && all[k..] == up
    ensures (all + more)[k..] == up + more && (all + more)[..k] == all[..k]
  {
  }

  lemma ReceiveConveys(t: Texts, m: Monitor, msgs: seq<Message>)
    requires Conveys(t, m) && CanDo(m, Receive(msgs))
    ensures Conveys(t, Do(t, m, Receive(msgs)))
  {
    hide ResolveAll, Upstream, Reading, AllMisses, MissesOf;
    ReceiveGrows(t, m, msgs);
    ReceiveUpstream(t, m, msgs);
    GrowsTogether(AllMisses(m), Upstream(m), MissesOf(m.ns, Wanted(msgs)), |m.answers|);
  }

  lemma ExamineShifts(t: Texts, m: Monitor)
    requires CanDo(m, Examine)
    ensures var n := Do(t, m, Examine);
      && Upstream(n) == Upstream(m) && Downstream(n) == Downstream(m)
      && n.ns == m.ns && n.received == m.received && n.answers == m.answers && n.handled == m.handled
  {
    hide MissesOf;
    var p := m.receiver.pending;
    assert [] + Wanted(p) == Wanted(p);
    assert [] + Wanted(p[1..]) == Wanted(p[1..]);
    assert [] + Wanted([]) == [];
  }

  lemma ExamineReads(t: Texts, m: Monitor)
    requires CanDo(m, Examine) && Reading(m)
    ensures Reading(Do(t, m, Examine))
  {
    var p := m.receiver.pending;
    var cut := |m.received| - |p|;
    if p[0].Some? {
      assert m.received[cut] == m.received[cut..][0] == p[0];
      assert m.received[..cut + 1] == m.received[..cut] + [p[0]];
      assert m.received[cut + 1..] == p[1..];
    }
  }

  lemma ExamineConveys(t: Texts, m: Monitor)
    requires Conveys(t, m) && CanDo(m, Examine)
    ensures Conveys(t, Do(t, m, Examine))
  {
    hide ResolveAll, Upstream, Downstream, Reading, Do, CanDo;
    ExamineShifts(t, m);
    ExamineReads(t, m);
    ShiftConveys(t, m, Do(t, m, Examine));
  }

  lemma HandOverShifts(t: Texts, m: Monitor, l: Local)
    requires Reading(m) && CanDo(m, l) && (l.SendMiss? || l.SendResolved? || l.Insert?)
    ensures var n := Do(t, m, l);
      Upstream(n) == Upstream(m) && n.handled + Downstream(n) == m.handled + Downstream(m) && Reading(n)
  {
    hide MissesOf, InReceiver;
    var n := Do(t, m, l);
    if l.SendMiss? {
      assert ToResolve(n.resolver) + InForwarder(n.forwarder) == ToResolve(m.resolver) + InForwarder(m.forwarder);
    }
    if l.Insert? {
      assert m.handled + ([m.inserter.msg] + JustResolved(m.resolver)) == n.handled + ([] + JustResolved(n.resolver));
    }
  }

  lemma SendNeighReads(t: Texts, m: Monitor)
    requires Reading(m) && CanDo(m, SendNeigh)
    ensures Reading(Do(t, m, SendNeigh))
  {
  }

  lemma SendNeighShifts(t: Texts, m: Monitor)
    requires Reading(m) && CanDo(m, SendNeigh)
    ensures var n := Do(t, m, SendNeigh);
      Upstream(n) == Upstream(m) && n.handled + Downstream(n) == m.handled + Downstream(m) && Reading(n)
  {
    hide Wanted, Reading;
    SendNeighReads(t, m);
    var one, rest := [m.receiver.neigh], Wanted(m.receiver.pending);
    MissesOfConcat(m.ns, one, rest);
    assert MissesOf(m.ns, one) == [MissOf(m.ns, m.receiver.neigh)];
    hide MissesOf;
    assert [] + rest == rest;
  }

  lemma HandOverConveys(t: Texts, m: Monitor, l: Local)
    requires Conveys(t, m) && CanDo(m, l) && (l.SendNeigh? || l.SendMiss? || l.SendResolved? || l.Insert?)
    ensures Conveys(t, Do(t, m, l))
  {
    hide ResolveAll, Upstream, Downstream, Reading;
    if l.SendNeigh? {
      SendNeighShifts(t, m);
    } else {
      HandOverShifts(t, m, l);
    }
    ShiftConveys(t, m, Do(t, m, l));
  }

  lemma AnswerShifts(t: Texts, m: Monitor, answer: Option<seq<Container>>)
    requires CanDo(m, Answer(answer))
    ensures var n := Do(t, m, Answer(answer));
      var r := Resolve(t, answer, m.resolver.miss);
      && Upstream(m) == [m.resolver.miss] + Upstream(n)
      && Downstream(n) == Downstream(m) + (if r.Some? then [r.value] else [])
      && AllMisses(n) == AllMisses(m) && n.handled == m.handled && n.answers == m.answers + [answer]
      && (Reading(m) ==> Reading(n))
  {
    hide MissesOf, Resolve, Wanted, InReceiver, InInserter;
  }

  lemma ResolvesOneMore(t: Texts, all: seq<Neighbor>, answers: seq<Option<seq<Container>>>,
    answer: Option<seq<Container>>, up: seq<Neighbor>)
    requires |answers| <= |all| && up != [] && all[|answers|..] == up
    ensures var k := |answers|;
      var r := Resolve(t, answer, up[0]);
      && k < |all| && all[k + 1..] == up[1..]
      && ResolveAll(t, all[..k + 1], answers + [answer]) ==
        ResolveAll(t, all[..k], answers) + (if r.Some? then [r.value] else [])
  {
    hide Resolve;
    var k := |answers|;
    assert all[k] == all[k..][0];
    assert all[k + 1..] == all[k..][1..];
    assert all[..k + 1][..k] == all[..k] && (answers + [answer])[..k] == answers;
  }

  lemma AnswerConveys(t: Texts, m: Monitor, answer: Option<seq<Container>>)
    requires Conveys(t, m) && CanDo(m, Answer(answer))
    ensures Conveys(t, Do(t, m, Answer(answer)))
  {
    hide Upstream, Downstream, AllMisses, Reading, Resolve, ResolveAll;
    AnswerShifts(t, m, answer);
    ResolvesOneMore(t, AllMisses(m), m.answers, answer, Upstream(m));
  }

  lemma DoConveys(t: Texts, m: Monitor, l: Local)
    requires Conveys(t, m) && ChannelsInv(m) && CanDo(m, l)
    ensures Conveys(t, Do(t, m, l))
  {
    hide Conveys, Do, CanDo, ChannelsInv;
    match l
    case Receive(msgs) => ReceiveConveys(t, m, msgs);
    case Examine => ExamineConveys(t, m);
    case Answer(answer) => AnswerConveys(t, m, answer);
    case SendNeigh => HandOverConveys(t, m, l);
    case SendMiss => HandOverConveys(t, m, l);
    case SendResolved => HandOverConveys(t, m, l);
    case Insert(_) => HandOverConveys(t, m, l);
    case _ => StationaryConveys(t, m, l);
  }

  /** The entries submitted are those for the neighbours handled, in order, as the calls turned out. */
  predicate EntriesInv(m: Monitor) {
    |m.outcomes| == |m.handled| && m.submitted == AllSubmitted(m.vxlanIndex, m.handled, m.outcomes)
  }

  lemma DoKeepsEntries(t: Texts, m: Monitor, l: Local)
    requires EntriesInv(m) && CanDo(m, l)
    ensures EntriesInv(Do(t, m, l))
  {
    if l.Insert? {
      SubmittedOneMore(m.vxlanIndex, m.handled, m.outcomes, m.inserter.msg, l.outcome);
    }
  }

  lemma SubmittedOneMore(vxlanIndex: int, msgs: seq<Neighbor>, outcomes: seq<Outcome>, msg: Neighbor, outcome: Outcome)
    requires |msgs| == |outcomes|
    ensures AllSubmitted(vxlanIndex, msgs + [msg], outcomes + [outcome])
      == AllSubmitted(vxlanIndex, msgs, outcomes) + Submitted(vxlanIndex, msg, outcome)
  {
    assert (msgs + [msg])[..|msgs|] == msgs && (outcomes + [outcome])[..|outcomes|] == outcomes;
  }

  lemma {:induction false} SubmittedForHandled(vxlanIndex: int, msgs: seq<Neighbor>, outcomes: seq<Outcome>, e: Entry)
    requires |msgs| == |outcomes| && e in AllSubmitted(vxlanIndex, msgs, outcomes)
    ensures exists r :: r in msgs && (e == L3Of(r) || e == L2Of(vxlanIndex, r))
  {
    var k := |msgs| - 1;
    if e in AllSubmitted(vxlanIndex, msgs[..k], outcomes[..k]) {
      SubmittedForHandled(vxlanIndex, msgs[..k], outcomes[..k], e);
    } else {
      assert e in Submitted(vxlanIndex, msgs[k], outcomes[k]) && msgs[k] in msgs;
    }
  }

  predicate PipelineInv(t: Texts, m: Monitor) {
    Conveys(t, m) && EntriesInv(m)
  }

  lemma NewMonitorConveys(t: Texts, ns: string, vxlanIndex: int)
    ensures PipelineInv(t, NewMonitor(ns, vxlanIndex))
  {
    var m := NewMonitor(ns, vxlanIndex);
    assert Wanted([]) == [] && AllMisses(m) == [] && Upstream(m) == [] && Downstream(m) == [];
  }

  /** Registration and stopping touch no part of the pipeline but the done channel and the goroutines' birth. */
  lemma TableEventConveys(t: Texts, m: Monitor, n: Monitor)
    requires PipelineInv(t, m)
    requires n == m.(closed := n.closed, starter := n.starter, inserter := n.inserter)
    requires m.inserter == n.inserter || (m.inserter.Unborn? && n.inserter.Looking?)
    ensures PipelineInv(t, n)
  {
    hide ResolveAll;
    assert Upstream(n) == Upstream(m) && Downstream(n) == Downstream(m);
  }

  lemma ApplyConveys(t: Texts, s: State, e: Event)
    requires TableInv(s) && Enabled(s, e) && forall i :: 0 <= i < |s.monitors| ==> PipelineInv(t, s.monitors[i])
    ensures forall i :: 0 <= i < |Apply(t, s, e).monitors| ==> PipelineInv(t, Apply(t, s, e).monitors[i])
  {
    hide PipelineInv, Do, CanDo;
    match e
    case Start(ns, vxlanIndex) => NewMonitorConveys(t, ns, vxlanIndex);
    case Register(i, ns) => TableEventConveys(t, s.monitors[i], Apply(t, s, e).monitors[i]);
    case Stop(ns) =>
      if ns in s.doneChans {
        var i := s.doneChans[ns];
        TableEventConveys(t, s.monitors[i], Apply(t, s, e).monitors[i]);
      }
    case Within(i, local) => DoKeepsPipeline(t, s.monitors[i], local);
  }

  lemma DoKeepsPipeline(t: Texts, m: Monitor, l: Local)
    requires PipelineInv(t, m) && ChannelsInv(m) && CanDo(m, l)
    ensures PipelineInv(t, Do(t, m, l))
  {
    hide Do, CanDo, ChannelsInv, Conveys, EntriesInv;
    DoConveys(t, m, l);
    DoKeepsEntries(t, m, l);
  }

  lemma {:induction false} RunConveys(t: Texts, es: seq<Event>)
    ensures Run(t, es).Some? ==> forall i :: 0 <= i < |Run(t, es).value.monitors| ==>
      PipelineInv(t, Run(t, es).value.monitors[i])
  {
    if es != [] {
      RunConveys(t, es[..|es| - 1]);
      RunKeepsTable(t, es[..|es| - 1]);
      var before := Run(t, es[..|es| - 1]);
      if before.Some? && Enabled(before.value, es[|es| - 1]) {
        ApplyConveys(t, before.value, es[|es| - 1]);
      }
    }
  }

  /**
   In every reachable state, what a monitor's inserter has handled is, in order and without repetition, a prefix
   of the received messages after filtering and resolving; and what it has submitted to the kernel is, in order,
   the entries of the neighbours handled.
   */
  lemma HandledIsPrefix(t: Texts, es: seq<Event>, i: nat)
    requires Run(t, es).Some? && i < |Run(t, es).value.monitors|
    ensures var m := Run(t, es).value.monitors[i];
      && |m.answers| <= |AllMisses(m)|
      && m.handled <= ResolveAll(t, AllMisses(m)[..|m.answers|], m.answers)
      && |m.outcomes| == |m.handled| && m.submitted == AllSubmitted(m.vxlanIndex, m.handled, m.outcomes)
  {
    RunConveys(t, es);
  }

  lemma {:induction false} ResolvedFromAnswers(t: Texts, misses: seq<Neighbor>, answers: seq<Option<seq<Container>>>,
    r: Neighbor)
    requires |misses| == |answers| && r in ResolveAll(t, misses, answers)
    ensures exists j, c ::
      0 <= j < |misses| && answers[j].Some? && c in answers[j].value && ResolvedBy(t, c, misses[j], r)
  {
    var k := |misses| - 1;
    if Resolve(t, answers[k], misses[k]) == Some(r) {
      ResolvedFromOneRecord(t, answers[k].value, misses[k]);
    } else {
      ResolvedFromAnswers(t, misses[..k], answers[..k], r);
      var j, c :| 0 <= j < k && answers[..k][j].Some? && c in answers[..k][j].value &&
        ResolvedBy(t, c, misses[..k][j], r);
      assert answers[j].Some? && c in answers[j].value && ResolvedBy(t, c, misses[j], r);
    }
  }

  /**
   Every forwarding entry submitted pairs the hardware address and the host of one record of the datastore, and
   that record matches the sandbox and the address of a miss this monitor received.
   */
  lemma ForwardingEntriesPairOneRecord(t: Texts, es: seq<Event>, i: nat, e: Entry)
    requires Run(t, es).Some? && i < |Run(t, es).value.monitors|
    requires e.L2? && e in Run(t, es).value.monitors[i].submitted
    ensures var m := Run(t, es).value.monitors[i];
      exists j, c ::
        && 0 <= j < |m.answers| <= |AllMisses(m)| && m.answers[j].Some? && c in m.answers[j].value
        && Matches(t, c, AllMisses(m)[j])
        && e == L2(m.vxlanIndex, AF_BRIDGE, NUD_REACHABLE, NTF_SELF, t.parseIP(c.hostIP), t.parseMAC(c.mac))
  {
    RunConveys(t, es);
    var m := Run(t, es).value.monitors[i];
    var k := |m.answers|;
    SubmittedForHandled(m.vxlanIndex, m.handled, m.outcomes, e);
    var r :| r in m.handled && (e == L3Of(r) || e == L2Of(m.vxlanIndex, r));
    var all := ResolveAll(t, AllMisses(m)[..k], m.answers);
    assert r in m.handled + Downstream(m);
    ResolvedFromAnswers(t, AllMisses(m)[..k], m.answers, r);
    var j, c :| 0 <= j < k && m.answers[j].Some? && c in m.answers[j].value &&
      ResolvedBy(t, c, AllMisses(m)[..k][j], r);
    assert Matches(t, c, AllMisses(m)[j]);
  }

  /** Whatever becomes of its subscriber, a monitor's resolver never ends: nobody closes the channel it reads. */
  lemma ResolverNeverEnds(t: Texts, es: seq<Event>, i: nat)
    requires Run(t, es).Some? && i < |Run(t, es).value.monitors|
    ensures var m := Run(t, es).value.monitors[i];
      !m.resolver.Finished? && !CanDo(m, SeeMissesClosed) && !CanDo(m, SeeResolvedClosed)
  {
    RunKeepsTable(t, es);
  }

  // ---------- what a stop leaves behind ----------

  /** A monitor that has been stopped, down to its forwarder. */
  predicate ShutDown(m: Monitor) {
    && m.closer.SocketClosed? && m.receiver.Ended? && m.forwarder.Over? && m.starter == Returned(true)
    && m.resolver.AwaitingMiss? && !m.closed.misses && m.inserter.Draining? && !m.closed.resolved
  }

  /** Its resolver and its inserter wait for good: no step of the monitor is possible. */
  lemma ShutDownIsStuck(m: Monitor, l: Local)
    requires ShutDown(m)
    ensures !CanDo(m, l)
  {
  }

  lemma ApplyKeepsShutDown(t: Texts, s: State, e: Event, i: nat)
    requires Enabled(s, e) && i < |s.monitors| && ShutDown(s.monitors[i])
    ensures i < |Apply(t, s, e).monitors| && ShutDown(Apply(t, s, e).monitors[i])
  {
    hide Do, CanDo;
    if e.Within? && e.i == i {
      ShutDownIsStuck(s.monitors[i], e.local);
    }
  }

  /** A monitor that has been stopped keeps two goroutines waiting in every continuation. */
  lemma {:induction false} ShutDownForGood(t: Texts, es: seq<Event>, more: seq<Event>, i: nat)
    requires Run(t, es + more).Some? && Run(t, es).Some? && i < |Run(t, es).value.monitors|
    requires ShutDown(Run(t, es).value.monitors[i])
    ensures i < |Run(t, es + more).value.monitors|
    ensures var m := Run(t, es + more).value.monitors[i];
      ShutDown(m) && forall l :: !CanDo(m, l)
  {
    hide Run, Enabled, Apply, ShutDown, CanDo;
    if more == [] {
      assert es + more == es;
    } else {
      var init, last := more[..|more| - 1], more[|more| - 1];
      assert es + more == (es + init) + [last];
      RunOneMore(t, es + init, last);
      ShutDownForGood(t, es, init, i);
      ApplyKeepsShutDown(t, Run(t, es + init).value, last, i);
    }
    forall l
      ensures !CanDo(Run(t, es + more).value.monitors[i], l)
    {
      ShutDownIsStuck(Run(t, es + more).value.monitors[i], l);
    }
  }

  /** Steps of one monitor, one after the other; None if one was not possible. */
  function DoAll(t: Texts, m: Monitor, ls: seq<Local>): Option<Monitor>
    decreases ls
  {
    if ls == [] then Some(m)
    else if CanDo(m, ls[0]) then DoAll(t, Do(t, m, ls[0]), ls[1..]) else None
  }

  function Withins(i: nat, ls: seq<Local>): seq<Event> {
    if ls == [] then [] else [Within(i, ls[0])] + Withins(i, ls[1..])
  }

  /** Steps of one monitor are events of the run. */
  lemma {:induction false} RunWithin(t: Texts, es: seq<Event>, i: nat, ls: seq<Local>)
    requires Run(t, es).Some? && i < |Run(t, es).value.monitors|
    requires DoAll(t, Run(t, es).value.monitors[i], ls).Some?
    ensures var s := Run(t, es).value;
      Run(t, es + Withins(i, ls)) == Some(s.(monitors := s.monitors[i := DoAll(t, s.monitors[i], ls).value]))
    decreases |ls|
  {
    hide Run, Do, CanDo;
    var s := Run(t, es).value;
    if ls == [] {
      assert es + Withins(i, ls) == es && s.monitors[i := s.monitors[i]] == s.monitors;
    } else {
      var first := Within(i, ls[0]);
      RunOneMore(t, es, first);
      RunWithin(t, es + [first], i, ls[1..]);
      assert es + Withins(i, ls) == (es + [first]) + Withins(i, ls[1..]);
      var m := Do(t, s.monitors[i], ls[0]);
      assert s.monitors[i := m][i := DoAll(t, m, ls[1..]).value] == s.monitors[i := DoAll(t, m, ls[1..]).value];
    }
  }

  const START_UP := [LinkFound, CloseReady, SeeReadyClosed, SubscribeOk, Launch]

  const WIND_DOWN := [CloseSocket, ReceiveError, CloseSub, SeeSubClosed]

  lemma DoAllFirst(t: Texts, m: Monitor, l: Local, ls: seq<Local>)
    ensures DoAll(t, m, [l] + ls) == if CanDo(m, l) then DoAll(t, Do(t, m, l), ls) else None
  {
    hide Do, CanDo;
    assert ([l] + ls)[1..] == ls;
  }

  /** A monitor that has been started and registered, started up. */
  lemma StartsUp(t: Texts, m: Monitor)
    requires m == NewMonitor("ns", 1).(starter := AwaitingReady, inserter := Looking)
    ensures DoAll(t, m, START_UP) == Some(m.(
      closed := m.closed.(ready := true), starter := Returned(true), inserter := Draining,
      receiver := Receiving([]), closer := WaitingDone, forwarder := Waiting, resolver := AwaitingMiss))
  {
    hide DoAll;
    DoAllFirst(t, m, LinkFound, [CloseReady, SeeReadyClosed, SubscribeOk, Launch]);
    DoAllOfFour(t, Do(t, m, LinkFound), CloseReady, SeeReadyClosed, SubscribeOk, Launch);
    assert [LinkFound] + [CloseReady, SeeReadyClosed, SubscribeOk, Launch] == START_UP;
  }

  lemma DoNothing(t: Texts, m: Monitor)
    ensures DoAll(t, m, []) == Some(m)
  {
  }

  /** Once its done channel is closed, an idle monitor winds down and is shut down. */
  lemma WindsDown(t: Texts, m: Monitor)
    requires m.closed.done && m.closer.WaitingDone? && m.receiver == Receiving([]) && m.forwarder.Waiting?
    requires m.starter == Returned(true) && m.resolver.AwaitingMiss? && m.inserter.Draining?
    requires !m.closed.misses && !m.closed.resolved
    ensures DoAll(t, m, WIND_DOWN).Some? && ShutDown(DoAll(t, m, WIND_DOWN).value)
  {
    hide DoAll;
    DoAllOfFour(t, m, CloseSocket, ReceiveError, CloseSub, SeeSubClosed);
  }

  lemma DoAllOfFour(t: Texts, m: Monitor, l1: Local, l2: Local, l3: Local, l4: Local)
    requires CanDo(m, l1) && CanDo(Do(t, m, l1), l2) && CanDo(Do(t, Do(t, m, l1), l2), l3)
    requires CanDo(Do(t, Do(t, Do(t, m, l1), l2), l3), l4)
    ensures DoAll(t, m, [l1, l2, l3, l4]) == Some(Do(t, Do(t, Do(t, Do(t, m, l1), l2), l3), l4))
  {
    hide Do, CanDo, DoAll;
    var a := Do(t, m, l1);
    var b := Do(t, a, l2);
    var c := Do(t, b, l3);
    DoAllFirst(t, m, l1, [l2, l3, l4]);
    DoAllFirst(t, a, l2, [l3, l4]);
    DoAllFirst(t, b, l3, [l4]);
    DoAllFirst(t, c, l4, []);
    DoNothing(t, Do(t, c, l4));
    assert [l1] + [l2, l3, l4] == [l1, l2, l3, l4] && [l2] + [l3, l4] == [l2, l3, l4];
    assert [l3] + [l4] == [l3, l4] && [l4] + [] == [l4];
  }

  /** One start, one stop: the resolver and the inserter are left waiting. */
  lemma StopLeavesTwoWaiting(t: Texts)
    ensures var es := [Start("ns", 1), Register(0, "ns")] + Withins(0, START_UP) + [Stop("ns")] + Withins(0, WIND_DOWN);
      Run(t, es).Some? && |Run(t, es).value.monitors| == 1 && ShutDown(Run(t, es).value.monitors[0])
  {
    hide Do, CanDo, DoAll, Withins, ShutDown;
    var idle := NewMonitor("ns", 1);
    var m := idle.(starter := AwaitingReady, inserter := Looking);
    var start, register, stop := Start("ns", 1), Register(0, "ns"), Stop("ns");
    assert Run(t, []) == Some(State([], map[]));
    hide Run;
    RunOneMore(t, [], start);
    assert [] + [start] == [start] && [start] + [register] == [start, register];
    assert [] + [idle] == [idle] && [idle][0 := m] == [m];
    RunOneMore(t, [start], register);
    var es := [start, register];
    assert Run(t, es) == Some(State([m], map["ns" := 0]));
    StartsUp(t, m);
    RunWithin(t, es, 0, START_UP);
    var up := DoAll(t, m, START_UP).value;
    es := es + Withins(0, START_UP);
    assert [m][0 := up] == [up];
    RunOneMore(t, es, stop);
    es := es + [stop];
    var stopped := up.(closed := up.closed.(done := true));
    assert [up][0 := stopped] == [stopped];
    WindsDown(t, stopped);
    RunWithin(t, es, 0, WIND_DOWN);
  }

  // ---------- progress ----------

  /** The events that move something along the pipeline. */
  predicate Moving(l: Local) {
    l.Examine? || l.SendNeigh? || l.SendMiss? || l.Answer? || l.SendResolved? || l.Insert?
  }

  /** How many steps the messages under way may still take. */
  function Work(m: Monitor): nat {
    6 * |Pending(m.receiver)|
    + (if m.receiver.SendingNeigh? then 5 else 0)
    + (if m.forwarder.SendingMiss? then 4 else 0)
    + (if m.resolver.Resolving? then 3 else if m.resolver.SendingResolved? then 2 else 0)
    + (if m.inserter.Handling? then 1 else 0)
  }

  lemma MovingUsesUp(t: Texts, m: Monitor, l: Local)
    requires CanDo(m, l)
    ensures Moving(l) ==> Work(Do(t, m, l)) < Work(m)
    ensures !l.Receive? ==> Work(Do(t, m, l)) <= Work(m)
  {
    hide Resolve;
  }

  /** Who is there to receive, once a StartMonitor has come past the inserter. */
  predicate ReceiversInv(m: Monitor) {
    && (m.inserter.ClosingReady? && !m.inserter.found ==> m.starter == Returned(false))
    && (m.inserter.Gone? ==> m.starter == Returned(false))
    && (m.starter.Subscribing? || m.starter.Launching? || m.starter == Returned(true) ==>
          m.inserter.Draining? || m.inserter.Handling?)
    && (m.starter == Returned(true) ==> !m.forwarder.NotYet? && !m.resolver.NotRunning?)
    && (m.forwarder.Over? ==> m.closed.sub)
  }

  lemma DoKeepsReceivers(t: Texts, m: Monitor, l: Local)
    requires ChannelsInv(m) && ReceiversInv(m) && CanDo(m, l)
    ensures ReceiversInv(Do(t, m, l))
  {
    hide Resolve;
  }

  lemma ApplyKeepsReceivers(t: Texts, s: State, e: Event)
    requires TableInv(s) && Enabled(s, e) && forall i :: 0 <= i < |s.monitors| ==> ReceiversInv(s.monitors[i])
    ensures forall i :: 0 <= i < |Apply(t, s, e).monitors| ==> ReceiversInv(Apply(t, s, e).monitors[i])
  {
    hide Do, CanDo;
    if e.Within? {
      DoKeepsReceivers(t, s.monitors[e.i], e.local);
    } else if e.Register? {
      assert ChannelsInv(s.monitors[e.i]);
    }
  }

  lemma {:induction false} RunKeepsReceivers(t: Texts, es: seq<Event>)
    ensures Run(t, es).Some? ==>
      forall i :: 0 <= i < |Run(t, es).value.monitors| ==> ReceiversInv(Run(t, es).value.monitors[i])
  {
    hide ReceiversInv, Apply, Enabled;
    if es != [] {
      RunKeepsReceivers(t, es[..|es| - 1]);
      RunKeepsTable(t, es[..|es| - 1]);
      var before := Run(t, es[..|es| - 1]);
      if before.Some? && Enabled(before.value, es[|es| - 1]) {
        ApplyKeepsReceivers(t, before.value, es[|es| - 1]);
      }
    }
  }

  /** While something is under way somebody can move it: the furthest along goes first. */
  lemma SomethingMoves(m: Monitor) returns (l: Local)
    requires ChannelsInv(m) && ReceiversInv(m) && m.starter == Returned(true) && Work(m) > 0
    ensures Moving(l) && CanDo(m, l)
  {
    l := if m.inserter.Handling? then Insert(Outcome(true, true))
      else if m.resolver.SendingResolved? then SendResolved
      else if m.resolver.Resolving? then Answer(None)
      else if m.forwarder.SendingMiss? then SendMiss
      else if m.receiver.SendingNeigh? then SendNeigh
      else Examine;
  }

  /**
   In every reachable state of a monitor whose start has returned without an error: while a message is under way some
   step that moves it is possible, every such step uses up some of a finite amount of work that only receiving adds
   to, and when none is left every miss received has been resolved and handled.
   */
  lemma PipelineDrains(t: Texts, es: seq<Event>, i: nat)
    requires Run(t, es).Some? && i < |Run(t, es).value.monitors|
    requires Run(t, es).value.monitors[i].starter == Returned(true)
    ensures var m := Run(t, es).value.monitors[i];
      && (Work(m) > 0 ==> exists l :: Moving(l) && Enabled(Run(t, es).value, Within(i, l)))
      && (forall l :: CanDo(m, l) && Moving(l) ==> Work(Do(t, m, l)) < Work(m))
      && (forall l :: CanDo(m, l) && !l.Receive? ==> Work(Do(t, m, l)) <= Work(m))
      && (Work(m) == 0 ==> |m.answers| == |AllMisses(m)| && m.handled == ResolveAll(t, AllMisses(m), m.answers))
  {
    hide Do, CanDo, Work, ChannelsInv, ReceiversInv, Run, PipelineInv;
    RunKeepsTable(t, es);
    RunKeepsReceivers(t, es);
    RunConveys(t, es);
    var s := Run(t, es).value;
    var m := s.monitors[i];
    if Work(m) > 0 {
      var l := SomethingMoves(m);
      assert Enabled(s, Within(i, l));
    } else {
      NothingUnderWay(t, m);
    }
    forall l | CanDo(m, l)
      ensures Moving(l) ==> Work(Do(t, m, l)) < Work(m)
      ensures !l.Receive? ==> Work(Do(t, m, l)) <= Work(m)
    {
      MovingUsesUp(t, m, l);
    }
  }

  lemma NothingUnderWay(t: Texts, m: Monitor)
    requires PipelineInv(t, m) && Work(m) == 0
    ensures |m.answers| == |AllMisses(m)| && m.handled == ResolveAll(t, AllMisses(m), m.answers)
  {
    hide ResolveAll, AllMisses, Reading, EntriesInv;
    assert Upstream(m) == [] && Downstream(m) == [];
    assert AllMisses(m)[|m.answers|..] == [];
    assert AllMisses(m)[..|m.answers|] == AllMisses(m) && m.handled + [] == m.handled;
  }

  lemma MovingKeepsStarted(t: Texts, m: Monitor, l: Local)
    requires CanDo(m, l) && Moving(l)
    ensures Do(t, m, l).starter == m.starter && Do(t, m, l).received == m.received && Do(t, m, l).ns == m.ns
  {
    hide Resolve;
  }

  lemma Drains(t: Texts, m: Monitor) returns (ls: seq<Local>)
    requires ChannelsInv(m) && ReceiversInv(m) && m.starter == Returned(true)
    ensures |ls| <= Work(m) && forall l :: l in ls ==> Moving(l)
    ensures var d := DoAll(t, m, ls);
      && d.Some? && Work(d.value) == 0
      && d.value.received == m.received && d.value.ns == m.ns && d.value.starter == m.starter
    decreases Work(m)
  {
    hide Do, CanDo, Work, ChannelsInv, ReceiversInv;
    if Work(m) == 0 {
      ls := [];
    } else {
      var l := SomethingMoves(m);
      MovingUsesUp(t, m, l);
      DoKeepsChannels(t, m, l);
      DoKeepsReceivers(t, m, l);
      MovingKeepsStarted(t, m, l);
      var rest := Drains(t, Do(t, m, l));
      ls := [l] + rest;
      DoAllFirst(t, m, l, rest);
    }
  }

  /**
   From every reachable state, a monitor whose start has returned can handle every miss it has received, resolved or
   given up in order, in so many steps of its own.
   */
  lemma BatchIsHandled(t: Texts, es: seq<Event>, i: nat) returns (ls: seq<Local>)
    requires Run(t, es).Some? && i < |Run(t, es).value.monitors|
    requires Run(t, es).value.monitors[i].starter == Returned(true)
    ensures |ls| <= Work(Run(t, es).value.monitors[i]) && forall l :: l in ls ==> Moving(l)
    ensures Run(t, es + Withins(i, ls)).Some? && i < |Run(t, es + Withins(i, ls)).value.monitors|
    ensures var m := Run(t, es + Withins(i, ls)).value.monitors[i];
      && m.received == Run(t, es).value.monitors[i].received
      && |m.answers| == |AllMisses(m)| && m.handled == ResolveAll(t, AllMisses(m), m.answers)
  {
    hide Do, CanDo, Work, ChannelsInv, ReceiversInv, Run, DoAll, Withins;
    RunKeepsTable(t, es);
    RunKeepsReceivers(t, es);
    var m := Run(t, es).value.monitors[i];
    ls := Drains(t, m);
    RunWithin(t, es, i, ls);
    PipelineDrains(t, es + Withins(i, ls), i);
  }

  // ---------- every miss is answered ----------

  /** How many of the messages are misses, by the kernel's fields. */
  function MissesAmong(msgs: seq<Message>): nat {
    if msgs == [] then 0
    else
      var m := msgs[|msgs| - 1];
      MissesAmong(msgs[..|msgs| - 1])
      + if m != None && m.value.ip != None && (m.value.hw == None || m.value.state == 0x04) then 1 else 0
  }

  lemma {:induction false} WantedCounts(msgs: seq<Message>)
    requires Decodable(msgs)
    ensures |Wanted(msgs)| == MissesAmong(msgs)
  {
    if msgs != [] {
      var init, m := msgs[..|msgs| - 1], msgs[|msgs| - 1];
      assert m in msgs;
      assert Decodable(init);
      WantedCounts(init);
      NextIsForwarded(init, m, []);
      assert init + [m] == msgs;
    }
  }

  /** The miss in a message is the one with as many before it as there are among the messages before. */
  lemma MissIsThere(ns: string, msgs: seq<Message>, p: nat)
    requires p < |msgs| && Decodable(msgs[..p + 1])
    requires msgs[p].value.ip != None && (msgs[p].value.hw == None || msgs[p].value.state == 0x04)
    ensures var k := MissesAmong(msgs[..p]);
      k < |Wanted(msgs)| && MissesOf(ns, Wanted(msgs))[k] == Neighbor(ns, None, msgs[p].value)
  {
    hide Wanted, MissesAmong, IsMiss;
    var a, m := msgs[..p], msgs[p];
    assert msgs[..p + 1] == a + [m] && m in a + [m];
    assert Decodable(a);
    NextIsForwarded(a, m, []);
    WantedCounts(a);
    assert msgs == (a + [m]) + msgs[p + 1..];
    WantedConcat(a + [m], msgs[p + 1..]);
  }

  lemma {:induction false} ResolvedIsAmong(t: Texts, misses: seq<Neighbor>, answers: seq<Option<seq<Container>>>,
    k: nat)
    requires |misses| == |answers| && k < |misses| && Resolve(t, answers[k], misses[k]).Some?
    ensures Resolve(t, answers[k], misses[k]).value in ResolveAll(t, misses, answers)
  {
    hide Resolve;
    var last := |misses| - 1;
    if k < last {
      ResolvedIsAmong(t, misses[..last], answers[..last], k);
    }
  }

  /**
   When a monitor whose start returned without an error has nothing under way: for every miss it received, before any
   message that cannot be decoded, the datastore was asked, and if the first record of the sandbox with the address
   had a hardware address that can be read, the inserter has handled the neighbour with that hardware address and
   that record's host.
   */
  lemma MissesAreAnswered(t: Texts, es: seq<Event>, i: nat, p: nat)
    requires Run(t, es).Some? && i < |Run(t, es).value.monitors|
    requires var m := Run(t, es).value.monitors[i];
      && m.starter == Returned(true) && Work(m) == 0 && p < |m.received| && Decodable(m.received[..p + 1])
      && var n := m.received[p].value; n.ip != None && (n.hw == None || n.state == 0x04)
    ensures var m := Run(t, es).value.monitors[i];
      var k, miss := MissesAmong(m.received[..p]), Neighbor(m.ns, None, m.received[p].value);
      && k < |m.answers|
      && forall x :: m.answers[k].Some? && IsFirst(t, m.answers[k].value, miss, x)
                     && t.parseMAC(m.answers[k].value[x].mac).Some? ==>
           exists r :: r in m.handled && TakenFrom(t, m.answers[k].value[x], miss, r)
  {
    hide Run, Work, MissesAmong, Wanted, Resolve, ResolveAll, IsFirst, TakenFrom;
    var m := Run(t, es).value.monitors[i];
    var k, miss := MissesAmong(m.received[..p]), Neighbor(m.ns, None, m.received[p].value);
    PipelineDrains(t, es, i);
    MissIsThere(m.ns, m.received, p);
    ResolvesExactly(t, m.answers[k], miss);
    if Resolve(t, m.answers[k], miss).Some? {
      ResolvedIsAmong(t, AllMisses(m), m.answers, k);
    }
  }
}
