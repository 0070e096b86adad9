// Port events where the code departs from its evident intent: for each
// departure, exactly when it does no harm.
module PortDepartures {
  import opened Wrappers
  import opened Text
  import opened Libipvs
  import opened TableView
  import opened Ports
  import opened Staging
  import opened Batch
  import opened Queue
  import opened Pipeline
  import opened Controller

  // ------------------------------------------------- old deltas, resent

  // The locked sections with no hypothesis at all: any listing, any rewrite of
  // a queued store, any outcome of a worker's turn.
  datatype AnyStep =
    | AnyTcp(d: set<Port>, addr: map<string, string>)
    | AnyUdp(d: set<Port>, addr: map<string, string>)
    | AnyPod(store: Store)
    | AnyWork(table: set<Triple>)

  ghost function Take(x: Data, step: AnyStep): Data {
    match step
    case AnyTcp(d, addr) => TcpEvent(x, d, addr)
    case AnyUdp(d, addr) => UdpEvent(x, d, addr)
    case AnyPod(s) => PodEvent(x, s)
    case AnyWork(table) => if x.queue == [] then x else x.(queue := x.queue[1..], table := table)
  }

  ghost function TakeAll(x: Data, steps: seq<AnyStep>): Data
    decreases |steps|
  {
    if steps == [] then x else TakeAll(Take(x, steps[0]), steps[1..])
  }

  predicate BothSafe(x: Data) {
    DeltaSafe(x.stores.clb.tcp, x.tcp.ex) && DeltaSafe(x.stores.clb.udp, x.udp.ex)
  }

  lemma {:induction false} AnyRunSafe(x: Data, steps: seq<AnyStep>)
    requires BothSafe(x)
    ensures BothSafe(TakeAll(x, steps))
    decreases |steps|
  {
    if steps != [] {
      TakeSafe(x, steps[0]);
      AnyRunSafe(Take(x, steps[0]), steps[1..]);
    }
  }

  lemma TakeSafe(x: Data, step: AnyStep)
    requires BothSafe(x)
    ensures BothSafe(Take(x, step))
  {
    match step
    case AnyTcp(d, _) => NextDeltaSafe(x.tcp, d, x.stores.clb.tcp);
    case AnyUdp(d, _) => NextDeltaSafe(x.udp, d, x.stores.clb.udp);
    case AnyPod(_) =>
    case AnyWork(_) =>
  }

  // After any run at all, of both protocols, the store that the next port
  // event publishes takes a table equal to recorded ports times backends to
  // the ports recorded then: what it resends of the other protocol, or after
  // a repeated set, changes nothing.
  lemma ResentDeltasHarmless(start: Data, steps: seq<AnyStep>, event: AnyStep, backends: set<IPv4>)
    requires BothSafe(start) && (event.AnyTcp? || event.AnyUdp?) && Lists(event.addr, backends)
    ensures var x := TakeAll(start, steps);
            var x' := Take(x, event);
            && Process(x'.stores.clb, Desired(x.tcp.ex, x.udp.ex, backends)) == Desired(x'.tcp.ex, x'.udp.ex, backends)
            && (event.AnyTcp? ==> x'.udp.ex == x.udp.ex)
            && (event.AnyUdp? ==> x'.tcp.ex == x.tcp.ex)
  {
    AnyRunSafe(start, steps);
    var x := TakeAll(start, steps);
    var x' := Take(x, event);
    TakeSafe(x, event);
    DeltaReaches(x'.stores.clb, x.tcp.ex, x.udp.ex, x'.tcp.ex, x'.udp.ex, backends);
  }

  // ------------------------------------------------- one store, any listing

  datatype PortSets = PortSets(tcp: set<Port>, udp: set<Port>) {
    function Of(protocol: Protocol): set<Port> { if protocol == TCP then tcp else udp }

    function On(backends: set<IPv4>): set<Triple> { Desired(tcp, udp, backends) }
  }

  // The ports outside the delta did not change.
  ghost predicate Settles(delta: map<Port, string>, before: set<Port>, after: set<Port>) {
    forall p: Port :: p !in delta ==> (p in before <==> p in after)
  }

  // What makes one triple right: served addresses follow the delta, addresses
  // listed for the first time must gain nothing, unlisted ones stay as they are.
  predicate TripleRight(s: Store, before: PortSets, after: PortSets, backends: set<IPv4>, listed: set<IPv4>,
                        x: Triple) {
    var same := x.port in before.Of(x.protocol) <==> x.port in after.Of(x.protocol);
    if x.address in listed then
      if x.address in backends then x.port in PortsOf(s, x.protocol) || same else !Asks(s, x, ADDITION)
    else x.address in backends ==> same
  }

  lemma TripleRightAt(s: Store, before: PortSets, after: PortSets, backends: set<IPv4>, listed: set<IPv4>, x: Triple)
    requires (Adding(s, x.address) <==> x.address in listed) && !Deleting(s, x.address)
    requires DeltaSafe(PortsOf(s, x.protocol), after.Of(x.protocol))
    ensures (x in Process(s, before.On(backends)) <==> x in after.On(backends)) <==>
            TripleRight(s, before, after, backends, listed, x)
  {
    TagsDiffer();
    ProcessAt(s, before.On(backends), x);
    DesiredAt(before.tcp, before.udp, backends, x);
    DesiredAt(after.tcp, after.udp, backends, x);
    var delta := PortsOf(s, x.protocol);
    if x.port in delta {
      assert delta[x.port] in delta.Values;
      assert x.port in Additions(delta) || x.port in Deletions(delta);
    }
  }

  // Listed without being announced: nothing may be added. Announced without
  // being listed: nothing may have changed. Both: the delta must cover the
  // change.
  ghost predicate ListingFits(s: Store, before: PortSets, after: PortSets, backends: set<IPv4>, listed: set<IPv4>) {
    && (listed <= backends || AddsNothing(s))
    && (backends <= listed || before == after)
    && (backends !! listed || (Settles(s.tcp, before.tcp, after.tcp) && Settles(s.udp, before.udp, after.udp)))
  }

  // For any listing whatever, exactly when processing the store takes the
  // wanted triples for one pair of port sets to those for another.
  lemma ReachesIff(s: Store, before: PortSets, after: PortSets, backends: set<IPv4>, listed: set<IPv4>)
    requires Lists(s.addr, listed) && DeltaSafe(s.tcp, after.tcp) && DeltaSafe(s.udp, after.udp)
    ensures Process(s, before.On(backends)) == after.On(backends) <==> ListingFits(s, before, after, backends, listed)
  {
    var processed, target := Process(s, before.On(backends)), after.On(backends);
    forall x
      ensures (x in processed <==> x in target) <==> TripleRight(s, before, after, backends, listed, x)
    {
      ListedAt(s, listed, x.address);
      TripleRightAt(s, before, after, backends, listed, x);
    }
    assert processed == target <==> forall x :: x in processed <==> x in target;
    AllRightIff(s, before, after, backends, listed);
  }

  lemma ListedAt(s: Store, listed: set<IPv4>, a: IPv4)
    requires Lists(s.addr, listed)
    ensures (Adding(s, a) <==> a in listed) && !Deleting(s, a)
  {
    ListsAdding(s, listed);
  }

  lemma AllRightIff(s: Store, before: PortSets, after: PortSets, backends: set<IPv4>, listed: set<IPv4>)
    ensures (forall x :: TripleRight(s, before, after, backends, listed, x)) <==>
            ListingFits(s, before, after, backends, listed)
  {
    if !ListingFits(s, before, after, backends, listed) {
      var wrong := WrongTriple(s, before, after, backends, listed);
    }
  }

  lemma WrongTriple(s: Store, before: PortSets, after: PortSets, backends: set<IPv4>, listed: set<IPv4>)
    returns (x: Triple)
    requires !ListingFits(s, before, after, backends, listed)
    ensures !TripleRight(s, before, after, backends, listed, x)
  {
    if !(listed <= backends) && !AddsNothing(s) {
      var a :| a in listed && a !in backends;
      var protocol, p := AddingPort(s);
      x := Triple(protocol, p, a);
    } else if !(backends <= listed) && before != after {
      var a :| a in backends && a !in listed;
      var protocol, p := ChangedPort(before, after);
      x := Triple(protocol, p, a);
    } else {
      var a :| a in backends && a in listed;
      if !Settles(s.tcp, before.tcp, after.tcp) {
        var p: Port :| p !in s.tcp && (p in before.tcp) != (p in after.tcp);
        x := Triple(TCP, p, a);
      } else {
        var p: Port :| p !in s.udp && (p in before.udp) != (p in after.udp);
        x := Triple(UDP, p, a);
      }
    }
  }

  lemma AddingPort(s: Store) returns (protocol: Protocol, p: Port)
    requires !AddsNothing(s)
    ensures p in PortsOf(s, protocol) && PortsOf(s, protocol)[p] == ADDITION
  {
    if q :| q in s.tcp && s.tcp[q] == ADDITION {
      protocol, p := TCP, q;
    } else {
      var q :| q in s.udp && s.udp[q] == ADDITION;
      protocol, p := UDP, q;
    }
  }

  lemma ChangedPort(before: PortSets, after: PortSets) returns (protocol: Protocol, p: Port)
    requires before != after
    ensures (p in before.Of(protocol)) != (p in after.Of(protocol))
  {
    if before.tcp != after.tcp {
      protocol := TCP;
    } else {
      protocol := UDP;
    }
    p :| (p in before.Of(protocol)) != (p in after.Of(protocol));
  }

  // ------------------------------------------------- one port event, any listing

  predicate IsPortEvent(step: Step) { step.TcpChange? || step.UdpChange? }

  // The state a port event leaves, and the ports it makes the wanted ones.
  ghost function PortEvent(x: Data, step: Step): Data
    requires IsPortEvent(step)
  {
    if step.TcpChange? then TcpEvent(x, step.d, step.addr) else UdpEvent(x, step.d, step.addr)
  }

  function PortsOfWorld(w: World): PortSets { PortSets(w.cmTcp, w.cmUdp) }

  function PortsAfter(w: World, step: Step): PortSets
    requires IsPortEvent(step)
  {
    if step.TcpChange? then PortSets(step.d, w.cmUdp) else PortSets(w.cmTcp, step.d)
  }

  // What the service was configured to before.
  function Current(w: World, step: Step): set<Port>
    requires IsPortEvent(step)
  {
    if step.TcpChange? then w.cmTcp else w.cmUdp
  }

  // The event does not meet a staged leftover with a removal.
  predicate StagingFits(w: World, step: Step)
    requires IsPortEvent(step)
  {
    var staged := if step.TcpChange? then w.data.tcp else w.data.udp;
    staged.nw == {} || staged.ex <= step.d
  }

  lemma EventFits(s: Staged, d: set<Port>, delta: map<Port, string>)
    requires Settled(s) && (s.nw == {} || s.ex <= d) && DeltaSafe(delta, s.ex)
    ensures Event(s, d).ex == d
    ensures NextDelta(s, d, delta) == if s.ex == d then delta else Diff(s.ex, d)
    ensures DeltaSafe(NextDelta(s, d, delta), d) && Settles(NextDelta(s, d, delta), s.ex, d)
  {
    EventRecords(s, d);
    NextDeltaSafe(s, d, delta);
    assert s.nw + d == d;
  }

  lemma PublishedDelta(w: World, step: Step)
    requires Invariant(w) && IsPortEvent(step) && StagingFits(w, step)
    ensures var s := PortEvent(w.data, step).stores.clb;
            && DeltaSafe(s.tcp, PortsAfter(w, step).tcp) && Settles(s.tcp, w.cmTcp, PortsAfter(w, step).tcp)
            && DeltaSafe(s.udp, PortsAfter(w, step).udp) && Settles(s.udp, w.cmUdp, PortsAfter(w, step).udp)
  {
    if step.TcpChange? {
      EventFits(w.data.tcp, step.d, w.data.stores.clb.tcp);
    } else {
      EventFits(w.data.udp, step.d, w.data.stores.clb.udp);
    }
  }

  // A listing is never checked against what pod events announced. Whatever it
  // names, a port event is right exactly when the addresses it names beyond the
  // announced ones gain no port (stale additions of the other protocol count),
  // and, if it misses an announced one, the ports are the same as before.
  lemma PortEventIff(w: World, step: Step, listed: set<IPv4>)
    requires Invariant(w) && IsPortEvent(step) && StagingFits(w, step) && KeepsWork(w, step)
    requires Lists(step.addr, listed)
    ensures Pending(PortEvent(w.data, step)) == PortsAfter(w, step).On(w.backends) <==>
            && (listed <= w.backends || AddsNothing(PortEvent(w.data, step).stores.clb))
            && (w.backends <= listed || step.d == Current(w, step))
  {
    var s := PortEvent(w.data, step).stores.clb;
    PublishAppends(w.data, Clb, s);
    PublishedDelta(w, step);
    ReachesIff(s, PortsOfWorld(w), PortsAfter(w, step), w.backends, listed);
  }

  // With an agreeing listing and usable ports that meet no staged leftover, a
  // port event is allowed exactly when it leaves pending what is wanted then.
  lemma PortAllowedIff(w: World, step: Step)
    requires Invariant(w) && IsPortEvent(step) && StagingFits(w, step)
    requires Lists(step.addr, w.backends) && 0 !in step.d
    ensures Allowed(w, step) <==> Pending(PortEvent(w.data, step)) == PortsAfter(w, step).On(w.backends)
  {
    var s := PortEvent(w.data, step).stores.clb;
    PublishedDelta(w, step);
    ReachesIff(s, PortsOfWorld(w), PortsAfter(w, step), w.backends, w.backends);
    RewriteNowIff(w.data.queue, w.data.stores, w.data.table, Clb, s);
  }

  // ------------------------------------------------- listings of pods

  lemma ReadableListing(pods: seq<Pod>)
    requires DistinctNames(pods)
    requires forall pod :: pod in Readable(pods) && IsNginx(pod) ==> ParseIP(pod.podIP).Some?
    ensures Lists(ListedAddrs(pods, map[]).1, ListedBackends(Readable(pods)))
  {
    ReadableIsListed(pods, map[]);
    assert forall i :: 0 <= i < |Readable(pods)| ==> Readable(pods)[i] == pods[i];
    ListingIsExact(Readable(pods), map[]);
  }

  // So on any list of pods, terminating ones and unannounced ones included:
  lemma ListedPodsIff(w: World, step: Step, pods: seq<Pod>)
    requires Invariant(w) && IsPortEvent(step) && StagingFits(w, step) && KeepsWork(w, step)
    requires DistinctNames(pods) && step.addr == ListedAddrs(pods, map[]).1
    requires forall pod :: pod in Readable(pods) && IsNginx(pod) ==> ParseIP(pod.podIP).Some?
    ensures var listed := ListedBackends(Readable(pods));
            Pending(PortEvent(w.data, step)) == PortsAfter(w, step).On(w.backends) <==>
            && (listed <= w.backends || AddsNothing(PortEvent(w.data, step).stores.clb))
            && (w.backends <= listed || step.d == Current(w, step))
  {
    ReadableListing(pods);
    PortEventIff(w, step, ListedBackends(Readable(pods)));
  }

  // A real listing on which it goes wrong: one terminating nginx pod.
  function LastPod(dead: IPv4): Pod { Pod("ingress-nginx", NGINX_PATTERN, Dotted(dead), true) }

  lemma LastPodListed(dead: IPv4)
    ensures IsNginx(LastPod(dead)) && ParseIP(LastPod(dead).podIP) == Some(dead)
    ensures Readable([LastPod(dead)]) == [LastPod(dead)] && ListedBackends([LastPod(dead)]) == {dead}
  {
    var pod := LastPod(dead);
    AddressRoundTrip(dead);
    assert StartsAt(NGINX_PATTERN, 0, NGINX_PATTERN);
    assert Decimal(dead.a) != "" && Dotted(dead) != "";
    assert Readable([pod]) == [pod] + Readable([]);
    assert forall other :: other in [pod] <==> other == pod;
  }

  lemma LastPodLists(dead: IPv4)
    ensures Lists(ListedAddrs([LastPod(dead)], map[]).1, {dead})
  {
    LastPodListed(dead);
    ReadableListing([LastPod(dead)]);
  }

  // Idle, with nothing configured and nothing announced.
  function Blank(): World {
    World(Data(Staged({}, {}), Staged({}, {}), Stores(EMPTY_STORE, EMPTY_STORE), [], {}), {}, {}, {})
  }

  lemma BlankInvariant()
    ensures Invariant(Blank()) && Wanted(Blank()) == {}
  {
    assert forall a :: !Adding(EMPTY_STORE, a);
  }

  // The first port to be configured, of either protocol, brings that pod back.
  lemma TerminatingPodReturns(dead: IPv4, p: Port, udp: bool)
    ensures var addr := ListedAddrs([LastPod(dead)], map[]).1;
            var step := if udp then UdpChange({p}, addr) else TcpChange({p}, addr);
            && PortsAfter(Blank(), step).On(Blank().backends) == {}
            && Triple(if udp then UDP else TCP, p, dead) in Pending(PortEvent(Blank().data, step))
  {
    var addr := ListedAddrs([LastPod(dead)], map[]).1;
    LastPodLists(dead);
    BlankGains(if udp then UdpChange({p}, addr) else TcpChange({p}, addr), dead, p);
  }

  lemma BlankGains(step: Step, a: IPv4, p: Port)
    requires IsPortEvent(step) && step.d == {p} && Lists(step.addr, {a})
    ensures Triple(if step.UdpChange? then UDP else TCP, p, a) in Pending(PortEvent(Blank().data, step))
  {
    var x := Triple(if step.UdpChange? then UDP else TCP, p, a);
    var s := PortEvent(Blank().data, step).stores.clb;
    EventFits(Staged({}, {}), {p}, map[]);
    PublishAppends(Blank().data, Clb, s);
    AddedAt(s, {a}, Pending(Blank().data), x);
  }

  lemma AddedAt(s: Store, listed: set<IPv4>, t: set<Triple>, x: Triple)
    requires Lists(s.addr, listed) && x.address in listed && Asks(s, x, ADDITION)
    ensures x in Process(s, t)
  {
    ListedAt(s, listed, x.address);
    ProcessAt(s, t, x);
  }

  // ------------------------------------------------- two port events in a row

  // The second event keeps what the first asked for: it is about the other
  // protocol, or repeats the set, or its delta covers the first one's.
  ghost predicate KeepsFirst(w: World, first: Step, second: Step)
    requires IsPortEvent(first) && IsPortEvent(second)
  {
    || first.TcpChange? != second.TcpChange?
    || second.d == first.d
    || Diff(Current(w, first), first.d).Keys <= Diff(first.d, second.d).Keys
  }

  // Two port events of any protocols before a worker runs, each with its own
  // listing, on an idle controller.
  lemma SecondPortEventIff(w: World, first: Step, second: Step)
    requires Invariant(w) && w.data.queue == [] && IsPortEvent(first) && Allowed(w, first)
    requires IsPortEvent(second) && Lists(second.addr, w.backends) && StagingFits(Next(w, first), second)
    ensures var w' := Next(w, first);
            && (Pending(PortEvent(w'.data, second)) == PortsAfter(w', second).On(w.backends) <==>
                w.backends == {} || KeepsFirst(w, first, second))
            && (0 !in second.d ==> (Allowed(w', second) <==> w.backends == {} || KeepsFirst(w, first, second)))
  {
    var w' := Next(w, first);
    var s := PortEvent(w'.data, second).stores.clb;
    StepKeepsInvariant(w, first);
    PublishedDelta(w', second);
    TwoQueued(w, first, second);
    ReachesIff(s, PortsOfWorld(w), PortsAfter(w', second), w.backends, w.backends);
    SettlesIff(w, first, second);
    if 0 !in second.d {
      PortAllowedIff(w', second);
    }
  }

  lemma TwoQueued(w: World, first: Step, second: Step)
    requires Invariant(w) && w.data.queue == [] && IsPortEvent(first) && IsPortEvent(second)
    ensures var x := PortEvent(PortEvent(w.data, first), second);
            Pending(x) == Process(x.stores.clb, Wanted(w))
  {
    var x := PortEvent(PortEvent(w.data, first), second);
    assert x.queue == [Clb, Clb];
    QueueCollapses([Clb, Clb], x.stores, x.table);
    assert Pending(w.data) == w.data.table;
  }

  // Whether the second published delta takes the old ports all the way.
  lemma SettlesIff(w: World, first: Step, second: Step)
    requires Invariant(w) && w.data.queue == [] && IsPortEvent(first) && Allowed(w, first)
    requires IsPortEvent(second) && StagingFits(Next(w, first), second)
    ensures var w' := Next(w, first);
            var s, after := PortEvent(w'.data, second).stores.clb, PortsAfter(w', second);
            Settles(s.tcp, w.cmTcp, after.tcp) && Settles(s.udp, w.cmUdp, after.udp) <==> KeepsFirst(w, first, second)
  {
    var tcp, udp := w.data.stores.clb.tcp, w.data.stores.clb.udp;
    if first.TcpChange? {
      EventFits(w.data.tcp, first.d, tcp);
      if second.TcpChange? {
        SecondDelta(w.data.tcp, first.d, second.d, tcp);
      } else {
        EventFits(w.data.udp, second.d, udp);
      }
    } else {
      EventFits(w.data.udp, first.d, udp);
      if second.UdpChange? {
        SecondDelta(w.data.udp, first.d, second.d, udp);
      } else {
        EventFits(w.data.tcp, second.d, tcp);
      }
    }
  }

  lemma SecondDelta(s: Staged, d: set<Port>, d': set<Port>, delta: map<Port, string>)
    requires Settled(s) && (s.nw == {} || s.ex <= d) && DeltaSafe(delta, s.ex)
    requires Event(s, d).nw == {} || Event(s, d).ex <= d'
    ensures Settles(NextDelta(Event(s, d), d', NextDelta(s, d, delta)), s.ex, d') <==>
            d' == d || Diff(s.ex, d).Keys <= Diff(d, d').Keys
  {
    EventRecords(s, d);
    EventFits(s, d, delta);
    EventFits(Event(s, d), d', NextDelta(s, d, delta));
    if d' != d {
      assert forall p: Port :: p !in Diff(d, d') <==> (p in d <==> p in d');
      assert forall p: Port :: p in Diff(s.ex, d) <==> (p in s.ex) != (p in d);
    }
  }
}
