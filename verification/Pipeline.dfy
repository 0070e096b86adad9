// The controller's shared data as one state machine: configmap and pod events
// publish, workers pop and process. Every step is one locked section.
module Pipeline {
  import opened Wrappers
  import opened Text
  import opened Libipvs
  import opened TableView
  import opened Ports
  import opened Staging
  import opened Batch
  import opened Queue

  datatype Data = Data(tcp: Staged, udp: Staged, stores: Stores, queue: seq<Ref>, table: set<Triple>)

  // ------------------------------------------------- the locked sections

  // updatePorts for tcp-services: d are the ports of the accepted keys, addr
  // is the address map that listNginx leaves.
  ghost function TcpEvent(x: Data, d: set<Port>, addr: map<string, string>): Data {
    var s := Store(addr, NextDelta(x.tcp, d, x.stores.clb.tcp), x.stores.clb.udp);
    x.(tcp := Event(x.tcp, d), stores := x.stores.With(Clb, s), queue := x.queue + [Clb])
  }

  ghost function UdpEvent(x: Data, d: set<Port>, addr: map<string, string>): Data {
    var s := Store(addr, x.stores.clb.tcp, NextDelta(x.udp, d, x.stores.clb.udp));
    x.(udp := Event(x.udp, d), stores := x.stores.With(Clb, s), queue := x.queue + [Clb])
  }

  // addrUpdateFunc: s is what it and listCm leave in plbdata.
  function PodEvent(x: Data, s: Store): Data {
    x.(stores := x.stores.With(Plb, s), queue := x.queue + [Plb])
  }

  // One pop, processed in the same locked section.
  function Work(x: Data): Data
    requires x.queue != []
  {
    x.(queue := x.queue[1..], table := Process(x.stores.At(x.queue[0]), x.table))
  }

  // The table once the queued work is done.
  function Pending(x: Data): set<Triple> { Fold(x.queue, x.stores, x.table) }

  // ------------------------------------------------- the cluster around it

  // What the API server holds: the ports of the two configmaps, and the
  // addresses that pod events have announced and not withdrawn since.
  datatype World = World(data: Data, cmTcp: set<Port>, cmUdp: set<Port>, backends: set<IPv4>)

  function Desired(tcp: set<Port>, udp: set<Port>, backends: set<IPv4>): set<Triple> {
    (set p, a | p in tcp && a in backends :: Triple(TCP, p, a)) +
    (set p, a | p in udp && a in backends :: Triple(UDP, p, a))
  }

  function Wanted(w: World): set<Triple> { Desired(w.cmTcp, w.cmUdp, w.backends) }

  lemma DesiredAt(tcp: set<Port>, udp: set<Port>, backends: set<IPv4>, x: Triple)
    ensures x in Desired(tcp, udp, backends) <==>
            x.address in backends && x.port in (if x.protocol == TCP then tcp else udp)
  {
    if x.address in backends {
      assert x == Triple(x.protocol, x.port, x.address);
    }
  }

  // A listing without errors: every key tagged adding, every address parsed,
  // and exactly the announced backends listed.
  ghost predicate Lists(addr: map<string, string>, backends: set<IPv4>) {
    && (forall k :: k in addr ==> Tag(k) == ADDITION && ParseIP(addr[k]).Some? && ParseIP(addr[k]).value in backends)
    && (forall a :: a in backends ==> exists k :: k in addr && ParseIP(addr[k]) == Some(a))
  }

  datatype Step =
    | TcpChange(d: set<Port>, addr: map<string, string>)
    | UdpChange(d: set<Port>, addr: map<string, string>)
    | PodAdded(key: string, text: string)
    | PodRemoved(key: string, text: string)
    | Worker
    | FaultyWorker(table: set<Triple>)

  predicate IsWork(step: Step) { step.Worker? || step.FaultyWorker? }

  // The address written by addrUpdateFunc, with the ports listed by listCm.
  ghost function PodStore(w: World, key: string, text: string): Store {
    Store(map[key := text], Tagged(w.cmTcp, ADDITION), Tagged(w.cmUdp, ADDITION))
  }

  // What a change publishes.
  ghost function Published(w: World, step: Step): (Ref, Store)
    requires !IsWork(step)
  {
    match step
    case TcpChange(d, addr) => (Clb, TcpEvent(w.data, d, addr).stores.clb)
    case UdpChange(d, addr) => (Clb, UdpEvent(w.data, d, addr).stores.clb)
    case PodAdded(key, text) => (Plb, PodStore(w, key, text))
    case PodRemoved(key, text) => (Plb, PodStore(w, key, text))
  }

  // The hypotheses on a step: the listings agree with the cluster; ports and
  // addresses are usable; a removal does not meet a staged leftover; and
  // rewriting the store loses no queued work. A worker needs a queued store,
  // and what failing kernel calls leave undone the rest of the queue decides.
  ghost predicate Allowed(w: World, step: Step) {
    match step
    case Worker => w.data.queue != []
    case FaultyWorker(table) =>
      w.data.queue != [] && FaultyOutcome(w.data.stores.At(w.data.queue[0]), w.data.table, table) &&
      forall x :: DoneOrAgain(w.data.queue, w.data.stores, table, x)
    case TcpChange(d, addr) =>
      Lists(addr, w.backends) && 0 !in d && (w.data.tcp.nw == {} || w.data.tcp.ex <= d) && KeepsWork(w, step)
    case UdpChange(d, addr) =>
      Lists(addr, w.backends) && 0 !in d && (w.data.udp.nw == {} || w.data.udp.ex <= d) && KeepsWork(w, step)
    case PodAdded(key, text) => Tag(key) == ADDITION && ParseIP(text).Some? && KeepsWork(w, step)
    case PodRemoved(key, text) => Tag(key) == DELETION && ParseIP(text).Some? && KeepsWork(w, step)
  }

  ghost predicate KeepsWork(w: World, step: Step)
    requires !IsWork(step)
  {
    var (r, s) := Published(w, step);
    HarmlessNow(w.data.queue, w.data.stores, w.data.table, r, s)
  }

  ghost function Next(w: World, step: Step): World
    requires Allowed(w, step)
  {
    match step
    case TcpChange(d, addr) => w.(data := TcpEvent(w.data, d, addr), cmTcp := d)
    case UdpChange(d, addr) => w.(data := UdpEvent(w.data, d, addr), cmUdp := d)
    case PodAdded(key, text) =>
      w.(data := PodEvent(w.data, PodStore(w, key, text)), backends := w.backends + {ParseIP(text).value})
    case PodRemoved(key, text) =>
      w.(data := PodEvent(w.data, PodStore(w, key, text)), backends := w.backends - {ParseIP(text).value})
    case Worker => w.(data := Work(w.data))
    case FaultyWorker(table) => w.(data := w.data.(queue := w.data.queue[1..], table := table))
  }

  // A store that cannot make a worker panic (no port 0, and addresses that
  // parse), and whose outcome is independent of iteration order.
  ghost predicate Usable(s: Store) {
    && 0 !in s.tcp && 0 !in s.udp
    && (forall k :: k in s.addr ==> ParseIP(s.addr[k]).Some?)
    && DisjointTags(s)
  }

  ghost predicate Invariant(w: World) {
    && w.data.tcp.ex == w.cmTcp && Settled(w.data.tcp) && 0 !in w.cmTcp
    && w.data.udp.ex == w.cmUdp && Settled(w.data.udp) && 0 !in w.cmUdp
    && DeltaSafe(w.data.stores.clb.tcp, w.cmTcp)
    && DeltaSafe(w.data.stores.clb.udp, w.cmUdp)
    && Usable(w.data.stores.clb)
    && Usable(w.data.stores.plb)
    && Pending(w.data) == Wanted(w)
  }

  // ------------------------------------------------- one step

  lemma ListsAdding(s: Store, backends: set<IPv4>)
    requires Lists(s.addr, backends)
    ensures forall a :: Adding(s, a) <==> a in backends
    ensures forall a :: !Deleting(s, a)
    ensures DisjointTags(s)
  {
    TagsDiffer();
    forall a | a in backends
      ensures Adding(s, a)
    {
      var k :| k in s.addr && ParseIP(s.addr[k]) == Some(a);
      assert Names(s, k, ADDITION, a);
    }
  }

  // One triple under a published delta over listed backends.
  lemma DeltaReachesAt(s: Store, tcp: set<Port>, udp: set<Port>, tcp': set<Port>, udp': set<Port>,
                       backends: set<IPv4>, x: Triple)
    requires (Adding(s, x.address) <==> x.address in backends) && !Deleting(s, x.address)
    requires DeltaSafe(PortsOf(s, x.protocol), if x.protocol == TCP then tcp' else udp')
    requires var (before, after) := if x.protocol == TCP then (tcp, tcp') else (udp, udp');
             x.port !in PortsOf(s, x.protocol) ==> (x.port in before <==> x.port in after)
    ensures x in Process(s, Desired(tcp, udp, backends)) <==> x in Desired(tcp', udp', backends)
  {
    TagsDiffer();
    ProcessAt(s, Desired(tcp, udp, backends), x);
    DesiredAt(tcp, udp, backends, x);
    DesiredAt(tcp', udp', backends, x);
    var delta := PortsOf(s, x.protocol);
    if x.port in delta {
      assert delta[x.port] in delta.Values;
      assert x.port in Additions(delta) || x.port in Deletions(delta);
    }
  }

  // A published delta brings the wanted triples in line with the new ports.
  lemma DeltaReaches(s: Store, tcp: set<Port>, udp: set<Port>, tcp': set<Port>, udp': set<Port>, backends: set<IPv4>)
    requires Lists(s.addr, backends) && DeltaSafe(s.tcp, tcp') && DeltaSafe(s.udp, udp')
    requires forall p :: p !in s.tcp ==> (p in tcp <==> p in tcp')
    requires forall p :: p !in s.udp ==> (p in udp <==> p in udp')
    ensures Process(s, Desired(tcp, udp, backends)) == Desired(tcp', udp', backends)
  {
    ListsAdding(s, backends);
    var processed, target := Process(s, Desired(tcp, udp, backends)), Desired(tcp', udp', backends);
    forall x
      ensures x in processed <==> x in target
    {
      DeltaReachesAt(s, tcp, udp, tcp', udp', backends, x);
    }
  }

  // Publishing adds exactly the published store's effect to the pending work.
  lemma PublishAppends(x: Data, r: Ref, s: Store)
    requires HarmlessNow(x.queue, x.stores, x.table, r, s)
    ensures Fold(x.queue + [r], x.stores.With(r, s), x.table) == Process(s, Pending(x))
  {
    RewriteNowIff(x.queue, x.stores, x.table, r, s);
  }

  lemma TcpStep(w: World, d: set<Port>, addr: map<string, string>)
    requires Invariant(w) && Allowed(w, TcpChange(d, addr))
    ensures Invariant(Next(w, TcpChange(d, addr)))
  {
    var w' := Next(w, TcpChange(d, addr));
    var s := w'.data.stores.clb;
    EventRecords(w.data.tcp, d);
    NextDeltaSafe(w.data.tcp, d, w.data.stores.clb.tcp);
    assert w'.data.tcp.ex == d;
    ListsAdding(s, w.backends);
    PublishAppends(w.data, Clb, s);
    DeltaReaches(s, w.cmTcp, w.cmUdp, d, w.cmUdp, w.backends);
    assert 0 !in s.tcp;
  }

  lemma UdpStep(w: World, d: set<Port>, addr: map<string, string>)
    requires Invariant(w) && Allowed(w, UdpChange(d, addr))
    ensures Invariant(Next(w, UdpChange(d, addr)))
  {
    var w' := Next(w, UdpChange(d, addr));
    var s := w'.data.stores.clb;
    EventRecords(w.data.udp, d);
    NextDeltaSafe(w.data.udp, d, w.data.stores.clb.udp);
    assert w'.data.udp.ex == d;
    ListsAdding(s, w.backends);
    PublishAppends(w.data, Clb, s);
    DeltaReaches(s, w.cmTcp, w.cmUdp, w.cmTcp, d, w.backends);
    assert 0 !in s.udp;
  }

  lemma PodStoreAt(w: World, key: string, text: string, tag: string)
    requires Tag(key) == tag && (tag == ADDITION || tag == DELETION) && ParseIP(text).Some?
    requires 0 !in w.cmTcp && 0 !in w.cmUdp
    ensures var s := PodStore(w, key, text);
            && Usable(s)
            && (forall a :: Adding(s, a) <==> tag == ADDITION && ParseIP(text) == Some(a))
            && (forall a :: Deleting(s, a) <==> tag == DELETION && ParseIP(text) == Some(a))
  {
    TagsDiffer();
    var s := PodStore(w, key, text);
    assert key in s.addr;
    forall a
      ensures Adding(s, a) <==> tag == ADDITION && ParseIP(text) == Some(a)
      ensures Deleting(s, a) <==> tag == DELETION && ParseIP(text) == Some(a)
    {
      assert Names(s, key, tag, a) <==> ParseIP(text) == Some(a);
    }
  }

  // A well-formed pod event.
  predicate PodOk(step: Step) {
    match step
    case PodAdded(key, text) => Tag(key) == ADDITION && ParseIP(text).Some?
    case PodRemoved(key, text) => Tag(key) == DELETION && ParseIP(text).Some?
    case _ => false
  }

  // The announced addresses after it.
  function PodBackends(backends: set<IPv4>, step: Step): set<IPv4>
    requires (step.PodAdded? || step.PodRemoved?) && ParseIP(step.text).Some?
  {
    if step.PodAdded? then backends + {ParseIP(step.text).value} else backends - {ParseIP(step.text).value}
  }

  // Processing a pod store brings the wanted triples to the new backends.
  lemma PodStoreProcessed(w: World, step: Step, x: Triple)
    requires PodOk(step) && 0 !in w.cmTcp && 0 !in w.cmUdp
    ensures x in Process(PodStore(w, step.key, step.text), Wanted(w)) <==>
            x in Desired(w.cmTcp, w.cmUdp, PodBackends(w.backends, step))
  {
    TagsDiffer();
    var s := PodStore(w, step.key, step.text);
    PodStoreAt(w, step.key, step.text, Tag(step.key));
    ProcessAt(s, Wanted(w), x);
    DesiredAt(w.cmTcp, w.cmUdp, w.backends, x);
    DesiredAt(w.cmTcp, w.cmUdp, PodBackends(w.backends, step), x);
  }

  lemma PodStep(w: World, step: Step)
    requires step.PodAdded? || step.PodRemoved?
    requires Invariant(w) && Allowed(w, step)
    ensures Invariant(Next(w, step))
  {
    TagsDiffer();
    var s := PodStore(w, step.key, step.text);
    PodStoreAt(w, step.key, step.text, Tag(step.key));
    PublishAppends(w.data, Plb, s);
    forall x
      ensures x in Process(s, Wanted(w)) <==> x in Wanted(Next(w, step))
    {
      PodStoreProcessed(w, step, x);
    }
  }

  // Every allowed step keeps the invariant.
  lemma StepKeepsInvariant(w: World, step: Step)
    requires Invariant(w) && Allowed(w, step)
    ensures Invariant(Next(w, step))
  {
    match step
    case TcpChange(d, addr) => TcpStep(w, d, addr);
    case UdpChange(d, addr) => UdpStep(w, d, addr);
    case PodAdded(_, _) => PodStep(w, step);
    case PodRemoved(_, _) => PodStep(w, step);
    case Worker =>
    case FaultyWorker(table) => FaultNowIff(w.data.queue, w.data.stores, w.data.table, table);
  }

  // On an empty queue there is always something that may be published.
  lemma EmptyQueueAllows(w: World) returns (step: Step)
    requires w.data.queue == []
    ensures !IsWork(step) && Allowed(w, step)
  {
    var a := IPv4(0, 0, 0, 0);
    step := PodAdded(ADDITION + "_" + "", Dotted(a));
    AddressRoundTrip(a);
    TagsDiffer();
    TagOfKey(ADDITION, "");
  }

  // ------------------------------------------------- whole runs

  ghost predicate AllowedRun(w: World, steps: seq<Step>)
    decreases |steps|
  {
    steps == [] || (Allowed(w, steps[0]) && AllowedRun(Next(w, steps[0]), steps[1..]))
  }

  ghost function After(w: World, steps: seq<Step>): World
    requires AllowedRun(w, steps)
    decreases |steps|
  {
    if steps == [] then w else After(Next(w, steps[0]), steps[1..])
  }

  // The state Initial leaves: one listing of everything, queued.
  ghost function StartData(tcp: set<Port>, udp: set<Port>, addr: map<string, string>): Data {
    Data(
      Staged(tcp, {}), Staged(udp, {}),
      Stores(EMPTY_STORE, Store(addr, Tagged(tcp, ADDITION), Tagged(udp, ADDITION))),
      [Plb], {})
  }

  ghost function Start(tcp: set<Port>, udp: set<Port>, backends: set<IPv4>, addr: map<string, string>): World {
    World(StartData(tcp, udp, addr), tcp, udp, backends)
  }

  lemma StartInvariant(tcp: set<Port>, udp: set<Port>, backends: set<IPv4>, addr: map<string, string>)
    requires Lists(addr, backends) && 0 !in tcp && 0 !in udp
    ensures Invariant(Start(tcp, udp, backends, addr))
  {
    TagsDiffer();
    var w := Start(tcp, udp, backends, addr);
    var s := w.data.stores.plb;
    ListsAdding(s, backends);
    assert DeltaSafe(s.tcp, tcp) && DeltaSafe(s.udp, udp);
    DeltaReaches(s, {}, {}, tcp, udp, backends);
    assert Desired({}, {}, backends) == {};
    assert Fold([Plb], w.data.stores, {}) == Fold([], w.data.stores, Process(s, {}));
    assert forall a :: !Adding(EMPTY_STORE, a);
  }

  // In every state of every allowed run from Initial, the table plus the
  // pending work is what the cluster asks for; so an empty queue means that
  // the table itself is.
  lemma {:induction false} PendingIsWanted(w: World, steps: seq<Step>)
    requires Invariant(w) && AllowedRun(w, steps)
    ensures var w' := After(w, steps);
            && Invariant(w')
            && Pending(w'.data) == Wanted(w')
            && (w'.data.queue == [] ==> w'.data.table == Wanted(w'))
    decreases |steps|
  {
    if steps != [] {
      StepKeepsInvariant(w, steps[0]);
      PendingIsWanted(Next(w, steps[0]), steps[1..]);
    }
  }

  // ------------------------------------------------- what a pop gets to see

  predicate PublishesTo(step: Step, r: Ref) {
    match step
    case TcpChange(_, _) => r == Clb
    case UdpChange(_, _) => r == Clb
    case PodAdded(_, _) => r == Plb
    case PodRemoved(_, _) => r == Plb
    case _ => false
  }

  function CountWork(steps: seq<Step>): nat {
    if steps == [] then 0 else (if IsWork(steps[0]) then 1 else 0) + CountWork(steps[1..])
  }

  // A reference with n others before it comes up after n pops, and if its
  // store was not rewritten meanwhile, the worker finds what was published.
  lemma {:induction false} PopSeesPublished(w: World, steps: seq<Step>, n: nat)
    requires AllowedRun(w, steps) && n < |w.data.queue| && CountWork(steps) == n
    requires forall k :: 0 <= k < |steps| ==> !PublishesTo(steps[k], w.data.queue[n])
    ensures var r, x := w.data.queue[n], After(w, steps).data;
            x.queue != [] && x.queue[0] == r && x.stores.At(r) == w.data.stores.At(r)
    decreases |steps|
  {
    if steps != [] {
      var w' := Next(w, steps[0]);
      if IsWork(steps[0]) {
        PopSeesPublished(w', steps[1..], n - 1);
      } else {
        assert w'.data.queue[n] == w.data.queue[n];
        PopSeesPublished(w', steps[1..], n);
      }
    }
  }
}
