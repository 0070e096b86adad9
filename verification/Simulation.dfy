// The controller object and the pipeline side by side: under the pipeline's
// hypotheses each handler takes the object along one allowed step, so the run
// theorems speak about the object's own maps, queue and kernel table.
module Simulation {
  import opened Wrappers
  import opened Text
  import opened TableView
  import opened Ipvsdr
  import opened Batch
  import opened Queue
  import opened Pipeline
  import opened Controller
  import opened PodDepartures

  // The object is in the data state of a world that satisfies the invariant.
  ghost predicate Simulates(lbc: LoadBalancerController, w: World)
    reads lbc, lbc.ExTcp, lbc.NwTcp, lbc.ExUdp, lbc.NwUdp, lbc.clbdata, lbc.clbdata.Tcp, lbc.clbdata.Udp,
          lbc.plbdata, lbc.plbdata.Tcp, lbc.plbdata.Udp, lbc.lvsManager.handle
  {
    lbc.Valid() && lbc.Abs() == w.data && Invariant(w)
  }

  // An empty channel means that the kernel table serves exactly what is wanted.
  lemma IdleTable(lbc: LoadBalancerController, w: World)
    requires Simulates(lbc, w) && lbc.lbstore == []
    ensures Triples(lbc.lvsManager.handle.table) == Wanted(w)
    ensures Configured(lbc.lvsManager.cfg, lbc.lvsManager.handle.table)
  {
    assert lbc.Abs().queue == [];
    lbc.lvsManager.ValidIsConfigured();
  }

  // A pod listing that agrees with the world.
  ghost predicate AgreeingPods(w: World, pods: seq<Pod>) {
    && DistinctNames(pods)
    && (forall pod :: pod in pods && IsNginx(pod) ==> ParseIP(pod.podIP).Some?)
    && ListedBackends(pods) == w.backends
  }

  // A configmap listing that agrees with the world.
  ghost predicate AgreeingCms(w: World, cms: seq<ConfigMap>) {
    !HasBadKey(cms) && ServicePorts(cms, TCP_SERVICE) == w.cmTcp && ServicePorts(cms, UDP_SERVICE) == w.cmUdp
  }

  function PortStep(cm: ConfigMap, pods: seq<Pod>): Step {
    var d, addr := AcceptedPorts(cm.data.Keys), ListedAddrs(pods, map[]).1;
    if cm.name == TCP_SERVICE then TcpChange(d, addr) else UdpChange(d, addr)
  }

  // What else the pipeline asks of a port event.
  ghost predicate PortsOk(w: World, cm: ConfigMap, pods: seq<Pod>) {
    && 0 !in AcceptedPorts(cm.data.Keys)
    && (cm.name == TCP_SERVICE ==> w.data.tcp.nw == {} || w.data.tcp.ex <= AcceptedPorts(cm.data.Keys))
    && (cm.name == UDP_SERVICE ==> w.data.udp.nw == {} || w.data.udp.ex <= AcceptedPorts(cm.data.Keys))
    && KeepsWork(w, PortStep(cm, pods))
  }

  method PortsChanged(lbc: LoadBalancerController, ghost w: World, oldCm: ConfigMap, cm: ConfigMap, pods: seq<Pod>)
    requires Simulates(lbc, w) && |lbc.lbstore| < CAPACITY
    requires oldCm.data != cm.data && (cm.name == TCP_SERVICE || cm.name == UDP_SERVICE)
    requires AgreeingPods(w, pods) && PortsOk(w, cm, pods)
    modifies lbc`lbstore, lbc.ExTcp, lbc.NwTcp, lbc.ExUdp, lbc.NwUdp, lbc.clbdata, lbc.clbdata.Tcp, lbc.clbdata.Udp
    ensures Allowed(w, PortStep(cm, pods)) && Simulates(lbc, Next(w, PortStep(cm, pods)))
  {
    ListingIsExact(pods, map[]);
    StepKeepsInvariant(w, PortStep(cm, pods));
    lbc.UpdatePorts(oldCm, cm, Some(pods));
  }

  method PodChanged(lbc: LoadBalancerController, ghost w: World, pod: Pod, cms: seq<ConfigMap>)
    requires Simulates(lbc, w) && |lbc.lbstore| < CAPACITY
    requires pod.namespace == lbc.nginxServer && ParseIP(pod.podIP).Some?
    requires AgreeingCms(w, cms) && KeepsWork(w, StepOf(pod))
    modifies lbc`lbstore, lbc.plbdata, lbc.plbdata.Tcp, lbc.plbdata.Udp
    ensures Allowed(w, StepOf(pod)) && Simulates(lbc, Next(w, StepOf(pod)))
  {
    PodUpdateIsStep(w, pod, cms);
    StepKeepsInvariant(w, StepOf(pod));
    lbc.AddrUpdateFunc(pod, Some(cms));
    CmReadGood(cms, lbc.plbdata.Tcp.m, lbc.plbdata.Udp.m);
    StoreIs(lbc.plbdata.Contents(), w.cmTcp, w.cmUdp);
  }

  // A pod update on any pod and any listing of configmaps, bad keys included:
  // what is pending then on the object is what the pod asks for exactly when
  // the ports that listCm read do.
  method PodHeard(lbc: LoadBalancerController, ghost w: World, pod: Pod, cms: seq<ConfigMap>)
    requires Simulates(lbc, w) && |lbc.lbstore| < CAPACITY && pod.namespace == lbc.nginxServer
    modifies lbc`lbstore, lbc.plbdata, lbc.plbdata.Tcp, lbc.plbdata.Udp
    ensures var tcp, udp := lbc.plbdata.Tcp.m.Keys, lbc.plbdata.Udp.m.Keys;
            && lbc.Abs() == Update(w.data, pod, tcp, udp)
            && (pod.podIP != "" ==> CmRead(cms, lbc.plbdata.Tcp.m, lbc.plbdata.Udp.m))
            && (UpdateKeeps(w.data, pod, tcp, udp) ==>
                  (Pending(lbc.Abs()) == Desired(w.cmTcp, w.cmUdp, Heard(w.backends, pod)) <==>
                   PortsSuffice(w, pod, tcp, udp)))
  {
    lbc.AddrUpdateFunc(pod, Some(cms));
    ghost var tcp, udp := lbc.plbdata.Tcp.m.Keys, lbc.plbdata.Udp.m.Keys;
    if pod.podIP != "" {
      StoreIs(lbc.plbdata.Contents(), tcp, udp);
    }
    if UpdateKeeps(w.data, pod, tcp, udp) {
      UpdateIff(w, pod, tcp, udp);
    }
  }

  // What ProcessItem promises, seen from the world: no panic, and one step, so
  // long as the rest of the queue decides what was blamed.
  lemma TurnIsStep(w: World, x: Data, order: seq<string>, log: seq<Failure>) returns (step: Step)
    requires Invariant(w) && w.data.queue != [] && MadeUp(w, log)
    requires StoreProcessed(w.data.stores.At(w.data.queue[0]), order, w.data.table, x.table, log, false)
    requires x == w.data.(queue := w.data.queue[1..], table := x.table)
    ensures IsWork(step) && (log == [] ==> step == Worker)
    ensures Allowed(w, step) && Next(w, step).data == x && Invariant(Next(w, step))
  {
    var s := w.data.stores.At(w.data.queue[0]);
    if log == [] {
      CleanTurn(s, order, w.data.table, x.table, log);
      step := Worker;
    } else {
      UnblamedIsDone(s, order, w.data.table, x.table, log);
      step := FaultyWorker(x.table);
    }
    StepKeepsInvariant(w, step);
  }

  // What was blamed and is decided by the popped store is decided again.
  ghost predicate MadeUp(w: World, log: seq<Failure>)
    requires w.data.queue != []
  {
    forall x :: Blamed(log, x) && Decides(w.data.stores.At(w.data.queue[0]), x) ==>
      DecidedBy(w.data.queue[1..], w.data.stores, x)
  }

  // The store that the object pops next is the world's, and causes no panic.
  lemma HeadOfQueue(lbc: LoadBalancerController, w: World)
    requires Simulates(lbc, w) && lbc.lbstore != []
    ensures w.data.queue != [] && lbc.lbstore[0].Contents() == w.data.stores.At(w.data.queue[0])
    ensures !Panics(lbc.lbstore[0].Contents()) && |w.data.queue| <= 3
  {
    assert w.data.queue == lbc.Abs().queue;
  }

  // A worker's turn never panics, and failures cost what they are blamed for
  // and no more; if the rest of the queue makes up for that, the turn is the
  // pipeline's step.
  method Worked(lbc: LoadBalancerController, ghost w: World) returns (ghost step: Step, ghost order: seq<string>)
    requires Simulates(lbc, w) && lbc.lbstore != []
    modifies lbc`lbstore, lbc.lvsManager.handle`table, lbc.lvsManager.handle`faults, lbc.lvsManager`failures
    ensures lbc.Grown(old(lbc.lvsManager.failures), old(lbc.lvsManager.handle.faults))
    ensures StoreProcessed(w.data.stores.At(w.data.queue[0]), order, w.data.table, lbc.lvsManager.View(),
                           lbc.Since(old(lbc.lvsManager.failures)), false)
    ensures MadeUp(w, lbc.Since(old(lbc.lvsManager.failures))) ==>
              Allowed(w, step) && IsWork(step) && Simulates(lbc, Next(w, step))
    ensures lbc.lvsManager.handle.faults == old(lbc.lvsManager.handle.faults) ==>
              MadeUp(w, lbc.Since(old(lbc.lvsManager.failures))) && step == Worker
    ensures lbc.lvsManager.handle.faults == old(lbc.lvsManager.handle.faults) &&
            old(Canonical(lbc.lvsManager.cfg, lbc.lvsManager.handle.table)) ==>
              Canonical(lbc.lvsManager.cfg, lbc.lvsManager.handle.table)
  {
    HeadOfQueue(lbc, w);
    var panicked;
    panicked, order := lbc.ProcessItem();
    ghost var log := lbc.Since(old(lbc.lvsManager.failures));
    step := Worker;
    if MadeUp(w, log) {
      step := TurnIsStep(w, lbc.Abs(), order, log);
    }
  }

  // From construction on: after Initial the object simulates the start world.
  method Started(nginxServer: string, cfg: Config, cms: seq<ConfigMap>, pods: seq<Pod>)
    returns (lbc: LoadBalancerController, ghost w: World)
    requires !HasBadKey(cms) && 0 !in ServicePorts(cms, TCP_SERVICE) && 0 !in ServicePorts(cms, UDP_SERVICE)
    requires DistinctNames(pods) && forall pod :: pod in pods && IsNginx(pod) ==> ParseIP(pod.podIP).Some?
    ensures w == Start(ServicePorts(cms, TCP_SERVICE), ServicePorts(cms, UDP_SERVICE),
                       ListedBackends(pods), ListedAddrs(pods, map[]).1)
    ensures Simulates(lbc, w) && fresh(lbc.Parts())
    ensures lbc.nginxServer == Namespace(nginxServer) && lbc.lvsManager.cfg == cfg
  {
    var err;
    assert !exists pod :: pod in pods && BadPod(pod) by {
      forall pod | pod in pods && IsNginx(pod)
        ensures AcceptsIPv4(pod.podIP)
      {
        ParsesIsAccepted(pod.podIP);
      }
    }
    ListingIsExact(pods, map[]);
    lbc, err := Boot(nginxServer, cfg, Some(cms), Some(pods));
    w := Start(ServicePorts(cms, TCP_SERVICE), ServicePorts(cms, UDP_SERVICE),
               ListedBackends(pods), ListedAddrs(pods, map[]).1);
    StartInvariant(w.cmTcp, w.cmUdp, w.backends, ListedAddrs(pods, map[]).1);
  }

  // And the first pod update of the configured namespace takes it along the
  // pipeline's pod step.
  method StartedAndHeard(nginxServer: string, cfg: Config, cms: seq<ConfigMap>, pods: seq<Pod>, pod: Pod)
    returns (lbc: LoadBalancerController, ghost w: World)
    requires !HasBadKey(cms) && 0 !in ServicePorts(cms, TCP_SERVICE) && 0 !in ServicePorts(cms, UDP_SERVICE)
    requires DistinctNames(pods) && forall p :: p in pods && IsNginx(p) ==> ParseIP(p.podIP).Some?
    requires pod.namespace == (if nginxServer == "" then "ingress-nginx" else nginxServer) && ParseIP(pod.podIP).Some?
    requires KeepsWork(Start(ServicePorts(cms, TCP_SERVICE), ServicePorts(cms, UDP_SERVICE),
                             ListedBackends(pods), ListedAddrs(pods, map[]).1), StepOf(pod))
    ensures w == Start(ServicePorts(cms, TCP_SERVICE), ServicePorts(cms, UDP_SERVICE),
                       ListedBackends(pods), ListedAddrs(pods, map[]).1)
    ensures Allowed(w, StepOf(pod)) && Simulates(lbc, Next(w, StepOf(pod)))
  {
    lbc, w := Started(nginxServer, cfg, cms, pods);
    PodChanged(lbc, w, pod, cms);
  }
}
