// pkg/controller/controller.go: the handlers and the worker as the locked
// sections they are, each entered when its wait loop has ended.
module Controller {
  import opened Wrappers
  import opened Text
  import opened Libipvs
  import opened TableView
  import opened Ipvsdr
  import opened Ports
  import opened Staging
  import opened Batch
  import opened Queue
  import opened Pipeline

  const NGINX_PATTERN := "nginx-ingress-controller"
  const TCP_SERVICE := "tcp-services"
  const UDP_SERVICE := "udp-services"
  const CAPACITY := 3

  datatype Pod = Pod(namespace: string, name: string, podIP: string, terminating: bool)
  datatype ConfigMap = ConfigMap(name: string, data: map<string, string>)

  // ------------------------------------------------- what the listings yield

  predicate IsNginx(pod: Pod) { Contains(pod.name, NGINX_PATTERN) && pod.podIP != "" }

  // listNginx over the listed pods: an address it cannot accept ends it.
  function ListedAddrs(pods: seq<Pod>, addr: map<string, string>): (bool, map<string, string>) {
    if pods == [] then (false, addr)
    else if !IsNginx(pods[0]) then ListedAddrs(pods[1..], addr)
    else if !AcceptsIPv4(pods[0].podIP) then (true, addr)
    else ListedAddrs(pods[1..], addr[ADDITION + "_" + pods[0].name := pods[0].podIP])
  }

  // listNginx ends at the first nginx pod whose address it does not accept.
  predicate BadPod(pod: Pod) { IsNginx(pod) && !AcceptsIPv4(pod.podIP) }

  function Readable(pods: seq<Pod>): (r: seq<Pod>)
    ensures r <= pods && forall pod :: pod in r ==> !BadPod(pod)
    ensures |r| < |pods| ==> BadPod(pods[|r|])
  {
    if pods == [] || BadPod(pods[0]) then [] else [pods[0]] + Readable(pods[1..])
  }

  // The outcome of listNginx on a store; None is a failed list call.
  function AddrsAfter(pods: Option<seq<Pod>>, addr: map<string, string>): (bool, map<string, string>) {
    if pods == None then (true, addr) else ListedAddrs(pods.value, map[])
  }

  function AcceptedPorts(keys: set<string>): set<Port> {
    set k | k in keys && AcceptsPort(k) :: ValidatePort(k).1
  }

  function ServicePorts(cms: seq<ConfigMap>, service: string): set<Port> {
    set cm, k | cm in cms && Contains(cm.name, service) && k in cm.data && AcceptsPort(k) :: ValidatePort(k).1
  }

  predicate BadCm(cm: ConfigMap) {
    (Contains(cm.name, UDP_SERVICE) || Contains(cm.name, TCP_SERVICE)) && exists k :: k in cm.data && !AcceptsPort(k)
  }

  predicate HasBadKey(cms: seq<ConfigMap>) { exists cm :: cm in cms && BadCm(cm) }

  // How many configmaps listCm reads to the end.
  function GoodCms(cms: seq<ConfigMap>): (n: nat)
    ensures n <= |cms| && forall i :: 0 <= i < n ==> !BadCm(cms[i])
    ensures n < |cms| ==> BadCm(cms[n])
    ensures n < |cms| <==> HasBadKey(cms)
  {
    if cms == [] || BadCm(cms[0]) then 0 else 1 + GoodCms(cms[1..])
  }

  // The configured namespace, or the default one.
  function Namespace(nginxServer: string): (r: string)
    ensures nginxServer != "" ==> r == nginxServer
    ensures nginxServer == "" ==> r == "ingress-nginx"
  {
    if nginxServer != "" then nginxServer else "ingress-nginx"
  }

  // A running nginx pod by its name, whatever stands before and after.
  ghost predicate Named(pod: Pod) {
    pod.podIP != "" && exists pre, post :: pod.name == pre + "nginx-ingress-controller" + post
  }

  // The store lists exactly these pods, each under its name.
  ghost predicate ListsPods(pods: seq<Pod>, addr: map<string, string>) {
    && (forall pod :: pod in pods ==> ("adding_" + pod.name in addr <==> Named(pod)))
    && (forall pod :: pod in pods && Named(pod) ==> addr["adding_" + pod.name] == pod.podIP)
    && (forall key :: key in addr ==> exists pod :: pod in pods && key == "adding_" + pod.name)
  }

  class LoadBalancerController {
    const nginxServer: string
    const ExTcp: PortMap
    const NwTcp: PortMap
    const ExUdp: PortMap
    const NwUdp: PortMap
    const clbdata: LBStore
    const plbdata: LBStore
    var lbstore: seq<LBStore>
    const lvsManager: LvsManager

    // Eight port maps and two stores, none of them aliased.
    ghost predicate Apart() {
      && clbdata != plbdata
      && ExTcp !in {NwTcp, ExUdp, NwUdp, clbdata.Tcp, clbdata.Udp, plbdata.Tcp, plbdata.Udp}
      && NwTcp !in {ExUdp, NwUdp, clbdata.Tcp, clbdata.Udp, plbdata.Tcp, plbdata.Udp}
      && ExUdp !in {NwUdp, clbdata.Tcp, clbdata.Udp, plbdata.Tcp, plbdata.Udp}
      && NwUdp !in {clbdata.Tcp, clbdata.Udp, plbdata.Tcp, plbdata.Udp}
      && clbdata.Tcp !in {clbdata.Udp, plbdata.Tcp, plbdata.Udp}
      && clbdata.Udp !in {plbdata.Tcp, plbdata.Udp}
      && plbdata.Tcp != plbdata.Udp
    }

    ghost predicate Valid()
      reads this, ExTcp, NwTcp, ExUdp, NwUdp, lvsManager.handle
    {
      && Apart()
      && lvsManager.Valid()
      && |lbstore| <= CAPACITY
      && (forall i :: 0 <= i < |lbstore| ==> lbstore[i] == clbdata || lbstore[i] == plbdata)
      && AllTagged(ExTcp.m, PROTO_TCP) && AllTagged(NwTcp.m, PROTO_TCP)
      && AllTagged(ExUdp.m, PROTO_UDP) && AllTagged(NwUdp.m, PROTO_UDP)
    }

    ghost function RefOf(s: LBStore): Ref { if s == clbdata then Clb else Plb }

    // The state as the pipeline sees it; queued references stay references.
    ghost function Abs(): Data
      reads this, ExTcp, NwTcp, ExUdp, NwUdp, clbdata, clbdata.Tcp, clbdata.Udp,
            plbdata, plbdata.Tcp, plbdata.Udp, lvsManager.handle
    {
      Data(
        Staged(ExTcp.m.Keys, NwTcp.m.Keys),
        Staged(ExUdp.m.Keys, NwUdp.m.Keys),
        Stores(clbdata.Contents(), plbdata.Contents()),
        seq(|lbstore|, i requires 0 <= i < |lbstore| reads this => RefOf(lbstore[i])),
        lvsManager.View())
    }

    ghost function Parts(): set<object> {
      {this, ExTcp, NwTcp, ExUdp, NwUdp, clbdata, clbdata.Tcp, clbdata.Udp,
       plbdata, plbdata.Tcp, plbdata.Udp, lvsManager, lvsManager.handle}
    }

    // NewLoadBalancerController
    constructor (nginxServer: string, cfg: Config)
      ensures Valid() && fresh(Parts())
      ensures this.nginxServer == Namespace(nginxServer) && lvsManager.cfg == cfg
      ensures Abs() == Data(Staged({}, {}), Staged({}, {}), Stores(EMPTY_STORE, EMPTY_STORE), [], {})
    {
      this.nginxServer := if nginxServer != "" then nginxServer else "ingress-nginx";
      lbstore := [];
      clbdata := new LBStore();
      plbdata := new LBStore();
      ExTcp := new PortMap();
      ExUdp := new PortMap();
      NwTcp := new PortMap();
      NwUdp := new PortMap();
      lvsManager := new LvsManager(cfg);
    }

    method ClearAddrs(LB: LBStore)
      modifies LB
      ensures LB.Addr == map[]
    {
      var todo := LB.Addr.Keys;
      while todo != {}
        invariant LB.Addr.Keys == todo
      {
        var key :| key in todo;
        LB.Addr := LB.Addr - {key};
        todo := todo - {key};
      }
    }

    method ListNginx(LB: LBStore, podlist: Option<seq<Pod>>) returns (err: bool)
      modifies LB
      ensures (err, LB.Addr) == AddrsAfter(podlist, old(LB.Addr))
      ensures podlist.Some? ==> (err <==> exists pod :: pod in podlist.value && BadPod(pod))
      ensures podlist.Some? && DistinctNames(podlist.value) ==> ListsPods(Readable(podlist.value), LB.Addr)
    {
      if podlist == None {
        return true;
      }
      var pods := podlist.value;
      ListedIffGood(pods);
      ClearAddrs(LB);
      for i := 0 to |pods|
        invariant ListedAddrs(pods, map[]) == ListedAddrs(pods[i..], LB.Addr)
      {
        var pod := pods[i];
        assert pods[i..][1..] == pods[i + 1..];
        if IsNginx(pod) {
          var key := ADDITION + "_" + pod.name;
          var ok, IPv4 := ValidateIPv4(pod.podIP);
          if !ok {
            return true;
          }
          LB.Addr := LB.Addr[key := IPv4];
        }
      }
      err := false;
    }

    // The loop both listCm branches share: keys in any order, ending at the
    // first bad one.
    method ReadPorts(keys: set<string>, ports: PortMap) returns (err: bool)
      requires AllTagged(ports.m, ADDITION)
      modifies ports
      ensures AllTagged(ports.m, ADDITION)
      ensures err <==> exists k :: k in keys && !AcceptsPort(k)
      ensures old(ports.m.Keys) <= ports.m.Keys <= old(ports.m.Keys) + AcceptedPorts(keys)
      ensures !err ==> ports.m.Keys == old(ports.m.Keys) + AcceptedPorts(keys)
    {
      var todo := keys;
      while todo != {}
        invariant todo <= keys
        invariant forall k :: k in keys && k !in todo ==> AcceptsPort(k) && ValidatePort(k).1 in ports.m
        invariant AllTagged(ports.m, ADDITION)
        invariant old(ports.m.Keys) <= ports.m.Keys <= old(ports.m.Keys) + AcceptedPorts(keys)
      {
        var key :| key in todo;
        var (ok, port) := ValidatePort(key);
        if !ok {
          return true;
        }
        assert port in AcceptedPorts(keys);
        ports.m := ports.m[port := ADDITION];
        todo := todo - {key};
      }
      err := false;
    }

    // On an error the ports read so far stay; a failed list call leaves the
    // stores alone.
    method ListCm(cmlist: Option<seq<ConfigMap>>) returns (err: bool)
      requires plbdata.Tcp != plbdata.Udp
      modifies plbdata.Tcp, plbdata.Udp
      ensures err <==> cmlist == None || HasBadKey(cmlist.value)
      ensures cmlist == None ==> plbdata.Tcp.m == old(plbdata.Tcp.m) && plbdata.Udp.m == old(plbdata.Udp.m)
      ensures cmlist.Some? ==> CmRead(cmlist.value, plbdata.Tcp.m, plbdata.Udp.m)
    {
      if cmlist == None {
        return true;
      }
      var cms := cmlist.value;
      plbdata.Tcp.Clear();
      plbdata.Udp.Clear();
      for i := 0 to |cms|
        invariant i <= GoodCms(cms)
        invariant AllTagged(plbdata.Tcp.m, ADDITION)
        invariant AllTagged(plbdata.Udp.m, ADDITION)
        invariant plbdata.Tcp.m.Keys == ServicePorts(cms[..i], TCP_SERVICE)
        invariant plbdata.Udp.m.Keys == ServicePorts(cms[..i], UDP_SERVICE)
      {
        ServicePortsNext(cms, i, TCP_SERVICE);
        ServicePortsNext(cms, i, UDP_SERVICE);
        err := ReadCm(cms[i]);
        if err {
          assert i == GoodCms(cms);
          return;
        }
      }
      assert cms[..|cms|] == cms;
      err := false;
    }

    // One turn of listCm's loop.
    method ReadCm(cm: ConfigMap) returns (err: bool)
      requires plbdata.Tcp != plbdata.Udp
      requires AllTagged(plbdata.Tcp.m, ADDITION)
      requires AllTagged(plbdata.Udp.m, ADDITION)
      modifies plbdata.Tcp, plbdata.Udp
      ensures AllTagged(plbdata.Tcp.m, ADDITION)
      ensures AllTagged(plbdata.Udp.m, ADDITION)
      ensures err <==> BadCm(cm)
      ensures old(plbdata.Tcp.m.Keys) <= plbdata.Tcp.m.Keys <= old(plbdata.Tcp.m.Keys) + ReadFrom(cm, TCP_SERVICE)
      ensures old(plbdata.Udp.m.Keys) <= plbdata.Udp.m.Keys <= old(plbdata.Udp.m.Keys) + ReadFrom(cm, UDP_SERVICE)
      ensures err && Contains(cm.name, UDP_SERVICE) ==> plbdata.Tcp.m.Keys == old(plbdata.Tcp.m.Keys)
      ensures !err ==> plbdata.Tcp.m.Keys == old(plbdata.Tcp.m.Keys) + ReadFrom(cm, TCP_SERVICE)
      ensures !err ==> plbdata.Udp.m.Keys == old(plbdata.Udp.m.Keys) + ReadFrom(cm, UDP_SERVICE)
    {
      if Contains(cm.name, UDP_SERVICE) {
        err := ReadPorts(cm.data.Keys, plbdata.Udp);
        if err {
          return;
        }
      }
      if Contains(cm.name, TCP_SERVICE) {
        err := ReadPorts(cm.data.Keys, plbdata.Tcp);
        if err {
          return;
        }
      }
      err := false;
    }

    // The staging loop of updatePorts: bad keys are skipped.
    method StageKeys(keys: set<string>, staged: PortMap, proto: string)
      requires AllTagged(staged.m, proto)
      modifies staged
      ensures AllTagged(staged.m, proto)
      ensures staged.m.Keys == old(staged.m.Keys) + AcceptedPorts(keys)
    {
      var todo := keys;
      while todo != {}
        invariant todo <= keys
        invariant forall k :: k in keys && k !in todo && AcceptsPort(k) ==> ValidatePort(k).1 in staged.m
        invariant AllTagged(staged.m, proto)
        invariant old(staged.m.Keys) <= staged.m.Keys <= old(staged.m.Keys) + AcceptedPorts(keys)
      {
        var key :| key in todo;
        var (ok, port) := ValidatePort(key);
        if ok {
          assert port in AcceptedPorts(keys);
          staged.m := staged.m[port := proto];
        }
        todo := todo - {key};
      }
    }

    // Stage the configmap's ports and compare: one step of the staging
    // automaton, whose delta the store keeps.
    method StageAndCompare(keys: set<string>, recorded: PortMap, staged: PortMap, delta: PortMap, proto: string)
      requires recorded != staged && recorded != delta && staged != delta
      requires AllTagged(recorded.m, proto) && AllTagged(staged.m, proto)
      modifies recorded, staged, delta
      ensures AllTagged(recorded.m, proto) && AllTagged(staged.m, proto)
      ensures var s, d := Staged(old(recorded.m.Keys), old(staged.m.Keys)), AcceptedPorts(keys);
              Staged(recorded.m.Keys, staged.m.Keys) == Event(s, d) && delta.m == NextDelta(s, d, old(delta.m))
    {
      StageKeys(keys, staged, proto);
      clbdata.L4Compare(recorded, staged, delta);
    }

    // One locked section per service; other configmaps, and updates that
    // leave the data alone, do nothing.
    method UpdatePorts(oldCm: ConfigMap, cm: ConfigMap, podlist: Option<seq<Pod>>)
      requires Valid() && |lbstore| < CAPACITY
      modifies this`lbstore, ExTcp, NwTcp, ExUdp, NwUdp, clbdata, clbdata.Tcp, clbdata.Udp
      ensures Valid()
      ensures var addr := AddrsAfter(podlist, old(clbdata.Addr)).1;
              Abs() == if oldCm.data == cm.data then old(Abs())
                       else if cm.name == "tcp-services" then TcpEvent(old(Abs()), AcceptedPorts(cm.data.Keys), addr)
                       else if cm.name == "udp-services" then UdpEvent(old(Abs()), AcceptedPorts(cm.data.Keys), addr)
                       else old(Abs())
    {
      if oldCm.data == cm.data {
        return;
      }
      if cm.name == TCP_SERVICE {
        UpdateTcp(cm, podlist);
      } else if cm.name == UDP_SERVICE {
        UpdateUdp(cm, podlist);
      }
    }

    method UpdateTcp(cm: ConfigMap, podlist: Option<seq<Pod>>)
      requires Valid() && |lbstore| < CAPACITY
      modifies this`lbstore, ExTcp, NwTcp, clbdata, clbdata.Tcp
      ensures Valid()
      ensures Abs() == TcpEvent(old(Abs()), AcceptedPorts(cm.data.Keys), AddrsAfter(podlist, old(clbdata.Addr)).1)
    {
      StageAndCompare(cm.data.Keys, ExTcp, NwTcp, clbdata.Tcp, PROTO_TCP);
      var ignored := ListNginx(clbdata, podlist);
      lbstore := lbstore + [clbdata];
    }

    method UpdateUdp(cm: ConfigMap, podlist: Option<seq<Pod>>)
      requires Valid() && |lbstore| < CAPACITY
      modifies this`lbstore, ExUdp, NwUdp, clbdata, clbdata.Udp
      ensures Valid()
      ensures Abs() == UdpEvent(old(Abs()), AcceptedPorts(cm.data.Keys), AddrsAfter(podlist, old(clbdata.Addr)).1)
    {
      StageAndCompare(cm.data.Keys, ExUdp, NwUdp, clbdata.Udp, PROTO_UDP);
      var ignored := ListNginx(clbdata, podlist);
      lbstore := lbstore + [clbdata];
    }

    // The one address of the event, tagged by whether the pod is terminating;
    // a bad address leaves none.
    method Announce(pod: Pod)
      modifies plbdata
      ensures plbdata.Addr == PodAddr(pod)
    {
      ClearAddrs(plbdata);
      var key := if pod.terminating then "deleting_" + pod.name + "\n" else "adding_" + pod.name + "\n";
      assert key == PodKey(pod);
      var ok, addr := ValidateIPv4(pod.podIP);
      if ok {
        plbdata.Addr := plbdata.Addr[key := addr];
      }
    }

    // addrUpdateFunc, on the informer's first argument; any pod of the
    // namespace with an address counts.
    method AddrUpdateFunc(pod: Pod, cmlist: Option<seq<ConfigMap>>)
      requires Valid() && |lbstore| < CAPACITY
      modifies this`lbstore, plbdata, plbdata.Tcp, plbdata.Udp
      ensures Valid()
      ensures pod.namespace != nginxServer || pod.podIP == "" ==> Abs() == old(Abs())
      ensures pod.namespace == nginxServer && pod.podIP != "" ==>
                && Abs() == PodEvent(old(Abs()), plbdata.Contents())
                && plbdata.Addr == PodAddr(pod)
                && (cmlist == None ==> plbdata.Tcp.m == old(plbdata.Tcp.m) && plbdata.Udp.m == old(plbdata.Udp.m))
                && (cmlist.Some? ==> CmRead(cmlist.value, plbdata.Tcp.m, plbdata.Udp.m))
    {
      if pod.namespace == nginxServer && pod.podIP != "" {
        Announce(pod);
        var ignored := ListCm(cmlist);
        lbstore := lbstore + [plbdata];
      }
    }

    // After an error nothing is queued, and the caller gives up.
    method Initial(cmlist: Option<seq<ConfigMap>>, podlist: Option<seq<Pod>>) returns (err: bool)
      requires Valid() && |lbstore| < CAPACITY
      modifies this`lbstore, ExTcp, ExUdp, plbdata, plbdata.Tcp, plbdata.Udp
      ensures Valid()
      ensures err <==>
              || cmlist == None || HasBadKey(cmlist.value)
              || podlist == None || exists pod :: pod in podlist.value && BadPod(pod)
      ensures err ==> lbstore == old(lbstore)
      ensures if cmlist == None || HasBadKey(cmlist.value) then
                ExTcp.m == old(ExTcp.m) && ExUdp.m == old(ExUdp.m)
              else
                && ExTcp.m.Keys == old(ExTcp.m.Keys) + ServicePorts(cmlist.value, TCP_SERVICE)
                && ExUdp.m.Keys == old(ExUdp.m.Keys) + ServicePorts(cmlist.value, UDP_SERVICE)
      ensures !err ==>
                var tcp, udp := ServicePorts(cmlist.value, TCP_SERVICE), ServicePorts(cmlist.value, UDP_SERVICE);
                var s := Store(ListedAddrs(podlist.value, map[]).1, Tagged(tcp, ADDITION), Tagged(udp, ADDITION));
                Abs() == Recorded(PodEvent(old(Abs()), s), tcp, udp)
    {
      err := ListPorts(cmlist);
      if err {
        return;
      }
      err := ListNginx(plbdata, podlist);
      if err {
        return;
      }
      StoreIs(plbdata.Contents(), plbdata.Tcp.m.Keys, plbdata.Udp.m.Keys);
      Publish(plbdata);
    }

    // The send on the channel.
    method Publish(lb: LBStore)
      requires Valid() && |lbstore| < CAPACITY && (lb == clbdata || lb == plbdata)
      modifies this`lbstore
      ensures Valid() && lbstore == old(lbstore) + [lb]
      ensures Abs() == old(Abs()).(queue := old(Abs()).queue + [RefOf(lb)])
    {
      lbstore := lbstore + [lb];
    }

    // The part of Initial before listNginx.
    method ListPorts(cmlist: Option<seq<ConfigMap>>) returns (err: bool)
      requires Valid()
      modifies ExTcp, ExUdp, plbdata.Tcp, plbdata.Udp
      ensures Valid()
      ensures err <==> cmlist == None || HasBadKey(cmlist.value)
      ensures err ==> ExTcp.m == old(ExTcp.m) && ExUdp.m == old(ExUdp.m)
      ensures !err ==>
                var tcp, udp := ServicePorts(cmlist.value, TCP_SERVICE), ServicePorts(cmlist.value, UDP_SERVICE);
                && plbdata.Tcp.m.Keys == tcp && AllTagged(plbdata.Tcp.m, ADDITION)
                && plbdata.Udp.m.Keys == udp && AllTagged(plbdata.Udp.m, ADDITION)
                && ExTcp.m.Keys == old(ExTcp.m.Keys) + tcp && ExUdp.m.Keys == old(ExUdp.m.Keys) + udp
    {
      err := ListCm(cmlist);
      if err {
        return;
      }
      CmReadGood(cmlist.value, plbdata.Tcp.m, plbdata.Udp.m);
      RecordListed();
    }

    method RecordListed()
      requires Valid()
      modifies ExTcp, ExUdp
      ensures Valid()
      ensures ExTcp.m.Keys == old(ExTcp.m.Keys) + plbdata.Tcp.m.Keys
      ensures ExUdp.m.Keys == old(ExUdp.m.Keys) + plbdata.Udp.m.Keys
    {
      Record(plbdata.Tcp.m.Keys, ExTcp, PROTO_TCP);
      Record(plbdata.Udp.m.Keys, ExUdp, PROTO_UDP);
    }

    method Record(ports: set<Port>, recorded: PortMap, proto: string)
      requires AllTagged(recorded.m, proto)
      modifies recorded
      ensures AllTagged(recorded.m, proto) && recorded.m.Keys == old(recorded.m.Keys) + ports
    {
      var todo := ports;
      while todo != {}
        invariant todo <= ports && AllTagged(recorded.m, proto)
        invariant recorded.m.Keys + todo == old(recorded.m.Keys) + ports
      {
        var key :| key in todo;
        recorded.m := recorded.m[key := proto];
        todo := todo - {key};
      }
    }

    // Since then, each failing operation was logged, and a call did fail in it.
    ghost predicate Grown(log: seq<Failure>, faults: nat)
      reads lvsManager, lvsManager.handle
    {
      log <= lvsManager.failures && faults + |lvsManager.failures| - |log| <= lvsManager.handle.faults
    }

    ghost function Since(log: seq<Failure>): seq<Failure>
      requires log <= lvsManager.failures
      reads lvsManager
    {
      lvsManager.failures[|log|..]
    }

    // One turn of processItem's loop over a port map. A failing call is logged;
    // an unknown action as well.
    method SyncPort(addr: string, port: Port, act: string, proto: string) returns (panicked: bool)
      requires lvsManager.Valid() && ProtocolOf(proto).Some?
      modifies lvsManager.handle`table, lvsManager.handle`faults, lvsManager`failures
      ensures lvsManager.Valid() && Grown(old(lvsManager.failures), old(lvsManager.handle.faults))
      ensures OnePortSynced(act, ProtocolOf(proto).value, port, ParseIP(addr), old(lvsManager.View()),
                            lvsManager.View(), Since(old(lvsManager.failures)), !panicked)
      ensures panicked ==> Changes(act) && (port == 0 || ParseIP(addr) == None)
      ensures panicked ==>
                lvsManager.View() == old(lvsManager.View()) && lvsManager.failures == old(lvsManager.failures)
      ensures lvsManager.handle.faults == old(lvsManager.handle.faults) ==>
                Changes(act) && (port == 0 || ParseIP(addr) == None) ==> panicked
      ensures lvsManager.handle.faults == old(lvsManager.handle.faults) && !panicked &&
              old(Canonical(lvsManager.cfg, lvsManager.handle.table)) ==>
                Canonical(lvsManager.cfg, lvsManager.handle.table)
    {
      TagsDiffer();
      ghost var cfg, before, faults := lvsManager.cfg, lvsManager.handle.table, lvsManager.handle.faults;
      ghost var p, a := ProtocolOf(proto).value, ParseIP(addr);
      ghost var sendable := port != 0 && a.Some?;
      var r := Done;
      if act == ADDITION {
        r := lvsManager.Add(addr, port, proto);
        if lvsManager.handle.faults == faults && sendable && Canonical(cfg, before) {
          AddKeepsCanonical(cfg, before, lvsManager.handle.table, Triple(p, port, a.value));
        }
      } else if act == DELETION {
        r := lvsManager.Del(addr, port, proto);
        if lvsManager.handle.faults == faults && sendable && Canonical(cfg, before) {
          DelKeepsCanonical(cfg, before, lvsManager.handle.table, Triple(p, port, a.value));
        }
      }
      panicked := r.Panicked?;
    }

    // The loop itself, in any order; only a panic in the provider ends it.
    method SyncPorts(addr: string, ports: PortMap, proto: string) returns (panicked: bool, ghost left: set<Port>)
      requires lvsManager.Valid() && ProtocolOf(proto).Some?
      modifies lvsManager.handle`table, lvsManager.handle`faults, lvsManager`failures
      ensures lvsManager.Valid() && Grown(old(lvsManager.failures), old(lvsManager.handle.faults))
      ensures PortsSynced(ports.m, ProtocolOf(proto).value, ParseIP(addr), old(lvsManager.View()), lvsManager.View(),
                          Since(old(lvsManager.failures)), left)
      ensures panicked <==> left != {}
      ensures panicked ==> Unsendable(ports.m, ParseIP(addr))
      ensures lvsManager.handle.faults == old(lvsManager.handle.faults) && Unsendable(ports.m, ParseIP(addr)) ==>
                panicked
      ensures lvsManager.handle.faults == old(lvsManager.handle.faults) && !panicked &&
              old(Canonical(lvsManager.cfg, lvsManager.handle.table)) ==>
                Canonical(lvsManager.cfg, lvsManager.handle.table)
    {
      ghost var p, a := ProtocolOf(proto).value, ParseIP(addr);
      ghost var t0, faults0, log0 := lvsManager.View(), lvsManager.handle.faults, lvsManager.failures;
      ghost var log := [];
      var todo := ports.m.Keys;
      NothingSynced(ports.m, p, a, t0);
      while todo != {}
        invariant lvsManager.Valid() && lvsManager.failures == log0 + log && faults0 + |log| <= lvsManager.handle.faults
        invariant PortsSynced(ports.m, p, a, t0, lvsManager.View(), log, todo)
        invariant lvsManager.handle.faults == faults0 ==> !Unsendable(ports.m - todo, a)
        invariant lvsManager.handle.faults == faults0 && old(Canonical(lvsManager.cfg, lvsManager.handle.table)) ==>
                    Canonical(lvsManager.cfg, lvsManager.handle.table)
      {
        var port :| port in todo;
        ghost var t, mid := lvsManager.View(), lvsManager.failures;
        panicked := SyncPort(addr, port, ports.m[port], proto);
        TurnSynced(ports.m, todo, port, p, a, t0, t, lvsManager.View(), log, Since(mid), panicked);
        log := log + Since(mid);
        if panicked {
          return true, todo;
        }
        todo := todo - {port};
      }
      assert ports.m - {} == ports.m;
      return false, {};
    }

    // One turn of processItem's loop over the addresses.
    method ProcessKey(lbdata: LBStore, key: string)
      returns (panicked: bool, ghost tcpLeft: set<Port>, ghost udpLeft: set<Port>)
      requires lvsManager.Valid() && key in lbdata.Addr
      modifies lvsManager.handle`table, lvsManager.handle`faults, lvsManager`failures
      ensures lvsManager.Valid() && Grown(old(lvsManager.failures), old(lvsManager.handle.faults))
      ensures KeyProcessed(lbdata.Contents(), key, old(lvsManager.View()), lvsManager.View(),
                           Since(old(lvsManager.failures)), tcpLeft, udpLeft)
      ensures panicked <==> tcpLeft + udpLeft != {}
      ensures panicked ==> PanicsAt(lbdata.Contents(), key)
      ensures lvsManager.handle.faults == old(lvsManager.handle.faults) && PanicsAt(lbdata.Contents(), key) ==> panicked
      ensures lvsManager.handle.faults == old(lvsManager.handle.faults) && !panicked &&
              old(Canonical(lvsManager.cfg, lvsManager.handle.table)) ==>
                Canonical(lvsManager.cfg, lvsManager.handle.table)
    {
      ghost var s, t0, log0 := lbdata.Contents(), lvsManager.View(), lvsManager.failures;
      TagsDiffer();
      var addr := lbdata.Addr[key];
      panicked, tcpLeft, udpLeft := false, {}, {};
      if Tag(key) == ADDITION {
        panicked, tcpLeft := SyncPorts(addr, lbdata.Tcp, PROTO_TCP);
        ghost var t1, log1, mid := lvsManager.View(), Since(log0), lvsManager.failures;
        if panicked {
          udpLeft := lbdata.Udp.m.Keys;
          NothingSynced(s.udp, UDP, ParseIP(addr), t1);
        } else {
          panicked, udpLeft := SyncPorts(addr, lbdata.Udp, PROTO_UDP);
        }
        BothSynced(s, key, t0, t1, lvsManager.View(), log1, Since(mid), tcpLeft, udpLeft);
        assert Since(log0) == log1 + Since(mid);
      } else if Tag(key) == DELETION {
        ghost var t := lvsManager.handle.table;
        var err := lvsManager.DelRServer(addr);
        AddressDeleted(s, key, lvsManager.cfg, t, lvsManager.handle.table, err, Since(log0));
      }
    }

    // The receive from the channel.
    method Receive() returns (lb: LBStore)
      requires Valid() && lbstore != []
      modifies this`lbstore
      ensures Valid() && lb == old(lbstore)[0] && lbstore == old(lbstore)[1..]
      ensures Abs() == old(Abs()).(queue := old(Abs()).queue[1..])
    {
      lb := lbstore[0];
      lbstore := lbstore[1..];
    }

    // One locked section of a worker: pop, then process what the popped
    // reference holds now, its addresses in some order, whatever fails.
    method ProcessItem() returns (panicked: bool, ghost order: seq<string>)
      requires Valid() && lbstore != []
      modifies this`lbstore, lvsManager.handle`table, lvsManager.handle`faults, lvsManager`failures
      ensures Valid() && lbstore == old(lbstore)[1..]
      ensures Abs() == old(Abs()).(queue := old(Abs()).queue[1..], table := lvsManager.View())
      ensures Grown(old(lvsManager.failures), old(lvsManager.handle.faults))
      ensures StoreProcessed(old(lbstore[0].Contents()), order, old(lvsManager.View()), lvsManager.View(),
                             Since(old(lvsManager.failures)), panicked)
      ensures panicked ==> Panics(old(lbstore[0].Contents()))
      ensures lvsManager.handle.faults == old(lvsManager.handle.faults) && Panics(old(lbstore[0].Contents())) ==>
                panicked
      ensures lvsManager.handle.faults == old(lvsManager.handle.faults) && !panicked ==>
                DisjointTags(old(lbstore[0].Contents())) ==> Abs() == Work(old(Abs()))
      ensures lvsManager.handle.faults == old(lvsManager.handle.faults) && !panicked &&
              old(Canonical(lvsManager.cfg, lvsManager.handle.table)) ==>
                Canonical(lvsManager.cfg, lvsManager.handle.table)
    {
      var lbdata := Receive();
      panicked, order := ProcessStore(lbdata);
    }

    method ProcessStore(lbdata: LBStore) returns (panicked: bool, ghost order: seq<string>)
      requires lvsManager.Valid()
      modifies lvsManager.handle`table, lvsManager.handle`faults, lvsManager`failures
      ensures lvsManager.Valid() && Grown(old(lvsManager.failures), old(lvsManager.handle.faults))
      ensures StoreProcessed(lbdata.Contents(), order, old(lvsManager.View()), lvsManager.View(),
                             Since(old(lvsManager.failures)), panicked)
      ensures panicked ==> Panics(lbdata.Contents())
      ensures lvsManager.handle.faults == old(lvsManager.handle.faults) && Panics(lbdata.Contents()) ==> panicked
      ensures lvsManager.handle.faults == old(lvsManager.handle.faults) && !panicked &&
              DisjointTags(lbdata.Contents()) ==>
                lvsManager.View() == Process(lbdata.Contents(), old(lvsManager.View()))
      ensures lvsManager.handle.faults == old(lvsManager.handle.faults) && !panicked &&
              old(Canonical(lvsManager.cfg, lvsManager.handle.table)) ==>
                Canonical(lvsManager.cfg, lvsManager.handle.table)
    {
      ghost var s, t0 := lbdata.Contents(), lvsManager.View();
      ghost var faults0, log0 := lvsManager.handle.faults, lvsManager.failures;
      order := [];
      var todo := lbdata.Addr.Keys;
      while todo != {}
        invariant todo <= s.addr.Keys && Distinct(order) && forall k :: k in order <==> k in s.addr && k !in todo
        invariant lvsManager.Valid() && Grown(log0, faults0)
        invariant StoreProgress(s, order, t0, lvsManager.View(), Since(log0))
        invariant lvsManager.handle.faults == faults0 ==> forall k :: k in order ==> !PanicsAt(s, k)
        invariant lvsManager.handle.faults == faults0 && old(Canonical(lvsManager.cfg, lvsManager.handle.table)) ==>
                    Canonical(lvsManager.cfg, lvsManager.handle.table)
      {
        var key :| key in todo;
        ghost var t, mid, log := lvsManager.View(), lvsManager.failures, Since(log0);
        ghost var tcpLeft, udpLeft;
        panicked, tcpLeft, udpLeft := ProcessKey(lbdata, key);
        assert Since(log0) == log + Since(mid);
        KeyAppended(s, order, key, t0, t, lvsManager.View(), log, Since(mid), tcpLeft, udpLeft);
        if panicked {
          return;
        }
        order := order + [key];
        todo := todo - {key};
      }
      panicked := false;
      if lvsManager.handle.faults == faults0 {
        CleanTurn(s, order, t0, lvsManager.View(), Since(log0));
      }
    }
  }

  // NewLoadBalancerController and Initial, as the program starts: the state is
  // the pipeline's start.
  method Boot(nginxServer: string, cfg: Config, cmlist: Option<seq<ConfigMap>>, podlist: Option<seq<Pod>>)
    returns (lbc: LoadBalancerController, err: bool)
    ensures lbc.Valid() && fresh(lbc.Parts()) && lbc.nginxServer == Namespace(nginxServer) && lbc.lvsManager.cfg == cfg
    ensures err <==>
            || cmlist == None || HasBadKey(cmlist.value)
            || podlist == None || exists pod :: pod in podlist.value && BadPod(pod)
    ensures !err ==>
              lbc.Abs() == StartData(ServicePorts(cmlist.value, TCP_SERVICE), ServicePorts(cmlist.value, UDP_SERVICE),
                                     ListedAddrs(podlist.value, map[]).1)
  {
    lbc := new LoadBalancerController(nginxServer, cfg);
    err := lbc.Initial(cmlist, podlist);
    if !err {
      InitialIsStart(ServicePorts(cmlist.value, TCP_SERVICE), ServicePorts(cmlist.value, UDP_SERVICE),
                     ListedAddrs(podlist.value, map[]).1);
    }
  }

  lemma StoreIs(s: Store, tcp: set<Port>, udp: set<Port>)
    requires s.tcp.Keys == tcp && AllTagged(s.tcp, ADDITION) && s.udp.Keys == udp && AllTagged(s.udp, ADDITION)
    ensures s == Store(s.addr, Tagged(tcp, ADDITION), Tagged(udp, ADDITION))
  {
    TaggedIs(s.tcp, tcp, ADDITION);
    TaggedIs(s.udp, udp, ADDITION);
  }

  function Recorded(x: Data, tcp: set<Port>, udp: set<Port>): Data {
    x.(tcp := Staged(x.tcp.ex + tcp, x.tcp.nw), udp := Staged(x.udp.ex + udp, x.udp.nw))
  }

  lemma InitialIsStart(tcp: set<Port>, udp: set<Port>, addr: map<string, string>)
    ensures var x := Data(Staged({}, {}), Staged({}, {}), Stores(EMPTY_STORE, EMPTY_STORE), [], {});
            var s := Store(addr, Tagged(tcp, ADDITION), Tagged(udp, ADDITION));
            Recorded(PodEvent(x, s), tcp, udp) == StartData(tcp, udp, addr)
  {
    assert {} + tcp == tcp && {} + udp == udp;
    assert [] + [Plb] == [Plb];
  }

  // ------------------------------------------------- processing, on the view

  // The port is to be changed, but libipvs cannot send it with this address.
  predicate UnsendableAt(ports: map<Port, string>, port: Port, a: Option<IPv4>)
    requires port in ports
  {
    Changes(ports[port]) && (port == 0 || a == None)
  }

  predicate Unsendable(ports: map<Port, string>, a: Option<IPv4>) {
    exists port :: port in ports && UnsendableAt(ports, port, a)
  }

  lemma UnsendableNext(ports: map<Port, string>, todo: set<Port>, port: Port, a: Option<IPv4>)
    requires port in todo && todo <= ports.Keys
    ensures Unsendable(ports - (todo - {port}), a) <==> Unsendable(ports - todo, a) || UnsendableAt(ports, port, a)
    ensures UnsendableAt(ports, port, a) ==> Unsendable(ports, a)
  {
    var done, next := ports - todo, ports - (todo - {port});
    assert forall q :: q in next <==> q in done || q == port;
    assert forall q :: q in done ==> UnsendableAt(done, q, a) == UnsendableAt(next, q, a);
  }

  // A withdrawn address is only compared, never sent.
  predicate PanicsAt(s: Store, key: string)
    requires key in s.addr
  {
    Tag(key) == ADDITION && (Unsendable(s.tcp, ParseIP(s.addr[key])) || Unsendable(s.udp, ParseIP(s.addr[key])))
  }

  predicate Panics(s: Store) { exists key :: key in s.addr && PanicsAt(s, key) }

  // The log holds a failure in an operation on this triple or on its address.
  predicate Blamed(log: seq<Failure>, x: Triple) { OnTriple(x) in log || OnAddress(x.address) in log }

  // Only what the store asks for is ever tried.
  predicate Justified(s: Store, e: Failure) {
    match e
    case OnTriple(x) => Adding(s, x.address) && (Asks(s, x, ADDITION) || Asks(s, x, DELETION))
    case OnAddress(a) => Deleting(s, a)
  }

  // What the keys done so far amount to: a failure costs the triple or address
  // it is about and nothing else.
  ghost predicate StoreProgress(s: Store, order: seq<string>, t: set<Triple>, t': set<Triple>, log: seq<Failure>) {
    && (forall k :: k in order ==> k in s.addr)
    && FaultyOutcome(s, t, t')
    && (forall e :: e in log ==> Justified(s, e))
    && (forall x :: !Blamed(log, x) ==> (x in t' <==> x in ApplyKeys(s, order, t)))
  }

  // Another key on its way when a port made it panic: the ports left are not
  // touched, and none of udp is while one of tcp is left.
  ghost predicate BrokenOffAt(s: Store, order: seq<string>, t: set<Triple>, tm: set<Triple>, t': set<Triple>,
                              done: seq<Failure>, last: seq<Failure>, key: string, tcpLeft: set<Port>,
                              udpLeft: set<Port>) {
    && key in s.addr && key !in order && PanicsAt(s, key) && tcpLeft + udpLeft != {}
    && StoreProgress(s, order, t, tm, done)
    && KeyProcessed(s, key, tm, t', last, tcpLeft, udpLeft)
  }

  ghost predicate BrokenOff(s: Store, order: seq<string>, t: set<Triple>, t': set<Triple>, log: seq<Failure>) {
    exists tm, done, last, key, tcpLeft, udpLeft ::
      BrokenOffAt(s, order, t, tm, t', done, last, key, tcpLeft, udpLeft) && log == done + last
  }

  // What processing a store amounts to: all keys, or those before a panic and
  // a part of one more.
  ghost predicate StoreProcessed(s: Store, order: seq<string>, t: set<Triple>, t': set<Triple>,
                                 log: seq<Failure>, panicked: bool) {
    && FaultyOutcome(s, t, t')
    && (forall e :: e in log ==> Justified(s, e))
    && (!panicked ==> Enumerates(order, s) && StoreProgress(s, order, t, t', log))
    && (panicked ==> Distinct(order) && BrokenOff(s, order, t, t', log))
  }

  lemma CleanTurn(s: Store, order: seq<string>, t: set<Triple>, t': set<Triple>, log: seq<Failure>)
    requires StoreProcessed(s, order, t, t', log, false) && log == []
    ensures t' == ApplyKeys(s, order, t)
    ensures DisjointTags(s) ==> t' == Process(s, t)
  {
    forall x
      ensures x in t' <==> x in ApplyKeys(s, order, t)
    {
      assert !Blamed(log, x);
    }
    if DisjointTags(s) {
      KeysClosedForm(s, order, t);
    }
  }

  lemma UnblamedIsDone(s: Store, order: seq<string>, t: set<Triple>, t': set<Triple>, log: seq<Failure>)
    requires DisjointTags(s) && StoreProcessed(s, order, t, t', log, false)
    ensures forall x :: !Blamed(log, x) && Decides(s, x) ==> (x in t' <==> Inserts(s, x))
  {
    KeysClosedForm(s, order, t);
    forall x | !Blamed(log, x) && Decides(s, x)
      ensures x in t' <==> Inserts(s, x)
    {
      ProcessAt(s, t, x);
    }
  }

  // What the store asks for and the table does not have, or still has.
  predicate Missed(s: Store, t': set<Triple>, x: Triple) {
    Adding(s, x.address) && !Deleting(s, x.address) &&
    ((Asks(s, x, ADDITION) && x !in t') || (Asks(s, x, DELETION) && x in t'))
  }

  predicate Remains(s: Store, t': set<Triple>, a: IPv4) {
    Deleting(s, a) && !Adding(s, a) && exists x :: x in t' && x.address == a
  }

  // So failing calls cost at most one triple of an adding address, or one
  // deleting address, each.
  lemma FailuresBound(s: Store, order: seq<string>, t: set<Triple>, t': set<Triple>, log: seq<Failure>,
                      missed: set<Triple>, remaining: set<IPv4>)
    requires StoreProcessed(s, order, t, t', log, false)
    requires forall x :: x in missed ==> Missed(s, t', x)
    requires forall a :: a in remaining ==> Remains(s, t', a)
    ensures forall x :: x in missed ==> OnTriple(x) in log
    ensures forall a :: a in remaining ==> OnAddress(a) in log
    ensures |missed| + |remaining| <= |log|
  {
    forall x | x in missed
      ensures OnTriple(x) in log
    {
      MissedIsBlamed(s, order, t, t', log, x);
    }
    forall a | a in remaining
      ensures OnAddress(a) in log
    {
      var x :| x in t' && x.address == a;
      RemainingIsBlamed(s, order, t, t', log, x);
    }
    LogHolds(log, missed, remaining);
  }

  lemma MissedIsBlamed(s: Store, order: seq<string>, t: set<Triple>, t': set<Triple>, log: seq<Failure>, x: Triple)
    requires StoreProcessed(s, order, t, t', log, false) && Missed(s, t', x)
    ensures OnTriple(x) in log
  {
    TagsDiffer();
    assert NamedIn(s, order, ADDITION, x.address) && !NamedIn(s, order, DELETION, x.address);
    ApplyKeysAt(s, order, t, x);
    assert !Justified(s, OnAddress(x.address));
  }

  lemma RemainingIsBlamed(s: Store, order: seq<string>, t: set<Triple>, t': set<Triple>, log: seq<Failure>, x: Triple)
    requires StoreProcessed(s, order, t, t', log, false)
    requires x in t' && Deleting(s, x.address) && !Adding(s, x.address)
    ensures OnAddress(x.address) in log
  {
    assert !NamedIn(s, order, ADDITION, x.address) && NamedIn(s, order, DELETION, x.address);
    ApplyKeysAt(s, order, t, x);
    assert !Justified(s, OnTriple(x));
  }

  lemma {:induction false} LogHolds(log: seq<Failure>, xs: set<Triple>, ips: set<IPv4>)
    requires forall x :: x in xs ==> OnTriple(x) in log
    requires forall a :: a in ips ==> OnAddress(a) in log
    ensures |xs| + |ips| <= |log|
  {
    if log != [] {
      var init, last := log[..|log| - 1], log[|log| - 1];
      assert log == init + [last];
      match last
      case OnTriple(x) => {
        LogHolds(init, xs - {x}, ips);
        assert xs <= (xs - {x}) + {x};
      }
      case OnAddress(a) => {
        LogHolds(init, xs, ips - {a});
        assert ips <= (ips - {a}) + {a};
      }
    } else {
      assert xs == {} && ips == {};
    }
  }

  ghost function PortTriples(ports: map<Port, string>, action: string, p: Protocol, a: Option<IPv4>): set<Triple> {
    if a == None then {} else set port | port in ports && ports[port] == action :: Triple(p, port, a.value)
  }

  // All ports but those left are done, exactly but for what was blamed.
  ghost predicate PortsSynced(ports: map<Port, string>, p: Protocol, a: Option<IPv4>,
                              t: set<Triple>, t': set<Triple>, log: seq<Failure>, left: set<Port>) {
    var ins, del := PortTriples(ports - left, ADDITION, p, a), PortTriples(ports - left, DELETION, p, a);
    && left <= ports.Keys
    && t - del <= t' <= t + ins
    && (forall e :: e in log ==> e.OnTriple? && e.x in ins + del)
    && (forall x :: OnTriple(x) !in log ==> (x in t' <==> x in t - del + ins))
  }

  lemma NothingSynced(ports: map<Port, string>, p: Protocol, a: Option<IPv4>, t: set<Triple>)
    ensures PortsSynced(ports, p, a, t, t, [], ports.Keys) && !Unsendable(ports - ports.Keys, a)
  {
    assert ports - ports.Keys == map[];
  }

  predicate Changes(act: string) { act == ADDITION || act == DELETION }

  ghost predicate OnePortSynced(act: string, p: Protocol, port: Port, a: Option<IPv4>,
                                t: set<Triple>, t': set<Triple>, log: seq<Failure>, complete: bool) {
    var x := One(p, port, a);
    && t - (if act == DELETION then x else {}) <= t' <= t + (if act == ADDITION then x else {})
    && (complete && log == [] ==> t' == if act == ADDITION then t + x else if act == DELETION then t - x else t)
    && (log != [] ==> Changes(act) && a.Some? && log == [OnTriple(Triple(p, port, a.value))])
  }

  function One(p: Protocol, port: Port, a: Option<IPv4>): set<Triple> {
    if a == None then {} else {Triple(p, port, a.value)}
  }

  lemma PortSynced(ports: map<Port, string>, todo: set<Port>, port: Port, p: Protocol, a: Option<IPv4>,
                   t0: set<Triple>, t: set<Triple>, t': set<Triple>, log: seq<Failure>, more: seq<Failure>)
    requires port in todo && todo <= ports.Keys
    requires PortsSynced(ports, p, a, t0, t, log, todo)
    requires OnePortSynced(ports[port], p, port, a, t, t', more, true)
    ensures PortsSynced(ports, p, a, t0, t', log + more, todo - {port})
  {
    TagsDiffer();
    OnePortMore(ports, todo, port, ADDITION, p, a);
    OnePortMore(ports, todo, port, DELETION, p, a);
    assert One(p, port, a) !! PortTriples(ports - todo, ADDITION, p, a);
    assert One(p, port, a) !! PortTriples(ports - todo, DELETION, p, a);
    assert forall e :: e in log + more <==> e in log || e in more;
  }

  // One turn of the loop, with or without a panic.
  lemma TurnSynced(ports: map<Port, string>, todo: set<Port>, port: Port, p: Protocol, a: Option<IPv4>, t0: set<Triple>,
                   t: set<Triple>, t': set<Triple>, log: seq<Failure>, more: seq<Failure>, panicked: bool)
    requires port in todo && todo <= ports.Keys
    requires PortsSynced(ports, p, a, t0, t, log, todo)
    requires OnePortSynced(ports[port], p, port, a, t, t', more, !panicked)
    requires panicked ==> t' == t && more == [] && UnsendableAt(ports, port, a)
    ensures !panicked ==> PortsSynced(ports, p, a, t0, t', log + more, todo - {port})
    ensures panicked ==> PortsSynced(ports, p, a, t0, t', log + more, todo) && Unsendable(ports, a)
    ensures Unsendable(ports - (todo - {port}), a) <==> Unsendable(ports - todo, a) || UnsendableAt(ports, port, a)
  {
    UnsendableNext(ports, todo, port, a);
    if panicked {
      assert log + more == log;
    } else {
      PortSynced(ports, todo, port, p, a, t0, t, t', log, more);
    }
  }

  lemma OnePortMore(ports: map<Port, string>, todo: set<Port>, port: Port, action: string, p: Protocol, a: Option<IPv4>)
    requires port in todo && todo <= ports.Keys
    ensures PortTriples(ports - (todo - {port}), action, p, a) ==
            PortTriples(ports - todo, action, p, a) + (if ports[port] == action then One(p, port, a) else {})
  {
  }

  // The store without the ports left.
  function Without(s: Store, tcpLeft: set<Port>, udpLeft: set<Port>): Store {
    Store(s.addr, s.tcp - tcpLeft, s.udp - udpLeft)
  }

  // Processing one key inserts and removes at most what it asks for, and
  // exactly that but for what was blamed and for the ports left by a panic.
  ghost predicate KeyProcessed(s: Store, key: string, t: set<Triple>, t': set<Triple>,
                               log: seq<Failure>, tcpLeft: set<Port>, udpLeft: set<Port>)
    requires key in s.addr
  {
    && tcpLeft <= s.tcp.Keys && udpLeft <= s.udp.Keys && (tcpLeft != {} ==> udpLeft == s.udp.Keys)
    && (forall x :: x in t' && x !in t ==> Names(s, key, ADDITION, x.address) && Asks(s, x, ADDITION))
    && (forall x :: x in t && x !in t' ==>
          Names(s, key, DELETION, x.address) || (Names(s, key, ADDITION, x.address) && Asks(s, x, DELETION)))
    && (forall e :: e in log ==> Justified(s, e))
    && (forall x :: !Blamed(log, x) ==> (x in t' <==> x in ApplyKey(Without(s, tcpLeft, udpLeft), key, t)))
  }

  lemma BothSynced(s: Store, key: string, t: set<Triple>, t1: set<Triple>, t2: set<Triple>,
                   log1: seq<Failure>, log2: seq<Failure>, tcpLeft: set<Port>, udpLeft: set<Port>)
    requires key in s.addr && Tag(key) == ADDITION && (tcpLeft != {} ==> udpLeft == s.udp.Keys)
    requires PortsSynced(s.tcp, TCP, ParseIP(s.addr[key]), t, t1, log1, tcpLeft)
    requires PortsSynced(s.udp, UDP, ParseIP(s.addr[key]), t1, t2, log2, udpLeft)
    ensures KeyProcessed(s, key, t, t2, log1 + log2, tcpLeft, udpLeft)
  {
    assert forall e :: e in log1 + log2 <==> e in log1 || e in log2;
    forall x
      ensures x in t2 && x !in t ==> Asks(s, x, ADDITION) && Names(s, key, ADDITION, x.address)
      ensures x in t && x !in t2 ==> Asks(s, x, DELETION) && Names(s, key, ADDITION, x.address)
      ensures OnTriple(x) !in log1 && OnTriple(x) !in log2 ==>
                (x in t2 <==> x in ApplyKey(Without(s, tcpLeft, udpLeft), key, t))
    {
      BothSyncedAt(s, key, t, t1, t2, log1, log2, tcpLeft, udpLeft, x);
    }
  }

  lemma BothSyncedAt(s: Store, key: string, t: set<Triple>, t1: set<Triple>, t2: set<Triple>,
                     log1: seq<Failure>, log2: seq<Failure>, tcpLeft: set<Port>, udpLeft: set<Port>, x: Triple)
    requires key in s.addr && Tag(key) == ADDITION
    requires PortsSynced(s.tcp, TCP, ParseIP(s.addr[key]), t, t1, log1, tcpLeft)
    requires PortsSynced(s.udp, UDP, ParseIP(s.addr[key]), t1, t2, log2, udpLeft)
    ensures x in t2 && x !in t ==> Asks(s, x, ADDITION) && Names(s, key, ADDITION, x.address)
    ensures x in t && x !in t2 ==> Asks(s, x, DELETION) && Names(s, key, ADDITION, x.address)
    ensures OnTriple(x) !in log1 && OnTriple(x) !in log2 ==>
              (x in t2 <==> x in ApplyKey(Without(s, tcpLeft, udpLeft), key, t))
  {
    TagsDiffer();
    var a := ParseIP(s.addr[key]);
    ApplyKeyAt(Without(s, tcpLeft, udpLeft), key, t, x);
    assert a == Some(x.address) ==> x == Triple(x.protocol, x.port, a.value);
  }

  lemma AddressDeleted(s: Store, key: string, cfg: Config, t: Table, t': Table, err: bool, log: seq<Failure>)
    requires key in s.addr && Tag(key) == DELETION
    requires DelRServerOutcome(cfg, t, t', ParseIP(s.addr[key]), err)
    requires var a := ParseIP(s.addr[key]); log == if err && a.Some? then [OnAddress(a.value)] else []
    ensures KeyProcessed(s, key, Triples(t), Triples(t'), log, {}, {})
  {
    TagsDiffer();
    forall x
      ensures !Blamed(log, x) ==> (x in Triples(t') <==> x in ApplyKey(Without(s, {}, {}), key, Triples(t)))
    {
      ApplyKeyAt(Without(s, {}, {}), key, Triples(t), x);
    }
  }

  lemma KeyAppended(s: Store, order: seq<string>, key: string, t0: set<Triple>, t: set<Triple>, t': set<Triple>,
                    log: seq<Failure>, more: seq<Failure>, tcpLeft: set<Port>, udpLeft: set<Port>)
    requires key in s.addr && StoreProgress(s, order, t0, t, log) && KeyProcessed(s, key, t, t', more, tcpLeft, udpLeft)
    ensures FaultyOutcome(s, t0, t')
    ensures forall e :: e in log + more ==> Justified(s, e)
    ensures tcpLeft + udpLeft == {} ==> StoreProgress(s, order + [key], t0, t', log + more)
    ensures tcpLeft + udpLeft != {} && key !in order && PanicsAt(s, key) ==> BrokenOff(s, order, t0, t', log + more)
  {
    if tcpLeft + udpLeft != {} && key !in order && PanicsAt(s, key) {
      assert BrokenOffAt(s, order, t0, t, t', log, more, key, tcpLeft, udpLeft);
    }
    assert tcpLeft + udpLeft == {} ==> Without(s, tcpLeft, udpLeft) == s;
    assert (order + [key])[..|order|] == order;
    assert forall e :: e in log + more <==> e in log || e in more;
    forall x: Triple
      ensures Names(s, key, ADDITION, x.address) ==> Adding(s, x.address)
      ensures Names(s, key, DELETION, x.address) ==> Deleting(s, x.address)
      ensures tcpLeft + udpLeft == {} && !Blamed(log + more, x) ==> (x in t' <==> x in ApplyKeys(s, order + [key], t0))
    {
      ApplyKeyAt(s, key, t, x);
      ApplyKeyAt(s, key, ApplyKeys(s, order, t0), x);
    }
  }

  // ------------------------------------------------- the handlers as pipeline steps

  function PodTag(pod: Pod): string { if pod.terminating then DELETION else ADDITION }

  function PodKey(pod: Pod): string { PodTag(pod) + "_" + (pod.name + "\n") }

  function PodAddr(pod: Pod): map<string, string> {
    if AcceptsIPv4(pod.podIP) then map[PodKey(pod) := pod.podIP] else map[]
  }

  // What listCm leaves in the two port maps: the accepted ports of all matching
  // configmaps before the first bad one, and what it read of that one, whose
  // udp ports come first; as its keys are read in any order, that may be any of
  // its accepted ports.
  ghost predicate CmRead(cms: seq<ConfigMap>, tcp: map<Port, string>, udp: map<Port, string>) {
    var n := GoodCms(cms);
    && AllTagged(tcp, ADDITION) && AllTagged(udp, ADDITION)
    && ServicePorts(cms[..n], TCP_SERVICE) <= tcp.Keys <= ServicePorts(cms[..n], TCP_SERVICE) + TcpRest(cms)
    && ServicePorts(cms[..n], UDP_SERVICE) <= udp.Keys <= ServicePorts(cms[..n], UDP_SERVICE) + UdpRest(cms)
  }

  function TcpRest(cms: seq<ConfigMap>): set<Port> {
    var n := GoodCms(cms);
    if n == |cms| || Contains(cms[n].name, UDP_SERVICE) then {} else ReadFrom(cms[n], TCP_SERVICE)
  }

  function UdpRest(cms: seq<ConfigMap>): set<Port> {
    var n := GoodCms(cms);
    if n == |cms| then {} else ReadFrom(cms[n], UDP_SERVICE)
  }

  // Without a bad key that is all accepted ports; in any case none is made up.
  lemma CmReadGood(cms: seq<ConfigMap>, tcp: map<Port, string>, udp: map<Port, string>)
    requires CmRead(cms, tcp, udp)
    ensures tcp.Keys <= ServicePorts(cms, TCP_SERVICE) && udp.Keys <= ServicePorts(cms, UDP_SERVICE)
    ensures !HasBadKey(cms) ==> tcp.Keys == ServicePorts(cms, TCP_SERVICE) && udp.Keys == ServicePorts(cms, UDP_SERVICE)
  {
    var n := GoodCms(cms);
    PortsUpTo(cms, TCP_SERVICE);
    PortsUpTo(cms, UDP_SERVICE);
    if n == |cms| {
      assert cms[..n] == cms;
    }
  }

  lemma PortsUpTo(cms: seq<ConfigMap>, service: string)
    ensures var n := GoodCms(cms);
            && ServicePorts(cms[..n], service) <= ServicePorts(cms, service)
            && (n < |cms| ==> ReadFrom(cms[n], service) <= ServicePorts(cms, service))
  {
    assert forall cm :: cm in cms[..GoodCms(cms)] ==> cm in cms;
  }

  // The ports of the configmaps before the first bad one are there.
  lemma EarlierPortsRead(cms: seq<ConfigMap>, tcp: map<Port, string>, udp: map<Port, string>, i: nat, key: string)
    requires CmRead(cms, tcp, udp) && i < GoodCms(cms) && key in cms[i].data && AcceptsPort(key)
    ensures Contains(cms[i].name, "tcp-services") ==> ValidatePort(key).1 in tcp
    ensures Contains(cms[i].name, "udp-services") ==> ValidatePort(key).1 in udp
  {
    assert cms[i] in cms[..GoodCms(cms)];
  }

  function ReadFrom(cm: ConfigMap, service: string): set<Port> {
    if Contains(cm.name, service) then AcceptedPorts(cm.data.Keys) else {}
  }

  lemma ServicePortsNext(cms: seq<ConfigMap>, i: nat, service: string)
    requires i < |cms|
    ensures ServicePorts(cms[..i + 1], service) ==
            ServicePorts(cms[..i], service) + ReadFrom(cms[i], service)
    ensures ServicePorts(cms[..i + 1], service) <= ServicePorts(cms, service)
  {
    assert cms[..i + 1] == cms[..i] + [cms[i]];
    assert forall cm :: cm in cms[..i + 1] <==> cm in cms[..i] || cm == cms[i];
    assert forall cm :: cm in cms[..i + 1] ==> cm in cms;
  }

  function StepOf(pod: Pod): Step {
    if pod.terminating then PodRemoved(PodKey(pod), pod.podIP) else PodAdded(PodKey(pod), pod.podIP)
  }

  lemma PodKeyTag(pod: Pod)
    ensures Tag(PodKey(pod)) == PodTag(pod)
    ensures ParseIP(pod.podIP).Some? ==> PodOk(StepOf(pod))
  {
    TagsDiffer();
    TagOfKey(PodTag(pod), pod.name + "\n");
  }

  // With agreeing listings, addrUpdateFunc publishes exactly what the pipeline
  // calls a pod addition or removal.
  lemma PodUpdateIsStep(w: World, pod: Pod, cms: seq<ConfigMap>)
    requires ParseIP(pod.podIP).Some?
    requires w.cmTcp == ServicePorts(cms, TCP_SERVICE) && w.cmUdp == ServicePorts(cms, UDP_SERVICE)
    ensures Store(PodAddr(pod), Tagged(ServicePorts(cms, TCP_SERVICE), ADDITION),
                  Tagged(ServicePorts(cms, UDP_SERVICE), ADDITION)) == PodStore(w, PodKey(pod), pod.podIP)
    ensures PodOk(StepOf(pod))
    ensures KeepsWork(w, StepOf(pod)) ==>
              && Allowed(w, StepOf(pod))
              && Next(w, StepOf(pod)).data == PodEvent(w.data, PodStore(w, PodKey(pod), pod.podIP))
  {
    PodKeyTag(pod);
    ParsesIsAccepted(pod.podIP);
  }

  // addrAddFunc writes this key into plbdata without taking the lock.
  function RacyKey(pod: Pod): (key: string)
    ensures key == PodKey(pod.(terminating := false))
  {
    "adding_" + pod.name + "\n"
  }

  // Into a store that announces a removal, such a write makes the outcome
  // depend on the iteration order exactly when it names the removed address
  // and there is a port to add.
  lemma RacyAddIff(w: World, removed: Pod, added: Pod)
    requires removed.terminating && ParseIP(removed.podIP).Some? && ParseIP(added.podIP).Some?
    requires 0 !in w.cmTcp && 0 !in w.cmUdp
    ensures var s := PodStore(w, PodKey(removed), removed.podIP);
            OrderFree(s.(addr := s.addr[RacyKey(added) := added.podIP])) <==>
            ParseIP(removed.podIP) != ParseIP(added.podIP) || (w.cmTcp == {} && w.cmUdp == {})
  {
    TagsDiffer();
    var s := PodStore(w, PodKey(removed), removed.podIP);
    var s' := s.(addr := s.addr[RacyKey(added) := added.podIP]);
    TagOfKey(DELETION, removed.name + "\n");
    TagOfKey(ADDITION, added.name + "\n");
    assert RacyKey(added) in s'.addr && PodKey(removed) in s'.addr;
    forall a
      ensures Adding(s', a) <==> ParseIP(added.podIP) == Some(a)
      ensures Deleting(s', a) <==> ParseIP(removed.podIP) == Some(a)
    {
      assert Names(s', RacyKey(added), ADDITION, a) <==> ParseIP(added.podIP) == Some(a);
      assert Names(s', PodKey(removed), DELETION, a) <==> ParseIP(removed.podIP) == Some(a);
    }
    OrderFreeIff(s');
    assert DisjointTags(s') <==> ParseIP(removed.podIP) != ParseIP(added.podIP) by {
      var a := ParseIP(added.podIP).value;
      assert Adding(s', a);
    }
    if p :| p in w.cmTcp {
      assert s'.tcp[p] == ADDITION;
    }
    if p :| p in w.cmUdp {
      assert s'.udp[p] == ADDITION;
    }
  }

  // The backends a list of pods names.
  function ListedBackends(pods: seq<Pod>): set<IPv4> {
    set pod | pod in pods && IsNginx(pod) && ParseIP(pod.podIP).Some? :: ParseIP(pod.podIP).value
  }

  ghost predicate DistinctNames(pods: seq<Pod>) {
    forall i, j :: 0 <= i < j < |pods| ==> pods[i].name != pods[j].name
  }

  function AddKey(pod: Pod): string { ADDITION + "_" + pod.name }

  lemma {:induction false} ListedFrom(pods: seq<Pod>, addr: map<string, string>)
    requires DistinctNames(pods)
    requires forall pod :: pod in pods && IsNginx(pod) ==> AcceptsIPv4(pod.podIP)
    ensures var (err, r) := ListedAddrs(pods, addr);
            && !err
            && (forall pod :: pod in pods && IsNginx(pod) ==> AddKey(pod) in r && r[AddKey(pod)] == pod.podIP)
            && (forall k :: k in r ==>
                  || (k in addr && r[k] == addr[k])
                  || exists pod :: pod in pods && IsNginx(pod) && k == AddKey(pod) && r[k] == pod.podIP)
            && (forall k :: k in addr && (forall pod :: pod in pods && IsNginx(pod) ==> k != AddKey(pod)) ==>
                  k in r && r[k] == addr[k])
    decreases |pods|
  {
    if pods != [] {
      var first, rest := pods[0], pods[1..];
      assert forall pod :: pod in pods <==> pod == first || pod in rest;
      if IsNginx(first) {
        ListedFrom(rest, addr[AddKey(first) := first.podIP]);
        forall pod | pod in rest
          ensures AddKey(pod) != AddKey(first)
        {
          KeysDiffer(pod, first);
        }
      } else {
        ListedFrom(rest, addr);
      }
    }
  }

  lemma KeysDiffer(p: Pod, q: Pod)
    requires p.name != q.name
    ensures AddKey(p) != AddKey(q)
  {
    assert p.name == AddKey(p)[|ADDITION| + 1..];
    assert q.name == AddKey(q)[|ADDITION| + 1..];
  }

  lemma {:induction false} ReadableIsListed(pods: seq<Pod>, addr: map<string, string>)
    ensures ListedAddrs(pods, addr) == (|Readable(pods)| < |pods|, ListedAddrs(Readable(pods), addr).1)
    decreases |pods|
  {
    if pods != [] && !BadPod(pods[0]) {
      var key := ADDITION + "_" + pods[0].name;
      ReadableIsListed(pods[1..], if IsNginx(pods[0]) then addr[key := pods[0].podIP] else addr);
      assert Readable(pods)[1..] == Readable(pods[1..]);
    }
  }

  // What listNginx leaves, for any list of pods, in terms of their names.
  lemma ListedIffGood(pods: seq<Pod>)
    ensures ListedAddrs(pods, map[]).0 <==> exists pod :: pod in pods && BadPod(pod)
    ensures DistinctNames(pods) ==> ListsPods(Readable(pods), ListedAddrs(pods, map[]).1)
  {
    var r := Readable(pods);
    ReadableIsListed(pods, map[]);
    if |r| == |pods| {
      assert r == pods;
    } else {
      assert pods[|r|] in pods;
    }
    if DistinctNames(pods) {
      assert forall i :: 0 <= i < |r| ==> r[i] == pods[i];
      ListedFrom(r, map[]);
      ReadableListsPods(r, ListedAddrs(r, map[]).1);
    }
  }

  lemma ReadableListsPods(r: seq<Pod>, addr: map<string, string>)
    requires DistinctNames(r)
    requires forall pod :: pod in r && IsNginx(pod) ==> AddKey(pod) in addr && addr[AddKey(pod)] == pod.podIP
    requires forall k :: k in addr ==> exists pod :: pod in r && IsNginx(pod) && k == AddKey(pod)
    ensures ListsPods(r, addr)
  {
    forall pod | pod in r
      ensures IsNginx(pod) <==> Named(pod)
      ensures AddKey(pod) == "adding_" + pod.name
      ensures AddKey(pod) in addr ==> IsNginx(pod)
    {
      ContainsIff(pod.name, NGINX_PATTERN);
      if AddKey(pod) in addr {
        var other :| other in r && IsNginx(other) && AddKey(pod) == AddKey(other);
        if other.name != pod.name {
          KeysDiffer(pod, other);
        }
      }
    }
  }

  // Without a bad address, listNginx yields exactly the listed backends,
  // which is what the pipeline asks of a listing.
  lemma ListingIsExact(pods: seq<Pod>, addr: map<string, string>)
    requires DistinctNames(pods)
    requires forall pod :: pod in pods && IsNginx(pod) ==> ParseIP(pod.podIP).Some?
    ensures !AddrsAfter(Some(pods), addr).0
    ensures Lists(AddrsAfter(Some(pods), addr).1, ListedBackends(pods))
  {
    TagsDiffer();
    forall pod | pod in pods && IsNginx(pod)
      ensures AcceptsIPv4(pod.podIP)
      ensures Tag(AddKey(pod)) == ADDITION
    {
      ParsesIsAccepted(pod.podIP);
      TagOfKey(ADDITION, pod.name);
    }
    ListedFrom(pods, map[]);
  }

  // When one configmap alone matches the service, the two readers of its keys
  // agree: the set updatePorts stages from nothing is the set listCm lists.
  lemma ReadersAgree(cms: seq<ConfigMap>, cm: ConfigMap, service: string)
    requires cm in cms && cm.name == service
    requires forall other :: other in cms && Contains(other.name, service) ==> other == cm
    ensures ServicePorts(cms, service) == AcceptedPorts(cm.data.Keys)
  {
    assert StartsAt(service, 0, service);
  }

  // Both readers on one configmap: with only good keys the two maps get the
  // same ports, for any orders of the keys; bad keys cost updatePorts nothing
  // but can cost listCm accepted ports.
  method ReadBothWays(cm: ConfigMap) returns (staged: PortMap, listed: PortMap, err: bool)
    ensures staged.m.Keys == AcceptedPorts(cm.data.Keys)
    ensures listed.m.Keys <= staged.m.Keys
    ensures err <==> exists k :: k in cm.data.Keys && !AcceptsPort(k)
    ensures !err ==> listed.m.Keys == staged.m.Keys
  {
    var lbc := new LoadBalancerController("", Config(IPv4(0, 0, 0, 0), "rr", 0));
    lbc.StageKeys(cm.data.Keys, lbc.NwTcp, PROTO_TCP);
    err := lbc.ReadPorts(cm.data.Keys, lbc.plbdata.Tcp);
    staged, listed := lbc.NwTcp, lbc.plbdata.Tcp;
  }
}
