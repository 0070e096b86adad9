// Pod events where the code departs from its evident intent: for each
// departure, exactly when it does no harm.
module PodDepartures {
  import opened Wrappers
  import opened Text
  import opened Libipvs
  import opened TableView
  import opened Ports
  import opened Staging
  import opened Batch
  import opened Queue
  import opened Pipeline
  import opened Controller
  import opened PortDepartures

  // ------------------------------------------------- two pod events in a row

  // A pod event that changes nothing wanted: the address is announced already, or
  // gone already, or there are no ports.
  predicate NoNews(w: World, step: Step)
    requires (step.PodAdded? || step.PodRemoved?) && ParseIP(step.text).Some?
  {
    (ParseIP(step.text).value in w.backends) == step.PodAdded? || (w.cmTcp == {} && w.cmUdp == {})
  }

  // Two pod events before a worker runs, on a table in step: nothing is lost
  // exactly when they are about one address or the first was no news.
  lemma SecondPodEventIff(w: World, first: Step, second: Step)
    requires w.data.queue == [] && w.data.table == Wanted(w) && 0 !in w.cmTcp && 0 !in w.cmUdp
    requires PodOk(first) && PodOk(second)
    ensures var x := PodEvent(w.data, PodStore(w, first.key, first.text));
            var x' := PodEvent(x, PodStore(w, second.key, second.text));
            Pending(x') == Desired(w.cmTcp, w.cmUdp, PodBackends(PodBackends(w.backends, first), second)) <==>
            ParseIP(first.text) == ParseIP(second.text) || NoNews(w, first)
  {
    var s := PodStore(w, second.key, second.text);
    QueueOfTwoPods(w.data, PodStore(w, first.key, first.text), s);
    AllProcessed(w, second);
    if ParseIP(first.text) != ParseIP(second.text) && !NoNews(w, first) {
      var lost := Affected(w, first);
      DesiredAt(w.cmTcp, w.cmUdp, PodBackends(PodBackends(w.backends, first), second), lost);
      DesiredAt(w.cmTcp, w.cmUdp, PodBackends(w.backends, second), lost);
    } else {
      FirstForgotten(w, first, second);
    }
  }

  // That is exactly when the hypotheses of the pipeline let the second in.
  lemma SecondPodAllowedIff(w: World, first: Step, second: Step)
    requires Invariant(w) && w.data.queue == [] && PodOk(first) && PodOk(second)
    ensures Allowed(w, first)
    ensures Allowed(Next(w, first), second) <==> ParseIP(first.text) == ParseIP(second.text) || NoNews(w, first)
  {
    StepKeepsInvariant(w, first);
    PodAllowedIff(Next(w, first), second);
    SecondPodEventIff(w, first, second);
  }

  // A pod event is allowed exactly when it leaves pending what is wanted then.
  lemma PodAllowedIff(w: World, step: Step)
    requires Invariant(w) && PodOk(step)
    ensures Allowed(w, step) <==>
            Pending(PodEvent(w.data, PodStore(w, step.key, step.text))) ==
            Desired(w.cmTcp, w.cmUdp, PodBackends(w.backends, step))
  {
    var s := PodStore(w, step.key, step.text);
    AllProcessed(w, step);
    RewriteNowIff(w.data.queue, w.data.stores, w.data.table, Plb, s);
  }

  lemma AllProcessed(w: World, step: Step)
    requires PodOk(step) && 0 !in w.cmTcp && 0 !in w.cmUdp
    ensures Process(PodStore(w, step.key, step.text), Wanted(w)) ==
            Desired(w.cmTcp, w.cmUdp, PodBackends(w.backends, step))
  {
    forall x
      ensures x in Process(PodStore(w, step.key, step.text), Wanted(w)) <==>
              x in Desired(w.cmTcp, w.cmUdp, PodBackends(w.backends, step))
    {
      PodStoreProcessed(w, step, x);
    }
  }

  lemma QueueOfTwoPods(x: Data, s: Store, s': Store)
    requires x.queue == []
    ensures Pending(PodEvent(PodEvent(x, s), s')) == Process(s', x.table)
  {
    var x' := PodEvent(PodEvent(x, s), s');
    assert x'.queue == [Plb, Plb];
    QueueCollapses([Plb, Plb], x'.stores, x.table);
  }

  lemma FirstForgotten(w: World, first: Step, second: Step)
    requires PodOk(first) && PodOk(second)
    requires ParseIP(first.text) == ParseIP(second.text) || NoNews(w, first)
    ensures Desired(w.cmTcp, w.cmUdp, PodBackends(PodBackends(w.backends, first), second)) ==
            Desired(w.cmTcp, w.cmUdp, PodBackends(w.backends, second))
  {
    if w.cmTcp != {} || w.cmUdp != {} {
      assert PodBackends(PodBackends(w.backends, first), second) == PodBackends(w.backends, second);
    }
  }

  // News about an address changes whether some triple of it is wanted.
  lemma Affected(w: World, step: Step) returns (x: Triple)
    requires PodOk(step) && !NoNews(w, step)
    ensures x.address == ParseIP(step.text).value && x.port in (if x.protocol == TCP then w.cmTcp else w.cmUdp)
  {
    if p :| p in w.cmTcp {
      x := Triple(TCP, p, ParseIP(step.text).value);
    } else {
      var q :| q in w.cmUdp;
      x := Triple(UDP, q, ParseIP(step.text).value);
    }
  }

  // ------------------------------------------------- one update, any pod, any ports

  // What addrUpdateFunc and listCm leave: the address of the pod it reads, if
  // acceptable, and the ports read so far, should listCm have failed.
  ghost function UpdateStore(pod: Pod, tcp: set<Port>, udp: set<Port>): Store {
    Store(PodAddr(pod), Tagged(tcp, ADDITION), Tagged(udp, ADDITION))
  }

  // A pod of the watched namespace; without an address nothing is published.
  ghost function Update(x: Data, pod: Pod, tcp: set<Port>, udp: set<Port>): Data {
    if pod.podIP == "" then x else PodEvent(x, UpdateStore(pod, tcp, udp))
  }

  // Publishing loses no queued work.
  ghost predicate UpdateKeeps(x: Data, pod: Pod, tcp: set<Port>, udp: set<Port>) {
    pod.podIP == "" || HarmlessNow(x.queue, x.stores, x.table, Plb, UpdateStore(pod, tcp, udp))
  }

  // The announced addresses after this pod has been heard of.
  function Heard(backends: set<IPv4>, pod: Pod): set<IPv4> {
    match ParseIP(pod.podIP)
    case None => backends
    case Some(a) => if pod.terminating then backends - {a} else backends + {a}
  }

  // Hearing of it changes nothing that is wanted.
  predicate Silent(w: World, pod: Pod) {
    Heard(w.backends, pod) == w.backends || (w.cmTcp == {} && w.cmUdp == {})
  }

  lemma UpdateTags(pod: Pod, s: Store)
    requires s.addr == PodAddr(pod)
    ensures forall a :: Adding(s, a) <==> !pod.terminating && ParseIP(pod.podIP) == Some(a)
    ensures forall a :: Deleting(s, a) <==> pod.terminating && ParseIP(pod.podIP) == Some(a)
  {
    TagsDiffer();
    TagOfKey(PodTag(pod), pod.name + "\n");
    if ParseIP(pod.podIP).Some? {
      ParsesIsAccepted(pod.podIP);
      assert PodKey(pod) in s.addr;
    }
    forall a
      ensures Adding(s, a) <==> !pod.terminating && ParseIP(pod.podIP) == Some(a)
      ensures Deleting(s, a) <==> pod.terminating && ParseIP(pod.podIP) == Some(a)
    {
      assert PodKey(pod) in s.addr ==>
          (Names(s, PodKey(pod), PodTag(pod), a) <==> ParseIP(pod.podIP) == Some(a));
    }
  }

  // The ports that were read do for what the pod asks: none are needed to
  // withdraw an address; to announce one, none may be wrong, and none may be
  // missing unless the address is served already.
  predicate PortsSuffice(w: World, pod: Pod, tcp: set<Port>, udp: set<Port>) {
    || pod.terminating
    || ParseIP(pod.podIP) == None
    || (tcp <= w.cmTcp && udp <= w.cmUdp &&
        (ParseIP(pod.podIP).value in w.backends || (tcp == w.cmTcp && udp == w.cmUdp)))
  }

  // One triple after the update.
  predicate UpdateRight(w: World, pod: Pod, tcp: set<Port>, udp: set<Port>, x: Triple) {
    var read, wanted := PortSets(tcp, udp).Of(x.protocol), PortsOfWorld(w).Of(x.protocol);
    !pod.terminating && ParseIP(pod.podIP) == Some(x.address) ==>
      (x.port in read || (x.port in wanted && x.address in w.backends) <==> x.port in wanted)
  }

  lemma UpdateRightAt(w: World, pod: Pod, tcp: set<Port>, udp: set<Port>, x: Triple)
    ensures (x in Process(UpdateStore(pod, tcp, udp), Wanted(w)) <==>
             x in Desired(w.cmTcp, w.cmUdp, Heard(w.backends, pod))) <==>
            UpdateRight(w, pod, tcp, udp, x)
  {
    TagsDiffer();
    var s := UpdateStore(pod, tcp, udp);
    UpdateTags(pod, s);
    ProcessAt(s, Wanted(w), x);
    DesiredAt(w.cmTcp, w.cmUdp, w.backends, x);
    DesiredAt(w.cmTcp, w.cmUdp, Heard(w.backends, pod), x);
  }

  lemma AllUpdatedIff(w: World, pod: Pod, tcp: set<Port>, udp: set<Port>)
    ensures (forall x :: UpdateRight(w, pod, tcp, udp, x)) <==> PortsSuffice(w, pod, tcp, udp)
  {
    if !PortsSuffice(w, pod, tcp, udp) {
      var x := WrongPort(w, tcp, udp, ParseIP(pod.podIP).value);
      assert !UpdateRight(w, pod, tcp, udp, x);
    }
  }

  lemma WrongPort(w: World, tcp: set<Port>, udp: set<Port>, a: IPv4) returns (x: Triple)
    requires !(tcp <= w.cmTcp && udp <= w.cmUdp && (a in w.backends || (tcp == w.cmTcp && udp == w.cmUdp)))
    ensures var read, wanted := PortSets(tcp, udp).Of(x.protocol), PortsOfWorld(w).Of(x.protocol);
            x.address == a && (x.port in read || (x.port in wanted && a in w.backends)) != (x.port in wanted)
  {
    if p :| p in tcp && p !in w.cmTcp {
      x := Triple(TCP, p, a);
    } else if p :| p in udp && p !in w.cmUdp {
      x := Triple(UDP, p, a);
    } else if p :| p in w.cmTcp && p !in tcp {
      x := Triple(TCP, p, a);
    } else {
      var p :| p in w.cmUdp && p !in udp;
      x := Triple(UDP, p, a);
    }
  }

  lemma UpdateProcessedIff(w: World, pod: Pod, tcp: set<Port>, udp: set<Port>)
    ensures Process(UpdateStore(pod, tcp, udp), Wanted(w)) == Desired(w.cmTcp, w.cmUdp, Heard(w.backends, pod)) <==>
            PortsSuffice(w, pod, tcp, udp)
  {
    var processed := Process(UpdateStore(pod, tcp, udp), Wanted(w));
    var target := Desired(w.cmTcp, w.cmUdp, Heard(w.backends, pod));
    forall x
      ensures (x in processed <==> x in target) <==> UpdateRight(w, pod, tcp, udp, x)
    {
      UpdateRightAt(w, pod, tcp, udp, x);
    }
    assert processed == target <==> forall x :: x in processed <==> x in target;
    AllUpdatedIff(w, pod, tcp, udp);
  }

  lemma NoAddress()
    ensures ParseIP("") == None
  {
  }

  // addrUpdateFunc publishes in spite of a failed listCm. For any pod and any
  // ports read, what is pending then is what the pod read asks for exactly when
  // the ports do.
  lemma UpdateIff(w: World, pod: Pod, tcp: set<Port>, udp: set<Port>)
    requires Invariant(w) && UpdateKeeps(w.data, pod, tcp, udp)
    ensures Pending(Update(w.data, pod, tcp, udp)) == Desired(w.cmTcp, w.cmUdp, Heard(w.backends, pod)) <==>
            PortsSuffice(w, pod, tcp, udp)
  {
    NoAddress();
    if pod.podIP != "" {
      PublishAppends(w.data, Plb, UpdateStore(pod, tcp, udp));
      UpdateProcessedIff(w, pod, tcp, udp);
    }
  }

  // ------------------------------------------------- what the event means

  lemma DesiredEqualIff(tcp: set<Port>, udp: set<Port>, backends: set<IPv4>, backends': set<IPv4>)
    ensures Desired(tcp, udp, backends) == Desired(tcp, udp, backends') <==>
            backends == backends' || (tcp == {} && udp == {})
  {
    if backends != backends' && (tcp != {} || udp != {}) {
      var a :| (a in backends) != (a in backends');
      var x: Triple;
      if p :| p in tcp {
        x := Triple(TCP, p, a);
      } else {
        var q :| q in udp;
        x := Triple(UDP, q, a);
      }
      DesiredAt(tcp, udp, backends, x);
      DesiredAt(tcp, udp, backends', x);
    }
  }

  // addrUpdateFunc looks at any pod of the namespace, listNginx only at nginx
  // pods. Starting in step with the listing, an update leaves the listed pods
  // served exactly when it agrees with the listing on its own address (listed
  // if it announces, not listed if it withdraws), or has none, or there are no
  // ports; so every pod of another name at an unlisted address breaks it.
  lemma AddressReadersIff(w: World, pod: Pod, pods: seq<Pod>)
    requires Invariant(w) && UpdateKeeps(w.data, pod, w.cmTcp, w.cmUdp)
    requires ListedBackends(pods) == w.backends
    ensures Pending(Update(w.data, pod, w.cmTcp, w.cmUdp)) == Desired(w.cmTcp, w.cmUdp, ListedBackends(pods)) <==>
            || ParseIP(pod.podIP) == None
            || (ParseIP(pod.podIP).value in ListedBackends(pods)) == !pod.terminating
            || (w.cmTcp == {} && w.cmUdp == {})
  {
    UpdateIff(w, pod, w.cmTcp, w.cmUdp);
    DesiredEqualIff(w.cmTcp, w.cmUdp, Heard(w.backends, pod), w.backends);
  }

  // The informer passes the old object first. For any two objects, what is
  // pending then is what the new object calls for exactly when the two say the
  // same of one address, or neither says anything new.
  lemma FirstArgumentIff(w: World, oldPod: Pod, newPod: Pod)
    requires Invariant(w) && UpdateKeeps(w.data, oldPod, w.cmTcp, w.cmUdp)
    ensures Pending(Update(w.data, oldPod, w.cmTcp, w.cmUdp)) ==
            Desired(w.cmTcp, w.cmUdp, Heard(w.backends, newPod)) <==>
            || (ParseIP(oldPod.podIP) == ParseIP(newPod.podIP) && oldPod.terminating == newPod.terminating)
            || (Silent(w, oldPod) && Silent(w, newPod))
  {
    UpdateIff(w, oldPod, w.cmTcp, w.cmUdp);
    DesiredEqualIff(w.cmTcp, w.cmUdp, Heard(w.backends, oldPod), Heard(w.backends, newPod));
    if Heard(w.backends, oldPod) == Heard(w.backends, newPod) && ParseIP(oldPod.podIP).Some? {
      var a := ParseIP(oldPod.podIP).value;
      assert a in Heard(w.backends, oldPod) <==> !oldPod.terminating;
    }
  }

  // Every new pod fails it: the update that brings its address has an old
  // object without one, so nothing is published and the pod is not served
  // until another event names it.
  lemma NewPodIff(w: World, oldPod: Pod, newPod: Pod)
    requires Invariant(w) && oldPod.podIP == ""
    ensures Update(w.data, oldPod, w.cmTcp, w.cmUdp) == w.data
    ensures Pending(w.data) == Desired(w.cmTcp, w.cmUdp, Heard(w.backends, newPod)) <==> Silent(w, newPod)
  {
    DesiredEqualIff(w.cmTcp, w.cmUdp, w.backends, Heard(w.backends, newPod));
  }

  // With one port configured and nothing announced:
  lemma NewPodMissed(a: IPv4, p: Port)
    requires p != 0
    ensures var w := Blank().(data := Blank().data.(tcp := Staged({p}, {})), cmTcp := {p});
            var oldPod, newPod := Pod("ingress-nginx", NGINX_PATTERN, "", false), LastPod(a).(terminating := false);
            && Invariant(w) && IsNginx(newPod) && ListedBackends([newPod]) == {a}
            && Pending(Update(w.data, oldPod, w.cmTcp, w.cmUdp)) == {}
            && Desired(w.cmTcp, w.cmUdp, Heard(w.backends, newPod)) == {Triple(TCP, p, a)}
  {
    var w := Blank().(data := Blank().data.(tcp := Staged({p}, {})), cmTcp := {p});
    var newPod := LastPod(a).(terminating := false);
    BlankInvariant();
    LastPodListed(a);
    assert forall other :: other in [newPod] <==> other == newPod;
    assert Heard(w.backends, newPod) == {a};
  }

  // ------------------------------------------------- what makes a worker panic

  // A listing puts every backend behind every changed port, so port 0 in a
  // delta makes the worker panic as soon as there is a backend.
  lemma ListedPanicsIff(s: Store, tcp: set<Port>, udp: set<Port>, backends: set<IPv4>)
    requires Lists(s.addr, backends) && DeltaSafe(s.tcp, tcp) && DeltaSafe(s.udp, udp)
    ensures Panics(s) <==> backends != {} && (0 in s.tcp || 0 in s.udp)
  {
    forall key | key in s.addr
      ensures PanicsAt(s, key) <==> 0 in s.tcp || 0 in s.udp
    {
      DeltaUnsendable(s.tcp, tcp, ParseIP(s.addr[key]).value);
      DeltaUnsendable(s.udp, udp, ParseIP(s.addr[key]).value);
    }
    if a :| a in backends {
      var key :| key in s.addr && ParseIP(s.addr[key]) == Some(a);
    }
  }

  lemma DeltaUnsendable(delta: map<Port, string>, ports: set<Port>, a: IPv4)
    requires DeltaSafe(delta, ports)
    ensures Unsendable(delta, Some(a)) <==> 0 in delta
  {
    if 0 in delta {
      assert delta[0] in delta.Values;
      assert UnsendableAt(delta, 0, Some(a));
    }
  }

  // To announce an accepted address that does not parse makes the worker panic
  // as soon as there is a port; to withdraw one never does, nor does an address
  // that was not accepted.
  lemma PodPanicsIff(pod: Pod, tcp: set<Port>, udp: set<Port>)
    ensures Panics(UpdateStore(pod, tcp, udp)) <==>
            && !pod.terminating && AcceptsIPv4(pod.podIP)
            && (0 in tcp || 0 in udp || (ParseIP(pod.podIP) == None && (tcp != {} || udp != {})))
  {
    TagsDiffer();
    TagOfKey(PodTag(pod), pod.name + "\n");
    var s, a := UpdateStore(pod, tcp, udp), ParseIP(pod.podIP);
    TaggedUnsendable(tcp, a);
    TaggedUnsendable(udp, a);
    if AcceptsIPv4(pod.podIP) {
      assert PodKey(pod) in s.addr;
      assert PanicsAt(s, PodKey(pod)) <==> !pod.terminating && (Unsendable(s.tcp, a) || Unsendable(s.udp, a));
    }
  }

  lemma TaggedUnsendable(ports: set<Port>, a: Option<IPv4>)
    ensures Unsendable(Tagged(ports, ADDITION), a) <==> 0 in ports || (a == None && ports != {})
  {
    var tagged := Tagged(ports, ADDITION);
    if 0 in ports {
      assert UnsendableAt(tagged, 0, a);
    }
    if p :| p in ports {
      assert a == None ==> UnsendableAt(tagged, p, a);
    }
  }
}
