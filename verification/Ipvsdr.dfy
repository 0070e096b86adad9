// The IPVS provider (pkg/provider/ipvs/ipvsdr.go): scan the kernel's lists,
// then change one service or destination at a time, returning early on errors.
module Ipvsdr {
  import opened Wrappers
  import opened Text
  import opened Libipvs
  import opened TableView

  const PROTO_TCP := "tcp"
  const PROTO_UDP := "udp"

  function ProtocolOf(proto: string): Option<Protocol> {
    if proto == PROTO_UDP then Some(UDP)
    else if proto == PROTO_TCP then Some(TCP)
    else None
  }

  ghost predicate Served(t: Table, id: SvcId) { exists x :: x in Triples(t) && IdOf(x) == id }

  // What Add may do to the table: create the service, then insert the triple;
  // each part can be missing when a call fails.
  ghost predicate AddOutcome(t: Table, t': Table, x: Triple, clean: bool, err: bool) {
    && (Triples(t') == Triples(t) || Triples(t') == Triples(t) + {x})
    && (Ids(t') == Ids(t) || Ids(t') == Ids(t) + {IdOf(x)})
    && (if err then t' == t else IdOf(x) in Ids(t'))
    && (clean ==> !err && Triples(t') == Triples(t) + {x})
  }

  // What Add may do with a port or address that libipvs cannot send.
  ghost predicate UnsendableAdd(t: Table, t': Table, id: SvcId, clean: bool, r: Outcome) {
    && Triples(t') == Triples(t)
    && (Ids(t') == Ids(t) || (id.port != 0 && Ids(t') == Ids(t) + {id}))
    && (r.Failed? ==> t' == t)
    && (clean ==> r.Panicked?)
  }

  // What Del may do: remove the triple, then the service if that left it empty.
  ghost predicate DelOutcome(t: Table, t': Table, x: Triple, clean: bool) {
    && (Triples(t') == Triples(t) || Triples(t') == Triples(t) - {x})
    && (Ids(t') == Ids(t) || (Ids(t') == Ids(t) - {IdOf(x)} && !Served(t', IdOf(x))))
    && (x !in Triples(t) ==> t' == t)
    && (clean ==> Triples(t') == Triples(t) - {x})
    && (clean && x in Triples(t) ==> (IdOf(x) in Ids(t') <==> Served(t', IdOf(x))))
  }

  // What DelRServer may do to one service: remove its triple with that
  // address, then the service if it is empty.
  ghost predicate PurgeOutcome(t: Table, t': Table, id: SvcId, a: Option<IPv4>, err: bool) {
    && Triples(t') <= Triples(t)
    && (forall x :: x in Triples(t) && x !in Triples(t') ==> IdOf(x) == id && a == Some(x.address))
    && (Ids(t') == Ids(t) || Ids(t') == Ids(t) - {id})
    && (!err ==> forall x :: x in Triples(t') && IdOf(x) == id ==> a != Some(x.address))
    && (!err ==> (id in Ids(t') <==> Served(t', id)))
  }

  // What DelRServer may do: only triples of that address go, and without an
  // error all of them are gone and no service is left empty, whoever left it so.
  ghost predicate DelRServerOutcome(cfg: Config, t: Table, t': Table, a: Option<IPv4>, err: bool) {
    && Triples(t') <= Triples(t)
    && (forall x :: x in Triples(t) && x !in Triples(t') ==> a == Some(x.address))
    && Ids(t') <= Ids(t)
    && (!err ==> (forall x :: x in Triples(t') ==> a != Some(x.address)) && Canonical(cfg, t'))
  }

  // DelRServer on its way: `left` are the services its loop has yet to visit.
  ghost predicate PurgeProgress(t0: Table, t: Table, left: set<SvcId>, a: Option<IPv4>) {
    && left <= Ids(t) <= Ids(t0)
    && Triples(t) <= Triples(t0)
    && (forall x :: x in Triples(t0) && x !in Triples(t) ==> a == Some(x.address))
    && (forall x :: x in Triples(t) && IdOf(x) !in left ==> a != Some(x.address))
    && (forall id :: id in Ids(t) && id !in left ==> Served(t, id))
  }

  lemma PurgeStep(t0: Table, t: Table, t': Table, left: set<SvcId>, id: SvcId, a: Option<IPv4>, err: bool)
    requires PurgeProgress(t0, t, left, a) && PurgeOutcome(t, t', id, a, err) && id in left
    ensures Triples(t') <= Triples(t0) && Ids(t') <= Ids(t0)
    ensures forall x :: x in Triples(t0) && x !in Triples(t') ==> a == Some(x.address)
    ensures !err ==> PurgeProgress(t0, t', left - {id}, a)
  {
    if !err {
      forall other | other in Ids(t') && other !in left
        ensures Served(t', other)
      {
        var x :| x in Triples(t) && IdOf(x) == other;
        assert x in Triples(t');
      }
    }
  }

  // What an operation in which a call failed was about.
  datatype Failure = OnTriple(x: Triple) | OnAddress(a: IPv4)

  class LvsManager {
    const handle: Handle
    const cfg: Config
    ghost var failures: seq<Failure> // one for each such operation

    constructor (cfg: Config)
      ensures fresh(handle) && handle.table == [] && this.cfg == cfg && Valid()
    {
      handle := new Handle();
      this.cfg := cfg;
      failures := [];
    }

    ghost predicate Valid()
      reads handle
    {
      WellFormed(cfg, handle.table)
    }

    // So whatever was run, every service carries the configured settings.
    lemma ValidIsConfigured()
      requires Valid()
      ensures Configured(cfg, handle.table)
    {
      WellFormedConfigured(cfg, handle.table);
    }

    ghost function View(): set<Triple>
      reads handle
    {
      Triples(handle.table)
    }

    // With firewall marking off; None is the error for an unknown protocol.
    function Base(daddr: string, dport: Port, proto: string): (r: Option<(Service, Destination)>)
      ensures r.Some? <==> proto == "tcp" || proto == "udp"
      ensures r.Some? ==>
                var svc := r.value.0;
                && svc.address == cfg.vip && svc.protocol == (if proto == "tcp" then TCP else UDP) && svc.port == dport
                && svc.schedName == cfg.schedName && svc.timeout == cfg.timeout && svc.fwMark == 0
      ensures r.Some? ==> r.value.1 == Destination(ParseIP(daddr), dport)
      ensures r.Some? ==> forall ip :: daddr == Dotted(ip) ==> r.value.1 == Destination(Some(ip), dport)
    {
      var protocol := ProtocolOf(proto);
      if protocol == None then None
      else
        assert forall ip :: daddr == Dotted(ip) ==> ParseIP(daddr) == Some(ip) by {
          forall ip | daddr == Dotted(ip)
            ensures ParseIP(daddr) == Some(ip)
          {
            AddressRoundTrip(ip);
          }
        }
        Some((BaseService(cfg, protocol.value, dport), Destination(ParseIP(daddr), dport)))
    }

    // The entry for a failure in an operation on one triple.
    static ghost function TripleFailure(daddr: string, dport: Port, proto: string, failed: bool): seq<Failure> {
      if failed && ProtocolOf(proto).Some? && ParseIP(daddr).Some? then
        [OnTriple(Triple(ProtocolOf(proto).value, dport, ParseIP(daddr).value))]
      else []
    }

    // A port or address that libipvs cannot send makes Add panic, unless a
    // failing call stops it first; by then it can have created the service.
    method Add(daddr: string, dport: Port, proto: string) returns (r: Outcome)
      requires Valid()
      modifies handle`table, handle`faults, `failures
      ensures Valid() && Configured(cfg, handle.table)
      ensures ProtocolOf(proto) == None ==>
                r.Failed? && handle.table == old(handle.table) && handle.faults == old(handle.faults)
      ensures ProtocolOf(proto).Some? && dport != 0 && ParseIP(daddr).Some? ==>
                var x := Triple(ProtocolOf(proto).value, dport, ParseIP(daddr).value);
                && !r.Panicked?
                && AddOutcome(old(handle.table), handle.table, x, handle.faults == old(handle.faults), r.Failed?)
      ensures ProtocolOf(proto).Some? && (dport == 0 || ParseIP(daddr) == None) ==>
                UnsendableAdd(old(handle.table), handle.table, SvcId(ProtocolOf(proto).value, dport),
                              handle.faults == old(handle.faults), r)
      ensures old(handle.faults) <= handle.faults <= old(handle.faults) + (if r.Panicked? then 0 else 1)
      ensures failures == old(failures) + TripleFailure(daddr, dport, proto, handle.faults != old(handle.faults))
    {
      ghost var faults := handle.faults;
      var base := Base(daddr, dport, proto);
      if base == None {
        ValidIsConfigured();
        return Failed;
      }
      var (svc, dst) := base.value;
      r := EnsureService(svc);
      if r.Done? {
        r := EnsureDestination(svc, dst);
        r := if r.Panicked? then r else Done; // a failure is logged only
      }
      failures := failures + TripleFailure(daddr, dport, proto, handle.faults != faults);
      ValidIsConfigured();
    }

    // On such a port or address Del always panics, and changes nothing.
    method Del(daddr: string, dport: Port, proto: string) returns (r: Outcome)
      requires Valid()
      modifies handle`table, handle`faults, `failures
      ensures Valid() && Configured(cfg, handle.table)
      ensures r.Failed? <==> ProtocolOf(proto) == None
      ensures r.Panicked? <==> ProtocolOf(proto).Some? && (dport == 0 || ParseIP(daddr) == None)
      ensures !r.Done? ==> handle.table == old(handle.table)
      ensures r.Done? ==>
                var x := Triple(ProtocolOf(proto).value, dport, ParseIP(daddr).value);
                DelOutcome(old(handle.table), handle.table, x, handle.faults == old(handle.faults))
      ensures old(handle.faults) <= handle.faults <= old(handle.faults) + (if r.Done? then 1 else 0)
      ensures failures == old(failures) + TripleFailure(daddr, dport, proto, handle.faults != old(handle.faults))
    {
      ghost var faults := handle.faults;
      var base := Base(daddr, dport, proto);
      if base == None {
        ValidIsConfigured();
        return Failed;
      }
      var (svc, dst) := base.value;
      r := DeleteDestination(svc, dst);
      r := if r.Panicked? then r else Done; // a failure is logged only
      failures := failures + TripleFailure(daddr, dport, proto, handle.faults != faults);
      ValidIsConfigured();
    }

    // It stops at the first call that fails.
    method DelRServer(addr: string) returns (err: bool)
      requires Valid()
      modifies handle`table, handle`faults, `failures
      ensures Valid() && Configured(cfg, handle.table)
      ensures DelRServerOutcome(cfg, old(handle.table), handle.table, ParseIP(addr), err)
      ensures handle.faults == old(handle.faults) + (if err then 1 else 0)
      ensures failures == old(failures) + (if err && ParseIP(addr).Some? then [OnAddress(ParseIP(addr).value)] else [])
    {
      err := PurgeAll(addr);
      failures := failures + (if err && ParseIP(addr).Some? then [OnAddress(ParseIP(addr).value)] else []);
      ValidIsConfigured();
    }

    method PurgeAll(addr: string) returns (err: bool)
      requires Valid()
      modifies handle`table, handle`faults
      ensures Valid()
      ensures DelRServerOutcome(cfg, old(handle.table), handle.table, ParseIP(addr), err)
      ensures handle.faults == old(handle.faults) + (if err then 1 else 0)
    {
      ghost var t0 := handle.table;
      var svcs;
      err, svcs := handle.ListServices();
      if err {
        return;
      }
      assert t0[0..] == t0;
      for k := 0 to |svcs|
        invariant Valid() && handle.faults == old(handle.faults)
        invariant PurgeProgress(t0, handle.table, Ids(t0[k..]), ParseIP(addr))
      {
        ghost var before := handle.table;
        assert EntryOk(cfg, t0[k]);
        IdsFromTo(cfg, t0, k);
        err := PurgeService(svcs[k], addr);
        PurgeStep(t0, before, handle.table, Ids(t0[k..]), EntryId(t0[k]), ParseIP(addr), err);
        if err {
          return;
        }
        assert Ids(t0[k..]) - {EntryId(t0[k])} == Ids(t0[k + 1..]);
      }
      assert Ids(t0[|svcs|..]) == {};
      ServedIsCanonical(cfg, handle.table);
    }

    // One turn of DelRServer's loop over the services.
    method PurgeService(s: Service, addr: string) returns (err: bool)
      requires Valid()
      requires SvcId(s.protocol, s.port) in Ids(handle.table) && s == BaseService(cfg, s.protocol, s.port)
      modifies handle`table, handle`faults
      ensures Valid()
      ensures PurgeOutcome(old(handle.table), handle.table, SvcId(s.protocol, s.port), ParseIP(addr), err)
      ensures handle.faults == old(handle.faults) + (if err then 1 else 0)
    {
      ghost var t0 := handle.table;
      ghost var id := SvcId(s.protocol, s.port);
      FindService(cfg, t0, id);
      assert EntryOk(cfg, t0[IndexOf(t0, s)]);
      var listed, dsts := handle.ListDestinations(s);
      if listed.Failed? {
        return true;
      }
      err := DeleteMatching(s, dsts, addr);
      if err {
        return;
      }
      err := DeleteDeadSvc(s); // the same list-again-and-delete step
    }

    // The inner loop: delete the listed destinations with that address.
    method DeleteMatching(s: Service, dsts: seq<Destination>, addr: string) returns (err: bool)
      requires Valid() && s == BaseService(cfg, s.protocol, s.port) && s.port != 0
      requires HasService(handle.table, s) && dsts == DstsOf(handle.table, s)
      modifies handle`table, handle`faults
      ensures Valid() && Ids(handle.table) == old(Ids(handle.table))
      ensures View() <= old(View())
      ensures forall x :: x in old(View()) && x !in View() ==>
                IdOf(x) == SvcId(s.protocol, s.port) && ParseIP(addr) == Some(x.address)
      ensures !err ==> forall x :: x in View() && IdOf(x) == SvcId(s.protocol, s.port) ==>
                         ParseIP(addr) != Some(x.address)
      ensures handle.faults == old(handle.faults) + (if err then 1 else 0)
    {
      ghost var t0 := handle.table;
      ghost var target := Destination(ParseIP(addr), s.port);
      ghost var hit := if ParseIP(addr) == None then {} else {Triple(s.protocol, s.port, ParseIP(addr).value)};
      assert EntryOk(cfg, t0[IndexOf(t0, s)]);
      forall x | x in hit
        ensures x in Triples(t0) <==> target in dsts
      {
        FindDestination(cfg, t0, x);
      }
      for j := 0 to |dsts|
        invariant Valid() && Ids(handle.table) == Ids(t0) && handle.faults == old(handle.faults)
        invariant View() == if target in dsts[..j] then Triples(t0) - hit else Triples(t0)
      {
        var d := dsts[j];
        assert target in dsts[..j + 1] <==> target in dsts[..j] || d == target;
        if d.address == ParseIP(addr) {
          ghost var x := Triple(s.protocol, s.port, d.address.value);
          assert hit == {x} && x in View();
          WithoutDestinationView(cfg, handle.table, x);
          var deleted := handle.DelDestination(s, d);
          if deleted.Failed? {
            return true;
          }
        }
      }
      assert dsts[..|dsts|] == dsts;
      err := false;
    }

    method EnsureService(svc: Service) returns (r: Outcome)
      requires Valid() && svc == BaseService(cfg, svc.protocol, svc.port)
      modifies handle`table, handle`faults
      ensures Valid() && View() == old(View())
      ensures !r.Done? ==> handle.table == old(handle.table)
      ensures r.Done? ==> Ids(handle.table) == old(Ids(handle.table)) + {SvcId(svc.protocol, svc.port)}
      ensures !r.Failed? ==> r == if svc.port == 0 then Panicked else Done
      ensures handle.faults == old(handle.faults) + (if r.Failed? then 1 else 0)
    {
      ghost var id := SvcId(svc.protocol, svc.port);
      var err, svcs := handle.ListServices();
      if err {
        return Failed;
      }
      for k := 0 to |svcs|
        invariant forall m :: 0 <= m < k ==> EntryId(handle.table[m]) != id
      {
        if svcs[k].port == svc.port && svcs[k].protocol == svc.protocol {
          assert EntryId(handle.table[k]) == id;
          assert EntryOk(cfg, handle.table[k]);
          return Done;
        }
      }
      FindService(cfg, handle.table, id);
      if svc.port != 0 {
        WithServiceView(cfg, handle.table, id);
      }
      r := handle.NewService(svc);
    }

    // EnsureService has made sure of the service, hence of a port.
    method EnsureDestination(svc: Service, dst: Destination) returns (r: Outcome)
      requires Valid() && svc == BaseService(cfg, svc.protocol, svc.port)
      requires SvcId(svc.protocol, svc.port) in Ids(handle.table) && dst.port == svc.port
      modifies handle`table, handle`faults
      ensures Valid() && Ids(handle.table) == old(Ids(handle.table))
      ensures !r.Done? ==> handle.table == old(handle.table)
      ensures r.Done? ==> dst.address.Some? &&
                          View() == old(View()) + {Triple(svc.protocol, svc.port, dst.address.value)}
      ensures !r.Failed? ==> r == if dst.address == None then Panicked else Done
      ensures handle.faults == old(handle.faults) + (if r.Failed? then 1 else 0)
    {
      ghost var id := SvcId(svc.protocol, svc.port);
      FindService(cfg, handle.table, id);
      assert EntryOk(cfg, handle.table[IndexOf(handle.table, svc)]);
      if dst.address.Some? {
        FindDestination(cfg, handle.table, Triple(svc.protocol, svc.port, dst.address.value));
      }
      var dsts;
      r, dsts := handle.ListDestinations(svc);
      if !r.Done? {
        return;
      }
      for k := 0 to |dsts|
        invariant dst !in dsts[..k]
      {
        if dsts[k].address == dst.address && dsts[k].port == dst.port {
          assert dsts[k] == dst;
          return Done;
        }
      }
      if dst.address.Some? {
        WithDestinationView(cfg, handle.table, Triple(svc.protocol, svc.port, dst.address.value));
      }
      r := handle.NewDestination(svc, dst);
    }

    method DeleteDestination(svc: Service, dst: Destination) returns (r: Outcome)
      requires Valid() && svc == BaseService(cfg, svc.protocol, svc.port) && dst.port == svc.port
      modifies handle`table, handle`faults
      ensures Valid()
      ensures r.Panicked? <==> svc.port == 0 || dst.address == None
      ensures r.Panicked? ==> handle.table == old(handle.table)
      ensures !r.Panicked? ==>
                DelOutcome(old(handle.table), handle.table, Triple(svc.protocol, svc.port, dst.address.value),
                           handle.faults == old(handle.faults))
      ensures old(handle.faults) <= handle.faults <= old(handle.faults) + (if r.Failed? then 1 else 0)
    {
      if dst.address.Some? {
        ghost var x := Triple(svc.protocol, svc.port, dst.address.value);
        FindDestination(cfg, handle.table, x);
        if x in View() {
          WithoutDestinationView(cfg, handle.table, x);
          TripleIn(cfg, handle.table, x);
        }
      }
      r := handle.DelDestination(svc, dst);
      if !r.Done? {
        return;
      }
      var err := DeleteDeadSvc(svc);
      r := if err then Failed else Done;
    }

    method DeleteDeadSvc(svc: Service) returns (err: bool)
      requires Valid()
      requires SvcId(svc.protocol, svc.port) in Ids(handle.table) && svc == BaseService(cfg, svc.protocol, svc.port)
      modifies handle`table, handle`faults
      ensures Valid() && View() == old(View())
      ensures var id := SvcId(svc.protocol, svc.port);
              && (Ids(handle.table) == old(Ids(handle.table)) ||
                  (Ids(handle.table) == old(Ids(handle.table)) - {id} && !Served(handle.table, id)))
              && (!err ==> (id in Ids(handle.table) <==> Served(handle.table, id)))
      ensures handle.faults == old(handle.faults) + (if err then 1 else 0)
    {
      ghost var id := SvcId(svc.protocol, svc.port);
      EmptyService(cfg, handle.table, id);
      var port := svc.port;
      assert port != 0 by {
        FindService(cfg, handle.table, id);
        assert EntryOk(cfg, handle.table[IndexOf(handle.table, svc)]);
      }
      var listed, dsts := handle.ListDestinations(svc);
      if listed.Failed? {
        return true;
      }
      err := false;
      if |dsts| == 0 {
        WithoutServiceView(cfg, handle.table, id);
        var deleted := handle.DelService(svc);
        err := deleted.Failed?;
      }
    }
  }

  lemma ServedIsCanonical(cfg: Config, t: Table)
    requires WellFormed(cfg, t)
    ensures Canonical(cfg, t) <==> forall id :: id in Ids(t) ==> Served(t, id)
  {
    CanonicalIff(cfg, t);
    forall x | x in Triples(t)
      ensures IdOf(x) in Ids(t)
    {
      TripleIn(cfg, t, x);
    }
  }

  // ------------------------------------------------- laws of the three operations

  // With no failing call, Add and Del keep the table canonical.
  lemma AddKeepsCanonical(cfg: Config, t: Table, t': Table, x: Triple)
    requires Canonical(cfg, t) && WellFormed(cfg, t') && AddOutcome(t, t', x, true, false)
    ensures Canonical(cfg, t')
    ensures Ids(t') == Ids(t) + {IdOf(x)}
  {
    ServedIsCanonical(cfg, t);
    forall id | id in Ids(t')
      ensures Served(t', id)
    {
      if id in Ids(t) {
        var y :| y in Triples(t) && IdOf(y) == id;
        assert y in Triples(t');
      } else {
        assert x in Triples(t') && IdOf(x) == id;
      }
    }
    ServedIsCanonical(cfg, t');
  }

  lemma DelKeepsCanonical(cfg: Config, t: Table, t': Table, x: Triple)
    requires Canonical(cfg, t) && WellFormed(cfg, t') && DelOutcome(t, t', x, true)
    ensures Canonical(cfg, t')
  {
    ServedIsCanonical(cfg, t);
    forall id | id in Ids(t')
      ensures Served(t', id)
    {
      if id != IdOf(x) || x !in Triples(t) {
        var y :| y in Triples(t) && IdOf(y) == id;
        assert y in Triples(t');
      }
    }
    ServedIsCanonical(cfg, t');
  }

  // Del undoes Add, services included.
  lemma DelUndoesAdd(cfg: Config, t: Table, t': Table, t'': Table, x: Triple)
    requires Canonical(cfg, t) && WellFormed(cfg, t') && WellFormed(cfg, t'') && x !in Triples(t)
    requires AddOutcome(t, t', x, true, false) && DelOutcome(t', t'', x, true)
    ensures Triples(t'') == Triples(t) && Ids(t'') == Ids(t)
  {
    AddKeepsCanonical(cfg, t, t', x);
    DelKeepsCanonical(cfg, t', t'', x);
    CanonicalIff(cfg, t);
    CanonicalIff(cfg, t'');
  }

  // Whatever failed before, a later DelRServer without an error ends where a
  // single clean run would have ended.
  lemma CleanRunRecovers(cfg: Config, t: Table, faulty: Table, after: Table, clean: Table, a: Option<IPv4>, err: bool)
    requires DelRServerOutcome(cfg, t, faulty, a, err)
    requires DelRServerOutcome(cfg, faulty, after, a, false)
    requires DelRServerOutcome(cfg, t, clean, a, false)
    ensures Triples(clean) <= Triples(faulty) <= Triples(t)
    ensures Triples(after) == Triples(clean) && Ids(after) == Ids(clean)
  {
    forall x
      ensures x in Triples(after) <==> x in Triples(clean)
      ensures x in Triples(clean) ==> x in Triples(faulty)
    {
    }
    CanonicalIff(cfg, after);
    CanonicalIff(cfg, clean);
  }

  // An Add whose destination insert failed leaves an empty service behind,
  // which a later DelRServer of any address, even an unparsable one, clears.
  lemma FailedAddIsCleared(cfg: Config, t: Table, t': Table, t'': Table, x: Triple, a: Option<IPv4>)
    requires Canonical(cfg, t) && WellFormed(cfg, t') && IdOf(x) !in Ids(t)
    requires AddOutcome(t, t', x, false, false) && Triples(t') == Triples(t)
    requires DelRServerOutcome(cfg, t', t'', a, false)
    ensures !Canonical(cfg, t') && IdOf(x) in Ids(t') && IdOf(x) !in Ids(t'')
    ensures Canonical(cfg, t'')
  {
    CanonicalIff(cfg, t);
    CanonicalIff(cfg, t');
    CanonicalIff(cfg, t'');
  }
}
