// The kernel's IPVS table behind the libipvs handle, by the contracts of the
// calls the provider makes. Any call may fail; a call that fails changes
// nothing and is counted in `faults`. A call that is applicable and does not
// fail succeeds. A call that cannot be encoded panics before anything is sent.
module Libipvs {
  import opened Wrappers
  import opened Text

  datatype Protocol = TCP | UDP

  datatype Service = Service(
    address: IPv4, protocol: Protocol, port: Port, schedName: string, fwMark: nat, timeout: nat)

  // A nil address is what net.ParseIP leaves for a text it cannot parse.
  datatype Destination = Destination(address: Option<IPv4>, port: Port)

  datatype Entry = Entry(svc: Service, dsts: seq<Destination>)

  type Table = seq<Entry>

  // The identifying attributes of a service; the kernel keeps them unique.
  datatype ServiceKey = ByMark(mark: nat) | ByAddress(address: IPv4, protocol: Protocol, port: Port)

  function KeyOf(s: Service): ServiceKey {
    if s.fwMark != 0 then ByMark(s.fwMark) else ByAddress(s.address, s.protocol, s.port)
  }

  // A panic ends the program, unlike an error.
  datatype Outcome = Done | Failed | Panicked

  // The library panics when it has to send a service without identification
  // (no mark and port 0) or a destination without an address.
  predicate Identified(s: Service) { s.fwMark != 0 || s.port != 0 }

  predicate Sendable(s: Service, d: Destination) { Identified(s) && d.address.Some? }

  function IndexOf(t: Table, s: Service): (i: nat)
    ensures i <= |t|
    ensures i < |t| ==> KeyOf(t[i].svc) == KeyOf(s)
    ensures forall j :: 0 <= j < i ==> KeyOf(t[j].svc) != KeyOf(s)
  {
    if t == [] || KeyOf(t[0].svc) == KeyOf(s) then 0 else 1 + IndexOf(t[1..], s)
  }

  function DstIndexOf(dsts: seq<Destination>, d: Destination): (j: nat)
    ensures j <= |dsts|
    ensures j < |dsts| ==> dsts[j] == d
    ensures forall k :: 0 <= k < j ==> dsts[k] != d
  {
    if dsts == [] || dsts[0] == d then 0 else 1 + DstIndexOf(dsts[1..], d)
  }

  predicate HasService(t: Table, s: Service) { IndexOf(t, s) < |t| }

  function DstsOf(t: Table, s: Service): seq<Destination>
    requires HasService(t, s)
  {
    t[IndexOf(t, s)].dsts
  }

  predicate HasDestination(t: Table, s: Service, d: Destination) {
    HasService(t, s) && DstIndexOf(DstsOf(t, s), d) < |DstsOf(t, s)|
  }

  function Services(t: Table): seq<Service> {
    seq(|t|, i requires 0 <= i < |t| => t[i].svc)
  }

  function WithService(t: Table, s: Service): Table { t + [Entry(s, [])] }

  function WithoutService(t: Table, s: Service): Table
    requires HasService(t, s)
  {
    var i := IndexOf(t, s);
    t[..i] + t[i + 1..]
  }

  function WithDestination(t: Table, s: Service, d: Destination): Table
    requires HasService(t, s)
  {
    var i := IndexOf(t, s);
    t[i := t[i].(dsts := t[i].dsts + [d])]
  }

  function WithoutDestination(t: Table, s: Service, d: Destination): Table
    requires HasDestination(t, s, d)
  {
    var i := IndexOf(t, s);
    var j := DstIndexOf(t[i].dsts, d);
    t[i := t[i].(dsts := t[i].dsts[..j] + t[i].dsts[j + 1..])]
  }

  class Handle {
    var table: Table
    ghost var faults: nat

    // A handle just after Flush.
    constructor ()
      ensures table == []
    {
      table := [];
      faults := 0;
    }

    // A failure of the kernel or the socket, at its own will.
    method Fault() returns (err: bool)
      modifies `faults
      ensures faults == old(faults) + (if err then 1 else 0)
    {
      err := *;
      if err {
        faults := faults + 1;
      }
    }

    method ListServices() returns (err: bool, services: seq<Service>)
      modifies `faults
      ensures faults == old(faults) + (if err then 1 else 0)
      ensures !err ==> services == Services(table)
    {
      err := Fault();
      services := if err then [] else Services(table);
    }

    method NewService(s: Service) returns (r: Outcome)
      modifies `table, `faults
      ensures r.Panicked? <==> !Identified(s)
      ensures !r.Done? ==> table == old(table)
      ensures r.Done? ==> !HasService(old(table), s) && table == WithService(old(table), s)
      ensures !HasService(old(table), s) ==> faults == old(faults) + (if r.Failed? then 1 else 0)
    {
      if !Identified(s) {
        return Panicked;
      }
      var err := Fault();
      if err || HasService(table, s) {
        return Failed;
      }
      table := WithService(table, s);
      r := Done;
    }

    method DelService(s: Service) returns (r: Outcome)
      modifies `table, `faults
      ensures r.Panicked? <==> !Identified(s)
      ensures !r.Done? ==> table == old(table)
      ensures r.Done? ==> HasService(old(table), s) && table == WithoutService(old(table), s)
      ensures HasService(old(table), s) ==> faults == old(faults) + (if r.Failed? then 1 else 0)
    {
      if !Identified(s) {
        return Panicked;
      }
      var err := Fault();
      if err || !HasService(table, s) {
        return Failed;
      }
      table := WithoutService(table, s);
      r := Done;
    }

    // What listing an unknown service does is left open.
    method ListDestinations(s: Service) returns (r: Outcome, dsts: seq<Destination>)
      modifies `faults
      ensures r.Panicked? <==> !Identified(s)
      ensures HasService(table, s) ==> faults == old(faults) + (if r.Failed? then 1 else 0)
      ensures r.Done? && HasService(table, s) ==> dsts == DstsOf(table, s)
    {
      dsts := [];
      if !Identified(s) {
        return Panicked, dsts;
      }
      var err := Fault();
      if HasService(table, s) {
        dsts := DstsOf(table, s);
      } else {
        err := *;
      }
      r := if err then Failed else Done;
    }

    method NewDestination(s: Service, d: Destination) returns (r: Outcome)
      modifies `table, `faults
      ensures r.Panicked? <==> !Sendable(s, d)
      ensures !r.Done? ==> table == old(table)
      ensures r.Done? ==> HasService(old(table), s) && !HasDestination(old(table), s, d) &&
                          table == WithDestination(old(table), s, d)
      ensures HasService(old(table), s) && !HasDestination(old(table), s, d) ==>
                faults == old(faults) + (if r.Failed? then 1 else 0)
    {
      if !Sendable(s, d) {
        return Panicked;
      }
      var err := Fault();
      if err || !HasService(table, s) || HasDestination(table, s, d) {
        return Failed;
      }
      table := WithDestination(table, s, d);
      r := Done;
    }

    method DelDestination(s: Service, d: Destination) returns (r: Outcome)
      modifies `table, `faults
      ensures r.Panicked? <==> !Sendable(s, d)
      ensures !r.Done? ==> table == old(table)
      ensures r.Done? ==> HasDestination(old(table), s, d) && table == WithoutDestination(old(table), s, d)
      ensures old(faults) <= faults <= old(faults) + (if r.Failed? then 1 else 0)
      ensures HasDestination(old(table), s, d) ==> faults == old(faults) + (if r.Failed? then 1 else 0)
    {
      if !Sendable(s, d) {
        return Panicked;
      }
      var err := Fault();
      if err || !HasDestination(table, s, d) {
        return Failed;
      }
      table := WithoutDestination(table, s, d);
      r := Done;
    }
  }
}
