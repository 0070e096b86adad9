// What an IPVS table amounts to for the controller: the plain set of
// (protocol, port, address) triples it serves, and the set of services it has.
module TableView {
  import opened Wrappers
  import opened Text
  import opened Libipvs

  datatype SvcId = SvcId(protocol: Protocol, port: Port)
  datatype Triple = Triple(protocol: Protocol, port: Port, address: IPv4)

  // The settings every service of this program carries (LvsManager's fields).
  datatype Config = Config(vip: IPv4, schedName: string, timeout: nat)

  function BaseService(cfg: Config, protocol: Protocol, port: Port): Service {
    Service(cfg.vip, protocol, port, cfg.schedName, 0, cfg.timeout)
  }

  // The settings, field by field.
  ghost predicate Configured(cfg: Config, t: Table) {
    forall e :: e in t ==>
      e.svc.address == cfg.vip && e.svc.schedName == cfg.schedName && e.svc.timeout == cfg.timeout && e.svc.fwMark == 0
  }

  lemma WellFormedConfigured(cfg: Config, t: Table)
    requires WellFormed(cfg, t)
    ensures Configured(cfg, t)
  {
  }

  function IdOf(x: Triple): SvcId { SvcId(x.protocol, x.port) }

  function EntryId(e: Entry): SvcId { SvcId(e.svc.protocol, e.svc.port) }

  ghost function Ids(t: Table): set<SvcId> { set e | e in t :: EntryId(e) }

  ghost predicate Serves(e: Entry, x: Triple) {
    EntryId(e) == IdOf(x) && Destination(Some(x.address), x.port) in e.dsts
  }

  ghost function Triples(t: Table): set<Triple> {
    set e, d | e in t && d in e.dsts && d.address.Some? ::
      Triple(e.svc.protocol, e.svc.port, d.address.value)
  }

  ghost predicate EntryOk(cfg: Config, e: Entry) {
    && e.svc == BaseService(cfg, e.svc.protocol, e.svc.port)
    && e.svc.port != 0
    && (forall d :: d in e.dsts ==> d.address.Some? && d.port == e.svc.port)
    && Distinct(e.dsts)
  }

  // One service per (protocol, port), each carrying the configured settings;
  // no destination twice; every destination on its service's port.
  ghost predicate WellFormed(cfg: Config, t: Table) {
    && (forall i :: 0 <= i < |t| ==> EntryOk(cfg, t[i]))
    && (forall i, j :: 0 <= i < j < |t| ==> EntryId(t[i]) != EntryId(t[j]))
  }

  // Moreover no service is empty.
  ghost predicate Canonical(cfg: Config, t: Table) {
    WellFormed(cfg, t) && forall i :: 0 <= i < |t| ==> t[i].dsts != []
  }

  lemma TripleIn(cfg: Config, t: Table, x: Triple)
    requires WellFormed(cfg, t)
    ensures x in Triples(t) <==> exists i :: 0 <= i < |t| && Serves(t[i], x)
  {
    if x in Triples(t) {
      var e, d :| e in t && d in e.dsts && d.address.Some? &&
                  x == Triple(e.svc.protocol, e.svc.port, d.address.value);
      var i :| 0 <= i < |t| && t[i] == e;
      assert d == Destination(Some(x.address), x.port);
      assert Serves(t[i], x);
    }
    if i :| 0 <= i < |t| && Serves(t[i], x) {
      assert t[i] in t && Destination(Some(x.address), x.port) in t[i].dsts;
    }
  }

  // The empty services are the only difference between a well-formed and a
  // canonical table, so a canonical table has exactly its triples' services.
  lemma CanonicalIff(cfg: Config, t: Table)
    requires WellFormed(cfg, t)
    ensures Canonical(cfg, t) <==> Ids(t) == set x | x in Triples(t) :: IdOf(x)
  {
    var served := set x | x in Triples(t) :: IdOf(x);
    assert served <= Ids(t);
    if Canonical(cfg, t) {
      forall id | id in Ids(t)
        ensures id in served
      {
        var i :| 0 <= i < |t| && EntryId(t[i]) == id;
        var d := t[i].dsts[0];
        var x := Triple(id.protocol, id.port, d.address.value);
        assert Serves(t[i], x);
        TripleIn(cfg, t, x);
        assert IdOf(x) == id;
      }
    }
    if Ids(t) == served {
      forall i | 0 <= i < |t|
        ensures t[i].dsts != []
      {
        assert EntryId(t[i]) in served;
        var x :| x in Triples(t) && IdOf(x) == EntryId(t[i]);
        TripleIn(cfg, t, x);
        var k :| 0 <= k < |t| && Serves(t[k], x);
        assert k == i;
      }
    }
  }

  // ------------------------------------------------- sequences without repetition

  ghost predicate Distinct<T>(s: seq<T>) { forall i, j :: 0 <= i < j < |s| ==> s[i] != s[j] }

  lemma RemoveAt<T>(s: seq<T>, j: nat)
    requires j < |s| && Distinct(s)
    ensures var rest := s[..j] + s[j + 1..];
            && Distinct(rest)
            && (forall m :: 0 <= m < |rest| ==> rest[m] == s[if m < j then m else m + 1])
            && (forall y :: y in rest <==> y in s && y != s[j])
  {
    var rest := s[..j] + s[j + 1..];
    forall y
      ensures y in rest <==> y in s && y != s[j]
    {
      if y in s && y != s[j] {
        var k :| 0 <= k < |s| && s[k] == y;
        assert y == rest[if k < j then k else k - 1];
      }
    }
  }

  // The services of a table split into the first and the others.
  lemma IdsFromTo(cfg: Config, t: Table, k: nat)
    requires WellFormed(cfg, t) && k < |t|
    ensures Ids(t[k..]) == {EntryId(t[k])} + Ids(t[k + 1..])
    ensures EntryId(t[k]) !in Ids(t[k + 1..])
  {
    assert t[k..] == [t[k]] + t[k + 1..];
    forall id
      ensures id in Ids(t[k..]) <==> id in {EntryId(t[k])} + Ids(t[k + 1..])
    {
      if e :| e in t[k..] && EntryId(e) == id {
        assert e == t[k] || e in t[k + 1..];
      }
      if e :| e in t[k + 1..] && EntryId(e) == id {
        assert e in t[k..];
      }
    }
  }

  // ------------------------------------------------- finding the entry of a service

  lemma FindService(cfg: Config, t: Table, id: SvcId)
    requires WellFormed(cfg, t)
    ensures HasService(t, BaseService(cfg, id.protocol, id.port)) <==> id in Ids(t)
    ensures forall i :: 0 <= i < |t| && EntryId(t[i]) == id ==>
              IndexOf(t, BaseService(cfg, id.protocol, id.port)) == i
    ensures var i := IndexOf(t, BaseService(cfg, id.protocol, id.port));
            i < |t| ==> EntryId(t[i]) == id
  {
    var s := BaseService(cfg, id.protocol, id.port);
    forall i | 0 <= i < |t|
      ensures KeyOf(t[i].svc) == KeyOf(s) <==> EntryId(t[i]) == id
    {
    }
  }

  lemma FindDestination(cfg: Config, t: Table, x: Triple)
    requires WellFormed(cfg, t)
    ensures var svc, dst := BaseService(cfg, x.protocol, x.port), Destination(Some(x.address), x.port);
            && (HasDestination(t, svc, dst) <==> x in Triples(t))
            && (HasService(t, svc) ==> (dst in DstsOf(t, svc) <==> x in Triples(t)))
  {
    FindService(cfg, t, IdOf(x));
    TripleIn(cfg, t, x);
    var s := BaseService(cfg, x.protocol, x.port);
    var d := Destination(Some(x.address), x.port);
    if HasService(t, s) {
      var i := IndexOf(t, s);
      assert d in DstsOf(t, s) <==> Serves(t[i], x);
      assert DstIndexOf(t[i].dsts, d) < |t[i].dsts| <==> d in t[i].dsts;
    }
  }

  // The destinations of a service are empty exactly when it serves no triple.
  lemma EmptyService(cfg: Config, t: Table, id: SvcId)
    requires WellFormed(cfg, t) && id in Ids(t)
    ensures HasService(t, BaseService(cfg, id.protocol, id.port))
    ensures DstsOf(t, BaseService(cfg, id.protocol, id.port)) == [] <==> forall x :: x in Triples(t) ==> IdOf(x) != id
  {
    FindService(cfg, t, id);
    var i := IndexOf(t, BaseService(cfg, id.protocol, id.port));
    if t[i].dsts != [] {
      var x := Triple(id.protocol, id.port, t[i].dsts[0].address.value);
      assert Serves(t[i], x);
      TripleIn(cfg, t, x);
    }
    if x :| x in Triples(t) && IdOf(x) == id {
      FindDestination(cfg, t, x);
    }
  }

  // ------------------------------------------------- the four changes, on the view

  lemma WithServiceView(cfg: Config, t: Table, id: SvcId)
    requires WellFormed(cfg, t) && id !in Ids(t) && id.port != 0
    ensures var t' := WithService(t, BaseService(cfg, id.protocol, id.port));
            WellFormed(cfg, t') && Ids(t') == Ids(t) + {id} && Triples(t') == Triples(t)
  {
    var t' := WithService(t, BaseService(cfg, id.protocol, id.port));
    var e := t'[|t|];
    forall i | 0 <= i < |t|
      ensures EntryId(t[i]) != id
    {
      assert EntryId(t[i]) in Ids(t);
    }
    forall x
      ensures x in Triples(t') <==> x in Triples(t)
    {
      TripleIn(cfg, t, x);
      TripleIn(cfg, t', x);
      if i :| 0 <= i < |t| && Serves(t[i], x) {
        assert Serves(t'[i], x);
      }
    }
    assert EntryId(e) == id && e in t';
    forall k
      ensures k in Ids(t') <==> k in Ids(t) + {id}
    {
      if k in Ids(t) {
        var i :| 0 <= i < |t| && EntryId(t[i]) == k;
        assert t'[i] in t';
      }
    }
  }

  // Taking entry i out of a well-formed table.
  lemma WithoutEntry(cfg: Config, t: Table, i: nat)
    requires WellFormed(cfg, t) && i < |t|
    ensures var t' := t[..i] + t[i + 1..];
            && WellFormed(cfg, t')
            && (forall e :: e in t' <==> e in t && EntryId(e) != EntryId(t[i]))
  {
    assert Distinct(t);
    RemoveAt(t, i);
    forall e | e in t && e != t[i]
      ensures EntryId(e) != EntryId(t[i])
    {
      var k :| 0 <= k < |t| && t[k] == e;
    }
  }

  lemma WithoutServiceView(cfg: Config, t: Table, id: SvcId)
    requires WellFormed(cfg, t) && id in Ids(t)
    requires forall x :: x in Triples(t) ==> IdOf(x) != id
    ensures HasService(t, BaseService(cfg, id.protocol, id.port))
    ensures var t' := WithoutService(t, BaseService(cfg, id.protocol, id.port));
            WellFormed(cfg, t') && Ids(t') == Ids(t) - {id} && Triples(t') == Triples(t)
  {
    FindService(cfg, t, id);
    var i := IndexOf(t, BaseService(cfg, id.protocol, id.port));
    var t' := t[..i] + t[i + 1..];
    WithoutEntry(cfg, t, i);
    assert t[i].dsts == [] by {
      EmptyService(cfg, t, id);
    }
    forall x
      ensures x in Triples(t') <==> x in Triples(t)
    {
      if x in Triples(t) {
        var e, d :| e in t && d in e.dsts && d.address.Some? &&
                    x == Triple(e.svc.protocol, e.svc.port, d.address.value);
        assert EntryId(e) == IdOf(x) != id;
        assert e in t';
      }
    }
  }

  // Replacing the destinations of one entry keeps the table well formed, with
  // the same services,
  lemma EntryChangeIds(cfg: Config, t: Table, i: nat, e: Entry)
    requires WellFormed(cfg, t) && i < |t| && EntryOk(cfg, e) && e.svc == t[i].svc
    ensures WellFormed(cfg, t[i := e]) && Ids(t[i := e]) == Ids(t)
  {
    var t' := t[i := e];
    forall k | 0 <= k < |t|
      ensures EntryId(t'[k]) == EntryId(t[k])
    {
    }
    forall id
      ensures id in Ids(t') <==> id in Ids(t)
    {
      if id in Ids(t) {
        var k :| 0 <= k < |t| && EntryId(t[k]) == id;
        assert t'[k] in t';
      }
      if id in Ids(t') {
        var k :| 0 <= k < |t'| && EntryId(t'[k]) == id;
        assert t[k] in t;
      }
    }
  }

  // and changes only that entry's triples.
  lemma EntryChangeView(cfg: Config, t: Table, i: nat, e: Entry, x: Triple)
    requires WellFormed(cfg, t) && i < |t| && EntryOk(cfg, e) && e.svc == t[i].svc
    ensures x in Triples(t[i := e]) <==> if IdOf(x) == EntryId(e) then Serves(e, x) else x in Triples(t)
    ensures IdOf(x) == EntryId(e) ==> (x in Triples(t) <==> Serves(t[i], x))
  {
    var t' := t[i := e];
    EntryChangeIds(cfg, t, i, e);
    TripleIn(cfg, t, x);
    TripleIn(cfg, t', x);
    assert t'[i] == e;
    if k :| 0 <= k < |t| && Serves(t[k], x) {
      assert k != i ==> t'[k] == t[k];
    }
  }

  lemma WithDestinationView(cfg: Config, t: Table, x: Triple)
    requires WellFormed(cfg, t) && IdOf(x) in Ids(t) && x !in Triples(t)
    ensures HasService(t, BaseService(cfg, x.protocol, x.port))
    ensures var t' := WithDestination(t, BaseService(cfg, x.protocol, x.port), Destination(Some(x.address), x.port));
            WellFormed(cfg, t') && Ids(t') == Ids(t) && Triples(t') == Triples(t) + {x}
  {
    FindService(cfg, t, IdOf(x));
    FindDestination(cfg, t, x);
    var i := IndexOf(t, BaseService(cfg, x.protocol, x.port));
    var d := Destination(Some(x.address), x.port);
    var e := t[i].(dsts := t[i].dsts + [d]);
    forall y
      ensures y in Triples(t[i := e]) <==> y in Triples(t) + {x}
    {
      EntryChangeView(cfg, t, i, e, y);
    }
    EntryChangeIds(cfg, t, i, e);
  }

  lemma WithoutDestinationView(cfg: Config, t: Table, x: Triple)
    requires WellFormed(cfg, t) && x in Triples(t)
    ensures HasDestination(t, BaseService(cfg, x.protocol, x.port), Destination(Some(x.address), x.port))
    ensures var t' := WithoutDestination(t, BaseService(cfg, x.protocol, x.port), Destination(Some(x.address), x.port));
            WellFormed(cfg, t') && Ids(t') == Ids(t) && Triples(t') == Triples(t) - {x}
  {
    FindService(cfg, t, IdOf(x));
    FindDestination(cfg, t, x);
    var i := IndexOf(t, BaseService(cfg, x.protocol, x.port));
    var d := Destination(Some(x.address), x.port);
    var j := DstIndexOf(t[i].dsts, d);
    var rest := t[i].dsts[..j] + t[i].dsts[j + 1..];
    var e := t[i].(dsts := rest);
    RemoveAt(t[i].dsts, j);
    forall y
      ensures y in Triples(t[i := e]) <==> y in Triples(t) && y != x
    {
      EntryChangeView(cfg, t, i, e, y);
      assert IdOf(y) == EntryId(e) ==> (Destination(Some(y.address), y.port) == d <==> y == x);
    }
    EntryChangeIds(cfg, t, i, e);
  }
}
