// What processItem makes of one store, on the plain set of triples: first key
// by key in some order, then in a closed form that no order can change.
module Batch {
  import opened Wrappers
  import opened Text
  import opened Libipvs
  import opened TableView
  import opened Ports

  function PortsOf(s: Store, protocol: Protocol): map<Port, string> {
    if protocol == TCP then s.tcp else s.udp
  }

  predicate Asks(s: Store, x: Triple, action: string) {
    x.port in PortsOf(s, x.protocol) && PortsOf(s, x.protocol)[x.port] == action
  }

  // The key names this address with this tag.
  predicate Names(s: Store, key: string, tag: string, a: IPv4) {
    key in s.addr && Tag(key) == tag && ParseIP(s.addr[key]) == Some(a)
  }

  predicate Adding(s: Store, a: IPv4) { exists key :: key in s.addr && Names(s, key, ADDITION, a) }

  predicate Deleting(s: Store, a: IPv4) { exists key :: key in s.addr && Names(s, key, DELETION, a) }

  // No address is tagged both adding and deleting.
  ghost predicate DisjointTags(s: Store) { forall a :: !(Adding(s, a) && Deleting(s, a)) }

  // ------------------------------------------------- key by key

  function Asked(s: Store, a: IPv4, action: string): set<Triple> {
    (set p | p in s.tcp && s.tcp[p] == action :: Triple(TCP, p, a)) +
    (set p | p in s.udp && s.udp[p] == action :: Triple(UDP, p, a))
  }

  function ApplyKey(s: Store, key: string, t: set<Triple>): set<Triple>
    requires key in s.addr
  {
    var a := ParseIP(s.addr[key]);
    if Tag(key) == ADDITION && a.Some? then t - Asked(s, a.value, DELETION) + Asked(s, a.value, ADDITION)
    else if Tag(key) == DELETION then set x | x in t && a != Some(x.address)
    else t
  }

  function ApplyKeys(s: Store, order: seq<string>, t: set<Triple>): set<Triple>
    requires forall k :: k in order ==> k in s.addr
  {
    if order == [] then t
    else ApplyKey(s, order[|order| - 1], ApplyKeys(s, order[..|order| - 1], t))
  }

  ghost predicate Enumerates(order: seq<string>, s: Store) {
    Distinct(order) && forall k :: k in order <==> k in s.addr
  }

  // ------------------------------------------------- the closed form

  predicate Removes(s: Store, x: Triple) {
    Deleting(s, x.address) || (Adding(s, x.address) && Asks(s, x, DELETION))
  }

  predicate Inserts(s: Store, x: Triple) {
    Adding(s, x.address) && Asks(s, x, ADDITION) && !Deleting(s, x.address)
  }

  // The triples whose fate does not depend on the table.
  predicate Decides(s: Store, x: Triple) { Removes(s, x) || Inserts(s, x) }

  function InsertSet(s: Store): set<Triple> {
    set key, x | key in s.addr && ParseIP(s.addr[key]).Some? &&
                 x in Asked(s, ParseIP(s.addr[key]).value, ADDITION) && Inserts(s, x) :: x
  }

  function Process(s: Store, t: set<Triple>): set<Triple> {
    (set x | x in t && !Removes(s, x)) + InsertSet(s)
  }

  lemma AskedAt(s: Store, a: IPv4, action: string, x: Triple)
    ensures x in Asked(s, a, action) <==> x.address == a && Asks(s, x, action)
  {
    if x.address == a && Asks(s, x, action) {
      assert x == Triple(x.protocol, x.port, a);
    }
  }

  // Absent for deleting addresses; decided by the port's action for adding
  // addresses and listed ports; unchanged elsewhere.
  lemma ProcessAt(s: Store, t: set<Triple>, x: Triple)
    ensures x in Process(s, t) <==> if Decides(s, x) then Inserts(s, x) else x in t
    ensures !(Inserts(s, x) && Removes(s, x))
  {
    TagsDiffer();
    if Inserts(s, x) {
      var key :| key in s.addr && Names(s, key, ADDITION, x.address);
      AskedAt(s, x.address, ADDITION, x);
      assert x in InsertSet(s);
    }
  }

  // ------------------------------------------------- order does not matter

  predicate NamedIn(s: Store, order: seq<string>, tag: string, a: IPv4) {
    exists key :: key in order && Names(s, key, tag, a)
  }

  lemma ApplyKeyAt(s: Store, key: string, t: set<Triple>, x: Triple)
    requires key in s.addr
    ensures x in ApplyKey(s, key, t) <==>
            if Names(s, key, DELETION, x.address) then false
            else if Names(s, key, ADDITION, x.address) && Asks(s, x, ADDITION) then true
            else if Names(s, key, ADDITION, x.address) && Asks(s, x, DELETION) then false
            else x in t
  {
    TagsDiffer();
    var a := ParseIP(s.addr[key]);
    if a.Some? {
      AskedAt(s, a.value, ADDITION, x);
      AskedAt(s, a.value, DELETION, x);
    }
  }

  // For an address that only carries one tag, the keys seen so far decide.
  lemma {:induction false} ApplyKeysAt(s: Store, order: seq<string>, t: set<Triple>, x: Triple)
    requires forall k :: k in order ==> k in s.addr
    requires !(NamedIn(s, order, ADDITION, x.address) && NamedIn(s, order, DELETION, x.address))
    ensures x in ApplyKeys(s, order, t) <==>
            if NamedIn(s, order, DELETION, x.address) then false
            else if NamedIn(s, order, ADDITION, x.address) && Asks(s, x, ADDITION) then true
            else if NamedIn(s, order, ADDITION, x.address) && Asks(s, x, DELETION) then false
            else x in t
  {
    if order != [] {
      var init, key := order[..|order| - 1], order[|order| - 1];
      assert forall k :: k in order <==> k in init || k == key;
      ApplyKeysAt(s, init, t, x);
      ApplyKeyAt(s, key, ApplyKeys(s, init, t), x);
      NamedInSnoc(s, init, key, ADDITION, x.address);
      NamedInSnoc(s, init, key, DELETION, x.address);
      assert init + [key] == order;
    }
  }

  lemma NamedInSnoc(s: Store, init: seq<string>, key: string, tag: string, a: IPv4)
    ensures NamedIn(s, init + [key], tag, a) <==> NamedIn(s, init, tag, a) || Names(s, key, tag, a)
  {
    assert forall k :: k in init + [key] <==> k in init || k == key;
  }

  // Every iteration order gives the closed form.
  lemma KeysClosedForm(s: Store, order: seq<string>, t: set<Triple>)
    requires Enumerates(order, s) && DisjointTags(s)
    ensures ApplyKeys(s, order, t) == Process(s, t)
  {
    forall x
      ensures x in ApplyKeys(s, order, t) <==> x in Process(s, t)
    {
      assert NamedIn(s, order, ADDITION, x.address) <==> Adding(s, x.address);
      assert NamedIn(s, order, DELETION, x.address) <==> Deleting(s, x.address);
      ApplyKeysAt(s, order, t, x);
      ProcessAt(s, t, x);
      TagsDiffer();
    }
  }

  ghost predicate OrderFree(s: Store) {
    forall o, o', t :: Enumerates(o, s) && Enumerates(o', s) ==> ApplyKeys(s, o, t) == ApplyKeys(s, o', t)
  }

  predicate AddsNothing(s: Store) {
    (forall p :: p in s.tcp ==> s.tcp[p] != ADDITION) && (forall p :: p in s.udp ==> s.udp[p] != ADDITION)
  }

  // The order is immaterial exactly when no address carries both tags or no
  // port is to be added.
  lemma OrderFreeIff(s: Store)
    ensures OrderFree(s) <==> DisjointTags(s) || AddsNothing(s)
  {
    if DisjointTags(s) {
      forall o, o', t | Enumerates(o, s) && Enumerates(o', s)
        ensures ApplyKeys(s, o, t) == ApplyKeys(s, o', t)
      {
        KeysClosedForm(s, o, t);
        KeysClosedForm(s, o', t);
      }
    } else if AddsNothing(s) {
      forall o, o', t | Enumerates(o, s) && Enumerates(o', s)
        ensures ApplyKeys(s, o, t) == ApplyKeys(s, o', t)
      {
        forall x
          ensures x in ApplyKeys(s, o, t) <==> x in ApplyKeys(s, o', t)
        {
          RemovingKeysAt(s, o, t, x);
          RemovingKeysAt(s, o', t, x);
          assert NamedIn(s, o, DELETION, x.address) <==> NamedIn(s, o', DELETION, x.address);
          assert NamedIn(s, o, ADDITION, x.address) <==> NamedIn(s, o', ADDITION, x.address);
        }
      }
    } else {
      TwoOrdersDiffer(s);
    }
  }

  lemma {:induction false} RemovingKeysAt(s: Store, order: seq<string>, t: set<Triple>, x: Triple)
    requires AddsNothing(s) && forall k :: k in order ==> k in s.addr
    ensures x in ApplyKeys(s, order, t) <==>
            x in t && !NamedIn(s, order, DELETION, x.address) &&
            !(NamedIn(s, order, ADDITION, x.address) && Asks(s, x, DELETION))
  {
    if order != [] {
      var init, key := order[..|order| - 1], order[|order| - 1];
      assert forall k :: k in order <==> k in init || k == key;
      RemovingKeysAt(s, init, t, x);
      ApplyKeyAt(s, key, ApplyKeys(s, init, t), x);
      NamedInSnoc(s, init, key, ADDITION, x.address);
      NamedInSnoc(s, init, key, DELETION, x.address);
      assert init + [key] == order;
    }
  }

  lemma TwoOrdersDiffer(s: Store)
    requires !DisjointTags(s) && !AddsNothing(s)
    ensures !OrderFree(s)
  {
    TagsDiffer();
    var a :| Adding(s, a) && Deleting(s, a);
    var ka :| ka in s.addr && Names(s, ka, ADDITION, a);
    var kd :| kd in s.addr && Names(s, kd, DELETION, a);
    var x: Triple;
    if p :| p in s.tcp && s.tcp[p] == ADDITION {
      x := Triple(TCP, p, a);
    } else {
      var q :| q in s.udp && s.udp[q] == ADDITION;
      x := Triple(UDP, q, a);
    }
    KeysConflict(s, ka, kd, x);
  }

  lemma KeysConflict(s: Store, ka: string, kd: string, x: Triple)
    requires ka in s.addr && kd in s.addr && Asks(s, x, ADDITION)
    requires Names(s, ka, ADDITION, x.address) && Names(s, kd, DELETION, x.address)
    ensures !OrderFree(s)
  {
    TagsDiffer();
    assert ka != kd;
    var rest := Listing(s.addr.Keys - {ka, kd});
    var o, o' := rest + [ka, kd], rest + [kd, ka];
    assert Enumerates(o, s) by { EndingWith(s, rest, ka, kd); }
    assert Enumerates(o', s) by { EndingWith(s, rest, kd, ka); }
    assert ApplyKeys(s, o, {}) != ApplyKeys(s, o', {}) by {
      LastKeyWins(s, rest, ka, kd, x);
      LastKeyWins(s, rest, kd, ka, x);
    }
  }

  lemma EndingWith(s: Store, rest: seq<string>, k: string, l: string)
    requires k in s.addr && l in s.addr && k != l
    requires Distinct(rest) && forall key :: key in rest <==> key in s.addr.Keys - {k, l}
    ensures Enumerates(rest + [k, l], s)
  {
    var order := rest + [k, l];
    forall key
      ensures key in order <==> key in s.addr
    {
      assert key in order <==> key in rest || key in [k, l];
    }
  }

  lemma LastKeyWins(s: Store, rest: seq<string>, k: string, l: string, x: Triple)
    requires k in s.addr && l in s.addr && forall key :: key in rest ==> key in s.addr
    ensures Names(s, l, DELETION, x.address) ==> x !in ApplyKeys(s, rest + [k, l], {})
    ensures Names(s, l, ADDITION, x.address) && Asks(s, x, ADDITION) ==> x in ApplyKeys(s, rest + [k, l], {})
  {
    TagsDiffer();
    var order := rest + [k, l];
    var init := order[..|order| - 1];
    assert forall key :: key in order ==> key in rest || key == k || key == l;
    ApplyKeyAt(s, l, ApplyKeys(s, init, {}), x);
  }

  ghost function Listing(keys: set<string>): (order: seq<string>)
    ensures Distinct(order) && forall k :: k in order <==> k in keys
  {
    if keys == {} then [] else
      var k :| k in keys;
      Listing(keys - {k}) + [k]
  }

  // ------------------------------------------------- repetition and faults

  // Processing a store again changes nothing.
  lemma ProcessIdempotent(s: Store, t: set<Triple>)
    ensures Process(s, Process(s, t)) == Process(s, t)
  {
    forall x
      ensures x in Process(s, Process(s, t)) <==> x in Process(s, t)
    {
      ProcessAt(s, t, x);
      ProcessAt(s, Process(s, t), x);
    }
  }

  // Even with two arbitrary, different iteration orders.
  lemma RepeatInAnyOrder(s: Store, o: seq<string>, o': seq<string>, t: set<Triple>)
    requires DisjointTags(s) && Enumerates(o, s) && Enumerates(o', s)
    ensures ApplyKeys(s, o', ApplyKeys(s, o, t)) == ApplyKeys(s, o, t)
  {
    KeysClosedForm(s, o, t);
    KeysClosedForm(s, o', Process(s, t));
    ProcessIdempotent(s, t);
  }

  // What processing may do when calls fail: insert only what the store asks
  // to insert, remove only what it asks to remove.
  ghost predicate FaultyOutcome(s: Store, t: set<Triple>, t': set<Triple>) {
    && (forall x :: x in t' && x !in t ==> Adding(s, x.address) && Asks(s, x, ADDITION))
    && (forall x :: x in t && x !in t' ==> Removes(s, x))
  }

  // A later processing without failures reaches what it would have reached
  // without the faulty one.
  lemma RetryHeals(s: Store, t: set<Triple>, faulty: set<Triple>)
    requires FaultyOutcome(s, t, faulty)
    ensures Process(s, faulty) == Process(s, t)
  {
    forall x
      ensures x in Process(s, faulty) <==> x in Process(s, t)
    {
      ProcessAt(s, t, x);
      ProcessAt(s, faulty, x);
    }
  }
}
