// Shared stores and the port diff of pkg/controller/utils.go. Go maps are
// references, so the maps that L4Compare rewrites are objects here.
module Ports {
  import opened Text

  class PortMap {
    var m: map<Port, string>

    constructor ()
      ensures m == map[]
    {
      m := map[];
    }

    // Deletion key by key, in any order.
    method Clear()
      modifies this
      ensures m == map[]
    {
      var todo := m.Keys;
      while todo != {}
        invariant m.Keys == todo
      {
        var key :| key in todo;
        m := m - {key};
        todo := todo - {key};
      }
    }
  }

  // A snapshot of what a store holds.
  datatype Store = Store(addr: map<string, string>, tcp: map<Port, string>, udp: map<Port, string>)

  const EMPTY_STORE := Store(map[], map[], map[])

  predicate AllTagged(m: map<Port, string>, tag: string) { forall p :: p in m ==> m[p] == tag }

  lemma {:induction false} TaggedExists(ports: set<Port>, tag: string) returns (m: map<Port, string>)
    ensures m.Keys == ports && AllTagged(m, tag)
  {
    m := map[];
    if p :| p in ports {
      m := TaggedExists(ports - {p}, tag);
      m := m[p := tag];
    }
  }

  // These ports, all with one tag.
  ghost function Tagged(ports: set<Port>, tag: string): (m: map<Port, string>)
    ensures m.Keys == ports && AllTagged(m, tag)
  {
    assert exists m: map<Port, string> :: m.Keys == ports && AllTagged(m, tag) by {
      var m := TaggedExists(ports, tag);
    }
    var m: map<Port, string> :| m.Keys == ports && AllTagged(m, tag);
    m
  }

  lemma TaggedIs(m: map<Port, string>, ports: set<Port>, tag: string)
    requires m.Keys == ports && AllTagged(m, tag)
    ensures m == Tagged(ports, tag)
  {
  }

  // The actions that turn the recorded ports into the staged ones.
  ghost function Diff(recorded: set<Port>, staged: set<Port>): (m: map<Port, string>)
    ensures m.Keys == (recorded - staged) + (staged - recorded)
    ensures forall p :: p in m ==> m[p] == if p in staged then ADDITION else DELETION
  {
    Tagged(staged - recorded, ADDITION) + Tagged(recorded - staged, DELETION)
  }

  class LBStore {
    var Addr: map<string, string>
    const Tcp: PortMap
    const Udp: PortMap

    constructor ()
      ensures fresh(Tcp) && fresh(Udp) && Tcp != Udp
      ensures Addr == map[] && Tcp.m == map[] && Udp.m == map[]
    {
      Addr := map[];
      Tcp := new PortMap();
      Udp := new PortMap();
    }

    function Contents(): Store
      reads this, Tcp, Udp
    {
      Store(Addr, Tcp.m, Udp.m)
    }

    // On equal maps nothing happens, the staged map included; otherwise the
    // delta is the exact difference, the recorded map takes over the staged
    // one, and the staged one is emptied. Iteration is in any order.
    method L4Compare(oldOne: PortMap, newOne: PortMap, deltaOne: PortMap)
      requires oldOne != newOne && oldOne != deltaOne && newOne != deltaOne
      modifies oldOne, newOne, deltaOne
      ensures old(oldOne.m) == old(newOne.m) ==>
                oldOne.m == old(oldOne.m) && newOne.m == old(newOne.m) && deltaOne.m == old(deltaOne.m)
      ensures old(oldOne.m) != old(newOne.m) ==>
                && deltaOne.m == Diff(old(oldOne.m).Keys, old(newOne.m).Keys)
                && oldOne.m == old(newOne.m)
                && newOne.m == map[]
    {
      if oldOne.m == newOne.m {
        return;
      }
      deltaOne.Clear();
      MarkDifference(oldOne, newOne, deltaOne);
      HandOver(oldOne, newOne, deltaOne);
    }

    // The loops of L4Compare after the delta is cleared.
    method MarkDifference(oldOne: PortMap, newOne: PortMap, deltaOne: PortMap)
      requires oldOne != deltaOne && newOne != deltaOne && deltaOne.m == map[]
      modifies deltaOne
      ensures deltaOne.m == Diff(oldOne.m.Keys, newOne.m.Keys)
    {
      var todo := newOne.m.Keys;
      while todo != {}
        invariant todo <= newOne.m.Keys
        invariant deltaOne.m.Keys == newOne.m.Keys - todo - oldOne.m.Keys
        invariant forall p :: p in deltaOne.m ==> deltaOne.m[p] == ADDITION
      {
        var port :| port in todo;
        if port !in oldOne.m {
          deltaOne.m := deltaOne.m[port := ADDITION];
        }
        todo := todo - {port};
      }

      todo := oldOne.m.Keys;
      while todo != {}
        invariant todo <= oldOne.m.Keys
        invariant deltaOne.m.Keys == (newOne.m.Keys - oldOne.m.Keys) + (oldOne.m.Keys - todo - newOne.m.Keys)
        invariant forall p :: p in deltaOne.m ==> deltaOne.m[p] == if p in newOne.m then ADDITION else DELETION
      {
        var port :| port in todo;
        if port !in newOne.m {
          deltaOne.m := deltaOne.m[port := DELETION];
        }
        todo := todo - {port};
      }
      assert deltaOne.m == Diff(oldOne.m.Keys, newOne.m.Keys);
    }

    method HandOver(oldOne: PortMap, newOne: PortMap, deltaOne: PortMap)
      requires oldOne != newOne && oldOne != deltaOne && newOne != deltaOne
      requires oldOne.m.Keys - newOne.m.Keys <= deltaOne.m.Keys
      modifies oldOne, newOne
      ensures oldOne.m == old(newOne.m) && newOne.m == map[]
    {
      ghost var nw := newOne.m;
      var todo := deltaOne.m.Keys;
      while todo != {}
        invariant newOne.m == nw
        invariant oldOne.m.Keys <= nw.Keys + todo
      {
        var key :| key in todo;
        oldOne.m := oldOne.m - {key};
        todo := todo - {key};
      }

      todo := newOne.m.Keys;
      while todo != {}
        invariant newOne.m.Keys == todo
        invariant forall k :: k in todo ==> k in nw && newOne.m[k] == nw[k]
        invariant oldOne.m.Keys <= nw.Keys
        invariant forall k :: k in nw && k !in todo ==> k in oldOne.m && oldOne.m[k] == nw[k]
      {
        var key :| key in todo;
        oldOne.m := oldOne.m[key := newOne.m[key]];
        newOne.m := newOne.m - {key};
        todo := todo - {key};
      }
    }
  }

  function Additions(delta: map<Port, string>): set<Port> { set p | p in delta && delta[p] == ADDITION }

  function Deletions(delta: map<Port, string>): set<Port> { set p | p in delta && delta[p] == DELETION }

  // The delta is the symmetric difference, and applying it to the recorded
  // ports gives the staged ones; no other delta over those ports does both.
  lemma DiffIsExact(recorded: set<Port>, staged: set<Port>, delta: map<Port, string>)
    requires delta.Values <= {ADDITION, DELETION}
    ensures delta == Diff(recorded, staged) <==>
            && delta.Keys == (recorded - staged) + (staged - recorded)
            && recorded - Deletions(delta) + Additions(delta) == staged
  {
    TagsDiffer();
    var exact := Diff(recorded, staged);
    assert exact.Keys == (recorded - staged) + (staged - recorded);
    assert recorded - Deletions(exact) + Additions(exact) == staged;
    if delta.Keys == exact.Keys && recorded - Deletions(delta) + Additions(delta) == staged {
      forall p | p in delta
        ensures delta[p] == exact[p]
      {
        assert delta[p] in delta.Values;
        assert p in staged <==> p in recorded - Deletions(delta) + Additions(delta);
      }
    }
  }

  lemma TagsDiffer()
    ensures ADDITION != DELETION
    ensures '_' !in ADDITION && '_' !in DELETION
  {
    assert |ADDITION| == 6 && |DELETION| == 8;
  }
}
