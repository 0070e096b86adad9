// How the program comes to rest: what a run without new events can do, and
// that it ends with the table serving the cluster as reported so far.
module Rest {
  import opened Wrappers
  import opened Text
  import opened TableView
  import opened Program // with its names P for Pipeline and M for Monitor

  // ------------------------------------------------- the cluster as reported

  // The ports of the two configmaps and the announced addresses.
  datatype Cluster = Cluster(tcp: set<Port>, udp: set<Port>, backends: set<IPv4>)

  function ClusterOf(w: P.World): Cluster { Cluster(w.cmTcp, w.cmUdp, w.backends) }

  function Serving(c: Cluster): set<Triple> { P.Desired(c.tcp, c.udp, c.backends) }

  // What the contents of an event say of the cluster; work says nothing.
  function Reported(c: Cluster, step: P.Step): Cluster {
    match step
    case TcpChange(d, _) => c.(tcp := d)
    case UdpChange(d, _) => c.(udp := d)
    case PodAdded(_, text) => if ParseIP(text) == None then c else c.(backends := c.backends + {ParseIP(text).value})
    case PodRemoved(_, text) => if ParseIP(text) == None then c else c.(backends := c.backends - {ParseIP(text).value})
    case _ => c
  }

  function AllReported(c: Cluster, steps: seq<P.Step>): Cluster
    decreases |steps|
  {
    if steps == [] then c else AllReported(Reported(c, steps[0]), steps[1..])
  }

  lemma NextReports(w: P.World, step: P.Step)
    requires P.Allowed(w, step)
    ensures ClusterOf(P.Next(w, step)) == Reported(ClusterOf(w), step)
  {
  }

  // In any run, the cluster changes by what was published and nothing else.
  lemma {:induction false} RunReports(y: System, acts: seq<Act>)
    requires CanRun(y, acts)
    ensures ClusterOf(Run(y, acts).world) == AllReported(ClusterOf(y.world), Steps(acts))
    decreases |acts|
  {
    if acts != [] {
      var y' := Perform(y, acts[0]);
      RunReports(y', acts[1..]);
      if acts[0].step.Some? {
        NextReports(y.world, acts[0].step.value);
        assert Steps(acts)[0] == acts[0].step.value && Steps(acts)[1..] == Steps(acts[1..]);
      } else {
        assert Steps(acts) == Steps(acts[1..]);
      }
    }
  }

  // ------------------------------------------------- events that are held

  // The producer has an event that it has not published yet.
  predicate Held(m: M.State, i: nat) { M.ProducerIs(m, i, M.Trying) || M.ProducerIs(m, i, M.Blocked) }

  // Only Arrive makes a producer hold an event, and only Push ends it.
  lemma HeldAfter(m: M.State, l: M.Label, i: nat)
    requires M.Enabled(m, l) && !l.Arrive?
    ensures Held(M.Fire(m, l), i) <==> Held(m, i) && !(l.Push? && l.i == i)
  {
  }

  ghost predicate NoArrivals(acts: seq<Act>) { forall k :: 0 <= k < |acts| ==> !acts[k].move.Arrive? }

  // With no event held and none arriving, the cluster at hand stays.
  lemma {:induction false} ClusterStays(y: System, acts: seq<Act>)
    requires CanRun(y, acts) && NoArrivals(acts) && forall i: nat :: !Held(y.threads, i)
    ensures ClusterOf(Run(y, acts).world) == ClusterOf(y.world)
    decreases |acts|
  {
    if acts != [] {
      var act := acts[0];
      assert act.move.Push? ==> Held(y.threads, act.move.i);
      forall i: nat
        ensures !Held(Perform(y, act).threads, i)
      {
        HeldAfter(y.threads, act.move, i);
      }
      if act.step.Some? {
        NextReports(y.world, act.step.value);
      }
      ClusterStays(Perform(y, act), acts[1..]);
    }
  }

  // ------------------------------------------------- a run that cannot go on

  // While the threads are not at rest, one of them can go on by itself, unless
  // all that is left is to publish: then the queue is empty and every holder of
  // an event can publish at once.
  lemma InnerProgress(y: System) returns (act: Option<Act>)
    requires Invariant(y) && !M.Quiescent(y.threads)
    ensures act.Some? ==> Possible(y, act.value) && !act.value.move.Arrive? && !act.value.move.Push?
    ensures act.Some? ==> act.value.step == None || act.value.step == Some(P.Worker)
    ensures act == None ==> y.world.data.queue == [] && exists i: nat :: Held(y.threads, i)
    ensures act == None ==> forall i: nat :: Held(y.threads, i) ==> M.Enabled(y.threads, M.Push(i))
  {
    var m := y.threads;
    if j :| 0 <= j < |m.consumers| && m.consumers[j] != M.Waiting {
      act := Some(if m.consumers[j] == M.Announcing then Act(M.Broadcast(j), None)
                  else if m.len == 0 then Act(M.Sleep(j), None)
                  else Act(M.Pop(j), Some(P.Worker)));
    } else if i :| 0 <= i < |m.producers| && m.producers[i] == M.Signalling {
      assert m.consumers[0] == M.Waiting;
      act := Some(Act(M.Signal(i, Some(M.C(0))), None));
    } else {
      act := None;
      OnlyPublishing(m);
    }
  }

  lemma OnlyPublishing(m: M.State)
    requires M.Sized(m) && M.Owed(m) && !M.Quiescent(m) && M.AllWaiting(m) && M.Signalling !in m.producers
    ensures m.len == 0 && exists i: nat :: Held(m, i)
    ensures forall i: nat :: Held(m, i) ==> M.Enabled(m, M.Push(i))
  {
    assert M.Signalling !in multiset(m.producers);
    assert M.Announcing !in m.consumers;
    assert M.Blocked !in m.producers;
    var l :| M.Enabled(m, l) && !l.Arrive?;
    assert Held(m, l.i);
  }

  // A state that allows nothing but new events is at rest, with the table in
  // step with its cluster.
  lemma StuckIsRest(y: System)
    requires Invariant(y) && forall act :: Possible(y, act) ==> act.move.Arrive?
    ensures M.Quiescent(y.threads) && y.world.data.queue == [] && y.world.data.table == P.Wanted(y.world)
  {
    if !M.Quiescent(y.threads) {
      var act := InnerProgress(y);
      if act == None {
        var i: nat :| Held(y.threads, i);
        var step := P.EmptyQueueAllows(y.world);
        assert Possible(y, Act(M.Push(i), Some(step)));
      }
    }
    M.QuiescentDrained(y.threads);
  }

  // So whatever run, with events or without: where it cannot go on without a
  // new event, the table serves the cluster as the published events report it;
  // and if no event was held or arrived, the cluster the run began with.
  lemma StuckServes(y: System, acts: seq<Act>)
    requires Invariant(y) && CanRun(y, acts)
    requires forall act :: Possible(Run(y, acts), act) ==> act.move.Arrive?
    ensures var x := Run(y, acts).world.data;
            && x.queue == [] && x.table == Serving(AllReported(ClusterOf(y.world), Steps(acts)))
            && (NoArrivals(acts) && (forall i: nat :: !Held(y.threads, i)) ==> x.table == P.Wanted(y.world))
  {
    RunKeepsInvariant(y, acts);
    StuckIsRest(Run(y, acts));
    RunReports(y, acts);
    if NoArrivals(acts) && forall i: nat :: !Held(y.threads, i) {
      ClusterStays(y, acts);
    }
  }

  // ------------------------------------------------- publishing what is held

  // An event and the producer that holds it.
  datatype Turn = Turn(i: nat, step: P.Step)

  // Every held event once, in the order in which they will be published.
  ghost predicate HoldsExactly(m: M.State, turns: seq<Turn>) {
    && (forall k :: 0 <= k < |turns| ==> Held(m, turns[k].i))
    && (forall k, l :: 0 <= k < l < |turns| ==> turns[k].i != turns[l].i)
    && (forall i: nat :: Held(m, i) ==> exists k :: 0 <= k < |turns| && turns[k].i == i)
  }

  function Published(acts: seq<Act>): seq<Turn> {
    if acts == [] then []
    else if acts[0].move.Push? && acts[0].step.Some? then
      [Turn(acts[0].move.i, acts[0].step.value)] + Published(acts[1..])
    else Published(acts[1..])
  }

  function Events(turns: seq<Turn>): seq<P.Step> { seq(|turns|, k requires 0 <= k < |turns| => turns[k].step) }

  // The world once the workers have caught up.
  function CaughtUp(w: P.World): P.World { w.(data := w.data.(queue := [], table := P.Wanted(w))) }

  // Each event meets the hypotheses when its turn comes and the workers have
  // caught up. For pod events that is no more than being well formed.
  ghost predicate InTurn(w: P.World, turns: seq<Turn>)
    decreases |turns|
  {
    turns == [] ||
    (!P.IsWork(turns[0].step) && P.Allowed(CaughtUp(w), turns[0].step) &&
     InTurn(P.Next(CaughtUp(w), turns[0].step), turns[1..]))
  }

  lemma {:induction false} PodsInTurn(w: P.World, turns: seq<Turn>)
    requires forall k :: 0 <= k < |turns| ==> P.PodOk(turns[k].step)
    ensures InTurn(w, turns)
    decreases |turns|
  {
    if turns != [] {
      PodsInTurn(P.Next(CaughtUp(w), turns[0].step), turns[1..]);
    }
  }

  // Where they lead.
  ghost function Final(w: P.World, turns: seq<Turn>): P.World
    requires InTurn(w, turns)
    decreases |turns|
  {
    if turns == [] then CaughtUp(w) else Final(P.Next(CaughtUp(w), turns[0].step), turns[1..])
  }

  lemma {:induction false} FinalReports(w: P.World, turns: seq<Turn>)
    requires InTurn(w, turns)
    ensures ClusterOf(Final(w, turns)) == AllReported(ClusterOf(w), Events(turns))
    decreases |turns|
  {
    if turns != [] {
      NextReports(CaughtUp(w), turns[0].step);
      FinalReports(P.Next(CaughtUp(w), turns[0].step), turns[1..]);
      assert Events(turns)[1..] == Events(turns[1..]);
    }
  }

  // Work does not change what it leads to.
  lemma SameTurns(w: P.World, w': P.World, turns: seq<Turn>)
    requires CaughtUp(w) == CaughtUp(w') && InTurn(w, turns)
    ensures InTurn(w', turns) && Final(w', turns) == Final(w, turns)
  {
  }

  // While the threads are not at rest, one can go on without a new event, and
  // where it has to publish, it publishes the event whose turn it is.
  lemma Progress(y: System, turns: seq<Turn>) returns (act: Act)
    requires Invariant(y) && !M.Quiescent(y.threads) && HoldsExactly(y.threads, turns) && InTurn(y.world, turns)
    ensures Possible(y, act) && !act.move.Arrive?
    ensures if act.move.Push? then
              turns != [] && act == Act(M.Push(turns[0].i), Some(turns[0].step)) && y.world == CaughtUp(y.world)
            else act.step == None || act.step == Some(P.Worker)
  {
    var inner := InnerProgress(y);
    if inner.Some? {
      act := inner.value;
    } else {
      act := Act(M.Push(turns[0].i), Some(turns[0].step));
    }
  }

  function TurnsAfter(act: Act, turns: seq<Turn>): seq<Turn> {
    if act.move.Push? && turns != [] then turns[1..] else turns
  }

  lemma HoldsAfter(m: M.State, l: M.Label, turns: seq<Turn>)
    requires HoldsExactly(m, turns) && M.Enabled(m, l) && !l.Arrive?
    requires l.Push? ==> turns != [] && l.i == turns[0].i
    ensures HoldsExactly(M.Fire(m, l), if l.Push? then turns[1..] else turns)
  {
    var rest := if l.Push? then turns[1..] else turns;
    forall k | 0 <= k < |rest|
      ensures Held(M.Fire(m, l), rest[k].i)
    {
      HeldAfter(m, l, rest[k].i);
    }
    forall i: nat | Held(M.Fire(m, l), i)
      ensures exists k :: 0 <= k < |rest| && rest[k].i == i
    {
      HeldAfter(m, l, i);
      var k :| 0 <= k < |turns| && turns[k].i == i;
      assert l.Push? ==> rest[k - 1].i == i;
    }
  }

  lemma LeadsToSame(y: System, act: Act, turns: seq<Turn>)
    requires Invariant(y) && Possible(y, act) && InTurn(y.world, turns)
    requires if act.move.Push? then turns != [] && act.step == Some(turns[0].step) && y.world == CaughtUp(y.world)
             else act.step == None || act.step == Some(P.Worker)
    ensures InTurn(Perform(y, act).world, TurnsAfter(act, turns))
    ensures Final(Perform(y, act).world, TurnsAfter(act, turns)) == Final(y.world, turns)
  {
    if act.step == Some(P.Worker) {
      SameTurns(y.world, P.Next(y.world, P.Worker), turns);
    }
  }

  // From every state, the threads can come to rest without a new event, the
  // held events being published in any order that the hypotheses allow; where
  // that leads is known down to the last field.
  lemma {:induction false} CanRest(y: System, turns: seq<Turn>) returns (acts: seq<Act>)
    requires Invariant(y) && HoldsExactly(y.threads, turns) && InTurn(y.world, turns)
    ensures CanRun(y, acts) && NoArrivals(acts) && Published(acts) == turns
    ensures M.Quiescent(Run(y, acts).threads) && Run(y, acts).world == Final(y.world, turns)
    decreases M.Measure(y.threads)
  {
    if M.Quiescent(y.threads) {
      M.QuiescentDrained(y.threads);
      acts := [];
      assert y.world == CaughtUp(y.world);
    } else {
      var act := Progress(y, turns);
      M.MeasureDrops(y.threads, act.move);
      ActKeepsInvariant(y, act);
      HoldsAfter(y.threads, act.move, turns);
      LeadsToSame(y, act, turns);
      var rest := CanRest(Perform(y, act), TurnsAfter(act, turns));
      Prepend(y, act, rest);
      acts := [act] + rest;
      assert acts[1..] == rest;
    }
  }

  // In particular, wherever a run from the start has got to: the table can be
  // brought to serve the cluster at hand, changed by the held events only.
  lemma TableIsReached(y: System, addr: map<string, string>, acts: seq<Act>, turns: seq<Turn>)
    returns (more: seq<Act>)
    requires Started(y, addr) && CanRun(y, acts)
    requires HoldsExactly(Run(y, acts).threads, turns) && InTurn(Run(y, acts).world, turns)
    ensures CanRun(y, acts + more) && NoArrivals(more) && Published(more) == turns
    ensures var y' := Run(y, acts + more);
            && M.Quiescent(y'.threads) && y'.world.data.queue == []
            && y'.world.data.table == Serving(AllReported(ClusterOf(Run(y, acts).world), Events(turns)))
            && (turns == [] ==> y'.world.data.table == P.Wanted(Run(y, acts).world))
  {
    StartedInvariant(y, addr);
    RunKeepsInvariant(y, acts);
    var y1 := Run(y, acts);
    more := CanRest(y1, turns);
    RunAppend(y, acts, more);
    FinalReports(y1.world, turns);
    FinalServes(y1.world, turns);
  }

  lemma {:induction false} FinalServes(w: P.World, turns: seq<Turn>)
    requires InTurn(w, turns)
    ensures var w' := Final(w, turns);
            w'.data.queue == [] && w'.data.table == P.Wanted(w')
    decreases |turns|
  {
    if turns != [] {
      FinalServes(P.Next(CaughtUp(w), turns[0].step), turns[1..]);
    }
  }
}
