// The monitor with the order Go's runtime keeps: Signal wakes the thread that
// has slept longest. Then no number of producers can deadlock it.
module Fifo {
  import opened Wrappers
  import opened Monitor

  // The sleepers, longest asleep first.
  datatype Ordered = Ordered(m: State, line: seq<Thread>)

  predicate CanFire(o: Ordered, l: Label) {
    Enabled(o.m, l) && (l.Signal? ==> l.wake == if o.line == [] then None else Some(o.line[0]))
  }

  function FireOrdered(o: Ordered, l: Label): Ordered
    requires CanFire(o, l)
  {
    var line :=
      match l
      case Sleep(j) => o.line + [C(j)]
      case Block(i) => o.line + [P(i)]
      case Signal(_, _) => if o.line == [] then [] else o.line[1..]
      case Broadcast(_) => []
      case _ => o.line;
    Ordered(Fire(o.m, l), line)
  }

  predicate CanRunOrdered(o: Ordered, ls: seq<Label>)
    decreases |ls|
  {
    ls == [] || (CanFire(o, ls[0]) && CanRunOrdered(FireOrdered(o, ls[0]), ls[1..]))
  }

  function RunOrdered(o: Ordered, ls: seq<Label>): Ordered
    requires CanRunOrdered(o, ls)
    decreases |ls|
  {
    if ls == [] then o else RunOrdered(FireOrdered(o, ls[0]), ls[1..])
  }

  // The line holds each sleeper once; and unless a broadcast is to come, the
  // consumers stand before the producers.
  ghost predicate InLine(o: Ordered) {
    && (forall t :: t in o.line <==> Asleep(o.m, t))
    && (forall a, b :: 0 <= a < b < |o.line| ==> o.line[a] != o.line[b])
    && (Announcing !in o.m.consumers ==> ConsumersFirst(o.line))
  }

  ghost predicate ConsumersFirst(line: seq<Thread>) {
    forall a, b :: 0 <= a < b < |line| && line[b].C? ==> line[a].C?
  }

  ghost predicate OrderedInvariant(o: Ordered) {
    |o.m.consumers| >= 1 && o.m.capacity >= 1 && Owed(o.m) && InLine(o)
  }

  // While all consumers sleep, one of them stands first.
  lemma ConsumerStandsFirst(o: Ordered)
    requires OrderedInvariant(o) && AllWaiting(o.m)
    ensures o.line != [] && o.line[0].C?
  {
    assert Asleep(o.m, C(0));
    assert C(0) in o.line;
    assert Announcing !in o.m.consumers;
    var b :| 0 <= b < |o.line| && o.line[b] == C(0);
  }

  lemma OwedOrdered(o: Ordered, l: Label)
    requires OrderedInvariant(o) && CanFire(o, l)
    ensures Owed(Fire(o.m, l))
  {
    if l.Signal? {
      if AllWaiting(o.m) {
        ConsumerStandsFirst(o);
      }
      OwedSignal(o.m, l.i, l.wake);
    } else {
      OwedOther(o.m, l);
    }
  }

  lemma LineOrdered(o: Ordered, l: Label)
    requires OrderedInvariant(o) && CanFire(o, l)
    ensures InLine(FireOrdered(o, l))
  {
    match l
    case Sleep(j) => SleeperJoins(o, j);
    case Block(i) => BlockedJoins(o, i);
    case Signal(i, wake) => FirstLeaves(o, i, wake);
    case Broadcast(j) => {
      var m' := Fire(o.m, l);
      assert forall k :: 0 <= k < |m'.consumers| ==> m'.consumers[k] != Waiting;
      assert forall k :: 0 <= k < |m'.producers| ==> m'.producers[k] != Blocked;
    }
    case Pop(j) => {
      assert Fire(o.m, l).consumers[j] == Announcing;
      SameSleepers(o, l);
    }
    case Arrive(_) => SameSleepers(o, l);
    case Push(_) => SameSleepers(o, l);
  }

  lemma SameSleepers(o: Ordered, l: Label)
    requires Enabled(o.m, l) && (l.Arrive? || l.Push? || l.Pop?)
    ensures forall t :: Asleep(Fire(o.m, l), t) <==> Asleep(o.m, t)
  {
  }

  // A consumer that finds the queue empty joins consumers only, unless a
  // broadcast is to come.
  lemma SleeperJoins(o: Ordered, j: nat)
    requires OrderedInvariant(o) && CanFire(o, Sleep(j))
    ensures InLine(FireOrdered(o, Sleep(j)))
  {
    var o' := FireOrdered(o, Sleep(j));
    assert !Asleep(o.m, C(j));
    AnnouncingElsewhere(o.m.consumers, j, Waiting);
    forall t
      ensures t in o'.line <==> Asleep(o'.m, t)
    {
      assert t in o'.line <==> t in o.line || t == C(j);
    }
    JoinsOnce(o.line, C(j));
    if Announcing !in o'.m.consumers {
      forall a | 0 <= a < |o.line|
        ensures o.line[a].C?
      {
        assert o.line[a] in o.line;
        assert Blocked !in o.m.producers;
      }
    }
  }

  lemma BlockedJoins(o: Ordered, i: nat)
    requires OrderedInvariant(o) && CanFire(o, Block(i))
    ensures InLine(FireOrdered(o, Block(i)))
  {
    var o' := FireOrdered(o, Block(i));
    assert !Asleep(o.m, P(i));
    forall t
      ensures t in o'.line <==> Asleep(o'.m, t)
    {
      assert t in o'.line <==> t in o.line || t == P(i);
    }
    JoinsOnce(o.line, P(i));
  }

  lemma JoinsOnce(line: seq<Thread>, t: Thread)
    requires t !in line && forall a, b :: 0 <= a < b < |line| ==> line[a] != line[b]
    ensures var line' := line + [t]; forall a, b :: 0 <= a < b < |line'| ==> line'[a] != line'[b]
  {
    forall a | 0 <= a < |line|
      ensures line[a] != t
    {
      assert line[a] in line;
    }
  }

  lemma FirstLeaves(o: Ordered, i: nat, wake: Option<Thread>)
    requires OrderedInvariant(o) && CanFire(o, Signal(i, wake))
    ensures InLine(FireOrdered(o, Signal(i, wake)))
  {
    var o' := FireOrdered(o, Signal(i, wake));
    if o.line == [] {
      assert forall t :: Asleep(o'.m, t) <==> Asleep(o.m, t);
    } else {
      var first := o.line[0];
      if first.C? {
        AnnouncingElsewhere(o.m.consumers, first.j, Running);
      }
      forall t
        ensures t in o'.line <==> Asleep(o'.m, t)
      {
        assert o.line == [first] + o'.line;
        assert t in o'.line <==> t in o.line && t != first;
      }
    }
  }

  lemma {:induction false} OrderedRun(o: Ordered, ls: seq<Label>)
    requires OrderedInvariant(o) && CanRunOrdered(o, ls)
    ensures OrderedInvariant(RunOrdered(o, ls))
    decreases |ls|
  {
    if ls != [] {
      OwedOrdered(o, ls[0]);
      LineOrdered(o, ls[0]);
      OrderedRun(FireOrdered(o, ls[0]), ls[1..]);
    }
  }

  // With Go's order, whatever the numbers: not all threads ever sleep, a
  // signal sent while all consumers sleep wakes one of them, and threads that
  // have come to rest have drained the queue and left no producer stuck.
  lemma FifoNeverDeadlocks(m: State, ls: seq<Label>)
    requires |m.consumers| >= 1 && |m.producers| >= 1 && m.capacity >= 1
    requires Init(m) && CanRunOrdered(Ordered(m, []), ls)
    ensures var o := RunOrdered(Ordered(m, []), ls);
            && o.m.len <= o.m.capacity
            && !(AllWaiting(o.m) && AllBlocked(o.m))
            && (AllWaiting(o.m) ==> o.line != [] && o.line[0].C?)
            && (Quiescent(o.m) ==>
                  o.m.len == 0 && forall i :: 0 <= i < |o.m.producers| ==> o.m.producers[i] == Idle)
  {
    InitOwed(m);
    assert forall t :: !Asleep(m, t);
    OrderedRun(Ordered(m, []), ls);
    var o := RunOrdered(Ordered(m, []), ls);
    OrderedKeepsThreads(Ordered(m, []), ls);
    if AllWaiting(o.m) {
      ConsumerStandsFirst(o);
      NotAllAsleep(o.m);
    }
    if Quiescent(o.m) {
      QuiescentDrained(o.m);
    }
  }

  lemma {:induction false} OrderedKeepsThreads(o: Ordered, ls: seq<Label>)
    requires CanRunOrdered(o, ls)
    ensures |RunOrdered(o, ls).m.producers| == |o.m.producers|
    decreases |ls|
  {
    if ls != [] {
      OrderedKeepsThreads(FireOrdered(o, ls[0]), ls[1..]);
    }
  }

  lemma NotAllAsleep(m: State)
    requires Owed(m) && AllWaiting(m) && |m.producers| >= 1 && m.capacity >= 1
    ensures !AllBlocked(m)
  {
    if m.len > 0 {
      assert Signalling in multiset(m.producers);
      var i :| 0 <= i < |m.producers| && m.producers[i] == Signalling;
    } else {
      assert Announcing !in m.consumers && Blocked !in m.producers;
      assert m.producers[0] != Blocked;
    }
  }
}
