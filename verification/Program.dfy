// The whole program: the threads of the monitor around the shared data. A push
// publishes one change of the cluster, a pop is one worker step.
module Program {
  import opened Wrappers
  import P = Pipeline
  import M = Monitor

  datatype System = System(threads: M.State, world: P.World)

  // A thread step together with what it does to the data, if anything.
  datatype Act = Act(move: M.Label, step: Option<P.Step>)

  ghost predicate Possible(y: System, act: Act) {
    && M.Enabled(y.threads, act.move)
    && match act.move
       case Push(_) => act.step.Some? && !P.IsWork(act.step.value) && P.Allowed(y.world, act.step.value)
       case Pop(_) => act.step.Some? && P.IsWork(act.step.value) && P.Allowed(y.world, act.step.value)
       case _ => act.step == None
  }

  ghost function Perform(y: System, act: Act): System
    requires Possible(y, act)
  {
    System(M.Fire(y.threads, act.move), if act.step == None then y.world else P.Next(y.world, act.step.value))
  }

  ghost predicate CanRun(y: System, acts: seq<Act>)
    decreases |acts|
  {
    acts == [] || (Possible(y, acts[0]) && CanRun(Perform(y, acts[0]), acts[1..]))
  }

  ghost function Run(y: System, acts: seq<Act>): System
    requires CanRun(y, acts)
    decreases |acts|
  {
    if acts == [] then y else Run(Perform(y, acts[0]), acts[1..])
  }

  // The monitor's length is the queue's.
  ghost predicate Tied(y: System) { y.threads.len == |y.world.data.queue| }

  ghost predicate Invariant(y: System) {
    Tied(y) && M.Sized(y.threads) && M.Owed(y.threads) && P.Invariant(y.world)
  }

  // What Initial and Run leave: one queued listing, all threads ready.
  ghost predicate Started(y: System, addr: map<string, string>) {
    && M.Init(y.threads) && M.Sized(y.threads) && y.threads.len == 1
    && 0 !in y.world.cmTcp && 0 !in y.world.cmUdp
    && P.Lists(addr, y.world.backends)
    && y.world == P.Start(y.world.cmTcp, y.world.cmUdp, y.world.backends, addr)
  }

  lemma StartedInvariant(y: System, addr: map<string, string>)
    requires Started(y, addr)
    ensures Invariant(y)
  {
    M.InitOwed(y.threads);
    P.StartInvariant(y.world.cmTcp, y.world.cmUdp, y.world.backends, addr);
  }

  lemma ActKeepsInvariant(y: System, act: Act)
    requires Invariant(y) && Possible(y, act)
    ensures Invariant(Perform(y, act))
  {
    M.OwedStep(y.threads, act.move);
    if act.step.Some? {
      P.StepKeepsInvariant(y.world, act.step.value);
    }
  }

  lemma {:induction false} RunKeepsInvariant(y: System, acts: seq<Act>)
    requires Invariant(y) && CanRun(y, acts)
    ensures Invariant(Run(y, acts))
    decreases |acts|
  {
    if acts != [] {
      ActKeepsInvariant(y, acts[0]);
      RunKeepsInvariant(Perform(y, acts[0]), acts[1..]);
    }
  }

  // The main theorem. In every reachable state of any interleaving, the table
  // plus the queued work is what the cluster asks for, and the stores are fit
  // to be processed; and once the threads have come to rest, the table itself
  // serves exactly every configured port on every announced backend.
  lemma TableFollowsCluster(y: System, addr: map<string, string>, acts: seq<Act>)
    requires Started(y, addr) && CanRun(y, acts)
    ensures var y' := Run(y, acts);
            && P.Pending(y'.world.data) == P.Wanted(y'.world)
            && (y'.world.data.queue == [] ==> y'.world.data.table == P.Wanted(y'.world))
            && (M.Quiescent(y'.threads) ==> y'.world.data.queue == [] && y'.world.data.table == P.Wanted(y'.world))
            && P.Usable(y'.world.data.stores.clb) && P.Usable(y'.world.data.stores.plb)
  {
    StartedInvariant(y, addr);
    RunKeepsInvariant(y, acts);
    var y' := Run(y, acts);
    if M.Quiescent(y'.threads) {
      M.QuiescentDrained(y'.threads);
    }
  }

  // Without new events no run goes on for more than Measure steps.
  lemma {:induction false} ProgramRests(y: System, acts: seq<Act>)
    requires CanRun(y, acts) && forall k :: 0 <= k < |acts| ==> !acts[k].move.Arrive?
    ensures |acts| + M.Measure(Run(y, acts).threads) <= M.Measure(y.threads)
    decreases |acts|
  {
    if acts != [] {
      M.MeasureDrops(y.threads, acts[0].move);
      ProgramRests(Perform(y, acts[0]), acts[1..]);
    }
  }

  // The length stays within the capacity, and what was pushed and not popped
  // is what is queued.
  function Pushes(acts: seq<Act>): nat {
    if acts == [] then 0 else (if acts[0].move.Push? then 1 else 0) + Pushes(acts[1..])
  }

  function Pops(acts: seq<Act>): nat {
    if acts == [] then 0 else (if acts[0].move.Pop? then 1 else 0) + Pops(acts[1..])
  }

  lemma {:induction false} QueueBalance(y: System, acts: seq<Act>)
    requires Invariant(y) && CanRun(y, acts)
    ensures var y' := Run(y, acts);
            && |y.world.data.queue| + Pushes(acts) == Pops(acts) + |y'.world.data.queue|
            && |y'.world.data.queue| <= y'.threads.capacity == y.threads.capacity
    decreases |acts|
  {
    if acts != [] {
      ActKeepsInvariant(y, acts[0]);
      QueueBalance(Perform(y, acts[0]), acts[1..]);
    }
  }

  // ------------------------------------------------- many workers, or one

  // The steps a run takes on the data, in order.
  function Steps(acts: seq<Act>): seq<P.Step> {
    if acts == [] then [] else StepOf(acts[0]) + Steps(acts[1..])
  }

  function StepOf(act: Act): seq<P.Step> { if act.step == None then [] else [act.step.value] }

  function Single(k: nat, w: P.World): System {
    System(M.State(k, |w.data.queue|, [M.Running], [M.Idle]), w)
  }

  lemma Prepend(y: System, act: Act, acts: seq<Act>)
    requires Possible(y, act) && CanRun(Perform(y, act), acts)
    ensures CanRun(y, [act] + acts) && Run(y, [act] + acts) == Run(Perform(y, act), acts)
    ensures Steps([act] + acts) == StepOf(act) + Steps(acts)
  {
    assert ([act] + acts)[1..] == acts;
  }

  lemma PrependAppend(y: System, act: Act, acts: seq<Act>, acts': seq<Act>)
    requires Possible(y, act) && CanRun(Perform(y, act), acts + acts')
    ensures CanRun(y, ([act] + acts) + acts')
    ensures Run(y, ([act] + acts) + acts') == Run(Perform(y, act), acts + acts')
  {
    assert ([act] + acts) + acts' == [act] + (acts + acts');
    Prepend(y, act, acts + acts');
  }

  lemma {:induction false} RunAppend(y: System, acts: seq<Act>, acts': seq<Act>)
    requires CanRun(y, acts) && CanRun(Run(y, acts), acts')
    ensures CanRun(y, acts + acts') && Run(y, acts + acts') == Run(Run(y, acts), acts')
    decreases |acts|
  {
    if acts == [] {
      assert acts + acts' == acts';
    } else {
      RunAppend(Perform(y, acts[0]), acts[1..], acts');
      PrependAppend(y, acts[0], acts[1..], acts');
      assert acts == [acts[0]] + acts[1..];
    }
  }

  // One worker and one producer perform a publication: event, push, signal.
  lemma SinglePublishes(k: nat, w: P.World, step: P.Step) returns (acts: seq<Act>)
    requires !P.IsWork(step) && P.Allowed(w, step) && |w.data.queue| < k
    ensures var y := Single(k, w);
            CanRun(y, acts) && Run(y, acts) == Single(k, P.Next(w, step)) && Steps(acts) == [step]
  {
    var y0 := Single(k, w);
    var a1, a2, a3 := Act(M.Arrive(0), None), Act(M.Push(0), Some(step)), Act(M.Signal(0, None), None);
    var y1 := Perform(y0, a1);
    var y2 := Perform(y1, a2);
    var y3 := Perform(y2, a3);
    Prepend(y2, a3, []);
    Prepend(y1, a2, [a3] + []);
    Prepend(y0, a1, [a2] + ([a3] + []));
    acts := [a1] + ([a2] + ([a3] + []));
    assert y3 == Single(k, P.Next(w, step));
  }

  lemma SingleWorks(k: nat, w: P.World, step: P.Step) returns (acts: seq<Act>)
    requires P.IsWork(step) && P.Allowed(w, step)
    ensures var y := Single(k, w);
            CanRun(y, acts) && Run(y, acts) == Single(k, P.Next(w, step)) && Steps(acts) == [step]
  {
    var y0 := Single(k, w);
    var a1, a2 := Act(M.Pop(0), Some(step)), Act(M.Broadcast(0), None);
    var y1 := Perform(y0, a1);
    var y2 := Perform(y1, a2);
    Prepend(y1, a2, []);
    Prepend(y0, a1, [a2] + []);
    acts := [a1] + ([a2] + []);
    assert y2 == Single(k, P.Next(w, step));
  }

  // One act of the program, done by one worker and one producer.
  lemma SingleFollows(y: System, act: Act) returns (acts: seq<Act>)
    requires Invariant(y) && Possible(y, act)
    ensures var y1 := Single(y.threads.capacity, y.world);
            && CanRun(y1, acts)
            && Run(y1, acts) == Single(y.threads.capacity, Perform(y, act).world)
            && Steps(acts) == StepOf(act)
  {
    if act.step == None {
      acts := [];
    } else if act.move.Push? {
      acts := SinglePublishes(y.threads.capacity, y.world, act.step.value);
    } else {
      acts := SingleWorks(y.threads.capacity, y.world, act.step.value);
    }
  }

  lemma SingleGoesOn(y: System, act: Act, rest: seq<Act>) returns (single: seq<Act>)
    requires Invariant(y) && Possible(y, act)
    requires CanRun(Single(y.threads.capacity, Perform(y, act).world), rest)
    ensures var y1, y2 := Single(y.threads.capacity, y.world), Single(y.threads.capacity, Perform(y, act).world);
            CanRun(y1, single) && Run(y1, single) == Run(y2, rest) && Steps(single) == StepOf(act) + Steps(rest)
  {
    var first := SingleFollows(y, act);
    RunAppend(Single(y.threads.capacity, y.world), first, rest);
    StepsAppend(first, rest);
    single := first + rest;
  }

  // Since pop and processing share one locked section, whatever any number of
  // workers does, one worker can do too: same steps on the data in the same
  // order, hence the same table.
  lemma {:induction false} OneWorkerSuffices(y: System, acts: seq<Act>) returns (single: seq<Act>)
    requires Invariant(y) && CanRun(y, acts)
    ensures var y1 := Single(y.threads.capacity, y.world);
            && CanRun(y1, single)
            && Run(y1, single) == Single(y.threads.capacity, Run(y, acts).world)
            && Steps(single) == Steps(acts)
    decreases |acts|
  {
    if acts == [] {
      single := [];
    } else {
      var y' := Perform(y, acts[0]);
      ActKeepsInvariant(y, acts[0]);
      var rest := OneWorkerSuffices(y', acts[1..]);
      single := SingleGoesOn(y, acts[0], rest);
    }
  }

  lemma {:induction false} StepsAppend(a: seq<Act>, b: seq<Act>)
    ensures Steps(a + b) == Steps(a) + Steps(b)
    decreases |a|
  {
    if a == [] {
      assert a + b == b;
    } else {
      StepsAppend(a[1..], b);
      assert (a + b)[1..] == a[1..] + b && (a + b)[0] == a[0];
      assert Steps(a + b) == StepOf(a[0]) + (Steps(a[1..]) + Steps(b));
    }
  }
}
