// The bounded queue as a monitor: one lock, one condition variable for both
// "not empty" and "not full". A locked section is one step; Signal and
// Broadcast come after the unlock and are steps of their own.
module Monitor {
  import opened Wrappers

  // Running: about to take the lock. Waiting: asleep in cond.Wait.
  // Announcing: has popped and unlocked, Broadcast still to come.
  datatype Consumer = Running | Waiting | Announcing

  // Idle: no event. Trying: about to take the lock. Blocked: asleep in
  // cond.Wait. Signalling: has pushed and unlocked, Signal still to come.
  datatype Producer = Idle | Trying | Blocked | Signalling

  datatype State = State(capacity: nat, len: nat, consumers: seq<Consumer>, producers: seq<Producer>)

  datatype Thread = C(j: nat) | P(i: nat)

  datatype Label =
    | Arrive(i: nat)
    | Push(i: nat)
    | Block(i: nat)
    | Signal(i: nat, wake: Option<Thread>)
    | Pop(j: nat)
    | Sleep(j: nat)
    | Broadcast(j: nat)

  predicate Asleep(m: State, t: Thread) {
    match t
    case C(j) => j < |m.consumers| && m.consumers[j] == Waiting
    case P(i) => i < |m.producers| && m.producers[i] == Blocked
  }

  predicate NoneAsleep(m: State) { Waiting !in m.consumers && Blocked !in m.producers }

  predicate ProducerIs(m: State, i: nat, p: Producer) { i < |m.producers| && m.producers[i] == p }

  predicate ConsumerIs(m: State, j: nat, c: Consumer) { j < |m.consumers| && m.consumers[j] == c }

  // Signal wakes any one sleeper, if there is one.
  predicate Enabled(m: State, l: Label) {
    match l
    case Arrive(i) => ProducerIs(m, i, Idle)
    case Push(i) => ProducerIs(m, i, Trying) && m.len != m.capacity
    case Block(i) => ProducerIs(m, i, Trying) && m.len == m.capacity
    case Signal(i, wake) =>
      ProducerIs(m, i, Signalling) && if wake == None then NoneAsleep(m) else Asleep(m, wake.value)
    case Pop(j) => ConsumerIs(m, j, Running) && m.len != 0
    case Sleep(j) => ConsumerIs(m, j, Running) && m.len == 0
    case Broadcast(j) => ConsumerIs(m, j, Announcing)
  }

  function WakeConsumer(c: Consumer): Consumer { if c == Waiting then Running else c }

  function WakeProducer(p: Producer): Producer { if p == Blocked then Trying else p }

  function WakeConsumers(s: seq<Consumer>): seq<Consumer> {
    seq(|s|, j requires 0 <= j < |s| => WakeConsumer(s[j]))
  }

  function WakeProducers(s: seq<Producer>): seq<Producer> {
    seq(|s|, i requires 0 <= i < |s| => WakeProducer(s[i]))
  }

  function Fire(m: State, l: Label): State
    requires Enabled(m, l)
  {
    match l
    case Arrive(i) => m.(producers := m.producers[i := Trying])
    case Push(i) => m.(producers := m.producers[i := Signalling], len := m.len + 1)
    case Block(i) => m.(producers := m.producers[i := Blocked])
    case Signal(i, wake) =>
      (match wake
       case None => m.(producers := m.producers[i := Idle])
       case Some(C(j)) => m.(producers := m.producers[i := Idle], consumers := m.consumers[j := Running])
       case Some(P(i')) => m.(producers := m.producers[i := Idle][i' := Trying]))
    case Pop(j) => m.(consumers := m.consumers[j := Announcing], len := m.len - 1)
    case Sleep(j) => m.(consumers := m.consumers[j := Waiting])
    case Broadcast(j) =>
      m.(consumers := WakeConsumers(m.consumers[j := Running]), producers := WakeProducers(m.producers))
  }

  predicate CanRun(m: State, ls: seq<Label>)
    decreases |ls|
  {
    ls == [] || (Enabled(m, ls[0]) && CanRun(Fire(m, ls[0]), ls[1..]))
  }

  function Run(m: State, ls: seq<Label>): State
    requires CanRun(m, ls)
    decreases |ls|
  {
    if ls == [] then m else Run(Fire(m, ls[0]), ls[1..])
  }

  // Nobody sleeps or has anything to announce; Initial may have pushed already.
  predicate Init(m: State) {
    && m.len <= m.capacity
    && (forall j :: 0 <= j < |m.consumers| ==> m.consumers[j] == Running)
    && (forall i :: 0 <= i < |m.producers| ==> m.producers[i] == Idle)
  }

  // ------------------------------------------------- the invariant

  predicate AllWaiting(m: State) { forall j :: 0 <= j < |m.consumers| ==> m.consumers[j] == Waiting }

  predicate AllBlocked(m: State) { forall i :: 0 <= i < |m.producers| ==> m.producers[i] == Blocked }

  function Signals(m: State): nat { multiset(m.producers)[Signalling] }

  // Sleeping consumers are owed a signal per queued item; a sleeping producer
  // means a full queue or a broadcast to come.
  predicate Owed(m: State) {
    && m.len <= m.capacity
    && (AllWaiting(m) ==> m.len <= Signals(m))
    && (Blocked in m.producers ==> m.len == m.capacity || Announcing in m.consumers)
  }

  // There is a consumer, and no more producers than places in the queue.
  predicate Sized(m: State) { |m.consumers| >= 1 && 1 <= |m.producers| <= m.capacity }

  lemma {:induction false} CountsFit(s: seq<Producer>, p: Producer, q: Producer)
    requires p != q
    ensures multiset(s)[p] + multiset(s)[q] <= |s|
  {
    if s != [] {
      CountsFit(s[1..], p, q);
      assert s == [s[0]] + s[1..];
    }
  }

  // While all consumers sleep on queued work, no producer sleeps: this is
  // where the number of producers matters.
  lemma NoBlockedProducer(m: State)
    requires Owed(m) && AllWaiting(m) && |m.producers| <= m.capacity
    ensures Blocked !in m.producers
  {
    if Blocked in m.producers {
      CountsFit(m.producers, Signalling, Blocked);
    }
  }

  lemma OwedStep(m: State, l: Label)
    requires Sized(m) && Owed(m) && Enabled(m, l)
    ensures Sized(Fire(m, l)) && Owed(Fire(m, l))
  {
    match l
    case Signal(i, wake) => {
      if AllWaiting(m) {
        NoBlockedProducer(m);
      }
      OwedSignal(m, i, wake);
    }
    case _ => OwedOther(m, l);
  }

  // The other steps keep the invariant for any number of producers.
  lemma OwedOther(m: State, l: Label)
    requires Owed(m) && Enabled(m, l) && !l.Signal?
    ensures Owed(Fire(m, l))
  {
    match l
    case Broadcast(j) => OwedBroadcast(m, j);
    case Pop(j) => OwedPop(m, j);
    case Sleep(j) => OwedSleep(m, j);
    case Arrive(i) => OwedArrive(m, i);
    case Push(i) => OwedPush(m, i);
    case Block(i) => OwedBlock(m, i);
  }

  lemma OwedBroadcast(m: State, j: nat)
    requires Owed(m) && Enabled(m, Broadcast(j))
    ensures Owed(Fire(m, Broadcast(j)))
  {
    var m' := Fire(m, Broadcast(j));
    assert m'.consumers[j] == Running;
    assert forall k :: 0 <= k < |m'.producers| ==> m'.producers[k] != Blocked;
  }

  lemma OwedPop(m: State, j: nat)
    requires Owed(m) && Enabled(m, Pop(j))
    ensures Owed(Fire(m, Pop(j)))
  {
    assert Fire(m, Pop(j)).consumers[j] == Announcing;
  }

  lemma OwedSleep(m: State, j: nat)
    requires Owed(m) && Enabled(m, Sleep(j))
    ensures Owed(Fire(m, Sleep(j)))
  {
    AnnouncingElsewhere(m.consumers, j, Waiting);
  }

  lemma OwedArrive(m: State, i: nat)
    requires Owed(m) && Enabled(m, Arrive(i))
    ensures Owed(Fire(m, Arrive(i)))
  {
    BlockedElsewhere(m.producers, i, Trying);
  }

  lemma OwedPush(m: State, i: nat)
    requires Owed(m) && Enabled(m, Push(i))
    ensures Owed(Fire(m, Push(i)))
  {
    BlockedElsewhere(m.producers, i, Signalling);
  }

  lemma OwedBlock(m: State, i: nat)
    requires Owed(m) && Enabled(m, Block(i))
    ensures Owed(Fire(m, Block(i)))
  {
  }

  lemma AnnouncingElsewhere(s: seq<Consumer>, j: nat, c: Consumer)
    requires j < |s| && s[j] != Announcing
    ensures Announcing in s ==> Announcing in s[j := c]
  {
    if k :| 0 <= k < |s| && s[k] == Announcing {
      assert s[j := c][k] == Announcing;
    }
  }

  lemma BlockedElsewhere(s: seq<Producer>, i: nat, p: Producer)
    requires i < |s| && p != Blocked
    ensures Blocked in s[i := p] ==> Blocked in s
  {
    var s' := s[i := p];
    if k :| 0 <= k < |s'| && s'[k] == Blocked {
      assert s[k] == Blocked;
    }
  }

  // A signal does so as long as it wakes no producer while all consumers sleep.
  lemma OwedSignal(m: State, i: nat, wake: Option<Thread>)
    requires |m.consumers| >= 1 && Owed(m) && Enabled(m, Signal(i, wake))
    requires AllWaiting(m) && wake.Some? ==> wake.value.C?
    ensures Owed(Fire(m, Signal(i, wake)))
  {
    var m' := Fire(m, Signal(i, wake));
    BlockedElsewhere(m.producers, i, Idle);
    match wake
    case None => {
      assert m.consumers[0] != Waiting;
    }
    case Some(C(j)) => {
      assert m'.consumers[j] == Running;
      AnnouncingElsewhere(m.consumers, j, Running);
    }
    case Some(P(i')) => {
      BlockedElsewhere(m.producers[i := Idle], i', Trying);
    }
  }

  lemma InitOwed(m: State)
    requires Init(m) && |m.consumers| >= 1
    ensures Owed(m)
  {
    assert m.consumers[0] == Running;
    assert Blocked !in m.producers;
  }

  lemma {:induction false} OwedRun(m: State, ls: seq<Label>)
    requires Sized(m) && Owed(m) && CanRun(m, ls)
    ensures Sized(Run(m, ls)) && Owed(Run(m, ls))
    decreases |ls|
  {
    if ls != [] {
      OwedStep(m, ls[0]);
      OwedRun(Fire(m, ls[0]), ls[1..]);
    }
  }

  // ------------------------------------------------- no lost wakeup

  // In every reachable state: the queue is within bounds; not all threads
  // sleep; and if all consumers sleep on queued work, some producer still has
  // to signal, and whichever sleeper that wakes is a consumer.
  lemma NoLostWakeup(m: State, ls: seq<Label>)
    requires Sized(m) && Init(m) && CanRun(m, ls)
    ensures var m' := Run(m, ls);
            && m'.len <= m'.capacity
            && !(AllWaiting(m') && AllBlocked(m'))
            && (AllWaiting(m') && m'.len > 0 ==>
                  && (exists i :: 0 <= i < |m'.producers| && ProducerIs(m', i, Signalling))
                  && (forall i, wake :: Enabled(m', Signal(i, wake)) ==> wake.Some? && wake.value.C?))
  {
    InitOwed(m);
    OwedRun(m, ls);
    var m' := Run(m, ls);
    if AllWaiting(m') {
      NoBlockedProducer(m');
      assert m'.producers[0] != Blocked;
      if m'.len > 0 {
        assert Signalling in multiset(m'.producers);
        var i :| 0 <= i < |m'.producers| && m'.producers[i] == Signalling;
        assert ProducerIs(m', i, Signalling);
        assert m'.consumers[0] == Waiting;
      }
    }
  }

  // No step of the threads themselves is left.
  ghost predicate Quiescent(m: State) { forall l :: Enabled(m, l) ==> l.Arrive? }

  // Once the threads have come to rest, everything published has been popped
  // and no producer is stuck.
  lemma RestIsDrained(m: State, ls: seq<Label>)
    requires Sized(m) && Init(m) && CanRun(m, ls) && Quiescent(Run(m, ls))
    ensures var m' := Run(m, ls);
            m'.len == 0 && AllWaiting(m') && forall i :: 0 <= i < |m'.producers| ==> m'.producers[i] == Idle
  {
    InitOwed(m);
    OwedRun(m, ls);
    QuiescentDrained(Run(m, ls));
  }

  lemma QuiescentDrained(m: State)
    requires |m.consumers| >= 1 && m.capacity >= 1 && Owed(m) && Quiescent(m)
    ensures m.len == 0 && AllWaiting(m) && forall i :: 0 <= i < |m.producers| ==> m.producers[i] == Idle
  {
    forall j | 0 <= j < |m.consumers|
      ensures m.consumers[j] == Waiting
    {
      assert !Enabled(m, Pop(j)) && !Enabled(m, Sleep(j)) && !Enabled(m, Broadcast(j));
    }
    forall i | 0 <= i < |m.producers|
      ensures m.producers[i] == Idle || m.producers[i] == Blocked
    {
      assert !Enabled(m, Push(i)) && !Enabled(m, Block(i)) && !Enabled(m, Signal(i, Some(C(0))));
    }
    assert Signalling !in m.producers;
    assert Signalling !in multiset(m.producers);
    assert Blocked !in m.producers;
  }

  // ------------------------------------------------- the threads do come to rest

  function Threads(m: State): nat { |m.consumers| + |m.producers| }

  function ConsumerWeight(c: Consumer, n: nat): nat {
    match c
    case Waiting => 0
    case Running => 1
    case Announcing => n + 1
  }

  function ProducerWeight(p: Producer, n: nat): nat {
    match p
    case Idle => 0
    case Trying => n + 4
    case Blocked => n + 3
    case Signalling => 2
  }

  function ConsumersWeight(s: seq<Consumer>, n: nat): nat {
    if s == [] then 0 else ConsumersWeight(s[..|s| - 1], n) + ConsumerWeight(s[|s| - 1], n)
  }

  function ProducersWeight(s: seq<Producer>, n: nat): nat {
    if s == [] then 0 else ProducersWeight(s[..|s| - 1], n) + ProducerWeight(s[|s| - 1], n)
  }

  function QueueWeight(len: nat, n: nat): nat {
    if len == 0 then 0 else QueueWeight(len - 1, n) + n + 1
  }

  // An upper bound on the steps left without new events.
  function Measure(m: State): nat {
    var n := Threads(m);
    QueueWeight(m.len, n) + ConsumersWeight(m.consumers, n) + ProducersWeight(m.producers, n)
  }

  lemma {:induction false} ConsumerUpdate(s: seq<Consumer>, j: nat, c: Consumer, n: nat)
    requires j < |s|
    ensures ConsumersWeight(s[j := c], n) == ConsumersWeight(s, n) - ConsumerWeight(s[j], n) + ConsumerWeight(c, n)
    decreases |s|
  {
    var init := s[..|s| - 1];
    if j < |init| {
      ConsumerUpdate(init, j, c, n);
      assert s[j := c][..|s| - 1] == init[j := c];
    } else {
      assert s[j := c][..|s| - 1] == init;
    }
  }

  lemma {:induction false} ProducerUpdate(s: seq<Producer>, i: nat, p: Producer, n: nat)
    requires i < |s|
    ensures ProducersWeight(s[i := p], n) == ProducersWeight(s, n) - ProducerWeight(s[i], n) + ProducerWeight(p, n)
    decreases |s|
  {
    var init := s[..|s| - 1];
    if i < |init| {
      ProducerUpdate(init, i, p, n);
      assert s[i := p][..|s| - 1] == init[i := p];
    } else {
      assert s[i := p][..|s| - 1] == init;
    }
  }

  lemma {:induction false} WakeConsumersWeight(s: seq<Consumer>, n: nat)
    ensures ConsumersWeight(WakeConsumers(s), n) <= ConsumersWeight(s, n) + |s|
    decreases |s|
  {
    if s != [] {
      WakeConsumersWeight(s[..|s| - 1], n);
      assert WakeConsumers(s)[..|s| - 1] == WakeConsumers(s[..|s| - 1]);
    }
  }

  // The consumer that broadcasts is itself awake, so at most the others wake.
  lemma {:induction false} WakeOthersWeight(s: seq<Consumer>, j: nat, n: nat)
    requires j < |s| && s[j] == Running
    ensures ConsumersWeight(WakeConsumers(s), n) <= ConsumersWeight(s, n) + |s| - 1
    decreases |s|
  {
    assert WakeConsumers(s)[..|s| - 1] == WakeConsumers(s[..|s| - 1]);
    if j < |s| - 1 {
      WakeOthersWeight(s[..|s| - 1], j, n);
    } else {
      WakeConsumersWeight(s[..|s| - 1], n);
    }
  }

  lemma {:induction false} WakeProducersWeight(s: seq<Producer>, n: nat)
    ensures ProducersWeight(WakeProducers(s), n) <= ProducersWeight(s, n) + |s|
    decreases |s|
  {
    if s != [] {
      WakeProducersWeight(s[..|s| - 1], n);
      assert WakeProducers(s)[..|s| - 1] == WakeProducers(s[..|s| - 1]);
    }
  }

  lemma SignalDrops(m: State, i: nat, wake: Option<Thread>)
    requires Enabled(m, Signal(i, wake))
    ensures Measure(Fire(m, Signal(i, wake))) < Measure(m)
  {
    var n := Threads(m);
    ProducerUpdate(m.producers, i, Idle, n);
    match wake
    case None =>
    case Some(C(j)) => ConsumerUpdate(m.consumers, j, Running, n);
    case Some(P(i')) => ProducerUpdate(m.producers[i := Idle], i', Trying, n);
  }

  lemma BroadcastDrops(m: State, j: nat)
    requires Enabled(m, Broadcast(j))
    ensures Measure(Fire(m, Broadcast(j))) < Measure(m)
  {
    var n := Threads(m);
    ConsumerUpdate(m.consumers, j, Running, n);
    WakeOthersWeight(m.consumers[j := Running], j, n);
    WakeProducersWeight(m.producers, n);
  }

  lemma PushDrops(m: State, i: nat)
    requires Enabled(m, Push(i))
    ensures Measure(Fire(m, Push(i))) < Measure(m)
  {
    ProducerUpdate(m.producers, i, Signalling, Threads(m));
  }

  lemma PopDrops(m: State, j: nat)
    requires Enabled(m, Pop(j))
    ensures Measure(Fire(m, Pop(j))) < Measure(m)
  {
    ConsumerUpdate(m.consumers, j, Announcing, Threads(m));
  }

  lemma MeasureDrops(m: State, l: Label)
    requires Enabled(m, l) && !l.Arrive?
    ensures Measure(Fire(m, l)) < Measure(m)
  {
    match l
    case Signal(i, wake) => SignalDrops(m, i, wake);
    case Broadcast(j) => BroadcastDrops(m, j);
    case Push(i) => PushDrops(m, i);
    case Pop(j) => PopDrops(m, j);
    case Block(i) => ProducerUpdate(m.producers, i, Blocked, Threads(m));
    case Sleep(j) => ConsumerUpdate(m.consumers, j, Waiting, Threads(m));
  }

  // Without new events every run ends, after at most Measure steps.
  lemma {:induction false} RunsEnd(m: State, ls: seq<Label>)
    requires CanRun(m, ls) && forall k :: 0 <= k < |ls| ==> !ls[k].Arrive?
    ensures |ls| + Measure(Run(m, ls)) <= Measure(m)
    decreases |ls|
  {
    if ls != [] {
      MeasureDrops(m, ls[0]);
      RunsEnd(Fire(m, ls[0]), ls[1..]);
    }
  }

  // ------------------------------------------------- the bound is tight

  lemma {:induction false} RunAppend(m: State, ls: seq<Label>, ls': seq<Label>)
    requires CanRun(m, ls) && CanRun(Run(m, ls), ls')
    ensures CanRun(m, ls + ls') && Run(m, ls + ls') == Run(Run(m, ls), ls')
    decreases |ls|
  {
    if ls == [] {
      assert ls + ls' == ls';
    } else {
      RunAppend(Fire(m, ls[0]), ls[1..], ls');
      assert (ls + ls')[1..] == ls[1..] + ls' && (ls + ls')[0] == ls[0];
    }
  }

  lemma RunOne(m: State, l: Label)
    requires Enabled(m, l)
    ensures CanRun(m, [l]) && Run(m, [l]) == Fire(m, l)
  {
    var m' := Fire(m, l);
    assert [l][1..] == [];
    assert CanRun(m', []) && Run(m', []) == m';
  }

  function Repeat<T>(x: T, n: nat): seq<T> { seq(n, _ => x) }

  // k threads in one state, the others in another.
  function Mixed<T>(x: T, k: nat, y: T, n: nat): seq<T>
    requires k <= n
  {
    seq(n, i => if i < k then x else y)
  }

  lemma Extend(m: State, ls: seq<Label>, l: Label) returns (longer: seq<Label>)
    requires CanRun(m, ls) && Enabled(Run(m, ls), l)
    ensures CanRun(m, longer) && Run(m, longer) == Fire(Run(m, ls), l)
  {
    RunOne(Run(m, ls), l);
    RunAppend(m, ls, [l]);
    longer := ls + [l];
  }

  // All n consumers find the queue empty and go to sleep.
  lemma {:induction false} ConsumersSleep(n: nat, p: nat, k: nat, c: nat) returns (ls: seq<Label>)
    requires c <= n
    ensures var m := State(k, 0, Repeat(Running, n), Repeat(Idle, p));
            CanRun(m, ls) && Run(m, ls) == State(k, 0, Mixed(Waiting, c, Running, n), Repeat(Idle, p))
  {
    var m := State(k, 0, Repeat(Running, n), Repeat(Idle, p));
    if c == 0 {
      ls := [];
      assert Mixed(Waiting, 0, Running, n) == Repeat(Running, n);
    } else {
      ls := ConsumersSleep(n, p, k, c - 1);
      ls := Extend(m, ls, Sleep(c - 1));
      assert Mixed(Waiting, c - 1, Running, n)[c - 1 := Waiting] == Mixed(Waiting, c, Running, n);
    }
  }

  // The first c producers push, none of them signalling yet.
  lemma {:induction false} ProducersPush(n: nat, p: nat, k: nat, c: nat) returns (ls: seq<Label>)
    requires c <= k < p
    ensures var m := State(k, 0, Repeat(Waiting, n), Repeat(Idle, p));
            CanRun(m, ls) && Run(m, ls) == State(k, c, Repeat(Waiting, n), Mixed(Signalling, c, Idle, p))
  {
    var m := State(k, 0, Repeat(Waiting, n), Repeat(Idle, p));
    if c == 0 {
      ls := [];
      assert Mixed(Signalling, 0, Idle, p) == Repeat(Idle, p);
    } else {
      ls := ProducersPush(n, p, k, c - 1);
      ls := Extend(m, ls, Arrive(c - 1));
      ls := Extend(m, ls, Push(c - 1));
      assert Mixed(Signalling, c - 1, Idle, p)[c - 1 := Trying][c - 1 := Signalling] == Mixed(Signalling, c, Idle, p);
    }
  }

  // The other producers find the queue full and go to sleep.
  lemma {:induction false} LateProducersBlock(n: nat, p: nat, k: nat, c: nat) returns (ls: seq<Label>)
    requires k + c <= p
    ensures var m := State(k, k, Repeat(Waiting, n), Mixed(Signalling, k, Idle, p));
            && CanRun(m, ls)
            && Run(m, ls) == State(k, k, Repeat(Waiting, n),
                                   seq(p, i => if i < k then Signalling else if i < k + c then Blocked else Idle))
  {
    var m := State(k, k, Repeat(Waiting, n), Mixed(Signalling, k, Idle, p));
    var target := seq(p, i => if i < k then Signalling else if i < k + c then Blocked else Idle);
    if c == 0 {
      ls := [];
      assert m.producers == target;
    } else {
      ls := LateProducersBlock(n, p, k, c - 1);
      var before := Run(m, ls).producers;
      ls := Extend(m, ls, Arrive(k + c - 1));
      ls := Extend(m, ls, Block(k + c - 1));
      assert before[k + c - 1 := Trying][k + c - 1 := Blocked] == target;
    }
  }

  // Each signal wakes producer k, which finds the queue full and sleeps again;
  // the signaller's next event blocks it too.
  lemma {:induction false} SignalsAreWasted(n: nat, p: nat, k: nat, c: nat) returns (ls: seq<Label>)
    requires c <= k < p
    ensures var m := State(k, k, Repeat(Waiting, n), Mixed(Signalling, k, Blocked, p));
            && CanRun(m, ls)
            && Run(m, ls) == State(k, k, Repeat(Waiting, n),
                                   seq(p, i => if c <= i < k then Signalling else Blocked))
  {
    var m := State(k, k, Repeat(Waiting, n), Mixed(Signalling, k, Blocked, p));
    var target := seq(p, i => if c <= i < k then Signalling else Blocked);
    if c == 0 {
      ls := [];
      assert m.producers == target;
    } else {
      ls := SignalsAreWasted(n, p, k, c - 1);
      var before := Run(m, ls).producers;
      ls := Extend(m, ls, Signal(c - 1, Some(P(k))));
      ls := Extend(m, ls, Block(k));
      ls := Extend(m, ls, Arrive(c - 1));
      ls := Extend(m, ls, Block(c - 1));
      assert before[c - 1 := Idle][k := Trying][k := Blocked][c - 1 := Trying][c - 1 := Blocked] == target;
    }
  }

  // With more producers than places, all threads can fall asleep on a full queue.
  lemma DeadlockRun(n: nat, p: nat, k: nat) returns (ls: seq<Label>)
    requires n >= 1 && 1 <= k < p
    ensures var m := State(k, 0, Repeat(Running, n), Repeat(Idle, p));
            CanRun(m, ls) && Run(m, ls) == State(k, k, Repeat(Waiting, n), Repeat(Blocked, p))
  {
    var m := State(k, 0, Repeat(Running, n), Repeat(Idle, p));
    ls := ConsumersSleep(n, p, k, n);
    assert Mixed(Waiting, n, Running, n) == Repeat(Waiting, n);
    var next := ProducersPush(n, p, k, k);
    RunAppend(m, ls, next);
    ls := ls + next;
    next := LateProducersBlock(n, p, k, p - k);
    RunAppend(m, ls, next);
    ls := ls + next;
    assert seq(p, i => if i < k then Signalling else if i < k + (p - k) then Blocked else Idle) ==
           Mixed(Signalling, k, Blocked, p);
    next := SignalsAreWasted(n, p, k, k);
    RunAppend(m, ls, next);
    ls := ls + next;
    assert seq(p, i => if k <= i < k then Signalling else Blocked) == Repeat(Blocked, p);
  }

  ghost predicate CanDeadlock(n: nat, p: nat, k: nat) {
    exists ls :: var m := State(k, 0, Repeat(Running, n), Repeat(Idle, p));
      CanRun(m, ls) && AllWaiting(Run(m, ls)) && AllBlocked(Run(m, ls))
  }

  // n consumers and p producers on a queue with k places can all fall asleep
  // exactly when there are more producers than places. The program has two
  // producers and three places.
  lemma DeadlockIff(n: nat, p: nat, k: nat)
    requires n >= 1 && p >= 1 && k >= 1
    ensures CanDeadlock(n, p, k) <==> p > k
  {
    var m := State(k, 0, Repeat(Running, n), Repeat(Idle, p));
    if p > k {
      var ls := DeadlockRun(n, p, k);
      assert AllWaiting(Run(m, ls)) && AllBlocked(Run(m, ls));
    } else if CanDeadlock(n, p, k) {
      var ls :| CanRun(m, ls) && AllWaiting(Run(m, ls)) && AllBlocked(Run(m, ls));
      NoLostWakeup(m, ls);
    }
  }

  // The program's own numbers: whatever the number of workers, its two
  // informer callbacks and three places cannot deadlock.
  lemma ProgramCannotDeadlock(workers: nat)
    requires workers >= 1
    ensures !CanDeadlock(workers, 2, 3)
  {
    DeadlockIff(workers, 2, 3);
  }
}
