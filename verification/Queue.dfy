// The queue carries references to two shared stores that producers rewrite in
// place, so every queued reference stands for what its store holds when popped.
module Queue {
  import opened TableView
  import opened Ports
  import opened Batch

  // clbdata is written by the configmap handler, plbdata by the pod handler.
  datatype Ref = Clb | Plb

  datatype Stores = Stores(clb: Store, plb: Store) {
    function At(r: Ref): Store { if r == Clb then clb else plb }

    function With(r: Ref, s: Store): Stores { if r == Clb then Stores(s, plb) else Stores(clb, s) }
  }

  function Other(r: Ref): Ref { if r == Clb then Plb else Clb }

  // Working off the whole queue, first in first out, if no store changes.
  function Fold(q: seq<Ref>, h: Stores, t: set<Triple>): set<Triple>
    decreases |q|
  {
    if q == [] then t else Fold(q[1..], h, Process(h.At(q[0]), t))
  }

  lemma {:induction false} FoldSnoc(q: seq<Ref>, r: Ref, h: Stores, t: set<Triple>)
    ensures Fold(q + [r], h, t) == Process(h.At(r), Fold(q, h, t))
    decreases |q|
  {
    if q == [] {
      assert Fold([r], h, t) == Fold([], h, Process(h.At(r), t));
    } else {
      assert (q + [r])[1..] == q[1..] + [r];
      FoldSnoc(q[1..], r, h, Process(h.At(q[0]), t));
    }
  }

  // The last queued reference decides what it can, then the other one, however
  // many references to each are queued and in whatever order.
  lemma {:induction false} FoldAt(q: seq<Ref>, h: Stores, t: set<Triple>, x: Triple)
    requires q != []
    ensures var r := q[|q| - 1];
            x in Fold(q, h, t) <==>
            if Decides(h.At(r), x) then Inserts(h.At(r), x)
            else if Other(r) in q && Decides(h.At(Other(r)), x) then Inserts(h.At(Other(r)), x)
            else x in t
    decreases |q|
  {
    var init, r := q[..|q| - 1], q[|q| - 1];
    assert q == init + [r];
    assert forall k :: k in q <==> k in init || k == r;
    FoldSnoc(init, r, h, t);
    ProcessAt(h.At(r), Fold(init, h, t), x);
    if init != [] {
      FoldAt(init, h, t, x);
    } else {
      assert Fold(init, h, t) == t;
    }
  }

  // So a queue amounts to one processing of each store in it, the store of
  // the last reference coming last.
  lemma {:induction false} QueueCollapses(q: seq<Ref>, h: Stores, t: set<Triple>)
    requires q != []
    ensures var r := q[|q| - 1];
            Fold(q, h, t) == Process(h.At(r), if Other(r) in q then Process(h.At(Other(r)), t) else t)
  {
    var r := q[|q| - 1];
    var first := if Other(r) in q then Process(h.At(Other(r)), t) else t;
    forall x
      ensures x in Fold(q, h, t) <==> x in Process(h.At(r), first)
    {
      FoldAt(q, h, t, x);
      ProcessAt(h.At(r), first, x);
      ProcessAt(h.At(Other(r)), t, x);
    }
  }

  // ------------------------------------------------- rewriting a queued store

  // Rewriting store r to s and queueing it is as good as queueing a copy of s
  // behind the contents published before.
  ghost predicate Lossless(q: seq<Ref>, h: Stores, r: Ref, s: Store) {
    forall t :: Fold(q + [r], h.With(r, s), t) == Process(s, Fold(q, h, t))
  }

  // What r decided and s does not must be decided by the other queued store,
  // later in the queue or to the same effect.
  predicate Covered(q: seq<Ref>, h: Stores, r: Ref, s: Store, x: Triple) {
    Decides(h.At(r), x) ==>
      || Decides(s, x)
      || (Other(r) in q && Decides(h.At(Other(r)), x) &&
          (q[|q| - 1] == Other(r) || Inserts(h.At(Other(r)), x) == Inserts(h.At(r), x)))
  }

  ghost predicate HarmlessRewrite(q: seq<Ref>, h: Stores, r: Ref, s: Store) {
    r !in q || forall x :: Covered(q, h, r, s, x)
  }

  lemma RewriteAt(q: seq<Ref>, h: Stores, r: Ref, s: Store, t: set<Triple>, x: Triple)
    ensures x in Fold(q + [r], h.With(r, s), t) <==>
            if Decides(s, x) then Inserts(s, x)
            else if Other(r) in q && Decides(h.At(Other(r)), x) then Inserts(h.At(Other(r)), x)
            else x in t
    ensures x in Process(s, Fold(q, h, t)) <==> if Decides(s, x) then Inserts(s, x) else x in Fold(q, h, t)
  {
    assert Other(r) in q + [r] <==> Other(r) in q;
    FoldAt(q + [r], h.With(r, s), t, x);
    ProcessAt(s, Fold(q, h, t), x);
  }

  // The exact condition under which no published work is lost.
  lemma RewriteIff(q: seq<Ref>, h: Stores, r: Ref, s: Store)
    ensures Lossless(q, h, r, s) <==> HarmlessRewrite(q, h, r, s)
  {
    if HarmlessRewrite(q, h, r, s) {
      forall t
        ensures Fold(q + [r], h.With(r, s), t) == Process(s, Fold(q, h, t))
      {
        forall x
          ensures x in Fold(q + [r], h.With(r, s), t) <==> x in Process(s, Fold(q, h, t))
        {
          CoveredAgrees(q, h, r, s, t, x);
        }
      }
    } else {
      var x :| !Covered(q, h, r, s, x);
      UncoveredLoses(q, h, r, s, x);
    }
  }

  lemma CoveredAgrees(q: seq<Ref>, h: Stores, r: Ref, s: Store, t: set<Triple>, x: Triple)
    requires r !in q || Covered(q, h, r, s, x)
    ensures x in Fold(q + [r], h.With(r, s), t) <==> x in Process(s, Fold(q, h, t))
  {
    RewriteAt(q, h, r, s, t, x);
    if q != [] {
      FoldAt(q, h, t, x);
    }
  }

  // Without the condition, some table shows the loss at this very triple.
  lemma UncoveredLoses(q: seq<Ref>, h: Stores, r: Ref, s: Store, x: Triple)
    requires r in q && !Covered(q, h, r, s, x)
    ensures !Lossless(q, h, r, s)
  {
    var t: set<Triple> := if Inserts(h.At(r), x) then {} else {x};
    RewriteAt(q, h, r, s, t, x);
    FoldAt(q, h, t, x);
    assert x in Fold(q + [r], h.With(r, s), t) <==> x !in Process(s, Fold(q, h, t));
  }

  // For the table at hand a lost decision does no harm either when it is
  // carried out already and the other queued store does not undo it.
  predicate CoveredNow(q: seq<Ref>, h: Stores, t: set<Triple>, r: Ref, s: Store, x: Triple) {
    Covered(q, h, r, s, x) ||
    (!(Other(r) in q && Decides(h.At(Other(r)), x)) && (x in t <==> Inserts(h.At(r), x)))
  }

  ghost predicate HarmlessNow(q: seq<Ref>, h: Stores, t: set<Triple>, r: Ref, s: Store) {
    r !in q || forall x :: CoveredNow(q, h, t, r, s, x)
  }

  lemma RewriteNowAt(q: seq<Ref>, h: Stores, t: set<Triple>, r: Ref, s: Store, x: Triple)
    ensures (x in Fold(q + [r], h.With(r, s), t) <==> x in Process(s, Fold(q, h, t))) <==>
            (r !in q || CoveredNow(q, h, t, r, s, x))
  {
    RewriteAt(q, h, r, s, t, x);
    if q != [] {
      FoldAt(q, h, t, x);
    }
  }

  // The exact condition for the table at hand.
  lemma RewriteNowIff(q: seq<Ref>, h: Stores, t: set<Triple>, r: Ref, s: Store)
    ensures Fold(q + [r], h.With(r, s), t) == Process(s, Fold(q, h, t)) <==> HarmlessNow(q, h, t, r, s)
    ensures HarmlessRewrite(q, h, r, s) ==> HarmlessNow(q, h, t, r, s)
  {
    var rewritten, copied := Fold(q + [r], h.With(r, s), t), Process(s, Fold(q, h, t));
    forall x
      ensures (x in rewritten <==> x in copied) <==> (r !in q || CoveredNow(q, h, t, r, s, x))
    {
      RewriteNowAt(q, h, t, r, s, x);
    }
    assert rewritten == copied <==> forall x :: x in rewritten <==> x in copied;
  }

  // ------------------------------------------------- failing kernel calls

  // A worker's turn at the head of the queue in which calls may fail.
  ghost predicate FaultTolerant(q: seq<Ref>, h: Stores)
    requires q != []
  {
    forall t, t' :: FaultyOutcome(h.At(q[0]), t, t') ==> Fold(q[1..], h, t') == Fold(q, h, t)
  }

  // What the popped store decides, the rest of the queue decides again.
  ghost predicate DecidedAgain(q: seq<Ref>, h: Stores)
    requires q != []
  {
    forall x :: Decides(h.At(q[0]), x) ==> DecidedBy(q[1..], h, x)
  }

  predicate DecidedBy(q: seq<Ref>, h: Stores, x: Triple) {
    exists r :: r in q && Decides(h.At(r), x)
  }

  lemma {:induction false} DecidedByAt(q: seq<Ref>, h: Stores, x: Triple)
    requires q != []
    ensures var r := q[|q| - 1];
            DecidedBy(q, h, x) <==> Decides(h.At(r), x) || (Other(r) in q && Decides(h.At(Other(r)), x))
  {
    var last := q[|q| - 1];
    assert last in q;
    if r :| r in q && Decides(h.At(r), x) {
      assert r == last || r == Other(last);
    }
  }

  lemma {:induction false} FoldDecided(q: seq<Ref>, h: Stores, t: set<Triple>, t': set<Triple>, x: Triple)
    requires DecidedBy(q, h, x) || (x in t <==> x in t')
    ensures x in Fold(q, h, t) <==> x in Fold(q, h, t')
  {
    if q != [] {
      DecidedByAt(q, h, x);
      FoldAt(q, h, t, x);
      FoldAt(q, h, t', x);
    }
  }

  // Failures at the head lose nothing exactly when the queued work still
  // decides everything the popped store decided.
  lemma FaultIff(q: seq<Ref>, h: Stores)
    requires q != []
    ensures FaultTolerant(q, h) <==> DecidedAgain(q, h)
  {
    var s := h.At(q[0]);
    if DecidedAgain(q, h) {
      forall t, t' | FaultyOutcome(s, t, t')
        ensures Fold(q[1..], h, t') == Fold(q, h, t)
      {
        forall x
          ensures x in Fold(q[1..], h, t') <==> x in Fold(q, h, t)
        {
          ProcessAt(s, t, x);
          FoldDecided(q[1..], h, t', Process(s, t), x);
        }
      }
    } else {
      var x :| Decides(s, x) && !DecidedBy(q[1..], h, x);
      UndecidedIsLost(q, h, x);
    }
  }

  // Else the turn in which nothing gets done shows the loss.
  lemma UndecidedIsLost(q: seq<Ref>, h: Stores, x: Triple)
    requires q != [] && Decides(h.At(q[0]), x) && !DecidedBy(q[1..], h, x)
    ensures !FaultTolerant(q, h)
  {
    var s := h.At(q[0]);
    var t: set<Triple> := if Inserts(s, x) then {} else {x};
    ProcessAt(s, t, x);
    UndecidedKept(q[1..], h, t, x);
    UndecidedKept(q[1..], h, Process(s, t), x);
    assert FaultyOutcome(s, t, t);
  }

  lemma {:induction false} UndecidedKept(q: seq<Ref>, h: Stores, t: set<Triple>, x: Triple)
    requires !DecidedBy(q, h, x)
    ensures x in Fold(q, h, t) <==> x in t
  {
    if q != [] {
      DecidedByAt(q, h, x);
      FoldAt(q, h, t, x);
    }
  }

  // After a turn with failures, each decision of the popped store is carried
  // out or will be made again.
  predicate DoneOrAgain(q: seq<Ref>, h: Stores, t': set<Triple>, x: Triple)
    requires q != []
  {
    Decides(h.At(q[0]), x) ==> DecidedBy(q[1..], h, x) || (x in t' <==> Inserts(h.At(q[0]), x))
  }

  lemma FaultNowAt(q: seq<Ref>, h: Stores, t: set<Triple>, t': set<Triple>, x: Triple)
    requires q != [] && FaultyOutcome(h.At(q[0]), t, t')
    ensures (x in Fold(q[1..], h, t') <==> x in Fold(q, h, t)) <==> DoneOrAgain(q, h, t', x)
  {
    var done := Process(h.At(q[0]), t);
    ProcessAt(h.At(q[0]), t, x);
    if DecidedBy(q[1..], h, x) {
      FoldDecided(q[1..], h, t', done, x);
    } else {
      UndecidedKept(q[1..], h, t', x);
      UndecidedKept(q[1..], h, done, x);
    }
  }

  // The exact condition for the failures at hand.
  lemma FaultNowIff(q: seq<Ref>, h: Stores, t: set<Triple>, t': set<Triple>)
    requires q != [] && FaultyOutcome(h.At(q[0]), t, t')
    ensures Fold(q[1..], h, t') == Fold(q, h, t) <==> forall x :: DoneOrAgain(q, h, t', x)
    ensures DecidedAgain(q, h) ==> forall x :: DoneOrAgain(q, h, t', x)
  {
    var faulty, clean := Fold(q[1..], h, t'), Fold(q, h, t);
    forall x
      ensures (x in faulty <==> x in clean) <==> DoneOrAgain(q, h, t', x)
    {
      FaultNowAt(q, h, t, t', x);
    }
    assert faulty == clean <==> forall x :: x in faulty <==> x in clean;
  }

  // So failures do no harm while the store is queued once more.
  lemma QueuedAgainTolerates(q: seq<Ref>, h: Stores)
    requires q != [] && q[0] in q[1..]
    ensures FaultTolerant(q, h)
  {
    FaultIff(q, h);
  }
}
