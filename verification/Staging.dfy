// The recorded and staged port sets as an automaton over whole runs of
// configmap events (updatePorts feeding L4Compare), one protocol at a time.
module Staging {
  import opened Text
  import opened Ports

  datatype Staged = Staged(ex: set<Port>, nw: set<Port>)

  // One event whose accepted keys name the ports d: they join the staged set,
  // and L4Compare runs.
  function Event(s: Staged, d: set<Port>): Staged {
    var nw := s.nw + d;
    if s.ex == nw then Staged(s.ex, nw) else Staged(nw, {})
  }

  function Run(s: Staged, events: seq<set<Port>>): Staged
    decreases |events|
  {
    if events == [] then s else Run(Event(s, events[0]), events[1..])
  }

  // The staged set is empty or a leftover copy of the recorded one.
  predicate Settled(s: Staged) { s.nw == {} || s.nw == s.ex }

  // On such states an event records exactly its ports, or adds them to the
  // recorded ones when a leftover is there.
  lemma EventRecords(s: Staged, d: set<Port>)
    requires Settled(s)
    ensures Settled(Event(s, d))
    ensures Event(s, d).ex == if s.nw == {} then d else s.ex + d
    ensures Event(s, d).nw != {} <==> s.ex == (if s.nw == {} then d else s.ex + d) && s.ex != {}
  {
    assert s.nw == {} ==> s.nw + d == d;
  }

  lemma {:induction false} RunSettled(s: Staged, events: seq<set<Port>>)
    requires Settled(s)
    ensures Settled(Run(s, events))
    decreases |events|
  {
    if events != [] {
      EventRecords(s, events[0]);
      RunSettled(Event(s, events[0]), events[1..]);
    }
  }

  lemma {:induction false} RunSnoc(s: Staged, events: seq<set<Port>>, d: set<Port>)
    ensures Run(s, events + [d]) == Event(Run(s, events), d)
    decreases |events|
  {
    if events == [] {
      assert Run(s, [d]) == Run(Event(s, d), []);
    } else {
      assert (events + [d])[1..] == events[1..] + [d];
      RunSnoc(Event(s, events[0]), events[1..], d);
    }
  }

  // After every event of the run, the recorded set is that event's set.
  ghost predicate Tracks(initial: set<Port>, events: seq<set<Port>>) {
    forall n :: 0 < n <= |events| ==> Run(Staged(initial, {}), events[..n]).ex == events[n - 1]
  }

  // The set in force before event n.
  function Before(initial: set<Port>, events: seq<set<Port>>, n: nat): set<Port>
    requires n <= |events|
  {
    if n == 0 then initial else events[n - 1]
  }

  // No event that repeats the set in force is followed directly by a removal.
  ghost predicate NoRemovalAfterRepeat(initial: set<Port>, events: seq<set<Port>>) {
    forall n :: 0 <= n && n + 1 < |events| && events[n] == Before(initial, events, n) ==> events[n] <= events[n + 1]
  }

  // Exactly these runs are tracked: the recorded set follows the configmap if
  // and only if no repeating event is followed directly by a removal.
  lemma {:induction false} TracksIff(initial: set<Port>, events: seq<set<Port>>)
    ensures Tracks(initial, events) <==> NoRemovalAfterRepeat(initial, events)
    ensures Tracks(initial, events) && events != [] ==>
              (Run(Staged(initial, {}), events).nw != {} <==>
               events[|events| - 1] == Before(initial, events, |events| - 1) != {})
    decreases |events|
  {
    var n := |events|;
    if n > 0 {
      var init, last := events[..n - 1], events[n - 1];
      assert events == init + [last];
      var s := Run(Staged(initial, {}), init);
      TracksIff(initial, init);
      RunSettled(Staged(initial, {}), init);
      RunSnoc(Staged(initial, {}), init, last);
      EventRecords(s, last);
      assert events[..n] == events;
      assert forall k :: 0 < k < n ==> events[..k] == init[..k];
      assert forall k :: 0 <= k < n ==> Before(initial, init, k) == Before(initial, events, k);
      assert Tracks(initial, events) <==> Tracks(initial, init) && Event(s, last).ex == last;
      if Tracks(initial, init) {
        if n == 1 {
          assert init == [];
        } else {
          assert init[..n - 1] == init;
          assert s.ex == init[n - 2];
        }
        assert s.ex == Before(initial, events, n - 1);
        assert Event(s, last).ex == last <==> (s.nw == {} || s.ex <= last);
      }
    }
  }

  // In particular every run whose successive sets differ is tracked,
  lemma DifferingRunsTrack(initial: set<Port>, events: seq<set<Port>>)
    requires forall n :: 0 <= n < |events| ==> events[n] != Before(initial, events, n)
    ensures Tracks(initial, events)
  {
    TracksIff(initial, events);
  }

  // and a removal straight after a repeated set is always missed.
  lemma RemovalAfterRepeatMissed(d: set<Port>, p: Port)
    requires p in d
    ensures Run(Staged(d, {}), [d, d - {p}]).ex == d != d - {p}
  {
    RunSnoc(Staged(d, {}), [d], d - {p});
    RunSnoc(Staged(d, {}), [], d);
    assert [d] + [d - {p}] == [d, d - {p}];
    assert {} + d == d && d + (d - {p}) == d;
  }

  // ------------------------------------------------- deltas over runs

  // Every addition is recorded and no deletion is.
  predicate DeltaSafe(delta: map<Port, string>, ex: set<Port>) {
    && delta.Values <= {ADDITION, DELETION}
    && Additions(delta) <= ex
    && Deletions(delta) !! ex
  }

  // The delta that the store holds after an event.
  ghost function NextDelta(s: Staged, d: set<Port>, delta: map<Port, string>): map<Port, string> {
    var nw := s.nw + d;
    if s.ex == nw then delta else Diff(s.ex, nw)
  }

  lemma DiffIsSafe(recorded: set<Port>, staged: set<Port>)
    ensures DeltaSafe(Diff(recorded, staged), staged)
  {
    TagsDiffer();
  }

  lemma NextDeltaSafe(s: Staged, d: set<Port>, delta: map<Port, string>)
    requires DeltaSafe(delta, s.ex)
    ensures DeltaSafe(NextDelta(s, d, delta), Event(s, d).ex)
  {
    DiffIsSafe(s.ex, s.nw + d);
  }

  ghost function DeltaRun(s: Staged, events: seq<set<Port>>, delta: map<Port, string>): map<Port, string>
    decreases |events|
  {
    if events == [] then delta else DeltaRun(Event(s, events[0]), events[1..], NextDelta(s, events[0], delta))
  }

  lemma {:induction false} DeltaRunSafe(s: Staged, events: seq<set<Port>>, delta: map<Port, string>)
    requires DeltaSafe(delta, s.ex)
    ensures DeltaSafe(DeltaRun(s, events, delta), Run(s, events).ex)
    decreases |events|
  {
    if events != [] {
      NextDeltaSafe(s, events[0], delta);
      DeltaRunSafe(Event(s, events[0]), events[1..], NextDelta(s, events[0], delta));
    }
  }
}
