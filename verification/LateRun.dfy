/** A reachable run that terminates with a packet lost: the graph input feeds node 0, node 0 feeds node 1,
    three workers. The wake-up of node 0 that closing the input raises is delayed past the run that finalizes
    node 0; the extra Process call it causes writes to a shard that is still open, the closing run closes the
    stream, the packet is skipped, and the graph drains and terminates without it. */
module LateRun {
  import opened Timestamps
  import opened StreamState
  import opened RunQueueState
  import opened Graphs
  import opened Engine

  const G := Graph([[0], [1]], [[1], []], [1, 1], [[0], [1]], [None, Some(0)], [0, 0], [0, 1], [0, 0], [0, 1], [0, 0])

  const X := Packet(7, 0)

  lemma Wired()
    ensures WellWired(G) && SingleFlight(G) && Ranks(G, [0, 1])
    ensures GraphInputs(G) == {0} && |GraphInputs(G)| == 1 && OutputsOf(G, 0) == {1} && OutputsOf(G, 1) == {}
  {
    assert GraphInputs(G) == {0};
    assert OutputsOf(G, 0) == {1};
    assert OutputsOf(G, 1) == {};
  }

  lemma NothingAdded(s: State)
    requires Sized(G, s)
    ensures s.emitted[0 := s.emitted[0] + []] == s.emitted
  {
    assert s.emitted[0] + [] == s.emitted[0];
  }

  lemma NothingWritten(s: State)
    requires WellWired(G) && Sized(G, s)
    ensures Emitted(G, s, 0, [QUIET]) == s.emitted && Sealing(G, 0, [QUIET], false) == {}
    ensures Emitted(G, s, 1, []) == s.emitted && Sealing(G, 1, [], false) == {}
    ensures s.sealed + {} == s.sealed
  {
    assert s.emitted[1] + [] == s.emitted[1];
  }

  lemma OneWritten(s: State)
    requires WellWired(G) && Sized(G, s) && s.emitted == [[], []]
    ensures Emitted(G, s, 0, [Out([X], 1, false)]) == [[], [X]] && Sealing(G, 0, [Out([X], 1, false)], false) == {}
    ensures s.sealed + {} == s.sealed
  {
    assert s.emitted[1] + [X] == [X];
    assert Emitted(G, s, 0, [Out([X], 1, false)])[0] == [] && Emitted(G, s, 0, [Out([X], 1, false)])[1] == [X];
  }

  // ------------------------------------------------------------------ reachable states

  ghost predicate IsPathTo(path: seq<State>, moves: seq<Move>, s: State)
    requires WellWired(G)
  {
    IsRun(G, path, moves) && path[0] == Init(G, 3) && path[|path| - 1] == s
  }

  ghost predicate Reached(s: State) {
    WellWired(G) && exists path: seq<State>, moves: seq<Move> :: IsPathTo(path, moves, s)
  }

  lemma Follow(s: State, t: nat, c: Choice, s': State)
    requires Reached(s) && WellWired(G) && Enabled(G, s, t, c) && Step(G, s, t, c) == s'
    ensures Reached(s')
  {
    var path: seq<State>, moves: seq<Move> :| IsPathTo(path, moves, s);
    hide WellWired, Enabled, Step, Init;
    var path', moves' := path + [s'], moves + [Move(t, c)];
    forall i | 0 <= i < |moves'|
      ensures Enabled(G, path'[i], moves'[i].thread, moves'[i].choice)
      ensures path'[i + 1] == Step(G, path'[i], moves'[i].thread, moves'[i].choice)
    {
      if i < |moves| {
        assert path[i + 1] == Step(G, path[i], moves[i].thread, moves[i].choice);
      }
    }
    assert IsPathTo(path', moves', s');
  }

  lemma Witness(s: State) returns (path: seq<State>, moves: seq<Move>)
    requires Reached(s)
    ensures WellWired(G) && IsPathTo(path, moves, s)
  {
    path, moves :| IsPathTo(path, moves, s);
  }

  // ------------------------------------------------------------------ what a thread does next, in any state

  ghost predicate On(s: State, t: nat, o: Outer, m: Mid, l: Leaf) {
    Sized(G, s) && t < |s.threads| && s.threads[t] == Thread(o, m, l)
  }

  function Woken(s: State, n: nat): (r: State)
    requires n < |s.pending|
  {
    s.(pending := s.pending[n := 1], queue := Submitted(Pushed(s.queue, n)), tasks := s.tasks + 1)
  }

  function Asked(s: State, n: nat): (r: State)
    requires n < |s.pending|
  {
    s.(queue := s.queue.(closePending := s.queue.closePending + {n}), pending := s.pending[n := 0])
  }

  function Finalized(s: State, n: nat): (r: State) {
    s.(queue := s.queue.(closePending := s.queue.closePending - {n}, finalized := s.queue.finalized + {n}),
       sealed := s.sealed + if n == 0 then {1} else {})
  }

  // An AddNode call that passes the gate queues the node and submits a task.
  lemma Wakes(s: State, t: nat, o: Outer, m: Mid, n: nat)
    requires Reached(s) && On(s, t, o, m, AddNode(n)) && n < 2 && s.pending[n] == 0 && s.queue.running
    requires WellWired(G) && CallsOk(G, Thread(o, m, NoLeaf))
    ensures Reached(Call(Woken(s, n), t, o, m, NoLeaf))
  {
    Wired();
    hide WellWired, Reached;
    var s1 := Call(s.(pending := s.pending[n := 1], queue := Pushed(s.queue, n)), t, o, m, Submit);
    Follow(s, t, Go, s1);
    var s2 := Call(s1.(queue := Submitted(s1.queue)), t, o, m, AddTask);
    Follow(s1, t, Go, s2);
    var s3 := Call(s2.(tasks := s2.tasks + 1), t, o, m, NoLeaf);
    Follow(s2, t, Go, s3);
    assert s3 == Call(Woken(s, n), t, o, m, NoLeaf);
  }

  // A worker takes a queued node.
  lemma Takes(s: State, t: nat, n: nat)
    requires Reached(s) && On(s, t, Resting, NoMid, NoLeaf) && n < 2 && s.tasks > 0 && n in s.queue.items
    ensures Reached(Call(s.(tasks := s.tasks - 1, queue := Taken(s.queue, n)), t, Collect(n, 0, true), NoMid, NoLeaf))
  {
    Wired();
    hide WellWired, Reached, LeafStep, PropagateStep, ShutStep, IdleStep, AppCall, AppEnabled;
    var s1 := Call(s.(tasks := s.tasks - 1), t, Fetch, NoMid, NoLeaf);
    Follow(s, t, Go, s1);
    var s2 := Call(s1.(queue := Taken(s1.queue, n)), t, Collect(n, 0, true), NoMid, NoLeaf);
    Follow(s1, t, Pick(n), s2);
    assert s2 == Call(s.(tasks := s.tasks - 1, queue := Taken(s.queue, n)), t, Collect(n, 0, true), NoMid, NoLeaf);
  }

  // Its run finds the only input done.
  lemma Collects(s: State, t: nat, n: nat)
    requires Reached(s) && On(s, t, Collect(n, 0, true), NoMid, NoLeaf) && n < 2 && IsDone(s.edges[n])
    ensures Reached(Call(s, t, Compute(n, true), NoMid, NoLeaf))
  {
    Wired();
    hide WellWired, Reached, LeafStep, PropagateStep, ShutStep, IdleStep, AppCall, AppEnabled;
    var s1 := Call(s, t, Collect(n, 1, true), NoMid, NoLeaf);
    Follow(s, t, Go, s1);
    var s2 := Call(s1, t, Compute(n, true), NoMid, NoLeaf);
    Follow(s1, t, Go, s2);
    assert s2 == Call(s, t, Compute(n, true), NoMid, NoLeaf);
  }

  // After its Process call the run finds the input done again.
  lemma Scans(s: State, t: nat, n: nat)
    requires Reached(s) && On(s, t, Scan(n, 0, true), NoMid, NoLeaf) && n < 2 && IsDone(s.edges[n])
    ensures Reached(Call(s, t, Decide(n, true, true), NoMid, NoLeaf))
  {
    Wired();
    hide WellWired, Reached, LeafStep, PropagateStep, ShutStep, IdleStep, AppCall, AppEnabled;
    var s1 := Call(s, t, Scan(n, 1, true), NoMid, NoLeaf);
    Follow(s, t, Go, s1);
    var s2 := Call(s1, t, Decide(n, true, true), NoMid, NoLeaf);
    Follow(s1, t, Go, s2);
    assert s2 == Call(s, t, Decide(n, true, true), NoMid, NoLeaf);
  }

  // Node 0's Process call writes nothing: nothing is published.
  lemma Publishes0(s: State, t: nat)
    requires Reached(s) && On(s, t, Compute(0, true), NoMid, NoLeaf) && !s.closed[1] && s.bound[1] == UNSET
    ensures Reached(Call(s, t, PostShut(0, [QUIET], false, 0, true), Propagate(1, [], UNSET, 0, false), NoLeaf))
  {
    Wired();
    hide WellWired, Reached, LeafStep, PropagateStep, ShutStep, IdleStep, AppCall, AppEnabled;
    NothingWritten(s);
    var s1 := Call(s, t, Post(0, [QUIET], false, 0, true), NoMid, NoLeaf);
    Follow(s, t, Outcome([QUIET], false), s1);
    var s2 := Call(s1, t, PostShut(0, [QUIET], false, 0, true), Propagate(1, [], UNSET, 0, false), NoLeaf);
    Follow(s1, t, Go, s2);
    assert s2 == Call(s, t, PostShut(0, [QUIET], false, 0, true), Propagate(1, [], UNSET, 0, false), NoLeaf);
  }

  lemma Passes0(s: State, t: nat)
    requires Reached(s) && On(s, t, PostShut(0, [QUIET], false, 0, true), Propagate(1, [], UNSET, 0, false), NoLeaf)
    ensures Reached(Call(s, t, Scan(0, 0, true), NoMid, NoLeaf))
  {
    Wired();
    hide WellWired, Reached;
    assert s.edges[1 := Added(s.edges[1], [])] == s.edges;
    var s1 := Call(s, t, PostShut(0, [QUIET], false, 0, true), Propagate(1, [], UNSET, 0, true), NoLeaf);
    Follow(s, t, Go, s1);
    var s2 := Call(s1, t, PostShut(0, [QUIET], false, 0, true), Propagate(1, [], UNSET, 1, false), NoLeaf);
    Follow(s1, t, Go, s2);
    var s3 := Call(s2, t, PostShut(0, [QUIET], false, 0, true), NoMid, NoLeaf);
    Follow(s2, t, Go, s3);
    var s4 := Call(s3, t, Post(0, [QUIET], false, 1, true), NoMid, NoLeaf);
    Follow(s3, t, Go, s4);
    var s5 := Call(s4, t, Scan(0, 0, true), NoMid, NoLeaf);
    Follow(s4, t, Go, s5);
    assert s5 == Call(s, t, Scan(0, 0, true), NoMid, NoLeaf);
  }

  // Node 1 has no outputs.
  lemma Publishes1(s: State, t: nat)
    requires Reached(s) && On(s, t, Compute(1, true), NoMid, NoLeaf)
    ensures Reached(Call(s, t, Scan(1, 0, true), NoMid, NoLeaf))
  {
    Wired();
    hide WellWired, Reached, LeafStep, PropagateStep, ShutStep, IdleStep, AppCall, AppEnabled;
    NothingWritten(s);
    var s1 := Call(s, t, Post(1, [], false, 0, true), NoMid, NoLeaf);
    Follow(s, t, Outcome([], false), s1);
    var s2 := Call(s1, t, Scan(1, 0, true), NoMid, NoLeaf);
    Follow(s1, t, Go, s2);
    assert s2 == Call(s, t, Scan(1, 0, true), NoMid, NoLeaf);
  }

  // A run of node `n` whose Process call sees the input done and writes nothing.
  lemma RunsQuietly(s: State, t: nat, n: nat)
    requires Reached(s) && On(s, t, Collect(n, 0, true), NoMid, NoLeaf) && n < 2 && IsDone(s.edges[n])
    requires n == 0 ==> !s.closed[1] && s.bound[1] == UNSET
    ensures Reached(Call(s, t, Decide(n, true, true), NoMid, NoLeaf))
  {
    hide Reached, WellWired;
    Collects(s, t, n);
    var s1 := Call(s, t, Compute(n, true), NoMid, NoLeaf);
    var s2 := Call(s, t, Scan(n, 0, true), NoMid, NoLeaf);
    if n == 0 {
      Publishes0(s1, t);
      var s3 := Call(s1, t, PostShut(0, [QUIET], false, 0, true), Propagate(1, [], UNSET, 0, false), NoLeaf);
      Passes0(s3, t);
      assert Call(s3, t, Scan(n, 0, true), NoMid, NoLeaf) == s2;
    } else {
      Publishes1(s1, t);
      assert Call(s1, t, Scan(n, 0, true), NoMid, NoLeaf) == s2;
    }
    Scans(s2, t, n);
    assert Call(s2, t, Decide(n, true, true), NoMid, NoLeaf) == Call(s, t, Decide(n, true, true), NoMid, NoLeaf);
  }

  // The first run to find the inputs done asks for one more.
  lemma Asks(s: State, t: nat, n: nat)
    requires Reached(s) && On(s, t, Decide(n, true, true), NoMid, NoLeaf) && n < 2 && s.pending[n] == 1
    requires n !in s.queue.closePending && n !in s.queue.finalized
    ensures Reached(Call(Asked(s, n), t, Buffered(n, 0, true), NoMid, AddNode(n)))
  {
    Wired();
    hide WellWired, Reached, LeafStep, PropagateStep, RaiseEdge, MirrorEdge, ShutStep, IdleStep, CollectStep, InEdge,
      ComputeStep, Emitted, Sealing, OutcomeOk, OutStream, PostStep, StartPropagate, PostShutStep, CloseStream,
      ScanStep, OutputsOf, CloseOutStep, AppCall, AppEnabled, BufferedStep, AgainStep, RecheckStep, FinishStep;
    var s1 := Call(s.(queue := s.queue.(closePending := s.queue.closePending + {n})), t, Drop(n, Reschedule), NoMid,
        NoLeaf);
    Follow(s, t, Go, s1);
    var s2 := Call(s1.(pending := s1.pending[n := 0]), t, Buffered(n, 0, true), NoMid, AddNode(n));
    Follow(s1, t, Go, s2);
    assert s2 == Call(Asked(s, n), t, Buffered(n, 0, true), NoMid, AddNode(n));
  }

  // The next one finalizes the node,
  lemma Finalizes(s: State, t: nat, n: nat)
    requires Reached(s) && On(s, t, Decide(n, true, true), NoMid, NoLeaf) && n < 2
    requires n in s.queue.closePending && n !in s.queue.finalized
    ensures Reached(Call(Finalized(s, n), t, Drop(n, CloseNow), NoMid, NoLeaf))
  {
    Wired();
    hide WellWired, Reached, LeafStep, PropagateStep, RaiseEdge, MirrorEdge, ShutStep, IdleStep, CollectStep, InEdge,
      ComputeStep, Emitted, Sealing, OutcomeOk, OutStream, PostStep, StartPropagate, PostShutStep, CloseStream,
      ScanStep, OutputsOf, DropStep, CloseOutStep, AppCall, AppEnabled, BufferedStep, AgainStep, RecheckStep,
      FinishStep;
    Wired();
    var s1 := Call(s.(queue := s.queue.(closePending := s.queue.closePending - {n}, finalized := s.queue.finalized + {n}),
      sealed := s.sealed + if n == 0 then {1} else {}), t, Drop(n, CloseNow), NoMid, NoLeaf);
    Follow(s, t, Go, s1);
    assert s1 == Call(Finalized(s, n), t, Drop(n, CloseNow), NoMid, NoLeaf);
  }

  // and sets out to close its outputs.
  lemma Closes(s: State, t: nat, n: nat)
    requires Reached(s) && On(s, t, Drop(n, CloseNow), NoMid, NoLeaf) && n < 2 && s.pending[n] == 1
    ensures Reached(Call(s.(pending := s.pending[n := 0]), t, CloseOut(n, 0, true), NoMid, NoLeaf))
  {
    Wired();
    hide WellWired, Reached, LeafStep, PropagateStep, ShutStep, IdleStep, AppCall, AppEnabled;
    var s1 := Call(s.(pending := s.pending[n := 0]), t, CloseOut(n, 0, true), NoMid, NoLeaf);
    Follow(s, t, Go, s1);
    assert s1 == Call(s.(pending := s.pending[n := 0]), t, CloseOut(n, 0, true), NoMid, NoLeaf);
  }

  // A run of a finalized node decides nothing.
  lemma Decides(s: State, t: nat, n: nat)
    requires Reached(s) && On(s, t, Decide(n, true, true), NoMid,
        NoLeaf) && n < 2 && s.pending[n] == 1 && n in s.queue.finalized
    ensures Reached(Call(s.(pending := s.pending[n := 0]), t, Buffered(n, 0, false), NoMid, NoLeaf))
  {
    Wired();
    hide WellWired, Reached, LeafStep, PropagateStep, RaiseEdge, MirrorEdge, ShutStep, IdleStep, CollectStep, InEdge,
      ComputeStep, Emitted, Sealing, OutcomeOk, OutStream, PostStep, StartPropagate, PostShutStep, CloseStream,
      ScanStep, OutputsOf, CloseOutStep, AppCall, AppEnabled, BufferedStep, AgainStep, RecheckStep, FinishStep;
    var s1 := Call(s, t, Drop(n, Nothing), NoMid, NoLeaf);
    Follow(s, t, Go, s1);
    var s2 := Call(s1.(pending := s1.pending[n := 0]), t, Buffered(n, 0, false), NoMid, NoLeaf);
    Follow(s1, t, Go, s2);
    assert s2 == Call(s.(pending := s.pending[n := 0]), t, Buffered(n, 0, false), NoMid, NoLeaf);
  }

  // A run with nothing left to look after comes to its end.
  lemma Ends(s: State, t: nat, n: nat, sched: bool)
    requires Reached(s) && On(s, t, Buffered(n, 0, sched), NoMid, NoLeaf) && n < 2 && s.edges[n].queue == []
    requires sched || n in s.queue.finalized
    ensures Reached(Call(s, t, Finish, NoMid, NoLeaf))
  {
    Wired();
    hide WellWired, Reached, LeafStep, PropagateStep, RaiseEdge, MirrorEdge, ShutStep, IdleStep, CollectStep,
      ComputeStep, Emitted, Sealing, OutcomeOk, OutStream, PostStep, StartPropagate, PostShutStep, CloseStream,
      ScanStep, DecideStep, OutputsOf, DropStep, CloseOutStep, AppCall, AppEnabled, RecheckStep, FinishStep;
    var s1 := Call(s, t, Buffered(n, 1, sched), NoMid, NoLeaf);
    Follow(s, t, Go, s1);
    var s2 := Call(s1, t, Again(n, sched), NoMid, NoLeaf);
    Follow(s1, t, Go, s2);
    var s3 := Call(s2, t, Finish, NoMid, NoLeaf);
    Follow(s2, t, Go, s3);
    assert s3 == Call(s, t, Finish, NoMid, NoLeaf);
  }

  // and returns its task.
  lemma Returns(s: State, t: nat)
    requires Reached(s) && On(s, t, Finish, NoMid, NoLeaf) && s.queue.items == multiset{}
    ensures Reached(Call(s.(queue := TaskDone(s.queue)), t, Resting, Idle(Enter), NoLeaf))
  {
    Wired();
    hide WellWired, Reached, LeafStep, PropagateStep, ShutStep, IdleStep, AppCall, AppEnabled;
    var s1 := Call(s.(queue := TaskDone(s.queue)), t, Resting, Idle(Enter), NoLeaf);
    Follow(s, t, Go, s1);
    assert s1 == Call(s.(queue := TaskDone(s.queue)), t, Resting, Idle(Enter), NoLeaf);
  }

  // HandleIdle finds the graph input open and leaves.
  lemma LooksIn(s: State, t: nat, o: Outer)
    requires Reached(s) && On(s, t, o, Idle(Enter), NoLeaf) && s.handling == 0 && s.counted == {} && s.mode == Running
    requires WellWired(G) && OuterOk(G, o) && !(IsIdle(s.queue) && s.mode == Running)
    ensures Reached(Call(s, t, o, NoMid, NoLeaf))
  {
    Wired();
    hide WellWired, Reached;
    var s1 := Call(s.(handling := 1), t, o, Idle(Look), NoLeaf);
    Follow(s, t, Go, s1);
    var s2 := Call(s1, t, o, Idle(Test(true)), NoLeaf);
    Follow(s1, t, Go, s2);
    var s3 := Call(s2, t, o, Idle(Exit), NoLeaf);
    Follow(s2, t, Go, s3);
    var s4 := Call(s3.(handling := 0), t, o, NoMid, NoLeaf);
    Follow(s3, t, Go, s4);
    assert s4 == Call(s, t, o, NoMid, NoLeaf);
  }

  lemma LooksAround(s: State, t: nat, o: Outer)
    requires Reached(s) && On(s, t, o, Idle(Enter), NoLeaf) && s.handling == 0 && s.counted == {} && s.mode == Running
    requires WellWired(G) && OuterOk(G, o) && IsIdle(s.queue)
    ensures Reached(Call(s.(handling := 1), t, o, Idle(Sources(true)), NoLeaf))
  {
    Wired();
    hide WellWired, Reached;
    var s1 := Call(s.(handling := 1), t, o, Idle(Look), NoLeaf);
    Follow(s, t, Go, s1);
    var s2 := Call(s1, t, o, Idle(Test(true)), NoLeaf);
    Follow(s1, t, Go, s2);
    var s3 := Call(s2, t, o, Idle(Sources(true)), NoLeaf);
    Follow(s2, t, Go, s3);
    assert s3 == Call(s.(handling := 1), t, o, Idle(Sources(true)), NoLeaf);
  }

  lemma LooksAway(s: State, t: nat, o: Outer)
    requires Reached(s) && On(s, t, o, Idle(Sources(true)), NoLeaf) && s.handling == 1 && s.active == {}
    requires WellWired(G) && OuterOk(G, o)
    ensures Reached(Call(s.(handling := 0), t, o, NoMid, NoLeaf))
  {
    Wired();
    hide WellWired, Reached;
    var s1 := Call(s, t, o, Idle(Verdict(true, true, NotSwept)), NoLeaf);
    Follow(s, t, Go, s1);
    var s2 := Call(s1, t, o, Idle(Exit), NoLeaf);
    Follow(s1, t, Go, s2);
    var s3 := Call(s2.(handling := 0), t, o, NoMid, NoLeaf);
    Follow(s2, t, Go, s3);
    assert s3 == Call(s.(handling := 0), t, o, NoMid, NoLeaf);
  }

  // The application announces a bound, which wakes node 0.
  lemma Announces(s: State, t: nat)
    requires Reached(s) && On(s, t, AppReady, NoMid,
        NoLeaf) && !s.closed[0] && s.bound[0] == UNSET && s.edges[0] == NEW_INBOX
    ensures Reached(Call(s.(bound := s.bound[0 := 5], edges := s.edges[0 := Inbox([], 5, false)]), t, AppNotify(0),
        Propagate(0, [], 5, 1, false), AddNode(0)))
  {
    Wired();
    hide WellWired, Reached;
    NothingAdded(s);
    var s1 := Call(s.(bound := s.bound[0 := 5]), t, AppNotify(0), Propagate(0, [], 5, 0, false), NoLeaf);
    Follow(s, t, Inject(0, [], 5), s1);
    assert s1.edges[0 := Added(s1.edges[0], [])] == s1.edges;
    var s2 := Call(s1, t, AppNotify(0), Propagate(0, [], 5, 0, true), NoLeaf);
    Follow(s1, t, Go, s2);
    var s3 := Call(s2.(edges := s2.edges[0 := Inbox([], 5, false)]), t, AppNotify(0), Propagate(0, [], 5, 1, false),
        AddNode(0));
    Follow(s2, t, Go, s3);
    assert s3 == Call(s.(bound := s.bound[0 := 5], edges := s.edges[0 := Inbox([], 5, false)]), t, AppNotify(0),
        Propagate(0, [], 5, 1, false), AddNode(0));
  }

  lemma Announced(s: State, t: nat)
    requires Reached(s) && On(s, t, AppNotify(0), Propagate(0, [], 5, 1, false), NoLeaf)
    ensures Reached(Call(s, t, AppReady, Idle(Enter), NoLeaf))
  {
    Wired();
    hide WellWired, Reached;
    var s1 := Call(s, t, AppNotify(0), NoMid, NoLeaf);
    Follow(s, t, Go, s1);
    var s2 := Call(s1, t, AppReady, Idle(Enter), NoLeaf);
    Follow(s1, t, Go, s2);
    assert s2 == Call(s, t, AppReady, Idle(Enter), NoLeaf);
  }

  // The application closes the input: Done wakes node 0.
  lemma ClosesInput(s: State, t: nat)
    requires Reached(s) && On(s, t, AppReady, NoMid, NoLeaf) && !s.closed[0] && s.counted == {} && s.edges[0].bound < DONE
    ensures Reached(Call(s.(sealed := s.sealed + {0}, closed := s.closed[0 := true], bound := s.bound[0 := DONE],
        edges := s.edges[0 := Raised(s.edges[0], DONE)]), t, AppCount(0), Shut(0, 1), AddNode(0)))
  {
    Wired();
    hide WellWired, Reached;
    var s1 := Call(s.(sealed := s.sealed + {0}, closed := s.closed[0 := true], bound := s.bound[0 := DONE]), t,
        AppCount(0), Shut(0, 0), NoLeaf);
    Follow(s, t, CloseInput(0), s1);
    var s2 := Call(s1.(edges := s1.edges[0 := Raised(s1.edges[0], DONE)]), t, AppCount(0), Shut(0, 1), AddNode(0));
    Follow(s1, t, Go, s2);
    assert s2 == Call(s.(sealed := s.sealed + {0}, closed := s.closed[0 := true], bound := s.bound[0 := DONE],
        edges := s.edges[0 := Raised(s.edges[0], DONE)]), t, AppCount(0), Shut(0, 1), AddNode(0));
  }

  lemma CountsInput(s: State, t: nat)
    requires Reached(s) && On(s, t, AppCount(0), Shut(0, 1), NoLeaf)
    ensures Reached(Call(s.(counted := s.counted + {0}), t, AppReady, Idle(Enter), NoLeaf))
  {
    Wired();
    hide WellWired, Reached;
    var s1 := Call(s, t, AppCount(0), NoMid, NoLeaf);
    Follow(s, t, Go, s1);
    var s2 := Call(s1.(counted := s1.counted + {0}), t, AppReady, Idle(Enter), NoLeaf);
    Follow(s1, t, Go, s2);
    assert s2 == Call(s.(counted := s.counted + {0}), t, AppReady, Idle(Enter), NoLeaf);
  }

  // The late emission: node 0, finalized, writes a packet to its open shard.
  lemma EmitsLate(s: State, t: nat)
    requires Reached(s) && On(s, t, Compute(0, true), NoMid, NoLeaf) && !s.closed[1] && s.emitted == [[], []]
    ensures Reached(Call(s.(emitted := [[], [X]]), t, Post(0, [Out([X], 1, false)], false, 0, true), NoMid, NoLeaf))
  {
    Wired();
    hide WellWired, Reached, LeafStep, PropagateStep, ShutStep, IdleStep, AppCall, AppEnabled;
    OneWritten(s);
    var s1 := Call(s.(emitted := [[], [X]]), t, Post(0, [Out([X], 1, false)], false, 0, true), NoMid, NoLeaf);
    Follow(s, t, Outcome([Out([X], 1, false)], false), s1);
    assert s1 == Call(s.(emitted := [[], [X]]), t, Post(0, [Out([X], 1, false)], false, 0, true), NoMid, NoLeaf);
  }

  // Its stream is closed meanwhile: the packet is skipped.
  lemma SkipsLate(s: State, t: nat)
    requires Reached(s) && On(s, t, Post(0, [Out([X], 1, false)], false, 0, true), NoMid, NoLeaf) && s.closed[1]
    ensures Reached(Call(s, t, Scan(0, 0, true), NoMid, NoLeaf))
  {
    Wired();
    hide WellWired, Reached, LeafStep, PropagateStep, ShutStep, IdleStep, AppCall, AppEnabled;
    var s1 := Call(s, t, Post(0, [Out([X], 1, false)], false, 1, true), NoMid, NoLeaf);
    Follow(s, t, Go, s1);
    var s2 := Call(s1, t, Scan(0, 0, true), NoMid, NoLeaf);
    Follow(s1, t, Go, s2);
    assert s2 == Call(s, t, Scan(0, 0, true), NoMid, NoLeaf);
  }

  // The closing run of node 0 announces Done on its stream, which wakes node 1.
  lemma AnnouncesDone(s: State, t: nat)
    requires Reached(s) && On(s, t, CloseOut(0, 0, true), NoMid, NoLeaf) && s.edges[1] == NEW_INBOX
    ensures Reached(Call(s.(bound := s.bound[1 := DONE], edges := s.edges[1 := Inbox([], DONE, false)]), t,
        CloseMark(0, 0, true), Propagate(1, [], DONE, 1, false), AddNode(1)))
  {
    Wired();
    hide WellWired, Reached;
    var s1 := Call(s.(bound := s.bound[1 := DONE]), t, CloseMark(0, 0, true), Propagate(1, [], DONE, 0, false), NoLeaf);
    Follow(s, t, Go, s1);
    assert s1.edges[1 := Added(s1.edges[1], [])] == s1.edges;
    var s2 := Call(s1, t, CloseMark(0, 0, true), Propagate(1, [], DONE, 0, true), NoLeaf);
    Follow(s1, t, Go, s2);
    var s3 := Call(s2.(edges := s2.edges[1 := Inbox([], DONE, false)]), t, CloseMark(0, 0, true), Propagate(1, [],
        DONE, 1, false), AddNode(1));
    Follow(s2, t, Go, s3);
    assert s3 == Call(s.(bound := s.bound[1 := DONE], edges := s.edges[1 := Inbox([], DONE, false)]), t, CloseMark(0,
        0, true), Propagate(1, [], DONE, 1, false), AddNode(1));
  }

  // It then closes the stream.
  lemma ClosesStream(s: State, t: nat)
    requires Reached(s) && On(s, t, CloseMark(0, 0, true), Propagate(1, [], DONE, 1, false),
        NoLeaf) && !s.closed[1] && s.bound[1] == DONE && s.edges[1].bound == DONE
    ensures Reached(Call(s.(closed := s.closed[1 := true]), t, CloseOut(0, 1, true), NoMid, NoLeaf))
  {
    Wired();
    hide WellWired, Reached;
    var s1 := Call(s, t, CloseMark(0, 0, true), NoMid, NoLeaf);
    Follow(s, t, Go, s1);
    var s2 := Call(s1.(closed := s1.closed[1 := true]), t, CloseOut(0, 1, true), Shut(1, 0), NoLeaf);
    Follow(s1, t, Go, s2);
    var s3 := Call(s2, t, CloseOut(0, 1, true), Shut(1, 1), NoLeaf);
    Follow(s2, t, Go, s3);
    var s4 := Call(s3, t, CloseOut(0, 1, true), NoMid, NoLeaf);
    Follow(s3, t, Go, s4);
    assert s4 == Call(s.(closed := s.closed[1 := true]), t, CloseOut(0, 1, true), NoMid, NoLeaf);
  }

  lemma EndsClosing(s: State, t: nat, n: nat)
    requires Reached(s) && On(s, t, CloseOut(n, if n == 0 then 1 else 0, true), NoMid, NoLeaf) && n < 2
    ensures Reached(Call(s, t, Buffered(n, 0, false), NoMid, NoLeaf))
  {
    Wired();
    hide WellWired, Reached, LeafStep, PropagateStep, ShutStep, IdleStep, AppCall, AppEnabled;
    var s1 := Call(s, t, Buffered(n, 0, false), NoMid, NoLeaf);
    Follow(s, t, Go, s1);
    assert s1 == Call(s, t, Buffered(n, 0, false), NoMid, NoLeaf);
  }

  // HandleIdle finds the queue idle, no source left and the input closed.
  lemma Sweeps(s: State, t: nat)
    requires Reached(s) && On(s, t, AppReady, Idle(Enter),
        NoLeaf) && s.handling == 0 && s.counted == {0} && s.mode == Running && s.active == {} && IsIdle(s.queue)
    ensures Reached(Call(s.(handling := 1), t, AppReady, Idle(Sweep(0, 0, true, false)), NoLeaf))
  {
    Wired();
    hide WellWired, Reached;
    var s1 := Call(s.(handling := 1), t, AppReady, Idle(Look), NoLeaf);
    Follow(s, t, Go, s1);
    var s2 := Call(s1, t, AppReady, Idle(Test(false)), NoLeaf);
    Follow(s1, t, Go, s2);
    var s3 := Call(s2, t, AppReady, Idle(Sources(false)), NoLeaf);
    Follow(s2, t, Go, s3);
    var s4 := Call(s3, t, AppReady, Idle(Sweep(0, 0, true, false)), NoLeaf);
    Follow(s3, t, Go, s4);
    assert s4 == Call(s.(handling := 1), t, AppReady, Idle(Sweep(0, 0, true, false)), NoLeaf);
  }

  // DrainInputQueues finds every input done and empty.
  lemma Drains(s: State, t: nat)
    requires Reached(s) && On(s, t, AppReady, Idle(Sweep(0, 0, true, false)),
        NoLeaf) && IsDone(s.edges[0]) && IsDone(s.edges[1])
    ensures Reached(Call(s, t, AppReady, Idle(Unfinal(0, true)), NoLeaf))
  {
    Wired();
    hide WellWired, Reached;
    var s1 := Call(s, t, AppReady, Idle(Sweep(0, 1, true, false)), NoLeaf);
    Follow(s, t, Go, s1);
    var s2 := Call(s1, t, AppReady, Idle(Sweep(1, 0, true, false)), NoLeaf);
    Follow(s1, t, Go, s2);
    var s3 := Call(s2, t, AppReady, Idle(Sweep(1, 1, true, false)), NoLeaf);
    Follow(s2, t, Go, s3);
    var s4 := Call(s3, t, AppReady, Idle(Sweep(2, 0, true, false)), NoLeaf);
    Follow(s3, t, Go, s4);
    var s5 := Call(s4, t, AppReady, Idle(Unfinal(0, true)), NoLeaf);
    Follow(s4, t, Go, s5);
    assert s5 == Call(s, t, AppReady, Idle(Unfinal(0, true)), NoLeaf);
  }

  // Every node is finalized, so the graph terminates.
  lemma Quits(s: State, t: nat)
    requires Reached(s) && On(s, t, AppReady, Idle(Unfinal(0, true)), NoLeaf) && s.queue.finalized == {0,
        1} && s.active == {}
    ensures Reached(Call(s.(mode := Terminated, quits := s.quits + 1), t, AppReady, Idle(Exit), NoLeaf))
  {
    Wired();
    hide WellWired, Reached;
    var s1 := Call(s, t, AppReady, Idle(Unfinal(1, true)), NoLeaf);
    Follow(s, t, Go, s1);
    var s2 := Call(s1, t, AppReady, Idle(Unfinal(2, true)), NoLeaf);
    Follow(s1, t, Go, s2);
    var s3 := Call(s2, t, AppReady, Idle(Verdict(false, true, Drained)), NoLeaf);
    Follow(s2, t, Go, s3);
    var s4 := Call(s3, t, AppReady, Idle(Quit), NoLeaf);
    Follow(s3, t, Go, s4);
    var s5 := Call(s4.(mode := Terminated, quits := s4.quits + 1), t, AppReady, Idle(Exit), NoLeaf);
    Follow(s4, t, Go, s5);
    assert s5 == Call(s.(mode := Terminated, quits := s.quits + 1), t, AppReady, Idle(Exit), NoLeaf);
  }

  // ------------------------------------------------------------------ the run

  const START: State := State(
    [NEW_INBOX, NEW_INBOX], [[], []], [UNSET, UNSET], [false, false], [[], []],
    {}, RunQueue(multiset{}, 0, true, {}, {}), [0, 0], 0,
    [Thread(AppReady, Idle(Enter), NoLeaf),
     Thread(Resting, NoMid, NoLeaf),
     Thread(Resting, NoMid, NoLeaf),
     Thread(Resting, NoMid, NoLeaf)],
    {}, {}, {}, 0, Running, 0)

  const WOKEN: State := State(
    [Inbox([], 5, false), NEW_INBOX], [[], []], [5, UNSET], [false, false], [[], []],
    {}, RunQueue(multiset{}, 1, true, {}, {}), [1, 0], 0,
    [Thread(AppReady, NoMid, NoLeaf),
     Thread(Collect(0, 0, true), NoMid, NoLeaf),
     Thread(Resting, NoMid, NoLeaf),
     Thread(Resting, NoMid, NoLeaf)],
    {}, {}, {}, 0, Running, 0)

  const ASKED: State := State(
    [Inbox([], DONE, false), NEW_INBOX], [[], []], [DONE, UNSET], [true, false], [[], []],
    {0}, RunQueue(multiset{}, 1, true, {0}, {}), [1, 0], 0,
    [Thread(AppCount(0), Shut(0, 1), AddNode(0)),
     Thread(Resting, NoMid, NoLeaf),
     Thread(Collect(0, 0, true), NoMid, NoLeaf),
     Thread(Resting, NoMid, NoLeaf)],
    {}, {}, {}, 0, Running, 0)

  const CLOSING: State := State(
    [Inbox([], DONE, false), NEW_INBOX], [[], []], [DONE, UNSET], [true, false], [[], []],
    {0, 1}, RunQueue(multiset{}, 2, true, {}, {0}), [1, 0], 0,
    [Thread(AppCount(0), Shut(0, 1), NoLeaf),
     Thread(Collect(0, 0, true), NoMid, NoLeaf),
     Thread(CloseOut(0, 0, true), NoMid, NoLeaf),
     Thread(Resting, NoMid, NoLeaf)],
    {}, {}, {}, 0, Running, 0)

  const LATE: State := State(
    [Inbox([], DONE, false), Inbox([], DONE, false)], [[], []], [DONE, DONE], [true, true], [[], [X]],
    {0, 1}, RunQueue(multiset{}, 3, true, {}, {0}), [1, 1], 0,
    [Thread(AppCount(0), Shut(0, 1), NoLeaf),
     Thread(Post(0, [Out([X], 1, false)], false, 0, true), NoMid, NoLeaf),
     Thread(Buffered(0, 0, false), NoMid, NoLeaf),
     Thread(Collect(1, 0, true), NoMid, NoLeaf)],
    {}, {}, {}, 0, Running, 0)

  const LAST: State := State(
    [Inbox([], DONE, false), Inbox([], DONE, false)], [[], []], [DONE, DONE], [true, true], [[], [X]],
    {0, 1}, RunQueue(multiset{}, 1, true, {1}, {0}), [0, 1], 0,
    [Thread(AppCount(0), Shut(0, 1), NoLeaf),
     Thread(Collect(1, 0, true), NoMid, NoLeaf),
     Thread(Resting, Idle(Enter), NoLeaf),
     Thread(Resting, Idle(Enter), NoLeaf)],
    {}, {}, {}, 0, Running, 0)

  const IDLE: State := State(
    [Inbox([], DONE, false), Inbox([], DONE, false)], [[], []], [DONE, DONE], [true, true], [[], [X]],
    {0, 1}, RunQueue(multiset{}, 0, true, {}, {0, 1}), [0, 0], 0,
    [Thread(AppCount(0), Shut(0, 1), NoLeaf),
     Thread(Resting, Idle(Enter), NoLeaf),
     Thread(Resting, Idle(Enter), NoLeaf),
     Thread(Resting, Idle(Enter), NoLeaf)],
    {}, {}, {}, 0, Running, 0)

  const OVER: State := State(
    [Inbox([], DONE, false), Inbox([], DONE, false)], [[], []], [DONE, DONE], [true, true], [[], [X]],
    {0, 1}, RunQueue(multiset{}, 0, true, {}, {0, 1}), [0, 0], 0,
    [Thread(AppReady, Idle(Exit), NoLeaf),
     Thread(Resting, Idle(Enter), NoLeaf),
     Thread(Resting, Idle(Enter), NoLeaf),
     Thread(Resting, Idle(Enter), NoLeaf)],
    {}, {}, {0}, 1, Terminated, 1)

  // The application announces a bound; worker 1 takes node 0.
  lemma Starts()
    requires Reached(START)
    ensures Reached(WOKEN)
  {
    Wired();
    hide WellWired, Reached;
    var s0 := START;
    LooksAround(s0, 0, AppReady);
    var s1 := Call(s0.(handling := 1), 0, AppReady, Idle(Sources(true)), NoLeaf);
    LooksAway(s1, 0, AppReady);
    var s2 := Call(s1.(handling := 0), 0, AppReady, NoMid, NoLeaf);
    Announces(s2, 0);
    var s3 := Call(s2.(bound := s2.bound[0 := 5], edges := s2.edges[0 := Inbox([], 5, false)]), 0, AppNotify(0),
        Propagate(0, [], 5, 1, false), AddNode(0));
    Wakes(s3, 0, AppNotify(0), Propagate(0, [], 5, 1, false), 0);
    var s4 := Call(Woken(s3, 0), 0, AppNotify(0), Propagate(0, [], 5, 1, false), NoLeaf);
    Announced(s4, 0);
    var s5 := Call(s4, 0, AppReady, Idle(Enter), NoLeaf);
    LooksIn(s5, 0, AppReady);
    var s6 := Call(s5, 0, AppReady, NoMid, NoLeaf);
    Takes(s6, 1, 0);
    var s7 := Call(s6.(tasks := s6.tasks - 1, queue := Taken(s6.queue, 0)), 1, Collect(0, 0, true), NoMid, NoLeaf);
    assert s7.edges == WOKEN.edges && s7.queue == WOKEN.queue && s7.pending == WOKEN.pending && s7.threads == WOKEN.threads;
    assert s7.sealed == WOKEN.sealed && s7.bound == WOKEN.bound && s7.closed == WOKEN.closed;
  }

  // The application closes the input and is held back at AddNode; worker 1 sees Done and asks for one more run,
  // which worker 2 takes.
  lemma FirstRun()
    requires Reached(WOKEN)
    ensures Reached(ASKED)
  {
    Wired();
    hide WellWired, Reached;
    var s0 := WOKEN;
    ClosesInput(s0, 0);
    var s1 := Call(s0.(sealed := s0.sealed + {0}, closed := s0.closed[0 := true], bound := s0.bound[0 := DONE],
      edges := s0.edges[0 := Raised(s0.edges[0], DONE)]), 0, AppCount(0), Shut(0, 1), AddNode(0));
    RunsQuietly(s1, 1, 0);
    var s2 := Call(s1, 1, Decide(0, true, true), NoMid, NoLeaf);
    Asks(s2, 1, 0);
    var s3 := Call(Asked(s2, 0), 1, Buffered(0, 0, true), NoMid, AddNode(0));
    Wakes(s3, 1, Buffered(0, 0, true), NoMid, 0);
    var s4 := Call(Woken(s3, 0), 1, Buffered(0, 0, true), NoMid, NoLeaf);
    Takes(s4, 2, 0);
    var s5 := Call(s4.(tasks := s4.tasks - 1, queue := Taken(s4.queue, 0)), 2, Collect(0, 0, true), NoMid, NoLeaf);
    Ends(s5, 1, 0, true);
    var s6 := Call(s5, 1, Finish, NoMid, NoLeaf);
    Returns(s6, 1);
    var s7 := Call(s6.(queue := TaskDone(s6.queue)), 1, Resting, Idle(Enter), NoLeaf);
    LooksIn(s7, 1, Resting);
    var s8 := Call(s7, 1, Resting, NoMid, NoLeaf);
    assert s8.edges == ASKED.edges && s8.queue == ASKED.queue && s8.pending == ASKED.pending && s8.threads == ASKED.threads;
    assert s8.sealed == ASKED.sealed && s8.bound == ASKED.bound && s8.closed == ASKED.closed;
  }

  // Worker 2 decides to close; the AddNode held back goes through and worker 1 takes the extra run.
  lemma ClosingRun()
    requires Reached(ASKED)
    ensures Reached(CLOSING)
  {
    Wired();
    hide WellWired, Reached;
    var s0 := ASKED;
    RunsQuietly(s0, 2, 0);
    var s1 := Call(s0, 2, Decide(0, true, true), NoMid, NoLeaf);
    Finalizes(s1, 2, 0);
    var s2 := Call(Finalized(s1, 0), 2, Drop(0, CloseNow), NoMid, NoLeaf);
    Closes(s2, 2, 0);
    var s3 := Call(s2.(pending := s2.pending[0 := 0]), 2, CloseOut(0, 0, true), NoMid, NoLeaf);
    Wakes(s3, 0, AppCount(0), Shut(0, 1), 0);
    var s4 := Call(Woken(s3, 0), 0, AppCount(0), Shut(0, 1), NoLeaf);
    Takes(s4, 1, 0);
    var s5 := Call(s4.(tasks := s4.tasks - 1, queue := Taken(s4.queue, 0)), 1, Collect(0, 0, true), NoMid, NoLeaf);
    assert s5.edges == CLOSING.edges && s5.queue == CLOSING.queue && s5.pending == CLOSING.pending && s5.threads == CLOSING.threads;
    assert s5.sealed == CLOSING.sealed && s5.bound == CLOSING.bound && s5.closed == CLOSING.closed;
  }

  // Its Process call writes a packet; worker 2 announces Done, worker 3 takes node 1, and worker 2 closes the stream.
  lemma ExtraRun()
    requires Reached(CLOSING)
    ensures Reached(LATE)
  {
    Wired();
    hide WellWired, Reached;
    var s0 := CLOSING;
    Collects(s0, 1, 0);
    var s1 := Call(s0, 1, Compute(0, true), NoMid, NoLeaf);
    EmitsLate(s1, 1);
    var s2 := Call(s1.(emitted := [[], [X]]), 1, Post(0, [Out([X], 1, false)], false, 0, true), NoMid, NoLeaf);
    AnnouncesDone(s2, 2);
    var s3 := Call(s2.(bound := s2.bound[1 := DONE], edges := s2.edges[1 := Inbox([], DONE, false)]), 2, CloseMark(0,
        0, true), Propagate(1, [], DONE, 1, false), AddNode(1));
    Wakes(s3, 2, CloseMark(0, 0, true), Propagate(1, [], DONE, 1, false), 1);
    var s4 := Call(Woken(s3, 1), 2, CloseMark(0, 0, true), Propagate(1, [], DONE, 1, false), NoLeaf);
    Takes(s4, 3, 1);
    var s5 := Call(s4.(tasks := s4.tasks - 1, queue := Taken(s4.queue, 1)), 3, Collect(1, 0, true), NoMid, NoLeaf);
    ClosesStream(s5, 2);
    var s6 := Call(s5.(closed := s5.closed[1 := true]), 2, CloseOut(0, 1, true), NoMid, NoLeaf);
    EndsClosing(s6, 2, 0);
    var s7 := Call(s6, 2, Buffered(0, 0, false), NoMid, NoLeaf);
    assert s7.edges == LATE.edges && s7.queue == LATE.queue && s7.pending == LATE.pending && s7.threads == LATE.threads;
    assert s7.sealed == LATE.sealed && s7.bound == LATE.bound && s7.closed == LATE.closed;
  }

  // The packet is skipped; node 1 sees Done and asks for its closing run.
  lemma SinkRun()
    requires Reached(LATE)
    ensures Reached(LAST)
  {
    Wired();
    hide WellWired, Reached;
    var s0 := LATE;
    SkipsLate(s0, 1);
    var s1 := Call(s0, 1, Scan(0, 0, true), NoMid, NoLeaf);
    Scans(s1, 1, 0);
    var s2 := Call(s1, 1, Decide(0, true, true), NoMid, NoLeaf);
    Decides(s2, 1, 0);
    var s3 := Call(s2.(pending := s2.pending[0 := 0]), 1, Buffered(0, 0, false), NoMid, NoLeaf);
    Ends(s3, 1, 0, false);
    var s4 := Call(s3, 1, Finish, NoMid, NoLeaf);
    Returns(s4, 1);
    var s5 := Call(s4.(queue := TaskDone(s4.queue)), 1, Resting, Idle(Enter), NoLeaf);
    LooksIn(s5, 1, Resting);
    var s6 := Call(s5, 1, Resting, NoMid, NoLeaf);
    Ends(s6, 2, 0, false);
    var s7 := Call(s6, 2, Finish, NoMid, NoLeaf);
    Returns(s7, 2);
    var s8 := Call(s7.(queue := TaskDone(s7.queue)), 2, Resting, Idle(Enter), NoLeaf);
    RunsQuietly(s8, 3, 1);
    var s9 := Call(s8, 3, Decide(1, true, true), NoMid, NoLeaf);
    Asks(s9, 3, 1);
    var s10 := Call(Asked(s9, 1), 3, Buffered(1, 0, true), NoMid, AddNode(1));
    Wakes(s10, 3, Buffered(1, 0, true), NoMid, 1);
    var s11 := Call(Woken(s10, 1), 3, Buffered(1, 0, true), NoMid, NoLeaf);
    Takes(s11, 1, 1);
    var s12 := Call(s11.(tasks := s11.tasks - 1, queue := Taken(s11.queue, 1)), 1, Collect(1, 0, true), NoMid, NoLeaf);
    Ends(s12, 3, 1, true);
    var s13 := Call(s12, 3, Finish, NoMid, NoLeaf);
    Returns(s13, 3);
    var s14 := Call(s13.(queue := TaskDone(s13.queue)), 3, Resting, Idle(Enter), NoLeaf);
    assert s14.edges == LAST.edges && s14.queue == LAST.queue && s14.pending == LAST.pending && s14.threads == LAST.threads;
    assert s14.sealed == LAST.sealed && s14.bound == LAST.bound && s14.closed == LAST.closed;
  }

  // Node 1 is finalized and the queue falls idle.
  lemma LastRun()
    requires Reached(LAST)
    ensures Reached(IDLE)
  {
    Wired();
    hide WellWired, Reached;
    var s0 := LAST;
    RunsQuietly(s0, 1, 1);
    var s1 := Call(s0, 1, Decide(1, true, true), NoMid, NoLeaf);
    Finalizes(s1, 1, 1);
    var s2 := Call(Finalized(s1, 1), 1, Drop(1, CloseNow), NoMid, NoLeaf);
    Closes(s2, 1, 1);
    var s3 := Call(s2.(pending := s2.pending[1 := 0]), 1, CloseOut(1, 0, true), NoMid, NoLeaf);
    EndsClosing(s3, 1, 1);
    var s4 := Call(s3, 1, Buffered(1, 0, false), NoMid, NoLeaf);
    Ends(s4, 1, 1, false);
    var s5 := Call(s4, 1, Finish, NoMid, NoLeaf);
    Returns(s5, 1);
    var s6 := Call(s5.(queue := TaskDone(s5.queue)), 1, Resting, Idle(Enter), NoLeaf);
    assert s6.edges == IDLE.edges && s6.queue == IDLE.queue && s6.pending == IDLE.pending && s6.threads == IDLE.threads;
    assert s6.sealed == IDLE.sealed && s6.bound == IDLE.bound && s6.closed == IDLE.closed;
  }

  // The application counts the input and HandleIdle terminates the graph.
  lemma Terminates()
    requires Reached(IDLE)
    ensures Reached(OVER)
  {
    Wired();
    hide WellWired, Reached;
    var s0 := IDLE;
    CountsInput(s0, 0);
    var s1 := Call(s0.(counted := s0.counted + {0}), 0, AppReady, Idle(Enter), NoLeaf);
    Sweeps(s1, 0);
    var s2 := Call(s1.(handling := 1), 0, AppReady, Idle(Sweep(0, 0, true, false)), NoLeaf);
    Drains(s2, 0);
    var s3 := Call(s2, 0, AppReady, Idle(Unfinal(0, true)), NoLeaf);
    Quits(s3, 0);
    var s4 := Call(s3.(mode := Terminated, quits := s3.quits + 1), 0, AppReady, Idle(Exit), NoLeaf);
    assert s4.edges == OVER.edges && s4.queue == OVER.queue && s4.pending == OVER.pending && s4.threads == OVER.threads;
    assert s4.sealed == OVER.sealed && s4.bound == OVER.bound && s4.closed == OVER.closed;
  }

  lemma AtStart()
    ensures Reached(START)
  {
    Wired();
    assert SourceSet(G) == {};
    assert Init(G, 3) == START;
    assert IsPathTo([START], [], START);
  }

  /** The wiring, in-flight limit and acyclicity the main results ask for all hold; HandleIdle terminates the
      graph, every input is done and empty and every node finalized, and still the one packet its producer
      emitted never reached the consumer. */
  lemma LateEmissionLosesPacket() returns (path: seq<State>, moves: seq<Move>)
    ensures WellWired(G) && SingleFlight(G) && Ranks(G, [0, 1])
    ensures IsRun(G, path, moves) && path[0] == Init(G, 3)
    ensures var s := path[|path| - 1];
      && Sized(G, s) && s.quits > 0 && IsDone(s.edges[0]) && IsDone(s.edges[1]) && s.queue.finalized == {0, 1}
      && s.emitted[G.src[1]] == [X] && s.consumed[1] == [] != s.emitted[G.src[1]]
  {
    Wired();
    AtStart();
    hide Reached;
    Starts();
    FirstRun();
    ClosingRun();
    ExtraRun();
    SinkRun();
    LastRun();
    Terminates();
    assert Sized(G, OVER);
    path, moves := Witness(OVER);
  }
}
