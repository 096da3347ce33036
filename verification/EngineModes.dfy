/** Pause and Resume: outside their bodies the scheduler's mode and the queue's running flag agree, so a graph
    that is meant to run has its work served, and a paused one asks for no worker. */
module EngineModes {
  import opened Timestamps
  import opened StreamState
  import opened RunQueueState
  import opened Graphs
  import opened Engine
  import opened EngineShape
  import opened EngineAccounting
  import opened EngineRuns

  // The application has written the mode and not yet switched the queue.
  predicate MidSwitch(o: Outer) { o.AppPause2? || o.AppResume1? }

  /** The mode and the queue agree. */
  predicate InStep(s: State) {
    (s.mode == Running ==> s.queue.running) && (s.mode == Paused ==> !s.queue.running)
  }

  ghost predicate ModeOk(s: State) {
    && |s.threads| >= 1
    && var o := s.threads[0].outer;
       if o.AppPause2? then s.mode != Running
       else if o.AppResume1? then s.mode != Paused
       else InStep(s)
  }

  // Only application calls and HandleIdle's end write the mode, only application calls the running flag.
  lemma ModeCalls(g: Graph, s: State, t: nat, c: Choice)
    requires WellWired(g) && Enabled(g, s, t, c) && (s.threads[t].leaf != NoLeaf || s.threads[t].mid != NoMid)
    ensures var s' := Step(g, s, t, c);
      && s'.queue.running == s.queue.running && (s'.mode == s.mode || s'.mode == Terminated)
      && t < |s'.threads| && s'.threads[t].outer == s.threads[t].outer
  {
    hide WellWired, OuterStep, OuterEnabled;
  }

  lemma ModeWorkers(g: Graph, s: State, t: nat, c: Choice)
    requires WellWired(g) && OuterPoint(g, s, t, c) && !IsApp(s.threads[t].outer)
    ensures OuterStep(g, s, t, c).queue.running == s.queue.running && OuterStep(g, s, t, c).mode == s.mode
  {
    hide WellWired, AppCall, AppEnabled, OutcomeOk;
  }

  lemma ModeApp(g: Graph, s: State, c: Choice)
    requires WellWired(g) && Shape(g, s) && OuterPoint(g, s, 0, c) && IsApp(s.threads[0].outer) && ModeOk(s)
    ensures ModeOk(OuterStep(g, s, 0, c))
  {
    hide WellWired, Shape;
  }

  lemma ModeStep(g: Graph, s: State, t: nat, c: Choice)
    requires WellWired(g) && Shape(g, s) && Enabled(g, s, t, c) && ModeOk(s)
    ensures ModeOk(Step(g, s, t, c))
  {
    StepOthers(g, s, t, c);
    assert ThreadOk(g, s, t);
    var s' := Step(g, s, t, c);
    hide WellWired, OuterStep, LeafStep, PropagateStep, ShutStep, IdleStep, OuterEnabled, ThreadOk, Shape;
    if s.threads[t].leaf != NoLeaf || s.threads[t].mid != NoMid {
      ModeCalls(g, s, t, c);
      assert t != 0 ==> s'.threads[0] == s.threads[0];
    } else if t == 0 {
      ModeApp(g, s, c);
    } else {
      ModeWorkers(g, s, t, c);
      assert s'.threads[0] == s.threads[0];
    }
  }

  lemma ModeInit(g: Graph, workers: nat)
    requires WellWired(g)
    ensures ModeOk(Init(g, workers))
  {
  }

  lemma {:induction false} ModeAlways(g: Graph, workers: nat, path: seq<State>, moves: seq<Move>, i: nat)
    requires WellWired(g) && IsRun(g, path, moves) && path[0] == Init(g, workers) && i < |path|
    ensures ModeOk(path[i])
    decreases i
  {
    if i == 0 {
      ModeInit(g, workers);
    } else {
      assert |path| == |moves| + 1;
      hide *;
      ModeAlways(g, workers, path, moves, i - 1);
      BaseAlways(g, workers, path, moves, i - 1);
      BaseShape(g, path[i - 1]);
      RunStep(g, path, moves, i - 1);
      ModeStep(g, path[i - 1], moves[i - 1].thread, moves[i - 1].choice);
    }
  }

  lemma BaseShape(g: Graph, s: State)
    requires WellWired(g) && Base(g, s)
    ensures Shape(g, s) && Sized(g, s)
  {
  }

  /** Outside the bodies of Pause and Resume a running graph has its queue switched on, a paused one off; in
      every reachable state, for any in-flight limits. */
  lemma ModeAndQueueAgree(g: Graph, workers: nat, path: seq<State>, moves: seq<Move>, i: nat)
    requires WellWired(g) && IsRun(g, path, moves) && path[0] == Init(g, workers) && i < |path|
    requires path[i].threads != [] && !MidSwitch(path[i].threads[0].outer)
    ensures path[i].mode == Running ==> path[i].queue.running
    ensures path[i].mode == Paused ==> !path[i].queue.running
  {
    ModeAlways(g, workers, path, moves, i);
  }

  /** An unstarted task, a worker that will look at the queue or a submission on its way. */
  ghost predicate AtWork(s: State) {
    s.tasks > 0 || exists t: nat :: t < |s.threads| && Carries(s.threads[t])
  }

  /** So in a graph that is meant to run, whatever was queued while it was paused, a waiting item always has the
      queue switched on and an unstarted task, a worker that will look or a submission on its way. */
  lemma RunningGraphServes(g: Graph, workers: nat, path: seq<State>, moves: seq<Move>, i: nat)
    requires WellWired(g) && IsRun(g, path, moves) && path[0] == Init(g, workers) && i < |path|
    requires path[i].threads != [] && !MidSwitch(path[i].threads[0].outer)
    requires path[i].mode == Running && path[i].queue.items != multiset{}
    ensures path[i].queue.running
    ensures AtWork(path[i])
  {
    ModeAndQueueAgree(g, workers, path, moves, i);
    NoStrandedWork(g, workers, path, moves, i);
  }

  // The move is Resume's, or Pause's, write of the queue.
  predicate SwitchesOn(s: State, m: Move) {
    m.thread < |s.threads| && s.threads[m.thread] == Thread(AppResume1, NoMid, NoLeaf)
  }

  predicate SwitchesOff(s: State, m: Move) {
    m.thread < |s.threads| && s.threads[m.thread] == Thread(AppPause2, NoMid, NoLeaf)
  }

  /** Resume over a non-empty queue leaves it running with a task, a worker or a submission; Pause leaves it
      switched off. Both keep every waiting item. */
  lemma SwitchTakesEffect(g: Graph, workers: nat, path: seq<State>, moves: seq<Move>, i: nat)
    requires WellWired(g) && IsRun(g, path, moves) && path[0] == Init(g, workers) && i < |moves|
    ensures i + 1 < |path| && (SwitchesOn(path[i], moves[i]) || SwitchesOff(path[i], moves[i]) ==> path[i + 1].queue.items == path[i].queue.items)
    ensures SwitchesOn(path[i], moves[i]) ==> path[i + 1].queue.running
    ensures SwitchesOn(path[i], moves[i]) && path[i].queue.items != multiset{} ==> AtWork(path[i + 1])
    ensures SwitchesOff(path[i], moves[i]) ==> !path[i + 1].queue.running
  {
    RunStep(g, path, moves, i);
    SwitchStep(g, path[i], moves[i].thread, moves[i].choice);
    hide Step, Enabled, WellWired, IsRun;
    NoStrandedWork(g, workers, path, moves, i + 1);
  }

  lemma SwitchStep(g: Graph, s: State, t: nat, c: Choice)
    requires WellWired(g) && Enabled(g, s, t, c)
    ensures var s' := Step(g, s, t, c);
      && (SwitchesOn(s, Move(t, c)) ==> s'.queue == s.queue.(running := true))
      && (SwitchesOff(s, Move(t, c)) ==> s'.queue == s.queue.(running := false))
  {
    if SwitchesOn(s, Move(t, c)) || SwitchesOff(s, Move(t, c)) {
      hide WellWired;
    }
  }

  /** While the queue is switched off no step asks the executor for a worker, except Resume itself. */
  lemma PausedAsksForNobody(g: Graph, s: State, t: nat, c: Choice)
    requires WellWired(g) && Enabled(g, s, t, c) && !s.queue.running && !SwitchesOn(s, Move(t, c))
    ensures t < |Step(g, s, t, c).threads|
    ensures Step(g, s, t, c).threads[t].leaf == Submit ==> s.threads[t].leaf == Submit
  {
    StepOthers(g, s, t, c);
    hide WellWired, OuterStep, OuterEnabled;
    if s.threads[t].leaf == NoLeaf && s.threads[t].mid == NoMid {
      if IsApp(s.threads[t].outer) {
        AppAsks(g, s, t, c);
      } else {
        WorkerAsks(g, s, t, c);
      }
    }
  }

  lemma AppAsks(g: Graph, s: State, t: nat, c: Choice)
    requires WellWired(g) && OuterPoint(g, s, t, c) && IsApp(s.threads[t].outer) && !s.queue.running && !SwitchesOn(s, Move(t, c))
    requires t < |OuterStep(g, s, t, c).threads|
    ensures OuterStep(g, s, t, c).threads[t].leaf != Submit
  {
    hide WellWired;
  }

  lemma WorkerAsks(g: Graph, s: State, t: nat, c: Choice)
    requires WellWired(g) && OuterPoint(g, s, t, c) && !IsApp(s.threads[t].outer) && !s.queue.running
    requires t < |OuterStep(g, s, t, c).threads|
    ensures OuterStep(g, s, t, c).threads[t].leaf != Submit
  {
    hide WellWired, AppCall, AppEnabled, OutcomeOk;
  }

  /** AddNode: a node below its limit is queued and counted in flight, and a worker is asked for exactly when the
      queue runs; at the limit nothing changes. */
  lemma GateAdmits(g: Graph, s: State, t: nat, c: Choice)
    requires WellWired(g) && Enabled(g, s, t, c) && s.threads[t].leaf.AddNode?
    ensures var s', v := Step(g, s, t, c), s.threads[t].leaf.n;
      && IsNode(g, v) && |s'.pending| == |s.pending| && t < |s'.threads|
      && (s.pending[v] < g.cap[v] ==>
            && s'.pending[v] == s.pending[v] + 1 && s'.queue.items[v] == s.queue.items[v] + 1
            && (s'.threads[t].leaf == Submit <==> s.queue.running))
      && (s.pending[v] >= g.cap[v] ==> s'.pending == s.pending && s'.queue == s.queue && s'.threads[t].leaf == NoLeaf)
  {
    hide WellWired;
  }
}
