/** Termination by HandleIdle: a pass that finds the graph over terminates it, and a graph that is over is
    terminated, or has a pass on its way, unless that pass found another one in progress and returned. */
module EngineEnd {
  import opened Timestamps
  import opened StreamState
  import opened RunQueueState
  import opened Graphs
  import opened Engine
  import opened EngineShape
  import opened EngineAccounting
  import opened EngineIdle
  import opened EngineRuns

  // ------------------------------------------------------------------ one pass

  // A stage of a pass that has found nothing against terminating so far.
  predicate OnCourse(stage: IdleStage) {
    match stage
    case Enter => true
    case Look => true
    case Test(rem) => !rem
    case Sources(rem) => !rem
    case Sweep(_, _, _, _) => true
    case Unfinal(_, _) => true
    case Verdict(rem, noMore, _) => !rem && noMore
    case Quit => true
    case _ => false
  }

  predicate Bound(th: Thread) {
    th.mid.Idle? && OnCourse(th.mid.stage)
  }

  // The pass has been through the loop's test.
  predicate Past(th: Thread) {
    Bound(th) && !th.mid.stage.Enter? && !th.mid.stage.Look? && !th.mid.stage.Test?
  }

  /** What the pass reads at this stage speaks for terminating: nobody else is inside, every graph input is
      closed, the queue is idle and the mode Running. */
  predicate Favourable(g: Graph, s: State, stage: IdleStage)
    requires WellWired(g)
  {
    match stage
    case Enter => s.handling == 0
    case Look => s.counted == GraphInputs(g)
    case Test(_) => IsIdle(s.queue) && s.mode == Running
    case _ => true
  }

  lemma CourseStep(g: Graph, s: State, t: nat, c: Choice)
    requires WellWired(g) && Inv(g, s) && Enabled(g, s, t, c) && s.threads[t].leaf == NoLeaf && Bound(s.threads[t])
    requires Favourable(g, s, s.threads[t].mid.stage)
    ensures var s' := Step(g, s, t, c);
      && t < |s'.threads|
      && (Bound(s'.threads[t]) || (s'.quits == s.quits + 1 && s'.mode == Terminated))
      && (Past(s.threads[t]) || s.threads[t].mid.stage.Test? ==> Past(s'.threads[t]) || s'.quits == s.quits + 1)
  {
    assert IdlePoint(g, s, s.threads[t]) && Sized(g, s);
    var stage := s.threads[t].mid.stage;
    if stage.Unfinal? && stage.v < |g.ins| {
      assert NodeSettled(g, s, stage.v);
    }
    hide Inv, Settled, WellWired, GraphInputs, OuterEnabled, AllDone, IdleStep, Favourable, OnCourse;
    if stage.Enter? || stage.Look? || stage.Test? {
      EarlyCourse(g, s, t, c);
    } else {
      LateCourse(g, s, t, c);
    }
  }

  lemma EarlyCourse(g: Graph, s: State, t: nat, c: Choice)
    requires WellWired(g) && Sized(g, s) && t < |s.threads| && Bound(s.threads[t])
    requires var stage := s.threads[t].mid.stage; (stage.Enter? || stage.Look? || stage.Test?) && Favourable(g, s, stage)
    ensures var s' := IdleStep(g, s, t, c);
      t < |s'.threads| && Bound(s'.threads[t]) && (s.threads[t].mid.stage.Test? ==> Past(s'.threads[t]))
  {
    hide WellWired, GraphInputs;
  }

  lemma LateCourse(g: Graph, s: State, t: nat, c: Choice)
    requires WellWired(g) && Sized(g, s) && t < |s.threads| && Bound(s.threads[t])
    requires IdlePoint(g, s, s.threads[t])
    requires var stage := s.threads[t].mid.stage;
      && !stage.Enter? && !stage.Look? && !stage.Test?
      && (stage.Unfinal? && stage.v < |g.ins| && !IsSource(g, stage.v) ==> stage.v in s.queue.finalized)
    ensures var s' := IdleStep(g, s, t, c);
      && t < |s'.threads|
      && (Past(s'.threads[t]) || (s'.quits == s.quits + 1 && s'.mode == Terminated))
  {
    hide WellWired, Settled, AllDone;
  }

  // Everything else leaves the pass where it is.
  lemma CourseKept(g: Graph, s: State, t: nat, c: Choice, u: nat)
    requires WellWired(g) && Enabled(g, s, t, c) && u < |s.threads| && Bound(s.threads[u])
    requires u != t || s.threads[t].leaf != NoLeaf
    ensures u < |Step(g, s, t, c).threads| && Bound(Step(g, s, t, c).threads[u])
    ensures Past(s.threads[u]) ==> Past(Step(g, s, t, c).threads[u])
  {
    StepOthers(g, s, t, c);
    if u != t {
      assert Step(g, s, t, c).threads[u] == s.threads[u];
    } else {
      hide WellWired, OuterStep, OuterEnabled, IdleStep, PropagateStep, ShutStep;
    }
  }

  lemma QuitsGrow(g: Graph, s: State, t: nat, c: Choice)
    requires WellWired(g) && Enabled(g, s, t, c)
    ensures s.quits <= Step(g, s, t, c).quits
  {
    if s.threads[t].leaf != NoLeaf || s.threads[t].mid != NoMid {
      hide WellWired, OuterStep, OuterEnabled;
    } else if IsApp(s.threads[t].outer) {
      hide WellWired;
    } else {
      hide WellWired, AppCall, AppEnabled, OutcomeOk;
    }
  }

  // The graph has been terminated since step `i`.
  ghost predicate EndedSince(path: seq<State>, i: nat, k: nat) {
    i < |path| && k < |path| && path[k].quits > path[i].quits
    && exists j: nat {:trigger path[j]} :: i < j <= k && path[j].mode == Terminated && path[j].quits > path[i].quits
  }

  // Step `j` is a move of thread `t` inside HandleIdle.
  predicate PassMove(s: State, m: Move, t: nat) {
    t < |s.threads| && m.thread == t && s.threads[t].leaf == NoLeaf && s.threads[t].mid.Idle?
  }

  // Whenever thread `t` moves in its pass between `i` and `k`, what it reads is favourable.
  ghost predicate ReadsFavourably(g: Graph, path: seq<State>, moves: seq<Move>, t: nat, i: nat, k: nat)
    requires WellWired(g)
  {
    forall j: nat {:trigger path[j]} :: i <= j < k && j < |path| && j < |moves| && PassMove(path[j], moves[j], t) ==>
      Favourable(g, path[j], path[j].threads[t].mid.stage)
  }

  /** A call of HandleIdle that finds nobody inside, the inputs closed, the queue idle and the mode Running when
      it looks terminates the graph: until it has, it has not left. No fairness is assumed. */
  lemma {:induction false} PassTerminates(g: Graph, rank: seq<nat>, workers: nat, path: seq<State>, moves: seq<Move>, i: nat, k: nat, t: nat)
    requires GoodRun(g, rank, workers, path, moves) && i <= k < |path|
    requires t < |path[i].threads| && Bound(path[i].threads[t]) && ReadsFavourably(g, path, moves, t, i, k)
    ensures EndedSince(path, i, k) || (t < |path[k].threads| && Bound(path[k].threads[t]))
    decreases k
  {
    hide *;
    GoodWired(g, rank, workers, path, moves);
    if i == k {
    } else {
      FavourableEarlier(g, path, moves, t, i, k);
      PassTerminates(g, rank, workers, path, moves, i, k - 1, t);
      InvAlways(g, rank, workers, path, moves, k - 1);
      RunStep(g, path, moves, k - 1);
      QuitsKept(g, path, moves, i, k - 1);
      PassNext(g, path, moves, i, k, t);
    }
  }

  lemma GoodWired(g: Graph, rank: seq<nat>, workers: nat, path: seq<State>, moves: seq<Move>)
    requires GoodRun(g, rank, workers, path, moves)
    ensures WellWired(g) && IsRun(g, path, moves) && |path| == |moves| + 1 && path[0] == Init(g, workers)
  {
    hide WellWired, SingleFlight, Ranks, Enabled, Step, Init, LateEmission, NoLateEmission;
  }

  lemma FavourableEarlier(g: Graph, path: seq<State>, moves: seq<Move>, t: nat, i: nat, k: nat)
    requires WellWired(g) && 0 < k && ReadsFavourably(g, path, moves, t, i, k)
    ensures ReadsFavourably(g, path, moves, t, i, k - 1)
  {
    hide WellWired, Favourable;
  }

  lemma PassNext(g: Graph, path: seq<State>, moves: seq<Move>, i: nat, k: nat, t: nat)
    requires WellWired(g) && |path| == |moves| + 1 && i < k < |path| && Inv(g, path[k - 1])
    requires Enabled(g, path[k - 1], moves[k - 1].thread, moves[k - 1].choice)
    requires path[k] == Step(g, path[k - 1], moves[k - 1].thread, moves[k - 1].choice)
    requires ReadsFavourably(g, path, moves, t, i, k)
    requires EndedSince(path, i, k - 1) || (t < |path[k - 1].threads| && Bound(path[k - 1].threads[t]))
    requires path[i].quits <= path[k - 1].quits || EndedSince(path, i, k - 1)
    ensures EndedSince(path, i, k) || (t < |path[k].threads| && Bound(path[k].threads[t]))
  {
    var s, m := path[k - 1], moves[k - 1];
    QuitsGrow(g, s, m.thread, m.choice);
    if EndedSince(path, i, k - 1) {
      hide WellWired, Inv, Enabled, Step, ReadsFavourably, Bound;
      var j: nat :| i < j <= k - 1 && path[j].mode == Terminated && path[j].quits > path[i].quits;
    } else if m.thread == t && s.threads[t].leaf == NoLeaf {
      assert Favourable(g, s, s.threads[t].mid.stage);
      CourseStep(g, s, t, m.choice);
      hide WellWired, Inv, Enabled, Step, ReadsFavourably, Favourable;
    } else {
      CourseKept(g, s, m.thread, m.choice, t);
    }
  }

  lemma {:induction false} QuitsKept(g: Graph, path: seq<State>, moves: seq<Move>, i: nat, k: nat)
    requires WellWired(g) && IsRun(g, path, moves) && |path| == |moves| + 1 && i <= k < |path|
    ensures path[i].quits <= path[k].quits
    decreases k
  {
    hide *;
    if i < k {
      QuitsKept(g, path, moves, i, k - 1);
      RunStep(g, path, moves, k - 1);
      QuitsGrow(g, path[k - 1], moves[k - 1].thread, moves[k - 1].choice);
    }
  }

  /** In particular, from the loop's test on: with no input remaining, an idle queue and the mode Running, the
      thread leaves HandleIdle only with the graph terminated. */
  lemma LoopTestTerminates(g: Graph, rank: seq<nat>, workers: nat, path: seq<State>, moves: seq<Move>, i: nat, k: nat, t: nat)
    requires GoodRun(g, rank, workers, path, moves) && i < k < |path| && i < |moves|
    requires PassMove(path[i], moves[i], t) && path[i].threads[t].mid.stage == Test(false)
    requires IsIdle(path[i].queue) && path[i].mode == Running
    requires t < |path[k].threads| && !path[k].threads[t].mid.Idle?
    ensures EndedSince(path, i, k)
  {
    hide *;
    TestPassed(g, rank, workers, path, moves, i, k, t);
    NotPast(path[k].threads[t]);
  }

  lemma NotPast(th: Thread)
    requires !th.mid.Idle?
    ensures !Past(th)
  {
  }

  lemma {:induction false} TestPassed(g: Graph, rank: seq<nat>, workers: nat, path: seq<State>, moves: seq<Move>, i: nat, k: nat, t: nat)
    requires GoodRun(g, rank, workers, path, moves) && i < k < |path| && i < |moves|
    requires PassMove(path[i], moves[i], t) && path[i].threads[t].mid.stage == Test(false)
    requires IsIdle(path[i].queue) && path[i].mode == Running
    ensures EndedSince(path, i, k) || (t < |path[k].threads| && Past(path[k].threads[t]))
    decreases k
  {
    hide *;
    GoodWired(g, rank, workers, path, moves);
    InvAlways(g, rank, workers, path, moves, k - 1);
    RunStep(g, path, moves, k - 1);
    if i < k - 1 {
      TestPassed(g, rank, workers, path, moves, i, k - 1, t);
    }
    QuitsKept(g, path, moves, i, k - 1);
    PastNext(g, path, moves, i, k, t);
  }

  lemma PastNext(g: Graph, path: seq<State>, moves: seq<Move>, i: nat, k: nat, t: nat)
    requires WellWired(g) && |path| == |moves| + 1 && i < k < |path| && Inv(g, path[k - 1])
    requires Enabled(g, path[k - 1], moves[k - 1].thread, moves[k - 1].choice)
    requires path[k] == Step(g, path[k - 1], moves[k - 1].thread, moves[k - 1].choice)
    requires path[i].quits <= path[k - 1].quits
    requires if i < k - 1 then EndedSince(path, i, k - 1) || (t < |path[k - 1].threads| && Past(path[k - 1].threads[t]))
      else PassMove(path[i], moves[i], t) && path[i].threads[t].mid.stage == Test(false) && IsIdle(path[i].queue) && path[i].mode == Running
    ensures EndedSince(path, i, k) || (t < |path[k].threads| && Past(path[k].threads[t]))
  {
    var s, m := path[k - 1], moves[k - 1];
    QuitsGrow(g, s, m.thread, m.choice);
    if i < k - 1 && EndedSince(path, i, k - 1) {
      hide WellWired, Inv, Enabled, Step, Past;
      var j: nat :| i < j <= k - 1 && path[j].mode == Terminated && path[j].quits > path[i].quits;
    } else if m.thread == t && s.threads[t].leaf == NoLeaf {
      CourseStep(g, s, t, m.choice);
      hide WellWired, Inv, Enabled, Step, Favourable;
    } else {
      CourseKept(g, s, m.thread, m.choice, t);
      hide WellWired, Inv, Enabled, Step;
    }
  }

  // ------------------------------------------------------------------ who starts the last pass

  /** Nothing is left to do: the queue idle, every graph input closed, and the mode Running. */
  predicate Over(g: Graph, s: State)
    requires WellWired(g)
  {
    IsIdle(s.queue) && s.counted == GraphInputs(g) && s.mode == Running
  }

  // The thread is about to enter HandleIdle, or inside Resume, which ends with that.
  predicate OwesPass(th: Thread) {
    th.mid == Idle(Enter) || (th.mid == NoMid && (th.outer.AppResume1? || th.outer.AppResume2?))
  }

  /** The step that makes the graph over leaves its thread owing a pass. */
  lemma OverOnset(g: Graph, s: State, t: nat, c: Choice)
    requires WellWired(g) && Inv(g, s) && Enabled(g, s, t, c) && !Over(g, s) && Over(g, Step(g, s, t, c))
    ensures t < |Step(g, s, t, c).threads| && OwesPass(Step(g, s, t, c).threads[t])
  {
    StepOthers(g, s, t, c);
    assert Sized(g, s) && AccOk(g, s);
    if s.threads[t].leaf != NoLeaf || s.threads[t].mid != NoMid {
      CallNoOnset(g, s, t, c);
    } else if IsApp(s.threads[t].outer) {
      hide WellWired, Inv, AccOk, GraphInputs;
    } else {
      SumHasOne(Slot, s.threads, t);
      hide Inv;
      WorkerOnset(g, s, t, c);
    }
  }

  lemma CallNoOnset(g: Graph, s: State, t: nat, c: Choice)
    requires WellWired(g) && Enabled(g, s, t, c) && (s.threads[t].leaf != NoLeaf || s.threads[t].mid != NoMid)
    ensures Over(g, Step(g, s, t, c)) ==> Over(g, s)
  {
    hide WellWired, OuterStep, OuterEnabled, GraphInputs;
    if s.threads[t].leaf.AddNode? {
      var v := s.threads[t].leaf.n;
      assert Pushed(s.queue, v).items[v] > 0;
    }
  }

  lemma WorkerOnset(g: Graph, s: State, t: nat, c: Choice)
    requires WellWired(g) && OuterPoint(g, s, t, c) && !IsApp(s.threads[t].outer)
    requires Busy(s.threads[t].outer) ==> s.queue.numPending > 0
    requires !Over(g, s) && Over(g, OuterStep(g, s, t, c))
    ensures t < |OuterStep(g, s, t, c).threads| && OwesPass(OuterStep(g, s, t, c).threads[t])
  {
    hide WellWired, AppCall, AppEnabled, OutcomeOk, GraphInputs;
  }

  // A thread owes a pass or is in one that will terminate the graph.
  ghost predicate OnItsWay(s: State) {
    exists t: nat {:trigger s.threads[t]} :: t < |s.threads| && (OwesPass(s.threads[t]) || Bound(s.threads[t]))
  }

  /** Step `m` is a call of HandleIdle that finds another thread inside and returns. */
  predicate Bounces(s: State, m: Move) {
    PassMove(s, m, m.thread) && s.threads[m.thread].mid.stage == Enter && s.handling > 0
  }

  // Such a call was made since the graph was over.
  ghost predicate DroppedSince(g: Graph, path: seq<State>, moves: seq<Move>, i: nat)
    requires WellWired(g)
  {
    exists m: nat {:trigger moves[m]} :: m < i && m < |moves| && i < |path| && Bounces(path[m], moves[m])
      && forall j: nat {:trigger path[j]} :: m <= j <= i ==> Over(g, path[j])
  }

  /** A graph that is over is terminated: it has been, or a thread is on its way to do it, or the call of
      HandleIdle that was made for it found another one in progress and returned. In every state of every run. */
  lemma {:induction false} OverEnds(g: Graph, rank: seq<nat>, workers: nat, path: seq<State>, moves: seq<Move>, i: nat)
    requires GoodRun(g, rank, workers, path, moves) && i < |path| && Over(g, path[i])
    ensures path[i].quits > 0 || OnItsWay(path[i]) || DroppedSince(g, path, moves, i)
    decreases i
  {
    hide *;
    GoodWired(g, rank, workers, path, moves);
    if i == 0 {
      StartOnItsWay(g, workers);
    } else {
      InvAlways(g, rank, workers, path, moves, i - 1);
      RunStep(g, path, moves, i - 1);
      if Over(g, path[i - 1]) {
        OverEnds(g, rank, workers, path, moves, i - 1);
        OverNext(g, path, moves, i);
      } else {
        OverOnset(g, path[i - 1], moves[i - 1].thread, moves[i - 1].choice);
        OnsetOnItsWay(path[i], moves[i - 1].thread);
      }
    }
  }

  lemma OnsetOnItsWay(s: State, t: nat)
    requires t < |s.threads| && OwesPass(s.threads[t])
    ensures OnItsWay(s)
  {
  }

  lemma StartOnItsWay(g: Graph, workers: nat)
    requires WellWired(g)
    ensures OnItsWay(Init(g, workers))
  {
    assert OwesPass(Init(g, workers).threads[0]);
  }

  lemma OverNext(g: Graph, path: seq<State>, moves: seq<Move>, i: nat)
    requires WellWired(g) && |path| == |moves| + 1 && 0 < i < |path| && Inv(g, path[i - 1])
    requires Enabled(g, path[i - 1], moves[i - 1].thread, moves[i - 1].choice)
    requires path[i] == Step(g, path[i - 1], moves[i - 1].thread, moves[i - 1].choice)
    requires Over(g, path[i - 1]) && Over(g, path[i])
    requires path[i - 1].quits > 0 || OnItsWay(path[i - 1]) || DroppedSince(g, path, moves, i - 1)
    ensures path[i].quits > 0 || OnItsWay(path[i]) || DroppedSince(g, path, moves, i)
  {
    var s, m := path[i - 1], moves[i - 1];
    QuitsGrow(g, s, m.thread, m.choice);
    hide WellWired, Inv, Enabled, Step, Over, Bounces, OwesPass, Bound;
    if DroppedSince(g, path, moves, i - 1) {
      var n: nat :| n < i - 1 && n < |moves| && Bounces(path[n], moves[n]) && forall j: nat {:trigger path[j]} :: n <= j <= i - 1 ==> Over(g, path[j]);
      assert Bounces(path[n], moves[n]) && moves[n] == moves[n];
    } else if path[i - 1].quits == 0 {
      MoveParts(m);
      OverMove(g, s, m.thread, m.choice);
      if Bounces(s, m) {
        assert Bounces(path[i - 1], moves[i - 1]);
      }
    }
  }

  lemma OverMove(g: Graph, s: State, t: nat, c: Choice)
    requires WellWired(g) && Inv(g, s) && Enabled(g, s, t, c) && Over(g, s) && OnItsWay(s)
    ensures Step(g, s, t, c).quits > s.quits || OnItsWay(Step(g, s, t, c)) || Bounces(s, Move(t, c))
  {
    hide WellWired, Inv, Enabled, Step, Over, Bounces, OwesPass, Bound;
    var u: nat :| u < |s.threads| && (OwesPass(s.threads[u]) || Bound(s.threads[u]));
    WayNext(g, s, t, c, u);
  }

  lemma MoveParts(m: Move)
    ensures Move(m.thread, m.choice) == m
  {
  }

  lemma WayNext(g: Graph, s: State, t: nat, c: Choice, u: nat)
    requires WellWired(g) && Inv(g, s) && Enabled(g, s, t, c) && Over(g, s) && u < |s.threads|
    requires OwesPass(s.threads[u]) || Bound(s.threads[u])
    ensures var s' := Step(g, s, t, c);
      || (u < |s'.threads| && (OwesPass(s'.threads[u]) || Bound(s'.threads[u])))
      || s'.quits > s.quits || Bounces(s, Move(t, c))
  {
    StepOthers(g, s, t, c);
    if u != t {
      assert Step(g, s, t, c).threads[u] == s.threads[u];
    } else if s.threads[t].leaf != NoLeaf {
      CallKeepsWay(g, s, t, c);
    } else if Bound(s.threads[u]) && (s.threads[u].mid.stage != Enter || s.handling == 0) {
      CourseStep(g, s, t, c);
    } else if s.threads[u].mid == NoMid {
      ResumeKeepsWay(g, s, t, c);
    }
  }

  lemma CallKeepsWay(g: Graph, s: State, t: nat, c: Choice)
    requires WellWired(g) && Enabled(g, s, t, c) && s.threads[t].leaf != NoLeaf && t < |Step(g, s, t, c).threads|
    ensures OwesPass(s.threads[t]) ==> OwesPass(Step(g, s, t, c).threads[t])
    ensures Bound(s.threads[t]) ==> Bound(Step(g, s, t, c).threads[t])
  {
    hide WellWired, OuterStep, OuterEnabled, IdleStep, PropagateStep, ShutStep;
  }

  lemma ResumeKeepsWay(g: Graph, s: State, t: nat, c: Choice)
    requires WellWired(g) && Enabled(g, s, t, c) && s.threads[t].leaf == NoLeaf && s.threads[t].mid == NoMid
    requires OwesPass(s.threads[t]) && t < |Step(g, s, t, c).threads|
    ensures OwesPass(Step(g, s, t, c).threads[t])
  {
    hide WellWired, LeafStep, IdleStep, PropagateStep, ShutStep;
  }
}
