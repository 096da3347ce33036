/** The main results over whole runs of the engine, from the state Start leaves. */
module EngineRuns {
  import opened Timestamps
  import opened StreamState
  import opened RunQueueState
  import opened Graphs
  import opened Engine
  import opened EngineShape
  import opened EngineAccounting
  import opened EngineSources
  import opened EngineFlow
  import opened EngineSeal
  import opened EngineSealSteps
  import opened EngineFinal
  import opened EngineWake
  import opened EngineIdle

  // ------------------------------------------------------------------ every graph, every in-flight limit

  ghost predicate Base(g: Graph, s: State)
    requires WellWired(g)
  {
    Shape(g, s) && AccOk(g, s) && WakeOk(g, s)
  }

  // One link of a run.
  lemma RunStep(g: Graph, path: seq<State>, moves: seq<Move>, k: nat)
    requires WellWired(g) && IsRun(g, path, moves) && k < |moves|
    ensures k + 1 < |path| && Enabled(g, path[k], moves[k].thread, moves[k].choice)
    ensures path[k + 1] == Step(g, path[k], moves[k].thread, moves[k].choice)
  {
  }

  lemma {:induction false} BaseAlways(g: Graph, workers: nat, path: seq<State>, moves: seq<Move>, i: nat)
    requires WellWired(g) && IsRun(g, path, moves) && path[0] == Init(g, workers) && i < |path|
    ensures Base(g, path[i])
    decreases i
  {
    if i == 0 {
      WakeInit(g, workers);
      AccInit(g, workers);
    } else {
      BaseAlways(g, workers, path, moves, i - 1);
      RunStep(g, path, moves, i - 1);
      hide WellWired, IsRun, Shape, AccOk, WakeOk, Enabled, Step;
      ShapeStep(g, path[i - 1], moves[i - 1].thread, moves[i - 1].choice);
      AccStep(g, path[i - 1], moves[i - 1].thread, moves[i - 1].choice);
      WakeStep(g, path[i - 1], moves[i - 1].thread, moves[i - 1].choice);
    }
  }

  /** In-flight accounting: pending_count is the queued invocations plus the runs that have not reached
      DecrementPending, and never passes MaxInFlight. */
  lemma InFlight(g: Graph, workers: nat, path: seq<State>, moves: seq<Move>, i: nat, v: nat)
    requires WellWired(g) && IsRun(g, path, moves) && path[0] == Init(g, workers) && i < |path| && IsNode(g, v)
    ensures var s := path[i];
      && Sized(g, s)
      && s.pending[v] == s.queue.items[v] + Sum(Runner(v), s.threads)
      && s.pending[v] <= g.cap[v]
  {
    BaseAlways(g, workers, path, moves, i);
    assert Flight(g, path[i], v);
  }

  /** A node limited to one invocation is never run by two workers at a time. */
  lemma NoOverlap(g: Graph, workers: nat, path: seq<State>, moves: seq<Move>, i: nat, v: nat, t: nat, u: nat)
    requires WellWired(g) && IsRun(g, path, moves) && path[0] == Init(g, workers) && i < |path|
    requires IsNode(g, v) && g.cap[v] == 1 && t < |path[i].threads| && u < |path[i].threads|
    requires Runs(path[i].threads[t].outer, v) && Runs(path[i].threads[u].outer, v)
    ensures t == u && path[i].queue.items[v] == 0
  {
    BaseAlways(g, workers, path, moves, i);
    var s := path[i];
    assert Flight(g, s, v);
    SumHasOne(Runner(v), s.threads, t);
    if t < u {
      SumHasTwo(Runner(v), s.threads, t, u);
    } else if u < t {
      SumHasTwo(Runner(v), s.threads, u, t);
    }
  }

  ghost predicate NobodyWorks(s: State) {
    forall t: nat {:trigger s.threads[t]} :: t < |s.threads| ==> !Busy(s.threads[t].outer) && s.threads[t].leaf != AddTask
  }

  /** No stranded work, under any use of Pause and Resume: a running queue that holds an item has an
      unstarted task, a worker that will look, or a submission in flight. Conversely an idle queue has
      no task, no worker inside RunNextTask and nobody about to hand the executor a task. */
  lemma NoStrandedWork(g: Graph, workers: nat, path: seq<State>, moves: seq<Move>, i: nat)
    requires WellWired(g) && IsRun(g, path, moves) && path[0] == Init(g, workers) && i < |path|
    ensures WantsWorker(path[i].queue) ==>
      path[i].tasks > 0 || exists t: nat :: t < |path[i].threads| && Carries(path[i].threads[t])
    ensures path[i].queue.numPending == path[i].tasks + Sum(Slot, path[i].threads)
    ensures IsIdle(path[i].queue) ==> path[i].tasks == 0 && NobodyWorks(path[i])
  {
    BaseAlways(g, workers, path, moves, i);
    if IsIdle(path[i].queue) {
      IdleHasNoWorker(g, path[i]);
    }
  }

  /** HandleIdle admits one thread at a time to its body, and handling_idle_ counts those inside. */
  lemma OneIdleHandler(g: Graph, workers: nat, path: seq<State>, moves: seq<Move>, i: nat)
    requires WellWired(g) && IsRun(g, path, moves) && path[0] == Init(g, workers) && i < |path|
    ensures path[i].handling == Sum(Handler, path[i].threads) && Sum(Body, path[i].threads) <= 1
  {
    BaseAlways(g, workers, path, moves, i);
  }

  /** No lost wakeup: although AddNode drops requests at the limit, a consumer with a packet waiting, or
      with every input done and not finalized, is pending or some thread still owes it a look. */
  lemma NoLostWakeup(g: Graph, workers: nat, path: seq<State>, moves: seq<Move>, i: nat)
    requires WellWired(g) && IsRun(g, path, moves) && path[0] == Init(g, workers) && i < |path|
    ensures var s := path[i];
      && Sized(g, s)
      && (forall e: nat {:trigger IsEdge(g, e)} :: IsEdge(g, e) && s.edges[e].queue != [] ==>
            s.pending[g.dst[e]] > 0
            || exists t: nat {:trigger s.threads[t]} :: t < |s.threads| && WillSee(g, s.threads[t], e))
      && (forall v: nat {:trigger IsNode(g, v)} ::
            IsNode(g, v) && !IsSource(g, v) && AllDone(g, s, v) && v !in s.queue.finalized ==>
            s.pending[v] > 0
            || exists t: nat {:trigger s.threads[t]} :: t < |s.threads| && WillFinalize(s.threads[t], v))
  {
    BaseAlways(g, workers, path, moves, i);
    var s := path[i];
    forall e: nat | IsEdge(g, e) && s.edges[e].queue != []
      ensures IsNode(g, g.dst[e])
      ensures s.pending[g.dst[e]] > 0
        || exists t: nat {:trigger s.threads[t]} :: t < |s.threads| && WillSee(g, s.threads[t], e)
    {
      EdgeFacts(g, e);
      assert EdgeWatched(g, s, e);
    }
    forall v: nat | IsNode(g, v) && !IsSource(g, v) && AllDone(g, s, v) && v !in s.queue.finalized
      ensures s.pending[v] > 0
        || exists t: nat {:trigger s.threads[t]} :: t < |s.threads| && WillFinalize(s.threads[t], v)
    {
      assert NodeWatched(g, s, v);
    }
  }

  /** An idle queue that nobody is about to call holds up no packet and no finished node. */
  lemma IdleLeavesNothing(g: Graph, workers: nat, path: seq<State>, moves: seq<Move>, i: nat)
    requires WellWired(g) && IsRun(g, path, moves) && path[0] == Init(g, workers) && i < |path|
    requires IsIdle(path[i].queue)
    requires forall t: nat {:trigger path[i].threads[t]} :: t < |path[i].threads| ==> !path[i].threads[t].leaf.AddNode?
    ensures var s := path[i];
      && Sized(g, s)
      && (forall e: nat {:trigger IsEdge(g, e)} :: IsEdge(g, e) ==> s.edges[e].queue == [])
      && (forall v: nat {:trigger IsNode(g, v)} ::
            IsNode(g, v) && !IsSource(g, v) && AllDone(g, s, v) ==> v in s.queue.finalized)
  {
    BaseAlways(g, workers, path, moves, i);
    var s := path[i];
    IdleHasNoWorker(g, s);
    forall v: nat | IsNode(g, v) ensures s.pending[v] == 0 {
      SumZero(Runner(v), s.threads);
      assert Flight(g, s, v);
    }
    forall e: nat | IsEdge(g, e) ensures s.edges[e].queue == [] {
      EdgeFacts(g, e);
      assert IsNode(g, g.dst[e]) && EdgeWatched(g, s, e);
      assert forall t: nat {:trigger s.threads[t]} :: t < |s.threads| ==> !WillSee(g, s.threads[t], e);
    }
    forall v: nat | IsNode(g, v) && !IsSource(g, v) && AllDone(g, s, v) ensures v in s.queue.finalized {
      assert NodeWatched(g, s, v);
      assert forall t: nat {:trigger s.threads[t]} :: t < |s.threads| ==> !WillFinalize(s.threads[t], v);
    }
  }

  // ------------------------------------------------------------------ acyclic graphs, one invocation per node

  ghost predicate Inv(g: Graph, s: State)
    requires WellWired(g)
  {
    && Shape(g, s) && AllSized(g, s) && AccOk(g, s) && WakeOk(g, s)
    && SourcesOk(g, s) && FlowsOk(g, s) && SealOk(g, s) && FinalOk(g, s) && IdleOk(g, s)
  }

  lemma InvStep(g: Graph, rank: seq<nat>, s: State, t: nat, c: Choice)
    requires WellWired(g) && SingleFlight(g) && Ranks(g, rank) && Inv(g, s) && Enabled(g, s, t, c) && !LateEmission(g, s, t, c)
    ensures Inv(g, Step(g, s, t, c))
  {
    assert Sized(g, s) && t < |s.threads|;
    hide Shape, AccOk, WakeOk, SourcesOk, FlowsOk, SealOk, FinalOk, IdleOk, Enabled, Step, LateEmission, SingleFlight, Ranks, AllSized;
    ShapeStep(g, s, t, c);
    AccStep(g, s, t, c);
    WakeStep(g, s, t, c);
    SkipIsEmpty(g, s, t);
    FlowStep(g, s, t, c);
    IdleOkStep(g, s, rank, t, c);
    IdleUnkicked(g, s);
    IdleUnkicked(g, Step(g, s, t, c));
    SourcesStep(g, s, t, c);
    SealStep(g, s, t, c);
    FinalStep(g, s, t, c);
  }

  lemma InvInit(g: Graph, workers: nat)
    requires WellWired(g)
    ensures Inv(g, Init(g, workers))
  {
    hide Shape, AccOk, WakeOk, SourcesOk, FlowsOk, SealOk, FinalOk, IdleOk;
    WakeInit(g, workers);
    AccInit(g, workers);
    SourcesInit(g, workers);
    FlowInit(g, workers);
    SealInit(g, workers);
    FinalInit(g, workers);
    IdleInit(g, workers);
  }

  /** A run of an acyclic graph whose nodes are limited to one invocation each, from Start, in which no
      Process call of an already finalized node emits a packet. */
  ghost predicate GoodRun(g: Graph, rank: seq<nat>, workers: nat, path: seq<State>, moves: seq<Move>) {
    && WellWired(g) && SingleFlight(g) && Ranks(g, rank)
    && IsRun(g, path, moves) && path[0] == Init(g, workers) && NoLateEmission(g, path, moves)
  }

  lemma {:induction false} InvAlways(g: Graph, rank: seq<nat>, workers: nat, path: seq<State>, moves: seq<Move>, i: nat)
    requires GoodRun(g, rank, workers, path, moves) && i < |path|
    ensures Inv(g, path[i])
    decreases i
  {
    if i == 0 {
      InvInit(g, workers);
    } else {
      assert WellWired(g) && SingleFlight(g) && Ranks(g, rank) && IsRun(g, path, moves) && |path| == |moves| + 1;
      assert NoLateEmission(g, path, moves);
      hide Inv, WellWired, SingleFlight, Ranks, LateEmission, IsRun, GoodRun, Step, Enabled;
      InvAlways(g, rank, workers, path, moves, i - 1);
      RunStep(g, path, moves, i - 1);
      assert !LateEmission(g, path[i - 1], moves[i - 1].thread, moves[i - 1].choice);
      InvStep(g, rank, path[i - 1], moves[i - 1].thread, moves[i - 1].choice);
    }
  }

  // A settled graph runs no node and has every graph input closed, so nothing is emitted any more.
  lemma SettledEmitsNothing(g: Graph, s: State, t: nat, c: Choice)
    requires WellWired(g) && Shape(g, s) && Settled(g, s) && Enabled(g, s, t, c)
    ensures Step(g, s, t, c).emitted == s.emitted && s.quits <= Step(g, s, t, c).quits
  {
    assert Calm(s.threads[t]);
    if s.threads[t].leaf == NoLeaf && s.threads[t].mid == NoMid {
      hide WellWired, OutcomeOk;
    } else {
      hide WellWired;
    }
  }

  lemma {:induction false} NothingAfterQuit(g: Graph, rank: seq<nat>, workers: nat, path: seq<State>, moves: seq<Move>, i: nat, k: nat)
    requires GoodRun(g, rank, workers, path, moves) && i <= k < |path| && path[i].quits > 0
    ensures path[k].quits > 0 && path[k].emitted == path[i].emitted
    decreases k
  {
    hide *;
    if i == k {
    } else {
      NothingAfterQuit(g, rank, workers, path, moves, i, k - 1);
      QuitNext(g, rank, workers, path, moves, k);
    }
  }

  lemma QuitNext(g: Graph, rank: seq<nat>, workers: nat, path: seq<State>, moves: seq<Move>, k: nat)
    requires GoodRun(g, rank, workers, path, moves) && 0 < k < |path| && path[k - 1].quits > 0
    ensures path[k].quits > 0 && path[k].emitted == path[k - 1].emitted
  {
    assert WellWired(g) && IsRun(g, path, moves) && |path| == |moves| + 1;
    InvAlways(g, rank, workers, path, moves, k - 1);
    assert IdleOk(g, path[k - 1]);
    hide WellWired, IsRun, GoodRun, AccOk, WakeOk, SourcesOk, FlowsOk, SealOk, FinalOk, Shape, Settled;
    RunStep(g, path, moves, k - 1);
    SettledEmitsNothing(g, path[k - 1], moves[k - 1].thread, moves[k - 1].choice);
  }

  /** Fan-out completeness: once HandleIdle has terminated the graph, every consumer of every stream has
      popped exactly what the producer emitted, in order, every input is done and empty, every source
      has stopped and every other node is finalized; and nothing is emitted afterwards. */
  lemma FanOutComplete(g: Graph, rank: seq<nat>, workers: nat, path: seq<State>, moves: seq<Move>, i: nat)
    requires GoodRun(g, rank, workers, path, moves) && i < |path| && path[i].quits > 0
    ensures var s := path[i];
      && Sized(g, s)
      && (forall e: nat {:trigger IsEdge(g, e)} :: IsEdge(g, e) ==>
            s.consumed[e] == s.emitted[g.src[e]] && IsDone(s.edges[e]))
      && (forall v: nat {:trigger IsNode(g, v)} :: IsNode(g, v) ==>
            if IsSource(g, v) then v in s.stopped else v in s.queue.finalized)
      && s.active == {} && s.counted == GraphInputs(g)
    ensures forall k: nat {:trigger path[k]} :: i <= k < |path| ==> path[k].emitted == path[i].emitted
  {
    forall k: nat | i <= k < |path| ensures path[k].emitted == path[i].emitted {
      NothingAfterQuit(g, rank, workers, path, moves, i, k);
    }
    InvAlways(g, rank, workers, path, moves, i);
    var s := path[i];
    assert Settled(g, s);
    forall e: nat | IsEdge(g, e) ensures s.consumed[e] == s.emitted[g.src[e]] && IsDone(s.edges[e]) {
      EdgeFacts(g, e);
      assert EdgeSettled(g, s, e);
    }
    forall v: nat | IsNode(g, v) ensures if IsSource(g, v) then v in s.stopped else v in s.queue.finalized {
      assert NodeSettled(g, s, v);
    }
  }

  /** In every state, what a consumer popped is a prefix of what the producer emitted. */
  lemma ConsumedIsPrefix(g: Graph, rank: seq<nat>, workers: nat, path: seq<State>, moves: seq<Move>, i: nat, e: nat)
    requires GoodRun(g, rank, workers, path, moves) && i < |path| && IsEdge(g, e)
    ensures Sized(g, path[i]) && IsStream(g, g.src[e])
    ensures path[i].consumed[e] + path[i].edges[e].queue <= path[i].emitted[g.src[e]]
  {
    InvAlways(g, rank, workers, path, moves, i);
    EdgeFacts(g, e);
    assert FlowOk(g, path[i], e);
  }

  /** Drain is exact: with an idle queue and every graph input closed there is nothing to drain, and the
      verdict HandleIdle acts on is never kNotDone. Its rescheduling branches are never taken. */
  lemma DrainExact(g: Graph, rank: seq<nat>, workers: nat, path: seq<State>, moves: seq<Move>, i: nat, t: nat)
    requires GoodRun(g, rank, workers, path, moves) && i < |path| && t < |path[i].threads|
    ensures var m := path[i].threads[t].mid;
      m.Idle? ==> !m.stage.Refill? && !m.stage.Kick? && !(m.stage.Verdict? && m.stage.drain == NotDone && m.stage.noMore && !m.stage.rem)
    ensures Sized(g, path[i])
    ensures IsIdle(path[i].queue) && path[i].counted == GraphInputs(g) ==>
      forall v: nat {:trigger IsNode(g, v)} :: IsNode(g, v) && !IsSource(g, v) ==>
        AllDone(g, path[i], v) && v in path[i].queue.finalized
  {
    InvAlways(g, rank, workers, path, moves, i);
    var s := path[i];
    assert IdlePoint(g, s, s.threads[t]);
    if IsIdle(s.queue) && s.counted == GraphInputs(g) {
      IdleSettles(g, s, rank);
      forall v: nat | IsNode(g, v) && !IsSource(g, v) ensures AllDone(g, s, v) && v in s.queue.finalized {
        assert NodeSettled(g, s, v);
        assert FinalNode(g, s, v);
      }
    }
  }

  lemma {:induction false} DoneStays(g: Graph, rank: seq<nat>, workers: nat, path: seq<State>, moves: seq<Move>, i: nat, j: nat, e: nat)
    requires GoodRun(g, rank, workers, path, moves) && i <= j < |path| && IsEdge(g, e)
    requires Sized(g, path[i]) && IsDone(path[i].edges[e])
    ensures Sized(g, path[j]) && IsDone(path[j].edges[e])
    decreases j
  {
    hide *;
    if i < j {
      DoneStays(g, rank, workers, path, moves, i, j - 1, e);
      DoneNext(g, rank, workers, path, moves, j, e);
    }
  }

  lemma DoneNext(g: Graph, rank: seq<nat>, workers: nat, path: seq<State>, moves: seq<Move>, j: nat, e: nat)
    requires GoodRun(g, rank, workers, path, moves) && 0 < j < |path| && IsEdge(g, e)
    requires Sized(g, path[j - 1]) && IsDone(path[j - 1].edges[e])
    ensures Sized(g, path[j]) && IsDone(path[j].edges[e])
  {
    assert WellWired(g) && IsRun(g, path, moves) && |path| == |moves| + 1;
    hide *;
    InvAlways(g, rank, workers, path, moves, j - 1);
    RunStep(g, path, moves, j - 1);
    DoneOneStep(g, path[j - 1], moves[j - 1].thread, moves[j - 1].choice, e);
  }

  lemma DoneOneStep(g: Graph, s: State, t: nat, c: Choice, e: nat)
    requires WellWired(g) && Inv(g, s) && Enabled(g, s, t, c) && IsEdge(g, e) && IsDone(s.edges[e])
    ensures Sized(g, Step(g, s, t, c)) && IsDone(Step(g, s, t, c).edges[e])
  {
    hide WellWired, AllSized, Step, Enabled, ThreadOk, SharedOk;
    ShapeStep(g, s, t, c);
    DoneIsStable(g, s, t, c);
  }

  /** Done is final: an input once done and empty stays so, and its consumer has then popped everything
      its producer has emitted or ever will. */
  lemma DoneIsFinal(g: Graph, rank: seq<nat>, workers: nat, path: seq<State>, moves: seq<Move>, i: nat, j: nat, e: nat)
    requires GoodRun(g, rank, workers, path, moves) && i <= j < |path| && IsEdge(g, e)
    requires Sized(g, path[i]) && IsDone(path[i].edges[e])
    ensures Sized(g, path[j]) && IsDone(path[j].edges[e]) && IsStream(g, g.src[e])
    ensures path[j].consumed[e] == path[j].emitted[g.src[e]]
  {
    DoneStays(g, rank, workers, path, moves, i, j, e);
    InvAlways(g, rank, workers, path, moves, j);
    EdgeFacts(g, e);
    assert FlowOk(g, path[j], e) && EdgeSealed(g, path[j], e);
  }

  // ------------------------------------------------------------------ two-phase finalize

  // The move decides to close node `v`.
  ghost predicate Closes(g: Graph, s: State, m: Move, v: nat)
    requires WellWired(g) && Enabled(g, s, m.thread, m.choice)
  {
    && v !in s.queue.finalized
    && v in Step(g, s, m.thread, m.choice).queue.finalized
  }

  // The move ends a run of `v` by asking for one more.
  ghost predicate AsksAgain(g: Graph, s: State, m: Move, v: nat)
    requires WellWired(g) && Enabled(g, s, m.thread, m.choice)
  {
    && v !in s.queue.closePending
    && v in Step(g, s, m.thread, m.choice).queue.closePending
  }

  lemma OnlyDecideFinalizes(g: Graph, s: State, t: nat, c: Choice)
    requires WellWired(g) && Enabled(g, s, t, c)
    ensures s.queue.finalized <= Step(g, s, t, c).queue.finalized
    ensures var s' := Step(g, s, t, c);
      s'.queue.finalized != s.queue.finalized || s'.queue.closePending != s.queue.closePending ==>
      && OuterPoint(g, s, t, c) && s.threads[t].outer.Decide?
      && s' == DecideStep(g, s, t, s.threads[t].outer.v, s.threads[t].outer.done)
  {
    hide WellWired;
    if s.threads[t].leaf == NoLeaf && s.threads[t].mid == NoMid {
      hide AppCall, AppEnabled, OutcomeOk;
      OuterFinalizes(g, s, t, c);
    }
  }

  lemma OuterFinalizes(g: Graph, s: State, t: nat, c: Choice)
    requires WellWired(g) && OuterPoint(g, s, t, c)
    ensures s.queue.finalized <= OuterStep(g, s, t, c).queue.finalized
    ensures !s.threads[t].outer.Decide? ==> OuterStep(g, s, t, c).queue.finalized == s.queue.finalized
    ensures !s.threads[t].outer.Decide? ==> OuterStep(g, s, t, c).queue.closePending == s.queue.closePending
  {
    hide WellWired;
  }

  // The request for the second run, which precedes the closing one.
  lemma {:induction false} FirstPhase(g: Graph, rank: seq<nat>, workers: nat, path: seq<State>, moves: seq<Move>, i: nat, v: nat) returns (j: nat)
    requires GoodRun(g, rank, workers, path, moves) && i < |path| && v in path[i].queue.closePending
    ensures j < i && Enabled(g, path[j], moves[j].thread, moves[j].choice)
    ensures AsksAgain(g, path[j], moves[j], v) && Sized(g, path[j]) && IsNode(g, v) && AllDone(g, path[j], v)
    decreases i
  {
    hide *;
    NobodyAsksAtStart(g, rank, workers, path, moves, i, v);
    if v in path[i - 1].queue.closePending {
      j := FirstPhase(g, rank, workers, path, moves, i - 1, v);
    } else {
      j := i - 1;
      AskingRun(g, rank, workers, path, moves, j, v);
    }
  }

  lemma NobodyAsksAtStart(g: Graph, rank: seq<nat>, workers: nat, path: seq<State>, moves: seq<Move>, i: nat, v: nat)
    requires GoodRun(g, rank, workers, path, moves) && i < |path| && v in path[i].queue.closePending
    ensures i > 0 && |path| == |moves| + 1
  {
  }

  lemma AskingRun(g: Graph, rank: seq<nat>, workers: nat, path: seq<State>, moves: seq<Move>, j: nat, v: nat)
    requires GoodRun(g, rank, workers, path, moves) && j < |moves|
    requires v in path[j + 1].queue.closePending && v !in path[j].queue.closePending
    ensures Enabled(g, path[j], moves[j].thread, moves[j].choice)
    ensures AsksAgain(g, path[j], moves[j], v) && Sized(g, path[j]) && IsNode(g, v) && AllDone(g, path[j], v)
  {
    InvAlways(g, rank, workers, path, moves, j);
    RunStep(g, path, moves, j);
    OnlyDecideFinalizes(g, path[j], moves[j].thread, moves[j].choice);
    assert FinalThread(g, path[j], moves[j].thread);
  }

  lemma FinalizedNext(g: Graph, path: seq<State>, moves: seq<Move>, j: nat)
    requires WellWired(g) && IsRun(g, path, moves) && 0 < j < |path|
    ensures path[j - 1].queue.finalized <= path[j].queue.finalized
  {
    RunStep(g, path, moves, j - 1);
    OnlyDecideFinalizes(g, path[j - 1], moves[j - 1].thread, moves[j - 1].choice);
  }

  lemma {:induction false} FinalizedGrows(g: Graph, path: seq<State>, moves: seq<Move>, i: nat, j: nat)
    requires WellWired(g) && IsRun(g, path, moves) && i <= j < |path|
    ensures path[i].queue.finalized <= path[j].queue.finalized
    decreases j
  {
    hide *;
    if i < j {
      FinalizedGrows(g, path, moves, i, j - 1);
      FinalizedNext(g, path, moves, j);
    }
  }

  // The thread is in an invocation of `v` that has not decided yet.
  predicate InRun(o: Outer, v: nat) {
    match o
    case Collect(w, _, _) => w == v
    case Compute(w, _) => w == v
    case Post(w, _, _, _, _) => w == v
    case PostShut(w, _, _, _, _) => w == v
    case Scan(w, _, _) => w == v
    case Decide(w, _, _) => w == v
    case _ => false
  }

  // The move takes an invocation of `v` off the queue.
  predicate TakesNode(s: State, m: Move, v: nat) {
    && m.thread < |s.threads| && s.threads[m.thread] == Thread(Fetch, NoMid, NoLeaf) && m.choice == Pick(v)
    && v in s.queue.items
  }

  lemma StepOthers(g: Graph, s: State, t: nat, c: Choice)
    requires WellWired(g) && Enabled(g, s, t, c)
    ensures OthersSame(s, Step(g, s, t, c), t)
  {
    hide WellWired, OutcomeOk, AppEnabled;
  }

  predicate IsRunPoint(o: Outer) {
    o.Collect? || o.Compute? || o.Post? || o.PostShut? || o.Scan? || o.Decide?
  }

  // A run's points lead to points of the same run, or out of it.
  lemma RunKeepsNode(g: Graph, s: State, t: nat, c: Choice, v: nat)
    requires WellWired(g) && OuterPoint(g, s, t, c) && IsRunPoint(s.threads[t].outer) && t < |OuterStep(g, s, t, c).threads|
    ensures InRun(OuterStep(g, s, t, c).threads[t].outer, v) ==> InRun(s.threads[t].outer, v)
  {
    hide WellWired, OutcomeOk;
  }

  lemma OnlyFetchOpens(g: Graph, s: State, t: nat, c: Choice, v: nat)
    requires WellWired(g) && OuterPoint(g, s, t, c) && !IsRunPoint(s.threads[t].outer) && !IsApp(s.threads[t].outer)
    requires t < |OuterStep(g, s, t, c).threads|
    ensures InRun(OuterStep(g, s, t, c).threads[t].outer, v) ==> TakesNode(s, Move(t, c), v)
  {
    hide WellWired, OutcomeOk, AppEnabled, AppCall;
  }

  lemma AppOpensNothing(g: Graph, s: State, t: nat, c: Choice, v: nat)
    requires WellWired(g) && OuterPoint(g, s, t, c) && IsApp(s.threads[t].outer) && t < |OuterStep(g, s, t, c).threads|
    ensures !InRun(OuterStep(g, s, t, c).threads[t].outer, v)
  {
    hide WellWired;
  }

  lemma CallKeepsPoint(g: Graph, s: State, t: nat, c: Choice)
    requires WellWired(g) && Enabled(g, s, t, c) && t < |Step(g, s, t, c).threads|
    requires s.threads[t].leaf != NoLeaf || s.threads[t].mid != NoMid
    ensures Step(g, s, t, c).threads[t].outer == s.threads[t].outer
  {
    hide WellWired, OuterStep, OuterEnabled;
  }

  lemma OwnOpens(g: Graph, s: State, t: nat, c: Choice, v: nat)
    requires WellWired(g) && Enabled(g, s, t, c) && !InRun(s.threads[t].outer, v) && t < |Step(g, s, t, c).threads|
    ensures InRun(Step(g, s, t, c).threads[t].outer, v) ==> TakesNode(s, Move(t, c), v)
  {
    hide WellWired, OuterStep, OuterEnabled, InRun, TakesNode, LeafStep, IdleStep, PropagateStep, ShutStep;
    if s.threads[t].leaf != NoLeaf || s.threads[t].mid != NoMid {
      CallKeepsPoint(g, s, t, c);
    } else if IsRunPoint(s.threads[t].outer) {
      RunKeepsNode(g, s, t, c, v);
    } else if IsApp(s.threads[t].outer) {
      AppOpensNothing(g, s, t, c, v);
    } else {
      OnlyFetchOpens(g, s, t, c, v);
    }
  }

  lemma RunOpens(g: Graph, s: State, t: nat, c: Choice, u: nat, v: nat)
    requires WellWired(g) && Enabled(g, s, t, c) && u < |s.threads| && !InRun(s.threads[u].outer, v)
    ensures u < |Step(g, s, t, c).threads|
    ensures InRun(Step(g, s, t, c).threads[u].outer, v) ==> u == t && TakesNode(s, Move(t, c), v)
  {
    StepOthers(g, s, t, c);
    var s' := Step(g, s, t, c);
    hide WellWired, Enabled, Step, InRun, TakesNode;
    if u == t {
      OwnOpens(g, s, t, c, v);
    } else {
      assert s'.threads[u] == s.threads[u];
    }
  }

  // An invocation under way at `i` that was not at `j` was taken off the queue in between.
  lemma {:induction false} RunBegan(g: Graph, path: seq<State>, moves: seq<Move>, j: nat, i: nat, t: nat, v: nat) returns (p: nat)
    requires WellWired(g) && IsRun(g, path, moves) && j < i < |path| && |path| == |moves| + 1
    requires t < |path[j].threads| && !InRun(path[j].threads[t].outer, v)
    requires t < |path[i].threads| && InRun(path[i].threads[t].outer, v)
    ensures j <= p < i && moves[p].thread == t && TakesNode(path[p], moves[p], v)
    ensures forall k :: p < k <= i ==> t < |path[k].threads| && InRun(path[k].threads[t].outer, v)
    decreases i - j
  {
    hide *;
    RunStep(g, path, moves, j);
    RunOpens(g, path[j], moves[j].thread, moves[j].choice, t, v);
    if InRun(path[j + 1].threads[t].outer, v) {
      p := StaysOrBegins(g, path, moves, j, i, t, v);
    } else {
      p := RunBegan(g, path, moves, j + 1, i, t, v);
    }
  }

  // From an invocation's start: the last start before `i`.
  lemma {:induction false} StaysOrBegins(g: Graph, path: seq<State>, moves: seq<Move>, j: nat, i: nat, t: nat, v: nat) returns (p: nat)
    requires WellWired(g) && IsRun(g, path, moves) && j < i < |path| && |path| == |moves| + 1
    requires t < |path[j].threads| && moves[j].thread == t && TakesNode(path[j], moves[j], v)
    requires t < |path[i].threads| && InRun(path[i].threads[t].outer, v)
    ensures j <= p < i && moves[p].thread == t && TakesNode(path[p], moves[p], v)
    ensures forall k :: p < k <= i ==> t < |path[k].threads| && InRun(path[k].threads[t].outer, v)
    decreases i - j, 0
  {
    if k :| j < k < i && !(t < |path[k].threads| && InRun(path[k].threads[t].outer, v)) {
      hide *;
      ThreadsStay(g, path, moves, k, i);
      p := RunBegan(g, path, moves, k, i, t, v);
    } else {
      p := j;
    }
  }

  lemma {:induction false} ThreadsStay(g: Graph, path: seq<State>, moves: seq<Move>, k: nat, i: nat)
    requires WellWired(g) && IsRun(g, path, moves) && k <= i < |path| && |path| == |moves| + 1
    ensures |path[k].threads| == |path[i].threads|
    decreases i
  {
    hide *;
    if k < i {
      ThreadsStay(g, path, moves, k, i - 1);
      RunStep(g, path, moves, i - 1);
      ThreadsSame(g, path[i - 1], moves[i - 1].thread, moves[i - 1].choice);
    }
  }

  lemma ThreadsSame(g: Graph, s: State, t: nat, c: Choice)
    requires WellWired(g) && Enabled(g, s, t, c)
    ensures |Step(g, s, t, c).threads| == |s.threads|
  {
    StepOthers(g, s, t, c);
    hide WellWired, Enabled, Step;
  }

  // At the closing decision the node's run has handed everything it emitted to every mirror.
  lemma HandedOver(g: Graph, s: State, t: nat, e: nat)
    requires WellWired(g) && SingleFlight(g) && Inv(g, s) && t < |s.threads| && s.threads[t].outer.Decide?
    requires IsEdge(g, e) && IsStream(g, g.src[e]) && Owns(g, s.threads[t].outer.v, g.src[e])
    ensures s.consumed[e] + s.edges[e].queue == s.emitted[g.src[e]]
  {
    assert FlowOk(g, s, e);
    OthersOweNothing(g, s, t, e);
    assert Owed(g, s.threads[t], e) == [];
    assert NoneOwed(g, s, e);
  }

  // The asking run's own thread has left that run, and nobody else was in one.
  lemma NobodyRunsAfter(g: Graph, s: State, t: nat, c: Choice, u: nat, v: nat)
    requires WellWired(g) && SingleFlight(g) && Inv(g, s) && Enabled(g, s, t, c) && IsNode(g, v) && u < |s.threads|
    requires AsksAgain(g, s, Move(t, c), v)
    ensures u < |Step(g, s, t, c).threads| && !InRun(Step(g, s, t, c).threads[u].outer, v)
  {
    OnlyDecideFinalizes(g, s, t, c);
    StepOthers(g, s, t, c);
    assert s.threads[t].outer.v == v;
    if u != t {
      assert Step(g, s, t, c).threads[u] == s.threads[u];
      if InRun(s.threads[u].outer, v) {
        OnlyRunner(g, s, v, t, u);
      }
    }
  }

  /** Two-phase finalize: a node is closed at most once in a run, only by an invocation whose Process saw
      every input port marked done, taken off the queue after an earlier invocation had ended with all inputs
      done and asked for it; and by then every mirror of its outputs holds all the node ever emitted. */
  lemma FinalizeTwoPhase(g: Graph, rank: seq<nat>, workers: nat, path: seq<State>, moves: seq<Move>, i: nat, v: nat) returns (j: nat, p: nat)
    requires GoodRun(g, rank, workers, path, moves) && i < |moves|
    requires Enabled(g, path[i], moves[i].thread, moves[i].choice) && Closes(g, path[i], moves[i], v)
    ensures var th := path[i].threads[moves[i].thread];
      th.outer.Decide? && th.outer.v == v && th.outer.seen && IsNode(g, v) && Sized(g, path[i]) && AllDone(g, path[i], v)
    ensures j < p < i && Enabled(g, path[j], moves[j].thread, moves[j].choice) && AsksAgain(g, path[j], moves[j], v)
    ensures Sized(g, path[j]) && AllDone(g, path[j], v)
    ensures moves[p].thread == moves[i].thread && TakesNode(path[p], moves[p], v)
    ensures forall k :: p < k <= i ==> moves[i].thread < |path[k].threads| && InRun(path[k].threads[moves[i].thread].outer, v)
    ensures forall e: nat {:trigger IsEdge(g, e)} :: IsEdge(g, e) && Owns(g, v, g.src[e]) ==>
      path[i].consumed[e] + path[i].edges[e].queue == path[i].emitted[g.src[e]]
    ensures forall k :: i < k < |moves| ==> v in path[k].queue.finalized
  {
    var t := moves[i].thread;
    ClosingRun(g, rank, workers, path, moves, i, v);
    j := FirstPhase(g, rank, workers, path, moves, i, v);
    p := AfterAsking(g, rank, workers, path, moves, j, i, v);
    hide *;
    forall k | i < k < |moves| ensures v in path[k].queue.finalized {
      FinalizedGrows(g, path, moves, i + 1, k);
    }
  }

  lemma ClosingRun(g: Graph, rank: seq<nat>, workers: nat, path: seq<State>, moves: seq<Move>, i: nat, v: nat)
    requires GoodRun(g, rank, workers, path, moves) && i < |moves|
    requires Enabled(g, path[i], moves[i].thread, moves[i].choice) && Closes(g, path[i], moves[i], v)
    ensures var th := path[i].threads[moves[i].thread];
      th.outer.Decide? && th.outer.v == v && th.outer.seen && IsNode(g, v) && Sized(g, path[i]) && AllDone(g, path[i], v)
    ensures v in path[i].queue.closePending && v in path[i + 1].queue.finalized && |path| == |moves| + 1
    ensures forall e: nat {:trigger IsEdge(g, e)} :: IsEdge(g, e) && Owns(g, v, g.src[e]) ==>
      path[i].consumed[e] + path[i].edges[e].queue == path[i].emitted[g.src[e]]
  {
    InvAlways(g, rank, workers, path, moves, i);
    RunStep(g, path, moves, i);
    OnlyDecideFinalizes(g, path[i], moves[i].thread, moves[i].choice);
    CloseNeedsSeenDone(g, path[i], moves[i].thread, moves[i].choice);
    forall e: nat | IsEdge(g, e) && Owns(g, v, g.src[e])
      ensures path[i].consumed[e] + path[i].edges[e].queue == path[i].emitted[g.src[e]]
    {
      HandedOver(g, path[i], moves[i].thread, e);
    }
  }

  lemma AfterAsking(g: Graph, rank: seq<nat>, workers: nat, path: seq<State>, moves: seq<Move>, j: nat, i: nat, v: nat) returns (p: nat)
    requires GoodRun(g, rank, workers, path, moves) && j < i < |moves| && IsNode(g, v)
    requires Enabled(g, path[j], moves[j].thread, moves[j].choice) && AsksAgain(g, path[j], moves[j], v)
    requires moves[i].thread < |path[i].threads| && InRun(path[i].threads[moves[i].thread].outer, v)
    ensures j < p < i && moves[p].thread == moves[i].thread && TakesNode(path[p], moves[p], v)
    ensures forall k :: p < k <= i ==> moves[i].thread < |path[k].threads| && InRun(path[k].threads[moves[i].thread].outer, v)
  {
    assert WellWired(g) && SingleFlight(g) && IsRun(g, path, moves) && |path| == |moves| + 1;
    var t := moves[i].thread;
    hide *;
    InvAlways(g, rank, workers, path, moves, j);
    RunStep(g, path, moves, j);
    ThreadsStay(g, path, moves, j, i);
    NobodyRunsAfter(g, path[j], moves[j].thread, moves[j].choice, t, v);
    p := RunBegan(g, path, moves, j + 1, i, t, v);
  }
}
