/** The drain decision: an idle queue with every graph input closed means the graph is settled, and
    once settled it stays so until HandleIdle has terminated it. */
module EngineIdle {
  import opened Timestamps
  import opened StreamState
  import opened RunQueueState
  import opened Graphs
  import opened Engine
  import opened EngineShape
  import opened EngineAccounting
  import opened EngineSources
  import opened EngineFlow
  import opened EngineSeal
  import opened EngineFinal
  import opened EngineWake

  // The thread can neither run a node nor touch a stream any more.
  predicate Calm(th: Thread) {
    && (th.outer == Resting || th.outer == Fetch || th.outer == Missed
        || (IsApp(th.outer) && !th.outer.AppNotify? && !th.outer.AppCount?))
    && (th.mid == NoMid || th.mid.Idle?)
    && !th.leaf.AddNode?
  }

  // Everything emitted was consumed, every input is done and every non-source node is finalized.
  ghost predicate EdgeSettled(g: Graph, s: State, e: nat)
    requires WellWired(g) && Sized(g, s) && IsEdge(g, e)
  {
    && g.src[e] < |s.emitted|
    && IsDone(s.edges[e]) && s.consumed[e] == s.emitted[g.src[e]]
  }

  ghost predicate NodeSettled(g: Graph, s: State, v: nat)
    requires WellWired(g) && IsNode(g, v)
  {
    if IsSource(g, v) then v in s.stopped else v in s.queue.finalized
  }

  ghost predicate Settled(g: Graph, s: State)
    requires WellWired(g) && Sized(g, s)
  {
    && s.queue.items == multiset{} && s.active == {} && s.counted == GraphInputs(g)
    && (forall t: nat {:trigger s.threads[t]} :: t < |s.threads| ==> Calm(s.threads[t]))
    && (forall e: nat {:trigger EdgeSettled(g, s, e)} :: IsEdge(g, e) ==> EdgeSettled(g, s, e))
    && (forall v: nat {:trigger NodeSettled(g, s, v)} :: IsNode(g, v) ==> NodeSettled(g, s, v))
  }

  // What a thread inside HandleIdle may rely on.
  ghost predicate IdlePoint(g: Graph, s: State, th: Thread)
    requires WellWired(g) && Sized(g, s)
  {
    th.mid.Idle? ==>
      && !th.leaf.AddNode?
      && match th.mid.stage
         case Test(rem) => !rem ==> s.counted == GraphInputs(g)
         case Sources(rem) => s.active == {} && (!rem ==> Settled(g, s))
         case Sweep(_, _, allDone, buffered) => Settled(g, s) && allDone && !buffered
         case Unfinal(_, allDone) => Settled(g, s) && allDone
         case Verdict(rem, noMore, drain) => s.active == {} && (noMore && !rem ==> Settled(g, s) && drain == Drained)
         case Quit => Settled(g, s)
         case Refill(_) => false
         case Kick(_) => false
         case _ => true
  }

  ghost predicate IdleOk(g: Graph, s: State)
    requires WellWired(g) && Sized(g, s)
  {
    && (forall t: nat {:trigger IdlePoint(g, s, s.threads[t])} :: t < |s.threads| ==> IdlePoint(g, s, s.threads[t]))
    && (s.quits > 0 ==> Settled(g, s))
  }

  lemma IdleUnkicked(g: Graph, s: State)
    requires WellWired(g) && Sized(g, s) && IdleOk(g, s)
    ensures Unkicked(s)
  {
    forall t: nat | t < |s.threads| && s.threads[t].mid.Idle?
      ensures !s.threads[t].mid.stage.Kick? && !s.threads[t].mid.stage.Refill? && !s.threads[t].leaf.AddNode?
    {
      assert IdlePoint(g, s, s.threads[t]);
    }
  }

  // ------------------------------------------------------------------ an idle queue

  lemma {:induction false} SumZero(k: Kind, ths: seq<Thread>)
    requires forall t :: 0 <= t < |ths| ==> Weight(k, ths[t]) == 0
    ensures Sum(k, ths) == 0
  {
    if ths != [] {
      SumZero(k, ths[1..]);
    }
  }

  // No pending task: nobody is inside RunNextTask or about to hand the executor a task.
  lemma IdleHasNoWorker(g: Graph, s: State)
    requires WellWired(g) && Sized(g, s) && AccOk(g, s) && s.queue.numPending == 0
    ensures s.tasks == 0
    ensures forall t: nat {:trigger s.threads[t]} :: t < |s.threads| ==> !Busy(s.threads[t].outer) && s.threads[t].leaf != AddTask
  {
    forall t: nat | t < |s.threads| ensures !Busy(s.threads[t].outer) && s.threads[t].leaf != AddTask {
      SumHasOne(Slot, s.threads, t);
    }
  }

  lemma IdleSourcesStopped(g: Graph, s: State)
    requires WellWired(g) && Shape(g, s) && AccOk(g, s) && SourcesOk(g, s) && IsIdle(s.queue)
    ensures s.active == {}
    ensures forall v: nat {:trigger IsNode(g, v)} :: IsNode(g, v) && IsSource(g, v) ==> v in s.stopped
  {
    IdleHasNoWorker(g, s);
    forall v: nat | IsNode(g, v) && IsSource(g, v) ensures v in s.stopped {
      SumZero(Token(v), s.threads);
      assert SourceOk(g, s, v);
    }
    forall v: nat ensures v !in s.active {
      assert ActiveOk(s, v);
    }
  }

  lemma IdleIsCalm(g: Graph, s: State)
    requires WellWired(g) && Shape(g, s) && AccOk(g, s) && IdleOk(g, s)
    requires IsIdle(s.queue) && s.counted == GraphInputs(g)
    ensures forall t: nat {:trigger s.threads[t]} :: t < |s.threads| ==> Calm(s.threads[t])
    ensures forall v: nat {:trigger IsNode(g, v)} :: IsNode(g, v) ==> s.pending[v] == 0
  {
    IdleHasNoWorker(g, s);
    forall t: nat | t < |s.threads| ensures Calm(s.threads[t]) {
      assert ThreadOk(g, s, t) && IdlePoint(g, s, s.threads[t]);
    }
    forall v: nat | IsNode(g, v) ensures s.pending[v] == 0 {
      assert Flight(g, s, v);
      SumZero(Runner(v), s.threads);
    }
  }

  // A sealed stream has shown Done on every mirror once every thread is calm.
  lemma SealedEdgeDone(g: Graph, s: State, e: nat)
    requires WellWired(g) && Sized(g, s) && AllSized(g, s) && SealOk(g, s) && WakeOk(g, s) && IsEdge(g, e)
    requires forall t: nat {:trigger s.threads[t]} :: t < |s.threads| ==> Calm(s.threads[t])
    requires forall v: nat {:trigger IsNode(g, v)} :: IsNode(g, v) ==> s.pending[v] == 0
    requires g.src[e] in s.sealed
    ensures IsDone(s.edges[e])
  {
    EdgeFacts(g, e);
    assert EdgeSealed(g, s, e) && EdgeWatched(g, s, e);
    assert IsNode(g, g.dst[e]);
    forall t: nat | t < |s.threads|
      ensures !WillSee(g, s.threads[t], e) && !OwesDone(g, s.queue.finalized, s.threads[t], e)
    {
      assert Calm(s.threads[t]);
    }
  }

  // Along the topological rank: a node's inputs are done, so it is finalized, so its outputs are sealed.
  lemma {:induction false} NodeEnds(g: Graph, s: State, rank: seq<nat>, v: nat)
    requires WellWired(g) && Ranks(g, rank) && Shape(g, s) && AllSized(g, s) && SealOk(g, s) && WakeOk(g, s) && IsNode(g, v)
    requires forall t: nat {:trigger s.threads[t]} :: t < |s.threads| ==> Calm(s.threads[t])
    requires forall w: nat {:trigger IsNode(g, w)} :: IsNode(g, w) ==> s.pending[w] == 0
    requires forall w: nat {:trigger IsNode(g, w)} :: IsNode(g, w) && IsSource(g, w) ==> w in s.stopped
    requires s.counted == GraphInputs(g)
    ensures NodeSettled(g, s, v) && OutputsOf(g, v) <= s.sealed
    ensures forall i: nat {:trigger IsInput(g, v, i)} :: IsInput(g, v, i) ==> g.src[InEdge(g, v, i)] in s.sealed
    decreases rank[v]
  {
    forall i: nat | IsInput(g, v, i) ensures g.src[InEdge(g, v, i)] in s.sealed && IsDone(s.edges[InEdge(g, v, i)]) {
      var e := InEdge(g, v, i);
      EdgeFacts(g, e);
      var q := g.src[e];
      match g.owner[q] {
        case None =>
          assert q in GraphInputs(g);
          assert StreamSealed(g, s, q);
        case Some(u) =>
          assert Owns(g, u, q);
          NodeEnds(g, s, rank, u);
      }
      SealedEdgeDone(g, s, e);
    }
    if !IsSource(g, v) {
      forall i | 0 <= i < |g.ins[v]| ensures IsDone(s.edges[InEdge(g, v, i)]) {
        assert IsInput(g, v, i);
      }
      assert AllDone(g, s, v);
      assert NodeWatched(g, s, v);
      assert forall t: nat {:trigger s.threads[t]} :: t < |s.threads| ==> !WillFinalize(s.threads[t], v);
    }
    assert NodeSealed(g, s, v);
  }

  /** The drain decision is exact: an idle queue with no open graph input leaves nothing to drain. */
  lemma IdleSettles(g: Graph, s: State, rank: seq<nat>)
    requires WellWired(g) && Ranks(g, rank) && Shape(g, s) && AllSized(g, s) && AccOk(g, s) && SourcesOk(g, s)
    requires FlowsOk(g, s) && SealOk(g, s) && WakeOk(g, s) && IdleOk(g, s)
    requires IsIdle(s.queue) && s.counted == GraphInputs(g)
    ensures Settled(g, s)
  {
    IdleSourcesStopped(g, s);
    IdleIsCalm(g, s);
    forall v: nat | IsNode(g, v) ensures NodeSettled(g, s, v) {
      NodeEnds(g, s, rank, v);
    }
    forall e: nat | IsEdge(g, e) ensures EdgeSettled(g, s, e) {
      EdgeFacts(g, e);
      NodeEnds(g, s, rank, g.dst[e]);
      assert IsInput(g, g.dst[e], g.ipos[e]);
      SealedEdgeDone(g, s, e);
      assert FlowOk(g, s, e);
      forall t: nat | t < |s.threads| ensures Owed(g, s.threads[t], e) == [] {
        assert Calm(s.threads[t]);
      }
    }
  }

  // ------------------------------------------------------------------ preservation

  lemma SettledSame(g: Graph, s: State, s': State, t: nat)
    requires WellWired(g) && Sized(g, s) && Sized(g, s') && Settled(g, s) && OthersSame(s, s', t) && t < |s.threads|
    requires s'.edges == s.edges && s'.consumed == s.consumed && s'.emitted == s.emitted
    requires s'.queue.items == s.queue.items && s'.queue.finalized == s.queue.finalized
    requires s'.stopped == s.stopped && s'.active == s.active && s'.counted == s.counted
    requires Calm(s'.threads[t])
    ensures Settled(g, s')
  {
    forall u: nat | u < |s'.threads| ensures Calm(s'.threads[u]) {
      assert u != t ==> s'.threads[u] == s.threads[u];
    }
    forall e: nat | IsEdge(g, e) ensures EdgeSettled(g, s', e) {
      assert EdgeSettled(g, s, e);
    }
    forall v: nat | IsNode(g, v) ensures NodeSettled(g, s', v) {
      assert NodeSettled(g, s, v);
    }
  }

  lemma SettledApp(g: Graph, s: State, t: nat, c: Choice)
    requires WellWired(g) && Shape(g, s) && Settled(g, s) && OuterPoint(g, s, t, c) && s.threads[t].outer == AppReady
    ensures Settled(g, AppCall(g, s, t, c))
  {
    assert c.Pause? || c.Resume?;
    hide Shape, Settled, WellWired;
    SettledSame(g, s, AppCall(g, s, t, c), t);
  }

  lemma SettledOuter(g: Graph, s: State, t: nat, c: Choice)
    requires WellWired(g) && Shape(g, s) && Settled(g, s) && OuterPoint(g, s, t, c)
    requires Sized(g, OuterStep(g, s, t, c))
    ensures Settled(g, OuterStep(g, s, t, c))
  {
    if s.threads[t].outer == AppReady {
      SettledApp(g, s, t, c);
    } else {
      assert Calm(s.threads[t]);
      hide Shape, Settled, WellWired, AppCall;
      SettledSame(g, s, OuterStep(g, s, t, c), t);
    }
  }

  lemma SettledIdle(g: Graph, s: State, t: nat, c: Choice)
    requires WellWired(g) && Sized(g, s) && Settled(g, s) && Enabled(g, s, t, c)
    requires s.threads[t].leaf == NoLeaf && s.threads[t].mid.Idle? && IdlePoint(g, s, s.threads[t])
    ensures Settled(g, IdleStep(g, s, t, c))
    ensures !IdleStep(g, s, t, c).threads[t].leaf.AddNode?
  {
    assert Calm(s.threads[t]);
    var s' := IdleStep(g, s, t, c);
    var stage := s.threads[t].mid.stage;
    if stage.Unfinal? && stage.v < |g.ins| {
      assert NodeSettled(g, s, stage.v);
    }
    assert Calm(s'.threads[t]);
    hide Settled, WellWired, IdlePoint;
    SettledSame(g, s, s', t);
  }

  // A settled graph stays settled.
  lemma SettledStep(g: Graph, s: State, t: nat, c: Choice)
    requires WellWired(g) && Shape(g, s) && Settled(g, s) && Enabled(g, s, t, c) && IdlePoint(g, s, s.threads[t])
    requires Sized(g, Step(g, s, t, c))
    ensures Settled(g, Step(g, s, t, c))
  {
    assert Calm(s.threads[t]);
    if s.threads[t].leaf != NoLeaf {
      var s' := LeafStep(g, s, t);
      hide Shape, Settled, WellWired, IdlePoint;
      SettledSame(g, s, s', t);
    } else if s.threads[t].mid.Idle? {
      SettledIdle(g, s, t, c);
    } else {
      SettledOuter(g, s, t, c);
    }
  }

  lemma CountedAll(g: Graph, s: State)
    requires WellWired(g) && Shape(g, s)
    requires !(|GraphInputs(g)| > 0 && |s.counted| < |GraphInputs(g)|)
    ensures s.counted == GraphInputs(g)
  {
    assert s.counted <= GraphInputs(g);
    if s.counted != GraphInputs(g) {
      var q :| q in GraphInputs(g) && q !in s.counted;
      SubsetSize(s.counted, GraphInputs(g) - {q});
    }
  }

  lemma {:induction false} SubsetSize(a: set<nat>, b: set<nat>)
    requires a <= b
    ensures |a| <= |b|
    decreases a
  {
    if a != {} {
      var x :| x in a;
      SubsetSize(a - {x}, b - {x});
    }
  }

  // The stage HandleIdle moves to can rely on what it needs.
  lemma IdlePointMoves(g: Graph, s: State, rank: seq<nat>, t: nat, c: Choice)
    requires WellWired(g) && Ranks(g, rank) && Shape(g, s) && AllSized(g, s) && AccOk(g, s) && SourcesOk(g, s)
    requires FlowsOk(g, s) && SealOk(g, s) && WakeOk(g, s) && IdleOk(g, s)
    requires Enabled(g, s, t, c) && s.threads[t].leaf == NoLeaf && s.threads[t].mid.Idle?
    ensures IdlePoint(g, IdleStep(g, s, t, c), IdleStep(g, s, t, c).threads[t])
    ensures IdleStep(g, s, t, c).quits > s.quits ==> Settled(g, s)
  {
    var s' := IdleStep(g, s, t, c);
    var stage := s.threads[t].mid.stage;
    assert IdlePoint(g, s, s.threads[t]);
    if stage.Look? && !s'.threads[t].mid.stage.rem {
      CountedAll(g, s);
    } else if stage.Test? && IsIdle(s.queue) && s.mode == Running {
      IdleSourcesStopped(g, s);
      if !stage.rem {
        IdleSettles(g, s, rank);
        SettledIdle(g, s, t, c);
      }
    } else {
      hide Shape, AllSized, AccOk, SourcesOk, FlowsOk, SealOk, WakeOk, IdleOk;
      IdlePointLate(g, s, t, c);
    }
  }

  lemma IdlePointLate(g: Graph, s: State, t: nat, c: Choice)
    requires WellWired(g) && Enabled(g, s, t, c) && IdlePoint(g, s, s.threads[t])
    requires s.threads[t].leaf == NoLeaf && s.threads[t].mid.Idle?
    requires var stage := s.threads[t].mid.stage;
      && (stage.Look? ==> IdleStep(g, s, t, c).threads[t].mid.stage.rem)
      && (stage.Test? ==> !(IsIdle(s.queue) && s.mode == Running))
    ensures IdlePoint(g, IdleStep(g, s, t, c), IdleStep(g, s, t, c).threads[t])
    ensures IdleStep(g, s, t, c).quits > s.quits ==> Settled(g, s)
  {
    var stage := s.threads[t].mid.stage;
    if stage.Sweep? || stage.Unfinal? || stage.Quit? || (stage.Sources? && !stage.rem) || (stage.Verdict? && stage.noMore && !stage.rem) {
      SettledIdle(g, s, t, c);
      SettledStage(g, s, t, c);
    } else {
      hide WellWired, Settled;
    }
  }

  // In a settled graph the sweeps find every input done and empty, so the drain succeeds.
  lemma SettledStage(g: Graph, s: State, t: nat, c: Choice)
    requires WellWired(g) && Enabled(g, s, t, c) && Settled(g, s) && IdlePoint(g, s, s.threads[t])
    requires s.threads[t].leaf == NoLeaf && s.threads[t].mid.Idle?
    requires var stage := s.threads[t].mid.stage;
      stage.Sweep? || stage.Unfinal? || stage.Quit? || (stage.Sources? && !stage.rem) || (stage.Verdict? && stage.noMore && !stage.rem)
    requires Settled(g, IdleStep(g, s, t, c))
    ensures IdlePoint(g, IdleStep(g, s, t, c), IdleStep(g, s, t, c).threads[t])
  {
    var stage := s.threads[t].mid.stage;
    if stage.Sweep? && stage.v < |g.ins| && stage.i < |g.ins[stage.v]| {
      assert IsInput(g, stage.v, stage.i);
      assert EdgeSettled(g, s, InEdge(g, stage.v, stage.i));
    }
    if stage.Unfinal? && stage.v < |g.ins| {
      assert NodeSettled(g, s, stage.v);
    }
  }

  lemma IdleFrame(g: Graph, s: State, s': State, t: nat)
    requires WellWired(g) && Sized(g, s) && Sized(g, s') && IdleOk(g, s) && OthersSame(s, s', t) && t < |s.threads|
    requires s'.active <= s.active && s.counted <= s'.counted <= GraphInputs(g)
    requires Settled(g, s) ==> Settled(g, s')
    requires IdlePoint(g, s', s'.threads[t]) && (s'.quits > s.quits ==> Settled(g, s'))
    ensures IdleOk(g, s')
  {
    hide Settled, WellWired;
    forall u: nat | u < |s'.threads| ensures IdlePoint(g, s', s'.threads[u]) {
      if u != t {
        assert IdlePoint(g, s, s.threads[u]);
        assert s'.threads[u] == s.threads[u];
      }
    }
  }

  lemma IdleApp(g: Graph, s: State, t: nat, c: Choice)
    requires WellWired(g) && OuterPoint(g, s, t, c) && s.threads[t].outer == AppReady
    ensures !AppCall(g, s, t, c).threads[t].mid.Idle?
  {
    hide WellWired;
  }

  lemma IdleOuter(g: Graph, s: State, t: nat, c: Choice)
    requires WellWired(g) && OuterPoint(g, s, t, c)
    ensures var s' := OuterStep(g, s, t, c);
      && OthersSame(s, s', t) && s'.active <= s.active && s.counted <= s'.counted && s'.quits == s.quits
      && (s'.threads[t].mid.Idle? ==> s'.threads[t].mid.stage == Enter && !s'.threads[t].leaf.AddNode?)
  {
    hide WellWired, OuterOk, AppCall, AppEnabled, OutcomeOk;
    if s.threads[t].outer == AppReady {
      IdleApp(g, s, t, c);
    }
  }

  lemma IdleElsewhere(g: Graph, s: State, t: nat, c: Choice)
    requires WellWired(g) && Shape(g, s) && IdleOk(g, s) && Enabled(g, s, t, c) && !(s.threads[t].leaf == NoLeaf && s.threads[t].mid.Idle?)
    requires Shape(g, Step(g, s, t, c))
    ensures IdleOk(g, Step(g, s, t, c))
  {
    var s' := Step(g, s, t, c);
    assert IdlePoint(g, s, s.threads[t]);
    assert s'.counted <= GraphInputs(g);
    if Settled(g, s) {
      SettledStep(g, s, t, c);
    }
    hide Settled, WellWired, Shape;
    if s.threads[t].leaf != NoLeaf {
      IdleFrame(g, s, s', t);
    } else if s.threads[t].mid == NoMid {
      IdleOuter(g, s, t, c);
      hide OuterStep;
      IdleFrame(g, s, s', t);
    } else {
      IdleFrame(g, s, s', t);
    }
  }

  lemma IdleOkStep(g: Graph, s: State, rank: seq<nat>, t: nat, c: Choice)
    requires WellWired(g) && Ranks(g, rank) && Shape(g, s) && AllSized(g, s) && AccOk(g, s) && SourcesOk(g, s)
    requires FlowsOk(g, s) && SealOk(g, s) && WakeOk(g, s) && IdleOk(g, s) && Enabled(g, s, t, c)
    requires Shape(g, Step(g, s, t, c))
    ensures IdleOk(g, Step(g, s, t, c))
  {
    if s.threads[t].leaf == NoLeaf && s.threads[t].mid.Idle? {
      IdlePointMoves(g, s, rank, t, c);
      assert IdlePoint(g, s, s.threads[t]);
      if Settled(g, s) {
        SettledIdle(g, s, t, c);
      }
      assert s.counted <= GraphInputs(g);
      hide AccOk, SourcesOk, FlowsOk, SealOk, WakeOk, IdleStep, Settled, Shape;
      IdleFrame(g, s, IdleStep(g, s, t, c), t);
    } else {
      IdleElsewhere(g, s, t, c);
    }
  }

  lemma IdleInit(g: Graph, workers: nat)
    requires WellWired(g)
    ensures Shape(g, Init(g, workers)) && IdleOk(g, Init(g, workers))
  {
    ShapeInit(g, workers);
    var s := Init(g, workers);
    forall t: nat | t < |s.threads| ensures IdlePoint(g, s, s.threads[t]) {
      assert t > 0 ==> s.threads[t] == Thread(Resting, NoMid, NoLeaf);
    }
  }
}
