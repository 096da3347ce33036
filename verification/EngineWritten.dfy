/** What a stream's history holds: exactly the packets that its producer's Process calls wrote, or that the
    application injected, in order. So what consumers end up with is told by the moves alone. */
module EngineWritten {
  import opened Timestamps
  import opened StreamState
  import opened RunQueueState
  import opened Graphs
  import opened Engine
  import opened EngineShape
  import opened EngineMeasure
  import opened EngineRuns
  import opened EngineQuiet

  /** The packets the move puts into stream `q`. */
  function WrittenBy(g: Graph, s: State, m: Move, q: nat): (r: seq<Packet>)
    requires WellWired(g) && IsStream(g, q)
  {
    match g.owner[q]
    case Some(v) =>
      if IsCall(s, m.thread, v) && m.choice.Outcome? && g.opos[q] < |m.choice.outs| then m.choice.outs[g.opos[q]].pkts else []
    case None =>
      if IsFeed(s, m.thread, m.choice) && m.choice.Inject? && m.choice.g == q then m.choice.pkts else []
  }

  /** The packets the first `k` moves put into it. */
  function Written(g: Graph, path: seq<State>, moves: seq<Move>, q: nat, k: nat): (r: seq<Packet>)
    requires WellWired(g) && IsStream(g, q) && k <= |moves| && k < |path|
  {
    if k == 0 then [] else Written(g, path, moves, q, k - 1) + WrittenBy(g, path[k - 1], moves[k - 1], q)
  }

  lemma WritesOne(g: Graph, s: State, t: nat, c: Choice, q: nat)
    requires WellWired(g) && Shape(g, s) && Enabled(g, s, t, c) && IsStream(g, q)
    ensures q < |s.emitted| && q < |Step(g, s, t, c).emitted|
    ensures Step(g, s, t, c).emitted[q] == s.emitted[q] + WrittenBy(g, s, Move(t, c), q)
  {
    assert ThreadOk(g, s, t) && Sized(g, s);
    hide Shape, ThreadOk;
    if g.owner[q].Some? && IsCall(s, t, g.owner[q].value) {
      assert Owns(g, g.owner[q].value, q);
      hide WellWired;
    } else if g.owner[q].None? && IsFeed(s, t, c) {
      assert s.emitted[q] + [] == s.emitted[q];
      hide WellWired;
    } else {
      assert s.emitted[q] + [] == s.emitted[q];
      EmittedHolds(g, s, t, c, q);
      hide WellWired, Step;
    }
  }

  lemma EmittedHolds(g: Graph, s: State, t: nat, c: Choice, q: nat)
    requires WellWired(g) && Shape(g, s) && Enabled(g, s, t, c) && IsStream(g, q)
    requires match g.owner[q] case Some(v) => !IsCall(s, t, v) case None => !IsFeed(s, t, c)
    ensures |Step(g, s, t, c).emitted| == |s.emitted| && Step(g, s, t, c).emitted[q] == s.emitted[q]
    ensures WrittenBy(g, s, Move(t, c), q) == []
  {
    hide WellWired, Step, Enabled, Shape;
    EmittedOnlyByProducer(g, s, t, c, q);
  }

  /** In every reachable state, for any in-flight limits, a stream's history is what was written to it. */
  lemma {:induction false} EmittedIsWritten(g: Graph, workers: nat, path: seq<State>, moves: seq<Move>, q: nat, k: nat)
    requires WellWired(g) && IsRun(g, path, moves) && path[0] == Init(g, workers) && IsStream(g, q)
    requires k < |path| && k <= |moves|
    ensures q < |path[k].emitted| && path[k].emitted[q] == Written(g, path, moves, q, k)
    decreases k
  {
    if k > 0 {
      hide WellWired, IsRun, Init, Enabled, Step, Base, WrittenBy;
      EmittedIsWritten(g, workers, path, moves, q, k - 1);
      BaseAlways(g, workers, path, moves, k - 1);
      BaseHasShape(g, path[k - 1]);
      RunStep(g, path, moves, k - 1);
      WritesOne(g, path[k - 1], moves[k - 1].thread, moves[k - 1].choice, q);
      hide Written;
      WrittenNext(g, path, moves, q, k);
    }
  }

  lemma BaseHasShape(g: Graph, s: State)
    requires WellWired(g) && Base(g, s)
    ensures Shape(g, s)
  {
  }

  lemma WrittenNext(g: Graph, path: seq<State>, moves: seq<Move>, q: nat, k: nat)
    requires WellWired(g) && IsStream(g, q) && 0 < k <= |moves| && k < |path|
    ensures Written(g, path, moves, q, k)
         == Written(g, path, moves, q, k - 1) + WrittenBy(g, path[k - 1], Move(moves[k - 1].thread, moves[k - 1].choice), q)
  {
    hide WellWired, WrittenBy;
  }

  /** Fan-out completeness in terms of the moves: when the graph has terminated, every consumer of a stream has
      popped exactly the packets its producer wrote or the application injected, in order. */
  lemma ConsumersGetWhatWasWritten(g: Graph, rank: seq<nat>, workers: nat, path: seq<State>, moves: seq<Move>, i: nat, e: nat)
    requires GoodRun(g, rank, workers, path, moves) && i < |path| && path[i].quits > 0 && IsEdge(g, e)
    ensures i <= |moves| && e < |path[i].consumed| && IsStream(g, g.src[e])
    ensures path[i].consumed[e] == Written(g, path, moves, g.src[e], i)
  {
    GoodParts(g, rank, workers, path, moves);
    EdgeFacts(g, e);
    hide GoodRun, WellWired, IsRun, Init, Written;
    FanOutComplete(g, rank, workers, path, moves, i);
    EmittedIsWritten(g, workers, path, moves, g.src[e], i);
  }
}
