/** A source keeps exactly one way to run again until it returns Stop, and none afterwards. */
module EngineSources {
  import opened Timestamps
  import opened StreamState
  import opened RunQueueState
  import opened Graphs
  import opened Engine
  import opened EngineShape
  import opened EngineAccounting

  ghost predicate SourceOk(g: Graph, s: State, v: nat)
    requires WellWired(g) && Sized(g, s) && IsNode(g, v)
  {
    IsSource(g, v) ==> s.queue.items[v] + Sum(Token(v), s.threads) == if v in s.stopped then 0 else 1
  }

  // The thread is carrying out the Stop of source `v`.
  predicate Stopping(o: Outer, v: nat) {
    match o
    case Post(w, _, stop, _, _) => w == v && stop
    case PostShut(w, _, stop, _, _) => w == v && stop
    case CloseOut(w, _, fin) => w == v && !fin
    case CloseMark(w, _, fin) => w == v && !fin
    case StopDrop(w) => w == v
    case StopErase(w) => w == v
    case _ => false
  }

  ghost predicate ActiveOk(s: State, v: nat) {
    v in s.active && v in s.stopped ==> exists t: nat :: t < |s.threads| && Stopping(s.threads[t].outer, v)
  }

  // HandleIdle never reschedules anything: its safety nets are unreachable.
  ghost predicate Unkicked(s: State) {
    forall t: nat {:trigger s.threads[t]} :: t < |s.threads| && s.threads[t].mid.Idle? ==>
      && !s.threads[t].mid.stage.Kick? && !s.threads[t].mid.stage.Refill?
      && !s.threads[t].leaf.AddNode?
  }

  ghost predicate SourcesOk(g: Graph, s: State)
    requires WellWired(g) && Sized(g, s)
  {
    && (forall v: nat {:trigger SourceOk(g, s, v)} :: IsNode(g, v) ==> SourceOk(g, s, v))
    && (forall v: nat {:trigger ActiveOk(s, v)} :: ActiveOk(s, v))
  }

  // ------------------------------------------------------------------ preservation

  lemma {:induction false} RunnersCarry(g: Graph, s: State, v: nat, i: nat)
    requires WellWired(g) && Shape(g, s) && IsNode(g, v) && IsSource(g, v) && v !in s.stopped && i <= |s.threads|
    ensures Sum(Runner(v), s.threads[i..]) <= Sum(Token(v), s.threads[i..])
    decreases |s.threads| - i
  {
    if i < |s.threads| {
      assert ThreadOk(g, s, i);
      assert s.threads[i..][1..] == s.threads[i + 1..];
      RunnersCarry(g, s, v, i + 1);
    }
  }

  ghost predicate TokenMoves(g: Graph, s: State, s': State, t: nat, v: nat)
    requires WellWired(g) && Sized(g, s) && Sized(g, s') && IsNode(g, v) && t < |s.threads| && t < |s'.threads|
  {
    IsSource(g, v) ==>
      s'.queue.items[v] + Weight(Token(v), s'.threads[t]) + (if v in s'.stopped then 1 else 0)
      == s.queue.items[v] + Weight(Token(v), s.threads[t]) + (if v in s.stopped then 1 else 0)
  }

  lemma SourcesFrame(g: Graph, s: State, s': State, t: nat)
    requires WellWired(g) && Sized(g, s) && SourcesOk(g, s) && Sized(g, s') && OthersSame(s, s', t) && t < |s.threads|
    requires forall v: nat {:trigger TokenMoves(g, s, s', t, v)} :: IsNode(g, v) ==> TokenMoves(g, s, s', t, v)
    requires s'.active <= s.active
    requires forall v: nat :: v in s'.active && v in s'.stopped ==>
      Stopping(s'.threads[t].outer, v) || (v in s.stopped && !Stopping(s.threads[t].outer, v))
    ensures SourcesOk(g, s')
  {
    forall v: nat | IsNode(g, v) ensures SourceOk(g, s', v) {
      assert SourceOk(g, s, v) && TokenMoves(g, s, s', t, v);
      assert s'.threads == s.threads[t := s'.threads[t]];
      SumUpdate(Token(v), s.threads, t, s'.threads[t]);
    }
    forall v: nat ensures ActiveOk(s', v) {
      assert ActiveOk(s, v);
      if v in s'.active && v in s'.stopped && !Stopping(s'.threads[t].outer, v) {
        var u: nat :| u < |s.threads| && Stopping(s.threads[u].outer, v);
        assert Stopping(s'.threads[u].outer, v);
      }
    }
  }

  // Steps that neither move a token nor progress a Stop.
  lemma SourcesQuiet(g: Graph, s: State, s': State, t: nat)
    requires WellWired(g) && Sized(g, s) && SourcesOk(g, s) && Sized(g, s') && OthersSame(s, s', t) && t < |s.threads|
    requires s'.queue.items == s.queue.items && s'.stopped == s.stopped && s'.active == s.active
    requires forall v: nat {:trigger Carrying(s.threads[t], v)} :: IsNode(g, v) && IsSource(g, v) ==>
      Carrying(s.threads[t], v) == Carrying(s'.threads[t], v)
    requires forall v: nat {:trigger Stopping(s.threads[t].outer, v)} ::
      Stopping(s.threads[t].outer, v) ==> Stopping(s'.threads[t].outer, v)
    ensures SourcesOk(g, s')
  {
    forall v: nat | IsNode(g, v) ensures TokenMoves(g, s, s', t, v) {
      assert IsSource(g, v) ==> Carrying(s.threads[t], v) == Carrying(s'.threads[t], v);
    }
    SourcesFrame(g, s, s', t);
  }

  lemma SourcesLeaf(g: Graph, s: State, t: nat)
    requires WellWired(g) && Shape(g, s) && AccOk(g, s) && SourcesOk(g, s) && Unkicked(s)
    requires t < |s.threads| && s.threads[t].leaf != NoLeaf
    ensures CallsOk(g, s.threads[t])
    ensures SourcesOk(g, LeafStep(g, s, t))
  {
    assert ThreadOk(g, s, t);
    var s' := LeafStep(g, s, t);
    if s.threads[t].leaf.AddNode? && IsSource(g, s.threads[t].leaf.n) {
      var v := s.threads[t].leaf.n;
      assert s.threads[t].outer == Finish;
      SourceReadded(g, s, t, v);
      SourcesFrame(g, s, s', t);
    } else {
      hide ThreadOk, WellWired, Sum, Shape, SourcesOk;
      assert forall v: nat :: IsNode(g, v) && IsSource(g, v) ==> s'.queue.items[v] == s.queue.items[v];
      forall v: nat | IsNode(g, v) ensures TokenMoves(g, s, s', t, v) {}
      SourcesFrame(g, s, s', t);
    }
  }

  lemma SourceReadded(g: Graph, s: State, t: nat, v: nat)
    requires WellWired(g) && Shape(g, s) && AccOk(g, s) && SourcesOk(g, s) && t < |s.threads|
    requires s.threads[t].leaf == AddNode(v) && IsNode(g, v) && IsSource(g, v) && s.threads[t].outer == Finish
    ensures forall w: nat {:trigger TokenMoves(g, s, LeafStep(g, s, t), t, w)} ::
      IsNode(g, w) ==> TokenMoves(g, s, LeafStep(g, s, t), t, w)
  {
    assert SourceOk(g, s, v);
    SumHasOne(Token(v), s.threads, t);
    NoRunnerBeside(g, s, t, v);
    hide Sum, Shape, SourcesOk, AccOk, Flight;
    forall w: nat | IsNode(g, w) ensures TokenMoves(g, s, LeafStep(g, s, t), t, w) {}
  }

  // A source about to be re-added is neither queued nor running, so the gate lets it through.
  lemma NoRunnerBeside(g: Graph, s: State, t: nat, v: nat)
    requires WellWired(g) && Shape(g, s) && AccOk(g, s) && SourcesOk(g, s) && t < |s.threads|
    requires IsNode(g, v) && IsSource(g, v) && v !in s.stopped && Carrying(s.threads[t], v) && s.threads[t].outer == Finish
    ensures s.pending[v] == 0 && s.queue.items[v] == 0
  {
    assert SourceOk(g, s, v) && Flight(g, s, v);
    SumHasOne(Token(v), s.threads, t);
    var bare := s.threads[t].(leaf := NoLeaf);
    SumUpdate(Token(v), s.threads, t, bare);
    SumUpdate(Runner(v), s.threads, t, bare);
    var z := s.(threads := s.threads[t := bare]);
    assert Shape(g, z) by {
      assert ThreadOk(g, s, t) && ThreadOk(g, s, 0);
      assert ThreadOk(g, z, t) && SharedOk(g, z);
      KeepShape(g, s, z, t);
    }
    RunnersCarry(g, z, v, 0);
    assert z.threads[0..] == z.threads;
  }

  lemma SourcesBroadcast(g: Graph, s: State, t: nat)
    requires WellWired(g) && Shape(g, s) && SourcesOk(g, s) && t < |s.threads| && s.threads[t].leaf == NoLeaf
    requires s.threads[t].mid.Propagate? || s.threads[t].mid.Shut?
    ensures CallsOk(g, s.threads[t])
    ensures SourcesOk(g, if s.threads[t].mid.Shut? then ShutStep(g, s, t) else PropagateStep(g, s, t))
  {
    assert ThreadOk(g, s, t);
    hide ThreadOk, WellWired, SourcesOk;
    SourcesQuiet(g, s, if s.threads[t].mid.Shut? then ShutStep(g, s, t) else PropagateStep(g, s, t), t);
  }

  lemma SourcesIdle(g: Graph, s: State, t: nat, c: Choice)
    requires WellWired(g) && Shape(g, s) && SourcesOk(g, s) && Enabled(g, s, t, c) && Unkicked(s)
    requires s.threads[t].leaf == NoLeaf && s.threads[t].mid.Idle?
    requires Unkicked(IdleStep(g, s, t, c))
    ensures SourcesOk(g, IdleStep(g, s, t, c))
  {
    assert ThreadOk(g, s, t);
    assert IdleStep(g, s, t, c).threads[t].leaf == NoLeaf;
    hide ThreadOk, WellWired, SourcesOk, IdleStep;
    SourcesQuiet(g, s, IdleStep(g, s, t, c), t);
  }

  lemma SourcesCompute(g: Graph, s: State, t: nat, c: Choice)
    requires WellWired(g) && Shape(g, s) && SourcesOk(g, s) && OuterPoint(g, s, t, c) && s.threads[t].outer.Compute?
    ensures SourcesOk(g, OuterStep(g, s, t, c))
  {
    assert ThreadOk(g, s, t);
    var s' := OuterStep(g, s, t, c);
    assert SourceOk(g, s, s.threads[t].outer.v);
    SumHasOne(Token(s.threads[t].outer.v), s.threads, t);
    hide ThreadOk, WellWired, Sum, Shape, SourcesOk;
    forall v: nat | IsNode(g, v) ensures TokenMoves(g, s, s', t, v) {}
    SourcesFrame(g, s, s', t);
  }

  lemma SourcesFetch(g: Graph, s: State, t: nat, c: Choice)
    requires WellWired(g) && Shape(g, s) && SourcesOk(g, s) && OuterPoint(g, s, t, c) && s.threads[t].outer.Fetch?
    ensures SourcesOk(g, OuterStep(g, s, t, c))
  {
    assert ThreadOk(g, s, t);
    var s' := OuterStep(g, s, t, c);
    hide ThreadOk, WellWired, Sum, Shape, SourcesOk;
    forall v: nat | IsNode(g, v) ensures TokenMoves(g, s, s', t, v) {}
    SourcesFrame(g, s, s', t);
  }

  lemma SourcesErase(g: Graph, s: State, t: nat, c: Choice)
    requires WellWired(g) && Shape(g, s) && SourcesOk(g, s) && OuterPoint(g, s, t, c) && s.threads[t].outer.StopErase?
    ensures SourcesOk(g, OuterStep(g, s, t, c))
  {
    assert ThreadOk(g, s, t);
    var s' := OuterStep(g, s, t, c);
    hide ThreadOk, WellWired, Sum, Shape, SourcesOk;
    forall v: nat | IsNode(g, v) ensures TokenMoves(g, s, s', t, v) {}
    SourcesFrame(g, s, s', t);
  }

  lemma SourcesRun(g: Graph, s: State, t: nat, c: Choice)
    requires WellWired(g) && Shape(g, s) && SourcesOk(g, s) && OuterPoint(g, s, t, c) && (s.threads[t].outer.Collect? || s.threads[t].outer.Scan? || s.threads[t].outer.Decide? || s.threads[t].outer.Drop?)
    ensures SourcesOk(g, OuterStep(g, s, t, c))
  {
    assert ThreadOk(g, s, t);
    hide ThreadOk, WellWired, SourcesOk, Shape;
    SourcesQuiet(g, s, OuterStep(g, s, t, c), t);
  }

  lemma SourcesPost(g: Graph, s: State, t: nat, c: Choice)
    requires WellWired(g) && Shape(g, s) && SourcesOk(g, s) && OuterPoint(g, s, t, c) && (s.threads[t].outer.Post? || s.threads[t].outer.PostShut?)
    ensures SourcesOk(g, OuterStep(g, s, t, c))
  {
    assert ThreadOk(g, s, t);
    hide ThreadOk, WellWired, SourcesOk, Shape;
    SourcesQuiet(g, s, OuterStep(g, s, t, c), t);
  }

  lemma SourcesClose(g: Graph, s: State, t: nat, c: Choice)
    requires WellWired(g) && Shape(g, s) && SourcesOk(g, s) && OuterPoint(g, s, t, c) && (s.threads[t].outer.CloseOut? || s.threads[t].outer.CloseMark? || s.threads[t].outer.StopDrop?)
    ensures SourcesOk(g, OuterStep(g, s, t, c))
  {
    assert ThreadOk(g, s, t);
    hide ThreadOk, WellWired, SourcesOk, Shape;
    SourcesQuiet(g, s, OuterStep(g, s, t, c), t);
  }

  lemma SourcesTail(g: Graph, s: State, t: nat, c: Choice)
    requires WellWired(g) && Shape(g, s) && SourcesOk(g, s) && OuterPoint(g, s, t, c) && (s.threads[t].outer.Buffered? || s.threads[t].outer.Again? || s.threads[t].outer.Recheck?)
    ensures SourcesOk(g, OuterStep(g, s, t, c))
  {
    assert ThreadOk(g, s, t);
    hide ThreadOk, WellWired, SourcesOk, Shape;
    SourcesQuiet(g, s, OuterStep(g, s, t, c), t);
  }

  lemma SourcesEnds(g: Graph, s: State, t: nat, c: Choice)
    requires WellWired(g) && Shape(g, s) && SourcesOk(g, s) && OuterPoint(g, s, t, c) && (s.threads[t].outer.Resting? || s.threads[t].outer.Missed? || s.threads[t].outer.Finish?)
    ensures SourcesOk(g, OuterStep(g, s, t, c))
  {
    assert ThreadOk(g, s, t);
    hide ThreadOk, WellWired, SourcesOk, Shape;
    SourcesQuiet(g, s, OuterStep(g, s, t, c), t);
  }

  lemma SourcesAppReady(g: Graph, s: State, t: nat, c: Choice)
    requires WellWired(g) && Shape(g, s) && SourcesOk(g, s) && OuterPoint(g, s, t, c) && s.threads[t].outer.AppReady?
    ensures SourcesOk(g, AppCall(g, s, t, c))
  {
    assert ThreadOk(g, s, t);
    hide ThreadOk, WellWired, SourcesOk, Shape;
    SourcesQuiet(g, s, AppCall(g, s, t, c), t);
  }

  lemma SourcesApp(g: Graph, s: State, t: nat, c: Choice)
    requires WellWired(g) && Shape(g, s) && SourcesOk(g, s) && OuterPoint(g, s, t, c) && (IsApp(s.threads[t].outer) && !s.threads[t].outer.AppReady?)
    ensures SourcesOk(g, OuterStep(g, s, t, c))
  {
    assert ThreadOk(g, s, t);
    hide ThreadOk, WellWired, SourcesOk, Shape;
    SourcesQuiet(g, s, OuterStep(g, s, t, c), t);
  }

  lemma SourcesStep(g: Graph, s: State, t: nat, c: Choice)
    requires WellWired(g) && Shape(g, s) && AccOk(g, s) && SourcesOk(g, s) && Unkicked(s) && Enabled(g, s, t, c)
    requires Unkicked(Step(g, s, t, c))
    ensures Sized(g, Step(g, s, t, c)) && SourcesOk(g, Step(g, s, t, c))
  {
    ShapeStep(g, s, t, c);
    if s.threads[t].leaf != NoLeaf {
      SourcesLeaf(g, s, t);
    } else if s.threads[t].mid.Propagate? || s.threads[t].mid.Shut? {
      SourcesBroadcast(g, s, t);
    } else if s.threads[t].mid.Idle? {
      SourcesIdle(g, s, t, c);
    } else {
      hide AppCall, SourcesOk, Unkicked;
      match s.threads[t].outer
      case Compute(_, _) => SourcesCompute(g, s, t, c);
      case Fetch => SourcesFetch(g, s, t, c);
      case StopErase(_) => SourcesErase(g, s, t, c);
      case Collect(_, _, _) => SourcesRun(g, s, t, c);
      case Scan(_, _, _) => SourcesRun(g, s, t, c);
      case Decide(_, _, _) => SourcesRun(g, s, t, c);
      case Drop(_, _) => SourcesRun(g, s, t, c);
      case Post(_, _, _, _, _) => SourcesPost(g, s, t, c);
      case PostShut(_, _, _, _, _) => SourcesPost(g, s, t, c);
      case CloseOut(_, _, _) => SourcesClose(g, s, t, c);
      case CloseMark(_, _, _) => SourcesClose(g, s, t, c);
      case StopDrop(_) => SourcesClose(g, s, t, c);
      case Buffered(_, _, _) => SourcesTail(g, s, t, c);
      case Again(_, _) => SourcesTail(g, s, t, c);
      case Recheck(_, _) => SourcesTail(g, s, t, c);
      case Resting => SourcesEnds(g, s, t, c);
      case Missed => SourcesEnds(g, s, t, c);
      case Finish => SourcesEnds(g, s, t, c);
      case AppReady => SourcesAppReady(g, s, t, c);
      case _ => SourcesApp(g, s, t, c);
    }
  }

  lemma SourcesInit(g: Graph, workers: nat)
    requires WellWired(g)
    ensures SourcesOk(g, Init(g, workers)) && Unkicked(Init(g, workers))
  {
    var s := Init(g, workers);
    forall v: nat | IsNode(g, v) ensures SourceOk(g, s, v) {
      SumInit(Token(v), g, workers);
    }
  }
}
