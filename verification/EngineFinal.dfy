/** Two-phase finalize: Done on an input is stable, and a node is finalized only by a run whose Process
    saw every input port marked done, after an earlier run ended with all inputs done. */
module EngineFinal {
  import opened Timestamps
  import opened StreamState
  import opened RunQueueState
  import opened Graphs
  import opened Engine
  import opened EngineShape
  import opened EngineAccounting
  import opened EngineSources
  import opened EngineFlow
  import opened EngineSeal

  ghost predicate FinalNode(g: Graph, s: State, v: nat)
    requires WellWired(g) && Sized(g, s)
  {
    && (v in s.queue.closePending || v in s.queue.finalized ==> IsNode(g, v) && AllDone(g, s, v))
    && (v in s.queue.closePending ==> v !in s.queue.finalized)
  }

  // What the run has established about its node's inputs.
  ghost predicate FinalPoint(g: Graph, s: State, o: Outer)
    requires WellWired(g) && Sized(g, s) && OuterOk(g, o)
  {
    match o
    case Collect(v, _, seen) => v in s.queue.closePending ==> seen
    case Compute(v, seen) => v in s.queue.closePending ==> seen
    case Post(v, _, _, _, seen) => v in s.queue.closePending ==> seen
    case PostShut(v, _, _, _, seen) => v in s.queue.closePending ==> seen
    case Scan(v, i, seen) =>
      && (v in s.queue.closePending ==> seen)
      && (forall k: nat {:trigger IsInput(g, v, k)} :: IsInput(g, v, k) && k < i ==> IsDone(s.edges[InEdge(g, v, k)]))
    case Decide(v, done, seen) =>
      && (v in s.queue.closePending ==> seen)
      && (done ==> AllDone(g, s, v))
    case _ => true
  }

  ghost predicate FinalThread(g: Graph, s: State, t: nat)
    requires WellWired(g) && Sized(g, s) && t < |s.threads|
  {
    OuterOk(g, s.threads[t].outer) && FinalPoint(g, s, s.threads[t].outer)
  }

  ghost predicate FinalOk(g: Graph, s: State)
    requires WellWired(g) && Sized(g, s)
  {
    && (forall v: nat {:trigger FinalNode(g, s, v)} :: FinalNode(g, s, v))
    && (forall t: nat {:trigger FinalThread(g, s, t)} :: t < |s.threads| ==> FinalThread(g, s, t))
  }

  ghost predicate DoneKept(g: Graph, s: State, s': State)
    requires WellWired(g) && Sized(g, s) && Sized(g, s')
  {
    forall e: nat {:trigger IsEdge(g, e)} :: IsEdge(g, e) && IsDone(s.edges[e]) ==> IsDone(s'.edges[e])
  }

  // No step takes Done back or queues a packet behind it.
  lemma DoneIsStable(g: Graph, s: State, t: nat, c: Choice)
    requires WellWired(g) && Shape(g, s) && AllSized(g, s) && SealOk(g, s) && Enabled(g, s, t, c)
    requires Sized(g, Step(g, s, t, c))
    ensures DoneKept(g, s, Step(g, s, t, c))
  {
    var s' := Step(g, s, t, c);
    var m := s.threads[t].mid;
    assert ThreadOk(g, s, t);
    if s.threads[t].leaf == NoLeaf && m.Propagate? && m.j < |g.mirrors[m.q]| && !m.sent && m.pkts != [] {
      var e0 := MirrorEdge(g, m.q, m.j);
      assert EdgeSealed(g, s, e0);
      assert Owed(g, s.threads[t], e0) == m.pkts;
    } else {
      hide Shape, SealOk, AllSized;
      DoneElsewhere(g, s, t, c);
    }
  }

  lemma DoneElsewhere(g: Graph, s: State, t: nat, c: Choice)
    requires WellWired(g) && Enabled(g, s, t, c) && Sized(g, Step(g, s, t, c))
    requires var m := s.threads[t].mid;
      !(s.threads[t].leaf == NoLeaf && m.Propagate? && m.j < |g.mirrors[m.q]| && !m.sent && m.pkts != [])
    ensures DoneKept(g, s, Step(g, s, t, c))
  {
    if s.threads[t].leaf == NoLeaf && s.threads[t].mid == NoMid {
      DoneOuter(g, s, t, c);
    }
  }

  lemma DoneOuter(g: Graph, s: State, t: nat, c: Choice)
    requires WellWired(g) && OuterPoint(g, s, t, c) && Sized(g, OuterStep(g, s, t, c))
    ensures DoneKept(g, s, OuterStep(g, s, t, c))
    ensures !s.threads[t].outer.Collect? ==> OuterStep(g, s, t, c).edges == s.edges
  {
  }

  // ------------------------------------------------------------------ preservation

  lemma FinalFrame(g: Graph, s: State, s': State, t: nat)
    requires WellWired(g) && Sized(g, s) && Sized(g, s') && FinalOk(g, s) && OthersSame(s, s', t) && t < |s.threads|
    requires DoneKept(g, s, s')
    requires s'.queue.closePending == s.queue.closePending && s'.queue.finalized == s.queue.finalized
    requires FinalThread(g, s', t)
    ensures FinalOk(g, s')
  {
    forall v: nat ensures FinalNode(g, s', v) {
      assert FinalNode(g, s, v);
    }
    forall u: nat | u < |s'.threads| ensures FinalThread(g, s', u) {
      assert FinalThread(g, s, u);
      if u != t {
        assert s'.threads[u] == s.threads[u];
      }
    }
  }

  lemma FinalCollect(g: Graph, s: State, t: nat, c: Choice)
    requires WellWired(g) && OuterPoint(g, s, t, c) && FinalOk(g, s) && s.threads[t].outer.Collect?
    requires Sized(g, OuterStep(g, s, t, c)) && DoneKept(g, s, OuterStep(g, s, t, c))
    ensures FinalOk(g, OuterStep(g, s, t, c))
  {
    var o := s.threads[t].outer;
    assert FinalThread(g, s, t) && FinalNode(g, s, o.v);
    assert FinalThread(g, OuterStep(g, s, t, c), t);
    hide WellWired, FinalOk;
    FinalFrame(g, s, OuterStep(g, s, t, c), t);
  }

  lemma FinalScan(g: Graph, s: State, t: nat, c: Choice)
    requires WellWired(g) && OuterPoint(g, s, t, c) && FinalOk(g, s) && s.threads[t].outer.Scan?
    requires Sized(g, OuterStep(g, s, t, c)) && DoneKept(g, s, OuterStep(g, s, t, c))
    ensures FinalOk(g, OuterStep(g, s, t, c))
  {
    var o := s.threads[t].outer;
    var s' := OuterStep(g, s, t, c);
    assert FinalThread(g, s, t);
    if o.i >= |g.ins[o.v]| {
      forall i | 0 <= i < |g.ins[o.v]| ensures IsDone(s.edges[InEdge(g, o.v, i)]) {
        assert IsInput(g, o.v, i);
      }
    }
    assert FinalThread(g, s', t);
    hide WellWired, FinalOk;
    FinalFrame(g, s, s', t);
  }

  lemma FinalRun(g: Graph, s: State, t: nat, c: Choice)
    requires WellWired(g) && OuterPoint(g, s, t, c) && FinalOk(g, s)
    requires var o := s.threads[t].outer; o.Compute? || o.Post? || o.PostShut? || o.Fetch?
    requires Sized(g, OuterStep(g, s, t, c)) && DoneKept(g, s, OuterStep(g, s, t, c))
    requires OuterOk(g, OuterStep(g, s, t, c).threads[t].outer)
    ensures FinalOk(g, OuterStep(g, s, t, c))
  {
    assert FinalThread(g, s, t);
    hide FinalOk;
    FinalFrame(g, s, OuterStep(g, s, t, c), t);
  }

  // Points that carry no claim about the node's inputs, before and after.
  predicate Unclaimed(o: Outer) {
    !o.Collect? && !o.Compute? && !o.Post? && !o.PostShut? && !o.Scan? && !o.Decide?
  }

  lemma FinalTail(g: Graph, s: State, t: nat, c: Choice)
    requires WellWired(g) && OuterPoint(g, s, t, c) && FinalOk(g, s)
    requires var o := s.threads[t].outer; o.Drop? || o.CloseOut? || o.CloseMark? || o.StopDrop? || o.StopErase? || o.Buffered? || o.Again? || o.Recheck?
    requires Sized(g, OuterStep(g, s, t, c)) && DoneKept(g, s, OuterStep(g, s, t, c))
    requires OuterOk(g, OuterStep(g, s, t, c).threads[t].outer)
    ensures FinalOk(g, OuterStep(g, s, t, c))
  {
    assert Unclaimed(OuterStep(g, s, t, c).threads[t].outer);
    hide FinalOk, WellWired, OuterOk;
    FinalFrame(g, s, OuterStep(g, s, t, c), t);
  }

  lemma FinalEnds(g: Graph, s: State, t: nat, c: Choice)
    requires WellWired(g) && OuterPoint(g, s, t, c) && FinalOk(g, s)
    requires var o := s.threads[t].outer; o.Resting? || o.Missed? || o.Finish? || IsApp(o)
    requires Sized(g, OuterStep(g, s, t, c)) && DoneKept(g, s, OuterStep(g, s, t, c))
    requires OuterOk(g, OuterStep(g, s, t, c).threads[t].outer)
    ensures FinalOk(g, OuterStep(g, s, t, c))
  {
    assert Unclaimed(OuterStep(g, s, t, c).threads[t].outer);
    hide FinalOk, WellWired, OuterOk;
    FinalFrame(g, s, OuterStep(g, s, t, c), t);
  }

  /** A node is closed only by a run whose Process saw all its inputs done, and only once. */
  lemma CloseNeedsSeenDone(g: Graph, s: State, t: nat, c: Choice)
    requires WellWired(g) && OuterPoint(g, s, t, c) && FinalOk(g, s) && s.threads[t].outer.Decide?
    requires OuterStep(g, s, t, c).threads[t].outer == Drop(s.threads[t].outer.v, CloseNow)
    ensures var o := s.threads[t].outer;
      && o.seen && AllDone(g, s, o.v) && o.v in s.queue.closePending && o.v !in s.queue.finalized
      && o.v in OuterStep(g, s, t, c).queue.finalized
  {
    assert FinalThread(g, s, t);
  }

  lemma FinalDecide(g: Graph, s: State, t: nat, c: Choice)
    requires WellWired(g) && SingleFlight(g) && Shape(g, s) && AccOk(g, s) && FinalOk(g, s) && OuterPoint(g, s, t, c)
    requires s.threads[t].outer.Decide? && Sized(g, OuterStep(g, s, t, c)) && DoneKept(g, s, OuterStep(g, s, t, c))
    ensures FinalOk(g, OuterStep(g, s, t, c))
  {
    var s' := OuterStep(g, s, t, c);
    var v := s.threads[t].outer.v;
    assert FinalThread(g, s, t);
    forall w: nat ensures FinalNode(g, s', w) {
      assert FinalNode(g, s, w);
    }
    forall u: nat | u < |s'.threads| ensures FinalThread(g, s', u) {
      assert FinalThread(g, s, u);
      if u != t {
        assert s'.threads[u] == s.threads[u];
        if Runs(s.threads[u].outer, v) {
          OnlyRunner(g, s, v, t, u);
        }
      }
    }
  }

  lemma FinalStep(g: Graph, s: State, t: nat, c: Choice)
    requires WellWired(g) && SingleFlight(g) && Shape(g, s) && AllSized(g, s) && AccOk(g, s) && SealOk(g, s) && FinalOk(g, s)
    requires Enabled(g, s, t, c) && Shape(g, Step(g, s, t, c))
    ensures FinalOk(g, Step(g, s, t, c))
  {
    var s' := Step(g, s, t, c);
    DoneIsStable(g, s, t, c);
    assert FinalThread(g, s, t) && ThreadOk(g, s', t);
    assert Sized(g, s');
    hide Shape, AccOk, SealOk, AllSized, DoneKept;
    if s.threads[t].leaf != NoLeaf || s.threads[t].mid != NoMid {
      FinalFrame(g, s, s', t);
    } else {
      hide FinalOk, AppCall, SingleFlight, ThreadOk, FinalThread, AppEnabled, OutcomeOk, WellWired, Sized;
      match s.threads[t].outer
      case Collect(_, _, _) => FinalCollect(g, s, t, c);
      case Scan(_, _, _) => FinalScan(g, s, t, c);
      case Compute(_, _) => FinalRun(g, s, t, c);
      case Post(_, _, _, _, _) => FinalRun(g, s, t, c);
      case PostShut(_, _, _, _, _) => FinalRun(g, s, t, c);
      case Fetch => FinalRun(g, s, t, c);
      case Decide(_, _, _) => FinalDecide(g, s, t, c);
      case Drop(_, _) => FinalTail(g, s, t, c);
      case CloseOut(_, _, _) => FinalTail(g, s, t, c);
      case CloseMark(_, _, _) => FinalTail(g, s, t, c);
      case StopDrop(_) => FinalTail(g, s, t, c);
      case StopErase(_) => FinalTail(g, s, t, c);
      case Buffered(_, _, _) => FinalTail(g, s, t, c);
      case Again(_, _) => FinalTail(g, s, t, c);
      case Recheck(_, _) => FinalTail(g, s, t, c);
      case _ => FinalEnds(g, s, t, c);
    }
  }

  lemma FinalInit(g: Graph, workers: nat)
    requires WellWired(g)
    ensures FinalOk(g, Init(g, workers))
  {
    var s := Init(g, workers);
    forall t: nat | t < |s.threads| ensures FinalThread(g, s, t) {
      assert t > 0 ==> s.threads[t] == Thread(Resting, NoMid, NoLeaf);
    }
  }
}
