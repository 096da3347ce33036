/** No lost wakeup: AddNode drops requests at the in-flight limit, and the re-checks after each run
    make up for every drop. */
module EngineWake {
  import opened Timestamps
  import opened StreamState
  import opened RunQueueState
  import opened Graphs
  import opened Engine
  import opened EngineShape
  import opened EngineAccounting

  // The thread will still ask for the consumer of edge `e` to run, should the edge hold a packet.
  predicate WillSee(g: Graph, th: Thread, e: nat)
    requires WellWired(g) && IsEdge(g, e)
  {
    || th.leaf == AddNode(g.dst[e])
    || match th.outer
       case CloseOut(v, _, fin) => fin && v == g.dst[e]
       case CloseMark(v, _, fin) => fin && v == g.dst[e]
       case Buffered(v, i, _) => v == g.dst[e] && i <= g.ipos[e]
       case _ => false
  }

  // The thread will still notice that all inputs of `v` are done.
  predicate WillFinalize(th: Thread, v: nat) {
    || th.leaf == AddNode(v)
    || match th.outer
       case Buffered(w, _, sched) => w == v && !sched
       case Again(w, sched) => w == v && !sched
       case Recheck(w, _) => w == v
       case _ => false
  }

  ghost predicate EdgeWatched(g: Graph, s: State, e: nat)
    requires WellWired(g) && Sized(g, s) && IsEdge(g, e)
  {
    s.edges[e].queue != [] ==>
      || s.pending[g.dst[e]] > 0
      || exists t: nat {:trigger s.threads[t]} :: t < |s.threads| && WillSee(g, s.threads[t], e)
  }

  ghost predicate NodeWatched(g: Graph, s: State, v: nat)
    requires WellWired(g) && Sized(g, s) && IsNode(g, v)
  {
    !IsSource(g, v) && AllDone(g, s, v) && v !in s.queue.finalized ==>
      || s.pending[v] > 0
      || exists t: nat {:trigger s.threads[t]} :: t < |s.threads| && WillFinalize(s.threads[t], v)
  }

  ghost predicate WakeOk(g: Graph, s: State)
    requires WellWired(g) && Sized(g, s)
  {
    && (forall e: nat {:trigger EdgeWatched(g, s, e)} :: IsEdge(g, e) ==> EdgeWatched(g, s, e))
    && (forall v: nat {:trigger NodeWatched(g, s, v)} :: IsNode(g, v) ==> NodeWatched(g, s, v))
  }

  // ------------------------------------------------------------------ preservation

  // The step keeps, or hands on, the duty to look at edge `e`.
  ghost predicate EdgeWakes(g: Graph, s: State, s': State, t: nat, e: nat)
    requires WellWired(g) && Sized(g, s) && Sized(g, s') && IsEdge(g, e) && t < |s.threads| == |s'.threads|
  {
    s'.edges[e].queue != [] && (s.edges[e].queue == [] || s.pending[g.dst[e]] > 0 || WillSee(g, s.threads[t], e)) ==>
      s'.pending[g.dst[e]] > 0 || WillSee(g, s'.threads[t], e)
  }

  ghost predicate NodeWakes(g: Graph, s: State, s': State, t: nat, v: nat)
    requires WellWired(g) && Sized(g, s) && Sized(g, s') && IsNode(g, v) && t < |s.threads| == |s'.threads|
  {
    && !IsSource(g, v) && AllDone(g, s', v) && v !in s'.queue.finalized
    && (!AllDone(g, s, v) || v in s.queue.finalized || s.pending[v] > 0 || WillFinalize(s.threads[t], v)) ==>
      s'.pending[v] > 0 || WillFinalize(s'.threads[t], v)
  }

  lemma WakeFrame(g: Graph, s: State, s': State, t: nat)
    requires WellWired(g) && Sized(g, s) && Sized(g, s') && WakeOk(g, s) && OthersSame(s, s', t) && t < |s.threads|
    requires forall e: nat {:trigger EdgeWakes(g, s, s', t, e)} :: IsEdge(g, e) ==> EdgeWakes(g, s, s', t, e)
    requires forall v: nat {:trigger NodeWakes(g, s, s', t, v)} :: IsNode(g, v) ==> NodeWakes(g, s, s', t, v)
    ensures WakeOk(g, s')
  {
    forall e: nat | IsEdge(g, e) ensures EdgeWatched(g, s', e) {
      assert EdgeWatched(g, s, e) && EdgeWakes(g, s, s', t, e);
      if s'.edges[e].queue != [] && s'.pending[g.dst[e]] == 0 && !WillSee(g, s'.threads[t], e) {
        var u: nat :| u < |s.threads| && WillSee(g, s.threads[u], e);
        assert s'.threads[u] == s.threads[u];
      }
    }
    forall v: nat | IsNode(g, v) ensures NodeWatched(g, s', v) {
      assert NodeWatched(g, s, v) && NodeWakes(g, s, s', t, v);
      if !IsSource(g, v) && AllDone(g, s', v) && v !in s'.queue.finalized && s'.pending[v] == 0 && !WillFinalize(s'.threads[t], v) {
        var u: nat :| u < |s.threads| && WillFinalize(s.threads[u], v);
        assert s'.threads[u] == s.threads[u];
      }
    }
  }

  // A step that leaves queues and counters alone and keeps the thread's own duties.
  lemma WakeQuiet(g: Graph, s: State, s': State, t: nat)
    requires WellWired(g) && Sized(g, s) && Sized(g, s') && WakeOk(g, s) && OthersSame(s, s', t) && t < |s.threads|
    requires s'.edges == s.edges && s'.pending == s.pending && s.queue.finalized <= s'.queue.finalized
    requires forall e: nat {:trigger WillSee(g, s.threads[t], e)} ::
      IsEdge(g, e) && WillSee(g, s.threads[t], e) && s.edges[e].queue != [] ==> WillSee(g, s'.threads[t], e)
    requires forall v: nat {:trigger WillFinalize(s.threads[t], v)} ::
      IsNode(g, v) && WillFinalize(s.threads[t], v) && !IsSource(g, v) && AllDone(g, s, v) && v !in s'.queue.finalized ==>
        WillFinalize(s'.threads[t], v)
    ensures WakeOk(g, s')
  {
    forall v: nat | IsNode(g, v) ensures NodeWakes(g, s, s', t, v) {
      assert AllDone(g, s', v) == AllDone(g, s, v);
    }
    WakeFrame(g, s, s', t);
  }

  lemma WakeLeaf(g: Graph, s: State, t: nat)
    requires WellWired(g) && Shape(g, s) && WakeOk(g, s) && t < |s.threads| && s.threads[t].leaf != NoLeaf
    ensures CallsOk(g, s.threads[t])
    ensures WakeOk(g, LeafStep(g, s, t))
  {
    assert ThreadOk(g, s, t);
    var s' := LeafStep(g, s, t);
    if s.threads[t].leaf.AddNode? {
      assert IsNode(g, s.threads[t].leaf.n);
      assert s'.pending[s.threads[t].leaf.n] > 0;
    }
    hide Shape, WellWired, ThreadOk, WakeOk;
    forall e: nat | IsEdge(g, e) ensures EdgeWakes(g, s, s', t, e) {
      EdgeFacts(g, e);
    }
    forall v: nat | IsNode(g, v) ensures NodeWakes(g, s, s', t, v) {
      assert AllDone(g, s', v) == AllDone(g, s, v);
    }
    WakeFrame(g, s, s', t);
  }

  // Changing one edge leaves the inputs of every other consumer as they were.
  lemma OtherNodes(g: Graph, s: State, s': State, e: nat, v: nat)
    requires WellWired(g) && Sized(g, s) && Sized(g, s') && IsEdge(g, e) && IsNode(g, v) && v != g.dst[e]
    requires forall k: nat {:trigger s'.edges[k]} :: IsEdge(g, k) && k != e ==> s'.edges[k] == s.edges[k]
    ensures AllDone(g, s', v) == AllDone(g, s, v)
  {
    forall i | 0 <= i < |g.ins[v]| ensures s'.edges[InEdge(g, v, i)] == s.edges[InEdge(g, v, i)] {
      assert IsInput(g, v, i);
    }
  }

  // Queueing into edge `e0` or raising its bound wakes its consumer.
  lemma WakeEdge(g: Graph, s: State, s': State, t: nat, e0: nat)
    requires WellWired(g) && Sized(g, s) && Sized(g, s') && WakeOk(g, s) && OthersSame(s, s', t) && t < |s.threads|
    requires IsEdge(g, e0) && s'.pending == s.pending && s'.queue == s.queue
    requires forall k: nat {:trigger s'.edges[k]} :: IsEdge(g, k) && k != e0 ==> s'.edges[k] == s.edges[k]
    requires s.threads[t].leaf == NoLeaf && s'.threads[t].outer == s.threads[t].outer
    requires
      || s'.threads[t].leaf == AddNode(g.dst[e0])
      || (s.edges[e0].queue != [] && s'.edges[e0].queue != [])
      || s'.edges[e0] == s.edges[e0]
    ensures WakeOk(g, s')
  {
    forall e: nat | IsEdge(g, e) ensures EdgeWakes(g, s, s', t, e) {}
    forall v: nat | IsNode(g, v) ensures NodeWakes(g, s, s', t, v) {
      if v != g.dst[e0] {
        OtherNodes(g, s, s', e0, v);
      } else {
        assert IsInput(g, v, g.ipos[e0]) && InEdge(g, v, g.ipos[e0]) == e0;
        if s'.edges[e0] == s.edges[e0] {
          assert AllDone(g, s', v) == AllDone(g, s, v);
        }
      }
    }
    WakeFrame(g, s, s', t);
  }

  lemma WakeBroadcast(g: Graph, s: State, t: nat)
    requires WellWired(g) && Shape(g, s) && WakeOk(g, s) && t < |s.threads| && s.threads[t].leaf == NoLeaf
    requires s.threads[t].mid.Propagate? || s.threads[t].mid.Shut?
    ensures CallsOk(g, s.threads[t])
    ensures WakeOk(g, if s.threads[t].mid.Shut? then ShutStep(g, s, t) else PropagateStep(g, s, t))
  {
    assert ThreadOk(g, s, t);
    var s' := if s.threads[t].mid.Shut? then ShutStep(g, s, t) else PropagateStep(g, s, t);
    var q, j := s.threads[t].mid.q, s.threads[t].mid.j;
    if j < |g.mirrors[q]| {
      var e0 := MirrorEdge(g, q, j);
      assert IsEdge(g, e0) && !s.edges[e0].closed;
      hide Shape, WellWired, ThreadOk, WakeOk;
      WakeEdge(g, s, s', t, e0);
    } else {
      hide Shape, WellWired, ThreadOk, WakeOk;
      WakeQuiet(g, s, s', t);
    }
  }

  lemma WakeCollect(g: Graph, s: State, t: nat, c: Choice)
    requires WellWired(g) && Shape(g, s) && AccOk(g, s) && WakeOk(g, s) && OuterPoint(g, s, t, c) && s.threads[t].outer.Collect?
    ensures WakeOk(g, OuterStep(g, s, t, c))
  {
    var s' := OuterStep(g, s, t, c);
    var o := s.threads[t].outer;
    assert Flight(g, s, o.v);
    SumHasOne(Runner(o.v), s.threads, t);
    assert s'.pending[o.v] > 0;
    hide Shape, AccOk, WakeOk;
    if o.i < |g.ins[o.v]| {
      assert IsInput(g, o.v, o.i);
      var e0 := InEdge(g, o.v, o.i);
      forall v: nat | IsNode(g, v) ensures NodeWakes(g, s, s', t, v) {
        if v != o.v {
          OtherNodes(g, s, s', e0, v);
        }
      }
      forall e: nat | IsEdge(g, e) ensures EdgeWakes(g, s, s', t, e) {}
      WakeFrame(g, s, s', t);
    } else {
      hide WellWired;
      WakeQuiet(g, s, s', t);
    }
  }

  lemma WakeDrop(g: Graph, s: State, t: nat, c: Choice)
    requires WellWired(g) && Shape(g, s) && WakeOk(g, s) && OuterPoint(g, s, t, c)
    requires s.threads[t].outer.Drop? || s.threads[t].outer.StopDrop?
    ensures WakeOk(g, OuterStep(g, s, t, c))
  {
    var s' := OuterStep(g, s, t, c);
    assert ThreadOk(g, s, t);
    hide Shape, WakeOk;
    forall e: nat | IsEdge(g, e) ensures EdgeWakes(g, s, s', t, e) {
      EdgeFacts(g, e);
    }
    forall v: nat | IsNode(g, v) ensures NodeWakes(g, s, s', t, v) {
      assert AllDone(g, s', v) == AllDone(g, s, v);
    }
    WakeFrame(g, s, s', t);
  }

  lemma WakeTail(g: Graph, s: State, t: nat, c: Choice)
    requires WellWired(g) && Shape(g, s) && WakeOk(g, s) && OuterPoint(g, s, t, c)
    requires var o := s.threads[t].outer; o.Buffered? || o.Again?
    ensures WakeOk(g, OuterStep(g, s, t, c))
  {
    assert ThreadOk(g, s, t);
    var s' := OuterStep(g, s, t, c);
    var o := s.threads[t].outer;
    forall e: nat | IsEdge(g, e) && WillSee(g, s.threads[t], e) && s.edges[e].queue != []
      ensures WillSee(g, s'.threads[t], e)
    {
      EdgeFacts(g, e);
    }
    hide Shape, WellWired, ThreadOk, WakeOk;
    WakeQuiet(g, s, s', t);
  }

  lemma WakeRecheck(g: Graph, s: State, t: nat, c: Choice)
    requires WellWired(g) && Shape(g, s) && WakeOk(g, s) && OuterPoint(g, s, t, c) && s.threads[t].outer.Recheck?
    ensures WakeOk(g, OuterStep(g, s, t, c))
  {
    var s' := OuterStep(g, s, t, c);
    var o := s.threads[t].outer;
    if o.i < |g.ins[o.v]| {
      assert IsInput(g, o.v, o.i);
      assert AllDone(g, s, o.v) ==> IsDone(s.edges[InEdge(g, o.v, o.i)]);
    }
    hide Shape, WellWired, ThreadOk, WakeOk;
    WakeQuiet(g, s, s', t);
  }

  lemma WakeClose(g: Graph, s: State, t: nat, c: Choice)
    requires WellWired(g) && Shape(g, s) && WakeOk(g, s) && OuterPoint(g, s, t, c)
    requires s.threads[t].outer.CloseOut? || s.threads[t].outer.CloseMark?
    ensures WakeOk(g, OuterStep(g, s, t, c))
  {
    assert ThreadOk(g, s, t);
    var s' := OuterStep(g, s, t, c);
    hide Shape, WellWired, ThreadOk, WakeOk;
    WakeQuiet(g, s, s', t);
  }

  // Points with no duty of their own.
  predicate Dutiless(o: Outer) {
    !o.CloseOut? && !o.CloseMark? && !o.Buffered? && !o.Again? && !o.Recheck?
  }

  lemma WakePlain(g: Graph, s: State, t: nat, c: Choice)
    requires WellWired(g) && OuterPoint(g, s, t, c) && WakeOk(g, s)
    requires var o := s.threads[t].outer; o.Compute? || o.Post? || o.PostShut? || o.Scan? || o.Decide?
    ensures WakeOk(g, OuterStep(g, s, t, c))
  {
    var s' := OuterStep(g, s, t, c);
    assert Dutiless(s.threads[t].outer);
    hide WellWired, WakeOk;
    WakeQuiet(g, s, s', t);
  }

  lemma WakeEnds(g: Graph, s: State, t: nat, c: Choice)
    requires WellWired(g) && OuterPoint(g, s, t, c) && WakeOk(g, s)
    requires var o := s.threads[t].outer; o.Resting? || o.Fetch? || o.Missed? || o.Finish? || o.StopErase? || IsApp(o)
    ensures WakeOk(g, OuterStep(g, s, t, c))
  {
    var s' := OuterStep(g, s, t, c);
    assert Dutiless(s.threads[t].outer);
    hide WellWired, WakeOk;
    WakeQuiet(g, s, s', t);
  }

  lemma WakeStep(g: Graph, s: State, t: nat, c: Choice)
    requires WellWired(g) && Shape(g, s) && AccOk(g, s) && WakeOk(g, s) && Enabled(g, s, t, c)
    ensures Sized(g, Step(g, s, t, c)) && WakeOk(g, Step(g, s, t, c))
  {
    ShapeStep(g, s, t, c);
    if s.threads[t].leaf != NoLeaf {
      WakeLeaf(g, s, t);
    } else if s.threads[t].mid.Propagate? || s.threads[t].mid.Shut? {
      WakeBroadcast(g, s, t);
    } else if s.threads[t].mid.Idle? {
      assert ThreadOk(g, s, t);
      assert Dutiless(s.threads[t].outer);
      hide Shape, AccOk, WakeOk, WellWired, IdleStep, ThreadOk;
      WakeQuiet(g, s, IdleStep(g, s, t, c), t);
    } else {
      hide AppCall, AccOk, WakeOk, Shape;
      match s.threads[t].outer
      case Collect(_, _, _) => WakeCollect(g, s, t, c);
      case Drop(_, _) => WakeDrop(g, s, t, c);
      case StopDrop(_) => WakeDrop(g, s, t, c);
      case Buffered(_, _, _) => WakeTail(g, s, t, c);
      case Again(_, _) => WakeTail(g, s, t, c);
      case Recheck(_, _) => WakeRecheck(g, s, t, c);
      case CloseOut(_, _, _) => WakeClose(g, s, t, c);
      case CloseMark(_, _, _) => WakeClose(g, s, t, c);
      case Compute(_, _) => WakePlain(g, s, t, c);
      case Post(_, _, _, _, _) => WakePlain(g, s, t, c);
      case PostShut(_, _, _, _, _) => WakePlain(g, s, t, c);
      case Scan(_, _, _) => WakePlain(g, s, t, c);
      case Decide(_, _, _) => WakePlain(g, s, t, c);
      case _ => WakeEnds(g, s, t, c);
    }
  }

  lemma WakeInit(g: Graph, workers: nat)
    requires WellWired(g)
    ensures Shape(g, Init(g, workers)) && WakeOk(g, Init(g, workers))
  {
    ShapeInit(g, workers);
    var s := Init(g, workers);
    forall v: nat | IsNode(g, v) ensures NodeWatched(g, s, v) {
      if !IsSource(g, v) {
        assert IsInput(g, v, 0);
        assert !IsDone(s.edges[InEdge(g, v, 0)]);
      }
    }
  }
}
