/** Conservation of packets: what a stream's producer added is, for every mirror, what its consumer
    popped, then what is queued, then what a thread still has to hand over. */
module EngineFlow {
  import opened Timestamps
  import opened StreamState
  import opened RunQueueState
  import opened Graphs
  import opened Engine
  import opened EngineShape
  import opened EngineAccounting

  function MidOwed(g: Graph, m: Mid, e: nat): (r: seq<Packet>)
    requires WellWired(g) && IsEdge(g, e)
  {
    if m.Propagate? && m.q == g.src[e] && (m.j < g.mpos[e] || (m.j == g.mpos[e] && !m.sent)) then m.pkts else []
  }

  // The packets the thread still has to hand to edge `e`.
  function Owed(g: Graph, th: Thread, e: nat): (r: seq<Packet>)
    requires WellWired(g) && IsEdge(g, e) && OuterSized(g, th.outer)
  {
    var q := g.src[e];
    match th.outer
    case Post(v, outs, _, k, _) => if Owns(g, v, q) && k <= g.opos[q] then outs[g.opos[q]].pkts else []
    case PostShut(v, outs, _, k, _) =>
      if Owns(g, v, q) && k < g.opos[q] then outs[g.opos[q]].pkts else MidOwed(g, th.mid, e)
    case AppNotify(_) => MidOwed(g, th.mid, e)
    case _ => []
  }

  predicate OuterSized(g: Graph, o: Outer) {
    match o
    case Post(v, outs, _, _, _) => v < |g.outs| && |outs| == |g.outs[v]|
    case PostShut(v, outs, _, _, _) => v < |g.outs| && |outs| == |g.outs[v]|
    case _ => true
  }

  ghost predicate AllSized(g: Graph, s: State)
  {
    forall t: nat {:trigger s.threads[t]} :: t < |s.threads| ==> OuterSized(g, s.threads[t].outer)
  }

  lemma ShapeSized(g: Graph, s: State)
    requires WellWired(g) && Shape(g, s)
    ensures AllSized(g, s)
  {
    forall t: nat | t < |s.threads| ensures OuterSized(g, s.threads[t].outer) {
      assert ThreadOk(g, s, t);
    }
  }

  function Delivered(s: State, e: nat): (r: seq<Packet>)
    requires e < |s.edges| && e < |s.consumed|
  {
    s.consumed[e] + s.edges[e].queue
  }

  ghost predicate NoneOwed(g: Graph, s: State, e: nat)
    requires WellWired(g) && Sized(g, s) && IsEdge(g, e) && AllSized(g, s)
  {
    forall t: nat {:trigger Owed(g, s.threads[t], e)} :: t < |s.threads| ==> Owed(g, s.threads[t], e) == []
  }

  ghost predicate FlowOk(g: Graph, s: State, e: nat)
    requires WellWired(g) && Sized(g, s) && IsEdge(g, e) && AllSized(g, s)
  {
    && g.src[e] < |s.emitted|
    && (forall t: nat {:trigger Owed(g, s.threads[t], e)} :: t < |s.threads| && Owed(g, s.threads[t], e) != [] ==>
          s.emitted[g.src[e]] == Delivered(s, e) + Owed(g, s.threads[t], e))
    && (NoneOwed(g, s, e) ==> s.emitted[g.src[e]] == Delivered(s, e))
  }

  ghost predicate FlowsOk(g: Graph, s: State)
    requires WellWired(g) && Sized(g, s) && AllSized(g, s)
  {
    forall e: nat {:trigger FlowOk(g, s, e)} :: IsEdge(g, e) ==> FlowOk(g, s, e)
  }

  // ------------------------------------------------------------------ one producer at a time

  // The thread is the one allowed to hand packets of stream `q` over.
  predicate Produces(g: Graph, th: Thread, q: nat)
    requires WellWired(g) && IsStream(g, q)
  {
    match g.owner[q]
    case Some(v) => Runs(th.outer, v)
    case None => IsApp(th.outer)
  }

  lemma OnlyRunner(g: Graph, s: State, v: nat, t: nat, u: nat)
    requires WellWired(g) && SingleFlight(g) && Sized(g, s) && AccOk(g, s) && IsNode(g, v)
    requires t < |s.threads| && u < |s.threads| && Runs(s.threads[t].outer, v) && Runs(s.threads[u].outer, v)
    ensures t == u && s.queue.items[v] == 0 && s.pending[v] == 1
  {
    assert Flight(g, s, v);
    SumHasOne(Runner(v), s.threads, t);
    if t < u {
      SumHasTwo(Runner(v), s.threads, t, u);
    } else if u < t {
      SumHasTwo(Runner(v), s.threads, u, t);
    }
  }

  lemma OwedByProducer(g: Graph, s: State, t: nat, e: nat)
    requires WellWired(g) && Shape(g, s) && AllSized(g, s) && IsEdge(g, e) && t < |s.threads|
    requires Owed(g, s.threads[t], e) != []
    ensures IsStream(g, g.src[e]) && Produces(g, s.threads[t], g.src[e])
  {
    assert ThreadOk(g, s, t);
    EdgeFacts(g, e);
  }

  lemma OneProducer(g: Graph, s: State, q: nat, t: nat, u: nat)
    requires WellWired(g) && SingleFlight(g) && Shape(g, s) && AccOk(g, s) && IsStream(g, q)
    requires t < |s.threads| && u < |s.threads| && Produces(g, s.threads[t], q) && Produces(g, s.threads[u], q)
    ensures t == u
  {
    assert ThreadOk(g, s, t) && ThreadOk(g, s, u);
    match g.owner[q]
    case Some(v) => OnlyRunner(g, s, v, t, u);
    case None =>
  }

  // While `t` produces a stream, nobody else owes anything to its mirrors.
  lemma OthersOweNothing(g: Graph, s: State, t: nat, e: nat)
    requires WellWired(g) && SingleFlight(g) && Shape(g, s) && AllSized(g, s) && AccOk(g, s)
    requires IsEdge(g, e) && t < |s.threads| && IsStream(g, g.src[e]) && Produces(g, s.threads[t], g.src[e])
    ensures forall u: nat {:trigger Owed(g, s.threads[u], e)} :: u < |s.threads| && u != t ==> Owed(g, s.threads[u], e) == []
  {
    forall u: nat | u < |s.threads| && u != t ensures Owed(g, s.threads[u], e) == [] {
      if Owed(g, s.threads[u], e) != [] {
        OwedByProducer(g, s, u, e);
        OneProducer(g, s, g.src[e], t, u);
      }
    }
  }

  // ------------------------------------------------------------------ preservation

  // The step leaves edge `e`, its stream's history and the thread's debt to it alone.
  lemma FlowKept(g: Graph, s: State, s': State, t: nat, e: nat)
    requires WellWired(g) && Sized(g, s) && Sized(g, s') && AllSized(g, s) && AllSized(g, s')
    requires IsEdge(g, e) && OthersSame(s, s', t) && t < |s.threads| && FlowOk(g, s, e)
    requires s'.emitted[g.src[e]] == s.emitted[g.src[e]] && Delivered(s', e) == Delivered(s, e)
    requires Owed(g, s'.threads[t], e) == Owed(g, s.threads[t], e)
    ensures FlowOk(g, s', e)
  {
    forall u: nat | u < |s'.threads| ensures Owed(g, s'.threads[u], e) == Owed(g, s.threads[u], e) {
      assert u != t ==> s'.threads[u] == s.threads[u];
    }
    if NoneOwed(g, s', e) {
      assert forall u: nat {:trigger Owed(g, s.threads[u], e)} :: u < |s.threads| ==> Owed(g, s'.threads[u], e) == [];
      assert NoneOwed(g, s, e);
    }
  }

  // The only thread with a debt to edge `e` is `t`, and its books balance.
  lemma FlowOwn(g: Graph, s: State, s': State, t: nat, e: nat)
    requires WellWired(g) && Sized(g, s) && Sized(g, s') && AllSized(g, s) && AllSized(g, s')
    requires IsEdge(g, e) && OthersSame(s, s', t) && t < |s.threads| && g.src[e] < |s'.emitted|
    requires forall u: nat {:trigger Owed(g, s.threads[u], e)} :: u < |s.threads| && u != t ==> Owed(g, s.threads[u], e) == []
    requires s'.emitted[g.src[e]] == Delivered(s', e) + Owed(g, s'.threads[t], e)
    ensures FlowOk(g, s', e)
  {
    forall u: nat | u < |s'.threads| && u != t ensures Owed(g, s'.threads[u], e) == [] {
      assert s'.threads[u] == s.threads[u];
      assert Owed(g, s.threads[u], e) == [];
    }
    if NoneOwed(g, s', e) {
      assert Owed(g, s'.threads[t], e) == [];
    }
  }

  // A step that touches no queue, no history and no debt.
  lemma FlowsQuiet(g: Graph, s: State, s': State, t: nat)
    requires WellWired(g) && Sized(g, s) && Sized(g, s') && AllSized(g, s) && AllSized(g, s') && FlowsOk(g, s)
    requires OthersSame(s, s', t) && t < |s.threads|
    requires s'.emitted == s.emitted && s'.consumed == s.consumed
    requires forall e: nat {:trigger s'.edges[e]} :: IsEdge(g, e) ==> s'.edges[e].queue == s.edges[e].queue
    requires forall e: nat {:trigger Owed(g, s'.threads[t], e)} :: IsEdge(g, e) ==>
      Owed(g, s'.threads[t], e) == Owed(g, s.threads[t], e)
    ensures FlowsOk(g, s')
  {
    forall e: nat | IsEdge(g, e) ensures FlowOk(g, s', e) {
      assert FlowOk(g, s, e);
      FlowKept(g, s, s', t, e);
    }
  }

  // Handing packets to one mirror moves them from the debt to the queue.
  lemma HandingOver(g: Graph, s: State, t: nat)
    requires WellWired(g) && SingleFlight(g) && Shape(g, s) && AllSized(g, s) && AccOk(g, s) && FlowsOk(g, s)
    requires t < |s.threads| && s.threads[t].leaf == NoLeaf && s.threads[t].mid.Propagate? && !s.threads[t].mid.sent
    requires var m := s.threads[t].mid; IsStream(g, m.q) && m.j < |g.mirrors[m.q]| && m.pkts != []
    requires AllSized(g, PropagateStep(g, s, t))
    ensures var m, s' := s.threads[t].mid, PropagateStep(g, s, t);
      var e0 := MirrorEdge(g, m.q, m.j);
      && IsEdge(g, e0) && Owed(g, s.threads[t], e0) == m.pkts && !s.edges[e0].closed
      && g.src[e0] < |s'.emitted| && s'.emitted[g.src[e0]] == Delivered(s', e0) + Owed(g, s'.threads[t], e0)
      && forall u: nat {:trigger Owed(g, s.threads[u], e0)} :: u < |s.threads| && u != t ==> Owed(g, s.threads[u], e0) == []
  {
    var m := s.threads[t].mid;
    var e0 := MirrorEdge(g, m.q, m.j);
    assert ThreadOk(g, s, t);
    OwedByProducer(g, s, t, e0);
    OthersOweNothing(g, s, t, e0);
    assert FlowOk(g, s, e0);
  }

  lemma FlowHandOver(g: Graph, s: State, t: nat)
    requires WellWired(g) && SingleFlight(g) && Shape(g, s) && AllSized(g, s) && AccOk(g, s) && FlowsOk(g, s)
    requires t < |s.threads| && s.threads[t].leaf == NoLeaf && s.threads[t].mid.Propagate? && !s.threads[t].mid.sent
    requires var m := s.threads[t].mid; IsStream(g, m.q) && m.j < |g.mirrors[m.q]| && m.pkts != []
    requires AllSized(g, PropagateStep(g, s, t))
    ensures FlowsOk(g, PropagateStep(g, s, t))
  {
    var s' := PropagateStep(g, s, t);
    var m := s.threads[t].mid;
    var e0 := MirrorEdge(g, m.q, m.j);
    HandingOver(g, s, t);
    hide Shape, AccOk;
    forall e: nat | IsEdge(g, e) ensures FlowOk(g, s', e) {
      assert FlowOk(g, s, e);
      EdgeFacts(g, e);
      hide FlowsOk, WellWired, FlowOk;
      if e == e0 {
        FlowOwn(g, s, s', t, e);
      } else {
        FlowKept(g, s, s', t, e);
      }
    }
  }

  lemma FlowPropagate(g: Graph, s: State, t: nat)
    requires WellWired(g) && SingleFlight(g) && Shape(g, s) && AllSized(g, s) && AccOk(g, s) && FlowsOk(g, s)
    requires t < |s.threads| && s.threads[t].leaf == NoLeaf && s.threads[t].mid.Propagate? && IsStream(g, s.threads[t].mid.q)
    requires AllSized(g, PropagateStep(g, s, t))
    ensures FlowsOk(g, PropagateStep(g, s, t))
  {
    assert ThreadOk(g, s, t);
    var m := s.threads[t].mid;
    if m.j < |g.mirrors[m.q]| && !m.sent && m.pkts != [] {
      FlowHandOver(g, s, t);
    } else {
      var s' := PropagateStep(g, s, t);
      hide Shape, AccOk, FlowsOk, ThreadOk;
      forall e: nat | IsEdge(g, e) ensures Owed(g, s'.threads[t], e) == Owed(g, s.threads[t], e) {
        EdgeFacts(g, e);
      }
      hide WellWired;
      FlowsQuiet(g, s, s', t);
    }
  }

  lemma FlowShut(g: Graph, s: State, t: nat)
    requires WellWired(g) && Shape(g, s) && AllSized(g, s) && FlowsOk(g, s)
    requires t < |s.threads| && s.threads[t].leaf == NoLeaf && s.threads[t].mid.Shut? && IsStream(g, s.threads[t].mid.q)
    requires AllSized(g, ShutStep(g, s, t))
    ensures FlowsOk(g, ShutStep(g, s, t))
  {
    assert ThreadOk(g, s, t);
    var s' := ShutStep(g, s, t);
    hide Shape, FlowsOk;
    FlowsQuiet(g, s, s', t);
  }

  lemma FlowCollect(g: Graph, s: State, t: nat, c: Choice)
    requires WellWired(g) && Shape(g, s) && AllSized(g, s) && FlowsOk(g, s) && OuterPoint(g, s, t, c) && s.threads[t].outer.Collect?
    requires AllSized(g, OuterStep(g, s, t, c))
    ensures FlowsOk(g, OuterStep(g, s, t, c))
  {
    var s' := OuterStep(g, s, t, c);
    hide Shape, WellWired;
    forall e: nat | IsEdge(g, e) ensures FlowOk(g, s', e) {
      assert FlowOk(g, s, e);
      assert Delivered(s', e) == Delivered(s, e);
      FlowKept(g, s, s', t, e);
    }
  }

  lemma FlowCompute(g: Graph, s: State, t: nat, c: Choice)
    requires WellWired(g) && SingleFlight(g) && Shape(g, s) && AllSized(g, s) && AccOk(g, s) && FlowsOk(g, s)
    requires OuterPoint(g, s, t, c) && s.threads[t].outer.Compute? && AllSized(g, OuterStep(g, s, t, c))
    ensures FlowsOk(g, OuterStep(g, s, t, c))
  {
    var s' := OuterStep(g, s, t, c);
    var v := s.threads[t].outer.v;
    forall e: nat | IsEdge(g, e) ensures FlowOk(g, s', e) {
      assert FlowOk(g, s, e);
      EdgeFacts(g, e);
      if Owns(g, v, g.src[e]) {
        OthersOweNothing(g, s, t, e);
        hide Shape, AccOk, FlowsOk, WellWired;
        assert NoneOwed(g, s, e);
        FlowOwn(g, s, s', t, e);
      } else {
        hide Shape, AccOk, FlowsOk, WellWired;
        FlowKept(g, s, s', t, e);
      }
    }
  }

  lemma FlowPost(g: Graph, s: State, t: nat, c: Choice)
    requires WellWired(g) && Shape(g, s) && AllSized(g, s) && FlowsOk(g, s) && OuterPoint(g, s, t, c)
    requires s.threads[t].outer.Post? || s.threads[t].outer.PostShut?
    requires var o := s.threads[t].outer; o.Post? && o.k < |g.outs[o.v]| && s.closed[OutStream(g, o.v, o.k)] ==> o.outs[o.k].pkts == []
    requires AllSized(g, OuterStep(g, s, t, c))
    ensures FlowsOk(g, OuterStep(g, s, t, c))
  {
    var s' := OuterStep(g, s, t, c);
    hide Shape, FlowsOk;
    forall e: nat | IsEdge(g, e) ensures Owed(g, s'.threads[t], e) == Owed(g, s.threads[t], e) {
      EdgeFacts(g, e);
      var o := s.threads[t].outer;
      assert Owns(g, o.v, g.src[e]) ==> OutStream(g, o.v, g.opos[g.src[e]]) == g.src[e];
      if o.k < |g.outs[o.v]| {
        assert g.src[e] == OutStream(g, o.v, o.k) ==> Owns(g, o.v, g.src[e]) && g.opos[g.src[e]] == o.k;
      }
    }
    FlowsQuiet(g, s, s', t);
  }

  lemma FlowInject(g: Graph, s: State, t: nat, c: Choice)
    requires WellWired(g) && SingleFlight(g) && Shape(g, s) && AllSized(g, s) && AccOk(g, s) && FlowsOk(g, s)
    requires OuterPoint(g, s, t, c) && s.threads[t].outer.AppReady? && AllSized(g, AppCall(g, s, t, c))
    ensures FlowsOk(g, AppCall(g, s, t, c))
  {
    var s' := AppCall(g, s, t, c);
    assert ThreadOk(g, s, t);
    forall e: nat | IsEdge(g, e) ensures FlowOk(g, s', e) {
      assert FlowOk(g, s, e);
      EdgeFacts(g, e);
      if c.Inject? && g.src[e] == c.g {
        OthersOweNothing(g, s, t, e);
        hide Shape, AccOk, FlowsOk, WellWired;
        assert NoneOwed(g, s, e);
        FlowOwn(g, s, s', t, e);
      } else {
        hide Shape, AccOk, FlowsOk, WellWired;
        FlowKept(g, s, s', t, e);
      }
    }
  }

  // The remaining program points owe nothing before or after.

  lemma FlowTail(g: Graph, s: State, t: nat, c: Choice)
    requires WellWired(g) && Shape(g, s) && AllSized(g, s) && FlowsOk(g, s) && OuterPoint(g, s, t, c)
    requires var o := s.threads[t].outer; o.Scan? || o.Decide? || o.Drop? || o.Buffered? || o.Again? || o.Recheck?
    requires AllSized(g, OuterStep(g, s, t, c))
    ensures FlowsOk(g, OuterStep(g, s, t, c))
  {
    var s' := OuterStep(g, s, t, c);
    hide Shape, FlowsOk, WellWired;
    FlowsQuiet(g, s, s', t);
  }

  lemma FlowClose(g: Graph, s: State, t: nat, c: Choice)
    requires WellWired(g) && Shape(g, s) && AllSized(g, s) && FlowsOk(g, s) && OuterPoint(g, s, t, c)
    requires var o := s.threads[t].outer; o.CloseOut? || o.CloseMark? || o.StopDrop? || o.StopErase?
    requires AllSized(g, OuterStep(g, s, t, c))
    ensures FlowsOk(g, OuterStep(g, s, t, c))
  {
    var s' := OuterStep(g, s, t, c);
    hide Shape, FlowsOk, WellWired;
    FlowsQuiet(g, s, s', t);
  }

  lemma FlowEnds(g: Graph, s: State, t: nat, c: Choice)
    requires WellWired(g) && Shape(g, s) && AllSized(g, s) && FlowsOk(g, s) && OuterPoint(g, s, t, c)
    requires var o := s.threads[t].outer; o.Resting? || o.Fetch? || o.Missed? || o.Finish?
    requires AllSized(g, OuterStep(g, s, t, c))
    ensures FlowsOk(g, OuterStep(g, s, t, c))
  {
    var s' := OuterStep(g, s, t, c);
    hide Shape, FlowsOk, WellWired;
    FlowsQuiet(g, s, s', t);
  }

  lemma FlowApp(g: Graph, s: State, t: nat, c: Choice)
    requires WellWired(g) && Shape(g, s) && AllSized(g, s) && FlowsOk(g, s) && OuterPoint(g, s, t, c)
    requires var o := s.threads[t].outer; IsApp(o) && !o.AppReady?
    requires AllSized(g, OuterStep(g, s, t, c))
    ensures FlowsOk(g, OuterStep(g, s, t, c))
  {
    var s' := OuterStep(g, s, t, c);
    hide Shape, FlowsOk, WellWired;
    FlowsQuiet(g, s, s', t);
  }

  // A published stream is skipped only when it has nothing to hand over.
  ghost predicate SkipsNothing(g: Graph, s: State, t: nat)
    requires WellWired(g) && Sized(g, s) && t < |s.threads| && OuterOk(g, s.threads[t].outer)
  {
    var o := s.threads[t].outer;
    o.Post? && o.k < |g.outs[o.v]| && s.closed[OutStream(g, o.v, o.k)] ==> o.outs[o.k].pkts == []
  }

  lemma FlowStep(g: Graph, s: State, t: nat, c: Choice)
    requires WellWired(g) && SingleFlight(g) && Shape(g, s) && AllSized(g, s) && AccOk(g, s) && FlowsOk(g, s)
    requires Enabled(g, s, t, c) && SkipsNothing(g, s, t)
    ensures Shape(g, Step(g, s, t, c)) && AllSized(g, Step(g, s, t, c)) && FlowsOk(g, Step(g, s, t, c))
  {
    ShapeStep(g, s, t, c);
    var s' := Step(g, s, t, c);
    ShapeSized(g, s');
    hide Shape, AccOk;
    if s.threads[t].leaf != NoLeaf {
      hide FlowsOk, WellWired;
      FlowsQuiet(g, s, s', t);
    } else if s.threads[t].mid.Propagate? {
      FlowPropagate(g, s, t);
    } else if s.threads[t].mid.Shut? {
      FlowShut(g, s, t);
    } else if s.threads[t].mid.Idle? {
      IdleOwesNothing(g, s, t, s');
      FlowsQuiet(g, s, s', t);
    } else {
      hide AppCall, FlowsOk;
      match s.threads[t].outer
      case Collect(_, _, _) => FlowCollect(g, s, t, c);
      case Compute(_, _) => FlowCompute(g, s, t, c);
      case Post(_, _, _, _, _) => FlowPost(g, s, t, c);
      case PostShut(_, _, _, _, _) => FlowPost(g, s, t, c);
      case AppReady => FlowInject(g, s, t, c);
      case Scan(_, _, _) => FlowTail(g, s, t, c);
      case Decide(_, _, _) => FlowTail(g, s, t, c);
      case Drop(_, _) => FlowTail(g, s, t, c);
      case Buffered(_, _, _) => FlowTail(g, s, t, c);
      case Again(_, _) => FlowTail(g, s, t, c);
      case Recheck(_, _) => FlowTail(g, s, t, c);
      case CloseOut(_, _, _) => FlowClose(g, s, t, c);
      case CloseMark(_, _, _) => FlowClose(g, s, t, c);
      case StopDrop(_) => FlowClose(g, s, t, c);
      case StopErase(_) => FlowClose(g, s, t, c);
      case Resting => FlowEnds(g, s, t, c);
      case Fetch => FlowEnds(g, s, t, c);
      case Missed => FlowEnds(g, s, t, c);
      case Finish => FlowEnds(g, s, t, c);
      case _ => FlowApp(g, s, t, c);
    }
  }

  lemma IdleOwesNothing(g: Graph, s: State, t: nat, s': State)
    requires WellWired(g) && Shape(g, s) && AllSized(g, s) && t < |s.threads| == |s'.threads| && AllSized(g, s')
    requires s.threads[t].mid.Idle? && s'.threads[t].outer == s.threads[t].outer
    ensures forall e: nat {:trigger Owed(g, s'.threads[t], e)} :: IsEdge(g, e) ==>
      Owed(g, s'.threads[t], e) == [] && Owed(g, s.threads[t], e) == []
  {
    assert ThreadOk(g, s, t);
  }

  lemma FlowInit(g: Graph, workers: nat)
    requires WellWired(g)
    ensures AllSized(g, Init(g, workers)) && FlowsOk(g, Init(g, workers))
  {
    var s := Init(g, workers);
    ShapeInit(g, workers);
    ShapeSized(g, s);
    forall e: nat | IsEdge(g, e) ensures FlowOk(g, s, e) {
      EdgeFacts(g, e);
      forall t: nat | t < |s.threads| ensures Owed(g, s.threads[t], e) == [] {
        assert t > 0 ==> s.threads[t] == Thread(Resting, NoMid, NoLeaf);
      }
    }
  }
}
