/** Every engine step keeps the sealing invariants. */
module EngineSealSteps {
  import opened Timestamps
  import opened StreamState
  import opened RunQueueState
  import opened Graphs
  import opened Engine
  import opened EngineShape
  import opened EngineAccounting
  import opened EngineSources
  import opened EngineFlow
  import opened EngineSeal

  // Program points with no output of their own: nothing planned, nothing owed.
  predicate Plain(o: Outer) {
    !o.Post? && !o.PostShut? && !(o.Drop? && o.action == CloseNow) && !o.CloseOut? && !o.CloseMark? && !o.AppCount?
  }

  lemma SealPlain(g: Graph, s: State, s': State, t: nat)
    requires WellWired(g) && Steady(g, s, s', t)
    requires s'.sealed == s.sealed && s'.closed == s.closed && s'.bound == s.bound
    requires forall e: nat {:trigger s'.edges[e]} :: IsEdge(g, e) ==> s'.edges[e].bound == s.edges[e].bound
    requires Plain(s.threads[t].outer) && Plain(s'.threads[t].outer)
    requires s'.threads[t].mid.NoMid? || s'.threads[t].mid.Idle?
    ensures SealOk(g, s')
  {
    hide WellWired, SealOk;
    SealQuiet(g, s, s', t);
  }

  // Only the thread's leaf or HandleIdle stage changed.
  lemma SealSameOuter(g: Graph, s: State, s': State, t: nat)
    requires WellWired(g) && Steady(g, s, s', t)
    requires s'.sealed == s.sealed && s'.closed == s.closed && s'.bound == s.bound && s'.edges == s.edges
    requires s'.threads[t].outer == s.threads[t].outer
    requires s'.threads[t].mid == s.threads[t].mid || ((s'.threads[t].mid.Idle? || s'.threads[t].mid.NoMid?) && s.threads[t].mid.Idle?)
    ensures SealOk(g, s')
  {
    assert PlanOk(g, s, t);
    hide WellWired, SealOk;
    SealQuiet(g, s, s', t);
  }

  lemma SealCollect(g: Graph, s: State, t: nat, c: Choice)
    requires WellWired(g) && Shape(g, s) && AllSized(g, s) && SealOk(g, s) && OuterPoint(g, s, t, c)
    requires var o := s.threads[t].outer; o.Collect?
    requires AllSized(g, OuterStep(g, s, t, c))
    ensures SealOk(g, OuterStep(g, s, t, c))
  {
    assert ThreadOk(g, s, t);
    hide Shape, SealOk, WellWired;
    SealPlain(g, s, OuterStep(g, s, t, c), t);
  }

  lemma SealTail(g: Graph, s: State, t: nat, c: Choice)
    requires WellWired(g) && Shape(g, s) && AllSized(g, s) && SealOk(g, s) && OuterPoint(g, s, t, c)
    requires var o := s.threads[t].outer; o.Scan? || o.Buffered? || o.Again? || o.Recheck?
    requires AllSized(g, OuterStep(g, s, t, c))
    ensures SealOk(g, OuterStep(g, s, t, c))
  {
    assert ThreadOk(g, s, t);
    hide Shape, SealOk, WellWired;
    SealPlain(g, s, OuterStep(g, s, t, c), t);
  }

  lemma SealEnds(g: Graph, s: State, t: nat, c: Choice)
    requires WellWired(g) && Shape(g, s) && AllSized(g, s) && SealOk(g, s) && OuterPoint(g, s, t, c)
    requires var o := s.threads[t].outer; o.Resting? || o.Fetch? || o.Missed? || o.Finish?
    requires AllSized(g, OuterStep(g, s, t, c))
    ensures SealOk(g, OuterStep(g, s, t, c))
  {
    assert ThreadOk(g, s, t);
    hide Shape, SealOk, WellWired;
    SealPlain(g, s, OuterStep(g, s, t, c), t);
  }

  lemma SealStops(g: Graph, s: State, t: nat, c: Choice)
    requires WellWired(g) && Shape(g, s) && AllSized(g, s) && SealOk(g, s) && OuterPoint(g, s, t, c)
    requires var o := s.threads[t].outer; o.StopDrop? || o.StopErase?
    requires AllSized(g, OuterStep(g, s, t, c))
    ensures SealOk(g, OuterStep(g, s, t, c))
  {
    assert ThreadOk(g, s, t);
    hide Shape, SealOk, WellWired;
    SealPlain(g, s, OuterStep(g, s, t, c), t);
  }

  lemma SealApp(g: Graph, s: State, t: nat, c: Choice)
    requires WellWired(g) && Shape(g, s) && AllSized(g, s) && SealOk(g, s) && OuterPoint(g, s, t, c)
    requires var o := s.threads[t].outer; IsApp(o) && !o.AppReady? && !o.AppCount?
    requires AllSized(g, OuterStep(g, s, t, c))
    ensures SealOk(g, OuterStep(g, s, t, c))
  {
    assert ThreadOk(g, s, t);
    hide Shape, SealOk, WellWired;
    SealPlain(g, s, OuterStep(g, s, t, c), t);
  }

  lemma SealCount(g: Graph, s: State, t: nat, c: Choice)
    requires WellWired(g) && Shape(g, s) && AllSized(g, s) && SealOk(g, s) && OuterPoint(g, s, t, c)
    requires s.threads[t].outer.AppCount? || s.threads[t].outer.Drop? || (s.threads[t].outer.CloseOut? && s.threads[t].outer.k >= |g.outs[s.threads[t].outer.v]|)
    requires AllSized(g, OuterStep(g, s, t, c))
    ensures SealOk(g, OuterStep(g, s, t, c))
  {
    assert ThreadOk(g, s, t) && PlanOk(g, s, t);
    var s' := OuterStep(g, s, t, c);
    hide Shape, SealOk;
    SealQuiet(g, s, s', t);
  }

  lemma SealPostSkip(g: Graph, s: State, t: nat, c: Choice)
    requires WellWired(g) && Shape(g, s) && AllSized(g, s) && SealOk(g, s) && OuterPoint(g, s, t, c) && s.threads[t].outer.Post?
    requires var o := s.threads[t].outer; o.k >= |g.outs[o.v]| || s.closed[OutStream(g, o.v, o.k)]
    requires AllSized(g, OuterStep(g, s, t, c))
    ensures SealOk(g, OuterStep(g, s, t, c))
  {
    assert ThreadOk(g, s, t) && PlanOk(g, s, t);
    var s' := OuterStep(g, s, t, c);
    var o := s.threads[t].outer;
    assert o.k < |g.outs[o.v]| ==> IsOutput(g, o.v, o.k);
    forall q: nat | IsStream(g, q) && PendingClose(g, o, q) ensures PendingClose(g, s'.threads[t].outer, q) || s.closed[q] {
      assert OutStream(g, o.v, g.opos[q]) == q;
    }
    forall e: nat | IsEdge(g, e) ensures Owed(g, s'.threads[t], e) == Owed(g, s.threads[t], e) {
      assert Owns(g, o.v, g.src[e]) ==> OutStream(g, o.v, g.opos[g.src[e]]) == g.src[e];
    }
    forall e: nat | IsEdge(g, e) && OwesDone(g, s.queue.finalized, s.threads[t], e) ensures OwesDone(g, s'.queue.finalized, s'.threads[t], e) {
      assert Owns(g, o.v, g.src[e]) ==> OutStream(g, o.v, g.opos[g.src[e]]) == g.src[e];
    }
    hide Shape, SealOk;
    SealQuiet(g, s, s', t);
  }

  // Entering a broadcast moves the stream's own bound; the thread's debts stay the same.
  lemma SealStart(g: Graph, s: State, s': State, t: nat, q0: nat)
    requires WellWired(g) && Steady(g, s, s', t) && IsStream(g, q0)
    requires s'.sealed == s.sealed && s'.closed == s.closed && s'.edges == s.edges
    requires forall q: nat {:trigger s'.bound[q]} :: IsStream(g, q) && q != q0 ==> s'.bound[q] == s.bound[q]
    requires s'.bound[q0] == DONE ==> q0 in s.sealed
    requires PlanOk(g, s', t)
    requires forall q: nat {:trigger PendingClose(g, s.threads[t].outer, q)} ::
      IsStream(g, q) && PendingClose(g, s.threads[t].outer, q) ==> PendingClose(g, s'.threads[t].outer, q)
    requires forall e: nat {:trigger Owed(g, s'.threads[t], e)} :: IsEdge(g, e) && s.edges[e].bound == DONE ==>
      Owed(g, s'.threads[t], e) == []
    requires forall e: nat {:trigger OwesDone(g, s.queue.finalized, s.threads[t], e)} ::
      IsEdge(g, e) && OwesDone(g, s.queue.finalized, s.threads[t], e) ==> OwesDone(g, s'.queue.finalized, s'.threads[t], e)
    ensures SealOk(g, s')
  {
    forall e: nat | IsEdge(g, e) ensures EdgeMoves(g, s, s', t, e) {
      assert s.edges[e].bound == DONE ==> Owed(g, s'.threads[t], e) == [];
    }
    SealFrame(g, s, s', t);
  }

  lemma SealPost(g: Graph, s: State, t: nat, c: Choice)
    requires WellWired(g) && Shape(g, s) && AllSized(g, s) && SealOk(g, s) && OuterPoint(g, s, t, c) && s.threads[t].outer.Post?
    requires var o := s.threads[t].outer; o.k < |g.outs[o.v]| && !s.closed[OutStream(g, o.v, o.k)]
    requires AllSized(g, OuterStep(g, s, t, c))
    ensures SealOk(g, OuterStep(g, s, t, c))
  {
    assert ThreadOk(g, s, t) && PlanOk(g, s, t);
    var s' := OuterStep(g, s, t, c);
    var o := s.threads[t].outer;
    assert IsOutput(g, o.v, o.k);
    var q0 := OutStream(g, o.v, o.k);
    assert StreamSealed(g, s, q0);
    forall e: nat | IsEdge(g, e) && s.edges[e].bound == DONE ensures Owed(g, s'.threads[t], e) == [] {
      assert EdgeSealed(g, s, e) && Owed(g, s.threads[t], e) == [];
      EdgeFacts(g, e);
    }
    hide Shape, SealOk, Ended;
    SealStart(g, s, s', t, q0);
  }

  lemma SealCloseOut(g: Graph, s: State, t: nat, c: Choice)
    requires WellWired(g) && Shape(g, s) && AllSized(g, s) && SealOk(g, s) && OuterPoint(g, s, t, c) && s.threads[t].outer.CloseOut? && s.threads[t].outer.k < |g.outs[s.threads[t].outer.v]|
    requires AllSized(g, OuterStep(g, s, t, c))
    ensures SealOk(g, OuterStep(g, s, t, c))
  {
    assert ThreadOk(g, s, t) && PlanOk(g, s, t);
    var s' := OuterStep(g, s, t, c);
    var o := s.threads[t].outer;
    assert IsOutput(g, o.v, o.k) && NodeSealed(g, s, o.v);
    hide Shape, SealOk, Ended;
    SealStart(g, s, s', t, OutStream(g, o.v, o.k));
  }

  // Marking a sealed stream closed keeps every other run's plan honest.
  lemma PlansUnderClose(g: Graph, s: State, s': State, t: nat, q0: nat)
    requires WellWired(g) && SingleFlight(g) && Shape(g, s) && AccOk(g, s) && Steady(g, s, s', t) && IsStream(g, q0)
    requires forall q: nat {:trigger s'.closed[q]} :: IsStream(g, q) && q != q0 ==> s'.closed[q] == s.closed[q]
    requires Produces(g, s.threads[t], q0) || (g.owner[q0].Some? && g.owner[q0].value in s.queue.finalized)
    ensures forall u: nat {:trigger PlanOk(g, s', u)} :: u < |s.threads| && u != t ==> PlanOk(g, s', u)
  {
    forall u: nat | u < |s.threads| && u != t ensures PlanOk(g, s', u) {
      assert PlanOk(g, s, u) && ThreadOk(g, s, u) && s'.threads[u] == s.threads[u];
      var o := s.threads[u].outer;
      if (o.Post? || o.PostShut?) && Owns(g, o.v, q0) && Produces(g, s.threads[t], q0) {
        OneProducer(g, s, q0, t, u);
      }
    }
  }

  lemma SealClosing(g: Graph, s: State, s': State, t: nat, q0: nat)
    requires WellWired(g) && SingleFlight(g) && Shape(g, s) && AccOk(g, s) && Steady(g, s, s', t) && IsStream(g, q0)
    requires s'.edges == s.edges && q0 in s'.sealed && s'.closed[q0] && s'.sealed <= s.sealed + {q0}
    requires forall q: nat {:trigger s'.closed[q]} :: IsStream(g, q) && q != q0 ==> s'.closed[q] == s.closed[q]
    requires forall q: nat {:trigger s'.bound[q]} :: IsStream(g, q) && q != q0 ==> s'.bound[q] == s.bound[q]
    requires Produces(g, s.threads[t], q0) || (g.owner[q0].Some? && g.owner[q0].value in s.queue.finalized)
    requires PlanOk(g, s', t)
    requires forall q: nat {:trigger PendingClose(g, s.threads[t].outer, q)} ::
      IsStream(g, q) && PendingClose(g, s.threads[t].outer, q) ==> PendingClose(g, s'.threads[t].outer, q) || q == q0
    requires forall e: nat {:trigger Owed(g, s'.threads[t], e)} :: IsEdge(g, e) ==>
      Owed(g, s'.threads[t], e) == [] || Owed(g, s'.threads[t], e) == Owed(g, s.threads[t], e)
    requires forall e: nat {:trigger OwesDone(g, s.queue.finalized, s.threads[t], e)} ::
      IsEdge(g, e) && OwesDone(g, s.queue.finalized, s.threads[t], e) ==> OwesDone(g, s'.queue.finalized, s'.threads[t], e)
    requires q0 !in s.sealed ==> forall e: nat {:trigger OwesDone(g, s'.queue.finalized, s'.threads[t], e)} ::
      IsEdge(g, e) && g.src[e] == q0 ==> OwesDone(g, s'.queue.finalized, s'.threads[t], e)
    ensures SealOk(g, s')
  {
    PlansUnderClose(g, s, s', t, q0);
    hide Shape, AccOk, SingleFlight;
    forall e: nat | IsEdge(g, e) ensures EdgeMoves(g, s, s', t, e) {
      assert EdgeSealed(g, s, e);
      assert s.edges[e].bound == DONE ==> Owed(g, s.threads[t], e) == [];
    }
    forall q: nat | IsStream(g, q) ensures StreamMoves(g, s, s', t, q) {
      assert StreamSealed(g, s, q);
    }
    SealFrame(g, s, s', t);
  }

  lemma SealPostShut(g: Graph, s: State, t: nat, c: Choice)
    requires SingleFlight(g) && WellWired(g) && Shape(g, s) && AllSized(g, s) && SealOk(g, s) && AccOk(g, s) && OuterPoint(g, s, t, c) && s.threads[t].outer.PostShut?
    requires AllSized(g, OuterStep(g, s, t, c))
    ensures SealOk(g, OuterStep(g, s, t, c))
  {
    assert ThreadOk(g, s, t) && PlanOk(g, s, t);
    var s' := OuterStep(g, s, t, c);
    var o := s.threads[t].outer;
    assert IsOutput(g, o.v, o.k);
    var q0 := OutStream(g, o.v, o.k);
    if o.outs[o.k].close && !s.closed[q0] {
      PostShutKeeps(g, s, t, c);
      PostShutPlan(g, s, t, c);
      hide Shape, SealOk, AccOk, OuterStep;
      SealClosing(g, s, s', t, q0);
    } else {
      PostShutKeeps(g, s, t, c);
      PostShutPlan(g, s, t, c);
      hide Shape, SealOk, AccOk, OuterOk;
      SealQuiet(g, s, s', t);
    }
  }

  lemma PostShutKeeps(g: Graph, s: State, t: nat, c: Choice)
    requires WellWired(g) && Shape(g, s) && AllSized(g, s) && SealOk(g, s) && OuterPoint(g, s, t, c) && s.threads[t].outer.PostShut?
    requires AllSized(g, OuterStep(g, s, t, c))
    ensures var s' := OuterStep(g, s, t, c); var o := s.threads[t].outer;
      && IsOutput(g, o.v, o.k)
      && (forall q: nat {:trigger PendingClose(g, o, q)} :: IsStream(g, q) && PendingClose(g, o, q) ==>
            PendingClose(g, s'.threads[t].outer, q) || (s'.closed[OutStream(g, o.v, o.k)] && q == OutStream(g, o.v, o.k)))
      && (forall e: nat {:trigger Owed(g, s'.threads[t], e)} :: IsEdge(g, e) ==> Owed(g, s'.threads[t], e) == Owed(g, s.threads[t], e))
      && (forall e: nat {:trigger OwesDone(g, s.queue.finalized, s.threads[t], e)} ::
            IsEdge(g, e) && OwesDone(g, s.queue.finalized, s.threads[t], e) ==> OwesDone(g, s'.queue.finalized, s'.threads[t], e))
  {
    assert ThreadOk(g, s, t) && PlanOk(g, s, t);
    var s' := OuterStep(g, s, t, c);
    var o := s.threads[t].outer;
    assert IsOutput(g, o.v, o.k);
    var q0 := OutStream(g, o.v, o.k);
    assert PlanAt(g, s, o.v, o.outs[o.k], q0);
    assert s'.closed[q0] || !o.outs[o.k].close;
    hide Shape, SealOk, ThreadOk, PlanOk;
    forall q: nat | IsStream(g, q) && PendingClose(g, o, q)
      ensures PendingClose(g, s'.threads[t].outer, q) || (s'.closed[q0] && q == q0)
    {
      assert OutStream(g, o.v, g.opos[q]) == q;
    }
    forall e: nat | IsEdge(g, e) && OwesDone(g, s.queue.finalized, s.threads[t], e)
      ensures OwesDone(g, s'.queue.finalized, s'.threads[t], e)
    {
      assert Owns(g, o.v, g.src[e]) ==> OutStream(g, o.v, g.opos[g.src[e]]) == g.src[e];
    }
  }

  lemma PostShutPlan(g: Graph, s: State, t: nat, c: Choice)
    requires WellWired(g) && Shape(g, s) && AllSized(g, s) && SealOk(g, s) && OuterPoint(g, s, t, c) && s.threads[t].outer.PostShut?
    requires AllSized(g, OuterStep(g, s, t, c))
    ensures PlanOk(g, OuterStep(g, s, t, c), t)
  {
    assert ThreadOk(g, s, t) && PlanOk(g, s, t);
    var s' := OuterStep(g, s, t, c);
    var o := s.threads[t].outer;
    assert IsOutput(g, o.v, o.k);
    var q0 := OutStream(g, o.v, o.k);
    hide Shape, SealOk;
    forall i: nat | IsOutput(g, o.v, i) && o.k < i ensures PlanAt(g, s', o.v, o.outs[i], OutStream(g, o.v, i)) {
      assert PlanAt(g, s, o.v, o.outs[i], OutStream(g, o.v, i));
    }
  }

  lemma SealCloseMark(g: Graph, s: State, t: nat, c: Choice)
    requires SingleFlight(g) && WellWired(g) && Shape(g, s) && AllSized(g, s) && SealOk(g, s) && AccOk(g, s) && OuterPoint(g, s, t, c) && s.threads[t].outer.CloseMark?
    requires AllSized(g, OuterStep(g, s, t, c))
    ensures SealOk(g, OuterStep(g, s, t, c))
  {
    assert ThreadOk(g, s, t) && PlanOk(g, s, t);
    var s' := OuterStep(g, s, t, c);
    var o := s.threads[t].outer;
    assert IsOutput(g, o.v, o.k) && NodeSealed(g, s, o.v);
    var q0 := OutStream(g, o.v, o.k);
    hide Shape, SealOk, AccOk;
    SealClosing(g, s, s', t, q0);
  }

  lemma SealInject(g: Graph, s: State, t: nat, c: Choice)
    requires WellWired(g) && Shape(g, s) && AllSized(g, s) && SealOk(g, s) && OuterPoint(g, s, t, c) && s.threads[t].outer.AppReady? && c.Inject?
    requires AllSized(g, AppCall(g, s, t, c))
    ensures SealOk(g, AppCall(g, s, t, c))
  {
    assert ThreadOk(g, s, t) && PlanOk(g, s, t);
    var s' := AppCall(g, s, t, c);
    assert StreamSealed(g, s, c.g);
    assert c.g !in s.sealed;
    forall e: nat | IsEdge(g, e) && s.edges[e].bound == DONE ensures Owed(g, s'.threads[t], e) == [] {
      assert EdgeSealed(g, s, e);
    }
    hide Shape, SealOk;
    SealStart(g, s, s', t, c.g);
  }

  lemma SealAppReady(g: Graph, s: State, t: nat, c: Choice)
    requires SingleFlight(g) && WellWired(g) && Shape(g, s) && AllSized(g, s) && SealOk(g, s) && AccOk(g, s) && OuterPoint(g, s, t, c) && s.threads[t].outer.AppReady? && !c.Inject?
    requires AllSized(g, AppCall(g, s, t, c))
    ensures SealOk(g, AppCall(g, s, t, c))
  {
    assert ThreadOk(g, s, t) && PlanOk(g, s, t);
    var s' := AppCall(g, s, t, c);
    if c.CloseInput? {
      assert !s.closed[c.g];
      hide Shape, SealOk, AccOk;
      forall e: nat | IsEdge(g, e) && g.src[e] == c.g ensures OwesDone(g, s'.queue.finalized, s'.threads[t], e) {}
      SealClosing(g, s, s', t, c.g);
    } else {
      hide Shape, SealOk, AccOk;
      SealPlain(g, s, s', t);
    }
  }

  // ------------------------------------------------------------------ ending a stream

  // A run that may still emit works on streams that are not sealed.
  lemma SealedStaysQuiet(g: Graph, s: State, t: nat, c: Choice, q: nat)
    requires SingleFlight(g) && WellWired(g) && Shape(g, s) && AllSized(g, s) && SealOk(g, s) && AccOk(g, s) && SourcesOk(g, s) && OuterPoint(g, s, t, c) && s.threads[t].outer.Compute?
    requires !LateEmission(g, s, t, c) && Owns(g, s.threads[t].outer.v, q) && q in s.sealed
    ensures c.outs[g.opos[q]].pkts == [] && s.threads[t].outer.v !in s.stopped
  {
    var v := s.threads[t].outer.v;
    assert StreamSealed(g, s, q) && SourceOk(g, s, v) && ThreadOk(g, s, t);
    SumHasOne(Token(v), s.threads, t);
    assert IsOutput(g, v, g.opos[q]) && OutStream(g, v, g.opos[q]) == q;
    if !s.closed[q] && v !in s.queue.finalized {
      var u: nat :| u < |s.threads| && PendingClose(g, s.threads[u].outer, q);
      OnlyRunner(g, s, v, t, u);
      assert false;
    }
  }

  lemma SealCompute(g: Graph, s: State, t: nat, c: Choice)
    requires SingleFlight(g) && WellWired(g) && Shape(g, s) && AllSized(g, s) && SealOk(g, s) && AccOk(g, s) && SourcesOk(g, s) && OuterPoint(g, s, t, c) && s.threads[t].outer.Compute?
    requires !LateEmission(g, s, t, c) && AllSized(g, OuterStep(g, s, t, c))
    ensures SealOk(g, OuterStep(g, s, t, c))
  {
    var s' := OuterStep(g, s, t, c);
    var v := s.threads[t].outer.v;
    assert ThreadOk(g, s, t);
    ComputePlan(g, s, t, c);
    forall v': nat ensures NodeSealed(g, s', v') {
      assert NodeSealed(g, s, v');
    }
    forall q: nat | IsStream(g, q) ensures StreamSealed(g, s', q) {
      ComputeStream(g, s, t, c, q);
    }
    forall e: nat | IsEdge(g, e) ensures EdgeSealed(g, s', e) {
      ComputeEdge(g, s, t, c, e);
    }
  }

  lemma ComputePlan(g: Graph, s: State, t: nat, c: Choice)
    requires WellWired(g) && Shape(g, s) && AllSized(g, s) && SealOk(g, s) && OuterPoint(g, s, t, c) && s.threads[t].outer.Compute?
    requires !LateEmission(g, s, t, c) && AllSized(g, OuterStep(g, s, t, c))
    ensures forall u: nat {:trigger PlanOk(g, OuterStep(g, s, t, c), u)} :: u < |s.threads| ==> PlanOk(g, OuterStep(g, s, t, c), u)
  {
    var s' := OuterStep(g, s, t, c);
    forall u: nat | u < |s'.threads| ensures PlanOk(g, s', u) {
      assert PlanOk(g, s, u);
      if u != t {
        assert s'.threads[u] == s.threads[u];
      } else {
        var v := s.threads[t].outer.v;
        forall i: nat | IsOutput(g, v, i) ensures PlanAt(g, s', v, c.outs[i], OutStream(g, v, i)) {}
      }
    }
  }

  lemma ComputeStream(g: Graph, s: State, t: nat, c: Choice, q: nat)
    requires WellWired(g) && Shape(g, s) && AllSized(g, s) && SealOk(g, s) && OuterPoint(g, s, t, c) && s.threads[t].outer.Compute? && IsStream(g, q)
    requires AllSized(g, OuterStep(g, s, t, c))
    ensures StreamSealed(g, OuterStep(g, s, t, c), q)
  {
    var s' := OuterStep(g, s, t, c);
    assert StreamSealed(g, s, q);
    if q in s'.sealed && q !in s.sealed {
      assert c.stop || PendingClose(g, s'.threads[t].outer, q);
    }
    hide Shape, SealOk;
    StreamKept(g, s, s', t, q);
  }

  lemma ComputeEdge(g: Graph, s: State, t: nat, c: Choice, e: nat)
    requires SingleFlight(g) && WellWired(g) && Shape(g, s) && AllSized(g, s) && SealOk(g, s) && AccOk(g, s) && SourcesOk(g, s) && OuterPoint(g, s, t, c) && s.threads[t].outer.Compute?
    requires !LateEmission(g, s, t, c) && AllSized(g, OuterStep(g, s, t, c)) && IsEdge(g, e)
    ensures EdgeSealed(g, OuterStep(g, s, t, c), e)
  {
    var s' := OuterStep(g, s, t, c);
    var v := s.threads[t].outer.v;
    assert EdgeSealed(g, s, e) && NodeSealed(g, s, v);
    EdgeFacts(g, e);
    if Owns(g, v, g.src[e]) && g.src[e] in s.sealed {
      SealedStaysQuiet(g, s, t, c, g.src[e]);
    }
    hide Shape, SealOk, AccOk, SourcesOk;
    EdgeKept(g, s, s', t, e);
  }

  lemma SealDecide(g: Graph, s: State, t: nat, c: Choice)
    requires SingleFlight(g) && WellWired(g) && Shape(g, s) && AllSized(g, s) && SealOk(g, s) && AccOk(g, s) && OuterPoint(g, s, t, c) && s.threads[t].outer.Decide?
    requires AllSized(g, OuterStep(g, s, t, c))
    ensures SealOk(g, OuterStep(g, s, t, c))
  {
    var s' := OuterStep(g, s, t, c);
    var v := s.threads[t].outer.v;
    assert ThreadOk(g, s, t);
    if s'.queue.finalized == s.queue.finalized {
      hide Shape, SealOk, AccOk;
      SealPlain(g, s, s', t);
    } else {
      forall u: nat | u < |s'.threads| ensures PlanOk(g, s', u) {
        assert PlanOk(g, s, u);
        if u != t {
          assert s'.threads[u] == s.threads[u];
          if Runs(s.threads[u].outer, v) {
            OnlyRunner(g, s, v, t, u);
          }
        }
      }
      forall v': nat ensures NodeSealed(g, s', v') {
        assert NodeSealed(g, s, v');
      }
      forall q: nat | IsStream(g, q) ensures StreamSealed(g, s', q) {
        assert StreamSealed(g, s, q);
        StreamKept(g, s, s', t, q);
      }
      forall e: nat | IsEdge(g, e) ensures EdgeSealed(g, s', e) {
        DecideEdge(g, s, t, c, e);
      }
    }
  }

  // A newly finalized node's closing run is the one that owes Done to all its mirrors.
  lemma DecideEdge(g: Graph, s: State, t: nat, c: Choice, e: nat)
    requires WellWired(g) && Shape(g, s) && AllSized(g, s) && SealOk(g, s) && OuterPoint(g, s, t, c) && s.threads[t].outer.Decide?
    requires AllSized(g, OuterStep(g, s, t, c)) && IsEdge(g, e)
    requires OuterStep(g, s, t, c).queue.finalized != s.queue.finalized
    ensures EdgeSealed(g, OuterStep(g, s, t, c), e)
  {
    var s' := OuterStep(g, s, t, c);
    var v := s.threads[t].outer.v;
    assert EdgeSealed(g, s, e) && ThreadOk(g, s, t);
    hide Shape, SealOk;
    if s'.edges[e].bound == DONE {
      forall u: nat | u < |s'.threads| ensures Owed(g, s'.threads[u], e) == [] {
        assert u != t ==> s'.threads[u] == s.threads[u];
        assert Owed(g, s.threads[u], e) == [];
      }
    } else if Owns(g, v, g.src[e]) {
      assert OwesDone(g, s'.queue.finalized, s'.threads[t], e);
    } else if g.src[e] in s'.sealed {
      var u: nat :| u < |s.threads| && OwesDone(g, s.queue.finalized, s.threads[u], e);
      assert u != t && s'.threads[u] == s.threads[u];
      assert OwesDone(g, s'.queue.finalized, s'.threads[u], e);
    }
  }

  lemma SealOuter(g: Graph, s: State, t: nat, c: Choice)
    requires SingleFlight(g) && WellWired(g) && Shape(g, s) && AllSized(g, s) && AccOk(g, s) && SourcesOk(g, s) && SealOk(g, s)
    requires OuterPoint(g, s, t, c) && !LateEmission(g, s, t, c)
    requires Sized(g, OuterStep(g, s, t, c)) && AllSized(g, OuterStep(g, s, t, c))
    ensures SealOk(g, OuterStep(g, s, t, c))
  {
    hide Shape, AccOk, SourcesOk, SealOk, AppCall, LateEmission;
    match s.threads[t].outer
    case Collect(_, _, _) => SealCollect(g, s, t, c);
    case Scan(_, _, _) => SealTail(g, s, t, c);
    case Buffered(_, _, _) => SealTail(g, s, t, c);
    case Again(_, _) => SealTail(g, s, t, c);
    case Recheck(_, _) => SealTail(g, s, t, c);
    case Resting => SealEnds(g, s, t, c);
    case Fetch => SealEnds(g, s, t, c);
    case Missed => SealEnds(g, s, t, c);
    case Finish => SealEnds(g, s, t, c);
    case StopDrop(_) => SealStops(g, s, t, c);
    case StopErase(_) => SealStops(g, s, t, c);
    case Drop(_, _) => SealCount(g, s, t, c);
    case AppCount(_) => SealCount(g, s, t, c);
    case CloseOut(v, k, _) => if k >= |g.outs[v]| { SealCount(g, s, t, c); } else { SealCloseOut(g, s, t, c); }
    case CloseMark(_, _, _) => SealCloseMark(g, s, t, c);
    case Post(v, _, _, k, _) =>
      if k >= |g.outs[v]| || s.closed[OutStream(g, v, k)] { SealPostSkip(g, s, t, c); } else { SealPost(g, s, t, c); }
    case PostShut(_, _, _, _, _) => SealPostShut(g, s, t, c);
    case Compute(_, _) => SealCompute(g, s, t, c);
    case Decide(_, _, _) => SealDecide(g, s, t, c);
    case AppReady => if c.Inject? { SealInject(g, s, t, c); } else { SealAppReady(g, s, t, c); }
    case _ => SealApp(g, s, t, c);
  }

  lemma SealStep(g: Graph, s: State, t: nat, c: Choice)
    requires SingleFlight(g) && WellWired(g) && Shape(g, s) && AllSized(g, s) && AccOk(g, s) && SourcesOk(g, s) && SealOk(g, s)
    requires Enabled(g, s, t, c) && !LateEmission(g, s, t, c) && AllSized(g, Step(g, s, t, c)) && Sized(g, Step(g, s, t, c))
    ensures SealOk(g, Step(g, s, t, c))
  {
    var m := s.threads[t].mid;
    if s.threads[t].leaf != NoLeaf {
      hide Shape, AccOk, SourcesOk, SealOk, LateEmission;
      SealSameOuter(g, s, Step(g, s, t, c), t);
    } else if m.Propagate? {
      if m.j < |g.mirrors[m.q]| && m.sent {
        SealRaise(g, s, t);
      } else {
        SealPropagateDeliver(g, s, t);
      }
    } else if m.Shut? {
      SealShut(g, s, t);
    } else if m.Idle? {
      IdleStays(g, s, t, c);
      hide Shape, AccOk, SourcesOk, SealOk, LateEmission, IdleStep;
      SealSameOuter(g, s, Step(g, s, t, c), t);
    } else {
      SealOuter(g, s, t, c);
    }
  }

  lemma IdleStays(g: Graph, s: State, t: nat, c: Choice)
    requires WellWired(g) && Sized(g, s) && t < |s.threads| && s.threads[t].mid.Idle?
    ensures var m := IdleStep(g, s, t, c).threads[t].mid; m.Idle? || m.NoMid?
  {
  }

  lemma SkipIsEmpty(g: Graph, s: State, t: nat)
    requires WellWired(g) && Shape(g, s) && AllSized(g, s) && SealOk(g, s) && t < |s.threads|
    ensures OuterOk(g, s.threads[t].outer) && SkipsNothing(g, s, t)
  {
    assert ThreadOk(g, s, t) && PlanOk(g, s, t);
    var o := s.threads[t].outer;
    if o.Post? && o.k < |g.outs[o.v]| {
      assert IsOutput(g, o.v, o.k);
    }
  }

  lemma SealInit(g: Graph, workers: nat)
    requires WellWired(g)
    ensures AllSized(g, Init(g, workers)) && SealOk(g, Init(g, workers))
  {
    var s := Init(g, workers);
    FlowInit(g, workers);
    forall t: nat | t < |s.threads| ensures PlanOk(g, s, t) {
      assert t > 0 ==> s.threads[t] == Thread(Resting, NoMid, NoLeaf);
    }
    forall e: nat | IsEdge(g, e) ensures EdgeSealed(g, s, e) {
      assert FlowOk(g, s, e);
    }
  }
}
