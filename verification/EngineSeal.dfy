/** Done is final: a stream whose producer announced its end carries nothing more, and every mirror
    that does not show Done yet has a thread on its way to tell it. */
module EngineSeal {
  import opened Timestamps
  import opened StreamState
  import opened RunQueueState
  import opened Graphs
  import opened Engine
  import opened EngineShape
  import opened EngineAccounting
  import opened EngineSources
  import opened EngineFlow

  // What a run may still do with one of its output shards.
  ghost predicate PlanAt(g: Graph, s: State, v: nat, o: Out, q: nat)
    requires q < |s.closed|
  {
    && (o.close ==> q in s.sealed)
    && (o.updated == DONE ==> o.close)
    && (v in s.queue.finalized ==> o.pkts == [])
    && (s.closed[q] ==> o.pkts == [] && (v in s.queue.finalized || !o.close))
  }

  ghost predicate PlansFrom(g: Graph, s: State, v: nat, outs: seq<Out>, k: nat)
    requires WellWired(g) && Sized(g, s) && v < |g.outs| && |outs| == |g.outs[v]|
  {
    forall i: nat {:trigger IsOutput(g, v, i)} :: IsOutput(g, v, i) && k <= i ==> PlanAt(g, s, v, outs[i], OutStream(g, v, i))
  }

  ghost predicate PlanOk(g: Graph, s: State, t: nat)
    requires WellWired(g) && Sized(g, s) && t < |s.threads| && OuterSized(g, s.threads[t].outer)
  {
    var th := s.threads[t];
    && (th.mid.Propagate? && th.mid.nb == DONE ==> th.mid.q in s.sealed)
    && (th.mid.Shut? ==> th.mid.q in s.sealed)
    && (match th.outer
        case Post(v, outs, _, k, _) => PlansFrom(g, s, v, outs, k)
        case PostShut(v, outs, _, k, _) => PlansFrom(g, s, v, outs, k)
        case _ => true)
  }

  ghost predicate NodeSealed(g: Graph, s: State, v: nat)
    requires WellWired(g)
  {
    v in s.queue.finalized || v in s.stopped ==> OutputsOf(g, v) <= s.sealed
  }

  predicate PendingClose(g: Graph, o: Outer, q: nat)
    requires WellWired(g) && IsStream(g, q) && OuterSized(g, o)
  {
    match o
    case Post(v, outs, _, k, _) => Owns(g, v, q) && k <= g.opos[q] && outs[g.opos[q]].close
    case PostShut(v, outs, _, k, _) => Owns(g, v, q) && k <= g.opos[q] && outs[g.opos[q]].close
    case _ => false
  }

  // Why no producer will add to a sealed stream.
  ghost predicate Ended(g: Graph, s: State, q: nat)
    requires WellWired(g) && Sized(g, s) && IsStream(g, q) && AllSized(g, s)
  {
    || s.closed[q]
    || (g.owner[q].Some? && (g.owner[q].value in s.queue.finalized || g.owner[q].value in s.stopped))
    || exists t: nat {:trigger s.threads[t]} :: t < |s.threads| && PendingClose(g, s.threads[t].outer, q)
  }

  ghost predicate StreamSealed(g: Graph, s: State, q: nat)
    requires WellWired(g) && Sized(g, s) && IsStream(g, q) && AllSized(g, s)
  {
    && (s.bound[q] == DONE || s.closed[q] ==> q in s.sealed)
    && (q in s.sealed ==> Ended(g, s, q))
  }

  // The thread is bound to send Done to edge `e`.
  ghost predicate OwesDone(g: Graph, fin: set<nat>, th: Thread, e: nat)
    requires WellWired(g) && IsEdge(g, e) && OuterSized(g, th.outer)
  {
    var q := g.src[e];
    match th.outer
    case Post(v, outs, stop, k, _) =>
      || (Owns(g, v, q) && (stop || (v !in fin && k <= g.opos[q] && outs[g.opos[q]].close)))
      || ShutOwes(g, th.mid, e)
    case PostShut(v, outs, stop, k, _) =>
      Owns(g, v, q) && (stop || (v !in fin && k <= g.opos[q] && outs[g.opos[q]].close))
    case Drop(v, a) => a == CloseNow && Owns(g, v, q)
    case CloseOut(v, k, _) => Owns(g, v, q) && k <= g.opos[q]
    case CloseMark(v, k, _) =>
      Owns(g, v, q) && (k < g.opos[q] || (k == g.opos[q] && th.mid.Propagate? && th.mid.j <= g.mpos[e]))
    case AppCount(_) => ShutOwes(g, th.mid, e)
    case _ => false
  }

  predicate ShutOwes(g: Graph, m: Mid, e: nat)
    requires WellWired(g) && IsEdge(g, e)
  {
    m.Shut? && m.q == g.src[e] && m.j <= g.mpos[e]
  }

  ghost predicate EdgeSealed(g: Graph, s: State, e: nat)
    requires WellWired(g) && Sized(g, s) && IsEdge(g, e) && AllSized(g, s)
  {
    && (s.edges[e].bound == DONE ==> g.src[e] in s.sealed && NoneOwed(g, s, e))
    && (g.src[e] in s.sealed && s.edges[e].bound != DONE ==>
          exists t: nat {:trigger s.threads[t]} :: t < |s.threads| && OwesDone(g, s.queue.finalized, s.threads[t], e))
  }

  ghost predicate SealOk(g: Graph, s: State)
    requires WellWired(g) && Sized(g, s) && AllSized(g, s)
  {
    && (forall t: nat {:trigger PlanOk(g, s, t)} :: t < |s.threads| ==> PlanOk(g, s, t))
    && (forall v: nat {:trigger NodeSealed(g, s, v)} :: NodeSealed(g, s, v))
    && (forall q: nat {:trigger StreamSealed(g, s, q)} :: IsStream(g, q) ==> StreamSealed(g, s, q))
    && (forall e: nat {:trigger EdgeSealed(g, s, e)} :: IsEdge(g, e) ==> EdgeSealed(g, s, e))
  }

  // ------------------------------------------------------------------ frames

  ghost predicate StreamMoves(g: Graph, s: State, s': State, t: nat, q: nat)
    requires WellWired(g) && Sized(g, s) && Sized(g, s') && AllSized(g, s) && AllSized(g, s') && IsStream(g, q)
    requires t < |s.threads| == |s'.threads|
  {
    && (s.closed[q] ==> s'.closed[q])
    && (s'.closed[q] && !s.closed[q] ==> q in s'.sealed)
    && (s'.bound[q] == DONE && s.bound[q] != DONE ==> q in s'.sealed)
    && (q in s'.sealed && q !in s.sealed ==> Ended(g, s', q))
    && (PendingClose(g, s.threads[t].outer, q) ==> PendingClose(g, s'.threads[t].outer, q) || s'.closed[q])
  }

  ghost predicate EdgeMoves(g: Graph, s: State, s': State, t: nat, e: nat)
    requires WellWired(g) && Sized(g, s) && Sized(g, s') && AllSized(g, s) && AllSized(g, s') && IsEdge(g, e)
    requires t < |s.threads| == |s'.threads|
  {
    && s'.edges[e].bound == s.edges[e].bound
    && (s.edges[e].bound == DONE ==> Owed(g, s'.threads[t], e) == [])
    && (OwesDone(g, s.queue.finalized, s.threads[t], e) && s.edges[e].bound != DONE ==>
          OwesDone(g, s'.queue.finalized, s'.threads[t], e))
    && (g.src[e] in s'.sealed && g.src[e] !in s.sealed ==> OwesDone(g, s'.queue.finalized, s'.threads[t], e))
  }

  lemma StreamKept(g: Graph, s: State, s': State, t: nat, q: nat)
    requires WellWired(g) && Sized(g, s) && Sized(g, s') && AllSized(g, s) && AllSized(g, s') && IsStream(g, q)
    requires OthersSame(s, s', t) && t < |s.threads| && StreamSealed(g, s, q) && StreamMoves(g, s, s', t, q)
    requires s.sealed <= s'.sealed && s.queue.finalized <= s'.queue.finalized && s.stopped <= s'.stopped
    ensures StreamSealed(g, s', q)
  {
    if q in s.sealed && !s'.closed[q] && exists u: nat {:trigger s.threads[u]} :: u < |s.threads| && PendingClose(g, s.threads[u].outer, q) {
      var u: nat :| u < |s.threads| && PendingClose(g, s.threads[u].outer, q);
      assert u != t ==> s'.threads[u] == s.threads[u];
      assert PendingClose(g, s'.threads[u].outer, q);
    }
  }

  lemma EdgeKept(g: Graph, s: State, s': State, t: nat, e: nat)
    requires WellWired(g) && Sized(g, s) && Sized(g, s') && AllSized(g, s) && AllSized(g, s') && IsEdge(g, e)
    requires OthersSame(s, s', t) && t < |s.threads| && EdgeSealed(g, s, e) && EdgeMoves(g, s, s', t, e)
    requires s.sealed <= s'.sealed && s'.queue.finalized == s.queue.finalized
    ensures EdgeSealed(g, s', e)
  {
    if s'.edges[e].bound == DONE {
      forall u: nat | u < |s'.threads| ensures Owed(g, s'.threads[u], e) == [] {
        assert u != t ==> s'.threads[u] == s.threads[u];
        assert Owed(g, s.threads[u], e) == [];
      }
    } else if g.src[e] in s.sealed {
      var u: nat :| u < |s.threads| && OwesDone(g, s.queue.finalized, s.threads[u], e);
      assert u != t ==> s'.threads[u] == s.threads[u];
      assert OwesDone(g, s'.queue.finalized, s'.threads[u], e);
    } else if g.src[e] in s'.sealed {
      assert OwesDone(g, s'.queue.finalized, s'.threads[t], e);
    }
  }

  ghost predicate Steady(g: Graph, s: State, s': State, t: nat)
    requires WellWired(g)
  {
    && Sized(g, s) && Sized(g, s') && AllSized(g, s) && AllSized(g, s') && SealOk(g, s)
    && OthersSame(s, s', t) && t < |s.threads|
    && s.sealed <= s'.sealed && s'.queue.finalized == s.queue.finalized && s'.stopped == s.stopped
  }

  // The shared part of every step that finalizes no node and stops no source.
  lemma SealFrame(g: Graph, s: State, s': State, t: nat)
    requires WellWired(g) && Steady(g, s, s', t)
    requires PlanOk(g, s', t)
    requires forall u: nat {:trigger PlanOk(g, s', u)} :: u < |s.threads| && u != t && s'.closed != s.closed ==> PlanOk(g, s', u)
    requires forall q: nat {:trigger StreamMoves(g, s, s', t, q)} :: IsStream(g, q) ==> StreamMoves(g, s, s', t, q)
    requires forall e: nat {:trigger EdgeMoves(g, s, s', t, e)} :: IsEdge(g, e) ==> EdgeMoves(g, s, s', t, e)
    ensures SealOk(g, s')
  {
    forall u: nat | u < |s'.threads| ensures PlanOk(g, s', u) {
      assert PlanOk(g, s, u);
      if u != t {
        assert s'.threads[u] == s.threads[u];
      }
    }
    forall v: nat ensures NodeSealed(g, s', v) {
      assert NodeSealed(g, s, v);
    }
    forall q: nat | IsStream(g, q) ensures StreamSealed(g, s', q) {
      assert StreamSealed(g, s, q) && StreamMoves(g, s, s', t, q);
      StreamKept(g, s, s', t, q);
    }
    forall e: nat | IsEdge(g, e) ensures EdgeSealed(g, s', e) {
      assert EdgeSealed(g, s, e) && EdgeMoves(g, s, s', t, e);
      EdgeKept(g, s, s', t, e);
    }
  }

  // Steps that leave bounds and closed flags alone and keep the thread's own obligations.
  lemma SealQuiet(g: Graph, s: State, s': State, t: nat)
    requires WellWired(g) && Steady(g, s, s', t)
    requires s'.sealed == s.sealed && s'.closed == s.closed && s'.bound == s.bound
    requires forall e: nat {:trigger s'.edges[e]} :: IsEdge(g, e) ==> s'.edges[e].bound == s.edges[e].bound
    requires PlanOk(g, s', t)
    requires forall q: nat {:trigger PendingClose(g, s.threads[t].outer, q)} :: 
      IsStream(g, q) && PendingClose(g, s.threads[t].outer, q) ==> PendingClose(g, s'.threads[t].outer, q) || s.closed[q]
    requires forall e: nat {:trigger Owed(g, s'.threads[t], e)} :: IsEdge(g, e) ==>
      Owed(g, s'.threads[t], e) == [] || Owed(g, s'.threads[t], e) == Owed(g, s.threads[t], e)
    requires forall e: nat {:trigger OwesDone(g, s.queue.finalized, s.threads[t], e)} :: 
      IsEdge(g, e) && OwesDone(g, s.queue.finalized, s.threads[t], e) ==> OwesDone(g, s'.queue.finalized, s'.threads[t], e)
    ensures SealOk(g, s')
  {
    forall e: nat | IsEdge(g, e) ensures EdgeMoves(g, s, s', t, e) {
      assert EdgeSealed(g, s, e);
      assert s.edges[e].bound == DONE ==> Owed(g, s.threads[t], e) == [];
    }
    SealFrame(g, s, s', t);
  }

  // ------------------------------------------------------------------ steps

  // Runs of a finalized node hold no packets.
  lemma FinalizedOwesNothing(g: Graph, s: State, v: nat, e: nat)
    requires WellWired(g) && Shape(g, s) && AllSized(g, s) && SealOk(g, s) && IsEdge(g, e)
    requires v in s.queue.finalized && Owns(g, v, g.src[e])
    ensures NoneOwed(g, s, e)
  {
    assert IsOutput(g, v, g.opos[g.src[e]]);
    forall u: nat | u < |s.threads| ensures Owed(g, s.threads[u], e) == [] {
      assert ThreadOk(g, s, u) && PlanOk(g, s, u);
    }
  }

  // When a thread is about to show Done on an edge, nobody owes that edge a packet.
  lemma NobodyOwes(g: Graph, s: State, t: nat, e: nat)
    requires WellWired(g) && SingleFlight(g) && Shape(g, s) && AllSized(g, s) && AccOk(g, s) && SealOk(g, s)
    requires t < |s.threads| && IsEdge(g, e) && Owed(g, s.threads[t], e) == []
    requires var m := s.threads[t].mid; (m.Propagate? && m.nb == DONE && m.q == g.src[e]) || (m.Shut? && m.q == g.src[e])
    ensures NoneOwed(g, s, e)
  {
    assert ThreadOk(g, s, t);
    EdgeFacts(g, e);
    if Produces(g, s.threads[t], g.src[e]) {
      OthersOweNothing(g, s, t, e);
    } else {
      FinalizedOwesNothing(g, s, s.threads[t].outer.v, e);
    }
  }

  lemma SealPropagateDeliver(g: Graph, s: State, t: nat)
    requires WellWired(g) && Shape(g, s) && AllSized(g, s) && SealOk(g, s)
    requires t < |s.threads| && s.threads[t].leaf == NoLeaf && s.threads[t].mid.Propagate? && IsStream(g, s.threads[t].mid.q)
    requires var m := s.threads[t].mid; m.j < |g.mirrors[m.q]| ==> !m.sent
    requires AllSized(g, PropagateStep(g, s, t))
    ensures SealOk(g, PropagateStep(g, s, t))
  {
    var s' := PropagateStep(g, s, t);
    var m := s.threads[t].mid;
    assert ThreadOk(g, s, t) && PlanOk(g, s, t) && PlanOk(g, s', t);
    forall e: nat | IsEdge(g, e) && (m.pkts == [] || m.j >= |g.mirrors[m.q]| || e != MirrorEdge(g, m.q, m.j))
      ensures EdgeMoves(g, s, s', t, e)
    {
      assert EdgeSealed(g, s, e);
      assert s.edges[e].bound == DONE ==> Owed(g, s.threads[t], e) == [];
      EdgeFacts(g, e);
    }
    if m.j < |g.mirrors[m.q]| && m.pkts != [] {
      var e0 := MirrorEdge(g, m.q, m.j);
      assert Owed(g, s.threads[t], e0) == m.pkts;
      assert EdgeSealed(g, s, e0) && s.edges[e0].bound != DONE;
      hide ThreadOk, Shape, WellWired;
      SealFrameBut(g, s, s', t, e0);
    } else {
      hide ThreadOk, Shape, WellWired;
      SealFrame(g, s, s', t);
    }
  }

  // As SealFrame, for a step that moves the bound of one edge.
  lemma SealFrameBut(g: Graph, s: State, s': State, t: nat, e0: nat)
    requires WellWired(g) && Steady(g, s, s', t) && IsEdge(g, e0)
    requires s'.sealed == s.sealed && s'.closed == s.closed && s'.bound == s.bound
    requires PlanOk(g, s', t) && s'.threads[t].outer == s.threads[t].outer
    requires forall e: nat {:trigger EdgeMoves(g, s, s', t, e)} :: IsEdge(g, e) && e != e0 ==> EdgeMoves(g, s, s', t, e)
    requires s'.edges[e0].bound == DONE ==> g.src[e0] in s.sealed && NoneOwed(g, s, e0) && Owed(g, s'.threads[t], e0) == []
    requires s'.edges[e0].bound != DONE ==> s.edges[e0].bound != DONE
    requires s'.edges[e0].bound != DONE && OwesDone(g, s.queue.finalized, s.threads[t], e0) ==>
      OwesDone(g, s.queue.finalized, s'.threads[t], e0)
    ensures SealOk(g, s')
  {
    PlansSame(g, s, s', t);
    forall e: nat | IsEdge(g, e) ensures EdgeSealed(g, s', e) {
      assert EdgeSealed(g, s, e);
      if e != e0 {
        assert EdgeMoves(g, s, s', t, e);
        EdgeKept(g, s, s', t, e);
      } else if s'.edges[e].bound == DONE {
        forall u: nat | u < |s'.threads| ensures Owed(g, s'.threads[u], e) == [] {
          assert u != t ==> s'.threads[u] == s.threads[u];
          assert Owed(g, s.threads[u], e) == [];
        }
      } else if g.src[e] in s.sealed {
        var u: nat :| u < |s.threads| && OwesDone(g, s.queue.finalized, s.threads[u], e);
        assert u != t ==> s'.threads[u] == s.threads[u];
        assert OwesDone(g, s'.queue.finalized, s'.threads[u], e);
      }
    }
  }

  lemma PlansSame(g: Graph, s: State, s': State, t: nat)
    requires WellWired(g) && Steady(g, s, s', t)
    requires s'.sealed == s.sealed && s'.closed == s.closed && s'.bound == s.bound
    requires PlanOk(g, s', t) && s'.threads[t].outer == s.threads[t].outer
    ensures forall u: nat {:trigger PlanOk(g, s', u)} :: u < |s'.threads| ==> PlanOk(g, s', u)
    ensures forall v: nat {:trigger NodeSealed(g, s', v)} :: NodeSealed(g, s', v)
    ensures forall q: nat {:trigger StreamSealed(g, s', q)} :: IsStream(g, q) ==> StreamSealed(g, s', q)
  {
    forall u: nat | u < |s'.threads| ensures PlanOk(g, s', u) {
      assert PlanOk(g, s, u);
      if u != t {
        assert s'.threads[u] == s.threads[u];
      }
    }
    forall v: nat ensures NodeSealed(g, s', v) {
      assert NodeSealed(g, s, v);
    }
    forall q: nat | IsStream(g, q) ensures StreamSealed(g, s', q) {
      assert StreamSealed(g, s, q);
      StreamKept(g, s, s', t, q);
    }
  }

  lemma SealRaise(g: Graph, s: State, t: nat)
    requires WellWired(g) && SingleFlight(g) && Shape(g, s) && AllSized(g, s) && AccOk(g, s) && SealOk(g, s)
    requires t < |s.threads| && s.threads[t].leaf == NoLeaf && s.threads[t].mid.Propagate? && IsStream(g, s.threads[t].mid.q)
    requires var m := s.threads[t].mid; m.j < |g.mirrors[m.q]| && m.sent
    requires AllSized(g, PropagateStep(g, s, t))
    ensures SealOk(g, PropagateStep(g, s, t))
  {
    var s' := PropagateStep(g, s, t);
    var m := s.threads[t].mid;
    var e0 := MirrorEdge(g, m.q, m.j);
    assert ThreadOk(g, s, t) && PlanOk(g, s, t) && PlanOk(g, s', t);
    assert Owed(g, s.threads[t], e0) == [] && Owed(g, s'.threads[t], e0) == [];
    assert EdgeSealed(g, s, e0);
    if m.nb == DONE {
      NobodyOwes(g, s, t, e0);
    }
    hide Shape, AccOk, SingleFlight;
    forall e: nat | IsEdge(g, e) && e != e0 ensures EdgeMoves(g, s, s', t, e) {
      assert EdgeSealed(g, s, e);
      assert s.edges[e].bound == DONE ==> Owed(g, s.threads[t], e) == [];
      EdgeFacts(g, e);
    }
    SealFrameBut(g, s, s', t, e0);
  }

  // The broadcast of a close touches one edge at a time.
  lemma ShutMoves(g: Graph, s: State, t: nat, e: nat)
    requires WellWired(g) && Sized(g, s) && AllSized(g, s) && SealOk(g, s) && IsEdge(g, e)
    requires t < |s.threads| && s.threads[t].mid.Shut? && IsStream(g, s.threads[t].mid.q)
    requires AllSized(g, ShutStep(g, s, t))
    requires var m := s.threads[t].mid; m.j < |g.mirrors[m.q]| ==> e != MirrorEdge(g, m.q, m.j)
    ensures EdgeMoves(g, s, ShutStep(g, s, t), t, e)
  {
    assert EdgeSealed(g, s, e);
    assert s.edges[e].bound == DONE ==> Owed(g, s.threads[t], e) == [];
    EdgeFacts(g, e);
    hide SealOk;
  }

  lemma SealShut(g: Graph, s: State, t: nat)
    requires WellWired(g) && SingleFlight(g) && Shape(g, s) && AllSized(g, s) && AccOk(g, s) && SealOk(g, s)
    requires t < |s.threads| && s.threads[t].leaf == NoLeaf && s.threads[t].mid.Shut? && IsStream(g, s.threads[t].mid.q)
    requires AllSized(g, ShutStep(g, s, t))
    ensures SealOk(g, ShutStep(g, s, t))
  {
    var s' := ShutStep(g, s, t);
    var m := s.threads[t].mid;
    assert ThreadOk(g, s, t) && PlanOk(g, s, t) && PlanOk(g, s', t);
    forall e: nat | IsEdge(g, e) && (m.j < |g.mirrors[m.q]| ==> e != MirrorEdge(g, m.q, m.j))
      ensures EdgeMoves(g, s, s', t, e)
    {
      ShutMoves(g, s, t, e);
    }
    if m.j < |g.mirrors[m.q]| {
      var e0 := MirrorEdge(g, m.q, m.j);
      EdgeFacts(g, e0);
      assert Owed(g, s.threads[t], e0) == [] && Owed(g, s'.threads[t], e0) == [];
      NobodyOwes(g, s, t, e0);
      hide Shape, AccOk, SingleFlight, ThreadOk, EdgeMoves;
      SealFrameBut(g, s, s', t, e0);
    } else {
      hide Shape, AccOk, SingleFlight, ThreadOk, EdgeMoves;
      SealFrame(g, s, s', t);
    }
  }
}
