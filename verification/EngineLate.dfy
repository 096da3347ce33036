/** Where the seal can break: a Process call made for a node that was finalized meanwhile. */
module EngineLate {
  import opened Timestamps
  import opened StreamState
  import opened RunQueueState
  import opened Graphs
  import opened Engine
  import opened EngineShape
  import opened EngineAccounting
  import opened EngineSources
  import opened EngineFlow
  import opened EngineSeal
  import opened EngineSealSteps
  import opened EngineRuns

  // No stream whose producer has announced its end gains a packet.
  ghost predicate SealKept(g: Graph, s: State, s': State)
    requires WellWired(g) && Sized(g, s) && Sized(g, s')
  {
    forall q: nat {:trigger IsStream(g, q)} :: IsStream(g, q) && q in s.sealed ==> s'.emitted[q] == s.emitted[q]
  }

  lemma LateBreaks(g: Graph, s: State, t: nat, c: Choice)
    requires WellWired(g) && Inv(g, s) && Enabled(g, s, t, c) && LateEmission(g, s, t, c)
    requires Sized(g, Step(g, s, t, c))
    ensures !SealKept(g, s, Step(g, s, t, c))
  {
    var v := s.threads[t].outer.v;
    assert NodeSealed(g, s, v);
    var k: nat :| k < |c.outs| && c.outs[k].pkts != [];
    assert IsOutput(g, v, k);
    var q := OutStream(g, v, k);
    assert IsStream(g, q) && q in OutputsOf(g, v);
    hide Inv, WellWired;
    assert Step(g, s, t, c).emitted[q] == s.emitted[q] + c.outs[k].pkts;
  }

  lemma OnTimeKeeps(g: Graph, s: State, t: nat, c: Choice)
    requires WellWired(g) && SingleFlight(g) && Inv(g, s) && OuterPoint(g, s, t, c) && s.threads[t].outer.Compute?
    requires !LateEmission(g, s, t, c) && Sized(g, OuterStep(g, s, t, c))
    ensures SealKept(g, s, OuterStep(g, s, t, c))
  {
    var v := s.threads[t].outer.v;
    forall q: nat | IsStream(g, q) && q in s.sealed ensures OuterStep(g, s, t, c).emitted[q] == s.emitted[q] {
      if Owns(g, v, q) {
        SealedStaysQuiet(g, s, t, c, q);
      }
    }
  }

  /** A step adds to a stream that has ended exactly when it is a late emission: the Process call of a
      node that was finalized after the call was scheduled, adding a packet to a shard that is still open. */
  lemma SealBreaksExactlyLate(g: Graph, s: State, t: nat, c: Choice)
    requires WellWired(g) && SingleFlight(g) && Inv(g, s) && Enabled(g, s, t, c)
    ensures Sized(g, Step(g, s, t, c))
    ensures SealKept(g, s, Step(g, s, t, c)) <==> !LateEmission(g, s, t, c)
  {
    ShapeStep(g, s, t, c);
    var s' := Step(g, s, t, c);
    var th := s.threads[t];
    if LateEmission(g, s, t, c) {
      LateBreaks(g, s, t, c);
    } else if th.leaf == NoLeaf && th.mid == NoMid && th.outer.Compute? {
      OnTimeKeeps(g, s, t, c);
    } else {
      OnlyComputeOrInject(g, s, t, c);
      if s'.emitted != s.emitted {
        assert StreamSealed(g, s, c.g) && ThreadOk(g, s, t);
      }
    }
  }

  lemma OnlyComputeOrInject(g: Graph, s: State, t: nat, c: Choice)
    requires WellWired(g) && Enabled(g, s, t, c)
    requires var th := s.threads[t]; !(th.leaf == NoLeaf && th.mid == NoMid && th.outer.Compute?)
    ensures var s' := Step(g, s, t, c);
      s'.emitted != s.emitted ==>
      && OuterPoint(g, s, t, c) && s.threads[t].outer.AppReady? && c.Inject?
      && IsStream(g, c.g) && g.owner[c.g].None? && !s.closed[c.g]
      && s'.emitted == s.emitted[c.g := s.emitted[c.g] + c.pkts]
  {
    hide WellWired;
    if s.threads[t].leaf == NoLeaf && s.threads[t].mid == NoMid && s.threads[t].outer.AppReady? {
      assert c.Inject? || AppCall(g, s, t, c).emitted == s.emitted;
    }
  }
}
