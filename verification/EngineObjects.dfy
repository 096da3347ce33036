/** The engine's steps are the objects' operations: what a broadcast does to one mirror is what the output
    manager's loop does to it, with the consumer woken exactly when the input manager would call back. */
module EngineObjects {
  import opened Timestamps
  import opened StreamState
  import opened RunQueueState
  import opened Graphs
  import opened Engine
  import opened EngineShape
  import opened EngineRuns

  /** Handing the packets to a mirror and then the bound leaves its inbox as one turn of
      PropagateUpdatesToMirrors does, and no other inbox changed. The consumer is woken by the packets when its
      queue was empty, and by the bound when it advances. */
  lemma MirrorReceives(g: Graph, s: State, t: nat)
    requires WellWired(g) && Sized(g, s) && t < |s.threads| && s.threads[t].leaf == NoLeaf
    requires s.threads[t].mid.Propagate? && !s.threads[t].mid.sent
    requires IsStream(g, s.threads[t].mid.q) && s.threads[t].mid.j < |g.mirrors[s.threads[t].mid.q]|
    ensures var m := s.threads[t].mid;
      var e := MirrorEdge(g, m.q, m.j);
      var half := PropagateStep(g, s, t);
      && Sized(g, half) && t < |half.threads| && half.threads[t].mid == m.(sent := true)
      && (half.threads[t].leaf == AddNode(g.dst[e]) <==> m.pkts != [] && !s.edges[e].closed && s.edges[e].queue == [])
      && var whole := PropagateStep(g, SetLeaf(half, t, NoLeaf), t);
      && Sized(g, whole) && t < |whole.threads| && whole.threads[t].mid == m.(j := m.j + 1, sent := false)
      && whole.edges[e] == Sent(s.edges[e], m.pkts, m.nb)
      && (whole.threads[t].leaf == AddNode(g.dst[e]) <==> whole.edges[e].bound != Added(s.edges[e], m.pkts).bound)
      && forall d: nat {:trigger whole.edges[d]} :: IsEdge(g, d) && d != e ==> whole.edges[d] == s.edges[d]
  {
    hide WellWired;
  }

  /** Closing raises each mirror in turn to Done, and wakes its consumer if it was not there yet. */
  lemma MirrorCloses(g: Graph, s: State, t: nat)
    requires WellWired(g) && Sized(g, s) && t < |s.threads| && s.threads[t].leaf == NoLeaf && s.threads[t].mid.Shut?
    requires IsStream(g, s.threads[t].mid.q) && s.threads[t].mid.j < |g.mirrors[s.threads[t].mid.q]|
    ensures var m := s.threads[t].mid;
      var e := MirrorEdge(g, m.q, m.j);
      var s' := ShutStep(g, s, t);
      && Sized(g, s') && t < |s'.threads| && s'.threads[t].mid == Shut(m.q, m.j + 1)
      && s'.edges[e].bound == DONE && s'.edges[e].queue == s.edges[e].queue
      && (s'.threads[t].leaf == AddNode(g.dst[e]) <==> s.edges[e].bound != DONE)
      && forall d: nat {:trigger s'.edges[d]} :: IsEdge(g, d) && d != e ==> s'.edges[d] == s.edges[d]
  {
    hide WellWired;
  }

  // What a publication's bound is drawn from.
  predicate Candidate(bound: Timestamp, pkts: seq<Packet>, updated: Timestamp, b: Timestamp) {
    b == bound || b == updated || (pkts != [] && b == NextAllowed(LastTs(pkts)))
  }

  /** After Process, each open output is published with its shard's packets and the latest of the manager's
      bound, the next time after the last packet and the shard's explicit bound; a closed one is passed over. */
  lemma RunPublishes(g: Graph, s: State, t: nat, c: Choice, x: Timestamp)
    requires WellWired(g) && OuterPoint(g, s, t, c) && s.threads[t].outer.Post? && s.threads[t].outer.k < |g.outs[s.threads[t].outer.v]|
    ensures var o, s' := s.threads[t].outer, Step(g, s, t, c);
      var q := OutStream(g, o.v, o.k);
      && t < |s'.threads| && q < |s'.bound|
      && (s.closed[q] ==> s'.threads[t] == Thread(Post(o.v, o.outs, o.stop, o.k + 1, o.seen), NoMid, NoLeaf) && s'.bound == s.bound)
      && (!s.closed[q] ==>
            && s'.threads[t].mid.Propagate? && s'.threads[t].mid.q == q && s'.threads[t].mid.pkts == o.outs[o.k].pkts
            && s'.threads[t].mid.j == 0 && !s'.threads[t].mid.sent
            && var nb := s'.threads[t].mid.nb;
            && Candidate(s.bound[q], o.outs[o.k].pkts, o.outs[o.k].updated, nb)
            && (Candidate(s.bound[q], o.outs[o.k].pkts, o.outs[o.k].updated, x) ==> x <= nb)
            && s'.bound[q] == nb)
  {
    var q := OutStream(g, s.threads[t].outer.v, s.threads[t].outer.k);
    hide WellWired;
  }

  /** So does an injected packet, or an announced bound, of the application. */
  lemma InjectionPublishes(g: Graph, s: State, t: nat, c: Choice, x: Timestamp)
    requires WellWired(g) && OuterPoint(g, s, t, c) && s.threads[t].outer.AppReady? && c.Inject?
    ensures var s' := Step(g, s, t, c);
      && t < |s'.threads| && c.g < |s'.bound|
      && s'.threads[t].mid.Propagate? && s'.threads[t].mid.q == c.g && s'.threads[t].mid.pkts == c.pkts
      && s'.threads[t].mid.j == 0 && !s'.threads[t].mid.sent
      && var nb := s'.threads[t].mid.nb;
      && Candidate(s.bound[c.g], c.pkts, c.updated, nb) && (Candidate(s.bound[c.g], c.pkts, c.updated, x) ==> x <= nb)
      && s'.bound[c.g] == nb
  {
    hide WellWired;
  }

  /** A run's collection takes one packet from the head of each non-empty input, and nothing else. */
  lemma CollectTakesHeads(g: Graph, s: State, t: nat, c: Choice)
    requires WellWired(g) && OuterPoint(g, s, t, c) && s.threads[t].outer.Collect? && s.threads[t].outer.i < |g.ins[s.threads[t].outer.v]|
    ensures var o, s' := s.threads[t].outer, Step(g, s, t, c);
      && IsInput(g, o.v, o.i)
      && var e := InEdge(g, o.v, o.i);
      && |s'.edges| == |s.edges| && |s'.consumed| == |s.consumed|
      && (s.edges[e].queue == [] ==> s'.edges == s.edges && s'.consumed == s.consumed)
      && (s.edges[e].queue != [] ==>
            && s.edges[e].queue == [s.edges[e].queue[0]] + s'.edges[e].queue
            && s'.consumed[e] == s.consumed[e] + [s.edges[e].queue[0]] && s'.edges[e].bound == s.edges[e].bound)
      && forall d: nat {:trigger s'.edges[d]} :: IsEdge(g, d) && d != e ==> s'.edges[d] == s.edges[d]
  {
    assert IsInput(g, s.threads[t].outer.v, s.threads[t].outer.i);
    hide WellWired;
  }
}
