/** The static wiring of a running graph: nodes, output streams and per-consumer input edges. */
module Graphs {

  datatype Option<+T> = None | Some(value: T)

  datatype Graph = Graph(
    ins: seq<seq<nat>>,        // node -> its input edges
    outs: seq<seq<nat>>,       // node -> its output streams
    cap: seq<int>,             // node -> contract MaxInFlight
    mirrors: seq<seq<nat>>,    // stream -> the edges it fans out to
    owner: seq<Option<nat>>,   // stream -> producing node; None for a graph input
    opos: seq<nat>,            // stream -> its index among the owner's outputs
    dst: seq<nat>,             // edge -> consuming node
    ipos: seq<nat>,            // edge -> its index among the consumer's inputs
    src: seq<nat>,             // edge -> the stream it mirrors
    mpos: seq<nat>)            // edge -> its index among the stream's mirrors

  predicate IsNode(g: Graph, v: nat) { v < |g.ins| }
  predicate IsStream(g: Graph, q: nat) { q < |g.mirrors| }
  predicate IsEdge(g: Graph, e: nat) { e < |g.dst| }
  predicate IsInput(g: Graph, v: nat, i: nat) { v < |g.ins| && i < |g.ins[v]| }
  predicate IsOutput(g: Graph, v: nat, k: nat) { v < |g.outs| && k < |g.outs[v]| }
  predicate IsMirror(g: Graph, q: nat, j: nat) { q < |g.mirrors| && j < |g.mirrors[q]| }

  predicate SameLengths(g: Graph) {
    |g.outs| == |g.cap| == |g.ins|
    && |g.owner| == |g.opos| == |g.mirrors|
    && |g.ipos| == |g.src| == |g.mpos| == |g.dst|
  }

  // An edge is one input of its consumer and one mirror of its stream, and these tables agree.
  ghost predicate EdgesWired(g: Graph)
    requires SameLengths(g)
  {
    && (forall e: nat {:trigger IsEdge(g, e)} :: IsEdge(g, e) ==>
          && g.dst[e] < |g.ins| && g.ipos[e] < |g.ins[g.dst[e]]| && g.ins[g.dst[e]][g.ipos[e]] == e
          && g.src[e] < |g.mirrors| && g.mpos[e] < |g.mirrors[g.src[e]]| && g.mirrors[g.src[e]][g.mpos[e]] == e)
    && (forall v: nat, i: nat {:trigger IsInput(g, v, i)} :: IsInput(g, v, i) ==>
          g.ins[v][i] < |g.dst| && g.dst[g.ins[v][i]] == v && g.ipos[g.ins[v][i]] == i)
    && (forall q: nat, j: nat {:trigger IsMirror(g, q, j)} :: IsMirror(g, q, j) ==>
          g.mirrors[q][j] < |g.dst| && g.src[g.mirrors[q][j]] == q && g.mpos[g.mirrors[q][j]] == j)
  }

  ghost predicate StreamsWired(g: Graph)
    requires SameLengths(g)
  {
    && (forall v: nat, k: nat {:trigger IsOutput(g, v, k)} :: IsOutput(g, v, k) ==>
          g.outs[v][k] < |g.owner| && g.owner[g.outs[v][k]] == Some(v) && g.opos[g.outs[v][k]] == k)
    && (forall q: nat {:trigger IsStream(g, q)} :: IsStream(g, q) && g.owner[q].Some? ==>
          && g.owner[q].value < |g.outs| && g.opos[q] < |g.outs[g.owner[q].value]|
          && g.outs[g.owner[q].value][g.opos[q]] == q)
  }

  // Every input edge is the target of exactly one mirror, every stream of at most one node.
  ghost predicate WellWired(g: Graph) {
    SameLengths(g) && EdgesWired(g) && StreamsWired(g)
    && forall v: nat {:trigger IsNode(g, v)} :: IsNode(g, v) ==> g.cap[v] >= 1
  }

  predicate IsSource(g: Graph, v: nat)
    requires IsNode(g, v)
  {
    g.ins[v] == []
  }

  // Lookups that carry the wiring facts of the entry they return.

  function InEdge(g: Graph, v: nat, i: nat): (e: nat)
    requires WellWired(g) && IsInput(g, v, i)
    ensures IsEdge(g, e) && g.dst[e] == v && g.ipos[e] == i
  {
    g.ins[v][i]
  }

  function MirrorEdge(g: Graph, q: nat, j: nat): (e: nat)
    requires WellWired(g) && IsMirror(g, q, j)
    ensures IsEdge(g, e) && g.src[e] == q && g.mpos[e] == j
  {
    g.mirrors[q][j]
  }

  function OutStream(g: Graph, v: nat, k: nat): (q: nat)
    requires WellWired(g) && IsOutput(g, v, k)
    ensures IsStream(g, q) && Owns(g, v, q) && g.opos[q] == k
  {
    g.outs[v][k]
  }

  predicate Owns(g: Graph, v: nat, q: nat)
    requires WellWired(g)
    ensures Owns(g, v, q) ==> IsStream(g, q) && IsOutput(g, v, g.opos[q]) && g.outs[v][g.opos[q]] == q
  {
    IsStream(g, q) && g.owner[q] == Some(v)
  }

  // The edge is mirror `mpos` of its stream and input `ipos` of its consumer.
  lemma EdgeFacts(g: Graph, e: nat)
    requires WellWired(g) && IsEdge(g, e)
    ensures IsNode(g, g.dst[e]) && IsInput(g, g.dst[e], g.ipos[e]) && InEdge(g, g.dst[e], g.ipos[e]) == e
    ensures IsStream(g, g.src[e]) && IsMirror(g, g.src[e], g.mpos[e]) && MirrorEdge(g, g.src[e], g.mpos[e]) == e
    ensures !IsSource(g, g.dst[e])
  {
  }

  // A rank that grows from every producer to its consumers.
  ghost predicate Ranks(g: Graph, rank: seq<nat>)
    requires WellWired(g)
  {
    |rank| == |g.ins|
    && forall e: nat, v: nat {:trigger IsEdge(g, e), Owns(g, v, g.src[e])} ::
         IsEdge(g, e) && Owns(g, v, g.src[e]) ==> rank[v] < rank[g.dst[e]]
  }

  function GraphInputs(g: Graph): (r: set<nat>)
    requires WellWired(g)
    ensures forall q: nat :: q in r <==> IsStream(g, q) && g.owner[q].None?
  {
    set q: nat | q < |g.mirrors| && g.owner[q].None? :: q
  }

  ghost predicate SingleFlight(g: Graph) {
    forall v: nat {:trigger IsNode(g, v)} :: IsNode(g, v) && v < |g.cap| ==> g.cap[v] == 1
  }
}
