/** The declarative graph description and the "port:stream" naming convention. */
module Config {

  datatype NodeDef = NodeDef(name: string, inputs: seq<string>, outputs: seq<string>)

  datatype GraphConfig = GraphConfig(nodes: seq<NodeDef>, inputs: seq<string>, outputs: seq<string>, executors: seq<string>)

  // Position of the first colon, or the length when there is none.
  function ColonAt(s: string): (k: nat)
    ensures k <= |s| && ':' !in s[..k]
    ensures k < |s| ==> s[k] == ':'
  {
    if s == [] || s[0] == ':' then 0
    else
      var k := ColonAt(s[1..]);
      assert s[..k + 1] == [s[0]] + s[1..][..k];
      k + 1
  }

  function PortName(s: string): (r: string)
    ensures ':' !in r
  {
    s[..ColonAt(s)]
  }

  function StreamName(s: string): (r: string) {
    if ColonAt(s) == |s| then s else s[ColonAt(s) + 1..]
  }

  // A declared stream splits into its port and its stream at the first colon, whatever the stream holds.
  lemma {:induction false} PortAndStream(port: string, stream: string)
    requires ':' !in port
    ensures PortName(port + ":" + stream) == port && StreamName(port + ":" + stream) == stream
  {
    FirstColon(port, stream);
    var s := port + ":" + stream;
    assert s[..|port|] == port && s[|port| + 1..] == stream;
  }

  lemma {:induction false} FirstColon(port: string, stream: string)
    requires ':' !in port
    ensures ColonAt(port + ":" + stream) == |port|
  {
    var s := port + ":" + stream;
    if port != [] {
      assert s[1..] == port[1..] + ":" + stream;
      FirstColon(port[1..], stream);
    }
  }

  // A name without a colon is its own port and its own stream.
  lemma PlainName(s: string)
    requires ':' !in s
    ensures PortName(s) == s && StreamName(s) == s
  {
    assert ColonAt(s) == |s|;
  }

  // Node `v` declares an output stream of this name.
  ghost predicate Produces(c: GraphConfig, v: nat, name: string) {
    v < |c.nodes| && exists k: nat {:trigger c.nodes[v].outputs[k]} ::
      k < |c.nodes[v].outputs| && StreamName(c.nodes[v].outputs[k]) == name
  }

  // Node `b` feeds node `a`: one of its output streams is an input stream of `a`.
  ghost predicate Depends(c: GraphConfig, a: nat, b: nat) {
    && a < |c.nodes| && b < |c.nodes|
    && exists i: nat, k: nat {:trigger c.nodes[a].inputs[i], c.nodes[b].outputs[k]} ::
         i < |c.nodes[a].inputs| && k < |c.nodes[b].outputs|
         && StreamName(c.nodes[a].inputs[i]) == StreamName(c.nodes[b].outputs[k])
  }

  // A rank under which every node comes after the nodes it depends on.
  ghost predicate TopologicalRank(c: GraphConfig, rank: seq<nat>) {
    |rank| == |c.nodes|
    && forall a: nat, b: nat {:trigger Depends(c, a, b)} :: Depends(c, a, b) ==> rank[b] < rank[a]
  }

  // A closed walk along dependencies, its first node repeated at the end.
  ghost predicate ClosedWalk(c: GraphConfig, w: seq<nat>) {
    |w| >= 2 && w[0] == w[|w| - 1]
    && forall k :: 0 <= k < |w| - 1 ==> Depends(c, w[k], w[k + 1])
  }

  lemma {:induction false} RankFallsAlongWalk(c: GraphConfig, rank: seq<nat>, w: seq<nat>, k: nat)
    requires TopologicalRank(c, rank) && 0 < k < |w|
    requires forall j :: 0 <= j < |w| - 1 ==> Depends(c, w[j], w[j + 1])
    ensures w[0] < |rank| && w[k] < |rank| && rank[w[k]] < rank[w[0]]
  {
    assert Depends(c, w[k - 1], w[k - 1 + 1]);
    if k > 1 {
      RankFallsAlongWalk(c, rank, w, k - 1);
    }
  }

  // A ranked graph has no closed walk, so at most one of the two answers can be given.
  lemma RankedIsAcyclic(c: GraphConfig, rank: seq<nat>, w: seq<nat>)
    requires TopologicalRank(c, rank)
    ensures !ClosedWalk(c, w)
  {
    if ClosedWalk(c, w) {
      RankFallsAlongWalk(c, rank, w, |w| - 1);
    }
  }
}
