/** The guarantees of a run, stated for a validated configuration. */
module ConfiguredRuns {
  import opened Config
  import opened Wiring
  import opened Graphs
  import opened StreamState
  import opened Engine
  import opened EngineRuns
  import CycleCheck

  /** Validate and build: an accepted configuration whose inputs all have a producer and whose port names are
      distinct within each node yields a ranked graph that the engine can run, every input of which its node
      looks at; a rejected one breaks one of the five rules. */
  method Build(c: GraphConfig, caps: seq<int>)
    returns (ok: bool, g: Graph, fed: seq<bool>, ports: seq<map<string, nat>>, ghost rank: seq<nat>)
    requires |caps| == |c.nodes| && forall v :: 0 <= v < |caps| ==> caps[v] >= 1
    ensures ok <==>
      UniqueNames(c) && UniqueExecutors(c) && NoDuplicateInputs(c) && Connected(c) && !exists w: seq<nat> :: ClosedWalk(c, w)
    ensures ok ==> Serves(c, g, fed) && PortTables(c, g.ins, ports, |c.nodes|) && g.cap == caps && TopologicalRank(c, rank)
    ensures ok ==> (AllPolled(g.ins, ports) <==> DistinctInputPorts(c))
    ensures ok && !NamesOnlyGraphOutput(c) && DistinctPorts(c) ==> WellWired(g) && Ranks(g, rank) && AllPolled(g.ins, ports)
  {
    rank, g, fed, ports := [], Graph([], [], [], [], [], [], [], [], [], []), [], [];
    ok := ValidateUniqueNames(c);
    if !ok { return; }
    ok := ValidateUniqueExecutors(c);
    if !ok { return; }
    ok := ValidateNoDuplicateNodeInputs(c);
    if !ok { return; }
    ok := ValidateConnectivity(c);
    if !ok { return; }
    var verdict := CycleCheck.ValidateNoCycles(c);
    if verdict.Cycle? {
      return false, g, fed, ports, rank;
    }
    rank :| TopologicalRank(c, rank);
    g, fed, ports := Initialize(c, caps);
    ConnectedIsFed(c, g, fed);
    PolledExactly(c, g, fed, ports);
    if !NamesOnlyGraphOutput(c) {
      FedIsWellWired(c, g, fed);
      RankCarriesOver(c, g, fed, rank);
    }
  }

  /** End to end: in a validated configuration with distinct port names and one invocation per node, when the
      graph has terminated the i-th input of every node is one its runs look at, and has consumed, in order,
      exactly what was emitted under its stream name: by the graph input of that name, or else by the last
      node declaring it as an output. */
  lemma ConsumersGetTheirStreams(c: GraphConfig, g: Graph, fed: seq<bool>, ports: seq<map<string, nat>>, rank: seq<nat>, workers: nat,
    path: seq<State>, moves: seq<Move>, k: nat, v: nat, i: nat) returns (q: nat)
    requires DistinctPorts(c) && PortTables(c, g.ins, ports, |c.nodes|)
    requires Serves(c, g, fed) && (forall e :: 0 <= e < |fed| ==> fed[e]) && (forall u :: 0 <= u < |g.cap| ==> g.cap[u] == 1)
    requires TopologicalRank(c, rank)
    requires WellWired(g) && IsRun(g, path, moves) && path[0] == Init(g, workers) && NoLateEmission(g, path, moves)
    requires k < |path| && path[k].quits > 0 && v < |c.nodes| && i < |c.nodes[v].inputs|
    ensures i < |g.ins[v]| && g.ins[v][i] < |path[k].consumed| == |path[k].edges| && q < |path[k].emitted|
    ensures Found(c, g.owner, g.opos, StreamName(c.nodes[v].inputs[i]), q)
    ensures path[k].consumed[g.ins[v][i]] == path[k].emitted[q]
    ensures path[k].edges[g.ins[v][i]].queue == []
    ensures v < |g.ins| && v < |ports| && Polled(g.ins, ports, v, i)
  {
    PolledExactly(c, g, fed, ports);
    assert Polled(g.ins, ports, v, i) by { var _ := g.ins[v][i]; }
    RankCarriesOver(c, g, fed, rank);
    assert GoodRun(g, rank, workers, path, moves);
    FanOutComplete(g, rank, workers, path, moves, k);
    var e := g.ins[v][i];
    assert IsInput(g, v, i);
    assert IsEdge(g, e) && InEdge(g, v, i) == e;
    EdgeFacts(g, e);
    q := g.src[e];
  }
}
