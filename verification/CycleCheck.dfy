/** ConfigValidator::ValidateNoCycles: an explicit-stack depth-first search over node dependencies. */
module CycleCheck {
  import opened Config

  datatype Verdict = Acyclic | Cycle(walk: seq<nat>)

  datatype Frame = Frame(node: nat, next: nat)

  // ------------------------------------------------------------------ dependencies

  method ProducersByStream(c: GraphConfig) returns (producers: map<string, seq<nat>>)
    ensures forall s: string, b: nat ::
      (s in producers && b in producers[s]) <==> Produces(c, b, s)
  {
    producers := map[];
    for i := 0 to |c.nodes|
      invariant forall s: string, b: nat ::
        (s in producers && b in producers[s]) <==> (b < i && Produces(c, b, s))
    {
      var outs := c.nodes[i].outputs;
      for k := 0 to |outs|
        invariant outs == c.nodes[i].outputs
        invariant forall s: string, b: nat :: (s in producers && b in producers[s]) <==>
          (b < i && Produces(c, b, s)) || (b == i && exists j: nat {:trigger outs[j]} :: j < k && StreamName(outs[j]) == s)
      {
        var name := StreamName(outs[k]);
        producers := producers[name := (if name in producers then producers[name] else []) + [i]];
      }
    }
  }

  // Row `a` of the adjacency list holds exactly the nodes that `a` depends on.
  ghost predicate Lists(c: GraphConfig, deps: seq<seq<nat>>) {
    && |deps| == |c.nodes|
    && forall a: nat, b: nat :: a < |deps| ==> (b in deps[a] <==> Depends(c, a, b))
  }

  /** The adjacency list lists exactly the nodes each node depends on. */
  method BuildDependencyGraph(c: GraphConfig) returns (deps: seq<seq<nat>>)
    ensures Lists(c, deps)
  {
    var producers := ProducersByStream(c);
    deps := [];
    for i := 0 to |c.nodes|
      invariant |deps| == i
      invariant forall a: nat, b: nat :: a < i ==> (b in deps[a] <==> Depends(c, a, b))
    {
      var row: seq<nat> := [];
      var ins := c.nodes[i].inputs;
      for j := 0 to |ins|
        invariant forall b: nat :: b in row <==>
          exists k: nat {:trigger ins[k]} :: k < j && Produces(c, b, StreamName(ins[k]))
      {
        var stream := StreamName(ins[j]);
        if stream in producers {
          row := row + producers[stream];
        }
      }
      forall b: nat ensures b in row <==> Depends(c, i, b) {
        if Depends(c, i, b) {
          var k: nat, m: nat :| k < |ins| && m < |c.nodes[b].outputs| && StreamName(ins[k]) == StreamName(c.nodes[b].outputs[m]);
          assert Produces(c, b, StreamName(ins[k]));
        }
      }
      deps := deps + [row];
    }
  }

  // ------------------------------------------------------------------ the search

  ghost predicate Closed(deps: seq<seq<nat>>) {
    forall a: nat, i: nat {:trigger deps[a][i]} :: a < |deps| && i < |deps[a]| ==> deps[a][i] < |deps|
  }

  // Nodes are white (0), on the path (1) or finished (2).
  ghost predicate Coloured(deps: seq<seq<nat>>, state: seq<nat>, path: seq<nat>) {
    && Closed(deps) && |state| == |deps|
    && (forall v :: 0 <= v < |state| ==> state[v] <= 2)
    && (forall v: nat :: v < |state| ==> (state[v] == 1 <==> v in path))
    && (forall k :: 0 <= k < |path| ==> path[k] < |state|)
    && (forall j, k :: 0 <= j < k < |path| ==> path[j] != path[k])
  }

  // The frame's first `settled` children are finished.
  ghost predicate FrameOk(deps: seq<seq<nat>>, state: seq<nat>, f: Frame, settled: nat)
    requires Closed(deps) && |state| == |deps|
  {
    && f.node < |deps| && settled <= f.next <= |deps[f.node]|
    && (forall i: nat {:trigger deps[f.node][i]} :: i < settled ==> state[deps[f.node][i]] == 2)
  }

  ghost predicate Leads(deps: seq<seq<nat>>, f: Frame, child: nat) {
    f.node < |deps| && 0 < f.next <= |deps[f.node]| && deps[f.node][f.next - 1] == child
  }

  // The frame's last child is the next frame's node, and the children before it are finished.
  ghost predicate Linked(deps: seq<seq<nat>>, state: seq<nat>, stack: seq<Frame>, k: nat)
    requires Closed(deps) && |state| == |deps| && k + 1 < |stack|
  {
    Leads(deps, stack[k], stack[k + 1].node) && FrameOk(deps, state, stack[k], stack[k].next - 1)
  }

  // The path lists the stack's nodes and follows dependencies; a frame has dealt with the children before
  // its cursor, except that the last of them may be the next frame.
  ghost predicate Stacked(deps: seq<seq<nat>>, state: seq<nat>, path: seq<nat>, stack: seq<Frame>)
    requires Coloured(deps, state, path)
  {
    && |stack| == |path|
    && (forall k :: 0 <= k < |stack| ==> stack[k].node == path[k])
    && (forall k: nat {:trigger Linked(deps, state, stack, k)} :: k + 1 < |stack| ==> Linked(deps, state, stack, k))
    && (stack != [] ==> FrameOk(deps, state, stack[|stack| - 1], stack[|stack| - 1].next))
  }

  // Finished nodes only depend on nodes that finished before them.
  ghost predicate Ranked(deps: seq<seq<nat>>, state: seq<nat>, rank: seq<nat>, clock: nat)
    requires |state| == |deps| && Closed(deps)
  {
    && |rank| == |deps|
    && (forall v: nat :: v < |state| && state[v] == 2 ==> rank[v] < clock)
    && (forall v: nat, i: nat {:trigger deps[v][i]} :: v < |state| && state[v] == 2 && i < |deps[v]| ==>
          state[deps[v][i]] == 2 && rank[deps[v][i]] < rank[v])
  }

  ghost predicate Searching(deps: seq<seq<nat>>, state: seq<nat>, path: seq<nat>, stack: seq<Frame>, rank: seq<nat>, clock: nat) {
    Coloured(deps, state, path) && Stacked(deps, state, path, stack) && Ranked(deps, state, rank, clock)
  }

  // Children the stack still has to look at, one extra for each frame.
  ghost function Work(deps: seq<seq<nat>>, stack: seq<Frame>): nat {
    if stack == [] then 0 else FrameWork(deps, stack[|stack| - 1]) + Work(deps, stack[..|stack| - 1])
  }

  ghost function FrameWork(deps: seq<seq<nat>>, f: Frame): nat {
    if f.node < |deps| && f.next <= |deps[f.node]| then |deps[f.node]| - f.next + 1 else 0
  }

  // Looking at one more child, or dropping an exhausted frame, leaves less to do.
  lemma WorkShrinks(deps: seq<seq<nat>>, stack: seq<Frame>)
    requires stack != []
    requires var f := stack[|stack| - 1]; f.node < |deps| && f.next <= |deps[f.node]|
    ensures Work(deps, stack[..|stack| - 1]) < Work(deps, stack)
    ensures var f := stack[|stack| - 1];
      f.next < |deps[f.node]| ==> Work(deps, stack[..|stack| - 1] + [Frame(f.node, f.next + 1)]) < Work(deps, stack)
  {
    var f, below := stack[|stack| - 1], stack[..|stack| - 1];
    assert (below + [Frame(f.node, f.next + 1)])[..|below|] == below;
  }

  ghost function White(state: seq<nat>): (r: set<nat>)
    ensures forall v: nat :: v < |state| ==> (v in r <==> state[v] == 0)
  {
    set v: nat | v < |state| && state[v] == 0
  }

  // Fewer unvisited nodes, or as many and less left to do.
  ghost predicate Nearer(deps: seq<seq<nat>>, state: seq<nat>, stack: seq<Frame>, state': seq<nat>, stack': seq<Frame>) {
    White(state') < White(state) || (White(state') == White(state) && Work(deps, stack') < Work(deps, stack))
  }

  lemma WhiteShrinks(state: seq<nat>, v: nat, colour: nat)
    requires v < |state| && colour > 0
    ensures White(state[v := colour]) == White(state) - {v}
  {
  }

  // ------------------------------------------------------------------ one turn of the loop

  // The top frame has no child left: its node is finished.
  lemma PopKeeps(deps: seq<seq<nat>>, state: seq<nat>, path: seq<nat>, stack: seq<Frame>, rank: seq<nat>, clock: nat)
    requires Searching(deps, state, path, stack, rank, clock) && stack != []
    requires stack[|stack| - 1].next >= |deps[stack[|stack| - 1].node]|
    ensures var v := stack[|stack| - 1].node;
      Searching(deps, state[v := 2], path[..|path| - 1], stack[..|stack| - 1], rank[v := clock], clock + 1)
  {
    var v := stack[|stack| - 1].node;
    PopColours(deps, state, path, v);
    PopRanks(deps, state, path, stack[|stack| - 1], rank, clock);
    PopStack(deps, state, path, stack);
    hide *;
  }

  // A finished child of the frame below completes that frame's settled children.
  lemma Settles(deps: seq<seq<nat>>, state: seq<nat>, f: Frame, settled: nat, v: nat)
    requires Closed(deps) && |state| == |deps| && v < |state| && FrameOk(deps, state, f, settled)
    ensures FrameOk(deps, state[v := 2], f, settled)
    ensures settled + 1 == f.next && Leads(deps, f, v) ==> FrameOk(deps, state[v := 2], f, f.next)
  {
  }

  lemma PopStack(deps: seq<seq<nat>>, state: seq<nat>, path: seq<nat>, stack: seq<Frame>)
    requires Coloured(deps, state, path) && Stacked(deps, state, path, stack) && stack != []
    ensures var v := stack[|stack| - 1].node;
      v < |state| && Coloured(deps, state[v := 2], path[..|path| - 1])
      && Stacked(deps, state[v := 2], path[..|path| - 1], stack[..|stack| - 1])
  {
    var top := |stack| - 1;
    var v := stack[top].node;
    PopColours(deps, state, path, v);
    var state', stack' := state[v := 2], stack[..top];
    forall k: nat {:trigger Linked(deps, state', stack', k)} | k + 1 < top ensures Linked(deps, state', stack', k) {
      assert Linked(deps, state, stack, k);
      hide Coloured, FrameOk, Leads;
      Settles(deps, state, stack[k], stack[k].next - 1, v);
    }
    if top > 0 {
      assert Linked(deps, state, stack, top - 1);
      Settles(deps, state, stack[top - 1], stack[top - 1].next - 1, v);
    }
    hide Coloured, FrameOk, Leads, Linked;
  }

  lemma PopColours(deps: seq<seq<nat>>, state: seq<nat>, path: seq<nat>, v: nat)
    requires Coloured(deps, state, path) && path != [] && path[|path| - 1] == v
    ensures v < |state| && Coloured(deps, state[v := 2], path[..|path| - 1])
  {
    var rest := path[..|path| - 1];
    assert path == rest + [v];
    forall w: nat | w < |state| ensures state[v := 2][w] == 1 <==> w in rest {
      assert state[w] == 1 <==> w in path;
    }
  }

  lemma PopRanks(deps: seq<seq<nat>>, state: seq<nat>, path: seq<nat>, f: Frame, rank: seq<nat>, clock: nat)
    requires Coloured(deps, state, path) && Ranked(deps, state, rank, clock)
    requires FrameOk(deps, state, f, f.next) && f.next >= |deps[f.node]| && state[f.node] == 1
    ensures Ranked(deps, state[f.node := 2], rank[f.node := clock], clock + 1)
  {
  }

  // The next child is finished: the cursor moves past it.
  lemma SkipKeeps(deps: seq<seq<nat>>, state: seq<nat>, path: seq<nat>, stack: seq<Frame>, rank: seq<nat>, clock: nat)
    requires Searching(deps, state, path, stack, rank, clock) && stack != []
    requires var f := stack[|stack| - 1]; f.next < |deps[f.node]| && state[deps[f.node][f.next]] == 2
    ensures var f := stack[|stack| - 1];
      Searching(deps, state, path, stack[..|stack| - 1] + [Frame(f.node, f.next + 1)], rank, clock)
  {
    var top := |stack| - 1;
    var f := stack[top];
    var stack' := stack[..top] + [Frame(f.node, f.next + 1)];
    forall k: nat | k + 1 < |stack'| ensures Linked(deps, state, stack', k) {
      assert Linked(deps, state, stack, k);
    }
    hide Coloured, Ranked, Linked;
  }

  // The next child is unvisited: it joins the path.
  lemma PushKeeps(deps: seq<seq<nat>>, state: seq<nat>, path: seq<nat>, stack: seq<Frame>, rank: seq<nat>, clock: nat)
    requires Searching(deps, state, path, stack, rank, clock) && stack != []
    requires var f := stack[|stack| - 1]; f.next < |deps[f.node]| && state[deps[f.node][f.next]] == 0
    ensures var f := stack[|stack| - 1]; var child := deps[f.node][f.next];
      Searching(deps, state[child := 1], path + [child], stack[..|stack| - 1] + [Frame(f.node, f.next + 1), Frame(child, 0)], rank, clock)
  {
    var child := deps[stack[|stack| - 1].node][stack[|stack| - 1].next];
    PushColours(deps, state, path, child);
    PushRanks(deps, state, path, child, rank, clock);
    PushStack(deps, state, path, stack, child);
    hide Coloured, Ranked, Stacked;
  }

  lemma PushStack(deps: seq<seq<nat>>, state: seq<nat>, path: seq<nat>, stack: seq<Frame>, child: nat)
    requires Coloured(deps, state, path) && Stacked(deps, state, path, stack) && stack != []
    requires var f := stack[|stack| - 1]; f.next < |deps[f.node]| && deps[f.node][f.next] == child && state[child] == 0
    requires Coloured(deps, state[child := 1], path + [child])
    ensures var f := stack[|stack| - 1];
      Stacked(deps, state[child := 1], path + [child], stack[..|stack| - 1] + [Frame(f.node, f.next + 1), Frame(child, 0)])
  {
    var top := |stack| - 1;
    var f := stack[top];
    var stack' := stack[..top] + [Frame(f.node, f.next + 1), Frame(child, 0)];
    var state' := state[child := 1];
    forall k: nat {:trigger Linked(deps, state', stack', k)} | k + 1 < |stack'| ensures Linked(deps, state', stack', k) {
      assert k < top ==> Linked(deps, state, stack, k);
    }
    hide Coloured, Linked;
  }

  lemma PushColours(deps: seq<seq<nat>>, state: seq<nat>, path: seq<nat>, child: nat)
    requires Coloured(deps, state, path) && child < |state| && state[child] == 0
    ensures Coloured(deps, state[child := 1], path + [child])
  {
    assert child !in path;
    forall w: nat | w < |state| ensures state[child := 1][w] == 1 <==> w in path + [child] {
      assert state[w] == 1 <==> w in path;
    }
  }

  lemma PushRanks(deps: seq<seq<nat>>, state: seq<nat>, path: seq<nat>, child: nat, rank: seq<nat>, clock: nat)
    requires Coloured(deps, state, path) && child < |state| && state[child] == 0 && Ranked(deps, state, rank, clock)
    ensures Ranked(deps, state[child := 1], rank, clock)
  {
  }

  // The walk from the repeated node along the path and back is a cycle.
  lemma PathWalks(c: GraphConfig, deps: seq<seq<nat>>, state: seq<nat>, path: seq<nat>, stack: seq<Frame>, rank: seq<nat>, clock: nat,
      it: nat, child: nat)
    requires Searching(deps, state, path, stack, rank, clock) && Lists(c, deps)
    requires it < |path| && path[it] == child && child in deps[path[|path| - 1]]
    ensures ClosedWalk(c, path[it..] + [child])
  {
    var w := path[it..] + [child];
    forall k | 0 <= k < |w| - 1 ensures Depends(c, w[k], w[k + 1]) {
      if k < |w| - 2 {
        assert Linked(deps, state, stack, it + k);
      }
    }
  }

  method PositionOf(path: seq<nat>, child: nat) returns (it: nat)
    requires child in path
    ensures it < |path| && path[it] == child && child !in path[..it]
  {
    it := 0;
    while path[it] != child
      invariant it < |path| && child !in path[..it]
      invariant child in path[it..]
      decreases |path| - it
    {
      it := it + 1;
    }
  }

  // What the loop reads off the top frame.
  lemma TopFrame(deps: seq<seq<nat>>, state: seq<nat>, path: seq<nat>, stack: seq<Frame>, rank: seq<nat>, clock: nat)
    requires Searching(deps, state, path, stack, rank, clock)
    ensures |path| == |stack| && |state| == |rank| == |deps|
    ensures forall v: nat :: v < |state| ==> state[v] <= 2 && (stack == [] ==> state[v] != 1)
    ensures stack != [] ==>
      var f := stack[|stack| - 1];
      && f.node < |deps| && f.next <= |deps[f.node]| && path[|path| - 1] == f.node && state[f.node] == 1
      && (f.next < |deps[f.node]| ==>
            var child := deps[f.node][f.next];
            child < |state| && state[child] <= 2 && (state[child] == 1 <==> child in path))
  {
    assert stack != [] ==> path[|path| - 1] in path;
  }

  // One turn of the loop: pop an exhausted frame, report a cycle, enter an unvisited child or skip a finished one.
  method SearchTurn(c: GraphConfig, deps: seq<seq<nat>>, state: array<nat>, path: seq<nat>, stack: seq<Frame>,
    ghost rank: seq<nat>, ghost clock: nat)
    returns (r: Verdict, path': seq<nat>, stack': seq<Frame>, ghost rank': seq<nat>, ghost clock': nat)
    requires Lists(c, deps) && stack != [] && Searching(deps, state[..], path, stack, rank, clock)
    modifies state
    ensures r.Cycle? ==> ClosedWalk(c, r.walk)
    ensures r.Acyclic? ==> Searching(deps, state[..], path', stack', rank', clock')
    ensures r.Acyclic? ==> Nearer(deps, old(state[..]), stack, state[..], stack')
    ensures forall v: nat :: v < state.Length && old(state[v]) != 0 ==> state[v] != 0
    ensures forall v: nat :: v < state.Length && old(state[v]) == 2 ==> state[v] == 2
  {
    ghost var was := state[..];
    hide Searching, Lists, ClosedWalk, White, Work, Coloured, Stacked, Ranked;
    TopFrame(deps, was, path, stack, rank, clock);
    WorkShrinks(deps, stack);
    r, path', stack', rank', clock' := Acyclic, path, stack, rank, clock;
    var below, frame := stack[..|stack| - 1], stack[|stack| - 1];
    if frame.next >= |deps[frame.node]| {
      PopKeeps(deps, was, path, stack, rank, clock);
      WhiteShrinks(was, frame.node, 2);
      state[frame.node] := 2;
      assert state[..] == was[frame.node := 2];
      rank', clock' := rank[frame.node := clock], clock + 1;
      stack', path' := below, path[..|path| - 1];
      return;
    }
    var child := deps[frame.node][frame.next];
    if state[child] == 1 {
      assert child in deps[frame.node];
      var it := PositionOf(path, child);
      PathWalks(c, deps, was, path, stack, rank, clock, it, child);
      r := Cycle(path[it..] + [child]);
      return;
    }
    var advanced := Frame(frame.node, frame.next + 1);
    if state[child] == 0 {
      PushKeeps(deps, was, path, stack, rank, clock);
      WhiteShrinks(was, child, 1);
      state[child] := 1;
      assert state[..] == was[child := 1];
      path' := path + [child];
      stack' := below + [advanced, Frame(child, 0)];
    } else {
      SkipKeeps(deps, was, path, stack, rank, clock);
      stack' := below + [advanced];
    }
  }

  // The search from one start node: everything reachable is finished, or a cycle is found.
  method SearchFrom(c: GraphConfig, deps: seq<seq<nat>>, state: array<nat>, start: nat, ghost rank0: seq<nat>, ghost clock0: nat)
    returns (r: Verdict, ghost rank: seq<nat>, ghost clock: nat)
    requires Lists(c, deps) && start < |deps| && state.Length == |deps| && state[start] == 0
    requires Searching(deps, state[..], [], [], rank0, clock0)
    requires forall v: nat :: v < start ==> state[v] == 2
    modifies state
    ensures r.Cycle? ==> ClosedWalk(c, r.walk)
    ensures r.Acyclic? ==> Searching(deps, state[..], [], [], rank, clock) && forall v: nat :: v <= start ==> state[v] == 2
  {
    var stack := [Frame(start, 0)];
    var path: seq<nat> := [start];
    rank, clock := rank0, clock0;
    StartKeeps(deps, state[..], start, rank, clock);
    ghost var was := state[..];
    state[start] := 1;
    assert state[..] == was[start := 1];
    hide Searching, Lists, ClosedWalk, White, Work, Coloured, Stacked, Ranked;
    r := Acyclic;
    while stack != []
      invariant r == Acyclic && Searching(deps, state[..], path, stack, rank, clock)
      invariant state[start] != 0 && forall v: nat :: v < start ==> state[v] == 2
      decreases White(state[..]), Work(deps, stack)
    {
      r, path, stack, rank, clock := SearchTurn(c, deps, state, path, stack, rank, clock);
      if r.Cycle? {
        return;
      }
    }
    TopFrame(deps, state[..], path, stack, rank, clock);
    assert path == [] && state[..][start] == 2;
  }

  lemma StartKeeps(deps: seq<seq<nat>>, state: seq<nat>, start: nat, rank: seq<nat>, clock: nat)
    requires Searching(deps, state, [], [], rank, clock) && start < |deps| && state[start] == 0
    ensures Searching(deps, state[start := 1], [start], [Frame(start, 0)], rank, clock)
  {
    PushColours(deps, state, [], start);
    assert [] + [start] == [start];
    PushRanks(deps, state, [], start, rank, clock);
  }

  /** The check is exact: it reports a cycle, as a real closed walk, exactly when there is one, and
      otherwise the finishing order is a topological rank. */
  method ValidateNoCycles(c: GraphConfig) returns (r: Verdict)
    ensures r.Cycle? ==> ClosedWalk(c, r.walk)
    ensures r.Acyclic? ==> exists rank: seq<nat> :: TopologicalRank(c, rank)
    ensures r.Acyclic? <==> !exists w: seq<nat> :: ClosedWalk(c, w)
  {
    var n := |c.nodes|;
    var deps := BuildDependencyGraph(c);
    var state := new nat[n](_ => 0);
    ghost var rank: seq<nat>, clock: nat := seq(n, _ => 0), 0;
    assert Closed(deps) by {
      assert forall a: nat, i: nat {:trigger deps[a][i]} :: a < |deps| && i < |deps[a]| ==> deps[a][i] in deps[a];
    }
    for start := 0 to n
      invariant Searching(deps, state[..], [], [], rank, clock)
      invariant forall v: nat :: v < start ==> state[v] == 2
    {
      if state[start] != 0 {
        assert state[..][start] != 1;
        continue;
      }
      r, rank, clock := SearchFrom(c, deps, state, start, rank, clock);
      if r.Cycle? {
        return;
      }
    }
    r := Acyclic;
    AllFinished(c, deps, state[..], rank, clock);
  }

  lemma AllFinished(c: GraphConfig, deps: seq<seq<nat>>, state: seq<nat>, rank: seq<nat>, clock: nat)
    requires |state| == |deps| == |c.nodes| && Closed(deps) && Ranked(deps, state, rank, clock)
    requires Lists(c, deps)
    requires forall v: nat :: v < |state| ==> state[v] == 2
    ensures TopologicalRank(c, rank)
    ensures !exists w: seq<nat> :: ClosedWalk(c, w)
  {
    forall a: nat, b: nat | Depends(c, a, b) ensures rank[b] < rank[a] {
      assert b in deps[a];
    }
    forall w: seq<nat> ensures !ClosedWalk(c, w) {
      RankedIsAcyclic(c, rank, w);
    }
  }
}
