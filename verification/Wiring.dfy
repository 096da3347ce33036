/** GraphRuntime::Initialize: from a validated configuration to the managers and mirrors that run it. */
module Wiring {
  import opened Config
  import opened Graphs

  // ------------------------------------------------------------------ validation

  ghost predicate UniqueNames(c: GraphConfig) {
    forall a, b :: 0 <= a < b < |c.nodes| ==> c.nodes[a].name != c.nodes[b].name
  }

  ghost predicate UniqueExecutors(c: GraphConfig) {
    forall a, b :: 0 <= a < b < |c.executors| ==> c.executors[a] != c.executors[b]
  }

  ghost predicate DistinctStreams(ins: seq<string>) {
    forall i, j :: 0 <= i < j < |ins| ==> StreamName(ins[i]) != StreamName(ins[j])
  }

  ghost predicate NoDuplicateInputs(c: GraphConfig) {
    forall v :: 0 <= v < |c.nodes| ==> DistinctStreams(c.nodes[v].inputs)
  }

  // What Initialize can connect an input of this name to.
  ghost predicate Supplied(c: GraphConfig, name: string) {
    name in c.inputs || exists v: nat :: Produces(c, v, name)
  }

  ghost predicate NamedOutput(c: GraphConfig, name: string) {
    exists k: nat {:trigger c.outputs[k]} :: k < |c.outputs| && StreamName(c.outputs[k]) == name
  }

  // What ValidateConnectivity asks of every node input.
  ghost predicate Connected(c: GraphConfig) {
    forall v: nat, i: nat {:trigger c.nodes[v].inputs[i]} :: v < |c.nodes| && i < |c.nodes[v].inputs| ==>
      Supplied(c, StreamName(c.nodes[v].inputs[i])) || NamedOutput(c, StreamName(c.nodes[v].inputs[i]))
  }

  method ValidateUniqueNames(c: GraphConfig) returns (ok: bool)
    ensures ok <==> UniqueNames(c)
  {
    var seen: set<string> := {};
    for v := 0 to |c.nodes|
      invariant forall s :: s in seen <==> exists a :: 0 <= a < v && c.nodes[a].name == s
      invariant forall a, b :: 0 <= a < b < v ==> c.nodes[a].name != c.nodes[b].name
    {
      if c.nodes[v].name in seen {
        return false;
      }
      seen := seen + {c.nodes[v].name};
    }
    ok := true;
  }

  method ValidateUniqueExecutors(c: GraphConfig) returns (ok: bool)
    ensures ok <==> UniqueExecutors(c)
  {
    var seen: set<string> := {};
    for k := 0 to |c.executors|
      invariant forall s :: s in seen <==> exists a :: 0 <= a < k && c.executors[a] == s
      invariant forall a, b :: 0 <= a < b < k ==> c.executors[a] != c.executors[b]
    {
      if c.executors[k] in seen {
        return false;
      }
      seen := seen + {c.executors[k]};
    }
    ok := true;
  }

  lemma StreamsNext(ins: seq<string>, i: nat, seen: set<string>)
    requires i < |ins| && DistinctStreams(ins[..i])
    requires forall s :: s in seen <==> exists k :: 0 <= k < i && StreamName(ins[k]) == s
    ensures StreamName(ins[i]) in seen ==> !DistinctStreams(ins)
    ensures StreamName(ins[i]) !in seen ==> DistinctStreams(ins[..i + 1])
  {
    hide StreamName;
    if StreamName(ins[i]) in seen {
      var k :| 0 <= k < i && StreamName(ins[k]) == StreamName(ins[i]);
    }
  }

  method DistinctIn(ins: seq<string>) returns (ok: bool)
    ensures ok <==> DistinctStreams(ins)
  {
    hide StreamName, DistinctStreams;
    var seen: set<string> := {};
    assert DistinctStreams(ins[..0]) by { NoStreams(ins[..0]); }
    for i := 0 to |ins|
      invariant forall s :: s in seen <==> exists k :: 0 <= k < i && StreamName(ins[k]) == s
      invariant DistinctStreams(ins[..i])
    {
      StreamsNext(ins, i, seen);
      if StreamName(ins[i]) in seen {
        return false;
      }
      seen := seen + {StreamName(ins[i])};
    }
    assert ins[..|ins|] == ins;
    ok := true;
  }

  lemma NoStreams(ins: seq<string>)
    requires ins == []
    ensures DistinctStreams(ins)
  {
  }

  method ValidateNoDuplicateNodeInputs(c: GraphConfig) returns (ok: bool)
    ensures ok <==> NoDuplicateInputs(c)
  {
    hide DistinctStreams;
    for v := 0 to |c.nodes|
      invariant forall u :: 0 <= u < v ==> DistinctStreams(c.nodes[u].inputs)
    {
      var distinct := DistinctIn(c.nodes[v].inputs);
      if !distinct {
        return false;
      }
    }
    ok := true;
  }

  // One of the first `m` outputs of node `v` carries the name.
  ghost predicate ProducesEarly(c: GraphConfig, v: nat, name: string, m: nat) {
    v < |c.nodes| && exists k: nat {:trigger c.nodes[v].outputs[k]} ::
      k < m && k < |c.nodes[v].outputs| && StreamName(c.nodes[v].outputs[k]) == name
  }

  method CollectOutputStreams(c: GraphConfig) returns (streams: set<string>)
    ensures forall s :: s in streams <==> (exists v: nat :: Produces(c, v, s)) || NamedOutput(c, s)
  {
    streams := {};
    for v := 0 to |c.nodes|
      invariant forall s :: s in streams <==> exists u: nat :: u < v && Produces(c, u, s)
    {
      for k := 0 to |c.nodes[v].outputs|
        invariant forall s :: s in streams <==>
          (exists u: nat :: u < v && Produces(c, u, s)) || ProducesEarly(c, v, s, k)
      {
        streams := streams + {StreamName(c.nodes[v].outputs[k])};
      }
      assert forall s :: ProducesEarly(c, v, s, |c.nodes[v].outputs|) == Produces(c, v, s);
    }
    for k := 0 to |c.outputs|
      invariant forall s :: s in streams <==>
        (exists u: nat :: Produces(c, u, s)) || exists j: nat {:trigger c.outputs[j]} :: j < k && StreamName(c.outputs[j]) == s
    {
      streams := streams + {StreamName(c.outputs[k])};
    }
  }

  method ValidateConnectivity(c: GraphConfig) returns (ok: bool)
    ensures ok <==> Connected(c)
  {
    var streams := CollectOutputStreams(c);
    for v := 0 to |c.nodes|
      invariant forall u: nat, i: nat {:trigger c.nodes[u].inputs[i]} :: u < v && i < |c.nodes[u].inputs| ==>
        Supplied(c, StreamName(c.nodes[u].inputs[i])) || NamedOutput(c, StreamName(c.nodes[u].inputs[i]))
    {
      for i := 0 to |c.nodes[v].inputs|
        invariant forall j: nat {:trigger c.nodes[v].inputs[j]} :: j < i ==>
          Supplied(c, StreamName(c.nodes[v].inputs[j])) || NamedOutput(c, StreamName(c.nodes[v].inputs[j]))
      {
        var name := StreamName(c.nodes[v].inputs[i]);
        if name !in c.inputs && name !in streams {
          return false;
        }
      }
    }
    ok := true;
  }

  // ------------------------------------------------------------------ the tables Initialize fills

  // One InputStreamManager per declared node input, in declaration order.
  ghost predicate EdgeTables(c: GraphConfig, ins: seq<seq<nat>>, dst: seq<nat>, ipos: seq<nat>, n: nat) {
    && |ins| == n <= |c.nodes| && |ipos| == |dst|
    && (forall v :: 0 <= v < n ==> |ins[v]| == |c.nodes[v].inputs|)
    && (forall e :: 0 <= e < |dst| ==> dst[e] < n && ipos[e] < |ins[dst[e]]| && ins[dst[e]][ipos[e]] == e)
    && (forall v, i {:trigger ins[v][i]} :: 0 <= v < n && 0 <= i < |ins[v]| ==>
          ins[v][i] < |dst| && dst[ins[v][i]] == v && ipos[ins[v][i]] == i)
  }

  // The port table of one node after its first `m` inputs: a later input of a port name replaces an earlier one.
  ghost predicate PortTable(inputs: seq<string>, row: seq<nat>, table: map<string, nat>, m: nat)
    requires m <= |inputs| && m <= |row|
  {
    && (forall i :: 0 <= i < m ==> PortName(inputs[i]) in table)
    && (forall name :: name in table ==> exists i :: LastOfPort(inputs, i, name, m) && table[name] == row[i])
  }

  // Input `i` is the last of the first `m` inputs with this port name.
  ghost predicate LastOfPort(inputs: seq<string>, i: int, name: string, m: nat)
    requires m <= |inputs|
  {
    0 <= i < m && PortName(inputs[i]) == name && forall j :: i < j < m ==> PortName(inputs[j]) != name
  }

  ghost predicate PortTables(c: GraphConfig, ins: seq<seq<nat>>, ports: seq<map<string, nat>>, n: nat) {
    && |ports| == n <= |c.nodes| && n <= |ins|
    && (forall v :: 0 <= v < n ==> |ins[v]| == |c.nodes[v].inputs| && PortTable(c.nodes[v].inputs, ins[v], ports[v], |ins[v]|))
  }

  method MakeInputManagers(c: GraphConfig) returns (ins: seq<seq<nat>>, dst: seq<nat>, ipos: seq<nat>, ports: seq<map<string, nat>>)
    ensures EdgeTables(c, ins, dst, ipos, |c.nodes|)
    ensures PortTables(c, ins, ports, |c.nodes|)
  {
    ins, dst, ipos, ports := [], [], [], [];
    for v := 0 to |c.nodes|
      invariant EdgeTables(c, ins, dst, ipos, v)
      invariant PortTables(c, ins, ports, v)
    {
      var row: seq<nat> := [];
      var table: map<string, nat> := map[];
      ghost var dst0, ipos0, ins0, ports0 := dst, ipos, ins, ports;
      for i := 0 to |c.nodes[v].inputs|
        invariant |row| == i && |dst| == |ipos| == |dst0| + i
        invariant dst0 <= dst && ipos0 <= ipos
        invariant forall k :: 0 <= k < i ==> row[k] == |dst0| + k
        invariant forall e :: |dst0| <= e < |dst| ==> dst[e] == v && ipos[e] == e - |dst0|
        invariant PortTable(c.nodes[v].inputs, row, table, i)
      {
        PortAdded(c.nodes[v].inputs, row, table, i, |dst|);
        row := row + [|dst|];
        table := table[PortName(c.nodes[v].inputs[i]) := |dst|];
        dst := dst + [v];
        ipos := ipos + [i];
      }
      ins := ins + [row];
      ports := ports + [table];
      PortTablesNext(c, ins0, ports0, v, row, table);
    }
  }

  lemma PortTablesNext(c: GraphConfig, ins: seq<seq<nat>>, ports: seq<map<string, nat>>, v: nat, row: seq<nat>, table: map<string, nat>)
    requires v < |c.nodes| && |ins| == v && PortTables(c, ins, ports, v)
    requires |row| == |c.nodes[v].inputs| && PortTable(c.nodes[v].inputs, row, table, |row|)
    ensures PortTables(c, ins + [row], ports + [table], v + 1)
  {
    hide PortTable;
  }

  // SetInputPort of one more input.
  lemma PortAdded(inputs: seq<string>, row: seq<nat>, table: map<string, nat>, i: nat, e: nat)
    requires i < |inputs| && |row| == i && PortTable(inputs, row, table, i)
    ensures PortTable(inputs, row + [e], table[PortName(inputs[i]) := e], i + 1)
  {
    var table' := table[PortName(inputs[i]) := e];
    forall name | name in table'
      ensures exists k :: LastOfPort(inputs, k, name, i + 1) && table'[name] == (row + [e])[k]
    {
      if name == PortName(inputs[i]) {
        assert LastOfPort(inputs, i, name, i + 1) && table'[name] == (row + [e])[i];
      } else {
        var k :| LastOfPort(inputs, k, name, i) && table[name] == row[k];
        assert LastOfPort(inputs, k, name, i + 1) && table'[name] == (row + [e])[k];
      }
    }
  }

  // One OutputStreamManager per declared node output, then one per distinct graph input; the lookup
  // by name ends at the last manager registered under it.
  ghost predicate StreamTables(c: GraphConfig, outs: seq<seq<nat>>, owner: seq<Option<nat>>, opos: seq<nat>, n: nat) {
    && |outs| == n <= |c.nodes| && |opos| == |owner|
    && (forall v :: 0 <= v < n ==> |outs[v]| == |c.nodes[v].outputs|)
    && (forall v: nat, k: nat {:trigger outs[v][k]} :: v < n && k < |outs[v]| ==>
          outs[v][k] < |owner| && owner[outs[v][k]] == Some(v) && opos[outs[v][k]] == k)
    && (forall q :: 0 <= q < |owner| && owner[q].Some? ==>
          owner[q].value < n && opos[q] < |outs[owner[q].value]| && outs[owner[q].value][opos[q]] == q)
  }

  // The manager found under `name` belongs to the last node that declares it, unless a graph input does.
  ghost predicate Found(c: GraphConfig, owner: seq<Option<nat>>, opos: seq<nat>, name: string, q: nat) {
    && q < |owner| == |opos|
    && match owner[q]
       case None => name in c.inputs
       case Some(v) =>
         && name !in c.inputs
         && v < |c.nodes| && opos[q] < |c.nodes[v].outputs| && StreamName(c.nodes[v].outputs[opos[q]]) == name
         && forall u: nat {:trigger Produces(c, u, name)} :: u > v ==> !Produces(c, u, name)
  }

  // The node outputs registered so far: those of nodes before `n`, and the first `m` of node `n`.
  ghost predicate Registered(c: GraphConfig, byName: map<string, nat>, owner: seq<Option<nat>>, opos: seq<nat>, n: nat, m: nat)
    requires n < |c.nodes| ==> m <= |c.nodes[n].outputs|
    requires n >= |c.nodes| ==> m == 0
  {
    && |owner| == |opos|
    && (forall name, q: nat :: name in byName && byName[name] == q ==>
          q < |owner| && owner[q].Some? && var v := owner[q].value;
          && (v < n || (v == n && opos[q] < m))
          && v < |c.nodes| && opos[q] < |c.nodes[v].outputs| && StreamName(c.nodes[v].outputs[opos[q]]) == name
          && (forall u: nat {:trigger Produces(c, u, name)} :: v < u < n ==> !Produces(c, u, name))
          && (v < n ==> forall k: nat :: k < m ==> StreamName(c.nodes[n].outputs[k]) != name))
    && (forall u: nat, k: nat {:trigger c.nodes[u].outputs[k]} ::
          u < |c.nodes| && k < |c.nodes[u].outputs| && (u < n || (u == n && k < m)) ==>
          StreamName(c.nodes[u].outputs[k]) in byName)
  }

  method MakeOutputManagers(c: GraphConfig) returns (outs: seq<seq<nat>>, owner: seq<Option<nat>>, opos: seq<nat>)
    ensures StreamTables(c, outs, owner, opos, |c.nodes|)
    ensures forall q :: 0 <= q < |owner| ==> owner[q].Some?
  {
    outs, owner, opos := [], [], [];
    for v := 0 to |c.nodes|
      invariant StreamTables(c, outs, owner, opos, v)
      invariant forall q :: 0 <= q < |owner| ==> owner[q].Some?
    {
      var row: seq<nat> := [];
      ghost var owner0, opos0 := owner, opos;
      for k := 0 to |c.nodes[v].outputs|
        invariant |row| == k && |owner| == |opos| == |owner0| + k
        invariant owner0 <= owner && opos0 <= opos
        invariant forall j :: 0 <= j < k ==> row[j] == |owner0| + j
        invariant forall q :: |owner0| <= q < |owner| ==> owner[q] == Some(v) && opos[q] == q - |owner0|
      {
        row := row + [|owner|];
        owner := owner + [Some(v)];
        opos := opos + [k];
      }
      outs := outs + [row];
    }
  }

  method RegisterOutputs(c: GraphConfig, outs: seq<seq<nat>>, ghost owner: seq<Option<nat>>, ghost opos: seq<nat>)
    returns (byName: map<string, nat>)
    requires StreamTables(c, outs, owner, opos, |c.nodes|)
    ensures Registered(c, byName, owner, opos, |c.nodes|, 0)
  {
    byName := map[];
    for v := 0 to |c.nodes|
      invariant Registered(c, byName, owner, opos, v, 0)
    {
      for k := 0 to |c.nodes[v].outputs|
        invariant Registered(c, byName, owner, opos, v, k)
      {
        byName := byName[StreamName(c.nodes[v].outputs[k]) := outs[v][k]];
      }
      NextNode(c, byName, owner, opos, v);
    }
  }

  lemma NextNode(c: GraphConfig, byName: map<string, nat>, owner: seq<Option<nat>>, opos: seq<nat>, v: nat)
    requires v < |c.nodes| && Registered(c, byName, owner, opos, v, |c.nodes[v].outputs|)
    ensures Registered(c, byName, owner, opos, v + 1, 0)
  {
  }

  // ------------------------------------------------------------------ graph inputs and mirrors

  ghost predicate Looked(c: GraphConfig, byName: map<string, nat>, owner: seq<Option<nat>>, opos: seq<nat>) {
    && (forall name, q: nat :: name in byName && byName[name] == q ==> Found(c, owner, opos, name, q))
    && (forall name :: name in byName <==> Supplied(c, name))
  }

  // A graph input takes its name over. A repeated entry replaces a manager nobody has used yet, so it
  // adds nothing; the count of open inputs is of distinct names too.
  method RegisterGraphInputs(c: GraphConfig, owner0: seq<Option<nat>>, opos0: seq<nat>, byName0: map<string, nat>)
    returns (owner: seq<Option<nat>>, opos: seq<nat>, byName: map<string, nat>)
    requires |owner0| == |opos0| && Registered(c, byName0, owner0, opos0, |c.nodes|, 0)
    ensures |opos| == |owner| && owner0 <= owner && opos0 <= opos
    ensures forall q :: |owner0| <= q < |owner| ==> owner[q].None?
    ensures Looked(c, byName, owner, opos)
  {
    owner, opos, byName := owner0, opos0, byName0;
    for k := 0 to |c.inputs|
      invariant |opos| == |owner| && owner0 <= owner && opos0 <= opos
      invariant forall q :: |owner0| <= q < |owner| ==> owner[q].None?
      invariant forall name :: name in c.inputs[..k] ==> name in byName && |owner0| <= byName[name] < |owner|
      invariant forall name :: name !in c.inputs[..k] ==>
        (name in byName <==> name in byName0) && (name in byName ==> byName[name] == byName0[name])
    {
      if c.inputs[k] !in c.inputs[..k] {
        byName := byName[c.inputs[k] := |owner|];
        owner := owner + [None];
        opos := opos + [0];
      }
      assert c.inputs[..k + 1] == c.inputs[..k] + [c.inputs[k]];
    }
    assert c.inputs[..|c.inputs|] == c.inputs;
    forall name, q: nat | name in byName && byName[name] == q ensures Found(c, owner, opos, name, q) {
      if name !in c.inputs {
        assert byName0[name] == q;
        NoLaterProducer(c, byName0, owner0, opos0, name);
      }
    }
    forall name ensures name in byName <==> Supplied(c, name) {
      if exists v: nat :: Produces(c, v, name) {
        var v: nat :| Produces(c, v, name);
        var k: nat :| k < |c.nodes[v].outputs| && StreamName(c.nodes[v].outputs[k]) == name;
        assert c.nodes[v].outputs[k] == c.nodes[v].outputs[k];
      }
      if name in byName0 {
        var q := byName0[name];
        assert Produces(c, owner0[q].value, name);
      }
    }
  }

  lemma NoLaterProducer(c: GraphConfig, byName: map<string, nat>, owner: seq<Option<nat>>, opos: seq<nat>, name: string)
    requires Registered(c, byName, owner, opos, |c.nodes|, 0) && name in byName
    ensures byName[name] < |owner| && owner[byName[name]].Some?
    ensures forall u: nat {:trigger Produces(c, u, name)} :: u > owner[byName[name]].value ==> !Produces(c, u, name)
  {
  }

  function EdgeName(c: GraphConfig, dst: seq<nat>, ipos: seq<nat>, e: nat): (r: string)
    requires e < |dst| == |ipos| && dst[e] < |c.nodes| && ipos[e] < |c.nodes[dst[e]].inputs|
  {
    StreamName(c.nodes[dst[e]].inputs[ipos[e]])
  }

  ghost predicate MirrorTables(mirrors: seq<seq<nat>>, src: seq<nat>, mpos: seq<nat>, fed: seq<bool>) {
    && |src| == |mpos| == |fed|
    && (forall e :: 0 <= e < |fed| && fed[e] ==>
          src[e] < |mirrors| && mpos[e] < |mirrors[src[e]]| && mirrors[src[e]][mpos[e]] == e)
    && (forall q, j {:trigger mirrors[q][j]} :: 0 <= q < |mirrors| && 0 <= j < |mirrors[q]| ==>
          mirrors[q][j] < |fed| && fed[mirrors[q][j]] && src[mirrors[q][j]] == q && mpos[mirrors[q][j]] == j)
  }

  // AddMirror on the manager found under the edge's stream name.
  lemma MirrorAdded(mirrors: seq<seq<nat>>, src: seq<nat>, mpos: seq<nat>, fed: seq<bool>, e: nat, q: nat)
    requires MirrorTables(mirrors, src, mpos, fed) && e < |fed| && !fed[e] && q < |mirrors|
    ensures MirrorTables(mirrors[q := mirrors[q] + [e]], src[e := q], mpos[e := |mirrors[q]|], fed[e := true])
  {
  }

  // No manager is registered twice with one stream, nor with two.
  lemma MirrorsAreDistinct(mirrors: seq<seq<nat>>, src: seq<nat>, mpos: seq<nat>, fed: seq<bool>, q: nat, j: nat, q': nat, j': nat)
    requires MirrorTables(mirrors, src, mpos, fed)
    requires q < |mirrors| && j < |mirrors[q]| && q' < |mirrors| && j' < |mirrors[q']| && (q != q' || j != j')
    ensures mirrors[q][j] != mirrors[q'][j']
  {
    assert src[mirrors[q][j]] == q && mpos[mirrors[q][j]] == j;
  }

  ghost predicate Mirrored(c: GraphConfig, byName: map<string, nat>, dst: seq<nat>, ipos: seq<nat>, src: seq<nat>, fed: seq<bool>, e: nat)
    requires e < |dst| == |ipos| == |src| == |fed| && dst[e] < |c.nodes| && ipos[e] < |c.nodes[dst[e]].inputs|
  {
    && (fed[e] <==> EdgeName(c, dst, ipos, e) in byName)
    && (fed[e] ==> src[e] == byName[EdgeName(c, dst, ipos, e)])
  }

  // The edges handled so far are mirrored, the others are not fed yet.
  ghost predicate MirroredUpTo(c: GraphConfig, byName: map<string, nat>, ins: seq<seq<nat>>, dst: seq<nat>, ipos: seq<nat>,
    src: seq<nat>, fed: seq<bool>, n: nat, m: nat)
    requires EdgeTables(c, ins, dst, ipos, |c.nodes|) && |src| == |fed| == |dst|
  {
    forall e: nat {:trigger fed[e]} :: e < |dst| ==>
      if dst[e] < n || (dst[e] == n && ipos[e] < m) then Mirrored(c, byName, dst, ipos, src, fed, e) else !fed[e]
  }

  lemma MirroredNext(c: GraphConfig, byName: map<string, nat>, ins: seq<seq<nat>>, dst: seq<nat>, ipos: seq<nat>,
    src: seq<nat>, fed: seq<bool>, v: nat, i: nat)
    requires EdgeTables(c, ins, dst, ipos, |c.nodes|) && |src| == |fed| == |dst|
    requires v < |c.nodes| && i < |c.nodes[v].inputs| && MirroredUpTo(c, byName, ins, dst, ipos, src, fed, v, i)
    ensures var e := ins[v][i]; var name := StreamName(c.nodes[v].inputs[i]);
      && e < |fed| && !fed[e]
      && (name !in byName ==> MirroredUpTo(c, byName, ins, dst, ipos, src, fed, v, i + 1))
      && (name in byName ==> MirroredUpTo(c, byName, ins, dst, ipos, src[e := byName[name]], fed[e := true], v, i + 1))
  {
    var e0, name := ins[v][i], StreamName(c.nodes[v].inputs[i]);
    assert !fed[e0];
    var src' := if name in byName then src[e0 := byName[name]] else src;
    var fed' := if name in byName then fed[e0 := true] else fed;
    forall e: nat | e < |dst|
      ensures if dst[e] < v || (dst[e] == v && ipos[e] < i + 1) then Mirrored(c, byName, dst, ipos, src', fed', e) else !fed'[e]
    {
      assert e != e0 ==> fed'[e] == fed[e];
      assert ins[dst[e]][ipos[e]] == e;
    }
  }

  lemma MirroredRow(c: GraphConfig, byName: map<string, nat>, ins: seq<seq<nat>>, dst: seq<nat>, ipos: seq<nat>,
    src: seq<nat>, fed: seq<bool>, v: nat)
    requires EdgeTables(c, ins, dst, ipos, |c.nodes|) && |src| == |fed| == |dst| && v < |c.nodes|
    requires MirroredUpTo(c, byName, ins, dst, ipos, src, fed, v, |c.nodes[v].inputs|)
    ensures MirroredUpTo(c, byName, ins, dst, ipos, src, fed, v + 1, 0)
  {
    forall e: nat | e < |dst|
      ensures if dst[e] < v + 1 then Mirrored(c, byName, dst, ipos, src, fed, e) else !fed[e]
    {
      assert fed[e] == fed[e];
      assert ipos[e] < |ins[dst[e]]|;
    }
  }

  method WireMirrors(c: GraphConfig, byName: map<string, nat>, streams: nat, ins: seq<seq<nat>>, dst: seq<nat>, ipos: seq<nat>)
    returns (mirrors: seq<seq<nat>>, src: seq<nat>, mpos: seq<nat>, fed: seq<bool>)
    requires EdgeTables(c, ins, dst, ipos, |c.nodes|)
    requires forall name :: name in byName ==> byName[name] < streams
    ensures |mirrors| == streams && |src| == |fed| == |dst| && MirrorTables(mirrors, src, mpos, fed)
    ensures MirroredUpTo(c, byName, ins, dst, ipos, src, fed, |c.nodes|, 0)
  {
    mirrors := seq(streams, _ => []);
    src, mpos, fed := seq(|dst|, _ => streams), seq(|dst|, _ => 0), seq(|dst|, _ => false);
    for v := 0 to |c.nodes|
      invariant |mirrors| == streams && |src| == |fed| == |dst| && MirrorTables(mirrors, src, mpos, fed)
      invariant MirroredUpTo(c, byName, ins, dst, ipos, src, fed, v, 0)
    {
      for i := 0 to |c.nodes[v].inputs|
        invariant |mirrors| == streams && |src| == |fed| == |dst| && MirrorTables(mirrors, src, mpos, fed)
        invariant MirroredUpTo(c, byName, ins, dst, ipos, src, fed, v, i)
      {
        var name := StreamName(c.nodes[v].inputs[i]);
        var e := ins[v][i];
        assert !fed[e];
        MirroredNext(c, byName, ins, dst, ipos, src, fed, v, i);
        if name in byName {
          var q := byName[name];
          MirrorAdded(mirrors, src, mpos, fed, e, q);
          src, mpos, fed := src[e := q], mpos[e := |mirrors[q]|], fed[e := true];
          mirrors := mirrors[q := mirrors[q] + [e]];
        }
      }
      MirroredRow(c, byName, ins, dst, ipos, src, fed, v);
    }
  }

  // ------------------------------------------------------------------ the whole

  /** The wiring serves the configuration: node v's i-th input and k-th output are edge ins[v][i] and
      stream outs[v][k]; an edge is fed exactly when its name is supplied, and then by the graph input
      of that name or else by the last node that declares it. */
  ghost predicate Serves(c: GraphConfig, g: Graph, fed: seq<bool>) {
    && SameLengths(g) && |fed| == |g.dst|
    && EdgeTables(c, g.ins, g.dst, g.ipos, |c.nodes|)
    && StreamTables(c, g.outs, g.owner, g.opos, |c.nodes|)
    && MirrorTables(g.mirrors, g.src, g.mpos, fed)
    && (forall e: nat {:trigger IsEdge(g, e)} :: IsEdge(g, e) ==>
          && (fed[e] <==> Supplied(c, EdgeName(c, g.dst, g.ipos, e)))
          && (fed[e] ==> Found(c, g.owner, g.opos, EdgeName(c, g.dst, g.ipos, e), g.src[e])))
  }

  method Initialize(c: GraphConfig, caps: seq<int>) returns (g: Graph, fed: seq<bool>, ports: seq<map<string, nat>>)
    requires |caps| == |c.nodes|
    ensures Serves(c, g, fed) && PortTables(c, g.ins, ports, |c.nodes|) && g.cap == caps
  {
    var ins, dst, ipos;
    ins, dst, ipos, ports := MakeInputManagers(c);
    var outs, owner0, opos0 := MakeOutputManagers(c);
    var byName0 := RegisterOutputs(c, outs, owner0, opos0);
    var owner, opos, byName := RegisterGraphInputs(c, owner0, opos0, byName0);
    assert forall name :: name in byName ==> Found(c, owner, opos, name, byName[name]);
    var mirrors, src, mpos;
    mirrors, src, mpos, fed := WireMirrors(c, byName, |owner|, ins, dst, ipos);
    g := Graph(ins, outs, caps, mirrors, owner, opos, dst, ipos, src, mpos);
    forall e: nat | IsEdge(g, e)
      ensures (fed[e] <==> Supplied(c, EdgeName(c, dst, ipos, e)))
      ensures fed[e] ==> Found(c, owner, opos, EdgeName(c, dst, ipos, e), src[e])
    {
      assert fed[e] == fed[e];
      assert Mirrored(c, byName, dst, ipos, src, fed, e);
    }
  }

  // ------------------------------------------------------------------ the ports a node looks at

  /** No two inputs of a node share a port name. */
  ghost predicate DistinctInputPorts(c: GraphConfig) {
    forall v: nat, i: nat, j: nat {:trigger c.nodes[v].inputs[i], c.nodes[v].inputs[j]} ::
      v < |c.nodes| && i < j < |c.nodes[v].inputs| ==> PortName(c.nodes[v].inputs[i]) != PortName(c.nodes[v].inputs[j])
  }

  // No two outputs of a node share a port name: shards are looked up by it, so each output has one of its own.
  ghost predicate DistinctOutputPorts(c: GraphConfig) {
    forall v: nat, i: nat, j: nat {:trigger c.nodes[v].outputs[i], c.nodes[v].outputs[j]} ::
      v < |c.nodes| && i < j < |c.nodes[v].outputs| ==> PortName(c.nodes[v].outputs[i]) != PortName(c.nodes[v].outputs[j])
  }

  ghost predicate DistinctPorts(c: GraphConfig) {
    DistinctInputPorts(c) && DistinctOutputPorts(c)
  }

  /** The manager of node v's i-th input is one of those a run of the node, and the drain, go through. */
  ghost predicate Polled(ins: seq<seq<nat>>, ports: seq<map<string, nat>>, v: nat, i: nat)
    requires v < |ins| && v < |ports| && i < |ins[v]|
  {
    ins[v][i] in ports[v].Values
  }

  ghost predicate AllPolled(ins: seq<seq<nat>>, ports: seq<map<string, nat>>) {
    |ports| == |ins| && forall v: nat, i: nat {:trigger ins[v][i]} :: v < |ins| && i < |ins[v]| ==> Polled(ins, ports, v, i)
  }

  // An input is polled exactly when no later input of its node takes its port name.
  lemma PolledUnlessShadowed(c: GraphConfig, g: Graph, fed: seq<bool>, ports: seq<map<string, nat>>, v: nat, i: nat)
    requires Serves(c, g, fed) && PortTables(c, g.ins, ports, |c.nodes|) && v < |c.nodes| && i < |c.nodes[v].inputs|
    ensures Polled(g.ins, ports, v, i) <==>
      forall j: nat :: i < j < |c.nodes[v].inputs| ==> PortName(c.nodes[v].inputs[j]) != PortName(c.nodes[v].inputs[i])
  {
    var inputs, row, table, m := c.nodes[v].inputs, g.ins[v], ports[v], |g.ins[v]|;
    forall k, l | 0 <= k < m && 0 <= l < m && row[k] == row[l] ensures k == l {
      assert g.ipos[g.ins[v][k]] == k && g.ipos[g.ins[v][l]] == l;
    }
    hide Serves, EdgeTables;
    var name := PortName(inputs[i]);
    var last :| LastOfPort(inputs, last, name, m) && table[name] == row[last];
    if Polled(g.ins, ports, v, i) {
      var other :| other in table && table[other] == row[i];
      var k :| LastOfPort(inputs, k, other, m) && table[other] == row[k];
      assert k == i && other == name && last == i;
    }
    if forall j: nat :: i < j < |inputs| ==> PortName(inputs[j]) != name {
      assert last == i;
      assert table[name] in table.Values;
    }
  }

  /** Every declared input is looked at by its node's runs exactly when port names are distinct within each node. */
  lemma PolledExactly(c: GraphConfig, g: Graph, fed: seq<bool>, ports: seq<map<string, nat>>)
    requires Serves(c, g, fed) && PortTables(c, g.ins, ports, |c.nodes|)
    ensures AllPolled(g.ins, ports) <==> DistinctInputPorts(c)
  {
    assert |g.ins| == |c.nodes| && forall v :: 0 <= v < |c.nodes| ==> |g.ins[v]| == |c.nodes[v].inputs|;
    if AllPolled(g.ins, ports) {
      forall v: nat, i: nat, j: nat | v < |c.nodes| && i < j < |c.nodes[v].inputs|
        ensures PortName(c.nodes[v].inputs[i]) != PortName(c.nodes[v].inputs[j])
      {
        PolledUnlessShadowed(c, g, fed, ports, v, i);
        hide Serves, EdgeTables, Polled;
        assert g.ins[v][i] == g.ins[v][i];
      }
    }
    if DistinctInputPorts(c) {
      forall v: nat, i: nat | v < |g.ins| && i < |g.ins[v]| ensures Polled(g.ins, ports, v, i) {
        PolledUnlessShadowed(c, g, fed, ports, v, i);
        hide Serves, EdgeTables, Polled;
        forall j: nat | i < j < |c.nodes[v].inputs| ensures PortName(c.nodes[v].inputs[j]) != PortName(c.nodes[v].inputs[i]) {
          var _ := c.nodes[v].inputs[i];
        }
      }
    }
  }

  // With every input fed, the wiring is what the engine needs.
  lemma FedIsWellWired(c: GraphConfig, g: Graph, fed: seq<bool>)
    requires Serves(c, g, fed) && (forall e :: 0 <= e < |fed| ==> fed[e])
    requires forall v :: 0 <= v < |g.cap| ==> g.cap[v] >= 1
    ensures WellWired(g)
  {
  }

  /** Acyclicity carries over: every mirror follows a dependency of the configuration, so a topological
      rank of the configuration ranks the running graph. */
  lemma RankCarriesOver(c: GraphConfig, g: Graph, fed: seq<bool>, rank: seq<nat>)
    requires Serves(c, g, fed) && WellWired(g) && TopologicalRank(c, rank)
    requires forall e :: 0 <= e < |fed| ==> fed[e]
    ensures Ranks(g, rank)
    ensures forall e: nat, v: nat {:trigger IsEdge(g, e), Owns(g, v, g.src[e])} ::
      IsEdge(g, e) && Owns(g, v, g.src[e]) ==> Depends(c, g.dst[e], v)
  {
    forall e: nat, v: nat | IsEdge(g, e) && Owns(g, v, g.src[e]) ensures Depends(c, g.dst[e], v) {
      assert Found(c, g.owner, g.opos, EdgeName(c, g.dst, g.ipos, e), g.src[e]);
      assert StreamName(c.nodes[g.dst[e]].inputs[g.ipos[e]]) == StreamName(c.nodes[v].outputs[g.opos[g.src[e]]]);
    }
  }

  ghost predicate NamesOnlyGraphOutput(c: GraphConfig) {
    exists v: nat, i: nat {:trigger c.nodes[v].inputs[i]} :: v < |c.nodes| && i < |c.nodes[v].inputs|
      && NamedOutput(c, StreamName(c.nodes[v].inputs[i])) && !Supplied(c, StreamName(c.nodes[v].inputs[i]))
  }

  /** A configuration that passes ValidateConnectivity has every input fed exactly when no node input is
      named only by the graph's own output list. */
  lemma ConnectedIsFed(c: GraphConfig, g: Graph, fed: seq<bool>)
    requires Serves(c, g, fed) && Connected(c)
    ensures (forall e :: 0 <= e < |fed| ==> fed[e]) <==> !NamesOnlyGraphOutput(c)
  {
    forall e: nat | IsEdge(g, e) ensures fed[e] <==> Supplied(c, StreamName(c.nodes[g.dst[e]].inputs[g.ipos[e]])) {}
    forall v: nat, i: nat | v < |c.nodes| && i < |c.nodes[v].inputs| && (forall e :: 0 <= e < |fed| ==> fed[e])
      ensures Supplied(c, StreamName(c.nodes[v].inputs[i]))
    {
      var e := g.ins[v][i];
      assert IsEdge(g, e) && fed[e];
    }
  }

  // Such an input passes every check and is left without a producer.
  lemma StarvedInput(g: Graph, fed: seq<bool>)
    requires var c := GraphConfig([NodeDef("sink", ["x"], [])], [], ["x"], []); Serves(c, g, fed)
    ensures var c := GraphConfig([NodeDef("sink", ["x"], [])], [], ["x"], []);
      && UniqueNames(c) && UniqueExecutors(c) && NoDuplicateInputs(c) && Connected(c) && TopologicalRank(c, [0])
      && |fed| > 0 && !fed[0]
  {
    var c := GraphConfig([NodeDef("sink", ["x"], [])], [], ["x"], []);
    assert c.outputs[0] == "x" && NamedOutput(c, StreamName("x"));
    assert |g.ins[0]| == |c.nodes[0].inputs| == 1;
    assert g.ins[0][0] < |g.dst|;
    assert g.dst[0] == 0 && g.ipos[0] == 0 && g.ins[0][0] == 0;
    forall k | 0 <= k < |g.ipos| ensures g.ipos[k] == 0 && k == 0 {
      assert g.dst[k] < 1 && g.ins[g.dst[k]][g.ipos[k]] == k;
    }
    assert IsEdge(g, 0);
    assert !Supplied(c, EdgeName(c, g.dst, g.ipos, 0));
  }

  const SHADOWING := GraphConfig([NodeDef("source", [], ["o1:a", "o2:b"]), NodeDef("sink", ["in:a", "in:b"], [])], [], [], [])

  lemma ShadowingNames()
    ensures PortName("in:a") == "in" && PortName("in:b") == "in" && PortName("in:a") == PortName("in:b")
    ensures StreamName("in:a") == "a" && StreamName("in:b") == "b" && StreamName("o1:a") == "a" && StreamName("o2:b") == "b"
  {
    assert "in:a" == "in" + ":" + "a" && "in:b" == "in" + ":" + "b" && "o1:a" == "o1" + ":" + "a" && "o2:b" == "o2" + ":" + "b";
    PortAndStream("in", "a");
    PortAndStream("in", "b");
    PortAndStream("o1", "a");
    PortAndStream("o2", "b");
  }

  lemma ShadowingAccepted()
    ensures UniqueNames(SHADOWING) && UniqueExecutors(SHADOWING) && NoDuplicateInputs(SHADOWING) && Connected(SHADOWING)
    ensures TopologicalRank(SHADOWING, [0, 1]) && Supplied(SHADOWING, "a") && Supplied(SHADOWING, "b")
  {
    ShadowingNames();
    hide PortName, StreamName;
    assert SHADOWING.nodes[0].outputs[0] == "o1:a" && SHADOWING.nodes[0].outputs[1] == "o2:b";
    assert Produces(SHADOWING, 0, "a") && Produces(SHADOWING, 0, "b");
    forall v: nat, i: nat | v < 2 && i < |SHADOWING.nodes[v].inputs| ensures Supplied(SHADOWING, StreamName(SHADOWING.nodes[v].inputs[i])) {}
    forall a: nat, b: nat | Depends(SHADOWING, a, b) ensures [0, 1][b] < [0, 1][a] {
      assert a == 1 && b == 0;
    }
  }

  lemma ShadowingFed(g: Graph, fed: seq<bool>)
    requires Serves(SHADOWING, g, fed)
    ensures |g.ins| == 2 && |g.ins[1]| == 2 && |fed| == |g.dst| && g.ins[1][0] < |fed| && fed[g.ins[1][0]]
  {
    ShadowingAccepted();
    ShadowingNames();
    var e := g.ins[1][0];
    assert IsEdge(g, e) && EdgeName(SHADOWING, g.dst, g.ipos, e) == StreamName("in:a");
    hide PortName, StreamName;
  }

  /** Two inputs of one node under one port name: the configuration passes every check, both managers are fed,
      and the node never looks at the first. */
  lemma ShadowedPort(g: Graph, fed: seq<bool>, ports: seq<map<string, nat>>)
    requires Serves(SHADOWING, g, fed) && PortTables(SHADOWING, g.ins, ports, 2)
    ensures UniqueNames(SHADOWING) && UniqueExecutors(SHADOWING) && NoDuplicateInputs(SHADOWING) && Connected(SHADOWING)
    ensures TopologicalRank(SHADOWING, [0, 1]) && !NamesOnlyGraphOutput(SHADOWING) && !DistinctInputPorts(SHADOWING)
    ensures |g.ins| == 2 && |g.ins[1]| == 2 && |fed| == |g.dst| && g.ins[1][0] < |fed| && fed[g.ins[1][0]]
    ensures !Polled(g.ins, ports, 1, 0)
  {
    ShadowingAccepted();
    ShadowingNames();
    ShadowingFed(g, fed);
    hide PortName, StreamName, Serves, PortTables, EdgeTables;
    var c := SHADOWING;
    PolledUnlessShadowed(c, g, fed, ports, 1, 0);
    assert PortName(c.nodes[1].inputs[0]) == PortName(c.nodes[1].inputs[1]);
    forall v: nat, i: nat | v < |c.nodes| && i < |c.nodes[v].inputs| ensures Supplied(c, StreamName(c.nodes[v].inputs[i])) {
      assert v == 1 && (i == 0 || i == 1);
    }
  }
}
