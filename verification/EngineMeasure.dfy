/** How much work a step can still cause: what the threads and the queue may yet ask of a node is paid
    for by changes of the node's inputs, and those by the Process calls of its producers. */
module EngineMeasure {
  import opened Timestamps
  import opened StreamState
  import opened RunQueueState
  import opened Graphs
  import opened Engine
  import opened EngineShape
  import opened EngineAccounting
  import opened EngineSources
  import opened EngineFlow
  import opened EngineFinal

  // ------------------------------------------------------------------ sums over threads

  function Total(f: Thread -> nat, ths: seq<Thread>): nat {
    if ths == [] then 0 else f(ths[0]) + Total(f, ths[1..])
  }

  lemma {:induction false} TotalUpdate(f: Thread -> nat, ths: seq<Thread>, t: nat, th: Thread)
    requires t < |ths|
    ensures Total(f, ths[t := th]) + f(ths[t]) == Total(f, ths) + f(th)
  {
    if t == 0 {
      assert ths[0 := th][1..] == ths[1..];
    } else {
      assert ths[t := th][1..] == ths[1..][t - 1 := th];
      TotalUpdate(f, ths[1..], t - 1, th);
    }
  }

  lemma {:induction false} TotalRise(f: Thread -> nat, f': Thread -> nat, ths: seq<Thread>, c: nat)
    requires forall th :: f'(th) <= f(th) + c
    ensures Total(f', ths) <= Total(f, ths) + c * |ths|
  {
    if ths != [] {
      TotalRise(f, f', ths[1..], c);
      assert c * |ths| == c * |ths[1..]| + c;
    }
  }

  // One thread moves while the others' values rise by at most `c` each.
  lemma {:induction false} TotalMove(f: Thread -> nat, f': Thread -> nat, ths: seq<Thread>, t: nat, th: Thread, c: nat)
    requires t < |ths| && forall u :: f'(u) <= f(u) + c
    ensures Total(f', ths[t := th]) + f(ths[t]) <= Total(f, ths) + f'(th) + c * (|ths| - 1)
  {
    if t == 0 {
      assert ths[0 := th][1..] == ths[1..];
      TotalRise(f, f', ths[1..], c);
    } else {
      assert ths[t := th][1..] == ths[1..][t - 1 := th];
      TotalMove(f, f', ths[1..], t - 1, th, c);
      assert c * (|ths| - 1) == c * (|ths[1..]| - 1) + c;
    }
  }

  // ------------------------------------------------------------------ what a node can still be asked

  /** What a node's runs look at: its inboxes in port order, and whether it is finalized. */
  datatype View = View(ports: seq<Inbox>, fin: bool)

  function ViewOf(g: Graph, s: State, v: nat): (w: View)
    requires WellWired(g) && Sized(g, s) && IsNode(g, v)
    ensures |w.ports| == |g.ins[v]|
  {
    View(seq(|g.ins[v]|, i requires 0 <= i < |g.ins[v]| => s.edges[InEdge(g, v, i)]), v in s.queue.finalized)
  }

  // A port below `i` holds a packet.
  predicate Holding(w: View, i: nat) {
    exists j :: 0 <= j < i && j < |w.ports| && w.ports[j].queue != []
  }

  predicate Ended(w: View) {
    forall j :: 0 <= j < |w.ports| ==> IsDone(w.ports[j])
  }

  // The re-check that finds a packet, and the one that finds the inputs done before the node is finalized.
  function Refetch(w: View): nat { if Holding(w, |w.ports|) then 3 else 0 }
  function Refinal(w: View, full: nat): nat { if Ended(w) && !w.fin then full else 0 }

  // What a run at this point may still cost its node: its Process call and the AddNode calls after it,
  // an AddNode counting 3 until the run it starts has called Process.
  function OuterClaim(w: View, v: nat, o: Outer): nat {
    match o
    case Collect(u, i, _) =>
      if u != v then 0
      else 1 + (if Holding(w, i) then 3 else if Holding(w, |w.ports|) then 2 else 0) + Refinal(w, 2)
    case Compute(u, _) => if u != v then 0 else 1 + Refetch(w) + Refinal(w, 2)
    case Post(u, _, _, _, _) => if u != v then 0 else Refetch(w) + Refinal(w, 2)
    case PostShut(u, _, _, _, _) => if u != v then 0 else Refetch(w) + Refinal(w, 2)
    case Scan(u, _, _) => if u != v then 0 else Refetch(w) + Refinal(w, 2)
    case Decide(u, done, _) => if u != v then 0 else Refetch(w) + Refinal(w, if done then 2 else 3)
    case Drop(u, a) => if u != v then 0 else Refetch(w) + Refinal(w, 3) + (if a == Reschedule then 3 else 0)
    case CloseOut(u, _, fin) => if u != v || !fin then 0 else Refetch(w) + Refinal(w, 3)
    case CloseMark(u, _, fin) => if u != v || !fin then 0 else Refetch(w) + Refinal(w, 3)
    case Buffered(u, _, _) => if u != v then 0 else Refetch(w) + Refinal(w, 3)
    case Again(u, _) => if u != v then 0 else Refinal(w, 3)
    case Recheck(u, _) => if u == v && Ended(w) then 3 else 0
    case _ => 0
  }

  function Claim(w: View, v: nat, th: Thread): nat {
    (if th.leaf == AddNode(v) then 3 else 0) + OuterClaim(w, v, th.outer)
  }

  function ClaimOf(w: View, v: nat): Thread -> nat {
    (th: Thread) => Claim(w, v, th)
  }

  // The finalize sequence grants one rescheduled run.
  function Grant(q: RunQueue, v: nat): nat {
    if v in q.closePending || v in q.finalized then 0 else 4
  }

  function Potential(g: Graph, s: State, v: nat): nat
    requires WellWired(g) && Sized(g, s) && IsNode(g, v)
  {
    3 * s.queue.items[v] + Total(ClaimOf(ViewOf(g, s, v), v), s.threads) + Grant(s.queue, v)
  }

  /** The step about to be made by thread `t` is a Process call of node `v`. */
  predicate IsCall(s: State, t: nat, v: nat) {
    && t < |s.threads| && s.threads[t].leaf == NoLeaf && s.threads[t].mid == NoMid
    && s.threads[t].outer.Compute? && s.threads[t].outer.v == v
  }

  function CallCost(s: State, t: nat, v: nat): nat { if IsCall(s, t, v) then 1 else 0 }

  /** Some inbox of node `v` differs: packets or a bound arrived, or a packet was popped. */
  predicate InputChanged(g: Graph, s: State, s': State, v: nat)
    requires WellWired(g) && Sized(g, s) && Sized(g, s') && IsNode(g, v)
  {
    ViewOf(g, s', v).ports != ViewOf(g, s, v).ports
  }

  // A waiting packet and ended inputs exclude each other, so a changed view moves a claim by 3 at most.
  lemma ClaimMoves(w: View, w': View, v: nat, th: Thread)
    requires |w.ports| == |w'.ports| > 0
    ensures OuterClaim(w', v, th.outer) <= OuterClaim(w, v, th.outer) + 3
    ensures Claim(w', v, th) <= Claim(w, v, th) + 3
  {
    assert Holding(w', |w'.ports|) ==> !Ended(w');
    if th.outer.Collect? {
      assert Holding(w', th.outer.i) ==> Holding(w', |w'.ports|);
    }
  }

  lemma ClaimFinal(w: View, w': View, v: nat, th: Thread)
    requires w.ports == w'.ports && (w.fin ==> w'.fin)
    ensures Claim(w', v, th) <= Claim(w, v, th)
  {
    forall i: nat ensures Holding(w', i) == Holding(w, i) {}
    assert Ended(w') == Ended(w);
  }

  // The node's inputs are as before: the moving thread has to balance its own account.
  lemma PotentialKept(g: Graph, s: State, s': State, t: nat, v: nat)
    requires WellWired(g) && Sized(g, s) && Sized(g, s') && IsNode(g, v) && OthersSame(s, s', t) && t < |s.threads|
    requires !InputChanged(g, s, s', v) && s.queue.finalized <= s'.queue.finalized
    requires 3 * s'.queue.items[v] + Claim(ViewOf(g, s', v), v, s'.threads[t]) + Grant(s'.queue, v) + CallCost(s, t, v)
          <= 3 * s.queue.items[v] + Claim(ViewOf(g, s, v), v, s.threads[t]) + Grant(s.queue, v)
    ensures Potential(g, s', v) + CallCost(s, t, v) <= Potential(g, s, v)
  {
    var w, w' := ViewOf(g, s, v), ViewOf(g, s', v);
    var f, f' := ClaimOf(w, v), ClaimOf(w', v);
    assert s'.threads == s.threads[t := s'.threads[t]];
    forall th ensures f'(th) <= f(th) + 0 {
      ClaimFinal(w, w', v, th);
    }
    TotalMove(f, f', s.threads, t, s'.threads[t], 0);
  }

  // The node's inputs changed: every thread's account may have risen.
  lemma PotentialChanged(g: Graph, s: State, s': State, t: nat, v: nat)
    requires WellWired(g) && Sized(g, s) && Sized(g, s') && IsNode(g, v) && OthersSame(s, s', t) && t < |s.threads|
    requires !IsSource(g, v) && s'.queue == s.queue
    requires Claim(ViewOf(g, s', v), v, s'.threads[t]) <= Claim(ViewOf(g, s, v), v, s.threads[t]) + 6
    ensures Potential(g, s', v) <= Potential(g, s, v) + 3 * |s.threads| + 3
  {
    var w, w' := ViewOf(g, s, v), ViewOf(g, s', v);
    var f, f' := ClaimOf(w, v), ClaimOf(w', v);
    assert s'.threads == s.threads[t := s'.threads[t]];
    forall th ensures f'(th) <= f(th) + 3 {
      ClaimMoves(w, w', v, th);
    }
    TotalMove(f, f', s.threads, t, s'.threads[t], 3);
  }

  // ------------------------------------------------------------------ re-checks stay right

  // The ports a finishing run has already found done are still done.
  ghost predicate RecheckSeen(g: Graph, s: State, t: nat)
    requires WellWired(g) && Sized(g, s) && t < |s.threads|
  {
    var o := s.threads[t].outer;
    o.Recheck? ==>
      IsNode(g, o.v) && forall k: nat {:trigger IsInput(g, o.v, k)} :: IsInput(g, o.v, k) && k < o.i ==> IsDone(s.edges[InEdge(g, o.v, k)])
  }

  ghost predicate RechecksOk(g: Graph, s: State)
    requires WellWired(g) && Sized(g, s)
  {
    forall t: nat {:trigger RecheckSeen(g, s, t)} :: t < |s.threads| ==> RecheckSeen(g, s, t)
  }

  lemma RecheckOuter(g: Graph, s: State, t: nat, c: Choice)
    requires WellWired(g) && OuterPoint(g, s, t, c) && RecheckSeen(g, s, t)
    requires s.threads[t].outer.Recheck? || s.threads[t].outer.Again?
    ensures Sized(g, OuterStep(g, s, t, c)) && t < |OuterStep(g, s, t, c).threads| && RecheckSeen(g, OuterStep(g, s, t, c), t)
  {
  }

  lemma RecheckFrom(g: Graph, s: State, t: nat, c: Choice)
    requires WellWired(g) && OuterPoint(g, s, t, c)
    requires !s.threads[t].outer.Recheck? && !s.threads[t].outer.Again?
    ensures t < |OuterStep(g, s, t, c).threads| && !OuterStep(g, s, t, c).threads[t].outer.Recheck?
  {
    hide WellWired, OutcomeOk;
  }

  lemma RecheckMoves(g: Graph, s: State, t: nat, c: Choice)
    requires WellWired(g) && Enabled(g, s, t, c) && Sized(g, Step(g, s, t, c)) && RecheckSeen(g, s, t) && DoneKept(g, s, Step(g, s, t, c))
    ensures t < |Step(g, s, t, c).threads| && RecheckSeen(g, Step(g, s, t, c), t)
  {
    if s.threads[t].leaf == NoLeaf && s.threads[t].mid == NoMid {
      hide OuterStep, RecheckSeen, DoneKept, WellWired;
      if s.threads[t].outer.Recheck? || s.threads[t].outer.Again? {
        RecheckOuter(g, s, t, c);
      } else {
        RecheckFrom(g, s, t, c);
        assert RecheckSeen(g, Step(g, s, t, c), t) by { NoRecheck(g, Step(g, s, t, c), t); }
      }
    } else {
      var s' := Step(g, s, t, c);
      assert s'.threads[t].outer == s.threads[t].outer by { hide WellWired; }
      hide Step, Enabled;
    }
  }

  lemma NoRecheck(g: Graph, s: State, t: nat)
    requires WellWired(g) && Sized(g, s) && t < |s.threads| && !s.threads[t].outer.Recheck?
    ensures RecheckSeen(g, s, t)
  {
  }

  lemma RechecksStep(g: Graph, s: State, t: nat, c: Choice)
    requires WellWired(g) && Enabled(g, s, t, c) && Sized(g, Step(g, s, t, c)) && RechecksOk(g, s) && DoneKept(g, s, Step(g, s, t, c))
    requires OthersSame(s, Step(g, s, t, c), t)
    ensures RechecksOk(g, Step(g, s, t, c))
  {
    var s' := Step(g, s, t, c);
    assert Sized(g, s) && t < |s.threads|;
    assert RecheckSeen(g, s, t);
    RecheckMoves(g, s, t, c);
    hide Step, Enabled;
    forall u: nat | u < |s'.threads| ensures RecheckSeen(g, s', u) {
      if u != t {
        assert RecheckSeen(g, s, u) && s'.threads[u] == s.threads[u];
      }
    }
  }

  // ------------------------------------------------------------------ every step pays

  lemma SamePorts(g: Graph, s: State, s': State, v: nat)
    requires WellWired(g) && Sized(g, s) && Sized(g, s') && IsNode(g, v)
    requires forall e: nat {:trigger s'.edges[e]} :: IsEdge(g, e) && g.dst[e] == v ==> s'.edges[e] == s.edges[e]
    ensures !InputChanged(g, s, s', v)
  {
    var p, p' := ViewOf(g, s, v).ports, ViewOf(g, s', v).ports;
    forall i | 0 <= i < |p| ensures p'[i] == p[i] {
      assert IsInput(g, v, i) && g.dst[InEdge(g, v, i)] == v;
    }
  }

  lemma OtherPort(g: Graph, s: State, s': State, v: nat, e: nat)
    requires WellWired(g) && Sized(g, s) && Sized(g, s') && IsNode(g, v) && IsEdge(g, e) && g.dst[e] == v
    requires s'.edges[e] != s.edges[e]
    ensures InputChanged(g, s, s', v)
  {
    EdgeFacts(g, e);
    assert ViewOf(g, s, v).ports[g.ipos[e]] == s.edges[e] && ViewOf(g, s', v).ports[g.ipos[e]] == s'.edges[e];
  }

  ghost predicate Pays(g: Graph, s: State, s': State, t: nat, v: nat)
    requires WellWired(g) && Sized(g, s) && Sized(g, s') && IsNode(g, v)
  {
    Potential(g, s', v) + CallCost(s, t, v) <= Potential(g, s, v) + if InputChanged(g, s, s', v) then 3 * |s.threads| + 3 else 0
  }

  lemma LeafPays(g: Graph, s: State, t: nat, v: nat)
    requires WellWired(g) && Sized(g, s) && t < |s.threads| && s.threads[t].leaf != NoLeaf && CallsOk(g, s.threads[t])
    requires IsNode(g, v)
    ensures Pays(g, s, LeafStep(g, s, t), t, v)
  {
    var s' := LeafStep(g, s, t);
    SamePorts(g, s, s', v);
    assert ViewOf(g, s', v) == ViewOf(g, s, v);
    hide ViewOf, OuterClaim, WellWired;
    PotentialKept(g, s, s', t, v);
  }

  lemma IdlePays(g: Graph, s: State, t: nat, c: Choice, v: nat)
    requires WellWired(g) && Sized(g, s) && t < |s.threads| && s.threads[t].leaf == NoLeaf && s.threads[t].mid.Idle?
    requires IsNode(g, v) && !IdleStep(g, s, t, c).threads[t].leaf.AddNode?
    ensures Pays(g, s, IdleStep(g, s, t, c), t, v)
  {
    var s' := IdleStep(g, s, t, c);
    SamePorts(g, s, s', v);
    assert ViewOf(g, s', v) == ViewOf(g, s, v);
    hide ViewOf, OuterClaim, WellWired, IdleStep;
    PotentialKept(g, s, s', t, v);
  }

  // A broadcast calls a consumer's AddNode only together with a change of its inbox.
  lemma BroadcastPays(g: Graph, s: State, s': State, t: nat, v: nat)
    requires WellWired(g) && Sized(g, s) && t < |s.threads| && s.threads[t].leaf == NoLeaf && CallsOk(g, s.threads[t])
    requires s.threads[t].mid.Propagate? || s.threads[t].mid.Shut?
    requires s' == if s.threads[t].mid.Shut? then ShutStep(g, s, t) else PropagateStep(g, s, t)
    requires IsNode(g, v) && !IsSource(g, v)
    ensures Pays(g, s, s', t, v)
  {
    BroadcastMoves(g, s, s', t, v);
    var w, w' := ViewOf(g, s, v), ViewOf(g, s', v);
    if InputChanged(g, s, s', v) {
      ClaimMoves(w, w', v, s.threads[t]);
      hide ViewOf, OuterClaim, WellWired, PropagateStep, ShutStep;
      PotentialChanged(g, s, s', t, v);
    } else {
      assert w' == w;
      hide ViewOf, OuterClaim, WellWired, PropagateStep, ShutStep;
      PotentialKept(g, s, s', t, v);
    }
  }

  lemma BroadcastMoves(g: Graph, s: State, s': State, t: nat, v: nat)
    requires WellWired(g) && Sized(g, s) && t < |s.threads| && s.threads[t].leaf == NoLeaf && CallsOk(g, s.threads[t])
    requires s.threads[t].mid.Propagate? || s.threads[t].mid.Shut?
    requires s' == if s.threads[t].mid.Shut? then ShutStep(g, s, t) else PropagateStep(g, s, t)
    requires IsNode(g, v) && !IsSource(g, v)
    ensures Sized(g, s') && OthersSame(s, s', t) && s'.queue == s.queue
    ensures s'.threads[t].outer == s.threads[t].outer
    ensures s'.threads[t].leaf == AddNode(v) ==> InputChanged(g, s, s', v)
  {
    if s'.threads[t].leaf == AddNode(v) {
      var m := s.threads[t].mid;
      var e := MirrorEdge(g, m.q, m.j);
      hide InputChanged, ViewOf;
      OtherPort(g, s, s', v, e);
    }
  }

  lemma FetchPays(g: Graph, s: State, t: nat, c: Choice, v: nat)
    requires WellWired(g) && OuterPoint(g, s, t, c) && s.threads[t].outer.Fetch? && IsNode(g, v) && !IsSource(g, v)
    ensures Sized(g, OuterStep(g, s, t, c)) && Pays(g, s, OuterStep(g, s, t, c), t, v)
  {
    var s' := OuterStep(g, s, t, c);
    SamePorts(g, s, s', v);
    var w := ViewOf(g, s, v);
    assert ViewOf(g, s', v) == w;
    assert Holding(w, |w.ports|) ==> !Ended(w);
    assert !Holding(w, 0);
    hide ViewOf, WellWired, Holding, Ended;
    PotentialKept(g, s, s', t, v);
  }

  lemma CollectPays(g: Graph, s: State, t: nat, c: Choice, v: nat)
    requires WellWired(g) && OuterPoint(g, s, t, c) && s.threads[t].outer.Collect? && IsNode(g, v) && !IsSource(g, v)
    ensures Sized(g, OuterStep(g, s, t, c)) && Pays(g, s, OuterStep(g, s, t, c), t, v)
  {
    var s' := OuterStep(g, s, t, c);
    var o := s.threads[t].outer;
    var w, w' := ViewOf(g, s, v), ViewOf(g, s', v);
    if o.v == v && o.i < |g.ins[v]| && s.edges[InEdge(g, v, o.i)].queue != [] {
      OtherPort(g, s, s', v, InEdge(g, v, o.i));
      assert Holding(w', |w'.ports|) ==> !Ended(w');
      assert Holding(w', o.i + 1) ==> Holding(w', |w'.ports|);
      hide ViewOf, WellWired, Holding, Ended;
      PotentialChanged(g, s, s', t, v);
    } else {
      SamePorts(g, s, s', v);
      assert w' == w;
      if o.v == v {
        CollectSame(w, o.i);
      }
      hide ViewOf, WellWired, Holding, Ended;
      PotentialKept(g, s, s', t, v);
    }
  }

  lemma CollectSame(w: View, i: nat)
    requires i <= |w.ports|
    ensures i < |w.ports| && w.ports[i].queue == [] ==> Holding(w, i + 1) == Holding(w, i)
  {
    if Holding(w, i + 1) && i < |w.ports| && w.ports[i].queue == [] {
      var j :| 0 <= j < i + 1 && j < |w.ports| && w.ports[j].queue != [];
      assert j < i;
    }
  }

  // The points of a run that read and write no inbox.
  lemma RunPays(g: Graph, s: State, t: nat, c: Choice, v: nat)
    requires WellWired(g) && OuterPoint(g, s, t, c) && IsNode(g, v) && !IsSource(g, v)
    requires s.threads[t].outer.Compute? || s.threads[t].outer.Post? || s.threads[t].outer.PostShut?
    ensures Sized(g, OuterStep(g, s, t, c)) && Pays(g, s, OuterStep(g, s, t, c), t, v)
  {
    var s' := OuterStep(g, s, t, c);
    SamePorts(g, s, s', v);
    assert ViewOf(g, s', v) == ViewOf(g, s, v);
    hide ViewOf, WellWired, Holding, Ended, OutcomeOk;
    PotentialKept(g, s, s', t, v);
  }

  lemma ClosePays(g: Graph, s: State, t: nat, c: Choice, v: nat)
    requires WellWired(g) && OuterPoint(g, s, t, c) && IsNode(g, v) && !IsSource(g, v)
    requires s.threads[t].outer.Drop? || s.threads[t].outer.CloseOut? || s.threads[t].outer.CloseMark?
    requires s.threads[t].outer.CloseOut? ==> s.threads[t].outer.fin || s.threads[t].outer.v != v
    ensures Sized(g, OuterStep(g, s, t, c)) && Pays(g, s, OuterStep(g, s, t, c), t, v)
  {
    var s' := OuterStep(g, s, t, c);
    SamePorts(g, s, s', v);
    assert ViewOf(g, s', v) == ViewOf(g, s, v);
    hide ViewOf, WellWired, Holding, Ended, OutcomeOk;
    PotentialKept(g, s, s', t, v);
  }

  // The points that look at the inputs to decide on one more run.
  lemma LookPays(g: Graph, s: State, t: nat, c: Choice, v: nat)
    requires WellWired(g) && OuterPoint(g, s, t, c) && IsNode(g, v) && !IsSource(g, v)
    requires s.threads[t].outer.Scan? || s.threads[t].outer.Buffered?
    ensures Sized(g, OuterStep(g, s, t, c)) && Pays(g, s, OuterStep(g, s, t, c), t, v)
  {
    var s' := OuterStep(g, s, t, c);
    var o := s.threads[t].outer;
    SamePorts(g, s, s', v);
    var w := ViewOf(g, s, v);
    assert ViewOf(g, s', v) == w;
    if o.v == v && o.i < |g.ins[v]| {
      assert w.ports[o.i] == s.edges[InEdge(g, v, o.i)];
      PortShows(w, o.i);
    }
    hide ViewOf, WellWired, Holding, Ended;
    PotentialKept(g, s, s', t, v);
  }

  lemma PortShows(w: View, i: nat)
    requires i < |w.ports|
    ensures w.ports[i].queue != [] ==> Holding(w, |w.ports|) && !Ended(w)
    ensures !IsDone(w.ports[i]) ==> !Ended(w)
  {
  }

  lemma AgainPays(g: Graph, s: State, t: nat, c: Choice, v: nat)
    requires WellWired(g) && OuterPoint(g, s, t, c) && IsNode(g, v) && !IsSource(g, v)
    requires s.threads[t].outer.Again? || s.threads[t].outer.Recheck?
    requires RecheckSeen(g, s, t)
    ensures Sized(g, OuterStep(g, s, t, c)) && Pays(g, s, OuterStep(g, s, t, c), t, v)
  {
    var s' := OuterStep(g, s, t, c);
    var o := s.threads[t].outer;
    SamePorts(g, s, s', v);
    var w := ViewOf(g, s, v);
    assert ViewOf(g, s', v) == w;
    if o.v == v && o.Recheck? && o.i >= |g.ins[v]| {
      forall k: nat | k < |w.ports| ensures IsDone(w.ports[k]) {
        assert IsInput(g, v, k);
      }
      assert Ended(w);
    }
    hide ViewOf, WellWired, Holding, Ended, RecheckSeen;
    PotentialKept(g, s, s', t, v);
  }

  lemma DecidePays(g: Graph, s: State, t: nat, c: Choice, v: nat)
    requires WellWired(g) && OuterPoint(g, s, t, c) && s.threads[t].outer.Decide? && IsNode(g, v) && !IsSource(g, v)
    requires FinalThread(g, s, t)
    ensures Sized(g, OuterStep(g, s, t, c)) && Pays(g, s, OuterStep(g, s, t, c), t, v)
  {
    var s' := OuterStep(g, s, t, c);
    var o := s.threads[t].outer;
    SamePorts(g, s, s', v);
    var w := ViewOf(g, s, v);
    if o.v == v && o.done {
      assert forall k :: 0 <= k < |w.ports| ==> IsDone(w.ports[k]);
    }
    assert ViewOf(g, s', v) == w.(fin := v in s'.queue.finalized);
    assert Holding(w, |w.ports|) ==> !Ended(w);
    assert Ended(w) == Ended(ViewOf(g, s', v)) && Holding(w, |w.ports|) == Holding(ViewOf(g, s', v), |w.ports|);
    hide ViewOf, WellWired, Holding, Ended;
    PotentialKept(g, s, s', t, v);
  }

  lemma RestPays(g: Graph, s: State, t: nat, c: Choice, v: nat)
    requires WellWired(g) && OuterPoint(g, s, t, c) && IsNode(g, v) && !IsSource(g, v)
    requires var o := s.threads[t].outer; o.Resting? || o.Missed? || o.Finish? || o.StopDrop? || o.StopErase?
    ensures Sized(g, OuterStep(g, s, t, c)) && Pays(g, s, OuterStep(g, s, t, c), t, v)
  {
    var s' := OuterStep(g, s, t, c);
    SamePorts(g, s, s', v);
    assert ViewOf(g, s', v) == ViewOf(g, s, v);
    hide ViewOf, WellWired;
    PotentialKept(g, s, s', t, v);
  }

  lemma AppMoves(g: Graph, s: State, t: nat, c: Choice)
    requires WellWired(g) && OuterPoint(g, s, t, c) && IsApp(s.threads[t].outer)
    ensures var s' := OuterStep(g, s, t, c);
      && Sized(g, s') && OthersSame(s, s', t)
      && s'.edges == s.edges && s'.queue == s.queue.(running := s'.queue.running)
      && IsApp(s'.threads[t].outer) && !s'.threads[t].leaf.AddNode?
  {
    hide WellWired;
  }

  lemma AppPays(g: Graph, s: State, t: nat, c: Choice, v: nat)
    requires WellWired(g) && OuterPoint(g, s, t, c) && IsNode(g, v) && IsApp(s.threads[t].outer)
    ensures Sized(g, OuterStep(g, s, t, c)) && Pays(g, s, OuterStep(g, s, t, c), t, v)
  {
    AppMoves(g, s, t, c);
    var s' := OuterStep(g, s, t, c);
    SamePorts(g, s, s', v);
    assert ViewOf(g, s', v) == ViewOf(g, s, v);
    hide ViewOf, WellWired, OuterStep;
    PotentialKept(g, s, s', t, v);
  }

  /** Every step: what a node may still be asked, plus the Process call it makes, is at most what it was
      before, unless the step changes the node's inputs, which buys 3 per thread and 3 more. */
  lemma StepPays(g: Graph, s: State, t: nat, c: Choice, v: nat)
    requires WellWired(g) && Shape(g, s) && FinalOk(g, s) && RechecksOk(g, s) && Enabled(g, s, t, c)
    requires Shape(g, Step(g, s, t, c)) && Unkicked(Step(g, s, t, c))
    requires IsNode(g, v) && !IsSource(g, v)
    ensures Pays(g, s, Step(g, s, t, c), t, v)
  {
    assert ThreadOk(g, s, t) && FinalThread(g, s, t) && RecheckSeen(g, s, t);
    var th := s.threads[t];
    hide Shape, FinalOk, RechecksOk, Pays, WellWired, RecheckSeen, FinalThread, OuterEnabled;
    if th.leaf != NoLeaf {
      LeafPays(g, s, t, v);
    } else if th.mid.Propagate? || th.mid.Shut? {
      BroadcastPays(g, s, Step(g, s, t, c), t, v);
    } else if th.mid.Idle? {
      IdlePays(g, s, t, c, v);
    } else {
      hide AppCall;
      match th.outer
      case Fetch => FetchPays(g, s, t, c, v);
      case Collect(_, _, _) => CollectPays(g, s, t, c, v);
      case Compute(_, _) => RunPays(g, s, t, c, v);
      case Post(_, _, _, _, _) => RunPays(g, s, t, c, v);
      case PostShut(_, _, _, _, _) => RunPays(g, s, t, c, v);
      case Drop(_, _) => ClosePays(g, s, t, c, v);
      case CloseOut(_, _, _) => ClosePays(g, s, t, c, v);
      case CloseMark(_, _, _) => ClosePays(g, s, t, c, v);
      case Scan(_, _, _) => LookPays(g, s, t, c, v);
      case Buffered(_, _, _) => LookPays(g, s, t, c, v);
      case Again(_, _) => AgainPays(g, s, t, c, v);
      case Recheck(_, _) => AgainPays(g, s, t, c, v);
      case Decide(_, _, _) => DecidePays(g, s, t, c, v);
      case Resting => RestPays(g, s, t, c, v);
      case Missed => RestPays(g, s, t, c, v);
      case Finish => RestPays(g, s, t, c, v);
      case StopDrop(_) => RestPays(g, s, t, c, v);
      case StopErase(_) => RestPays(g, s, t, c, v);
      case _ => AppPays(g, s, t, c, v);
    }
  }

  lemma {:induction false} TotalZero(f: Thread -> nat, ths: seq<Thread>)
    requires forall t: nat {:trigger ths[t]} :: t < |ths| ==> f(ths[t]) == 0
    ensures Total(f, ths) == 0
  {
    if ths != [] {
      assert f(ths[0]) == 0;
      forall t: nat | t < |ths[1..]| ensures f(ths[1..][t]) == 0 {
        assert ths[1..][t] == ths[t + 1];
      }
      TotalZero(f, ths[1..]);
    }
  }

  lemma PotentialInit(g: Graph, workers: nat, v: nat)
    requires WellWired(g) && IsNode(g, v) && !IsSource(g, v)
    ensures Sized(g, Init(g, workers)) && Potential(g, Init(g, workers), v) == 4 && RechecksOk(g, Init(g, workers))
  {
    var s := Init(g, workers);
    var f := ClaimOf(ViewOf(g, s, v), v);
    forall t: nat | t < |s.threads| ensures f(s.threads[t]) == 0 {
      assert t > 0 ==> s.threads[t] == Thread(Resting, NoMid, NoLeaf);
    }
    TotalZero(f, s.threads);
    forall t: nat | t < |s.threads| ensures RecheckSeen(g, s, t) {
      assert t > 0 ==> s.threads[t] == Thread(Resting, NoMid, NoLeaf);
    }
  }

  // ------------------------------------------------------------------ what a producer can still do to an edge

  function MidDebt(g: Graph, m: Mid, e: nat): nat
    requires WellWired(g) && IsEdge(g, e)
  {
    match m
    case Propagate(q, _, _, j, sent) =>
      if q != g.src[e] then 0 else if j < g.mpos[e] then 2 else if j == g.mpos[e] then if sent then 1 else 2 else 0
    case Shut(q, j) => if q == g.src[e] && j <= g.mpos[e] then 1 else 0
    case _ => 0
  }

  // A run passes each of its outputs twice: after Process, and when it closes them.
  function OuterDebt(g: Graph, o: Outer, e: nat): nat
    requires WellWired(g) && IsEdge(g, e)
  {
    var q := g.src[e];
    var n := g.opos[q];
    match o
    case Post(v, _, _, k, _) => if Owns(g, v, q) then (if k <= n then 6 else 3) else 0
    case PostShut(v, _, _, k, _) => if Owns(g, v, q) then (if k < n then 6 else if k == n then 4 else 3) else 0
    case Scan(v, _, _) => if Owns(g, v, q) then 3 else 0
    case Decide(v, _, _) => if Owns(g, v, q) then 3 else 0
    case Drop(v, _) => if Owns(g, v, q) then 3 else 0
    case CloseOut(v, k, _) => if Owns(g, v, q) && k <= n then 3 else 0
    case CloseMark(v, k, _) => if Owns(g, v, q) then (if k < n then 3 else if k == n then 1 else 0) else 0
    case _ => 0
  }

  function DebtOf(g: Graph, e: nat): Thread -> nat
    requires WellWired(g) && IsEdge(g, e)
  {
    (th: Thread) => MidDebt(g, th.mid, e) + OuterDebt(g, th.outer, e)
  }

  /** The step about to be made is the application putting packets into a graph input or closing it. */
  predicate IsFeed(s: State, t: nat, c: Choice) {
    && t < |s.threads| && s.threads[t].leaf == NoLeaf && s.threads[t].mid == NoMid
    && s.threads[t].outer.AppReady? && (c.Inject? || c.CloseInput?)
  }

  // What the step buys an edge: a Process call of the producer 6 changes, an application call 2.
  function Supply(g: Graph, s: State, t: nat, c: Choice, e: nat): nat
    requires WellWired(g) && IsEdge(g, e)
  {
    match g.owner[g.src[e]]
    case Some(v) => if IsCall(s, t, v) then 6 else 0
    case None => if IsFeed(s, t, c) then 2 else 0
  }

  ghost predicate EdgePays(g: Graph, s: State, s': State, t: nat, c: Choice, e: nat)
    requires WellWired(g) && Sized(g, s) && Sized(g, s') && IsEdge(g, e) && t < |s.threads| && t < |s'.threads|
  {
    DebtOf(g, e)(s'.threads[t]) + (if s'.edges[e] != s.edges[e] then 1 else 0) + |s.consumed[e]|
      <= DebtOf(g, e)(s.threads[t]) + Supply(g, s, t, c, e) + |s'.consumed[e]|
  }

  lemma EdgeBroadcast(g: Graph, s: State, s': State, t: nat, c: Choice, e: nat)
    requires WellWired(g) && Sized(g, s) && t < |s.threads| && s.threads[t].leaf == NoLeaf && CallsOk(g, s.threads[t])
    requires s.threads[t].mid.Propagate? || s.threads[t].mid.Shut?
    requires s' == if s.threads[t].mid.Shut? then ShutStep(g, s, t) else PropagateStep(g, s, t)
    requires IsEdge(g, e) && Sized(g, s') && t < |s'.threads|
    ensures EdgePays(g, s, s', t, c, e)
  {
    EdgeFacts(g, e);
  }

  lemma EdgeQuiet(g: Graph, s: State, s': State, t: nat, c: Choice, e: nat)
    requires WellWired(g) && Sized(g, s) && Sized(g, s') && IsEdge(g, e) && t < |s.threads| && t < |s'.threads|
    requires s'.edges == s.edges && s'.consumed == s.consumed
    requires s'.threads[t].outer == s.threads[t].outer
    requires s'.threads[t].mid == s.threads[t].mid || (s.threads[t].mid.Idle? && (s'.threads[t].mid.Idle? || s'.threads[t].mid == NoMid))
    ensures EdgePays(g, s, s', t, c, e)
  {
  }

  lemma EdgeCollect(g: Graph, s: State, t: nat, c: Choice, e: nat)
    requires WellWired(g) && OuterPoint(g, s, t, c) && IsEdge(g, e) && s.threads[t].outer.Collect?
    ensures var s' := OuterStep(g, s, t, c);
      Sized(g, s') && t < |s'.threads| && EdgePays(g, s, s', t, c, e)
  {
  }

  lemma EdgePost(g: Graph, s: State, t: nat, c: Choice, e: nat)
    requires WellWired(g) && OuterPoint(g, s, t, c) && IsEdge(g, e)
    requires s.threads[t].outer.Post?
    ensures var s' := OuterStep(g, s, t, c);
      Sized(g, s') && t < |s'.threads| && EdgePays(g, s, s', t, c, e)
  {
    EdgeFacts(g, e);
    hide OutcomeOk, AppEnabled;
  }

  lemma EdgePostShut(g: Graph, s: State, t: nat, c: Choice, e: nat)
    requires WellWired(g) && OuterPoint(g, s, t, c) && IsEdge(g, e)
    requires s.threads[t].outer.PostShut?
    ensures var s' := OuterStep(g, s, t, c);
      Sized(g, s') && t < |s'.threads| && EdgePays(g, s, s', t, c, e)
  {
    EdgeFacts(g, e);
    hide OutcomeOk, AppEnabled;
  }

  lemma EdgeClose(g: Graph, s: State, t: nat, c: Choice, e: nat)
    requires WellWired(g) && OuterPoint(g, s, t, c) && IsEdge(g, e)
    requires s.threads[t].outer.CloseOut? || s.threads[t].outer.CloseMark?
    ensures var s' := OuterStep(g, s, t, c);
      Sized(g, s') && t < |s'.threads| && EdgePays(g, s, s', t, c, e)
  {
    EdgeFacts(g, e);
    hide OutcomeOk, AppEnabled;
  }

  lemma EdgeCompute(g: Graph, s: State, t: nat, c: Choice, e: nat)
    requires WellWired(g) && OuterPoint(g, s, t, c) && IsEdge(g, e)
    requires s.threads[t].outer.Compute?
    ensures var s' := OuterStep(g, s, t, c);
      Sized(g, s') && t < |s'.threads| && EdgePays(g, s, s', t, c, e)
  {
    EdgeFacts(g, e);
    hide OutcomeOk, AppEnabled;
  }

  lemma EdgeTail(g: Graph, s: State, t: nat, c: Choice, e: nat)
    requires WellWired(g) && OuterPoint(g, s, t, c) && IsEdge(g, e)
    requires var o := s.threads[t].outer; o.Scan? || o.Decide? || o.Drop? || o.StopDrop? || o.StopErase?
    ensures var s' := OuterStep(g, s, t, c);
      Sized(g, s') && t < |s'.threads| && EdgePays(g, s, s', t, c, e)
  {
    EdgeFacts(g, e);
    hide OutcomeOk, AppEnabled;
  }

  lemma EdgeLooks(g: Graph, s: State, t: nat, c: Choice, e: nat)
    requires WellWired(g) && OuterPoint(g, s, t, c) && IsEdge(g, e)
    requires var o := s.threads[t].outer; o.Buffered? || o.Again? || o.Recheck? || o.Resting? || o.Fetch? || o.Missed? || o.Finish?
    ensures var s' := OuterStep(g, s, t, c);
      Sized(g, s') && t < |s'.threads| && EdgePays(g, s, s', t, c, e)
  {
    EdgeFacts(g, e);
    hide OutcomeOk, AppEnabled;
  }

  lemma EdgeApp(g: Graph, s: State, t: nat, c: Choice, e: nat)
    requires WellWired(g) && OuterPoint(g, s, t, c) && IsEdge(g, e)
    requires IsApp(s.threads[t].outer)
    ensures var s' := OuterStep(g, s, t, c);
      Sized(g, s') && t < |s'.threads| && EdgePays(g, s, s', t, c, e)
  {
    EdgeFacts(g, e);
    hide OutcomeOk, AppEnabled;
  }

  lemma EdgeRun(g: Graph, s: State, t: nat, c: Choice, e: nat)
    requires WellWired(g) && OuterPoint(g, s, t, c) && IsEdge(g, e)
    ensures var s' := OuterStep(g, s, t, c);
      Sized(g, s') && t < |s'.threads| && EdgePays(g, s, s', t, c, e)
  {
    assert var o := s.threads[t].outer; IsApp(o) <==>
      o.AppReady? || o.AppNotify? || o.AppCount? || o.AppPause1? || o.AppPause2? || o.AppResume1? || o.AppResume2?;
    hide *;
    match s.threads[t].outer
    case Collect(_, _, _) => EdgeCollect(g, s, t, c, e);
    case Post(_, _, _, _, _) => EdgePost(g, s, t, c, e);
    case PostShut(_, _, _, _, _) => EdgePostShut(g, s, t, c, e);
    case CloseOut(_, _, _) => EdgeClose(g, s, t, c, e);
    case CloseMark(_, _, _) => EdgeClose(g, s, t, c, e);
    case Compute(_, _) => EdgeCompute(g, s, t, c, e);
    case Scan(_, _, _) => EdgeTail(g, s, t, c, e);
    case Decide(_, _, _) => EdgeTail(g, s, t, c, e);
    case Drop(_, _) => EdgeTail(g, s, t, c, e);
    case StopDrop(_) => EdgeTail(g, s, t, c, e);
    case StopErase(_) => EdgeTail(g, s, t, c, e);
    case Buffered(_, _, _) => EdgeLooks(g, s, t, c, e);
    case Again(_, _) => EdgeLooks(g, s, t, c, e);
    case Recheck(_, _) => EdgeLooks(g, s, t, c, e);
    case Resting => EdgeLooks(g, s, t, c, e);
    case Fetch => EdgeLooks(g, s, t, c, e);
    case Missed => EdgeLooks(g, s, t, c, e);
    case Finish => EdgeLooks(g, s, t, c, e);
    case _ => EdgeApp(g, s, t, c, e);
  }

  function Debts(g: Graph, s: State, e: nat): nat
    requires WellWired(g) && IsEdge(g, e)
  {
    Total(DebtOf(g, e), s.threads)
  }

  /** Every step: the changes the producer may still make to an edge pay for the change this step makes,
      unless the consumer pops, the producer calls Process or the application feeds the stream. */
  lemma EdgeStepPays(g: Graph, s: State, t: nat, c: Choice, e: nat)
    requires WellWired(g) && Shape(g, s) && Enabled(g, s, t, c) && IsEdge(g, e)
    requires Shape(g, Step(g, s, t, c)) && OthersSame(s, Step(g, s, t, c), t)
    ensures var s' := Step(g, s, t, c);
      Debts(g, s', e) + (if s'.edges[e] != s.edges[e] then 1 else 0) + |s.consumed[e]|
        <= Debts(g, s, e) + Supply(g, s, t, c, e) + |s'.consumed[e]|
  {
    var s' := Step(g, s, t, c);
    var th := s.threads[t];
    assert EdgePays(g, s, s', t, c, e) by {
      hide Shape, WellWired, EdgePays, OuterEnabled, OuterStep;
      if th.leaf != NoLeaf {
        EdgeQuiet(g, s, s', t, c, e);
      } else if th.mid.Propagate? || th.mid.Shut? {
        EdgeBroadcast(g, s, s', t, c, e);
      } else if th.mid.Idle? {
        IdleStays(g, s, t, c);
        EdgeQuiet(g, s, s', t, c, e);
      } else {
        EdgeRun(g, s, t, c, e);
      }
    }
    assert s'.threads == s.threads[t := s'.threads[t]];
    TotalUpdate(DebtOf(g, e), s.threads, t, s'.threads[t]);
  }

  lemma IdleStays(g: Graph, s: State, t: nat, c: Choice)
    requires WellWired(g) && Sized(g, s) && t < |s.threads| && s.threads[t].mid.Idle?
    ensures IdleStep(g, s, t, c).threads[t].mid.Idle? || IdleStep(g, s, t, c).threads[t].mid == NoMid
  {
  }

  lemma DebtInit(g: Graph, workers: nat, e: nat)
    requires WellWired(g) && IsEdge(g, e)
    ensures Debts(g, Init(g, workers), e) == 0
  {
    var s := Init(g, workers);
    forall t: nat | t < |s.threads| ensures DebtOf(g, e)(s.threads[t]) == 0 {
      assert t > 0 ==> s.threads[t] == Thread(Resting, NoMid, NoLeaf);
    }
    TotalZero(DebtOf(g, e), s.threads);
  }

  // A stream's history grows only by a Process call of its producer or an application call.
  lemma EmittedOnlyByProducer(g: Graph, s: State, t: nat, c: Choice, q: nat)
    requires WellWired(g) && Shape(g, s) && Enabled(g, s, t, c) && IsStream(g, q)
    requires match g.owner[q] case Some(v) => !IsCall(s, t, v) case None => !IsFeed(s, t, c)
    ensures |Step(g, s, t, c).emitted| == |s.emitted| && Step(g, s, t, c).emitted[q] == s.emitted[q]
  {
    assert ThreadOk(g, s, t);
    hide Shape;
  }
}
