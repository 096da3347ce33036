/** Which runs have no late emission: exactly those in which no ended stream gains a packet; and, as a
    condition on the nodes alone, those whose nodes fall silent after the first Process call that sees all
    inputs done. */
module EngineQuiet {
  import opened Timestamps
  import opened StreamState
  import opened RunQueueState
  import opened Graphs
  import opened Engine
  import opened EngineShape
  import opened EngineAccounting
  import opened EngineFlow
  import opened EngineFinal
  import opened EngineRuns
  import opened EngineLate

  // ------------------------------------------------------------------ the first late emission

  ghost predicate LateAt(g: Graph, path: seq<State>, moves: seq<Move>, n: nat)
    requires WellWired(g) && IsRun(g, path, moves) && n < |moves|
  {
    LateEmission(g, path[n], moves[n].thread, moves[n].choice)
  }

  // Cutting a run short leaves a run.
  lemma Prefix(g: Graph, path: seq<State>, moves: seq<Move>, n: nat)
    requires WellWired(g) && IsRun(g, path, moves) && n <= |moves|
    ensures IsRun(g, path[..n + 1], moves[..n])
  {
    hide WellWired, Enabled, Step;
    var path', moves' := path[..n + 1], moves[..n];
    forall i | 0 <= i < |moves'|
      ensures Enabled(g, path'[i], moves'[i].thread, moves'[i].choice)
      ensures path'[i + 1] == Step(g, path'[i], moves'[i].thread, moves'[i].choice)
    {
      RunStep(g, path, moves, i);
    }
  }

  // Up to its first late emission a run is good.
  lemma {:induction false} FirstLate(g: Graph, path: seq<State>, moves: seq<Move>, k: nat) returns (n: nat)
    requires WellWired(g) && IsRun(g, path, moves) && k < |moves| && LateAt(g, path, moves, k)
    ensures n < |moves| && LateAt(g, path, moves, n)
    ensures IsRun(g, path[..n + 1], moves[..n]) && NoLateEmission(g, path[..n + 1], moves[..n])
  {
    if i: nat :| i < k && LateAt(g, path, moves, i) {
      hide *;
      n := FirstLate(g, path, moves, i);
    } else {
      n := k;
      Prefix(g, path, moves, n);
      assert LateAt(g, path, moves, n);
      hide WellWired, LateEmission, IsRun, Enabled;
      forall i | 0 <= i < |moves[..n]| ensures !LateEmission(g, path[..n + 1][i], moves[..n][i].thread, moves[..n][i].choice) {
        assert !LateAt(g, path, moves, i);
      }
    }
  }

  lemma LateSomewhere(g: Graph, path: seq<State>, moves: seq<Move>) returns (k: nat)
    requires WellWired(g) && IsRun(g, path, moves) && !NoLateEmission(g, path, moves)
    ensures k < |moves| && LateAt(g, path, moves, k)
  {
    hide WellWired, LateEmission, Enabled, Step;
    k :| k < |moves| && LateEmission(g, path[k], moves[k].thread, moves[k].choice);
  }

  // The state before the first late emission satisfies the whole invariant.
  lemma InvBefore(g: Graph, rank: seq<nat>, workers: nat, path: seq<State>, moves: seq<Move>, n: nat)
    requires WellWired(g) && SingleFlight(g) && Ranks(g, rank) && IsRun(g, path, moves) && path[0] == Init(g, workers)
    requires n <= |moves| && IsRun(g, path[..n + 1], moves[..n]) && NoLateEmission(g, path[..n + 1], moves[..n])
    ensures |path| == |moves| + 1 && GoodRun(g, rank, workers, path[..n + 1], moves[..n]) && Inv(g, path[n])
  {
    hide WellWired, SingleFlight, Ranks, Inv, Enabled, Step, LateEmission, NoLateEmission, Init;
    InvAlways(g, rank, workers, path[..n + 1], moves[..n], n);
  }

  // ------------------------------------------------------------------ exactly the respected ends

  // Step `i` adds nothing to a stream whose producer has announced its end.
  ghost predicate EndsKeptAt(g: Graph, path: seq<State>, i: nat)
    requires WellWired(g)
  {
    i + 1 < |path| && Sized(g, path[i]) && Sized(g, path[i + 1]) && SealKept(g, path[i], path[i + 1])
  }

  /** A whole run has no late emission if and only if no step of it adds a packet to a stream that has ended. */
  lemma LateExactlyBreaksEnds(g: Graph, rank: seq<nat>, workers: nat, path: seq<State>, moves: seq<Move>)
    requires WellWired(g) && SingleFlight(g) && Ranks(g, rank) && IsRun(g, path, moves) && path[0] == Init(g, workers)
    ensures NoLateEmission(g, path, moves) <==> forall i: nat {:trigger EndsKeptAt(g, path, i)} :: i < |moves| ==> EndsKeptAt(g, path, i)
  {
    if NoLateEmission(g, path, moves) {
      forall i: nat | i < |moves| ensures EndsKeptAt(g, path, i) {
        KeptWhenGood(g, rank, workers, path, moves, i);
      }
    } else {
      hide NoLateEmission;
      var k := LateSomewhere(g, path, moves);
      var n := FirstLate(g, path, moves, k);
      InvBefore(g, rank, workers, path, moves, n);
      BrokenWhenLate(g, path, moves, n);
    }
  }

  lemma KeptWhenGood(g: Graph, rank: seq<nat>, workers: nat, path: seq<State>, moves: seq<Move>, i: nat)
    requires GoodRun(g, rank, workers, path, moves) && i < |moves|
    ensures EndsKeptAt(g, path, i)
  {
    assert WellWired(g) && SingleFlight(g) && IsRun(g, path, moves) && |path| == |moves| + 1;
    assert !LateEmission(g, path[i], moves[i].thread, moves[i].choice);
    RunStep(g, path, moves, i);
    InvAlways(g, rank, workers, path, moves, i);
    hide GoodRun, IsRun, WellWired, Step, Enabled, LateEmission, SealKept, AllSized, AccOk;
    SealBreaksExactlyLate(g, path[i], moves[i].thread, moves[i].choice);
  }

  lemma BrokenWhenLate(g: Graph, path: seq<State>, moves: seq<Move>, n: nat)
    requires WellWired(g) && SingleFlight(g) && IsRun(g, path, moves) && n < |moves| && |path| == |moves| + 1
    requires Inv(g, path[n]) && LateAt(g, path, moves, n)
    ensures !EndsKeptAt(g, path, n)
  {
    RunStep(g, path, moves, n);
    hide IsRun, WellWired, Step, Enabled, LateEmission, SealKept, Inv;
    SealBreaksExactlyLate(g, path[n], moves[n].thread, moves[n].choice);
  }

  // ------------------------------------------------------------------ nodes that fall silent

  /** The move is a Process call of `v` that sees every input port marked done. */
  predicate IsDoneCall(s: State, m: Move, v: nat) {
    && m.thread < |s.threads| && s.threads[m.thread] == Thread(Compute(v, true), NoMid, NoLeaf)
  }

  predicate AtCall(s: State, m: Move, v: nat) {
    && m.thread < |s.threads| && s.threads[m.thread].leaf == NoLeaf && s.threads[m.thread].mid == NoMid
    && s.threads[m.thread].outer.Compute? && s.threads[m.thread].outer.v == v
  }

  predicate Writes(m: Move) {
    m.choice.Outcome? && exists k :: 0 <= k < |m.choice.outs| && m.choice.outs[k].pkts != []
  }

  /** A node that has made one Process call with all its inputs done writes no packet in any later one. */
  ghost predicate SilentAfterDone(g: Graph, path: seq<State>, moves: seq<Move>) {
    |path| == |moves| + 1
    && forall v: nat, i: nat, j: nat {:trigger IsDoneCall(path[i], moves[i], v), IsDoneCall(path[j], moves[j], v)} ::
         IsNode(g, v) && !IsSource(g, v) && i < j < |moves| && IsDoneCall(path[i], moves[i], v) && IsDoneCall(path[j], moves[j], v) ==>
           !Writes(moves[j])
  }

  // A run of a finalized node can only find its inputs done.
  predicate SeesDone(s: State, o: Outer) {
    match o
    case Collect(v, _, seen) => v in s.queue.finalized ==> seen
    case Compute(v, seen) => v in s.queue.finalized ==> seen
    case _ => true
  }

  ghost predicate SeenOk(s: State) {
    forall t: nat {:trigger s.threads[t]} :: t < |s.threads| ==> SeesDone(s, s.threads[t].outer)
  }

  lemma CollectFrom(g: Graph, s: State, t: nat, c: Choice)
    requires WellWired(g) && Enabled(g, s, t, c) && Inv(g, s) && SeesDone(s, s.threads[t].outer)
    requires t < |Step(g, s, t, c).threads|
    ensures SeesDone(Step(g, s, t, c), Step(g, s, t, c).threads[t].outer)
  {
    assert FinalOk(g, s);
    hide Inv, FinalOk;
    if s.threads[t].leaf != NoLeaf || s.threads[t].mid != NoMid {
      CallKeepsPoint(g, s, t, c);
      OnlyDecideFinalizes(g, s, t, c);
    } else if s.threads[t].outer.Collect? {
      var o := s.threads[t].outer;
      if o.v in s.queue.finalized && o.i < |g.ins[o.v]| {
        DoneWhenFinal(g, s, o.v);
        assert IsDone(s.edges[InEdge(g, o.v, o.i)]);
      }
      hide WellWired, FinalNode;
    } else {
      RunPointFrom(g, s, t, c);
    }
  }

  lemma DoneWhenFinal(g: Graph, s: State, v: nat)
    requires WellWired(g) && Sized(g, s) && FinalOk(g, s) && v in s.queue.finalized
    ensures IsNode(g, v) && AllDone(g, s, v)
  {
    assert FinalNode(g, s, v);
  }

  lemma RunPointFrom(g: Graph, s: State, t: nat, c: Choice)
    requires WellWired(g) && OuterPoint(g, s, t, c) && !s.threads[t].outer.Collect? && t < |OuterStep(g, s, t, c).threads|
    ensures var o := OuterStep(g, s, t, c).threads[t].outer; !o.Compute? && (o.Collect? ==> o.seen)
  {
    hide OuterStep, WellWired;
    if IsApp(s.threads[t].outer) {
      AppStaysApp(g, s, t, c);
    } else if IsRunPoint(s.threads[t].outer) {
      RunPointNext(g, s, t, c);
    } else {
      OtherPointNext(g, s, t, c);
    }
  }

  lemma AppStaysApp(g: Graph, s: State, t: nat, c: Choice)
    requires WellWired(g) && OuterPoint(g, s, t, c) && IsApp(s.threads[t].outer) && t < |OuterStep(g, s, t, c).threads|
    ensures IsApp(OuterStep(g, s, t, c).threads[t].outer)
  {
    hide WellWired;
  }

  lemma RunPointNext(g: Graph, s: State, t: nat, c: Choice)
    requires WellWired(g) && OuterPoint(g, s, t, c) && IsRunPoint(s.threads[t].outer) && !s.threads[t].outer.Collect?
    requires t < |OuterStep(g, s, t, c).threads|
    ensures var o := OuterStep(g, s, t, c).threads[t].outer; !o.Compute? && !o.Collect?
  {
    hide WellWired, OutcomeOk;
  }

  // The points outside a run, RunNextTask's among them.
  lemma OtherPointNext(g: Graph, s: State, t: nat, c: Choice)
    requires WellWired(g) && OuterPoint(g, s, t, c) && !IsRunPoint(s.threads[t].outer) && !IsApp(s.threads[t].outer)
    requires t < |OuterStep(g, s, t, c).threads|
    ensures var o := OuterStep(g, s, t, c).threads[t].outer;
      !o.Compute? && !o.Post? && !o.PostShut? && !o.Scan? && !o.Decide? && (o.Collect? ==> o.seen)
  {
    hide WellWired, AppCall, AppEnabled, OutcomeOk;
  }

  lemma SeenStep(g: Graph, s: State, t: nat, c: Choice)
    requires WellWired(g) && SingleFlight(g) && Enabled(g, s, t, c) && Inv(g, s) && SeenOk(s)
    ensures SeenOk(Step(g, s, t, c))
  {
    var s' := Step(g, s, t, c);
    StepOthers(g, s, t, c);
    OnlyDecideFinalizes(g, s, t, c);
    assert SeesDone(s, s.threads[t].outer);
    CollectFrom(g, s, t, c);
    forall u: nat | u < |s'.threads| ensures SeesDone(s', s'.threads[u].outer) {
      if u != t {
        assert s'.threads[u] == s.threads[u];
        if s'.queue.finalized != s.queue.finalized {
          OthersNotRunning(g, s, t, u);
        }
      }
    }
  }

  // While one thread decides for a node, no other is in a run of it.
  lemma OthersNotRunning(g: Graph, s: State, t: nat, u: nat)
    requires WellWired(g) && SingleFlight(g) && Inv(g, s) && t < |s.threads| && u < |s.threads| && u != t && s.threads[t].outer.Decide?
    ensures !Runs(s.threads[u].outer, s.threads[t].outer.v)
  {
    assert ThreadOk(g, s, t);
    if Runs(s.threads[u].outer, s.threads[t].outer.v) {
      OnlyRunner(g, s, s.threads[t].outer.v, t, u);
    }
  }

  lemma {:induction false} SeenAlways(g: Graph, rank: seq<nat>, workers: nat, path: seq<State>, moves: seq<Move>, i: nat)
    requires GoodRun(g, rank, workers, path, moves) && i < |path|
    ensures SeenOk(path[i])
  {
    hide *;
    GoodParts(g, rank, workers, path, moves);
    if i == 0 {
      SeenInit(g, workers);
    } else {
      SeenAlways(g, rank, workers, path, moves, i - 1);
      InvAlways(g, rank, workers, path, moves, i - 1);
      RunStep(g, path, moves, i - 1);
      SeenStep(g, path[i - 1], moves[i - 1].thread, moves[i - 1].choice);
    }
  }

  lemma GoodParts(g: Graph, rank: seq<nat>, workers: nat, path: seq<State>, moves: seq<Move>)
    requires GoodRun(g, rank, workers, path, moves)
    ensures WellWired(g) && SingleFlight(g) && IsRun(g, path, moves) && |path| == |moves| + 1 && path[0] == Init(g, workers)
  {
    hide WellWired, SingleFlight, Ranks, Enabled, Step, Init, LateEmission, NoLateEmission;
  }

  lemma SeenInit(g: Graph, workers: nat)
    requires WellWired(g)
    ensures SeenOk(Init(g, workers))
  {
    var s := Init(g, workers);
    forall t: nat | t < |s.threads| ensures SeesDone(s, s.threads[t].outer) {
      assert t > 0 ==> s.threads[t] == Thread(Resting, NoMid, NoLeaf);
    }
  }

  // The run's Process call was made with every input done.
  predicate PastDoneCall(o: Outer, v: nat) {
    match o
    case Post(w, _, _, _, seen) => w == v && seen
    case PostShut(w, _, _, _, seen) => w == v && seen
    case Scan(w, _, seen) => w == v && seen
    case Decide(w, _, seen) => w == v && seen
    case _ => false
  }

  lemma PastFrom(g: Graph, s: State, t: nat, c: Choice, u: nat, v: nat)
    requires WellWired(g) && Enabled(g, s, t, c) && u < |s.threads| && u < |Step(g, s, t, c).threads|
    requires PastDoneCall(Step(g, s, t, c).threads[u].outer, v) && !PastDoneCall(s.threads[u].outer, v)
    ensures IsDoneCall(s, Move(t, c), v)
  {
    StepOthers(g, s, t, c);
    if u != t {
    } else if s.threads[t].leaf != NoLeaf || s.threads[t].mid != NoMid {
      CallKeepsPoint(g, s, t, c);
    } else if IsRunPoint(s.threads[t].outer) {
      hide WellWired, OutcomeOk;
    } else {
      PastNotFrom(g, s, t, c, v);
    }
  }

  lemma PastNotFrom(g: Graph, s: State, t: nat, c: Choice, v: nat)
    requires WellWired(g) && OuterPoint(g, s, t, c) && !IsRunPoint(s.threads[t].outer) && t < |OuterStep(g, s, t, c).threads|
    ensures !PastDoneCall(OuterStep(g, s, t, c).threads[t].outer, v)
  {
    hide OuterStep, WellWired;
    if IsApp(s.threads[t].outer) {
      AppStaysApp(g, s, t, c);
    } else {
      OtherPointNext(g, s, t, c);
    }
  }

  // A run past such a call was preceded by it.
  lemma {:induction false} DoneCallBefore(g: Graph, workers: nat, path: seq<State>, moves: seq<Move>, k: nat, u: nat, v: nat) returns (i: nat)
    requires WellWired(g) && IsRun(g, path, moves) && path[0] == Init(g, workers) && k < |path| && |path| == |moves| + 1
    requires u < |path[k].threads| && PastDoneCall(path[k].threads[u].outer, v)
    ensures i < k && IsDoneCall(path[i], moves[i], v)
    decreases k
  {
    hide *;
    NotPastAtStart(g, workers, path, moves, k, u, v);
    RunStep(g, path, moves, k - 1);
    StepOthersSize(g, path[k - 1], moves[k - 1].thread, moves[k - 1].choice);
    if PastDoneCall(path[k - 1].threads[u].outer, v) {
      i := DoneCallBefore(g, workers, path, moves, k - 1, u, v);
    } else {
      PastFrom(g, path[k - 1], moves[k - 1].thread, moves[k - 1].choice, u, v);
      MoveIs(moves[k - 1]);
      i := k - 1;
    }
  }

  lemma MoveIs(m: Move)
    ensures Move(m.thread, m.choice) == m
  {
  }

  lemma StepOthersSize(g: Graph, s: State, t: nat, c: Choice)
    requires WellWired(g) && Enabled(g, s, t, c)
    ensures |Step(g, s, t, c).threads| == |s.threads|
  {
    ThreadsSame(g, s, t, c);
  }

  lemma NotPastAtStart(g: Graph, workers: nat, path: seq<State>, moves: seq<Move>, k: nat, u: nat, v: nat)
    requires WellWired(g) && path != [] && path[0] == Init(g, workers) && k < |path|
    requires u < |path[k].threads| && PastDoneCall(path[k].threads[u].outer, v)
    ensures k > 0
  {
    StartNotPast(g, workers, u, v);
  }

  lemma StartNotPast(g: Graph, workers: nat, u: nat, v: nat)
    requires WellWired(g)
    ensures u < |Init(g, workers).threads| ==> !PastDoneCall(Init(g, workers).threads[u].outer, v)
  {
    if 0 < u <= workers {
      assert Init(g, workers).threads[u] == Thread(Resting, NoMid, NoLeaf);
    }
  }

  // A finalized node has made a Process call with every input done.
  lemma {:induction false} FinalizedCalled(g: Graph, rank: seq<nat>, workers: nat, path: seq<State>, moves: seq<Move>, k: nat, v: nat) returns (i: nat)
    requires GoodRun(g, rank, workers, path, moves) && k < |path| && v in path[k].queue.finalized
    ensures i < k && i < |moves| && IsDoneCall(path[i], moves[i], v)
    decreases k
  {
    hide *;
    NoneFinalAtStart(g, rank, workers, path, moves, k, v);
    if v in path[k - 1].queue.finalized {
      i := FinalizedCalled(g, rank, workers, path, moves, k - 1, v);
    } else {
      ClosedAt(g, rank, workers, path, moves, k - 1, v);
      i := DoneCallBefore(g, workers, path, moves, k - 1, moves[k - 1].thread, v);
    }
  }

  lemma NoneFinalAtStart(g: Graph, rank: seq<nat>, workers: nat, path: seq<State>, moves: seq<Move>, k: nat, v: nat)
    requires GoodRun(g, rank, workers, path, moves) && k < |path| && v in path[k].queue.finalized
    ensures k > 0 && |path| == |moves| + 1 && WellWired(g) && IsRun(g, path, moves) && path[0] == Init(g, workers)
  {
  }

  lemma ClosedAt(g: Graph, rank: seq<nat>, workers: nat, path: seq<State>, moves: seq<Move>, k: nat, v: nat)
    requires GoodRun(g, rank, workers, path, moves) && k < |moves| && |path| == |moves| + 1
    requires v !in path[k].queue.finalized && v in path[k + 1].queue.finalized
    ensures moves[k].thread < |path[k].threads| && PastDoneCall(path[k].threads[moves[k].thread].outer, v)
  {
    assert WellWired(g) && IsRun(g, path, moves);
    RunStep(g, path, moves, k);
    hide GoodRun, IsRun, Step, Enabled, WellWired;
    ClosingRun(g, rank, workers, path, moves, k, v);
  }

  /** Nodes that fall silent cannot emit late: if every node writes nothing after its first Process call with
      all inputs done, the run is a good one. */
  lemma SilentIsNeverLate(g: Graph, rank: seq<nat>, workers: nat, path: seq<State>, moves: seq<Move>)
    requires WellWired(g) && SingleFlight(g) && Ranks(g, rank) && IsRun(g, path, moves) && path[0] == Init(g, workers)
    requires SilentAfterDone(g, path, moves)
    ensures GoodRun(g, rank, workers, path, moves)
  {
    if !NoLateEmission(g, path, moves) {
      hide NoLateEmission, GoodRun, SilentAfterDone, WellWired, SingleFlight, Ranks, IsRun, LateEmission, Inv;
      var k := LateSomewhere(g, path, moves);
      var n := FirstLate(g, path, moves, k);
      InvBefore(g, rank, workers, path, moves, n);
      var v := LateNode(g, path, moves, n);
      SeenAlways(g, rank, workers, path[..n + 1], moves[..n], n);
      var i := FinalizedCalled(g, rank, workers, path[..n + 1], moves[..n], n, v);
      assert path[..n + 1][n] == path[n] && path[..n + 1][i] == path[i] && moves[..n][i] == moves[i];
      SecondDoneCall(g, path, moves, i, n, v);
    }
  }

  lemma LateNode(g: Graph, path: seq<State>, moves: seq<Move>, n: nat) returns (v: nat)
    requires WellWired(g) && IsRun(g, path, moves) && n < |moves| && LateAt(g, path, moves, n) && |path| == |moves| + 1
    requires Inv(g, path[n])
    ensures v in path[n].queue.finalized && IsNode(g, v) && !IsSource(g, v) && Writes(moves[n])
    ensures AtCall(path[n], moves[n], v)
  {
    RunStep(g, path, moves, n);
    v := path[n].threads[moves[n].thread].outer.v;
    assert SharedOk(g, path[n]);
  }

  lemma SecondDoneCall(g: Graph, path: seq<State>, moves: seq<Move>, i: nat, n: nat, v: nat)
    requires SilentAfterDone(g, path, moves) && i < n < |moves| && IsDoneCall(path[i], moves[i], v)
    requires v in path[n].queue.finalized && IsNode(g, v) && !IsSource(g, v) && SeenOk(path[n])
    requires AtCall(path[n], moves[n], v)
    ensures !Writes(moves[n])
  {
    assert SeesDone(path[n], path[n].threads[moves[n].thread].outer);
    assert IsDoneCall(path[n], moves[n], v);
  }

  /** Hence, with a condition the nodes' authors control: when the graph has terminated, every consumer has
      popped exactly what its producer emitted, every input is done, and nothing is emitted afterwards. */
  lemma SilentNodesDrain(g: Graph, rank: seq<nat>, workers: nat, path: seq<State>, moves: seq<Move>, i: nat, e: nat)
    requires WellWired(g) && SingleFlight(g) && Ranks(g, rank) && IsRun(g, path, moves) && path[0] == Init(g, workers)
    requires SilentAfterDone(g, path, moves) && i < |path| && path[i].quits > 0 && IsEdge(g, e)
    ensures Sized(g, path[i]) && IsStream(g, g.src[e]) && IsDone(path[i].edges[e])
    ensures path[i].consumed[e] == path[i].emitted[g.src[e]]
    ensures forall k: nat {:trigger path[k]} :: i <= k < |path| ==> path[k].emitted == path[i].emitted
  {
    SilentIsNeverLate(g, rank, workers, path, moves);
    EdgeFacts(g, e);
    hide WellWired, SingleFlight, Ranks, IsRun, SilentAfterDone, GoodRun;
    FanOutComplete(g, rank, workers, path, moves, i);
  }

  /** And an input once done stays done, its consumer having popped everything. */
  lemma SilentDoneIsFinal(g: Graph, rank: seq<nat>, workers: nat, path: seq<State>, moves: seq<Move>, i: nat, j: nat, e: nat)
    requires WellWired(g) && SingleFlight(g) && Ranks(g, rank) && IsRun(g, path, moves) && path[0] == Init(g, workers)
    requires SilentAfterDone(g, path, moves) && i <= j < |path| && IsEdge(g, e)
    requires Sized(g, path[i]) && IsDone(path[i].edges[e])
    ensures Sized(g, path[j]) && IsDone(path[j].edges[e]) && IsStream(g, g.src[e])
    ensures path[j].consumed[e] == path[j].emitted[g.src[e]]
  {
    SilentIsNeverLate(g, rank, workers, path, moves);
    hide WellWired, SingleFlight, Ranks, IsRun, SilentAfterDone, GoodRun;
    DoneIsFinal(g, rank, workers, path, moves, i, j, e);
  }
}
