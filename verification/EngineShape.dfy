/** Program-point invariants of the engine: which calls a thread can be inside, and whose they are. */
module EngineShape {
  import opened Timestamps
  import opened StreamState
  import opened RunQueueState
  import opened Graphs
  import opened Engine

  predicate IsApp(o: Outer) {
    match o
    case AppReady => true
    case AppNotify(_) => true
    case AppCount(_) => true
    case AppPause1 => true
    case AppPause2 => true
    case AppResume1 => true
    case AppResume2 => true
    case _ => false
  }

  // The thread is between TryPop and DecrementPending of node `v`.
  predicate Runs(o: Outer, v: nat) {
    match o
    case Collect(w, _, _) => w == v
    case Compute(w, _) => w == v
    case Post(w, _, _, _, _) => w == v
    case PostShut(w, _, _, _, _) => w == v
    case Scan(w, _, _) => w == v
    case Decide(w, _, _) => w == v
    case Drop(w, _) => w == v
    case CloseOut(w, _, fin) => w == v && !fin
    case CloseMark(w, _, fin) => w == v && !fin
    case StopDrop(w) => w == v
    case _ => false
  }

  // The thread holds a pending-task slot: from the start of RunNextTask to its closing decrement.
  predicate Busy(o: Outer) {
    o != Resting && !IsApp(o)
  }

  // Which broadcast, and of which stream, each program point can be inside.
  ghost predicate MidFits(g: Graph, o: Outer, m: Mid)
    requires WellWired(g) && OuterOk(g, o)
  {
    match m
    case NoMid => true
    case Idle(stage) =>
      && (o == Resting || o == Finish || o == AppReady)
      && (stage.Kick? ==> forall v :: v in stage.todo ==> IsNode(g, v) && IsSource(g, v))
    case Propagate(q, pkts, nb, j, _) =>
      && IsStream(g, q) && j <= |g.mirrors[q]|
      && (match o
          case PostShut(v, outs, _, k, _) => q == OutStream(g, v, k) && pkts == outs[k].pkts
          case CloseMark(v, k, _) => q == OutStream(g, v, k) && pkts == [] && nb == DONE
          case AppNotify(p) => q == p
          case _ => false)
    case Shut(q, j) =>
      && IsStream(g, q) && j <= |g.mirrors[q]|
      && (match o
          case Post(v, _, _, k, _) => 0 < k && q == OutStream(g, v, k - 1)
          case CloseOut(v, k, _) => 0 < k && q == OutStream(g, v, k - 1)
          case AppCount(p) => q == p
          case _ => false)
  }

  // Which AddNode calls are possible where.
  ghost predicate LeafFits(g: Graph, o: Outer, m: Mid, l: Leaf)
    requires WellWired(g) && OuterOk(g, o)
  {
    match l
    case AddNode(n) =>
      && IsNode(g, n)
      && (match m
          case Propagate(_, _, _, _, _) => !IsSource(g, n)
          case Shut(_, _) => !IsSource(g, n)
          case Idle(stage) => stage == Exit || stage.Kick? || stage.Refill?
          case NoMid =>
            match o
            case Buffered(v, i, sched) => n == v && sched && i == 0
            case Again(v, _) => n == v && !IsSource(g, v)
            case Finish => true
            case _ => false)
    case Submit => true
    case AddTask => true
    case NoLeaf => true
  }

  ghost predicate OuterFits(g: Graph, s: State, o: Outer)
    requires WellWired(g) && Sized(g, s) && OuterOk(g, o)
  {
    match o
    case Post(v, _, stop, _, _) => stop ==> IsSource(g, v) && v in s.stopped
    case PostShut(v, _, stop, _, _) => stop ==> IsSource(g, v) && v in s.stopped
    case CloseOut(v, _, fin) => if fin then v in s.queue.finalized && !IsSource(g, v) else IsSource(g, v) && v in s.stopped
    case CloseMark(v, _, fin) => if fin then v in s.queue.finalized && !IsSource(g, v) else IsSource(g, v) && v in s.stopped
    case StopDrop(v) => IsSource(g, v) && v in s.stopped
    case StopErase(v) => IsSource(g, v) && v in s.stopped
    case Decide(v, done, _) => done ==> !IsSource(g, v)
    case Drop(v, a) =>
      && (a != Nothing ==> !IsSource(g, v))
      && (a == CloseNow ==> v in s.queue.finalized)
    case Buffered(v, _, sched) => sched ==> !IsSource(g, v)
    case Again(v, sched) => sched ==> !IsSource(g, v)
    case Recheck(v, _) => !IsSource(g, v)
    case AppNotify(q) => g.owner[q].None? && q !in s.counted && !s.closed[q]
    case AppCount(q) => g.owner[q].None? && q !in s.counted && s.closed[q]
    case _ => true
  }

  ghost predicate ThreadOk(g: Graph, s: State, t: nat)
    requires WellWired(g) && Sized(g, s) && t < |s.threads|
  {
    var th := s.threads[t];
    && OuterOk(g, th.outer)
    && (t == 0 <==> IsApp(th.outer))
    && MidFits(g, th.outer, th.mid)
    && LeafFits(g, th.outer, th.mid, th.leaf)
    && OuterFits(g, s, th.outer)
  }

  ghost predicate SharedOk(g: Graph, s: State)
    requires WellWired(g) && Sized(g, s)
  {
    && (forall v :: v in s.queue.items ==> IsNode(g, v))
    && (forall v :: v in s.queue.finalized ==> IsNode(g, v) && !IsSource(g, v))
    && (forall v :: v in s.stopped ==> IsNode(g, v) && IsSource(g, v))
    && (forall v :: v in s.active ==> IsNode(g, v) && IsSource(g, v))
    && (forall e: nat {:trigger IsEdge(g, e)} :: IsEdge(g, e) ==> !s.edges[e].closed)
    && (forall q :: q in s.counted ==> q in GraphInputs(g) && s.closed[q])
    && (forall q: nat {:trigger IsStream(g, q)} :: IsStream(g, q) && g.owner[q].None? && s.closed[q] ==>
          q in s.counted || s.threads[0].outer == AppCount(q))
  }

  ghost predicate Shape(g: Graph, s: State)
    requires WellWired(g)
  {
    && Sized(g, s)
    && (forall t: nat {:trigger ThreadOk(g, s, t)} :: t < |s.threads| ==> ThreadOk(g, s, t))
    && SharedOk(g, s)
  }

  // ------------------------------------------------------------------ preservation

  // The facts a thread's point relies on survive a step of another thread.
  lemma KeepShape(g: Graph, s: State, s': State, t: nat)
    requires WellWired(g) && Shape(g, s) && Sized(g, s') && OthersSame(s, s', t) && t < |s.threads|
    requires s.stopped <= s'.stopped && s.queue.finalized <= s'.queue.finalized
    requires t != 0 ==> s'.counted == s.counted
    requires t != 0 ==> forall q: nat {:trigger IsStream(g, q)} :: IsStream(g, q) && g.owner[q].None? ==> s'.closed[q] == s.closed[q]
    requires ThreadOk(g, s', t) && SharedOk(g, s')
    ensures Shape(g, s')
  {
    forall u: nat | u < |s'.threads| ensures ThreadOk(g, s', u) {
      assert ThreadOk(g, s, u);
      if u != t {
        assert s'.threads[u] == s.threads[u];
      }
    }
  }

  // A step that leaves the shared fields alone only has to place its own thread.
  lemma KeepLocal(g: Graph, s: State, s': State, t: nat)
    requires WellWired(g) && Shape(g, s) && Sized(g, s') && OthersSame(s, s', t) && t < |s.threads|
    requires s'.queue.items <= s.queue.items && s'.queue.finalized == s.queue.finalized
    requires s'.stopped == s.stopped && s'.active <= s.active && s'.counted == s.counted && s'.closed == s.closed
    requires forall e: nat {:trigger IsEdge(g, e)} :: IsEdge(g, e) ==> s'.edges[e].closed == s.edges[e].closed
    requires ThreadOk(g, s', t)
    requires s.threads[t].outer.AppCount? ==> s'.threads[t].outer == s.threads[t].outer
    ensures Shape(g, s')
  {
    assert SharedOk(g, s') by {
      assert ThreadOk(g, s, 0);
      forall q: nat | IsStream(g, q) && g.owner[q].None? && s'.closed[q]
        ensures q in s'.counted || s'.threads[0].outer == AppCount(q)
      {
        assert q in s.counted || s.threads[0].outer == AppCount(q);
      }
    }
    KeepShape(g, s, s', t);
  }

  lemma ShapeLeaf(g: Graph, s: State, t: nat)
    requires WellWired(g) && Shape(g, s) && t < |s.threads| && s.threads[t].leaf != NoLeaf
    ensures CallsOk(g, s.threads[t])
    ensures Shape(g, LeafStep(g, s, t))
  {
    assert ThreadOk(g, s, t);
    var s' := LeafStep(g, s, t);
    assert ThreadOk(g, s', t);
    assert SharedOk(g, s');
    hide LeafStep, ThreadOk, SharedOk, WellWired;
    KeepShape(g, s, s', t);
  }

  lemma PropagateThread(g: Graph, s: State, t: nat)
    requires WellWired(g) && Sized(g, s) && t < |s.threads| && ThreadOk(g, s, t)
    requires s.threads[t].leaf == NoLeaf && s.threads[t].mid.Propagate?
    ensures var s' := PropagateStep(g, s, t);
      && ThreadOk(g, s', t)
      && (forall e: nat {:trigger IsEdge(g, e)} :: IsEdge(g, e) ==> s'.edges[e].closed == s.edges[e].closed)
  {
    var m := s.threads[t].mid;
    if m.j < |g.mirrors[m.q]| {
      EdgeFacts(g, MirrorEdge(g, m.q, m.j));
    }
  }

  lemma ShutThread(g: Graph, s: State, t: nat)
    requires WellWired(g) && Sized(g, s) && t < |s.threads| && ThreadOk(g, s, t)
    requires s.threads[t].leaf == NoLeaf && s.threads[t].mid.Shut?
    ensures var s' := ShutStep(g, s, t);
      && ThreadOk(g, s', t)
      && (forall e: nat {:trigger IsEdge(g, e)} :: IsEdge(g, e) ==> s'.edges[e].closed == s.edges[e].closed)
  {
    var m := s.threads[t].mid;
    if m.j < |g.mirrors[m.q]| {
      EdgeFacts(g, MirrorEdge(g, m.q, m.j));
    }
  }

  lemma ShapeBroadcast(g: Graph, s: State, t: nat)
    requires WellWired(g) && Shape(g, s) && t < |s.threads| && s.threads[t].leaf == NoLeaf
    requires s.threads[t].mid.Propagate? || s.threads[t].mid.Shut?
    ensures CallsOk(g, s.threads[t])
    ensures Shape(g, if s.threads[t].mid.Shut? then ShutStep(g, s, t) else PropagateStep(g, s, t))
  {
    assert ThreadOk(g, s, t);
    if s.threads[t].mid.Shut? {
      ShutThread(g, s, t);
      hide ShutStep, ThreadOk, SharedOk, WellWired;
      KeepLocal(g, s, ShutStep(g, s, t), t);
    } else {
      PropagateThread(g, s, t);
      hide PropagateStep, ThreadOk, SharedOk, WellWired;
      KeepLocal(g, s, PropagateStep(g, s, t), t);
    }
  }

  lemma IdleThread(g: Graph, s: State, t: nat, c: Choice)
    requires WellWired(g) && Sized(g, s) && Enabled(g, s, t, c) && s.threads[t].leaf == NoLeaf && s.threads[t].mid.Idle?
    requires ThreadOk(g, s, t)
    requires forall v :: v in s.active ==> IsNode(g, v) && IsSource(g, v)
    ensures ThreadOk(g, IdleStep(g, s, t, c), t)
  {
    hide WellWired;
  }

  lemma ShapeIdle(g: Graph, s: State, t: nat, c: Choice)
    requires WellWired(g) && Shape(g, s) && Enabled(g, s, t, c) && s.threads[t].leaf == NoLeaf && s.threads[t].mid.Idle?
    ensures Shape(g, IdleStep(g, s, t, c))
  {
    assert ThreadOk(g, s, t);
    IdleThread(g, s, t, c);
    hide IdleStep, ThreadOk, WellWired, SharedOk;
    KeepLocal(g, s, IdleStep(g, s, t, c), t);
  }

  // ------------------------------------------------------------------ RunNode and application points

  ghost predicate OuterPoint(g: Graph, s: State, t: nat, c: Choice)
    requires WellWired(g)
  {
    Sized(g, s) && Enabled(g, s, t, c) && s.threads[t].leaf == NoLeaf && s.threads[t].mid == NoMid
  }

  lemma ShapeCollect(g: Graph, s: State, t: nat, c: Choice)
    requires WellWired(g) && Shape(g, s) && OuterPoint(g, s, t, c) && s.threads[t].outer.Collect?
    ensures Shape(g, OuterStep(g, s, t, c))
  {
    assert ThreadOk(g, s, t);
    var s' := OuterStep(g, s, t, c);
    assert ThreadOk(g, s', t);
    hide ThreadOk, SharedOk, WellWired, OuterStep;
    KeepLocal(g, s, s', t);
  }

  lemma ShapeScans(g: Graph, s: State, t: nat, c: Choice)
    requires WellWired(g) && Shape(g, s) && OuterPoint(g, s, t, c) && (s.threads[t].outer.Scan? || s.threads[t].outer.Buffered? || s.threads[t].outer.Again? || s.threads[t].outer.Recheck?)
    ensures Shape(g, OuterStep(g, s, t, c))
  {
    assert ThreadOk(g, s, t);
    var s' := OuterStep(g, s, t, c);
    assert ThreadOk(g, s', t);
    hide ThreadOk, SharedOk, WellWired, OuterStep;
    KeepLocal(g, s, s', t);
  }

  lemma ShapeEnds(g: Graph, s: State, t: nat, c: Choice)
    requires WellWired(g) && Shape(g, s) && OuterPoint(g, s, t, c) && (s.threads[t].outer.Resting? || s.threads[t].outer.Missed? || s.threads[t].outer.Finish?)
    ensures Shape(g, OuterStep(g, s, t, c))
  {
    assert ThreadOk(g, s, t);
    var s' := OuterStep(g, s, t, c);
    assert ThreadOk(g, s', t);
    hide ThreadOk, SharedOk, WellWired, OuterStep;
    KeepLocal(g, s, s', t);
  }

  lemma ShapeFetch(g: Graph, s: State, t: nat, c: Choice)
    requires WellWired(g) && Shape(g, s) && OuterPoint(g, s, t, c) && s.threads[t].outer.Fetch?
    ensures Shape(g, OuterStep(g, s, t, c))
  {
    assert ThreadOk(g, s, t);
    var s' := OuterStep(g, s, t, c);
    assert ThreadOk(g, s', t);
    assert SharedOk(g, s');
    hide ThreadOk, SharedOk, WellWired, OuterStep;
    KeepShape(g, s, s', t);
  }

  lemma ShapeCompute(g: Graph, s: State, t: nat, c: Choice)
    requires WellWired(g) && Shape(g, s) && OuterPoint(g, s, t, c) && s.threads[t].outer.Compute?
    ensures Shape(g, OuterStep(g, s, t, c))
  {
    assert ThreadOk(g, s, t);
    var s' := OuterStep(g, s, t, c);
    assert ThreadOk(g, s', t);
    assert SharedOk(g, s');
    hide ThreadOk, SharedOk, WellWired, OuterStep;
    KeepShape(g, s, s', t);
  }

  lemma ShapePost(g: Graph, s: State, t: nat, c: Choice)
    requires WellWired(g) && Shape(g, s) && OuterPoint(g, s, t, c) && s.threads[t].outer.Post?
    ensures Shape(g, OuterStep(g, s, t, c))
  {
    assert ThreadOk(g, s, t);
    var s' := OuterStep(g, s, t, c);
    assert ThreadOk(g, s', t);
    hide ThreadOk, SharedOk, WellWired, OuterStep;
    KeepLocal(g, s, s', t);
  }

  lemma ShapePostShut(g: Graph, s: State, t: nat, c: Choice)
    requires WellWired(g) && Shape(g, s) && OuterPoint(g, s, t, c) && s.threads[t].outer.PostShut?
    ensures Shape(g, OuterStep(g, s, t, c))
  {
    assert ThreadOk(g, s, t);
    var s' := OuterStep(g, s, t, c);
    assert ThreadOk(g, s', t);
    assert SharedOk(g, s');
    hide ThreadOk, SharedOk, WellWired, OuterStep;
    KeepShape(g, s, s', t);
  }

  lemma ShapeDecide(g: Graph, s: State, t: nat, c: Choice)
    requires WellWired(g) && Shape(g, s) && OuterPoint(g, s, t, c) && s.threads[t].outer.Decide?
    ensures Shape(g, OuterStep(g, s, t, c))
  {
    assert ThreadOk(g, s, t);
    var s' := OuterStep(g, s, t, c);
    assert ThreadOk(g, s', t);
    assert SharedOk(g, s');
    hide ThreadOk, SharedOk, WellWired, OuterStep;
    KeepShape(g, s, s', t);
  }

  lemma ShapeDrop(g: Graph, s: State, t: nat, c: Choice)
    requires WellWired(g) && Shape(g, s) && OuterPoint(g, s, t, c) && s.threads[t].outer.Drop?
    ensures Shape(g, OuterStep(g, s, t, c))
  {
    assert ThreadOk(g, s, t);
    var s' := OuterStep(g, s, t, c);
    assert ThreadOk(g, s', t);
    hide ThreadOk, SharedOk, WellWired, OuterStep;
    KeepLocal(g, s, s', t);
  }

  lemma ShapeCloseOut(g: Graph, s: State, t: nat, c: Choice)
    requires WellWired(g) && Shape(g, s) && OuterPoint(g, s, t, c) && s.threads[t].outer.CloseOut?
    ensures Shape(g, OuterStep(g, s, t, c))
  {
    assert ThreadOk(g, s, t);
    var s' := OuterStep(g, s, t, c);
    assert ThreadOk(g, s', t);
    hide ThreadOk, SharedOk, WellWired, OuterStep;
    KeepLocal(g, s, s', t);
  }

  lemma ShapeCloseMark(g: Graph, s: State, t: nat, c: Choice)
    requires WellWired(g) && Shape(g, s) && OuterPoint(g, s, t, c) && s.threads[t].outer.CloseMark?
    ensures Shape(g, OuterStep(g, s, t, c))
  {
    assert ThreadOk(g, s, t);
    var s' := OuterStep(g, s, t, c);
    assert ThreadOk(g, s', t);
    assert SharedOk(g, s');
    hide ThreadOk, SharedOk, WellWired, OuterStep;
    KeepShape(g, s, s', t);
  }

  lemma ShapeStops(g: Graph, s: State, t: nat, c: Choice)
    requires WellWired(g) && Shape(g, s) && OuterPoint(g, s, t, c) && (s.threads[t].outer.StopDrop? || s.threads[t].outer.StopErase?)
    ensures Shape(g, OuterStep(g, s, t, c))
  {
    assert ThreadOk(g, s, t);
    var s' := OuterStep(g, s, t, c);
    assert ThreadOk(g, s', t);
    hide ThreadOk, SharedOk, WellWired, OuterStep;
    KeepLocal(g, s, s', t);
  }

  lemma ShapeAppReady(g: Graph, s: State, t: nat, c: Choice)
    requires WellWired(g) && Shape(g, s) && OuterPoint(g, s, t, c) && s.threads[t].outer.AppReady?
    ensures Shape(g, AppCall(g, s, t, c))
  {
    assert ThreadOk(g, s, t);
    var s' := AppCall(g, s, t, c);
    assert ThreadOk(g, s', t);
    assert SharedOk(g, s');
    hide ThreadOk, SharedOk, WellWired, AppCall;
    KeepShape(g, s, s', t);
  }

  lemma ShapeAppNotify(g: Graph, s: State, t: nat, c: Choice)
    requires WellWired(g) && Shape(g, s) && OuterPoint(g, s, t, c)
    requires s.threads[t].outer.AppNotify? || s.threads[t].outer.AppCount?
    ensures Shape(g, OuterStep(g, s, t, c))
  {
    assert ThreadOk(g, s, t);
    var s' := OuterStep(g, s, t, c);
    assert ThreadOk(g, s', t);
    assert SharedOk(g, s');
    hide ThreadOk, SharedOk, WellWired, OuterStep;
    KeepShape(g, s, s', t);
  }

  lemma ShapeSwitch(g: Graph, s: State, t: nat, c: Choice)
    requires WellWired(g) && Shape(g, s) && OuterPoint(g, s, t, c)
    requires var o := s.threads[t].outer; o.AppPause1? || o.AppPause2? || o.AppResume1? || o.AppResume2?
    ensures Shape(g, OuterStep(g, s, t, c))
  {
    assert ThreadOk(g, s, t);
    var s' := OuterStep(g, s, t, c);
    assert ThreadOk(g, s', t);
    hide ThreadOk, SharedOk, WellWired, OuterStep;
    KeepLocal(g, s, s', t);
  }

  lemma ShapeStep(g: Graph, s: State, t: nat, c: Choice)
    requires WellWired(g) && Shape(g, s) && Enabled(g, s, t, c)
    ensures Shape(g, Step(g, s, t, c))
  {
    if s.threads[t].leaf != NoLeaf {
      ShapeLeaf(g, s, t);
    } else if s.threads[t].mid.Propagate? || s.threads[t].mid.Shut? {
      ShapeBroadcast(g, s, t);
    } else if s.threads[t].mid.Idle? {
      ShapeIdle(g, s, t, c);
    } else {
      hide Shape, AppCall;
      match s.threads[t].outer
      case Collect(_, _, _) => ShapeCollect(g, s, t, c);
      case Scan(_, _, _) => ShapeScans(g, s, t, c);
      case Buffered(_, _, _) => ShapeScans(g, s, t, c);
      case Again(_, _) => ShapeScans(g, s, t, c);
      case Recheck(_, _) => ShapeScans(g, s, t, c);
      case Resting => ShapeEnds(g, s, t, c);
      case Missed => ShapeEnds(g, s, t, c);
      case Finish => ShapeEnds(g, s, t, c);
      case Fetch => ShapeFetch(g, s, t, c);
      case Compute(_, _) => ShapeCompute(g, s, t, c);
      case Post(_, _, _, _, _) => ShapePost(g, s, t, c);
      case PostShut(_, _, _, _, _) => ShapePostShut(g, s, t, c);
      case Decide(_, _, _) => ShapeDecide(g, s, t, c);
      case Drop(_, _) => ShapeDrop(g, s, t, c);
      case CloseOut(_, _, _) => ShapeCloseOut(g, s, t, c);
      case CloseMark(_, _, _) => ShapeCloseMark(g, s, t, c);
      case StopDrop(_) => ShapeStops(g, s, t, c);
      case StopErase(_) => ShapeStops(g, s, t, c);
      case AppReady => ShapeAppReady(g, s, t, c);
      case AppNotify(_) => ShapeAppNotify(g, s, t, c);
      case AppCount(_) => ShapeAppNotify(g, s, t, c);
      case _ => ShapeSwitch(g, s, t, c);
    }
  }

  lemma ShapeInit(g: Graph, workers: nat)
    requires WellWired(g)
    ensures Shape(g, Init(g, workers))
  {
    var s := Init(g, workers);
    forall t: nat | t < |s.threads| ensures ThreadOk(g, s, t) {
      assert t > 0 ==> s.threads[t] == Thread(Resting, NoMid, NoLeaf);
    }
  }
}
