/** Counting invariants: task slots, in-flight invocations, HandleIdle entries, and no stranded work. */
module EngineAccounting {
  import opened Timestamps
  import opened StreamState
  import opened RunQueueState
  import opened Graphs
  import opened Engine
  import opened EngineShape

  datatype Kind = Slot | Runner(v: nat) | Handler | Body | Token(s: nat)

  // The thread is one of source `v`'s ways to keep producing: its run, or the AddNode that follows.
  predicate Carrying(th: Thread, v: nat) {
    match th.outer
    case Collect(w, _, _) => w == v
    case Compute(w, _) => w == v
    case Post(w, _, stop, _, _) => w == v && !stop
    case PostShut(w, _, stop, _, _) => w == v && !stop
    case Scan(w, _, _) => w == v
    case Decide(w, _, _) => w == v
    case Drop(w, _) => w == v
    case Buffered(w, _, _) => w == v
    case Again(w, _) => w == v
    case Finish => th.leaf == AddNode(v)
    case _ => false
  }

  function Weight(k: Kind, th: Thread): nat {
    match k
    case Slot => (if Busy(th.outer) then 1 else 0) + (if th.leaf == AddTask then 1 else 0)
    case Runner(v) => if Runs(th.outer, v) then 1 else 0
    case Handler => if th.mid.Idle? && th.mid.stage != Enter then 1 else 0
    case Body => if th.mid.Idle? && th.mid.stage != Enter && th.mid.stage != Bounce then 1 else 0
    case Token(v) => if Carrying(th, v) then 1 else 0
  }

  function Sum(k: Kind, ths: seq<Thread>): nat {
    if ths == [] then 0 else Weight(k, ths[0]) + Sum(k, ths[1..])
  }

  lemma {:induction false} SumUpdate(k: Kind, ths: seq<Thread>, t: nat, th: Thread)
    requires t < |ths|
    ensures Sum(k, ths[t := th]) + Weight(k, ths[t]) == Sum(k, ths) + Weight(k, th)
  {
    if t == 0 {
      assert ths[0 := th][1..] == ths[1..];
    } else {
      assert ths[t := th][1..] == ths[1..][t - 1 := th];
      SumUpdate(k, ths[1..], t - 1, th);
    }
  }

  lemma {:induction false} SumHasOne(k: Kind, ths: seq<Thread>, t: nat)
    requires t < |ths|
    ensures Weight(k, ths[t]) <= Sum(k, ths)
  {
    if t > 0 {
      SumHasOne(k, ths[1..], t - 1);
    }
  }

  lemma {:induction false} SumHasTwo(k: Kind, ths: seq<Thread>, t: nat, u: nat)
    requires t < u < |ths|
    ensures Weight(k, ths[t]) + Weight(k, ths[u]) <= Sum(k, ths)
  {
    if t == 0 {
      SumHasOne(k, ths[1..], u - 1);
    } else {
      SumHasTwo(k, ths[1..], t - 1, u - 1);
    }
  }

  // Pending invocations are exactly the queued items plus the runs before DecrementPending.
  ghost predicate Flight(g: Graph, s: State, v: nat)
    requires WellWired(g) && Sized(g, s) && IsNode(g, v)
  {
    s.pending[v] == s.queue.items[v] + Sum(Runner(v), s.threads) && s.pending[v] <= g.cap[v]
  }

  predicate Carries(th: Thread) {
    th.leaf == Submit || th.leaf == AddTask || (Busy(th.outer) && th.outer != Missed)
  }

  // Work that a running queue holds always has a task, a worker or a submission on its way.
  ghost predicate Served(s: State) {
    WantsWorker(s.queue) ==> s.tasks > 0 || exists u: nat :: u < |s.threads| && Carries(s.threads[u])
  }

  ghost predicate AccOk(g: Graph, s: State)
    requires WellWired(g) && Sized(g, s)
  {
    && s.queue.numPending == s.tasks + Sum(Slot, s.threads)
    && (forall v: nat {:trigger Flight(g, s, v)} :: IsNode(g, v) ==> Flight(g, s, v))
    && s.handling == Sum(Handler, s.threads)
    && Sum(Body, s.threads) <= 1
    && Served(s)
  }

  // ------------------------------------------------------------------ preservation

  lemma ServedFrame(s: State, s': State, t: nat)
    requires Served(s) && OthersSame(s, s', t) && t < |s.threads|
    requires WantsWorker(s'.queue) ==> WantsWorker(s.queue) || Carries(s'.threads[t])
    requires s'.tasks >= s.tasks || Carries(s'.threads[t])
    requires Carries(s.threads[t]) && WantsWorker(s'.queue) ==> Carries(s'.threads[t]) || s'.tasks > 0
    ensures Served(s')
  {
    if WantsWorker(s'.queue) && s'.tasks == 0 {
      if Carries(s'.threads[t]) {
      } else {
        var u: nat :| u < |s.threads| && Carries(s.threads[u]);
        assert Carries(s'.threads[u]);
      }
    }
  }

  ghost predicate FlightMoves(g: Graph, s: State, s': State, t: nat, v: nat)
    requires WellWired(g) && Sized(g, s) && Sized(g, s') && IsNode(g, v) && t < |s.threads| && t < |s'.threads|
  {
    && s'.pending[v] + s.queue.items[v] + Weight(Runner(v), s.threads[t])
       == s.pending[v] + s'.queue.items[v] + Weight(Runner(v), s'.threads[t])
    && s'.pending[v] <= g.cap[v]
  }

  lemma AccFrame(g: Graph, s: State, s': State, t: nat)
    requires WellWired(g) && Sized(g, s) && AccOk(g, s) && Sized(g, s') && OthersSame(s, s', t) && t < |s.threads|
    requires s'.queue.numPending + s.tasks + Weight(Slot, s.threads[t])
          == s.queue.numPending + s'.tasks + Weight(Slot, s'.threads[t])
    requires forall v: nat {:trigger FlightMoves(g, s, s', t, v)} :: IsNode(g, v) ==> FlightMoves(g, s, s', t, v)
    requires s'.handling + Weight(Handler, s.threads[t]) == s.handling + Weight(Handler, s'.threads[t])
    requires Weight(Body, s'.threads[t]) <= Weight(Body, s.threads[t]) || s.handling == 0
    requires Served(s')
    ensures AccOk(g, s')
  {
    var th := s'.threads[t];
    assert s'.threads == s.threads[t := th];
    SumUpdate(Slot, s.threads, t, th);
    SumUpdate(Handler, s.threads, t, th);
    SumUpdate(Body, s.threads, t, th);
    BodyHandles(s.threads);
    forall v: nat | IsNode(g, v) ensures Flight(g, s', v) {
      assert Flight(g, s, v) && FlightMoves(g, s, s', t, v);
      SumUpdate(Runner(v), s.threads, t, th);
    }
  }

  lemma {:induction false} BodyHandles(ths: seq<Thread>)
    ensures Sum(Body, ths) <= Sum(Handler, ths)
  {
    if ths != [] {
      BodyHandles(ths[1..]);
    }
  }

  // A step that touches none of the counters and keeps the thread's own weights.
  lemma AccQuiet(g: Graph, s: State, s': State, t: nat)
    requires WellWired(g) && Sized(g, s) && AccOk(g, s) && Sized(g, s') && OthersSame(s, s', t) && t < |s.threads|
    requires s'.queue.numPending == s.queue.numPending && s'.queue.items == s.queue.items && s'.queue.running == s.queue.running
    requires s'.tasks == s.tasks && s'.pending == s.pending && s'.handling == s.handling
    requires Busy(s'.threads[t].outer) == Busy(s.threads[t].outer)
    requires s.threads[t].leaf == NoLeaf && s'.threads[t].leaf != AddTask
    requires s.threads[t].outer == Missed || s'.threads[t].outer != Missed
    requires forall v: nat {:trigger Runs(s.threads[t].outer, v)} :: Runs(s.threads[t].outer, v) == Runs(s'.threads[t].outer, v)
    requires Weight(Handler, s'.threads[t]) == Weight(Handler, s.threads[t])
    requires Weight(Body, s'.threads[t]) <= Weight(Body, s.threads[t])
    ensures AccOk(g, s')
  {
    forall v: nat | IsNode(g, v) ensures FlightMoves(g, s, s', t, v) {
      assert Flight(g, s, v);
      assert Runs(s.threads[t].outer, v) == Runs(s'.threads[t].outer, v);
    }
    ServedFrame(s, s', t);
    AccFrame(g, s, s', t);
  }

  lemma AccLeaf(g: Graph, s: State, t: nat)
    requires WellWired(g) && Shape(g, s) && AccOk(g, s) && t < |s.threads| && s.threads[t].leaf != NoLeaf
    ensures CallsOk(g, s.threads[t])
    ensures AccOk(g, LeafStep(g, s, t))
  {
    assert ThreadOk(g, s, t);
    var s' := LeafStep(g, s, t);
    hide ThreadOk, WellWired, Sum;
    forall v: nat | IsNode(g, v) ensures FlightMoves(g, s, s', t, v) {
      assert Flight(g, s, v);
    }
    ServedFrame(s, s', t);
    AccFrame(g, s, s', t);
  }

  lemma AccBroadcast(g: Graph, s: State, t: nat)
    requires WellWired(g) && Shape(g, s) && AccOk(g, s) && t < |s.threads| && s.threads[t].leaf == NoLeaf
    requires s.threads[t].mid.Propagate? || s.threads[t].mid.Shut?
    ensures CallsOk(g, s.threads[t])
    ensures AccOk(g, if s.threads[t].mid.Shut? then ShutStep(g, s, t) else PropagateStep(g, s, t))
  {
    assert ThreadOk(g, s, t);
    hide ThreadOk, WellWired, AccOk;
    AccQuiet(g, s, if s.threads[t].mid.Shut? then ShutStep(g, s, t) else PropagateStep(g, s, t), t);
  }

  lemma AccIdle(g: Graph, s: State, t: nat, c: Choice)
    requires WellWired(g) && Shape(g, s) && AccOk(g, s) && Enabled(g, s, t, c)
    requires s.threads[t].leaf == NoLeaf && s.threads[t].mid.Idle?
    ensures AccOk(g, IdleStep(g, s, t, c))
  {
    SumHasOne(Handler, s.threads, t);
    IdleWeights(g, s, t, c);
    hide IdleStep, ThreadOk, WellWired, Sum, Shape, Enabled;
    var s' := IdleStep(g, s, t, c);
    forall v: nat | IsNode(g, v) ensures FlightMoves(g, s, s', t, v) {
      assert Flight(g, s, v);
    }
    ServedFrame(s, s', t);
    AccFrame(g, s, s', t);
  }

  // HandleIdle's steps change its own weights in step with handling_idle_, and no others.
  lemma IdleWeights(g: Graph, s: State, t: nat, c: Choice)
    requires WellWired(g) && Enabled(g, s, t, c) && s.threads[t].leaf == NoLeaf && s.threads[t].mid.Idle?
    requires Weight(Handler, s.threads[t]) <= s.handling
    ensures var s' := IdleStep(g, s, t, c); var th, th' := s.threads[t], s'.threads[t];
      && s'.handling + Weight(Handler, th) == s.handling + Weight(Handler, th')
      && (Weight(Body, th') <= Weight(Body, th) || s.handling == 0)
      && Weight(Slot, th') == Weight(Slot, th) && (Carries(th) ==> Carries(th'))
      && s'.queue == s.queue && s'.tasks == s.tasks && s'.pending == s.pending
  {
    hide WellWired;
  }

  lemma AccRun1(g: Graph, s: State, t: nat, c: Choice)
    requires WellWired(g) && Shape(g, s) && AccOk(g, s) && OuterPoint(g, s, t, c) && (s.threads[t].outer.Collect? || s.threads[t].outer.Compute? || s.threads[t].outer.Scan? || s.threads[t].outer.Decide?)
    ensures AccOk(g, OuterStep(g, s, t, c))
  {
    assert ThreadOk(g, s, t);
    hide ThreadOk, WellWired, AccOk;
    AccQuiet(g, s, OuterStep(g, s, t, c), t);
  }

  lemma AccRun2(g: Graph, s: State, t: nat, c: Choice)
    requires WellWired(g) && Shape(g, s) && AccOk(g, s) && OuterPoint(g, s, t, c) && (s.threads[t].outer.Post? || s.threads[t].outer.PostShut?)
    ensures AccOk(g, OuterStep(g, s, t, c))
  {
    assert ThreadOk(g, s, t);
    hide ThreadOk, WellWired, AccOk;
    AccQuiet(g, s, OuterStep(g, s, t, c), t);
  }

  lemma AccClose(g: Graph, s: State, t: nat, c: Choice)
    requires WellWired(g) && Shape(g, s) && AccOk(g, s) && OuterPoint(g, s, t, c) && (s.threads[t].outer.CloseOut? || s.threads[t].outer.CloseMark? || s.threads[t].outer.StopErase?)
    ensures AccOk(g, OuterStep(g, s, t, c))
  {
    assert ThreadOk(g, s, t);
    hide ThreadOk, WellWired, AccOk;
    AccQuiet(g, s, OuterStep(g, s, t, c), t);
  }

  lemma AccTail(g: Graph, s: State, t: nat, c: Choice)
    requires WellWired(g) && Shape(g, s) && AccOk(g, s) && OuterPoint(g, s, t, c) && (s.threads[t].outer.Buffered? || s.threads[t].outer.Again? || s.threads[t].outer.Recheck?)
    ensures AccOk(g, OuterStep(g, s, t, c))
  {
    assert ThreadOk(g, s, t);
    hide ThreadOk, WellWired, AccOk;
    AccQuiet(g, s, OuterStep(g, s, t, c), t);
  }

  lemma AccAppCall(g: Graph, s: State, t: nat, c: Choice)
    requires WellWired(g) && Shape(g, s) && AccOk(g, s) && OuterPoint(g, s, t, c) && s.threads[t].outer.AppReady?
    ensures AccOk(g, AppCall(g, s, t, c))
  {
    assert ThreadOk(g, s, t);
    hide ThreadOk, WellWired, AccOk;
    AccQuiet(g, s, AppCall(g, s, t, c), t);
  }

  lemma AccApp(g: Graph, s: State, t: nat, c: Choice)
    requires WellWired(g) && Shape(g, s) && AccOk(g, s) && OuterPoint(g, s, t, c) && (s.threads[t].outer.AppNotify? || s.threads[t].outer.AppCount? || s.threads[t].outer.AppPause1?)
    ensures AccOk(g, OuterStep(g, s, t, c))
  {
    assert ThreadOk(g, s, t);
    hide ThreadOk, WellWired, AccOk;
    AccQuiet(g, s, OuterStep(g, s, t, c), t);
  }

  lemma AccTask(g: Graph, s: State, t: nat, c: Choice)
    requires WellWired(g) && Shape(g, s) && AccOk(g, s) && OuterPoint(g, s, t, c) && (s.threads[t].outer.Resting? || s.threads[t].outer.Missed? || s.threads[t].outer.Finish?)
    ensures AccOk(g, OuterStep(g, s, t, c))
  {
    assert ThreadOk(g, s, t);
    var s' := OuterStep(g, s, t, c);
    hide ThreadOk, WellWired, Sum;
    SumHasOne(Slot, s.threads, t);
    forall v: nat | IsNode(g, v) ensures FlightMoves(g, s, s', t, v) {
      assert Flight(g, s, v);
    }
    ServedFrame(s, s', t);
    AccFrame(g, s, s', t);
  }

  lemma AccFetch(g: Graph, s: State, t: nat, c: Choice)
    requires WellWired(g) && Shape(g, s) && AccOk(g, s) && OuterPoint(g, s, t, c) && s.threads[t].outer.Fetch?
    ensures AccOk(g, OuterStep(g, s, t, c))
  {
    assert ThreadOk(g, s, t);
    var s' := OuterStep(g, s, t, c);
    hide ThreadOk, WellWired, Sum;
    forall v: nat | IsNode(g, v) ensures FlightMoves(g, s, s', t, v) {
      assert Flight(g, s, v);
    }
    ServedFrame(s, s', t);
    AccFrame(g, s, s', t);
  }

  lemma AccDrop(g: Graph, s: State, t: nat, c: Choice)
    requires WellWired(g) && Shape(g, s) && AccOk(g, s) && OuterPoint(g, s, t, c) && (s.threads[t].outer.Drop? || s.threads[t].outer.StopDrop?)
    ensures AccOk(g, OuterStep(g, s, t, c))
  {
    assert ThreadOk(g, s, t);
    var s' := OuterStep(g, s, t, c);
    hide ThreadOk, WellWired, Sum;
    SumHasOne(Runner(s.threads[t].outer.v), s.threads, t);
    assert Flight(g, s, s.threads[t].outer.v);
    forall v: nat | IsNode(g, v) ensures FlightMoves(g, s, s', t, v) {
      assert Flight(g, s, v);
    }
    ServedFrame(s, s', t);
    AccFrame(g, s, s', t);
  }

  // Pause and Resume change nothing but the running flag, and submit when the queue then wants a worker.
  lemma SwitchMoves(g: Graph, s: State, t: nat, c: Choice)
    requires WellWired(g) && OuterPoint(g, s, t, c) && (s.threads[t].outer.AppPause2? || s.threads[t].outer.AppResume1? || s.threads[t].outer.AppResume2?)
    ensures var s' := OuterStep(g, s, t, c); var th' := s'.threads[t];
      && OthersSame(s, s', t) && Sized(g, s')
      && s'.pending == s.pending && s'.tasks == s.tasks && s'.handling == s.handling
      && s'.queue == s.queue.(running := s'.queue.running)
      && IsApp(th'.outer) && th'.leaf != AddTask && (th'.mid.Idle? ==> th'.mid.stage == Enter)
      && (WantsWorker(s'.queue) ==> WantsWorker(s.queue) || th'.leaf == Submit)
  {
    hide WellWired, AppCall;
  }

  lemma AccSwitch(g: Graph, s: State, t: nat, c: Choice)
    requires WellWired(g) && Shape(g, s) && AccOk(g, s) && OuterPoint(g, s, t, c) && (s.threads[t].outer.AppPause2? || s.threads[t].outer.AppResume1? || s.threads[t].outer.AppResume2?)
    ensures AccOk(g, OuterStep(g, s, t, c))
  {
    SwitchMoves(g, s, t, c);
    var th := s.threads[t];
    assert th.leaf == NoLeaf && th.mid == NoMid && IsApp(th.outer);
    hide OuterStep, OuterPoint, Enabled, Shape, WellWired, Sum;
    var s' := OuterStep(g, s, t, c);
    forall v: nat | IsNode(g, v) ensures FlightMoves(g, s, s', t, v) {
      assert Flight(g, s, v);
    }
    ServedFrame(s, s', t);
    AccFrame(g, s, s', t);
  }

  lemma AccStep(g: Graph, s: State, t: nat, c: Choice)
    requires WellWired(g) && Shape(g, s) && AccOk(g, s) && Enabled(g, s, t, c)
    ensures Sized(g, Step(g, s, t, c)) && AccOk(g, Step(g, s, t, c))
  {
    ShapeStep(g, s, t, c);
    if s.threads[t].leaf != NoLeaf {
      AccLeaf(g, s, t);
    } else if s.threads[t].mid.Propagate? || s.threads[t].mid.Shut? {
      AccBroadcast(g, s, t);
    } else if s.threads[t].mid.Idle? {
      AccIdle(g, s, t, c);
    } else {
      hide AppCall, AccOk;
      match s.threads[t].outer
      case Collect(_, _, _) => AccRun1(g, s, t, c);
      case Compute(_, _) => AccRun1(g, s, t, c);
      case Scan(_, _, _) => AccRun1(g, s, t, c);
      case Decide(_, _, _) => AccRun1(g, s, t, c);
      case Post(_, _, _, _, _) => AccRun2(g, s, t, c);
      case PostShut(_, _, _, _, _) => AccRun2(g, s, t, c);
      case CloseOut(_, _, _) => AccClose(g, s, t, c);
      case CloseMark(_, _, _) => AccClose(g, s, t, c);
      case StopErase(_) => AccClose(g, s, t, c);
      case Buffered(_, _, _) => AccTail(g, s, t, c);
      case Again(_, _) => AccTail(g, s, t, c);
      case Recheck(_, _) => AccTail(g, s, t, c);
      case Resting => AccTask(g, s, t, c);
      case Missed => AccTask(g, s, t, c);
      case Finish => AccTask(g, s, t, c);
      case Fetch => AccFetch(g, s, t, c);
      case Drop(_, _) => AccDrop(g, s, t, c);
      case StopDrop(_) => AccDrop(g, s, t, c);
      case AppReady => AccAppCall(g, s, t, c);
      case AppNotify(_) => AccApp(g, s, t, c);
      case AppCount(_) => AccApp(g, s, t, c);
      case AppPause1 => AccApp(g, s, t, c);
      case _ => AccSwitch(g, s, t, c);
    }
  }

  lemma {:induction false} SumResting(k: Kind, n: nat)
    ensures Sum(k, seq(n, _ => Thread(Resting, NoMid, NoLeaf))) == 0
  {
    if n > 0 {
      var th := Thread(Resting, NoMid, NoLeaf);
      assert seq(n, _ => th)[1..] == seq(n - 1, _ => th);
      SumResting(k, n - 1);
    }
  }

  lemma SumInit(k: Kind, g: Graph, workers: nat)
    requires WellWired(g)
    ensures Sum(k, Init(g, workers).threads) == Weight(k, Init(g, workers).threads[0])
  {
    assert Init(g, workers).threads[1..] == seq(workers, _ => Thread(Resting, NoMid, NoLeaf));
    SumResting(k, workers);
  }

  lemma AccInit(g: Graph, workers: nat)
    requires WellWired(g)
    ensures AccOk(g, Init(g, workers))
  {
    var s := Init(g, workers);
    SumInit(Slot, g, workers);
    SumInit(Handler, g, workers);
    SumInit(Body, g, workers);
    forall v: nat | IsNode(g, v) ensures Flight(g, s, v) {
      SumInit(Runner(v), g, workers);
    }
    assert WantsWorker(s.queue) ==> Carries(s.threads[0]) by {
      if SourceSet(g) == {} {
        assert s.queue.items == multiset{};
      }
    }
  }
}
