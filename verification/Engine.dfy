/** The asynchronous engine as interleaved threads. One step is one critical section (or one
    unsynchronised access) of the scheduler, its run queue and the stream managers. */
module Engine {
  import opened Timestamps
  import opened StreamState
  import opened RunQueueState
  import opened Graphs

  /** What one Process call left in one output shard. */
  datatype Out = Out(pkts: seq<Packet>, updated: Timestamp, close: bool)

  const QUIET := Out([], UNSET, false)

  datatype DrainStatus = NotSwept | NotDone | Drained

  /** Program points of Scheduler::HandleIdle and DrainInputQueues. */
  datatype IdleStage =
    | Enter
    | Bounce
    | Look
    | Test(rem: bool)
    | Sources(rem: bool)
    | Sweep(v: nat, i: nat, allDone: bool, buffered: bool)
    | Refill(v: nat)
    | Unfinal(v: nat, allDone: bool)
    | Verdict(rem: bool, noMore: bool, drain: DrainStatus)
    | Quit
    | Kick(todo: set<nat>)
    | Exit

  /** A call in progress below the thread's main loop: a broadcast over mirrors, or HandleIdle. */
  datatype Mid =
    | NoMid
    | Propagate(q: nat, pkts: seq<Packet>, nb: Timestamp, j: nat, sent: bool)
    | Shut(q: nat, j: nat)
    | Idle(stage: IdleStage)

  /** The innermost call: SchedulerQueue::AddNode and the submission that may follow it. */
  datatype Leaf = NoLeaf | AddNode(n: nat) | Submit | AddTask

  /** Program points of RunNextTask/RunNode (workers) and of the application thread. */
  datatype Outer =
    | Resting
    | Fetch
    | Missed
    | Collect(v: nat, i: nat, seen: bool)
    | Compute(v: nat, seen: bool)
    | Post(v: nat, outs: seq<Out>, stop: bool, k: nat, seen: bool)
    | PostShut(v: nat, outs: seq<Out>, stop: bool, k: nat, seen: bool)
    | Scan(v: nat, i: nat, seen: bool)
    | Decide(v: nat, done: bool, seen: bool)
    | Drop(v: nat, action: FinalizeAction)
    | CloseOut(v: nat, k: nat, fin: bool)
    | CloseMark(v: nat, k: nat, fin: bool)
    | StopDrop(v: nat)
    | StopErase(v: nat)
    | Buffered(v: nat, i: nat, sched: bool)
    | Again(v: nat, sched: bool)
    | Recheck(v: nat, i: nat)
    | Finish
    | AppReady
    | AppNotify(g: nat)
    | AppCount(g: nat)
    | AppPause1
    | AppPause2
    | AppResume1
    | AppResume2

  datatype Thread = Thread(outer: Outer, mid: Mid, leaf: Leaf)

  datatype Mode = Running | Paused | Terminated

  datatype State = State(
    edges: seq<Inbox>,
    consumed: seq<seq<Packet>>,   // history: packets popped from each edge
    bound: seq<Timestamp>,        // OutputStreamManager::next_timestamp_bound_
    closed: seq<bool>,            // OutputStreamManager::closed_
    emitted: seq<seq<Packet>>,    // history: packets each stream's producer added
    sealed: set<nat>,             // history: streams whose producer has announced its end
    queue: RunQueue,
    pending: seq<nat>,            // Node::pending_count_
    tasks: nat,                   // executor tasks not yet started
    threads: seq<Thread>,         // thread 0 is the application, the rest are executor workers
    active: set<nat>,             // Scheduler::active_sources_
    stopped: set<nat>,            // history: sources whose Process returned Stop
    counted: set<nat>,            // graph inputs counted as closed
    handling: nat,                // Scheduler::handling_idle_
    mode: Mode,
    quits: nat)                   // history: how often HandleIdle terminated the graph

  /** What the environment decides: scheduling picks, node behaviour, application calls. */
  datatype Choice =
    | Go
    | Pick(n: nat)
    | Outcome(outs: seq<Out>, stop: bool)
    | Inject(g: nat, pkts: seq<Packet>, updated: Timestamp)
    | CloseInput(g: nat)
    | Pause
    | Resume

  // ------------------------------------------------------------------ small accessors

  predicate Sized(g: Graph, s: State) {
    && |s.edges| == |s.consumed| == |g.dst|
    && |s.bound| == |s.closed| == |s.emitted| == |g.mirrors|
    && |s.pending| == |g.ins|
    && |s.threads| >= 1
  }

  predicate AllDone(g: Graph, s: State, v: nat)
    requires WellWired(g) && Sized(g, s) && IsNode(g, v)
  {
    forall i :: 0 <= i < |g.ins[v]| ==> IsDone(s.edges[InEdge(g, v, i)])
  }

  function SetOuter(s: State, t: nat, o: Outer): (r: State)
    requires t < |s.threads|
  {
    s.(threads := s.threads[t := s.threads[t].(outer := o)])
  }

  function SetMid(s: State, t: nat, m: Mid): (r: State)
    requires t < |s.threads|
  {
    s.(threads := s.threads[t := s.threads[t].(mid := m)])
  }

  function SetLeaf(s: State, t: nat, l: Leaf): (r: State)
    requires t < |s.threads|
  {
    s.(threads := s.threads[t := s.threads[t].(leaf := l)])
  }

  function Call(s: State, t: nat, o: Outer, m: Mid, l: Leaf): (r: State)
    requires t < |s.threads|
  {
    s.(threads := s.threads[t := Thread(o, m, l)])
  }

  // A step rewrites only its own thread's program point.
  ghost predicate OthersSame(s: State, s': State, t: nat) {
    && |s'.threads| == |s.threads|
    && forall u: nat {:trigger s'.threads[u]} :: u < |s.threads| && u != t ==> s'.threads[u] == s.threads[u]
  }

  // ------------------------------------------------------------------ the run queue calls

  function LeafStep(g: Graph, s: State, t: nat): (r: State)
    requires WellWired(g) && Sized(g, s) && t < |s.threads|
    requires s.threads[t].leaf != NoLeaf
    requires s.threads[t].leaf.AddNode? ==> IsNode(g, s.threads[t].leaf.n)
    ensures OthersSame(s, r, t)
    ensures r == s.(threads := r.threads, queue := r.queue, pending := r.pending, tasks := r.tasks) && |r.pending| == |s.pending|
    ensures r.threads[t] == s.threads[t].(leaf := r.threads[t].leaf)
  {
    match s.threads[t].leaf
    case AddNode(v) =>
      if s.pending[v] >= g.cap[v] then SetLeaf(s, t, NoLeaf)
      else
        SetLeaf(s.(pending := s.pending[v := s.pending[v] + 1], queue := Pushed(s.queue, v)), t,
                if s.queue.running then Submit else NoLeaf)
    case Submit => SetLeaf(s.(queue := Submitted(s.queue)), t, AddTask)
    case AddTask => SetLeaf(s.(tasks := s.tasks + 1), t, NoLeaf)
  }

  // ------------------------------------------------------------------ broadcasts over mirrors

  // One mirror of PropagateUpdatesToMirrors: hand over the packets, then the bound.
  function PropagateStep(g: Graph, s: State, t: nat): (r: State)
    requires WellWired(g) && Sized(g, s) && t < |s.threads|
    requires s.threads[t].mid.Propagate? && IsStream(g, s.threads[t].mid.q)
    ensures OthersSame(s, r, t)
    ensures r == s.(threads := r.threads, edges := r.edges) && |r.edges| == |s.edges|
    ensures r.threads[t].outer == s.threads[t].outer
  {
    var m := s.threads[t].mid;
    if m.j >= |g.mirrors[m.q]| then SetMid(s, t, NoMid)
    else
      var e := MirrorEdge(g, m.q, m.j);
      if !m.sent then
        var s' := SetMid(s.(edges := s.edges[e := Added(s.edges[e], m.pkts)]), t, m.(sent := true));
        if m.pkts != [] && !s.edges[e].closed && s.edges[e].queue == []
        then SetLeaf(s', t, AddNode(g.dst[e])) else s'
      else
        var s' := SetMid(s, t, m.(j := m.j + 1, sent := false));
        if SendsBound(m.pkts, m.nb) then RaiseEdge(g, s', t, e, m.nb) else s'
  }

  // InputStreamManager::SetNextTimestampBound wakes the consumer exactly when the bound advances.
  function RaiseEdge(g: Graph, s: State, t: nat, e: nat, b: Timestamp): (r: State)
    requires WellWired(g) && Sized(g, s) && t < |s.threads| && IsEdge(g, e)
  {
    if b > s.edges[e].bound
    then SetLeaf(s.(edges := s.edges[e := Raised(s.edges[e], b)]), t, AddNode(g.dst[e]))
    else s
  }

  function ShutStep(g: Graph, s: State, t: nat): (r: State)
    requires WellWired(g) && Sized(g, s) && t < |s.threads|
    requires s.threads[t].mid.Shut? && IsStream(g, s.threads[t].mid.q)
    ensures OthersSame(s, r, t)
    ensures r == s.(threads := r.threads, edges := r.edges) && |r.edges| == |s.edges|
    ensures r.threads[t].outer == s.threads[t].outer
  {
    var m := s.threads[t].mid;
    if m.j >= |g.mirrors[m.q]| then SetMid(s, t, NoMid)
    else RaiseEdge(g, SetMid(s, t, Shut(m.q, m.j + 1)), t, MirrorEdge(g, m.q, m.j), DONE)
  }

  // OutputStreamManager::Close: nothing when already closed, otherwise mark and broadcast Done.
  function CloseStream(g: Graph, s: State, t: nat, q: nat, next: Outer): (r: State)
    requires WellWired(g) && Sized(g, s) && t < |s.threads| && IsStream(g, q)
    ensures OthersSame(s, r, t)
    ensures r == s.(threads := r.threads, closed := r.closed, bound := r.bound)
    ensures |r.closed| == |s.closed| && |r.bound| == |s.bound|
    ensures forall p: nat {:trigger r.closed[p]} :: p < |s.closed| && p != q ==> r.closed[p] == s.closed[p]
    ensures r.closed[q]
  {
    if s.closed[q] then Call(s, t, next, NoMid, NoLeaf)
    else Call(s.(closed := s.closed[q := true], bound := s.bound[q := DONE]), t, next, Shut(q, 0), NoLeaf)
  }

  // Entry of PropagateUpdatesToMirrors.
  function StartPropagate(g: Graph, s: State, t: nat, q: nat, pkts: seq<Packet>, nb: Timestamp, next: Outer): (r: State)
    requires WellWired(g) && Sized(g, s) && t < |s.threads| && IsStream(g, q)
    ensures OthersSame(s, r, t)
    ensures r == s.(threads := r.threads, bound := r.bound)
    ensures |r.bound| == |s.bound|
  {
    Call(if nb == UNSET then s else s.(bound := s.bound[q := nb]), t, next, Propagate(q, pkts, nb, 0, false), NoLeaf)
  }

  // ------------------------------------------------------------------ HandleIdle

  function IdleStep(g: Graph, s: State, t: nat, c: Choice): (r: State)
    requires WellWired(g) && Sized(g, s) && t < |s.threads| && s.threads[t].mid.Idle?
    ensures OthersSame(s, r, t)
    ensures r == s.(threads := r.threads, handling := r.handling, mode := r.mode, quits := r.quits)
    ensures r.threads[t].outer == s.threads[t].outer
  {
    match s.threads[t].mid.stage
    case Enter =>
      SetMid(s.(handling := s.handling + 1), t, Idle(if s.handling + 1 > 1 then Bounce else Look))
    case Bounce => SetMid(s.(handling := Less(s.handling)), t, NoMid)
    case Look => SetMid(s, t, Idle(Test(|GraphInputs(g)| > 0 && |s.counted| < |GraphInputs(g)|)))
    case Test(rem) =>
      SetMid(s, t, Idle(if IsIdle(s.queue) && s.mode == Running then Sources(rem) else Exit))
    case Sources(rem) =>
      var noMore := s.active == {};
      SetMid(s, t, Idle(if noMore && !rem then Sweep(0, 0, true, false) else Verdict(rem, noMore, NotSwept)))
    case Sweep(v, i, allDone, buffered) =>
      if v >= |g.ins| then SetMid(s, t, Idle(if buffered then Refill(0) else Unfinal(0, allDone)))
      else if i >= |g.ins[v]| then SetMid(s, t, Idle(Sweep(v + 1, 0, allDone, buffered)))
      else
        var m := s.edges[InEdge(g, v, i)];
        SetMid(s, t, Idle(Sweep(v, i + 1, allDone && IsDone(m), buffered || m.queue != [])))
    case Refill(v) =>
      if v >= |g.ins| then SetMid(s, t, Idle(Exit))
      else
        var s' := SetMid(s, t, Idle(Refill(v + 1)));
        if s.queue.running && exists i :: 0 <= i < |g.ins[v]| && s.edges[InEdge(g, v, i)].queue != []
        then SetLeaf(s', t, AddNode(v)) else s'
    case Unfinal(v, allDone) =>
      if v >= |g.ins| then SetMid(s, t, Idle(Verdict(false, true, if allDone then Drained else NotDone)))
      else if !IsSource(g, v) && AllDone(g, s, v) && v !in s.queue.finalized
      then Call(s, t, s.threads[t].outer, Idle(Exit), AddNode(v))
      else SetMid(s, t, Idle(Unfinal(v + 1, allDone)))
    case Verdict(rem, noMore, drain) =>
      SetMid(s, t, Idle(if noMore && !rem then Quit else if s.active != {} then Kick(s.active) else Exit))
    case Quit => SetMid(s.(mode := Terminated, quits := s.quits + 1), t, Idle(Exit))
    case Kick(todo) =>
      if todo == {} || !c.Pick? then SetMid(s, t, Idle(Exit))
      else Call(s, t, s.threads[t].outer, Idle(Kick(todo - {c.n})), AddNode(c.n))
    case Exit => SetMid(s.(handling := Less(s.handling)), t, NoMid)
  }

  function Less(n: nat): (r: nat) { if n > 0 then n - 1 else 0 }

  // ------------------------------------------------------------------ RunNextTask and RunNode

  // The packets of every open shard join the stream's history; a closing shard ends its stream.
  function Emitted(g: Graph, s: State, v: nat, outs: seq<Out>): (r: seq<seq<Packet>>)
    requires WellWired(g) && Sized(g, s) && IsNode(g, v) && |outs| == |g.outs[v]|
    ensures |r| == |s.emitted|
    ensures forall q :: 0 <= q < |r| ==>
      r[q] == if Owns(g, v, q) then s.emitted[q] + outs[g.opos[q]].pkts else s.emitted[q]
  {
    seq(|s.emitted|, q requires 0 <= q < |s.emitted| =>
      if Owns(g, v, q) then s.emitted[q] + outs[g.opos[q]].pkts else s.emitted[q])
  }

  function OutputsOf(g: Graph, v: nat): (r: set<nat>)
    requires WellWired(g)
    ensures forall q: nat :: q in r <==> Owns(g, v, q)
  {
    set q: nat | q < |g.mirrors| && Owns(g, v, q) :: q
  }

  function Sealing(g: Graph, v: nat, outs: seq<Out>, stop: bool): (r: set<nat>)
    requires WellWired(g) && IsNode(g, v) && |outs| == |g.outs[v]|
    ensures forall q: nat :: q in r <==> Owns(g, v, q) && (stop || outs[g.opos[q]].close)
  {
    set q: nat | q < |g.mirrors| && Owns(g, v, q) && (stop || outs[g.opos[q]].close) :: q
  }

  function CollectStep(g: Graph, s: State, t: nat, v: nat, i: nat, seen: bool): (r: State)
    requires WellWired(g) && Sized(g, s) && t < |s.threads| && IsNode(g, v)
    ensures OthersSame(s, r, t)
    ensures r == s.(threads := r.threads, edges := r.edges, consumed := r.consumed)
    ensures |r.edges| == |s.edges| && |r.consumed| == |s.consumed|
  {
    if i >= |g.ins[v]| then SetOuter(s, t, Compute(v, seen))
    else
      var e := InEdge(g, v, i);
      var m := s.edges[e];
      if m.queue == [] then SetOuter(s, t, Collect(v, i + 1, seen && IsDone(m)))
      else
        SetOuter(s.(edges := s.edges[e := HeadPopped(m)], consumed := s.consumed[e := s.consumed[e] + [m.queue[0]]]),
                 t, Collect(v, i + 1, false))
  }

  function ComputeStep(g: Graph, s: State, t: nat, v: nat, seen: bool, outs: seq<Out>, stop: bool): (r: State)
    requires WellWired(g) && Sized(g, s) && t < |s.threads| && IsNode(g, v) && |outs| == |g.outs[v]|
    ensures OthersSame(s, r, t)
    ensures r == s.(threads := r.threads, emitted := r.emitted, sealed := r.sealed, stopped := r.stopped)
    ensures |r.emitted| == |s.emitted|
  {
    SetOuter(s.(emitted := Emitted(g, s, v, outs), sealed := s.sealed + Sealing(g, v, outs, stop),
                stopped := if stop then s.stopped + {v} else s.stopped),
             t, Post(v, outs, stop, 0, seen))
  }

  function PostStep(g: Graph, s: State, t: nat, v: nat, outs: seq<Out>, stop: bool, k: nat, seen: bool): (r: State)
    requires WellWired(g) && Sized(g, s) && t < |s.threads| && IsNode(g, v) && |outs| == |g.outs[v]|
    ensures OthersSame(s, r, t)
    ensures r == s.(threads := r.threads, bound := r.bound)
    ensures |r.bound| == |s.bound|
  {
    if k >= |g.outs[v]| then SetOuter(s, t, if stop then CloseOut(v, 0, false) else Scan(v, 0, seen))
    else
      var q := OutStream(g, v, k);
      if s.closed[q] then SetOuter(s, t, Post(v, outs, stop, k + 1, seen))
      else StartPropagate(g, s, t, q, outs[k].pkts, OutputBound(s.bound[q], outs[k].pkts, outs[k].updated),
                          PostShut(v, outs, stop, k, seen))
  }

  function PostShutStep(g: Graph, s: State, t: nat, v: nat, outs: seq<Out>, stop: bool, k: nat, seen: bool): (r: State)
    requires WellWired(g) && Sized(g, s) && t < |s.threads| && IsNode(g, v) && |outs| == |g.outs[v]|
    requires k < |outs|
    ensures OthersSame(s, r, t)
    ensures r == s.(threads := r.threads, closed := r.closed, bound := r.bound)
    ensures |r.closed| == |s.closed| && |r.bound| == |s.bound|
  {
    if outs[k].close then CloseStream(g, s, t, OutStream(g, v, k), Post(v, outs, stop, k + 1, seen))
    else SetOuter(s, t, Post(v, outs, stop, k + 1, seen))
  }

  function ScanStep(g: Graph, s: State, t: nat, v: nat, i: nat, seen: bool): (r: State)
    requires WellWired(g) && Sized(g, s) && t < |s.threads| && IsNode(g, v)
    ensures OthersSame(s, r, t)
    ensures r == s.(threads := r.threads)
  {
    if i >= |g.ins[v]| then SetOuter(s, t, Decide(v, !IsSource(g, v), seen))
    else if IsDone(s.edges[InEdge(g, v, i)]) then SetOuter(s, t, Scan(v, i + 1, seen))
    else SetOuter(s, t, Decide(v, false, seen))
  }

  function DecideStep(g: Graph, s: State, t: nat, v: nat, done: bool): (r: State)
    requires WellWired(g) && Sized(g, s) && t < |s.threads| && IsNode(g, v)
    ensures OthersSame(s, r, t)
    ensures r == s.(threads := r.threads, queue := r.queue, sealed := r.sealed)
  {
    var a := FinalizeChoice(s.queue, v, !IsSource(g, v), done);
    SetOuter(s.(queue := Decided(s.queue, v, !IsSource(g, v), done),
                sealed := if a == CloseNow then s.sealed + OutputsOf(g, v) else s.sealed),
             t, Drop(v, a))
  }

  // DecrementPending, then the stored finalize action.
  function DropStep(g: Graph, s: State, t: nat, v: nat, a: FinalizeAction): (r: State)
    requires WellWired(g) && Sized(g, s) && t < |s.threads| && IsNode(g, v)
    ensures OthersSame(s, r, t)
    ensures r == s.(threads := r.threads, pending := r.pending)
    ensures |r.pending| == |s.pending|
  {
    Call(s.(pending := s.pending[v := Less(s.pending[v])]), t,
         if a == CloseNow then CloseOut(v, 0, true) else Buffered(v, 0, a == Reschedule),
         NoMid, if a == Reschedule then AddNode(v) else NoLeaf)
  }

  function CloseOutStep(g: Graph, s: State, t: nat, v: nat, k: nat, fin: bool): (r: State)
    requires WellWired(g) && Sized(g, s) && t < |s.threads| && IsNode(g, v)
    ensures OthersSame(s, r, t)
    ensures r == s.(threads := r.threads, bound := r.bound)
    ensures |r.bound| == |s.bound|
  {
    if k >= |g.outs[v]| then SetOuter(s, t, if fin then Buffered(v, 0, false) else StopDrop(v))
    else StartPropagate(g, s, t, OutStream(g, v, k), [], DONE, CloseMark(v, k, fin))
  }

  function BufferedStep(g: Graph, s: State, t: nat, v: nat, i: nat, sched: bool): (r: State)
    requires WellWired(g) && Sized(g, s) && t < |s.threads| && IsNode(g, v)
    ensures OthersSame(s, r, t)
    ensures r == s.(threads := r.threads)
  {
    if i >= |g.ins[v]| then SetOuter(s, t, Again(v, sched))
    else if s.edges[InEdge(g, v, i)].queue != [] then Call(s, t, Again(v, sched), NoMid, AddNode(v))
    else SetOuter(s, t, Buffered(v, i + 1, sched))
  }

  function AgainStep(g: Graph, s: State, t: nat, v: nat, sched: bool): (r: State)
    requires WellWired(g) && Sized(g, s) && t < |s.threads| && IsNode(g, v)
    ensures OthersSame(s, r, t)
    ensures r == s.(threads := r.threads)
  {
    if IsSource(g, v) then Call(s, t, Finish, NoMid, AddNode(v))
    else if sched || v in s.queue.finalized then SetOuter(s, t, Finish)
    else SetOuter(s, t, Recheck(v, 0))
  }

  function RecheckStep(g: Graph, s: State, t: nat, v: nat, i: nat): (r: State)
    requires WellWired(g) && Sized(g, s) && t < |s.threads| && IsNode(g, v)
    ensures OthersSame(s, r, t)
    ensures r == s.(threads := r.threads)
  {
    if i >= |g.ins[v]| then Call(s, t, Finish, NoMid, AddNode(v))
    else if IsDone(s.edges[InEdge(g, v, i)]) then SetOuter(s, t, Recheck(v, i + 1))
    else SetOuter(s, t, Finish)
  }

  function FinishStep(s: State, t: nat): (r: State)
    requires t < |s.threads|
    ensures OthersSame(s, r, t)
    ensures r == s.(threads := r.threads, queue := r.queue)
  {
    Call(s.(queue := TaskDone(s.queue)), t, Resting, Idle(Enter), if WantsWorker(s.queue) then Submit else NoLeaf)
  }

  function OuterStep(g: Graph, s: State, t: nat, c: Choice): (r: State)
    requires WellWired(g) && Sized(g, s) && t < |s.threads| && OuterOk(g, s.threads[t].outer)
    requires OuterEnabled(g, s, s.threads[t].outer, c)
  {
    match s.threads[t].outer
    case Resting => SetOuter(s.(tasks := s.tasks - 1), t, Fetch)
    case Fetch =>
      if s.queue.items == multiset{} then SetOuter(s, t, Missed)
      else SetOuter(s.(queue := Taken(s.queue, c.n)), t, Collect(c.n, 0, true))
    case Missed => Call(s.(queue := TaskDone(s.queue)), t, Resting, Idle(Enter), NoLeaf)
    case Collect(v, i, seen) => CollectStep(g, s, t, v, i, seen)
    case Compute(v, seen) => ComputeStep(g, s, t, v, seen, c.outs, c.stop)
    case Post(v, outs, stop, k, seen) => PostStep(g, s, t, v, outs, stop, k, seen)
    case PostShut(v, outs, stop, k, seen) => PostShutStep(g, s, t, v, outs, stop, k, seen)
    case Scan(v, i, seen) => ScanStep(g, s, t, v, i, seen)
    case Decide(v, done, _) => DecideStep(g, s, t, v, done)
    case Drop(v, a) => DropStep(g, s, t, v, a)
    case CloseOut(v, k, fin) => CloseOutStep(g, s, t, v, k, fin)
    case CloseMark(v, k, fin) => CloseStream(g, s, t, OutStream(g, v, k), CloseOut(v, k + 1, fin))
    case StopDrop(v) => SetOuter(s.(pending := s.pending[v := Less(s.pending[v])]), t, StopErase(v))
    case StopErase(v) => Call(s.(active := s.active - {v}), t, Finish, Idle(Enter), NoLeaf)
    case Buffered(v, i, sched) => BufferedStep(g, s, t, v, i, sched)
    case Again(v, sched) => AgainStep(g, s, t, v, sched)
    case Recheck(v, i) => RecheckStep(g, s, t, v, i)
    case Finish => FinishStep(s, t)
    case AppReady => AppCall(g, s, t, c)
    case AppNotify(_) => Call(s, t, AppReady, Idle(Enter), NoLeaf)
    case AppCount(q) => Call(s.(counted := s.counted + {q}), t, AppReady, Idle(Enter), NoLeaf)
    case AppPause1 => SetOuter(s.(mode := Paused), t, AppPause2)
    case AppPause2 => SetOuter(s.(queue := s.queue.(running := false)), t, AppReady)
    case AppResume1 =>
      var queue := s.queue.(running := true);
      Call(s.(queue := queue), t, AppResume2, NoMid, if WantsWorker(queue) then Submit else NoLeaf)
    case AppResume2 => Call(s, t, AppReady, Idle(Enter), if WantsWorker(s.queue) then Submit else NoLeaf)
  }

  // The application calls of GraphRuntime, on the one thread the thread model allows.
  function AppCall(g: Graph, s: State, t: nat, c: Choice): (r: State)
    requires WellWired(g) && Sized(g, s) && t < |s.threads| && AppEnabled(g, s, c)
    ensures OthersSame(s, r, t)
    ensures r == s.(threads := r.threads, emitted := r.emitted, sealed := r.sealed, closed := r.closed, bound := r.bound, mode := r.mode)
    ensures |r.emitted| == |s.emitted| && |r.closed| == |s.closed| && |r.bound| == |s.bound|
  {
    match c
    case Inject(q, pkts, updated) =>
      StartPropagate(g, s.(emitted := s.emitted[q := s.emitted[q] + pkts]), t, q, pkts,
                     OutputBound(s.bound[q], pkts, updated), AppNotify(q))
    case CloseInput(q) => CloseStream(g, s.(sealed := s.sealed + {q}), t, q, AppCount(q))
    case Pause => SetOuter(s, t, AppPause1)
    case Resume => SetOuter(s.(mode := Running), t, AppResume1)
    case _ => s
  }

  // ------------------------------------------------------------------ enabledness

  ghost predicate OuterOk(g: Graph, o: Outer)
    requires WellWired(g)
  {
    match o
    case Collect(v, i, _) => IsNode(g, v) && i <= |g.ins[v]|
    case Compute(v, _) => IsNode(g, v)
    case Post(v, outs, _, k, _) => IsNode(g, v) && |outs| == |g.outs[v]| && k <= |outs|
    case PostShut(v, outs, _, k, _) => IsNode(g, v) && |outs| == |g.outs[v]| && k < |outs|
    case Scan(v, i, _) => IsNode(g, v) && i <= |g.ins[v]|
    case Decide(v, _, _) => IsNode(g, v)
    case Drop(v, _) => IsNode(g, v)
    case CloseOut(v, k, _) => IsNode(g, v) && k <= |g.outs[v]|
    case CloseMark(v, k, _) => IsNode(g, v) && k < |g.outs[v]|
    case StopDrop(v) => IsNode(g, v)
    case StopErase(v) => IsNode(g, v)
    case Buffered(v, i, _) => IsNode(g, v) && i <= |g.ins[v]|
    case Again(v, _) => IsNode(g, v)
    case Recheck(v, i) => IsNode(g, v) && i <= |g.ins[v]|
    case AppNotify(q) => IsStream(g, q)
    case AppCount(q) => IsStream(g, q)
    case _ => true
  }

  // A closed manager hands Process a closed shard, which accepts nothing; only sources stop;
  // a node announces Done only by closing the shard.
  ghost predicate OutcomeOk(g: Graph, s: State, v: nat, outs: seq<Out>, stop: bool)
    requires WellWired(g) && Sized(g, s) && IsNode(g, v)
  {
    && |outs| == |g.outs[v]|
    && (stop ==> IsSource(g, v))
    && (forall k :: 0 <= k < |outs| ==>
          && (s.closed[OutStream(g, v, k)] ==> outs[k] == QUIET)
          && (outs[k].updated == DONE ==> outs[k].close))
  }

  ghost predicate AppEnabled(g: Graph, s: State, c: Choice)
    requires WellWired(g) && Sized(g, s)
  {
    match c
    case Inject(q, pkts, updated) =>
      && IsStream(g, q) && g.owner[q].None? && !s.closed[q]
      && |pkts| <= 1 && updated != DONE && (pkts != [] ==> updated == NextAllowed(LastTs(pkts)))
    case CloseInput(q) => IsStream(g, q) && g.owner[q].None? && q !in s.counted
    case Pause => s.mode == Running
    case Resume => s.mode == Paused
    case _ => false
  }

  ghost predicate OuterEnabled(g: Graph, s: State, o: Outer, c: Choice)
    requires WellWired(g) && Sized(g, s) && OuterOk(g, o)
  {
    match o
    case Resting => s.tasks > 0 && c.Go?
    case Fetch => if s.queue.items == multiset{} then c.Go? else c.Pick? && c.n in s.queue.items
    case Compute(v, _) => c.Outcome? && OutcomeOk(g, s, v, c.outs, c.stop)
    case AppReady => AppEnabled(g, s, c)
    case _ => c.Go?
  }

  ghost predicate CallsOk(g: Graph, th: Thread)
    requires WellWired(g)
  {
    && OuterOk(g, th.outer)
    && (th.mid.Propagate? ==> IsStream(g, th.mid.q))
    && (th.mid.Shut? ==> IsStream(g, th.mid.q))
    && (th.leaf.AddNode? ==> IsNode(g, th.leaf.n))
  }

  ghost predicate Enabled(g: Graph, s: State, t: nat, c: Choice)
    requires WellWired(g)
  {
    && Sized(g, s) && t < |s.threads|
    && var th := s.threads[t];
       && CallsOk(g, th)
       && (if th.leaf != NoLeaf then c.Go?
           else if th.mid.Idle? && th.mid.stage.Kick? && th.mid.stage.todo != {} then c.Pick? && c.n in th.mid.stage.todo
           else if th.mid != NoMid then c.Go?
           else OuterEnabled(g, s, th.outer, c))
  }

  /** One step of thread `t`: finish the innermost call first. */
  function Step(g: Graph, s: State, t: nat, c: Choice): (r: State)
    requires WellWired(g) && Enabled(g, s, t, c)
  {
    if s.threads[t].leaf != NoLeaf then LeafStep(g, s, t)
    else match s.threads[t].mid
      case Propagate(_, _, _, _, _) => PropagateStep(g, s, t)
      case Shut(_, _) => ShutStep(g, s, t)
      case Idle(_) => IdleStep(g, s, t, c)
      case NoMid => OuterStep(g, s, t, c)
  }

  // ------------------------------------------------------------------ runs

  function SourceSet(g: Graph): (r: set<nat>)
    ensures forall v: nat :: v in r <==> IsNode(g, v) && IsSource(g, v)
  {
    set v: nat | v < |g.ins| && g.ins[v] == [] :: v
  }

  // The state Scheduler::Start leaves once the queue runs: every source queued, one task to submit.
  function Init(g: Graph, workers: nat): (s: State)
    requires WellWired(g)
  {
    var sources := SourceSet(g);
    State(
      seq(|g.dst|, _ => NEW_INBOX), seq(|g.dst|, _ => []),
      seq(|g.mirrors|, _ => UNSET), seq(|g.mirrors|, _ => false), seq(|g.mirrors|, _ => []), {},
      RunQueue(multiset(sources), 0, true, {}, {}),
      seq(|g.ins|, v requires 0 <= v < |g.ins| => if g.ins[v] == [] then 1 else 0), 0,
      [Thread(AppReady, Idle(Enter), if sources == {} then NoLeaf else Submit)]
        + seq(workers, _ => Thread(Resting, NoMid, NoLeaf)),
      sources, {}, {}, 0, Running, 0)
  }

  // A Process call made after the node was finalized still adds a packet to an open shard.
  ghost predicate LateEmission(g: Graph, s: State, t: nat, c: Choice)
    requires WellWired(g) && Enabled(g, s, t, c)
  {
    var th := s.threads[t];
    && th.leaf == NoLeaf && th.mid == NoMid && th.outer.Compute? && th.outer.v in s.queue.finalized
    && exists k :: 0 <= k < |c.outs| && c.outs[k].pkts != []
  }

  datatype Move = Move(thread: nat, choice: Choice)

  // `path` is the sequence of states that `moves` produces, starting in `path[0]`.
  ghost predicate IsRun(g: Graph, path: seq<State>, moves: seq<Move>)
    requires WellWired(g)
  {
    && |path| == |moves| + 1
    && forall i :: 0 <= i < |moves| ==>
         && Enabled(g, path[i], moves[i].thread, moves[i].choice)
         && path[i + 1] == Step(g, path[i], moves[i].thread, moves[i].choice)
  }

  ghost predicate NoLateEmission(g: Graph, path: seq<State>, moves: seq<Move>)
    requires WellWired(g) && IsRun(g, path, moves)
  {
    forall i :: 0 <= i < |moves| ==> !LateEmission(g, path[i], moves[i].thread, moves[i].choice)
  }
}
