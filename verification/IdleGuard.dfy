/** Scheduler::HandleIdle against Pause, Resume, Cancel and Shutdown, from any number of threads. Each step
    is one read or write of the scheduler's atomics. */
module IdleGuard {

  datatype Mode = Running | Paused | Cancelling | Terminated

  /** Where a thread is, inside HandleIdle or one of the control calls. */
  datatype Point =
    | Free
    | Arrive        // about to increment handling_idle_
    | Bounced       // somebody else is inside: about to decrement and return
    | Gate          // inside the body, before the cancelled check
    | Force         // cancelled: queues cleaned up, about to set kTerminated
    | Loop          // about to test the loop condition
    | Decide        // about to compute should_quit
    | Closing       // about to call CloseAllNodes
    | Mark          // nodes closed, about to set kTerminated
    | Leave         // about to decrement and return
    | PauseWrite    // saw kRunning, about to write kPaused
    | ResumeWrite   // saw kPaused, about to write kRunning
    | CancelMark    // saw no error, about to set has_error_
    | CancelWrite   // about to write kCancelling

  datatype State = State(mode: Mode, hasError: bool, handling: nat, threads: seq<Point>,
                         closes: nat,  // history: CloseAllNodes calls
                         late: nat)    // history: writes of a control call over kTerminated

  /** What a free thread calls, and what the queues and sources look like to HandleIdle. */
  datatype Choice = CallIdle | CallPause | CallResume | CallCancel | CallShutdown | Look(idle: bool, exhausted: bool)

  predicate IsInside(p: Point) {
    p == Bounced || IsBody(p)
  }

  predicate IsBody(p: Point) {
    p == Gate || p == Force || p == Loop || p == Decide || p == Closing || p == Mark || p == Leave
  }

  function At(s: State, t: nat, p: Point): (r: State)
    requires t < |s.threads|
  {
    s.(threads := s.threads[t := p])
  }

  // A control call writes the mode without looking at it again.
  function Write(s: State, m: Mode): (r: State) {
    s.(mode := m, late := if s.mode == Terminated then s.late + 1 else s.late)
  }

  function Step(s: State, t: nat, c: Choice): (r: State)
    requires t < |s.threads|
  {
    match s.threads[t]
    case Free => (
      match c
      case CallIdle => At(s, t, Arrive)
      case CallPause => if s.mode == Running then At(s, t, PauseWrite) else s
      case CallResume => if s.mode == Paused then At(s, t, ResumeWrite) else s
      case CallCancel => if s.hasError then s else At(s, t, CancelMark)
      case CallShutdown => s.(mode := Terminated)
      case Look(_, _) => s)
    case Arrive => At(s.(handling := s.handling + 1), t, if s.handling + 1 > 1 then Bounced else Gate)
    case Bounced => At(s.(handling := if s.handling > 0 then s.handling - 1 else 0), t, Free)
    case Gate => At(s, t, if s.mode == Cancelling && s.hasError then Force else Loop)
    case Force => At(s.(mode := Terminated), t, Leave)
    case Loop => At(s, t, if c.Look? && c.idle && (s.mode == Running || s.mode == Cancelling) then Decide else Leave)
    case Decide => At(s, t, if s.hasError || (c.Look? && c.exhausted) then Closing else Leave)
    case Closing => At(s.(closes := s.closes + 1), t, Mark)
    case Mark => At(s.(mode := Terminated), t, Leave)
    case Leave => At(s.(handling := if s.handling > 0 then s.handling - 1 else 0), t, Free)
    case PauseWrite => At(Write(s, Paused), t, Free)
    case ResumeWrite => At(Write(s, Running), t, Arrive)
    case CancelMark => At(s.(hasError := true), t, CancelWrite)
    case CancelWrite => At(Write(s, Cancelling), t, Arrive)
  }

  // ------------------------------------------------------------------ counting threads

  function Inside(ps: seq<Point>): (n: nat) {
    if ps == [] then 0 else (if IsInside(ps[0]) then 1 else 0) + Inside(ps[1..])
  }

  function Bodies(ps: seq<Point>): (n: nat) {
    if ps == [] then 0 else (if IsBody(ps[0]) then 1 else 0) + Bodies(ps[1..])
  }

  lemma {:induction false} CountUpdate(ps: seq<Point>, t: nat, p: Point)
    requires t < |ps|
    ensures Inside(ps[t := p]) + (if IsInside(ps[t]) then 1 else 0) == Inside(ps) + (if IsInside(p) then 1 else 0)
    ensures Bodies(ps[t := p]) + (if IsBody(ps[t]) then 1 else 0) == Bodies(ps) + (if IsBody(p) then 1 else 0)
  {
    if t == 0 {
      assert ps[0 := p][1..] == ps[1..];
    } else {
      assert ps[t := p][1..] == ps[1..][t - 1 := p];
      CountUpdate(ps[1..], t - 1, p);
    }
  }

  lemma {:induction false} BodiesAreInside(ps: seq<Point>)
    ensures Bodies(ps) <= Inside(ps)
  {
    if ps != [] { BodiesAreInside(ps[1..]); }
  }

  lemma {:induction false} CountedBodies(ps: seq<Point>, t: nat, u: nat)
    requires t < |ps| && u < |ps|
    ensures IsBody(ps[t]) ==> Bodies(ps) >= 1
    ensures IsInside(ps[t]) ==> Inside(ps) >= 1
    ensures t != u && IsBody(ps[t]) && IsBody(ps[u]) ==> Bodies(ps) >= 2
  {
    if t > 0 && u > 0 {
      CountedBodies(ps[1..], t - 1, u - 1);
    } else if t > 0 {
      CountedBodies(ps[1..], t - 1, t - 1);
    } else if u > 0 {
      CountedBodies(ps[1..], u - 1, u - 1);
    }
  }

  // ------------------------------------------------------------------ the invariant

  // Some thread has closed the nodes and not set kTerminated yet.
  ghost predicate Marking(ps: seq<Point>) {
    exists u: nat :: u < |ps| && ps[u] == Mark
  }

  // Some thread has passed the loop condition and not closed the nodes yet.
  ghost predicate Deciding(ps: seq<Point>) {
    exists u: nat :: u < |ps| && (ps[u] == Decide || ps[u] == Closing)
  }

  ghost predicate Inv(s: State) {
    && s.handling == Inside(s.threads) && Bodies(s.threads) <= 1
    && s.closes <= s.late + 1
    && (s.mode != Terminated && !Marking(s.threads) ==> s.closes <= s.late)
    && (Deciding(s.threads) ==> s.closes <= s.late)
  }

  // The thread in the body is alone there, so its next point decides both.
  lemma BodyMoves(ps: seq<Point>, t: nat, p': Point)
    requires t < |ps| && IsBody(ps[t]) && Bodies(ps) <= 1
    ensures Marking(ps) <==> ps[t] == Mark
    ensures Deciding(ps) <==> ps[t] == Decide || ps[t] == Closing
    ensures Marking(ps[t := p']) <==> p' == Mark
    ensures Deciding(ps[t := p']) <==> p' == Decide || p' == Closing
  {
    forall u: nat | u < |ps| && u != t ensures !IsBody(ps[u]) {
      CountedBodies(ps, t, u);
    }
    assert ps[t := p'][t] == p';
  }

  // A step outside the body moves neither.
  lemma OtherMoves(ps: seq<Point>, t: nat, p': Point)
    requires t < |ps| && !IsBody(ps[t]) && p' != Mark && p' != Decide && p' != Closing
    ensures Marking(ps[t := p']) <==> Marking(ps)
    ensures Deciding(ps[t := p']) <==> Deciding(ps)
  {
    assert forall u: nat :: u < |ps| && u != t ==> ps[t := p'][u] == ps[u];
  }

  lemma InvBody(s: State, t: nat, c: Choice)
    requires Inv(s) && t < |s.threads| && IsBody(s.threads[t])
    ensures Inv(Step(s, t, c))
  {
    var p' := Step(s, t, c).threads[t];
    assert Step(s, t, c).threads == s.threads[t := p'];
    CountUpdate(s.threads, t, p');
    BodiesAreInside(s.threads);
    CountedBodies(s.threads, t, t);
    BodyMoves(s.threads, t, p');
    hide Marking, Deciding, Inside, Bodies;
  }

  lemma InvControl(s: State, t: nat, c: Choice)
    requires Inv(s) && t < |s.threads| && !IsInside(s.threads[t]) && s.threads[t] != Arrive
    ensures Inv(Step(s, t, c))
  {
    var s' := Step(s, t, c);
    var p' := s'.threads[t];
    assert s'.threads == s.threads[t := p'] && !IsInside(p');
    CountUpdate(s.threads, t, p');
    OtherMoves(s.threads, t, p');
    assert s'.handling == s.handling && s'.closes == s.closes;
    hide Marking, Deciding, Inside, Bodies;
  }

  lemma InvDoor(s: State, t: nat, c: Choice)
    requires Inv(s) && t < |s.threads| && (s.threads[t] == Arrive || s.threads[t] == Bounced)
    ensures Inv(Step(s, t, c))
  {
    var p' := Step(s, t, c).threads[t];
    CountUpdate(s.threads, t, p');
    BodiesAreInside(s.threads);
    CountedBodies(s.threads, t, t);
    OtherMoves(s.threads, t, p');
    hide Marking, Deciding, Inside, Bodies;
  }

  lemma InvStep(s: State, t: nat, c: Choice)
    requires Inv(s) && t < |s.threads|
    ensures Inv(Step(s, t, c))
  {
    hide Inv, Step;
    if IsBody(s.threads[t]) {
      InvBody(s, t, c);
    } else if s.threads[t] == Arrive || s.threads[t] == Bounced {
      InvDoor(s, t, c);
    } else {
      InvControl(s, t, c);
    }
  }

  datatype Move = Move(thread: nat, choice: Choice)

  function Run(s: State, moves: seq<Move>): (r: State)
    decreases |moves|
  {
    if moves == [] then s
    else Run(if moves[0].thread < |s.threads| then Step(s, moves[0].thread, moves[0].choice) else s, moves[1..])
  }

  // The state one Start leaves, with `n` threads around.
  function Started(n: nat): (s: State) {
    State(Running, false, 0, seq(n, _ => Free), 0, 0)
  }

  lemma {:induction false} NobodyInside(n: nat)
    ensures Inside(seq(n, _ => Free)) == 0 && Bodies(seq(n, _ => Free)) == 0
  {
    if n > 0 {
      assert seq(n, _ => Free)[1..] == seq(n - 1, _ => Free);
      NobodyInside(n - 1);
    }
  }

  lemma {:induction false} InvAlways(s: State, moves: seq<Move>)
    requires Inv(s)
    ensures Inv(Run(s, moves))
    decreases |moves|
  {
    if moves != [] {
      var s' := if moves[0].thread < |s.threads| then Step(s, moves[0].thread, moves[0].choice) else s;
      if moves[0].thread < |s.threads| {
        InvStep(s, moves[0].thread, moves[0].choice);
      }
      InvAlways(s', moves[1..]);
    }
  }

  /** HandleIdle exclusion, in every run from Start with any number of threads: handling_idle_ is the number
      of threads in the body plus those bouncing out, at most one thread is in the body, and CloseAllNodes
      runs at most once more than control calls have overwritten kTerminated; so at most once if none has. */
  lemma IdleExclusion(n: nat, moves: seq<Move>)
    ensures var s := Run(Started(n), moves);
      && s.handling == Inside(s.threads) && Bodies(s.threads) <= 1
      && s.closes <= s.late + 1
      && (s.late == 0 ==> s.closes <= 1)
  {
    NobodyInside(n);
    InvAlways(Started(n), moves);
  }

  // A control call is between its check and its last write of the mode.
  ghost predicate InControl(ps: seq<Point>) {
    exists u: nat :: u < |ps| && (ps[u] == PauseWrite || ps[u] == ResumeWrite || ps[u] == CancelMark || ps[u] == CancelWrite)
  }

  function Next(s: State, m: Move): (r: State) {
    if m.thread < |s.threads| then Step(s, m.thread, m.choice) else s
  }

  /** No control call is under way when the graph terminates, and none is made to Cancel afterwards. */
  ghost predicate Undisturbed(s: State, moves: seq<Move>)
    decreases |moves|
  {
    moves == [] ||
    (var s' := Next(s, moves[0]);
     && (s'.mode == Terminated && s.mode != Terminated ==> !InControl(s'.threads))
     && (s.mode == Terminated && moves[0].thread < |s.threads| && s.threads[moves[0].thread] == Free ==> moves[0].choice != CallCancel)
     && Undisturbed(s', moves[1..]))
  }

  lemma QuietTerminated(s: State, m: Move)
    requires s.mode == Terminated && !InControl(s.threads)
    requires m.thread < |s.threads| && s.threads[m.thread] == Free ==> m.choice != CallCancel
    ensures var s' := Next(s, m); s'.mode == Terminated && !InControl(s'.threads) && s'.late == s.late
  {
    if m.thread < |s.threads| {
      var s' := Next(s, m);
      forall u: nat | u < |s'.threads|
        ensures s'.threads[u] != PauseWrite && s'.threads[u] != ResumeWrite && s'.threads[u] != CancelMark && s'.threads[u] != CancelWrite
      {
        assert u != m.thread ==> s'.threads[u] == s.threads[u];
      }
    }
  }

  lemma {:induction false} NothingLate(s: State, moves: seq<Move>)
    requires Undisturbed(s, moves) && (s.mode == Terminated ==> !InControl(s.threads))
    ensures Run(s, moves).late == s.late
    decreases |moves|
  {
    if moves != [] {
      if s.mode == Terminated {
        QuietTerminated(s, moves[0]);
      }
      assert Run(s, moves) == Run(Next(s, moves[0]), moves[1..]);
      NothingLate(Next(s, moves[0]), moves[1..]);
    }
  }

  /** CloseAllNodes runs at most once, for a condition the callers control: no Pause, Resume or Cancel is
      between its check and its write when the graph terminates, and Cancel is not called after that. */
  lemma ClosesAtMostOnce(n: nat, moves: seq<Move>)
    requires Undisturbed(Started(n), moves)
    ensures Run(Started(n), moves).closes <= 1
  {
    IdleExclusion(n, moves);
    NothingLate(Started(n), moves);
  }

  // ------------------------------------------------------------------ what a pass does

  // The pass has found nothing against terminating so far.
  predicate OnWay(p: Point) {
    p == Gate || p == Force || p == Loop || p == Decide || p == Closing || p == Mark
  }

  /** What the thread reads speaks for terminating: the loop finds the queues idle in a mode that allows it, and
      the verdict finds an error, or sources and inputs exhausted. */
  predicate Speaks(s: State, m: Move) {
    m.thread < |s.threads| ==>
      match s.threads[m.thread]
      case Loop => m.choice.Look? && m.choice.idle && (s.mode == Running || s.mode == Cancelling)
      case Decide => s.hasError || (m.choice.Look? && m.choice.exhausted)
      case _ => true
  }

  predicate AllSpeak(s: State, moves: seq<Move>, t: nat)
    decreases |moves|
  {
    moves == [] || ((moves[0].thread == t ==> Speaks(s, moves[0])) && AllSpeak(Next(s, moves[0]), moves[1..], t))
  }

  // Some later state is terminated.
  predicate Ends(s: State, moves: seq<Move>)
    decreases |moves|
  {
    moves != [] && (Next(s, moves[0]).mode == Terminated || Ends(Next(s, moves[0]), moves[1..]))
  }

  lemma WayStep(s: State, m: Move, t: nat)
    requires t < |s.threads| && OnWay(s.threads[t]) && (m.thread == t ==> Speaks(s, m))
    ensures var s' := Next(s, m);
      && |s'.threads| == |s.threads|
      && (OnWay(s'.threads[t]) || s'.mode == Terminated)
      && s.closes <= s'.closes
      && (s.threads[t] == Loop || s.threads[t] == Decide || s.threads[t] == Closing ==>
            s'.threads[t] == Loop || s'.threads[t] == Decide || s'.threads[t] == Closing || s'.closes > s.closes)
  {
  }

  lemma {:induction false} ClosesGrow(s: State, moves: seq<Move>)
    ensures s.closes <= Run(s, moves).closes && |Run(s, moves).threads| == |s.threads|
    decreases |moves|
  {
    if moves != [] {
      assert Run(s, moves) == Run(Next(s, moves[0]), moves[1..]);
      ClosesGrow(Next(s, moves[0]), moves[1..]);
    }
  }

  /** A pass of HandleIdle leaves only with the graph terminated, when what it reads speaks for it: forced after
      a cancel, or with the nodes closed. From any state, against any other threads. */
  lemma {:induction false} PassEnds(s: State, moves: seq<Move>, t: nat)
    requires t < |s.threads| && OnWay(s.threads[t]) && AllSpeak(s, moves, t)
    ensures |Run(s, moves).threads| == |s.threads|
    ensures OnWay(Run(s, moves).threads[t]) || Ends(s, moves)
    ensures s.threads[t] == Loop || s.threads[t] == Decide || s.threads[t] == Closing ==>
      var p := Run(s, moves).threads[t]; p == Loop || p == Decide || p == Closing || Run(s, moves).closes > s.closes
    decreases |moves|
  {
    ClosesGrow(s, moves);
    if moves != [] {
      var s' := Next(s, moves[0]);
      assert Run(s, moves) == Run(s', moves[1..]);
      WayStep(s, moves[0], t);
      ClosesGrow(s', moves[1..]);
      hide Next, Speaks;
      if OnWay(s'.threads[t]) {
        PassEnds(s', moves[1..], t);
      }
    }
  }

  /** In particular a pass that starts under a cancel, with the error set, forces the end. */
  lemma CancelForces(s: State, m: Move)
    requires m.thread < |s.threads| && s.threads[m.thread] == Gate && s.mode == Cancelling && s.hasError
    ensures Next(s, m).threads[m.thread] == Force
    ensures forall c: Choice :: Next(Next(s, m), Move(m.thread, c)).mode == Terminated
  {
  }

  // `n` moves of one thread in a row.
  function Alone(t: nat, c: Choice, n: nat): (r: seq<Move>) {
    if n == 0 then [] else [Move(t, c)] + Alone(t, c, n - 1)
  }

  lemma AloneSteps(s: State, t: nat, c: Choice, n: nat)
    requires n > 0
    ensures Run(s, Alone(t, c, n)) == Run(Next(s, Move(t, c)), Alone(t, c, n - 1))
  {
    assert Alone(t, c, n)[1..] == Alone(t, c, n - 1);
  }

  lemma CancelWrites(s: State, t: nat)
    requires t < |s.threads| && s.threads[t] == Free && !s.hasError
    ensures var m := Move(t, CallCancel);
      var r := Next(Next(Next(s, m), m), m);
      r == s.(mode := Cancelling, hasError := true, late := r.late, threads := s.threads[t := Arrive])
  {
    assert s.threads[t := CancelMark][t := CancelWrite][t := Arrive] == s.threads[t := Arrive];
  }

  lemma ForcedPass(s: State, t: nat)
    requires t < |s.threads| && s.threads[t] == Arrive && s.mode == Cancelling && s.hasError && s.handling == 0
    ensures var m := Move(t, CallCancel);
      Next(Next(Next(Next(s, m), m), m), m) == s.(mode := Terminated, threads := s.threads[t := Free])
  {
    assert s.threads[t := Gate][t := Force][t := Leave][t := Free] == s.threads[t := Free];
  }

  /** A call of Cancel by itself, with nobody inside HandleIdle: the graph is terminated and marked as failed, its
      nodes are not closed, and a further Cancel changes nothing. */
  lemma CancelAlone(s: State, t: nat)
    requires t < |s.threads| && s.threads[t] == Free && !s.hasError && s.handling == 0
    ensures var r := Run(s, Alone(t, CallCancel, 7));
      && r == s.(mode := Terminated, hasError := true, late := r.late)
      && Next(r, Move(t, CallCancel)) == r
  {
    var m := Move(t, CallCancel);
    var s1 := Next(s, m);
    var s2 := Next(s1, m);
    var s3 := Next(s2, m);
    var s4 := Next(s3, m);
    var s5 := Next(s4, m);
    var s6 := Next(s5, m);
    AloneSteps(s, t, CallCancel, 7);
    AloneSteps(s1, t, CallCancel, 6);
    AloneSteps(s2, t, CallCancel, 5);
    AloneSteps(s3, t, CallCancel, 4);
    AloneSteps(s4, t, CallCancel, 3);
    AloneSteps(s5, t, CallCancel, 2);
    AloneSteps(s6, t, CallCancel, 1);
    CancelWrites(s, t);
    ForcedPass(s3, t);
    assert s.threads[t := Arrive][t := Free] == s.threads;
    CancelledAlready(Next(s6, m), t);
    hide Next;
  }

  lemma CancelledAlready(s: State, t: nat)
    ensures t < |s.threads| && s.threads[t] == Free && s.hasError ==> Next(s, Move(t, CallCancel)) == s
  {
  }

  /** Pause takes a running graph to Paused and Resume takes it back, going on to HandleIdle; called in any other
      mode they change nothing. Shutdown terminates at once. */
  lemma PauseThenResume(s: State, t: nat)
    requires t < |s.threads| && s.threads[t] == Free
    ensures s.mode == Running ==> Run(s, Alone(t, CallPause, 2)) == s.(mode := Paused)
    ensures s.mode == Paused ==> Run(s, Alone(t, CallResume, 2)) == At(s.(mode := Running), t, Arrive)
    ensures s.mode != Running ==> Next(s, Move(t, CallPause)) == s
    ensures s.mode != Paused ==> Next(s, Move(t, CallResume)) == s
    ensures Next(s, Move(t, CallShutdown)) == s.(mode := Terminated)
  {
    AloneSteps(s, t, CallPause, 2);
    AloneSteps(Next(s, Move(t, CallPause)), t, CallPause, 1);
    AloneSteps(s, t, CallResume, 2);
    AloneSteps(Next(s, Move(t, CallResume)), t, CallResume, 1);
    assert s.threads[t := PauseWrite][t := Free] == s.threads;
    assert s.threads[t := ResumeWrite][t := Arrive] == s.threads[t := Arrive];
  }

  lemma {:induction false} RunSplit(s: State, a: seq<Move>, b: seq<Move>)
    ensures Run(s, a + b) == Run(Run(s, a), b)
    decreases |a|
  {
    if a == [] {
      assert a + b == b;
    } else {
      assert (a + b)[0] == a[0] && (a + b)[1..] == a[1..] + b;
      RunSplit(if a[0].thread < |s.threads| then Step(s, a[0].thread, a[0].choice) else s, a[1..], b);
    }
  }

  // A run through listed states.
  lemma {:induction false} Unroll(ms: seq<Move>, ss: seq<State>)
    requires |ss| == |ms| + 1
    requires forall i :: 0 <= i < |ms| ==> ms[i].thread < |ss[i].threads| && ss[i + 1] == Step(ss[i], ms[i].thread, ms[i].choice)
    ensures Run(ss[0], ms) == ss[|ms|]
    decreases |ms|
  {
    if ms != [] {
      assert ss[0 + 1] == Step(ss[0], ms[0].thread, ms[0].choice);
      forall i | 0 <= i < |ms| - 1
        ensures ms[1..][i].thread < |ss[1..][i].threads| && ss[1..][i + 1] == Step(ss[1..][i], ms[1..][i].thread, ms[1..][i].choice)
      {
        assert ss[(i + 1) + 1] == Step(ss[i + 1], ms[i + 1].thread, ms[i + 1].choice);
      }
      Unroll(ms[1..], ss[1..]);
    }
  }

  const LOOK := Look(true, true)

  // Thread 0 has seen kRunning in Pause; thread 1 goes through HandleIdle up to closing the nodes.
  lemma PauseMeetsIdle() returns (moves: seq<Move>)
    ensures Run(State(Running, false, 0, [Free, Free], 0, 0), moves) == State(Running, false, 1, [PauseWrite, Decide], 0, 0)
  {
    var s0 := State(Running, false, 0, [Free, Free], 0, 0);
    var s1 := s0.(threads := [PauseWrite, Free]);
    var s2 := s0.(threads := [PauseWrite, Arrive]);
    var s3 := s0.(handling := 1, threads := [PauseWrite, Gate]);
    var s4 := s0.(handling := 1, threads := [PauseWrite, Loop]);
    var s5 := s0.(handling := 1, threads := [PauseWrite, Decide]);
    moves := [Move(0, CallPause), Move(1, CallIdle), Move(1, LOOK), Move(1, LOOK), Move(1, LOOK)];
    Unroll(moves, [s0, s1, s2, s3, s4, s5]);
  }

  // Thread 1 terminates the graph, thread 0 writes kPaused over that.
  lemma PauseOverTerminated() returns (moves: seq<Move>)
    ensures Run(State(Running, false, 1, [PauseWrite, Decide], 0, 0), moves) == State(Paused, false, 0, [Free, Free], 1, 1)
  {
    var s0 := State(Running, false, 1, [PauseWrite, Decide], 0, 0);
    var s1 := s0.(threads := [PauseWrite, Closing]);
    var s2 := s0.(closes := 1, threads := [PauseWrite, Mark]);
    var s3 := s2.(mode := Terminated, threads := [PauseWrite, Leave]);
    var s4 := s3.(handling := 0, threads := [PauseWrite, Free]);
    var s5 := State(Paused, false, 0, [Free, Free], 1, 1);
    moves := [Move(1, LOOK), Move(1, LOOK), Move(1, LOOK), Move(1, LOOK), Move(0, LOOK)];
    Unroll(moves, [s0, s1, s2, s3, s4, s5]);
  }

  // Resume then finds kPaused, and HandleIdle closes the nodes again.
  lemma ResumeAndClose() returns (moves: seq<Move>)
    ensures var s := Run(State(Paused, false, 0, [Free, Free], 1, 1), moves); s.closes == 2 && s.late == 1
  {
    var s0 := State(Paused, false, 0, [Free, Free], 1, 1);
    var s1 := s0.(threads := [ResumeWrite, Free]);
    var s2 := s0.(mode := Running, threads := [Arrive, Free]);
    var s3 := s2.(handling := 1, threads := [Gate, Free]);
    var s4 := s3.(threads := [Loop, Free]);
    var s5 := s3.(threads := [Decide, Free]);
    var s6 := s3.(threads := [Closing, Free]);
    var s7 := s3.(closes := 2, threads := [Mark, Free]);
    moves := [Move(0, CallResume), Move(0, LOOK), Move(0, LOOK), Move(0, LOOK), Move(0, LOOK), Move(0, LOOK), Move(0, LOOK)];
    Unroll(moves, [s0, s1, s2, s3, s4, s5, s6, s7]);
  }

  /** The bound is sharp: Pause reads kRunning, the graph terminates, Pause writes kPaused over kTerminated,
      and after Resume the nodes are closed a second time. */
  lemma PauseClosesTwice() returns (moves: seq<Move>)
    ensures var s := Run(Started(2), moves); s.closes == 2 && s.late == 1
  {
    var first := PauseMeetsIdle();
    var second := PauseOverTerminated();
    var third := ResumeAndClose();
    moves := first + second + third;
    assert Started(2) == State(Running, false, 0, [Free, Free], 0, 0);
    RunSplit(Started(2), first, second);
    RunSplit(Started(2), first + second, third);
  }
}
