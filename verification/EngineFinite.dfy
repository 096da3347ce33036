/** Only finitely many runs: along the topological rank, a node is run finitely often once its producers
    are, because every run is paid for by changes of the node's inputs. */
module EngineFinite {
  import opened Timestamps
  import opened StreamState
  import opened RunQueueState
  import opened Graphs
  import opened Engine
  import opened EngineShape
  import opened EngineAccounting
  import opened EngineSources
  import opened EngineFlow
  import opened EngineFinal
  import opened EngineIdle
  import opened EngineRuns
  import opened EngineMeasure

  // ------------------------------------------------------------------ counting events

  /** How many of the first `k` numbers satisfy `p`. */
  function Count(p: nat -> bool, k: nat): nat {
    if k == 0 then 0 else Count(p, k - 1) + if p(k - 1) then 1 else 0
  }

  ghost predicate QuietFrom(p: nat -> bool, n: nat) {
    forall i: nat :: n <= i ==> !p(i)
  }

  lemma {:induction false} CountQuiet(p: nat -> bool, n: nat, k: nat)
    requires QuietFrom(p, n)
    ensures Count(p, k) <= n
  {
    if k > 0 {
      CountQuiet(p, n, k - 1);
      if k - 1 < n {
        CountAtMost(p, k);
      } else {
        assert !p(k - 1);
      }
    }
  }

  lemma {:induction false} CountAtMost(p: nat -> bool, k: nat)
    ensures Count(p, k) <= k
  {
    if k > 0 {
      CountAtMost(p, k - 1);
    }
  }

  lemma {:induction false} CountGrows(p: nat -> bool, i: nat, k: nat)
    requires i <= k
    ensures Count(p, i) <= Count(p, k)
    decreases k
  {
    if i < k {
      CountGrows(p, i, k - 1);
    }
  }

  // A bounded count means the events cease.
  lemma {:induction false} CountCeases(p: nat -> bool, bound: nat, from: nat) returns (n: nat)
    requires forall k: nat :: Count(p, k) <= bound
    ensures QuietFrom(p, n)
    decreases bound - Count(p, from)
  {
    if QuietFrom(p, from) {
      n := from;
    } else {
      var i: nat :| from <= i && p(i);
      CountGrows(p, from, i);
      assert Count(p, i + 1) == Count(p, i) + 1;
      assert Count(p, i + 1) <= bound;
      n := CountCeases(p, bound, i + 1);
    }
  }

  lemma NotAt(p: nat -> bool, n: nat, i: nat)
    requires QuietFrom(p, n) && n <= i
    ensures !p(i)
  {
  }

  lemma QuietLater(p: nat -> bool, n: nat, m: nat)
    requires QuietFrom(p, n) && n <= m
    ensures QuietFrom(p, m)
  {
  }

  // ------------------------------------------------------------------ runs without end

  ghost predicate GoodLink(g: Graph, path: nat -> State, moves: nat -> Move, i: nat)
    requires WellWired(g)
  {
    && Enabled(g, path(i), moves(i).thread, moves(i).choice)
    && path(i + 1) == Step(g, path(i), moves(i).thread, moves(i).choice)
    && !LateEmission(g, path(i), moves(i).thread, moves(i).choice)
  }

  /** The first `n` steps of `path` are a run from Start in the sense of `GoodRun`. */
  ghost predicate RunUpTo(g: Graph, rank: seq<nat>, workers: nat, path: nat -> State, moves: nat -> Move, n: nat) {
    && WellWired(g) && SingleFlight(g) && Ranks(g, rank) && path(0) == Init(g, workers)
    && forall i: nat {:trigger GoodLink(g, path, moves, i)} :: i < n ==> GoodLink(g, path, moves, i)
  }

  /** A run that never ends. */
  ghost predicate EndlessRun(g: Graph, rank: seq<nat>, workers: nat, path: nat -> State, moves: nat -> Move) {
    && WellWired(g) && SingleFlight(g) && Ranks(g, rank) && path(0) == Init(g, workers)
    && forall i: nat {:trigger GoodLink(g, path, moves, i)} :: GoodLink(g, path, moves, i)
  }

  ghost predicate Full(g: Graph, workers: nat, s: State)
    requires WellWired(g)
  {
    Inv(g, s) && RechecksOk(g, s) && |s.threads| == workers + 1
  }

  lemma FullInit(g: Graph, workers: nat)
    requires WellWired(g)
    ensures Full(g, workers, Init(g, workers))
  {
    hide Inv;
    InvInit(g, workers);
    var s := Init(g, workers);
    assert Sized(g, s);
    forall t: nat | t < |s.threads| ensures RecheckSeen(g, s, t) {
      assert t > 0 ==> s.threads[t] == Thread(Resting, NoMid, NoLeaf);
    }
  }

  lemma FullStep(g: Graph, rank: seq<nat>, workers: nat, s: State, t: nat, c: Choice)
    requires WellWired(g) && SingleFlight(g) && Ranks(g, rank) && Full(g, workers, s)
    requires Enabled(g, s, t, c) && !LateEmission(g, s, t, c)
    ensures OthersSame(s, Step(g, s, t, c), t)
    ensures Full(g, workers, Step(g, s, t, c))
  {
    InvStep(g, rank, s, t, c);
    StepOthers(g, s, t, c);
    hide Step, Enabled, WellWired, Shape, AllSized, AccOk, FlowsOk, FinalOk, RechecksOk, IdleOk;
    DoneIsStable(g, s, t, c);
    RechecksStep(g, s, t, c);
  }

  lemma LastLink(g: Graph, rank: seq<nat>, workers: nat, path: nat -> State, moves: nat -> Move, k: nat)
    requires RunUpTo(g, rank, workers, path, moves, k) && k > 0
    ensures WellWired(g) && SingleFlight(g) && Ranks(g, rank) && RunUpTo(g, rank, workers, path, moves, k - 1)
    ensures Enabled(g, path(k - 1), moves(k - 1).thread, moves(k - 1).choice)
    ensures path(k) == Step(g, path(k - 1), moves(k - 1).thread, moves(k - 1).choice)
    ensures !LateEmission(g, path(k - 1), moves(k - 1).thread, moves(k - 1).choice)
  {
    assert GoodLink(g, path, moves, k - 1);
    assert forall i: nat :: i < k - 1 ==> GoodLink(g, path, moves, i);
    hide GoodLink, WellWired, Enabled, Step, LateEmission, SingleFlight, Ranks;
  }

  lemma {:induction false} FullAlways(g: Graph, rank: seq<nat>, workers: nat, path: nat -> State, moves: nat -> Move, k: nat)
    requires RunUpTo(g, rank, workers, path, moves, k)
    ensures Full(g, workers, path(k))
  {
    if k == 0 {
      FullInit(g, workers);
    } else {
      LastLink(g, rank, workers, path, moves, k);
      hide *;
      FullAlways(g, rank, workers, path, moves, k - 1);
      FullStep(g, rank, workers, path(k - 1), moves(k - 1).thread, moves(k - 1).choice);
    }
  }

  // ------------------------------------------------------------------ runs are paid for by changes

  /** Step `i` is a Process call of node `v`. */
  function CallEvents(path: nat -> State, moves: nat -> Move, v: nat): nat -> bool {
    (i: nat) => IsCall(path(i), moves(i).thread, v)
  }

  /** Step `i` changes some inbox of node `v`. */
  function ChangeEvents(g: Graph, path: nat -> State, v: nat): nat -> bool {
    (i: nat) => InboxChanged(g, path(i), path(i + 1), v)
  }

  predicate InboxChanged(g: Graph, s: State, s': State, v: nat) {
    InboxesOf(g, s, v) != InboxesOf(g, s', v)
  }

  function InboxesOf(g: Graph, s: State, v: nat): seq<Inbox> {
    if v < |g.ins| then seq(|g.ins[v]|, i requires 0 <= i < |g.ins[v]| => if g.ins[v][i] < |s.edges| then s.edges[g.ins[v][i]] else NEW_INBOX)
    else []
  }

  lemma InboxesAreView(g: Graph, s: State, v: nat)
    requires WellWired(g) && Sized(g, s) && IsNode(g, v)
    ensures InboxesOf(g, s, v) == ViewOf(g, s, v).ports
  {
    forall i | 0 <= i < |g.ins[v]| ensures InboxesOf(g, s, v)[i] == ViewOf(g, s, v).ports[i] {
      assert IsInput(g, v, i) && InEdge(g, v, i) == g.ins[v][i];
    }
  }

  /** A node's Process calls are bounded by the changes of its inputs: 4 and, for each change, 3 per thread
      and 3 more. In every run, finite or not, at every moment. */
  lemma CallsArePaidFor(g: Graph, rank: seq<nat>, workers: nat, path: nat -> State, moves: nat -> Move, v: nat, k: nat)
    requires RunUpTo(g, rank, workers, path, moves, k) && IsNode(g, v) && !IsSource(g, v)
    ensures Count(CallEvents(path, moves, v), k) <= 4 + (3 * workers + 6) * Count(ChangeEvents(g, path, v), k)
  {
    AccountBalances(g, rank, workers, path, moves, v, k);
  }

  ghost predicate Balanced(g: Graph, workers: nat, path: nat -> State, moves: nat -> Move, v: nat, k: nat)
    requires WellWired(g) && IsNode(g, v)
  {
    && Sized(g, path(k))
    && Count(CallEvents(path, moves, v), k) + Potential(g, path(k), v)
         <= 4 + (3 * workers + 6) * Count(ChangeEvents(g, path, v), k)
  }

  lemma {:induction false} AccountBalances(g: Graph, rank: seq<nat>, workers: nat, path: nat -> State, moves: nat -> Move, v: nat, k: nat)
    requires RunUpTo(g, rank, workers, path, moves, k) && IsNode(g, v) && !IsSource(g, v)
    ensures Balanced(g, workers, path, moves, v, k)
  {
    if k == 0 {
      PotentialInit(g, workers, v);
    } else {
      LastLink(g, rank, workers, path, moves, k);
      hide *;
      AccountBalances(g, rank, workers, path, moves, v, k - 1);
      FullAlways(g, rank, workers, path, moves, k - 1);
      BalanceNext(g, rank, workers, path, moves, v, k);
    }
  }

  lemma BalanceNext(g: Graph, rank: seq<nat>, workers: nat, path: nat -> State, moves: nat -> Move, v: nat, k: nat)
    requires k > 0 && WellWired(g) && SingleFlight(g) && Ranks(g, rank) && Full(g, workers, path(k - 1))
    requires Enabled(g, path(k - 1), moves(k - 1).thread, moves(k - 1).choice)
    requires path(k) == Step(g, path(k - 1), moves(k - 1).thread, moves(k - 1).choice)
    requires !LateEmission(g, path(k - 1), moves(k - 1).thread, moves(k - 1).choice)
    requires IsNode(g, v) && !IsSource(g, v) && Balanced(g, workers, path, moves, v, k - 1)
    ensures Balanced(g, workers, path, moves, v, k)
  {
    hide WellWired, SingleFlight, Ranks, Full, Enabled, Step, LateEmission, Potential, IsSource, Sized,
      InputChanged, Count, CallEvents, ChangeEvents, CallCost, IsCall, ViewOf, InboxesOf;
    OneCallPaid(g, rank, workers, path(k - 1), moves(k - 1).thread, moves(k - 1).choice, v);
    CountCall(path, moves, v, k);
    CountChange(g, path, v, k);
    var m := 3 * workers + 6;
    var d := Count(ChangeEvents(g, path, v), k - 1);
    assert m * (d + 1) == m * d + m;
  }

  lemma CountCall(path: nat -> State, moves: nat -> Move, v: nat, k: nat)
    requires k > 0
    ensures Count(CallEvents(path, moves, v), k) == Count(CallEvents(path, moves, v), k - 1) + CallCost(path(k - 1), moves(k - 1).thread, v)
  {
    hide IsCall;
  }

  lemma CountChange(g: Graph, path: nat -> State, v: nat, k: nat)
    requires k > 0 && WellWired(g) && Sized(g, path(k - 1)) && Sized(g, path(k)) && IsNode(g, v)
    ensures Count(ChangeEvents(g, path, v), k)
         == Count(ChangeEvents(g, path, v), k - 1) + if InputChanged(g, path(k - 1), path(k), v) then 1 else 0
  {
    hide WellWired, Sized, InputChanged, InboxChanged;
    ChangedEither(g, path(k - 1), path(k), v);
  }

  lemma ChangedEither(g: Graph, s: State, s': State, v: nat)
    requires WellWired(g) && Sized(g, s) && Sized(g, s') && IsNode(g, v)
    ensures InputChanged(g, s, s', v) == InboxChanged(g, s, s', v)
  {
    InboxesAreView(g, s, v);
    InboxesAreView(g, s', v);
    hide InboxesOf, ViewOf, WellWired, Sized;
  }

  lemma OneCallPaid(g: Graph, rank: seq<nat>, workers: nat, s: State, t: nat, c: Choice, v: nat)
    requires WellWired(g) && SingleFlight(g) && Ranks(g, rank) && Full(g, workers, s)
    requires Enabled(g, s, t, c) && !LateEmission(g, s, t, c) && IsNode(g, v) && !IsSource(g, v)
    ensures Sized(g, s) && Sized(g, Step(g, s, t, c))
    ensures Potential(g, Step(g, s, t, c), v) + CallCost(s, t, v)
      <= Potential(g, s, v) + if InputChanged(g, s, Step(g, s, t, c), v) then 3 * workers + 6 else 0
  {
    FullStep(g, rank, workers, s, t, c);
    hide Step, Enabled, WellWired, Shape, AllSized, AccOk, FlowsOk, FinalOk, RechecksOk, IdleOk;
    IdleUnkicked(g, Step(g, s, t, c));
    StepPays(g, s, t, c, v);
  }

  // ------------------------------------------------------------------ changes are paid for by producers

  function InboxAt(s: State, e: nat): Inbox { if e < |s.edges| then s.edges[e] else NEW_INBOX }

  /** Step `i` changes the inbox of edge `e`. */
  function EdgeEvents(path: nat -> State, e: nat): nat -> bool {
    (i: nat) => EdgeChanged(path(i), path(i + 1), e)
  }

  predicate EdgeChanged(s: State, s': State, e: nat) {
    InboxAt(s, e) != InboxAt(s', e)
  }

  /** Step `i` is the application feeding or closing a graph input. */
  function FeedEvents(path: nat -> State, moves: nat -> Move): nat -> bool {
    (i: nat) => IsFeed(path(i), moves(i).thread, moves(i).choice)
  }

  /** Step `i` lets something new into stream `q`: its producer's Process call, or an application call. */
  function ProducerEvents(g: Graph, path: nat -> State, moves: nat -> Move, q: nat): nat -> bool
    requires WellWired(g) && IsStream(g, q)
  {
    match g.owner[q]
    case Some(v) => CallEvents(path, moves, v)
    case None => FeedEvents(path, moves)
  }

  ghost predicate EdgeBalanced(g: Graph, path: nat -> State, moves: nat -> Move, e: nat, k: nat)
    requires WellWired(g) && IsEdge(g, e)
  {
    && Sized(g, path(k)) && IsStream(g, g.src[e])
    && Count(EdgeEvents(path, e), k) + Debts(g, path(k), e)
         <= 6 * Count(ProducerEvents(g, path, moves, g.src[e]), k) + |path(k).consumed[e]|
  }

  /** An inbox changes at most 6 times per Process call of its producer (or application call), and once per
      packet popped. */
  lemma {:induction false} EdgeBalances(g: Graph, rank: seq<nat>, workers: nat, path: nat -> State, moves: nat -> Move, e: nat, k: nat)
    requires RunUpTo(g, rank, workers, path, moves, k) && IsEdge(g, e)
    ensures EdgeBalanced(g, path, moves, e, k)
  {
    hide *;
    if k == 0 {
      EdgeBalanceInit(g, rank, workers, path, moves, e);
    } else {
      LastLink(g, rank, workers, path, moves, k);
      EdgeBalances(g, rank, workers, path, moves, e, k - 1);
      FullAlways(g, rank, workers, path, moves, k - 1);
      EdgeBalanceNext(g, rank, workers, path, moves, e, k);
    }
  }

  lemma EdgeBalanceInit(g: Graph, rank: seq<nat>, workers: nat, path: nat -> State, moves: nat -> Move, e: nat)
    requires RunUpTo(g, rank, workers, path, moves, 0) && IsEdge(g, e)
    ensures EdgeBalanced(g, path, moves, e, 0)
  {
    DebtInit(g, workers, e);
    EdgeFacts(g, e);
    hide WellWired, Debts, Ranks, SingleFlight, GoodLink;
  }

  lemma EdgeBalanceNext(g: Graph, rank: seq<nat>, workers: nat, path: nat -> State, moves: nat -> Move, e: nat, k: nat)
    requires k > 0 && WellWired(g) && SingleFlight(g) && Ranks(g, rank) && Full(g, workers, path(k - 1))
    requires Enabled(g, path(k - 1), moves(k - 1).thread, moves(k - 1).choice)
    requires path(k) == Step(g, path(k - 1), moves(k - 1).thread, moves(k - 1).choice)
    requires !LateEmission(g, path(k - 1), moves(k - 1).thread, moves(k - 1).choice)
    requires IsEdge(g, e) && EdgeBalanced(g, path, moves, e, k - 1)
    ensures EdgeBalanced(g, path, moves, e, k)
  {
    var s, m := path(k - 1), moves(k - 1);
    hide WellWired, SingleFlight, Ranks, Full, Enabled, Step, LateEmission, Debts, Supply, Count, EdgeEvents, ProducerEvents;
    OneChangePaid(g, rank, workers, s, m.thread, m.choice, e);
    CountEdge(g, path, e, k);
    CountProducer(g, path, moves, e, k);
  }

  lemma OneChangePaid(g: Graph, rank: seq<nat>, workers: nat, s: State, t: nat, c: Choice, e: nat)
    requires WellWired(g) && SingleFlight(g) && Ranks(g, rank) && Full(g, workers, s)
    requires Enabled(g, s, t, c) && !LateEmission(g, s, t, c) && IsEdge(g, e)
    ensures var s' := Step(g, s, t, c);
      && Sized(g, s) && Sized(g, s')
      && Debts(g, s', e) + (if s'.edges[e] != s.edges[e] then 1 else 0) + |s.consumed[e]|
           <= Debts(g, s, e) + Supply(g, s, t, c, e) + |s'.consumed[e]|
  {
    FullStep(g, rank, workers, s, t, c);
    assert Sized(g, s) && Sized(g, Step(g, s, t, c));
    hide Step, Enabled, WellWired, Shape, AllSized, AccOk, FlowsOk, FinalOk, RechecksOk, IdleOk, Sized, Debts, Supply;
    EdgeStepPays(g, s, t, c, e);
  }

  lemma CountEdge(g: Graph, path: nat -> State, e: nat, k: nat)
    requires k > 0 && Sized(g, path(k - 1)) && Sized(g, path(k)) && IsEdge(g, e)
    ensures Count(EdgeEvents(path, e), k)
         == Count(EdgeEvents(path, e), k - 1) + if path(k).edges[e] != path(k - 1).edges[e] then 1 else 0
  {
  }

  lemma CountProducer(g: Graph, path: nat -> State, moves: nat -> Move, e: nat, k: nat)
    requires k > 0 && WellWired(g) && IsEdge(g, e) && IsStream(g, g.src[e])
    ensures 6 * Count(ProducerEvents(g, path, moves, g.src[e]), k)
         >= 6 * Count(ProducerEvents(g, path, moves, g.src[e]), k - 1) + Supply(g, path(k - 1), moves(k - 1).thread, moves(k - 1).choice, e)
  {
    var p := ProducerEvents(g, path, moves, g.src[e]);
    assert Count(p, k) == Count(p, k - 1) + if p(k - 1) then 1 else 0;
    hide WellWired, IsCall, IsFeed, Count;
  }

  // ------------------------------------------------------------------ along the rank

  lemma EndlessPrefix(g: Graph, rank: seq<nat>, workers: nat, path: nat -> State, moves: nat -> Move, k: nat)
    requires EndlessRun(g, rank, workers, path, moves)
    ensures WellWired(g) && RunUpTo(g, rank, workers, path, moves, k)
  {
    hide GoodLink, WellWired, SingleFlight, Ranks;
  }

  // What was emitted when the producer made its last call is all there ever is.
  lemma {:induction false} EmittedStays(g: Graph, rank: seq<nat>, workers: nat, path: nat -> State, moves: nat -> Move, q: nat, n: nat, k: nat)
    requires EndlessRun(g, rank, workers, path, moves) && IsStream(g, q) && n <= k
    requires QuietFrom(ProducerEvents(g, path, moves, q), n)
    ensures Sized(g, path(n)) && Sized(g, path(k)) && path(k).emitted[q] == path(n).emitted[q]
    decreases k
  {
    hide *;
    EndlessPrefix(g, rank, workers, path, moves, k);
    FullAlways(g, rank, workers, path, moves, k);
    FullSized(g, workers, path(k));
    if n == k {
    } else {
      EmittedStays(g, rank, workers, path, moves, q, n, k - 1);
      LastLink(g, rank, workers, path, moves, k);
      FullAlways(g, rank, workers, path, moves, k - 1);
      QuietAt(g, path, moves, q, n, k - 1);
      EmittedNext(g, workers, path(k - 1), moves(k - 1).thread, moves(k - 1).choice, q);
    }
  }

  lemma FullSized(g: Graph, workers: nat, s: State)
    requires WellWired(g) && Full(g, workers, s)
    ensures Sized(g, s) && Shape(g, s)
  {
  }

  lemma QuietAt(g: Graph, path: nat -> State, moves: nat -> Move, q: nat, n: nat, i: nat)
    requires WellWired(g) && IsStream(g, q) && QuietFrom(ProducerEvents(g, path, moves, q), n) && n <= i
    ensures match g.owner[q]
      case Some(v) => !IsCall(path(i), moves(i).thread, v)
      case None => !IsFeed(path(i), moves(i).thread, moves(i).choice)
  {
    assert !ProducerEvents(g, path, moves, q)(i);
    hide WellWired, IsCall, IsFeed;
  }

  lemma EmittedNext(g: Graph, workers: nat, s: State, t: nat, c: Choice, q: nat)
    requires WellWired(g) && Full(g, workers, s) && Enabled(g, s, t, c) && IsStream(g, q)
    requires match g.owner[q] case Some(v) => !IsCall(s, t, v) case None => !IsFeed(s, t, c)
    ensures Sized(g, s) && |Step(g, s, t, c).emitted| == |s.emitted| && Step(g, s, t, c).emitted[q] == s.emitted[q]
  {
    FullSized(g, workers, s);
    hide Full, Shape, Step, Enabled, WellWired;
    EmittedOnlyByProducer(g, s, t, c, q);
  }

  function EmittedLen(s: State, q: nat): nat { if q < |s.emitted| then |s.emitted[q]| else 0 }
  function ConsumedLen(s: State, e: nat): nat { if e < |s.consumed| then |s.consumed[e]| else 0 }

  lemma ConsumedFits(g: Graph, workers: nat, s: State, e: nat, q: nat)
    requires WellWired(g) && Full(g, workers, s) && IsEdge(g, e) && q == g.src[e]
    ensures ConsumedLen(s, e) <= EmittedLen(s, q)
  {
    EdgeFacts(g, e);
    assert FlowOk(g, s, e);
  }

  lemma EdgeCount(g: Graph, path: nat -> State, moves: nat -> Move, e: nat, q: nat, k: nat)
    requires WellWired(g) && IsEdge(g, e) && EdgeBalanced(g, path, moves, e, k) && q == g.src[e] && IsStream(g, q)
    ensures Count(EdgeEvents(path, e), k) <= 6 * Count(ProducerEvents(g, path, moves, q), k) + ConsumedLen(path(k), e)
  {
    hide WellWired, Debts, Count, ProducerEvents, EdgeEvents;
  }

  lemma EdgeBound(g: Graph, rank: seq<nat>, workers: nat, path: nat -> State, moves: nat -> Move, e: nat, q: nat, n: nat, k: nat)
    requires WellWired(g) && EndlessRun(g, rank, workers, path, moves) && IsEdge(g, e) && q == g.src[e] && IsStream(g, q) && n <= k
    requires QuietFrom(ProducerEvents(g, path, moves, q), n)
    ensures Count(EdgeEvents(path, e), k) <= 6 * n + EmittedLen(path(n), q)
  {
    hide EndlessRun, RunUpTo, GoodLink, WellWired, Full, ProducerEvents, QuietFrom, Count, EdgeEvents, CallEvents, ChangeEvents,
      FeedEvents, InputsCease, PortsQuiet, EdgeBalanced, SingleFlight, Ranks;
    EndlessPrefix(g, rank, workers, path, moves, k);
    EdgeBalances(g, rank, workers, path, moves, e, k);
    CountQuiet(ProducerEvents(g, path, moves, q), n, k);
    FullAlways(g, rank, workers, path, moves, k);
    ConsumedFits(g, workers, path(k), e, q);
    EmittedStays(g, rank, workers, path, moves, q, n, k);
    EdgeCount(g, path, moves, e, q, k);
  }

  // Once the producer makes no more calls, the inbox changes finitely often.
  lemma EdgeCeases(g: Graph, rank: seq<nat>, workers: nat, path: nat -> State, moves: nat -> Move, e: nat, q: nat, n: nat) returns (m: nat)
    requires WellWired(g) && EndlessRun(g, rank, workers, path, moves) && IsEdge(g, e) && q == g.src[e] && IsStream(g, q)
    requires QuietFrom(ProducerEvents(g, path, moves, q), n)
    ensures QuietFrom(EdgeEvents(path, e), m)
  {
    hide EndlessRun, RunUpTo, GoodLink, WellWired, Full, ProducerEvents, QuietFrom, Count, EdgeEvents, CallEvents, ChangeEvents,
      FeedEvents, InputsCease, PortsQuiet, EdgeBalanced, SingleFlight, Ranks;
    EdgeBound(g, rank, workers, path, moves, e, q, n, n);
    var bound := 6 * n + EmittedLen(path(n), q);
    forall k: nat ensures Count(EdgeEvents(path, e), k) <= bound {
      if k <= n {
        CountGrows(EdgeEvents(path, e), k, n);
      } else {
        EdgeBound(g, rank, workers, path, moves, e, q, n, k);
      }
    }
    m := CountCeases(EdgeEvents(path, e), bound, 0);
  }

  /** The environment stops: from step `n` on no source is called and no graph input is fed or closed. */
  ghost predicate InputsCease(g: Graph, path: nat -> State, moves: nat -> Move, n: nat) {
    && QuietFrom(FeedEvents(path, moves), n)
    && forall v: nat {:trigger CallEvents(path, moves, v)} :: IsNode(g, v) && IsSource(g, v) ==> QuietFrom(CallEvents(path, moves, v), n)
  }

  ghost predicate PortsQuiet(g: Graph, path: nat -> State, v: nat, i: nat, m: nat)
    requires WellWired(g) && IsNode(g, v)
  {
    forall j: nat {:trigger IsInput(g, v, j)} :: IsInput(g, v, j) && j < i ==> QuietFrom(EdgeEvents(path, InEdge(g, v, j)), m)
  }

  // Input `i` of node `v`: its edge, the stream it mirrors, and that stream's producer of lower rank, if a node.
  lemma RankFalls(g: Graph, rank: seq<nat>, workers: nat, path: nat -> State, moves: nat -> Move, v: nat, i: nat)
    returns (e: nat, q: nat, producer: Option<nat>)
    requires EndlessRun(g, rank, workers, path, moves) && v < |g.ins| && i < |g.ins[v]|
    ensures WellWired(g) && IsInput(g, v, i) && e == InEdge(g, v, i) && IsEdge(g, e) && q == g.src[e] && IsStream(g, q) && producer == g.owner[q]
    ensures producer.Some? ==> IsNode(g, producer.value) && RankOf(rank, producer.value) < RankOf(rank, v)
  {
    assert WellWired(g) && Ranks(g, rank);
    hide EndlessRun;
    assert IsInput(g, v, i);
    e := InEdge(g, v, i);
    EdgeFacts(g, e);
    q := g.src[e];
    producer := g.owner[q];
    if producer.Some? {
      assert IsEdge(g, e) && Owns(g, producer.value, q);
    }
  }

  function RankOf(rank: seq<nat>, v: nat): nat { if v < |rank| then rank[v] else 0 }

  // The producer of an edge, node or application, has made its last call.
  lemma ProducerQuiet(g: Graph, path: nat -> State, moves: nat -> Move, q: nat, producer: Option<nat>, n: nat)
    requires WellWired(g) && IsStream(g, q) && producer == g.owner[q]
    requires match producer
      case Some(u) => QuietFrom(CallEvents(path, moves, u), n)
      case None => QuietFrom(FeedEvents(path, moves), n)
    ensures QuietFrom(ProducerEvents(g, path, moves, q), n)
  {
    hide WellWired, QuietFrom, CallEvents, FeedEvents;
  }

  lemma EnvironmentQuiet(g: Graph, path: nat -> State, moves: nat -> Move, n: nat, v: nat)
    requires InputsCease(g, path, moves, n)
    ensures QuietFrom(FeedEvents(path, moves), n)
    ensures IsNode(g, v) && IsSource(g, v) ==> QuietFrom(CallEvents(path, moves, v), n)
  {
    hide QuietFrom, CallEvents, FeedEvents;
    var _ := CallEvents(path, moves, v);
  }

  lemma PortsNext(g: Graph, path: nat -> State, v: nat, i: nat, m0: nat, m1: nat, m: nat)
    requires WellWired(g) && IsNode(g, v) && IsInput(g, v, i) && m0 <= m && m1 <= m
    requires PortsQuiet(g, path, v, i, m0) && QuietFrom(EdgeEvents(path, InEdge(g, v, i)), m1)
    ensures PortsQuiet(g, path, v, i + 1, m)
  {
    hide WellWired, EdgeEvents, QuietFrom;
    forall j: nat | IsInput(g, v, j) && j < i + 1 ensures QuietFrom(EdgeEvents(path, InEdge(g, v, j)), m) {
      QuietLater(EdgeEvents(path, InEdge(g, v, j)), if j < i then m0 else m1, m);
    }
  }

  lemma NoPorts(g: Graph, path: nat -> State, v: nat)
    requires WellWired(g) && IsNode(g, v)
    ensures PortsQuiet(g, path, v, 0, 0)
  {
  }

  // Each of the first `i` inputs of `v` stops changing, because its producer has a lower rank.
  lemma {:induction false} PortsCease(g: Graph, rank: seq<nat>, workers: nat, path: nat -> State, moves: nat -> Move, n: nat, v: nat, i: nat) returns (m: nat)
    requires WellWired(g) && EndlessRun(g, rank, workers, path, moves) && InputsCease(g, path, moves, n) && IsNode(g, v) && i <= |g.ins[v]|
    ensures PortsQuiet(g, path, v, i, m)
    decreases RankOf(rank, v), i
  {
    hide EndlessRun, RunUpTo, GoodLink, WellWired, Full, ProducerEvents, QuietFrom, Count, EdgeEvents, CallEvents, ChangeEvents,
      FeedEvents, InputsCease, PortsQuiet, EdgeBalanced, SingleFlight, Ranks;
    if i == 0 {
      NoPorts(g, path, v);
      m := 0;
    } else {
      var e, q, producer := RankFalls(g, rank, workers, path, moves, v, i - 1);
      var m0 := PortsCease(g, rank, workers, path, moves, n, v, i - 1);
      var n1 := n;
      if producer.Some? {
        n1 := NodeCeases(g, rank, workers, path, moves, n, producer.value);
      } else {
        EnvironmentQuiet(g, path, moves, n, v);
      }
      ProducerQuiet(g, path, moves, q, producer, n1);
      var m1 := EdgeCeases(g, rank, workers, path, moves, e, q, n1);
      m := if m0 < m1 then m1 else m0;
      PortsNext(g, path, v, i - 1, m0, m1, m);
    }
  }

  lemma PortsQuietNode(g: Graph, path: nat -> State, v: nat, m: nat)
    requires WellWired(g) && IsNode(g, v) && PortsQuiet(g, path, v, |g.ins[v]|, m)
    ensures QuietFrom(ChangeEvents(g, path, v), m)
  {
    hide WellWired, InboxAt, InboxChanged, EdgeEvents;
    forall i: nat | m <= i ensures !InboxChanged(g, path(i), path(i + 1), v) {
      forall j: nat | j < |g.ins[v]| ensures InboxAt(path(i), g.ins[v][j]) == InboxAt(path(i + 1), g.ins[v][j]) {
        assert IsInput(g, v, j);
        EdgeQuietAt(path, g.ins[v][j], m, i);
      }
      SameInboxes(g, path(i), path(i + 1), v);
    }
  }

  lemma EdgeQuietAt(path: nat -> State, e: nat, m: nat, i: nat)
    requires QuietFrom(EdgeEvents(path, e), m) && m <= i
    ensures InboxAt(path(i), e) == InboxAt(path(i + 1), e)
  {
    hide QuietFrom, InboxAt;
    NotAt(EdgeEvents(path, e), m, i);
  }

  lemma SameInboxes(g: Graph, s: State, s': State, v: nat)
    requires v < |g.ins|
    requires forall j :: 0 <= j < |g.ins[v]| ==> InboxAt(s, g.ins[v][j]) == InboxAt(s', g.ins[v][j])
    ensures !InboxChanged(g, s, s', v)
  {
  }

  // By induction on the rank: every node is called finitely often.
  lemma {:induction false} NodeCeases(g: Graph, rank: seq<nat>, workers: nat, path: nat -> State, moves: nat -> Move, n: nat, v: nat) returns (m: nat)
    requires WellWired(g) && EndlessRun(g, rank, workers, path, moves) && InputsCease(g, path, moves, n) && IsNode(g, v)
    ensures QuietFrom(CallEvents(path, moves, v), m)
    decreases RankOf(rank, v), |g.ins[v]| + 1
  {
    hide EndlessRun, RunUpTo, GoodLink, WellWired, Full, ProducerEvents, QuietFrom, Count, EdgeEvents, CallEvents, ChangeEvents,
      FeedEvents, InputsCease, PortsQuiet, EdgeBalanced, SingleFlight, Ranks;
    if IsSource(g, v) {
      m := n;
      EnvironmentQuiet(g, path, moves, n, v);
    } else {
      var m0 := PortsCease(g, rank, workers, path, moves, n, v, |g.ins[v]|);
      PortsQuietNode(g, path, v, m0);
      m := PaidCallsCease(g, rank, workers, path, moves, v, m0);
    }
  }

  lemma PaidCallsCease(g: Graph, rank: seq<nat>, workers: nat, path: nat -> State, moves: nat -> Move, v: nat, m0: nat) returns (m: nat)
    requires WellWired(g) && EndlessRun(g, rank, workers, path, moves) && IsNode(g, v) && !IsSource(g, v)
    requires QuietFrom(ChangeEvents(g, path, v), m0)
    ensures QuietFrom(CallEvents(path, moves, v), m)
  {
    hide EndlessRun, RunUpTo, GoodLink, WellWired, Full, ProducerEvents, QuietFrom, Count, EdgeEvents, CallEvents, ChangeEvents,
      FeedEvents, InputsCease, PortsQuiet, EdgeBalanced, SingleFlight, Ranks;
    var bound := 4 + (3 * workers + 6) * m0;
    forall k: nat ensures Count(CallEvents(path, moves, v), k) <= bound {
      EndlessPrefix(g, rank, workers, path, moves, k);
      CallsArePaidFor(g, rank, workers, path, moves, v, k);
      CountQuiet(ChangeEvents(g, path, v), m0, k);
      TimesGrows(3 * workers + 6, Count(ChangeEvents(g, path, v), k), m0);
    }
    m := CountCeases(CallEvents(path, moves, v), bound, 0);
  }

  lemma TimesGrows(a: nat, b: nat, c: nat)
    requires b <= c
    ensures a * b <= a * c
  {
  }

  // ------------------------------------------------------------------ finitely many invocations

  /** The step about to be made by thread `t` takes an item off the run queue and starts RunNode. */
  predicate IsStart(s: State, t: nat) {
    && t < |s.threads| && s.threads[t].leaf == NoLeaf && s.threads[t].mid == NoMid
    && s.threads[t].outer.Fetch? && s.queue.items != multiset{}
  }

  predicate IsAnyCall(s: State, t: nat) {
    && t < |s.threads| && s.threads[t].leaf == NoLeaf && s.threads[t].mid == NoMid && s.threads[t].outer.Compute?
  }

  /** Step `i` starts a RunNode invocation. */
  function StartEvents(path: nat -> State, moves: nat -> Move): nat -> bool {
    (i: nat) => IsStart(path(i), moves(i).thread)
  }

  function AnyCallEvents(path: nat -> State, moves: nat -> Move): nat -> bool {
    (i: nat) => IsAnyCall(path(i), moves(i).thread)
  }

  // The thread is in an invocation that has yet to call Process.
  function Begun(th: Thread): nat { if th.outer.Collect? || th.outer.Compute? then 1 else 0 }

  lemma {:induction false} BegunAtMost(ths: seq<Thread>)
    ensures Total(Begun, ths) <= |ths|
  {
    if ths != [] {
      BegunAtMost(ths[1..]);
    }
  }

  lemma BegunMoves(g: Graph, s: State, t: nat, c: Choice)
    requires WellWired(g) && Enabled(g, s, t, c) && t < |Step(g, s, t, c).threads|
    ensures t < |s.threads|
    ensures (if IsStart(s, t) then 1 else 0) + Begun(s.threads[t])
         <= (if IsAnyCall(s, t) then 1 else 0) + Begun(Step(g, s, t, c).threads[t])
  {
    hide WellWired, OutcomeOk, AppEnabled;
  }

  lemma OneStartPaid(g: Graph, s: State, t: nat, c: Choice)
    requires WellWired(g) && Enabled(g, s, t, c)
    ensures (if IsStart(s, t) then 1 else 0) + Total(Begun, s.threads)
         <= (if IsAnyCall(s, t) then 1 else 0) + Total(Begun, Step(g, s, t, c).threads)
  {
    StepOthers(g, s, t, c);
    var ths' := Step(g, s, t, c).threads;
    assert t < |s.threads|;
    BegunMoves(g, s, t, c);
    hide Step, Enabled, WellWired, IsStart, IsAnyCall, Begun;
    assert ths' == s.threads[t := ths'[t]];
    TotalUpdate(Begun, s.threads, t, ths'[t]);
  }

  ghost predicate StartsBalanced(path: nat -> State, moves: nat -> Move, k: nat) {
    Count(StartEvents(path, moves), k) <= Count(AnyCallEvents(path, moves), k) + Total(Begun, path(k).threads)
  }

  lemma {:induction false} StartsBalance(g: Graph, rank: seq<nat>, workers: nat, path: nat -> State, moves: nat -> Move, k: nat)
    requires RunUpTo(g, rank, workers, path, moves, k)
    ensures StartsBalanced(path, moves, k)
  {
    hide EndlessRun, RunUpTo, GoodLink, WellWired, Full, ProducerEvents, QuietFrom, Count, EdgeEvents, CallEvents, ChangeEvents,
      FeedEvents, InputsCease, PortsQuiet, EdgeBalanced, SingleFlight, Ranks;
    if k == 0 {
      NoStarts(path, moves);
    } else {
      LastLink(g, rank, workers, path, moves, k);
      hide *;
      StartsBalance(g, rank, workers, path, moves, k - 1);
      OneStartPaid(g, path(k - 1), moves(k - 1).thread, moves(k - 1).choice);
      StartsNext(path, moves, k);
    }
  }

  lemma NoStarts(path: nat -> State, moves: nat -> Move)
    ensures StartsBalanced(path, moves, 0)
  {
  }

  lemma StartsNext(path: nat -> State, moves: nat -> Move, k: nat)
    requires k > 0 && StartsBalanced(path, moves, k - 1)
    requires (if IsStart(path(k - 1), moves(k - 1).thread) then 1 else 0) + Total(Begun, path(k - 1).threads)
          <= (if IsAnyCall(path(k - 1), moves(k - 1).thread) then 1 else 0) + Total(Begun, path(k).threads)
    ensures StartsBalanced(path, moves, k)
  {
    hide IsStart, IsAnyCall, Begun, Total;
  }

  // All of the first `i` nodes have made their last Process call.
  lemma {:induction false} NodesCease(g: Graph, rank: seq<nat>, workers: nat, path: nat -> State, moves: nat -> Move, n: nat, i: nat) returns (m: nat)
    requires WellWired(g) && EndlessRun(g, rank, workers, path, moves) && InputsCease(g, path, moves, n) && i <= |g.ins|
    ensures forall v: nat :: v < i ==> QuietFrom(CallEvents(path, moves, v), m)
  {
    hide EndlessRun, RunUpTo, GoodLink, WellWired, Full, ProducerEvents, QuietFrom, Count, EdgeEvents, CallEvents, ChangeEvents,
      FeedEvents, InputsCease, PortsQuiet, EdgeBalanced, SingleFlight, Ranks;
    if i == 0 {
      m := 0;
    } else {
      var m0 := NodesCease(g, rank, workers, path, moves, n, i - 1);
      var m1 := NodeCeases(g, rank, workers, path, moves, n, i - 1);
      m := if m0 < m1 then m1 else m0;
      forall v: nat | v < i ensures QuietFrom(CallEvents(path, moves, v), m) {
        QuietLater(CallEvents(path, moves, v), if v < i - 1 then m0 else m1, m);
      }
    }
  }

  lemma NoCallLeft(g: Graph, rank: seq<nat>, workers: nat, path: nat -> State, moves: nat -> Move, m: nat)
    requires WellWired(g) && EndlessRun(g, rank, workers, path, moves)
    requires forall v: nat :: v < |g.ins| ==> QuietFrom(CallEvents(path, moves, v), m)
    ensures QuietFrom(AnyCallEvents(path, moves), m)
  {
    forall i: nat | m <= i ensures !IsAnyCall(path(i), moves(i).thread) {
      if IsAnyCall(path(i), moves(i).thread) {
        assert GoodLink(g, path, moves, i);
        var v := path(i).threads[moves(i).thread].outer.v;
        assert IsNode(g, v) by { hide WellWired, Step, QuietFrom, LateEmission; }
        assert IsCall(path(i), moves(i).thread, v);
        hide QuietFrom, GoodLink, EndlessRun, WellWired;
        NotAt(CallEvents(path, moves, v), m, i);
      }
    }
  }

  /** Finitely many runs: on an acyclic graph, once no source is called any more and the application feeds
      nothing more, only finitely many RunNode invocations and Process calls follow. */
  lemma FinitelyManyRuns(g: Graph, rank: seq<nat>, workers: nat, path: nat -> State, moves: nat -> Move, n: nat) returns (m: nat)
    requires EndlessRun(g, rank, workers, path, moves) && InputsCease(g, path, moves, n)
    ensures forall i: nat :: m <= i ==> !IsStart(path(i), moves(i).thread)
    ensures forall i: nat, v: nat :: m <= i && IsNode(g, v) ==> !IsCall(path(i), moves(i).thread, v)
  {
    hide EndlessRun, RunUpTo, GoodLink, WellWired, Full, ProducerEvents, QuietFrom, Count, EdgeEvents, CallEvents, ChangeEvents,
      FeedEvents, InputsCease, PortsQuiet, EdgeBalanced, SingleFlight, Ranks;
    hide IsStart, IsCall, IsAnyCall, AnyCallEvents, StartEvents;
    EndlessPrefix(g, rank, workers, path, moves, 0);
    var m0 := NodesCease(g, rank, workers, path, moves, n, |g.ins|);
    NoCallLeft(g, rank, workers, path, moves, m0);
    var m1 := StartsCease(g, rank, workers, path, moves, m0);
    m := if m0 < m1 then m1 else m0;
    forall i: nat | m <= i ensures !IsStart(path(i), moves(i).thread) {
      StartsQuietAt(path, moves, m1, i);
    }
    forall i: nat, v: nat | m <= i && IsNode(g, v) ensures !IsCall(path(i), moves(i).thread, v) {
      CallQuietAt(path, moves, v, m0, i);
    }
  }

  lemma StartsQuietAt(path: nat -> State, moves: nat -> Move, m: nat, i: nat)
    requires QuietFrom(StartEvents(path, moves), m) && m <= i
    ensures !IsStart(path(i), moves(i).thread)
  {
    hide QuietFrom, IsStart;
    NotAt(StartEvents(path, moves), m, i);
  }

  lemma CallQuietAt(path: nat -> State, moves: nat -> Move, v: nat, m: nat, i: nat)
    requires QuietFrom(CallEvents(path, moves, v), m) && m <= i
    ensures !IsCall(path(i), moves(i).thread, v)
  {
    hide QuietFrom, IsCall;
    NotAt(CallEvents(path, moves, v), m, i);
  }

  lemma StartsCease(g: Graph, rank: seq<nat>, workers: nat, path: nat -> State, moves: nat -> Move, m0: nat) returns (m: nat)
    requires WellWired(g) && EndlessRun(g, rank, workers, path, moves) && QuietFrom(AnyCallEvents(path, moves), m0)
    ensures QuietFrom(StartEvents(path, moves), m)
  {
    hide EndlessRun, RunUpTo, GoodLink, WellWired, Full, ProducerEvents, QuietFrom, Count, EdgeEvents, CallEvents, ChangeEvents,
      FeedEvents, InputsCease, PortsQuiet, EdgeBalanced, SingleFlight, Ranks;
    hide StartEvents, AnyCallEvents;
    forall k: nat ensures Count(StartEvents(path, moves), k) <= m0 + workers + 1 {
      EndlessPrefix(g, rank, workers, path, moves, k);
      StartsBalance(g, rank, workers, path, moves, k);
      CountQuiet(AnyCallEvents(path, moves), m0, k);
      BegunAtMost(path(k).threads);
      FullAlways(g, rank, workers, path, moves, k);
      FullThreads(g, workers, path(k));
    }
    m := CountCeases(StartEvents(path, moves), m0 + workers + 1, 0);
  }

  lemma FullThreads(g: Graph, workers: nat, s: State)
    requires WellWired(g) && Full(g, workers, s)
    ensures |s.threads| == workers + 1
  {
  }

  // ------------------------------------------------------------------ sources that stopped

  // After its Stop a source is never called again.
  lemma StoppedIsQuiet(g: Graph, rank: seq<nat>, workers: nat, path: nat -> State, moves: nat -> Move, n: nat, v: nat)
    requires EndlessRun(g, rank, workers, path, moves) && IsNode(g, v) && IsSource(g, v) && v in path(n).stopped
    ensures QuietFrom(CallEvents(path, moves, v), n)
  {
    hide EndlessRun, IsCall;
    forall i: nat | n <= i ensures !IsCall(path(i), moves(i).thread, v) {
      EndlessPrefix(g, rank, workers, path, moves, i);
      StoppedStays(g, rank, workers, path, moves, n, v, i);
      FullAlways(g, rank, workers, path, moves, i);
      StoppedNoCall(g, workers, path(i), moves(i).thread, v);
    }
  }

  lemma StoppedNoCall(g: Graph, workers: nat, s: State, t: nat, v: nat)
    requires WellWired(g) && Full(g, workers, s) && IsNode(g, v) && IsSource(g, v) && v in s.stopped
    ensures !IsCall(s, t, v)
  {
    assert SourceOk(g, s, v);
    if IsCall(s, t, v) {
      SumHasOne(Token(v), s.threads, t);
    }
  }

  lemma {:induction false} StoppedStays(g: Graph, rank: seq<nat>, workers: nat, path: nat -> State, moves: nat -> Move, n: nat, v: nat, i: nat)
    requires EndlessRun(g, rank, workers, path, moves) && v in path(n).stopped && n <= i
    ensures v in path(i).stopped
    decreases i
  {
    hide *;
    if n == i {
    } else {
      StoppedStays(g, rank, workers, path, moves, n, v, i - 1);
      EndlessPrefix(g, rank, workers, path, moves, i);
      LastLink(g, rank, workers, path, moves, i);
      StoppedGrows(g, path(i - 1), moves(i - 1).thread, moves(i - 1).choice);
    }
  }

  lemma StoppedGrows(g: Graph, s: State, t: nat, c: Choice)
    requires WellWired(g) && Enabled(g, s, t, c)
    ensures s.stopped <= Step(g, s, t, c).stopped
  {
    hide WellWired, OutcomeOk, AppEnabled;
  }

  /** If every source has returned Stop and the application feeds nothing more, the run has a last RunNode
      invocation. */
  lemma StopsEndRuns(g: Graph, rank: seq<nat>, workers: nat, path: nat -> State, moves: nat -> Move, n: nat) returns (m: nat)
    requires EndlessRun(g, rank, workers, path, moves)
    requires forall v: nat {:trigger IsNode(g, v)} :: IsNode(g, v) && IsSource(g, v) ==> v in path(n).stopped
    requires forall i: nat :: n <= i ==> !IsFeed(path(i), moves(i).thread, moves(i).choice)
    ensures forall i: nat :: m <= i ==> !IsStart(path(i), moves(i).thread)
  {
    hide EndlessRun, IsStart, IsCall;
    forall v: nat | IsNode(g, v) && IsSource(g, v) ensures QuietFrom(CallEvents(path, moves, v), n) {
      StoppedIsQuiet(g, rank, workers, path, moves, n, v);
    }
    FeedsQuiet(path, moves, n);
    hide CallEvents, FeedEvents, QuietFrom;
    m := FinitelyManyRuns(g, rank, workers, path, moves, n);
  }

  lemma FeedsQuiet(path: nat -> State, moves: nat -> Move, n: nat)
    requires forall i: nat :: n <= i ==> !IsFeed(path(i), moves(i).thread, moves(i).choice)
    ensures QuietFrom(FeedEvents(path, moves), n)
  {
    hide IsFeed;
  }
}
