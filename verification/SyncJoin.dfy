/** The timestamp-synchronised join: SyncSet over the input managers of one node. */
module SyncJoin {
  import opened Timestamps
  import opened StreamState
  import opened Graphs
  import opened Streams

  datatype Readiness = NotReady | ReadyForProcess | ReadyForClose

  // ------------------------------------------------------------------ readiness

  // The least bound of the empty streams, and the least head of the others; Done where there are none.
  function MinBound(ms: seq<Inbox>): (t: Timestamp)
    ensures forall i :: 0 <= i < |ms| && ms[i].queue == [] ==> t <= ms[i].bound
    ensures t == DONE || exists i :: 0 <= i < |ms| && ms[i].queue == [] && t == ms[i].bound
  {
    if ms == [] then DONE
    else
      var m := ms[|ms| - 1];
      if m.queue == [] then Earlier(MinBound(ms[..|ms| - 1]), m.bound) else MinBound(ms[..|ms| - 1])
  }

  function MinPacket(ms: seq<Inbox>): (t: Timestamp)
    ensures forall i :: 0 <= i < |ms| && ms[i].queue != [] ==> t <= ms[i].queue[0].ts
    ensures t == DONE || exists i :: 0 <= i < |ms| && ms[i].queue != [] && t == ms[i].queue[0].ts
  {
    if ms == [] then DONE
    else
      var m := ms[|ms| - 1];
      if m.queue != [] then Earlier(MinPacket(ms[..|ms| - 1]), m.queue[0].ts) else MinPacket(ms[..|ms| - 1])
  }

  predicate AnyEmpty(ms: seq<Inbox>) {
    exists i :: 0 <= i < |ms| && ms[i].queue == []
  }

  function JoinTime(ms: seq<Inbox>): (t: Timestamp)
    ensures forall i :: 0 <= i < |ms| ==> t <= Frontier(ms[i])
  {
    Earlier(MinPacket(ms), MinBound(ms))
  }

  function ReadinessOf(ms: seq<Inbox>): (r: Readiness) {
    if JoinTime(ms) >= ONE_OVER_POST_STREAM then ReadyForClose
    else if !AnyEmpty(ms) || MinBound(ms) > MinPacket(ms) then ReadyForProcess
    else NotReady
  }

  /** What readiness means: the join runs at the earliest time any stream can still produce, once no
      stream can produce anything earlier or surprise it at that time. */
  lemma ReadyMeans(ms: seq<Inbox>)
    ensures ReadinessOf(ms) == ReadyForProcess <==>
      && (exists i :: 0 <= i < |ms| && ms[i].queue != [] && ms[i].queue[0].ts == JoinTime(ms) < ONE_OVER_POST_STREAM)
      && (forall i :: 0 <= i < |ms| && ms[i].queue == [] ==> ms[i].bound > JoinTime(ms))
    ensures ReadinessOf(ms) == ReadyForClose <==> forall i :: 0 <= i < |ms| ==> Frontier(ms[i]) >= ONE_OVER_POST_STREAM
  {
    if forall i :: 0 <= i < |ms| ==> Frontier(ms[i]) >= ONE_OVER_POST_STREAM {
      forall i | 0 <= i < |ms| ensures ms[i].queue != [] ==> ms[i].queue[0].ts >= ONE_OVER_POST_STREAM {
        assert Frontier(ms[i]) >= ONE_OVER_POST_STREAM;
      }
      forall i | 0 <= i < |ms| ensures ms[i].queue == [] ==> ms[i].bound >= ONE_OVER_POST_STREAM {
        assert Frontier(ms[i]) >= ONE_OVER_POST_STREAM;
      }
    }
  }

  lemma OneMoreStream(ms: seq<Inbox>, m: Inbox)
    ensures MinBound(ms + [m]) == if m.queue == [] then Earlier(MinBound(ms), Frontier(m)) else MinBound(ms)
    ensures MinPacket(ms + [m]) == if m.queue != [] then Earlier(MinPacket(ms), Frontier(m)) else MinPacket(ms)
    ensures AnyEmpty(ms + [m]) == (AnyEmpty(ms) || m.queue == [])
  {
    assert (ms + [m])[..|ms|] == ms;
    if AnyEmpty(ms) {
      var i :| 0 <= i < |ms| && ms[i].queue == [];
      assert (ms + [m])[i].queue == [];
    }
    assert (ms + [m])[|ms|] == m;
  }

  // What the loop has gathered from the first `n` streams.
  ghost predicate Scanned(ms: seq<Inbox>, n: nat, minBound: Timestamp, minPacket: Timestamp, anyEmpty: bool) {
    n <= |ms| && minBound == MinBound(ms[..n]) && minPacket == MinPacket(ms[..n]) && anyEmpty == AnyEmpty(ms[..n])
  }

  lemma ScanNext(ms: seq<Inbox>, n: nat, minBound: Timestamp, minPacket: Timestamp, anyEmpty: bool)
    requires Scanned(ms, n, minBound, minPacket, anyEmpty) && n < |ms|
    ensures ms[n].queue == [] ==> Scanned(ms, n + 1, Earlier(minBound, Frontier(ms[n])), minPacket, true)
    ensures ms[n].queue != [] ==> Scanned(ms, n + 1, minBound, Earlier(minPacket, Frontier(ms[n])), anyEmpty)
  {
    assert ms[..n + 1] == ms[..n] + [ms[n]];
    hide MinBound, MinPacket, AnyEmpty;
    OneMoreStream(ms[..n], ms[n]);
  }

  lemma ScanEnds(ms: seq<Inbox>, minBound: Timestamp, minPacket: Timestamp, anyEmpty: bool)
    requires Scanned(ms, |ms|, minBound, minPacket, anyEmpty)
    ensures JoinTime(ms) == Earlier(minPacket, minBound)
    ensures ReadinessOf(ms) ==
      if Earlier(minPacket, minBound) >= ONE_OVER_POST_STREAM then ReadyForClose
      else if !anyEmpty || minBound > minPacket then ReadyForProcess
      else NotReady
  {
    assert ms[..|ms|] == ms;
  }

  class SyncSet {
    const managers: seq<InputStreamManager>

    constructor (managers: seq<InputStreamManager>)
      ensures this.managers == managers
    {
      this.managers := managers;
    }

    ghost predicate Valid() {
      forall i, j :: 0 <= i < j < |managers| ==> managers[i] != managers[j]
    }

    ghost function States(n: nat): (ms: seq<Inbox>)
      requires n <= |managers|
      reads managers
      ensures |ms| == n && forall i :: 0 <= i < n ==> ms[i] == managers[i].State()
    {
      if n == 0 then [] else States(n - 1) + [managers[n - 1].State()]
    }

    method GetReadiness() returns (r: Readiness, minTime: Timestamp)
      ensures r == ReadinessOf(States(|managers|)) && minTime == JoinTime(States(|managers|))
    {
      ghost var ms := States(|managers|);
      var minBound, minPacket := DONE, DONE;
      var anyEmpty := false;
      assert Scanned(ms, 0, minBound, minPacket, anyEmpty);
      hide Scanned, States, JoinTime, ReadinessOf, Frontier;
      for i := 0 to |managers|
        invariant Scanned(ms, i, minBound, minPacket, anyEmpty)
      {
        var ts, empty := managers[i].MinTimestampOrBound();
        assert ms[i] == managers[i].State();
        ScanNext(ms, i, minBound, minPacket, anyEmpty);
        if empty {
          minBound := Earlier(minBound, ts);
          anyEmpty := true;
        } else {
          minPacket := Earlier(minPacket, ts);
        }
      }
      ScanEnds(ms, minBound, minPacket, anyEmpty);
      minTime := Earlier(minPacket, minBound);
      if minTime >= ONE_OVER_POST_STREAM {
        return ReadyForClose, minTime;
      }
      if !anyEmpty || minBound > minPacket {
        return ReadyForProcess, minTime;
      }
      return NotReady, minTime;
    }

    // Take every stream to `t`; the returned list is what each pop handed out.
    method FillInputSet(t: Timestamp) returns (handed: seq<Handout>)
      requires Valid()
      modifies managers
      ensures |handed| == |managers|
      ensures forall i :: 0 <= i < |managers| ==>
        managers[i].State() == PoppedAt(old(managers[i].State()), t) && handed[i] == TakenAt(old(managers[i].State()), t)
    {
      handed := [];
      for i := 0 to |managers|
        invariant |handed| == i
        invariant forall k :: 0 <= k < i ==>
          managers[k].State() == PoppedAt(old(managers[k].State()), t) && handed[k] == TakenAt(old(managers[k].State()), t)
        invariant forall k :: i <= k < |managers| ==> managers[k].State() == old(managers[k].State())
      {
        var taken, _, _ := managers[i].PopPacketAtTimestamp(t);
        handed := handed + [taken];
      }
    }
  }

  // ------------------------------------------------------------------ the canonical merge

  /** One joined invocation: its time, and for each stream the packet of that time if there is one. */
  datatype Row = Row(ts: Timestamp, cells: seq<Option<Packet>>)

  function TotalSize(qs: seq<seq<Packet>>): (n: nat) {
    if qs == [] then 0 else |qs[0]| + TotalSize(qs[1..])
  }

  predicate AllEmpty(qs: seq<seq<Packet>>) {
    forall i :: 0 <= i < |qs| ==> qs[i] == []
  }

  function EarliestHead(qs: seq<seq<Packet>>): (t: Timestamp)
    requires !AllEmpty(qs)
    ensures exists i :: 0 <= i < |qs| && qs[i] != [] && qs[i][0].ts == t
    ensures forall i :: 0 <= i < |qs| && qs[i] != [] ==> t <= qs[i][0].ts
  {
    if AllEmpty(qs[1..]) then
      assert qs[0] != [] by { assert forall i :: 0 < i < |qs| ==> qs[i] == qs[1..][i - 1]; }
      qs[0][0].ts
    else
      var t := EarliestHead(qs[1..]);
      var r := if qs[0] != [] then Earlier(qs[0][0].ts, t) else t;
      assert forall i :: 0 < i < |qs| ==> qs[i] == qs[1..][i - 1];
      r
  }

  function Cell(q: seq<Packet>, t: Timestamp): (c: Option<Packet>) {
    if q != [] && q[0].ts == t then Some(q[0]) else None
  }

  function Rest(q: seq<Packet>, t: Timestamp): (r: seq<Packet>) {
    if q != [] && q[0].ts == t then q[1..] else q
  }

  function RowAt(qs: seq<seq<Packet>>, t: Timestamp): (r: Row)
    ensures r.ts == t && |r.cells| == |qs|
  {
    Row(t, seq(|qs|, i requires 0 <= i < |qs| => Cell(qs[i], t)))
  }

  function RestAt(qs: seq<seq<Packet>>, t: Timestamp): (r: seq<seq<Packet>>)
    ensures |r| == |qs|
  {
    seq(|qs|, i requires 0 <= i < |qs| => Rest(qs[i], t))
  }

  lemma {:induction false} RestShrinks(qs: seq<seq<Packet>>, t: Timestamp)
    ensures TotalSize(RestAt(qs, t)) <= TotalSize(qs)
    ensures (exists i :: 0 <= i < |qs| && qs[i] != [] && qs[i][0].ts == t) ==> TotalSize(RestAt(qs, t)) < TotalSize(qs)
  {
    if qs != [] {
      RestShrinks(qs[1..], t);
      assert RestAt(qs, t)[1..] == RestAt(qs[1..], t);
      if exists i :: 0 <= i < |qs| && qs[i] != [] && qs[i][0].ts == t {
        var i :| 0 <= i < |qs| && qs[i] != [] && qs[i][0].ts == t;
        if i > 0 {
          assert qs[1..][i - 1] == qs[i];
        }
      }
    }
  }

  /** The streams merged by time alone, with no notion of arrival. */
  function Merge(qs: seq<seq<Packet>>): (rows: seq<Row>)
    decreases TotalSize(qs)
  {
    if AllEmpty(qs) then []
    else
      var t := EarliestHead(qs);
      RestShrinks(qs, t);
      [RowAt(qs, t)] + Merge(RestAt(qs, t))
  }

  // Packets of one stream in strictly increasing, allowed time, none earlier than `b`.
  ghost predicate Timely(q: seq<Packet>, b: Timestamp) {
    && (forall k :: 0 <= k < |q| ==> IsAllowedInStream(q[k].ts) && q[k].ts >= b)
    && (forall j, k :: 0 <= j < k < |q| ==> q[j].ts < q[k].ts)
  }

  function Column(rows: seq<Row>, i: nat): (q: seq<Packet>) {
    if rows == [] then []
    else (if i < |rows[0].cells| && rows[0].cells[i].Some? then [rows[0].cells[i].value] else []) + Column(rows[1..], i)
  }

  lemma MergeUnfolds(qs: seq<seq<Packet>>)
    requires !AllEmpty(qs)
    ensures var t := EarliestHead(qs);
      Merge(qs) == [RowAt(qs, t)] + Merge(RestAt(qs, t)) && TotalSize(RestAt(qs, t)) < TotalSize(qs)
  {
    RestShrinks(qs, EarliestHead(qs));
  }

  lemma RestIsTimely(qs: seq<seq<Packet>>, b: Timestamp)
    requires !AllEmpty(qs) && forall i :: 0 <= i < |qs| ==> Timely(qs[i], b)
    ensures var t := EarliestHead(qs);
      t >= b && t < NextAllowed(t) && forall i :: 0 <= i < |qs| ==> Timely(RestAt(qs, t)[i], NextAllowed(t))
  {
    var t := EarliestHead(qs);
    var k :| 0 <= k < |qs| && qs[k] != [] && qs[k][0].ts == t;
    assert Timely(qs[k], b);
    forall i | 0 <= i < |qs| ensures Timely(RestAt(qs, t)[i], NextAllowed(t)) {
      assert Timely(qs[i], b);
      StreamRestIsTimely(qs[i], b, t);
    }
  }

  lemma StreamRestIsTimely(q: seq<Packet>, b: Timestamp, t: Timestamp)
    requires Timely(q, b) && IsAllowedInStream(t) && (q != [] ==> t <= q[0].ts)
    ensures Timely(Rest(q, t), NextAllowed(t))
  {
  }

  // A row holds only packets of its own time.
  ghost predicate RowOk(r: Row, width: nat) {
    |r.cells| == width && forall i :: 0 <= i < width && r.cells[i].Some? ==> r.cells[i].value.ts == r.ts
  }

  /** The merge is ordered: row times strictly increase from `b` on, and each row holds packets of its own
      time only. */
  lemma {:induction false} MergeIsOrdered(qs: seq<seq<Packet>>, b: Timestamp)
    requires forall i :: 0 <= i < |qs| ==> Timely(qs[i], b)
    ensures forall k :: 0 <= k < |Merge(qs)| ==> Merge(qs)[k].ts >= b && RowOk(Merge(qs)[k], |qs|)
    ensures forall j, k :: 0 <= j < k < |Merge(qs)| ==> Merge(qs)[j].ts < Merge(qs)[k].ts
    decreases TotalSize(qs)
  {
    hide Merge, Timely, EarliestHead, TotalSize, RowAt, RestAt, RowOk;
    if AllEmpty(qs) {
      assert Merge(qs) == [] by { MergeOfNothing(qs); }
    } else {
      var t := EarliestHead(qs);
      MergeUnfolds(qs);
      RestIsTimely(qs, b);
      MergeIsOrdered(RestAt(qs, t), NextAllowed(t));
      RowIsOk(qs, t);
      RowInFront(RowAt(qs, t), Merge(RestAt(qs, t)), t, b, |qs|);
    }
  }

  lemma MergeOfNothing(qs: seq<seq<Packet>>)
    requires AllEmpty(qs)
    ensures Merge(qs) == []
  {
  }

  lemma RowIsOk(qs: seq<seq<Packet>>, t: Timestamp)
    ensures RowOk(RowAt(qs, t), |qs|)
  {
  }

  lemma RowInFront(r: Row, rows: seq<Row>, t: Timestamp, b: Timestamp, width: nat)
    requires r.ts == t && b <= t < NextAllowed(t) && RowOk(r, width)
    requires forall k :: 0 <= k < |rows| ==> rows[k].ts >= NextAllowed(t) && RowOk(rows[k], width)
    requires forall j, k :: 0 <= j < k < |rows| ==> rows[j].ts < rows[k].ts
    ensures forall k :: 0 <= k < |[r] + rows| ==> ([r] + rows)[k].ts >= b && RowOk(([r] + rows)[k], width)
    ensures forall j, k :: 0 <= j < k < |[r] + rows| ==> ([r] + rows)[j].ts < ([r] + rows)[k].ts
  {
    hide RowOk, NextAllowed;
  }

  /** The merge is faithful: reading one column of it gives back that stream, nothing lost or reordered. */
  lemma {:induction false} MergeIsFaithful(qs: seq<seq<Packet>>, i: nat)
    requires i < |qs|
    ensures Column(Merge(qs), i) == qs[i]
    decreases TotalSize(qs)
  {
    if !AllEmpty(qs) {
      var t := EarliestHead(qs);
      MergeUnfolds(qs);
      hide Merge, AllEmpty, EarliestHead, TotalSize, Column;
      MergeIsFaithful(RestAt(qs, t), i);
      ColumnOfRow(qs, t, Merge(RestAt(qs, t)), i);
    }
  }

  lemma ColumnOfRow(qs: seq<seq<Packet>>, t: Timestamp, rows: seq<Row>, i: nat)
    requires i < |qs| && Column(rows, i) == RestAt(qs, t)[i]
    ensures Column([RowAt(qs, t)] + rows, i) == qs[i]
  {
    assert ([RowAt(qs, t)] + rows)[1..] == rows;
  }

  // ------------------------------------------------------------------ the join under any arrivals

  datatype Event = Deliver(i: nat, pkts: seq<Packet>) | Advance(i: nat, b: Timestamp) | Attempt

  // Each stream's queue is timely and behind its bound.
  ghost predicate InboxOk(m: Inbox) {
    && !m.closed && Timely(m.queue, UNSET) && (forall k :: 0 <= k < |m.queue| ==> m.queue[k].ts < m.bound)
  }

  ghost predicate AllOk(ms: seq<Inbox>) {
    forall i :: 0 <= i < |ms| ==> InboxOk(ms[i])
  }

  // Producers only add allowed times at or above the bound.
  ghost predicate Allowed(ms: seq<Inbox>, ev: Event) {
    ev.Deliver? && ev.i < |ms| ==> Timely(ev.pkts, ms[ev.i].bound)
  }

  // FillInputSet at the join time, when ready.
  function Joined(ms: seq<Inbox>): (r: seq<Inbox>)
    ensures |r| == |ms|
  {
    seq(|ms|, i requires 0 <= i < |ms| => PoppedAt(ms[i], JoinTime(ms)))
  }

  function Queues(ms: seq<Inbox>): (qs: seq<seq<Packet>>)
    ensures |qs| == |ms|
  {
    seq(|ms|, i requires 0 <= i < |ms| => ms[i].queue)
  }

  function HandedOut(ms: seq<Inbox>): (r: Row)
    ensures |r.cells| == |ms|
  {
    Row(JoinTime(ms), seq(|ms|, i requires 0 <= i < |ms| =>
      match TakenAt(ms[i], JoinTime(ms)) case Hit(p) => Some(p) case Miss(_) => None))
  }

  function After(ms: seq<Inbox>, ev: Event): (r: seq<Inbox>)
    ensures |r| == |ms|
  {
    match ev
    case Deliver(i, pkts) => if i < |ms| then ms[i := Added(ms[i], pkts)] else ms
    case Advance(i, b) => if i < |ms| then ms[i := Raised(ms[i], b)] else ms
    case Attempt => if ReadinessOf(ms) == ReadyForProcess then Joined(ms) else ms
  }

  function AfterAll(ms: seq<Inbox>, evs: seq<Event>): (r: seq<Inbox>)
    ensures |r| == |ms|
    decreases |evs|
  {
    if evs == [] then ms else AfterAll(After(ms, evs[0]), evs[1..])
  }

  ghost predicate AllAllowed(ms: seq<Inbox>, evs: seq<Event>)
    decreases |evs|
  {
    evs == [] || (Allowed(ms, evs[0]) && AllAllowed(After(ms, evs[0]), evs[1..]))
  }

  // The rows the join hands out, and the packets that arrive, over the events.
  function Rows(ms: seq<Inbox>, evs: seq<Event>): (rows: seq<Row>)
    decreases |evs|
  {
    if evs == [] then []
    else (if evs[0].Attempt? && ReadinessOf(ms) == ReadyForProcess then [HandedOut(ms)] else []) + Rows(After(ms, evs[0]), evs[1..])
  }

  function Gain(i: nat, ev: Event): (q: seq<Packet>) {
    if ev.Deliver? && ev.i == i then ev.pkts else []
  }

  function Arrived(i: nat, evs: seq<Event>): (q: seq<Packet>)
    decreases |evs|
  {
    if evs == [] then [] else Gain(i, evs[0]) + Arrived(i, evs[1..])
  }

  // The queues with everything that is still to arrive behind them.
  function Complete(ms: seq<Inbox>, evs: seq<Event>): (qs: seq<seq<Packet>>)
    ensures |qs| == |ms|
  {
    seq(|ms|, i requires 0 <= i < |ms| => ms[i].queue + Arrived(i, evs))
  }

  /** One ready join pops exactly the heads of its time: nothing is dropped, no bound is raised. */
  lemma JoinTakesHeads(ms: seq<Inbox>)
    requires AllOk(ms) && ReadinessOf(ms) == ReadyForProcess
    ensures forall i :: 0 <= i < |ms| ==>
      && Joined(ms)[i] == ms[i].(queue := Rest(ms[i].queue, JoinTime(ms)))
      && DroppedAt(ms[i], JoinTime(ms)) == 0
    ensures HandedOut(ms) == RowAt(Queues(ms), JoinTime(ms))
    ensures AllOk(Joined(ms))
  {
    ReadyMeans(ms);
    var t := JoinTime(ms);
    forall i | 0 <= i < |ms|
      ensures Joined(ms)[i] == ms[i].(queue := Rest(ms[i].queue, t)) && DroppedAt(ms[i], t) == 0
      ensures HandedOut(ms).cells[i] == RowAt(Queues(ms), t).cells[i]
      ensures InboxOk(Joined(ms)[i])
    {
      assert InboxOk(ms[i]) && t <= Frontier(ms[i]);
      assert t != UNSET;
    }
  }

  lemma AfterOk(ms: seq<Inbox>, ev: Event)
    requires AllOk(ms) && Allowed(ms, ev)
    ensures AllOk(After(ms, ev))
    ensures forall i :: 0 <= i < |ms| ==> ms[i].bound <= After(ms, ev)[i].bound
  {
    match ev
    case Deliver(i, pkts) =>
      if i < |ms| && pkts != [] {
        assert InboxOk(ms[i]);
        assert InboxOk(Added(ms[i], pkts));
      }
    case Advance(i, b) => if i < |ms| { assert InboxOk(ms[i]); }
    case Attempt => if ReadinessOf(ms) == ReadyForProcess { JoinTakesHeads(ms); }
  }

  // What is still to arrive on a stream comes in order and at or above its bound.
  lemma {:induction false} FutureIsTimely(ms: seq<Inbox>, evs: seq<Event>, i: nat)
    requires AllOk(ms) && AllAllowed(ms, evs) && i < |ms|
    ensures Timely(Arrived(i, evs), ms[i].bound)
    decreases |evs|
  {
    if evs != [] {
      AfterOk(ms, evs[0]);
      FutureIsTimely(After(ms, evs[0]), evs[1..], i);
    }
  }

  // One stream at a ready join: nothing earlier can come, and what is of the join's time is at its head.
  lemma OneStreamAt(m: Inbox, future: seq<Packet>, t: Timestamp)
    requires t <= Frontier(m) && (m.queue == [] ==> m.bound > t) && Timely(future, m.bound)
    ensures var q := m.queue + future;
      && (q != [] ==> t <= q[0].ts) && Cell(q, t) == Cell(m.queue, t) && Rest(q, t) == Rest(m.queue, t) + future
  {
    if m.queue == [] {
      assert m.queue + future == future;
      assert [] + future == future;
    } else {
      assert (m.queue + future)[1..] == m.queue[1..] + future;
    }
  }

  lemma JoinOneStream(ms: seq<Inbox>, evs: seq<Event>, i: nat)
    requires AllOk(ms) && ReadinessOf(ms) == ReadyForProcess && AllAllowed(Joined(ms), evs) && i < |ms|
    ensures var t, q := JoinTime(ms), Complete(ms, evs)[i];
      && (q != [] ==> t <= q[0].ts)
      && Cell(q, t) == Cell(ms[i].queue, t)
      && Rest(q, t) == Complete(Joined(ms), evs)[i]
  {
    hide AllAllowed, AllOk, ReadinessOf, JoinTime, Arrived, Joined, HandedOut, InboxOk, Cell, Timely, Frontier;
    ReadyMeans(ms);
    JoinTakesHeads(ms);
    FutureIsTimely(Joined(ms), evs, i);
    assert JoinTime(ms) <= Frontier(ms[i]);
    OneStreamAt(ms[i], Arrived(i, evs), JoinTime(ms));
  }

  // The next row of the whole is the row the ready join hands out.
  lemma JoinIsNextRow(ms: seq<Inbox>, evs: seq<Event>)
    requires AllOk(ms) && ReadinessOf(ms) == ReadyForProcess && AllAllowed(Joined(ms), evs)
    ensures Merge(Complete(ms, evs)) == [HandedOut(ms)] + Merge(Complete(Joined(ms), evs))
  {
    hide AllAllowed, AllOk, ReadinessOf, JoinTime, Arrived, Joined, HandedOut, Merge, InboxOk, Complete, Rest, Cell;
    ReadyMeans(ms);
    JoinTakesHeads(ms);
    var t := JoinTime(ms);
    var qs: seq<seq<Packet>> := Complete(ms, evs);
    forall i: nat | i < |ms|
      ensures qs[i] != [] ==> t <= qs[i][0].ts
      ensures Cell(qs[i], t) == Cell(ms[i].queue, t)
      ensures Rest(qs[i], t) == Complete(Joined(ms), evs)[i]
    {
      JoinOneStream(ms, evs, i);
    }
    var h: nat :| h < |ms| && ms[h].queue != [] && ms[h].queue[0].ts == t;
    HeadOfWhole(ms, evs, h);
    NextRow(qs, t, h);
    assert RowAt(qs, t) == RowAt(Queues(ms), t);
    assert RestAt(qs, t) == Complete(Joined(ms), evs);
  }

  lemma NextRow(qs: seq<seq<Packet>>, t: Timestamp, h: nat)
    requires h < |qs| && qs[h] != [] && qs[h][0].ts == t && forall i :: 0 <= i < |qs| && qs[i] != [] ==> t <= qs[i][0].ts
    ensures Merge(qs) == [RowAt(qs, t)] + Merge(RestAt(qs, t))
  {
    assert !AllEmpty(qs) && EarliestHead(qs) == t;
    MergeUnfolds(qs);
  }

  lemma HeadOfWhole(ms: seq<Inbox>, evs: seq<Event>, h: nat)
    requires h < |ms| && ms[h].queue != []
    ensures var qs: seq<seq<Packet>> := Complete(ms, evs); qs[h] != [] && qs[h][0] == ms[h].queue[0]
  {
  }

  /** Deterministic join: whatever the interleaving of arrivals, bound updates and join attempts, the rows
      handed out so far, followed by the merge of what is still queued, are the merge of all that arrived. */
  lemma {:induction false} JoinIsCanonical(ms: seq<Inbox>, evs: seq<Event>)
    requires AllOk(ms) && AllAllowed(ms, evs)
    ensures Rows(ms, evs) + Merge(Queues(AfterAll(ms, evs))) == Merge(Complete(ms, evs))
    decreases |evs|
  {
    hide Merge, AllOk, ReadinessOf, Joined, HandedOut, Queues, Complete, Allowed, Arrived, Rows;
    if evs == [] {
      assert Rows(ms, evs) == [] by { NoRowsYet(ms); }
      NothingToCome(ms);
    } else {
      AfterOk(ms, evs[0]);
      JoinIsCanonical(After(ms, evs[0]), evs[1..]);
      OneMoreEvent(ms, evs, Merge(Queues(AfterAll(ms, evs))));
    }
  }

  lemma OneMoreEvent(ms: seq<Inbox>, evs: seq<Event>, tail: seq<Row>)
    requires AllOk(ms) && AllAllowed(ms, evs) && evs != []
    requires Rows(After(ms, evs[0]), evs[1..]) + tail == Merge(Complete(After(ms, evs[0]), evs[1..]))
    ensures Rows(ms, evs) + tail == Merge(Complete(ms, evs))
  {
    hide Merge, AllOk, Joined, HandedOut, Complete, Allowed, ReadinessOf, Rows, Arrived, AfterAll;
    CompleteKept(ms, evs);
    RowsUnfold(ms, evs);
    if evs[0].Attempt? && ReadinessOf(ms) == ReadyForProcess {
      assert After(ms, evs[0]) == Joined(ms);
      JoinIsNextRow(ms, evs[1..]);
      RowsAssociate([HandedOut(ms)], Rows(Joined(ms), evs[1..]), tail);
    }
  }

  lemma RowsUnfold(ms: seq<Inbox>, evs: seq<Event>)
    requires evs != []
    ensures Rows(ms, evs) ==
      if evs[0].Attempt? && ReadinessOf(ms) == ReadyForProcess then [HandedOut(ms)] + Rows(Joined(ms), evs[1..])
      else Rows(After(ms, evs[0]), evs[1..])
  {
    hide HandedOut, ReadinessOf, Joined;
  }

  lemma RowsAssociate(a: seq<Row>, b: seq<Row>, c: seq<Row>)
    ensures (a + b) + c == a + (b + c)
  {
  }

  lemma NoRowsYet(ms: seq<Inbox>)
    ensures Rows(ms, []) == []
  {
  }

  lemma NothingToCome(ms: seq<Inbox>)
    ensures Complete(ms, []) == Queues(ms)
  {
    forall i | 0 <= i < |ms| ensures Complete(ms, [])[i] == Queues(ms)[i] {
      assert ms[i].queue + [] == ms[i].queue;
    }
  }

  // Only a join takes anything out of the whole, and it delivers nothing.
  lemma CompleteKept(ms: seq<Inbox>, evs: seq<Event>)
    requires AllOk(ms) && evs != []
    ensures
      if evs[0].Attempt? && ReadinessOf(ms) == ReadyForProcess then Complete(ms, evs) == Complete(ms, evs[1..])
      else Complete(After(ms, evs[0]), evs[1..]) == Complete(ms, evs)
  {
    var joins := evs[0].Attempt? && ReadinessOf(ms) == ReadyForProcess;
    var ms' := if joins then ms else After(ms, evs[0]);
    forall i: nat | i < |ms| ensures ms'[i].queue + Arrived(i, evs[1..]) == ms[i].queue + Arrived(i, evs) {
      assert InboxOk(ms[i]);
      assert ms'[i].queue == ms[i].queue + Gain(i, evs[0]);
      Associates(ms[i].queue, Gain(i, evs[0]), Arrived(i, evs[1..]));
    }
    assert Complete(ms', evs[1..]) == Complete(ms, evs);
  }

  lemma Associates(a: seq<Packet>, b: seq<Packet>, c: seq<Packet>)
    ensures (a + b) + c == a + (b + c)
  {
  }

  /** ReadyForClose means everything was consumed, so the rows are the whole merge. */
  lemma CloseIsComplete(ms: seq<Inbox>, evs: seq<Event>)
    requires AllOk(ms) && AllAllowed(ms, evs) && ReadinessOf(AfterAll(ms, evs)) == ReadyForClose
    ensures AllEmpty(Queues(AfterAll(ms, evs)))
    ensures Rows(ms, evs) == Merge(Complete(ms, evs))
  {
    hide AllAllowed, ReadinessOf, AfterAll, Complete, Rows, Queues, JoinTime;
    JoinIsCanonical(ms, evs);
    AllOkAlways(ms, evs);
    ReadyMeans(AfterAll(ms, evs));
    ClosedIsEmpty(AfterAll(ms, evs));
  }

  lemma ClosedIsEmpty(ms: seq<Inbox>)
    requires AllOk(ms) && forall i :: 0 <= i < |ms| ==> Frontier(ms[i]) >= ONE_OVER_POST_STREAM
    ensures AllEmpty(Queues(ms))
  {
    forall i | 0 <= i < |ms| ensures Queues(ms)[i] == [] {
      assert InboxOk(ms[i]) && Frontier(ms[i]) >= ONE_OVER_POST_STREAM;
    }
  }

  lemma {:induction false} AllOkAlways(ms: seq<Inbox>, evs: seq<Event>)
    requires AllOk(ms) && AllAllowed(ms, evs)
    ensures AllOk(AfterAll(ms, evs))
    decreases |evs|
  {
    if evs != [] {
      AfterOk(ms, evs[0]);
      AllOkAlways(After(ms, evs[0]), evs[1..]);
    }
  }

  /** Two runs that receive the same streams and both reach the end hand out the same rows. */
  lemma JoinIsDeterministic(ms: seq<Inbox>, evs: seq<Event>, others: seq<Event>)
    requires AllOk(ms) && AllAllowed(ms, evs) && AllAllowed(ms, others)
    requires forall i :: 0 <= i < |ms| ==> Arrived(i, evs) == Arrived(i, others)
    requires ReadinessOf(AfterAll(ms, evs)) == ReadyForClose && ReadinessOf(AfterAll(ms, others)) == ReadyForClose
    ensures Rows(ms, evs) == Rows(ms, others)
  {
    CloseIsComplete(ms, evs);
    CloseIsComplete(ms, others);
    assert Complete(ms, evs) == Complete(ms, others);
  }

  /** At every moment the times handed out strictly increase, and the rows are a prefix of the merge of
      everything that will have arrived by any later moment. */
  lemma RowsArePrefix(ms: seq<Inbox>, evs: seq<Event>, more: seq<Event>)
    requires AllOk(ms) && AllAllowed(ms, evs + more)
    ensures Rows(ms, evs) <= Merge(Complete(ms, evs + more))
    ensures forall j, k :: 0 <= j < k < |Rows(ms, evs)| ==> Rows(ms, evs)[j].ts < Rows(ms, evs)[k].ts
  {
    RowsSplit(ms, evs, more);
    JoinIsCanonical(ms, evs + more);
    var qs := Complete(ms, evs + more);
    forall i | 0 <= i < |qs| ensures Timely(qs[i], UNSET) {
      FutureIsTimely(ms, evs + more, i);
      assert InboxOk(ms[i]);
    }
    MergeIsOrdered(qs, UNSET);
    assert forall k :: 0 <= k < |Rows(ms, evs)| ==> Rows(ms, evs)[k] == Merge(qs)[k];
  }

  lemma {:induction false} RowsSplit(ms: seq<Inbox>, evs: seq<Event>, more: seq<Event>)
    ensures Rows(ms, evs + more) == Rows(ms, evs) + Rows(AfterAll(ms, evs), more)
    decreases |evs|
  {
    if evs == [] {
      assert evs + more == more;
    } else {
      assert (evs + more)[0] == evs[0] && (evs + more)[1..] == evs[1..] + more;
      RowsSplit(After(ms, evs[0]), evs[1..], more);
    }
  }
}
