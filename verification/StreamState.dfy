/** Values and transitions of one stream, from the producer's manager to a consumer's queue. */
module StreamState {
  import opened Timestamps

  /** A packet is an opaque payload identity and a timestamp. */
  datatype Packet = Packet(payload: nat, ts: Timestamp)

  function LastTs(pkts: seq<Packet>): (t: Timestamp)
    requires pkts != []
  {
    pkts[|pkts| - 1].ts
  }

  /** InputStreamManager: the queue one consumer owns for one input edge. */
  datatype Inbox = Inbox(queue: seq<Packet>, bound: Timestamp, closed: bool)

  const NEW_INBOX := Inbox([], PRE_STREAM, false)

  // AddPackets and MovePackets leave the inbox in the same state; the bound is overwritten, not raised.
  function Added(m: Inbox, pkts: seq<Packet>): (r: Inbox) {
    if m.closed || pkts == [] then m
    else m.(queue := m.queue + pkts, bound := NextAllowed(LastTs(pkts)))
  }

  function Raised(m: Inbox, b: Timestamp): (r: Inbox) {
    if b > m.bound then m.(bound := b) else m
  }

  function HeadPopped(m: Inbox): (r: Inbox) {
    if m.queue == [] then m else m.(queue := m.queue[1..])
  }

  /** What PopPacketAtTimestamp hands out: the packet of that time, or an empty one saying how far the
      stream has settled. */
  datatype Handout = Hit(packet: Packet) | Miss(settled: Timestamp)

  predicate HeadDue(m: Inbox, t: Timestamp) {
    m.queue != [] && m.queue[0].ts <= t
  }

  // The earliest time at which the stream may still produce a packet.
  function Frontier(m: Inbox): (t: Timestamp) {
    if m.queue != [] then m.queue[0].ts else m.bound
  }

  function PoppedAt(m: Inbox, t: Timestamp): (r: Inbox) {
    var n := if HeadDue(m, t) then HeadPopped(m) else m;
    if n.bound <= t then n.(bound := NextAllowed(t)) else n
  }

  // Asking an undue stream for Unset compares equal to "nothing popped" and skips the placeholder.
  function TakenAt(m: Inbox, t: Timestamp): (r: Handout) {
    if HeadDue(m, t) then if m.queue[0].ts == t then Hit(m.queue[0]) else Miss(PreviousAllowed(Frontier(HeadPopped(m))))
    else if t == UNSET then Miss(UNSET)
    else Miss(PreviousAllowed(Frontier(m)))
  }

  // num_packets_dropped starts at -1, is 0 after a pop, and one more when the packet was not the asked one.
  function DroppedAt(m: Inbox, t: Timestamp): (r: int) {
    if HeadDue(m, t) then if m.queue[0].ts == t then 0 else 1
    else if t == UNSET then -1
    else 0
  }

  predicate IsDone(m: Inbox) {
    m.queue == [] && m.bound == DONE
  }

  /** OutputStreamManager::ComputeOutputTimestampBound, offsets disabled. */
  function OutputBound(bound: Timestamp, pkts: seq<Packet>, updated: Timestamp): (r: Timestamp)
    ensures bound <= r && updated <= r
    ensures pkts != [] ==> NextAllowed(LastTs(pkts)) <= r
    ensures r == DONE ==> bound == DONE || updated == DONE
    ensures r == bound || r == updated || (pkts != [] && r == NextAllowed(LastTs(pkts)))
  {
    var b := if pkts == [] then bound else Later(bound, NextAllowed(LastTs(pkts)));
    Later(b, updated)
  }

  // What a stream with this offset promises once the input time is processed; the sum stops at Max.
  function OffsetBound(t: Timestamp, offset: int): (r: Timestamp)
    ensures offset > 0 ==> r <= MAX && r <= t + offset && (r == MAX || r == t + offset)
    ensures offset <= 0 ==> r == NextAllowed(t)
  {
    if offset > 0 then (if t + offset < MAX then t + offset else MAX) else NextAllowed(t)
  }

  // Whether PropagateUpdatesToMirrors sends the bound separately from the packets.
  predicate SendsBound(pkts: seq<Packet>, b: Timestamp) {
    b != UNSET && (pkts == [] || NextAllowed(LastTs(pkts)) != b)
  }

  // What one mirror receives from PropagateUpdatesToMirrors.
  function Sent(m: Inbox, pkts: seq<Packet>, b: Timestamp): (r: Inbox) {
    var n := Added(m, pkts);
    if SendsBound(pkts, b) then Raised(n, b) else n
  }

  // CheckTimestamp, the guard of both packet-adding methods, rejects nothing.
  lemma CheckTimestampAcceptsAll(t: Timestamp)
    ensures IsAllowedInStream(t) || IsSpecialValue(t)
  {
  }
}
