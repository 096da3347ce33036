/** The stream objects: input managers with their queues, the handler that routes by mirror id, the
    per-run output shard, and the output manager that fans packets and bounds out to its mirrors. */
module Streams {
  import opened Timestamps
  import opened StreamState
  import opened Graphs

  class InputStreamManager {
    var queue: seq<Packet>
    var bound: Timestamp
    var closed: bool
    var arrivals: nat    // calls of the arrival callback

    ghost function State(): (m: Inbox)
      reads this
    {
      Inbox(queue, bound, closed)
    }

    constructor ()
      ensures State() == NEW_INBOX && arrivals == 0
    {
      queue, bound, closed, arrivals := [], PRE_STREAM, false, 0;
    }

    // The shared part of AddPackets and MovePackets: append, and move the bound past each packet.
    method Append(packets: seq<Packet>)
      requires !closed
      modifies this`queue, this`bound
      ensures State() == Added(old(State()), packets)
    {
      ghost var before := queue;
      for i := 0 to |packets|
        invariant !closed
        invariant State() == Added(old(State()), packets[..i])
      {
        bound := NextAllowed(packets[i].ts);
        queue := queue + [packets[i]];
        assert packets[..i + 1] == packets[..i] + [packets[i]];
      }
      assert packets[..|packets|] == packets;
    }

    method AddPackets(packets: seq<Packet>) returns (ok: bool, notify: bool)
      modifies this
      ensures State() == Added(old(State()), packets)
      ensures ok == !old(closed)
      ensures queue == (if ok then old(queue) + packets else old(queue)) && closed == old(closed)
      ensures bound == if ok && packets != [] then NextAllowed(packets[|packets| - 1].ts) else old(bound)
      ensures notify == (ok && old(queue) == [] && packets != [])
      ensures arrivals == old(arrivals) + (if notify then 1 else 0)
    {
      if closed {
        return false, false;
      }
      notify := queue == [] && packets != [];
      Append(packets);
      if notify {
        arrivals := arrivals + 1;
      }
      ok := true;
    }

    // The same state as AddPackets leaves, and the shard's list is emptied unless the stream is closed.
    method MovePackets(shard: OutputStreamShard) returns (ok: bool, notify: bool)
      modifies this, shard`queue
      ensures State() == Added(old(State()), old(shard.queue))
      ensures ok == !old(closed)
      ensures notify == (ok && old(queue) == [] && old(shard.queue) != [])
      ensures arrivals == old(arrivals) + (if notify then 1 else 0)
      ensures shard.queue == if ok then [] else old(shard.queue)
    {
      if closed {
        return false, false;
      }
      notify := queue == [] && shard.queue != [];
      Append(shard.queue);
      shard.queue := [];
      if notify {
        arrivals := arrivals + 1;
      }
      ok := true;
    }

    method SetNextTimestampBound(b: Timestamp)
      modifies this
      ensures State() == Raised(old(State()), b)
      ensures bound == (if b > old(bound) then b else old(bound)) && queue == old(queue) && closed == old(closed)
      ensures arrivals == old(arrivals) + (if b > old(bound) then 1 else 0)
    {
      if b > bound {
        bound := b;
        arrivals := arrivals + 1;
      }
    }

    method Close()
      modifies this
      ensures State() == if old(closed) then old(State()) else Inbox(old(queue), DONE, true)
      ensures arrivals == old(arrivals) + (if old(closed) then 0 else 1)
    {
      if closed { return; }
      closed := true;
      bound := DONE;
      arrivals := arrivals + 1;
    }

    // A frame and the end of the stream are separate signals: a call never reports both.
    method PopQueueHead() returns (p: Option<Packet>, done: bool)
      modifies this`queue
      ensures State() == HeadPopped(old(State()))
      ensures queue == if old(queue) == [] then [] else old(queue)[1..]
      ensures p == if old(queue) == [] then None else Some(old(queue)[0])
      ensures done == (p.None? && IsDone(State())) && !(p.Some? && done)
    {
      if queue == [] {
        return None, queue == [] && bound == DONE;
      }
      p := Some(queue[0]);
      queue := queue[1..];
      done := false;
    }

    method PopPacketAtTimestamp(t: Timestamp) returns (taken: Handout, dropped: int, done: bool)
      modifies this`queue, this`bound
      ensures State() == PoppedAt(old(State()), t)
      ensures taken == TakenAt(old(State()), t) && dropped == DroppedAt(old(State()), t)
      ensures done == (queue == [] && bound == DONE)
      // The head is popped exactly when it is due; handed out when it is of the asked time, dropped otherwise.
      ensures queue == if old(queue) != [] && old(queue)[0].ts <= t then old(queue)[1..] else old(queue)
      ensures old(queue) != [] && old(queue)[0].ts == t ==> taken == Hit(old(queue)[0]) && dropped == 0
      ensures old(queue) != [] && old(queue)[0].ts < t ==> taken.Miss? && dropped == 1
      ensures old(queue) == [] || old(queue)[0].ts > t ==> taken.Miss? && dropped == (if t == UNSET then -1 else 0)
      ensures taken.Miss? && t == UNSET ==> taken.settled == UNSET
      // A placeholder says how far the stream had settled: up to just before its next packet, or its old bound.
      ensures taken.Miss? && t != UNSET ==>
        taken.settled == PreviousAllowed(if queue != [] then queue[0].ts else old(bound))
      // The bound only moves to rule the asked time out, and goes back in one corner alone.
      ensures old(bound) > t ==> bound == old(bound)
      ensures old(bound) <= t ==> bound == NextAllowed(t)
      ensures bound < old(bound) <==> t == DONE && old(bound) == DONE
      ensures t <= POST_STREAM ==> bound > t && (queue == [] ==> Frontier(State()) > t)
    {
      dropped := -1;
      var current: Timestamp := UNSET;
      taken := Miss(UNSET);
      if queue != [] && queue[0].ts <= t {
        taken := Hit(queue[0]);
        current := queue[0].ts;
        queue := queue[1..];
        dropped := 0;
      }
      if current != t {
        taken := Miss(PreviousAllowed(if queue != [] then queue[0].ts else bound));
        dropped := dropped + 1;
      }
      if bound <= t {
        bound := NextAllowed(t);
      }
      done := queue == [] && bound == DONE;
    }

    method MinTimestampOrBound() returns (t: Timestamp, empty: bool)
      ensures t == Frontier(State()) && empty == (queue == [])
      ensures t == if queue != [] then queue[0].ts else bound
    {
      if queue != [] {
        return queue[0].ts, false;
      }
      return bound, true;
    }

    method PrepareForRun()
      modifies this
      ensures State() == NEW_INBOX && arrivals == old(arrivals)
    {
      queue, bound, closed := [], PRE_STREAM, false;
    }
  }

  /** DefaultInputStreamHandler: a mirror id is the index of the node's declared input. */
  class InputStreamHandler {
    const managers: seq<InputStreamManager>

    constructor (managers: seq<InputStreamManager>)
      ensures this.managers == managers
    {
      this.managers := managers;
    }

    predicate Routes(id: int) {
      0 <= id < |managers|
    }

    method AddPacketsToStream(id: int, packets: seq<Packet>) returns (ok: bool, notify: bool)
      modifies if Routes(id) then {managers[id]} else {}
      ensures !Routes(id) ==> !ok && !notify
      ensures Routes(id) ==>
        && managers[id].State() == Added(old(managers[id].State()), packets)
        && ok == !old(managers[id].closed)
        && notify == (ok && old(managers[id].queue) == [] && packets != [])
        && managers[id].arrivals == old(managers[id].arrivals) + (if notify then 1 else 0)
    {
      if id < 0 || id >= |managers| {
        return false, false;
      }
      ok, notify := managers[id].AddPackets(packets);
    }

    method MovePacketsToStream(id: int, shard: OutputStreamShard) returns (ok: bool, notify: bool)
      modifies if Routes(id) then {managers[id]} else {}, shard`queue
      ensures !Routes(id) ==> !ok && !notify && shard.queue == old(shard.queue)
      ensures Routes(id) ==>
        && managers[id].State() == Added(old(managers[id].State()), old(shard.queue))
        && ok == !old(managers[id].closed)
        && notify == (ok && old(managers[id].queue) == [] && old(shard.queue) != [])
        && managers[id].arrivals == old(managers[id].arrivals) + (if notify then 1 else 0)
        && shard.queue == if ok then [] else old(shard.queue)
    {
      if id < 0 || id >= |managers| {
        return false, false;
      }
      ok, notify := managers[id].MovePackets(shard);
    }

    method SetNextTimestampBound(id: int, b: Timestamp)
      modifies if Routes(id) then {managers[id]} else {}
      ensures Routes(id) ==>
        && managers[id].State() == Raised(old(managers[id].State()), b)
        && managers[id].arrivals == old(managers[id].arrivals) + (if b > old(managers[id].bound) then 1 else 0)
    {
      if id >= 0 && id < |managers| {
        managers[id].SetNextTimestampBound(b);
      }
    }
  }

  /** What one Process call writes to one output port. */
  class OutputStreamShard {
    var queue: seq<Packet>
    var closed: bool
    var bound: Timestamp
    var updated: Timestamp

    constructor ()
      ensures queue == [] && !closed && bound == UNSET && updated == UNSET
    {
      queue, closed, bound, updated := [], false, UNSET, UNSET;
    }

    method Reset(b: Timestamp, close: bool)
      modifies this
      ensures queue == [] && bound == b && updated == UNSET && closed == close
    {
      queue, bound, updated, closed := [], b, UNSET, close;
    }

    // A closed shard accepts nothing; an empty packet only moves the bound.
    method AddPacket(payload: Option<nat>, ts: Timestamp)
      modifies this
      ensures closed == old(closed)
      ensures old(closed) ==> queue == old(queue) && bound == old(bound) && updated == old(updated)
      ensures !old(closed) ==> bound == updated == NextAllowed(ts)
      ensures !old(closed) ==> queue == old(queue) + (if payload.Some? then [Packet(payload.value, ts)] else [])
    {
      if closed { return; }
      if payload.None? {
        SetNextTimestampBound(NextAllowed(ts));
        return;
      }
      bound := NextAllowed(ts);
      updated := bound;
      queue := queue + [Packet(payload.value, ts)];
    }

    method SetNextTimestampBound(b: Timestamp)
      modifies this
      ensures bound == updated == b && queue == old(queue) && closed == old(closed)
    {
      bound := b;
      updated := b;
    }

    method Close()
      modifies this
      ensures closed && bound == updated == DONE && queue == old(queue)
    {
      closed := true;
      bound := DONE;
      updated := DONE;
    }

    method LastAddedPacketTimestamp() returns (t: Timestamp)
      ensures t == if queue == [] then UNSET else LastTs(queue)
    {
      if queue == [] {
        return UNSET;
      }
      return queue[|queue| - 1].ts;
    }
  }

  datatype Mirror = Mirror(handler: InputStreamHandler, id: int)

  class OutputStreamManager {
    var mirrors: seq<Mirror>
    var bound: Timestamp
    var closed: bool
    const offset: Option<int>   // the stream's timestamp offset, when one is enabled

    constructor (offset: Option<int>)
      ensures mirrors == [] && bound == UNSET && !closed && Valid() && this.offset == offset
    {
      mirrors, bound, closed := [], UNSET, false;
      this.offset := offset;
    }

    static ghost function Target(m: Mirror): (r: InputStreamManager)
      requires m.handler.Routes(m.id)
    {
      m.handler.managers[m.id]
    }

    static ghost predicate Routed(ms: seq<Mirror>) {
      forall k :: 0 <= k < |ms| ==> ms[k].handler.Routes(ms[k].id)
    }

    static ghost function TargetsOf(ms: seq<Mirror>): (r: seq<InputStreamManager>)
      requires Routed(ms)
      ensures |r| == |ms|
      ensures forall k :: 0 <= k < |r| ==> r[k] == Target(ms[k])
    {
      seq(|ms|, k requires 0 <= k < |ms| && Routed(ms) => Target(ms[k]))
    }

    // Every mirror routes to a manager of its own.
    static ghost predicate OneEach(ms: seq<Mirror>) {
      Routed(ms) && forall j, k :: 0 <= j < k < |ms| ==> TargetsOf(ms)[j] != TargetsOf(ms)[k]
    }

    ghost predicate Valid()
      reads this`mirrors
    {
      OneEach(mirrors)
    }

    // The consumers' managers, in mirror order.
    ghost function Targets(): (r: seq<InputStreamManager>)
      requires Valid()
      reads this`mirrors
      ensures forall j, k :: 0 <= j < k < |r| ==> r[j] != r[k]
    {
      TargetsOf(mirrors)
    }

    /** Any pair is appended. The mirrors stay one to a manager exactly when this one routes to a new manager,
        as the mirror tables of a built graph guarantee. */
    method AddMirror(handler: InputStreamHandler, id: int)
      modifies this`mirrors
      ensures mirrors == old(mirrors) + [Mirror(handler, id)]
      ensures Valid() <==> old(Valid()) && handler.Routes(id) && Target(Mirror(handler, id)) !in old(Targets())
      ensures Valid() ==> Targets() == old(Targets()) + [Target(Mirror(handler, id))]
    {
      ghost var before := mirrors;
      mirrors := mirrors + [Mirror(handler, id)];
      ValidAppend(before, Mirror(handler, id));
    }

    static lemma ValidAppend(ms: seq<Mirror>, m: Mirror)
      ensures OneEach(ms + [m]) <==> OneEach(ms) && m.handler.Routes(m.id) && Target(m) !in TargetsOf(ms)
      ensures OneEach(ms + [m]) ==> TargetsOf(ms + [m]) == TargetsOf(ms) + [Target(m)]
    {
      var all := ms + [m];
      assert forall k :: 0 <= k < |ms| ==> all[k] == ms[k];
      assert all[|ms|] == m;
      if OneEach(all) {
        forall k | 0 <= k < |ms| ensures ms[k].handler.Routes(ms[k].id) { assert all[k] == ms[k]; }
        assert Routed(ms);
        forall j, k | 0 <= j < k < |ms| ensures TargetsOf(ms)[j] != TargetsOf(ms)[k] {
          assert TargetsOf(all)[j] != TargetsOf(all)[k];
        }
        forall k | 0 <= k < |ms| ensures TargetsOf(ms)[k] != Target(m) {
          assert TargetsOf(all)[k] != TargetsOf(all)[|ms|];
        }
      }
    }

    // What the new bound is drawn from.
    predicate Candidate(shard: OutputStreamShard, inputTime: Timestamp, b: Timestamp)
      reads this, shard
    {
      || b == bound || b == shard.updated
      || (shard.queue != [] && b == NextAllowed(LastTs(shard.queue)))
      || (offset.Some? && b == OffsetBound(inputTime, offset.value))
    }

    /** The latest of the manager's bound, what the offset promises for this input time, what follows the
        shard's last packet, and the shard's explicit bound: one of them, and none is later. */
    method ComputeOutputTimestampBound(shard: OutputStreamShard, inputTime: Timestamp) returns (b: Timestamp)
      ensures Candidate(shard, inputTime, b) && forall c: Timestamp :: Candidate(shard, inputTime, c) ==> c <= b
      ensures offset.None? ==> b == OutputBound(bound, shard.queue, shard.updated)
      ensures offset.Some? ==> b == Later(OutputBound(bound, shard.queue, shard.updated), OffsetBound(inputTime, offset.value))
    {
      b := bound;
      if offset.Some? && OffsetBound(inputTime, offset.value) > b {
        b := OffsetBound(inputTime, offset.value);
      }
      if shard.queue != [] {
        var last := shard.LastAddedPacketTimestamp();
        if NextAllowed(last) > b {
          b := NextAllowed(last);
        }
      }
      if shard.updated > b {
        b := shard.updated;
      }
    }

    // One turn of the propagation loop: hand over the packets, moving them to the last mirror, then the bound.
    method SendTo(mirror: Mirror, last: bool, nextBound: Timestamp, setBound: bool, shard: OutputStreamShard)
      requires mirror.handler.Routes(mirror.id) && setBound == SendsBound(shard.queue, nextBound)
      modifies Target(mirror), shard`queue
      ensures Target(mirror).State() == Sent(old(Target(mirror).State()), old(shard.queue), nextBound)
      ensures !last ==> shard.queue == old(shard.queue)
    {
      if shard.queue != [] {
        if last {
          var _, _ := mirror.handler.MovePacketsToStream(mirror.id, shard);
        } else {
          var _, _ := mirror.handler.AddPacketsToStream(mirror.id, shard.queue);
        }
      }
      if setBound {
        mirror.handler.SetNextTimestampBound(mirror.id, nextBound);
      }
    }

    /** Every mirror, whatever its position, receives the same packets in order and the same bound. */
    method PropagateUpdatesToMirrors(nextBound: Timestamp, shard: OutputStreamShard)
      requires Valid()
      modifies this`bound, shard`queue, Targets()
      ensures Valid() && Targets() == old(Targets()) && shard.queue == []
      ensures bound == if nextBound == UNSET then old(bound) else nextBound
      ensures forall k :: 0 <= k < |Targets()| ==>
        Targets()[k].State() == Sent(old(Targets()[k].State()), old(shard.queue), nextBound)
    {
      ghost var packets, targets := shard.queue, Targets();
      if nextBound != UNSET {
        bound := nextBound;
      }
      var lastTs := shard.LastAddedPacketTimestamp();
      var setBound := nextBound != UNSET && (shard.queue == [] || NextAllowed(lastTs) != nextBound);
      for idx := 0 to |mirrors|
        invariant idx < |mirrors| ==> shard.queue == packets
        invariant bound == if nextBound == UNSET then old(bound) else nextBound
        invariant forall k :: 0 <= k < idx ==> targets[k].State() == Sent(old(targets[k].State()), packets, nextBound)
        invariant forall k :: idx <= k < |targets| ==> targets[k].State() == old(targets[k].State())
      {
        assert targets[idx] == Target(mirrors[idx]);
        SendTo(mirrors[idx], idx == |mirrors| - 1, nextBound, setBound, shard);
      }
      shard.queue := [];
    }

    method Close()
      requires Valid()
      modifies this`bound, this`closed, Targets()
      ensures Valid() && closed && Targets() == old(Targets())
      ensures bound == if old(closed) then old(bound) else DONE
      ensures forall k :: 0 <= k < |Targets()| ==>
        Targets()[k].State() ==
          if old(closed) then old(Targets()[k].State()) else Raised(old(Targets()[k].State()), DONE)
    {
      if closed { return; }
      ghost var targets := Targets();
      closed := true;
      bound := DONE;
      for idx := 0 to |mirrors|
        invariant closed && bound == DONE
        invariant forall k :: 0 <= k < idx ==> targets[k].State() == Raised(old(targets[k].State()), DONE)
        invariant forall k :: idx <= k < |targets| ==> targets[k].State() == old(targets[k].State())
      {
        assert targets[idx] == Target(mirrors[idx]);
        mirrors[idx].handler.SetNextTimestampBound(mirrors[idx].id, DONE);
      }
    }

    method ResetShard(shard: OutputStreamShard)
      modifies shard
      ensures shard.queue == [] && shard.bound == bound && shard.updated == UNSET && shard.closed == closed
    {
      shard.Reset(bound, closed);
    }
  }
}
