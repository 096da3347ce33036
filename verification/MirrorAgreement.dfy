/** All mirrors of one output manager agree: same delivered sequence, same bound, whatever the consumers
    have popped in the meantime. */
module MirrorAgreement {
  import opened Timestamps
  import opened StreamState

  /** One mirror: its consumer's queue and what the consumer has popped so far. */
  datatype Leg = Leg(inbox: Inbox, popped: seq<Packet>)

  /** An output manager and its mirrors. */
  datatype Fan = Fan(bound: Timestamp, closed: bool, legs: seq<Leg>)

  /** A propagation of one shard, a close, or a consumer taking its queue's head. */
  datatype Event = Publish(pkts: seq<Packet>, updated: Timestamp) | Finish | Pop(leg: nat)

  function Delivered(l: Leg): (r: seq<Packet>) {
    l.popped + l.inbox.queue
  }

  function SentTo(l: Leg, pkts: seq<Packet>, b: Timestamp): (r: Leg) {
    l.(inbox := Sent(l.inbox, pkts, b))
  }

  // PropagateUpdatesToMirrors with the bound that ComputeOutputTimestampBound returns.
  function Published(f: Fan, pkts: seq<Packet>, updated: Timestamp): (r: Fan)
    ensures |r.legs| == |f.legs|
  {
    var b := OutputBound(f.bound, pkts, updated);
    Fan(if b == UNSET then f.bound else b, f.closed,
        seq(|f.legs|, i requires 0 <= i < |f.legs| => SentTo(f.legs[i], pkts, b)))
  }

  function Finished(f: Fan): (r: Fan)
    ensures |r.legs| == |f.legs|
  {
    if f.closed then f
    else Fan(DONE, true, seq(|f.legs|, i requires 0 <= i < |f.legs| => f.legs[i].(inbox := Raised(f.legs[i].inbox, DONE))))
  }

  function PoppedLeg(l: Leg): (r: Leg)
    ensures Delivered(r) == Delivered(l)
  {
    if l.inbox.queue == [] then l else Leg(HeadPopped(l.inbox), l.popped + [l.inbox.queue[0]])
  }

  // PropagateOutputPackets skips a closed manager.
  function After(f: Fan, ev: Event): (r: Fan)
    ensures |r.legs| == |f.legs|
  {
    match ev
    case Publish(pkts, updated) => if f.closed then f else Published(f, pkts, updated)
    case Finish => Finished(f)
    case Pop(i) => if i < |f.legs| then f.(legs := f.legs[i := PoppedLeg(f.legs[i])]) else f
  }

  /** Every mirror delivered exactly `sent`, and shows the manager's bound raised to at least PreStream. */
  ghost predicate Agree(f: Fan, sent: seq<Packet>) {
    forall i :: 0 <= i < |f.legs| ==>
      Delivered(f.legs[i]) == sent && f.legs[i].inbox.bound == Later(f.bound, PRE_STREAM) && !f.legs[i].inbox.closed
  }

  // The one publication that moves a mirror's bound below PreStream: AddPackets overwrites the bound, and
  // neither the manager nor the shard has a later one to send.
  predicate Sinks(f: Fan, pkts: seq<Packet>, updated: Timestamp) {
    pkts != [] && LastTs(pkts) == UNSET && f.bound < PRE_STREAM && updated < PRE_STREAM
  }

  /** Publishing keeps the mirrors in agreement exactly when it does not sink below PreStream. */
  lemma PublishAgrees(f: Fan, sent: seq<Packet>, pkts: seq<Packet>, updated: Timestamp)
    requires Agree(f, sent) && f.legs != []
    ensures Agree(Published(f, pkts, updated), sent + pkts) <==> !Sinks(f, pkts, updated)
  {
    var r := Published(f, pkts, updated);
    forall i | 0 <= i < |f.legs| ensures Delivered(r.legs[i]) == sent + pkts {
      assert f.legs[i].popped + (f.legs[i].inbox.queue + pkts) == Delivered(f.legs[i]) + pkts;
    }
    if Sinks(f, pkts, updated) {
      assert r.legs[0].inbox.bound == UNSTARTED;
    }
  }

  lemma FinishAgrees(f: Fan, sent: seq<Packet>)
    requires Agree(f, sent) && (f.closed ==> f.bound == DONE)
    ensures Agree(Finished(f), sent) && Finished(f).closed && Finished(f).bound == DONE
  {
  }

  function AfterAll(f: Fan, evs: seq<Event>): (r: Fan)
    decreases |evs|
  {
    if evs == [] then f else AfterAll(After(f, evs[0]), evs[1..])
  }

  // What an open manager hands to its mirrors over the events.
  function SentBy(f: Fan, evs: seq<Event>): (r: seq<Packet>)
    decreases |evs|
  {
    if evs == [] then []
    else (if evs[0].Publish? && !f.closed then evs[0].pkts else []) + SentBy(After(f, evs[0]), evs[1..])
  }

  // No published packet carries the reserved Unset time.
  ghost predicate NoneUnset(evs: seq<Event>) {
    forall k :: 0 <= k < |evs| && evs[k].Publish? && evs[k].pkts != [] ==> LastTs(evs[k].pkts) != UNSET
  }

  /** Mirror agreement over any interleaving of publications, closes and consumers: all mirrors delivered
      the same packets in the same order, with the same bound, and that bound never goes back. */
  lemma {:induction false} MirrorsAlwaysAgree(f: Fan, sent: seq<Packet>, evs: seq<Event>)
    requires Agree(f, sent) && NoneUnset(evs) && (f.closed ==> f.bound == DONE)
    ensures Agree(AfterAll(f, evs), sent + SentBy(f, evs))
    ensures f.bound <= AfterAll(f, evs).bound
    ensures f.closed ==> SentBy(f, evs) == [] && AfterAll(f, evs).bound == DONE
    decreases |evs|
  {
    if evs == [] {
      assert sent + [] == sent;
    } else {
      var f' := After(f, evs[0]);
      var gained := if evs[0].Publish? && !f.closed then evs[0].pkts else [];
      AfterAgrees(f, sent, evs[0]);
      MirrorsAlwaysAgree(f', sent + gained, evs[1..]);
      assert sent + gained + SentBy(f', evs[1..]) == sent + (gained + SentBy(f', evs[1..]));
    }
  }

  lemma AfterAgrees(f: Fan, sent: seq<Packet>, ev: Event)
    requires Agree(f, sent) && (f.closed ==> f.bound == DONE)
    requires ev.Publish? && ev.pkts != [] ==> LastTs(ev.pkts) != UNSET
    ensures var f' := After(f, ev);
      && Agree(f', sent + if ev.Publish? && !f.closed then ev.pkts else [])
      && f.bound <= f'.bound && (f'.closed ==> f'.bound == DONE) && (f.closed ==> f'.closed)
  {
    assert sent + [] == sent;
    match ev
    case Publish(pkts, updated) =>
      if !f.closed && f.legs != [] {
        PublishAgrees(f, sent, pkts, updated);
      }
    case Finish => FinishAgrees(f, sent);
    case Pop(i) =>
      if i < |f.legs| {
        assert Delivered(PoppedLeg(f.legs[i])) == sent;
      }
  }

  // ------------------------------------------------------------------ the bound is no later than it must be

  // The time is ruled out neither by the manager's bound nor by what the shard holds or announces.
  ghost predicate LeavesOpen(bound: Timestamp, pkts: seq<Packet>, updated: Timestamp, u: Timestamp) {
    bound <= u && updated <= u && (pkts != [] ==> LastTs(pkts) < u)
  }

  /** A publication closes no time that it does not have to: on every mirror the bound stays at or below every
      time from PreStream on, short of Done, that the manager's bound, the last packet and the explicit bound
      leave open. */
  lemma PublishIsTight(f: Fan, sent: seq<Packet>, pkts: seq<Packet>, updated: Timestamp, u: Timestamp, i: nat)
    requires Agree(f, sent) && i < |f.legs| && PRE_STREAM <= u < DONE && LeavesOpen(f.bound, pkts, updated, u)
    ensures Published(f, pkts, updated).bound <= u && Published(f, pkts, updated).legs[i].inbox.bound <= u
  {
  }

  /** So after a publication with no later bound of its own, each mirror announces the next allowed time after
      the last packet, and a packet of that time is still in order. */
  lemma NextTimeStaysOpen(f: Fan, sent: seq<Packet>, pkts: seq<Packet>, updated: Timestamp, i: nat, u: Timestamp)
    requires Agree(f, sent) && i < |f.legs| && pkts != [] && PRE_STREAM <= NextAllowed(LastTs(pkts))
    requires f.bound <= NextAllowed(LastTs(pkts)) && updated <= NextAllowed(LastTs(pkts))
    ensures var b := Published(f, pkts, updated).legs[i].inbox.bound;
      && b == NextAllowed(LastTs(pkts)) == Published(f, pkts, updated).bound
      && (LastTs(pkts) < u < DONE ==> b <= u)
  {
  }

  // Every publication leaves the time open, and nothing is closed.
  ghost predicate AllLeaveOpen(evs: seq<Event>, u: Timestamp) {
    forall k :: 0 <= k < |evs| ==>
      !evs[k].Finish? && (evs[k].Publish? ==> evs[k].updated <= u && (evs[k].pkts != [] ==> LastTs(evs[k].pkts) < u))
  }

  /** Over any interleaving: a time that no publication ruled out is still open on every mirror. */
  lemma {:induction false} OpenTimesStayOpen(f: Fan, sent: seq<Packet>, evs: seq<Event>, u: Timestamp, i: nat)
    requires Agree(f, sent) && NoneUnset(evs) && (f.closed ==> f.bound == DONE) && i < |f.legs|
    requires PRE_STREAM <= u < DONE && f.bound <= u && AllLeaveOpen(evs, u)
    ensures AfterAll(f, evs).bound <= u && i < |AfterAll(f, evs).legs| && AfterAll(f, evs).legs[i].inbox.bound <= u
    decreases |evs|
  {
    if evs != [] {
      var f' := After(f, evs[0]);
      AfterAgrees(f, sent, evs[0]);
      if evs[0].Publish? && !f.closed {
        PublishIsTight(f, sent, evs[0].pkts, evs[0].updated, u, i);
      }
      assert f'.bound <= u;
      hide Agree;
      OpenTimesStayOpen(f', sent + (if evs[0].Publish? && !f.closed then evs[0].pkts else []), evs[1..], u, i);
    }
  }

  // ------------------------------------------------------------------ the bound is ahead of the packets

  ghost predicate NonDecreasing(pkts: seq<Packet>) {
    forall i, j :: 0 <= i < j < |pkts| ==> pkts[i].ts <= pkts[j].ts
  }

  // Every packet so far is earlier than the bound.
  ghost predicate Behind(pkts: seq<Packet>, b: Timestamp) {
    forall i :: 0 <= i < |pkts| ==> pkts[i].ts < b
  }

  /** If each shard's packets come in time order and none lies past PostStream, the bound exceeds every
      packet ever delivered. */
  lemma {:induction false} BoundExceedsDelivered(f: Fan, sent: seq<Packet>, evs: seq<Event>)
    requires Behind(sent, f.bound) && (f.closed ==> f.bound == DONE)
    requires forall k :: 0 <= k < |evs| && evs[k].Publish? ==>
      NonDecreasing(evs[k].pkts) && (evs[k].pkts != [] ==> LastTs(evs[k].pkts) <= POST_STREAM)
    ensures Behind(sent + SentBy(f, evs), AfterAll(f, evs).bound)
    decreases |evs|
  {
    if evs == [] {
      assert sent + [] == sent;
    } else {
      var f' := After(f, evs[0]);
      var gained := if evs[0].Publish? && !f.closed then evs[0].pkts else [];
      assert Behind(sent + gained, f'.bound);
      BoundExceedsDelivered(f', sent + gained, evs[1..]);
      assert sent + gained + SentBy(f', evs[1..]) == sent + (gained + SentBy(f', evs[1..]));
    }
  }
}
