/** The SchedulerQueue object: a priority queue of node invocations under an in-flight limit. Its methods
    refine the transitions that the engine interleaves. */
module SchedulerQueues {
  import opened RunQueueState

  /** A waiting invocation. */
  datatype Item = Item(node: nat, isOpen: bool, isSource: bool, layer: int, id: int)

  // Item::operator<: `a` has lower priority than `b`.
  predicate Less(a: Item, b: Item) {
    if a.isOpen != b.isOpen then b.isOpen
    else if a.isSource != b.isSource then b.isSource
    else if a.isSource then if a.layer != b.layer then a.layer > b.layer else a.id > b.id
    else a.id < b.id
  }

  // Neither has priority over the other.
  predicate Tied(a: Item, b: Item) {
    !Less(a, b) && !Less(b, a)
  }

  /** The order the priority queue needs: a strict weak order. It is transitive, asymmetric, and being tied
      is transitive; two items tie exactly when they agree on everything the order looks at. */
  lemma PriorityIsStrictWeak(a: Item, b: Item, c: Item)
    ensures !(Less(a, b) && Less(b, a))
    ensures Less(a, b) && Less(b, c) ==> Less(a, c)
    ensures Tied(a, b) && Tied(b, c) ==> Tied(a, c)
    ensures Less(a, b) ==> Less(a, c) || Less(c, b)
    ensures Tied(a, b) <==> a.isOpen == b.isOpen && a.isSource == b.isSource && a.id == b.id && (a.isSource ==> a.layer == b.layer)
  {
  }

  // Nothing that waits has priority over `top`.
  ghost predicate IsTop(waiting: seq<Item>, top: Item) {
    forall i :: 0 <= i < |waiting| ==> !Less(top, waiting[i])
  }

  // An item of the same kind, by openness and by having inputs or not.
  ghost predicate Waits(waiting: seq<Item>, isOpen: bool, isSource: bool) {
    exists i :: 0 <= i < |waiting| && waiting[i].isOpen == isOpen && waiting[i].isSource == isSource
  }

  /** What the order means for the item popped: it opens a node if any waiting item does; among items equally
      open it is a non-source exactly when no source waits; sources go by lower layer, then lower id, and
      non-sources by higher id. */
  lemma TopMeans(waiting: seq<Item>, top: Item)
    requires top in waiting
    ensures IsTop(waiting, top) <==>
      forall i :: 0 <= i < |waiting| ==>
        && (waiting[i].isOpen ==> top.isOpen)
        && (waiting[i].isOpen == top.isOpen && waiting[i].isSource ==> top.isSource)
        && (waiting[i].isOpen == top.isOpen && waiting[i].isSource && top.isSource ==>
              top.layer < waiting[i].layer || (top.layer == waiting[i].layer && top.id <= waiting[i].id))
        && (waiting[i].isOpen == top.isOpen && !waiting[i].isSource && !top.isSource ==> waiting[i].id <= top.id)
    ensures IsTop(waiting, top) ==> (top.isSource <==> Waits(waiting, top.isOpen, true))
  {
    var k :| 0 <= k < |waiting| && waiting[k] == top;
    if IsTop(waiting, top) && Waits(waiting, top.isOpen, true) {
      var i :| 0 <= i < |waiting| && waiting[i].isOpen == top.isOpen && waiting[i].isSource;
      assert !Less(top, waiting[i]);
    }
  }

  /** The order the comment beside operator< announces, non-sources before sources, is kept by a pop exactly
      when the items that are as open as the popped one do not mix the two kinds. */
  lemma NonSourcesFirst(waiting: seq<Item>, top: Item)
    requires top in waiting && IsTop(waiting, top)
    ensures (Waits(waiting, top.isOpen, false) ==> !top.isSource) <==>
      !(Waits(waiting, top.isOpen, false) && Waits(waiting, top.isOpen, true))
  {
    TopMeans(waiting, top);
  }

  // A waiting non-source and a waiting source: the source is the top.
  lemma SourceGoesFirst(a: Item, b: Item)
    requires a.isOpen == b.isOpen && !a.isSource && b.isSource
    ensures IsTop([a, b], b) && !IsTop([a, b], a)
  {
    assert Less([a, b][0], [a, b][1]);
  }

  ghost function NodesOf(s: seq<Item>): (r: multiset<nat>) {
    if s == [] then multiset{} else NodesOf(s[..|s| - 1]) + multiset{s[|s| - 1].node}
  }

  lemma NodesAppend(s: seq<Item>, item: Item)
    ensures NodesOf(s + [item]) == NodesOf(s) + multiset{item.node}
  {
    assert (s + [item])[..|s|] == s;
  }

  lemma SwapOut(a: multiset<nat>, x: nat, y: nat)
    requires y in a
    ensures (a - multiset{y}) + multiset{x} == (a + multiset{x}) - multiset{y}
  {
  }

  function Without(s: seq<Item>, i: nat): (r: seq<Item>)
    requires i < |s|
  {
    s[..i] + s[i + 1..]
  }

  lemma {:induction false} NodesWithout(s: seq<Item>, i: nat)
    requires i < |s|
    ensures s[i].node in NodesOf(s) && NodesOf(Without(s, i)) == NodesOf(s) - multiset{s[i].node}
  {
    var n := |s| - 1;
    assert s == s[..n] + [s[n]];
    NodesAppend(s[..n], s[n]);
    if i == n {
      assert Without(s, i) == s[..n];
    } else {
      NodesWithout(s[..n], i);
      assert Without(s, i) == Without(s[..n], i) + [s[n]];
      hide NodesOf, Without;
      NodesAppend(Without(s[..n], i), s[n]);
      SwapOut(NodesOf(s[..n]), s[n].node, s[i].node);
    }
  }

  lemma {:induction false} EmptyNodes(s: seq<Item>)
    ensures NodesOf(s) == multiset{} <==> s == []
  {
    if s != [] {
      assert s[|s| - 1].node in NodesOf(s);
    }
  }

  /** The part of a Node the queue touches. */
  class Node {
    const index: nat
    const isSource: bool
    const layer: int
    const id: int
    const maxInFlight: int
    var pendingCount: int

    constructor (index: nat, isSource: bool, layer: int, id: int, maxInFlight: int)
      ensures this.index == index && this.isSource == isSource && this.layer == layer && this.id == id
      ensures this.maxInFlight == maxInFlight && pendingCount == 0
    {
      this.index, this.isSource, this.layer, this.id, this.maxInFlight := index, isSource, layer, id, maxInFlight;
      pendingCount := 0;
    }
  }

  class SchedulerQueue {
    var queue: seq<Item>
    var numPendingTasks: nat
    var running: bool
    var hasExecutor: bool
    var submitted: nat          // tasks handed to the executor
    var closePending: set<nat>
    var finalizedNodes: set<nat>

    ghost function State(): (q: RunQueue)
      reads this
    {
      RunQueue(NodesOf(queue), numPendingTasks, running, closePending, finalizedNodes)
    }

    constructor (hasExecutor: bool)
      ensures State() == RunQueue(multiset{}, 0, false, {}, {})
      ensures submitted == 0 && this.hasExecutor == hasExecutor
    {
      queue, numPendingTasks, running, submitted := [], 0, false, 0;
      closePending, finalizedNodes := {}, {};
      this.hasExecutor := hasExecutor;
    }

    method SubmitToExecutor()
      modifies this`numPendingTasks, this`submitted
      ensures State() == if hasExecutor then Submitted(old(State())) else old(State())
      ensures submitted == old(submitted) + (if hasExecutor then 1 else 0)
    {
      if !hasExecutor { return; }
      numPendingTasks := numPendingTasks + 1;
      submitted := submitted + 1;
    }

    method SetRunning(r: bool)
      modifies this`running, this`numPendingTasks, this`submitted
      ensures var q := old(State()).(running := r);
        && State() == (if WantsWorker(q) && hasExecutor then Submitted(q) else q)
        && submitted == old(submitted) + (if WantsWorker(q) && hasExecutor then 1 else 0)
    {
      EmptyNodes(queue);
      running := r;
      if running && queue != [] {
        SubmitToExecutor();
      }
    }

    /** A node at its limit is left alone; otherwise it is queued, counted in flight, and work is submitted. */
    method AddNode(node: Node) returns (queued: bool)
      modifies this`queue, this`numPendingTasks, this`submitted, node`pendingCount
      ensures queued == (old(node.pendingCount) < node.maxInFlight)
      ensures node.pendingCount == old(node.pendingCount) + (if queued then 1 else 0)
      ensures State() ==
        if !queued then old(State())
        else if running && hasExecutor then Submitted(Pushed(old(State()), node.index))
        else Pushed(old(State()), node.index)
      ensures old(node.pendingCount) <= node.maxInFlight ==> node.pendingCount <= node.maxInFlight
      ensures queue == old(queue) + if queued then [Item(node.index, false, node.isSource, node.layer, node.id)] else []
      ensures submitted == old(submitted) + (if queued && running && hasExecutor then 1 else 0)
    {
      if node.pendingCount >= node.maxInFlight {
        return false;
      }
      node.pendingCount := node.pendingCount + 1;
      var item := Item(node.index, false, node.isSource, node.layer, node.id);
      NodesAppend(queue, item);
      assert NodesOf(queue + [item]) == NodesOf(queue)[item.node := NodesOf(queue)[item.node] + 1];
      hide NodesOf;
      queue := queue + [item];
      if running {
        SubmitToExecutor();
      }
      queued := true;
    }

    // std::priority_queue::top and pop.
    method TryPop() returns (ok: bool, item: Item)
      modifies this`queue
      ensures ok == (old(queue) != [])
      ensures !ok ==> queue == old(queue)
      ensures ok ==> item.node in old(State()).items && State() == Taken(old(State()), item.node)
      ensures ok ==> item in old(queue) && IsTop(old(queue), item)
      ensures ok ==> exists i: nat :: i < |old(queue)| && item == old(queue)[i] && queue == Without(old(queue), i)
    {
      item := Item(0, false, false, 0, 0);
      if queue == [] {
        return false, item;
      }
      var best := 0;
      for i := 1 to |queue|
        invariant best < i
        invariant forall k :: 0 <= k < i ==> !Less(queue[best], queue[k])
      {
        if Less(queue[best], queue[i]) {
          forall k | 0 <= k < i ensures !Less(queue[i], queue[k]) {
            PriorityIsStrictWeak(queue[best], queue[i], queue[k]);
          }
          best := i;
        }
      }
      item := queue[best];
      NodesWithout(queue, best);
      queue := Without(queue, best);
      ok := true;
    }

    method OnTaskFinished()
      modifies this`numPendingTasks, this`submitted
      ensures var q := TaskDone(old(State()));
        && State() == (if WantsWorker(q) && hasExecutor then Submitted(q) else q)
        && submitted == old(submitted) + (if WantsWorker(q) && hasExecutor then 1 else 0)
    {
      EmptyNodes(queue);
      if numPendingTasks > 0 {
        numPendingTasks := numPendingTasks - 1;
      }
      if running && queue != [] {
        SubmitToExecutor();
      }
    }

    method SubmitWaitingTasksToExecutor()
      modifies this`numPendingTasks, this`submitted
      ensures State() == if WantsWorker(old(State())) && hasExecutor then Submitted(old(State())) else old(State())
      ensures submitted == old(submitted) + (if WantsWorker(old(State())) && hasExecutor then 1 else 0)
    {
      EmptyNodes(queue);
      if running && queue != [] {
        SubmitToExecutor();
      }
    }

    // The close_pending_ / finalized_nodes_ section of RunNode.
    method DecideFinalize(node: nat, hasInputs: bool, allInputsDone: bool) returns (action: FinalizeAction)
      modifies this`closePending, this`finalizedNodes
      ensures action == FinalizeChoice(old(State()), node, hasInputs, allInputsDone)
      ensures State() == Decided(old(State()), node, hasInputs, allInputsDone)
    {
      action := Nothing;
      if hasInputs && allInputsDone && node !in finalizedNodes {
        if node !in closePending {
          closePending := closePending + {node};
          action := Reschedule;
        } else {
          closePending := closePending - {node};
          finalizedNodes := finalizedNodes + {node};
          action := CloseNow;
        }
      }
    }

    method IsIdleNow() returns (idle: bool)
      ensures idle == IsIdle(State())
    {
      EmptyNodes(queue);
      idle := queue == [] && numPendingTasks == 0;
    }

    method IsFinalized(node: nat) returns (r: bool)
      ensures r == (node in State().finalized)
    {
      r := node in finalizedNodes;
    }
  }

  // ------------------------------------------------------------------ the finalize sequence of one node

  // What one node's runs decide, given whether each found all inputs done.
  ghost function Actions(q: RunQueue, v: nat, runs: seq<bool>): (r: seq<FinalizeAction>)
    decreases |runs|
  {
    if runs == [] then []
    else [FinalizeChoice(q, v, true, runs[0])] + Actions(Decided(q, v, true, runs[0]), v, runs[1..])
  }

  /** Whatever else runs in between, a node's runs ask for one more at most once, close at most once, and
      close only after asking; a run that finds an input open does neither. */
  lemma {:induction false} FinalizeSequence(q: RunQueue, v: nat, runs: seq<bool>)
    ensures var acts := Actions(q, v, runs);
      && |acts| == |runs|
      && (forall i :: 0 <= i < |acts| && acts[i] != Nothing ==> runs[i])
      && (forall i, j :: 0 <= i < j < |acts| && acts[i] == acts[j] ==> acts[i] == Nothing)
      && (v in q.finalized ==> forall i :: 0 <= i < |acts| ==> acts[i] == Nothing)
      && (v in q.closePending ==> forall i :: 0 <= i < |acts| ==> acts[i] != Reschedule)
      && (forall j :: 0 <= j < |acts| && acts[j] == CloseNow && v !in q.closePending ==>
            exists i :: 0 <= i < j && acts[i] == Reschedule)
    decreases |runs|
  {
    if runs != [] {
      var acts, next := Actions(q, v, runs), Decided(q, v, true, runs[0]);
      FinalizeSequence(next, v, runs[1..]);
      var rest := Actions(next, v, runs[1..]);
      forall j | 0 <= j < |acts| && acts[j] == CloseNow && v !in q.closePending
        ensures exists i :: 0 <= i < j && acts[i] == Reschedule
      {
        if acts[0] != Reschedule {
          assert rest[j - 1] == CloseNow;
          var i :| 0 <= i < j - 1 && rest[i] == Reschedule;
          assert acts[i + 1] == Reschedule;
        }
      }
      forall i, j | 0 <= i < j < |acts| && acts[i] == acts[j] ensures acts[i] == Nothing {
        assert acts[j] == rest[j - 1];
        if i > 0 {
          assert acts[i] == rest[i - 1];
        }
      }
    }
  }
}
