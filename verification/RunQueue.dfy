/** Values and transitions of one SchedulerQueue; each function is one critical section. */
module RunQueueState {

  datatype FinalizeAction = Nothing | Reschedule | CloseNow

  datatype RunQueue = RunQueue(
    items: multiset<nat>,      // nodes waiting to run
    numPending: nat,           // executor tasks handed over and not yet accounted for
    running: bool,
    closePending: set<nat>,    // saw every input done once; one more run is owed
    finalized: set<nat>)       // finished the done-observation sequence

  function Pushed(q: RunQueue, v: nat): (r: RunQueue) {
    q.(items := q.items[v := q.items[v] + 1])
  }

  function Taken(q: RunQueue, v: nat): (r: RunQueue)
    requires v in q.items
  {
    q.(items := q.items[v := q.items[v] - 1])
  }

  function Submitted(q: RunQueue): (r: RunQueue) {
    q.(numPending := q.numPending + 1)
  }

  function TaskDone(q: RunQueue): (r: RunQueue) {
    if q.numPending > 0 then q.(numPending := q.numPending - 1) else q
  }

  predicate WantsWorker(q: RunQueue) {
    q.running && q.items != multiset{}
  }

  predicate IsIdle(q: RunQueue) {
    q.items == multiset{} && q.numPending == 0
  }

  // The close_pending_ / finalized_nodes_ decision taken at the end of a run.
  function FinalizeChoice(q: RunQueue, v: nat, hasInputs: bool, allDone: bool): (a: FinalizeAction) {
    if !hasInputs || !allDone || v in q.finalized then Nothing
    else if v in q.closePending then CloseNow
    else Reschedule
  }

  function Decided(q: RunQueue, v: nat, hasInputs: bool, allDone: bool): (r: RunQueue) {
    match FinalizeChoice(q, v, hasInputs, allDone)
    case Nothing => q
    case Reschedule => q.(closePending := q.closePending + {v})
    case CloseNow => q.(closePending := q.closePending - {v}, finalized := q.finalized + {v})
  }
}
