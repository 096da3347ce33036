# Verified model of the graph runtime's dataflow engine

The project models graph_runtime, a C++ dataflow engine: nodes connected by streams, run by worker threads
from a priority run queue, ending when the graph has drained. It states what the engine is for and proves it
for every graph, every run and every interleaving of threads.

## What is modelled

- **The engine as interleaved threads** (`Engine*.dfy`). One step is one critical section, or one
  unsynchronised read or write, of the scheduler, the run queue or a stream manager. Thread 0 is the
  application (inject, close an input, pause, resume); the rest are executor workers. A thread's state is a
  stack of three calls: `Outer` (RunNextTask, RunNode, an application call), `Mid` (a broadcast over mirrors, or
  HandleIdle) and `Leaf` (AddNode and the submission after it). RunNode is split into pop, process, propagate,
  scan, decide, decrement, act and re-check, so another thread can run at every point where the code holds no
  lock. Histories (`emitted`, `consumed`, `sealed`, `stopped`, `quits`) are kept beside the real fields.
- **The objects** with their own loops and fields: `SchedulerQueue.dfy`, `Streams.dfy`, `SyncJoin.dfy`. Their
  methods are proved against the functions of `RunQueue.dfy` and `StreamState.dfy`, which are the ones the
  engine's steps use.
- **The configuration side**: `Config.dfy`, `CycleCheck.dfy` (explicit-stack search), `Wiring.dfy`
  (Initialize), and `ConfiguredRuns.dfy`, which states the engine's result for a validated configuration.
- **Control calls** in general (`IdleGuard.dfy`): HandleIdle against Pause, Resume, Cancel and Shutdown.
- **The profile file**: `Json.dfy`, `ProfileText.dfy`, `ReadBack.dfy`, `ProfileReport.dfy`,
  `ProfileRoundTrip.dfy`, `ProfileTotals.dfy` (any number of documents in one report), `ProfileValues.dfy` (the
  parts the reporter skips), `ProfileSpins.dfy`. Text follows the string and number grammar of RFC 8259, sections 7 and 6, as far as
  the code does.
- **Tag layout**: `TagMap.dfy`.

The engine's invariants are layered, one file each: program points (`EngineShape`), counters
(`EngineAccounting`), wake-ups (`EngineWake`), source tokens (`EngineSources`), conservation of packets
(`EngineFlow`), Done and who owes it (`EngineSeal`, `EngineSealSteps`), finalization (`EngineFinal`), HandleIdle
(`EngineIdle`). `EngineRuns` puts them together and states the results over whole runs. `EngineMeasure` gives each
node and each edge an account that every step balances, and `EngineFinite` adds the accounts up along the
topological rank: only finitely many invocations follow once the sources have stopped. `EngineEnd` says when
HandleIdle terminates the graph, `EngineModes` ties Pause and Resume to the queue, `EngineWritten` ties the
histories to the moves, and `EngineObjects` the engine's steps to the objects' operations. `EngineLate`, `EngineQuiet` and
`LateRun` are about the one way a run can lose a packet.

| engine program points | source |
|---|---|
| `AddNode`, `Submit`, `AddTask` (`LeafStep`) | graph_runtime/src/framework/scheduler/scheduler_queue.cc:55-83, 143-151 |
| `Resting`, `Fetch`, `Missed`, `Finish` | graph_runtime/src/framework/scheduler/scheduler_queue.cc:102-141 |
| `Collect`, `Compute` | graph_runtime/src/framework/scheduler/scheduler_queue.cc:160-204 |
| `Post`, `PostShut`, `Propagate`, `Shut` | graph_runtime/src/framework/stream/output_stream_handler.cc:75-101, output_stream_manager.cc:56-116 |
| `Scan`, `Decide`, `Drop` | graph_runtime/src/framework/scheduler/scheduler_queue.cc:258-299 |
| `CloseOut`, `CloseMark`, `StopDrop`, `StopErase` | graph_runtime/src/framework/scheduler/scheduler_queue.cc:206-228, 305-308, output_stream_handler.cc:35-43 |
| `Buffered`, `Again`, `Recheck` | graph_runtime/src/framework/scheduler/scheduler_queue.cc:314-361 |
| `Idle(stage)` | graph_runtime/src/framework/scheduler/scheduler.cc:64-174, 176-236 |
| `AppReady` and the other `App` points | graph_runtime/src/framework/public/graph_runtime.cc:297-360, scheduler.cc:476-497 |
| `Init` | graph_runtime/src/framework/scheduler/scheduler.cc:395-430 |

## Where the code does less than its comments say

- **Sources are popped before non-sources.** The comment at scheduler_queue.h:37 says the opposite; operator<
  returns `other_is_source`, and std::priority_queue pops the greatest (`SchedulerQueues.SourceGoesFirst`, with the
  exact condition in `SchedulerQueues.NonSourcesFirst`).
- **Two inputs of one node under one port name.** SetInputPort overwrites, while the mirrors feed both managers:
  the earlier one is never popped, nor looked at by the drain, so the graph terminates with its packets queued
  (`Wiring.ShadowedPort`, exact in `Wiring.PolledExactly`). Output shards are looked up by port name too. The
  results for configurations ask for `DistinctPorts`, which no validator checks.
- **A late emission can be lost.** The comment at scheduler_queue.cc:269-276 promises exactly one finalize
  before the outputs are closed. An arrival call held back past that run starts a further Process call while the
  closing run has left DecrementPending behind and is closing the outputs without a lock. A packet that call
  writes is skipped, or follows Done. `LateRun.LateEmissionLosesPacket` is such a run, up to the graph's
  termination. The whole-run results ask for `NoLateEmission`: a Process call of a finalized node writes no packet.
  `EngineQuiet.LateExactlyBreaksEnds` says what that is, step by step and over whole runs: no ended stream gains
  a packet. `EngineQuiet.SilentIsNeverLate` gives a condition the nodes can meet by themselves: nothing is written
  after the first Process call with all inputs done. It is sufficient, not necessary: a node may write in the
  second such call when that is its closing run, but it cannot tell it from a late one, and a late packet may
  still be delivered in time. The results that do not depend on it (`NoLostWakeup`, `InFlight`, `NoOverlap`,
  `NoStrandedWork`, `OneIdleHandler`, `IdleLeavesNothing`) are proved without it.
- **The safety nets of HandleIdle are dead code** under the stated assumptions: `DrainExact` shows that the
  rescheduling branches and the fall-through after `kNotDone` (scheduler.cc:111-117) are never taken.
- **The nodes can be closed twice.** Pause, Resume and Cancel write the state after a separate check; a write
  over kTerminated lets HandleIdle close the nodes again (`IdleGuard.PauseClosesTwice`), and only such writes can
  (`IdleGuard.IdleExclusion`; `IdleGuard.ClosesAtMostOnce` for callers).
- **ValidateConnectivity accepts a starved input**: a name that occurs only in the graph's output list
  (`Wiring.StarvedInput`, with the exact condition in `Wiring.ConnectedIsFed`).
- **The timestamp check is vacuous** (`StreamState.CheckTimestampAcceptsAll`), and a packet stamped Unset can
  pull a mirror's bound below PreStream (`MirrorAgreement.PublishAgrees`, exact).
- **Accumulate can loop for ever** on a mean printed with an exponent, which the writer itself produces for
  large means (`ProfileRoundTrip.DocumentBack`, exact), and on other texts, `{"nodes":[null]}` among them
  (`ProfileSpins.SpinsExactly`, exact). The reader's sum overflows for INT64_MIN alone (`ReadBack.IntBack`,
  `ProfileRoundTrip.WriteThenReport`).

## Model

| member | source | states |
|---|---|---|
| EngineRuns.FanOutComplete | graph_runtime/src/framework/scheduler/scheduler.cc:103-150 | When HandleIdle has terminated the graph, every mirror's consumer has popped exactly its producer's emitted sequence, every input is done and empty, every source has stopped, every other node is finalized, and nothing is emitted afterwards; for every run without a late emission, any number of workers, any interleaving, any use of Pause and Resume |
| EngineEnd.LoopTestTerminates | graph_runtime/src/framework/scheduler/scheduler.cc:91-150 | A thread that runs HandleIdle's loop test with no input remaining, an idle queue and the mode Running has terminated the graph whenever it is later found outside HandleIdle, whatever the other threads did in between; no fairness assumed |
| EngineEnd.PassTerminates | graph_runtime/src/framework/scheduler/scheduler.cc:64-150 | The same from the entry on: a pass that finds nobody inside, every graph input closed, the queue idle and the mode Running where it reads them has not left, or the graph has been terminated |
| EngineEnd.OverEnds | graph_runtime/src/framework/scheduler/scheduler.cc:64-76 | In every state of every run: a running graph with an idle queue and closed inputs has been terminated, or has a thread on its way to terminate it, or since it was over a HandleIdle call found another one in progress and returned |
| EngineWritten.EmittedIsWritten | graph_runtime/src/framework/scheduler/scheduler_queue.cc:185-247 | In every reachable state a stream's history is exactly what its producer's Process calls wrote, or the application injected, in order |
| EngineWritten.ConsumersGetWhatWasWritten | graph_runtime/src/framework/scheduler/scheduler.cc:103-150 | Fan-out completeness told by the moves alone: after termination every consumer has popped exactly the packets the producer's Process calls wrote, or the application injected |
| EngineRuns.DrainExact | graph_runtime/src/framework/scheduler/scheduler.cc:176-236 | In every reachable state an idle queue with all graph inputs closed means every non-source node is done and finalized; the termination verdict is never kNotDone, and no thread is ever in the rescheduling loops of DrainInputQueues or HandleIdle |
| EngineRuns.ConsumedIsPrefix | graph_runtime/src/framework/stream/output_stream_manager.cc:56-92 | At every moment what a consumer popped plus what it has queued is a prefix of what its producer emitted |
| EngineRuns.NoLostWakeup | graph_runtime/src/framework/scheduler/scheduler_queue.cc:299-361 | With any in-flight limit: a consumer holding a packet, or done on all inputs and not finalized, is pending or some thread still owes it an arrival call or a post-run check, although AddNode drops requests |
| EngineRuns.IdleLeavesNothing | graph_runtime/src/framework/scheduler/scheduler_queue.cc:55-83 | An idle queue that nobody is about to call leaves every input queue empty and every done node finalized |
| EngineRuns.InFlight | graph_runtime/src/framework/scheduler/scheduler_queue.cc:55-83 | In every reachable state pending_count is the queued items plus the runs before DecrementPending, and never exceeds MaxInFlight |
| EngineRuns.NoOverlap | graph_runtime/src/framework/scheduler/scheduler_queue.cc:153-299 | A node with MaxInFlight 1 never has two runs in progress, nor a queued item beside a run |
| EngineRuns.NoStrandedWork | graph_runtime/src/framework/scheduler/scheduler_queue.cc:102-151 | A running queue that holds an item always has an unstarted task, a worker that will look or a submission in flight; num_pending_tasks_ counts exactly the tasks and workers, so an idle queue has no worker inside RunNode |
| EngineModes.ModeAndQueueAgree | graph_runtime/src/framework/scheduler/scheduler.cc:476-497 | In every reachable state with the application outside the bodies of Pause and Resume, mode Running means the queue is switched on and mode Paused that it is switched off |
| EngineModes.RunningGraphServes | graph_runtime/src/framework/scheduler/scheduler.cc:486-497 | In such a state with mode Running and a waiting item, the queue is switched on and an unstarted task, a worker that will look or a submission exists |
| EngineModes.SwitchTakesEffect | graph_runtime/src/framework/scheduler/scheduler.cc:476-497 | Resume's write leaves a queue that runs, served when anything waits; Pause's leaves one that does not; neither loses an item |
| EngineModes.PausedAsksForNobody | graph_runtime/src/framework/scheduler/scheduler_queue.cc:55-83 | While the queue is switched off no step but Resume's asks the executor for a worker |
| EngineModes.GateAdmits | graph_runtime/src/framework/scheduler/scheduler_queue.cc:55-83 | The engine's AddNode: below the limit the node is queued and counted in flight, with a submission exactly when the queue runs; at the limit nothing changes |
| EngineRuns.OneIdleHandler | graph_runtime/src/framework/scheduler/scheduler.cc:64-76 | handling_idle_ is the number of threads inside HandleIdle and at most one of them is in the body |
| EngineRuns.DoneIsFinal | graph_runtime/src/framework/stream/output_stream_handler.cc:35-43 | Once an input is done and empty it stays so for the rest of the run, and its consumer has popped everything the producer ever emits |
| EngineRuns.FinalizeTwoPhase | graph_runtime/src/framework/scheduler/scheduler_queue.cc:250-312 | A node is closed at most once, only by a run whose Process saw every port done and which was taken off the queue after an earlier run had ended with all inputs done and asked for it; at the closing decision every mirror of its outputs holds all it ever emitted |
| EngineFinite.FinitelyManyRuns | graph_runtime/src/framework/scheduler/scheduler_queue.cc:153-362 | In every endless run of an acyclic graph, once no source is called and nothing is fed any more, only finitely many RunNode invocations and Process calls follow, however many packets each call emitted |
| EngineFinite.StopsEndRuns | graph_runtime/src/framework/scheduler/scheduler_queue.cc:206-228 | The same once every source has returned Stop: a stopped source is never called again, so the run has a last invocation |
| EngineFinite.CallsArePaidFor | graph_runtime/src/framework/scheduler/scheduler_queue.cc:299-361 | At every moment a node has been called at most 4 times plus 3 times the threads plus 3 for each change of one of its inboxes, although re-checks and dropped requests race freely |
| EngineFinite.EdgeBalances | graph_runtime/src/framework/stream/output_stream_manager.cc:56-116 | At every moment an inbox has changed at most 6 times per Process call of its producer, or per application call, and once per packet popped |
| EngineFinite.NodeCeases | graph_runtime/src/framework/scheduler/scheduler_queue.cc:153-362 | By induction on the topological rank, a node whose producers make a last call makes a last call |
| EngineMeasure.StepPays | graph_runtime/src/framework/scheduler/scheduler_queue.cc:258-361 | Every step: the Process calls and AddNode requests a node may still see never grow unless the step changes one of its inboxes |
| EngineMeasure.EdgeStepPays | graph_runtime/src/framework/stream/output_stream_handler.cc:75-101 | Every step: the changes the producer may still make to an inbox pay for the change this step makes |
| EngineLate.SealBreaksExactlyLate | graph_runtime/src/framework/scheduler/scheduler_queue.cc:299-312 | A step adds a packet to a stream whose producer has announced its end if and only if it is a Process call of an already finalized node that emits to an open shard |
| EngineQuiet.LateExactlyBreaksEnds | graph_runtime/src/framework/scheduler/scheduler_queue.cc:299-312 | A whole run has no late emission if and only if no step of it adds a packet to a stream that has ended |
| EngineQuiet.SilentIsNeverLate | graph_runtime/src/framework/scheduler/scheduler_queue.cc:269-312 | A condition on the nodes alone: if every node writes nothing in the Process calls after its first one with all inputs done, no emission is late |
| EngineQuiet.SilentNodesDrain | graph_runtime/src/framework/scheduler/scheduler.cc:103-150 | Under that condition fan-out completeness holds in every run, with no assumption on the scheduler's state |
| EngineQuiet.SilentDoneIsFinal | graph_runtime/src/framework/stream/output_stream_handler.cc:35-43 | Under that condition Done is final in every run |
| LateRun.LateEmissionLosesPacket | graph_runtime/src/framework/scheduler/scheduler_queue.cc:299-312 | A concrete run in which such a call happens, its packet is skipped, and HandleIdle terminates the graph: every input is done and empty, every node finalized, and the one packet emitted was never consumed |
| EngineShape.ShapeStep | graph_runtime/src/framework/scheduler/scheduler_queue.cc:123-362 | Every step keeps every thread at a program point the code allows: which broadcast and which AddNode call each point can be inside |
| EngineAccounting.AccStep | graph_runtime/src/framework/scheduler/scheduler_queue.cc:110-151 | Every step keeps the counters exact: task slots, in-flight invocations, HandleIdle entries, one body, and work always served |
| EngineAccounting.AccInit | graph_runtime/src/framework/scheduler/scheduler.cc:395-430 | The state Start leaves has exact counters |
| EngineSources.SourcesStep | graph_runtime/src/framework/scheduler/scheduler_queue.cc:326-338 | A source keeps exactly one way to run again until it returns Stop and none afterwards; an active stopped source is still carrying out its Stop |
| EngineSources.NoRunnerBeside | graph_runtime/src/framework/scheduler/scheduler_queue.cc:335-338 | A source about to re-add itself is neither queued nor running, so the in-flight gate lets it through |
| EngineFlow.FlowStep | graph_runtime/src/framework/stream/output_stream_manager.cc:56-92 | Conservation: emitted is popped, then queued, then what the one producing thread still has to hand over, for every mirror |
| EngineFlow.OneProducer | graph_runtime/src/framework/scheduler/scheduler_queue.cc:153-299 | At most one thread at a time can hand packets of a stream to its mirrors |
| EngineObjects.MirrorReceives | graph_runtime/src/framework/stream/output_stream_manager.cc:56-92 | The two steps of a broadcast at one mirror leave its inbox as one turn of PropagateUpdatesToMirrors does, touch no other, and wake the consumer exactly on empty to non-empty and on an advanced bound |
| EngineObjects.MirrorCloses | graph_runtime/src/framework/stream/output_stream_manager.cc:107-116 | A step of a closing broadcast raises that mirror to Done, keeps its queue and wakes the consumer exactly when it was not Done |
| EngineObjects.RunPublishes | graph_runtime/src/framework/stream/output_stream_handler.cc:75-101 | After Process each open output is published with its shard's packets, and a bound that is the latest of the manager's, the next time after the last packet and the shard's explicit one; closed ones are passed over |
| EngineObjects.InjectionPublishes | graph_runtime/src/framework/public/graph_runtime.cc:297-360 | An injected packet, or an announced bound, is published the same way |
| EngineObjects.CollectTakesHeads | graph_runtime/src/framework/scheduler/scheduler_queue.cc:160-180 | Collecting takes one packet from the head of a non-empty input and changes nothing else |
| EngineSealSteps.SealStep | graph_runtime/src/framework/stream/output_stream_manager.cc:107-116 | Every step keeps: a mirror shows Done only when its stream is sealed and nobody owes it a packet, and a sealed stream's mirror that does not show Done has a thread bound to tell it |
| EngineSeal.NobodyOwes | graph_runtime/src/framework/stream/output_stream_manager.cc:107-116 | When a thread is about to raise a mirror to Done, no thread still owes that mirror a packet |
| EngineFinal.DoneIsStable | graph_runtime/src/framework/stream/input_stream_manager.cc:212-215 | No step takes Done back or queues a packet behind it |
| EngineFinal.CloseNeedsSeenDone | graph_runtime/src/framework/scheduler/scheduler_queue.cc:280-296 | The close decision is only taken in a run whose Process saw all inputs done, for a node not finalized before |
| EngineFinal.FinalStep | graph_runtime/src/framework/scheduler/scheduler_queue.cc:258-297 | Every step keeps: nodes awaiting or past finalization have all inputs done, and every run of a node awaiting it has seen Done so far |
| EngineWake.WakeStep | graph_runtime/src/framework/scheduler/scheduler_queue.cc:314-361 | Every step of every thread keeps the no-lost-wakeup duties, for any in-flight limit |
| EngineIdle.IdleSettles | graph_runtime/src/framework/scheduler/scheduler.cc:176-236 | By induction on the topological rank, an idle queue with closed graph inputs means every edge consumed everything and every node is settled |
| EngineIdle.NodeEnds | graph_runtime/src/framework/scheduler/scheduler.cc:211-233 | Along the rank: a node whose producers have ended has all inputs done, so it is finalized, so its own outputs are sealed |
| EngineIdle.IdleSourcesStopped | graph_runtime/src/framework/scheduler/scheduler.cc:91-91 | An idle queue means every source has stopped and active_sources_ is empty |
| EngineIdle.SettledStep | graph_runtime/src/framework/scheduler/scheduler.cc:140-150 | A settled graph stays settled under every further step, including Pause, Resume and later HandleIdle passes |
| EngineIdle.IdleOkStep | graph_runtime/src/framework/scheduler/scheduler.cc:78-174 | Every stage of HandleIdle can rely on what the earlier ones found, although other threads run in between |
| EngineRuns.InvStep | graph_runtime/src/framework/scheduler/scheduler_queue.cc:153-362 | The whole invariant is inductive over every step that is not a late emission |
| SchedulerQueues.SchedulerQueue.AddNode | graph_runtime/src/framework/scheduler/scheduler_queue.cc:55-83 | A node at its limit is left alone; otherwise exactly its item is queued, with its id, layer and source flag, it is counted in flight, and one task is submitted if the queue runs; pending_count never passes the limit |
| SchedulerQueues.SchedulerQueue.TryPop | graph_runtime/src/framework/scheduler/scheduler_queue.cc:102-108 | The popped item is one of the waiting ones, nothing waiting has priority over it by operator<, and exactly it is removed |
| SchedulerQueues.SchedulerQueue.OnTaskFinished | graph_runtime/src/framework/scheduler/scheduler_queue.cc:110-121 | The slot is returned and a worker requested exactly when the running queue still holds an item |
| SchedulerQueues.SchedulerQueue.SetRunning | graph_runtime/src/framework/scheduler/scheduler_queue.cc:30-40 | Switching on a non-empty queue submits exactly one task |
| SchedulerQueues.SchedulerQueue.SubmitToExecutor | graph_runtime/src/framework/scheduler/scheduler_queue.cc:143-151 | One more pending task and one task handed over, or nothing without an executor |
| SchedulerQueues.SchedulerQueue.SubmitWaitingTasksToExecutor | graph_runtime/src/framework/scheduler/scheduler_queue.cc:370-379 | One task is submitted exactly when the queue runs and holds an item |
| SchedulerQueues.SchedulerQueue.DecideFinalize | graph_runtime/src/framework/scheduler/scheduler_queue.cc:277-297 | The close_pending_ and finalized_nodes_ transition and the action returned with it |
| SchedulerQueues.SchedulerQueue.IsIdleNow | graph_runtime/src/framework/scheduler/scheduler_queue.h:78-81 | Idle exactly when no item waits and no task is pending |
| SchedulerQueues.FinalizeSequence | graph_runtime/src/framework/scheduler/scheduler_queue.cc:250-297 | Over any sequence of runs of a node: at most one rescheduling, at most one close, the close only after the rescheduling, and neither in a run that found an input open |
| SchedulerQueues.PriorityIsStrictWeak | graph_runtime/src/framework/scheduler/scheduler_queue.h:32-49 | Item::operator< is a strict weak order, and two items tie exactly when they agree on everything it compares |
| SchedulerQueues.TopMeans | graph_runtime/src/framework/scheduler/scheduler_queue.h:32-49 | An item is on top if and only if: it opens a node when any does; among the equally open it is a non-source exactly when no source waits; sources go by lower layer then lower id, non-sources by higher id |
| SchedulerQueues.NonSourcesFirst | graph_runtime/src/framework/scheduler/scheduler_queue.h:37-40 | The order the comment announces, non-sources before sources, is kept by a pop if and only if the most open waiting items do not mix the two kinds |
| SchedulerQueues.SourceGoesFirst | graph_runtime/src/framework/scheduler/scheduler_queue.h:37-40 | Of a waiting non-source and a waiting source, the source is popped |
| IdleGuard.IdleExclusion | graph_runtime/src/framework/scheduler/scheduler.cc:439-497 | With any number of threads calling HandleIdle, Pause, Resume, Cancel and Shutdown: the counter is exact, one thread in the body, and CloseAllNodes runs at most once more than control calls have overwritten kTerminated |
| IdleGuard.ClosesAtMostOnce | graph_runtime/src/framework/scheduler/scheduler.cc:140-150 | CloseAllNodes runs at most once if no Pause, Resume or Cancel is between its check and its write when the graph terminates and Cancel is not called afterwards |
| IdleGuard.PauseClosesTwice | graph_runtime/src/framework/scheduler/scheduler.cc:476-483 | The bound is sharp: a concrete run in which Pause checks before and writes after termination, and the nodes are closed twice |
| IdleGuard.PassEnds | graph_runtime/src/framework/scheduler/scheduler.cc:64-150 | Against any other threads, Cancel and Shutdown included: a pass whose readings speak for ending leaves HandleIdle only after forcing the end or closing the nodes, and from its loop test on only after closing them |
| IdleGuard.CancelForces | graph_runtime/src/framework/scheduler/scheduler.cc:64-174 | A pass that starts under a cancel with the error set forces Terminated |
| IdleGuard.CancelAlone | graph_runtime/src/framework/scheduler/scheduler.cc:466-474 | Cancel by itself terminates the graph and marks it failed without closing its nodes; a second Cancel does nothing |
| IdleGuard.PauseThenResume | graph_runtime/src/framework/scheduler/scheduler.cc:439-497 | Pause and Resume move between Running and Paused and change nothing in any other mode; Shutdown terminates at once |
| CycleCheck.BuildDependencyGraph | graph_runtime/src/framework/config/config_validator.cc:36-59 | Row a of the adjacency list holds exactly the nodes that a depends on through a stream name |
| CycleCheck.ValidateNoCycles | graph_runtime/src/framework/config/config_validator.cc:139-205 | Exact: no cycle is reported if and only if there is no closed dependency walk; a reported list is such a walk; success has a topological rank; the search terminates |
| CycleCheck.SearchFrom | graph_runtime/src/framework/config/config_validator.cc:156-189 | From one start node the search finishes everything reachable, or returns a closed walk |
| CycleCheck.SearchTurn | graph_runtime/src/framework/config/config_validator.cc:163-186 | One turn keeps the path, colour and rank invariants and comes nearer to the end |
| CycleCheck.PopKeeps | graph_runtime/src/framework/config/config_validator.cc:165-169 | Finishing a node whose children are all finished keeps the path, the colours and the rank |
| CycleCheck.PathWalks | graph_runtime/src/framework/config/config_validator.cc:172-180 | The path from the repeated node, closed by it, is a walk along dependencies |
| Config.RankedIsAcyclic | graph_runtime/src/framework/config/config_validator.cc:139-205 | A topological rank excludes every closed walk |
| Config.PortAndStream | graph_runtime/src/framework/config/stream_name.h:10-22 | port:stream is split at its first colon, whatever the stream part holds |
| Wiring.ValidateUniqueNames | graph_runtime/src/framework/config/config_validator.cc:77-87 | Accepts exactly the configurations with pairwise different node names |
| Wiring.ValidateUniqueExecutors | graph_runtime/src/framework/config/config_validator.cc:89-99 | Accepts exactly the configurations with pairwise different executor names |
| Wiring.ValidateNoDuplicateNodeInputs | graph_runtime/src/framework/config/config_validator.cc:104-118 | Accepts exactly the configurations in which no node names one stream twice among its inputs |
| Wiring.ValidateConnectivity | graph_runtime/src/framework/config/config_validator.cc:120-137 | Accepts exactly the configurations in which every input name is a graph input, a node output or a listed graph output |
| Wiring.Initialize | graph_runtime/src/framework/public/graph_runtime.cc:78-215 | Node v's i-th input and k-th output are the managers the tables say; an input is fed exactly when its name is supplied, and then by the graph input of that name or the last node declaring it; each manager is the target of at most one mirror; a node's port table holds, for each port name, its last input of that name |
| Wiring.PolledExactly | graph_runtime/src/framework/node/node.h:34-36 | Every declared input is in its node's port table, and so looked at by the node's runs and by the drain, if and only if no two inputs of a node share a port name |
| Wiring.ShadowedPort | graph_runtime/src/framework/public/graph_runtime.cc:83-90 | A concrete configuration that passes every check, feeds two inputs of one node under one port name, and leaves the first where no run looks at it |
| Wiring.WireMirrors | graph_runtime/src/framework/public/graph_runtime.cc:204-215 | The mirror loop connects every input to the manager found under its name, once, at the recorded position |
| Wiring.MirrorsAreDistinct | graph_runtime/src/framework/public/graph_runtime.cc:204-215 | No input manager is registered twice, with one stream or with two |
| Wiring.RegisterGraphInputs | graph_runtime/src/framework/public/graph_runtime.cc:197-203 | A graph input takes its name over from node outputs |
| Wiring.RankCarriesOver | graph_runtime/src/framework/public/graph_runtime.cc:175-215 | Every mirror follows a dependency of the configuration, so its topological rank ranks the running graph |
| Wiring.ConnectedIsFed | graph_runtime/src/framework/config/config_validator.cc:120-137 | A configuration that passes the connectivity check has every input fed if and only if no input is named only by the graph's output list |
| Wiring.StarvedInput | graph_runtime/src/framework/config/config_validator.cc:23-25 | A concrete configuration that passes every check and leaves an input without a producer |
| ConfiguredRuns.Build | graph_runtime/src/framework/config/config_validator.cc:63-75 | Validation accepts exactly the configurations meeting the five rules; an accepted one whose inputs are all supplied and whose port names are distinct within each node yields a graph the engine can run, with its rank, every input of which is polled |
| ConfiguredRuns.ConsumersGetTheirStreams | graph_runtime/src/framework/public/graph_runtime.cc:175-215 | End to end, in configuration terms, for distinct port names: after termination the i-th input of every node is one its runs look at and has consumed exactly what was emitted under its stream name |
| Streams.InputStreamManager.AddPackets | graph_runtime/src/framework/stream/input_stream_manager.cc:16-56 | The packets are appended in order, the bound is overwritten with the next of the last, and the arrival callback runs exactly on empty to non-empty |
| Streams.InputStreamManager.MovePackets | graph_runtime/src/framework/stream/input_stream_manager.cc:58-99 | The same state as AddPackets leaves; the list is emptied unless the stream is closed |
| Streams.InputStreamManager.SetNextTimestampBound | graph_runtime/src/framework/stream/input_stream_manager.cc:101-116 | The bound only advances, and the callback runs exactly when it does |
| Streams.InputStreamManager.Close | graph_runtime/src/framework/stream/input_stream_manager.cc:118-130 | Closing sets Done and notifies once |
| Streams.InputStreamManager.PopQueueHead | graph_runtime/src/framework/stream/input_stream_manager.cc:176-193 | The head is handed out, and done is never reported together with a packet |
| Streams.InputStreamManager.PopPacketAtTimestamp | graph_runtime/src/framework/stream/input_stream_manager.cc:132-174 | On the fields: the queue left behind, the packet or the placeholder's time, the drop count with its Unset corner, the done flag, and the bound: the old one if later than the time asked, else the next allowed time, so it never goes back and an emptied stream reports a later time |
| Streams.InputStreamManager.MinTimestampOrBound | graph_runtime/src/framework/stream/input_stream_manager.cc:229-237 | The earliest time the stream may still produce |
| Streams.InputStreamHandler.AddPacketsToStream | graph_runtime/src/framework/scheduler/input_stream_handler.cc:127-133 | A mirror id routes to the manager of that declared input; other ids are refused |
| Streams.InputStreamHandler.MovePacketsToStream | graph_runtime/src/framework/scheduler/input_stream_handler.cc:135-141 | The same routing for the moving variant, the list left alone on a bad id |
| Streams.OutputStreamShard.AddPacket | graph_runtime/src/framework/stream/output_stream_shard.cc:27-36 | A closed shard accepts nothing, an empty packet only moves the bound |
| Streams.OutputStreamManager.ComputeOutputTimestampBound | graph_runtime/src/framework/stream/output_stream_manager.cc:26-54 | Exact on the fields: one of the manager's bound, the offset's promise for the input time, the next time after the shard's last packet and the shard's explicit bound, and no later than any common upper bound of them |
| Streams.OutputStreamManager.PropagateUpdatesToMirrors | graph_runtime/src/framework/stream/output_stream_manager.cc:56-92 | Every mirror, copied to or moved to, receives the same packets in order and the same bound; the shard is left empty |
| Streams.OutputStreamManager.Close | graph_runtime/src/framework/stream/output_stream_manager.cc:107-116 | Every mirror is raised to Done once, and a second close does nothing |
| Streams.OutputStreamManager.AddMirror | graph_runtime/src/framework/stream/output_stream_manager.cc:15-18 | Any pair is appended at the end; the mirrors stay one to a manager exactly when it routes to a manager not yet registered |
| MirrorAgreement.MirrorsAlwaysAgree | graph_runtime/src/framework/stream/output_stream_manager.cc:56-116 | Over any interleaving of publications, closes and pops, all mirrors have the same delivered sequence and the same bound, that bound never goes back, and nothing is delivered after a close |
| MirrorAgreement.PublishAgrees | graph_runtime/src/framework/stream/input_stream_manager.cc:35-42 | A publication keeps the mirrors at the manager's bound raised to PreStream if and only if it is not one whose last packet carries Unset with no later bound |
| MirrorAgreement.BoundExceedsDelivered | graph_runtime/src/framework/stream/output_stream_manager.cc:26-54 | With time-ordered shards the bound exceeds every packet ever delivered |
| MirrorAgreement.PublishIsTight | graph_runtime/src/framework/stream/output_stream_manager.cc:26-92 | A publication announces no more than it must: a time its packets, explicit bound and manager leave open is not passed by any mirror's bound |
| MirrorAgreement.NextTimeStaysOpen | graph_runtime/src/framework/stream/output_stream_manager.cc:26-92 | After a publication with no later bound every mirror's bound is the next allowed time after the last packet, so a packet at any later time is still allowed |
| MirrorAgreement.OpenTimesStayOpen | graph_runtime/src/framework/stream/output_stream_manager.cc:56-116 | Over any interleaving of publications and pops: a time every publication leaves open stays open at every mirror |
| StreamState.CheckTimestampAcceptsAll | graph_runtime/src/framework/stream/input_stream_manager.cc:12-14 | The timestamp check of both packet-adding methods rejects nothing |
| Timestamps.NextAllowed | graph_runtime/src/framework/stream/timestamp.cc:90-93 | The next allowed time is later except from one past PostStream on, never Done, and never more than one later |
| Timestamps.PreviousAllowed | graph_runtime/src/framework/stream/timestamp.cc:95-98 | The previous allowed time is earlier except at the bottom, never Unset or Done, and never more than one earlier |
| Timestamps.NextIsLeast | graph_runtime/src/framework/stream/timestamp.cc:90-98 | No time lies between a time and its next or previous allowed one, and the two undo each other inside the stream |
| SyncJoin.SyncSet.GetReadiness | graph_runtime/src/framework/scheduler/input_stream_handler.cc:12-43 | The running minima compute the join time and the readiness |
| SyncJoin.ReadyMeans | graph_runtime/src/framework/scheduler/input_stream_handler.cc:28-43 | Ready to process exactly when some head is the earliest time and no empty stream can still match it; ready to close exactly when no stream can produce any more |
| SyncJoin.SyncSet.FillInputSet | graph_runtime/src/framework/scheduler/input_stream_handler.cc:45-54 | Every stream is taken to the given time |
| SyncJoin.JoinTakesHeads | graph_runtime/src/framework/scheduler/input_stream_handler.cc:45-54 | A ready join pops exactly the heads of its time, drops nothing and raises no bound |
| SyncJoin.JoinIsCanonical | graph_runtime/src/framework/scheduler/input_stream_handler.cc:12-54 | For every interleaving of arrivals, bound updates and attempts, the rows handed out followed by the merge of what is queued are the timestamp merge of all that arrived |
| SyncJoin.RowsArePrefix | graph_runtime/src/framework/scheduler/input_stream_handler.cc:12-54 | At every moment the rows are a prefix of that merge, with strictly increasing times |
| SyncJoin.CloseIsComplete | graph_runtime/src/framework/scheduler/input_stream_handler.cc:30-32 | Ready to close means everything was consumed and the rows are the whole merge |
| SyncJoin.JoinIsDeterministic | graph_runtime/src/framework/scheduler/input_stream_handler.cc:12-54 | Two runs receiving the same streams and reaching the end hand out the same rows |
| SyncJoin.MergeIsOrdered | graph_runtime/src/framework/scheduler/input_stream_handler.cc:12-54 | The merge's times strictly increase and each row holds packets of its own time only |
| SyncJoin.MergeIsFaithful | graph_runtime/src/framework/scheduler/input_stream_handler.cc:12-54 | Reading one column of the merge gives back that stream |
| ProfileRoundTrip.DocumentBack | graph_runtime/src/framework/profiler/reporter/reporter.cc:180-291 | Accumulating a written document records every node in order if every mean was printed without an exponent, and never returns otherwise |
| ProfileRoundTrip.WriteThenReport | graph_runtime/src/framework/profiler/reporter/reporter.cc:293-316 | Written, accumulated and reported: no int64 sum overflows if and only if every integer lies above INT64_MIN and the totals fit; then the report has the same nodes in order, with the same times, counts and totals |
| ProfileRoundTrip.DistinctNodesKept | graph_runtime/src/framework/profiler/reporter/reporter.cc:257-281 | Distinct names give every node an entry of its own, in document order |
| ProfileTotals.AccumulateAll | graph_runtime/src/framework/profiler/reporter/reporter.cc:180-316 | Any number of written documents accumulated into one reporter: no int64 sum overflows exactly when the node lists' sums fit; then one line per name in order of first appearance, with the sums of counts and times over all nodes of that name, their mean, least and greatest averages and last open and close times, and the grand totals are the sums over all named nodes |
| ProfileTotals.EntriesOf | graph_runtime/src/framework/profiler/reporter/reporter.cc:257-281 | However often a name recurs, its entry holds the sums, extremes and last times of the nodes of that name |
| ProfileTotals.SumsOf | graph_runtime/src/framework/profiler/reporter/reporter.cc:293-316 | The totals over the entries are the totals over the nodes recorded |
| ProfileTotals.SoundExactly | graph_runtime/src/framework/profiler/reporter/reporter.cc:257-316 | No reading, running sum or total overflows int64 if and only if the sums over the node lists fit |
| ProfileSpins.SpinsExactly | graph_runtime/src/framework/profiler/reporter/reporter.cc:180-291 | For every text: Accumulate never returns if and only if one of the places its loops look at is stuck, a condition on the characters there |
| ProfileSpins.ElementTurn | graph_runtime/src/framework/profiler/reporter/reporter.cc:210-216 | A turn of the element loop leaves the text as it is exactly at a character that starts no value and is neither a comma, a point nor a bracket |
| ProfileSpins.NestedSpins | graph_runtime/src/framework/profiler/reporter/reporter.cc:137-165 | For every text: skipping an object or array never ends if and only if it meets a t or f that begins neither literal |
| ProfileSpins.FirstElement | graph_runtime/src/framework/profiler/reporter/reporter.cc:210-216 | Any text whose nodes array begins with a stuck element, null among them, traps the reader |
| ProfileRoundTrip.NodeBack | graph_runtime/src/framework/profiler/reporter/reporter.cc:218-255 | One printed node object is read back field by field, leaving exactly what follows it |
| ReadBack.StringBack | graph_runtime/src/framework/profiler/reporter/reporter.cc:41-65 | ReadString inverts WriteJsonString on every string |
| ReadBack.IntBack | graph_runtime/src/framework/profiler/reporter/reporter.cc:67-80 | Every printed integer is read back, and of the int64 values the sum overflows for INT64_MIN alone |
| ReadBack.DecimalBack | graph_runtime/src/framework/profiler/reporter/reporter.cc:82-106 | A decimal printed without an exponent is consumed exactly |
| ReadBack.HistogramBack | graph_runtime/src/framework/profiler/reporter/reporter.cc:137-165 | SkipValue consumes exactly one printed histogram |
| ReadBack.ConfigBack | graph_runtime/src/framework/profiler/reporter/reporter.cc:121-150 | SkipValue consumes exactly the printed configuration, whatever its path holds |
| ReadBack.SlashesDrop | graph_runtime/src/framework/profiler/reporter/reporter.cc:41-65 | A backslash before any character but n, r and t stands for that character |
| ProfileValues.HistogramValues | graph_runtime/src/framework/profiler/profile_writer.cc:42-67 | Read key by key, a printed histogram says the interval size, the number of intervals, the node's count, total and buckets in order |
| ProfileValues.ConfigValues | graph_runtime/src/framework/profiler/profile_writer.cc:71-103 | Read key by key, the printed configuration says what the profiler was configured with |
| ProfileValues.HeadValues | graph_runtime/src/framework/profiler/profile_writer.cc:71-103 | The document opens with its capture time and the number of its nodes |
| ProfileText.WriteJsonString | graph_runtime/src/framework/profiler/profile_writer.cc:14-27 | The loop appends the quoted and escaped string |
| ProfileText.WriteNodeDataJson | graph_runtime/src/framework/profiler/profile_writer.cc:42-67 | The appended text is the node's record |
| ProfileText.WriteProfile | graph_runtime/src/framework/profiler/profile_writer.cc:71-103 | The text written is the document |
| ProfileReport.Reporter.Accumulate | graph_runtime/src/framework/profiler/reporter/reporter.cc:180-291 | The loops compute what the document says, and report when they would no longer move |
| ProfileReport.Reporter.Record | graph_runtime/src/framework/profiler/reporter/reporter.cc:257-281 | An entry is found by name or added, and merged; what a merge adds up to is ProfileTotals.EntriesOf |
| ProfileReport.Reporter.MakeReport | graph_runtime/src/framework/profiler/reporter/reporter.cc:293-316 | One line per entry and the two totals |
| Json.SimpleJsonReader.ReadStringAt | graph_runtime/src/framework/profiler/reporter/reporter.cc:41-65 | The loop computes the string and leaves exactly the rest |
| Json.SimpleJsonReader.ReadInt64 | graph_runtime/src/framework/profiler/reporter/reporter.cc:67-80 | The loop computes the integer, leaves exactly the rest, and tells whether the int64 sum overflowed |
| Json.SimpleJsonReader.SkipNested | graph_runtime/src/framework/profiler/reporter/reporter.cc:137-165 | The skipping loops leave exactly what follows the closing bracket, or would spin |
| Json.SimpleJsonReader.SkipValueAt | graph_runtime/src/framework/profiler/reporter/reporter.cc:121-135 | One value is skipped, or the skip would spin |
| TagMaps.Create | graph_runtime/src/framework/tool/tag_map.cc:36-52 | One block of consecutive ids per tag in first-appearance order, entries sorted within it |
| TagMaps.GroupByTag | graph_runtime/src/framework/tool/tag_map.cc:19-34 | Every entry joins the group of its tag, tags in order of first appearance |
| TagMaps.SortedPairs | graph_runtime/src/framework/tool/tag_map.cc:36-47 | Within a tag the entries lie by index, and by name where indices agree |
| TagMaps.BlocksPartition | graph_runtime/src/framework/tool/tag_map.cc:36-49 | The blocks lie side by side and fill the ids 0 to n-1, one per entry |
| TagMaps.NamesArePermuted | graph_runtime/src/framework/tool/tag_map.cc:44-47 | The names laid out are the declared names, none lost or repeated |
| TagMaps.GetIdFindsName | graph_runtime/src/framework/tool/tag_map.cc:72-77 | For a tag with indices 0 to count-1 in any order, the id of (tag, i) carries the name declared as tag:i:name; other indices are refused |
| TagMaps.GetIdOfDeclared | graph_runtime/src/framework/tool/tag_map.cc:79-84 | From string to string: with dense indices, TAG:i and TAG:i:name both resolve to the id carrying the name declared as TAG:i:name; an empty tag is refused |
| TagMaps.ParseBack | graph_runtime/src/framework/tool/validate_name.cc:10-49 | tag:i:name and tag:i are parsed back into their parts |
| TagMaps.IndexText | graph_runtime/src/framework/tool/validate_name.cc:20-45 | A signed index after spaces is read as a 64-bit value stopped at the ends of that range and cut to 32 bits; anything after the digits is refused |

## Left out

- EngineFinite.FinitelyManyRuns: counts RunNode invocations and Process calls; Pause, Resume and HandleIdle passes
  may go on for ever. It asks for MaxInFlight 1 and for no late emission, as the drain results do.
- EngineEnd.OverEnds: HandleIdle drops concurrent calls, so a graph that is over is not claimed to terminate when
  the call made for it bounced off another one in progress; liveness of WaitUntilDone under fair scheduling is not
  stated.
- Errors, a non-source node returning Stop, Cancel and Shutdown are not part of the engine's runs; Cancel and
  Shutdown are in `IdleGuard`. CleanupAfterRun resets counters without pending_count, so the accounting does not
  survive it.
- One run queue with an executor; the engine picks any waiting item, so its results hold for every priority
  order. Several queues read one by one in Scheduler::IsIdle are not modelled.
- One application thread in the engine's runs; `IdleGuard` has any number.
- The engine visits a node's ports in declaration order, the code in port-name order, and runs on graphs whose port
  names are distinct within each node (`Wiring.PolledExactly`). Reads of IsDone and IsEmpty of one manager in
  DrainInputQueues are one step, and so are the read of should_quit and the choice made from it.
- A node announces Done only by closing its shard; a shard's offset is never enabled, since shards carry no spec, so
  the engine's bounds have none. Sums of a timestamp and an offset past int64 are not modelled.
- EngineRuns.FanOutComplete: asks for MaxInFlight 1 and for `NoLateEmission`, because the first is what the
  finalize protocol is written for and the second is where the code fails (see above);
  `EngineQuiet.SilentNodesDrain` replaces it by a condition on the nodes.
- OutputStreamHandler's loops over its managers are program points of the engine (`Post`, `CloseOut`), not a
  class of their own; output callbacks are left out.
- Packet payloads, type checks, side packets, options, contexts, logging, clocks and profiler scopes: a packet is
  an opaque identity and a time.
- Backpressure callbacks and queue limits of InputStreamManager: no effect on what the queues hold.
- The Immediate and FixedSize handlers and the synchronous Schedule loop.
- ProfileReport.Reporter.Accumulate: sums are unbounded integers with a flag for int64 overflow, and the mean's
  text is given, since printing a double is the standard library's; Compare and the file access are left out.
- std::priority_queue and std::sort are taken by what they return: a top item and a sorted rearrangement.
- SchedulerQueue.CleanupAfterRun, Reset and AddNodeForOpen.
