# Verification of the durable Graph Runtime

This project models the durable Graph Runtime and the write-ahead protocols around it, and proves
what they promise over whole runs: for every answer of an executor or verifier, every schedule of
branch threads, every pause, interrupt and cancel, every crash, recovery and restart.

    dafny verify dfyconfig.toml

## How the model is built

**The state machine.** `Machine.dfy` gives the runtime of one run lineage as a transition function.
A label is one committed transaction, one answer of an executor or verifier, one read that a later
transaction relies on, one control, or a crash. What the code does not decide (answers, the clock, cost limits, which branch thread moves
next, controls, crashes, restarts) is carried by the label, so a statement about every sequence of
enabled labels (`IsRun`, `Exec`, `Reachable`) is a statement about every run. A run's own nodes and
the nodes of each branch are the same notion, a token walking a plan (`Walks.dfy`) over the graphs
of `Graphs.dfy`, with results (`Results.dfy`) and endings (`Reports.dfy`) that carry the source's
validators.

**The program.** `Runtime.dfy`, `Pool.dfy` and `Scheduler.dfy` hold the code in its own form: a
class `GraphRuntime` whose fields are the rows, a class `ParallelCoordinator`, and the loop of
`_run`. Every method that commits a transaction appends its label to a ghost log, and `Valid()` says
that the rows are those of the state the log leads to. The program therefore refines the machine:
a method that wrote another value, took another branch or skipped a step would need a label the
machine does not enable, or end in a state the log does not lead to. Whatever is proved of all
reachable states holds of every state of the program (`GraphRuntime.ValidIsReachable`).

**Theorems over all runs.** `Tokens` (structure, single token), `Effects` (what one label may
touch), `Discipline`, `Budgets`, `AtMostOnce`, `Recovery`, `Admission`, `Progress`, `Schedules`,
`Pauses`, `LateWrites`; for the graphs that `Compiler.dfy` compiles, `Delivery` and `Bounds`; and in
`Witnesses` the runs, from the creation on, in which the code fails its promises.

**Protocols around the runtime.** `Events`, `PullRequests`, `StartClaims`, `Mutations`,
`Containers`, `Costs`: classes over the tables, with the world and the moment of death as
parameters, and exact contracts for every call. **Algorithms:** `SecretGuard`, `Utf8`, `Context`.

## Where the code does less than it promises

Each of these is proved of the model, together with the exact condition under which the code does
keep its promise.

- A synchronous answer of an external verifier leaves its handle row at `triggering`. A later
  recovery then ends the run as an uncertain effect although the answer is durable
  (`Recovery.SynchronousAnswerIsForgotten`, `Witnesses.FirstAnswerIsForgotten`). Recovery ends a
  live run if and only if an attempt was cut off or such a stale trigger is left
  (`Recovery.RecoveryEndsTheRunExactlyWhen`).
- A crash between `_finish` and `_freeze_report` loses the final report for good
  (`Discipline.ReportCanBeLost`, `Discipline.LostReportStaysLost`). Nothing else loses it
  (`Discipline.ReportIsLostExactlyBy`): a terminal run gets its report in some continuation if and
  only if it has it or the freeze is still to come (`Discipline.ReportIsFrozenExactlyWhen`).
- A pause is read in one transaction and stored in another, which looks at nothing but whether the
  run is paused already. A cancel or an interrupt in between is overwritten: a cancelled run becomes
  paused, can be resumed, and ends another way under a report that says it was cancelled
  (`Discipline.CancelledRunCanGoOn`). Status, barrier, ending and report agree throughout a run if
  and only if no pause of it is stored while the barrier is no longer the pause
  (`Discipline.RunIsDisciplinedExactlyWhen`), and a terminal run stays as it is if and only if the
  loop is not between that read and that write (`Discipline.EndingIsFinalExactlyWhen`).
- If the overwritten interrupt has not yet swept its pending branches, the sweep can settle a branch
  whose thread is about to start in the resumed run, and the start, which does not look at the
  branch, makes it active again (`Witnesses.SettledBranchCanStart`). A settled branch is reopened
  by such a start and by nothing else (`Admission.ClosedIsReopenedExactlyWhen`), in some
  continuation if and only if its thread can still start in a run that is going
  (`LateWrites.ReopenedLaterExactlyWhen`), and never in a run that stores no pause before an
  outstanding sweep (`Admission.RunKeepsClosed`).
- A control between the head of the loop and the start of a serial node makes `run` raise: the
  start raises if and only if the run is not going (`Discipline.SerialStartRaisesExactlyWhen`,
  `Runtime.GraphRuntime.StartAttempt`). An exception of a poll is not converted either; it leaves
  `run` and no row is written (`Runtime.GraphRuntime.Query`).
- A pause that meets a branch thread about to start its attempt makes that thread raise. On the
  container's first step the boundary turns that into an error of the whole container; on a later
  step the exception leaves `run` (`Pauses.PauseCanFailAContainer`,
  `Witnesses.PauseFailsTheFirstContainer`). A step of a parallel node fails so if and only if some
  branch start of its pool comes while the run is not going, some answer is pending without a
  handle, or some poll of a handle raises (`Pauses.PoolFailsExactlyWhen`). On graphs without
  containers pauses are transparent (`Pauses.PausesAreTransparent`).
- The answer of a nested container fails its own validator exactly when the branch failed with the
  single empty detail (`Progress.NestedAnswerIsValidExactlyWhen`, `Progress.NestedAnswerCanFail`).
- Threads still write the row of a branch that an interrupt or a cancel has settled. `cancel`
  leaves no barrier, so even a thread that has not looked yet passes its check and turns the
  cancelled row of a terminal run into whatever it found (`LateWrites.EnteringRewritesCancelled`,
  `LateWrites.LeavingRewritesCancelled`, `Witnesses.CancelledBranchSucceeds`). Which step writes
  such a row is exact (`LateWrites.ClosedRowIsWrittenExactlyWhen`), and so is whether any
  continuation does: if and only if the branch still has a thread, and that thread waits for an
  answer that will be kept, or holds one, or is about to route or block, or is about to start in a
  run that is going, or has not looked yet and would find one of these
  (`LateWrites.SettledRowIsWrittenExactlyWhen`).
- A container start that is refused after its intent row was written, or cut off by a crash, leaves
  a row that counts as active and that no call changes any more (`Containers.StartSticksExactlyWhen`,
  `Containers.ContainerVerifier.Execute`). When every container has ended, a new key that nothing
  else refuses starts if and only if fewer than `max_concurrency` such rows exist
  (`Containers.NewKeyStartsExactlyWhen`).
- A contract with two verifiers of the same id is valid, but compiles to a graph that the graph
  validators reject: they accept exactly the distinct ids (`Compiler.CompiledIsValidExactlyWhen`).
- `_truncate_utf8` returns more than its limit if and only if the limit is zero
  (`Context.TruncateUtf8`); `build` never asks for that, and its own limit always holds
  (`Context.ContextBuilder.Build`).

## Model

| member | source | states |
|---|---|---|
| `Graphs.NodeIsUnique` | src/graph_engineering/models/graph.py:160-163 | in a graph that passed the uniqueness check, looking a node up by its id finds that node |
| `Graphs.FindNode` | src/graph_engineering/runtime/parallel.py:819-823 | a lookup returns a node of that id, and misses only if no node has it |
| `Effects.RouteIsDecided` | src/graph_engineering/runtime/engine.py:1184-1265 | a route is held exactly behind a barrier; else it takes the first open edge, a repair exactly if that edge is bounded and the result failed, unless the repairs are spent; it ends the run with the ending of the result exactly if no edge is open |
| `Effects.BranchRouteIsDecided` | src/graph_engineering/runtime/parallel.py:519-568 | a branch closes with the outcome and error of the result exactly if no edge is open; else a barrier keeps it, spent repairs block it, or it takes the first open edge |
| `Machine.Worst` | src/graph_engineering/runtime/parallel.py:193-200 | the combined status is the status of some branch and no branch has a higher precedence |
| `Machine.PlanOfIsValid` | src/graph_engineering/models/graph.py:108-143 | the subgraph of every branch of a valid graph is a valid serial plan without containers |
| `Walks.SelectIsFirst` | src/graph_engineering/runtime/engine.py:1205-1216 | routing selects the first edge in declaration order that leaves the node, has traversals left and matches; none if there is no such edge |
| `Walks.SelectionIsUnique` | src/graph_engineering/runtime/engine.py:1205-1216 | the selected edge is determined by the edges, the counts, the result and the attempt number |
| `Walks.AdvanceKeepsToken` | src/graph_engineering/runtime/engine.py:1266-1298 | taking an edge leaves exactly one live node, the target, which is ready |
| `Walks.SettleKeepsToken` | src/graph_engineering/runtime/engine.py:1097-1108 | persisting a result keeps the one live node and stores that result unrouted |
| `Walks.InheritKeepsToken` | src/graph_engineering/runtime/engine.py:186-190 | a restart from a checkpoint with one live node has one live node, a running one made ready |
| `Ordering.LessIsTotal` | src/graph_engineering/runtime/parallel.py:186 | the order of ids is total and antisymmetric |
| `Ordering.LessIsTransitive` | src/graph_engineering/runtime/parallel.py:186 | the order of ids is transitive |
| `Ordering.AscendingIsUnique` | src/graph_engineering/models/results.py:116-118 | a set has exactly one strictly ascending listing, so sorting it is deterministic |
| `Ordering.Sort` | src/graph_engineering/context/builder.py:36-37 | the loop computes that one listing of a set |
| `Tokens.InitIsSound` | src/graph_engineering/runtime/engine.py:178-208 | a new run satisfies the structural invariant: rows, tokens, threads and barrier agree |
| `Tokens.StepKeepsSound` | src/graph_engineering/runtime/engine.py:340-406 | every label, of the loop, a branch thread, a control, a crash, a recovery or a restart, keeps the structural invariant |
| `Tokens.BranchStepKeepsSound` | src/graph_engineering/runtime/parallel.py:305-349 | every transaction and answer of a branch thread keeps it, under every interleaving |
| `Tokens.RestartKeepsSound` | src/graph_engineering/runtime/parallel.py:87-139 | a restart from the checkpoint of any sound state is sound |
| `Tokens.RunKeepsSound` | src/graph_engineering/runtime/engine.py:340-406 | so does every run |
| `Tokens.ReachableHasOneToken` | src/graph_engineering/runtime/engine.py:1286-1298 | in every reachable state exactly one top-level node is ready, running or done with an unrouted result, and so in every unsettled branch |
| `Tokens.SchedulerFindsTheToken` | src/graph_engineering/runtime/engine.py:901-917 | the two scheduling queries find the token and nothing else |
| `Tokens.SchedulerNeverFails` | src/graph_engineering/runtime/engine.py:360-366 | in every reachable state one of the two queries finds a row, and a branch thread about to start stands at a ready node: the internal errors are unreachable |
| `Tokens.CombineIsValid` | src/graph_engineering/models/results.py:114-135 | the combination of valid branch results always passes the validator of ParallelResult |
| `Tokens.AggregateFits` | src/graph_engineering/runtime/parallel.py:181-237 | what a container yields is a valid result for its kind |
| `Tokens.FinishedResultIsValid` | src/graph_engineering/runtime/parallel.py:633-654 | the result written for a finished branch passes the validator of BranchResult |
| `Effects.BranchMoveTouches` | src/graph_engineering/runtime/parallel.py:305-349 | a branch thread writes only its own branch, its thread and the shared counters |
| `Effects.StepIsQuiet` | src/graph_engineering/runtime/engine.py:919-985 | only starts, routes and restarts change attempt numbers, traversal counts or budget counters |
| `Effects.StepKeepsSlots` | src/graph_engineering/runtime/parallel.py:39-85 | branch rows are created once, and keep their subgraph and order for ever |
| `Effects.OnlyRoutesSucceed` | src/graph_engineering/runtime/engine.py:1217-1234 | no step but a route without an open edge can end a run as succeeded |
| `Discipline.StepIsGood` | src/graph_engineering/runtime/engine.py:1338-1382 | every step but a restart leaves the runs row alone, moves its status, ends the run once with a triple that can be reported, or stores a pause |
| `Discipline.EndingIsReportable` | src/graph_engineering/runtime/engine.py:1217-1234 | the ending routed from any valid result is a status, reason and error that FinalReport accepts |
| `Discipline.ReachableIsDisciplined` | src/graph_engineering/models/reports.py:127-148 | in every reachable state running has no barrier, a requested pause has its own, quiescing has interrupt or cancel, terminal has none; a terminal run has the ending of its status; every ending and every frozen report is acceptable to FinalReport |
| `Discipline.EndingIsFinal` | src/graph_engineering/runtime/engine.py:1359-1362 | over every continuation a terminal run that is not about to be parked keeps its status and ending, and a frozen report never changes |
| `Discipline.EndingIsFinalExactlyWhen` | src/graph_engineering/runtime/engine.py:1338-1349 | a terminal run stays as it is in every continuation if and only if the loop is not between reading a pause and storing it |
| `Discipline.StepIsDisciplinedExactlyWhen` | src/graph_engineering/runtime/engine.py:1338-1349 | a step keeps status, barrier, ending and report in agreement if and only if it does not store a pause behind another barrier |
| `Discipline.RunIsDisciplinedExactlyWhen` | src/graph_engineering/runtime/engine.py:349-351 | in every run they agree throughout if and only if no pause is stored late |
| `Discipline.CancelledRunCanGoOn` | src/graph_engineering/runtime/engine.py:1338-1349 | in every graph a cancel between the read of a pause and its store is overwritten, and the resumed run ends otherwise under a report that says cancelled |
| `Discipline.SerialStartRaisesExactlyWhen` | src/graph_engineering/runtime/engine.py:919-923 | the start of a serial node raises if and only if the run is not going, and then touches nothing |
| `Discipline.AttemptsStartOnlyWhileGoing` | src/graph_engineering/runtime/engine.py:921-923 | no attempt of the run or of a branch begins unless the run is running without a barrier |
| `Discipline.ReportIsFrozenExactlyWhen` | src/graph_engineering/runtime/engine.py:1381-1382 | a terminal run gets its report in some continuation if and only if it has it or the freeze is still to come |
| `Discipline.ReportIsLostExactlyBy` | src/graph_engineering/runtime/engine.py:1359-1382 | the report is lost by a crash between the two transactions and by no other step |
| `Discipline.ReportCanBeLost` | src/graph_engineering/runtime/engine.py:1381-1382 | in every graph a run can end and crash before its report is frozen |
| `Discipline.LostReportStaysLost` | src/graph_engineering/runtime/engine.py:1468-1472 | and then no recovery or other step ever freezes it |
| `Budgets.CountingStepKeepsAccounts` | src/graph_engineering/runtime/engine.py:927-964 | every start, route and restart keeps the counters equal to the recorded events and within their maxima |
| `Budgets.BranchStartIsAccounted` | src/graph_engineering/runtime/parallel.py:358-403 | a branch start takes one shared call and records one attempt |
| `Budgets.BudgetIsNeverExceeded` | src/graph_engineering/runtime/engine.py:927-964 | in every reachable state executor_calls is the number of counted serial and branch attempts since creation, repair_iterations the number of repair traversals, and neither exceeds its maximum |
| `Budgets.BoundedEdgesStayBounded` | src/graph_engineering/runtime/parallel.py:520-583 | no bounded edge, serial or in a branch, is traversed more than max_iterations times over the whole lineage |
| `AtMostOnce.HandingOverLapses` | src/graph_engineering/runtime/engine.py:387-388 | only an attempt that has begun and was not handed over is handed over, and handing it over uses it up |
| `AtMostOnce.StepKeepsLapsed` | src/graph_engineering/runtime/engine.py:945-952 | an attempt that is used up stays used up in every step, control, crash, recovery and restart |
| `AtMostOnce.NoAttemptIsHandedTwice` | src/graph_engineering/runtime/engine.py:288-314 | over any sequence of crashes, recoveries and restarts no attempt id reaches the executor or verifier twice |
| `AtMostOnce.LapsedIsNeverHanded` | src/graph_engineering/runtime/parallel.py:328-330 | in no continuation is a used-up attempt handed over again |
| `AtMostOnce.CrashLapses` | src/graph_engineering/runtime/engine.py:300-309 | a crash uses up every attempt begun so far |
| `Recovery.HandedAttemptsAreRecorded` | src/graph_engineering/runtime/engine.py:953-991 | whatever the executor or verifier was asked had been durably recorded as begun before |
| `Recovery.CrashThenRecover` | src/graph_engineering/runtime/engine.py:288-314 | a crash in an uncertain state, then recovery, ends the run as an uncertain effect and changes no row of a node or branch |
| `Recovery.CutOffAttemptEndsTheRun` | src/graph_engineering/runtime/engine.py:300-314 | after a crash, whatever follows (crashes, controls, cancels), nothing is handed over any more; until the first recovery or cancel the process is dead and the attempt cut off, and from then on the run is over, as an uncertain effect or as cancelled |
| `Recovery.CrashStrands` | src/graph_engineering/runtime/parallel.py:698-706 | a crash strands every branch that waits for an answer without a checkpointed handle |
| `Recovery.CutOffBranchEndsInError` | src/graph_engineering/runtime/parallel.py:698-706 | a stranded branch never ends in anything but an error or a cancellation |
| `Recovery.CheckpointedHandleIsPolled` | src/graph_engineering/runtime/engine.py:1123-1151 | at a running node with a checkpointed handle the loop polls, with every answer that fits; it neither starts nor gives up |
| `Recovery.RecoveryEndsTheRunExactlyWhen` | src/graph_engineering/runtime/engine.py:295-314 | recovery ends a live run if and only if an attempt was cut off or a node that is not running still has a trigger without a handle |
| `Recovery.SynchronousAnswerIsForgotten` | src/graph_engineering/runtime/engine.py:965-985 | a durable synchronous answer of an external verifier, a crash and a recovery end the run as an uncertain effect |
| `Admission.AdmissionTakesTheActive` | src/graph_engineering/runtime/parallel.py:150-160 | an admission takes every active branch before any pending one, as long as the active ones fit |
| `Admission.AdmissionIsBounded` | src/graph_engineering/runtime/parallel.py:150-170 | in every reachable state at most max_concurrency branches of a parallel node are active, and at most one of a nested container |
| `Admission.ClosedIsReopenedExactlyWhen` | src/graph_engineering/runtime/parallel.py:354-379 | a step makes a settled branch active again if and only if it is a start of its own thread that begins |
| `Admission.OrderIsKeptExactlyWhen` | src/graph_engineering/runtime/parallel.py:250-287 | a step keeps the order of interrupt, sweep and threads if and only if it does not store a pause before an outstanding sweep |
| `Admission.RunKeepsClosed` | src/graph_engineering/runtime/parallel.py:250-287 | in every run that stores no pause before an outstanding sweep a settled branch stays settled, whatever controls, crashes and restarts it holds |
| `LateWrites.ClosedRowIsWrittenExactlyWhen` | src/graph_engineering/runtime/parallel.py:460-496 | a step writes the row of a settled branch if and only if it is its own thread's and blocks, routes where the route closes or walks on, stores an answer that is kept, or begins an attempt |
| `LateWrites.SettledRowIsWrittenExactlyWhen` | src/graph_engineering/runtime/parallel.py:305-349 | some continuation without a restart writes the row of a settled branch if and only if its thread is at one of the places that lead there |
| `LateWrites.ReopenedLaterExactlyWhen` | src/graph_engineering/runtime/parallel.py:351-379 | some continuation without a restart makes a settled branch active again if and only if its thread is about to start, or has not looked yet, at a ready node in a run that is going, with calls left |
| `LateWrites.ShutRowIsFrozen` | src/graph_engineering/runtime/parallel.py:250-287 | a settled branch whose thread is gone, or cannot write any more, keeps its row in every continuation |
| `LateWrites.LeavingRewritesCancelled` | src/graph_engineering/runtime/parallel.py:655-667 | a thread about to route when cancel comes turns the cancelled row of the terminal run into what it found |
| `LateWrites.EnteringRewritesCancelled` | src/graph_engineering/runtime/parallel.py:305-316 | so does a thread that had not even looked, because cancel leaves no barrier behind |
| `LateWrites.BlockingEndsInTheBlock` | src/graph_engineering/runtime/parallel.py:726-763 | a thread that blocks its branch ends in that block or in a crash, whatever other threads and controls do meanwhile, and the block is final |
| `LateWrites.ExhaustedStartBlocksExactlyWhen` | src/graph_engineering/runtime/parallel.py:354-371 | with the shared calls spent a branch start becomes a block exactly if the run is going |
| `Progress.BranchMoveShrinks` | src/graph_engineering/runtime/parallel.py:331-349 | every transaction of a branch thread lowers one measure over calls left, unsettled branches and unrouted results |
| `Progress.ContainerSettles` | src/graph_engineering/runtime/parallel.py:141-179 | if executors and verifiers answer and no barrier is set, any interleaving of steps is no longer than that measure; the container is then done or still being stepped |
| `Progress.SteppingNeverSticks` | src/graph_engineering/runtime/parallel.py:161-179 | as long as it is not done, some thread can move or the next step can begin; with ContainerSettles it is done after boundedly many transactions |
| `Progress.ExhaustedBranchIsBlocked` | src/graph_engineering/runtime/parallel.py:361-371 | undisturbed, such a branch settles as blocked and spends nothing; BlockingEndsInTheBlock says the same among other threads |
| `Progress.OrderIsKept` | src/graph_engineering/runtime/parallel.py:54-68 | the persisted branch orders stay the positions in the container in every run |
| `Progress.JoinedDetailsAreEmptyExactlyWhen` | src/graph_engineering/runtime/parallel.py:796 | joining failure details gives the empty text if and only if there are none or a single empty one |
| `Progress.NestedAnswerIsValidExactlyWhen` | src/graph_engineering/runtime/parallel.py:781-816 | the answer of a nested container is valid if and only if the branch did not fail with the single empty detail |
| `Progress.NestedAnswerCanFail` | src/graph_engineering/models/results.py:62-70 | a verifier may give such an answer: it is valid itself, and the container's is not |
| `Schedules.SoloResultIsUnique` | src/graph_engineering/runtime/parallel.py:305-349 | where a branch ends when run alone does not depend on how long one looks |
| `Schedules.BranchMoveFollows` | src/graph_engineering/runtime/parallel.py:305-349 | one transaction of a thread, among any others, is one step of the solo run of its branch or none |
| `Schedules.EveryScheduleEndsLikeSolo` | src/graph_engineering/runtime/parallel.py:161-170 | with fixed answers and enough shared budget, every interleaving leaves every branch row exactly as its solo run does |
| `Schedules.AnswerIsCombinedSolo` | src/graph_engineering/runtime/parallel.py:181-237 | the answer of a parallel node is the combination of the solo results, and it passes its validator |
| `Schedules.AllSchedulesAgree` | src/graph_engineering/runtime/parallel.py:141-179 | two schedules give the same answer, even of graphs that differ in max_concurrency |
| `Schedules.SomeScheduleCompletes` | src/graph_engineering/runtime/parallel.py:141-179 | for any fitting answers, and from any state in which the container is being stepped, there is a schedule with these answers that brings it to its end |
| `Pauses.PausesAreTransparent` | src/graph_engineering/runtime/engine.py:347-365 | without containers and limits, two runs with the same answers end with the same node rows, traversal counts, counters and ending, however often either is paused and resumed |
| `Pauses.StepFollows` | src/graph_engineering/runtime/engine.py:1184-1187 | each step of a paused run is a step of the uninterrupted run or leaves its progress alone |
| `Pauses.StartRaisesExactlyWhen` | src/graph_engineering/runtime/parallel.py:354-357 | a branch thread about to start raises if and only if the run is not going |
| `Pauses.ThreadRaisesExactlyWhen` | src/graph_engineering/runtime/parallel.py:305-349 | a branch thread raises in exactly three places: a start while the run is not going, a pending answer without a handle, a poll that raises |
| `Pauses.PoolFailsExactlyWhen` | src/graph_engineering/runtime/parallel.py:161-175 | whatever happens while a pool is open, and whenever the barrier is read after it, the step of a parallel node fails if and only if one of these comes |
| `Pauses.PauseCanFailAContainer` | src/graph_engineering/runtime/engine.py:1042-1067 | one pause before such a start fails the container's step |
| `Witnesses.SmallestBeginsNested` | src/graph_engineering/models/graph.py:108-163 | a graph of one nested subgraph of one agent passes the validators, and begins so |
| `Witnesses.PauseFailsTheFirstContainer` | src/graph_engineering/runtime/parallel.py:354-356 | from the creation of every graph that begins with a nested subgraph: a pause before the branch starts makes the container an error |
| `Witnesses.CancelledBranchSucceeds` | src/graph_engineering/runtime/parallel.py:460-496 | from the creation of such a graph: a branch that a cancel has settled becomes succeeded in the cancelled run |
| `Witnesses.SettledBranchCanStart` | src/graph_engineering/runtime/parallel.py:351-379 | from the creation of such a graph: a pause stored over an interrupt, and a branch that the interrupt settles starts |
| `Witnesses.FirstAnswerIsForgotten` | src/graph_engineering/runtime/engine.py:965-985 | from the creation of every graph that begins with an external verifier: its durable answer, a crash and a recovery end the run as uncertain |
| `Compiler.Compile` | src/graph_engineering/compiler/execution.py:27-146 | refuses exactly the contracts that are not frozen, rejects exactly those whose node ids are malformed or repeated, and otherwise builds the graph of the ascending verifier ids, whatever their order in the contract, which passes the validators |
| `Compiler.SortedIsSorted` | src/graph_engineering/compiler/execution.py:30 | sorting the verifiers orders them; with the contract of Sorted it is a permutation |
| `Compiler.NodesOfCompiled` | src/graph_engineering/compiler/execution.py:31-86 | the nodes are exactly the six fixed ones and one per verifier |
| `Compiler.EdgesOfCompiled` | src/graph_engineering/compiler/execution.py:88-134 | the edges are exactly the pass and repair edges of each verifier and the six fixed ones |
| `Compiler.CompiledIsValid` | src/graph_engineering/models/graph.py:159-189 | for distinct verifiers the compiled graph passes the graph validators |
| `Compiler.DuplicatesAreRejected` | src/graph_engineering/models/contract.py:98 | for repeated verifier ids, which the contract allows, it does not |
| `Compiler.CompiledIsValidExactlyWhen` | src/graph_engineering/models/graph.py:159-189 | the validators accept the compiled graph if and only if the verifier ids are distinct |
| `Compiler.SortedIsAscending` | src/graph_engineering/compiler/execution.py:30 | for distinct ids the compiled order is the one ascending listing, whatever the order of declaration |
| `Delivery.EdgeStages` | src/graph_engineering/compiler/execution.py:87-134 | an open edge leads from a writer to the first verifier, from a passed gate to the next one or to deliver, and from a failed gate to a repair |
| `Delivery.StepKeepsGated` | src/graph_engineering/runtime/engine.py:1205-1234 | every step keeps the trail of verification that the place of the token promises |
| `Delivery.DeliveryIsGated` | src/graph_engineering/compiler/execution.py:87-134 | whenever deliver starts, every verifier in sorted order and then review has begun and passed since the last implement, repair or review_fix attempt |
| `Delivery.SuccessMeansDelivered` | src/graph_engineering/runtime/engine.py:1217-1223 | a run ends SUCCEEDED only at deliver: its row holds a success, and that answer is the last attempt that began, so nothing was written since the gate |
| `Bounds.AttemptsAreBounded` | src/graph_engineering/compiler/execution.py:107-132 | a run of a compiled graph with V verifiers and R repair iterations starts at most (R+1)(V+2)+2 attempts |
| `Bounds.EnoughCallsAreNeverExhausted` | src/graph_engineering/runtime/engine.py:932-935 | a call budget of that size never refuses a node |
| `Bounds.DiscoveryDefaultIsNeverExhausted` | src/graph_engineering/discovery/service.py:183-188 | one verifier, three repairs and twenty calls: the bound is fourteen and no node is refused |
| `Bounds.LoopIsFinite` | src/graph_engineering/runtime/engine.py:340-406 | left alone the loop makes boundedly many moves plus two for each poll that stays pending, so it stops if polls settle |
| `Bounds.LoopNeverSticks` | src/graph_engineering/runtime/engine.py:360-366 | it stops only because the run is over |
| `Runtime.SelectEdge` | src/graph_engineering/runtime/engine.py:1205-1216 | the loop over the edges returns the first open one |
| `Runtime.ProtocolAnswersFit` | src/graph_engineering/models/results.py:32-70 | the validators of executor and verifier results accept exactly the answers the machine allows |
| `Runtime.GraphRuntime.constructor` | src/graph_engineering/runtime/engine.py:121-275 | creates the machine's initial state |
| `Runtime.GraphRuntime.Restarted` | src/graph_engineering/runtime/engine.py:174-242 | creates a run that inherits the rows of any parent, as the machine's restart does |
| `Runtime.GraphRuntime.ValidIsReachable` | src/graph_engineering/runtime/engine.py:340-406 | every state of the program is a reachable state of the machine |
| `Runtime.GraphRuntime.InsertNodes` | src/graph_engineering/runtime/engine.py:178-207 | one row per node, and the entry node alone is ready |
| `Runtime.GraphRuntime.Initialize` | src/graph_engineering/runtime/parallel.py:39-85 | one pending row per branch of every container, with its order |
| `Runtime.GraphRuntime.InheritBranchRows` | src/graph_engineering/runtime/parallel.py:87-139 | inherits every branch row, an active branch made pending and a running node ready |
| `Runtime.GraphRuntime.NextNodeRow` | src/graph_engineering/runtime/engine.py:901-908 | returns the row to schedule, running before ready and then the smallest id; none only if there is none |
| `Runtime.GraphRuntime.UnresolvedResultRow` | src/graph_engineering/runtime/engine.py:910-917 | returns the smallest id with an unrouted result; none only if there is none |
| `Runtime.GraphRuntime.StartAttempt` | src/graph_engineering/runtime/engine.py:919-991 | raises if and only if the run is not going, refuses exactly when a budget or limit does, and otherwise is the machine's start; the first two write nothing |
| `Runtime.GraphRuntime.PersistResult` | src/graph_engineering/runtime/engine.py:1069-1121 | checkpoints a pending handle or stores the result, as the machine does |
| `Runtime.GraphRuntime.Finish` | src/graph_engineering/runtime/engine.py:1351-1382 | ends a live run and leaves a terminal one as it is |
| `Runtime.GraphRuntime.FreezeReport` | src/graph_engineering/runtime/engine.py:1437-1473 | stores the report of a run that is terminal, unless there is one; of a run that is not, none |
| `Runtime.GraphRuntime.StorePause` | src/graph_engineering/runtime/engine.py:1338-1349 | with whatever controls come first, stores the pause over the status it finds |
| `Runtime.GraphRuntime.HonorBarrierAfterResult` | src/graph_engineering/runtime/engine.py:1331-1336 | parks, ends or goes on to route as the barrier it reads says, with controls before the write; goes on only with the run not paused, and else leaves it at rest |
| `Runtime.GraphRuntime.RouteResult` | src/graph_engineering/runtime/engine.py:1184-1309 | honors a barrier, read once more, or selects; with whatever controls come before the write or before the end of the run, takes the first open edge, leaves it to a later turn, or ends the run |
| `Runtime.GraphRuntime.FollowEdge` | src/graph_engineering/runtime/engine.py:1236-1308 | the transaction that rechecks the barrier, takes the edge, or finds the repairs spent and then ends the run |
| `Runtime.GraphRuntime.UpdateRoute` | src/graph_engineering/runtime/engine.py:1266-1298 | one more traversal, the source routed, the target ready without a result, the counters of a repair raised |
| `Runtime.GraphRuntime.TerminalStatusFor` | src/graph_engineering/runtime/engine.py:1217-1234 | the ending for a result is the one the machine gives |
| `Runtime.GraphRuntime.ContinueExternal` | src/graph_engineering/runtime/engine.py:1123-1151 | polls a checkpointed handle and deals with that answer, raises with nothing written if the poll does; without a handle ends the run as uncertain unless it has ended meanwhile |
| `Runtime.GraphRuntime.Query` | src/graph_engineering/runtime/engine.py:1138-1146 | holds the answer of the poll, or leaves `run` with no row written if the poll raises |
| `Runtime.GraphRuntime.Call` | src/graph_engineering/runtime/engine.py:993-1067 | asks the executor or verifier once, with controls in between, and holds the converted answer |
| `Runtime.GraphRuntime.Join` | src/graph_engineering/runtime/parallel.py:239-248 | answers with the persisted result of the parallel node |
| `Runtime.GraphRuntime.CancelBranchRows` | src/graph_engineering/runtime/parallel.py:256-287 | settles every pending, or also every active, branch as cancelled and no other |
| `Runtime.GraphRuntime.Control` | src/graph_engineering/runtime/engine.py:571-643 | accepts a control exactly from the statuses that allow it; an accepted interrupt also cancels what is pending |
| `Runtime.GraphRuntime.Cancel` | src/graph_engineering/runtime/engine.py:408-421 | ends a live run as cancelled and freezes its report; a terminal one is left alone |
| `Runtime.GraphRuntime.Crash` | src/graph_engineering/runtime/store.py:171-182 | only what was committed survives a crash |
| `Runtime.GraphRuntime.Recover` | src/graph_engineering/runtime/engine.py:288-314 | ends a live run whose state is uncertain, with a report, and changes nothing otherwise |
| `Pool.SelectRows` | src/graph_engineering/runtime/parallel.py:150-160 | returns the first limit unsettled branches, active ones first and then in branch order |
| `Pool.CollectResults` | src/graph_engineering/runtime/parallel.py:182-192 | returns the branch results in ascending branch id |
| `Pool.ParallelCoordinator.StartAttempt` | src/graph_engineering/runtime/parallel.py:351-431 | is the machine's branch start: raises behind a barrier, blocks on an exhausted budget, else begins |
| `Pool.ParallelCoordinator.PersistResult` | src/graph_engineering/runtime/parallel.py:433-496 | is the machine's persist: checkpoints a handle, drops an answer after the end, else stores it |
| `Pool.ParallelCoordinator.RouteResult` | src/graph_engineering/runtime/parallel.py:498-676 | is the machine's branch route: closes, stays behind a barrier, blocks, or walks on |
| `Pool.ParallelCoordinator.Query` | src/graph_engineering/runtime/parallel.py:678-724 | polls the checkpointed handle and holds that answer; if the poll raises, so does the thread, and no row is written |
| `Pool.ParallelCoordinator.Block` | src/graph_engineering/runtime/parallel.py:726-763 | settles the branch as blocked or, after an uncertain trigger, as an error |
| `Pool.ParallelCoordinator.Aggregate` | src/graph_engineering/runtime/parallel.py:181-237 | nothing while a branch is open, else the combination, or an exception for an invalid nested answer |
| `Pool.ParallelCoordinator.Drive` | src/graph_engineering/runtime/parallel.py:161-170 | runs every thread to its end, in any order and with controls in between, and terminates |
| `Pool.ParallelCoordinator.Step` | src/graph_engineering/runtime/parallel.py:141-179 | behind a barrier does nothing; else opens a pool, drives it, closes it, and yields, raises or goes on as the machine says, with controls between each two of these |
| `Pool.ParallelCoordinator.Conclude` | src/graph_engineering/runtime/parallel.py:171-179 | reads the barrier, and cancels or aggregates in transactions of their own, with controls in between |
| `Scheduler.Run` | src/graph_engineering/runtime/engine.py:340-406 | stays within reachable states, takes up work in every turn, and returns only from a run at rest, with its status or with the ending that a cancel forestalled, or because a step limit is used up |
| `Scheduler.HonorStatus` | src/graph_engineering/runtime/engine.py:345-358 | leaves for a terminal or paused run, parks a requested pause whatever comes meanwhile, drains and ends an interrupted run, ends at a limit, and otherwise changes nothing |
| `Scheduler.Continue` | src/graph_engineering/runtime/engine.py:368-381 | steps a container, or polls a handle, raises as the poll does, or gives up without one |
| `Scheduler.RouteUnresolved` | src/graph_engineering/runtime/engine.py:361-365 | takes up a result that was persisted and not routed, and routes it |
| `Scheduler.StartNode` | src/graph_engineering/runtime/engine.py:383-404 | starts the node, ends the run exactly when a limit or budget refuses it, or raises, which takes a control since the head of the loop |
| `Scheduler.Conclude` | src/graph_engineering/runtime/engine.py:390-404 | persists the result and honors a barrier; raises exactly for a pending answer without a handle |
| `Scheduler.GoOnOrStop` | src/graph_engineering/runtime/engine.py:395-404 | returns if the run is at rest, ends it at a limit with controls in between, else routes |
| `Scheduler.TokenIsUnresolved` | src/graph_engineering/runtime/engine.py:360-366 | with no ready or running node there is an unrouted result |
| `Events.LogIsExactlyOnce` | src/graph_engineering/runtime/events.py:36-50 | a log in step with the outbox holds no event twice and holds a prefix of it in insertion order |
| `Events.UndeliveredAreTheRest` | src/graph_engineering/runtime/store.py:230-237 | the undelivered rows are the rest of the outbox, in order |
| `Events.StateStore.Enqueue` | src/graph_engineering/runtime/store.py:194-222 | appends a new event; a repeated id rolls the transaction back |
| `Events.StateStore.OutboxRows` | src/graph_engineering/runtime/store.py:230-237 | returns exactly the undelivered rows in insertion order |
| `Events.EventStore.ExistingIds` | src/graph_engineering/runtime/events.py:19-30 | returns exactly the ids in the log |
| `Events.EventStore.Flush` | src/graph_engineering/runtime/events.py:36-50 | keeps log and outbox in step wherever it dies and whatever commits meanwhile; dies exactly when its steps outlast the process; a completed flush without arrivals makes them equal |
| `PullRequests.PullRequestManager.Ensure` | src/graph_engineering/delivery/github.py:395-473 | sends a POST exactly when key, remote and barrier allow it, so at most one per key; a checkpointed handle is returned and never changes; a known key without a handle is confirmed from the remote or refused |
| `PullRequests.PullRequestManager.Post` | src/graph_engineering/delivery/github.py:449-473 | a lost response leaves the intent uncertain, another error failed, a confirmed answer checkpointed |
| `PullRequests.PullRequestManager.Checkpoint` | src/graph_engineering/delivery/github.py:549-592 | stores handle and intent together, exactly for a payload of the branch pair with all its fields |
| `PullRequests.PullRequestManager.Discover` | src/graph_engineering/delivery/github.py:531-547 | finds a request exactly when one matches, nothing exactly when none does, and refuses otherwise |
| `PullRequests.PullRequestManager.Update` | src/graph_engineering/delivery/github.py:491-529 | succeeds exactly for this run's own checkpointed handle, without a barrier, with a confirming answer |
| `StartClaims.StatusIsExact` | src/graph_engineering/delivery/coordinator.py:247-262 | start_claimed and started each mean one executing, or one completed, request, and a run never has two |
| `StartClaims.ClaimKeepsConsistent` | src/graph_engineering/delivery/coordinator.py:255-264 | a claim keeps requests and planned runs in agreement |
| `StartClaims.CompletionKeepsConsistent` | src/graph_engineering/delivery/coordinator.py:268-282 | a completion does |
| `StartClaims.AutonomousDeliveryCoordinator.Claim` | src/graph_engineering/delivery/coordinator.py:223-266 | claims exactly a new key for a prepared run; else replays the stored answer or refuses with the reason |
| `StartClaims.AutonomousDeliveryCoordinator.Complete` | src/graph_engineering/delivery/coordinator.py:268-288 | stores the result and marks the run started |
| `StartClaims.AutonomousDeliveryCoordinator.Run` | src/graph_engineering/delivery/coordinator.py:74-146 | refuses an incomplete request, an unplanned run and drift before any claim; no run is executed twice, over all keys and crashes; a completed replay returns the stored answer, an unfinished one is refused, a changed fingerprint is rejected |
| `StartClaims.AutonomousDeliveryCoordinator.Prepare` | src/graph_engineering/contracts/runs.py:69-86 | prepares a new run, and leaves the status of a planned one alone |
| `Mutations.RuntimeService.Claim` | src/graph_engineering/service/server.py:204-236 | claims exactly a new key; else the stored response, a refusal or a conflict |
| `Mutations.RuntimeService.Complete` | src/graph_engineering/service/server.py:238-244 | completes only an executing row |
| `Mutations.RuntimeService.Dispatch` | src/graph_engineering/service/server.py:155-202 | dispatches a mutation at most once per key; replays, refuses or rejects a known key without touching anything; leaves an unfinished one executing |
| `Containers.ContainerVerifier.Execute` | src/graph_engineering/verifier/container.py:434-579 | asks the adapter at most once per key, and exactly when nothing stands in the way; a known key is answered from its row; slots and active handles always make up the limit; stuck rows stay and count |
| `Containers.ContainerVerifier.StartContainer` | src/graph_engineering/verifier/container.py:473-579 | gives the slot back unless a container runs |
| `Containers.ContainerVerifier.Poll` | src/graph_engineering/verifier/container.py:581-661 | answers an ended execution from its row, and ends an open one unless it still runs or a stop raises; changes no other row, and gives back no other slot |
| `Containers.ContainerVerifier.Cancel` | src/graph_engineering/verifier/container.py:663-692 | ends an open execution as cancelled, or as an error if stop or cleanup left something; changes nothing if the cleanup after an unsettled stop raises |
| `Containers.ContainerVerifier.Finish` | src/graph_engineering/verifier/container.py:855-915 | writes the result once and gives the slot of the handle back |
| `Containers.ContainerVerifier.ReleaseHandle` | src/graph_engineering/verifier/container.py:974-980 | gives a slot back exactly once per active handle |
| `Containers.StartSticksExactlyWhen` | src/graph_engineering/verifier/container.py:550-579 | which starts leave a row that counts as active and has no handle |
| `Containers.StuckRowsAreCounted` | src/graph_engineering/verifier/container.py:459-468 | such rows use up the limit that is checked against the table |
| `Containers.NewKeyStartsExactlyWhen` | src/graph_engineering/verifier/container.py:459-470 | with every container ended, a key that nothing else refuses starts if and only if fewer such rows than the limit exist |
| `Costs.ReservationAddsUp` | src/graph_engineering/runtime/engine.py:499-512 | a new reservation keeps the run's and each node's cost equal to the sum of reservations and charges |
| `Costs.ChargeAddsUp` | src/graph_engineering/runtime/engine.py:432-440 | so does a charge |
| `Costs.CostLedger.Reserve` | src/graph_engineering/runtime/engine.py:453-523 | a replay changes nothing, an id reused for another cost or node is a collision, a new one is accepted exactly within both caps; the caps hold after every sequence of reservations |
| `Costs.CostLedger.Charge` | src/graph_engineering/runtime/engine.py:423-451 | adds the cost exactly once, and ends the run exactly if a cap is exceeded now or a time limit has passed |
| `SecretGuard.TailSeesWhatTheStreamSees` | src/graph_engineering/ui/security.py:34-37 | the kept tail and a new chunk contain a variant exactly when the whole stream does |
| `SecretGuard.FirstLeakIsEarliest` | src/graph_engineering/ui/security.py:34-44 | the first chunk after which the stream leaks holds the end of the earliest-ending occurrence |
| `SecretGuard.CuttingDoesNotMatter` | src/graph_engineering/ui/security.py:34-37 | however a stream is cut, the refused chunk holds the same byte |
| `SecretGuard.StreamingSecretGuard.Reject` | src/graph_engineering/ui/security.py:42-44 | raises exactly if a variant occurs |
| `SecretGuard.StreamingSecretGuard.CheckChunk` | src/graph_engineering/ui/security.py:34-37 | raises exactly if a variant occurs in everything passed since the reset and this chunk |
| `SecretGuard.StreamingSecretGuard.CheckStream` | src/graph_engineering/ui/security.py:34-44 | refuses some chunk exactly if the concatenation leaks, and then the one with the earliest end |
| `Utf8.DecodeEncode` | src/graph_engineering/context/builder.py:80-83 | whatever is encoded decodes to itself |
| `Utf8.EncodeDecode` | src/graph_engineering/context/builder.py:82-84 | whatever decodes was encoded, so overlong forms, surrogates and cut characters are errors (section 3 of RFC 3629) |
| `Utf8.FitIsLongest` | src/graph_engineering/context/builder.py:77-86 | the fitting prefix is the longest, and at most three bytes short of the allowance |
| `Utf8.CutDecodesExactlyWhen` | src/graph_engineering/context/builder.py:80-85 | cut bytes decode exactly if the cut falls between two characters, and then to a prefix |
| `Context.KeepWhole` | src/graph_engineering/context/builder.py:79-85 | the trimming loop keeps the longest whole-character prefix within the allowance and drops at most three bytes |
| `Context.TruncateUtf8` | src/graph_engineering/context/builder.py:76-86 | with room for the marker the text is that prefix and the marker, with less the end of the marker, with none all of it; it fits if and only if there is any room at all |
| `Context.TruncatedIsLongest` | src/graph_engineering/context/builder.py:76-86 | the truncated text fits its room and one more character would not |
| `Context.AddIsBounded` | src/graph_engineering/context/builder.py:57-69 | adding a section keeps what is there and stays within the limit |
| `Context.PackageIsBounded` | src/graph_engineering/context/builder.py:55-70 | so does adding all of them |
| `Context.ContextBuilder.Build` | src/graph_engineering/context/builder.py:35-70 | fails exactly if the required sections alone exceed the limit; else starts with them unchanged, stays within the limit, and adds, cuts or drops each optional section by the rule |

## Left out

- Scheduler.Run: the loop is cut off after a given number of turns, because a run may poll for ever; for compiled graphs `Bounds.LoopIsFinite` bounds the loop by its pending polls
- Schedules.AllSchedulesAgree: assumes that every answer depends only on branch, node, attempt and poll number, that no attempt was cut off before, that budgets suffice for all solo runs together, that no poll raises, and that no control or limit interferes
- Pauses.PausesAreTransparent: assumes a graph without containers and no clock, cost or node limit, because with containers it is false
- Compiler.CompiledIsValid: requires distinct verifier ids, which the contract validator does not check
- Containers.ContainerVerifier.Execute: the checks before the intent row (barrier, drift, image, mounts, preflight) are one flag
- Wall-clock limits and cost limits in the loop and in branch starts are nondeterministic flags; that the clock only goes forward is not used
- SQLite, JSON, pydantic parsing, hashes and timestamps: tables are maps, hashes are injective, JSON is the identity; a torn log line on a crash is outside the model
- Costs are real numbers, not floating point
- Texts are sequences of Unicode scalar values; a lone surrogate, for which encoding raises, is no character here
- Summaries, objectives, artifacts, decisions, risks and the retryable flag of errors, which nothing routes on; error details beyond code and message, and the messages of boundary exceptions
- Lists the source always sorts out of a set (changed files, completed nodes) are kept as sets
- The external_handles row of a node is kept with the node's row, so qualified names of branch nodes are taken to be distinct from each other and from top-level ids; ids may contain dots, so the source does not enforce that
- A branch is never reset: entering its container again answers with its old result, and no re-run is claimed
- `cancel` is one step: a crash, or a pause stored, between its transactions is outside the model; the code gives no clean guarantee there
- `_cancel_external_handles` talks to providers and writes no row of the model
- Several processes on one run database
- Lineage checks of a restart (contract and graph hashes), and run relationships beyond the inherited rows
- Session replay in the executor, which rewrites attempt rows
- The construction of secret variants (quoting, base64), and encoding before `check_text`
- Container mounts, image policy, redaction, output and artifact counting; frames, sockets and descriptors of the service; the HTTP client behind the pull requests
- Telemetry, UI snapshots and rendering, the CLI, reports' text, intent compilation, discovery questions, requirement status, review aggregation and contract freezing, which would only add easy members
