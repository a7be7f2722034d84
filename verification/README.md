# Two-robot package handoff: mission core

A mission carries N packages from a source over a transfer zone to a destination. One
robot works the upstream leg, another the downstream leg; the zone holds one robot and
one package. The core of the mission manager is an event-driven state machine: operator
requests and command results arrive in any order, late, twice, or while the mission or
a robot is paused, and each event returns the commands to send next. This project models
that core, from the behavior tree of one transport leg up to the ROS-free part of the
node's callbacks, and proves what it guarantees for every N, every retry limit and every
sequence of events.

## How it is laid out

The behaviour is written twice and the two are proved equal.

* As values: `Domain` (records), `BehaviorTree` (the 17 nodes and the resumable sequence),
  `TaskOrder` (task ids as texts, and their order), `Mission` (scheduler, event handlers,
  runs). These functions are what the properties are about.
* As it runs: `ExecutionManager`, `World`, `TaskRunner`, `MissionManager` and
  `MissionManagerNode` hold the classes, whose methods change fields in place and loop
  where the program loops. Every method's contract gives the whole new state as the
  corresponding function of the old one, and the commands returned as exactly the ids the
  function emits. A class invariant (`Valid`) contains the mission invariant.

The proofs build up in this order. `LocalInvariant` ties together, at every tree index,
a task, its robot, its package, the lease, the buffer and the one outstanding command.
`TickProof` shows each node and each tick keeps this. `Invariant` states it for a whole
mission and shows that a change to one task within a fixed guarantee cannot disturb the
others. `StepProof` shows every handler makes only such changes, so every reachable state
satisfies the invariant. `MicroSteps` splits an event into elementary changes, which
`History`, `Pausing` and `Budget` use to speak about whole runs. `Safety` and `Emission`
read the guarantees off the invariant. `Work`, `Progress`, `Asking`, `Delivery`, `WorkLeft`,
`Totals`, `Sharpness` and `TotalCorrectness` prove that a mission nobody disturbs never gets
stuck and delivers everything within the stated number of completions; `Resumption` proves
that one that was disturbed is got going again. `Filling` is about what an advance may not
leave undone, `Lifecycle` about the mission's status and aborts, `Effects` about what can
change robots and packages, `Records` about retry counters, phases and notes. `Witnesses`
holds reachable missions for which documented promises fail. `AccessRules` is about the
zone's rules alone, for any capacity. `NodeGate`, `Reports` and `NodeRefinement` put the
node's callbacks around the core.

## Where code and documentation differ

The model follows the code.

* `docs/mission-layer-architecture.md` describes a cancellation as keeping a paused task
  resumable or cancelling an aborted one. A cancellation for any other reason fails the task
  and the mission (`mission_manager.py` line 225).
* The same document has a completion followed by one advance of the mission. The code ticks
  the completed task first; if that emits a command it starts at most one more task and does
  not advance the others (lines 137-148).
* `docs/WebUI-dev-plan.md` says a paused mission dispatches no new work. A move whose arrival
  was not verified is issued again even then, and a failed result takes an aborted mission to
  FAILED. `Pausing.FrozenExactly` states exactly when; `Witnesses.PausedMissionCanEmit` and
  `Witnesses.AbortedMissionCanFail` give runs in which it happens.
* `docs/mission-layer-issues.md` notes that there is no ordered transfer queue. There is
  indeed no queue, but the order holds all the same: `Safety.FifoHandoff`.

## Model

| member | source | states |
|---|---|---|
| `TotalCorrectness.DeliversEverything` | rmf_ws/src/mission_manager/mission_manager/mission_manager.py:105-148 | For every number of packages N and every order in which outstanding commands complete after Start: for N >= 1 at most 12N - 1 completions are ever accepted; while anything is outstanding the mission is RUNNING; when nothing is, it is COMPLETED, every package is uncarried at the destination, and at least 10N + 1 completions were accepted |
| `TotalCorrectness.OnePackageTakesEleven` | rmf_ws/src/mission_manager/mission_manager/mission_manager.py:105-148 | With one package the two bounds meet, and a complete run of eleven completions attains them |
| `Sharpness.FirstIsFree` | rmf_ws/src/mission_manager/mission_manager/resource_manager.py:37-70 | Until the upstream task of the package that sorts first has entered the zone, the zone is unleased and nothing is buffered, so that task is never refused |
| `Sharpness.CompletionExact` | rmf_ws/src/mission_manager/mission_manager/mission_manager.py:105-148 | A completion takes at least one off the most commands left, counting no waiting move for the upstream task of the first package |
| `Sharpness.CompletionPrestaged` | rmf_ws/src/mission_manager/mission_manager/scheduler.py:29-56 | A completion takes at most one off the least commands left, counting the waiting move of the downstream task of the first package, which is sent ahead of it: if the task has not started when the package is loaded, that same event starts it and it is refused |
| `TotalCorrectness.EveryRunFinishes` | rmf_ws/src/mission_manager/mission_manager/mission_manager.py:348-380 | Every partial run of accepted completions can be continued until the mission is COMPLETED |
| `TotalCorrectness.AfterIsRun` | rmf_ws/src/mission_manager/mission_manager/mission_manager.py:71-92 | The runs counted above are runs of the event entry point: Start, then one completion event per accepted command |
| `Delivery.DeadlockFreedom` | rmf_ws/src/mission_manager/mission_manager/mission_manager.py:134-148 | After any sequence of starts, completions and failures (and cancellations that count as failures), a RUNNING mission has a task whose active command is open |
| `Safety.NoCircularWait` | rmf_ws/src/mission_manager/mission_manager/resource_manager.py:51-70 | In every reachable state, under all events, the buffer is empty or holds the awaited package while a downstream task waits for it or takes it; so an upstream robot is never refused because the buffer is full while a downstream robot is refused because its package is not there |
| `Progress.StuckMeansDone` | rmf_ws/src/mission_manager/mission_manager/mission_manager.py:361-380 | If nothing is outstanding, every started task has been refused the zone and the scheduler finds nothing to start, then every task has succeeded |
| `Asking.PassEmitsOrDone` | rmf_ws/src/mission_manager/mission_manager/mission_manager.py:361-380 | With nothing outstanding, no robot paused and no task dropped, one pass over the tasks, wherever pauses, failures and cancellations left them, emits a command or leaves every task at the end of its tree |
| `Asking.InterruptedGoesOn` | rmf_ws/src/mission_manager/mission_manager/mission_manager.py:348-380 | So advancing such a mission emits a command, completes it, or does all that was left to do |
| `Resumption.ResumedMissionGoesOn` | rmf_ws/src/mission_manager/mission_manager/mission_manager.py:95-102 | After any run without an abort, however often paused, resumed, cancelled, failed and retried: if the mission is RUNNING with nothing outstanding and no robot paused, a start request emits a command or completes it, or the next one completes it |
| `Resumption.ResumeGetsGoing` | rmf_ws/src/mission_manager/mission_manager/mission_manager.py:248-255 | After any run without an abort: a PAUSED mission with no robot paused and nothing outstanding emits a command on a resume, or completes, or has no work left |
| `Resumption.RobotResumeGetsGoing` | rmf_ws/src/mission_manager/mission_manager/mission_manager.py:266-274 | The same for the robot resume that lifts the last pause of a RUNNING mission with nothing outstanding |
| `Resumption.LateCancelGetsGoing` | rmf_ws/src/mission_manager/mission_manager/mission_manager.py:214-219 | The same for the cancellation of the last outstanding command when it was for a robot pause that is over |
| `Filling.NoRobotIdles` | rmf_ws/src/mission_manager/mission_manager/mission_manager.py:361-380 | Whenever an event makes the mission look for work (start, resume, robot resume, completion, late cancellation): if it emits nothing, or goes on with a task already started, then no task that is ready is left unstarted |
| `Filling.NoTaskIsPassedOver` | rmf_ws/src/mission_manager/mission_manager/mission_manager.py:361-373 | An advance leaves every started task of an unpaused robot with a command out, waiting for the zone, or done, unless it went on with a task that comes earlier by package and leg |
| `Filling.CompletionIsFollowed` | rmf_ws/src/mission_manager/mission_manager/mission_manager.py:134-148 | A task whose command was completed is gone on with as far as it can by itself, unless mission or robot is held; also in a FAILED mission |
| `Filling.ReadyExactly` | rmf_ws/src/mission_manager/mission_manager/scheduler.py:29-56 | In a reachable state a task can be started if and only if it is pending, its robot is free and unpaused, and, downstream, its package is being carried or is buffered in an unleased zone |
| `Delivery.RunLive` | rmf_ws/src/mission_manager/mission_manager/mission_manager.py:95-102 | Undisturbed runs only reach states in which every started task waits for a command or at its waiting place, and a RUNNING mission has something outstanding |
| `Delivery.BufferIsExact` | rmf_ws/src/mission_manager/mission_manager/transport_task_runner.py:265-284 | In an undisturbed running mission the buffer list holds exactly the packages lying at transfer |
| `StepProof.ReachableInvariant` | rmf_ws/src/mission_manager/mission_manager/mission_manager.py:71-92 | Every state reachable by any events in any order satisfies the mission invariant: tree index, lease, occupancy, buffer, robot ownership, package stage and outstanding command of all tasks agree |
| `StepProof.StepKeepsInvariant` | rmf_ws/src/mission_manager/mission_manager/mission_manager.py:71-92 | Each single event of any kind, with any command id, keeps the mission invariant |
| `StepProof.InitialInvariant` | rmf_ws/src/mission_manager/mission_manager/mission_manager.py:294-346 | The mission as built satisfies the invariant, for every number of packages and every retry limit |
| `TickProof.TickKeepsInvariant` | rmf_ws/src/mission_manager/mission_manager/behavior_tree.py:47-61 | A tick from any index leaves the task, its robot, its package and the zone in agreement, and changes for other tasks only what they may rely on changing |
| `Invariant.ChangeKeepsInvariant` | rmf_ws/src/mission_manager/mission_manager/transport_task_runner.py:53-58 | Changing one task's records within that guarantee keeps the invariant of the whole mission, whatever the other tasks are doing |
| `Safety.TransferMutualExclusion` | rmf_ws/src/mission_manager/mission_manager/resource_manager.py:37-70 | In every reachable state at most one robot is at transfer or has an open move there, and the active lease is its |
| `Safety.PackageCustody` | rmf_ws/src/mission_manager/mission_manager/world.py:83-92 | In every reachable state each package is in one of five stages, a carried package is that of its carrier's active task, and an open load or unload has robot and package in place |
| `Safety.BufferAgreement` | rmf_ws/src/mission_manager/mission_manager/resource_manager.py:105-113 | At most one package is buffered, at most one lies uncarried at transfer, and the two views agree on every package but the leased one |
| `Safety.BufferLag` | rmf_ws/src/mission_manager/mission_manager/mission_manager.py:122-132 | The two views differ on a package if and only if its handling result was applied and its task has not been ticked since; then it is the leased package and no command of its task is active |
| `Safety.FifoHandoff` | rmf_ws/src/mission_manager/mission_manager/scheduler.py:12-27 | Once a leg of a package has started, that leg of every package sorted before it has succeeded, on both legs and under all events |
| `StepProof.ScheduledInOrder` | rmf_ws/src/mission_manager/mission_manager/scheduler.py:12-56 | Whatever the scheduler picks, including a robot sent ahead of its package, the same leg of every package sorted before it is already finished |
| `StepProof.NextReadyIsLeast` | rmf_ws/src/mission_manager/mission_manager/scheduler.py:12-27 | The scheduler finds a task whenever one is ready, and no ready task has a smaller id |
| `Safety.LegDependency` | rmf_ws/src/mission_manager/mission_manager/resource_manager.py:64-69 | A downstream task that has been let into the zone belongs to a package whose upstream task has succeeded |
| `Safety.CommandTaskBijection` | rmf_ws/src/mission_manager/mission_manager/execution_manager.py:107-125 | In every reachable state the open commands are exactly the active commands of their own tasks, and each robot has at most one |
| `Safety.CompletedIsFinal` | rmf_ws/src/mission_manager/mission_manager/mission_manager.py:351-359 | COMPLETED means everything delivered, buffer, occupancy and lease empty, robots idle, nothing open; no later run of events changes that or emits |
| `Safety.RedeliveryIsStutter` | rmf_ws/src/mission_manager/mission_manager/mission_manager.py:111-116 | Dropping the duplicate, late and unknown results from any run gives the same final state and the same commands |
| `Safety.StaleInsertion` | rmf_ws/src/mission_manager/mission_manager/mission_manager.py:111-116 | Such a result can be inserted at any point of any run, or taken out, with the same final state and the same commands |
| `Safety.FirstResultCounts` | rmf_ws/src/mission_manager/mission_manager/execution_manager.py:107-118 | After the first result for an issued command, and whatever happens between, every further result for it changes nothing |
| `Emission.EmittedIsCreated` | rmf_ws/src/mission_manager/mission_manager/mission_manager.py:137-148 | Every event returns exactly the commands it newly created: at most two, pending, each the active command of its task, two only for different robots |
| `History.RunEvolves` | rmf_ws/src/mission_manager/mission_manager/transport_task_runner.py:332-338 | Over any run no tree index decreases, SUCCEEDED is kept, no package goes back a stage, no command is forgotten, and an ended command never changes |
| `MicroSteps.PlanStep` | rmf_ws/src/mission_manager/mission_manager/mission_manager.py:71-92 | Every event is a sequence of elementary changes, each enabled where it is made; the lemmas over runs are proved for these and lifted |
| `Budget.BoundedWork` | rmf_ws/src/mission_manager/mission_manager/mission_manager.py:168-191 | Over any run, the commands ever created for one task number at most 6 + 3 * retry limit + its cancelled ones; retries are counted per target, so the wait move and the exit move share one budget |
| `Work.BoundsOk` | rmf_ws/src/mission_manager/mission_manager/transport_task_runner.py:23-44 | A task needs at most six completed commands, five or six when unstarted, none once its tree is done |
| `Work.TickNarrows` | rmf_ws/src/mission_manager/mission_manager/transport_task_runner.py:23-44 | Ticking a task never raises the most, nor lowers the least, number of commands it still has to complete |
| `WorkLeft.LandedCounts` | rmf_ws/src/mission_manager/mission_manager/transport_task_runner.py:60-82 | A completion takes exactly one off both bounds of its own task and nothing off any other task's |
| `Pausing.PausedRobotIsIsolated` | rmf_ws/src/mission_manager/mission_manager/mission_manager.py:257-274 | From pause to resume of one robot its tasks' indices, its lease and its occupancy stay frozen, and it gets no command but a repeat of an unverified move, whatever the other robot does |
| `Pausing.FrozenMission` | rmf_ws/src/mission_manager/mission_manager/mission_manager.py:351-352 | Over any stretch in which the mission is PAUSED or ABORTED throughout, also when it goes from the one to the other, no index, lease, occupancy or buffer entry changes and only unverified moves are issued again |
| `Pausing.FrozenExactly` | rmf_ws/src/mission_manager/mission_manager/mission_manager.py:169-191 | A frozen mission that is not just resumed emits if and only if an unverified move is retried, and is FAILED after an event if and only if its result fails its task; otherwise an abort leaves it ABORTED and any other event leaves its status |
| `Witnesses.PausedMissionCanEmit` | rmf_ws/src/mission_manager/mission_manager/mission_manager.py:172-187 | For every N >= 1 and every positive retry limit, the mission started and then paused emits a command while PAUSED, on an unverified arrival of its open move |
| `Witnesses.AbortedMissionCanFail` | rmf_ws/src/mission_manager/mission_manager/mission_manager.py:188-191 | For every N >= 1, the mission started and then aborted goes to FAILED on a failure of its open move |
| `Pausing.FrozenCompletionApplies` | rmf_ws/src/mission_manager/mission_manager/mission_manager.py:122-132 | A completion received while mission or robot is held still moves the robot, loads or unloads the package, and clears the active command |
| `Lifecycle.StatusExactly` | rmf_ws/src/mission_manager/mission_manager/mission_manager.py:71-92 | The mission's status after every event: FAILED, ABORTED and PAUSED exactly when a result fails a task, an abort or a pause applies; COMPLETED by a request exactly when all tasks have succeeded; otherwise as it was |
| `Lifecycle.OtherwiseStandsStill` | rmf_ws/src/mission_manager/mission_manager/mission_manager.py:71-92 | An event that neither makes the mission look for work, nor retries a move, nor completes an open command of a mission and robot not held, emits nothing and leaves every tree index and the zone as they were |
| `Lifecycle.AbortExactly` | rmf_ws/src/mission_manager/mission_manager/mission_manager.py:276-291 | An abort of a READY, RUNNING, PAUSED or FAILED mission leaves it ABORTED, with each task SUCCEEDED if it was and CANCELLED otherwise, and changes nothing else; of any other mission it changes nothing |
| `Lifecycle.AbortedStep` | rmf_ws/src/mission_manager/mission_manager/mission_manager.py:122-132 | In a mission that stays ABORTED an event sets a task to RUNNING exactly when it retries the task's move, cancels its command for a pause, or completes it while its robot is paused; to CANCELLED exactly when it completes or aborts its command otherwise; no other task status changes |
| `Lifecycle.AbortedTasksStayCancelled` | rmf_ws/src/mission_manager/mission_manager/mission_manager.py:276-291 | From an abort on, for as long as the mission is ABORTED: what had succeeded stays so, and every other task is CANCELLED unless such an event revived it |
| `Records.RetriesAreCounted` | rmf_ws/src/mission_manager/mission_manager/mission_manager.py:173-191 | Over every run: a failure makes a command go out again if and only if it is the unverified arrival of a move, and fewer moves of the same task to the same target than the retry limit are on record as unverified |
| `Records.PhaseIsShown` | rmf_ws/src/mission_manager/mission_manager/transport_task_runner.py:104-304 | Over every run every task rests at an index of its leg and shows the phase that index stands for |
| `Resumption.StatusIsShown` | rmf_ws/src/mission_manager/mission_manager/transport_task_runner.py:85-101 | After any run without an abort or a failure a task is PENDING before its tree, SUCCEEDED after it, and in it RUNNING, or BLOCKED only where it asks for the zone with no command out |
| `Records.TickExplains` | rmf_ws/src/mission_manager/mission_manager/transport_task_runner.py:146-185 | A tick that leaves a task asking for the zone notes the zone, the waiting place and what stands in the way, the robot with the lease, the package in the buffer or the package not yet there; and whether it is moving there or blocked there |
| `Records.AskExplains` | rmf_ws/src/mission_manager/mission_manager/transport_task_runner.py:104-143 | Access granted clears these notes and makes the robot busy |
| `Effects.StepTouches` | rmf_ws/src/mission_manager/mission_manager/mission_manager.py:71-92 | An event moves a robot only to the target of its own completed move, changes a package only as its completed handling says, and changes a pause flag only by a request about that robot |
| `Effects.PausedIsLastRequest` | rmf_ws/src/mission_manager/mission_manager/mission_manager.py:257-274 | Over every run a robot is paused if and only if the last request about it was to pause it |
| `Idempotence.AdvanceTwice` | rmf_ws/src/mission_manager/mission_manager/behavior_tree.py:47-61 | In any state, ticking a task twice equals ticking it once, and the second tick emits nothing |
| `TaskOrder.BothLegsSortAlike` | rmf_ws/src/mission_manager/mission_manager/scheduler.py:12-12 | The string order of two task ids of different packages depends on the packages alone, so both legs sort packages the same way |
| `TaskOrder.DecidedBeforeColon` | rmf_ws/src/mission_manager/mission_manager/mission_manager.py:307-325 | Two different numerals followed by a colon compare the same whatever comes after the colon |
| `TaskOrder.TenSortsBeforeOne` | rmf_ws/src/mission_manager/mission_manager/scheduler.py:12-12 | The order is not numeric: P10 sorts before P1 |
| `TaskOrder.TextDeterminesItem` | rmf_ws/src/mission_manager/mission_manager/mission_manager.py:307-325 | Task id texts of different packages differ, so the dictionaries do not collide |
| `TaskOrder.SortedSorts` | rmf_ws/src/mission_manager/mission_manager/scheduler.py:12-12 | Sorting the distinct task ids gives the same ids in strictly ascending order |
| `TaskOrder.IdTotal` | rmf_ws/src/mission_manager/mission_manager/scheduler.py:12-12 | Task ids are totally ordered as texts |
| `AccessRules.AccessExactly` | rmf_ws/src/mission_manager/mission_manager/resource_manager.py:37-70 | For any capacities and waiting places: access is granted if and only if nobody else holds the lease and the actor is inside or there is room for it and its package; a refusal gives its reason and the actor's waiting place |
| `AccessRules.LeaseIsNotStolen` | rmf_ws/src/mission_manager/mission_manager/resource_manager.py:75-91 | A lease is never taken over, and a free zone is leased exactly when a robot outside is let in |
| `AccessRules.RobotCapacityKept` | rmf_ws/src/mission_manager/mission_manager/resource_manager.py:93-96 | Whoever is let in fits the robot capacity |
| `AccessRules.PackageCapacityExactly` | rmf_ws/src/mission_manager/mission_manager/resource_manager.py:105-108 | A dropoff that was let in fits the package capacity, except exactly when the robot was inside already and a different package fills the buffer |
| `AccessRules.ReleaseUndoesEntry` | rmf_ws/src/mission_manager/mission_manager/resource_manager.py:98-103 | Release undoes grant and occupation |
| `AccessRules.OnlyHolderReleases` | rmf_ws/src/mission_manager/mission_manager/resource_manager.py:98-103 | A release by anybody but the holder leaves the lease |
| `AccessRules.ReleaseItemUndoesBuffer` | rmf_ws/src/mission_manager/mission_manager/resource_manager.py:110-113 | Taking a package out undoes buffering it |
| `NodeGate.LocationIsGated` | rmf_ws/src/mission_manager/mission_manager/mission_manager_node.py:382-406 | A robot's location changes only through a SUCCEEDED report from an allowed source with verified arrival, on an open move of that robot to the new location |
| `NodeGate.CustodyIsGated` | rmf_ws/src/mission_manager/mission_manager/mission_manager_node.py:269-307 | A package's record changes only through a SUCCEEDED report on an open command that handles it, and then as that command says |
| `NodeGate.HandlingTakesEffect` | rmf_ws/src/mission_manager/mission_manager/mission_manager_node.py:269-307 | Every such report takes effect, paused or not |
| `Reports.ReportIsRecorded` | rmf_ws/src/mission_manager/mission_manager/mission_manager_node.py:267-314 | Every report on an open command ends it with the status and the error the report stands for: a success of a move counts only from an allowed source and with a verified arrival, and is recorded as a failure otherwise; any other report changes nothing |
| `Reports.ReportFails` | rmf_ws/src/mission_manager/mission_manager/mission_manager_node.py:296-314 | A report of a failure not to be retried, of a cancellation that is not an operator's, or of a success that does not count fails task and mission, with reason and robot noted, and changes nothing else |
| `Reports.ReportRetries` | rmf_ws/src/mission_manager/mission_manager/mission_manager.py:173-189 | A report that leaves an unverified arrival with retries left sends the same move again under the next id and counts it, and changes nothing else |
| `Reports.ReportReleases` | rmf_ws/src/mission_manager/mission_manager/mission_manager.py:212-223 | A cancellation for an operator's pause or abort only takes the command off its task and sets the task's status, unless it makes the mission advance |
| `Reports.NewIsSent` | rmf_ws/src/mission_manager/mission_manager/mission_manager_node.py:428-447 | Whatever a callback creates has been sent: moves are submitted, handling is running |
| `Reports.ResponseExactly` | rmf_ws/src/mission_manager/mission_manager/mission_manager_node.py:118-128 | An accepted submission marks its command running while that is open, and does nothing else |
| `NodeGate.ArrivalMoves` | rmf_ws/src/mission_manager/mission_manager/mission_manager_node.py:269-294 | Every such report takes effect, paused or not |
| `NodeGate.StatusesAdvance` | rmf_ws/src/mission_manager/mission_manager/mission_manager_node.py:428-447 | No callback takes a command back in PENDING, SUBMITTED, RUNNING, ended, although the two marks are unguarded; an ended command never changes |
| `NodeGate.NodeKeepsInvariant` | rmf_ws/src/mission_manager/mission_manager/mission_manager_node.py:248-314 | Every callback keeps the mission invariant |
| `NodeRefinement.NodeRefinesCore` | rmf_ws/src/mission_manager/mission_manager/mission_manager_node.py:248-314 | Every run of node callbacks, its submitted and running marks forgotten, is a run of the mission core on the events the callbacks lead to |
| `NodeRefinement.NodeIsSafe` | rmf_ws/src/mission_manager/mission_manager/mission_manager_node.py:118-128 | At the node too at most one robot uses the zone and COMPLETED means delivered, after any callbacks |
| `MissionManager.MissionManager.HandleEvent` | rmf_ws/src/mission_manager/mission_manager/mission_manager.py:71-92 | On the live objects: one event is exactly one step of the state machine, the returned commands are exactly those it emits, and the invariant is kept |
| `MissionManager.CreateDefault` | rmf_ws/src/mission_manager/mission_manager/mission_manager.py:294-346 | The objects built for N packages make up the initial state with retry limit 2 and satisfy the invariant |
| `MissionManager.MissionManager.Advance` | rmf_ws/src/mission_manager/mission_manager/mission_manager.py:348-380 | The pass over the task objects, in dictionary order and up to the first that emits, ends in the state of `Mission.Advance` and returns its commands; that function keeps the invariant, emits for two robots at most and, in an undisturbed mission, never leaves it stuck; by `Filling.NoRobotIdles` and `Filling.NoTaskIsPassedOver` it leaves no ready task unstarted beside an idle robot and no started one behind |
| `MissionManager.MissionManager.CommandCompleted` | rmf_ws/src/mission_manager/mission_manager/mission_manager.py:105-148 | The objects end in the state of `Mission.HandleCompleted`: nothing happens unless the command was open; while mission or robot is held only the effect is applied; otherwise the task is ticked and the free robot filled, and the commands returned are those created |
| `MissionManager.MissionManager.CommandFailed` | rmf_ws/src/mission_manager/mission_manager/mission_manager.py:150-191 | The objects end in the state of `Mission.HandleFailed`: an unverified move with retries left is issued again under a new id and counted, anything else fails task and mission; a late result changes nothing; the retries are those `Records.RetriesAreCounted` counts on the command records |
| `MissionManager.MissionManager.CommandCancelled` | rmf_ws/src/mission_manager/mission_manager/mission_manager.py:193-226 | The objects end in the state of `Mission.HandleCancelled`: released for a later tick, dropped, or failed, by reason; the mission advances only after a robot pause that is already over |
| `MissionManager.MissionManager.FailTask` | rmf_ws/src/mission_manager/mission_manager/mission_manager.py:228-237 | Failing a task changes its status, its reason and its blocker and the mission's status; every other record of the mission is as before |
| `MissionManager.MissionManager.StartRequested` | rmf_ws/src/mission_manager/mission_manager/mission_manager.py:95-102 | A start changes only a READY mission's status, then advances; the commands returned are those the advance creates |
| `MissionManager.MissionManager.PauseRequested` | rmf_ws/src/mission_manager/mission_manager/mission_manager.py:240-246 | Only a RUNNING mission is paused; no record but the status changes and nothing is returned |
| `MissionManager.MissionManager.ResumeRequested` | rmf_ws/src/mission_manager/mission_manager/mission_manager.py:248-255 | Only a PAUSED mission is resumed, and it advances at once: `Resumption.ResumeGetsGoing` and `Filling.NoRobotIdles` say with what effect |
| `MissionManager.MissionManager.RobotPauseRequested` | rmf_ws/src/mission_manager/mission_manager/mission_manager.py:257-264 | The robot's flag alone changes; an unknown robot is ignored |
| `MissionManager.MissionManager.RobotResumeRequested` | rmf_ws/src/mission_manager/mission_manager/mission_manager.py:266-274 | Only a paused known robot is resumed, and the mission advances at once |
| `MissionManager.MissionManager.AbortRequested` | rmf_ws/src/mission_manager/mission_manager/mission_manager.py:276-291 | Status and task statuses change, and nothing else: tree indices, leases, active commands and packages stay; which statuses, `Lifecycle.AbortExactly` says |
| `MissionManager.MissionManager.CancelTasks` | rmf_ws/src/mission_manager/mission_manager/mission_manager.py:287-290 | The abort loop: each task ends as it was if SUCCEEDED, else CANCELLED, with nothing else of it changed, as in `Lifecycle.AbortExactly` |
| `MissionManager.TransportTaskScheduler.NextReadyTask` | rmf_ws/src/mission_manager/mission_manager/scheduler.py:8-27 | The first-match loop over the sorted ids returns the task the specification's scheduler picks |
| `MissionManager.TransportTaskScheduler.ReadyMatches` | rmf_ws/src/mission_manager/mission_manager/scheduler.py:29-56 | The readiness test on the live objects is the specification's, pre-staging exception and managed pickup included |
| `TaskRunner.TransportTaskRunner.Advance` | rmf_ws/src/mission_manager/mission_manager/behavior_tree.py:47-61 | The resumable while loop over the saved index leaves task, robot, zone and commands as the recursive `BehaviorTree.TickTree` does, the function the invariant, the work bounds and idempotence are proved about; the commands it returns are exactly the new ones |
| `TaskRunner.TransportTaskRunner.Start` | rmf_ws/src/mission_manager/mission_manager/transport_task_runner.py:46-51 | A first tick, after the task was marked running, is the tree tick of the marked task |
| `TaskRunner.TransportTaskRunner.ApplyCommandSuccess` | rmf_ws/src/mission_manager/mission_manager/transport_task_runner.py:60-82 | A command that is not the task's active one changes nothing and is reported so; otherwise the slot is cleared and exactly the command's robot or package is changed |
| `TaskRunner.TransportTaskRunner.TickNode` | rmf_ws/src/mission_manager/mission_manager/transport_task_runner.py:23-44 | Each kind of node changes the objects as `BehaviorTree.TickNode` says and nothing else; a node that is done emits nothing |
| `TaskRunner.TransportTaskRunner.TickClaim` | rmf_ws/src/mission_manager/mission_manager/transport_task_runner.py:85-101 | An own robot is kept, an idle one claimed, a busy one waited for |
| `TaskRunner.TransportTaskRunner.TickRequest` | rmf_ws/src/mission_manager/mission_manager/transport_task_runner.py:104-143 | Access once acquired is not asked for again; a grant takes the lease and clears the explanations, a refusal records them |
| `TaskRunner.TransportTaskRunner.TickWait` | rmf_ws/src/mission_manager/mission_manager/transport_task_runner.py:145-168 | A refused robot goes to its waiting place, or stays there blocked, with reason, blocker and place recorded |
| `TaskRunner.TransportTaskRunner.TickMove` | rmf_ws/src/mission_manager/mission_manager/transport_task_runner.py:187-209 | At the target the node is done; with a command in flight it waits; else it creates one move, which becomes the active command |
| `TaskRunner.TransportTaskRunner.TickHandle` | rmf_ws/src/mission_manager/mission_manager/transport_task_runner.py:212-244 | A package already handled is not handled again; with a command in flight the node waits; else it creates one handling command |
| `TaskRunner.TransportTaskRunner.TickOccupy` | rmf_ws/src/mission_manager/mission_manager/transport_task_runner.py:247-262 | The robot is listed inside only at the managed endpoint and only with access acquired |
| `TaskRunner.TransportTaskRunner.TickUpdate` | rmf_ws/src/mission_manager/mission_manager/transport_task_runner.py:265-284 | The buffer gains or loses the package only at the managed endpoint and only with access acquired |
| `TaskRunner.TransportTaskRunner.TickVacate` | rmf_ws/src/mission_manager/mission_manager/transport_task_runner.py:287-304 | The robot leaves a managed endpoint towards its own side; elsewhere, or without a side, the node is done |
| `TaskRunner.TransportTaskRunner.TickRelease` | rmf_ws/src/mission_manager/mission_manager/transport_task_runner.py:307-321 | Lease and occupancy are given up, and the access key reset, only where access was acquired |
| `World.ResourceManager.RequestAccess` | rmf_ws/src/mission_manager/mission_manager/resource_manager.py:16-70 | The answer is the one `AccessRules.AccessExactly` characterises, and the zone changes as in `AccessRules.LeaseIsNotStolen`: by a new lease or not at all |
| `World.ResourceManager.GrantLease` | rmf_ws/src/mission_manager/mission_manager/resource_manager.py:75-91 | An active lease is never replaced |
| `World.ResourceManager.Occupy` | rmf_ws/src/mission_manager/mission_manager/resource_manager.py:93-96 | A robot is listed once, at the end, and lease and buffer stay |
| `World.ResourceManager.Release` | rmf_ws/src/mission_manager/mission_manager/resource_manager.py:98-103 | One entry of the robot goes, and the lease if it is the robot's own; undoes entry by `AccessRules.ReleaseUndoesEntry` |
| `World.ResourceManager.BufferItem` | rmf_ws/src/mission_manager/mission_manager/resource_manager.py:105-108 | A package is listed once, at the end, and lease and occupancy stay |
| `World.ResourceManager.ReleaseItem` | rmf_ws/src/mission_manager/mission_manager/resource_manager.py:110-113 | One entry of the package goes, if there is any; undoes buffering by `AccessRules.ReleaseItemUndoesBuffer` |
| `World.MissionWorld.AssignRobot` | rmf_ws/src/mission_manager/mission_manager/world.py:65-68 | The robot is busy with the task; location and pause flag stay |
| `World.MissionWorld.ReleaseRobot` | rmf_ws/src/mission_manager/mission_manager/world.py:70-73 | The robot is idle without a task; location and pause flag stay |
| `World.MissionWorld.MarkRobotWaiting` | rmf_ws/src/mission_manager/mission_manager/world.py:75-78 | The robot waits for the task; location and pause flag stay |
| `World.MissionWorld.MoveRobot` | rmf_ws/src/mission_manager/mission_manager/world.py:80-81 | Only the robot's location changes |
| `World.MissionWorld.LoadItem` | rmf_ws/src/mission_manager/mission_manager/world.py:83-86 | The package is carried by the robot and is where the robot is |
| `World.MissionWorld.UnloadItem` | rmf_ws/src/mission_manager/mission_manager/world.py:88-92 | The package is at the given place, and no longer carried if this robot carried it; another carrier is kept |
| `ExecutionManager.ExecutionManager.CreateMove` | rmf_ws/src/mission_manager/mission_manager/execution_manager.py:59-70 | One fresh pending move under the next id; every earlier command object is still filed and unchanged |
| `ExecutionManager.ExecutionManager.CreateHandling` | rmf_ws/src/mission_manager/mission_manager/execution_manager.py:72-90 | One fresh pending handling command under the next id; every earlier command object is still filed and unchanged |
| `ExecutionManager.ExecutionManager.MarkTerminal` | rmf_ws/src/mission_manager/mission_manager/execution_manager.py:107-118 | Status and error are recorded only if the command was open, and the answer says whether it was |
| `ExecutionManager.ExecutionManager.MarkSubmitted` | rmf_ws/src/mission_manager/mission_manager/execution_manager.py:92-93 | The mark is set whatever the status was, and only the status |
| `ExecutionManager.ExecutionManager.MarkRunning` | rmf_ws/src/mission_manager/mission_manager/execution_manager.py:95-96 | The mark is set whatever the status was, and only the status |
| `MissionManagerNode.MissionManagerNode.HandleExecutionResult` | rmf_ws/src/mission_manager/mission_manager/mission_manager_node.py:248-314 | On the live objects: one result report is one node step, ignored unless its command is open; what the step does is in `Reports.ReportIsRecorded`, `Reports.ReportFails`, `NodeGate.LocationIsGated` and `NodeGate.CustodyIsGated` |
| `MissionManagerNode.MissionManagerNode.DispatchCommands` | rmf_ws/src/mission_manager/mission_manager/mission_manager_node.py:428-447 | The dispatch loop marks exactly the given commands, moves submitted, handling running |
| `MissionManagerNode.MissionManagerNode.HandleApiResponse` | rmf_ws/src/mission_manager/mission_manager/mission_manager_node.py:118-128 | An accepted submission marks its command running only while it is open; the invariant stays |
| `MissionManagerNode.MissionManagerNode.HandleOperatorRequest` | rmf_ws/src/mission_manager/mission_manager/mission_manager_node.py:228-246 | On the live objects: an operator request for a known robot is one node step, any other is ignored |

## Left out

- ROS publishers, subscribers, parameters, JSON decoding, logging, timestamps, uuids and the
  lists of recent events and actions in `mission_manager_node.py`: input and output. A result
  message is modelled from the point where it has been decoded and matches the mission id.
- `rmf_adapter.py`, RMF, Nav2 and Free Fleet: foreign systems. Their answers are arbitrary
  events and reports.
- `mission_serializer.py`: a read-only projection of the state.
- Speed-scale requests and results: two fields unconnected to the protocol.
- Cancellation requests sent to robots on pause and abort: messages only. The cancellations
  they may cause arrive as events.
- Robot names other than the two defaults: `RobotOf` gives each leg its default robot, as
  `create_default` does. Requests about other names are modelled and ignored, as in the code.
- Missions other than those of `create_default`, and managed resources other than `transfer`:
  the proofs over runs are about the default mission with its capacities of one.
  `AccessRules` covers the zone's rules for any capacity.
- Task, package and command ids are structured values. `TaskOrder` proves what their texts
  contribute: distinctness and order.
- The task blackboard is a record of the four kinds of entry the program writes to it, instead
  of an open dictionary.
- The dictionary of tasks is a map; the order in which the program iterates over it is the
  order of creation, given by `TaskOrder.Ids`.
- Travel times and timing of any kind.
- Progress of a disturbed mission by itself: a command cancelled for a pause that is already
  over leaves a mission RUNNING with nothing outstanding until the next request, unless it was
  the pause of one robot; the code does not promise more. `Resumption` says which events get
  the mission going, short of an abort.
