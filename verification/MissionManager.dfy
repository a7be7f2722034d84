/** The mission manager as it runs: every event handler changes the mission's objects in
    place, and does exactly what the state machine says. */
module MissionManager {
  import opened Domain
  import opened BehaviorTree
  import opened TaskOrder
  import opened ExecutionManager
  import opened World
  import opened TaskRunner
  import opened Invariant
  import opened StepProof
  import M = Mission

  class MissionRuntime {
    const total: nat
    const tasks: map<TaskId, TransportItemTask>
    const world: MissionWorld
    var status: MissionStatus

    constructor (total: nat, tasks: map<TaskId, TransportItemTask>, world: MissionWorld)
      ensures this.total == total && this.tasks == tasks && this.world == world && status == READY
    {
      this.total, this.tasks, this.world := total, tasks, world;
      status := READY;
    }

    ghost predicate Valid() {
      && world.Valid()
      && (forall id: TaskId :: id in tasks <==> 1 <= id.item <= total)
      && (forall id :: id in tasks ==> tasks[id].taskId == id)
      && (forall x: nat :: x in world.items <==> 1 <= x <= total)
      && (forall r: RobotId :: r in world.robots <==> r == Tb3_1 || r == Tb3_2)
    }

    ghost function Tasks(): map<TaskId, Task>
      reads tasks.Values
    {
      map id | id in tasks :: tasks[id].Value()
    }
  }

  class TransportTaskScheduler {
    predicate CanWaitForPickup(task: TransportItemTask, world: MissionWorld)
      reads world.items.Values
    {
      && EndpointOf(task.taskId.leg, Pickup) == world.transfer.config.resourceId
      && (world.transfer.config.waitWaypoint.Some? || RobotOf(task.taskId.leg) in world.transfer.config.waitWaypoints)
      && task.taskId.item in world.items
      && world.items[task.taskId.item].carriedBy.Some?
    }

    predicate ManagedPickupAvailable(task: TransportItemTask, world: MissionWorld)
      reads world.transfer
    {
      EndpointOf(task.taskId.leg, Pickup) == world.transfer.config.resourceId ==>
        && world.transfer.activeLease == None
        && world.transfer.Value().RobotSlots() > 0
        && task.taskId.item in world.transfer.packageOccupancy
    }

    predicate IsReady(task: TransportItemTask, world: MissionWorld)
      reads task, world.robots.Values, world.items.Values, world.transfer
    {
      && task.status == TaskStatus.PENDING
      && world.IsRobotAvailable(RobotOf(task.taskId.leg))
      && (if world.IsItemAt(task.taskId.item, EndpointOf(task.taskId.leg, Pickup))
          then ManagedPickupAvailable(task, world) else CanWaitForPickup(task, world))
    }

    /** `s` is the mission as a value, as far as the scheduler looks. */
    ghost predicate Sees(runtime: MissionRuntime, s: M.State)
      reads runtime.tasks.Values, runtime.world.robots.Values, runtime.world.items.Values, runtime.world.transfer
    {
      && runtime.Valid() && M.Wf(s) && s.n == runtime.total && s.tasks == runtime.Tasks()
      && s.robots == runtime.world.Robots() && s.items == runtime.world.Items()
      && s.transfer == runtime.world.transfer.Value()
    }

    lemma ReadyMatches(runtime: MissionRuntime, s: M.State, id: TaskId)
      requires Sees(runtime, s) && id in runtime.tasks
      ensures IsReady(runtime.tasks[id], runtime.world) <==> M.Ready(s, id)
    {
      assert s.tasks[id] == runtime.tasks[id].Value();
    }

    lemma FirstIsNext(runtime: MissionRuntime, s: M.State, ids: seq<TaskId>, i: nat)
      requires Sees(runtime, s) && ids == Schedule(s.n) && i <= |ids|
      requires forall j :: 0 <= j < i ==> ids[j] in runtime.tasks && !IsReady(runtime.tasks[ids[j]], runtime.world)
      requires i < |ids| ==> ids[i] in runtime.tasks && IsReady(runtime.tasks[ids[i]], runtime.world)
      ensures M.NextReady(s) == if i < |ids| then Some(ids[i]) else None
    {
      ScheduleMembers(s.n);
      forall j | 0 <= j < i
        ensures ids[j] in s.tasks && !M.Ready(s, ids[j])
      {
        ReadyMatches(runtime, s, ids[j]);
      }
      if i < |ids| {
        ReadyMatches(runtime, s, ids[i]);
      }
      M.FirstReadyAt(s, ids, i);
    }

    /** The position of the first ready task in `ids`. */
    method FirstReady(runtime: MissionRuntime, ids: seq<TaskId>) returns (i: nat)
      requires forall x :: x in ids ==> x in runtime.tasks
      ensures i <= |ids|
      ensures forall j :: 0 <= j < i ==> !IsReady(runtime.tasks[ids[j]], runtime.world)
      ensures i < |ids| ==> IsReady(runtime.tasks[ids[i]], runtime.world)
    {
      i := 0;
      while i < |ids|
        invariant i <= |ids|
        invariant forall j :: 0 <= j < i ==> !IsReady(runtime.tasks[ids[j]], runtime.world)
      {
        if IsReady(runtime.tasks[ids[i]], runtime.world) {
          return;
        }
        i := i + 1;
      }
    }

    /** The first pending task, in order of task ids, whose robot, package and pickup are
        ready; `s` is the mission as a value. */
    method NextReadyTask(runtime: MissionRuntime, ghost s: M.State) returns (next: Option<TransportItemTask>)
      requires Sees(runtime, s)
      ensures next.Some? ==> next.value.taskId in runtime.tasks && runtime.tasks[next.value.taskId] == next.value
      ensures M.NextReady(s) == if next.Some? then Some(next.value.taskId) else None
    {
      var ids := Schedule(runtime.total);
      ScheduleMembers(runtime.total);
      var i := FirstReady(runtime, ids);
      FirstIsNext(runtime, s, ids, i);
      return if i < |ids| then Some(runtime.tasks[ids[i]]) else None;
    }
  }

  class MissionManager {
    const runtime: MissionRuntime
    const executionManager: ExecutionManager
    const taskRunner: TransportTaskRunner
    const scheduler: TransportTaskScheduler
    const maxArrivalRetries: int

    /** How the objects are linked up, once and for all. */
    ghost predicate Built() {
      && runtime.Valid()
      && taskRunner.world == runtime.world
      && taskRunner.executionManager == executionManager
    }

    /** The commands are filed properly and are about tasks of this mission. */
    ghost predicate Sound()
      reads executionManager, executionManager.commands.Values
    {
      executionManager.Valid() && M.ExecWf(runtime.total, executionManager.Value())
    }

    constructor (runtime: MissionRuntime, maxArrivalRetries: int)
      requires runtime.Valid()
      ensures this.runtime == runtime && this.maxArrivalRetries == maxArrivalRetries
      ensures Built() && Sound() && fresh(executionManager) && fresh(taskRunner)
      ensures executionManager.Value() == Exec(map[], 1) && executionManager.commands == map[]
    {
      this.runtime, this.maxArrivalRetries := runtime, maxArrivalRetries;
      var em := new ExecutionManager();
      executionManager := em;
      taskRunner := new TransportTaskRunner(runtime.world, em);
      scheduler := new TransportTaskScheduler;
    }

    ghost function Footprint(): set<object>
      reads executionManager
    {
      {runtime, runtime.world.transfer, executionManager} + runtime.tasks.Values + runtime.world.robots.Values +
      runtime.world.items.Values + executionManager.commands.Values
    }

    /** The mission as a value. */
    ghost function State(): (s: M.State)
      requires Built() && Sound()
      reads executionManager, executionManager.commands.Values, Footprint()
      ensures M.Wf(s)
    {
      M.State(runtime.total, maxArrivalRetries, runtime.status, runtime.Tasks(), runtime.world.Robots(),
              runtime.world.Items(), runtime.world.transfer.Value(), executionManager.Value())
    }

    ghost predicate Mine(task: TransportItemTask) {
      task.taskId in runtime.tasks && runtime.tasks[task.taskId] == task && taskRunner.Knows(task)
    }

    lemma ContextIsView(task: TransportItemTask)
      requires Built() && Sound() && Mine(task)
      ensures taskRunner.Context(task) == M.View(State(), task.taskId)
    {
    }

    twostate predicate OthersKept(task: TransportItemTask)
      requires Built() && Mine(task)
      reads runtime, runtime.tasks.Values, runtime.world.robots.Values, runtime.world.items.Values
    {
      && runtime.status == old(runtime.status)
      && (forall id :: id in runtime.tasks && id != task.taskId ==> unchanged(runtime.tasks[id]))
      && (forall r :: r in runtime.world.robots && r != RobotOf(task.taskId.leg) ==> unchanged(runtime.world.robots[r]))
      && (forall x :: x in runtime.world.items && x != task.taskId.item ==> unchanged(runtime.world.items[x]))
    }

    twostate lemma OnlyOwnTouched(task: TransportItemTask)
      requires Built() && Mine(task) && unchanged(runtime) && unchanged(runtime.tasks.Values - {task})
      requires unchanged(runtime.world.robots.Values - {taskRunner.RobotFor(task)})
      requires unchanged(runtime.world.items.Values)
      ensures OthersKept(task)
    {
    }

    /** Where only one task's records changed, the new state is the old one with them put in. */
    twostate lemma ReplacedTask(task: TransportItemTask)
      requires Built() && Mine(task) && OthersKept(task)
      ensures runtime.Tasks() == old(runtime.Tasks())[task.taskId := task.Value()]
    {
    }

    twostate lemma Replaced(task: TransportItemTask)
      requires Built() && old(Sound()) && Mine(task)
      requires executionManager.Valid() && M.ExecWf(runtime.total, taskRunner.Context(task).exec)
      requires OthersKept(task)
      ensures Sound() && State() == M.Put(old(State()), taskRunner.Context(task))
    {
      var s, c := old(State()), taskRunner.Context(task);
      ReplacedTask(task);
      assert State().robots == s.robots[RobotOf(task.taskId.leg) := c.robot];
      assert State().items == s.items[task.taskId.item := c.item];
    }

    /** Ticking a task as it is, on the mission as a value. */
    lemma TickedIsRun(task: TransportItemTask, t: Task)
      requires Built() && Sound() && Mine(task) && t.id == task.taskId
      ensures var c := taskRunner.Context(task).(task := t);
              var r := TickTree(c);
              && M.ExecWf(runtime.total, r.ctx.exec)
              && M.RunTask(State(), task.taskId, t) == M.Outcome(M.Put(State(), r.ctx), r.emitted)
    {
      ContextIsView(task);
      M.TickWf(runtime.total, taskRunner.Context(task).(task := t));
    }

    method TickAgain(task: TransportItemTask) returns (commands: seq<ExecutionCommand>)
      requires Built() && Sound() && Mine(task)
      modifies task, taskRunner.RobotFor(task), runtime.world.transfer, executionManager
      ensures executionManager.Valid() && executionManager.Grows() && OthersKept(task)
      ensures var r := TickTree(old(taskRunner.Context(task)));
              taskRunner.Context(task) == r.ctx && Lists(executionManager.commands, commands, r.emitted)
    {
      commands := taskRunner.Advance(task);
      OnlyOwnTouched(task);
    }

    method TickFirst(task: TransportItemTask) returns (commands: seq<ExecutionCommand>)
      requires Built() && Sound() && Mine(task)
      modifies task, taskRunner.RobotFor(task), runtime.world.transfer, executionManager
      ensures executionManager.Valid() && executionManager.Grows() && OthersKept(task)
      ensures var c := old(taskRunner.Context(task));
              var r := TickTree(c.(task := c.task.(status := TaskStatus.RUNNING, phase := ACQUIRE_PICKUP)));
              taskRunner.Context(task) == r.ctx && Lists(executionManager.commands, commands, r.emitted)
    {
      commands := taskRunner.Start(task);
      OnlyOwnTouched(task);
    }

    method AdvanceTask(task: TransportItemTask) returns (commands: seq<ExecutionCommand>)
      requires Built() && Sound() && Mine(task)
      modifies task, taskRunner.RobotFor(task), runtime.world.transfer, executionManager
      ensures Sound() && executionManager.Grows()
      ensures State() == M.AdvanceTask(old(State()), task.taskId).state
      ensures Lists(executionManager.commands, commands, M.AdvanceTask(old(State()), task.taskId).emitted)
    {
      TickedIsRun(task, task.Value());
      assert taskRunner.Context(task).(task := task.Value()) == taskRunner.Context(task);
      commands := TickAgain(task);
      Replaced(task);
    }

    method StartTask(task: TransportItemTask) returns (commands: seq<ExecutionCommand>)
      requires Built() && Sound() && Mine(task)
      modifies task, taskRunner.RobotFor(task), runtime.world.transfer, executionManager
      ensures Sound() && executionManager.Grows()
      ensures State() == M.StartTask(old(State()), task.taskId).state
      ensures Lists(executionManager.commands, commands, M.StartTask(old(State()), task.taskId).emitted)
    {
      TickedIsRun(task, task.Value().(status := TaskStatus.RUNNING, phase := ACQUIRE_PICKUP));
      commands := TickFirst(task);
      Replaced(task);
    }

    twostate lemma Untouched()
      requires Built() && old(Sound())
      requires unchanged(runtime, runtime.world.transfer, executionManager)
      requires unchanged(runtime.tasks.Values) && unchanged(runtime.world.robots.Values)
      requires unchanged(runtime.world.items.Values) && unchanged(executionManager.commands.Values)
      ensures Sound() && State() == old(State())
    {
    }

    twostate lemma OnlyCommandsTouched()
      requires Built() && old(Sound()) && Sound() && unchanged(runtime, runtime.world.transfer)
      requires unchanged(runtime.tasks.Values) && unchanged(runtime.world.robots.Values)
      requires unchanged(runtime.world.items.Values)
      ensures State() == old(State()).(exec := executionManager.Value())
    {
    }

    twostate lemma OnlyTasksTouched()
      requires Built() && old(Sound()) && unchanged(runtime, runtime.world.transfer, executionManager)
      requires unchanged(runtime.world.robots.Values) && unchanged(runtime.world.items.Values)
      requires unchanged(executionManager.commands.Values)
      ensures Sound() && State() == old(State()).(tasks := runtime.Tasks())
    {
    }

    method NextReadyTask() returns (next: Option<TransportItemTask>)
      requires Built() && Sound()
      ensures Sound() && State() == old(State()) && executionManager.commands == old(executionManager.commands)
      ensures next.Some? ==> Mine(next.value)
      ensures M.NextReady(old(State())) == if next.Some? then Some(next.value.taskId) else None
    {
      next := scheduler.NextReadyTask(runtime, State());
      Untouched();
    }

    /** Start the next ready task, if any, after `commands`. */
    method StartNext(commands: seq<ExecutionCommand>, ghost emitted: seq<nat>) returns (all: seq<ExecutionCommand>)
      requires Built() && Sound() && Lists(executionManager.commands, commands, emitted)
      modifies runtime.tasks.Values, runtime.world.robots.Values, runtime.world.transfer, executionManager
      ensures Sound() && executionManager.Grows()
      ensures State() == M.StartNext(old(State()), emitted).state
      ensures Lists(executionManager.commands, all, M.StartNext(old(State()), emitted).emitted)
    {
      var next := NextReadyTask();
      if next == None {
        return commands;
      }
      all := StartAfter(next.value, commands, emitted);
    }

    method StartAfter(task: TransportItemTask, commands: seq<ExecutionCommand>, ghost emitted: seq<nat>)
      returns (all: seq<ExecutionCommand>)
      requires Built() && Sound() && Mine(task) && Lists(executionManager.commands, commands, emitted)
      modifies task, taskRunner.RobotFor(task), runtime.world.transfer, executionManager
      ensures Sound() && executionManager.Grows()
      ensures State() == M.StartTask(old(State()), task.taskId).state
      ensures Lists(executionManager.commands, all, emitted + M.StartTask(old(State()), task.taskId).emitted)
    {
      ghost var was, started := executionManager.commands, M.StartTask(State(), task.taskId).emitted;
      var more := StartTask(task);
      ListsAppend(was, executionManager.commands, commands, emitted, more, started);
      return commands + more;
    }

    predicate AllSucceeded()
      reads runtime.tasks.Values
    {
      forall id :: id in runtime.tasks ==> runtime.tasks[id].status == TaskStatus.SUCCEEDED
    }

    lemma AllSucceededMatches()
      requires Built() && Sound()
      ensures AllSucceeded() <==> M.AllSucceeded(State())
    {
      assert forall id :: id in runtime.tasks ==> State().tasks[id] == runtime.tasks[id].Value();
    }

    method SetMissionStatus(status: MissionStatus)
      requires Built() && Sound()
      modifies runtime
      ensures Sound() && runtime.status == status && State() == old(State()).(status := status)
      ensures executionManager.commands == old(executionManager.commands)
    {
      runtime.status := status;
      assert executionManager.Value() == old(executionManager.Value());
    }

    /** Tick the first of the tasks still to be looked at; if that emits commands, fill the
        free robot too and stop. */
    method AdvanceNext(task: TransportItemTask, ghost ids: seq<TaskId>)
      returns (done: bool, commands: seq<ExecutionCommand>)
      requires Built() && Sound() && Mine(task) && ids != [] && ids[0] == task.taskId
      requires (forall x :: x in ids ==> x in runtime.tasks) && (forall x :: x in ids[1..] ==> x in runtime.tasks)
      modifies runtime.tasks.Values, runtime.world.robots.Values, runtime.world.transfer, executionManager
      ensures Sound() && executionManager.Grows()
      ensures var o := M.AdvanceFrom(old(State()), ids);
              if done then
                State() == o.state && Lists(executionManager.commands, commands, o.emitted)
              else
                M.AdvanceFrom(State(), ids[1..]) == o
    {
      if (task.status != TaskStatus.RUNNING && task.status != TaskStatus.BLOCKED) || taskRunner.RobotFor(task).paused {
        return false, [];
      }
      ghost var ticked := M.AdvanceTask(State(), task.taskId);
      commands := AdvanceTask(task);
      if commands != [] {
        commands := StartNext(commands, ticked.emitted);
        return true, commands;
      }
      return false, [];
    }

    /** Tick the tasks in turn until one of them emits commands. */
    method TickTasks() returns (done: bool, commands: seq<ExecutionCommand>)
      requires Built() && Sound()
      modifies runtime.tasks.Values, runtime.world.robots.Values, runtime.world.transfer, executionManager
      ensures Sound() && executionManager.Grows()
      ensures var o := M.AdvanceFrom(old(State()), Ids(runtime.total));
              if done then
                State() == o.state && Lists(executionManager.commands, commands, o.emitted)
              else
                M.AdvanceFrom(State(), []) == o
    {
      var ids := Ids(runtime.total);
      done, commands := false, [];
      while ids != [] && !done
        invariant Sound() && executionManager.Grows()
        invariant forall x :: x in ids ==> x in runtime.tasks
        invariant var o := M.AdvanceFrom(old(State()), Ids(runtime.total));
                  if done then
                    State() == o.state && Lists(executionManager.commands, commands, o.emitted)
                  else
                    M.AdvanceFrom(State(), ids) == o
        decreases |ids|
      {
        RestMembers(ids);
        done, commands := AdvanceNext(runtime.tasks[ids[0]], ids);
        ids := ids[1..];
      }
    }

    method AdvanceTasks() returns (commands: seq<ExecutionCommand>)
      requires Built() && Sound()
      modifies runtime.tasks.Values, runtime.world.robots.Values, runtime.world.transfer, executionManager
      ensures Sound() && executionManager.Grows()
      ensures State() == M.AdvanceFrom(old(State()), Ids(runtime.total)).state
      ensures Lists(executionManager.commands, commands, M.AdvanceFrom(old(State()), Ids(runtime.total)).emitted)
    {
      var done;
      done, commands := TickTasks();
      if !done {
        commands := StartNext([], []);
      }
    }

    /** Advance the mission and return the commands it emits. */
    method Advance() returns (commands: seq<ExecutionCommand>)
      requires Built() && Sound()
      modifies runtime, runtime.tasks.Values, runtime.world.robots.Values, runtime.world.transfer, executionManager
      ensures Sound() && executionManager.Grows()
      ensures State() == M.Advance(old(State())).state
      ensures Lists(executionManager.commands, commands, M.Advance(old(State())).emitted)
    {
      AllSucceededMatches();
      if runtime.status != MissionStatus.RUNNING {
        return [];
      }
      if AllSucceeded() {
        SetMissionStatus(COMPLETED);
        return [];
      }
      commands := AdvanceTasks();
    }

    method StartRequested() returns (commands: seq<ExecutionCommand>)
      requires Built() && Sound()
      modifies runtime, runtime.tasks.Values, runtime.world.robots.Values, runtime.world.transfer, executionManager
      ensures Sound() && executionManager.Grows()
      ensures State() == M.HandleStart(old(State())).state
      ensures Lists(executionManager.commands, commands, M.HandleStart(old(State())).emitted)
    {
      if runtime.status == READY {
        SetMissionStatus(MissionStatus.RUNNING);
      }
      commands := Advance();
    }

    // ----- Results -----

    /** Record the result of command `k`, if it is the first. */
    method MarkTerminal(k: nat, status: CommandStatus, error: Option<Reason>) returns (first: bool)
      requires Built() && Sound() && k in executionManager.commands
      modifies executionManager.commands[k]
      ensures Sound() && executionManager.commands == old(executionManager.commands)
      ensures first == old(State()).exec.IsOpen(k)
      ensures State() == if first then old(State()).(exec := old(State()).exec.Mark(k, status, error)) else old(State())
    {
      M.MarkWf(runtime.total, executionManager.Value(), k, status, error);
      first := executionManager.MarkTerminal(k, status, error);
      OnlyCommandsTouched();
    }

    lemma FiledCommand(k: nat)
      requires Built() && Sound() && k in executionManager.commands
      ensures var command := executionManager.commands[k];
              && State().exec.commands[k] == command.Value() && k in State().exec.commands && command.commandId == k
              && command.taskId in runtime.tasks && Mine(runtime.tasks[command.taskId])
              && command.robotId == RobotOf(command.taskId.leg) && M.HandlesOwn(command.kind, command.taskId)
    {
    }

    method ApplyCommandSuccess(task: TransportItemTask, command: ExecutionCommand) returns (applied: bool)
      requires Built() && Sound() && Mine(task) && command.taskId == task.taskId
      requires command.robotId == RobotOf(task.taskId.leg) && M.HandlesOwn(command.kind, task.taskId)
      modifies task, taskRunner.RobotFor(task), runtime.world.items[task.taskId.item]
      ensures Sound() && executionManager.commands == old(executionManager.commands)
      ensures applied == (old(task.activeCommandId) == Some(command.commandId))
      ensures taskRunner.Context(task) == M.Applied(old(taskRunner.Context(task)), old(command.Value()))
      ensures State() == M.Put(old(State()), taskRunner.Context(task))
    {
      applied := taskRunner.ApplyCommandSuccess(task, command);
      Replaced(task);
    }

    method SetTaskStatus(task: TransportItemTask, status: TaskStatus)
      requires Built() && Sound() && Mine(task)
      modifies task
      ensures Sound() && executionManager.commands == old(executionManager.commands)
      ensures var c := old(taskRunner.Context(task));
              taskRunner.Context(task) == c.(task := c.task.(status := status))
      ensures State() == M.Put(old(State()), taskRunner.Context(task))
    {
      task.status := status;
      assert executionManager.Value() == old(executionManager.Value());
      Replaced(task);
    }

    /** Tick a task; then fill the free robot, or advance the mission if nothing was emitted. */
    method Follow(task: TransportItemTask) returns (commands: seq<ExecutionCommand>)
      requires Built() && Sound() && Mine(task)
      modifies runtime, runtime.tasks.Values, runtime.world.robots.Values, runtime.world.transfer, executionManager
      ensures Sound() && executionManager.Grows()
      ensures State() == M.Follow(old(State()), task.taskId).state
      ensures Lists(executionManager.commands, commands, M.Follow(old(State()), task.taskId).emitted)
    {
      ghost var ticked := M.AdvanceTask(State(), task.taskId);
      commands := AdvanceTask(task);
      commands := FillOrAdvance(commands, ticked.emitted);
    }

    method FillOrAdvance(commands: seq<ExecutionCommand>, ghost emitted: seq<nat>) returns (all: seq<ExecutionCommand>)
      requires Built() && Sound() && Lists(executionManager.commands, commands, emitted)
      modifies runtime, runtime.tasks.Values, runtime.world.robots.Values, runtime.world.transfer, executionManager
      ensures Sound() && executionManager.Grows()
      ensures var o := if emitted != [] then M.StartNext(old(State()), emitted) else M.Advance(old(State()));
              State() == o.state && Lists(executionManager.commands, all, o.emitted)
    {
      if commands != [] {
        all := StartNext(commands, emitted);
      } else {
        all := Advance();
      }
    }

    /** Apply a command recorded as successful, and move on unless the mission or the robot is held. */
    method CommandSucceeded(task: TransportItemTask, command: ExecutionCommand)
      returns (commands: seq<ExecutionCommand>)
      requires Built() && Sound() && Mine(task) && command.taskId == task.taskId
      requires command.robotId == RobotOf(task.taskId.leg) && M.HandlesOwn(command.kind, task.taskId)
      modifies runtime, runtime.tasks.Values, runtime.world.robots.Values, runtime.world.items.Values
      modifies runtime.world.transfer, executionManager
      ensures Sound() && executionManager.Grows()
      ensures State() == M.Succeeded(old(State()), old(command.Value())).state
      ensures Lists(executionManager.commands, commands, M.Succeeded(old(State()), old(command.Value())).emitted)
    {
      ContextIsView(task);
      var robotPaused := runtime.world.robots[command.robotId].paused;
      if runtime.status == PAUSED || runtime.status == ABORTED || robotPaused {
        ApplyHeld(task, command,
                  if runtime.status == PAUSED || robotPaused then TaskStatus.RUNNING else TaskStatus.CANCELLED);
        return [];
      }
      var applied := ApplyCommandSuccess(task, command);
      if !applied {
        commands := Advance();
      } else {
        commands := Follow(task);
      }
    }

    method ApplyHeld(task: TransportItemTask, command: ExecutionCommand, status: TaskStatus)
      requires Built() && Sound() && Mine(task) && command.taskId == task.taskId
      requires command.robotId == RobotOf(task.taskId.leg) && M.HandlesOwn(command.kind, task.taskId)
      modifies task, taskRunner.RobotFor(task), runtime.world.items[task.taskId.item]
      ensures Sound() && executionManager.commands == old(executionManager.commands)
      ensures var c := M.Applied(old(taskRunner.Context(task)), old(command.Value()));
              State() == M.Put(old(State()), c.(task := c.task.(status := status)))
    {
      ghost var s := State();
      var _ := ApplyCommandSuccess(task, command);
      ghost var c := taskRunner.Context(task);
      SetTaskStatus(task, status);
      M.PutTwice(s, c, taskRunner.Context(task));
    }

    method CommandCompleted(k: nat) returns (commands: seq<ExecutionCommand>)
      requires Built() && Sound()
      modifies Footprint()
      ensures Sound() && executionManager.Grows()
      ensures State() == M.HandleCompleted(old(State()), k).state
      ensures Lists(executionManager.commands, commands, M.HandleCompleted(old(State()), k).emitted)
    {
      if k !in executionManager.commands {
        return [];
      }
      FiledCommand(k);
      ghost var s := State();
      var command := executionManager.commands[k];
      var first := MarkTerminal(k, CommandStatus.SUCCEEDED, None);
      if !first {
        return [];
      }
      FiledCommand(k);
      commands := CommandSucceeded(runtime.tasks[command.taskId], command);
    }

    // ----- Failures and cancellations -----

    method ClearActive(task: TransportItemTask, k: nat)
      requires Built() && Sound() && Mine(task)
      modifies task
      ensures Sound() && executionManager.commands == old(executionManager.commands)
      ensures taskRunner.Context(task) == M.Cleared(old(taskRunner.Context(task)), k)
      ensures State() == M.Put(old(State()), taskRunner.Context(task))
    {
      if task.activeCommandId == Some(k) {
        task.activeCommandId := None;
      }
      assert executionManager.Value() == old(executionManager.Value());
      Replaced(task);
    }

    method CountRetry(task: TransportItemTask, target: Waypoint)
      requires Built() && Sound() && Mine(task)
      modifies task
      ensures Sound()
      ensures var c := old(taskRunner.Context(task));
              taskRunner.Context(task) ==
              c.(task := c.task.(retries := c.task.retries[target := c.task.Retries(target) + 1]))
    {
      task.arrivalRetries := task.arrivalRetries[target := task.Value().Retries(target) + 1];
      assert executionManager.Value() == old(executionManager.Value());
    }

    method IssueAgain(task: TransportItemTask, command: ExecutionCommand) returns (retry: ExecutionCommand)
      requires Built() && Sound() && Mine(task) && command.taskId == task.taskId
      requires command.robotId == RobotOf(task.taskId.leg) && command.kind.MoveRobot?
      modifies task, executionManager
      ensures executionManager.Valid() && executionManager.Grows() && OthersKept(task)
      ensures taskRunner.Context(task) == M.Reissued(old(taskRunner.Context(task)), old(command.Value()))
      ensures Lists(executionManager.commands, [retry], [old(taskRunner.Context(task)).exec.next])
    {
      CountRetry(task, command.kind.target);
      retry := taskRunner.IssueMove(task, command.kind.target);
      OnlyOwnTouched(task);
    }

    /** The same move again, counted against the task's retries for that target. */
    method RetryMove(task: TransportItemTask, command: ExecutionCommand) returns (retry: ExecutionCommand)
      requires Built() && Sound() && Mine(task) && command.taskId == task.taskId
      requires command.robotId == RobotOf(task.taskId.leg) && command.kind.MoveRobot?
      modifies task, executionManager
      ensures Sound() && executionManager.Grows()
      ensures State() == M.Put(old(State()), M.Reissued(old(taskRunner.Context(task)), old(command.Value())))
      ensures Lists(executionManager.commands, [retry], [old(State()).exec.next])
    {
      M.AddWf(runtime.total, executionManager.Value(), command.kind, task.taskId, command.robotId);
      retry := IssueAgain(task, command);
      Replaced(task);
    }

    method FailTask(task: TransportItemTask, command: ExecutionCommand, reason: Reason)
      requires Built() && Sound() && Mine(task)
      modifies task, runtime
      ensures Sound() && executionManager.commands == old(executionManager.commands)
      ensures M.ExecWf(old(State()).n, old(taskRunner.Context(task)).exec)
      ensures State() == M.FailTask(old(State()), old(taskRunner.Context(task)), old(command.Value()), reason)
    {
      SetFailed(task, command.robotId, reason);
      SetMissionStatus(MissionStatus.FAILED);
    }

    method SetFailed(task: TransportItemTask, robot: RobotId, reason: Reason)
      requires Built() && Sound() && Mine(task)
      modifies task
      ensures Sound() && executionManager.commands == old(executionManager.commands)
      ensures var c := old(taskRunner.Context(task));
              State() == M.Put(old(State()), c.(task := c.task.(
                status := TaskStatus.FAILED, blockedReason := Some(reason), blockedBy := Some(ByRobot(robot)))))
    {
      NoteFailure(task, robot, reason);
      Replaced(task);
    }

    method NoteFailure(task: TransportItemTask, robot: RobotId, reason: Reason)
      requires Built() && Sound() && Mine(task)
      modifies task
      ensures Sound()
      ensures var c := old(taskRunner.Context(task));
              taskRunner.Context(task) == c.(task := c.task.(
                status := TaskStatus.FAILED, blockedReason := Some(reason), blockedBy := Some(ByRobot(robot))))
    {
      task.status, task.blockedReason, task.blockedBy := TaskStatus.FAILED, Some(reason), Some(ByRobot(robot));
      assert executionManager.Value() == old(executionManager.Value());
    }

    /** Take a failed move off its task and issue it again. */
    method TryAgain(task: TransportItemTask, command: ExecutionCommand) returns (retry: ExecutionCommand)
      requires Built() && Sound() && Mine(task) && command.taskId == task.taskId
      requires command.robotId == RobotOf(task.taskId.leg) && command.kind.MoveRobot?
      modifies task, executionManager
      ensures Sound() && executionManager.Grows()
      ensures var c := M.Cleared(old(taskRunner.Context(task)), command.commandId);
              State() == M.Put(old(State()), M.Reissued(c, old(command.Value())))
      ensures Lists(executionManager.commands, [retry], [old(State()).exec.next])
    {
      ghost var s := State();
      ClearActive(task, command.commandId);
      ghost var c := taskRunner.Context(task);
      retry := RetryMove(task, command);
      M.PutTwice(s, c, M.Reissued(c, command.Value()));
    }

    /** Take a failed or cancelled command off its task; task and mission have failed. */
    method GiveUp(task: TransportItemTask, command: ExecutionCommand, reason: Reason)
      requires Built() && Sound() && Mine(task)
      modifies task, runtime
      ensures Sound() && executionManager.commands == old(executionManager.commands)
      ensures var c := M.Cleared(old(taskRunner.Context(task)), command.commandId);
              && M.ExecWf(old(State()).n, c.exec)
              && State() == M.FailTask(old(State()), c, old(command.Value()), reason)
    {
      ghost var s := State();
      ClearActive(task, command.commandId);
      ghost var c := taskRunner.Context(task);
      FailTask(task, command, reason);
      M.FailTaskTwice(s, c, command.Value(), reason);
    }

    /** React to a failure on record: retry an unverified move, or fail the task and the mission. */
    method CommandFailedWith(task: TransportItemTask, command: ExecutionCommand, error: Reason)
      returns (commands: seq<ExecutionCommand>)
      requires Built() && Sound() && Mine(task) && command.taskId == task.taskId
      requires command.robotId == RobotOf(task.taskId.leg) && M.HandlesOwn(command.kind, task.taskId)
      modifies task, runtime, executionManager
      ensures Sound() && executionManager.Grows()
      ensures State() == M.FailedWith(old(State()), old(command.Value()), error).state
      ensures Lists(executionManager.commands, commands,
                    M.FailedWith(old(State()), old(command.Value()), error).emitted)
    {
      ContextIsView(task);
      if task.activeCommandId != Some(command.commandId) {
        return [];
      }
      commands := RetryOrFail(task, command, error);
    }

    predicate MayRetry(task: TransportItemTask, command: ExecutionCommand, error: Reason)
      reads task
    {
      && error == ArrivalNotVerified && command.kind.MoveRobot?
      && task.Value().Retries(command.kind.target) < maxArrivalRetries
    }

    lemma FailedCase(task: TransportItemTask, command: ExecutionCommand, error: Reason)
      requires Built() && Sound() && Mine(task) && command.taskId == task.taskId
      requires command.robotId == RobotOf(task.taskId.leg) && M.HandlesOwn(command.kind, task.taskId)
      requires task.activeCommandId == Some(command.commandId)
      ensures var s, cmd := State(), command.Value();
              var c, o := M.Cleared(taskRunner.Context(task), cmd.id), M.FailedWith(s, cmd, error);
              && M.ExecWf(s.n, c.exec) && c.task.id in s.tasks
              && if MayRetry(task, command, error) then
                   M.Wf(M.Put(s, M.Reissued(c, cmd))) && o == M.Outcome(M.Put(s, M.Reissued(c, cmd)), [s.exec.next])
                 else
                   o == M.Outcome(M.FailTask(s, c, cmd, error), [])
    {
      ContextIsView(task);
    }

    method RetryOrFail(task: TransportItemTask, command: ExecutionCommand, error: Reason)
      returns (commands: seq<ExecutionCommand>)
      requires Built() && Sound() && Mine(task) && command.taskId == task.taskId
      requires command.robotId == RobotOf(task.taskId.leg) && M.HandlesOwn(command.kind, task.taskId)
      requires task.activeCommandId == Some(command.commandId)
      modifies task, runtime, executionManager
      ensures Sound() && executionManager.Grows()
      ensures State() == M.FailedWith(old(State()), old(command.Value()), error).state
      ensures Lists(executionManager.commands, commands,
                    M.FailedWith(old(State()), old(command.Value()), error).emitted)
    {
      FailedCase(task, command, error);
      if MayRetry(task, command, error) {
        var retry := TryAgain(task, command);
        return [retry];
      }
      GiveUp(task, command, error);
      return [];
    }

    method CommandFailed(k: nat, error: Reason) returns (commands: seq<ExecutionCommand>)
      requires Built() && Sound()
      modifies Footprint()
      ensures Sound() && executionManager.Grows()
      ensures State() == M.HandleFailed(old(State()), k, error).state
      ensures Lists(executionManager.commands, commands, M.HandleFailed(old(State()), k, error).emitted)
    {
      if k !in executionManager.commands {
        return [];
      }
      FiledCommand(k);
      var command := executionManager.commands[k];
      var first := MarkTerminal(k, CommandStatus.FAILED, Some(error));
      if !first {
        return [];
      }
      FiledCommand(k);
      commands := CommandFailedWith(runtime.tasks[command.taskId], command, error);
    }

    /** Take a cancelled command off its task and set the task's status. */
    method ReleaseTask(task: TransportItemTask, k: nat, status: TaskStatus)
      requires Built() && Sound() && Mine(task)
      modifies task
      ensures Sound() && executionManager.commands == old(executionManager.commands)
      ensures var c := M.Cleared(old(taskRunner.Context(task)), k);
              State() == M.Put(old(State()), c.(task := c.task.(status := status)))
    {
      ghost var s := State();
      ClearActive(task, k);
      ghost var c := taskRunner.Context(task);
      SetTaskStatus(task, status);
      M.PutTwice(s, c, taskRunner.Context(task));
    }

    /** React to a cancellation on record. */
    method CommandCancelledFor(task: TransportItemTask, command: ExecutionCommand, reason: Reason)
      returns (commands: seq<ExecutionCommand>)
      requires Built() && Sound() && Mine(task) && command.taskId == task.taskId
      requires command.robotId == RobotOf(task.taskId.leg)
      modifies runtime, runtime.tasks.Values, runtime.world.robots.Values, runtime.world.transfer, executionManager
      ensures Sound() && executionManager.Grows()
      ensures State() == M.CancelledFor(old(State()), old(command.Value()), reason).state
      ensures Lists(executionManager.commands, commands,
                    M.CancelledFor(old(State()), old(command.Value()), reason).emitted)
    {
      ContextIsView(task);
      if reason == OperatorPause || reason == OperatorRobotPause {
        var paused := runtime.world.robots[command.robotId].paused;
        ReleaseTask(task, command.commandId, TaskStatus.RUNNING);
        if reason == OperatorRobotPause && !paused {
          commands := Advance();
          return;
        }
        return [];
      }
      if reason == OperatorAbort {
        ReleaseTask(task, command.commandId, TaskStatus.CANCELLED);
        return [];
      }
      GiveUp(task, command, reason);
      return [];
    }

    method CommandCancelled(k: nat, reason: Reason) returns (commands: seq<ExecutionCommand>)
      requires Built() && Sound()
      modifies Footprint()
      ensures Sound() && executionManager.Grows()
      ensures State() == M.HandleCancelled(old(State()), k, reason).state
      ensures Lists(executionManager.commands, commands, M.HandleCancelled(old(State()), k, reason).emitted)
    {
      if k !in executionManager.commands {
        return [];
      }
      FiledCommand(k);
      var command := executionManager.commands[k];
      var first := MarkTerminal(k, CommandStatus.CANCELLED, Some(reason));
      if !first {
        return [];
      }
      FiledCommand(k);
      commands := CommandCancelledFor(runtime.tasks[command.taskId], command, reason);
    }

    // ----- Operator requests -----

    method PauseRequested() returns (commands: seq<ExecutionCommand>)
      requires Built() && Sound()
      modifies runtime
      ensures Sound() && executionManager.commands == old(executionManager.commands) && commands == []
      ensures State() == M.Step(old(State()), M.PauseRequested).state
    {
      if runtime.status == MissionStatus.RUNNING {
        SetMissionStatus(PAUSED);
      }
      return [];
    }

    method ResumeRequested() returns (commands: seq<ExecutionCommand>)
      requires Built() && Sound()
      modifies runtime, runtime.tasks.Values, runtime.world.robots.Values, runtime.world.transfer, executionManager
      ensures Sound() && executionManager.Grows()
      ensures State() == M.Step(old(State()), M.ResumeRequested).state
      ensures Lists(executionManager.commands, commands, M.Step(old(State()), M.ResumeRequested).emitted)
    {
      if runtime.status != PAUSED {
        return [];
      }
      SetMissionStatus(MissionStatus.RUNNING);
      commands := Advance();
    }

    method MarkPaused(robot: RobotId, paused: bool)
      requires Built() && Sound() && robot in runtime.world.robots
      modifies runtime.world.robots[robot]
      ensures Sound() && executionManager.Value() == old(executionManager.Value())
      ensures var was := old(runtime.world.Robots());
              robot in was && runtime.world.Robots() == was[robot := was[robot].(paused := paused)]
    {
      ghost var was := runtime.world.Robots();
      runtime.world.robots[robot].paused := paused;
      assert executionManager.Value() == old(executionManager.Value());
      assert runtime.world.Robots() == was[robot := was[robot].(paused := paused)];
    }

    method SetPaused(robot: RobotId, paused: bool)
      requires Built() && Sound() && robot in runtime.world.robots
      modifies runtime.world.robots[robot]
      ensures Sound() && executionManager.commands == old(executionManager.commands)
      ensures State() == M.SetPaused(old(State()), robot, paused)
    {
      ghost var s := State();
      MarkPaused(robot, paused);
      assert runtime.Tasks() == s.tasks && runtime.world.Items() == s.items;
    }

    method RobotPauseRequested(robot: RobotId) returns (commands: seq<ExecutionCommand>)
      requires Built() && Sound()
      modifies runtime.world.robots.Values
      ensures Sound() && executionManager.commands == old(executionManager.commands) && commands == []
      ensures State() == M.Step(old(State()), M.RobotPauseRequested(robot)).state
    {
      if robot in runtime.world.robots {
        SetPaused(robot, true);
      }
      return [];
    }

    method RobotResumeRequested(robot: RobotId) returns (commands: seq<ExecutionCommand>)
      requires Built() && Sound()
      modifies runtime, runtime.tasks.Values, runtime.world.robots.Values, runtime.world.transfer, executionManager
      ensures Sound() && executionManager.Grows()
      ensures State() == M.HandleRobotResume(old(State()), robot).state
      ensures Lists(executionManager.commands, commands, M.HandleRobotResume(old(State()), robot).emitted)
    {
      if robot !in runtime.world.robots || !runtime.world.robots[robot].paused {
        return [];
      }
      SetPaused(robot, false);
      commands := Advance();
    }

    /** Cancel every task that has not succeeded. */
    method CancelTasks()
      requires runtime.Valid()
      modifies runtime.tasks.Values
      ensures forall id :: id in runtime.tasks ==>
                runtime.tasks[id].Value() == M.Aborted(old(runtime.tasks[id].Value()))
    {
      var ids := Ids(runtime.total);
      while ids != []
        invariant forall x :: x in ids ==> x in runtime.tasks
        invariant forall id :: id in runtime.tasks ==>
                    var was, now := old(runtime.tasks[id].Value()), runtime.tasks[id].Value();
                    (now == was && id in ids) || now == M.Aborted(was)
        decreases |ids|
      {
        var task := runtime.tasks[ids[0]];
        if task.status != TaskStatus.SUCCEEDED {
          task.status := TaskStatus.CANCELLED;
        }
        RestMembers(ids);
        ids := ids[1..];
      }
    }

    method AbortRequested() returns (commands: seq<ExecutionCommand>)
      requires Built() && Sound()
      modifies runtime, runtime.tasks.Values
      ensures Sound() && executionManager.commands == old(executionManager.commands) && commands == []
      ensures State() == M.HandleAbort(old(State())).state
    {
      if runtime.status == READY || runtime.status == MissionStatus.RUNNING || runtime.status == PAUSED
         || runtime.status == MissionStatus.FAILED {
        SetMissionStatus(ABORTED);
        CancelAll();
      }
      return [];
    }

    method CancelAll()
      requires Built() && Sound()
      modifies runtime.tasks.Values
      ensures Sound() && executionManager.commands == old(executionManager.commands)
      ensures var s := old(State());
              State() == s.(tasks := map id | id in s.tasks :: M.Aborted(s.tasks[id]))
    {
      ghost var s := State();
      CancelTasks();
      OnlyTasksTouched();
      assert runtime.Tasks() == map id | id in s.tasks :: M.Aborted(s.tasks[id]);
    }

    // ----- Events -----

    /** Every reachable mission is valid, and every event keeps it so. */
    ghost predicate Valid()
      reads executionManager, executionManager.commands.Values, Footprint()
    {
      Built() && Sound() && Inv(State())
    }

    method Handle(event: M.Event) returns (commands: seq<ExecutionCommand>)
      requires Built() && Sound()
      modifies Footprint()
      ensures Sound() && executionManager.Grows()
      ensures State() == M.Step(old(State()), event).state
      ensures Lists(executionManager.commands, commands, M.Step(old(State()), event).emitted)
    {
      match event
      case StartRequested => commands := StartRequested();
      case Completed(k) => commands := CommandCompleted(k);
      case Failed(k, error) => commands := CommandFailed(k, error);
      case Cancelled(k, reason) => commands := CommandCancelled(k, reason);
      case PauseRequested => commands := PauseRequested();
      case ResumeRequested => commands := ResumeRequested();
      case RobotPauseRequested(robot) => commands := RobotPauseRequested(robot);
      case RobotResumeRequested(robot) => commands := RobotResumeRequested(robot);
      case AbortRequested => commands := AbortRequested();
      case Unrecognised => commands := [];
    }

    /** Apply an event: one step of the state machine, and the invariant stays. */
    method HandleEvent(event: M.Event) returns (commands: seq<ExecutionCommand>)
      requires Valid()
      modifies Footprint()
      ensures Valid() && executionManager.Grows()
      ensures State() == M.Step(old(State()), event).state
      ensures Lists(executionManager.commands, commands, M.Step(old(State()), event).emitted)
    {
      StepKeepsInvariant(State(), event);
      commands := Handle(event);
    }
  }

  const DEFAULT_ARRIVAL_RETRIES: int := 2

  /** A package at the source and its two pending tasks, for each number up to `total`. */
  method CreateTasks(total: nat) returns (tasks: map<TaskId, TransportItemTask>, items: map<nat, PackageState>)
    ensures forall id: TaskId :: id in tasks <==> 1 <= id.item <= total
    ensures forall id :: id in tasks ==> fresh(tasks[id]) && tasks[id].Value() == NewTask(id)
    ensures forall x: nat :: x in items <==> 1 <= x <= total
    ensures forall x :: x in items ==>
              fresh(items[x]) && items[x].itemId == x && items[x].Value() == Package(Source, None)
  {
    tasks, items := map[], map[];
    for index := 0 to total
      invariant forall id: TaskId :: id in tasks <==> 1 <= id.item <= index
      invariant forall id :: id in tasks ==> fresh(tasks[id]) && tasks[id].Value() == NewTask(id)
      invariant forall x: nat :: x in items <==> 1 <= x <= index
      invariant forall x :: x in items ==>
                  fresh(items[x]) && items[x].itemId == x && items[x].Value() == Package(Source, None)
    {
      var item := new PackageState(index + 1, Source);
      var up := new TransportItemTask(TaskId(index + 1, SourceToTransfer));
      var down := new TransportItemTask(TaskId(index + 1, TransferToDestination));
      items := items[index + 1 := item];
      tasks := tasks[up.taskId := up][down.taskId := down];
      forall id: TaskId | id.item == index + 1
        ensures id == up.taskId || id == down.taskId
      {
        match id.leg
        case SourceToTransfer => assert id == TaskId(index + 1, SourceToTransfer);
        case TransferToDestination => assert id == TaskId(index + 1, TransferToDestination);
      }
    }
  }

  method CreateRuntime(total: nat) returns (runtime: MissionRuntime)
    ensures runtime.Valid() && runtime.total == total && fresh(runtime)
    ensures fresh(runtime.tasks.Values) && fresh(runtime.world.robots.Values) && fresh(runtime.world.items.Values)
    ensures fresh(runtime.world.transfer) && runtime.status == READY
    ensures IsInitial(runtime)
  {
    var tasks, items := CreateTasks(total);
    var upstream := new RobotState(Tb3_1, Robot1Home);
    var downstream := new RobotState(Tb3_2, Robot2Home);
    var transfer := new ResourceState(TRANSFER_CONFIG);
    var world := new MissionWorld(map[Tb3_1 := upstream, Tb3_2 := downstream], items, transfer);
    runtime := new MissionRuntime(total, tasks, world);
  }

  ghost predicate IsInitial(runtime: MissionRuntime)
    reads runtime, runtime.tasks.Values, runtime.world.robots.Values, runtime.world.items.Values, runtime.world.transfer
  {
    && runtime.status == READY && runtime.world.transfer.Value() == Resource(TRANSFER_CONFIG, [], [], None)
    && (forall id :: id in runtime.tasks ==> runtime.tasks[id].Value() == NewTask(id))
    && (forall x :: x in runtime.world.items ==> runtime.world.items[x].Value() == Package(Source, None))
    && (forall r :: r in runtime.world.robots ==>
          runtime.world.robots[r].Value() == Robot(if r == Tb3_1 then Robot1Home else Robot2Home, IDLE, None, false))
  }

  lemma FreshRecords(runtime: MissionRuntime, maxRetries: int)
    requires runtime.Valid() && IsInitial(runtime)
    ensures var s := M.Initial(runtime.total, maxRetries);
            runtime.Tasks() == s.tasks && runtime.world.Items() == s.items && runtime.world.Robots() == s.robots
  {
  }

  lemma InitialState(manager: MissionManager)
    requires manager.Built() && manager.Sound() && IsInitial(manager.runtime)
    requires manager.executionManager.Value() == Exec(map[], 1)
    ensures manager.State() == M.Initial(manager.runtime.total, manager.maxArrivalRetries)
  {
    FreshRecords(manager.runtime, manager.maxArrivalRetries);
  }

  /** The default mission, ready to start. */
  method CreateDefault(total: nat) returns (manager: MissionManager)
    ensures fresh(manager) && fresh(manager.Footprint())
    ensures manager.Valid() && manager.State() == M.Initial(total, DEFAULT_ARRIVAL_RETRIES)
  {
    var runtime := CreateRuntime(total);
    manager := new MissionManager(runtime, DEFAULT_ARRIVAL_RETRIES);
    InitialState(manager);
    InitialInvariant(total, DEFAULT_ARRIVAL_RETRIES);
  }
}
