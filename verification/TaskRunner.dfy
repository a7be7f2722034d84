/** The task runner as it runs: behavior-tree nodes that change the task, the world and
    the execution manager in place, and the resumable sequence that ticks them. */
module TaskRunner {
  import opened Domain
  import B = BehaviorTree
  import opened ExecutionManager
  import opened World
  import M = Mission

  class TransportTaskRunner {
    const world: MissionWorld
    const executionManager: ExecutionManager

    constructor (world: MissionWorld, executionManager: ExecutionManager)
      ensures this.world == world && this.executionManager == executionManager
    {
      this.world, this.executionManager := world, executionManager;
    }

    /** The task's robot and package are known. */
    ghost predicate Knows(task: TransportItemTask) {
      world.Valid() && RobotOf(task.taskId.leg) in world.robots && task.taskId.item in world.items
    }

    function RobotFor(task: TransportItemTask): RobotState
      requires Knows(task)
    {
      world.robots[RobotOf(task.taskId.leg)]
    }

    /** The records a tick of `task` works on. */
    ghost function Context(task: TransportItemTask): B.Ctx
      requires Knows(task)
      reads task, RobotFor(task), world.items[task.taskId.item], world.transfer
      reads executionManager, executionManager.commands.Values
    {
      B.Ctx(task.Value(), RobotFor(task).Value(), world.items[task.taskId.item].Value(), world.transfer.Value(),
            executionManager.Value())
    }

    twostate predicate Did(task: TransportItemTask, new r: B.Ticked, success: bool, new commands: seq<ExecutionCommand>)
      requires Knows(task)
      reads task, RobotFor(task), world.items[task.taskId.item], world.transfer
      reads executionManager, executionManager.commands.Values
    {
      && executionManager.Valid() && executionManager.Grows()
      && Context(task) == r.ctx && success == r.success && Lists(executionManager.commands, commands, r.emitted)
    }

    /** Make a newly created command the task's active one. */
    method Activate(task: TransportItemTask, command: ExecutionCommand)
      requires Knows(task) && executionManager.Valid()
      modifies task
      ensures executionManager.Valid()
      ensures var c := old(Context(task));
              Context(task) == c.(task := c.task.(status := TaskStatus.RUNNING, active := Some(command.commandId)))
    {
      task.status := TaskStatus.RUNNING;
      task.activeCommandId := Some(command.commandId);
      assert executionManager.Value() == old(executionManager.Value());
    }

    /** Create a move for a task and make it the task's active command. */
    method IssueMove(task: TransportItemTask, target: Waypoint) returns (command: ExecutionCommand)
      requires Knows(task) && executionManager.Valid()
      modifies task, executionManager
      ensures executionManager.Valid() && executionManager.Grows()
      ensures var c := old(Context(task));
              && Context(task) == c.(task := c.task.(status := TaskStatus.RUNNING, active := Some(c.exec.next)),
                                     exec := c.exec.Add(MoveRobot(target), c.task.id, c.task.Robot()))
              && Lists(executionManager.commands, [command], [c.exec.next])
    {
      command := executionManager.CreateMove(task.taskId, RobotOf(task.taskId.leg), target);
      Activate(task, command);
    }

    /** The same for handling the task's package. */
    method IssueHandling(task: TransportItemTask, handling: Handling) returns (command: ExecutionCommand)
      requires Knows(task) && executionManager.Valid()
      modifies task, executionManager
      ensures executionManager.Valid() && executionManager.Grows()
      ensures var c := old(Context(task));
              && Context(task) ==
                 c.(task := c.task.(status := TaskStatus.RUNNING, active := Some(c.exec.next)),
                    exec := c.exec.Add(HandleItem(c.task.id.item, handling), c.task.id, c.task.Robot()))
              && Lists(executionManager.commands, [command], [c.exec.next])
    {
      command := executionManager.CreateHandling(task.taskId, RobotOf(task.taskId.leg), task.taskId.item, handling);
      Activate(task, command);
    }

    method TickClaim(task: TransportItemTask) returns (success: bool, commands: seq<ExecutionCommand>)
      requires Knows(task) && executionManager.Valid()
      modifies task, RobotFor(task)
      ensures Did(task, B.TickClaim(old(Context(task))), success, commands)
    {
      var robot := RobotFor(task);
      if robot.activeTaskId == Some(task.taskId) {
        return true, [];
      }
      if robot.status != IDLE {
        return false, [];
      }
      Assign(task);
      SetProgress(task, TaskStatus.RUNNING, task.phase);
      return true, [];
    }

    method TickMove(task: TransportItemTask, target: Waypoint, phase: Phase)
      returns (success: bool, commands: seq<ExecutionCommand>)
      requires Knows(task) && executionManager.Valid()
      modifies task, executionManager
      ensures Did(task, B.TickMove(old(Context(task)), target, phase), success, commands)
    {
      SetProgress(task, task.status, phase);
      if RobotFor(task).location == target {
        return true, [];
      }
      if task.activeCommandId.Some? {
        return false, [];
      }
      var command := IssueMove(task, target);
      return false, [command];
    }

    /** The robot waits for its task, which is blocked. */
    method Block(task: TransportItemTask)
      requires Knows(task) && executionManager.Valid()
      modifies task, RobotFor(task)
      ensures executionManager.Valid()
      ensures var c := old(Context(task));
              Context(task) == B.MarkWaiting(c.(task := c.task.(status := TaskStatus.BLOCKED)))
    {
      task.status := TaskStatus.BLOCKED;
      world.MarkRobotWaiting(RobotOf(task.taskId.leg), task.taskId);
      assert executionManager.Value() == old(executionManager.Value());
    }

    method SetBlockedDetails(task: TransportItemTask, resource: Waypoint, decision: B.Decision)
      requires Knows(task) && executionManager.Valid()
      modifies task
      ensures executionManager.Valid()
      ensures Context(task) == B.WithDetails(old(Context(task)), resource, decision)
    {
      task.waitingResourceId := Some(resource);
      task.blockedReason := decision.reason;
      task.blockedBy := decision.blockedBy;
      task.waitingAt := decision.waitWaypoint;
      assert executionManager.Value() == old(executionManager.Value());
    }

    /** Note where the task is, for show and for the scheduler. */
    method SetProgress(task: TransportItemTask, status: TaskStatus, phase: Phase)
      requires Knows(task) && executionManager.Valid()
      modifies task
      ensures executionManager.Valid()
      ensures var c := old(Context(task));
              Context(task) == c.(task := c.task.(status := status, phase := phase))
    {
      task.status, task.phase := status, phase;
      assert executionManager.Value() == old(executionManager.Value());
    }

    method TickWait(task: TransportItemTask, resource: Waypoint, decision: B.Decision)
      returns (success: bool, commands: seq<ExecutionCommand>)
      requires Knows(task) && executionManager.Valid()
      modifies task, RobotFor(task), executionManager
      ensures Did(task, B.TickWait(old(Context(task)), resource, decision), success, commands)
    {
      SetBlockedDetails(task, resource, decision);
      if decision.waitWaypoint == None {
        Block(task);
        return false, [];
      }
      if RobotFor(task).location != decision.waitWaypoint.value {
        SetProgress(task, TaskStatus.RUNNING, task.phase);
        success, commands := TickMove(task, decision.waitWaypoint.value, MOVE_TO_WAIT_POINT);
        return;
      }
      WaitThere(task);
      return false, [];
    }

    method WaitThere(task: TransportItemTask)
      requires Knows(task) && executionManager.Valid()
      modifies task, RobotFor(task)
      ensures executionManager.Valid()
      ensures var c := old(Context(task));
              Context(task) ==
              B.MarkWaiting(c.(task := c.task.(phase := WAIT_FOR_RESOURCE, status := TaskStatus.BLOCKED)))
    {
      SetProgress(task, task.status, WAIT_FOR_RESOURCE);
      Block(task);
    }

    /** Ask the zone for access and note the phase. */
    method Ask(task: TransportItemTask, endpoint: Endpoint) returns (decision: B.Decision)
      requires Knows(task) && executionManager.Valid()
      modifies task, world.transfer
      ensures executionManager.Valid()
      ensures var c := old(Context(task));
              var actor, item := c.task.Robot(), Some(c.task.id.item);
              && decision == B.Decide(c.transfer, actor, endpoint, item)
              && Context(task) ==
                 c.(task := c.task.(phase := if endpoint == Pickup then ACQUIRE_PICKUP else ACQUIRE_DROPOFF),
                    transfer := B.Granted(c.transfer, actor, endpoint, c.task.id, item))
    {
      task.phase := if endpoint == Pickup then ACQUIRE_PICKUP else ACQUIRE_DROPOFF;
      decision := world.resourceManager.RequestAccess(
        RobotOf(task.taskId.leg), endpoint, task.taskId, Some(task.taskId.item));
      assert executionManager.Value() == old(executionManager.Value());
    }

    /** The task's robot is busy with it. */
    method Assign(task: TransportItemTask)
      requires Knows(task) && executionManager.Valid()
      modifies RobotFor(task)
      ensures executionManager.Valid()
      ensures var c := old(Context(task));
              Context(task) == c.(robot := c.robot.(status := BUSY, activeTask := Some(c.task.id)))
    {
      world.AssignRobot(RobotOf(task.taskId.leg), task.taskId);
      assert executionManager.Value() == old(executionManager.Value());
    }

    method ClearBlockedDetails(task: TransportItemTask)
      requires Knows(task) && executionManager.Valid()
      modifies task
      ensures executionManager.Valid()
      ensures var c := old(Context(task));
              Context(task) == c.(task := c.task.(waitingResource := None, blockedReason := None, blockedBy := None,
                                                  waitingAt := None))
    {
      task.waitingResourceId, task.blockedReason, task.blockedBy, task.waitingAt := None, None, None, None;
      assert executionManager.Value() == old(executionManager.Value());
    }

    method TickRequest(task: TransportItemTask, endpoint: Endpoint)
      returns (success: bool, commands: seq<ExecutionCommand>)
      requires Knows(task) && executionManager.Valid()
      modifies task, RobotFor(task), world.transfer, executionManager
      ensures Did(task, B.TickRequest(old(Context(task)), endpoint), success, commands)
    {
      var resource := EndpointOf(task.taskId.leg, endpoint);
      if resource != world.transfer.config.resourceId || task.Value().Acquired(endpoint) {
        return true, [];
      }
      var decision := Ask(task, endpoint);
      match decision.status
      case WAIT => success, commands := TickWait(task, resource, decision);
      case BLOCKED =>
        SetBlockedDetails(task, resource, decision);
        Block(task);
        success, commands := false, [];
      case GRANTED =>
        Assign(task);
        SetAcquired(task, endpoint, true);
        ClearBlockedDetails(task);
        SetProgress(task, TaskStatus.RUNNING, task.phase);
        success, commands := true, [];
    }

    method SetAcquired(task: TransportItemTask, endpoint: Endpoint, value: bool)
      requires Knows(task) && executionManager.Valid()
      modifies task
      ensures executionManager.Valid()
      ensures var c := old(Context(task)); Context(task) == c.(task := c.task.SetAcquired(endpoint, value))
    {
      if endpoint == Pickup {
        task.pickupAcquired := value;
      } else {
        task.dropoffAcquired := value;
      }
      assert executionManager.Value() == old(executionManager.Value());
    }

    /** Whether the package has been handled already. */
    predicate Handled(task: TransportItemTask, handling: Handling)
      requires Knows(task)
      reads world.items[task.taskId.item]
    {
      var item := world.items[task.taskId.item];
      if handling == Load then
        item.carriedBy == Some(RobotOf(task.taskId.leg))
      else
        item.carriedBy == None && item.location == EndpointOf(task.taskId.leg, Dropoff)
    }

    method TickHandle(task: TransportItemTask, handling: Handling, phase: Phase)
      returns (success: bool, commands: seq<ExecutionCommand>)
      requires Knows(task) && executionManager.Valid()
      modifies task, executionManager
      ensures Did(task, B.TickHandle(old(Context(task)), handling, phase), success, commands)
    {
      if Handled(task, handling) {
        return true, [];
      }
      if task.activeCommandId.Some? {
        return false, [];
      }
      var command := HandleNow(task, handling, phase);
      return false, [command];
    }

    method HandleNow(task: TransportItemTask, handling: Handling, phase: Phase) returns (command: ExecutionCommand)
      requires Knows(task) && executionManager.Valid()
      modifies task, executionManager
      ensures executionManager.Valid() && executionManager.Grows()
      ensures var c := old(Context(task));
              && Context(task) ==
                 c.(task := c.task.(phase := phase, status := TaskStatus.RUNNING, active := Some(c.exec.next)),
                    exec := c.exec.Add(HandleItem(c.task.id.item, handling), c.task.id, c.task.Robot()))
              && Lists(executionManager.commands, [command], [c.exec.next])
    {
      SetProgress(task, task.status, phase);
      command := IssueHandling(task, handling);
    }

    /** Whether a node that keeps the zone's books acts: access has been acquired. */
    predicate Acts(task: TransportItemTask, endpoint: Endpoint)
      reads task
    {
      EndpointOf(task.taskId.leg, endpoint) == world.transfer.config.resourceId && task.Value().Acquired(endpoint)
    }

    method TickOccupy(task: TransportItemTask, endpoint: Endpoint)
      requires Knows(task) && executionManager.Valid()
      modifies world.transfer
      ensures executionManager.Valid() && Context(task) == B.TickOccupy(old(Context(task)), endpoint).ctx
    {
      if Acts(task, endpoint) {
        world.resourceManager.Occupy(RobotOf(task.taskId.leg));
        assert executionManager.Value() == old(executionManager.Value());
      }
    }

    method TickUpdate(task: TransportItemTask, endpoint: Endpoint, handling: Handling)
      requires Knows(task) && executionManager.Valid()
      modifies world.transfer
      ensures executionManager.Valid() && Context(task) == B.TickUpdate(old(Context(task)), endpoint, handling).ctx
    {
      if Acts(task, endpoint) {
        if handling == Load {
          world.resourceManager.ReleaseItem(task.taskId.item);
        } else {
          world.resourceManager.BufferItem(task.taskId.item);
        }
        assert executionManager.Value() == old(executionManager.Value());
      }
    }

    method TickRelease(task: TransportItemTask, endpoint: Endpoint)
      requires Knows(task) && executionManager.Valid()
      modifies task, world.transfer
      ensures executionManager.Valid() && Context(task) == B.TickRelease(old(Context(task)), endpoint).ctx
    {
      if Acts(task, endpoint) {
        world.resourceManager.Release(RobotOf(task.taskId.leg));
        assert executionManager.Value() == old(executionManager.Value());
        SetAcquired(task, endpoint, false);
      }
    }

    method TickVacate(task: TransportItemTask, endpoint: Endpoint)
      returns (success: bool, commands: seq<ExecutionCommand>)
      requires Knows(task) && executionManager.Valid()
      modifies task, executionManager
      ensures Did(task, B.TickVacate(old(Context(task)), endpoint), success, commands)
    {
      var exit := TransferSideWaypoint(RobotOf(task.taskId.leg));
      if EndpointOf(task.taskId.leg, endpoint) != world.transfer.config.resourceId || exit == None {
        return true, [];
      }
      success, commands := TickMove(task, exit.value, MOVE_TO_TRANSFER_EXIT);
    }

    predicate KeepsBooks(node: B.Node) {
      || node.MarkResourceOccupied? || node.UpdateResourceAfterHandling? || node.ReleaseResourceIfManaged?
      || node.ReleaseRobot? || node.MarkTaskSucceeded?
    }

    /** The nodes that only write something down, and so are always done. */
    method KeepBooks(task: TransportItemTask, node: B.Node)
      requires Knows(task) && executionManager.Valid() && KeepsBooks(node)
      modifies task, RobotFor(task), world.transfer
      ensures executionManager.Valid() && B.TickNode(node, old(Context(task))) == B.Ticked(Context(task), true, [])
    {
      match node
      case MarkResourceOccupied(endpoint) => TickOccupy(task, endpoint);
      case UpdateResourceAfterHandling(endpoint, handling) => TickUpdate(task, endpoint, handling);
      case ReleaseResourceIfManaged(endpoint) => TickRelease(task, endpoint);
      case ReleaseRobot =>
        world.ReleaseRobot(RobotOf(task.taskId.leg));
        assert executionManager.Value() == old(executionManager.Value());
      case MarkTaskSucceeded => SetProgress(task, TaskStatus.SUCCEEDED, DONE);
    }

    method TickNode(task: TransportItemTask, node: B.Node) returns (success: bool, commands: seq<ExecutionCommand>)
      requires Knows(task) && executionManager.Valid()
      modifies task, RobotFor(task), world.transfer, executionManager
      ensures Did(task, B.TickNode(node, old(Context(task))), success, commands)
    {
      match node
      case ClaimRobot => success, commands := TickClaim(task);
      case RequestResourceAccess(endpoint) => success, commands := TickRequest(task, endpoint);
      case MoveTo(AtEndpoint(endpoint), phase) =>
        success, commands := TickMove(task, EndpointOf(task.taskId.leg, endpoint), phase);
      case MoveTo(AtWaypoint(waypoint), phase) => success, commands := TickMove(task, waypoint, phase);
      case HandlePackage(handling, phase) => success, commands := TickHandle(task, handling, phase);
      case VacateResourceIfManaged(endpoint) => success, commands := TickVacate(task, endpoint);
      case _ =>
        KeepBooks(task, node);
        success, commands := true, [];
    }

    method SaveIndex(task: TransportItemTask, index: nat)
      requires Knows(task) && executionManager.Valid()
      modifies task
      ensures executionManager.Valid()
      ensures var c := old(Context(task)); Context(task) == c.(task := c.task.(index := index))
    {
      task.index := index;
      assert executionManager.Value() == old(executionManager.Value());
    }

    /** Tick the child at the saved index; when it is done, save the next one. */
    method TickChild(task: TransportItemTask) returns (success: bool, commands: seq<ExecutionCommand>)
      requires Knows(task) && executionManager.Valid() && task.index < B.TREE_SIZE
      modifies task, RobotFor(task), world.transfer, executionManager
      ensures executionManager.Valid() && executionManager.Grows()
      ensures var r := B.TickTree(old(Context(task)));
              if success then
                task.index == old(task.index) + 1 && B.TickTree(Context(task)) == r
              else
                Context(task) == r.ctx && Lists(executionManager.commands, commands, r.emitted)
    {
      success, commands := TickNode(task, B.Child(task.index));
      if success {
        SaveIndex(task, task.index + 1);
      }
    }

    /** Tick the children in order from the saved index until one is not done. */
    method Advance(task: TransportItemTask) returns (commands: seq<ExecutionCommand>)
      requires Knows(task) && executionManager.Valid()
      modifies task, RobotFor(task), world.transfer, executionManager
      ensures executionManager.Valid() && executionManager.Grows()
      ensures var r := B.TickTree(old(Context(task)));
              Context(task) == r.ctx && Lists(executionManager.commands, commands, r.emitted)
    {
      while task.index < B.TREE_SIZE
        invariant executionManager.Valid() && executionManager.Grows()
        invariant B.TickTree(Context(task)) == B.TickTree(old(Context(task)))
        decreases B.TREE_SIZE - task.index
      {
        var success, emitted := TickChild(task);
        if !success {
          return emitted;
        }
      }
      return [];
    }

    /** Mark a task running and tick it for the first time. */
    method Start(task: TransportItemTask) returns (commands: seq<ExecutionCommand>)
      requires Knows(task) && executionManager.Valid()
      modifies task, RobotFor(task), world.transfer, executionManager
      ensures executionManager.Valid() && executionManager.Grows()
      ensures var c := old(Context(task));
              var r := B.TickTree(c.(task := c.task.(status := TaskStatus.RUNNING, phase := ACQUIRE_PICKUP)));
              Context(task) == r.ctx && Lists(executionManager.commands, commands, r.emitted)
    {
      SetProgress(task, TaskStatus.RUNNING, ACQUIRE_PICKUP);
      commands := Advance(task);
    }

    /** Apply a successful command to the task and the world, if it is the task's active one. */
    method ApplyCommandSuccess(task: TransportItemTask, command: ExecutionCommand) returns (applied: bool)
      requires Knows(task) && executionManager.Valid()
      requires command.robotId == RobotOf(task.taskId.leg)
      requires command.kind.HandleItem? && task.activeCommandId == Some(command.commandId) ==>
                 command.kind.item == task.taskId.item
      modifies task, RobotFor(task), world.items[task.taskId.item]
      ensures executionManager.Valid()
      ensures applied == (old(task.activeCommandId) == Some(command.commandId))
      ensures Context(task) == M.Applied(old(Context(task)), old(command.Value()))
    {
      if task.activeCommandId != Some(command.commandId) {
        return false;
      }
      task.activeCommandId := None;
      match command.kind {
        case MoveRobot(target) => world.MoveRobot(command.robotId, target);
        case HandleItem(item, Load) => world.LoadItem(command.robotId, item);
        case HandleItem(item, Unload) =>
          world.UnloadItem(command.robotId, item, EndpointOf(task.taskId.leg, Dropoff));
      }
      assert executionManager.Value() == old(executionManager.Value());
      return true;
    }
  }
}
