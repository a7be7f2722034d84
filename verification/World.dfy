/** The mission's belief about robots, packages and the transfer resource, as objects
    that change in place. */
module World {
  import opened Domain
  import opened BehaviorTree

  class TransportItemTask {
    const taskId: TaskId
    var status: TaskStatus
    var phase: Phase
    var activeCommandId: Option<nat>
    var waitingResourceId: Option<Waypoint>
    var blockedReason: Option<Reason>
    var blockedBy: Option<Blocker>
    var waitingAt: Option<Waypoint>
    /** The blackboard of the behavior tree. */
    var index: nat
    var pickupAcquired: bool
    var dropoffAcquired: bool
    var arrivalRetries: map<Waypoint, nat>

    constructor (taskId: TaskId)
      ensures this.taskId == taskId && Value() == NewTask(taskId)
    {
      this.taskId := taskId;
      status, phase := TaskStatus.PENDING, NOT_STARTED;
      activeCommandId, waitingResourceId, blockedReason, blockedBy, waitingAt := None, None, None, None, None;
      index, pickupAcquired, dropoffAcquired, arrivalRetries := 0, false, false, map[];
    }

    function Value(): (t: Task)
      reads this
      ensures t.id == taskId
    {
      Task(taskId, status, phase, activeCommandId, waitingResourceId, blockedReason, blockedBy, waitingAt,
           index, pickupAcquired, dropoffAcquired, arrivalRetries)
    }
  }

  class RobotState {
    const robotId: RobotId
    var location: Waypoint
    var status: RobotStatus
    var activeTaskId: Option<TaskId>
    var paused: bool

    constructor (robotId: RobotId, location: Waypoint)
      ensures this.robotId == robotId && Value() == Robot(location, IDLE, None, false)
    {
      this.robotId, this.location := robotId, location;
      status, activeTaskId, paused := IDLE, None, false;
    }

    function Value(): Robot
      reads this
    {
      Robot(location, status, activeTaskId, paused)
    }
  }

  class PackageState {
    const itemId: nat
    var location: Waypoint
    var carriedBy: Option<RobotId>

    constructor (itemId: nat, location: Waypoint)
      ensures this.itemId == itemId && Value() == Package(location, None)
    {
      this.itemId, this.location := itemId, location;
      carriedBy := None;
    }

    function Value(): Package
      reads this
    {
      Package(location, carriedBy)
    }
  }

  class ResourceState {
    const config: ResourceConfig
    var robotOccupancy: seq<RobotId>
    var packageOccupancy: seq<nat>
    var activeLease: Option<Lease>

    constructor (config: ResourceConfig)
      ensures Value() == Resource(config, [], [], None)
    {
      this.config := config;
      robotOccupancy, packageOccupancy, activeLease := [], [], None;
    }

    function Value(): (r: Resource)
      reads this
      ensures r.config == config
    {
      Resource(config, robotOccupancy, packageOccupancy, activeLease)
    }
  }

  /** The access rules, applied to the one managed resource. */
  class ResourceManager {
    const resource: ResourceState

    constructor (resource: ResourceState)
      ensures this.resource == resource
    {
      this.resource := resource;
    }

    method RequestAccess(actor: RobotId, purpose: Endpoint, task: TaskId, item: Option<nat>)
      returns (decision: Decision)
      modifies resource
      ensures decision == Decide(old(resource.Value()), actor, purpose, item)
      ensures resource.Value() == Granted(old(resource.Value()), actor, purpose, task, item)
    {
      var r := resource;
      var granted := Decision(GRANTED, None, None, None);
      if r.activeLease.Some? && r.activeLease.value.actor != actor {
        return Denied(r.Value(), actor, WaitingForTransferLease, Some(ByRobot(r.activeLease.value.actor)));
      }
      if actor in r.robotOccupancy {
        return granted;
      }
      if r.Value().RobotSlots() <= 0 {
        return Denied(r.Value(), actor, TransferRobotOccupied,
                      if r.robotOccupancy != [] then Some(ByRobot(r.robotOccupancy[0])) else None);
      }
      if purpose == Dropoff {
        if item == None {
          return Decision(AccessStatus.BLOCKED, None, Some(MissingItem), None);
        }
        if r.Value().PackageSlots() <= 0 {
          return Denied(r.Value(), actor, TransferPackageFull,
                        if r.packageOccupancy != [] then Some(ByItem(r.packageOccupancy[0])) else None);
        }
      } else if item == None || item.value !in r.packageOccupancy {
        return Denied(r.Value(), actor, PackageNotAvailable, if item.Some? then Some(ByItem(item.value)) else None);
      }
      GrantLease(actor, purpose, task, item);
      return granted;
    }

    method GrantLease(actor: RobotId, purpose: Endpoint, task: TaskId, item: Option<nat>)
      modifies resource
      ensures var was := old(resource.Value());
              resource.Value() ==
              if was.lease.Some? then was else was.(lease := Some(Lease(task, actor, purpose, item)))
    {
      if resource.activeLease == None {
        resource.activeLease := Some(Lease(task, actor, purpose, item));
      }
    }

    method Occupy(actor: RobotId)
      modifies resource
      ensures resource.Value() == BehaviorTree.Occupy(old(resource.Value()), actor)
    {
      if actor !in resource.robotOccupancy {
        resource.robotOccupancy := resource.robotOccupancy + [actor];
      }
    }

    method Release(actor: RobotId)
      modifies resource
      ensures resource.Value() == BehaviorTree.Release(old(resource.Value()), actor)
    {
      resource.robotOccupancy := RemoveFirst(resource.robotOccupancy, actor);
      if resource.activeLease.Some? && resource.activeLease.value.actor == actor {
        resource.activeLease := None;
      }
    }

    method BufferItem(item: nat)
      modifies resource
      ensures resource.Value() == BehaviorTree.BufferItem(old(resource.Value()), item)
    {
      if item !in resource.packageOccupancy {
        resource.packageOccupancy := resource.packageOccupancy + [item];
      }
    }

    method ReleaseItem(item: nat)
      modifies resource
      ensures resource.Value() == BehaviorTree.ReleaseItem(old(resource.Value()), item)
    {
      resource.packageOccupancy := RemoveFirst(resource.packageOccupancy, item);
    }
  }

  class MissionWorld {
    const robots: map<RobotId, RobotState>
    const items: map<nat, PackageState>
    const transfer: ResourceState
    const resourceManager: ResourceManager

    /** Every record is filed under its own id. */
    ghost predicate Valid() {
      && (forall r :: r in robots ==> robots[r].robotId == r)
      && (forall x :: x in items ==> items[x].itemId == x)
      && resourceManager.resource == transfer
    }

    constructor (robots: map<RobotId, RobotState>, items: map<nat, PackageState>, transfer: ResourceState)
      requires forall r :: r in robots ==> robots[r].robotId == r
      requires forall x :: x in items ==> items[x].itemId == x
      ensures this.robots == robots && this.items == items && this.transfer == transfer && Valid()
    {
      this.robots, this.items, this.transfer := robots, items, transfer;
      resourceManager := new ResourceManager(transfer);
    }

    ghost function Robots(): map<RobotId, Robot>
      reads robots.Values
    {
      map r | r in robots :: robots[r].Value()
    }

    ghost function Items(): map<nat, Package>
      reads items.Values
    {
      map x | x in items :: items[x].Value()
    }

    predicate IsRobotAvailable(robot: RobotId)
      reads robots.Values
    {
      robot in robots && robots[robot].status == IDLE && !robots[robot].paused
    }

    predicate IsItemAt(item: nat, location: Waypoint)
      reads items.Values
    {
      item in items && items[item].location == location && items[item].carriedBy == None
    }

    method AssignRobot(robot: RobotId, task: TaskId)
      requires robot in robots
      modifies robots[robot]
      ensures robots[robot].Value() == old(robots[robot].Value()).(status := BUSY, activeTask := Some(task))
    {
      robots[robot].status := BUSY;
      robots[robot].activeTaskId := Some(task);
    }

    method ReleaseRobot(robot: RobotId)
      requires robot in robots
      modifies robots[robot]
      ensures robots[robot].Value() == old(robots[robot].Value()).(status := IDLE, activeTask := None)
    {
      robots[robot].status := IDLE;
      robots[robot].activeTaskId := None;
    }

    method MarkRobotWaiting(robot: RobotId, task: TaskId)
      requires robot in robots
      modifies robots[robot]
      ensures robots[robot].Value() == old(robots[robot].Value()).(status := WAITING, activeTask := Some(task))
    {
      robots[robot].status := WAITING;
      robots[robot].activeTaskId := Some(task);
    }

    method MoveRobot(robot: RobotId, location: Waypoint)
      requires robot in robots
      modifies robots[robot]
      ensures robots[robot].Value() == old(robots[robot].Value()).(location := location)
    {
      robots[robot].location := location;
    }

    method LoadItem(robot: RobotId, item: nat)
      requires robot in robots && item in items
      modifies items[item]
      ensures items[item].Value() == Package(robots[robot].location, Some(robot))
    {
      items[item].carriedBy := Some(robot);
      items[item].location := robots[robot].location;
    }

    method UnloadItem(robot: RobotId, item: nat, location: Waypoint)
      requires item in items
      modifies items[item]
      ensures var was := old(items[item].Value());
              items[item].Value() == Package(location, if was.carriedBy == Some(robot) then None else was.carriedBy)
    {
      if items[item].carriedBy == Some(robot) {
        items[item].carriedBy := None;
      }
      items[item].location := location;
    }
  }
}
