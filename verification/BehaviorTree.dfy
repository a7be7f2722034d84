/** One tick of a transport task's behavior tree, as a function of the records it
    touches: the task, its robot, its package, the transfer resource and the
    execution manager. */
module BehaviorTree {
  import opened Domain

  datatype MoveTarget = AtEndpoint(endpoint: Endpoint) | AtWaypoint(waypoint: Waypoint)

  datatype Node =
    | ClaimRobot
    | RequestResourceAccess(endpoint: Endpoint)
    | MoveTo(target: MoveTarget, phase: Phase)
    | MarkResourceOccupied(endpoint: Endpoint)
    | HandlePackage(handling: Handling, phase: Phase)
    | UpdateResourceAfterHandling(endpoint: Endpoint, handling: Handling)
    | VacateResourceIfManaged(endpoint: Endpoint)
    | ReleaseResourceIfManaged(endpoint: Endpoint)
    | ReleaseRobot
    | MarkTaskSucceeded

  const TREE_SIZE: nat := 17

  /** The children of the sequence, in order; the last one is at `TREE_SIZE - 1`. */
  function Child(i: nat): Node {
    match i
    case 0 => ClaimRobot
    case 1 => RequestResourceAccess(Pickup)
    case 2 => MoveTo(AtEndpoint(Pickup), MOVE_TO_PICKUP)
    case 3 => MarkResourceOccupied(Pickup)
    case 4 => HandlePackage(Load, LOAD_ITEM)
    case 5 => UpdateResourceAfterHandling(Pickup, Load)
    case 6 => VacateResourceIfManaged(Pickup)
    case 7 => ReleaseResourceIfManaged(Pickup)
    case 8 => RequestResourceAccess(Dropoff)
    case 9 => MoveTo(AtEndpoint(Dropoff), MOVE_TO_DROPOFF)
    case 10 => MarkResourceOccupied(Dropoff)
    case 11 => HandlePackage(Unload, UNLOAD_ITEM)
    case 12 => UpdateResourceAfterHandling(Dropoff, Unload)
    case 13 => VacateResourceIfManaged(Dropoff)
    case 14 => ReleaseResourceIfManaged(Dropoff)
    case 15 => ReleaseRobot
    case _ => MarkTaskSucceeded
  }

  /** What a tick may read and write. */
  datatype Ctx = Ctx(task: Task, robot: Robot, item: Package, transfer: Resource, exec: Exec)

  datatype Ticked = Ticked(ctx: Ctx, success: bool, emitted: seq<nat>)

  function Done(c: Ctx): Ticked {
    Ticked(c, true, [])
  }

  function Still(c: Ctx): Ticked {
    Ticked(c, false, [])
  }

  // ----- Transfer access rules -----

  datatype AccessStatus = GRANTED | WAIT | BLOCKED

  datatype Decision = Decision(
    status: AccessStatus,
    waitWaypoint: Option<Waypoint>,
    reason: Option<Reason>,
    blockedBy: Option<Blocker>)

  function WaitWaypoint(r: Resource, actor: RobotId): Option<Waypoint> {
    if actor in r.config.waitWaypoints then Some(r.config.waitWaypoints[actor]) else r.config.waitWaypoint
  }

  function Denied(r: Resource, actor: RobotId, reason: Reason, blockedBy: Option<Blocker>): Decision {
    var w := WaitWaypoint(r, actor);
    Decision(if w.Some? then WAIT else AccessStatus.BLOCKED, w, Some(reason), blockedBy)
  }

  /** The decision alone; `Granted` leases the zone when the decision calls for it. */
  function Decide(r: Resource, actor: RobotId, purpose: Endpoint, item: Option<nat>): Decision {
    var yes := Decision(GRANTED, None, None, None);
    if r.lease.Some? && r.lease.value.actor != actor then
      Denied(r, actor, WaitingForTransferLease, Some(ByRobot(r.lease.value.actor)))
    else if actor in r.robotOccupancy then
      yes
    else if r.RobotSlots() <= 0 then
      Denied(r, actor, TransferRobotOccupied,
             if r.robotOccupancy != [] then Some(ByRobot(r.robotOccupancy[0])) else None)
    else if purpose == Dropoff then
      if item == None then
        Decision(AccessStatus.BLOCKED, None, Some(MissingItem), None)
      else if r.PackageSlots() <= 0 then
        Denied(r, actor, TransferPackageFull,
               if r.packageOccupancy != [] then Some(ByItem(r.packageOccupancy[0])) else None)
      else
        yes
    else if item == None || item.value !in r.packageOccupancy then
      Denied(r, actor, PackageNotAvailable, if item.Some? then Some(ByItem(item.value)) else None)
    else
      yes
  }

  function Granted(r: Resource, actor: RobotId, purpose: Endpoint, task: TaskId, item: Option<nat>): Resource {
    if Decide(r, actor, purpose, item).status == GRANTED && actor !in r.robotOccupancy && r.lease == None
    then r.(lease := Some(Lease(task, actor, purpose, item)))
    else r
  }

  function Occupy(r: Resource, actor: RobotId): Resource {
    if actor in r.robotOccupancy then r else r.(robotOccupancy := r.robotOccupancy + [actor])
  }

  function Release(r: Resource, actor: RobotId): Resource {
    r.(robotOccupancy := RemoveFirst(r.robotOccupancy, actor),
       lease := if r.lease.Some? && r.lease.value.actor == actor then None else r.lease)
  }

  function BufferItem(r: Resource, item: nat): Resource {
    if item in r.packageOccupancy then r else r.(packageOccupancy := r.packageOccupancy + [item])
  }

  function ReleaseItem(r: Resource, item: nat): Resource {
    r.(packageOccupancy := RemoveFirst(r.packageOccupancy, item))
  }

  // ----- Nodes -----

  function TickClaim(c: Ctx): Ticked {
    if c.robot.activeTask == Some(c.task.id) then
      Done(c)
    else if c.robot.status != IDLE then
      Still(c)
    else
      Done(c.(robot := c.robot.(status := BUSY, activeTask := Some(c.task.id)),
              task := c.task.(status := TaskStatus.RUNNING)))
  }

  function TickMove(c: Ctx, target: Waypoint, phase: Phase): Ticked {
    var c1 := c.(task := c.task.(phase := phase));
    if c.robot.location == target then
      Done(c1)
    else if c.task.active.Some? then
      Still(c1)
    else
      Ticked(
        c1.(task := c1.task.(status := TaskStatus.RUNNING, active := Some(c.exec.next)),
            exec := c.exec.Add(MoveRobot(target), c.task.id, c.task.Robot())),
        false,
        [c.exec.next])
  }

  function MarkWaiting(c: Ctx): Ctx {
    c.(robot := c.robot.(status := WAITING, activeTask := Some(c.task.id)))
  }

  function WithDetails(c: Ctx, w: Waypoint, d: Decision): Ctx {
    c.(task := c.task.(waitingResource := Some(w), blockedReason := d.reason, blockedBy := d.blockedBy,
                       waitingAt := d.waitWaypoint))
  }

  /** Denied with a wait waypoint: go there, or stay there blocked. */
  function TickWait(c: Ctx, w: Waypoint, d: Decision): Ticked {
    var c1 := WithDetails(c, w, d);
    if d.waitWaypoint == None then
      Still(MarkWaiting(c1.(task := c1.task.(status := TaskStatus.BLOCKED))))
    else if c.robot.location != d.waitWaypoint.value then
      TickMove(c1.(task := c1.task.(status := TaskStatus.RUNNING)), d.waitWaypoint.value, MOVE_TO_WAIT_POINT)
    else
      Still(MarkWaiting(c1.(task := c1.task.(phase := WAIT_FOR_RESOURCE, status := TaskStatus.BLOCKED))))
  }

  function TickRequest(c: Ctx, endpoint: Endpoint): Ticked {
    var w := c.task.At(endpoint);
    if w != c.transfer.config.resourceId || c.task.Acquired(endpoint) then
      Done(c)
    else
      var actor, item := c.task.Robot(), Some(c.task.id.item);
      var d := Decide(c.transfer, actor, endpoint, item);
      var c1 := c.(task := c.task.(phase := if endpoint == Pickup then ACQUIRE_PICKUP else ACQUIRE_DROPOFF),
                   transfer := Granted(c.transfer, actor, endpoint, c.task.id, item));
      match d.status
      case WAIT => TickWait(c1, w, d)
      case BLOCKED =>
        Still(MarkWaiting(WithDetails(c1.(task := c1.task.(status := TaskStatus.BLOCKED)), w, d)))
      case GRANTED =>
        Done(c1.(robot := c.robot.(status := BUSY, activeTask := Some(c.task.id)),
                 task := c1.task.SetAcquired(endpoint, true).(
                   waitingResource := None, blockedReason := None, blockedBy := None, waitingAt := None,
                   status := TaskStatus.RUNNING)))
  }

  function TickHandle(c: Ctx, handling: Handling, phase: Phase): Ticked {
    if handling == Load && c.item.carriedBy == Some(c.task.Robot()) then
      Done(c)
    else if handling == Unload && c.item == Package(c.task.At(Dropoff), None) then
      Done(c)
    else if c.task.active.Some? then
      Still(c)
    else
      Ticked(
        c.(task := c.task.(phase := phase, status := TaskStatus.RUNNING, active := Some(c.exec.next)),
           exec := c.exec.Add(HandleItem(c.task.id.item, handling), c.task.id, c.task.Robot())),
        false,
        [c.exec.next])
  }

  /** Whether a resource node acts at all: the endpoint is managed and was acquired. */
  predicate Acts(c: Ctx, endpoint: Endpoint) {
    c.task.At(endpoint) == c.transfer.config.resourceId && c.task.Acquired(endpoint)
  }

  function TickOccupy(c: Ctx, endpoint: Endpoint): Ticked {
    if Acts(c, endpoint) then Done(c.(transfer := Occupy(c.transfer, c.task.Robot()))) else Done(c)
  }

  function TickUpdate(c: Ctx, endpoint: Endpoint, handling: Handling): Ticked {
    if !Acts(c, endpoint) then
      Done(c)
    else if handling == Load then
      Done(c.(transfer := ReleaseItem(c.transfer, c.task.id.item)))
    else
      Done(c.(transfer := BufferItem(c.transfer, c.task.id.item)))
  }

  function TickVacate(c: Ctx, endpoint: Endpoint): Ticked {
    if c.task.At(endpoint) != c.transfer.config.resourceId then
      Done(c)
    else
      match TransferSideWaypoint(c.task.Robot())
      case None => Done(c)
      case Some(w) => TickMove(c, w, MOVE_TO_TRANSFER_EXIT)
  }

  function TickRelease(c: Ctx, endpoint: Endpoint): Ticked {
    if Acts(c, endpoint) then
      Done(c.(transfer := Release(c.transfer, c.task.Robot()), task := c.task.SetAcquired(endpoint, false)))
    else
      Done(c)
  }

  function TickNode(node: Node, c: Ctx): (r: Ticked)
    ensures r.ctx.task.id == c.task.id && r.ctx.task.index == c.task.index
  {
    match node
    case ClaimRobot => TickClaim(c)
    case RequestResourceAccess(endpoint) => TickRequest(c, endpoint)
    case MoveTo(AtEndpoint(endpoint), phase) => TickMove(c, c.task.At(endpoint), phase)
    case MoveTo(AtWaypoint(w), phase) => TickMove(c, w, phase)
    case MarkResourceOccupied(endpoint) => TickOccupy(c, endpoint)
    case HandlePackage(handling, phase) => TickHandle(c, handling, phase)
    case UpdateResourceAfterHandling(endpoint, handling) => TickUpdate(c, endpoint, handling)
    case VacateResourceIfManaged(endpoint) => TickVacate(c, endpoint)
    case ReleaseResourceIfManaged(endpoint) => TickRelease(c, endpoint)
    case ReleaseRobot => Done(c.(robot := c.robot.(status := IDLE, activeTask := None)))
    case MarkTaskSucceeded => Done(c.(task := c.task.(phase := DONE, status := TaskStatus.SUCCEEDED)))
  }

  function Next(c: Ctx): Ctx {
    c.(task := c.task.(index := c.task.index + 1))
  }

  /** The resumable sequence: run children from the saved index until one is not done. */
  function TickTree(c: Ctx): (r: Ticked)
    ensures r.ctx.task.id == c.task.id
    decreases TREE_SIZE - c.task.index
  {
    if c.task.index >= TREE_SIZE then
      Done(c)
    else
      var r := TickNode(Child(c.task.index), c);
      if r.success then TickTree(Next(r.ctx)) else r
  }
}
