/** The records of one mission run: tasks, robots, packages, the transfer
    resource and the execution commands, each as an immutable value. */
module Domain {

  datatype Option<+T> = None | Some(value: T)

  /** The two legs every package travels; the task id of a leg is "P<item>:<leg>". */
  datatype Leg = SourceToTransfer | TransferToDestination

  datatype TaskId = TaskId(item: nat, leg: Leg)

  datatype RobotId = Tb3_1 | Tb3_2 | OtherRobot(name: string)

  datatype Waypoint =
    | Source
    | Transfer
    | UpstreamExit
    | DownstreamExit
    | Destination
    | Robot1Home
    | Robot2Home

  datatype Endpoint = Pickup | Dropoff

  datatype Handling = Load | Unload

  function RobotOf(leg: Leg): RobotId {
    match leg
    case SourceToTransfer => Tb3_1
    case TransferToDestination => Tb3_2
  }

  function EndpointOf(leg: Leg, endpoint: Endpoint): Waypoint {
    match (leg, endpoint)
    case (SourceToTransfer, Pickup) => Source
    case (SourceToTransfer, Dropoff) => Transfer
    case (TransferToDestination, Pickup) => Transfer
    case (TransferToDestination, Dropoff) => Destination
  }

  /** The side of the transfer zone a robot leaves on, if it has one. */
  function TransferSideWaypoint(robot: RobotId): Option<Waypoint> {
    match robot
    case Tb3_1 => Some(UpstreamExit)
    case Tb3_2 => Some(DownstreamExit)
    case OtherRobot(_) => None
  }

  datatype MissionStatus = READY | RUNNING | PAUSED | COMPLETED | ABORTED | FAILED

  datatype TaskStatus = PENDING | RUNNING | BLOCKED | SUCCEEDED | FAILED | CANCELLED

  datatype Phase =
    | NOT_STARTED
    | ACQUIRE_PICKUP
    | MOVE_TO_PICKUP
    | LOAD_ITEM
    | ACQUIRE_DROPOFF
    | MOVE_TO_WAIT_POINT
    | MOVE_TO_TRANSFER_EXIT
    | WAIT_FOR_RESOURCE
    | MOVE_TO_DROPOFF
    | UNLOAD_ITEM
    | DONE

  /** Failure errors, cancellation reasons and block reasons share one vocabulary,
      because the code stores all three in the same task field. */
  datatype Reason =
    | ArrivalNotVerified
    | OperatorPause
    | OperatorRobotPause
    | OperatorAbort
    | WaitingForTransferLease
    | TransferRobotOccupied
    | TransferPackageFull
    | PackageNotAvailable
    | MissingItem
    | OtherReason(text: string)

  datatype Blocker = ByRobot(robot: RobotId) | ByItem(item: nat)

  /** One transport task. The last four fields are its behavior-tree blackboard:
      the saved child index, the two access keys and the retry counters. */
  datatype Task = Task(
    id: TaskId,
    status: TaskStatus,
    phase: Phase,
    active: Option<nat>,
    waitingResource: Option<Waypoint>,
    blockedReason: Option<Reason>,
    blockedBy: Option<Blocker>,
    waitingAt: Option<Waypoint>,
    index: nat,
    pickupAcquired: bool,
    dropoffAcquired: bool,
    retries: map<Waypoint, nat>)
  {
    function Robot(): RobotId {
      RobotOf(id.leg)
    }

    function At(endpoint: Endpoint): Waypoint {
      EndpointOf(id.leg, endpoint)
    }

    function Acquired(endpoint: Endpoint): bool {
      if endpoint == Pickup then pickupAcquired else dropoffAcquired
    }

    function SetAcquired(endpoint: Endpoint, value: bool): Task {
      if endpoint == Pickup then this.(pickupAcquired := value) else this.(dropoffAcquired := value)
    }

    function Retries(target: Waypoint): nat {
      if target in retries then retries[target] else 0
    }
  }

  function NewTask(id: TaskId): Task {
    Task(id, TaskStatus.PENDING, NOT_STARTED, None, None, None, None, None, 0, false, false, map[])
  }

  datatype RobotStatus = IDLE | BUSY | WAITING

  datatype Robot = Robot(
    location: Waypoint,
    status: RobotStatus,
    activeTask: Option<TaskId>,
    paused: bool)

  datatype Package = Package(location: Waypoint, carriedBy: Option<RobotId>)

  datatype Lease = Lease(task: TaskId, actor: RobotId, purpose: Endpoint, item: Option<nat>)

  datatype ResourceConfig = ResourceConfig(
    resourceId: Waypoint,
    robotCapacity: int,
    packageCapacity: int,
    waitWaypoint: Option<Waypoint>,
    waitWaypoints: map<RobotId, Waypoint>)

  /** A constrained shared zone: who may use it, who is inside, what is buffered. */
  datatype Resource = Resource(
    config: ResourceConfig,
    robotOccupancy: seq<RobotId>,
    packageOccupancy: seq<nat>,
    lease: Option<Lease>)
  {
    function RobotSlots(): int {
      config.robotCapacity - |robotOccupancy|
    }

    function PackageSlots(): int {
      config.packageCapacity - |packageOccupancy|
    }
  }

  const TRANSFER_CONFIG: ResourceConfig :=
    ResourceConfig(Transfer, 1, 1, None, map[Tb3_1 := UpstreamExit, Tb3_2 := DownstreamExit])

  datatype CommandKind = MoveRobot(target: Waypoint) | HandleItem(item: nat, handling: Handling)

  datatype CommandStatus = PENDING | SUBMITTED | RUNNING | SUCCEEDED | FAILED | CANCELLED

  datatype Command = Command(
    id: nat,
    kind: CommandKind,
    task: TaskId,
    robot: RobotId,
    status: CommandStatus,
    error: Option<Reason>)
  {
    predicate IsTerminal() {
      status == CommandStatus.SUCCEEDED || status == CommandStatus.FAILED || status == CommandStatus.CANCELLED
    }
  }

  /** The execution manager: every command ever created, and the next id. */
  datatype Exec = Exec(commands: map<nat, Command>, next: nat)
  {
    predicate IsOpen(k: nat) {
      k in commands && !commands[k].IsTerminal()
    }

    function Add(kind: CommandKind, task: TaskId, robot: RobotId): Exec {
      Exec(commands[next := Command(next, kind, task, robot, CommandStatus.PENDING, None)], next + 1)
    }

    function Mark(k: nat, status: CommandStatus, error: Option<Reason>): Exec
      requires k in commands
    {
      this.(commands := commands[k := commands[k].(status := status, error := error)])
    }

    function SetStatus(k: nat, status: CommandStatus): Exec
      requires k in commands
    {
      this.(commands := commands[k := commands[k].(status := status)])
    }
  }

  function RemoveFirst<T(==)>(s: seq<T>, x: T): seq<T> {
    if s == [] then [] else if s[0] == x then s[1..] else [s[0]] + RemoveFirst(s[1..], x)
  }
}
