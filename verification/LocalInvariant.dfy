/** What a task, its robot, its package and the transfer resource agree on at every
    index of the behavior tree, and what a change to one task may do to the others. */
module LocalInvariant {
  import opened Domain
  import opened BehaviorTree

  const UP := SourceToTransfer
  const DOWN := TransferToDestination

  /** Indices at which a task holds the transfer lease. */
  predicate Holds(t: Task) {
    if t.id.leg == UP then 9 <= t.index <= 14 else 2 <= t.index <= 7
  }

  /** Indices at which its robot counts as inside the transfer zone. */
  predicate Inside(t: Task) {
    if t.id.leg == UP then 11 <= t.index <= 14 else 4 <= t.index <= 7
  }

  predicate Owns(t: Task) {
    1 <= t.index <= 15
  }

  /** Indices at which a tick can come to rest. */
  predicate Rests(t: Task) {
    if t.id.leg == UP then t.index in {0, 2, 4, 8, 9, 11, 13, 17} else t.index in {0, 1, 2, 4, 6, 9, 11, 17}
  }

  predicate Idle(leg: Leg, w: Waypoint) {
    if leg == UP then w == Robot1Home || w == UpstreamExit else w == Robot2Home || w == Destination
  }

  predicate Located(t: Task, w: Waypoint) {
    var i := t.index;
    if t.id.leg == UP then
      if i <= 1 then w == Robot1Home || w == UpstreamExit
      else if i <= 2 then w == Robot1Home || w == UpstreamExit || w == Source
      else if i <= 7 then w == Source
      else if i <= 8 then w == Source || w == UpstreamExit
      else if i <= 9 then w == Source || w == UpstreamExit || w == Transfer
      else if i <= 12 then w == Transfer
      else if i <= 13 then w == Transfer || w == UpstreamExit
      else w == UpstreamExit
    else
      if i <= 1 then w == Robot2Home || w == Destination || w == DownstreamExit
      else if i <= 2 then w == Robot2Home || w == Destination || w == DownstreamExit || w == Transfer
      else if i <= 5 then w == Transfer
      else if i <= 6 then w == Transfer || w == DownstreamExit
      else if i <= 8 then w == DownstreamExit
      else if i <= 9 then w == DownstreamExit || w == Destination
      else w == Destination
  }

  /** The commands a task can have outstanding at its index. */
  predicate Expects(t: Task, kind: CommandKind) {
    var i := t.index;
    match kind
    case MoveRobot(w) =>
      if t.id.leg == UP then
        (i == 2 && w == Source) || ((i == 8 || i == 9 || i == 13) && w == UpstreamExit) || (i == 9 && w == Transfer)
      else
        ((i == 1 || i == 2 || i == 6) && w == DownstreamExit) || (i == 2 && w == Transfer) ||
        (i == 9 && w == Destination)
    case HandleItem(x, handling) =>
      x == t.id.item && ((i == 4 && handling == Load) || (i == 11 && handling == Unload))
  }

  /** An outstanding command has not had its effect yet. */
  predicate Unserved(t: Task, kind: CommandKind, r: Robot, it: Package) {
    match kind
    case MoveRobot(w) => r.location != w && (t.index == 2 || t.index == 9 ==> r.location != Transfer)
    case HandleItem(_, Load) => it == Package(t.At(Pickup), None)
    case HandleItem(_, Unload) => it.carriedBy == Some(t.Robot())
  }

  predicate CommandOk(t: Task, r: Robot, it: Package, ex: Exec) {
    t.active.Some? ==>
      var k := t.active.value;
      && ex.IsOpen(k)
      && ex.commands[k].task == t.id
      && ex.commands[k].robot == t.Robot()
      && Expects(t, ex.commands[k].kind)
      && Unserved(t, ex.commands[k].kind, r, it)
  }

  predicate Leased(tr: Resource, id: TaskId) {
    tr.lease.Some? && tr.lease.value.task == id
  }

  predicate TaskOk(t: Task, r: Robot, it: Package, tr: Resource, ex: Exec) {
    && t.index <= TREE_SIZE
    && (t.status == TaskStatus.SUCCEEDED <==> t.index == TREE_SIZE)
    && (t.status == TaskStatus.PENDING ==> t.index == 0)
    && (t.index == 0 ==> t.active == None && t.retries == map[])
    && (r.activeTask == Some(t.id) <==> Owns(t))
    && t.pickupAcquired == (t.id.leg == DOWN && Holds(t))
    && t.dropoffAcquired == (t.id.leg == UP && Holds(t))
    && (Leased(tr, t.id) <==> Holds(t))
    && (Holds(t) ==> tr.robotOccupancy == if Inside(t) then [t.Robot()] else [])
    && (Holds(t) && t.id.leg == UP && t.index <= 12 ==> tr.packageOccupancy == [])
    && (Owns(t) ==> Located(t, r.location))
    && CommandOk(t, r, it, ex)
  }

  predicate RobotOk(leg: Leg, r: Robot) {
    && (r.status == IDLE <==> r.activeTask == None)
    && (r.activeTask.Some? ==> r.activeTask.value.leg == leg)
    && (r.activeTask == None ==> Idle(leg, r.location))
  }

  predicate ResourceOk(tr: Resource) {
    && tr.config == TRANSFER_CONFIG
    && |tr.packageOccupancy| <= 1
    && (tr.lease == None ==> tr.robotOccupancy == [])
    && (tr.lease.Some? ==>
          var l := tr.lease.value;
          && l.actor == RobotOf(l.task.leg)
          && l.purpose == (if l.task.leg == UP then Dropoff else Pickup)
          && l.item == Some(l.task.item))
  }

  /** The lease of a robot belongs to the task that owns the robot. */
  predicate LeaseOwned(leg: Leg, r: Robot, tr: Resource) {
    tr.lease.Some? && tr.lease.value.actor == RobotOf(leg) ==> r.activeTask == Some(tr.lease.value.task)
  }

  // ----- Packages -----

  datatype Stage = AtSource | CarriedUpstream | AtTransfer | CarriedDownstream | AtDestination

  function StageRank(g: Stage): nat {
    match g
    case AtSource => 0
    case CarriedUpstream => 1
    case AtTransfer => 2
    case CarriedDownstream => 3
    case AtDestination => 4
  }

  function StageView(g: Stage): Package {
    match g
    case AtSource => Package(Source, None)
    case CarriedUpstream => Package(Source, Some(Tb3_1))
    case AtTransfer => Package(Transfer, None)
    case CarriedDownstream => Package(Transfer, Some(Tb3_2))
    case AtDestination => Package(Destination, None)
  }

  /** The stages a package can be in, given the indices of its two tasks. */
  predicate StageOk(u: nat, d: nat, it: Package) {
    if u <= 3 then it == StageView(AtSource)
    else if u <= 4 then it == StageView(AtSource) || it == StageView(CarriedUpstream)
    else if u <= 10 then it == StageView(CarriedUpstream)
    else if u <= 11 then it == StageView(CarriedUpstream) || it == StageView(AtTransfer)
    else if d <= 3 then it == StageView(AtTransfer)
    else if d <= 4 then it == StageView(AtTransfer) || it == StageView(CarriedDownstream)
    else if d <= 10 then it == StageView(CarriedDownstream)
    else if d <= 11 then it == StageView(CarriedDownstream) || it == StageView(AtDestination)
    else it == StageView(AtDestination)
  }

  predicate PackageOk(u: Task, d: Task, it: Package, tr: Resource) {
    && (d.index >= 2 ==> u.index == TREE_SIZE)
    && StageOk(u.index, d.index, it)
    && (u.id.item in tr.packageOccupancy <==> u.index >= 13 && d.index <= 5)
  }

  // ----- One task in its surroundings -----

  /** The other leg of the same package, seen by a task that moves. */
  predicate SiblingOk(t: Task, sib: Task, it: Package, tr: Resource) {
    && sib.id.item == t.id.item
    && sib.id.leg != t.id.leg
    && Rests(sib)
    && (Leased(tr, sib.id) <==> Holds(sib))
    && (if t.id.leg == UP then PackageOk(t, sib, it, tr) else PackageOk(sib, t, it, tr))
  }

  predicate CtxOk(c: Ctx, sib: Task) {
    && TaskOk(c.task, c.robot, c.item, c.transfer, c.exec)
    && RobotOk(c.task.id.leg, c.robot)
    && ResourceOk(c.transfer)
    && LeaseOwned(c.task.id.leg, c.robot, c.transfer)
    && SiblingOk(c.task, sib, c.item, c.transfer)
  }

  /** What a change of task `id` guarantees to every other task. */
  predicate RobotRel(id: TaskId, r: Robot, r': Robot) {
    && r'.paused == r.paused
    && (r'.activeTask == r.activeTask ||
        ((r.activeTask == None || r.activeTask == Some(id)) && (r'.activeTask == None || r'.activeTask == Some(id))))
  }

  predicate TransferRel(id: TaskId, tr: Resource, tr': Resource) {
    && (tr.lease.Some? && tr.lease.value.task != id ==> tr' == tr)
    && (tr'.lease == tr.lease || ((tr.lease == None || Leased(tr, id)) && (tr'.lease == None || Leased(tr', id))))
    && (|| tr'.packageOccupancy == tr.packageOccupancy
        || (tr.packageOccupancy == [] && tr'.packageOccupancy == [id.item])
        || (tr.packageOccupancy == [id.item] && tr'.packageOccupancy == []))
  }

  /** A tick changes nothing of a package and moves no robot; it adds at most the
      one command it returns, which becomes the task's active command. */
  predicate TickRel(c: Ctx, r: Ticked) {
    var c' := r.ctx;
    && c'.task.id == c.task.id
    && c'.item == c.item
    && c'.robot.location == c.robot.location
    && c'.task.index >= c.task.index
    && c'.task.retries == c.task.retries
    && RobotRel(c.task.id, c.robot, c'.robot)
    && TransferRel(c.task.id, c.transfer, c'.transfer)
    && (if r.emitted == [] then
          c'.exec == c.exec && c'.task.active == c.task.active
        else
          && r.emitted == [c.exec.next]
          && c.task.active == None
          && c'.task.active == Some(c.exec.next)
          && c.exec.next in c'.exec.commands
          && c'.exec == c.exec.Add(c'.exec.commands[c.exec.next].kind, c.task.id, c.task.Robot()))
  }
}
