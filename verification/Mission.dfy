/** One mission run as a state machine: the scheduler and every event handler, as
    functions from a state to the next state and the ids of the commands emitted. */
module Mission {
  import opened Domain
  import opened BehaviorTree
  import opened TaskOrder

  datatype State = State(
    n: nat,
    maxRetries: int,
    status: MissionStatus,
    tasks: map<TaskId, Task>,
    robots: map<RobotId, Robot>,
    items: map<nat, Package>,
    transfer: Resource,
    exec: Exec)

  datatype Outcome = Outcome(state: State, emitted: seq<nat>)

  datatype Event =
    | StartRequested
    | Completed(command: nat)
    | Failed(command: nat, error: Reason)
    | Cancelled(command: nat, reason: Reason)
    | PauseRequested
    | ResumeRequested
    | RobotPauseRequested(robot: RobotId)
    | RobotResumeRequested(robot: RobotId)
    | AbortRequested
    | Unrecognised

  predicate InMission(n: nat, id: TaskId) {
    1 <= id.item <= n
  }

  /** The dictionaries refer to each other: every lookup the handlers make is defined. */
  ghost predicate Wf(s: State) {
    && (forall id: TaskId :: id in s.tasks <==> InMission(s.n, id))
    && (forall id :: id in s.tasks ==> s.tasks[id].id == id)
    && (forall x: nat :: x in s.items <==> 1 <= x <= s.n)
    && (forall r: RobotId :: r in s.robots <==> r == Tb3_1 || r == Tb3_2)
    && ExecWf(s.n, s.exec)
  }

  ghost predicate ExecWf(n: nat, ex: Exec) {
    forall k: nat :: k in ex.commands ==>
      && k < ex.next
      && ex.commands[k].id == k
      && InMission(n, ex.commands[k].task)
      && ex.commands[k].robot == RobotOf(ex.commands[k].task.leg)
      && HandlesOwn(ex.commands[k].kind, ex.commands[k].task)
  }

  /** A task's handling commands are for its own package. */
  predicate HandlesOwn(kind: CommandKind, id: TaskId) {
    kind.HandleItem? ==> kind.item == id.item
  }

  lemma MarkWf(n: nat, ex: Exec, k: nat, status: CommandStatus, error: Option<Reason>)
    requires ExecWf(n, ex) && k in ex.commands
    ensures ExecWf(n, ex.Mark(k, status, error))
  {
  }

  lemma SetStatusWf(n: nat, ex: Exec, k: nat, status: CommandStatus)
    requires ExecWf(n, ex) && k in ex.commands
    ensures ExecWf(n, ex.SetStatus(k, status))
  {
  }

  lemma AddWf(n: nat, ex: Exec, kind: CommandKind, id: TaskId, robot: RobotId)
    requires ExecWf(n, ex) && InMission(n, id) && robot == RobotOf(id.leg) && HandlesOwn(kind, id)
    ensures ExecWf(n, ex.Add(kind, id, robot))
  {
  }

  /** The records a tick of task `id` works on, and the state with them put back. */
  function View(s: State, id: TaskId): Ctx
    requires Wf(s) && id in s.tasks
  {
    Ctx(s.tasks[id], s.robots[RobotOf(id.leg)], s.items[id.item], s.transfer, s.exec)
  }

  function Put(s: State, c: Ctx): State {
    var id := c.task.id;
    s.(tasks := s.tasks[id := c.task],
       robots := s.robots[RobotOf(id.leg) := c.robot],
       items := s.items[id.item := c.item],
       transfer := c.transfer,
       exec := c.exec)
  }

  // ----- Scheduler -----

  predicate RobotAvailable(s: State, robot: RobotId) {
    robot in s.robots && s.robots[robot].status == IDLE && !s.robots[robot].paused
  }

  predicate ItemAt(s: State, item: nat, w: Waypoint) {
    item in s.items && s.items[item] == Package(w, None)
  }

  /** A robot may be sent ahead of a package that is still being carried to a zone
      the robot has a waiting place for. */
  predicate CanWaitForPickup(s: State, t: Task) {
    && t.At(Pickup) == s.transfer.config.resourceId
    && (s.transfer.config.waitWaypoint.Some? || t.Robot() in s.transfer.config.waitWaypoints)
    && t.id.item in s.items
    && s.items[t.id.item].carriedBy.Some?
  }

  predicate ManagedPickupAvailable(s: State, t: Task) {
    t.At(Pickup) == s.transfer.config.resourceId ==>
      && s.transfer.lease == None
      && s.transfer.RobotSlots() > 0
      && t.id.item in s.transfer.packageOccupancy
  }

  predicate Ready(s: State, id: TaskId)
    requires id in s.tasks
  {
    var t := s.tasks[id];
    && t.status == TaskStatus.PENDING
    && RobotAvailable(s, t.Robot())
    && (if ItemAt(s, t.id.item, t.At(Pickup)) then ManagedPickupAvailable(s, t) else CanWaitForPickup(s, t))
  }

  function FirstReady(s: State, ids: seq<TaskId>): (r: Option<TaskId>)
    requires forall x :: x in ids ==> x in s.tasks
    ensures r.Some? ==> r.value in ids && Ready(s, r.value)
    ensures r == None ==> forall x :: x in ids ==> !Ready(s, x)
  {
    if ids == [] then None
    else if Ready(s, ids[0]) then Some(ids[0])
    else
      assert ids == [ids[0]] + ids[1..];
      FirstReady(s, ids[1..])
  }

  lemma {:induction false} FirstReadyAt(s: State, ids: seq<TaskId>, i: nat)
    requires i <= |ids| && forall x :: x in ids ==> x in s.tasks
    requires forall j :: 0 <= j < i ==> ids[j] in s.tasks && !Ready(s, ids[j])
    requires i < |ids| ==> ids[i] in s.tasks && Ready(s, ids[i])
    ensures FirstReady(s, ids) == if i < |ids| then Some(ids[i]) else None
  {
    if i > 0 {
      assert !Ready(s, ids[0]);
      FirstReadyAt(s, ids[1..], i - 1);
    }
  }

  function NextReady(s: State): (r: Option<TaskId>)
    requires Wf(s)
    ensures r.Some? ==> r.value in s.tasks && Ready(s, r.value)
  {
    ScheduleOrder(s.n);
    FirstReady(s, Schedule(s.n))
  }

  // ----- Task runner -----

  /** What a tick, of one node or of the tree, may add: the one command it emits. */
  ghost predicate AddsEmitted(c: Ctx, r: Ticked) {
    if r.emitted == [] then
      r.ctx.exec == c.exec
    else
      && r.emitted == [c.exec.next]
      && c.exec.next in r.ctx.exec.commands
      && HandlesOwn(r.ctx.exec.commands[c.exec.next].kind, c.task.id)
      && r.ctx.exec == c.exec.Add(r.ctx.exec.commands[c.exec.next].kind, c.task.id, c.task.Robot())
  }

  lemma NodeExec(node: Node, c: Ctx)
    ensures AddsEmitted(c, TickNode(node, c))
    ensures TickNode(node, c).success ==> TickNode(node, c).emitted == []
  {
  }

  /** A tick adds nothing to the execution manager but the command it emits. */
  lemma {:induction false} TickExec(c: Ctx)
    ensures AddsEmitted(c, TickTree(c))
    decreases TREE_SIZE - c.task.index
  {
    if c.task.index < TREE_SIZE {
      var r := TickNode(Child(c.task.index), c);
      NodeExec(Child(c.task.index), c);
      if r.success {
        TickExec(Next(r.ctx));
      }
    }
  }

  lemma TickWf(n: nat, c: Ctx)
    requires ExecWf(n, c.exec) && InMission(n, c.task.id)
    ensures ExecWf(n, TickTree(c).ctx.exec)
  {
    TickExec(c);
    var r := TickTree(c);
    if r.emitted != [] {
      AddWf(n, c.exec, r.ctx.exec.commands[c.exec.next].kind, c.task.id, c.task.Robot());
    }
  }

  lemma PutWf(s: State, c: Ctx)
    requires Wf(s) && c.task.id in s.tasks && ExecWf(s.n, c.exec)
    ensures Wf(Put(s, c))
  {
  }

  lemma ViewPut(s: State, c: Ctx)
    requires Wf(s) && c.task.id in s.tasks && Wf(Put(s, c))
    ensures View(Put(s, c), c.task.id) == c
  {
  }

  lemma PutTwice(s: State, c: Ctx, d: Ctx)
    requires d.task.id == c.task.id
    ensures Put(Put(s, c), d) == Put(s, d)
  {
  }

  function RunTask(s: State, id: TaskId, t: Task): (o: Outcome)
    requires Wf(s) && id in s.tasks && t.id == id
    ensures Wf(o.state) && o.state.n == s.n
  {
    var c := View(s, id).(task := t);
    var r := TickTree(c);
    TickWf(s.n, c);
    PutWf(s, r.ctx);
    Outcome(Put(s, r.ctx), r.emitted)
  }

  function AdvanceTask(s: State, id: TaskId): (o: Outcome)
    requires Wf(s) && id in s.tasks
    ensures Wf(o.state) && o.state.n == s.n
  {
    RunTask(s, id, s.tasks[id])
  }

  function StartTask(s: State, id: TaskId): (o: Outcome)
    requires Wf(s) && id in s.tasks
    ensures Wf(o.state) && o.state.n == s.n
  {
    RunTask(s, id, s.tasks[id].(status := TaskStatus.RUNNING, phase := ACQUIRE_PICKUP))
  }

  /** Start the next ready task, if any, after `emitted`. */
  function StartNext(s: State, emitted: seq<nat>): (o: Outcome)
    requires Wf(s)
    ensures Wf(o.state) && o.state.n == s.n
  {
    match NextReady(s)
    case None => Outcome(s, emitted)
    case Some(id) =>
      var o := StartTask(s, id);
      Outcome(o.state, emitted + o.emitted)
  }

  predicate Ticks(s: State, id: TaskId)
    requires Wf(s) && id in s.tasks
  {
    && (s.tasks[id].status == TaskStatus.RUNNING || s.tasks[id].status == TaskStatus.BLOCKED)
    && !s.robots[RobotOf(id.leg)].paused
  }

  /** Tick the active tasks in dictionary order until one emits a command, then fill
      the free robot. */
  function AdvanceFrom(s: State, ids: seq<TaskId>): (o: Outcome)
    requires Wf(s) && forall x :: x in ids ==> x in s.tasks
    ensures Wf(o.state) && o.state.n == s.n
    decreases |ids|
  {
    if ids == [] then
      StartNext(s, [])
    else
      assert ids == [ids[0]] + ids[1..];
      if Ticks(s, ids[0]) then
        var o := AdvanceTask(s, ids[0]);
        if o.emitted != [] then StartNext(o.state, o.emitted) else AdvanceFrom(o.state, ids[1..])
      else
        AdvanceFrom(s, ids[1..])
  }

  predicate AllSucceeded(s: State) {
    forall id :: id in s.tasks ==> s.tasks[id].status == TaskStatus.SUCCEEDED
  }

  function Advance(s: State): (o: Outcome)
    requires Wf(s)
    ensures Wf(o.state) && o.state.n == s.n
  {
    if s.status != MissionStatus.RUNNING then
      Outcome(s, [])
    else if AllSucceeded(s) then
      Outcome(s.(status := COMPLETED), [])
    else
      AdvanceFrom(s, Ids(s.n))
  }

  // ----- Event handlers -----

  function HandleStart(s: State): (o: Outcome)
    requires Wf(s)
    ensures Wf(o.state) && o.state.n == s.n
  {
    Advance(if s.status == READY then s.(status := MissionStatus.RUNNING) else s)
  }

  /** The effect of a successful command on the records; nothing unless it is the
      task's active command. */
  function Applied(c: Ctx, cmd: Command): Ctx {
    if c.task.active != Some(cmd.id) then
      c
    else
      var c1 := c.(task := c.task.(active := None));
      match cmd.kind
      case MoveRobot(w) => c1.(robot := c.robot.(location := w))
      case HandleItem(_, Load) => c1.(item := Package(c.robot.location, Some(cmd.robot)))
      case HandleItem(_, Unload) =>
        c1.(item := Package(c.task.At(Dropoff), if c.item.carriedBy == Some(cmd.robot) then None else c.item.carriedBy))
  }

  /** Tick a task; fill the free robot if it emitted a command, else advance the mission. */
  function Follow(s: State, id: TaskId): (o: Outcome)
    requires Wf(s) && id in s.tasks
    ensures Wf(o.state) && o.state.n == s.n
  {
    var p := AdvanceTask(s, id);
    if p.emitted != [] then StartNext(p.state, p.emitted) else Advance(p.state)
  }

  /** The first result of command `k` on record. */
  function Marked(s: State, k: nat, status: CommandStatus, error: Option<Reason>): (s': State)
    requires Wf(s) && k in s.exec.commands
    ensures Wf(s') && s'.n == s.n
  {
    MarkWf(s.n, s.exec, k, status, error);
    s.(exec := s.exec.Mark(k, status, error))
  }

  /** What follows once a success has been recorded. */
  function Succeeded(s: State, cmd: Command): (o: Outcome)
    requires Wf(s) && cmd.task in s.tasks && cmd.robot in s.robots
    ensures Wf(o.state) && o.state.n == s.n
  {
    var c := Applied(View(s, cmd.task), cmd);
    PutWf(s, c);
    if s.status == PAUSED || s.status == ABORTED || s.robots[cmd.robot].paused then
      var status :=
        if s.status == PAUSED || s.robots[cmd.robot].paused then TaskStatus.RUNNING else TaskStatus.CANCELLED;
      PutWf(s, c.(task := c.task.(status := status)));
      Outcome(Put(s, c.(task := c.task.(status := status))), [])
    else if s.tasks[cmd.task].active != Some(cmd.id) then
      Advance(Put(s, c))
    else
      Follow(Put(s, c), cmd.task)
  }

  function HandleCompleted(s: State, k: nat): (o: Outcome)
    requires Wf(s)
    ensures Wf(o.state) && o.state.n == s.n
  {
    if !s.exec.IsOpen(k) then
      Outcome(s, [])
    else
      var s1 := Marked(s, k, CommandStatus.SUCCEEDED, None);
      Succeeded(s1, s1.exec.commands[k])
  }

  function FailTask(s: State, c: Ctx, cmd: Command, reason: Reason): (s': State)
    requires Wf(s) && c.task.id in s.tasks && ExecWf(s.n, c.exec)
    ensures Wf(s') && s'.n == s.n
  {
    Put(s, c.(task := c.task.(status := TaskStatus.FAILED, blockedReason := Some(reason),
                              blockedBy := Some(ByRobot(cmd.robot))))).(status := MissionStatus.FAILED)
  }

  lemma FailTaskTwice(s: State, c: Ctx, cmd: Command, reason: Reason)
    requires Wf(s) && c.task.id in s.tasks && ExecWf(s.n, c.exec) && Wf(Put(s, c))
    ensures FailTask(Put(s, c), c, cmd, reason) == FailTask(s, c, cmd, reason)
  {
    PutTwice(s, c, c.(task := c.task.(status := TaskStatus.FAILED, blockedReason := Some(reason),
                                      blockedBy := Some(ByRobot(cmd.robot)))));
  }

  /** A task's slot with the command that ended taken out of it. */
  function Cleared(c: Ctx, k: nat): Ctx {
    if c.task.active == Some(k) then c.(task := c.task.(active := None)) else c
  }

  /** The same move again, counted against the task's retries for that target. */
  function Reissued(c: Ctx, cmd: Command): Ctx
    requires cmd.kind.MoveRobot?
  {
    var w := cmd.kind.target;
    c.(task := c.task.(retries := c.task.retries[w := c.task.Retries(w) + 1],
                       status := TaskStatus.RUNNING, active := Some(c.exec.next)),
       exec := c.exec.Add(cmd.kind, cmd.task, cmd.robot))
  }

  /** What follows once a failure has been recorded. */
  function FailedWith(s: State, cmd: Command, error: Reason): (o: Outcome)
    requires Wf(s) && cmd.task in s.tasks && cmd.robot == RobotOf(cmd.task.leg) && HandlesOwn(cmd.kind, cmd.task)
    ensures Wf(o.state) && o.state.n == s.n
  {
    var c := View(s, cmd.task);
    if c.task.active != Some(cmd.id) then
      Outcome(s, [])
    else
      var c1 := Cleared(c, cmd.id);
      if error == ArrivalNotVerified && cmd.kind.MoveRobot? && c1.task.Retries(cmd.kind.target) < s.maxRetries then
        AddWf(s.n, c1.exec, cmd.kind, cmd.task, cmd.robot);
        PutWf(s, Reissued(c1, cmd));
        Outcome(Put(s, Reissued(c1, cmd)), [s.exec.next])
      else
        Outcome(FailTask(s, c1, cmd, error), [])
  }

  function HandleFailed(s: State, k: nat, error: Reason): (o: Outcome)
    requires Wf(s)
    ensures Wf(o.state) && o.state.n == s.n
  {
    if !s.exec.IsOpen(k) then
      Outcome(s, [])
    else
      var s1 := Marked(s, k, CommandStatus.FAILED, Some(error));
      FailedWith(s1, s1.exec.commands[k], error)
  }

  /** What follows once a cancellation has been recorded. */
  function CancelledFor(s: State, cmd: Command, reason: Reason): (o: Outcome)
    requires Wf(s) && cmd.task in s.tasks && cmd.robot in s.robots
    ensures Wf(o.state) && o.state.n == s.n
  {
    var c := Cleared(View(s, cmd.task), cmd.id);
    if reason == OperatorPause || reason == OperatorRobotPause then
      var s1 := Put(s, c.(task := c.task.(status := TaskStatus.RUNNING)));
      PutWf(s, c.(task := c.task.(status := TaskStatus.RUNNING)));
      if reason == OperatorRobotPause && !s.robots[cmd.robot].paused then Advance(s1) else Outcome(s1, [])
    else if reason == OperatorAbort then
      PutWf(s, c.(task := c.task.(status := TaskStatus.CANCELLED)));
      Outcome(Put(s, c.(task := c.task.(status := TaskStatus.CANCELLED))), [])
    else
      Outcome(FailTask(s, c, cmd, reason), [])
  }

  /** The cancellations that do not fail the task. */
  predicate Spares(reason: Reason) {
    reason == OperatorPause || reason == OperatorRobotPause || reason == OperatorAbort
  }

  function HandleCancelled(s: State, k: nat, reason: Reason): (o: Outcome)
    requires Wf(s)
    ensures Wf(o.state) && o.state.n == s.n
  {
    if !s.exec.IsOpen(k) then
      Outcome(s, [])
    else
      var s1 := Marked(s, k, CommandStatus.CANCELLED, Some(reason));
      CancelledFor(s1, s1.exec.commands[k], reason)
  }

  function SetPaused(s: State, robot: RobotId, paused: bool): State
    requires robot in s.robots
  {
    s.(robots := s.robots[robot := s.robots[robot].(paused := paused)])
  }

  function HandleRobotResume(s: State, robot: RobotId): (o: Outcome)
    requires Wf(s)
    ensures Wf(o.state) && o.state.n == s.n
  {
    if robot !in s.robots || !s.robots[robot].paused then Outcome(s, []) else Advance(SetPaused(s, robot, false))
  }

  function Aborted(t: Task): Task {
    if t.status == TaskStatus.SUCCEEDED then t else t.(status := TaskStatus.CANCELLED)
  }

  function HandleAbort(s: State): (o: Outcome)
    requires Wf(s)
    ensures Wf(o.state) && o.state.n == s.n
  {
    if
      || s.status == READY || s.status == MissionStatus.RUNNING || s.status == PAUSED
      || s.status == MissionStatus.FAILED
    then
      Outcome(s.(status := ABORTED, tasks := map id | id in s.tasks :: Aborted(s.tasks[id])), [])
    else
      Outcome(s, [])
  }

  /** One call of the event entry point. */
  function Step(s: State, e: Event): (o: Outcome)
    requires Wf(s)
    ensures Wf(o.state) && o.state.n == s.n
  {
    match e
    case StartRequested => HandleStart(s)
    case Completed(k) => HandleCompleted(s, k)
    case Failed(k, error) => HandleFailed(s, k, error)
    case Cancelled(k, reason) => HandleCancelled(s, k, reason)
    case PauseRequested => Outcome(if s.status == MissionStatus.RUNNING then s.(status := PAUSED) else s, [])
    case ResumeRequested =>
      if s.status == PAUSED then Advance(s.(status := MissionStatus.RUNNING)) else Outcome(s, [])
    case RobotPauseRequested(robot) =>
      Outcome(if robot in s.robots then SetPaused(s, robot, true) else s, [])
    case RobotResumeRequested(robot) => HandleRobotResume(s, robot)
    case AbortRequested => HandleAbort(s)
    case Unrecognised => Outcome(s, [])
  }

  lemma CancelIsHandled(s: State, k: nat, reason: Reason)
    requires Wf(s)
    ensures Step(s, Cancelled(k, reason)) == HandleCancelled(s, k, reason)
  {
  }

  lemma FailIsHandled(s: State, k: nat, error: Reason)
    requires Wf(s)
    ensures Step(s, Failed(k, error)) == HandleFailed(s, k, error)
  {
  }

  function Packages(n: nat): (m: map<nat, Package>)
    ensures forall x: nat :: x in m <==> 1 <= x <= n
    ensures forall x :: x in m ==> m[x] == Package(Source, None)
  {
    if n == 0 then map[] else Packages(n - 1)[n := Package(Source, None)]
  }

  /** The mission as built: every package at the source, both robots at home. */
  function Initial(n: nat, maxRetries: int): (s: State)
    ensures Wf(s)
  {
    assert forall id: TaskId :: id in Ids(n) <==> InMission(n, id);
    State(
      n,
      maxRetries,
      READY,
      map id | id in Ids(n) :: NewTask(id),
      map[Tb3_1 := Robot(Robot1Home, IDLE, None, false), Tb3_2 := Robot(Robot2Home, IDLE, None, false)],
      Packages(n),
      Resource(TRANSFER_CONFIG, [], [], None),
      Exec(map[], 1))
  }

  /** A run: the state and all the commands emitted after a sequence of events. */
  function Run(s: State, events: seq<Event>): (o: Outcome)
    requires Wf(s)
    ensures Wf(o.state) && o.state.n == s.n
  {
    if events == [] then
      Outcome(s, [])
    else
      var o := Run(s, events[..|events| - 1]);
      var o' := Step(o.state, events[|events| - 1]);
      Outcome(o'.state, o.emitted + o'.emitted)
  }
}
