/** Every event handler keeps the invariant, so it holds in every reachable state. */
module StepProof {
  import opened Domain
  import opened BehaviorTree
  import opened TaskOrder
  import opened LocalInvariant
  import opened TickProof
  import opened Mission
  import opened Invariant

  // ----- The scheduler picks packages in order -----

  lemma {:induction false} FirstReadyIsLeast(s: State, ids: seq<TaskId>, x: TaskId)
    requires forall y :: y in ids ==> y in s.tasks
    requires Ordered(ids) && x in ids && Ready(s, x)
    ensures var r := FirstReady(s, ids); r.Some? && (r.value == x || IdLess(r.value, x))
  {
    RestMembers(ids);
    if !Ready(s, ids[0]) {
      FirstReadyIsLeast(s, ids[1..], x);
    } else if ids[0] != x {
      var j :| 0 <= j < |ids| && ids[j] == x;
      assert IdLess(ids[0], ids[j]);
    }
  }

  /** The scheduler returns the ready task that is least in task-id order. */
  lemma NextReadyIsLeast(s: State, x: TaskId)
    requires Wf(s) && x in s.tasks && Ready(s, x)
    ensures NextReady(s).Some? && (NextReady(s).value == x || IdLess(NextReady(s).value, x))
  {
    ScheduleOrder(s.n);
    FirstReadyIsLeast(s, Schedule(s.n), x);
  }

  /** An unstarted upstream task with an idle robot is always ready. */
  lemma UpstreamReady(s: State, a: TaskId)
    requires Inv(s) && a in s.tasks && a.leg == UP
    requires s.tasks[a].status == TaskStatus.PENDING && RobotAvailable(s, Tb3_1)
    ensures Ready(s, a)
  {
    assert TaskAt(s, a) && PackageAt(s, a.item);
  }

  /** A downstream task whose package is buffered is ready once the zone is free. */
  lemma DownstreamReady(s: State, a: TaskId)
    requires Inv(s) && a in s.tasks && a.leg == DOWN
    requires s.tasks[a].status == TaskStatus.PENDING && RobotAvailable(s, Tb3_2)
    requires s.transfer.lease == None && a.item in s.transfer.packageOccupancy
    ensures Ready(s, a)
  {
    assert TaskAt(s, a) && TaskAt(s, TaskId(a.item, UP)) && PackageAt(s, a.item);
    assert !Holds(s.tasks[TaskId(a.item, UP)]);
  }

  /** While a package waits in the buffer and the downstream robot is idle, an upstream
      robot on its way with another package has no lease, and neither has anyone else. */
  lemma BufferedMeansFree(s: State, p: nat, q: TaskId)
    requires Inv(s) && p in s.transfer.packageOccupancy
    requires q in s.tasks && q.leg == UP && 4 <= s.tasks[q].index <= 11
    requires s.robots[Tb3_2].activeTask == None
    ensures s.transfer.lease == None
  {
    assert TaskAt(s, q);
    assert s.transfer.lease.Some? ==> TaskAt(s, s.transfer.lease.value.task);
  }

  /** A pending downstream task is ready whenever one sorted after it is. */
  lemma DownstreamReadyFirst(s: State, a: TaskId, id: TaskId)
    requires Inv(s) && a in s.tasks && id in s.tasks && a.leg == id.leg == DOWN && Before(a.item, id.item)
    requires s.tasks[a].status == TaskStatus.PENDING && Ready(s, id)
    ensures Ready(s, a)
  {
    IdTotal(TaskId(a.item, UP), TaskId(id.item, UP));
    var ua, ui := TaskId(a.item, UP), TaskId(id.item, UP);
    assert TaskAt(s, a) && TaskAt(s, id) && PackageAt(s, a.item) && PackageAt(s, id.item);
    assert s.tasks[ui].index >= 4;
    assert s.tasks[ua].index == TREE_SIZE;
    assert a.item in s.transfer.packageOccupancy;
    var leg := DOWN;
    assert RobotOk(leg, s.robots[RobotOf(leg)]);
    if !ItemAt(s, id.item, Transfer) {
      BufferedMeansFree(s, a.item, ui);
    }
    DownstreamReady(s, a);
  }

  lemma EarlierIsDone(s: State, id: TaskId, a: TaskId)
    requires Inv(s) && NextReady(s) == Some(id)
    requires a in s.tasks && a.leg == id.leg && Before(a.item, id.item)
    ensures s.tasks[a].index == TREE_SIZE
  {
    IdTotal(TaskId(a.item, UP), TaskId(id.item, UP));
    BothLegsSortAlike(a, id);
    IdTotal(a, id);
    assert TaskAt(s, a) && TaskAt(s, id);
    var leg := id.leg;
    assert RobotOk(leg, s.robots[RobotOf(leg)]);
    if s.tasks[a].index != TREE_SIZE {
      assert s.tasks[a].index == 0;
      if leg == UP {
        UpstreamReady(s, a);
      } else {
        DownstreamReadyFirst(s, a, id);
      }
      NextReadyIsLeast(s, a);
    }
  }

  lemma InOrderAt(s: State, a: TaskId, b: TaskId)
    requires Wf(s) && InOrder(s) && a in s.tasks && b in s.tasks && a.leg == b.leg && Before(a.item, b.item)
    requires s.tasks[b].index > 0
    ensures s.tasks[a].index == TREE_SIZE
  {
  }

  /** What is in the buffer while a downstream task waits for its package, or takes it, is
      that package: any other would have been taken out before, or brought in after. */
  lemma BufferedIsAwaited(s: State, x: nat, q: TaskId)
    requires Inv(s) && x in s.transfer.packageOccupancy
    requires q in s.tasks && q.leg == DOWN && 1 <= s.tasks[q].index <= 5
    ensures x == q.item
  {
    assert PackageAt(s, x) && PackageAt(s, q.item);
    IdTotal(TaskId(x, UP), TaskId(q.item, UP));
    if Before(x, q.item) {
      InOrderAt(s, TaskId(x, DOWN), q);
    } else if x != q.item {
      InOrderAt(s, TaskId(q.item, UP), TaskId(x, UP));
    }
  }

  /** FIFO: when a task is scheduled, that leg of every package sorted before its own is done. */
  lemma ScheduledInOrder(s: State, id: TaskId)
    requires Inv(s) && NextReady(s) == Some(id)
    ensures StartsInOrder(s, id)
    ensures s.tasks[id].index == 0 && s.robots[RobotOf(id.leg)].status == IDLE
  {
    assert TaskAt(s, id);
    forall a | a in s.tasks && a.leg == id.leg && Before(a.item, id.item)
      ensures s.tasks[a].index == TREE_SIZE
    {
      EarlierIsDone(s, id, a);
    }
  }

  // ----- Ticks -----

  /** What the task runner is allowed to tick: a started task as it is, or the one the
      scheduler picked, just marked running. */
  ghost predicate MayRun(s: State, id: TaskId, t: Task)
    requires Wf(s)
  {
    && id in s.tasks && s.status != COMPLETED
    && (if s.tasks[id].index > 0 then
          t == s.tasks[id]
        else
          && t == s.tasks[id].(status := TaskStatus.RUNNING, phase := ACQUIRE_PICKUP)
          && s.robots[RobotOf(id.leg)].status == IDLE
          && StartsInOrder(s, id))
  }

  /** Ticking one task is a change within the guarantee. */
  lemma RunTaskChanges(s: State, id: TaskId, t: Task)
    requires Inv(s) && MayRun(s, id, t)
    ensures Sibling(id) in s.tasks
    ensures var c0 := View(s, id).(task := t);
            CtxOk(c0, s.tasks[Sibling(id)]) && Change(s, TickTree(c0).ctx)
  {
    ViewOk(s, id);
    var c := View(s, id);
    var c0 := c.(task := t);
    var sib := s.tasks[Sibling(id)];
    assert CtxOk(c0, sib);
    TickKeepsInvariant(c0, sib);
    var r := TickTree(c0);
    TickWf(s.n, c0);
    if t.index == 0 {
      StartClaims(c0, sib);
    }
    TickExecRel(s.n, c0);
    assert Guarantee(s, r.ctx);
    assert Forward(s, r.ctx);
  }

  lemma RunTaskKeepsInvariant(s: State, id: TaskId, t: Task)
    requires Inv(s) && MayRun(s, id, t)
    ensures Inv(RunTask(s, id, t).state)
  {
    RunTaskChanges(s, id, t);
    ChangeKeepsInvariant(s, TickTree(View(s, id).(task := t)).ctx);
  }

  lemma StartClaims(c: Ctx, sib: Task)
    requires CtxOk(c, sib) && c.task.index == 0 && c.robot.status == IDLE
    ensures TickTree(c).ctx.task.index > 0
  {
    var r := TickClaim(c);
    ClaimOk(c, sib);
    TickKeepsInvariant(Next(r.ctx), sib);
    assert TickTree(c) == TickTree(Next(r.ctx));
  }

  lemma TickExecRel(n: nat, c: Ctx)
    requires ExecWf(n, c.exec)
    requires forall k :: c.exec.IsOpen(k) && c.exec.commands[k].task == c.task.id ==> c.task.active == Some(k)
    requires TickRel(c, TickTree(c))
    ensures ExecRel(c.task.id, c.exec, TickTree(c).ctx.exec, TickTree(c).ctx.task.active)
  {
  }

  lemma StartNextKeepsInvariant(s: State, emitted: seq<nat>)
    requires Inv(s)
    ensures Inv(StartNext(s, emitted).state)
  {
    match NextReady(s)
    case None =>
    case Some(id) =>
      ScheduledInOrder(s, id);
      RunTaskKeepsInvariant(s, id, s.tasks[id].(status := TaskStatus.RUNNING, phase := ACQUIRE_PICKUP));
  }

  lemma {:induction false} AdvanceFromKeepsInvariant(s: State, ids: seq<TaskId>)
    requires Inv(s) && s.status != COMPLETED && forall x :: x in ids ==> x in s.tasks
    ensures Inv(AdvanceFrom(s, ids).state)
    decreases |ids|
  {
    if ids == [] {
      StartNextKeepsInvariant(s, []);
    } else {
      assert ids == [ids[0]] + ids[1..];
      if Ticks(s, ids[0]) {
        RunTaskKeepsInvariant(s, ids[0], s.tasks[ids[0]]);
        var o := AdvanceTask(s, ids[0]);
        if o.emitted != [] {
          StartNextKeepsInvariant(o.state, o.emitted);
        } else {
          AdvanceFromKeepsInvariant(o.state, ids[1..]);
        }
      } else {
        AdvanceFromKeepsInvariant(s, ids[1..]);
      }
    }
  }

  lemma AdvanceKeepsInvariant(s: State)
    requires Inv(s)
    ensures Inv(Advance(s).state)
  {
    if s.status == MissionStatus.RUNNING {
      if AllSucceeded(s) {
        StatusKeepsInvariant(s, COMPLETED);
      } else {
        AdvanceFromKeepsInvariant(s, Ids(s.n));
      }
    }
  }

  lemma StatusKeepsInvariant(s: State, status: MissionStatus)
    requires Inv(s) && (status == COMPLETED ==> AllSucceeded(s))
    ensures Inv(s.(status := status))
  {
    var s' := s.(status := status);
    assert Wf(s');
    forall id | id in s'.tasks
      ensures TaskAt(s', id)
    {
      assert TaskAt(s, id);
    }
    forall q | q in s'.items
      ensures PackageAt(s', q)
    {
      assert PackageAt(s, q);
    }
  }

  // ----- Results -----

  /** The records after the end of open command `k`: its effect if it succeeded, its
      slot in the task cleared, and the task in some unfinished status. */
  function Ended(s: State, k: nat, status: CommandStatus, error: Option<Reason>, effect: bool): Ctx
    requires Wf(s) && s.exec.IsOpen(k)
  {
    var cmd := s.exec.commands[k];
    var c := View(s, cmd.task).(exec := s.exec.Mark(k, status, error));
    if effect then Applied(c, cmd) else c.(task := c.task.(active := None))
  }

  lemma OpenIsActive(s: State, k: nat)
    requires Inv(s) && s.exec.IsOpen(k)
    ensures var id := s.exec.commands[k].task;
            && id in s.tasks
            && s.tasks[id].active == Some(k)
            && 0 < s.tasks[id].index < TREE_SIZE
            && s.status != COMPLETED
  {
    var id := s.exec.commands[k].task;
    assert TaskAt(s, id);
  }

  predicate Unfinished(status: TaskStatus) {
    status != TaskStatus.SUCCEEDED && status != TaskStatus.PENDING
  }

  /** The effect of a command leaves the local invariant intact: the command was only
      outstanding where its robot and package were ready for it. */
  lemma EndedOk(c: Ctx, sib: Task, k: nat, status: CommandStatus, error: Option<Reason>, effect: bool, t: TaskStatus)
    requires CtxOk(c, sib) && Rests(c.task) && c.task.active == Some(k)
    requires status == CommandStatus.SUCCEEDED || status == CommandStatus.FAILED || status == CommandStatus.CANCELLED
    requires c.exec.commands[k].id == k && Unfinished(t)
    ensures var ex := c.exec.Mark(k, status, error);
            var c1 := if effect then Applied(c.(exec := ex), c.exec.commands[k])
                      else c.(exec := ex, task := c.task.(active := None));
            var c2 := c1.(task := c1.task.(status := t));
            && CtxOk(c2, sib)
            && c2.task.index == c.task.index
            && c2.task.active == None
            && c2.exec == ex
            && c2.transfer == c.transfer
            && RobotRel(c.task.id, c.robot, c2.robot)
            && (c2.robot.location != c.robot.location ==> c.robot.activeTask == Some(c.task.id))
            && (c2.item != c.item ==> sib.index <= 1 || sib.index == TREE_SIZE)
  {
    EndedCtx(c, sib, k, status, error, effect, t);
  }

  lemma EndedCtx(c: Ctx, sib: Task, k: nat, status: CommandStatus, error: Option<Reason>, effect: bool, t: TaskStatus)
    requires CtxOk(c, sib) && Rests(c.task) && c.task.active == Some(k)
    requires c.exec.commands[k].id == k && Unfinished(t)
    ensures var ex := c.exec.Mark(k, status, error);
            var c1 := if effect then Applied(c.(exec := ex), c.exec.commands[k])
                      else c.(exec := ex, task := c.task.(active := None));
            CtxOk(c1.(task := c1.task.(status := t)), sib)
  {
  }

  lemma MarkExecRel(s: State, k: nat, status: CommandStatus, error: Option<Reason>)
    requires Wf(s) && OpenOk(s) && s.exec.IsOpen(k)
    requires status == CommandStatus.SUCCEEDED || status == CommandStatus.FAILED || status == CommandStatus.CANCELLED
    ensures var id := s.exec.commands[k].task;
            ExecRel(id, s.exec, s.exec.Mark(k, status, error), None)
  {
    var id := s.exec.commands[k].task;
    var ex := s.exec.Mark(k, status, error);
    forall j | j in ex.commands && ex.commands[j].task == id && ex.IsOpen(j)
      ensures false
    {
      assert j != k && s.exec.IsOpen(j);
    }
  }

  lemma EndedChanges(s: State, k: nat, status: CommandStatus, error: Option<Reason>, effect: bool, t: TaskStatus)
    requires Inv(s) && s.exec.IsOpen(k) && Unfinished(t)
    requires status == CommandStatus.SUCCEEDED || status == CommandStatus.FAILED || status == CommandStatus.CANCELLED
    ensures var c := Ended(s, k, status, error, effect);
            c.task.id in s.tasks && Sibling(c.task.id) in s.tasks && Change(s, c.(task := c.task.(status := t)))
  {
    var id := s.exec.commands[k].task;
    OpenIsActive(s, k);
    ViewOk(s, id);
    assert TaskAt(s, id);
    var c := View(s, id);
    var sib := s.tasks[Sibling(id)];
    EndedOk(c, sib, k, status, error, effect, t);
    MarkWf(s.n, s.exec, k, status, error);
    MarkExecRel(s, k, status, error);
    var c1 := Ended(s, k, status, error, effect);
    var c2 := c1.(task := c1.task.(status := t));
    assert Guarantee(s, c2);
    assert Forward(s, c2);
  }

  lemma EndedKeepsInvariant(s: State, k: nat, status: CommandStatus, error: Option<Reason>, effect: bool, t: TaskStatus)
    requires Inv(s) && s.exec.IsOpen(k) && Unfinished(t)
    requires status == CommandStatus.SUCCEEDED || status == CommandStatus.FAILED || status == CommandStatus.CANCELLED
    ensures var c := Ended(s, k, status, error, effect);
            Inv(Put(s, c.(task := c.task.(status := t))))
  {
    EndedChanges(s, k, status, error, effect, t);
    var c := Ended(s, k, status, error, effect);
    ChangeKeepsInvariant(s, c.(task := c.task.(status := t)));
  }

  /** A retry puts the same move back in the slot of the failed one. */
  function Retried(s: State, k: nat, error: Reason): Ctx
    requires Wf(s) && s.exec.IsOpen(k) && s.exec.commands[k].kind.MoveRobot?
  {
    Reissued(Ended(s, k, CommandStatus.FAILED, Some(error), false), s.exec.commands[k])
  }

  lemma RetriedOk(c: Ctx, sib: Task, k: nat, error: Reason, retries: map<Waypoint, nat>)
    requires CtxOk(c, sib) && Rests(c.task) && c.task.active == Some(k)
    requires k < c.exec.next
    ensures var cmd := c.exec.commands[k];
            var ex := c.exec.Mark(k, CommandStatus.FAILED, Some(error));
            CtxOk(c.(task := c.task.(retries := retries, status := TaskStatus.RUNNING, active := Some(ex.next)),
                     exec := ex.Add(cmd.kind, cmd.task, cmd.robot)), sib)
  {
  }

  lemma RetryExecRel(s: State, k: nat, error: Reason)
    requires Wf(s) && OpenOk(s) && s.exec.IsOpen(k)
    ensures var cmd := s.exec.commands[k];
            var ex := s.exec.Mark(k, CommandStatus.FAILED, Some(error));
            ExecRel(cmd.task, s.exec, ex.Add(cmd.kind, cmd.task, cmd.robot), Some(ex.next))
  {
    MarkExecRel(s, k, CommandStatus.FAILED, Some(error));
  }

  lemma RetryChanges(s: State, k: nat, error: Reason)
    requires Inv(s) && s.exec.IsOpen(k) && s.exec.commands[k].kind.MoveRobot?
    ensures var c := Retried(s, k, error);
            c.task.id in s.tasks && Sibling(c.task.id) in s.tasks && Change(s, c)
  {
    var cmd := s.exec.commands[k];
    var id := cmd.task;
    OpenIsActive(s, k);
    ViewOk(s, id);
    assert TaskAt(s, id);
    var c2 := Retried(s, k, error);
    RetriedOk(View(s, id), s.tasks[Sibling(id)], k, error, c2.task.retries);
    RetryGuarantee(s, k, error);
  }

  lemma RetryGuarantee(s: State, k: nat, error: Reason)
    requires Wf(s) && OpenOk(s) && s.exec.IsOpen(k) && s.exec.commands[k].kind.MoveRobot?
    requires var id := s.exec.commands[k].task;
             s.tasks[id].active == Some(k) && s.tasks[id].index > 0 && s.status != COMPLETED && Sibling(id) in s.tasks
    ensures var c := Retried(s, k, error);
            c.task.id in s.tasks && Sibling(c.task.id) in s.tasks && Guarantee(s, c) && Forward(s, c)
  {
    var cmd := s.exec.commands[k];
    MarkWf(s.n, s.exec, k, CommandStatus.FAILED, Some(error));
    AddWf(s.n, s.exec.Mark(k, CommandStatus.FAILED, Some(error)), cmd.kind, cmd.task, cmd.robot);
    RetryExecRel(s, k, error);
  }

  lemma RetryKeepsInvariant(s: State, k: nat, error: Reason)
    requires Inv(s) && s.exec.IsOpen(k) && s.exec.commands[k].kind.MoveRobot?
    ensures Inv(Put(s, Retried(s, k, error)))
  {
    RetryChanges(s, k, error);
    ChangeKeepsInvariant(s, Retried(s, k, error));
  }

  // ----- Handlers -----

  lemma FollowKeepsInvariant(s: State, id: TaskId)
    requires Inv(s) && id in s.tasks && s.tasks[id].index > 0 && s.status != COMPLETED
    ensures Inv(Follow(s, id).state)
  {
    RunTaskKeepsInvariant(s, id, s.tasks[id]);
    var o := AdvanceTask(s, id);
    if o.emitted != [] {
      StartNextKeepsInvariant(o.state, o.emitted);
    } else {
      AdvanceKeepsInvariant(o.state);
    }
  }

  // ----- The two ways a completion can be received -----

  /** The mission or the robot is not to go on: the effect is recorded, nothing else. */
  predicate Held(s: State, k: nat)
    requires Wf(s) && s.exec.IsOpen(k)
  {
    s.status == PAUSED || s.status == ABORTED || s.robots[s.exec.commands[k].robot].paused
  }

  function HeldStatus(s: State, k: nat): TaskStatus
    requires Wf(s) && s.exec.IsOpen(k)
  {
    if s.status == PAUSED || s.robots[s.exec.commands[k].robot].paused then TaskStatus.RUNNING
    else TaskStatus.CANCELLED
  }

  /** A completion's effect alone. */
  function Landing(s: State, k: nat): Ctx
    requires Wf(s) && s.exec.IsOpen(k)
  {
    var c := Ended(s, k, CommandStatus.SUCCEEDED, None, true);
    c.(task := c.task.(status := if Held(s, k) then HeldStatus(s, k) else s.tasks[s.exec.commands[k].task].status))
  }

  function Landed(s: State, k: nat): (s': State)
    requires Wf(s) && s.exec.IsOpen(k)
    ensures Wf(s') && s'.n == s.n
  {
    MarkWf(s.n, s.exec, k, CommandStatus.SUCCEEDED, None);
    PutWf(s, Landing(s, k));
    Put(s, Landing(s, k))
  }

  lemma LandedIsPut(s: State, k: nat)
    requires Wf(s) && s.exec.IsOpen(k)
    ensures Landed(s, k) == Put(s, Landing(s, k)) && Landing(s, k).task.id == s.exec.commands[k].task
  {
  }

  lemma LandedFrame(s: State, k: nat)
    requires Wf(s) && s.exec.IsOpen(k) && s.exec.commands[k].task in s.tasks
    ensures var s' := Landed(s, k);
            var id := s.exec.commands[k].task;
            && s'.status == s.status && id in s'.tasks
            && s'.tasks[id].index == s.tasks[id].index
            && (forall r :: r in s.robots ==> r in s'.robots && s'.robots[r].paused == s.robots[r].paused)
  {
    LandedIsPut(s, k);
    LandingFrame(s, k);
  }

  lemma LandingFrame(s: State, k: nat)
    requires Wf(s) && s.exec.IsOpen(k)
    ensures var c, id := Landing(s, k), s.exec.commands[k].task;
            && c.task.index == s.tasks[id].index
            && c.robot.paused == s.robots[RobotOf(id.leg)].paused
  {
  }

  lemma LandingChanges(s: State, k: nat)
    requires Inv(s) && s.exec.IsOpen(k)
    ensures var c := Landing(s, k);
            c.task.id in s.tasks && Sibling(c.task.id) in s.tasks && Change(s, c)
  {
    OpenIsActive(s, k);
    assert TaskAt(s, s.exec.commands[k].task);
    EndedChanges(s, k, CommandStatus.SUCCEEDED, None, true, Landing(s, k).task.status);
  }

  lemma LandedKeepsInvariant(s: State, k: nat)
    requires Inv(s) && s.exec.IsOpen(k)
    ensures Inv(Landed(s, k))
  {
    LandingChanges(s, k);
    ChangeKeepsInvariant(s, Landing(s, k));
  }

  lemma LandedState(s: State, k: nat)
    requires Wf(s) && s.exec.IsOpen(k) && s.tasks[s.exec.commands[k].task].active == Some(k)
    ensures var cmd := s.exec.commands[k];
            var c := View(s, cmd.task).(exec := s.exec.Mark(k, CommandStatus.SUCCEEDED, None));
            var c1 := Applied(c, cmd);
            Landing(s, k) == if Held(s, k) then c1.(task := c1.task.(status := HeldStatus(s, k))) else c1
  {
    var cmd := s.exec.commands[k];
    var c := View(s, cmd.task).(exec := s.exec.Mark(k, CommandStatus.SUCCEEDED, None));
    var c1 := Applied(c, cmd);
    assert c1.task.status == s.tasks[cmd.task].status;
    assert c1.(task := c1.task.(status := c1.task.status)) == c1;
  }

  lemma AppliedAlike(c: Ctx, a: Command, b: Command)
    requires a.id == b.id && a.kind == b.kind && a.robot == b.robot
    ensures Applied(c, a) == Applied(c, b)
  {
  }

  lemma MarkedView(s: State, k: nat, status: CommandStatus, error: Option<Reason>)
    requires Wf(s) && s.exec.IsOpen(k)
    ensures var s1, cmd := Marked(s, k, status, error), s.exec.commands[k];
            && s1.exec.commands[k] == cmd.(status := status, error := error)
            && s1.exec.commands[k].id == k
            && cmd.task in s1.tasks && cmd.robot in s1.robots && s1.robots[cmd.robot] == s.robots[cmd.robot]
            && s1.tasks == s.tasks && s1.status == s.status
            && View(s1, cmd.task) == View(s, cmd.task).(exec := s.exec.Mark(k, status, error))
  {
    MarkWf(s.n, s.exec, k, status, error);
  }

  lemma MarkedPut(s: State, k: nat, status: CommandStatus, error: Option<Reason>, c: Ctx)
    requires Wf(s) && s.exec.IsOpen(k)
    ensures Put(Marked(s, k, status, error), c) == Put(s, c)
  {
  }

  lemma LandedMarked(s: State, k: nat)
    requires Wf(s) && s.exec.IsOpen(k) && s.tasks[s.exec.commands[k].task].active == Some(k)
    ensures var s1 := Marked(s, k, CommandStatus.SUCCEEDED, None);
            var cmd := s1.exec.commands[k];
            && cmd.task in s1.tasks && cmd.robot in s1.robots
            && var c := Applied(View(s1, cmd.task), cmd);
               Landed(s, k) == Put(s1, if Held(s, k) then c.(task := c.task.(status := HeldStatus(s, k))) else c)
  {
    MarkedView(s, k, CommandStatus.SUCCEEDED, None);
    LandedState(s, k);
    var s1, cmd := Marked(s, k, CommandStatus.SUCCEEDED, None), s.exec.commands[k];
    AppliedAlike(View(s1, cmd.task), cmd, s1.exec.commands[k]);
    MarkedPut(s, k, CommandStatus.SUCCEEDED, None, Landing(s, k));
  }

  /** A completion always has its effect; only an unheld one also moves the mission on. */
  lemma CompletedCases(s: State, k: nat)
    requires Wf(s) && s.exec.IsOpen(k) && s.tasks[s.exec.commands[k].task].active == Some(k)
    ensures s.exec.commands[k].task in Landed(s, k).tasks
    ensures HandleCompleted(s, k) ==
            if Held(s, k) then Outcome(Landed(s, k), []) else Follow(Landed(s, k), s.exec.commands[k].task)
  {
    LandedMarked(s, k);
    LandedFrame(s, k);
    MarkedView(s, k, CommandStatus.SUCCEEDED, None);
    var s1 := Marked(s, k, CommandStatus.SUCCEEDED, None);
    PutWf(s1, Applied(View(s1, s1.exec.commands[k].task), s1.exec.commands[k]));
  }

  lemma CompletedKeepsInvariant(s: State, k: nat)
    requires Inv(s)
    ensures Inv(HandleCompleted(s, k).state)
  {
    if s.exec.IsOpen(k) {
      OpenIsActive(s, k);
      CompletedCases(s, k);
      LandedKeepsInvariant(s, k);
      LandedFrame(s, k);
      if !Held(s, k) {
        FollowKeepsInvariant(Landed(s, k), s.exec.commands[k].task);
      }
    }
  }

  /** The explanations a task carries do not matter to the invariant. */
  lemma NotesOk(c: Ctx, sib: Task, reason: Reason, blocker: Blocker)
    requires CtxOk(c, sib)
    ensures CtxOk(c.(task := c.task.(blockedReason := Some(reason), blockedBy := Some(blocker))), sib)
  {
  }

  /** The records after open command `k` failed its task. */
  function Failing(s: State, k: nat, status: CommandStatus, reason: Reason): Ctx
    requires Wf(s) && s.exec.IsOpen(k)
  {
    var c := Ended(s, k, status, Some(reason), false);
    c.(task := c.task.(status := TaskStatus.FAILED, blockedReason := Some(reason),
                       blockedBy := Some(ByRobot(s.exec.commands[k].robot))))
  }

  lemma FailingChanges(s: State, k: nat, status: CommandStatus, reason: Reason)
    requires Inv(s) && s.exec.IsOpen(k)
    requires status == CommandStatus.FAILED || status == CommandStatus.CANCELLED
    ensures var c := Failing(s, k, status, reason);
            c.task.id in s.tasks && Sibling(c.task.id) in s.tasks && Change(s, c)
  {
    var id := s.exec.commands[k].task;
    EndedChanges(s, k, status, Some(reason), false, TaskStatus.FAILED);
    var c1 := Ended(s, k, status, Some(reason), false);
    var c2 := c1.(task := c1.task.(status := TaskStatus.FAILED));
    var blocker := ByRobot(s.exec.commands[k].robot);
    NotesOk(c2, s.tasks[Sibling(id)], reason, blocker);
  }

  lemma FailTaskKeepsInvariant(s: State, k: nat, status: CommandStatus, reason: Reason)
    requires Inv(s) && s.exec.IsOpen(k)
    requires status == CommandStatus.FAILED || status == CommandStatus.CANCELLED
    ensures var c := Ended(s, k, status, Some(reason), false);
            ExecWf(s.n, c.exec) && Inv(FailTask(s, c, s.exec.commands[k], reason))
  {
    MarkWf(s.n, s.exec, k, status, Some(reason));
    FailingChanges(s, k, status, reason);
    ChangeKeepsInvariant(s, Failing(s, k, status, reason));
    StatusKeepsInvariant(Put(s, Failing(s, k, status, reason)), MissionStatus.FAILED);
  }

  /** Whether a failed command is retried. */
  predicate Retries(s: State, k: nat, error: Reason)
    requires Wf(s) && s.exec.IsOpen(k)
  {
    var cmd := s.exec.commands[k];
    error == ArrivalNotVerified && cmd.kind.MoveRobot? && s.tasks[cmd.task].Retries(cmd.kind.target) < s.maxRetries
  }

  lemma RetryAlike(c: Ctx, a: Command, b: Command)
    requires a.kind.MoveRobot? && a.kind == b.kind && a.robot == b.robot && a.task == b.task
    ensures Reissued(c, a) == Reissued(c, b)
  {
  }

  lemma FailedParts(s: State, k: nat, error: Reason)
    requires Wf(s) && s.exec.IsOpen(k) && s.tasks[s.exec.commands[k].task].active == Some(k)
    ensures ExecWf(s.n, s.exec.Mark(k, CommandStatus.FAILED, Some(error)))
    ensures HandleFailed(s, k, error) ==
            if Retries(s, k, error) then
              Outcome(Put(s, Retried(s, k, error)), [s.exec.next])
            else
              Outcome(FailTask(s, Ended(s, k, CommandStatus.FAILED, Some(error), false), s.exec.commands[k], error), [])
  {
    MarkWf(s.n, s.exec, k, CommandStatus.FAILED, Some(error));
    MarkedView(s, k, CommandStatus.FAILED, Some(error));
    var s1, cmd := Marked(s, k, CommandStatus.FAILED, Some(error)), s.exec.commands[k];
    var c := Ended(s, k, CommandStatus.FAILED, Some(error), false);
    if Retries(s, k, error) {
      RetryAlike(c, cmd, s1.exec.commands[k]);
      MarkedPut(s, k, CommandStatus.FAILED, Some(error), Reissued(c, cmd));
    }
  }

  /** A failure of an open command is a retry or fails task and mission. */
  lemma FailedCases(s: State, k: nat, error: Reason)
    requires Inv(s) && s.exec.IsOpen(k)
    ensures ExecWf(s.n, s.exec.Mark(k, CommandStatus.FAILED, Some(error)))
    ensures HandleFailed(s, k, error) ==
            if Retries(s, k, error) then
              Outcome(Put(s, Retried(s, k, error)), [s.exec.next])
            else
              Outcome(FailTask(s, Ended(s, k, CommandStatus.FAILED, Some(error), false), s.exec.commands[k], error), [])
  {
    OpenIsActive(s, k);
    FailedParts(s, k, error);
  }

  lemma FailedKeepsInvariant(s: State, k: nat, error: Reason)
    requires Inv(s)
    ensures Inv(HandleFailed(s, k, error).state)
  {
    if s.exec.IsOpen(k) {
      FailedCases(s, k, error);
      if Retries(s, k, error) {
        RetryKeepsInvariant(s, k, error);
      } else {
        FailTaskKeepsInvariant(s, k, CommandStatus.FAILED, error);
      }
    }
  }

  lemma ReleasedKeepsInvariant(s: State, k: nat, reason: Reason)
    requires Inv(s) && s.exec.IsOpen(k)
    ensures var c := Ended(s, k, CommandStatus.CANCELLED, Some(reason), false);
            var s' := Put(s, c.(task := c.task.(status := TaskStatus.RUNNING)));
            Inv(s') && Inv(Advance(s').state)
  {
    EndedKeepsInvariant(s, k, CommandStatus.CANCELLED, Some(reason), false, TaskStatus.RUNNING);
    var c := Ended(s, k, CommandStatus.CANCELLED, Some(reason), false);
    AdvanceKeepsInvariant(Put(s, c.(task := c.task.(status := TaskStatus.RUNNING))));
  }

  /** The outcomes of a cancellation: released for a later retry, dropped, or a failure. */
  lemma CancelledCases(s: State, k: nat, reason: Reason)
    requires Wf(s) && s.exec.IsOpen(k) && s.tasks[s.exec.commands[k].task].active == Some(k)
    ensures ExecWf(s.n, s.exec.Mark(k, CommandStatus.CANCELLED, Some(reason)))
    ensures var c := Ended(s, k, CommandStatus.CANCELLED, Some(reason), false);
            var released := Put(s, c.(task := c.task.(status := TaskStatus.RUNNING)));
            Wf(released) &&
            HandleCancelled(s, k, reason) ==
              if reason == OperatorPause || reason == OperatorRobotPause then
                if reason == OperatorRobotPause && !s.robots[s.exec.commands[k].robot].paused then Advance(released)
                else Outcome(released, [])
              else if reason == OperatorAbort then
                Outcome(Put(s, c.(task := c.task.(status := TaskStatus.CANCELLED))), [])
              else
                Outcome(FailTask(s, c, s.exec.commands[k], reason), [])
  {
    MarkWf(s.n, s.exec, k, CommandStatus.CANCELLED, Some(reason));
    var c := Ended(s, k, CommandStatus.CANCELLED, Some(reason), false);
    PutWf(s, c.(task := c.task.(status := TaskStatus.RUNNING)));
  }

  lemma CancelledKeepsInvariant(s: State, k: nat, reason: Reason)
    requires Inv(s)
    ensures Inv(HandleCancelled(s, k, reason).state)
  {
    if s.exec.IsOpen(k) {
      OpenIsActive(s, k);
      CancelledCases(s, k, reason);
      if reason == OperatorPause || reason == OperatorRobotPause {
        ReleasedKeepsInvariant(s, k, reason);
      } else if reason == OperatorAbort {
        EndedKeepsInvariant(s, k, CommandStatus.CANCELLED, Some(reason), false, TaskStatus.CANCELLED);
      } else {
        FailTaskKeepsInvariant(s, k, CommandStatus.CANCELLED, reason);
      }
    }
  }

  lemma AbortKeepsTask(s: State, id: TaskId)
    requires Wf(s) && id in s.tasks && TaskAt(s, id)
    ensures TaskAt(HandleAbort(s).state, id)
  {
    AbortedOk(s.tasks[id], s.robots[RobotOf(id.leg)], s.items[id.item], s.transfer, s.exec);
  }

  lemma AbortedOk(t: Task, r: Robot, p: Package, transfer: Resource, ex: Exec)
    requires TaskOk(t, r, p, transfer, ex) && Rests(t)
    ensures TaskOk(Aborted(t), r, p, transfer, ex) && Rests(Aborted(t))
  {
  }

  lemma AbortKeepsRecords(s: State)
    requires Wf(s) && TasksOk(s) && PackagesOk(s)
    ensures TasksOk(HandleAbort(s).state) && PackagesOk(HandleAbort(s).state)
  {
    var s' := HandleAbort(s).state;
    forall id | id in s'.tasks
      ensures TaskAt(s', id)
    {
      AbortKeepsTask(s, id);
    }
    forall q | q in s'.items
      ensures PackageAt(s', q)
    {
      assert PackageAt(s, q);
    }
  }

  lemma AbortKeepsOrder(s: State)
    requires Wf(s) && InOrder(s) && OpenOk(s) && RobotsOk(s) && UnstartedAlike(s) && TasksOk(s)
    ensures var s' := HandleAbort(s).state;
            InOrder(s') && OpenOk(s') && RobotsOk(s') && UnstartedAlike(s')
  {
    var s' := HandleAbort(s).state;
    forall k | s'.exec.IsOpen(k)
      ensures s'.tasks[s'.exec.commands[k].task].active == Some(k)
    {
      assert s.exec.IsOpen(k);
    }
    if s' != s {
      forall id | id in s'.tasks && s'.tasks[id].index == 0
        ensures s'.tasks[id].status == TaskStatus.CANCELLED
      {
        assert TaskAt(s, id);
      }
      assert UnstartedAre(s', TaskStatus.CANCELLED);
    }
  }

  lemma AbortKeepsInvariant(s: State)
    requires Inv(s)
    ensures Inv(HandleAbort(s).state)
  {
    AbortKeepsRecords(s);
    AbortKeepsOrder(s);
  }

  lemma PauseKeepsInvariant(s: State, robot: RobotId, paused: bool)
    requires Inv(s) && robot in s.robots
    ensures Wf(SetPaused(s, robot, paused)) && Inv(SetPaused(s, robot, paused))
  {
    var s' := SetPaused(s, robot, paused);
    assert Wf(s');
    forall id | id in s'.tasks
      ensures TaskAt(s', id)
    {
      assert TaskAt(s, id);
    }
    forall q | q in s'.items
      ensures PackageAt(s', q)
    {
      assert PackageAt(s, q);
    }
    forall leg: Leg
      ensures var r := s'.robots[RobotOf(leg)];
              RobotOk(leg, r) && (r.activeTask.Some? ==> r.activeTask.value in s'.tasks)
    {
      assert RobotOk(leg, s.robots[RobotOf(leg)]);
    }
  }

  /** One event, whatever it is, keeps the invariant. */
  lemma StepKeepsInvariant(s: State, e: Event)
    requires Inv(s)
    ensures Inv(Step(s, e).state)
  {
    match e
    case StartRequested =>
      StatusKeepsInvariant(s, MissionStatus.RUNNING);
      AdvanceKeepsInvariant(if s.status == READY then s.(status := MissionStatus.RUNNING) else s);
    case Completed(k) => CompletedKeepsInvariant(s, k);
    case Failed(k, error) => FailedKeepsInvariant(s, k, error);
    case Cancelled(k, reason) => CancelledKeepsInvariant(s, k, reason);
    case PauseRequested => StatusKeepsInvariant(s, PAUSED);
    case ResumeRequested =>
      StatusKeepsInvariant(s, MissionStatus.RUNNING);
      AdvanceKeepsInvariant(s.(status := MissionStatus.RUNNING));
    case RobotPauseRequested(robot) =>
      if robot in s.robots {
        PauseKeepsInvariant(s, robot, true);
      }
    case RobotResumeRequested(robot) =>
      if robot in s.robots {
        PauseKeepsInvariant(s, robot, false);
        AdvanceKeepsInvariant(SetPaused(s, robot, false));
      }
    case AbortRequested => AbortKeepsInvariant(s);
    case Unrecognised =>
  }

  lemma InitialInvariant(n: nat, maxRetries: int)
    ensures Inv(Initial(n, maxRetries))
  {
  }

  /** Every state that any sequence of events can reach satisfies the invariant. */
  lemma {:induction false} ReachableInvariant(n: nat, maxRetries: int, events: seq<Event>)
    ensures Inv(Run(Initial(n, maxRetries), events).state)
  {
    if events == [] {
      InitialInvariant(n, maxRetries);
    } else {
      ReachableInvariant(n, maxRetries, events[..|events| - 1]);
      StepKeepsInvariant(Run(Initial(n, maxRetries), events[..|events| - 1]).state, events[|events| - 1]);
    }
  }
}
