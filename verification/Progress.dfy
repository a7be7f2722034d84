/** Liveness: a running mission always has something outstanding, and completing what is
    outstanding, in any order, delivers every package after 10N to 12N completions. */
module Progress {
  import opened Domain
  import opened BehaviorTree
  import opened LocalInvariant
  import opened TickProof
  import opened Mission
  import opened Invariant
  import opened StepProof
  import opened MicroSteps
  import opened Work
  import Emission

  ghost predicate Outstanding(s: State) {
    exists k :: s.exec.IsOpen(k)
  }

  // ----- What a tick leaves behind -----

  /** A started task waits for a command, or for the zone at its waiting place. */
  predicate Settled(t: Task, r: Robot) {
    Owns(t) && t.active == None ==>
      && (if t.id.leg == UP then t.index == 8 else t.index == 1)
      && r.location == Exit(t.id.leg)
  }

  /** Running, or blocked where it asks for the zone, with no command out. */
  predicate Active(t: Task) {
    || t.status == TaskStatus.RUNNING
    || (t.status == TaskStatus.BLOCKED && t.active == None && t.index == if t.id.leg == UP then 8 else 1)
  }

  lemma RequestSettles(c: Ctx, sib: Task)
    requires CtxOk(c, sib) && (c.task.index == 1 || c.task.index == 8)
    ensures var r := TickNode(Child(c.task.index), c);
            !r.success ==> Settled(r.ctx.task, r.ctx.robot)
  {
    if Asks(c) {
      RequestDecision(c, sib);
    }
  }

  lemma NodeSettles(c: Ctx, sib: Task)
    requires CtxOk(c, sib) && c.task.index < TREE_SIZE
    ensures var r := TickNode(Child(c.task.index), c);
            !r.success ==> Settled(r.ctx.task, r.ctx.robot)
  {
    if c.task.index == 1 || c.task.index == 8 {
      RequestSettles(c, sib);
    }
  }

  lemma {:induction false} TickSettles(c: Ctx, sib: Task)
    requires CtxOk(c, sib)
    ensures var r := TickTree(c); Settled(r.ctx.task, r.ctx.robot)
    decreases TREE_SIZE - c.task.index
  {
    if c.task.index < TREE_SIZE {
      NodeSettles(c, sib);
      NodeKeepsInvariant(c, sib);
      var r := TickNode(Child(c.task.index), c);
      if r.success {
        TickSettles(Next(r.ctx), sib);
      }
    }
  }

  lemma NodeKeepsActive(c: Ctx, sib: Task)
    requires CtxOk(c, sib) && Active(c.task) && c.task.index < TREE_SIZE - 1
    ensures var r := TickNode(Child(c.task.index), c);
            Active(if r.success then Next(r.ctx).task else r.ctx.task)
  {
    if Asks(c) {
      RequestDecision(c, sib);
    }
  }

  lemma {:induction false} TickKeepsActive(c: Ctx, sib: Task)
    requires CtxOk(c, sib) && Active(c.task) && c.task.index < TREE_SIZE
    ensures var t := TickTree(c).ctx.task; Active(t) || t.index >= TREE_SIZE
    decreases TREE_SIZE - c.task.index
  {
    if c.task.index < TREE_SIZE - 1 {
      NodeKeepsActive(c, sib);
      NodeKeepsInvariant(c, sib);
      var r := TickNode(Child(c.task.index), c);
      if r.success {
        TickKeepsActive(Next(r.ctx), sib);
      }
    }
  }

  /** Starting a task always emits its first command. */
  lemma StartEmits(c: Ctx, sib: Task)
    requires CtxOk(c, sib) && c.task.index == 0 && c.robot.status == IDLE
    ensures TickTree(c).emitted != []
  {
    var c1 := Next(TickClaim(c).ctx);
    ClaimOk(c, sib);
    assert TickTree(c) == TickTree(c1);
    var r := TickNode(Child(1), c1);
    NodeKeepsInvariant(c1, sib);
    if Asks(c1) {
      RequestDecision(c1, sib);
    }
    if r.success {
      assert TickTree(c1) == TickTree(Next(r.ctx));
      assert TickNode(Child(2), Next(r.ctx)).emitted != [];
    }
  }

  /** What a refused request leaves alone. */
  predicate SameButNotes(c: Ctx, c': Ctx) {
    && c'.task.index == c.task.index && c'.task.active == c.task.active && c'.task.id == c.task.id
    && c'.transfer == c.transfer && c'.exec == c.exec && c'.item == c.item
    && c'.robot.location == c.robot.location && c'.robot.activeTask == c.robot.activeTask
    && c'.robot.paused == c.robot.paused && (c'.robot.status == IDLE <==> c.robot.status == IDLE)
  }

  lemma RefusedStays(c: Ctx, sib: Task)
    requires CtxOk(c, sib) && Asks(c) && Refused(c) && c.task.active == None
    requires c.robot.location == Exit(c.task.id.leg) && c.robot.activeTask == Some(c.task.id)
    ensures TickTree(c).emitted == [] && SameButNotes(c, TickTree(c).ctx)
  {
    RequestDecision(c, sib);
    var r := TickNode(Child(c.task.index), c);
    assert !r.success;
    assert TickTree(c) == r;
    DeniedWaitsOk(c, sib);
  }

  // ----- The state of a live mission -----

  predicate TaskLive(s: State, id: TaskId)
    requires Wf(s) && id in s.tasks
  {
    var t := s.tasks[id];
    && Settled(t, s.robots[RobotOf(id.leg)])
    && (t.index == 0 ==> t.status == TaskStatus.PENDING)
    && (Owns(t) ==> Active(t))
  }

  ghost predicate TasksLive(s: State)
    requires Wf(s)
  {
    forall id {:trigger TaskLive(s, id)} :: id in s.tasks ==> TaskLive(s, id)
  }

  ghost predicate Unpaused(s: State) {
    forall r :: r in s.robots ==> !s.robots[r].paused
  }

  /** Everything a mission is between events when nobody pauses, aborts or cancels. */
  ghost predicate Live(s: State) {
    && Inv(s)
    && Unpaused(s)
    && !Frozen(s.status)
    && (s.status == READY || s.status == MissionStatus.RUNNING ==> TasksLive(s))
    && (s.status == READY ==> !Outstanding(s))
    && (s.status == MissionStatus.RUNNING ==> Outstanding(s))
  }

  // ----- No deadlock -----

  /** Nothing is outstanding and every started task has been refused the zone. */
  ghost predicate Stuck(s: State)
    requires Inv(s)
  {
    && TasksLive(s) && Unpaused(s) && !Outstanding(s)
    && (forall id :: id in s.tasks && Owns(s.tasks[id]) ==> Refused(View(s, id)))
  }

  lemma StuckZone(s: State)
    requires Inv(s) && Stuck(s)
    ensures s.transfer.lease == None
    ensures forall id :: id in s.tasks ==> s.tasks[id].active == None
    ensures forall id :: id in s.tasks && Owns(s.tasks[id]) ==> s.tasks[id].index == if id.leg == UP then 8 else 1
  {
    forall id | id in s.tasks
      ensures s.tasks[id].active == None
      ensures Owns(s.tasks[id]) ==> s.tasks[id].index == if id.leg == UP then 8 else 1
    {
      assert TaskAt(s, id) && TaskLive(s, id);
    }
    assert s.transfer.lease.Some? ==> TaskAt(s, s.transfer.lease.value.task);
  }

  /** A stuck state with a pending upstream task and an idle upstream robot cannot be. */
  lemma PendingUpstreamStarts(s: State, a: TaskId)
    requires Inv(s) && Stuck(s) && a in s.tasks && a.leg == UP && s.tasks[a].index == 0
    requires s.robots[Tb3_1].activeTask == None
    ensures NextReady(s).Some?
  {
    assert TaskLive(s, a);
    var leg := UP;
    assert RobotOk(leg, s.robots[RobotOf(leg)]);
    UpstreamReady(s, a);
    NextReadyIsLeast(s, a);
  }

  lemma BufferedDownstreamStarts(s: State, a: TaskId)
    requires Inv(s) && Stuck(s) && a in s.tasks && a.leg == DOWN && s.tasks[a].index == 0
    requires a.item in s.transfer.packageOccupancy
    requires s.robots[Tb3_2].activeTask == None
    ensures NextReady(s).Some?
  {
    assert TaskLive(s, a);
    var leg := DOWN;
    assert RobotOk(leg, s.robots[RobotOf(leg)]);
    StuckZone(s);
    DownstreamReady(s, a);
    NextReadyIsLeast(s, a);
  }

  /** If the buffer is full and no lease is held, its package is waiting for a downstream
      task that has not started, or that is the one asking for it. */
  lemma BufferedWaits(s: State, x: nat)
    requires Inv(s) && Stuck(s) && x in s.transfer.packageOccupancy
    ensures x in s.items && s.tasks[TaskId(x, UP)].index == TREE_SIZE && s.tasks[TaskId(x, DOWN)].index == 0
  {
    StuckZone(s);
    assert PackageAt(s, x) && TaskAt(s, TaskId(x, UP)) && TaskAt(s, TaskId(x, DOWN));
    var d := TaskId(x, DOWN);
    assert Owns(s.tasks[d]) ==> Refused(View(s, d));
  }

  /** No downstream task waits while something is in the buffer and nothing is outstanding:
      it would be its own package, and it would have been let in. */
  lemma BufferedExcludesWaiting(s: State, x: nat, q: TaskId)
    requires Inv(s) && Stuck(s) && x in s.transfer.packageOccupancy && q in s.tasks && q.leg == DOWN
    ensures !Owns(s.tasks[q])
  {
    BufferedWaits(s, x);
    StuckZone(s);
    if s.tasks[q].index == 1 {
      BufferedIsAwaited(s, x, q);
    }
  }

  /** A task that has not succeeded is unstarted or owns its robot. */
  lemma RobotTask(s: State, id: TaskId)
    requires Inv(s) && id in s.tasks && s.tasks[id].index != TREE_SIZE
    ensures s.tasks[id].index == 0 || Owns(s.tasks[id])
    ensures Owns(s.tasks[id]) ==> s.robots[RobotOf(id.leg)].activeTask == Some(id)
  {
    assert TaskAt(s, id);
  }

  lemma ActiveOwns(s: State, leg: Leg)
    requires Inv(s) && s.robots[RobotOf(leg)].activeTask.Some?
    ensures var id := s.robots[RobotOf(leg)].activeTask.value;
            id in s.tasks && id.leg == leg && Owns(s.tasks[id])
  {
    assert RobotOk(leg, s.robots[RobotOf(leg)]);
    assert TaskAt(s, s.robots[RobotOf(leg)].activeTask.value);
  }

  /** Deadlock freedom: with nothing outstanding and nothing left to start, all is done. */
  lemma StuckMeansDone(s: State, id: TaskId)
    requires Inv(s) && Stuck(s) && NextReady(s) == None && id in s.tasks
    ensures s.tasks[id].index == TREE_SIZE
  {
    StuckZone(s);
    var u, d := s.robots[Tb3_1].activeTask, s.robots[Tb3_2].activeTask;
    if d.Some? {
      ActiveOwns(s, DOWN);
      if u.Some? {
        ActiveOwns(s, UP);
        assert Refused(View(s, u.value));
        BufferedExcludesWaiting(s, s.transfer.packageOccupancy[0], d.value);
      } else {
        var uq := TaskId(d.value.item, UP);
        assert Refused(View(s, d.value));
        assert PackageAt(s, uq.item) && TaskAt(s, d.value);
        assert s.tasks[uq].index != TREE_SIZE;
        RobotTask(s, uq);
        PendingUpstreamStarts(s, uq);
      }
    } else if u.Some? {
      ActiveOwns(s, UP);
      assert Refused(View(s, u.value));
      var x := s.transfer.packageOccupancy[0];
      BufferedWaits(s, x);
      BufferedDownstreamStarts(s, TaskId(x, DOWN));
    } else if s.tasks[id].index != TREE_SIZE {
      RobotTask(s, id);
      var uq := TaskId(id.item, UP);
      if s.tasks[uq].index != TREE_SIZE {
        RobotTask(s, uq);
        PendingUpstreamStarts(s, uq);
      } else {
        assert PackageAt(s, id.item);
        BufferedDownstreamStarts(s, id);
      }
    }
  }

  // ----- Advancing keeps a mission live -----

  lemma OtherTaskLive(s: State, c': Ctx, x: TaskId)
    requires Inv(s) && c'.task.id in s.tasks && Sibling(c'.task.id) in s.tasks && Guarantee(s, c')
    requires Wf(Put(s, c')) && x in s.tasks && x != c'.task.id && TaskLive(s, x)
    ensures TaskLive(Put(s, c'), x)
  {
    assert TaskAt(s, x);
  }

  /** Any tick the runner may make leaves the ticked task settled and the others as they were. */
  lemma RunTaskLive(s: State, id: TaskId, t: Task)
    requires Inv(s) && MayRun(s, id, t) && Active(t) && t.index < TREE_SIZE
    requires forall x {:trigger TaskLive(s, x)} :: x in s.tasks && x != id ==> TaskLive(s, x)
    ensures TasksLive(RunTask(s, id, t).state)
  {
    var c := View(s, id).(task := t);
    RunTaskChanges(s, id, t);
    TickSettles(c, s.tasks[Sibling(id)]);
    TickKeepsActive(c, s.tasks[Sibling(id)]);
    var c' := TickTree(c).ctx;
    var s' := RunTask(s, id, t).state;
    forall x | x in s'.tasks
      ensures TaskLive(s', x)
    {
      if x == id {
        assert s'.tasks[id] == c'.task && s'.robots[RobotOf(id.leg)] == c'.robot;
        assert c'.task.index > 0;
      } else {
        OtherTaskLive(s, c', x);
      }
    }
  }

  lemma StartRuns(s: State, id: TaskId)
    requires Inv(s) && NextReady(s) == Some(id)
    ensures MayRun(s, id, s.tasks[id].(status := TaskStatus.RUNNING, phase := ACQUIRE_PICKUP))
    ensures s.tasks[id].index == 0 && Mission.StartTask(s, id).emitted != []
  {
    ScheduledInOrder(s, id);
    var t := s.tasks[id].(status := TaskStatus.RUNNING, phase := ACQUIRE_PICKUP);
    RunTaskChanges(s, id, t);
    StartEmits(View(s, id).(task := t), s.tasks[Sibling(id)]);
  }

  lemma TickRuns(s: State, id: TaskId)
    requires Inv(s) && s.status == MissionStatus.RUNNING && id in s.tasks && Ticks(s, id)
    ensures MayRun(s, id, s.tasks[id]) && 0 < s.tasks[id].index < TREE_SIZE
  {
    assert TaskAt(s, id);
  }

  lemma StartNextLive(s: State, emitted: seq<nat>)
    requires Inv(s) && TasksLive(s) && s.status == MissionStatus.RUNNING
    ensures TasksLive(StartNext(s, emitted).state)
  {
    match NextReady(s)
    case None =>
    case Some(id) =>
      StartRuns(s, id);
      RunTaskLive(s, id, s.tasks[id].(status := TaskStatus.RUNNING, phase := ACQUIRE_PICKUP));
  }

  lemma {:induction false} AdvanceFromLive(s: State, ids: seq<TaskId>)
    requires Inv(s) && TasksLive(s) && s.status == MissionStatus.RUNNING && forall x :: x in ids ==> x in s.tasks
    ensures TasksLive(AdvanceFrom(s, ids).state)
    decreases |ids|
  {
    if ids == [] {
      StartNextLive(s, []);
    } else {
      assert ids == [ids[0]] + ids[1..];
      if Ticks(s, ids[0]) {
        TickRuns(s, ids[0]);
        assert TaskLive(s, ids[0]) && TaskAt(s, ids[0]);
        RunTaskLive(s, ids[0], s.tasks[ids[0]]);
        RunTaskKeepsInvariant(s, ids[0], s.tasks[ids[0]]);
        var o := AdvanceTask(s, ids[0]);
        if o.emitted != [] {
          StartNextLive(o.state, o.emitted);
        } else {
          AdvanceFromLive(o.state, ids[1..]);
        }
      } else {
        AdvanceFromLive(s, ids[1..]);
      }
    }
  }

  lemma EmitsKeepOpen(n: nat, ex: Exec, ex': Exec, emitted: seq<nat>)
    requires ExecWf(n, ex) && Emission.Emits(ex, ex', emitted)
    ensures forall k :: ex.IsOpen(k) ==> ex'.IsOpen(k)
    ensures emitted != [] ==> ex'.IsOpen(ex.next)
  {
  }
}
