/** What an advance leaves undone: no robot stands idle beside a task that could be started,
    and no started task that could go on has been passed over. */
module Filling {
  import opened Domain
  import opened BehaviorTree
  import opened TaskOrder
  import opened LocalInvariant
  import opened TickProof
  import opened Mission
  import opened Invariant
  import opened StepProof
  import opened MicroSteps
  import opened Progress
  import opened Delivery
  import Emission

  // ----- When a task is ready -----

  /** A pending task can be started when its robot is free and its package is at the pickup:
      at the source always, at transfer once the zone is unleased. A downstream robot is
      also sent ahead of a package that is still being carried there. */
  lemma ReadyExactly(s: State, id: TaskId)
    requires Inv(s) && id in s.tasks
    ensures Ready(s, id) <==>
            && s.tasks[id].status == TaskStatus.PENDING
            && s.robots[RobotOf(id.leg)].activeTask == None && !s.robots[RobotOf(id.leg)].paused
            && (|| id.leg == UP
                || s.items[id.item].carriedBy.Some?
                || (s.transfer.lease == None && id.item in s.transfer.packageOccupancy))
  {
    var leg := id.leg;
    assert TaskAt(s, id) && PackageAt(s, id.item) && RobotOk(leg, s.robots[RobotOf(leg)]);
  }

  ghost predicate NothingReady(s: State) {
    forall id :: id in s.tasks ==> !Ready(s, id)
  }

  lemma NoneReady(s: State)
    requires Inv(s) && NextReady(s) == None
    ensures NothingReady(s)
  {
    forall id | id in s.tasks
      ensures !Ready(s, id)
    {
      if Ready(s, id) {
        NextReadyIsLeast(s, id);
      }
    }
  }

  /** With a command out for each robot there is no robot to start a task with. */
  lemma BothBusy(s: State, a: TaskId, b: TaskId)
    requires Inv(s) && a in s.tasks && b in s.tasks && a.leg != b.leg
    requires s.tasks[a].active.Some? && s.tasks[b].active.Some?
    ensures NothingReady(s)
  {
    assert TaskAt(s, a) && TaskAt(s, b);
    forall id | id in s.tasks
      ensures !Ready(s, id)
    {
      ReadyExactly(s, id);
    }
  }

  // ----- Ticks that emit -----

  /** A tick changes no other task; its command is about its own task, and the active one. */
  ghost predicate Ticked(s: State, id: TaskId, o: Outcome) {
    && (forall x :: x in s.tasks ==>
          && x in o.state.tasks && (s.tasks[x].index > 0 ==> o.state.tasks[x].index > 0)
          && (x != id ==> o.state.tasks[x] == s.tasks[x]))
    && (forall k :: k in s.exec.commands ==>
          k in o.state.exec.commands && o.state.exec.commands[k].task == s.exec.commands[k].task)
    && (o.emitted != [] ==>
          && o.emitted == [s.exec.next] && s.exec.next in o.state.exec.commands
          && o.state.exec.commands[s.exec.next].task == id
          && id in o.state.tasks && o.state.tasks[id].active.Some?)
  }

  lemma PutTicked(s: State, c: Ctx, emitted: seq<nat>)
    requires c.task.id in s.tasks && c.task.index > 0
    requires forall k :: k in s.exec.commands ==>
               k in c.exec.commands && c.exec.commands[k].task == s.exec.commands[k].task
    requires emitted != [] ==>
               && emitted == [s.exec.next] && s.exec.next in c.exec.commands
               && c.exec.commands[s.exec.next].task == c.task.id && c.task.active.Some?
    ensures Ticked(s, c.task.id, Outcome(Put(s, c), emitted))
  {
  }

  lemma RunTaskTicked(s: State, id: TaskId, t: Task)
    requires Inv(s) && MayRun(s, id, t)
    ensures Inv(RunTask(s, id, t).state) && Ticked(s, id, RunTask(s, id, t))
  {
    var c := View(s, id).(task := t);
    RunTaskKeepsInvariant(s, id, t);
    RunTaskChanges(s, id, t);
    TickKeepsInvariant(c, s.tasks[Sibling(id)]);
    TickAdds(s.n, c, TickTree(c));
    PutTicked(s, TickTree(c).ctx, TickTree(c).emitted);
  }

  lemma TickAdds(n: nat, c: Ctx, r: BehaviorTree.Ticked)
    requires TickRel(c, r) && ExecWf(n, c.exec)
    ensures forall k :: k in c.exec.commands ==>
              k in r.ctx.exec.commands && r.ctx.exec.commands[k].task == c.exec.commands[k].task
    ensures r.emitted != [] ==>
              && r.emitted == [c.exec.next] && c.exec.next in r.ctx.exec.commands
              && r.ctx.exec.commands[c.exec.next].task == c.task.id
              && r.ctx.task.active.Some?
  {
  }

  lemma StartTicked(s: State, id: TaskId)
    requires Inv(s) && NextReady(s) == Some(id)
    ensures var o := Mission.StartTask(s, id);
            && Inv(o.state) && Ticked(s, id, o) && o.emitted != []
            && s.tasks[id].index == 0 && s.robots[RobotOf(id.leg)].activeTask == None
  {
    StartRuns(s, id);
    ReadyExactly(s, id);
    RunTaskTicked(s, id, s.tasks[id].(status := TaskStatus.RUNNING, phase := ACQUIRE_PICKUP));
  }

  /** Started next to a task with a command out, the next ready task takes the other robot. */
  lemma StartNextFills(s: State, emitted: seq<nat>, a: TaskId)
    requires Inv(s) && a in s.tasks && s.tasks[a].active.Some?
    ensures NothingReady(StartNext(s, emitted).state)
  {
    match NextReady(s)
    case None => NoneReady(s);
    case Some(id) =>
      StartTicked(s, id);
      OtherRobot(s, a, id);
      BothBusy(Mission.StartTask(s, id).state, a, id);
  }

  lemma OtherRobot(s: State, a: TaskId, id: TaskId)
    requires Inv(s) && a in s.tasks && s.tasks[a].active.Some? && s.robots[RobotOf(id.leg)].activeTask == None
    ensures a.leg != id.leg
  {
    assert TaskAt(s, a);
  }

  // ----- A pass over the tasks -----

  /** The first command emitted is for a task that had been started already in `s`. */
  ghost predicate GoesOnWith(s: State, o: Outcome) {
    && o.emitted != [] && o.emitted[0] in o.state.exec.commands
    && var id := o.state.exec.commands[o.emitted[0]].task;
       id in s.tasks && s.tasks[id].index > 0
  }

  /** Unless its one command starts a task, nothing is left that could be started. */
  ghost predicate Fills(s: State, o: Outcome) {
    o.emitted == [] || GoesOnWith(s, o) ==> NothingReady(o.state)
  }

  lemma StartFills(s: State)
    requires Inv(s)
    ensures Fills(s, StartNext(s, []))
  {
    match NextReady(s)
    case None => NoneReady(s);
    case Some(id) =>
      StartTicked(s, id);
      NothingBefore(Mission.StartTask(s, id));
  }

  /** What had been started before a tick has been started after it. */
  lemma FilledBefore(s: State, id: TaskId, first: Outcome, o: Outcome)
    requires Ticked(s, id, first) && Fills(first.state, o)
    ensures Fills(s, o)
  {
  }

  lemma {:induction false} AdvanceFromFills(s: State, ids: seq<TaskId>)
    requires Inv(s) && s.status == MissionStatus.RUNNING && forall x :: x in ids ==> x in s.tasks
    ensures Fills(s, AdvanceFrom(s, ids))
    decreases |ids|
  {
    if ids == [] {
      StartFills(s);
    } else {
      RestMembers(ids);
      if Ticks(s, ids[0]) {
        TickRuns(s, ids[0]);
        RunTaskTicked(s, ids[0], s.tasks[ids[0]]);
        var o := AdvanceTask(s, ids[0]);
        if o.emitted != [] {
          StartNextFills(o.state, o.emitted, ids[0]);
        } else {
          AdvanceFromFills(o.state, ids[1..]);
          FilledBefore(s, ids[0], o, AdvanceFrom(o.state, ids[1..]));
        }
      } else {
        AdvanceFromFills(s, ids[1..]);
      }
    }
  }

  lemma AdvanceFills(s: State)
    requires Inv(s) && s.status == MissionStatus.RUNNING
    ensures Fills(s, Advance(s))
  {
    if !AllSucceeded(s) {
      AdvanceFromFills(s, Ids(s.n));
    }
  }

  lemma FollowFills(s: State, id: TaskId)
    requires Inv(s) && s.status == MissionStatus.RUNNING && id in s.tasks && 0 < s.tasks[id].index < TREE_SIZE
    ensures Fills(s, Follow(s, id))
  {
    RunTaskTicked(s, id, s.tasks[id]);
    Emission.RunTaskEmits(s, id, s.tasks[id]);
    var o := AdvanceTask(s, id);
    if o.emitted != [] {
      StartNextFills(o.state, o.emitted, id);
    } else {
      AdvanceFills(o.state);
      FilledBefore(s, id, o, Advance(o.state));
    }
  }

  // ----- Every event that makes the mission advance -----

  /** The event makes the mission look for what to do next. */
  predicate Prompts(s: State, e: Event)
    requires Wf(s)
  {
    match e
    case StartRequested => s.status == READY || s.status == MissionStatus.RUNNING
    case ResumeRequested => s.status == PAUSED
    case RobotResumeRequested(robot) =>
      s.status == MissionStatus.RUNNING && robot in s.robots && s.robots[robot].paused
    case Completed(k) =>
      s.status == MissionStatus.RUNNING && s.exec.IsOpen(k) && !s.robots[s.exec.commands[k].robot].paused
    case Cancelled(k, reason) =>
      && s.status == MissionStatus.RUNNING && reason == OperatorRobotPause
      && s.exec.IsOpen(k) && !s.robots[s.exec.commands[k].robot].paused
    case _ => false
  }

  lemma CompletedFills(s: State, k: nat)
    requires Inv(s) && Prompts(s, Completed(k))
    ensures Fills(s, HandleCompleted(s, k))
  {
    OpenIsActive(s, k);
    CompletedCases(s, k);
    LandedKeepsInvariant(s, k);
    LandedFrame(s, k);
    FollowFills(Landed(s, k), s.exec.commands[k].task);
    LandedIsPut(s, k);
    LandingFrame(s, k);
    PutFills(s, Landing(s, k), HandleCompleted(s, k));
  }

  lemma PutFills(s: State, c: Ctx, o: Outcome)
    requires c.task.id in s.tasks && c.task.index == s.tasks[c.task.id].index && Fills(Put(s, c), o)
    ensures Fills(s, o)
  {
    SameStarted(s, Put(s, c), o);
  }

  /** Where no task has gone on meanwhile. */
  lemma SameStarted(s: State, s1: State, o: Outcome)
    requires Fills(s1, o)
    requires forall id :: id in s.tasks ==> id in s1.tasks && s1.tasks[id].index == s.tasks[id].index
    ensures Fills(s, o)
  {
  }

  lemma CancelledFills(s: State, k: nat)
    requires Inv(s) && Prompts(s, Cancelled(k, OperatorRobotPause))
    ensures Fills(s, HandleCancelled(s, k, OperatorRobotPause))
  {
    OpenIsActive(s, k);
    CancelledCases(s, k, OperatorRobotPause);
    EndedKeepsInvariant(s, k, CommandStatus.CANCELLED, Some(OperatorRobotPause), false, TaskStatus.RUNNING);
    var c := Ended(s, k, CommandStatus.CANCELLED, Some(OperatorRobotPause), false);
    var c' := c.(task := c.task.(status := TaskStatus.RUNNING));
    AdvanceFills(Put(s, c'));
    PutFills(s, c', Advance(Put(s, c')));
  }

  lemma FlagFills(s: State, s1: State)
    requires Inv(s1) && s1.status == MissionStatus.RUNNING && s1.tasks == s.tasks
    ensures Fills(s, Advance(s1))
  {
    AdvanceFills(s1);
    SameStarted(s, s1, Advance(s1));
  }

  /** Whenever the mission looks for what to do next: if it emits nothing, or goes on with a
      task that had been started, then no robot is left idle beside a task it could start. */
  lemma NoRobotIdles(s: State, e: Event)
    requires Inv(s) && Prompts(s, e)
    ensures Fills(s, Step(s, e))
  {
    match e
    case StartRequested =>
      StatusKeepsInvariant(s, MissionStatus.RUNNING);
      FlagFills(s, s.(status := MissionStatus.RUNNING));
      assert s.status == MissionStatus.RUNNING ==> s == s.(status := MissionStatus.RUNNING);
    case ResumeRequested =>
      StatusKeepsInvariant(s, MissionStatus.RUNNING);
      FlagFills(s, s.(status := MissionStatus.RUNNING));
    case RobotResumeRequested(robot) =>
      PauseKeepsInvariant(s, robot, false);
      FlagFills(s, SetPaused(s, robot, false));
    case Completed(k) => CompletedFills(s, k);
    case Cancelled(k, _) => CancelledFills(s, k);
  }

  // ----- No task is passed over -----

  /** The order in which the tasks are looked at. */
  predicate Earlier(a: TaskId, b: TaskId) {
    a.item < b.item || (a.item == b.item && a.leg == UP && b.leg == DOWN)
  }

  predicate Increasing(ids: seq<TaskId>) {
    forall i, j :: 0 <= i < j < |ids| ==> Earlier(ids[i], ids[j])
  }

  lemma {:induction false} IdsIncrease(n: nat)
    ensures Increasing(Ids(n))
  {
    if n > 0 {
      IdsIncrease(n - 1);
      forall id | id in Ids(n - 1)
        ensures Earlier(id, TaskId(n, UP)) && Earlier(id, TaskId(n, DOWN))
      {
      }
    }
  }

  /** The task has a command out, or waits for the zone at its waiting place, or is done. */
  predicate SettledAt(s: State, id: TaskId)
    requires Wf(s) && id in s.tasks
  {
    Settled(s.tasks[id], s.robots[RobotOf(id.leg)])
  }

  lemma TickedIsSettled(s: State, id: TaskId, t: Task)
    requires Inv(s) && MayRun(s, id, t)
    ensures SettledAt(RunTask(s, id, t).state, id)
  {
    RunTaskChanges(s, id, t);
    TickSettles(View(s, id).(task := t), s.tasks[Sibling(id)]);
  }

  lemma OtherStaysSettled(s: State, id: TaskId, t: Task, x: TaskId)
    requires Inv(s) && MayRun(s, id, t) && x in s.tasks && x != id && SettledAt(s, x)
    ensures SettledAt(RunTask(s, id, t).state, x)
  {
    assert TaskAt(s, x);
    RunTaskChanges(s, id, t);
    PutSettled(s, TickTree(View(s, id).(task := t)).ctx, x);
  }

  lemma PutSettled(s: State, c: Ctx, x: TaskId)
    requires Wf(s) && c.task.id in s.tasks && Sibling(c.task.id) in s.tasks && Guarantee(s, c) && Wf(Put(s, c))
    requires x in s.tasks && x != c.task.id && SettledAt(s, x)
    requires Owns(s.tasks[x]) ==> s.robots[RobotOf(x.leg)].activeTask == Some(x)
    ensures SettledAt(Put(s, c), x)
  {
  }

  lemma StartNextKeepsSettled(s: State, emitted: seq<nat>, x: TaskId)
    requires Inv(s) && x in s.tasks && s.tasks[x].index > 0 && SettledAt(s, x)
    ensures SettledAt(StartNext(s, emitted).state, x)
  {
    match NextReady(s)
    case None =>
    case Some(id) =>
      StartRuns(s, id);
      OtherStaysSettled(s, id, s.tasks[id].(status := TaskStatus.RUNNING, phase := ACQUIRE_PICKUP), x);
  }

  lemma {:induction false} AdvanceFromKeepsSettled(s: State, ids: seq<TaskId>, x: TaskId)
    requires Inv(s) && s.status == MissionStatus.RUNNING && forall y :: y in ids ==> y in s.tasks
    requires x in s.tasks && s.tasks[x].index > 0 && SettledAt(s, x)
    ensures SettledAt(AdvanceFrom(s, ids).state, x)
    decreases |ids|
  {
    if ids == [] {
      StartNextKeepsSettled(s, [], x);
    } else {
      RestMembers(ids);
      if Ticks(s, ids[0]) {
        TickRuns(s, ids[0]);
        RunTaskTicked(s, ids[0], s.tasks[ids[0]]);
        if x == ids[0] {
          TickedIsSettled(s, x, s.tasks[x]);
        } else {
          OtherStaysSettled(s, ids[0], s.tasks[ids[0]], x);
        }
        var o := AdvanceTask(s, ids[0]);
        if o.emitted != [] {
          StartNextKeepsSettled(o.state, o.emitted, x);
        } else {
          AdvanceFromKeepsSettled(o.state, ids[1..], x);
        }
      } else {
        AdvanceFromKeepsSettled(s, ids[1..], x);
      }
    }
  }

  /** Unless a task before `x` was gone on with, `x` can do no more by itself. */
  ghost predicate Passed(s: State, x: TaskId, o: Outcome)
    requires Wf(s) && Wf(o.state) && o.state.n == s.n && x in s.tasks
  {
    || (GoesOnWith(s, o) && Earlier(o.state.exec.commands[o.emitted[0]].task, x))
    || SettledAt(o.state, x)
  }

  lemma FirstTicked(s: State, x: TaskId, rest: seq<TaskId>)
    requires Inv(s) && s.status == MissionStatus.RUNNING && x in s.tasks && Ticks(s, x)
    requires forall y :: y in rest ==> y in s.tasks
    ensures var o := AdvanceTask(s, x);
            var p := if o.emitted != [] then StartNext(o.state, o.emitted) else AdvanceFrom(o.state, rest);
            SettledAt(p.state, x)
  {
    TickRuns(s, x);
    RunTaskTicked(s, x, s.tasks[x]);
    TickedIsSettled(s, x, s.tasks[x]);
    var o := AdvanceTask(s, x);
    if o.emitted != [] {
      StartNextKeepsSettled(o.state, o.emitted, x);
    } else {
      AdvanceFromKeepsSettled(o.state, rest, x);
    }
  }

  /** The command of the tick comes first, before that of a task started after it. */
  lemma TickedFirst(s: State, id: TaskId)
    requires Inv(s) && s.status == MissionStatus.RUNNING && id in s.tasks && Ticks(s, id)
    requires AdvanceTask(s, id).emitted != []
    ensures var first := AdvanceTask(s, id);
            var o := StartNext(first.state, first.emitted);
            GoesOnWith(s, o) && o.state.exec.commands[o.emitted[0]].task == id
  {
    TickRuns(s, id);
    RunTaskTicked(s, id, s.tasks[id]);
    NextKeepsFirst(AdvanceTask(s, id));
  }

  lemma NextKeepsFirst(first: Outcome)
    requires Inv(first.state) && first.emitted != [] && first.emitted[0] in first.state.exec.commands
    ensures var o, k := StartNext(first.state, first.emitted), first.emitted[0];
            && o.emitted != [] && o.emitted[0] == k
            && k in o.state.exec.commands && o.state.exec.commands[k].task == first.state.exec.commands[k].task
  {
    match NextReady(first.state)
    case None =>
    case Some(x) => StartTicked(first.state, x);
  }

  lemma StillTicks(s: State, id: TaskId, x: TaskId)
    requires Inv(s) && s.status == MissionStatus.RUNNING && id in s.tasks && Ticks(s, id)
    requires x in s.tasks && x != id && Ticks(s, x)
    ensures Inv(AdvanceTask(s, id).state) && Ticked(s, id, AdvanceTask(s, id))
    ensures Ticks(AdvanceTask(s, id).state, x) && AdvanceTask(s, id).state.status == s.status
  {
    TickRuns(s, id);
    RunTaskTicked(s, id, s.tasks[id]);
    RunTaskPauses(s, id, s.tasks[id]);
    Emission.RunTaskEmits(s, id, s.tasks[id]);
  }

  lemma PassedBefore(s: State, id: TaskId, first: Outcome, x: TaskId, o: Outcome)
    requires Wf(s) && Wf(first.state) && Wf(o.state) && first.state.n == o.state.n == s.n && x in s.tasks
    requires Ticked(s, id, first) && id in s.tasks && s.tasks[id].index > 0 && Passed(first.state, x, o)
    ensures Passed(s, x, o)
  {
  }

  lemma {:induction false} AdvanceFromPasses(s: State, ids: seq<TaskId>, x: TaskId)
    requires Inv(s) && s.status == MissionStatus.RUNNING && forall y :: y in ids ==> y in s.tasks
    requires Increasing(ids) && x in ids && Ticks(s, x)
    ensures Passed(s, x, AdvanceFrom(s, ids))
    decreases |ids|
  {
    RestMembers(ids);
    var a, rest := ids[0], ids[1..];
    if x == a {
      FirstTicked(s, x, rest);
    } else if !Ticks(s, a) {
      AdvanceFromPasses(s, rest, x);
    } else if AdvanceTask(s, a).emitted != [] {
      TickedFirst(s, a);
    } else {
      TickRuns(s, a);
      StillTicks(s, a, x);
      var o := AdvanceTask(s, a);
      AdvanceFromPasses(o.state, rest, x);
      PassedBefore(s, a, o, x, AdvanceFrom(o.state, rest));
    }
  }

  /** An advance leaves every started task of an unpaused robot with a command out, or
      waiting for the zone, or done, unless it went on with an earlier task instead. */
  lemma NoTaskIsPassedOver(s: State, x: TaskId)
    requires Inv(s) && s.status == MissionStatus.RUNNING && x in s.tasks
    requires s.tasks[x].status == TaskStatus.RUNNING || s.tasks[x].status == TaskStatus.BLOCKED
    requires !s.robots[RobotOf(x.leg)].paused
    ensures Passed(s, x, Advance(s))
  {
    IdsIncrease(s.n);
    assert TaskAt(s, x);
    AdvanceFromPasses(s, Ids(s.n), x);
  }

  lemma AdvanceKeepsSettled(s: State, x: TaskId)
    requires Inv(s) && x in s.tasks && s.tasks[x].index > 0 && SettledAt(s, x)
    ensures SettledAt(Advance(s).state, x)
  {
    if s.status == MissionStatus.RUNNING && !AllSucceeded(s) {
      AdvanceFromKeepsSettled(s, Ids(s.n), x);
    }
  }

  /** A task whose command was completed is gone on with, as far as it can by itself, unless
      the mission or its robot is held; also in a mission that has failed. */
  lemma CompletionIsFollowed(s: State, k: nat)
    requires Inv(s) && s.exec.IsOpen(k) && !Frozen(s.status) && !s.robots[s.exec.commands[k].robot].paused
    ensures SettledAt(HandleCompleted(s, k).state, s.exec.commands[k].task)
  {
    var s1, id := Landed(s, k), s.exec.commands[k].task;
    OpenIsActive(s, k);
    CompletedCases(s, k);
    LandedKeepsInvariant(s, k);
    LandedFrame(s, k);
    FollowSettles(s1, id);
  }

  lemma FollowSettles(s: State, id: TaskId)
    requires Inv(s) && s.status != COMPLETED && id in s.tasks && 0 < s.tasks[id].index < TREE_SIZE
    ensures SettledAt(Follow(s, id).state, id)
  {
    RunTaskTicked(s, id, s.tasks[id]);
    TickedIsSettled(s, id, s.tasks[id]);
    var o := AdvanceTask(s, id);
    if o.emitted != [] {
      StartNextKeepsSettled(o.state, o.emitted, id);
    } else {
      AdvanceKeepsSettled(o.state, id);
    }
  }
}
