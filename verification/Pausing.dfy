/** What stands still while the mission is paused or aborted, or while one robot is paused. */
module Pausing {
  import Emission
  import opened Domain
  import opened BehaviorTree
  import opened LocalInvariant
  import opened TickProof
  import opened Mission
  import opened Invariant
  import opened StepProof
  import opened MicroSteps
  import opened History
  import opened Safety

  /** Command `k` repeats an earlier move whose arrival was not verified. */
  ghost predicate Reissue(ex: Exec, k: nat) {
    k in ex.commands &&
    exists j: nat ::
      && j < k && j in ex.commands
      && ex.commands[j].status == CommandStatus.FAILED && ex.commands[j].error == Some(ArrivalNotVerified)
      && ex.commands[j].kind.MoveRobot? && ex.commands[j].kind == ex.commands[k].kind
      && ex.commands[j].task == ex.commands[k].task && ex.commands[j].robot == ex.commands[k].robot
  }

  lemma ReissueLasts(ex: Exec, ex': Exec, k: nat)
    requires ExecEvolves(ex, ex') && Reissue(ex, k)
    ensures Reissue(ex', k)
  {
    var j: nat :|
      && j < k && j in ex.commands
      && ex.commands[j].status == CommandStatus.FAILED && ex.commands[j].error == Some(ArrivalNotVerified)
      && ex.commands[j].kind.MoveRobot? && ex.commands[j].kind == ex.commands[k].kind
      && ex.commands[j].task == ex.commands[k].task && ex.commands[j].robot == ex.commands[k].robot;
    assert ex'.commands[j] == ex.commands[j];
  }

  lemma RetryReissues(s: State, k: nat, error: Reason)
    requires Inv(s) && s.exec.IsOpen(k) && Retries(s, k, error)
    ensures Reissue(Retried(s, k, error).exec, s.exec.next)
    ensures Retried(s, k, error).transfer == s.transfer
    ensures Retried(s, k, error).task.index == s.tasks[s.exec.commands[k].task].index
  {
    var ex := Retried(s, k, error).exec;
    assert ex.commands[k].status == CommandStatus.FAILED;
    assert ex.commands[s.exec.next].kind == ex.commands[k].kind;
    assert k < s.exec.next && k in ex.commands;
  }

  // ----- Paused or aborted mission -----

  ghost predicate StandsStill(s: State, s': State) {
    && s'.transfer == s.transfer
    && (forall id :: id in s.tasks ==> id in s'.tasks && s'.tasks[id].index == s.tasks[id].index)
  }

  lemma RetryStandsStill(s: State, k: nat, error: Reason, o: Outcome)
    requires Inv(s) && s.exec.IsOpen(k) && Retries(s, k, error)
    requires o == Outcome(Put(s, Retried(s, k, error)), [s.exec.next])
    ensures StandsStill(s, o.state) && forall j :: j in o.emitted ==> Reissue(o.state.exec, j)
  {
    RetryReissues(s, k, error);
  }

  lemma PutStandsStill(s: State, c: Ctx)
    requires Wf(s) && c.task.id in s.tasks && c.task.index == s.tasks[c.task.id].index && c.transfer == s.transfer
    ensures StandsStill(s, Put(s, c))
  {
  }

  lemma FrozenFailed(s: State, k: nat, error: Reason)
    requires Inv(s) && Frozen(s.status) && Frozen(HandleFailed(s, k, error).state.status)
    ensures var o := HandleFailed(s, k, error);
            StandsStill(s, o.state) && forall j :: j in o.emitted ==> Reissue(o.state.exec, j)
  {
    if s.exec.IsOpen(k) {
      FailedCases(s, k, error);
      if Retries(s, k, error) {
        RetryStandsStill(s, k, error, HandleFailed(s, k, error));
      }
    }
  }

  lemma LandedStandsStill(s: State, k: nat, o: Outcome)
    requires Wf(s) && s.exec.IsOpen(k) && s.exec.commands[k].task in s.tasks && o == Outcome(Landed(s, k), [])
    ensures StandsStill(s, o.state) && o.emitted == []
  {
    PutStandsStill(s, Landing(s, k));
  }

  lemma FrozenCompleted(s: State, k: nat)
    requires Inv(s) && Frozen(s.status)
    ensures var o := HandleCompleted(s, k);
            StandsStill(s, o.state) && o.emitted == []
  {
    if s.exec.IsOpen(k) {
      OpenIsActive(s, k);
      CompletedCases(s, k);
      LandedStandsStill(s, k, HandleCompleted(s, k));
    }
  }

  /** The state after a cancellation, with the task's status as `t`. */
  lemma EndStandsStill(s: State, k: nat, reason: Reason, t: TaskStatus)
    requires Wf(s) && s.exec.IsOpen(k)
    ensures var c := Ended(s, k, CommandStatus.CANCELLED, Some(reason), false);
            var s' := Put(s, c.(task := c.task.(status := t)));
            && Wf(s') && StandsStill(s, s') && s'.status == s.status
            && (Frozen(s.status) ==> Advance(s') == Outcome(s', []))
  {
    var c := Ended(s, k, CommandStatus.CANCELLED, Some(reason), false);
    MarkWf(s.n, s.exec, k, CommandStatus.CANCELLED, Some(reason));
    PutWf(s, c.(task := c.task.(status := t)));
    PutStandsStill(s, c.(task := c.task.(status := t)));
  }

  lemma FailStandsStill(s: State, k: nat, reason: Reason)
    requires Wf(s) && s.exec.IsOpen(k)
    ensures var c := Ended(s, k, CommandStatus.CANCELLED, Some(reason), false);
            && ExecWf(s.n, c.exec) && StandsStill(s, FailTask(s, c, s.exec.commands[k], reason))
            && FailTask(s, c, s.exec.commands[k], reason).status == MissionStatus.FAILED
  {
    MarkWf(s.n, s.exec, k, CommandStatus.CANCELLED, Some(reason));
  }

  lemma FrozenCancelled(s: State, k: nat, reason: Reason)
    requires Inv(s) && Frozen(s.status)
    ensures var o := HandleCancelled(s, k, reason);
            StandsStill(s, o.state) && o.emitted == []
  {
    if s.exec.IsOpen(k) {
      FrozenRelease(s, k, reason);
    }
  }

  lemma FrozenRelease(s: State, k: nat, reason: Reason)
    requires Inv(s) && Frozen(s.status) && s.exec.IsOpen(k)
    ensures var o := HandleCancelled(s, k, reason);
            && StandsStill(s, o.state) && o.emitted == []
            && o.state.status == if Spares(reason) then s.status else MissionStatus.FAILED
  {
    OpenIsActive(s, k);
    CancelledCases(s, k, reason);
    if reason == OperatorPause || reason == OperatorRobotPause {
      EndStandsStill(s, k, reason, TaskStatus.RUNNING);
    } else if reason == OperatorAbort {
      EndStandsStill(s, k, reason, TaskStatus.CANCELLED);
    } else {
      FailStandsStill(s, k, reason);
    }
  }

  lemma FrozenStep(s: State, e: Event)
    requires Inv(s) && Frozen(s.status) && Frozen(Step(s, e).state.status)
    ensures var o := Step(s, e);
            StandsStill(s, o.state) && forall k :: k in o.emitted ==> Reissue(o.state.exec, k)
  {
    match e
    case Completed(k) => FrozenCompleted(s, k);
    case Failed(k, error) => FrozenFailed(s, k, error);
    case Cancelled(k, reason) => FrozenCancelled(s, k, reason);
    case ResumeRequested =>
      if s.status == PAUSED {
        StatusKeepsInvariant(s, MissionStatus.RUNNING);
        Emission.AdvanceEmits(s.(status := MissionStatus.RUNNING));
      }
    case AbortRequested => AbortStandsStill(s);
    case _ =>
  }

  lemma AbortStandsStill(s: State)
    requires Wf(s)
    ensures StandsStill(s, HandleAbort(s).state) && HandleAbort(s).emitted == []
  {
  }

  /** A result that fails its task, and with it the mission. */
  predicate FailsTask(s: State, e: Event)
    requires Wf(s)
  {
    match e
    case Failed(k, error) => s.exec.IsOpen(k) && !Retries(s, k, error)
    case Cancelled(k, reason) => s.exec.IsOpen(k) && !Spares(reason)
    case _ => false
  }

  predicate RetriesMove(s: State, e: Event)
    requires Wf(s)
  {
    e.Failed? && s.exec.IsOpen(e.command) && Retries(s, e.command, e.error)
  }

  lemma FrozenResult(s: State, e: Event)
    requires Inv(s) && Frozen(s.status) && About(e).Some? && s.exec.IsOpen(About(e).value)
    ensures (Step(s, e).emitted != [] <==> RetriesMove(s, e))
    ensures Step(s, e).state.status == if FailsTask(s, e) then MissionStatus.FAILED else s.status
  {
    var k := About(e).value;
    OpenIsActive(s, k);
    match e
    case Completed(_) =>
      FrozenCompleted(s, k);
      CompletedCases(s, k);
      LandedFrame(s, k);
    case Failed(_, error) =>
      FailedCases(s, k, error);
    case Cancelled(_, reason) => FrozenRelease(s, k, reason);
  }

  /** A paused mission is not entirely silent, and an aborted one is not entirely over.
      Exactly: short of a resume, a command is emitted if and only if an unverified move is
      retried, and PAUSED or ABORTED is left if and only if a result fails its task. */
  lemma FrozenExactly(s: State, e: Event)
    requires Inv(s) && Frozen(s.status) && !(e == ResumeRequested && s.status == PAUSED)
    ensures (Step(s, e).emitted != [] <==> RetriesMove(s, e))
    ensures Step(s, e).state.status ==
            if FailsTask(s, e) then MissionStatus.FAILED
            else if e == AbortRequested then ABORTED
            else s.status
  {
    if About(e).Some? && s.exec.IsOpen(About(e).value) {
      FrozenResult(s, e);
    }
  }

  /** From the start on and after every event of the stretch the mission is paused or aborted. */
  predicate FrozenThroughout(s: State, events: seq<Event>)
    requires Wf(s)
  {
    && Frozen(Run(s, events).state.status)
    && (events != [] ==> FrozenThroughout(s, events[..|events| - 1]))
  }

  /** While the mission is paused or aborted, also where a pause turns into an abort, no tree
      index, lease, occupancy or buffer entry changes, and the only commands emitted repeat
      unverified moves. */
  lemma {:induction false} FrozenMission(s: State, events: seq<Event>)
    requires Inv(s) && FrozenThroughout(s, events)
    ensures var o := Run(s, events);
            StandsStill(s, o.state) && forall k :: k in o.emitted ==> Reissue(o.state.exec, k)
  {
    if events != [] {
      var init, last := events[..|events| - 1], events[|events| - 1];
      FrozenMission(s, init);
      RunEvolves(s, init);
      var mid := Run(s, init);
      FrozenStep(mid.state, last);
      StepEvolves(mid.state, last);
      forall k | k in mid.emitted
        ensures Reissue(Run(s, events).state.exec, k)
      {
        ReissueLasts(mid.state.exec, Step(mid.state, last).state.exec, k);
      }
    }
  }

  /** Command `k` is over and has had its effect: the robot is where it went, the package
      is where it was put. */
  predicate Applies(s: State, k: nat, s': State)
    requires k in s.exec.commands
  {
    var cmd := s.exec.commands[k];
    && !s'.exec.IsOpen(k)
    && cmd.task in s'.tasks && s'.tasks[cmd.task].active == None
    && cmd.robot in s'.robots && cmd.robot in s.robots && cmd.task.item in s'.items
    && match cmd.kind
       case MoveRobot(w) => s'.robots[cmd.robot].location == w && s'.items == s.items
       case HandleItem(q, handling) =>
         && q == cmd.task.item && s'.robots[cmd.robot].location == s.robots[cmd.robot].location
         && if handling == Load then s'.items[q].carriedBy == Some(cmd.robot)
            else s'.items[q] == Package(EndpointOf(cmd.task.leg, Dropoff), None)
  }

  /** A result received while the mission or the robot is held is not lost. */
  lemma FrozenCompletionApplies(s: State, k: nat)
    requires Inv(s) && s.exec.IsOpen(k) && (Frozen(s.status) || s.robots[s.exec.commands[k].robot].paused)
    ensures var s', cmd := Step(s, Completed(k)).state, s.exec.commands[k];
            && Applies(s, k, s')
            && s'.tasks[cmd.task].status == if s.status == PAUSED || s.robots[cmd.robot].paused then TaskStatus.RUNNING
                                            else TaskStatus.CANCELLED
  {
    OpenIsActive(s, k);
    CompletedCases(s, k);
    LandedApplies(s, k);
    LandedIsPut(s, k);
  }

  lemma LandedApplies(s: State, k: nat)
    requires Inv(s) && s.exec.IsOpen(k)
    ensures Applies(s, k, Landed(s, k))
  {
    var id := s.exec.commands[k].task;
    OpenIsActive(s, k);
    ViewOk(s, id);
    PutApplies(s, k, Landing(s, k));
  }

  lemma PutApplies(s: State, k: nat, d: Ctx)
    requires Wf(s) && s.exec.IsOpen(k) && s.exec.commands[k].task in s.tasks && d.task.id == s.exec.commands[k].task
    requires d.task.active == None && !d.exec.IsOpen(k)
    requires var cmd, c := s.exec.commands[k], View(s, s.exec.commands[k].task);
             match cmd.kind
             case MoveRobot(w) => d.robot.location == w && d.item == c.item
             case HandleItem(q, handling) =>
               && q == c.task.id.item && d.robot.location == c.robot.location
               && if handling == Load then d.item.carriedBy == Some(cmd.robot)
                  else d.item == Package(c.task.At(Dropoff), None)
    ensures Applies(s, k, Put(s, d))
  {
    assert Put(s, d).items == s.items[d.task.id.item := d.item];
  }

  // ----- Paused robot -----

  /** The lease as far as `robot` is concerned, and whether it counts as inside the zone. */
  function ZoneOf(s: State, robot: RobotId): (Option<Lease>, bool) {
    (if s.transfer.lease.Some? && s.transfer.lease.value.actor == robot then s.transfer.lease else None,
     robot in s.transfer.robotOccupancy)
  }

  ghost predicate Isolated(robot: RobotId, s: State, s': State) {
    && robot in s.robots && robot in s'.robots && s.robots[robot].paused && s'.robots[robot].paused
    && (forall id :: id in s.tasks && RobotOf(id.leg) == robot ==>
          id in s'.tasks && s'.tasks[id].index == s.tasks[id].index)
    && ZoneOf(s', robot) == ZoneOf(s, robot)
    && (forall k :: k in s'.exec.commands && k !in s.exec.commands && s'.exec.commands[k].robot == robot ==>
          Reissue(s'.exec, k))
  }

  lemma InsideHoldsLease(s: State, robot: RobotId)
    requires Inv(s) && robot in s.transfer.robotOccupancy
    ensures s.transfer.lease.Some? && s.transfer.lease.value.actor == robot
  {
    assert s.transfer.lease.Some? ==> TaskAt(s, s.transfer.lease.value.task);
  }

  /** Ticking a task of the other robot leaves this robot's share of the zone alone. */
  lemma OtherTickIsolates(robot: RobotId, s: State, id: TaskId, t: Task)
    requires Inv(s) && robot in s.robots && s.robots[robot].paused && MayRun(s, id, t) && RobotOf(id.leg) != robot
    ensures Isolated(robot, s, RunTask(s, id, t).state)
  {
    var s' := RunTask(s, id, t).state;
    ViewOk(s, id);
    var c := View(s, id).(task := t);
    TickKeepsInvariant(c, s.tasks[Sibling(id)]);
    RunTaskKeepsInvariant(s, id, t);
    ZoneKeptFor(robot, s, s', id);
    OtherTickFrame(robot, s, id, t);
  }

  lemma OtherTickFrame(robot: RobotId, s: State, id: TaskId, t: Task)
    requires Wf(s) && robot in s.robots && id in s.tasks && RobotOf(id.leg) != robot && t.id == id
    ensures var s' := RunTask(s, id, t).state;
            && robot in s'.robots && s'.robots[robot] == s.robots[robot]
            && (forall x :: x in s.tasks && RobotOf(x.leg) == robot ==> x in s'.tasks && s'.tasks[x] == s.tasks[x])
            && (forall k :: k in s'.exec.commands && k !in s.exec.commands ==> s'.exec.commands[k].robot != robot)
  {
    TickExec(View(s, id).(task := t));
  }

  lemma ZoneKeptFor(robot: RobotId, s: State, s': State, id: TaskId)
    requires Inv(s) && Inv(s') && id in s.tasks && RobotOf(id.leg) != robot
    requires TransferRel(id, s.transfer, s'.transfer)
    ensures ZoneOf(s', robot) == ZoneOf(s, robot)
  {
    if robot in s.transfer.robotOccupancy {
      InsideHoldsLease(s, robot);
    }
    if robot in s'.transfer.robotOccupancy {
      InsideHoldsLease(s', robot);
    }
  }

  lemma RetryIsolates(robot: RobotId, s: State, k: nat, reason: Reason)
    requires Inv(s) && s.exec.IsOpen(k) && Retries(s, k, reason) && robot in s.robots && s.robots[robot].paused
    ensures Isolated(robot, s, Put(s, Retried(s, k, reason)))
  {
    var c := Retried(s, k, reason);
    RetryReissues(s, k, reason);
    PutIsolates(robot, s, c, s.status);
    assert Put(s, c) == Put(s, c).(status := s.status);
  }

  lemma PutIsolates(robot: RobotId, s: State, c': Ctx, status: MissionStatus)
    requires Wf(s) && c'.task.id in s.tasks && robot in s.robots && s.robots[robot].paused
    requires c'.transfer == s.transfer && c'.task.index == s.tasks[c'.task.id].index
    requires c'.robot.paused == s.robots[RobotOf(c'.task.id.leg)].paused
    requires forall k :: k in c'.exec.commands && k !in s.exec.commands ==> Reissue(c'.exec, k)
    ensures Isolated(robot, s, Put(s, c').(status := status))
  {
  }

  lemma EndIsolates(robot: RobotId, s: State, m: Micro)
    requires Wf(s) && m.End? && Enabled(s, m) && robot in s.robots && s.robots[robot].paused
    ensures Isolated(robot, s, Perform(s, m).state)
  {
    PutIsolates(robot, s, Ending(s, m), s.status);
    assert Perform(s, m).state == Put(s, Ending(s, m)).(status := s.status);
  }

  lemma FailIsolates(robot: RobotId, s: State, m: Micro)
    requires Wf(s) && m.Fail? && Enabled(s, m) && robot in s.robots && s.robots[robot].paused
    ensures Isolated(robot, s, Perform(s, m).state)
  {
    PutIsolates(robot, s, Failing(s, m.command, m.result, m.reason), MissionStatus.FAILED);
  }

  lemma LandedIsolates(robot: RobotId, s: State, k: nat)
    requires Wf(s) && s.exec.IsOpen(k) && robot in s.robots && s.robots[robot].paused
    ensures Isolated(robot, s, Landed(s, k))
  {
    PutIsolates(robot, s, Landing(s, k), s.status);
    assert Landed(s, k) == Put(s, Landing(s, k)).(status := s.status);
  }

  lemma LandIsolates(robot: RobotId, s: State, k: nat)
    requires Inv(s) && Enabled(s, Land(k)) && robot in s.robots && s.robots[robot].paused
    ensures Isolated(robot, s, Perform(s, Land(k)).state)
  {
    var id := s.exec.commands[k].task;
    var s1 := Landed(s, k);
    LandedKeepsInvariant(s, k);
    LandedFrame(s, k);
    LandedEvolves(s, k);
    LandedIsolates(robot, s, k);
    TickIsolates(robot, s1, id);
    IsolatedTransitive(robot, s, s1, AdvanceTask(s1, id).state);
  }

  lemma TickIsolates(robot: RobotId, s: State, id: TaskId)
    requires Inv(s) && robot in s.robots && s.robots[robot].paused
    requires id in s.tasks && RobotOf(id.leg) != robot && MayRun(s, id, s.tasks[id])
    ensures Isolated(robot, s, AdvanceTask(s, id).state) && Evolves(s, AdvanceTask(s, id).state)
  {
    OtherTickIsolates(robot, s, id, s.tasks[id]);
    RunTaskEvolves(s, id, s.tasks[id]);
  }

  lemma StatusIsolates(robot: RobotId, s: State, m: Micro)
    requires Wf(s) && Enabled(s, m) && robot in s.robots && s.robots[robot].paused
    requires m.SetMission? || m.AbortAll? || (m.SetPause? && m != SetPause(robot, false))
    ensures Isolated(robot, s, Perform(s, m).state)
  {
  }

  lemma PerformIsolates(robot: RobotId, s: State, m: Micro)
    requires Inv(s) && Enabled(s, m) && robot in s.robots && s.robots[robot].paused && m != SetPause(robot, false)
    ensures Isolated(robot, s, Perform(s, m).state)
  {
    match m
    case Tick(id) => OtherTickIsolates(robot, s, id, s.tasks[id]);
    case Start(id) =>
      ScheduledInOrder(s, id);
      OtherTickIsolates(robot, s, id, s.tasks[id].(status := TaskStatus.RUNNING, phase := ACQUIRE_PICKUP));
    case Land(k) => LandIsolates(robot, s, k);
    case End(_, _, _, _) => EndIsolates(robot, s, m);
    case Fail(_, _, _) => FailIsolates(robot, s, m);
    case Retry(k, reason) => RetryIsolates(robot, s, k, reason);
    case _ => StatusIsolates(robot, s, m);
  }

  lemma IsolatedTransitive(robot: RobotId, a: State, b: State, c: State)
    requires Isolated(robot, a, b) && Isolated(robot, b, c) && Evolves(a, b) && Evolves(b, c)
    ensures Isolated(robot, a, c)
  {
    forall k | k in c.exec.commands && k !in a.exec.commands && c.exec.commands[k].robot == robot
      ensures Reissue(c.exec, k)
    {
      if k in b.exec.commands {
        assert b.exec.commands[k].robot == robot;
        ReissueLasts(b.exec, c.exec, k);
      }
    }
  }

  lemma {:induction false} PerformAllIsolates(robot: RobotId, s: State, ms: seq<Micro>)
    requires Inv(s) && AllEnabled(s, ms) && robot in s.robots && s.robots[robot].paused
    requires SetPause(robot, false) !in ms
    ensures Isolated(robot, s, PerformAll(s, ms).state)
    decreases |ms|
  {
    if ms != [] {
      var mid := Perform(s, ms[0]).state;
      PerformIsolates(robot, s, ms[0]);
      PerformEvolves(s, ms[0]);
      PerformKeepsInvariant(s, ms[0]);
      PerformAllIsolates(robot, mid, ms[1..]);
      PerformAllEvolves(mid, ms[1..]);
      IsolatedTransitive(robot, s, mid, PerformAll(s, ms).state);
    }
  }

  lemma StepIsolates(robot: RobotId, s: State, e: Event)
    requires Inv(s) && robot in s.robots && s.robots[robot].paused && e != RobotResumeRequested(robot)
    ensures Isolated(robot, s, Step(s, e).state)
  {
    var ms := PlanStep(s, e);
    PerformAllIsolates(robot, s, ms);
  }

  /** From pause to resume of one robot, whatever else happens: its tasks' indices, its
      lease and its occupancy stay as they are, and the only commands created for it
      repeat moves whose arrival was not verified. */
  lemma {:induction false} PausedRobotIsIsolated(robot: RobotId, s: State, events: seq<Event>)
    requires Inv(s) && robot in s.robots && s.robots[robot].paused && RobotResumeRequested(robot) !in events
    ensures Isolated(robot, s, Run(s, events).state)
  {
    if events != [] {
      var init, last := events[..|events| - 1], events[|events| - 1];
      PausedRobotIsIsolated(robot, s, init);
      RunEvolves(s, init);
      var mid := Run(s, init).state;
      assert last in events;
      StepIsolates(robot, mid, last);
      StepEvolves(mid, last);
      IsolatedTransitive(robot, s, mid, Step(mid, last).state);
    }
  }
}
