/** A mission that was paused, resumed, retried and cancelled, but not aborted: as long as it
    is running it can be brought to go on. */
module Resumption {
  import opened Domain
  import opened BehaviorTree
  import opened LocalInvariant
  import opened Mission
  import opened Invariant
  import opened StepProof
  import opened Outcomes
  import opened MicroSteps
  import opened Progress
  import opened Asking
  import opened Delivery
  import opened Safety
  import Emission

  /** Events that drop no task: all but aborts. */
  predicate Unaborted(e: Event) {
    e != AbortRequested && !(e.Cancelled? && e.reason == OperatorAbort)
  }

  /** Unless it has failed, the mission has all its tasks. */
  ghost predicate Kept(s: State) {
    && Inv(s) && s.status != ABORTED
    && (s.status != MissionStatus.FAILED ==> AllGoing(s))
  }

  lemma RunTaskKeepsGoing(s: State, id: TaskId, t: Task)
    requires Inv(s) && AllGoing(s) && MayRun(s, id, t) && (t.index < TREE_SIZE ==> Active(t))
    ensures AllGoing(RunTask(s, id, t).state)
  {
    var c := View(s, id).(task := t);
    RunTaskChanges(s, id, t);
    TickedActive(c, s.tasks[Sibling(id)]);
    PutWf(s, TickTree(c).ctx);
    PutKeepsGoing(s, TickTree(c).ctx);
  }

  lemma TickedActive(c: Ctx, sib: Task)
    requires CtxOk(c, sib) && (c.task.index < TREE_SIZE ==> Active(c.task))
    ensures Owns(TickTree(c).ctx.task) ==> Active(TickTree(c).ctx.task)
  {
    if c.task.index < TREE_SIZE {
      TickKeepsActive(c, sib);
    }
  }

  lemma SameTasksGoing(s: State, s': State)
    requires Wf(s) && Wf(s') && s'.n == s.n && s'.tasks == s.tasks && AllGoing(s)
    ensures AllGoing(s')
  {
    forall id | id in s'.tasks
      ensures Going(s', id)
    {
      assert Going(s, id);
    }
  }

  lemma TickKept(s: State, id: TaskId)
    requires Inv(s) && AllGoing(s) && Enabled(s, Tick(id))
    ensures AllGoing(AdvanceTask(s, id).state)
  {
    assert Going(s, id) && TaskAt(s, id);
    RunTaskKeepsGoing(s, id, s.tasks[id]);
  }

  lemma StartKept(s: State, id: TaskId)
    requires Inv(s) && AllGoing(s) && NextReady(s) == Some(id)
    ensures AllGoing(Mission.StartTask(s, id).state)
  {
    ScheduledInOrder(s, id);
    RunTaskKeepsGoing(s, id, s.tasks[id].(status := TaskStatus.RUNNING, phase := ACQUIRE_PICKUP));
  }

  lemma {:induction false} MovesKept(s: State, ms: seq<Micro>)
    requires Inv(s) && AllGoing(s) && AllEnabled(s, ms) && forall m :: m in ms ==> Moves(m)
    ensures AllGoing(PerformAll(s, ms).state)
    decreases |ms|
  {
    if ms != [] {
      assert ms[0] in ms;
      PerformKeepsInvariant(s, ms[0]);
      match ms[0] {
        case Tick(id) => TickKept(s, id);
        case Start(id) => StartKept(s, id);
        case SetMission(_) => SameTasksGoing(s, Perform(s, ms[0]).state);
      }
      MovesKept(Perform(s, ms[0]).state, ms[1..]);
    }
  }

  lemma AdvanceKept(s: State)
    requires Inv(s) && AllGoing(s) && s.status != ABORTED
    ensures Kept(Advance(s).state)
  {
    var ms := PlanAdvance(s);
    MovesKept(s, ms);
    AdvanceKeepsInvariant(s);
    AdvancePauses(s);
  }

  lemma StartNextKept(s: State, emitted: seq<nat>)
    requires Inv(s) && AllGoing(s) && s.status != ABORTED
    ensures Kept(StartNext(s, emitted).state)
  {
    StartNextKeepsInvariant(s, emitted);
    StartNextPauses(s, emitted);
    if NextReady(s).Some? {
      StartKept(s, NextReady(s).value);
    }
  }

  lemma FollowKept(s: State, id: TaskId)
    requires Inv(s) && AllGoing(s) && id in s.tasks && Owns(s.tasks[id])
    requires s.status != ABORTED && s.status != COMPLETED
    ensures Kept(Follow(s, id).state)
  {
    assert Going(s, id);
    RunTaskKeepsGoing(s, id, s.tasks[id]);
    RunTaskKeepsInvariant(s, id, s.tasks[id]);
    RunTaskPauses(s, id, s.tasks[id]);
    var o := AdvanceTask(s, id);
    if o.emitted != [] {
      StartNextKept(o.state, o.emitted);
    } else {
      AdvanceKept(o.state);
    }
  }

  // ----- Results -----

  lemma LandedKept(s: State, k: nat)
    requires Inv(s) && AllGoing(s) && s.exec.IsOpen(k) && s.status != ABORTED
    ensures AllGoing(Landed(s, k))
  {
    var id := s.exec.commands[k].task;
    OpenIsActive(s, k);
    assert Going(s, id);
    LandedIsPut(s, k);
    LandingFrame(s, k);
    PutKeepsGoing(s, Landing(s, k));
  }

  lemma OpenOwns(s: State, k: nat)
    requires Inv(s) && s.exec.IsOpen(k)
    ensures var id := s.exec.commands[k].task;
            id in s.tasks && Owns(s.tasks[id]) && s.status != COMPLETED
  {
    OpenIsActive(s, k);
    assert TaskAt(s, s.exec.commands[k].task);
  }

  /** In a mission that has not failed. */
  lemma CompletedKept(s: State, k: nat)
    requires Inv(s) && AllGoing(s) && s.exec.IsOpen(k) && s.status != ABORTED
    ensures Kept(HandleCompleted(s, k).state)
  {
    OpenIsActive(s, k);
    CompletedCases(s, k);
    LandedKept(s, k);
    OpenOwns(s, k);
    LandedKeepsInvariant(s, k);
    LandedFrame(s, k);
    if !Held(s, k) {
      FollowKept(Landed(s, k), s.exec.commands[k].task);
    }
  }

  lemma RetryKept(s: State, k: nat, reason: Reason)
    requires Inv(s) && AllGoing(s) && s.exec.IsOpen(k) && s.exec.commands[k].kind.MoveRobot?
    ensures Wf(Put(s, Retried(s, k, reason))) && AllGoing(Put(s, Retried(s, k, reason)))
  {
    var c := Retried(s, k, reason);
    OpenIsActive(s, k);
    RetryKeepsInvariant(s, k, reason);
    PutKeepsGoing(s, c);
  }

  lemma FailedKept(s: State, k: nat, error: Reason)
    requires Inv(s) && AllGoing(s) && s.exec.IsOpen(k) && s.status != ABORTED
    ensures Kept(HandleFailed(s, k, error).state)
  {
    FailedCases(s, k, error);
    FailedKeepsInvariant(s, k, error);
    if Retries(s, k, error) {
      RetryKept(s, k, error);
    }
  }

  lemma ReleasedKept(s: State, k: nat, reason: Reason)
    requires Inv(s) && AllGoing(s) && s.exec.IsOpen(k) && s.status != ABORTED
    ensures var c := Ended(s, k, CommandStatus.CANCELLED, Some(reason), false);
            var s' := Put(s, c.(task := c.task.(status := TaskStatus.RUNNING)));
            Inv(s') && AllGoing(s') && s'.status == s.status
  {
    var c := Ended(s, k, CommandStatus.CANCELLED, Some(reason), false);
    OpenIsActive(s, k);
    EndedKeepsInvariant(s, k, CommandStatus.CANCELLED, Some(reason), false, TaskStatus.RUNNING);
    PutKeepsGoing(s, c.(task := c.task.(status := TaskStatus.RUNNING)));
  }

  lemma CancelledKept(s: State, k: nat, reason: Reason)
    requires Inv(s) && AllGoing(s) && s.exec.IsOpen(k) && s.status != ABORTED && reason != OperatorAbort
    ensures Kept(HandleCancelled(s, k, reason).state)
  {
    OpenIsActive(s, k);
    CancelledCases(s, k, reason);
    CancelledKeepsInvariant(s, k, reason);
    if reason == OperatorPause || reason == OperatorRobotPause {
      ReleasedKept(s, k, reason);
      var c := Ended(s, k, CommandStatus.CANCELLED, Some(reason), false);
      AdvanceKept(Put(s, c.(task := c.task.(status := TaskStatus.RUNNING))));
    }
  }

  lemma ResultKept(s: State, e: Event)
    requires Inv(s) && AllGoing(s) && s.status != ABORTED && Unaborted(e)
    requires e.Completed? || e.Failed? || e.Cancelled?
    ensures Kept(Step(s, e).state)
  {
    if s.exec.IsOpen(e.command) {
      match e
      case Completed(k) => CompletedKept(s, k);
      case Failed(k, error) => FailedKept(s, k, error);
      case Cancelled(k, reason) => CancelledKept(s, k, reason);
    }
  }

  // ----- Requests -----

  lemma RunningKept(s: State)
    requires Inv(s) && AllGoing(s) && (s.status == READY || s.status == PAUSED)
    ensures Kept(Advance(s.(status := MissionStatus.RUNNING)).state)
  {
    StatusKeepsInvariant(s, MissionStatus.RUNNING);
    SameTasksGoing(s, s.(status := MissionStatus.RUNNING));
    AdvanceKept(s.(status := MissionStatus.RUNNING));
  }

  lemma RobotKept(s: State, robot: RobotId, paused: bool)
    requires Inv(s) && AllGoing(s) && robot in s.robots && s.status != ABORTED
    ensures Kept(SetPaused(s, robot, paused)) && Kept(Advance(SetPaused(s, robot, paused)).state)
  {
    PauseKeepsInvariant(s, robot, paused);
    SameTasksGoing(s, SetPaused(s, robot, paused));
    AdvanceKept(SetPaused(s, robot, paused));
  }

  lemma GoingKept(s: State, e: Event)
    requires Inv(s) && AllGoing(s) && s.status != ABORTED && Unaborted(e)
    ensures Kept(Step(s, e).state)
  {
    match e
    case StartRequested =>
      if s.status == READY {
        RunningKept(s);
      } else {
        AdvanceKept(s);
      }
    case ResumeRequested =>
      if s.status == PAUSED {
        RunningKept(s);
      }
    case RobotPauseRequested(robot) =>
      if robot in s.robots {
        RobotKept(s, robot, true);
      }
    case RobotResumeRequested(robot) =>
      if robot in s.robots {
        RobotKept(s, robot, false);
      }
    case PauseRequested =>
      if s.status == MissionStatus.RUNNING {
        StatusKeepsInvariant(s, PAUSED);
        SameTasksGoing(s, s.(status := PAUSED));
      }
    case Unrecognised =>
    case _ => ResultKept(s, e);
  }

  /** A failed mission stays failed, short of an abort. */
  lemma FailureKept(s: State, e: Event)
    requires Inv(s) && s.status == MissionStatus.FAILED && Unaborted(e)
    ensures Step(s, e).state.status == MissionStatus.FAILED
  {
    if About(e).Some? && s.exec.IsOpen(About(e).value) {
      FailedResult(s, e);
    }
  }

  lemma FailedResult(s: State, e: Event)
    requires Inv(s) && s.status == MissionStatus.FAILED && Unaborted(e)
    requires About(e).Some? && s.exec.IsOpen(About(e).value)
    ensures Step(s, e).state.status == MissionStatus.FAILED
  {
    var k := About(e).value;
    OpenIsActive(s, k);
    match e
    case Completed(_) => FailedCompletion(s, k);
    case Failed(_, error) => FailedCases(s, k, error);
    case Cancelled(_, reason) => FailedCancellation(s, k, reason);
  }

  lemma FailedCompletion(s: State, k: nat)
    requires Inv(s) && s.status == MissionStatus.FAILED && s.exec.IsOpen(k)
    ensures HandleCompleted(s, k).state.status == MissionStatus.FAILED
  {
    OpenIsActive(s, k);
    CompletedCases(s, k);
    LandedFrame(s, k);
    FollowPauses(Landed(s, k), s.exec.commands[k].task);
  }

  lemma FailedCancellation(s: State, k: nat, reason: Reason)
    requires Inv(s) && s.status == MissionStatus.FAILED && s.exec.IsOpen(k)
    ensures HandleCancelled(s, k, reason).state.status == MissionStatus.FAILED
  {
    if Spares(reason) {
      ReleaseExactly(s, k, reason);
    } else {
      CancelledFails(s, k, reason);
    }
  }

  lemma StepKept(s: State, e: Event)
    requires Kept(s) && Unaborted(e)
    ensures Kept(Step(s, e).state)
  {
    StepKeepsInvariant(s, e);
    if s.status == MissionStatus.FAILED {
      FailureKept(s, e);
    } else {
      GoingKept(s, e);
    }
  }

  lemma InitialKept(n: nat, maxRetries: int)
    ensures Kept(Initial(n, maxRetries))
  {
    var s := Initial(n, maxRetries);
    InitialInvariant(n, maxRetries);
    forall id | id in s.tasks
      ensures Going(s, id)
    {
    }
  }

  lemma {:induction false} RunKept(n: nat, maxRetries: int, events: seq<Event>)
    requires forall e :: e in events ==> Unaborted(e)
    ensures Kept(Run(Initial(n, maxRetries), events).state)
  {
    if events == [] {
      InitialKept(n, maxRetries);
    } else {
      RunKept(n, maxRetries, events[..|events| - 1]);
      assert events[|events| - 1] in events;
      StepKept(Run(Initial(n, maxRetries), events[..|events| - 1]).state, events[|events| - 1]);
    }
  }

  /** Bringing a mission to go on: from any running state with nothing outstanding, no robot
      paused and no task dropped, a start request emits a command, or completes the mission,
      or leaves every task at its end, and then the next one completes it. */
  lemma StartGoesOn(s: State)
    requires Interrupted(s)
    ensures var o := Step(s, StartRequested);
            || o.emitted != []
            || o.state.status == COMPLETED
            || (&& (forall id :: id in o.state.tasks ==> o.state.tasks[id].index == TREE_SIZE)
                && Step(o.state, StartRequested).state.status == COMPLETED)
  {
    InterruptedGoesOn(s);
    AdvanceKeepsInvariant(s);
    Emission.AdvanceEmits(s);
    var s' := Advance(s).state;
    if s'.status != COMPLETED && forall id :: id in s'.tasks ==> s'.tasks[id].index == TREE_SIZE {
      EndCompletes(s');
    }
  }

  lemma EndCompletes(s: State)
    requires Inv(s) && s.status == MissionStatus.RUNNING
    requires forall id :: id in s.tasks ==> s.tasks[id].index == TREE_SIZE
    ensures HandleStart(s).state.status == COMPLETED
  {
    forall id | id in s.tasks
      ensures s.tasks[id].status == TaskStatus.SUCCEEDED
    {
      assert TaskAt(s, id);
    }
  }

  /** However a mission was paused, resumed, cancelled, failed and retried, short of an abort:
      if it is running with nothing outstanding and no robot paused, a start request gets it
      to go on. */
  lemma ResumedMissionGoesOn(n: nat, maxRetries: int, events: seq<Event>)
    requires forall e :: e in events ==> Unaborted(e)
    requires var s := Run(Initial(n, maxRetries), events).state;
             s.status == MissionStatus.RUNNING && Unpaused(s) && !Outstanding(s)
    ensures var s := Run(Initial(n, maxRetries), events).state;
            var o := Step(s, StartRequested);
            || o.emitted != []
            || o.state.status == COMPLETED
            || Step(o.state, StartRequested).state.status == COMPLETED
  {
    RunKept(n, maxRetries, events);
    StartGoesOn(Run(Initial(n, maxRetries), events).state);
  }

  // ----- Resuming -----

  /** The mission goes on: it emits a command, or is complete, or has done all there is. */
  ghost predicate GetsOn(o: Outcome) {
    || o.emitted != []
    || o.state.status == COMPLETED
    || forall id :: id in o.state.tasks ==> o.state.tasks[id].index == TREE_SIZE
  }

  lemma GettingOn(s1: State, o: Outcome)
    requires Interrupted(s1) && o == Advance(s1)
    ensures GetsOn(o)
  {
    InterruptedGoesOn(s1);
  }

  lemma ResumeMoves(s: State)
    requires Inv(s) && AllGoing(s) && s.status == PAUSED && Unpaused(s) && !Outstanding(s)
    ensures GetsOn(Step(s, ResumeRequested))
  {
    var s1 := s.(status := MissionStatus.RUNNING);
    StatusKeepsInvariant(s, MissionStatus.RUNNING);
    SameTasksGoing(s, s1);
    GettingOn(s1, Step(s, ResumeRequested));
  }

  lemma RobotResumeMoves(s: State, robot: RobotId)
    requires Inv(s) && AllGoing(s) && s.status == MissionStatus.RUNNING && !Outstanding(s)
    requires robot in s.robots && s.robots[robot].paused && Unpaused(SetPaused(s, robot, false))
    ensures GetsOn(Step(s, RobotResumeRequested(robot)))
  {
    var s1 := SetPaused(s, robot, false);
    PauseKeepsInvariant(s, robot, false);
    SameTasksGoing(s, s1);
    GettingOn(s1, Step(s, RobotResumeRequested(robot)));
  }

  lemma LateCancelMoves(s: State, k: nat)
    requires Inv(s) && AllGoing(s) && s.status == MissionStatus.RUNNING && Unpaused(s)
    requires s.exec.IsOpen(k) && forall j :: s.exec.IsOpen(j) ==> j == k
    ensures GetsOn(Step(s, Cancelled(k, OperatorRobotPause)))
  {
    OpenIsActive(s, k);
    CancelledCases(s, k, OperatorRobotPause);
    ReleasedKept(s, k, OperatorRobotPause);
    var c := Ended(s, k, CommandStatus.CANCELLED, Some(OperatorRobotPause), false);
    var s1 := Put(s, c.(task := c.task.(status := TaskStatus.RUNNING)));
    LastCancelled(s, k);
    GettingOn(s1, HandleCancelled(s, k, OperatorRobotPause));
    CancelIsHandled(s, k, OperatorRobotPause);
  }

  lemma LastCancelled(s: State, k: nat)
    requires Wf(s) && Unpaused(s) && s.exec.IsOpen(k) && forall j :: s.exec.IsOpen(j) ==> j == k
    ensures var c := Ended(s, k, CommandStatus.CANCELLED, Some(OperatorRobotPause), false);
            var s1 := Put(s, c.(task := c.task.(status := TaskStatus.RUNNING)));
            !Outstanding(s1) && Unpaused(s1)
  {
    var c := Ended(s, k, CommandStatus.CANCELLED, Some(OperatorRobotPause), false);
    var s1 := Put(s, c.(task := c.task.(status := TaskStatus.RUNNING)));
    forall j | s1.exec.IsOpen(j)
      ensures false
    {
      assert s.exec.IsOpen(j);
    }
  }

  /** The state is that of a run without an abort. */
  ghost predicate ReachedUnaborted(s: State) {
    exists n, maxRetries, events ::
      (forall e :: e in events ==> Unaborted(e)) && Run(Initial(n, maxRetries), events).state == s
  }

  lemma ReachedIsKept(s: State)
    requires ReachedUnaborted(s)
    ensures Kept(s)
  {
    var n, maxRetries, events :|
      (forall e :: e in events ==> Unaborted(e)) && Run(Initial(n, maxRetries), events).state == s;
    RunKept(n, maxRetries, events);
  }

  /** A resume gets a paused mission going, though its commands were cancelled meanwhile. */
  lemma ResumeGetsGoing(s: State)
    requires ReachedUnaborted(s) && s.status == PAUSED && Unpaused(s) && !Outstanding(s)
    ensures GetsOn(Step(s, ResumeRequested))
  {
    ReachedIsKept(s);
    ResumeMoves(s);
  }

  /** So does resuming the last paused robot of a running mission. */
  lemma RobotResumeGetsGoing(s: State, robot: RobotId)
    requires ReachedUnaborted(s) && s.status == MissionStatus.RUNNING && !Outstanding(s)
    requires robot in s.robots && s.robots[robot].paused
    requires forall r :: r in s.robots && r != robot ==> !s.robots[r].paused
    ensures GetsOn(Step(s, RobotResumeRequested(robot)))
  {
    ReachedIsKept(s);
    var s1 := SetPaused(s, robot, false);
    assert forall r :: r in s1.robots ==> !s1.robots[r].paused;
    RobotResumeMoves(s, robot);
  }

  /** And so does the cancellation of the last command, when it was for a robot pause that
      is over by then. */
  lemma LateCancelGetsGoing(s: State, k: nat)
    requires ReachedUnaborted(s) && s.status == MissionStatus.RUNNING && Unpaused(s)
    requires s.exec.IsOpen(k) && forall j :: s.exec.IsOpen(j) ==> j == k
    ensures GetsOn(Step(s, Cancelled(k, OperatorRobotPause)))
  {
    ReachedIsKept(s);
    LateCancelMoves(s, k);
  }

  predicate StatusOfIndex(t: Task) {
    if t.index == 0 then t.status == TaskStatus.PENDING
    else if t.index == TREE_SIZE then t.status == TaskStatus.SUCCEEDED
    else
      || t.status == TaskStatus.RUNNING
      || (t.status == TaskStatus.BLOCKED && t.active == None && t.index == if t.id.leg == UP then 8 else 1)
  }

  /** Short of an abort and a failure, a task's status tells where in its tree it is: before
      it, in it, blocked where it asks for the zone with no command out, or after it. */
  lemma StatusIsShown(s: State, id: TaskId)
    requires ReachedUnaborted(s) && s.status != MissionStatus.FAILED && id in s.tasks
    ensures StatusOfIndex(s.tasks[id])
  {
    ReachedIsKept(s);
    KeptStatus(s, id);
  }

  lemma KeptStatus(s: State, id: TaskId)
    requires Kept(s) && s.status != MissionStatus.FAILED && id in s.tasks
    ensures StatusOfIndex(s.tasks[id])
  {
    assert Going(s, id) && TaskAt(s, id);
  }
}
