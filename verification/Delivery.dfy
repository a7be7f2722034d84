/** A mission that nobody pauses, aborts or cancels: it is never stuck, and completing
    its commands in any order delivers everything. */
module Delivery {
  import opened Domain
  import opened BehaviorTree
  import opened TaskOrder
  import opened LocalInvariant
  import opened Mission
  import opened Invariant
  import opened StepProof
  import opened MicroSteps
  import opened Safety
  import opened Progress
  import opened Asking
  import Emission

  /** Start requests and results; a cancellation only if it counts as a failure. */
  predicate Undisturbed(e: Event) {
    match e
    case Cancelled(_, reason) => !Spares(reason)
    case PauseRequested => false
    case RobotPauseRequested(_) => false
    case AbortRequested => false
    case _ => true
  }

  // ----- An advance pauses nobody, moves no robot and handles no package -----

  ghost predicate SamePauses(s: State, s': State) {
    && (s'.status == s.status || (s.status == MissionStatus.RUNNING && s'.status == COMPLETED))
    && (forall r :: r in s.robots ==> r in s'.robots && SamePlace(s.robots[r], s'.robots[r]))
    && (forall q :: q in s.items ==> q in s'.items && s'.items[q] == s.items[q])
  }

  predicate SamePlace(r: Robot, r': Robot) {
    r'.paused == r.paused && r'.location == r.location
  }

  lemma NodeKeepsPause(node: Node, c: Ctx)
    ensures SamePlace(c.robot, TickNode(node, c).ctx.robot) && TickNode(node, c).ctx.item == c.item
  {
  }

  lemma {:induction false} TickKeepsPause(c: Ctx)
    ensures SamePlace(c.robot, TickTree(c).ctx.robot) && TickTree(c).ctx.item == c.item
    decreases TREE_SIZE - c.task.index
  {
    if c.task.index < TREE_SIZE {
      var r := TickNode(Child(c.task.index), c);
      NodeKeepsPause(Child(c.task.index), c);
      if r.success {
        TickKeepsPause(Next(r.ctx));
      }
    }
  }

  lemma RunTaskPauses(s: State, id: TaskId, t: Task)
    requires Wf(s) && id in s.tasks && t.id == id
    ensures SamePauses(s, RunTask(s, id, t).state)
  {
    TickKeepsPause(View(s, id).(task := t));
  }

  lemma StartNextPauses(s: State, emitted: seq<nat>)
    requires Wf(s)
    ensures SamePauses(s, StartNext(s, emitted).state)
  {
    match NextReady(s)
    case None =>
    case Some(id) => RunTaskPauses(s, id, s.tasks[id].(status := TaskStatus.RUNNING, phase := ACQUIRE_PICKUP));
  }

  lemma {:induction false} AdvanceFromPauses(s: State, ids: seq<TaskId>)
    requires Wf(s) && forall x :: x in ids ==> x in s.tasks
    ensures SamePauses(s, AdvanceFrom(s, ids).state)
    decreases |ids|
  {
    if ids == [] {
      StartNextPauses(s, []);
    } else {
      assert ids == [ids[0]] + ids[1..];
      if Ticks(s, ids[0]) {
        RunTaskPauses(s, ids[0], s.tasks[ids[0]]);
        var o := AdvanceTask(s, ids[0]);
        if o.emitted != [] {
          StartNextPauses(o.state, o.emitted);
        } else {
          AdvanceFromPauses(o.state, ids[1..]);
        }
        PausesThen(s, o.state, AdvanceFrom(s, ids).state);
      } else {
        AdvanceFromPauses(s, ids[1..]);
      }
    }
  }

  lemma AdvancePauses(s: State)
    requires Wf(s)
    ensures SamePauses(s, Advance(s).state)
  {
    if s.status == MissionStatus.RUNNING && !AllSucceeded(s) {
      AdvanceFromPauses(s, Ids(s.n));
    }
  }

  lemma FollowPauses(s: State, id: TaskId)
    requires Wf(s) && id in s.tasks
    ensures SamePauses(s, Follow(s, id).state)
  {
    RunTaskPauses(s, id, s.tasks[id]);
    var p := AdvanceTask(s, id);
    if p.emitted != [] {
      StartNextPauses(p.state, p.emitted);
    } else {
      AdvancePauses(p.state);
    }
    PausesThen(s, p.state, Follow(s, id).state);
  }

  lemma PausesThen(a: State, b: State, c: State)
    requires SamePauses(a, b) && SamePauses(b, c)
    ensures SamePauses(a, c)
  {
  }

  // ----- Completions -----

  lemma OthersLive(s: State, c: Ctx)
    requires Inv(s) && TasksLive(s) && c.task.id in s.tasks && Sibling(c.task.id) in s.tasks && Guarantee(s, c)
    requires Wf(Put(s, c))
    ensures forall x {:trigger TaskLive(Put(s, c), x)} :: x in s.tasks && x != c.task.id ==> TaskLive(Put(s, c), x)
  {
    forall x | x in s.tasks && x != c.task.id
      ensures TaskLive(Put(s, c), x)
    {
      assert TaskLive(s, x);
      OtherTaskLive(s, c, x);
    }
  }

  lemma LandedActive(s: State, k: nat)
    requires Inv(s) && TasksLive(s) && s.exec.IsOpen(k) && !Held(s, k)
    ensures var id := s.exec.commands[k].task;
            id in Landed(s, k).tasks && Active(Landed(s, k).tasks[id]) && Landed(s, k).tasks[id].index < TREE_SIZE
  {
    var id := s.exec.commands[k].task;
    OpenIsActive(s, k);
    LandedFrame(s, k);
    assert TaskAt(s, id) && TaskLive(s, id);
    assert Landed(s, k).tasks[id].status == s.tasks[id].status;
  }

  /** A completion and the tick that follows leave every task live. */
  lemma LandLive(s: State, k: nat)
    requires Inv(s) && TasksLive(s) && Enabled(s, Land(k)) && s.status == MissionStatus.RUNNING
    ensures TasksLive(Perform(s, Land(k)).state)
  {
    var id := s.exec.commands[k].task;
    LandedKeepsInvariant(s, k);
    LandedFrame(s, k);
    LandedActive(s, k);
    LandingChanges(s, k);
    LandedIsPut(s, k);
    OthersLive(s, Landing(s, k));
    RunTaskLive(Landed(s, k), id, Landed(s, k).tasks[id]);
  }

  lemma MakeLive(s: State)
    requires Inv(s) && Unpaused(s) && s.status != READY && !Frozen(s.status)
    requires s.status == MissionStatus.RUNNING ==> TasksLive(s) && Outstanding(s)
    ensures Live(s)
  {
  }

  lemma PausesKept(s: State, s': State)
    requires Wf(s) && Wf(s') && SamePauses(s, s') && Unpaused(s)
    ensures Unpaused(s')
  {
  }

  lemma AdvanceIsLive(s: State)
    requires Inv(s) && TasksLive(s) && Unpaused(s) && s.status == MissionStatus.RUNNING
    ensures var s' := Advance(s).state;
            Live(s') && (s'.status == MissionStatus.RUNNING || s'.status == COMPLETED)
  {
    AdvanceLive(s);
    AdvanceUnpaused(s);
    AdvanceKeepsInvariant(s);
    MakeLive(Advance(s).state);
  }

  lemma AdvanceUnpaused(s: State)
    requires Wf(s) && Unpaused(s)
    ensures Unpaused(Advance(s).state)
  {
    AdvancePauses(s);
    PausesKept(s, Advance(s).state);
  }

  lemma StartNextIsLive(s: State, emitted: seq<nat>)
    requires Inv(s) && TasksLive(s) && Unpaused(s) && s.status == MissionStatus.RUNNING && Outstanding(s)
    ensures var s' := StartNext(s, emitted).state;
            Live(s') && s'.status == MissionStatus.RUNNING
  {
    StartNextLive(s, emitted);
    StartNextKeepsOpen(s, emitted);
    StartNextPauses(s, emitted);
    StartNextKeepsInvariant(s, emitted);
    PausesKept(s, StartNext(s, emitted).state);
    MakeLive(StartNext(s, emitted).state);
  }

  lemma FollowLive(s: State, k: nat)
    requires Inv(s) && TasksLive(s) && Unpaused(s) && s.status == MissionStatus.RUNNING && Enabled(s, Land(k))
    requires s.exec.commands[k].task in Landed(s, k).tasks
    ensures var s' := Follow(Landed(s, k), s.exec.commands[k].task).state;
            Live(s') && (s'.status == MissionStatus.RUNNING || s'.status == COMPLETED)
  {
    var m := Land(k);
    var o := Perform(s, m);
    LandLive(s, k);
    LandKeepsInvariant(s, k);
    LandStatus(s, k);
    LandedUnpaused(s, k);
    var s1, id := Landed(s, k), s.exec.commands[k].task;
    RunTaskPauses(s1, id, s1.tasks[id]);
    PausesKept(s1, AdvanceTask(s1, id).state);
    if o.emitted != [] {
      LandEmitsOpen(s, k);
      StartNextIsLive(o.state, o.emitted);
    } else {
      AdvanceIsLive(o.state);
    }
  }

  lemma LandedUnpaused(s: State, k: nat)
    requires Wf(s) && Unpaused(s) && s.exec.IsOpen(k) && s.exec.commands[k].task in s.tasks
    ensures Wf(Landed(s, k)) && Unpaused(Landed(s, k))
  {
    LandedFrame(s, k);
  }

  /** Completing an outstanding command of a live running mission. */
  lemma CompletionLive(s: State, k: nat)
    requires Inv(s) && TasksLive(s) && Unpaused(s) && s.status == MissionStatus.RUNNING && s.exec.IsOpen(k)
    ensures var s' := HandleCompleted(s, k).state;
            && Live(s') && (s'.status == MissionStatus.RUNNING || s'.status == COMPLETED)
            && s.exec.commands[k].task in Landed(s, k).tasks
            && HandleCompleted(s, k) == Follow(Landed(s, k), s.exec.commands[k].task)
  {
    OpenLands(s, k);
    CompletedCases(s, k);
    FollowLive(s, k);
  }

  lemma LandEmitsOpen(s: State, k: nat)
    requires Inv(s) && Enabled(s, Land(k)) && Perform(s, Land(k)).emitted != []
    ensures Outstanding(Perform(s, Land(k)).state)
  {
    var id := s.exec.commands[k].task;
    var s1 := Landed(s, k);
    LandedFrame(s, k);
    Emission.RunTaskEmits(s1, id, s1.tasks[id]);
    EmitsKeepOpen(s1.n, s1.exec, Perform(s, Land(k)).state.exec, Perform(s, Land(k)).emitted);
    assert Perform(s, Land(k)).state.exec.IsOpen(s1.exec.next);
  }

  lemma StartNextKeepsOpen(s: State, emitted: seq<nat>)
    requires Inv(s) && Outstanding(s)
    ensures Outstanding(StartNext(s, emitted).state) && StartNext(s, emitted).state.status == s.status
  {
    var k :| s.exec.IsOpen(k);
    match NextReady(s)
    case None =>
    case Some(id) =>
      var t := s.tasks[id].(status := TaskStatus.RUNNING, phase := ACQUIRE_PICKUP);
      Emission.RunTaskEmits(s, id, t);
      EmitsKeepOpen(s.n, s.exec, RunTask(s, id, t).state.exec, RunTask(s, id, t).emitted);
      assert StartNext(s, emitted).state.exec.IsOpen(k);
  }

  // ----- Every undisturbed event -----

  lemma StatusKeepsTasksLive(s: State, status: MissionStatus)
    requires Wf(s) && TasksLive(s)
    ensures Wf(s.(status := status)) && TasksLive(s.(status := status))
  {
    var s' := s.(status := status);
    forall id | id in s'.tasks
      ensures TaskLive(s', id)
    {
      assert TaskLive(s, id);
    }
  }

  lemma StartLive(s: State)
    requires Live(s)
    ensures Live(HandleStart(s).state)
  {
    if s.status == READY {
      StatusKeepsInvariant(s, MissionStatus.RUNNING);
      StatusKeepsTasksLive(s, MissionStatus.RUNNING);
      AdvanceIsLive(s.(status := MissionStatus.RUNNING));
    } else if s.status == MissionStatus.RUNNING {
      AdvanceIsLive(s);
    }
  }

  /** A mission that has failed stays failed. */
  lemma FailedMissionCompletes(s: State, k: nat)
    requires Inv(s) && Unpaused(s) && s.status == MissionStatus.FAILED && s.exec.IsOpen(k)
    ensures Live(HandleCompleted(s, k).state)
  {
    OpenIsActive(s, k);
    CompletedCases(s, k);
    LandedFailed(s, k);
    var s1, id := Landed(s, k), s.exec.commands[k].task;
    FollowPauses(s1, id);
    FollowKeepsInvariant(s1, id);
    StillFailed(s1, Follow(s1, id).state);
  }

  lemma LandedFailed(s: State, k: nat)
    requires Inv(s) && Unpaused(s) && s.status == MissionStatus.FAILED && s.exec.IsOpen(k)
    ensures var s1, id := Landed(s, k), s.exec.commands[k].task;
            && Inv(s1) && Unpaused(s1) && s1.status == MissionStatus.FAILED && id in s1.tasks && s1.tasks[id].index > 0
            && !Held(s, k)
  {
    OpenIsActive(s, k);
    LandedFrame(s, k);
    LandedKeepsInvariant(s, k);
  }

  lemma StillFailed(s: State, s': State)
    requires Wf(s) && Unpaused(s) && s.status == MissionStatus.FAILED && Inv(s') && SamePauses(s, s')
    ensures Live(s')
  {
    PausesKept(s, s');
    MakeLive(s');
  }

  lemma CompletedLive(s: State, k: nat)
    requires Live(s)
    ensures Live(HandleCompleted(s, k).state)
  {
    if s.exec.IsOpen(k) {
      OpenIsActive(s, k);
      if s.status == MissionStatus.RUNNING {
        CompletionLive(s, k);
      } else {
        FailedMissionCompletes(s, k);
      }
    }
  }

  lemma FailTaskLive(s: State, k: nat, status: CommandStatus, reason: Reason)
    requires Inv(s) && Unpaused(s) && s.exec.IsOpen(k)
    requires status == CommandStatus.FAILED || status == CommandStatus.CANCELLED
    ensures ExecWf(s.n, s.exec.Mark(k, status, Some(reason)))
    ensures Live(FailTask(s, Ended(s, k, status, Some(reason), false), s.exec.commands[k], reason))
  {
    FailTaskKeepsInvariant(s, k, status, reason);
  }

  lemma FailedLive(s: State, k: nat, error: Reason)
    requires Live(s)
    ensures Live(HandleFailed(s, k, error).state)
  {
    if s.exec.IsOpen(k) {
      FailedCases(s, k, error);
      if Retries(s, k, error) {
        RetryKeepsInvariant(s, k, error);
        RetryLive(s, k, error);
      } else {
        FailTaskLive(s, k, CommandStatus.FAILED, error);
      }
    }
  }

  lemma RetryTasksLive(s: State, k: nat, error: Reason)
    requires Inv(s) && TasksLive(s) && s.exec.IsOpen(k) && Retries(s, k, error) && Wf(Put(s, Retried(s, k, error)))
    ensures TasksLive(Put(s, Retried(s, k, error)))
  {
    RetryChanges(s, k, error);
    var c := Retried(s, k, error);
    var s' := Put(s, c);
    forall x | x in s'.tasks
      ensures TaskLive(s', x)
    {
      assert TaskLive(s, x);
      if x != c.task.id {
        OtherTaskLive(s, c, x);
      }
    }
  }

  lemma RetryLive(s: State, k: nat, error: Reason)
    requires Live(s) && s.exec.IsOpen(k) && Retries(s, k, error) && Inv(Put(s, Retried(s, k, error)))
    ensures Live(Put(s, Retried(s, k, error)))
  {
    var s' := Put(s, Retried(s, k, error));
    RetriedIsOpen(s, k, error);
    if s.status == MissionStatus.RUNNING {
      RetryTasksLive(s, k, error);
    }
    MakeLive(s');
  }

  lemma RetriedIsOpen(s: State, k: nat, error: Reason)
    requires Wf(s) && Unpaused(s) && s.exec.IsOpen(k) && s.exec.commands[k].kind.MoveRobot?
    ensures var s' := Put(s, Retried(s, k, error));
            Outstanding(s') && Unpaused(s') && s'.status == s.status
  {
    assert Put(s, Retried(s, k, error)).exec.IsOpen(s.exec.next);
  }

  lemma CancelledLive(s: State, k: nat, reason: Reason)
    requires Live(s) && Undisturbed(Cancelled(k, reason))
    ensures Live(HandleCancelled(s, k, reason).state)
  {
    if s.exec.IsOpen(k) {
      OpenIsActive(s, k);
      CancelledCases(s, k, reason);
      FailTaskLive(s, k, CommandStatus.CANCELLED, reason);
    }
  }

  lemma StepLive(s: State, e: Event)
    requires Live(s) && Undisturbed(e)
    ensures Live(Step(s, e).state)
  {
    match e
    case StartRequested => StartLive(s);
    case Completed(k) => CompletedLive(s, k);
    case Failed(k, error) => FailedLive(s, k, error);
    case Cancelled(k, reason) => CancelledLive(s, k, reason);
    case _ =>
  }

  lemma InitialLive(n: nat, maxRetries: int)
    ensures Live(Initial(n, maxRetries))
  {
    var s := Initial(n, maxRetries);
    InitialInvariant(n, maxRetries);
    forall id | id in s.tasks
      ensures TaskLive(s, id)
    {
    }
  }

  lemma {:induction false} RunLive(n: nat, maxRetries: int, events: seq<Event>)
    requires forall e :: e in events ==> Undisturbed(e)
    ensures Live(Run(Initial(n, maxRetries), events).state)
  {
    if events == [] {
      InitialLive(n, maxRetries);
    } else {
      RunLive(n, maxRetries, events[..|events| - 1]);
      assert events[|events| - 1] in events;
      StepLive(Run(Initial(n, maxRetries), events[..|events| - 1]).state, events[|events| - 1]);
    }
  }

  /** In a running mission that nobody disturbs, the zone's book-keeping is always exact. */
  lemma BufferIsExact(n: nat, maxRetries: int, events: seq<Event>, q: nat)
    requires forall e :: e in events ==> Undisturbed(e)
    requires var s := Run(Initial(n, maxRetries), events).state; s.status == MissionStatus.RUNNING && q in s.items
    ensures var s := Run(Initial(n, maxRetries), events).state;
            s.items[q] == Package(Transfer, None) <==> q in s.transfer.packageOccupancy
  {
    var s := Run(Initial(n, maxRetries), events).state;
    RunLive(n, maxRetries, events);
    BufferLagInv(s, q);
    assert TaskAt(s, TaskId(q, UP)) && TaskLive(s, TaskId(q, UP));
    assert TaskAt(s, TaskId(q, DOWN)) && TaskLive(s, TaskId(q, DOWN));
  }

  /** Deadlock freedom, for every number of packages and every order of results: a mission
      that is RUNNING has a task whose active command is still open. */
  lemma DeadlockFreedom(n: nat, maxRetries: int, events: seq<Event>)
    requires forall e :: e in events ==> Undisturbed(e)
    requires Run(Initial(n, maxRetries), events).state.status == MissionStatus.RUNNING
    ensures var s := Run(Initial(n, maxRetries), events).state;
            exists id :: id in s.tasks && s.tasks[id].active.Some? && s.exec.IsOpen(s.tasks[id].active.value)
  {
    RunLive(n, maxRetries, events);
    var s := Run(Initial(n, maxRetries), events).state;
    var k :| s.exec.IsOpen(k);
    OpenIsActive(s, k);
    assert s.tasks[s.exec.commands[k].task].active == Some(k);
  }
}
