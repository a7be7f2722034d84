/** What a task's records stand for: its retry counters count the unverified arrivals on
    file, target by target, and its phase tells where in the tree it is. */
module Records {
  import opened Domain
  import opened BehaviorTree
  import opened LocalInvariant
  import opened TickProof
  import opened Mission
  import opened Invariant
  import opened StepProof
  import opened MicroSteps
  import opened Work
  import Budget
  import History

  /** The moves of task `id` to `w` on record as failed for want of a verified arrival. */
  function Unverified(ex: Exec, id: TaskId, w: Waypoint): set<nat> {
    set k | k in ex.commands && ex.commands[k].task == id && ex.commands[k].kind == MoveRobot(w) &&
            ex.commands[k].status == CommandStatus.FAILED && ex.commands[k].error == Some(ArrivalNotVerified)
  }

  ghost predicate Counted(ex: Exec, t: Task) {
    forall w :: |Unverified(ex, t.id, w)| == t.Retries(w)
  }

  /** The phase of a task at rest. */
  predicate PhaseOk(t: Task) {
    match t.index
    case 0 => t.phase == NOT_STARTED
    case 2 => t.phase == MOVE_TO_PICKUP
    case 4 => t.phase == LOAD_ITEM
    case 9 => t.phase == MOVE_TO_DROPOFF
    case 11 => t.phase == UNLOAD_ITEM
    case 17 => t.phase == DONE
    case i =>
      && (i == (if t.id.leg == UP then 8 else 1) ==>
            t.phase == MOVE_TO_WAIT_POINT || (t.phase == WAIT_FOR_RESOURCE && t.active == None))
      && (i == (if t.id.leg == UP then 13 else 6) ==> t.phase == MOVE_TO_TRANSFER_EXIT)
  }

  /** The task failed outright, or was left without a command by an abort: it is over. */
  predicate Over(t: Task, dead: bool) {
    dead && t.active == None && t.index > 0
  }

  ghost predicate RecordOk(ex: Exec, t: Task, dead: bool) {
    PhaseOk(t) && (Over(t, dead) || Counted(ex, t))
  }

  ghost predicate RecordAt(s: State, id: TaskId)
    requires id in s.tasks
  {
    RecordOk(s.exec, s.tasks[id], Budget.Dead(s.status))
  }

  ghost predicate RecordsOk(s: State) {
    forall id {:trigger RecordAt(s, id)} :: id in s.tasks ==> RecordAt(s, id)
  }

  // ----- Ticks -----

  /** A node that waits, or emits, notes the phase of its index. */
  predicate PhaseReady(c: Ctx) {
    && (c.task.index == 0 ==> c.robot.status == IDLE)
    && ((c.task.index == 4 || c.task.index == 11) && c.task.active.Some? ==> PhaseOk(c.task))
    && (c.task.index == 17 ==> PhaseOk(c.task))
  }

  lemma NodePhase(c: Ctx, sib: Task)
    requires CtxOk(c, sib) && c.task.index < TREE_SIZE && PhaseReady(c)
    ensures var r := TickNode(Child(c.task.index), c);
            if r.success then PhaseReady(Next(r.ctx)) else PhaseOk(r.ctx.task)
  {
    if Asks(c) {
      AskPhase(c, sib);
    }
  }

  lemma AskPhase(c: Ctx, sib: Task)
    requires CtxOk(c, sib) && Asks(c)
    ensures var r := TickNode(Child(c.task.index), c);
            if r.success then PhaseReady(Next(r.ctx)) else PhaseOk(r.ctx.task)
  {
    RequestDecision(c, sib);
  }

  lemma {:induction false} TickPhase(c: Ctx, sib: Task)
    requires CtxOk(c, sib) && PhaseReady(c)
    ensures PhaseOk(TickTree(c).ctx.task)
    decreases TREE_SIZE - c.task.index
  {
    if c.task.index < TREE_SIZE {
      NodePhase(c, sib);
      NodeKeepsInvariant(c, sib);
      var r := TickNode(Child(c.task.index), c);
      if r.success {
        TickPhase(Next(r.ctx), sib);
      }
    }
  }

  // ----- Commands -----

  lemma AddUnverified(n: nat, ex: Exec, kind: CommandKind, task: TaskId, robot: RobotId, id: TaskId, w: Waypoint)
    requires ExecWf(n, ex)
    ensures Unverified(ex.Add(kind, task, robot), id, w) == Unverified(ex, id, w)
  {
  }

  lemma MarkUnverified(ex: Exec, k: nat, status: CommandStatus, error: Option<Reason>, id: TaskId, w: Waypoint)
    requires ex.IsOpen(k) && status != CommandStatus.FAILED
    ensures Unverified(ex.Mark(k, status, error), id, w) == Unverified(ex, id, w)
  {
  }

  lemma FailUnverified(ex: Exec, k: nat, id: TaskId, w: Waypoint)
    requires ex.IsOpen(k) && ex.commands[k].task == id
    ensures var ex' := ex.Mark(k, CommandStatus.FAILED, Some(ArrivalNotVerified));
            |Unverified(ex', id, w)| == |Unverified(ex, id, w)| + if ex.commands[k].kind == MoveRobot(w) then 1 else 0
  {
    var ex' := ex.Mark(k, CommandStatus.FAILED, Some(ArrivalNotVerified));
    var was, now := Unverified(ex, id, w), Unverified(ex', id, w);
    if ex.commands[k].kind == MoveRobot(w) {
      assert now == was + {k} && k !in was;
    } else {
      assert now == was;
    }
  }

  // ----- Changes of one task -----

  /** Another task's commands are not touched. */
  lemma OtherUnverified(s: State, c: Ctx, x: TaskId, w: Waypoint)
    requires Wf(s) && c.task.id in s.tasks && Sibling(c.task.id) in s.tasks && Guarantee(s, c) && x != c.task.id
    ensures Unverified(c.exec, x, w) == Unverified(s.exec, x, w)
  {
  }

  lemma SameRecord(ex: Exec, ex': Exec, t: Task, t': Task, dead: bool, dead': bool)
    requires RecordOk(ex, t, dead) && (dead ==> dead') && t' == t.(status := t'.status)
    requires forall w :: Unverified(ex', t.id, w) == Unverified(ex, t.id, w)
    ensures RecordOk(ex', t', dead')
  {
    if !Over(t', dead') {
      forall w
        ensures |Unverified(ex', t.id, w)| == t'.Retries(w)
      {
        assert |Unverified(ex, t.id, w)| == t.Retries(w);
      }
    }
  }

  lemma PutRecords(s: State, c: Ctx, status: MissionStatus)
    requires Wf(s) && RecordsOk(s) && c.task.id in s.tasks && Sibling(c.task.id) in s.tasks && Guarantee(s, c)
    requires Budget.Dead(s.status) ==> Budget.Dead(status)
    requires RecordOk(c.exec, c.task, Budget.Dead(status))
    ensures RecordsOk(Put(s, c).(status := status))
  {
    var s' := Put(s, c).(status := status);
    forall x | x in s'.tasks
      ensures RecordAt(s', x)
    {
      if x != c.task.id {
        assert RecordAt(s, x);
        OtherRecord(s, c, x, status);
      }
    }
  }

  lemma OtherRecord(s: State, c: Ctx, x: TaskId, status: MissionStatus)
    requires Wf(s) && c.task.id in s.tasks && Sibling(c.task.id) in s.tasks && Guarantee(s, c)
    requires x in s.tasks && x != c.task.id && RecordAt(s, x) && (Budget.Dead(s.status) ==> Budget.Dead(status))
    ensures x in Put(s, c).tasks && RecordAt(Put(s, c).(status := status), x)
  {
    forall w
      ensures Unverified(c.exec, x, w) == Unverified(s.exec, x, w)
    {
      OtherUnverified(s, c, x, w);
    }
    SameRecord(s.exec, c.exec, s.tasks[x], s.tasks[x], Budget.Dead(s.status), Budget.Dead(status));
  }

  lemma TickRecord(n: nat, c: Ctx, sib: Task, dead: bool)
    requires CtxOk(c, sib) && PhaseReady(c) && Counted(c.exec, c.task) && ExecWf(n, c.exec)
    ensures var c' := TickTree(c).ctx; RecordOk(c'.exec, c'.task, dead)
  {
    TickPhase(c, sib);
    TickKeepsInvariant(c, sib);
    var r := TickTree(c);
    forall w
      ensures |Unverified(r.ctx.exec, r.ctx.task.id, w)| == r.ctx.task.Retries(w)
    {
      assert |Unverified(c.exec, c.task.id, w)| == c.task.Retries(w);
      if r.emitted != [] {
        AddUnverified(n, c.exec, r.ctx.exec.commands[c.exec.next].kind, c.task.id, c.task.Robot(), c.task.id, w);
      }
    }
  }

  lemma RunTaskRecords(s: State, id: TaskId, t: Task)
    requires Inv(s) && RecordsOk(s) && MayRun(s, id, t) && Counted(s.exec, s.tasks[id])
    ensures RecordsOk(RunTask(s, id, t).state)
  {
    var c := View(s, id).(task := t);
    RunTaskChanges(s, id, t);
    assert RecordAt(s, id);
    CountedAlike(s.exec, s.tasks[id], t);
    TickRecord(s.n, c, s.tasks[Sibling(id)], Budget.Dead(s.status));
    PutRecords(s, TickTree(c).ctx, s.status);
    assert RunTask(s, id, t).state == Put(s, TickTree(c).ctx).(status := s.status);
  }

  lemma CountedAlike(ex: Exec, t: Task, t': Task)
    requires Counted(ex, t) && t'.id == t.id && t'.retries == t.retries
    ensures Counted(ex, t')
  {
    forall w
      ensures |Unverified(ex, t'.id, w)| == t'.Retries(w)
    {
      assert |Unverified(ex, t.id, w)| == t.Retries(w);
    }
  }

  /** A task with a command out, or of a mission still alive, is not over. */
  lemma StillCounted(s: State, id: TaskId)
    requires RecordsOk(s) && id in s.tasks
    requires !Budget.Dead(s.status) || s.tasks[id].active.Some? || s.tasks[id].index == 0
    ensures Counted(s.exec, s.tasks[id]) && PhaseOk(s.tasks[id])
  {
    assert RecordAt(s, id);
  }

  lemma EndedTask(s: State, k: nat, result: CommandStatus, error: Option<Reason>)
    requires Wf(s) && s.exec.IsOpen(k) && s.tasks[s.exec.commands[k].task].active == Some(k)
    ensures var id, c := s.exec.commands[k].task, Ended(s, k, result, error, result == CommandStatus.SUCCEEDED);
            c.task == s.tasks[id].(active := None) && c.exec == s.exec.Mark(k, result, error)
  {
  }

  /** A command that ends otherwise than by a failure counts for nothing. */
  lemma EndedRecord(s: State, k: nat, result: CommandStatus, error: Option<Reason>, t: TaskStatus)
    requires Inv(s) && RecordsOk(s) && s.exec.IsOpen(k)
    requires result == CommandStatus.SUCCEEDED || result == CommandStatus.CANCELLED
    ensures var c := Ended(s, k, result, error, result == CommandStatus.SUCCEEDED);
            PhaseOk(c.task) && Counted(c.exec, c.task.(status := t)) && PhaseOk(c.task.(status := t))
  {
    var id := s.exec.commands[k].task;
    OpenIsActive(s, k);
    StillCounted(s, id);
    EndedTask(s, k, result, error);
    var c := Ended(s, k, result, error, result == CommandStatus.SUCCEEDED);
    forall w
      ensures |Unverified(c.exec, id, w)| == c.task.Retries(w)
    {
      assert |Unverified(s.exec, id, w)| == s.tasks[id].Retries(w);
      MarkUnverified(s.exec, k, result, error, id, w);
    }
  }

  lemma LandRecords(s: State, k: nat)
    requires Inv(s) && RecordsOk(s) && Enabled(s, Land(k))
    ensures RecordsOk(Perform(s, Land(k)).state)
  {
    var id, c := s.exec.commands[k].task, Landing(s, k);
    LandedFrame(s, k);
    LandedIsPut(s, k);
    LandingChanges(s, k);
    LandedKeepsInvariant(s, k);
    EndedRecord(s, k, CommandStatus.SUCCEEDED, None, c.task.status);
    PutRecords(s, c, s.status);
    assert Landed(s, k) == Put(s, c).(status := s.status);
    RunTaskRecords(Landed(s, k), id, Landed(s, k).tasks[id]);
  }

  lemma EndRecords(s: State, m: Micro)
    requires Inv(s) && RecordsOk(s) && m.End? && Enabled(s, m)
    ensures RecordsOk(Perform(s, m).state)
  {
    EndedChanges(s, m.command, m.result, m.error, m.result == CommandStatus.SUCCEEDED, m.taskStatus);
    EndedRecord(s, m.command, m.result, m.error, m.taskStatus);
    PutRecords(s, Ending(s, m), s.status);
    assert Perform(s, m).state == Put(s, Ending(s, m)).(status := s.status);
  }

  lemma FailRecords(s: State, k: nat, result: CommandStatus, reason: Reason)
    requires Inv(s) && RecordsOk(s) && Enabled(s, Fail(k, result, reason))
    ensures RecordsOk(Perform(s, Fail(k, result, reason)).state)
  {
    FailingChanges(s, k, result, reason);
    FailedRecord(s, k, result, reason);
    PutRecords(s, Failing(s, k, result, reason), MissionStatus.FAILED);
  }

  lemma FailedRecord(s: State, k: nat, result: CommandStatus, reason: Reason)
    requires Inv(s) && RecordsOk(s) && s.exec.IsOpen(k)
    ensures var c := Failing(s, k, result, reason); RecordOk(c.exec, c.task, true)
  {
    OpenIsActive(s, k);
    StillCounted(s, s.exec.commands[k].task);
  }

  /** A retry counts once, for its target. */
  lemma RetryRecord(s: State, k: nat, reason: Reason, w: Waypoint)
    requires Inv(s) && RecordsOk(s) && Enabled(s, Micro.Retry(k, reason))
    ensures var c := Retried(s, k, reason);
            |Unverified(c.exec, c.task.id, w)| == c.task.Retries(w)
  {
    var cmd := s.exec.commands[k];
    var ex := s.exec.Mark(k, CommandStatus.FAILED, Some(reason));
    OpenIsActive(s, k);
    StillCounted(s, cmd.task);
    assert |Unverified(s.exec, cmd.task, w)| == s.tasks[cmd.task].Retries(w);
    FailUnverified(s.exec, k, cmd.task, w);
    MarkWf(s.n, s.exec, k, CommandStatus.FAILED, Some(reason));
    AddUnverified(s.n, ex, cmd.kind, cmd.task, cmd.robot, cmd.task, w);
  }

  lemma RetriedRecord(s: State, k: nat, reason: Reason, dead: bool)
    requires Inv(s) && RecordsOk(s) && Enabled(s, Micro.Retry(k, reason))
    ensures var c := Retried(s, k, reason); RecordOk(c.exec, c.task, dead)
  {
    var c := Retried(s, k, reason);
    OpenIsActive(s, k);
    StillCounted(s, s.exec.commands[k].task);
    forall w
      ensures |Unverified(c.exec, c.task.id, w)| == c.task.Retries(w)
    {
      RetryRecord(s, k, reason, w);
    }
  }

  lemma RetryRecords(s: State, k: nat, reason: Reason)
    requires Inv(s) && RecordsOk(s) && Enabled(s, Micro.Retry(k, reason))
    ensures RecordsOk(Perform(s, Micro.Retry(k, reason)).state)
  {
    var c := Retried(s, k, reason);
    RetryChanges(s, k, reason);
    RetriedRecord(s, k, reason, Budget.Dead(s.status));
    PutRecords(s, c, s.status);
    assert Perform(s, Micro.Retry(k, reason)).state == Put(s, c).(status := s.status);
  }

  /** Statuses and pause flags are not part of a task's records. */
  lemma FlagRecords(s: State, s': State)
    requires RecordsOk(s) && s'.exec == s.exec && (Budget.Dead(s.status) ==> Budget.Dead(s'.status))
    requires forall id :: id in s'.tasks ==>
               id in s.tasks && s'.tasks[id] == s.tasks[id].(status := s'.tasks[id].status)
    ensures RecordsOk(s')
  {
    forall id | id in s'.tasks
      ensures RecordAt(s', id)
    {
      assert RecordAt(s, id);
      SameRecord(s.exec, s'.exec, s.tasks[id], s'.tasks[id], Budget.Dead(s.status), Budget.Dead(s'.status));
    }
  }

  lemma PerformRecords(s: State, m: Micro)
    requires Inv(s) && RecordsOk(s) && Enabled(s, m)
    ensures RecordsOk(Perform(s, m).state)
  {
    match m
    case Tick(id) => TickRecords(s, id);
    case Start(id) => StartRecords(s, id);
    case Land(k) => LandRecords(s, k);
    case End(_, _, _, _) => EndRecords(s, m);
    case Fail(k, result, reason) => FailRecords(s, k, result, reason);
    case Retry(k, reason) => RetryRecords(s, k, reason);
    case SetMission(status) => FlagRecords(s, s.(status := status));
    case SetPause(robot, paused) => FlagRecords(s, SetPaused(s, robot, paused));
    case AbortAll => AbortRecords(s);
  }

  lemma AbortRecords(s: State)
    requires Wf(s) && RecordsOk(s)
    ensures RecordsOk(HandleAbort(s).state)
  {
    FlagRecords(s, HandleAbort(s).state);
  }

  lemma TickRecords(s: State, id: TaskId)
    requires Inv(s) && RecordsOk(s) && Enabled(s, Tick(id))
    ensures RecordsOk(AdvanceTask(s, id).state)
  {
    StillCounted(s, id);
    RunTaskRecords(s, id, s.tasks[id]);
  }

  lemma StartRecords(s: State, id: TaskId)
    requires Inv(s) && RecordsOk(s) && Enabled(s, Micro.Start(id))
    ensures RecordsOk(Mission.StartTask(s, id).state)
  {
    ScheduledInOrder(s, id);
    StillCounted(s, id);
    RunTaskRecords(s, id, s.tasks[id].(status := TaskStatus.RUNNING, phase := ACQUIRE_PICKUP));
  }

  // ----- Runs -----

  lemma {:induction false} PerformAllRecords(s: State, ms: seq<Micro>)
    requires Inv(s) && RecordsOk(s) && AllEnabled(s, ms)
    ensures RecordsOk(PerformAll(s, ms).state)
    decreases |ms|
  {
    if ms != [] {
      PerformRecords(s, ms[0]);
      PerformKeepsInvariant(s, ms[0]);
      PerformAllRecords(Perform(s, ms[0]).state, ms[1..]);
    }
  }

  lemma StepRecords(s: State, e: Event)
    requires Inv(s) && RecordsOk(s)
    ensures Inv(Step(s, e).state) && RecordsOk(Step(s, e).state) && Step(s, e).state.maxRetries == s.maxRetries
  {
    var ms := PlanStep(s, e);
    PerformAllRecords(s, ms);
    StepKeepsInvariant(s, e);
    History.StepEvolves(s, e);
  }

  lemma {:induction false} RunRecords(n: nat, maxRetries: int, events: seq<Event>)
    ensures var s := Run(Initial(n, maxRetries), events).state;
            Inv(s) && RecordsOk(s) && s.maxRetries == maxRetries
  {
    if events == [] {
      InitialInvariant(n, maxRetries);
      InitialRecordsOk(n, maxRetries);
    } else {
      RunRecords(n, maxRetries, events[..|events| - 1]);
      StepRecords(Run(Initial(n, maxRetries), events[..|events| - 1]).state, events[|events| - 1]);
    }
  }

  lemma InitialRecordsOk(n: nat, maxRetries: int)
    ensures RecordsOk(Initial(n, maxRetries))
  {
    var s := Initial(n, maxRetries);
    forall id | id in s.tasks
      ensures RecordAt(s, id)
    {
      assert forall w :: Unverified(s.exec, id, w) == {};
    }
  }

  /** Over every run: a failure makes a command go out again if and only if it is the
      unverified arrival of a move, and fewer moves of the task to the same target than the
      retry limit are on record as unverified, whatever has happened at other targets. */
  lemma RetriesAreCounted(n: nat, maxRetries: int, events: seq<Event>, k: nat, error: Reason)
    requires Run(Initial(n, maxRetries), events).state.exec.IsOpen(k)
    ensures var s := Run(Initial(n, maxRetries), events).state;
            var cmd := s.exec.commands[k];
            Step(s, Failed(k, error)).emitted != [] <==>
            && error == ArrivalNotVerified && cmd.kind.MoveRobot?
            && |Unverified(s.exec, cmd.task, cmd.kind.target)| < maxRetries
  {
    RunRecords(n, maxRetries, events);
    RetryByCount(Run(Initial(n, maxRetries), events).state, k, error);
  }

  lemma RetryByCount(s: State, k: nat, error: Reason)
    requires Inv(s) && RecordsOk(s) && s.exec.IsOpen(k)
    ensures var cmd := s.exec.commands[k];
            HandleFailed(s, k, error).emitted != [] <==>
            && error == ArrivalNotVerified && cmd.kind.MoveRobot?
            && |Unverified(s.exec, cmd.task, cmd.kind.target)| < s.maxRetries
  {
    var cmd := s.exec.commands[k];
    OpenIsActive(s, k);
    StillCounted(s, cmd.task);
    FailedCases(s, k, error);
    if cmd.kind.MoveRobot? {
      assert |Unverified(s.exec, cmd.task, cmd.kind.target)| == s.tasks[cmd.task].Retries(cmd.kind.target);
    }
  }

  /** Over every run, every task shows the phase its index stands for. */
  lemma PhaseIsShown(n: nat, maxRetries: int, events: seq<Event>, id: TaskId)
    requires id in Run(Initial(n, maxRetries), events).state.tasks
    ensures var t := Run(Initial(n, maxRetries), events).state.tasks[id]; Rests(t) && PhaseOk(t)
  {
    RunRecords(n, maxRetries, events);
    var s := Run(Initial(n, maxRetries), events).state;
    assert RecordAt(s, id) && TaskAt(s, id);
  }

  // ----- What a refused task shows -----

  predicate NoNotes(t: Task) {
    t.waitingResource == None && t.blockedReason == None && t.blockedBy == None && t.waitingAt == None
  }

  /** The notes name the zone, the waiting place and what stands in the way: the robot that
      holds the lease, the package that fills the buffer, or the own package, not yet there. */
  predicate Explained(c: Ctx) {
    var t, tr := c.task, c.transfer;
    && t.waitingResource == Some(Transfer) && t.waitingAt == Some(Exit(t.id.leg))
    && (if tr.lease.Some? then
          t.blockedReason == Some(WaitingForTransferLease) && t.blockedBy == Some(ByRobot(tr.lease.value.actor))
        else if t.id.leg == UP then
          && tr.packageOccupancy != []
          && t.blockedReason == Some(TransferPackageFull) && t.blockedBy == Some(ByItem(tr.packageOccupancy[0]))
        else
          && t.id.item !in tr.packageOccupancy
          && t.blockedReason == Some(PackageNotAvailable) && t.blockedBy == Some(ByItem(t.id.item)))
    && (if t.active.Some? then
          t.status == TaskStatus.RUNNING && t.phase == MOVE_TO_WAIT_POINT
        else
          && t.status == TaskStatus.BLOCKED && t.phase == WAIT_FOR_RESOURCE
          && c.robot.status == WAITING && c.robot.location == Exit(t.id.leg))
  }

  lemma AskExplains(c: Ctx, sib: Task)
    requires CtxOk(c, sib) && Asks(c)
    ensures var r := TickNode(Child(c.task.index), c);
            if r.success then NoNotes(r.ctx.task) && r.ctx.robot.status == BUSY else Explained(r.ctx)
  {
    RequestDecision(c, sib);
  }

  lemma NodeStops(c: Ctx, sib: Task)
    requires CtxOk(c, sib) && c.task.index < TREE_SIZE && !Asks(c)
    ensures !Asks(TickNode(Child(c.task.index), c).ctx)
  {
  }

  /** After a tick that leaves a task asking for the zone, the task explains why. */
  lemma {:induction false} TickExplains(c: Ctx, sib: Task)
    requires CtxOk(c, sib)
    ensures Asks(TickTree(c).ctx) ==> Explained(TickTree(c).ctx)
    decreases TREE_SIZE - c.task.index
  {
    if c.task.index < TREE_SIZE {
      if Asks(c) {
        AskExplains(c, sib);
      } else {
        NodeStops(c, sib);
      }
      NodeKeepsInvariant(c, sib);
      var r := TickNode(Child(c.task.index), c);
      if r.success {
        TickExplains(Next(r.ctx), sib);
      }
    }
  }
}
