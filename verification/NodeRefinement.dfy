/** The node adds nothing to the protocol: a run of node callbacks is, up to how far its
    open commands are marked, a run of the core on the events those callbacks lead to. */
module NodeRefinement {
  import opened Domain
  import opened BehaviorTree
  import opened TaskOrder
  import opened Mission
  import opened Invariant
  import opened StepProof
  import opened Emission
  import opened NodeGate
  import Safety

  // ----- Forgetting the marks -----

  function Unmarked(cmd: Command): Command {
    if cmd.IsTerminal() then cmd else cmd.(status := CommandStatus.PENDING)
  }

  function Erase(ex: Exec): Exec {
    Exec(map k | k in ex.commands :: Unmarked(ex.commands[k]), ex.next)
  }

  function Core(s: State): (s': State)
    ensures Wf(s) ==> Wf(s')
  {
    s.(exec := Erase(s.exec))
  }

  function CoreOutcome(o: Outcome): Outcome {
    Outcome(Core(o.state), o.emitted)
  }

  lemma EraseAdd(ex: Exec, kind: CommandKind, task: TaskId, robot: RobotId)
    ensures Erase(ex.Add(kind, task, robot)) == Erase(ex).Add(kind, task, robot)
  {
    assert Erase(ex.Add(kind, task, robot)).commands == Erase(ex).Add(kind, task, robot).commands;
  }

  lemma EraseMark(ex: Exec, k: nat, status: CommandStatus, error: Option<Reason>)
    requires ex.IsOpen(k)
    requires status == CommandStatus.SUCCEEDED || status == CommandStatus.FAILED || status == CommandStatus.CANCELLED
    ensures Erase(ex.Mark(k, status, error)) == Erase(ex).Mark(k, status, error)
  {
    assert Erase(ex.Mark(k, status, error)).commands == Erase(ex).Mark(k, status, error).commands;
  }

  lemma EraseOpenMark(ex: Exec, k: nat, status: CommandStatus)
    requires ex.IsOpen(k) && OpenStatus(status)
    ensures Erase(ex.SetStatus(k, status)) == Erase(ex)
  {
    assert Erase(ex.SetStatus(k, status)).commands == Erase(ex).commands;
  }

  lemma {:induction false} EraseDispatch(ex: Exec, ks: seq<nat>)
    requires forall k :: k in ks ==> k in ex.commands && ex.IsOpen(k)
    ensures Erase(Dispatch(ex, ks)) == Erase(ex)
    decreases |ks|
  {
    if ks != [] {
      assert ks[0] in ks;
      var ex1 := ex.SetStatus(ks[0], CommandStatus.SUBMITTED);
      EraseOpenMark(ex, ks[0], CommandStatus.SUBMITTED);
      EraseOpenMark(ex1, ks[0], CommandStatus.RUNNING);
      assert ks == [ks[0]] + ks[1..];
      EraseDispatch(DispatchOne(ex, ks[0]), ks[1..]);
    }
  }

  // ----- The core does not read the marks -----

  function CoreCtx(c: Ctx): Ctx {
    c.(exec := Erase(c.exec))
  }

  function CoreTicked(r: Ticked): Ticked {
    r.(ctx := CoreCtx(r.ctx))
  }

  lemma MoveErases(c: Ctx, w: Waypoint, phase: Phase)
    ensures TickMove(CoreCtx(c), w, phase) == CoreTicked(TickMove(c, w, phase))
  {
    EraseAdd(c.exec, MoveRobot(w), c.task.id, c.task.Robot());
  }

  lemma HandleErases(c: Ctx, handling: Handling, phase: Phase)
    ensures TickHandle(CoreCtx(c), handling, phase) == CoreTicked(TickHandle(c, handling, phase))
  {
    EraseAdd(c.exec, HandleItem(c.task.id.item, handling), c.task.id, c.task.Robot());
  }

  lemma WaitErases(c: Ctx, w: Waypoint, d: Decision)
    ensures TickWait(CoreCtx(c), w, d) == CoreTicked(TickWait(c, w, d))
  {
    if d.waitWaypoint.Some? {
      var c1 := WithDetails(c, w, d);
      MoveErases(c1.(task := c1.task.(status := TaskStatus.RUNNING)), d.waitWaypoint.value, MOVE_TO_WAIT_POINT);
    }
  }

  lemma AccessErases(c: Ctx, endpoint: Endpoint)
    ensures TickRequest(CoreCtx(c), endpoint) == CoreTicked(TickRequest(c, endpoint))
  {
    var w, actor, item := c.task.At(endpoint), c.task.Robot(), Some(c.task.id.item);
    var d := Decide(c.transfer, actor, endpoint, item);
    var c1 := c.(task := c.task.(phase := if endpoint == Pickup then ACQUIRE_PICKUP else ACQUIRE_DROPOFF),
                 transfer := Granted(c.transfer, actor, endpoint, c.task.id, item));
    WaitErases(c1, w, d);
  }

  lemma NodeErases(node: Node, c: Ctx)
    ensures TickNode(node, CoreCtx(c)) == CoreTicked(TickNode(node, c))
  {
    match node
    case RequestResourceAccess(endpoint) => AccessErases(c, endpoint);
    case MoveTo(AtEndpoint(endpoint), phase) => MoveErases(c, c.task.At(endpoint), phase);
    case MoveTo(AtWaypoint(w), phase) => MoveErases(c, w, phase);
    case HandlePackage(handling, phase) => HandleErases(c, handling, phase);
    case VacateResourceIfManaged(_) =>
      if TransferSideWaypoint(c.task.Robot()).Some? {
        MoveErases(c, TransferSideWaypoint(c.task.Robot()).value, MOVE_TO_TRANSFER_EXIT);
      }
    case _ =>
  }

  lemma {:induction false} TickErases(c: Ctx)
    ensures TickTree(CoreCtx(c)) == CoreTicked(TickTree(c))
    decreases TREE_SIZE - c.task.index
  {
    if c.task.index < TREE_SIZE {
      NodeErases(Child(c.task.index), c);
      var r := TickNode(Child(c.task.index), c);
      if r.success {
        TickErases(Next(r.ctx));
      }
    }
  }

  lemma PutErases(s: State, c: Ctx)
    ensures Core(Put(s, c)) == Put(Core(s), CoreCtx(c))
  {
  }

  lemma RunTaskErases(s: State, id: TaskId, t: Task)
    requires Wf(s) && id in s.tasks && t.id == id
    ensures RunTask(Core(s), id, t) == CoreOutcome(RunTask(s, id, t))
  {
    var c := View(s, id).(task := t);
    TickErases(c);
    PutErases(s, TickTree(c).ctx);
    assert View(Core(s), id).(task := t) == CoreCtx(c);
  }

  lemma {:induction false} FirstReadyErases(s: State, ids: seq<TaskId>)
    requires forall x :: x in ids ==> x in s.tasks
    ensures FirstReady(Core(s), ids) == FirstReady(s, ids)
  {
    if ids != [] {
      assert ids == [ids[0]] + ids[1..];
      FirstReadyErases(s, ids[1..]);
    }
  }

  lemma StartNextErases(s: State, emitted: seq<nat>)
    requires Wf(s)
    ensures StartNext(Core(s), emitted) == CoreOutcome(StartNext(s, emitted))
  {
    ScheduleOrder(s.n);
    FirstReadyErases(s, Schedule(s.n));
    match NextReady(s)
    case None =>
    case Some(id) => RunTaskErases(s, id, s.tasks[id].(status := TaskStatus.RUNNING, phase := ACQUIRE_PICKUP));
  }

  lemma {:induction false} AdvanceFromErases(s: State, ids: seq<TaskId>)
    requires Wf(s) && forall x :: x in ids ==> x in s.tasks
    ensures AdvanceFrom(Core(s), ids) == CoreOutcome(AdvanceFrom(s, ids))
    decreases |ids|
  {
    if ids == [] {
      StartNextErases(s, []);
    } else {
      assert ids == [ids[0]] + ids[1..];
      if Ticks(s, ids[0]) {
        RunTaskErases(s, ids[0], s.tasks[ids[0]]);
        var o := AdvanceTask(s, ids[0]);
        if o.emitted != [] {
          StartNextErases(o.state, o.emitted);
        } else {
          AdvanceFromErases(o.state, ids[1..]);
        }
      } else {
        AdvanceFromErases(s, ids[1..]);
      }
    }
  }

  lemma AdvanceErases(s: State)
    requires Wf(s)
    ensures Advance(Core(s)) == CoreOutcome(Advance(s))
  {
    assert AllSucceeded(Core(s)) == AllSucceeded(s);
    if s.status == MissionStatus.RUNNING && !AllSucceeded(s) {
      AdvanceFromErases(s, Ids(s.n));
    }
  }

  lemma FollowErases(s: State, id: TaskId)
    requires Wf(s) && id in s.tasks
    ensures Follow(Core(s), id) == CoreOutcome(Follow(s, id))
  {
    RunTaskErases(s, id, s.tasks[id]);
    var p := AdvanceTask(s, id);
    StartNextErases(p.state, p.emitted);
    AdvanceErases(p.state);
  }

  lemma EndedErases(s: State, k: nat, status: CommandStatus, error: Option<Reason>, effect: bool)
    requires Wf(s) && s.exec.IsOpen(k)
    requires status == CommandStatus.SUCCEEDED || status == CommandStatus.FAILED || status == CommandStatus.CANCELLED
    ensures Core(s).exec.IsOpen(k)
    ensures Ended(Core(s), k, status, error, effect) == CoreCtx(Ended(s, k, status, error, effect))
  {
    EraseMark(s.exec, k, status, error);
    AppliedErases(View(s, s.exec.commands[k].task).(exec := s.exec.Mark(k, status, error)), s.exec.commands[k]);
  }

  lemma AppliedErases(c: Ctx, cmd: Command)
    ensures Applied(CoreCtx(c), Unmarked(cmd)) == CoreCtx(Applied(c, cmd))
  {
  }

  lemma LandingErases(s: State, k: nat)
    requires Wf(s) && s.exec.IsOpen(k)
    ensures Core(s).exec.IsOpen(k) && Landing(Core(s), k) == CoreCtx(Landing(s, k))
  {
    EndedErases(s, k, CommandStatus.SUCCEEDED, None, true);
  }

  lemma LandedErases(s: State, k: nat)
    requires Wf(s) && s.exec.IsOpen(k)
    ensures Core(s).exec.IsOpen(k) && Landed(Core(s), k) == Core(Landed(s, k))
  {
    LandingErases(s, k);
    LandedIsPut(s, k);
    LandedIsPut(Core(s), k);
    PutErases(s, Landing(s, k));
  }

  lemma OpenErases(s: State, k: nat)
    requires Inv(s) && s.exec.IsOpen(k)
    ensures var s', id := Core(s), s.exec.commands[k].task;
            && s'.exec.IsOpen(k) && s'.exec.commands[k] == Unmarked(s.exec.commands[k])
            && id in s.tasks && id in s'.tasks && s.tasks[id].active == Some(k) && s'.tasks[id].active == Some(k)
            && Wf(s')
  {
    OpenIsActive(s, k);
  }

  lemma CompletedErases(s: State, k: nat)
    requires Inv(s) && s.exec.IsOpen(k)
    ensures HandleCompleted(Core(s), k) == CoreOutcome(HandleCompleted(s, k))
  {
    OpenErases(s, k);
    CompletedCases(s, k);
    CompletedCases(Core(s), k);
    LandedErases(s, k);
    if !Held(s, k) {
      FollowErases(Landed(s, k), s.exec.commands[k].task);
    }
  }

  lemma FailTaskErases(s: State, c: Ctx, cmd: Command, reason: Reason)
    requires Wf(s) && c.task.id in s.tasks && ExecWf(s.n, c.exec)
    ensures ExecWf(s.n, Erase(c.exec))
    ensures FailTask(Core(s), CoreCtx(c), Unmarked(cmd), reason) == Core(FailTask(s, c, cmd, reason))
  {
  }

  lemma RetriedErases(s: State, k: nat, error: Reason)
    requires Wf(s) && s.exec.IsOpen(k) && s.exec.commands[k].kind.MoveRobot?
    ensures Core(s).exec.IsOpen(k) && Retried(Core(s), k, error) == CoreCtx(Retried(s, k, error))
  {
    var cmd := s.exec.commands[k];
    EndedErases(s, k, CommandStatus.FAILED, Some(error), false);
    EraseAdd(s.exec.Mark(k, CommandStatus.FAILED, Some(error)), cmd.kind, cmd.task, cmd.robot);
  }

  lemma FailedErases(s: State, k: nat, error: Reason)
    requires Inv(s) && s.exec.IsOpen(k)
    ensures HandleFailed(Core(s), k, error) == CoreOutcome(HandleFailed(s, k, error))
  {
    OpenErases(s, k);
    FailedParts(s, k, error);
    FailedParts(Core(s), k, error);
    if Retries(s, k, error) {
      RetriedErases(s, k, error);
      PutErases(s, Retried(s, k, error));
    } else {
      EndedErases(s, k, CommandStatus.FAILED, Some(error), false);
      FailTaskErases(s, Ended(s, k, CommandStatus.FAILED, Some(error), false), s.exec.commands[k], error);
    }
  }

  lemma CancelledErases(s: State, k: nat, reason: Reason)
    requires Inv(s) && s.exec.IsOpen(k)
    ensures HandleCancelled(Core(s), k, reason) == CoreOutcome(HandleCancelled(s, k, reason))
  {
    OpenErases(s, k);
    CancelledCases(s, k, reason);
    CancelledCases(Core(s), k, reason);
    EndedErases(s, k, CommandStatus.CANCELLED, Some(reason), false);
    var c := Ended(s, k, CommandStatus.CANCELLED, Some(reason), false);
    if Spares(reason) {
      var released := c.(task := c.task.(status := TaskStatus.RUNNING));
      PutErases(s, released);
      PutErases(s, c.(task := c.task.(status := TaskStatus.CANCELLED)));
      AdvanceErases(Put(s, released));
    } else {
      FailTaskErases(s, c, s.exec.commands[k], reason);
    }
  }

  lemma ResultErases(s: State, e: Event)
    requires Inv(s) && (e.Completed? || e.Failed? || e.Cancelled?)
    ensures Step(Core(s), e) == CoreOutcome(Step(s, e))
  {
    if s.exec.IsOpen(e.command) {
      match e
      case Completed(k) => CompletedErases(s, k);
      case Failed(k, error) => FailedErases(s, k, error);
      case Cancelled(k, reason) => CancelledErases(s, k, reason);
    }
  }

  lemma RobotResumeErases(s: State, robot: RobotId)
    requires Inv(s)
    ensures HandleRobotResume(Core(s), robot) == CoreOutcome(HandleRobotResume(s, robot))
  {
    if robot in s.robots {
      PauseKeepsInvariant(s, robot, false);
      AdvanceErases(SetPaused(s, robot, false));
    }
  }

  lemma AbortErases(s: State)
    requires Wf(s)
    ensures HandleAbort(Core(s)) == CoreOutcome(HandleAbort(s))
  {
    assert HandleAbort(Core(s)).state.tasks == HandleAbort(s).state.tasks;
  }

  lemma RequestErases(s: State, e: Event)
    requires Inv(s) && !(e.Completed? || e.Failed? || e.Cancelled?)
    ensures Step(Core(s), e) == CoreOutcome(Step(s, e))
  {
    match e
    case StartRequested =>
      RunningErases(s);
      AdvanceErases(s);
    case ResumeRequested => RunningErases(s);
    case RobotResumeRequested(robot) => RobotResumeErases(s, robot);
    case AbortRequested => AbortErases(s);
    case _ =>
  }

  lemma RunningErases(s: State)
    requires Wf(s)
    ensures Advance(Core(s).(status := MissionStatus.RUNNING)) ==
            CoreOutcome(Advance(s.(status := MissionStatus.RUNNING)))
  {
    AdvanceErases(s.(status := MissionStatus.RUNNING));
    assert Core(s.(status := MissionStatus.RUNNING)) == Core(s).(status := MissionStatus.RUNNING);
  }

  /** One event does the same to the state with its marks forgotten. */
  lemma StepErases(s: State, e: Event)
    requires Inv(s)
    ensures Step(Core(s), e) == CoreOutcome(Step(s, e))
  {
    if e.Completed? || e.Failed? || e.Cancelled? {
      ResultErases(s, e);
    } else {
      RequestErases(s, e);
    }
  }

  // ----- Runs of the node -----

  function NodeRun(n: nat, maxRetries: int, cbs: seq<Callback>): (s: State)
    ensures Inv(s)
  {
    if cbs == [] then
      InitialInvariant(n, maxRetries);
      Initial(n, maxRetries)
    else
      var s := NodeRun(n, maxRetries, cbs[..|cbs| - 1]);
      NodeKeepsInvariant(s, cbs[|cbs| - 1]);
      NodeStep(s, cbs[|cbs| - 1])
  }

  /** The core events a run of callbacks leads to. */
  function Events(n: nat, maxRetries: int, cbs: seq<Callback>): seq<Event> {
    if cbs == [] then
      []
    else
      var init, last := cbs[..|cbs| - 1], cbs[|cbs| - 1];
      match EventOf(NodeRun(n, maxRetries, init), last)
      case None => Events(n, maxRetries, init)
      case Some(e) => Events(n, maxRetries, init) + [e]
  }

  lemma NodeStepErases(s: State, cb: Callback)
    requires Inv(s)
    ensures Core(NodeStep(s, cb)) ==
            match EventOf(s, cb)
            case None => Core(s)
            case Some(e) => Step(Core(s), e).state
  {
    if cb.ApiResponse? {
      if cb.command.Some? && s.exec.IsOpen(cb.command.value) {
        EraseOpenMark(s.exec, cb.command.value, CommandStatus.RUNNING);
      }
    } else if EventOf(s, cb).Some? {
      var e := EventOf(s, cb).value;
      StepErases(s, e);
      EmittedIsCreated(s, e);
      EraseDispatch(Step(s, e).state.exec, Step(s, e).emitted);
    }
  }

  /** Every run of node callbacks, its marks forgotten, is a run of the core. */
  lemma {:induction false} NodeRefinesCore(n: nat, maxRetries: int, cbs: seq<Callback>)
    ensures Core(NodeRun(n, maxRetries, cbs)) == Run(Initial(n, maxRetries), Events(n, maxRetries, cbs)).state
  {
    if cbs == [] {
      var s := Initial(n, maxRetries);
      assert Erase(s.exec).commands == s.exec.commands;
    } else {
      var init, last := cbs[..|cbs| - 1], cbs[|cbs| - 1];
      var s := NodeRun(n, maxRetries, init);
      NodeRefinesCore(n, maxRetries, init);
      NodeKeepsInvariant(s, last);
      NodeStepErases(s, last);
      if EventOf(s, last).Some? {
        var es := Events(n, maxRetries, cbs);
        assert es[..|es| - 1] == Events(n, maxRetries, init);
      }
    }
  }

  /** So what holds of every reachable core state holds at the node: there too at most
      one robot uses the zone, and a COMPLETED mission is delivered. */
  lemma NodeIsSafe(n: nat, maxRetries: int, cbs: seq<Callback>)
    ensures var s := NodeRun(n, maxRetries, cbs);
            && Safety.Reachable(Core(s))
            && (forall a, b ::
                  a in s.robots && b in s.robots && Safety.UsesZone(s, a) && Safety.UsesZone(s, b) ==> a == b)
            && (s.status == COMPLETED ==> Safety.Delivered(s))
  {
    NodeRefinesCore(n, maxRetries, cbs);
    var s := NodeRun(n, maxRetries, cbs);
    assert Safety.Reachable(Core(s));
    forall a, b | a in s.robots && b in s.robots && Safety.UsesZone(s, a) && Safety.UsesZone(s, b)
      ensures a == b
    {
      Safety.ZoneUserHoldsLease(s, a);
      Safety.ZoneUserHoldsLease(s, b);
    }
    if s.status == COMPLETED {
      Safety.AllSucceededIsDelivered(s);
    }
  }
}
