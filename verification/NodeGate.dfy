/** The node around the mission core: which reports reach the core as which events, and
    how the node marks commands submitted and running on the way. */
module NodeGate {
  import opened Domain
  import opened BehaviorTree
  import opened LocalInvariant
  import opened Mission
  import opened Invariant
  import opened StepProof
  import opened Emission
  import opened Effects

  datatype ReportStatus = ReportSucceeded | ReportCancelled | ReportFailed | ReportOther

  datatype ReportSource = Nav2Result | Nav2AlreadyNearTarget | OtherSource(text: string)

  /** An execution result as it arrives; `arrivalVerified` is whether that field is
      literally true, absent texts are None. */
  datatype Report = Report(
    command: nat,
    status: ReportStatus,
    source: ReportSource,
    arrivalVerified: bool,
    cancelReason: Option<Reason>,
    error: Option<Reason>)

  datatype Callback =
    | Operator(request: Event)
    | ExecutionResult(report: Report)
    | ApiResponse(command: Option<nat>)
    | Discarded

  const UNSUPPORTED_SOURCE := OtherReason("unsupported_move_result_source")

  function MoveCompletionFailure(r: Report): Option<Reason> {
    if r.source != Nav2Result && r.source != Nav2AlreadyNearTarget then Some(UNSUPPORTED_SOURCE)
    else if !r.arrivalVerified then Some(ArrivalNotVerified)
    else None
  }

  function Or(a: Option<Reason>, b: Option<Reason>, c: Reason): Reason {
    if a.Some? then a.value else if b.Some? then b.value else c
  }

  /** The event a report on an open command becomes. */
  function Verdict(cmd: Command, r: Report): Event {
    match r.status
    case ReportSucceeded =>
      if cmd.kind.MoveRobot? && MoveCompletionFailure(r).Some? then
        Failed(r.command, MoveCompletionFailure(r).value)
      else
        Completed(r.command)
    case ReportCancelled => Cancelled(r.command, Or(r.cancelReason, r.error, OtherReason("CANCELLED")))
    case ReportFailed => Failed(r.command, Or(r.error, None, OtherReason("FAILED")))
    case ReportOther => Unrecognised
  }

  /** Requests an operator can make, for robots the mission knows. */
  predicate OperatorRequest(robots: set<RobotId>, e: Event) {
    match e
    case StartRequested => true
    case PauseRequested => true
    case ResumeRequested => true
    case AbortRequested => true
    case RobotPauseRequested(robot) => robot in robots
    case RobotResumeRequested(robot) => robot in robots
    case _ => false
  }

  /** The core event a callback leads to, if any. */
  function EventOf(s: State, cb: Callback): Option<Event> {
    match cb
    case Operator(e) => if OperatorRequest(s.robots.Keys, e) then Some(e) else None
    case ExecutionResult(r) =>
      if !s.exec.IsOpen(r.command) || r.status == ReportOther then None
      else Some(Verdict(s.exec.commands[r.command], r))
    case _ => None
  }

  function DispatchOne(ex: Exec, k: nat): Exec
    requires k in ex.commands
  {
    var submitted := ex.SetStatus(k, CommandStatus.SUBMITTED);
    if ex.commands[k].kind.MoveRobot? then submitted else submitted.SetStatus(k, CommandStatus.RUNNING)
  }

  function Dispatch(ex: Exec, ks: seq<nat>): (ex': Exec)
    requires forall k :: k in ks ==> k in ex.commands
    ensures ex'.commands.Keys == ex.commands.Keys
    decreases |ks|
  {
    if ks == [] then ex
    else
      assert forall k :: k in ks[1..] ==> k in ks;
      Dispatch(DispatchOne(ex, ks[0]), ks[1..])
  }

  /** An outcome of the core with its commands sent. */
  function Dispatched(o: Outcome): State
    requires forall k :: k in o.emitted ==> k in o.state.exec.commands
  {
    o.state.(exec := Dispatch(o.state.exec, o.emitted))
  }

  /** One callback of the node. */
  function NodeStep(s: State, cb: Callback): State
    requires Inv(s)
  {
    match cb
    case ApiResponse(Some(k)) =>
      if s.exec.IsOpen(k) then s.(exec := s.exec.SetStatus(k, CommandStatus.RUNNING)) else s
    case _ =>
      match EventOf(s, cb)
      case None => s
      case Some(e) =>
        EmittedIsCreated(s, e);
        Dispatched(Step(s, e))
  }

  // ----- Marks on open commands change nothing else -----

  predicate OpenStatus(status: CommandStatus) {
    status == CommandStatus.SUBMITTED || status == CommandStatus.RUNNING
  }

  lemma OpenMarkCtx(c: Ctx, sib: Task, k: nat, status: CommandStatus)
    requires CtxOk(c, sib) && c.exec.IsOpen(k) && OpenStatus(status)
    ensures CtxOk(c.(exec := c.exec.SetStatus(k, status)), sib)
  {
  }

  lemma OpenMarkExec(s: State, k: nat, status: CommandStatus)
    requires Wf(s) && OpenOk(s) && s.exec.IsOpen(k) && OpenStatus(status)
    ensures var ex := s.exec.SetStatus(k, status);
            ExecWf(s.n, ex) && ExecRel(s.exec.commands[k].task, s.exec, ex, Some(k))
  {
    var ex, id := s.exec.SetStatus(k, status), s.exec.commands[k].task;
    forall j | j in ex.commands && ex.commands[j].task == id && ex.IsOpen(j)
      ensures j == k
    {
      assert s.exec.IsOpen(j);
    }
  }

  lemma OpenMarkChanges(s: State, k: nat, status: CommandStatus)
    requires Inv(s) && s.exec.IsOpen(k) && OpenStatus(status)
    ensures var id := s.exec.commands[k].task;
            && id in s.tasks && Sibling(id) in s.tasks
            && Change(s, View(s, id).(exec := s.exec.SetStatus(k, status)))
  {
    var id := s.exec.commands[k].task;
    OpenIsActive(s, k);
    ViewOk(s, id);
    assert TaskAt(s, id);
    OpenMarkCtx(View(s, id), s.tasks[Sibling(id)], k, status);
    OpenMarkExec(s, k, status);
    var c := View(s, id).(exec := s.exec.SetStatus(k, status));
    assert Guarantee(s, c) && Forward(s, c);
  }

  lemma PutExec(s: State, id: TaskId, ex: Exec)
    requires Wf(s) && id in s.tasks
    ensures Put(s, View(s, id).(exec := ex)) == s.(exec := ex)
  {
  }

  lemma OpenMarkKeepsInvariant(s: State, k: nat, status: CommandStatus)
    requires Inv(s) && s.exec.IsOpen(k) && OpenStatus(status)
    ensures Inv(s.(exec := s.exec.SetStatus(k, status)))
  {
    var id := s.exec.commands[k].task;
    OpenMarkChanges(s, k, status);
    ChangeKeepsInvariant(s, View(s, id).(exec := s.exec.SetStatus(k, status)));
    PutExec(s, id, s.exec.SetStatus(k, status));
  }

  lemma DispatchOneKeepsInvariant(s: State, k: nat)
    requires Inv(s) && s.exec.IsOpen(k)
    ensures var s' := s.(exec := DispatchOne(s.exec, k));
            Inv(s') && forall j :: s'.exec.IsOpen(j) <==> s.exec.IsOpen(j)
  {
    var s1 := s.(exec := s.exec.SetStatus(k, CommandStatus.SUBMITTED));
    OpenMarkKeepsInvariant(s, k, CommandStatus.SUBMITTED);
    OpenMarkKeepsOpen(s.exec, k, CommandStatus.SUBMITTED);
    if s.exec.commands[k].kind.HandleItem? {
      OpenMarkKeepsInvariant(s1, k, CommandStatus.RUNNING);
      OpenMarkKeepsOpen(s1.exec, k, CommandStatus.RUNNING);
      assert s.(exec := DispatchOne(s.exec, k)) == s1.(exec := s1.exec.SetStatus(k, CommandStatus.RUNNING));
    }
  }

  lemma OpenMarkKeepsOpen(ex: Exec, k: nat, status: CommandStatus)
    requires ex.IsOpen(k) && OpenStatus(status)
    ensures forall j :: ex.SetStatus(k, status).IsOpen(j) <==> ex.IsOpen(j)
  {
  }

  lemma {:induction false} DispatchKeepsInvariant(s: State, ks: seq<nat>)
    requires Inv(s) && forall k :: k in ks ==> s.exec.IsOpen(k)
    ensures Inv(s.(exec := Dispatch(s.exec, ks)))
    decreases |ks|
  {
    if ks != [] {
      DispatchOneKeepsInvariant(s, ks[0]);
      assert ks == [ks[0]] + ks[1..];
      DispatchKeepsInvariant(s.(exec := DispatchOne(s.exec, ks[0])), ks[1..]);
    }
  }

  lemma StepDispatchKeepsInvariant(s: State, e: Event)
    requires Inv(s)
    ensures (forall k :: k in Step(s, e).emitted ==> k in Step(s, e).state.exec.commands)
    ensures Inv(Dispatched(Step(s, e)))
  {
    StepKeepsInvariant(s, e);
    EmittedIsCreated(s, e);
    DispatchKeepsInvariant(Step(s, e).state, Step(s, e).emitted);
  }

  /** Whatever callback comes, the mission invariant holds. */
  lemma NodeKeepsInvariant(s: State, cb: Callback)
    requires Inv(s)
    ensures Inv(NodeStep(s, cb))
  {
    if cb.ApiResponse? {
      if cb.command.Some? && s.exec.IsOpen(cb.command.value) {
        OpenMarkKeepsInvariant(s, cb.command.value, CommandStatus.RUNNING);
      }
    } else if EventOf(s, cb).Some? {
      StepDispatchKeepsInvariant(s, EventOf(s, cb).value);
    }
  }

  /** But for marks on commands, a callback does what its event does. */
  lemma NodeRecords(s: State, cb: Callback)
    requires Inv(s)
    ensures var s' := NodeStep(s, cb);
            match EventOf(s, cb)
            case None => s' == s.(exec := s'.exec)
            case Some(e) => s' == Step(s, e).state.(exec := s'.exec)
  {
  }

  // ----- Where a robot is, and where a package is -----

  /** The report of a verified arrival of `robot` at `w`, for an open move there. */
  predicate Arrival(s: State, cb: Callback, robot: RobotId, w: Waypoint) {
    && cb.ExecutionResult?
    && cb.report.status == ReportSucceeded
    && (cb.report.source == Nav2Result || cb.report.source == Nav2AlreadyNearTarget)
    && cb.report.arrivalVerified
    && s.exec.IsOpen(cb.report.command)
    && s.exec.commands[cb.report.command].robot == robot
    && s.exec.commands[cb.report.command].kind == MoveRobot(w)
  }

  /** The report of a success, for an open command that takes package `q` to `p`. */
  predicate HandlingDone(s: State, cb: Callback, q: nat, p: Package) {
    && cb.ExecutionResult?
    && cb.report.status == ReportSucceeded
    && s.exec.IsOpen(cb.report.command)
    && var cmd := s.exec.commands[cb.report.command];
       && cmd.kind.HandleItem? && cmd.kind.item == q && cmd.robot in s.robots
       && p == HandledItem(s, cmd)
  }

  lemma EventIsArrival(s: State, cb: Callback, e: Event, s': State, robot: RobotId)
    requires EventOf(s, cb) == Some(e) && Touches(s, e, s') && robot in s.robots
    ensures robot in s'.robots
    ensures var w := s'.robots[robot].location; w != s.robots[robot].location ==> Arrival(s, cb, robot, w)
  {
  }

  lemma EventIsHandling(s: State, cb: Callback, e: Event, s': State, q: nat)
    requires EventOf(s, cb) == Some(e) && Touches(s, e, s') && q in s.items
    ensures q in s'.items
    ensures var p := s'.items[q]; p != s.items[q] ==> HandlingDone(s, cb, q, p)
  {
  }

  /** A robot's recorded location changes only through a successful, arrival-verified
      report from an allowed source on an open move of that robot to the new location. */
  lemma LocationIsGated(s: State, cb: Callback, robot: RobotId)
    requires Inv(s) && robot in s.robots
    ensures robot in NodeStep(s, cb).robots
    ensures var w := NodeStep(s, cb).robots[robot].location;
            w != s.robots[robot].location ==> Arrival(s, cb, robot, w)
  {
    NodeRecords(s, cb);
    if EventOf(s, cb).Some? {
      var e := EventOf(s, cb).value;
      StepTouches(s, e);
      EventIsArrival(s, cb, e, Step(s, e).state, robot);
    }
  }

  /** A package's record changes only through a successful report on an open command that
      handles it, and then as that command says. */
  lemma CustodyIsGated(s: State, cb: Callback, q: nat)
    requires Inv(s) && q in s.items
    ensures q in NodeStep(s, cb).items
    ensures var p := NodeStep(s, cb).items[q];
            p != s.items[q] ==> HandlingDone(s, cb, q, p)
  {
    NodeRecords(s, cb);
    if EventOf(s, cb).Some? {
      var e := EventOf(s, cb).value;
      StepTouches(s, e);
      EventIsHandling(s, cb, e, Step(s, e).state, q);
    }
  }

  /** Conversely every such report takes effect, paused or not. */
  lemma ArrivalMoves(s: State, cb: Callback, robot: RobotId, w: Waypoint)
    requires Inv(s) && Arrival(s, cb, robot, w)
    ensures robot in NodeStep(s, cb).robots && NodeStep(s, cb).robots[robot].location == w
  {
    var k := cb.report.command;
    assert EventOf(s, cb) == Some(Completed(k));
    NodeRecords(s, cb);
    CompletionEffect(s, k);
  }

  lemma HandlingTakesEffect(s: State, cb: Callback, q: nat, p: Package)
    requires Inv(s) && HandlingDone(s, cb, q, p)
    ensures q in NodeStep(s, cb).items && NodeStep(s, cb).items[q] == p
  {
    var k := cb.report.command;
    assert EventOf(s, cb) == Some(Completed(k));
    NodeRecords(s, cb);
    CompletionEffect(s, k);
  }

  // ----- Life of a command -----

  function Rank(status: CommandStatus): nat {
    match status
    case PENDING => 0
    case SUBMITTED => 1
    case RUNNING => 2
    case _ => 3
  }

  /** No command is forgotten or steps back, and one that has ended stays as it is. */
  ghost predicate Advances(ex: Exec, ex': Exec) {
    forall k :: k in ex.commands ==>
      && k in ex'.commands
      && Rank(ex.commands[k].status) <= Rank(ex'.commands[k].status)
      && (ex.commands[k].IsTerminal() ==> ex'.commands[k] == ex.commands[k])
  }

  lemma AdvancesTransitive(a: Exec, b: Exec, c: Exec)
    requires Advances(a, b) && Advances(b, c)
    ensures Advances(a, c)
  {
  }

  lemma RecordedAdvances(s: State, e: Event)
    ensures Advances(s.exec, Recorded(s, e))
  {
  }

  lemma EmitsAdvances(n: nat, ex: Exec, ex': Exec, emitted: seq<nat>)
    requires ExecWf(n, ex) && Emits(ex, ex', emitted)
    ensures Advances(ex, ex')
  {
  }

  lemma DispatchOneAdvances(ex: Exec, k: nat)
    requires k in ex.commands && ex.commands[k].status == CommandStatus.PENDING
    ensures Advances(ex, DispatchOne(ex, k))
    ensures forall j :: j in ex.commands && j != k ==> DispatchOne(ex, k).commands[j] == ex.commands[j]
  {
  }

  lemma {:induction false} DispatchAdvances(ex: Exec, ks: seq<nat>)
    requires forall k :: k in ks ==> k in ex.commands && ex.commands[k].status == CommandStatus.PENDING
    requires forall i, j :: 0 <= i < j < |ks| ==> ks[i] != ks[j]
    ensures Advances(ex, Dispatch(ex, ks))
    decreases |ks|
  {
    if ks != [] {
      var ex1 := DispatchOne(ex, ks[0]);
      DispatchOneAdvances(ex, ks[0]);
      DispatchAdvances(ex1, ks[1..]);
      AdvancesTransitive(ex, ex1, Dispatch(ex, ks));
    }
  }

  lemma StepAdvances(s: State, e: Event)
    requires Inv(s)
    ensures Advances(s.exec, Step(s, e).state.exec)
  {
    StepEmits(s, e);
    RecordedWf(s, e);
    RecordedAdvances(s, e);
    EmitsAdvances(s.n, Recorded(s, e), Step(s, e).state.exec, Step(s, e).emitted);
    AdvancesTransitive(s.exec, Recorded(s, e), Step(s, e).state.exec);
  }

  lemma DispatchedAdvances(ex: Exec, o: Outcome)
    requires ExactlyCreated(ex, o) && Advances(ex, o.state.exec)
    ensures Advances(ex, Dispatched(o).exec)
  {
    DispatchAdvances(o.state.exec, o.emitted);
    AdvancesTransitive(ex, o.state.exec, Dispatched(o).exec);
  }

  /** PENDING, SUBMITTED, RUNNING, ended: the node's unguarded marks never take a command
      back, because it marks submitted only what was just created. */
  lemma StatusesAdvance(s: State, cb: Callback)
    requires Inv(s)
    ensures Advances(s.exec, NodeStep(s, cb).exec)
  {
    if cb.ApiResponse? {
      ResponseAdvances(s, cb.command);
    } else if EventOf(s, cb).Some? {
      var e := EventOf(s, cb).value;
      EmittedIsCreated(s, e);
      StepAdvances(s, e);
      DispatchedAdvances(s.exec, Step(s, e));
    }
  }

  lemma ResponseAdvances(s: State, accepted: Option<nat>)
    requires Inv(s)
    ensures Advances(s.exec, NodeStep(s, ApiResponse(accepted)).exec)
  {
  }
}
