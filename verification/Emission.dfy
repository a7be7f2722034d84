/** What one event emits: exactly the commands it creates, at most two, under fresh
    ids, for different robots. */
module Emission {
  import opened Domain
  import opened TaskOrder
  import opened LocalInvariant
  import opened Mission
  import opened Invariant
  import opened StepProof
  import opened MicroSteps

  function Added(ex: Exec, cmd: Command): Exec {
    ex.Add(cmd.kind, cmd.task, cmd.robot)
  }

  /** `emitted` is what turns `ex` into `ex'`: nothing, one command, or one command for
      each robot. */
  predicate Emits(ex: Exec, ex': Exec, emitted: seq<nat>) {
    if emitted == [] then
      ex' == ex
    else
      && ex.next in ex'.commands
      && var first := Added(ex, ex'.commands[ex.next]);
         if |emitted| == 1 then
           emitted == [ex.next] && ex' == first
         else
           && emitted == [ex.next, ex.next + 1]
           && ex.next + 1 in ex'.commands
           && ex' == Added(first, ex'.commands[ex.next + 1])
           && ex'.commands[ex.next].robot != ex'.commands[ex.next + 1].robot
  }

  lemma OpenRobotWorks(s: State, k: nat)
    requires Inv(s) && s.exec.IsOpen(k)
    ensures s.robots[s.exec.commands[k].robot].status != IDLE
  {
    var id := s.exec.commands[k].task;
    OpenIsActive(s, k);
    assert TaskAt(s, id);
    var leg := id.leg;
    assert RobotOk(leg, s.robots[RobotOf(leg)]);
  }

  lemma RunTaskEmits(s: State, id: TaskId, t: Task)
    requires Wf(s) && id in s.tasks && t.id == id
    ensures var o := RunTask(s, id, t);
            && Emits(s.exec, o.state.exec, o.emitted) && |o.emitted| <= 1
            && (o.emitted != [] ==> o.state.exec.commands[s.exec.next].robot == RobotOf(id.leg))
            && o.state.status == s.status
  {
    TickExec(View(s, id).(task := t));
  }

  lemma EmitsAppend(a: Exec, b: Exec, e1: seq<nat>, c: Exec, e2: seq<nat>)
    requires Emits(a, b, e1) && Emits(b, c, e2) && |e1| <= 1 && |e2| <= 1
    requires e1 != [] && e2 != [] ==> b.commands[a.next].robot != c.commands[b.next].robot
    ensures Emits(a, c, e1 + e2)
  {
    if e1 == [] {
      assert e1 + e2 == e2;
    } else if e2 == [] {
      assert e1 + e2 == e1;
    } else {
      assert e1 + e2 == [a.next, a.next + 1];
      assert c.commands[a.next] == b.commands[a.next];
    }
  }

  lemma StartNextEmits(ex: Exec, s: State, emitted: seq<nat>)
    requires Inv(s) && Emits(ex, s.exec, emitted) && |emitted| <= 1
    ensures var o := StartNext(s, emitted);
            Emits(ex, o.state.exec, o.emitted) && o.state.status == s.status
  {
    match NextReady(s)
    case None =>
    case Some(id) => StartTaskEmits(ex, s, emitted, id);
  }

  lemma StartTaskEmits(ex: Exec, s: State, emitted: seq<nat>, id: TaskId)
    requires Inv(s) && Emits(ex, s.exec, emitted) && |emitted| <= 1
    requires id in s.tasks && RobotAvailable(s, RobotOf(id.leg))
    ensures var o := Mission.StartTask(s, id);
            Emits(ex, o.state.exec, emitted + o.emitted) && o.state.status == s.status
  {
    var t := s.tasks[id].(status := TaskStatus.RUNNING, phase := ACQUIRE_PICKUP);
    RunTaskEmits(s, id, t);
    var o := RunTask(s, id, t);
    if emitted != [] {
      OpenRobotWorks(s, ex.next);
    }
    EmitsAppend(ex, s.exec, emitted, o.state.exec, o.emitted);
  }

  lemma {:induction false} AdvanceFromEmits(s: State, ids: seq<TaskId>)
    requires Inv(s) && s.status != COMPLETED && forall x :: x in ids ==> x in s.tasks
    ensures var o := AdvanceFrom(s, ids);
            Emits(s.exec, o.state.exec, o.emitted) && o.state.status == s.status
    decreases |ids|
  {
    if ids == [] {
      StartNextEmits(s.exec, s, []);
    } else {
      assert ids == [ids[0]] + ids[1..];
      if Ticks(s, ids[0]) {
        RunTaskKeepsInvariant(s, ids[0], s.tasks[ids[0]]);
        RunTaskEmits(s, ids[0], s.tasks[ids[0]]);
        var o := AdvanceTask(s, ids[0]);
        if o.emitted != [] {
          StartNextEmits(s.exec, o.state, o.emitted);
        } else {
          AdvanceFromEmits(o.state, ids[1..]);
        }
      } else {
        AdvanceFromEmits(s, ids[1..]);
      }
    }
  }

  lemma AdvanceEmits(s: State)
    requires Inv(s)
    ensures var o := Advance(s);
            && Emits(s.exec, o.state.exec, o.emitted)
            && (o.state.status == s.status ||
                (s.status == MissionStatus.RUNNING && o.state.status == COMPLETED && AllSucceeded(s)))
  {
    if s.status == MissionStatus.RUNNING && !AllSucceeded(s) {
      AdvanceFromEmits(s, Ids(s.n));
    }
  }

  lemma FollowEmits(s: State, id: TaskId)
    requires Inv(s) && id in s.tasks && s.tasks[id].index > 0 && s.status != COMPLETED
    ensures var o := Follow(s, id);
            Emits(s.exec, o.state.exec, o.emitted) && (o.state.status == s.status || o.state.status == COMPLETED)
  {
    RunTaskKeepsInvariant(s, id, s.tasks[id]);
    RunTaskEmits(s, id, s.tasks[id]);
    var o := AdvanceTask(s, id);
    if o.emitted != [] {
      StartNextEmits(s.exec, o.state, o.emitted);
    } else {
      AdvanceEmits(o.state);
    }
  }

  /** The execution manager right after the event's own result was recorded. */
  function Recorded(s: State, e: Event): Exec {
    match e
    case Completed(k) => if s.exec.IsOpen(k) then s.exec.Mark(k, CommandStatus.SUCCEEDED, None) else s.exec
    case Failed(k, error) => if s.exec.IsOpen(k) then s.exec.Mark(k, CommandStatus.FAILED, Some(error)) else s.exec
    case Cancelled(k, reason) =>
      if s.exec.IsOpen(k) then s.exec.Mark(k, CommandStatus.CANCELLED, Some(reason)) else s.exec
    case _ => s.exec
  }

  lemma CompletedEmits(s: State, k: nat)
    requires Inv(s)
    ensures var o := HandleCompleted(s, k);
            Emits(Recorded(s, Completed(k)), o.state.exec, o.emitted)
  {
    if s.exec.IsOpen(k) {
      OpenIsActive(s, k);
      OpenLands(s, k);
      CompletedCases(s, k);
      if !Held(s, k) {
        LandedKeepsInvariant(s, k);
        LandedFrame(s, k);
        FollowEmits(Landed(s, k), s.exec.commands[k].task);
      }
    }
  }

  lemma FailedEmits(s: State, k: nat, error: Reason)
    requires Inv(s)
    ensures var o := HandleFailed(s, k, error);
            Emits(Recorded(s, Failed(k, error)), o.state.exec, o.emitted)
  {
    if s.exec.IsOpen(k) {
      FailedCases(s, k, error);
    }
  }

  lemma CancelledEmits(s: State, k: nat, reason: Reason)
    requires Inv(s)
    ensures var o := HandleCancelled(s, k, reason);
            Emits(Recorded(s, Cancelled(k, reason)), o.state.exec, o.emitted)
  {
    if s.exec.IsOpen(k) {
      OpenIsActive(s, k);
      var c := Ended(s, k, CommandStatus.CANCELLED, Some(reason), false);
      assert c.exec == Recorded(s, Cancelled(k, reason));
      if reason == OperatorPause || reason == OperatorRobotPause {
        CancelledAdvanceEmits(s, k, reason);
      }
    }
  }

  lemma CancelledAdvanceEmits(s: State, k: nat, reason: Reason)
    requires Inv(s) && s.exec.IsOpen(k)
    ensures var c := Ended(s, k, CommandStatus.CANCELLED, Some(reason), false);
            var s' := Put(s, c.(task := c.task.(status := TaskStatus.RUNNING)));
            Wf(s') && Emits(c.exec, Advance(s').state.exec, Advance(s').emitted)
  {
    EndedKeepsInvariant(s, k, CommandStatus.CANCELLED, Some(reason), false, TaskStatus.RUNNING);
    var c := Ended(s, k, CommandStatus.CANCELLED, Some(reason), false);
    AdvanceEmits(Put(s, c.(task := c.task.(status := TaskStatus.RUNNING))));
  }

  lemma StepEmits(s: State, e: Event)
    requires Inv(s)
    ensures var o := Step(s, e);
            Emits(Recorded(s, e), o.state.exec, o.emitted)
  {
    match e
    case StartRequested => StartedEmits(s);
    case Completed(k) => CompletedEmits(s, k);
    case Failed(k, error) => FailedEmits(s, k, error);
    case Cancelled(k, reason) => CancelledEmits(s, k, reason);
    case ResumeRequested => ResumedEmits(s);
    case RobotResumeRequested(robot) => RobotResumedEmits(s, robot);
    case _ =>
  }

  lemma StartedEmits(s: State)
    requires Inv(s)
    ensures Emits(s.exec, HandleStart(s).state.exec, HandleStart(s).emitted)
  {
    StatusKeepsInvariant(s, MissionStatus.RUNNING);
    AdvanceEmits(if s.status == READY then s.(status := MissionStatus.RUNNING) else s);
  }

  lemma ResumedEmits(s: State)
    requires Inv(s)
    ensures var o := Step(s, ResumeRequested); Emits(s.exec, o.state.exec, o.emitted)
  {
    StatusKeepsInvariant(s, MissionStatus.RUNNING);
    AdvanceEmits(s.(status := MissionStatus.RUNNING));
  }

  lemma RobotResumedEmits(s: State, robot: RobotId)
    requires Inv(s)
    ensures var o := HandleRobotResume(s, robot); Emits(s.exec, o.state.exec, o.emitted)
  {
    if robot in s.robots {
      PauseKeepsInvariant(s, robot, false);
      AdvanceEmits(SetPaused(s, robot, false));
    }
  }

  /** An execution manager holds no command at or beyond its next id. */
  lemma EmitsKeys(n: nat, ex: Exec, ex': Exec, emitted: seq<nat>)
    requires ExecWf(n, ex) && Emits(ex, ex', emitted)
    ensures |emitted| <= 2
    ensures forall k :: k in emitted <==> k in ex'.commands && k !in ex.commands
    ensures forall k :: k in emitted ==> ex'.commands[k].status == CommandStatus.PENDING
    ensures |emitted| == 2 ==>
              emitted[0] != emitted[1] && ex'.commands[emitted[0]].robot != ex'.commands[emitted[1]].robot
  {
  }

  lemma RecordedWf(s: State, e: Event)
    requires Wf(s)
    ensures ExecWf(s.n, Recorded(s, e))
    ensures forall k :: k in Recorded(s, e).commands <==> k in s.exec.commands
  {
  }

  /** The commands an event returns are exactly the commands it creates. There are at
      most two, they are still pending and each is the active command of its task, and
      two of them are for different robots. */
  ghost predicate ExactlyCreated(ex: Exec, o: Outcome) {
    var ex' := o.state.exec;
    && |o.emitted| <= 2
    && (forall k :: k in o.emitted <==> k in ex'.commands && k !in ex.commands)
    && (forall k :: k in o.emitted ==>
          ex'.commands[k].status == CommandStatus.PENDING &&
          ex'.commands[k].task in o.state.tasks && o.state.tasks[ex'.commands[k].task].active == Some(k))
    && (|o.emitted| == 2 ==>
          o.emitted[0] != o.emitted[1] && ex'.commands[o.emitted[0]].robot != ex'.commands[o.emitted[1]].robot)
  }

  lemma CreatedFrom(n: nat, ex: Exec, mid: Exec, o: Outcome)
    requires Inv(o.state) && ExecWf(n, mid) && Emits(mid, o.state.exec, o.emitted)
    requires forall k :: k in mid.commands <==> k in ex.commands
    ensures ExactlyCreated(ex, o)
  {
    EmitsKeys(n, mid, o.state.exec, o.emitted);
    forall k | k in o.emitted
      ensures var id := o.state.exec.commands[k].task; id in o.state.tasks && o.state.tasks[id].active == Some(k)
    {
      OpenIsActive(o.state, k);
    }
  }

  lemma EmittedIsCreated(s: State, e: Event)
    requires Inv(s)
    ensures ExactlyCreated(s.exec, Step(s, e))
  {
    StepEmits(s, e);
    StepKeepsInvariant(s, e);
    RecordedWf(s, e);
    CreatedFrom(s.n, s.exec, Recorded(s, e), Step(s, e));
  }
}
