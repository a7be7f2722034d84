/** Every event is a short sequence of elementary changes. What holds of each of them
    from any invariant state holds of events and of whole runs. */
module MicroSteps {
  import opened Domain
  import opened BehaviorTree
  import opened Mission
  import opened TaskOrder
  import opened Invariant
  import opened StepProof

  datatype Micro =
    | Tick(id: TaskId)
    | Start(id: TaskId)
    | Land(command: nat)
    | End(command: nat, result: CommandStatus, error: Option<Reason>, taskStatus: TaskStatus)
    | Fail(command: nat, result: CommandStatus, reason: Reason)
    | Retry(command: nat, reason: Reason)
    | SetMission(status: MissionStatus)
    | SetPause(robot: RobotId, paused: bool)
    | AbortAll

  predicate Frozen(status: MissionStatus) {
    status == PAUSED || status == ABORTED
  }

  /** The effect of completing `k`, with the task's status as it is. */
  function Effect(s: State, k: nat): Micro
    requires Wf(s) && s.exec.IsOpen(k)
  {
    End(k, CommandStatus.SUCCEEDED, None,
        if Held(s, k) then HeldStatus(s, k) else s.tasks[s.exec.commands[k].task].status)
  }

  ghost predicate Enabled(s: State, m: Micro)
    requires Wf(s)
  {
    match m
    case Tick(id) =>
      id in s.tasks && s.tasks[id].index > 0 && s.status == MissionStatus.RUNNING && !s.robots[RobotOf(id.leg)].paused
    case Start(id) => NextReady(s) == Some(id) && !Frozen(s.status)
    case Land(k) =>
      && s.exec.IsOpen(k) && !Held(s, k) && s.status != COMPLETED
      && s.exec.commands[k].task in s.tasks
      && s.tasks[s.exec.commands[k].task].index > 0
      && Unfinished(s.tasks[s.exec.commands[k].task].status)
    case End(k, result, _, status) =>
      s.exec.IsOpen(k) && Unfinished(status) && (result == CommandStatus.SUCCEEDED || result == CommandStatus.CANCELLED)
    case Fail(k, result, reason) =>
      && s.exec.IsOpen(k)
      && (result == CommandStatus.CANCELLED || (result == CommandStatus.FAILED && !Retries(s, k, reason)))
    case Retry(k, reason) => s.exec.IsOpen(k) && Retries(s, k, reason)
    case SetMission(status) =>
      || (s.status == READY && status == MissionStatus.RUNNING)
      || (s.status == PAUSED && status == MissionStatus.RUNNING)
      || (s.status == MissionStatus.RUNNING && status == PAUSED)
      || (s.status == MissionStatus.RUNNING && status == COMPLETED && AllSucceeded(s))
    case SetPause(robot, _) => robot in s.robots
    case AbortAll => true
  }

  function Ending(s: State, m: Micro): Ctx
    requires Wf(s) && m.End? && s.exec.IsOpen(m.command)
  {
    var c := Ended(s, m.command, m.result, m.error, m.result == CommandStatus.SUCCEEDED);
    c.(task := c.task.(status := m.taskStatus))
  }

  function Perform(s: State, m: Micro): (o: Outcome)
    requires Wf(s) && Enabled(s, m)
    ensures Wf(o.state) && o.state.n == s.n
  {
    match m
    case Tick(id) => AdvanceTask(s, id)
    case Start(id) => Mission.StartTask(s, id)
    case Land(k) => AdvanceTask(Landed(s, k), s.exec.commands[k].task)
    case End(k, result, error, _) =>
      MarkWf(s.n, s.exec, k, result, error);
      PutWf(s, Ending(s, m));
      Outcome(Put(s, Ending(s, m)), [])
    case Fail(k, result, reason) =>
      MarkWf(s.n, s.exec, k, result, Some(reason));
      Outcome(FailTask(s, Ended(s, k, result, Some(reason), false), s.exec.commands[k], reason), [])
    case Retry(k, reason) =>
      var cmd := s.exec.commands[k];
      MarkWf(s.n, s.exec, k, CommandStatus.FAILED, Some(reason));
      AddWf(s.n, s.exec.Mark(k, CommandStatus.FAILED, Some(reason)), cmd.kind, cmd.task, cmd.robot);
      PutWf(s, Retried(s, k, reason));
      Outcome(Put(s, Retried(s, k, reason)), [s.exec.next])
    case SetMission(status) => Outcome(s.(status := status), [])
    case SetPause(robot, paused) => Outcome(SetPaused(s, robot, paused), [])
    case AbortAll => HandleAbort(s)
  }

  lemma LandKeepsInvariant(s: State, k: nat)
    requires Inv(s) && Enabled(s, Land(k))
    ensures Inv(Perform(s, Land(k)).state)
  {
    var id := s.exec.commands[k].task;
    LandedKeepsInvariant(s, k);
    LandedFrame(s, k);
    RunTaskKeepsInvariant(Landed(s, k), id, Landed(s, k).tasks[id]);
  }

  lemma PerformKeepsInvariant(s: State, m: Micro)
    requires Inv(s) && Enabled(s, m)
    ensures Inv(Perform(s, m).state)
  {
    match m
    case Tick(id) => RunTaskKeepsInvariant(s, id, s.tasks[id]);
    case Start(id) =>
      ScheduledInOrder(s, id);
      RunTaskKeepsInvariant(s, id, s.tasks[id].(status := TaskStatus.RUNNING, phase := ACQUIRE_PICKUP));
    case Land(k) => LandKeepsInvariant(s, k);
    case End(k, result, error, status) =>
      EndedKeepsInvariant(s, k, result, error, result == CommandStatus.SUCCEEDED, status);
    case Fail(k, result, reason) => FailTaskKeepsInvariant(s, k, result, reason);
    case Retry(k, reason) => RetryKeepsInvariant(s, k, reason);
    case SetMission(status) => StatusKeepsInvariant(s, status);
    case SetPause(robot, paused) => PauseKeepsInvariant(s, robot, paused);
    case AbortAll => AbortKeepsInvariant(s);
  }

  // ----- Sequences -----

  ghost predicate AllEnabled(s: State, ms: seq<Micro>)
    requires Wf(s)
    decreases |ms|
  {
    ms != [] ==> Enabled(s, ms[0]) && AllEnabled(Perform(s, ms[0]).state, ms[1..])
  }

  ghost function PerformAll(s: State, ms: seq<Micro>): (o: Outcome)
    requires Wf(s) && AllEnabled(s, ms)
    ensures Wf(o.state) && o.state.n == s.n
    decreases |ms|
  {
    if ms == [] then
      Outcome(s, [])
    else
      var o := Perform(s, ms[0]);
      var o' := PerformAll(o.state, ms[1..]);
      Outcome(o'.state, o.emitted + o'.emitted)
  }

  /** `ms` takes `s` to the outcome `o`. */
  ghost predicate Plans(s: State, ms: seq<Micro>, o: Outcome)
    requires Wf(s)
  {
    AllEnabled(s, ms) && PerformAll(s, ms) == o
  }

  lemma PlanOne(s: State, m: Micro)
    requires Wf(s) && Enabled(s, m)
    ensures Plans(s, [m], Perform(s, m))
  {
    var o := Perform(s, m);
    assert [m][1..] == [];
    assert PerformAll(o.state, []) == Outcome(o.state, []);
    assert o.emitted + [] == o.emitted;
  }

  lemma ConsParts(m: Micro, ms: seq<Micro>)
    ensures ([m] + ms)[0] == m && ([m] + ms)[1..] == ms
  {
  }

  lemma PlanCons(s: State, m: Micro, ms: seq<Micro>, o: Outcome)
    requires Wf(s) && Enabled(s, m) && Plans(Perform(s, m).state, ms, o)
    ensures Plans(s, [m] + ms, Outcome(o.state, Perform(s, m).emitted + o.emitted))
  {
    ConsParts(m, ms);
  }

  /** The changes an advance is made of. */
  predicate Moves(m: Micro) {
    m.Tick? || m.Start? || m.SetMission?
  }

  lemma PlanStartNext(s: State, emitted: seq<nat>) returns (ms: seq<Micro>)
    requires Inv(s) && !Frozen(s.status)
    ensures forall x :: x in ms ==> Moves(x)
    ensures exists more :: Plans(s, ms, Outcome(StartNext(s, emitted).state, more)) &&
                           StartNext(s, emitted).emitted == emitted + more
  {
    match NextReady(s)
    case None =>
      ms := [];
      assert Plans(s, ms, Outcome(s, []));
      assert emitted + [] == emitted;
    case Some(id) =>
      ms := [Start(id)];
      PlanOne(s, Start(id));
  }

  lemma PlanAdvanceFrom(s: State, ids: seq<TaskId>) returns (ms: seq<Micro>)
    requires Inv(s) && s.status == MissionStatus.RUNNING && forall x :: x in ids ==> x in s.tasks
    ensures forall x :: x in ms ==> Moves(x)
    ensures Plans(s, ms, AdvanceFrom(s, ids))
    decreases |ids|
  {
    if ids == [] {
      ms := PlanStartNext(s, []);
      var more :| Plans(s, ms, Outcome(StartNext(s, []).state, more)) && StartNext(s, []).emitted == [] + more;
      assert [] + more == more;
    } else {
      assert ids == [ids[0]] + ids[1..];
      if Ticks(s, ids[0]) {
        var m := Tick(ids[0]);
        assert Enabled(s, m);
        PerformKeepsInvariant(s, m);
        var o := AdvanceTask(s, ids[0]);
        if o.emitted != [] {
          var rest := PlanStartNext(o.state, o.emitted);
          var p := StartNext(o.state, o.emitted);
          var more :| Plans(o.state, rest, Outcome(p.state, more)) && p.emitted == o.emitted + more;
          PlanCons(s, m, rest, Outcome(p.state, more));
          ms := [m] + rest;
        } else {
          var rest := PlanAdvanceFrom(o.state, ids[1..]);
          PlanCons(s, m, rest, AdvanceFrom(o.state, ids[1..]));
          NothingBefore(AdvanceFrom(o.state, ids[1..]));
          ms := [m] + rest;
        }
      } else {
        ms := PlanAdvanceFrom(s, ids[1..]);
      }
    }
  }

  lemma PlanAdvance(s: State) returns (ms: seq<Micro>)
    requires Inv(s)
    ensures forall x :: x in ms ==> Moves(x)
    ensures Plans(s, ms, Advance(s))
  {
    if s.status != MissionStatus.RUNNING {
      ms := [];
    } else if AllSucceeded(s) {
      ms := [SetMission(COMPLETED)];
      PlanOne(s, SetMission(COMPLETED));
    } else {
      ms := PlanAdvanceFrom(s, Ids(s.n));
    }
  }

  /** A silent change in front of a plan. */
  lemma NothingBefore(o: Outcome)
    ensures Outcome(o.state, [] + o.emitted) == o
  {
    assert [] + o.emitted == o.emitted;
  }

  /** A silent change, then an advance. */
  lemma PlanThenAdvance(s: State, m: Micro, s': State) returns (ms: seq<Micro>)
    requires Inv(s) && Enabled(s, m) && Perform(s, m) == Outcome(s', [])
    ensures Inv(s') && (forall x :: x in ms ==> Moves(x))
    ensures Plans(s, [m] + ms, Advance(s'))
  {
    PerformKeepsInvariant(s, m);
    ms := PlanAdvance(s');
    PlanCons(s, m, ms, Advance(s'));
    NothingBefore(Advance(s'));
  }

  lemma OpenLands(s: State, k: nat)
    requires Inv(s) && s.exec.IsOpen(k)
    ensures Enabled(s, Effect(s, k)) && (!Held(s, k) ==> Enabled(s, Land(k)))
    ensures s.tasks[s.exec.commands[k].task].active == Some(k) && s.exec.commands[k].task in Landed(s, k).tasks
  {
    OpenIsActive(s, k);
    LandedFrame(s, k);
    assert TaskAt(s, s.exec.commands[k].task);
  }

  lemma PlanLand(s: State, k: nat) returns (ms: seq<Micro>)
    requires Inv(s) && Enabled(s, Land(k))
    requires s.exec.commands[k].task in Landed(s, k).tasks
    ensures forall x :: x in ms ==> Moves(x)
    ensures Plans(s, [Land(k)] + ms, Follow(Landed(s, k), s.exec.commands[k].task))
  {
    var m := Land(k);
    var o := Perform(s, m);
    if o.emitted != [] {
      PerformKeepsInvariant(s, m);
      LandStatus(s, k);
      ms := PlanStartNext(o.state, o.emitted);
      var p := StartNext(o.state, o.emitted);
      var more :| Plans(o.state, ms, Outcome(p.state, more)) && p.emitted == o.emitted + more;
      PlanCons(s, m, ms, Outcome(p.state, more));
    } else {
      ms := PlanThenAdvance(s, m, Perform(s, m).state);
    }
  }

  lemma LandStatus(s: State, k: nat)
    requires Wf(s) && Enabled(s, Land(k))
    ensures Perform(s, Land(k)).state.status == s.status
  {
  }

  lemma NoPauses(m: Micro, rest: seq<Micro>)
    requires !m.SetPause? && forall x :: x in rest ==> Moves(x)
    ensures forall x :: x in [m] + rest ==> !x.SetPause?
  {
  }

  lemma PlanHeld(s: State, k: nat)
    requires Wf(s) && s.exec.IsOpen(k) && Enabled(s, Effect(s, k)) && Held(s, k)
    ensures Plans(s, [Effect(s, k)], Outcome(Landed(s, k), []))
  {
    PlanOne(s, Effect(s, k));
  }

  lemma PlanResult(s: State, k: nat, p: Outcome) returns (ms: seq<Micro>)
    requires Inv(s) && s.exec.IsOpen(k) && s.exec.commands[k].task in Landed(s, k).tasks
    requires p == if Held(s, k) then Outcome(Landed(s, k), []) else Follow(Landed(s, k), s.exec.commands[k].task)
    ensures forall x :: x in ms ==> !x.SetPause?
    ensures Plans(s, ms, p)
  {
    OpenLands(s, k);
    if Held(s, k) {
      PlanHeld(s, k);
      ms := [Effect(s, k)];
    } else {
      var rest := PlanLand(s, k);
      ms := [Land(k)] + rest;
      NoPauses(Land(k), rest);
    }
  }

  lemma PlanCompleted(s: State, k: nat) returns (ms: seq<Micro>)
    requires Inv(s)
    ensures forall x :: x in ms ==> !x.SetPause?
    ensures Plans(s, ms, HandleCompleted(s, k))
  {
    if !s.exec.IsOpen(k) {
      ms := [];
    } else {
      OpenIsActive(s, k);
      CompletedCases(s, k);
      ms := PlanResult(s, k, HandleCompleted(s, k));
    }
  }

  lemma PlanFailed(s: State, k: nat, error: Reason) returns (ms: seq<Micro>)
    requires Inv(s)
    ensures forall x :: x in ms ==> !x.SetPause?
    ensures Plans(s, ms, HandleFailed(s, k, error))
  {
    if !s.exec.IsOpen(k) {
      ms := [];
    } else {
      FailedCases(s, k, error);
      if Retries(s, k, error) {
        ms := PlanAlone(s, Retry(k, error));
      } else {
        ms := PlanAlone(s, Fail(k, CommandStatus.FAILED, error));
      }
    }
  }

  lemma PlanAlone(s: State, m: Micro) returns (ms: seq<Micro>)
    requires Wf(s) && Enabled(s, m) && !m.SetPause?
    ensures forall x :: x in ms ==> !x.SetPause?
    ensures Plans(s, ms, Perform(s, m))
  {
    ms := [m];
    PlanOne(s, m);
  }

  /** A cancellation for a pause: the task is released, and the mission may advance. */
  lemma PlanReleased(s: State, k: nat, reason: Reason, advance: bool) returns (ms: seq<Micro>)
    requires Inv(s) && s.exec.IsOpen(k)
    ensures forall x :: x in ms ==> !x.SetPause?
    ensures var m := End(k, CommandStatus.CANCELLED, Some(reason), TaskStatus.RUNNING);
            && Enabled(s, m)
            && Plans(s, ms, if advance then Advance(Perform(s, m).state) else Perform(s, m))
  {
    var m := End(k, CommandStatus.CANCELLED, Some(reason), TaskStatus.RUNNING);
    if advance {
      var rest := PlanThenAdvance(s, m, Perform(s, m).state);
      ms := [m] + rest;
      NoPauses(m, rest);
    } else {
      ms := PlanAlone(s, m);
    }
  }

  lemma PlanCancelled(s: State, k: nat, reason: Reason) returns (ms: seq<Micro>)
    requires Inv(s)
    ensures forall x :: x in ms ==> !x.SetPause?
    ensures Plans(s, ms, HandleCancelled(s, k, reason))
  {
    if !s.exec.IsOpen(k) {
      ms := [];
    } else {
      OpenIsActive(s, k);
      CancelledCases(s, k, reason);
      if reason == OperatorPause || reason == OperatorRobotPause {
        ms := PlanReleased(s, k, reason, reason == OperatorRobotPause && !s.robots[s.exec.commands[k].robot].paused);
      } else if reason == OperatorAbort {
        ms := PlanAlone(s, End(k, CommandStatus.CANCELLED, Some(reason), TaskStatus.CANCELLED));
      } else {
        ms := PlanAlone(s, Fail(k, CommandStatus.CANCELLED, reason));
      }
    }
  }

  /** The mission starts, or resumes, and advances. */
  lemma PlanRunning(s: State) returns (ms: seq<Micro>)
    requires Inv(s) && (s.status == READY || s.status == PAUSED)
    ensures forall x :: x in ms ==> !x.SetPause?
    ensures Plans(s, ms, Advance(s.(status := MissionStatus.RUNNING)))
  {
    var m := SetMission(MissionStatus.RUNNING);
    var rest := PlanThenAdvance(s, m, s.(status := MissionStatus.RUNNING));
    ms := [m] + rest;
    NoPauses(m, rest);
  }

  lemma PlanRobotResume(s: State, robot: RobotId) returns (ms: seq<Micro>)
    requires Inv(s)
    ensures forall x :: x in ms ==> (x.SetPause? ==> x == SetPause(robot, false))
    ensures Plans(s, ms, HandleRobotResume(s, robot))
  {
    if robot in s.robots && s.robots[robot].paused {
      var m := SetPause(robot, false);
      var rest := PlanThenAdvance(s, m, SetPaused(s, robot, false));
      ms := [m] + rest;
    } else {
      ms := [];
    }
  }

  /** Requests that change one thing and advance nothing. */
  lemma PlanRequest(s: State, e: Event) returns (ms: seq<Micro>)
    requires Inv(s) && (e == PauseRequested || e == AbortRequested || e == Unrecognised || e.RobotPauseRequested?)
    ensures forall x :: x in ms ==> (x.SetPause? ==> x.paused)
    ensures Plans(s, ms, Step(s, e))
  {
    ms := [];
    match e
    case PauseRequested =>
      if s.status == MissionStatus.RUNNING {
        ms := [SetMission(PAUSED)];
        PlanOne(s, SetMission(PAUSED));
      }
    case RobotPauseRequested(robot) =>
      if robot in s.robots {
        ms := [SetPause(robot, true)];
        PlanOne(s, SetPause(robot, true));
      }
    case AbortRequested =>
      ms := [AbortAll];
      PlanOne(s, AbortAll);
    case _ =>
  }

  /** Every event is a sequence of elementary changes, each enabled where it is made. */
  lemma PlanStep(s: State, e: Event) returns (ms: seq<Micro>)
    requires Inv(s)
    ensures Plans(s, ms, Step(s, e))
    ensures forall robot :: SetPause(robot, false) in ms ==> e == RobotResumeRequested(robot)
  {
    match e
    case StartRequested =>
      if s.status == READY {
        ms := PlanRunning(s);
      } else {
        ms := PlanAdvance(s);
      }
    case Completed(k) => ms := PlanCompleted(s, k);
    case Failed(k, error) => ms := PlanFailed(s, k, error);
    case Cancelled(k, reason) => ms := PlanCancelled(s, k, reason);
    case ResumeRequested =>
      if s.status == PAUSED {
        ms := PlanRunning(s);
      } else {
        ms := [];
      }
    case RobotResumeRequested(robot) => ms := PlanRobotResume(s, robot);
    case _ => ms := PlanRequest(s, e);
  }
}
