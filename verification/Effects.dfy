/** What one event can do to robots and packages: a robot is moved and a package handled
    only by the completion of a command for it, and a robot is paused and resumed only by
    requests about it. */
module Effects {
  import opened Domain
  import opened BehaviorTree
  import opened Mission
  import opened Invariant
  import opened StepProof
  import opened Delivery

  /** The event completes an open move of `robot` to `w`. */
  predicate Completes(s: State, e: Event, robot: RobotId, w: Waypoint) {
    && e.Completed? && s.exec.IsOpen(e.command)
    && s.exec.commands[e.command].robot == robot
    && s.exec.commands[e.command].kind == MoveRobot(w)
  }

  /** The event completes an open command that loads package `q`, or unloads it, to `p`. */
  predicate Handles(s: State, e: Event, q: nat, p: Package) {
    && e.Completed? && s.exec.IsOpen(e.command)
    && var cmd := s.exec.commands[e.command];
       && cmd.kind.HandleItem? && cmd.kind.item == q && cmd.robot in s.robots
       && p == HandledItem(s, cmd)
  }

  function HandledItem(s: State, cmd: Command): Package
    requires cmd.kind.HandleItem? && cmd.robot in s.robots
  {
    if cmd.kind.handling == Load then
      Package(s.robots[cmd.robot].location, Some(cmd.robot))
    else
      Package(EndpointOf(cmd.task.leg, Dropoff), None)
  }

  predicate PausedAfter(paused: bool, e: Event, robot: RobotId) {
    match e
    case RobotPauseRequested(r) => paused || r == robot
    case RobotResumeRequested(r) => paused && r != robot
    case _ => paused
  }

  ghost predicate Touches(s: State, e: Event, s': State) {
    && (forall r :: r in s.robots ==>
          && r in s'.robots
          && (s'.robots[r].location != s.robots[r].location ==> Completes(s, e, r, s'.robots[r].location))
          && s'.robots[r].paused == PausedAfter(s.robots[r].paused, e, r))
    && (forall q :: q in s.items ==>
          q in s'.items && (s'.items[q] != s.items[q] ==> Handles(s, e, q, s'.items[q])))
  }

  // ----- Completions -----

  lemma LandingEffect(s: State, k: nat)
    requires Inv(s) && s.exec.IsOpen(k)
    ensures var cmd, c := s.exec.commands[k], Landing(s, k);
            && cmd.task in s.tasks && cmd.robot == RobotOf(cmd.task.leg) && cmd.robot in s.robots
            && c.task.id == cmd.task && c.robot.paused == s.robots[cmd.robot].paused
            && match cmd.kind
               case MoveRobot(w) => c.robot.location == w && c.item == s.items[cmd.task.item]
               case HandleItem(q, _) =>
                 && q == cmd.task.item && c.item == HandledItem(s, cmd)
                 && c.robot.location == s.robots[cmd.robot].location
  {
    OpenIsActive(s, k);
    assert TaskAt(s, s.exec.commands[k].task);
  }

  lemma EffectTouches(s: State, c: Ctx, e: Event)
    requires Wf(s) && c.task.id in s.tasks && e.Completed?
    requires var r, q := RobotOf(c.task.id.leg), c.task.id.item;
             && c.robot.paused == s.robots[r].paused
             && (c.robot.location != s.robots[r].location ==> Completes(s, e, r, c.robot.location))
             && (c.item != s.items[q] ==> Handles(s, e, q, c.item))
    ensures Touches(s, e, Put(s, c))
  {
  }

  lemma ThenAdvanced(s: State, e: Event, s1: State, s2: State)
    requires Touches(s, e, s1) && Wf(s) && Wf(s1) && s1.n == s.n && SamePauses(s1, s2)
    ensures Touches(s, e, s2)
  {
  }

  lemma CompletedTouches(s: State, k: nat)
    requires Inv(s) && s.exec.IsOpen(k)
    ensures Touches(s, Completed(k), HandleCompleted(s, k).state)
  {
    OpenIsActive(s, k);
    CompletedCases(s, k);
    LandedIsPut(s, k);
    LandingEffect(s, k);
    EffectTouches(s, Landing(s, k), Completed(k));
    var s1, id := Landed(s, k), s.exec.commands[k].task;
    FollowPauses(s1, id);
    ThenAdvanced(s, Completed(k), s1, Follow(s1, id).state);
  }

  /** A completion has its effect whatever the mission or the robot are doing. */
  lemma CompletionEffect(s: State, k: nat)
    requires Inv(s) && s.exec.IsOpen(k)
    ensures var s', cmd := HandleCompleted(s, k).state, s.exec.commands[k];
            match cmd.kind
            case MoveRobot(w) => cmd.robot in s'.robots && s'.robots[cmd.robot].location == w
            case HandleItem(q, _) => cmd.robot in s.robots && q in s'.items && s'.items[q] == HandledItem(s, cmd)
  {
    var s1, id := Landed(s, k), s.exec.commands[k].task;
    OpenIsActive(s, k);
    CompletedCases(s, k);
    LandedIsPut(s, k);
    LandingEffect(s, k);
    FollowPauses(s1, id);
  }

  // ----- Failures and cancellations -----

  lemma PutTouches(s: State, c: Ctx, status: MissionStatus, e: Event)
    requires Wf(s) && c.task.id in s.tasks && c.item == s.items[c.task.id.item]
    requires c.robot == s.robots[RobotOf(c.task.id.leg)] && !e.RobotPauseRequested? && !e.RobotResumeRequested?
    ensures Touches(s, e, Put(s, c).(status := status))
  {
  }

  lemma FailedTouches(s: State, k: nat, error: Reason)
    requires Inv(s) && s.exec.IsOpen(k)
    ensures Touches(s, Failed(k, error), HandleFailed(s, k, error).state)
  {
    FailedCases(s, k, error);
    if Retries(s, k, error) {
      PutTouches(s, Retried(s, k, error), s.status, Failed(k, error));
    } else {
      PutTouches(s, Failing(s, k, CommandStatus.FAILED, error), MissionStatus.FAILED, Failed(k, error));
    }
  }

  lemma CancelledTouches(s: State, k: nat, reason: Reason)
    requires Inv(s) && s.exec.IsOpen(k)
    ensures Touches(s, Cancelled(k, reason), HandleCancelled(s, k, reason).state)
  {
    OpenIsActive(s, k);
    CancelledCases(s, k, reason);
    var c := Ended(s, k, CommandStatus.CANCELLED, Some(reason), false);
    if Spares(reason) {
      var released := Put(s, c.(task := c.task.(status := TaskStatus.RUNNING)));
      PutTouches(s, c.(task := c.task.(status := TaskStatus.RUNNING)), s.status, Cancelled(k, reason));
      PutTouches(s, c.(task := c.task.(status := TaskStatus.CANCELLED)), s.status, Cancelled(k, reason));
      AdvancePauses(released);
      ThenAdvanced(s, Cancelled(k, reason), released, Advance(released).state);
    } else {
      PutTouches(s, Failing(s, k, CommandStatus.CANCELLED, reason), MissionStatus.FAILED, Cancelled(k, reason));
    }
  }

  lemma ResultTouches(s: State, e: Event)
    requires Inv(s) && (e.Completed? || e.Failed? || e.Cancelled?)
    ensures Touches(s, e, Step(s, e).state)
  {
    if s.exec.IsOpen(e.command) {
      match e
      case Completed(k) => CompletedTouches(s, k);
      case Failed(k, error) => FailedTouches(s, k, error);
      case Cancelled(k, reason) => CancelledTouches(s, k, reason);
    }
  }

  // ----- Every event -----

  lemma RobotResumeTouches(s: State, robot: RobotId)
    requires Inv(s)
    ensures Touches(s, RobotResumeRequested(robot), HandleRobotResume(s, robot).state)
  {
    if robot in s.robots {
      var s1 := SetPaused(s, robot, false);
      PauseKeepsInvariant(s, robot, false);
      AdvancePauses(s1);
      ThenAdvanced(s, RobotResumeRequested(robot), s1, Advance(s1).state);
    }
  }

  lemma StepTouches(s: State, e: Event)
    requires Inv(s)
    ensures Touches(s, e, Step(s, e).state)
  {
    match e
    case StartRequested => AdvancePauses(if s.status == READY then s.(status := MissionStatus.RUNNING) else s);
    case Completed(_) => ResultTouches(s, e);
    case Failed(_, _) => ResultTouches(s, e);
    case Cancelled(_, _) => ResultTouches(s, e);
    case ResumeRequested => AdvancePauses(s.(status := MissionStatus.RUNNING));
    case RobotResumeRequested(robot) => RobotResumeTouches(s, robot);
    case _ => FlagTouches(s, e);
  }

  lemma FlagTouches(s: State, e: Event)
    requires Wf(s) && (e == PauseRequested || e.RobotPauseRequested? || e == AbortRequested || e == Unrecognised)
    ensures Touches(s, e, Step(s, e).state)
  {
  }

  // ----- Pause flags over a run -----

  /** The last request about `robot` was to pause it. */
  predicate LeftPaused(events: seq<Event>, robot: RobotId) {
    exists i ::
      && 0 <= i < |events| && events[i] == RobotPauseRequested(robot)
      && RobotResumeRequested(robot) !in events[i..]
  }

  lemma LastRequest(events: seq<Event>, e: Event, robot: RobotId)
    ensures LeftPaused(events + [e], robot) == PausedAfter(LeftPaused(events, robot), e, robot)
  {
    var all := events + [e];
    if LeftPaused(events, robot) && e != RobotResumeRequested(robot) {
      var i :|
        && 0 <= i < |events| && events[i] == RobotPauseRequested(robot)
        && RobotResumeRequested(robot) !in events[i..];
      assert all[i] == events[i] && all[i..] == events[i..] + [e];
    }
    if e == RobotPauseRequested(robot) {
      assert all[|events|] == e && all[|events|..] == [e];
    }
    if LeftPaused(all, robot) {
      var i :| 0 <= i < |all| && all[i] == RobotPauseRequested(robot) && RobotResumeRequested(robot) !in all[i..];
      assert all[|events|] == e && e in all[i..];
      if i < |events| {
        assert all[i..] == events[i..] + [e] && events[i] == all[i];
      }
    }
  }

  /** A robot is paused if and only if the last request about it was to pause it. */
  lemma {:induction false} PausedIsLastRequest(n: nat, maxRetries: int, events: seq<Event>, robot: RobotId)
    requires robot in Initial(n, maxRetries).robots
    ensures var s := Run(Initial(n, maxRetries), events).state;
            robot in s.robots && (s.robots[robot].paused <==> LeftPaused(events, robot))
  {
    if events != [] {
      var init, e := events[..|events| - 1], events[|events| - 1];
      PausedIsLastRequest(n, maxRetries, init, robot);
      ReachableInvariant(n, maxRetries, init);
      StepTouches(Run(Initial(n, maxRetries), init).state, e);
      LastRequest(init, e, robot);
      assert init + [e] == events;
    }
  }
}
