/** The whole state after each result that makes nothing advance: a failure, a retry, and a
    cancellation that only releases the task. */
module Outcomes {
  import opened Domain
  import opened BehaviorTree
  import opened Mission
  import opened Invariant
  import opened StepProof

  /** Task and mission have failed with command `k`; all else is as it was. */
  function AfterFailure(s: State, k: nat, status: CommandStatus, reason: Reason): State
    requires Wf(s) && s.exec.IsOpen(k)
  {
    var cmd := s.exec.commands[k];
    s.(status := MissionStatus.FAILED,
       tasks := s.tasks[cmd.task := s.tasks[cmd.task].(active := None, status := TaskStatus.FAILED,
                                                       blockedReason := Some(reason),
                                                       blockedBy := Some(ByRobot(cmd.robot)))],
       exec := s.exec.Mark(k, status, Some(reason)))
  }

  lemma FailureExactly(s: State, k: nat, status: CommandStatus, reason: Reason)
    requires Inv(s) && s.exec.IsOpen(k)
    ensures ExecWf(s.n, s.exec.Mark(k, status, Some(reason)))
    ensures FailTask(s, Ended(s, k, status, Some(reason), false), s.exec.commands[k], reason) ==
            AfterFailure(s, k, status, reason)
  {
    OpenIsActive(s, k);
    MarkWf(s.n, s.exec, k, status, Some(reason));
    PutTask(s, Failing(s, k, status, reason));
  }

  lemma PutTask(s: State, c: Ctx)
    requires Wf(s) && c.task.id in s.tasks && c.transfer == s.transfer
    requires c.robot == s.robots[RobotOf(c.task.id.leg)] && c.item == s.items[c.task.id.item]
    ensures Put(s, c) == s.(tasks := s.tasks[c.task.id := c.task], exec := c.exec)
  {
    assert s.robots[RobotOf(c.task.id.leg) := c.robot] == s.robots;
    assert s.items[c.task.id.item := c.item] == s.items;
  }

  lemma FailedFails(s: State, k: nat, reason: Reason)
    requires Inv(s) && s.exec.IsOpen(k) && !Retries(s, k, reason)
    ensures HandleFailed(s, k, reason) == Outcome(AfterFailure(s, k, CommandStatus.FAILED, reason), [])
  {
    FailedCases(s, k, reason);
    FailureExactly(s, k, CommandStatus.FAILED, reason);
  }

  lemma CancelledFails(s: State, k: nat, reason: Reason)
    requires Inv(s) && s.exec.IsOpen(k) && !Spares(reason)
    ensures HandleCancelled(s, k, reason) == Outcome(AfterFailure(s, k, CommandStatus.CANCELLED, reason), [])
  {
    OpenIsActive(s, k);
    CancelledCases(s, k, reason);
    FailureExactly(s, k, CommandStatus.CANCELLED, reason);
  }

  /** The task has let go of command `k`, which was cancelled; all else is as it was. */
  function AfterRelease(s: State, k: nat, reason: Reason): State
    requires Wf(s) && s.exec.IsOpen(k)
  {
    var id := s.exec.commands[k].task;
    s.(tasks := s.tasks[id := s.tasks[id].(
                   active := None,
                   status := if reason == OperatorAbort then TaskStatus.CANCELLED else TaskStatus.RUNNING)],
       exec := s.exec.Mark(k, CommandStatus.CANCELLED, Some(reason)))
  }

  lemma ReleaseExactly(s: State, k: nat, reason: Reason)
    requires Inv(s) && s.exec.IsOpen(k) && Spares(reason)
    requires reason == OperatorRobotPause ==>
               s.robots[s.exec.commands[k].robot].paused || s.status != MissionStatus.RUNNING
    ensures HandleCancelled(s, k, reason) == Outcome(AfterRelease(s, k, reason), [])
  {
    var c := Ended(s, k, CommandStatus.CANCELLED, Some(reason), false);
    OpenIsActive(s, k);
    CancelledCases(s, k, reason);
    if reason == OperatorAbort {
      PutTask(s, c.(task := c.task.(status := TaskStatus.CANCELLED)));
    } else {
      PutTask(s, c.(task := c.task.(status := TaskStatus.RUNNING)));
    }
  }

  /** The same move is out again under a new id, counted for its target; all else is as it was. */
  function AfterRetry(s: State, k: nat): State
    requires Wf(s) && s.exec.IsOpen(k) && s.exec.commands[k].kind.MoveRobot?
  {
    var cmd := s.exec.commands[k];
    var t, w := s.tasks[cmd.task], cmd.kind.target;
    s.(tasks := s.tasks[cmd.task := t.(active := Some(s.exec.next), status := TaskStatus.RUNNING,
                                       retries := t.retries[w := t.Retries(w) + 1])],
       exec := s.exec.Mark(k, CommandStatus.FAILED, Some(ArrivalNotVerified)).Add(cmd.kind, cmd.task, cmd.robot))
  }

  lemma RetryExactly(s: State, k: nat)
    requires Inv(s) && s.exec.IsOpen(k) && Retries(s, k, ArrivalNotVerified)
    ensures HandleFailed(s, k, ArrivalNotVerified) == Outcome(AfterRetry(s, k), [s.exec.next])
  {
    OpenIsActive(s, k);
    FailedCases(s, k, ArrivalNotVerified);
    RetriedRecords(s, k);
    PutTask(s, Retried(s, k, ArrivalNotVerified));
  }

  lemma RetriedRecords(s: State, k: nat)
    requires Wf(s) && s.exec.IsOpen(k) && s.exec.commands[k].kind.MoveRobot?
    ensures var c, id, s' := Retried(s, k, ArrivalNotVerified), s.exec.commands[k].task, AfterRetry(s, k);
            && c.task.id == id && c.task == s'.tasks[id] && c.exec == s'.exec && c.transfer == s.transfer
            && c.robot == s.robots[RobotOf(id.leg)] && c.item == s.items[id.item]
  {
  }
}
