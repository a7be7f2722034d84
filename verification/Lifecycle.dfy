/** The status of the mission after every event, and of its tasks when it is aborted. */
module Lifecycle {
  import opened Domain
  import opened Mission
  import opened Invariant
  import opened StepProof
  import opened Outcomes
  import opened Safety
  import opened Delivery
  import opened Pausing
  import opened Filling
  import Emission

  // ----- Mission status -----

  predicate Abortable(status: MissionStatus) {
    status == READY || status == MissionStatus.RUNNING || status == PAUSED || status == MissionStatus.FAILED
  }

  lemma AdvanceStatus(s: State)
    requires Inv(s) && s.status == MissionStatus.RUNNING
    ensures Advance(s).state.status == if AllSucceeded(s) then COMPLETED else MissionStatus.RUNNING
  {
    Emission.AdvanceEmits(s);
  }

  /** A request that makes the mission advance completes it exactly if all tasks are done. */
  lemma RequestStatus(s: State, e: Event)
    requires Inv(s) && Prompts(s, e) && About(e) == None
    ensures Step(s, e).state.status == if AllSucceeded(s) then COMPLETED else MissionStatus.RUNNING
  {
    if e.RobotResumeRequested? {
      PauseKeepsInvariant(s, e.robot, false);
      AdvanceStatus(SetPaused(s, e.robot, false));
    } else {
      StatusKeepsInvariant(s, MissionStatus.RUNNING);
      AdvanceStatus(s.(status := MissionStatus.RUNNING));
      assert s.status == MissionStatus.RUNNING ==> s == s.(status := MissionStatus.RUNNING);
    }
  }

  lemma CompletedStatus(s: State, k: nat)
    requires Inv(s) && s.exec.IsOpen(k)
    ensures var status := HandleCompleted(s, k).state.status;
            status == s.status || (Prompts(s, Completed(k)) && status == COMPLETED)
  {
    OpenIsActive(s, k);
    CompletedCases(s, k);
    LandedFrame(s, k);
    FollowPauses(Landed(s, k), s.exec.commands[k].task);
  }

  lemma CancelledStatus(s: State, k: nat, reason: Reason)
    requires Inv(s) && s.exec.IsOpen(k)
    ensures var status := HandleCancelled(s, k, reason).state.status;
            if !Spares(reason) then status == MissionStatus.FAILED
            else status == s.status || (Prompts(s, Cancelled(k, reason)) && status == COMPLETED)
  {
    if Spares(reason) {
      SparedStatus(s, k, reason, Prompts(s, Cancelled(k, reason)));
    } else {
      OpenIsActive(s, k);
      CancelledCases(s, k, reason);
    }
  }

  lemma SparedStatus(s: State, k: nat, reason: Reason, prompted: bool)
    requires Inv(s) && s.exec.IsOpen(k) && Spares(reason)
    requires s.status == MissionStatus.RUNNING && reason == OperatorRobotPause ==>
               prompted || s.robots[s.exec.commands[k].robot].paused
    ensures var status := HandleCancelled(s, k, reason).state.status;
            status == s.status || (prompted && status == COMPLETED)
  {
    OpenIsActive(s, k);
    CancelledCases(s, k, reason);
    var c := Ended(s, k, CommandStatus.CANCELLED, Some(reason), false);
    if reason == OperatorRobotPause && !s.robots[s.exec.commands[k].robot].paused {
      AdvancePauses((Put(s, c.(task := c.task.(status := TaskStatus.RUNNING)))));
    }
  }

  /** Where every event takes the mission. */
  lemma StatusExactly(s: State, e: Event)
    requires Inv(s)
    ensures var status := Step(s, e).state.status;
            if FailsTask(s, e) then status == MissionStatus.FAILED
            else if e == AbortRequested && Abortable(s.status) then status == ABORTED
            else if e == PauseRequested && s.status == MissionStatus.RUNNING then status == PAUSED
            else if Prompts(s, e) && About(e) == None then
              status == if AllSucceeded(s) then COMPLETED else MissionStatus.RUNNING
            else if Prompts(s, e) then
              status == s.status || status == COMPLETED
            else
              status == s.status
  {
    if Prompts(s, e) && About(e) == None {
      RequestStatus(s, e);
    } else if About(e).Some? && s.exec.IsOpen(About(e).value) {
      match e
      case Completed(k) => CompletedStatus(s, k);
      case Failed(k, error) => FailedCases(s, k, error);
      case Cancelled(k, reason) => CancelledStatus(s, k, reason);
    }
  }

  /** The event completes an open command, and neither mission nor robot is held. */
  predicate Follows(s: State, e: Event)
    requires Wf(s)
  {
    e.Completed? && s.exec.IsOpen(e.command) && !Held(s, e.command)
  }

  lemma QuietResult(s: State, e: Event)
    requires Inv(s) && About(e).Some? && s.exec.IsOpen(About(e).value)
    requires !Prompts(s, e) && !RetriesMove(s, e) && !Follows(s, e)
    ensures Step(s, e).emitted == [] && StandsStill(s, Step(s, e).state)
  {
    match e
    case Completed(k) => QuietCompletion(s, k);
    case Failed(k, error) =>
      FailedFails(s, k, error);
      FailIsHandled(s, k, error);
    case Cancelled(k, reason) =>
      QuietCancellation(s, k, reason);
      CancelIsHandled(s, k, reason);
  }

  lemma QuietCompletion(s: State, k: nat)
    requires Inv(s) && s.exec.IsOpen(k) && Held(s, k)
    ensures HandleCompleted(s, k).emitted == [] && StandsStill(s, HandleCompleted(s, k).state)
  {
    OpenIsActive(s, k);
    CompletedCases(s, k);
    LandedStandsStill(s, k, HandleCompleted(s, k));
  }

  lemma QuietCancellation(s: State, k: nat, reason: Reason)
    requires Inv(s) && s.exec.IsOpen(k) && !Prompts(s, Cancelled(k, reason))
    ensures HandleCancelled(s, k, reason).emitted == [] && StandsStill(s, HandleCancelled(s, k, reason).state)
  {
    if Spares(reason) {
      ReleaseExactly(s, k, reason);
      ReleaseStandsStill(s, k, reason);
    } else {
      CancelledFails(s, k, reason);
    }
  }

  lemma ReleaseStandsStill(s: State, k: nat, reason: Reason)
    requires Wf(s) && s.exec.IsOpen(k)
    ensures StandsStill(s, AfterRelease(s, k, reason))
  {
  }

  /** Any other event emits nothing, moves no task on and leaves the zone alone. */
  lemma OtherwiseStandsStill(s: State, e: Event)
    requires Inv(s) && !Prompts(s, e) && !RetriesMove(s, e) && !Follows(s, e)
    ensures Step(s, e).emitted == [] && StandsStill(s, Step(s, e).state)
  {
    if About(e).Some? && s.exec.IsOpen(About(e).value) {
      QuietResult(s, e);
    } else if e == AbortRequested {
      AbortStandsStill(s);
    }
  }

  // ----- Abort -----

  /** An abort cancels every task that has not succeeded, and changes nothing else. */
  lemma AbortExactly(s: State)
    requires Wf(s)
    ensures var o := Step(s, AbortRequested);
            && o.emitted == []
            && if Abortable(s.status) then
                 && o.state == s.(status := ABORTED, tasks := o.state.tasks)
                 && forall id :: id in s.tasks ==>
                      && id in o.state.tasks
                      && o.state.tasks[id] == s.tasks[id].(
                           status := if s.tasks[id].status == TaskStatus.SUCCEEDED then TaskStatus.SUCCEEDED
                                     else TaskStatus.CANCELLED)
               else
                 o.state == s
  {
  }

  /** The event puts task `id` of an aborted mission back to RUNNING: its unverified move is
      issued again, its command was cancelled for a pause, or was completed in a pause. */
  predicate Revives(s: State, e: Event, id: TaskId)
    requires Wf(s)
  {
    && About(e).Some? && s.exec.IsOpen(About(e).value) && s.exec.commands[About(e).value].task == id
    && match e
       case Completed(k) => s.robots[s.exec.commands[k].robot].paused
       case Failed(k, error) => Retries(s, k, error)
       case Cancelled(_, reason) => reason == OperatorPause || reason == OperatorRobotPause
  }

  /** The event ends the command of task `id` and leaves the task cancelled. */
  predicate Recancels(s: State, e: Event, id: TaskId)
    requires Wf(s)
  {
    && About(e).Some? && s.exec.IsOpen(About(e).value) && s.exec.commands[About(e).value].task == id
    && match e
       case Completed(k) => !s.robots[s.exec.commands[k].robot].paused
       case Failed(_, _) => false
       case Cancelled(_, reason) => reason == OperatorAbort
  }

  lemma AbortedCompletion(s: State, k: nat, id: TaskId)
    requires Inv(s) && s.status == ABORTED && s.exec.IsOpen(k) && id in s.tasks
    ensures HandleCompleted(s, k).state.tasks[id].status ==
            if s.exec.commands[k].task != id then s.tasks[id].status
            else if s.robots[s.exec.commands[k].robot].paused then TaskStatus.RUNNING
            else TaskStatus.CANCELLED
  {
    OpenIsActive(s, k);
    CompletedCases(s, k);
    LandedIsPut(s, k);
  }

  lemma AbortedFailure(s: State, k: nat, error: Reason, id: TaskId)
    requires Inv(s) && s.status == ABORTED && s.exec.IsOpen(k) && id in s.tasks && Retries(s, k, error)
    ensures HandleFailed(s, k, error).state.tasks[id].status ==
            if s.exec.commands[k].task != id then s.tasks[id].status else TaskStatus.RUNNING
  {
    FailedCases(s, k, error);
  }

  lemma AbortedCancellation(s: State, k: nat, reason: Reason, id: TaskId)
    requires Inv(s) && s.status == ABORTED && s.exec.IsOpen(k) && id in s.tasks && Spares(reason)
    ensures HandleCancelled(s, k, reason).state.tasks[id].status ==
            if s.exec.commands[k].task != id then s.tasks[id].status
            else if reason == OperatorAbort then TaskStatus.CANCELLED
            else TaskStatus.RUNNING
  {
    ReleaseExactly(s, k, reason);
  }

  lemma AbortedResult(s: State, e: Event, id: TaskId)
    requires Inv(s) && s.status == ABORTED && id in s.tasks && !FailsTask(s, e)
    requires About(e).Some? && s.exec.IsOpen(About(e).value)
    ensures Step(s, e).state.tasks[id].status ==
            if Revives(s, e, id) then TaskStatus.RUNNING
            else if Recancels(s, e, id) then TaskStatus.CANCELLED
            else s.tasks[id].status
  {
    match e
    case Completed(k) => AbortedCompletion(s, k, id);
    case Failed(k, error) => AbortedFailure(s, k, error, id);
    case Cancelled(k, reason) => AbortedCancellation(s, k, reason, id);
  }

  lemma StaysAborted(s: State, e: Event)
    requires Inv(s) && s.status == ABORTED && Step(s, e).state.status == ABORTED
    ensures !FailsTask(s, e)
  {
    StatusExactly(s, e);
  }

  /** What every event does to the tasks of a mission that is and stays aborted. */
  lemma AbortedStep(s: State, e: Event, id: TaskId)
    requires Inv(s) && s.status == ABORTED && Step(s, e).state.status == ABORTED && id in s.tasks
    ensures Step(s, e).state.tasks[id].status ==
            if Revives(s, e, id) then TaskStatus.RUNNING
            else if Recancels(s, e, id) then TaskStatus.CANCELLED
            else s.tasks[id].status
  {
    if About(e).Some? && s.exec.IsOpen(About(e).value) {
      StaysAborted(s, e);
      AbortedResult(s, e, id);
    }
  }

  /** Some event of the stretch revives task `id`. */
  predicate Revived(s: State, events: seq<Event>, id: TaskId)
    requires Wf(s)
  {
    && events != []
    && var init := events[..|events| - 1];
       Revived(s, init, id) || Revives(Run(s, init).state, events[|events| - 1], id)
  }

  /** A finished task has no command that an event could be about. */
  lemma FinishedIsLeft(s: State, e: Event, id: TaskId)
    requires Inv(s) && id in s.tasks && s.tasks[id].status == TaskStatus.SUCCEEDED
    ensures !Revives(s, e, id) && !Recancels(s, e, id)
  {
    if About(e).Some? && s.exec.IsOpen(About(e).value) {
      OpenIsActive(s, About(e).value);
      assert TaskAt(s, id);
    }
  }

  lemma {:induction false} AbortedRun(s: State, events: seq<Event>, id: TaskId)
    requires Inv(s) && s.status == ABORTED && FrozenThroughout(s, events) && id in s.tasks
    requires s.tasks[id].status == TaskStatus.SUCCEEDED || s.tasks[id].status == TaskStatus.CANCELLED
    ensures var s' := Run(s, events).state;
            && Inv(s') && s'.status == ABORTED
            && (|| s'.tasks[id].status == s.tasks[id].status
                || (&& s.tasks[id].status == TaskStatus.CANCELLED
                    && s'.tasks[id].status == TaskStatus.RUNNING && Revived(s, events, id)))
  {
    if events != [] {
      var init, e := events[..|events| - 1], events[|events| - 1];
      AbortedRun(s, init, id);
      var mid := Run(s, init).state;
      StatusExactly(mid, e);
      StepKeepsInvariant(mid, e);
      AbortedStep(mid, e, id);
      if s.tasks[id].status == TaskStatus.SUCCEEDED {
        FinishedIsLeft(mid, e, id);
      }
    }
  }

  /** From an abort on, for as long as the mission stays aborted, whatever else happens: what
      had succeeded stays so, and everything else is cancelled, but for tasks that were revived. */
  lemma AbortedTasksStayCancelled(s: State, events: seq<Event>, id: TaskId)
    requires Inv(s) && Abortable(s.status) && id in s.tasks
    requires FrozenThroughout(Step(s, AbortRequested).state, events)
    ensures var s1 := Step(s, AbortRequested).state;
            var s' := Run(s1, events).state;
            s'.tasks[id].status ==
            if s.tasks[id].status == TaskStatus.SUCCEEDED then TaskStatus.SUCCEEDED
            else if s'.tasks[id].status == TaskStatus.RUNNING && Revived(s1, events, id) then TaskStatus.RUNNING
            else TaskStatus.CANCELLED
  {
    AbortExactly(s);
    StepKeepsInvariant(s, AbortRequested);
    AbortedRun(Step(s, AbortRequested).state, events, id);
  }
}
