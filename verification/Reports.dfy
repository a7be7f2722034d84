/** What each report on an open command does: to the command, to its task and to the mission. */
module Reports {
  import opened Domain
  import opened Mission
  import opened Invariant
  import opened StepProof
  import opened Outcomes
  import opened Emission
  import opened Safety
  import opened NodeGate

  // ----- What a result leaves on record -----

  /** Command `k` has ended as stated, and is otherwise as it was. */
  predicate EndsAs(s: State, k: nat, status: CommandStatus, error: Option<Reason>, s': State)
    requires k in s.exec.commands
  {
    k in s'.exec.commands && s'.exec.commands[k] == s.exec.commands[k].(status := status, error := error)
  }

  predicate EndsBy(s: State, e: Event, s': State)
    requires About(e).Some? && About(e).value in s.exec.commands
  {
    match e
    case Completed(k) => EndsAs(s, k, CommandStatus.SUCCEEDED, None, s')
    case Failed(k, error) => EndsAs(s, k, CommandStatus.FAILED, Some(error), s')
    case Cancelled(k, reason) => EndsAs(s, k, CommandStatus.CANCELLED, Some(reason), s')
  }

  /** The core records a result, whatever it does besides. */
  lemma ResultIsRecorded(s: State, e: Event)
    requires Inv(s) && About(e).Some? && s.exec.IsOpen(About(e).value)
    ensures EndsBy(s, e, Step(s, e).state)
  {
    var k := About(e).value;
    RecordedWf(s, e);
    StepEmits(s, e);
    EmitsKeepsOld(s.n, Recorded(s, e), Step(s, e).state.exec, Step(s, e).emitted, k);
  }

  /** Sending what was emitted changes no command that has ended. */
  lemma SendingKeepsEnded(s: State, e: Event, o: Outcome)
    requires ExactlyCreated(s.exec, o) && About(e).Some? && s.exec.IsOpen(About(e).value) && EndsBy(s, e, o.state)
    ensures EndsBy(s, e, Dispatched(o))
  {
    DispatchAdvances(o.state.exec, o.emitted);
  }

  /** The sent commands are marked by kind, and nothing else is. */
  lemma {:induction false} SentAreMarked(ex: Exec, ks: seq<nat>, k: nat)
    requires (forall j :: j in ks ==> j in ex.commands) && k in ex.commands
    requires forall i, j :: 0 <= i < j < |ks| ==> ks[i] != ks[j]
    ensures Dispatch(ex, ks).commands[k] ==
            if k !in ks then ex.commands[k]
            else ex.commands[k].(status := if ex.commands[k].kind.MoveRobot? then CommandStatus.SUBMITTED
                                           else CommandStatus.RUNNING)
    decreases |ks|
  {
    if ks != [] {
      RestOfSent(ks, k);
      SentAreMarked(DispatchOne(ex, ks[0]), ks[1..], k);
    }
  }

  lemma RestOfSent(ks: seq<nat>, k: nat)
    requires ks != [] && forall i, j :: 0 <= i < j < |ks| ==> ks[i] != ks[j]
    ensures k in ks <==> (k == ks[0] || k in ks[1..])
    ensures ks[0] !in ks[1..] && forall j :: j in ks[1..] ==> j in ks
  {
  }

  /** The source and the verification a completed move needs; handling needs neither. */
  predicate AllowedSource(r: Report) {
    r.source == Nav2Result || r.source == Nav2AlreadyNearTarget
  }

  predicate Accepted(cmd: Command, r: Report) {
    cmd.kind.HandleItem? || (AllowedSource(r) && r.arrivalVerified)
  }

  /** The status a report gives its command. */
  function StatusOf(cmd: Command, r: Report): CommandStatus {
    match r.status
    case ReportSucceeded => if Accepted(cmd, r) then CommandStatus.SUCCEEDED else CommandStatus.FAILED
    case ReportCancelled => CommandStatus.CANCELLED
    case ReportFailed => CommandStatus.FAILED
    case ReportOther => cmd.status
  }

  /** The error it leaves, first given first taken. */
  function ErrorOf(cmd: Command, r: Report): Option<Reason> {
    match r.status
    case ReportSucceeded =>
      if Accepted(cmd, r) then None
      else if AllowedSource(r) then Some(ArrivalNotVerified)
      else Some(OtherReason("unsupported_move_result_source"))
    case ReportCancelled =>
      if r.cancelReason.Some? then r.cancelReason
      else if r.error.Some? then r.error
      else Some(OtherReason("CANCELLED"))
    case ReportFailed => if r.error.Some? then r.error else Some(OtherReason("FAILED"))
    case ReportOther => cmd.error
  }

  lemma VerdictEnds(s: State, r: Report, e: Event, s': State)
    requires s.exec.IsOpen(r.command) && r.status != ReportOther && e == Verdict(s.exec.commands[r.command], r)
    requires EndsBy(s, e, s')
    ensures var cmd := s.exec.commands[r.command]; EndsAs(s, r.command, StatusOf(cmd, r), ErrorOf(cmd, r), s')
  {
  }

  /** Every report on an open command but one of another status ends the command: as failed,
      as cancelled, as succeeded, or, for a move whose success is not accepted, as failed for
      its source or for want of a verified arrival. */
  lemma ReportIsRecorded(s: State, r: Report)
    requires Inv(s) && s.exec.IsOpen(r.command)
    ensures var cmd, s' := s.exec.commands[r.command], NodeStep(s, ExecutionResult(r));
            && EndsAs(s, r.command, StatusOf(cmd, r), ErrorOf(cmd, r), s')
            && (r.status == ReportOther ==> s' == s)
  {
    if r.status != ReportOther {
      var e := Verdict(s.exec.commands[r.command], r);
      EmittedIsCreated(s, e);
      ResultIsRecorded(s, e);
      SendingKeepsEnded(s, e, Step(s, e));
      VerdictEnds(s, r, e, NodeStep(s, ExecutionResult(r)));
    }
  }

  // ----- What a report does besides -----

  /** A report whose event emits nothing does just what the event does. */
  lemma SilentReport(s: State, r: Report, e: Event, o: Outcome)
    requires Inv(s) && s.exec.IsOpen(r.command) && r.status != ReportOther
    requires e == Verdict(s.exec.commands[r.command], r) && Step(s, e) == o && o.emitted == []
    ensures NodeStep(s, ExecutionResult(r)) == o.state
  {
    EmittedIsCreated(s, e);
  }

  lemma SilentFailure(s: State, r: Report, reason: Reason, o: Outcome)
    requires Inv(s) && s.exec.IsOpen(r.command) && Verdict(s.exec.commands[r.command], r) == Failed(r.command, reason)
    requires HandleFailed(s, r.command, reason) == o && o.emitted == []
    ensures NodeStep(s, ExecutionResult(r)) == o.state
  {
    FailIsHandled(s, r.command, reason);
    SilentReport(s, r, Failed(r.command, reason), o);
  }

  lemma SilentCancellation(s: State, r: Report, reason: Reason, o: Outcome)
    requires Inv(s) && s.exec.IsOpen(r.command)
    requires Verdict(s.exec.commands[r.command], r) == Cancelled(r.command, reason)
    requires HandleCancelled(s, r.command, reason) == o && o.emitted == []
    ensures NodeStep(s, ExecutionResult(r)) == o.state
  {
    CancelIsHandled(s, r.command, reason);
    SilentReport(s, r, Cancelled(r.command, reason), o);
  }

  lemma FailureReport(s: State, r: Report, reason: Reason)
    requires Inv(s) && s.exec.IsOpen(r.command) && Verdict(s.exec.commands[r.command], r) == Failed(r.command, reason)
    requires !Retries(s, r.command, reason)
    ensures NodeStep(s, ExecutionResult(r)) == AfterFailure(s, r.command, CommandStatus.FAILED, reason)
  {
    FailedFails(s, r.command, reason);
    SilentFailure(s, r, reason, HandleFailed(s, r.command, reason));
  }

  lemma CancelReport(s: State, r: Report, reason: Reason)
    requires Inv(s) && s.exec.IsOpen(r.command) && !Spares(reason)
    requires Verdict(s.exec.commands[r.command], r) == Cancelled(r.command, reason)
    ensures NodeStep(s, ExecutionResult(r)) == AfterFailure(s, r.command, CommandStatus.CANCELLED, reason)
  {
    CancelledFails(s, r.command, reason);
    SilentCancellation(s, r, reason, HandleCancelled(s, r.command, reason));
  }

  /** A report of a failure that is not retried, of a cancellation that is not an operator's,
      or of a success that does not count, fails the task and the mission, and nothing else. */
  lemma ReportFails(s: State, r: Report)
    requires Inv(s) && s.exec.IsOpen(r.command) && r.status != ReportOther
    requires var cmd := s.exec.commands[r.command];
             match StatusOf(cmd, r)
             case FAILED => !Retries(s, r.command, ErrorOf(cmd, r).value)
             case CANCELLED => !Spares(ErrorOf(cmd, r).value)
             case _ => false
    ensures var cmd := s.exec.commands[r.command];
            NodeStep(s, ExecutionResult(r)) ==
            AfterFailure(s, r.command, StatusOf(cmd, r), ErrorOf(cmd, r).value)
  {
    var cmd := s.exec.commands[r.command];
    var reason := ErrorOf(cmd, r).value;
    if StatusOf(cmd, r) == CommandStatus.FAILED {
      FailureReport(s, r, reason);
    } else {
      CancelReport(s, r, reason);
    }
  }

  /** A cancellation for an operator's pause or abort only releases the task, unless it makes
      a running mission advance: for the pause of a robot that has been resumed since. */
  lemma ReportReleases(s: State, r: Report)
    requires Inv(s) && s.exec.IsOpen(r.command) && r.status == ReportCancelled
    requires var reason := ErrorOf(s.exec.commands[r.command], r).value;
             && Spares(reason)
             && (reason == OperatorRobotPause ==>
                   s.robots[s.exec.commands[r.command].robot].paused || s.status != MissionStatus.RUNNING)
    ensures NodeStep(s, ExecutionResult(r)) ==
            AfterRelease(s, r.command, ErrorOf(s.exec.commands[r.command], r).value)
  {
    ReleaseReport(s, r, ErrorOf(s.exec.commands[r.command], r).value);
  }

  lemma ReleaseReport(s: State, r: Report, reason: Reason)
    requires Inv(s) && s.exec.IsOpen(r.command) && Spares(reason)
    requires Verdict(s.exec.commands[r.command], r) == Cancelled(r.command, reason)
    requires reason == OperatorRobotPause ==>
               s.robots[s.exec.commands[r.command].robot].paused || s.status != MissionStatus.RUNNING
    ensures NodeStep(s, ExecutionResult(r)) == AfterRelease(s, r.command, reason)
  {
    ReleaseExactly(s, r.command, reason);
    SilentCancellation(s, r, reason, HandleCancelled(s, r.command, reason));
  }

  /** A report that leaves an unverified arrival on record, with retries left for its target,
      sends the same move again. */
  lemma ReportRetries(s: State, r: Report)
    requires Inv(s) && s.exec.IsOpen(r.command) && Retries(s, r.command, ArrivalNotVerified)
    requires var cmd := s.exec.commands[r.command];
             StatusOf(cmd, r) == CommandStatus.FAILED && ErrorOf(cmd, r) == Some(ArrivalNotVerified)
    requires r.status != ReportOther
    ensures var s1 := AfterRetry(s, r.command);
            && s.exec.next in s1.exec.commands
            && NodeStep(s, ExecutionResult(r)) ==
               s1.(exec := s1.exec.SetStatus(s.exec.next, CommandStatus.SUBMITTED))
  {
    RetryReport(s, r);
  }

  lemma RetryReport(s: State, r: Report)
    requires Inv(s) && s.exec.IsOpen(r.command) && Retries(s, r.command, ArrivalNotVerified)
    requires Verdict(s.exec.commands[r.command], r) == Failed(r.command, ArrivalNotVerified)
    ensures var s1 := AfterRetry(s, r.command);
            && s.exec.next in s1.exec.commands
            && NodeStep(s, ExecutionResult(r)) ==
               s1.(exec := s1.exec.SetStatus(s.exec.next, CommandStatus.SUBMITTED))
  {
    RetryExactly(s, r.command);
    SentFailure(s, r, ArrivalNotVerified, HandleFailed(s, r.command, ArrivalNotVerified));
    RetrySent(s, r.command, HandleFailed(s, r.command, ArrivalNotVerified));
  }

  lemma SentFailure(s: State, r: Report, reason: Reason, o: Outcome)
    requires Inv(s) && s.exec.IsOpen(r.command) && Verdict(s.exec.commands[r.command], r) == Failed(r.command, reason)
    requires HandleFailed(s, r.command, reason) == o
    ensures forall k :: k in o.emitted ==> k in o.state.exec.commands
    ensures NodeStep(s, ExecutionResult(r)) == Dispatched(o)
  {
    FailIsHandled(s, r.command, reason);
    ReportSent(s, r, Failed(r.command, reason), o);
  }

  lemma RetrySent(s: State, k: nat, o: Outcome)
    requires Wf(s) && s.exec.IsOpen(k) && s.exec.commands[k].kind.MoveRobot?
    requires o == Outcome(AfterRetry(s, k), [s.exec.next])
    ensures s.exec.next in o.state.exec.commands
    ensures Dispatched(o) == o.state.(exec := o.state.exec.SetStatus(s.exec.next, CommandStatus.SUBMITTED))
  {
    OneSent(o.state.exec, s.exec.next);
  }

  lemma ReportSent(s: State, r: Report, e: Event, o: Outcome)
    requires Inv(s) && s.exec.IsOpen(r.command) && r.status != ReportOther
    requires e == Verdict(s.exec.commands[r.command], r) && Step(s, e) == o
    ensures forall k :: k in o.emitted ==> k in o.state.exec.commands
    ensures NodeStep(s, ExecutionResult(r)) == Dispatched(o)
  {
    EmittedIsCreated(s, e);
  }

  lemma OneSent(ex: Exec, k: nat)
    requires k in ex.commands
    ensures Dispatch(ex, [k]) == DispatchOne(ex, k)
  {
    assert [k][1..] == [];
  }

  // ----- Marks -----

  /** Whatever a callback creates has been sent: a move is submitted, handling is running. */
  lemma NewIsSent(s: State, cb: Callback, k: nat)
    requires Inv(s) && k in NodeStep(s, cb).exec.commands && k !in s.exec.commands
    ensures var cmd := NodeStep(s, cb).exec.commands[k];
            cmd.status == if cmd.kind.MoveRobot? then CommandStatus.SUBMITTED else CommandStatus.RUNNING
  {
    if EventOf(s, cb).Some? {
      EmittedIsCreated(s, EventOf(s, cb).value);
      CreatedIsSent(s.exec, Step(s, EventOf(s, cb).value), k);
    }
  }

  lemma CreatedIsSent(ex: Exec, o: Outcome, k: nat)
    requires ExactlyCreated(ex, o) && k in Dispatched(o).exec.commands && k !in ex.commands
    ensures var cmd := Dispatched(o).exec.commands[k];
            cmd.status == if cmd.kind.MoveRobot? then CommandStatus.SUBMITTED else CommandStatus.RUNNING
  {
    SentAreMarked(o.state.exec, o.emitted, k);
  }

  /** An accepted submission marks its command running while that is open, and does nothing else. */
  lemma ResponseExactly(s: State, accepted: Option<nat>)
    requires Inv(s)
    ensures var s' := NodeStep(s, ApiResponse(accepted));
            if accepted.Some? && s.exec.IsOpen(accepted.value) then
              && EndsAs(s, accepted.value, CommandStatus.RUNNING, s.exec.commands[accepted.value].error, s')
              && s' == s.(exec := s'.exec)
              && forall j :: j in s.exec.commands && j != accepted.value ==>
                   j in s'.exec.commands && s'.exec.commands[j] == s.exec.commands[j]
            else
              s' == s
  {
  }
}
