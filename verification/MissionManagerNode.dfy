/** The node as it runs: callbacks that turn reports into events, hand them to the mission
    manager, and mark what they send. */
module MissionManagerNode {
  import opened Domain
  import opened ExecutionManager
  import opened MissionManager
  import opened NodeGate
  import M = Mission
  import Emission

  class MissionManagerNode {
    const missionManager: MissionManager

    constructor (missionManager: MissionManager)
      ensures this.missionManager == missionManager
    {
      this.missionManager := missionManager;
    }

    ghost predicate Ready()
      reads missionManager.executionManager, missionManager.executionManager.commands.Values
    {
      missionManager.Built() && missionManager.Sound()
    }

    method MarkSubmitted(k: nat)
      requires Ready() && k in missionManager.executionManager.commands
      modifies missionManager.executionManager.commands[k]
      ensures Ready() && missionManager.executionManager.commands == old(missionManager.executionManager.commands)
      ensures var s := old(missionManager.State());
              missionManager.State() == s.(exec := s.exec.SetStatus(k, CommandStatus.SUBMITTED))
    {
      M.SetStatusWf(missionManager.runtime.total, missionManager.executionManager.Value(), k, CommandStatus.SUBMITTED);
      missionManager.executionManager.MarkSubmitted(k);
      missionManager.OnlyCommandsTouched();
    }

    method MarkRunning(k: nat)
      requires Ready() && k in missionManager.executionManager.commands
      modifies missionManager.executionManager.commands[k]
      ensures Ready() && missionManager.executionManager.commands == old(missionManager.executionManager.commands)
      ensures var s := old(missionManager.State());
              missionManager.State() == s.(exec := s.exec.SetStatus(k, CommandStatus.RUNNING))
    {
      M.SetStatusWf(missionManager.runtime.total, missionManager.executionManager.Value(), k, CommandStatus.RUNNING);
      missionManager.executionManager.MarkRunning(k);
      missionManager.OnlyCommandsTouched();
    }

    /** Send one command: a move is submitted, handling is simulated and so runs at once. */
    method DispatchCommand(command: ExecutionCommand)
      requires Ready() && command.commandId in missionManager.executionManager.commands
      requires missionManager.executionManager.commands[command.commandId] == command
      modifies command
      ensures Ready() && missionManager.executionManager.commands == old(missionManager.executionManager.commands)
      ensures var s := old(missionManager.State());
              command.commandId in s.exec.commands &&
              missionManager.State() == s.(exec := DispatchOne(s.exec, command.commandId))
    {
      MarkSubmitted(command.commandId);
      if command.kind.HandleItem? {
        MarkRunning(command.commandId);
      }
    }

    method DispatchCommands(commands: seq<ExecutionCommand>, ghost ids: seq<nat>)
      requires Ready() && Lists(missionManager.executionManager.commands, commands, ids)
      modifies missionManager.executionManager.commands.Values
      ensures Ready() && missionManager.executionManager.commands == old(missionManager.executionManager.commands)
      ensures var s := old(missionManager.State());
              && (forall k :: k in ids ==> k in s.exec.commands)
              && missionManager.State() == s.(exec := Dispatch(s.exec, ids))
    {
      ghost var s := missionManager.State();
      ListedAreFiled(missionManager.executionManager.commands, commands, ids);
      var i := 0;
      while i < |commands|
        invariant i <= |commands| == |ids|
        invariant Ready() && missionManager.executionManager.commands == old(missionManager.executionManager.commands)
        invariant Lists(missionManager.executionManager.commands, commands[i..], ids[i..])
        invariant forall k :: k in ids[i..] ==> k in missionManager.State().exec.commands
        invariant missionManager.State().(exec := s.exec) == s
        invariant Dispatch(missionManager.State().exec, ids[i..]) == Dispatch(s.exec, ids)
      {
        assert ids[i..][1..] == ids[i + 1..] && commands[i..][1..] == commands[i + 1..];
        DispatchCommand(commands[i]);
        i := i + 1;
      }
    }

    /** Hand an event to the mission manager and send the commands it returns. */
    method Process(event: M.Event)
      requires missionManager.Valid()
      modifies missionManager.Footprint()
      ensures missionManager.Valid()
      ensures forall k :: k in M.Step(old(missionManager.State()), event).emitted ==>
                k in M.Step(old(missionManager.State()), event).state.exec.commands
      ensures missionManager.State() == Dispatched(M.Step(old(missionManager.State()), event))
    {
      ghost var s := missionManager.State();
      Emission.EmittedIsCreated(s, event);
      var commands := missionManager.HandleEvent(event);
      StepDispatchKeepsInvariant(s, event);
      DispatchCommands(commands, M.Step(s, event).emitted);
    }

    /** What a report leads to, by the records on file. */
    lemma ReportCase(report: Report)
      requires missionManager.Valid()
      ensures var s, commands := missionManager.State(), missionManager.executionManager.commands;
              EventOf(s, ExecutionResult(report)) ==
              if
                || report.command !in commands || commands[report.command].IsTerminal()
                || report.status == ReportOther
              then
                None
              else
                Some(Verdict(commands[report.command].Value(), report))
    {
      if report.command in missionManager.executionManager.commands {
        missionManager.FiledCommand(report.command);
      }
    }

    /** An execution result: ignored unless its command is open; a move counts as completed
        only on a verified arrival from an allowed source. */
    method HandleExecutionResult(report: Report)
      requires missionManager.Valid()
      modifies missionManager.Footprint()
      ensures missionManager.Valid()
      ensures missionManager.State() == NodeStep(old(missionManager.State()), ExecutionResult(report))
    {
      ReportCase(report);
      var commands := missionManager.executionManager.commands;
      if report.command !in commands || commands[report.command].IsTerminal() {
        return;
      }
      if report.status != ReportOther {
        Process(Verdict(commands[report.command].Value(), report));
      }
    }

    lemma OperatorCase(request: M.Event)
      requires missionManager.Valid()
      ensures EventOf(missionManager.State(), Operator(request)) ==
              if OperatorRequest(missionManager.runtime.world.robots.Keys, request) then Some(request) else None
    {
      assert missionManager.State().robots.Keys == missionManager.runtime.world.robots.Keys;
    }

    method HandleOperatorRequest(request: M.Event)
      requires missionManager.Valid()
      modifies missionManager.Footprint()
      ensures missionManager.Valid()
      ensures missionManager.State() == NodeStep(old(missionManager.State()), Operator(request))
    {
      OperatorCase(request);
      if OperatorRequest(missionManager.runtime.world.robots.Keys, request) {
        Process(request);
      }
    }

    lemma OpenCase(k: nat)
      requires missionManager.Valid()
      ensures var commands := missionManager.executionManager.commands;
              missionManager.State().exec.IsOpen(k) <==> k in commands && !commands[k].IsTerminal()
    {
      if k in missionManager.executionManager.commands {
        missionManager.FiledCommand(k);
      }
    }

    /** An accepted submission: its command is running, unless it has ended already. */
    method HandleApiResponse(accepted: Option<nat>)
      requires missionManager.Valid()
      modifies missionManager.executionManager.commands.Values
      ensures missionManager.Valid()
      ensures missionManager.State() == NodeStep(old(missionManager.State()), ApiResponse(accepted))
    {
      if accepted == None {
        return;
      }
      OpenCase(accepted.value);
      var commands := missionManager.executionManager.commands;
      if accepted.value !in commands || commands[accepted.value].IsTerminal() {
        return;
      }
      OpenMarkKeepsInvariant(missionManager.State(), accepted.value, CommandStatus.RUNNING);
      MarkRunning(accepted.value);
    }
  }
}
