/** The execution manager as it runs: command objects whose status changes in place. */
module ExecutionManager {
  import opened Domain

  class ExecutionCommand {
    const commandId: nat
    const kind: CommandKind
    const taskId: TaskId
    const robotId: RobotId
    var status: CommandStatus
    var error: Option<Reason>

    constructor (commandId: nat, kind: CommandKind, taskId: TaskId, robotId: RobotId)
      ensures Value() == Command(commandId, kind, taskId, robotId, CommandStatus.PENDING, None)
    {
      this.commandId, this.kind, this.taskId, this.robotId := commandId, kind, taskId, robotId;
      status, error := CommandStatus.PENDING, None;
    }

    function Value(): (c: Command)
      reads this
      ensures c.id == commandId && c.kind == kind && c.task == taskId && c.robot == robotId
    {
      Command(commandId, kind, taskId, robotId, status, error)
    }

    predicate IsTerminal()
      reads this
    {
      Value().IsTerminal()
    }
  }

  /** `listed` are the commands filed under the ids `ids`, in order. */
  ghost predicate Lists(filed: map<nat, ExecutionCommand>, listed: seq<ExecutionCommand>, ids: seq<nat>)
    decreases |ids|
  {
    if ids == [] then
      listed == []
    else
      listed != [] && ids[0] in filed && filed[ids[0]] == listed[0] && Lists(filed, listed[1..], ids[1..])
  }

  lemma {:induction false} ListedAreFiled(
    filed: map<nat, ExecutionCommand>, listed: seq<ExecutionCommand>, ids: seq<nat>)
    requires Lists(filed, listed, ids)
    ensures |listed| == |ids| && forall k :: k in ids ==> k in filed
    decreases |ids|
  {
    if ids != [] {
      ListedAreFiled(filed, listed[1..], ids[1..]);
      assert ids == [ids[0]] + ids[1..];
    }
  }

  /** A list made before more commands were filed, followed by one made since. */
  lemma {:induction false} ListsAppend(was: map<nat, ExecutionCommand>, filed: map<nat, ExecutionCommand>,
                                       a: seq<ExecutionCommand>, i: seq<nat>, b: seq<ExecutionCommand>, j: seq<nat>)
    requires Lists(was, a, i) && Lists(filed, b, j)
    requires forall k :: k in was ==> k in filed && filed[k] == was[k]
    ensures Lists(filed, a + b, i + j)
    decreases |i|
  {
    if i == [] {
      assert a + b == b && i + j == j;
    } else {
      ListsAppend(was, filed, a[1..], i[1..], b, j);
      assert (a + b)[1..] == a[1..] + b && (i + j)[1..] == i[1..] + j;
    }
  }

  class ExecutionManager {
    var commands: map<nat, ExecutionCommand>
    var counter: nat

    /** Every command is filed under its own id, and the next id is fresh. */
    ghost predicate Valid()
      reads this
    {
      forall k :: k in commands ==> commands[k].commandId == k && k < counter
    }

    ghost function Value(): Exec
      reads this, commands.Values
    {
      Exec(map k | k in commands :: commands[k].Value(), counter)
    }

    /** Since the old state, commands were only added. */
    twostate predicate Grows()
      reads this
    {
      && (forall k :: k in old(commands) ==> k in commands && commands[k] == old(commands)[k])
      && (forall k :: k in commands && k !in old(commands) ==> fresh(commands[k]))
    }

    constructor ()
      ensures Valid() && Value() == Exec(map[], 1)
    {
      commands, counter := map[], 1;
    }

    method Create(kind: CommandKind, taskId: TaskId, robotId: RobotId) returns (command: ExecutionCommand)
      requires Valid()
      modifies this
      ensures Valid() && fresh(command) && Grows() && command.commandId == old(counter)
      ensures Lists(commands, [command], [old(counter)])
      ensures Value() == old(Value()).Add(kind, taskId, robotId)
    {
      command := new ExecutionCommand(counter, kind, taskId, robotId);
      commands := commands[counter := command];
      counter := counter + 1;
      assert Value().commands == old(Value()).Add(kind, taskId, robotId).commands;
    }

    method CreateMove(taskId: TaskId, robotId: RobotId, target: Waypoint) returns (command: ExecutionCommand)
      requires Valid()
      modifies this
      ensures Valid() && fresh(command) && Grows() && command.commandId == old(counter)
      ensures Lists(commands, [command], [old(counter)])
      ensures Value() == old(Value()).Add(MoveRobot(target), taskId, robotId)
    {
      command := Create(MoveRobot(target), taskId, robotId);
    }

    method CreateHandling(taskId: TaskId, robotId: RobotId, item: nat, handling: Handling)
      returns (command: ExecutionCommand)
      requires Valid()
      modifies this
      ensures Valid() && fresh(command) && Grows() && command.commandId == old(counter)
      ensures Lists(commands, [command], [old(counter)])
      ensures Value() == old(Value()).Add(HandleItem(item, handling), taskId, robotId)
    {
      command := Create(HandleItem(item, handling), taskId, robotId);
    }

    method MarkSubmitted(k: nat)
      requires Valid() && k in commands
      modifies commands[k]
      ensures Value() == old(Value()).SetStatus(k, CommandStatus.SUBMITTED)
    {
      commands[k].status := CommandStatus.SUBMITTED;
      assert Value().commands == old(Value()).SetStatus(k, CommandStatus.SUBMITTED).commands;
    }

    method MarkRunning(k: nat)
      requires Valid() && k in commands
      modifies commands[k]
      ensures Value() == old(Value()).SetStatus(k, CommandStatus.RUNNING)
    {
      commands[k].status := CommandStatus.RUNNING;
      assert Value().commands == old(Value()).SetStatus(k, CommandStatus.RUNNING).commands;
    }

    /** Only the first result is recorded. */
    method MarkTerminal(k: nat, status: CommandStatus, error: Option<Reason>) returns (first: bool)
      requires Valid() && k in commands
      modifies commands[k]
      ensures first == old(Value()).IsOpen(k)
      ensures Value() == if first then old(Value()).Mark(k, status, error) else old(Value())
    {
      var command := commands[k];
      first := !command.IsTerminal();
      if first {
        command.status := status;
        command.error := error;
        assert Value().commands == old(Value()).Mark(k, status, error).commands;
      }
    }
  }
}
