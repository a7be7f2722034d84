/** What never goes back over a run: tree indices, success, package stages, and the
    record of a command once it has ended. */
module History {
  import opened Domain
  import opened BehaviorTree
  import opened LocalInvariant
  import opened TickProof
  import opened Mission
  import opened Invariant
  import opened StepProof
  import opened MicroSteps

  /** How far a package has come. */
  function StageOf(it: Package): Stage {
    if it == StageView(CarriedUpstream) then CarriedUpstream
    else if it == StageView(AtTransfer) then AtTransfer
    else if it == StageView(CarriedDownstream) then CarriedDownstream
    else if it == StageView(AtDestination) then AtDestination
    else AtSource
  }

  ghost predicate ExecEvolves(ex: Exec, ex': Exec) {
    && ex.next <= ex'.next
    && (forall k :: k in ex.commands ==>
          && k in ex'.commands
          && ex'.commands[k].kind == ex.commands[k].kind
          && ex'.commands[k].task == ex.commands[k].task
          && ex'.commands[k].robot == ex.commands[k].robot
          && (ex.commands[k].IsTerminal() ==> ex'.commands[k] == ex.commands[k]))
    && (forall k :: k in ex'.commands && k !in ex.commands ==> ex.next <= k)
  }

  predicate TaskEvolves(t: Task, t': Task) {
    t.index <= t'.index && (t.status == TaskStatus.SUCCEEDED ==> t'.status == TaskStatus.SUCCEEDED)
  }

  predicate StageEvolves(it: Package, it': Package) {
    StageRank(StageOf(it)) <= StageRank(StageOf(it'))
  }

  ghost predicate Evolves(s: State, s': State) {
    && Wf(s) && Wf(s') && s'.n == s.n && s'.maxRetries == s.maxRetries
    && (forall id :: id in s.tasks ==> TaskEvolves(s.tasks[id], s'.tasks[id]))
    && (forall q :: q in s.items ==> StageEvolves(s.items[q], s'.items[q]))
    && ExecEvolves(s.exec, s'.exec)
  }

  lemma EvolvesTransitive(s0: State, s1: State, s2: State)
    requires Evolves(s0, s1) && Evolves(s1, s2)
    ensures Evolves(s0, s2)
  {
    forall id | id in s0.tasks
      ensures TaskEvolves(s0.tasks[id], s2.tasks[id])
    {
      assert TaskEvolves(s0.tasks[id], s1.tasks[id]) && TaskEvolves(s1.tasks[id], s2.tasks[id]);
    }
    forall q | q in s0.items
      ensures StageEvolves(s0.items[q], s2.items[q])
    {
      assert StageEvolves(s0.items[q], s1.items[q]) && StageEvolves(s1.items[q], s2.items[q]);
    }
    ExecTransitive(s0.exec, s1.exec, s2.exec);
  }

  lemma ExecTransitive(a: Exec, b: Exec, c: Exec)
    requires ExecEvolves(a, b) && ExecEvolves(b, c)
    ensures ExecEvolves(a, c)
  {
  }

  lemma PutEvolves(s: State, c': Ctx)
    requires Wf(s) && c'.task.id in s.tasks && Wf(Put(s, c'))
    requires var c := View(s, c'.task.id);
             TaskEvolves(c.task, c'.task) && StageEvolves(c.item, c'.item) && ExecEvolves(c.exec, c'.exec)
    ensures Evolves(s, Put(s, c'))
  {
  }

  lemma AddEvolves(n: nat, ex: Exec, kind: CommandKind, id: TaskId, robot: RobotId)
    requires ExecWf(n, ex)
    ensures ExecEvolves(ex, ex.Add(kind, id, robot))
  {
  }

  lemma MarkEvolves(ex: Exec, k: nat, status: CommandStatus, error: Option<Reason>)
    requires ex.IsOpen(k)
    ensures ExecEvolves(ex, ex.Mark(k, status, error))
  {
  }

  lemma RunTaskEvolves(s: State, id: TaskId, t: Task)
    requires Inv(s) && id in s.tasks
    requires s.tasks[id].index > 0 ==> t == s.tasks[id]
    requires s.tasks[id].index == 0 ==> t == s.tasks[id].(status := TaskStatus.RUNNING, phase := ACQUIRE_PICKUP)
    ensures Evolves(s, RunTask(s, id, t).state)
  {
    ViewOk(s, id);
    var c := View(s, id).(task := t);
    TickKeepsInvariant(c, s.tasks[Sibling(id)]);
    var r := TickTree(c);
    if r.emitted != [] {
      AddEvolves(s.n, s.exec, r.ctx.exec.commands[s.exec.next].kind, id, t.Robot());
    }
    TickWf(s.n, c);
    PutWf(s, r.ctx);
    PutEvolves(s, r.ctx);
  }

  lemma EffectEvolves(c: Ctx, sib: Task, k: nat, ex: Exec)
    requires CtxOk(c, sib) && c.task.active == Some(k) && c.exec.commands[k].id == k
    ensures StageEvolves(c.item, Applied(c.(exec := ex), c.exec.commands[k]).item)
  {
  }

  /** Only a handling command changes a package, and it moves it one stage on. */
  lemma EndedEvolves(s: State, k: nat, status: CommandStatus, error: Option<Reason>, effect: bool)
    requires Inv(s) && s.exec.IsOpen(k)
    ensures var id := s.exec.commands[k].task;
            var c, c' := View(s, id), Ended(s, k, status, error, effect);
            && c'.task.index == c.task.index && c.task.status != TaskStatus.SUCCEEDED && c'.task.id == id
            && StageEvolves(c.item, c'.item)
            && c'.exec == s.exec.Mark(k, status, error)
            && ExecWf(s.n, c'.exec) && ExecEvolves(s.exec, c'.exec)
  {
    var id := s.exec.commands[k].task;
    OpenIsActive(s, k);
    ViewOk(s, id);
    EffectEvolves(View(s, id), s.tasks[Sibling(id)], k, s.exec.Mark(k, status, error));
    MarkEvolves(s.exec, k, status, error);
    MarkWf(s.n, s.exec, k, status, error);
  }

  lemma LandedEvolves(s: State, k: nat)
    requires Inv(s) && s.exec.IsOpen(k)
    ensures Evolves(s, Landed(s, k))
  {
    OpenIsActive(s, k);
    EndedEvolves(s, k, CommandStatus.SUCCEEDED, None, true);
    PutWf(s, Landing(s, k));
    PutEvolves(s, Landing(s, k));
  }

  lemma LandEvolves(s: State, k: nat)
    requires Inv(s) && Enabled(s, Land(k))
    ensures Evolves(s, Perform(s, Land(k)).state)
  {
    var id := s.exec.commands[k].task;
    LandedEvolves(s, k);
    LandedKeepsInvariant(s, k);
    LandedFrame(s, k);
    RunTaskEvolves(Landed(s, k), id, Landed(s, k).tasks[id]);
    EvolvesTransitive(s, Landed(s, k), Perform(s, Land(k)).state);
  }

  lemma RetryEvolves(s: State, k: nat, reason: Reason)
    requires Inv(s) && Enabled(s, Micro.Retry(k, reason))
    ensures Evolves(s, Perform(s, Micro.Retry(k, reason)).state)
  {
    EndedEvolves(s, k, CommandStatus.FAILED, Some(reason), false);
    var c := Ended(s, k, CommandStatus.FAILED, Some(reason), false);
    var cmd := s.exec.commands[k];
    AddEvolves(s.n, c.exec, cmd.kind, cmd.task, cmd.robot);
    AddWf(s.n, c.exec, cmd.kind, cmd.task, cmd.robot);
    ExecTransitive(s.exec, c.exec, c.exec.Add(cmd.kind, cmd.task, cmd.robot));
    PutWf(s, Retried(s, k, reason));
    PutEvolves(s, Retried(s, k, reason));
  }

  /** Operator flags and statuses leave everything that evolves alone. */
  lemma FlagEvolves(s: State, m: Micro)
    requires Inv(s) && Enabled(s, m) && (m.SetMission? || m.SetPause? || m.AbortAll?)
    ensures Evolves(s, Perform(s, m).state)
  {
  }

  lemma PerformEvolves(s: State, m: Micro)
    requires Inv(s) && Enabled(s, m)
    ensures Evolves(s, Perform(s, m).state)
  {
    match m
    case Tick(id) => RunTaskEvolves(s, id, s.tasks[id]);
    case Start(id) =>
      ScheduledInOrder(s, id);
      RunTaskEvolves(s, id, s.tasks[id].(status := TaskStatus.RUNNING, phase := ACQUIRE_PICKUP));
    case Land(k) => LandEvolves(s, k);
    case End(_, _, _, _) =>
      EndedEvolves(s, m.command, m.result, m.error, m.result == CommandStatus.SUCCEEDED);
      PutWf(s, Ending(s, m));
      PutEvolves(s, Ending(s, m));
    case Fail(k, result, reason) =>
      EndedEvolves(s, k, result, Some(reason), false);
      PutWf(s, Failing(s, k, result, reason));
      PutEvolves(s, Failing(s, k, result, reason));
    case Retry(k, reason) => RetryEvolves(s, k, reason);
    case _ => FlagEvolves(s, m);
  }

  lemma {:induction false} PerformAllEvolves(s: State, ms: seq<Micro>)
    requires Inv(s) && AllEnabled(s, ms)
    ensures Evolves(s, PerformAll(s, ms).state) && Inv(PerformAll(s, ms).state)
    decreases |ms|
  {
    if ms != [] {
      PerformEvolves(s, ms[0]);
      PerformKeepsInvariant(s, ms[0]);
      PerformAllEvolves(Perform(s, ms[0]).state, ms[1..]);
      EvolvesTransitive(s, Perform(s, ms[0]).state, PerformAll(s, ms).state);
    }
  }

  lemma StepEvolves(s: State, e: Event)
    requires Inv(s)
    ensures Evolves(s, Step(s, e).state)
  {
    var ms := PlanStep(s, e);
    PerformAllEvolves(s, ms);
  }

  /** Over any run from any reachable state no tree index decreases, a succeeded task
      stays succeeded, no package goes back a stage, no command is forgotten, and a
      command that has ended is never touched again. */
  lemma {:induction false} RunEvolves(s: State, events: seq<Event>)
    requires Inv(s)
    ensures Inv(Run(s, events).state) && Evolves(s, Run(s, events).state)
  {
    if events != [] {
      RunEvolves(s, events[..|events| - 1]);
      var mid := Run(s, events[..|events| - 1]).state;
      StepKeepsInvariant(mid, events[|events| - 1]);
      StepEvolves(mid, events[|events| - 1]);
      EvolvesTransitive(s, mid, Run(s, events).state);
    }
  }
}
