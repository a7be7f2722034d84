/** Bounded work: whatever happens in a mission, the commands ever created for one task
    are at most six, plus three times the retry limit, plus those that were cancelled. */
module Budget {
  import opened Domain
  import opened BehaviorTree
  import opened LocalInvariant
  import opened TickProof
  import opened Mission
  import opened Invariant
  import opened StepProof
  import opened MicroSteps
  import opened Work
  import opened WorkLeft
  import History

  // ----- Counting commands -----

  function Created(ex: Exec, id: TaskId): set<nat> {
    set k | k in ex.commands && ex.commands[k].task == id
  }

  function Cancelled(ex: Exec, id: TaskId): set<nat> {
    set k | k in ex.commands && ex.commands[k].task == id && ex.commands[k].status == CommandStatus.CANCELLED
  }

  /** The commands of a task that were carried out or failed. */
  function Spent(ex: Exec, id: TaskId): set<nat> {
    set k | k in ex.commands && ex.commands[k].task == id &&
            (ex.commands[k].status == CommandStatus.SUCCEEDED || ex.commands[k].status == CommandStatus.FAILED)
  }

  lemma AddSpends(n: nat, ex: Exec, kind: CommandKind, task: TaskId, robot: RobotId, id: TaskId)
    requires ExecWf(n, ex)
    ensures Spent(ex.Add(kind, task, robot), id) == Spent(ex, id)
  {
  }

  lemma MarkSpends(ex: Exec, k: nat, status: CommandStatus, error: Option<Reason>)
    requires ex.IsOpen(k)
    requires status == CommandStatus.SUCCEEDED || status == CommandStatus.FAILED || status == CommandStatus.CANCELLED
    ensures var id := ex.commands[k].task;
            |Spent(ex.Mark(k, status, error), id)| ==
            |Spent(ex, id)| + if status == CommandStatus.CANCELLED then 0 else 1
  {
    var id := ex.commands[k].task;
    var was, now := Spent(ex, id), Spent(ex.Mark(k, status, error), id);
    if status == CommandStatus.CANCELLED {
      assert now == was;
    } else {
      assert now == was + {k} && k !in was;
    }
  }

  // ----- The budget of one task -----

  function Middle(leg: Leg): Waypoint {
    if leg == UP then Source else Destination
  }

  /** The retries used on the three places a leg's moves go to. */
  function RetrySum(t: Task): nat {
    t.Retries(Middle(t.id.leg)) + t.Retries(Exit(t.id.leg)) + t.Retries(Transfer)
  }

  /** The place of a task that failed outright: it gets no further command. */
  predicate Dropped(c: Ctx) {
    c.task.active == None && c.task.index > 0 && Hi(c) >= 1
  }

  ghost predicate Capped(retries: map<Waypoint, nat>, cap: nat) {
    forall w :: w in retries ==> retries[w] <= cap
  }

  ghost predicate Within(c: Ctx, dead: bool, cap: nat) {
    && |Spent(c.exec, c.task.id)| + Hi(c) <= 6 + RetrySum(c.task) + (if dead && Dropped(c) then 1 else 0)
    && Capped(c.task.retries, cap)
  }

  predicate Dead(status: MissionStatus) {
    status == ABORTED || status == MissionStatus.FAILED
  }

  function Cap(maxRetries: int): nat {
    if maxRetries < 0 then 0 else maxRetries
  }

  ghost predicate BudgetAt(s: State, id: TaskId)
    requires Wf(s) && id in s.tasks
  {
    Within(View(s, id), Dead(s.status), Cap(s.maxRetries))
  }

  ghost predicate Budgeted(s: State)
    requires Wf(s)
  {
    forall id {:trigger BudgetAt(s, id)} :: id in s.tasks ==> BudgetAt(s, id)
  }

  // ----- Other tasks' budgets are untouched -----

  lemma OtherSpent(s: State, c': Ctx, x: TaskId)
    requires Wf(s) && c'.task.id in s.tasks && Sibling(c'.task.id) in s.tasks && Guarantee(s, c')
    requires x != c'.task.id
    ensures Spent(c'.exec, x) == Spent(s.exec, x)
  {
  }

  lemma SameShareWithin(c: Ctx, d: Ctx, dead: bool, dead': bool, cap: nat)
    requires SameShare(c, d) && Spent(d.exec, c.task.id) == Spent(c.exec, c.task.id)
    requires Within(c, dead, cap) && (dead ==> dead')
    ensures Within(d, dead', cap)
  {
    ShareKept(c, d);
  }

  /** Putting back a task's records within budget keeps the whole mission within budget. */
  lemma PutBudgeted(s: State, c': Ctx, status: MissionStatus)
    requires Inv(s) && Budgeted(s) && c'.task.id in s.tasks && Sibling(c'.task.id) in s.tasks && Guarantee(s, c')
    requires Dead(s.status) ==> Dead(status)
    requires Within(c', Dead(status), Cap(s.maxRetries))
    ensures Wf(Put(s, c').(status := status)) && Budgeted(Put(s, c').(status := status))
  {
    PutWf(s, c');
    var s1 := Put(s, c');
    var s' := s1.(status := status);
    forall x | x in s'.tasks
      ensures BudgetAt(s', x)
    {
      assert View(s', x) == View(s1, x);
      if x == c'.task.id {
        ViewPut(s, c');
      } else {
        assert TaskAt(s, x) && BudgetAt(s, x);
        OtherShare(s, c', x);
        OtherSpent(s, c', x);
        SameShareWithin(View(s, x), View(s1, x), Dead(s.status), Dead(status), Cap(s.maxRetries));
      }
    }
  }

  // ----- The acting task -----

  /** A task that can act has not used the allowance of a dropped one. */
  lemma ActingWithin(s: State, id: TaskId)
    requires Wf(s) && id in s.tasks && BudgetAt(s, id)
    requires s.status == MissionStatus.RUNNING || s.tasks[id].active.Some? || s.tasks[id].index == 0
    ensures Within(View(s, id), false, Cap(s.maxRetries))
  {
  }

  lemma TickWithin(n: nat, c: Ctx, sib: Task, dead: bool, cap: nat)
    requires CtxOk(c, sib) && Within(c, false, cap) && ExecWf(n, c.exec)
    ensures Within(TickTree(c).ctx, dead, cap)
  {
    TickNarrows(c, sib);
    TickKeepsInvariant(c, sib);
    var r := TickTree(c);
    if r.emitted != [] {
      AddSpends(n, c.exec, r.ctx.exec.commands[c.exec.next].kind, c.task.id, c.task.Robot(), c.task.id);
    }
  }

  lemma RunTaskBudgeted(s: State, id: TaskId, t: Task)
    requires Inv(s) && Budgeted(s) && MayRun(s, id, t) && Within(View(s, id), false, Cap(s.maxRetries))
    ensures Budgeted(RunTask(s, id, t).state)
  {
    RunTaskChanges(s, id, t);
    var c := View(s, id).(task := t);
    SameWork(View(s, id), t);
    TickWithin(s.n, c, s.tasks[Sibling(id)], Dead(s.status), Cap(s.maxRetries));
    var o := RunTask(s, id, t);
    PutBudgeted(s, TickTree(c).ctx, s.status);
    assert o.state == Put(s, TickTree(c).ctx).(status := s.status);
  }

  /** A command that ends without effect leaves at least as little to do, and something. */
  lemma UnservedNeedsWork(c: Ctx, sib: Task, ex: Exec, status: TaskStatus)
    requires CtxOk(c, sib) && Rests(c.task) && c.task.active.Some?
    ensures var c' := c.(exec := ex, task := c.task.(active := None, status := status));
            1 <= Hi(c') <= Hi(c)
  {
  }

  lemma EndWithin(c: Ctx, sib: Task, k: nat, status: CommandStatus, error: Option<Reason>, t: TaskStatus,
                  dead: bool, cap: nat)
    requires CtxOk(c, sib) && Rests(c.task) && c.task.active == Some(k) && c.exec.commands[k].id == k
    requires Within(c, false, cap)
    requires status == CommandStatus.SUCCEEDED || status == CommandStatus.CANCELLED ||
             (status == CommandStatus.FAILED && dead)
    ensures var ex := c.exec.Mark(k, status, error);
            var c1 := if status == CommandStatus.SUCCEEDED then Applied(c.(exec := ex), c.exec.commands[k])
                      else c.(exec := ex, task := c.task.(active := None));
            Within(c1.(task := c1.task.(status := t)), dead, cap)
  {
    var ex := c.exec.Mark(k, status, error);
    MarkSpends(c.exec, k, status, error);
    if status == CommandStatus.SUCCEEDED {
      EffectCounts(c, sib, k, ex, t);
    } else {
      UnservedWithin(c, sib, k, status, error, t, dead, cap);
    }
  }

  lemma UnservedWithin(c: Ctx, sib: Task, k: nat, status: CommandStatus, error: Option<Reason>, t: TaskStatus,
                       dead: bool, cap: nat)
    requires CtxOk(c, sib) && Rests(c.task) && c.task.active == Some(k) && Within(c, false, cap)
    requires status == CommandStatus.CANCELLED || (status == CommandStatus.FAILED && dead)
    ensures Within(c.(exec := c.exec.Mark(k, status, error), task := c.task.(active := None, status := t)), dead, cap)
  {
    MarkSpends(c.exec, k, status, error);
    UnservedNeedsWork(c, sib, c.exec.Mark(k, status, error), t);
  }

  lemma EndedWithin(s: State, k: nat, status: CommandStatus, error: Option<Reason>, t: TaskStatus, dead: bool)
    requires Inv(s) && Budgeted(s) && s.exec.IsOpen(k)
    requires status == CommandStatus.SUCCEEDED || status == CommandStatus.CANCELLED ||
             (status == CommandStatus.FAILED && dead)
    ensures var c := Ended(s, k, status, error, status == CommandStatus.SUCCEEDED);
            Within(c.(task := c.task.(status := t)), dead, Cap(s.maxRetries))
  {
    var id := s.exec.commands[k].task;
    OpenIsActive(s, k);
    ViewOk(s, id);
    assert TaskAt(s, id) && BudgetAt(s, id);
    ActingWithin(s, id);
    EndWithin(View(s, id), s.tasks[Sibling(id)], k, status, error, t, dead, Cap(s.maxRetries));
  }

  lemma NotesWithin(c: Ctx, reason: Reason, blocker: Blocker, dead: bool, cap: nat)
    requires Within(c, dead, cap)
    ensures Within(c.(task := c.task.(blockedReason := Some(reason), blockedBy := Some(blocker))), dead, cap)
  {
  }

  lemma RetryWithin(n: nat, c: Ctx, sib: Task, k: nat, error: Reason, maxRetries: int)
    requires CtxOk(c, sib) && ExecWf(n, c.exec) && c.task.active == Some(k) && c.exec.commands[k].kind.MoveRobot?
    requires Within(c, false, Cap(maxRetries)) && c.task.Retries(c.exec.commands[k].kind.target) < maxRetries
    ensures var ended := c.(exec := c.exec.Mark(k, CommandStatus.FAILED, Some(error)), task := c.task.(active := None));
            Within(Reissued(ended, c.exec.commands[k]), false, Cap(maxRetries))
  {
    var cmd := c.exec.commands[k];
    var w, ex := cmd.kind.target, c.exec.Mark(k, CommandStatus.FAILED, Some(error));
    MarkSpends(c.exec, k, CommandStatus.FAILED, Some(error));
    MarkWf(n, c.exec, k, CommandStatus.FAILED, Some(error));
    AddSpends(n, ex, cmd.kind, cmd.task, cmd.robot, c.task.id);
    var d := Reissued(c.(exec := ex, task := c.task.(active := None)), cmd);
    RetryCounts(c.task, w, d.task);
    RetryKeepsWork(c, k, d);
  }

  lemma RetryCounts(t: Task, w: Waypoint, t': Task)
    requires w == Middle(t.id.leg) || w == Exit(t.id.leg) || w == Transfer
    requires t'.id == t.id && t'.retries == t.retries[w := t.Retries(w) + 1]
    ensures RetrySum(t') == RetrySum(t) + 1
  {
  }

  lemma RetryKeepsWork(c: Ctx, k: nat, d: Ctx)
    requires c.task.active == Some(k) && k in c.exec.commands
    requires d.task.active.Some? && d.task.active.value in d.exec.commands
    requires d.exec.commands[d.task.active.value].kind == c.exec.commands[k].kind
    requires d.task.id == c.task.id && d.task.index == c.task.index && d.robot == c.robot && d.item == c.item
    ensures Hi(d) == Hi(c)
  {
  }

  // ----- Every elementary change keeps the budget -----

  lemma PutSame(s: State, c: Ctx)
    requires Inv(s) && Budgeted(s) && c.task.id in s.tasks && Sibling(c.task.id) in s.tasks && Guarantee(s, c)
    requires Within(c, Dead(s.status), Cap(s.maxRetries))
    ensures Wf(Put(s, c)) && Budgeted(Put(s, c)) && View(Put(s, c), c.task.id) == c
  {
    PutBudgeted(s, c, s.status);
    PutWf(s, c);
    ViewPut(s, c);
    assert Put(s, c) == Put(s, c).(status := s.status);
  }

  lemma LandedPut(s: State, k: nat) returns (c: Ctx)
    requires Inv(s) && Budgeted(s) && s.exec.IsOpen(k)
    ensures c.task.id == s.exec.commands[k].task && c.task.id in s.tasks && Sibling(c.task.id) in s.tasks
    ensures Landed(s, k) == Put(s, c) && Guarantee(s, c)
    ensures Within(c, false, Cap(s.maxRetries)) && Within(c, Dead(s.status), Cap(s.maxRetries))
  {
    c := Landing(s, k);
    LandedIsPut(s, k);
    LandingChanges(s, k);
    EndedWithin(s, k, CommandStatus.SUCCEEDED, None, Landing(s, k).task.status, false);
  }

  lemma LandedBudgeted(s: State, k: nat)
    requires Inv(s) && Budgeted(s) && s.exec.IsOpen(k)
    ensures Budgeted(Landed(s, k))
    ensures s.exec.commands[k].task in s.tasks
    ensures Within(View(Landed(s, k), s.exec.commands[k].task), false, Cap(s.maxRetries))
  {
    var c := LandedPut(s, k);
    PutSame(s, c);
  }

  lemma LandBudgeted(s: State, k: nat)
    requires Inv(s) && Budgeted(s) && Enabled(s, Land(k))
    ensures Budgeted(Perform(s, Land(k)).state)
  {
    var id := s.exec.commands[k].task;
    LandedBudgeted(s, k);
    LandedKeepsInvariant(s, k);
    LandedFrame(s, k);
    RunTaskBudgeted(Landed(s, k), id, Landed(s, k).tasks[id]);
  }

  lemma EndBudgeted(s: State, m: Micro)
    requires Inv(s) && Budgeted(s) && m.End? && Enabled(s, m)
    ensures Budgeted(Perform(s, m).state)
  {
    EndedChanges(s, m.command, m.result, m.error, m.result == CommandStatus.SUCCEEDED, m.taskStatus);
    EndedWithin(s, m.command, m.result, m.error, m.taskStatus, Dead(s.status));
    PutBudgeted(s, Ending(s, m), s.status);
    assert Perform(s, m).state == Put(s, Ending(s, m)).(status := s.status);
  }

  lemma FailBudgeted(s: State, k: nat, result: CommandStatus, reason: Reason)
    requires Inv(s) && Budgeted(s) && s.exec.IsOpen(k)
    requires result == CommandStatus.FAILED || result == CommandStatus.CANCELLED
    ensures ExecWf(s.n, s.exec.Mark(k, result, Some(reason)))
    ensures Budgeted(FailTask(s, Ended(s, k, result, Some(reason), false), s.exec.commands[k], reason))
  {
    MarkWf(s.n, s.exec, k, result, Some(reason));
    FailingChanges(s, k, result, reason);
    EndedWithin(s, k, result, Some(reason), TaskStatus.FAILED, true);
    var c := Ended(s, k, result, Some(reason), false);
    NotesWithin(c.(task := c.task.(status := TaskStatus.FAILED)), reason, ByRobot(s.exec.commands[k].robot), true,
                Cap(s.maxRetries));
    PutBudgeted(s, Failing(s, k, result, reason), MissionStatus.FAILED);
  }

  lemma CanRetry(s: State, k: nat, reason: Reason)
    requires Inv(s) && Budgeted(s) && s.exec.IsOpen(k) && Retries(s, k, reason)
    ensures var id := s.exec.commands[k].task;
            && id in s.tasks && Sibling(id) in s.tasks && s.tasks[id].active == Some(k)
            && CtxOk(View(s, id), s.tasks[Sibling(id)]) && Within(View(s, id), false, Cap(s.maxRetries))
  {
    var id := s.exec.commands[k].task;
    OpenIsActive(s, k);
    ViewOk(s, id);
    assert BudgetAt(s, id);
    ActingWithin(s, id);
  }

  lemma RetriedWithin(s: State, k: nat, reason: Reason)
    requires Inv(s) && Budgeted(s) && s.exec.IsOpen(k) && Retries(s, k, reason)
    ensures Within(Retried(s, k, reason), false, Cap(s.maxRetries))
  {
    var id := s.exec.commands[k].task;
    CanRetry(s, k, reason);
    RetryWithin(s.n, View(s, id), s.tasks[Sibling(id)], k, reason, s.maxRetries);
  }

  lemma RetryBudgeted(s: State, k: nat, reason: Reason)
    requires Inv(s) && Budgeted(s) && s.exec.IsOpen(k) && Retries(s, k, reason)
    ensures Wf(Put(s, Retried(s, k, reason))) && Budgeted(Put(s, Retried(s, k, reason)))
  {
    var c := Retried(s, k, reason);
    RetryChanges(s, k, reason);
    RetriedWithin(s, k, reason);
    PutSame(s, c);
  }

  lemma SameButStatus(c: Ctx, d: Ctx, dead: bool, dead': bool, cap: nat)
    requires Within(c, dead, cap) && (dead ==> dead')
    requires d.exec == c.exec && d.item == c.item && d.robot.location == c.robot.location
    requires d.task == c.task.(status := d.task.status)
    ensures Within(d, dead', cap)
  {
    assert Hi(d) == Hi(c);
  }

  /** Mission status, task statuses and robot pauses do not enter the budget. */
  lemma StatusesBudgeted(s: State, s': State)
    requires Wf(s) && Wf(s') && Budgeted(s) && s'.n == s.n && s'.maxRetries == s.maxRetries
    requires Dead(s.status) ==> Dead(s'.status)
    requires s'.exec == s.exec && s'.items == s.items
    requires forall r :: r in s.robots ==> r in s'.robots && s'.robots[r].location == s.robots[r].location
    requires forall id :: id in s.tasks ==>
               id in s'.tasks && s'.tasks[id] == s.tasks[id].(status := s'.tasks[id].status)
    ensures Budgeted(s')
  {
    forall id | id in s'.tasks
      ensures BudgetAt(s', id)
    {
      assert BudgetAt(s, id);
      SameButStatus(View(s, id), View(s', id), Dead(s.status), Dead(s'.status), Cap(s.maxRetries));
    }
  }

  lemma TickBudgeted(s: State, id: TaskId)
    requires Inv(s) && Budgeted(s) && Enabled(s, Tick(id))
    ensures Budgeted(AdvanceTask(s, id).state)
  {
    assert BudgetAt(s, id);
    ActingWithin(s, id);
    RunTaskBudgeted(s, id, s.tasks[id]);
  }

  lemma StartBudgeted(s: State, id: TaskId)
    requires Inv(s) && Budgeted(s) && Enabled(s, Micro.Start(id))
    ensures Budgeted(Mission.StartTask(s, id).state)
  {
    ScheduledInOrder(s, id);
    assert BudgetAt(s, id);
    ActingWithin(s, id);
    RunTaskBudgeted(s, id, s.tasks[id].(status := TaskStatus.RUNNING, phase := ACQUIRE_PICKUP));
  }

  lemma PerformBudgeted(s: State, m: Micro)
    requires Inv(s) && Budgeted(s) && Enabled(s, m)
    ensures Budgeted(Perform(s, m).state)
  {
    match m
    case Tick(id) => TickBudgeted(s, id);
    case Start(id) => StartBudgeted(s, id);
    case Land(k) => LandBudgeted(s, k);
    case End(_, _, _, _) => EndBudgeted(s, m);
    case Fail(k, result, reason) => FailBudgeted(s, k, result, reason);
    case Retry(k, reason) => RetryBudgeted(s, k, reason);
    case SetMission(status) => StatusesBudgeted(s, s.(status := status));
    case SetPause(robot, paused) => StatusesBudgeted(s, SetPaused(s, robot, paused));
    case AbortAll => AbortBudgeted(s);
  }

  lemma AbortBudgeted(s: State)
    requires Wf(s) && Budgeted(s)
    ensures Budgeted(HandleAbort(s).state)
  {
    StatusesBudgeted(s, HandleAbort(s).state);
  }

  // ----- Runs -----

  lemma {:induction false} PerformAllBudgeted(s: State, ms: seq<Micro>)
    requires Inv(s) && Budgeted(s) && AllEnabled(s, ms)
    ensures Budgeted(PerformAll(s, ms).state)
    decreases |ms|
  {
    if ms != [] {
      PerformBudgeted(s, ms[0]);
      PerformKeepsInvariant(s, ms[0]);
      PerformAllBudgeted(Perform(s, ms[0]).state, ms[1..]);
    }
  }

  lemma InitialBudgeted(n: nat, maxRetries: int)
    ensures Budgeted(Initial(n, maxRetries))
  {
    var s := Initial(n, maxRetries);
    forall id | id in s.tasks
      ensures BudgetAt(s, id)
    {
      assert Spent(s.exec, id) == {};
    }
  }

  lemma {:induction false} RunBudgeted(n: nat, maxRetries: int, events: seq<Event>)
    ensures var s := Run(Initial(n, maxRetries), events).state;
            Inv(s) && Budgeted(s) && s.maxRetries == maxRetries
  {
    if events == [] {
      InitialInvariant(n, maxRetries);
      InitialBudgeted(n, maxRetries);
    } else {
      RunBudgeted(n, maxRetries, events[..|events| - 1]);
      var s, e := Run(Initial(n, maxRetries), events[..|events| - 1]).state, events[|events| - 1];
      StepBudgeted(s, e);
    }
  }

  lemma StepBudgeted(s: State, e: Event)
    requires Inv(s) && Budgeted(s)
    ensures Inv(Step(s, e).state) && Budgeted(Step(s, e).state) && Step(s, e).state.maxRetries == s.maxRetries
  {
    var ms := PlanStep(s, e);
    PerformAllBudgeted(s, ms);
    StepKeepsInvariant(s, e);
    History.StepEvolves(s, e);
  }

  lemma CreatedAreCounted(s: State, id: TaskId)
    requires Inv(s) && id in s.tasks
    ensures |Created(s.exec, id)| <=
            |Spent(s.exec, id)| + |Cancelled(s.exec, id)| + if s.tasks[id].active.Some? then 1 else 0
  {
    var open := if s.tasks[id].active.Some? then {s.tasks[id].active.value} else {};
    forall k | k in Created(s.exec, id)
      ensures k in Spent(s.exec, id) + Cancelled(s.exec, id) + open
    {
      if s.exec.IsOpen(k) {
        OpenIsActive(s, k);
      }
    }
    Smaller(Created(s.exec, id), Spent(s.exec, id) + Cancelled(s.exec, id) + open);
  }

  lemma {:induction false} Smaller(a: set<nat>, b: set<nat>)
    requires a <= b
    ensures |a| <= |b|
  {
    if a != {} {
      var x :| x in a;
      Smaller(a - {x}, b - {x});
    }
  }

  lemma WithinBudget(s: State, id: TaskId)
    requires Inv(s) && Budgeted(s) && id in s.tasks
    ensures |Created(s.exec, id)| <= 6 + 3 * Cap(s.maxRetries) + |Cancelled(s.exec, id)|
  {
    CreatedAreCounted(s, id);
    assert BudgetAt(s, id);
    if s.tasks[id].active.Some? {
      ViewOk(s, id);
      ActiveNeedsWork(View(s, id), s.tasks[Sibling(id)]);
    }
  }

  /** Every run, with any failures, retries, pauses, cancellations and aborts: the commands
      created for a task number at most 6 + 3 * maxRetries + its cancelled commands. */
  lemma BoundedWork(n: nat, maxRetries: int, events: seq<Event>, id: TaskId)
    requires id in Run(Initial(n, maxRetries), events).state.tasks
    ensures var ex := Run(Initial(n, maxRetries), events).state.exec;
            |Created(ex, id)| <= 6 + 3 * Cap(maxRetries) + |Cancelled(ex, id)|
  {
    RunBudgeted(n, maxRetries, events);
    WithinBudget(Run(Initial(n, maxRetries), events).state, id);
  }
}
