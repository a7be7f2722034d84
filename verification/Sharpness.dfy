/** The package that sorts first: its upstream task is never refused the zone, and its
    downstream task always is. So one move can never be made, and one is always made. */
module Sharpness {
  import opened Domain
  import opened BehaviorTree
  import opened TaskOrder
  import opened LocalInvariant
  import opened TickProof
  import opened Mission
  import opened Invariant
  import opened StepProof
  import opened MicroSteps
  import opened Work
  import opened WorkLeft
  import opened Totals
  import opened Progress
  import opened Asking
  import opened Delivery
  import History

  // ----- The first package -----

  /** Package `p` sorts before all others. */
  ghost predicate IsFirst(n: nat, p: nat) {
    1 <= p <= n && forall q {:trigger Before(p, q)} :: 1 <= q <= n && q != p ==> Before(p, q)
  }

  lemma FirstExists(n: nat) returns (p: nat)
    requires n >= 1
    ensures IsFirst(n, p)
  {
    var ids := Schedule(n);
    ScheduleOrder(n);
    assert TaskId(1, UP) in ids;
    p := ids[0].item;
    assert ids[0] in ids;
    forall q | 1 <= q <= n && q != p
      ensures Before(p, q)
    {
      FirstOfOrdered(ids, TaskId(q, UP));
      BothLegsSortAlike(ids[0], TaskId(q, UP));
    }
  }

  lemma FirstOfOrdered(ids: seq<TaskId>, x: TaskId)
    requires Ordered(ids) && x in ids && x != ids[0]
    ensures IdLess(ids[0], x)
  {
    var j :| 0 <= j < |ids| && ids[j] == x;
    assert IdLess(ids[0], ids[j]);
  }

  /** No other package has been started on its way before the first one is through. */
  lemma OthersUnstarted(s: State, p: nat, x: nat)
    requires Inv(s) && IsFirst(s.n, p) && x in s.items && x != p && s.tasks[TaskId(p, UP)].index < TREE_SIZE
    ensures s.tasks[TaskId(x, UP)].index == 0 && s.tasks[TaskId(x, DOWN)].index <= 1
  {
    assert Before(p, x);
    assert PackageAt(s, x);
    if s.tasks[TaskId(x, UP)].index > 0 {
      InOrderAt(s, TaskId(p, UP), TaskId(x, UP));
    }
  }

  /** The zone is free for the upstream task of the first package when it asks. */
  lemma FirstIsFree(s: State, p: nat)
    requires Inv(s) && IsFirst(s.n, p) && TaskId(p, UP) in s.tasks && s.tasks[TaskId(p, UP)].index <= 8
    ensures s.transfer.lease == None && s.transfer.packageOccupancy == []
  {
    var u := TaskId(p, UP);
    assert PackageAt(s, p);
    if s.transfer.packageOccupancy != [] {
      var x := s.transfer.packageOccupancy[0];
      assert PackageAt(s, x);
      if x != p {
        OthersUnstarted(s, p, x);
      }
    }
    if s.transfer.lease.Some? {
      var t := s.transfer.lease.value.task;
      assert TaskAt(s, t);
      if t.item != p {
        OthersUnstarted(s, p, t.item);
      }
    }
  }

  // ----- The upstream task of the first package -----

  predicate Free(c: Ctx) {
    c.task.index <= 8 ==> c.transfer.lease == None && c.transfer.packageOccupancy == []
  }

  lemma NodeExact(c: Ctx, sib: Task)
    requires CtxOk(c, sib) && c.task.index < TREE_SIZE && c.task.id.leg == UP && Free(c)
    ensures var r := TickNode(Child(c.task.index), c);
            var d := if r.success then Next(r.ctx) else r.ctx;
            Lo(d) <= Lo(c) && Free(d)
  {
    if c.task.index == 8 {
      RequestDecision(c, sib);
    }
  }

  /** Where it is not refused, a tick leaves exactly as much to do, at least, as before. */
  lemma {:induction false} TickExact(c: Ctx, sib: Task)
    requires CtxOk(c, sib) && c.task.id.leg == UP && Free(c)
    ensures Lo(TickTree(c).ctx) <= Lo(c)
    decreases TREE_SIZE - c.task.index
  {
    if c.task.index < TREE_SIZE {
      NodeExact(c, sib);
      NodeKeepsInvariant(c, sib);
      var r := TickNode(Child(c.task.index), c);
      if r.success {
        TickExact(Next(r.ctx), sib);
      }
    }
  }

  lemma RunTaskExact(s: State, id: TaskId, t: Task, p: nat)
    requires Inv(s) && MayRun(s, id, t) && IsFirst(s.n, p) && TaskId(p, UP) in s.tasks
    ensures LoAt(RunTask(s, id, t).state, TaskId(p, UP)) <= LoAt(s, TaskId(p, UP))
  {
    var u := TaskId(p, UP);
    if id == u {
      FirstExact(s, t, p);
    } else {
      OtherExact(s, id, t, u);
    }
  }

  lemma OtherExact(s: State, id: TaskId, t: Task, u: TaskId)
    requires Inv(s) && MayRun(s, id, t) && u in s.tasks && u != id
    ensures LoAt(RunTask(s, id, t).state, u) == LoAt(s, u)
  {
    RunTaskChanges(s, id, t);
    assert TaskAt(s, u);
    OtherWorkKept(s, TickTree(View(s, id).(task := t)).ctx, u);
  }

  lemma FirstExact(s: State, t: Task, p: nat)
    requires IsFirst(s.n, p) && Inv(s) && MayRun(s, TaskId(p, UP), t)
    ensures LoAt(RunTask(s, TaskId(p, UP), t).state, TaskId(p, UP)) <= LoAt(s, TaskId(p, UP))
  {
    var u := TaskId(p, UP);
    RunTaskChanges(s, u, t);
    if t.index <= 8 {
      FirstIsFree(s, p);
    }
    TickExact(View(s, u).(task := t), s.tasks[Sibling(u)]);
    SameWork(View(s, u), t);
    PutWf(s, TickTree(View(s, u).(task := t)).ctx);
    ViewPut(s, TickTree(View(s, u).(task := t)).ctx);
  }

  lemma MoveExact(s: State, m: Micro, p: nat)
    requires Inv(s) && Enabled(s, m) && Moves(m) && IsFirst(s.n, p) && TaskId(p, UP) in s.tasks
    ensures LoAt(Perform(s, m).state, TaskId(p, UP)) <= LoAt(s, TaskId(p, UP))
  {
    match m
    case Tick(id) => RunTaskExact(s, id, s.tasks[id], p);
    case Start(id) =>
      ScheduledInOrder(s, id);
      RunTaskExact(s, id, s.tasks[id].(status := TaskStatus.RUNNING, phase := ACQUIRE_PICKUP), p);
    case SetMission(status) => assert View(Perform(s, m).state, TaskId(p, UP)) == View(s, TaskId(p, UP));
  }

  lemma {:induction false} MovesExact(s: State, ms: seq<Micro>, p: nat)
    requires Inv(s) && AllEnabled(s, ms) && (forall m :: m in ms ==> Moves(m))
    requires IsFirst(s.n, p) && TaskId(p, UP) in s.tasks
    ensures LoAt(PerformAll(s, ms).state, TaskId(p, UP)) <= LoAt(s, TaskId(p, UP))
    decreases |ms|
  {
    if ms != [] {
      assert ms[0] in ms;
      MoveExact(s, ms[0], p);
      PerformKeepsInvariant(s, ms[0]);
      MovesExact(Perform(s, ms[0]).state, ms[1..], p);
    }
  }

  lemma LandedExact(s: State, k: nat, p: nat)
    requires Inv(s) && Enabled(s, Land(k)) && IsFirst(s.n, p) && TaskId(p, UP) in s.tasks
    requires s.exec.commands[k].task in Landed(s, k).tasks
    ensures var s1, u := Landed(s, k), TaskId(p, UP);
            LoAt(Follow(s1, s.exec.commands[k].task).state, u) <= LoAt(s1, u)
  {
    var id := s.exec.commands[k].task;
    var rest := PlanLand(s, k);
    PlanRest(s, k, rest);
    LandedKeepsInvariant(s, k);
    LandedFrame(s, k);
    LandKeepsInvariant(s, k);
    RunTaskExact(Landed(s, k), id, Landed(s, k).tasks[id], p);
    MovesExact(Perform(s, Land(k)).state, rest, p);
  }

  lemma PlanRest(s: State, k: nat, rest: seq<Micro>)
    requires Wf(s) && Enabled(s, Land(k)) && AllEnabled(s, [Land(k)] + rest)
    ensures AllEnabled(Perform(s, Land(k)).state, rest)
    ensures PerformAll(s, [Land(k)] + rest).state == PerformAll(Perform(s, Land(k)).state, rest).state
  {
    ConsParts(Land(k), rest);
  }

  /** The most that is left, less the wait move of the first upstream task. */
  function Top(s: State, p: nat): int
    requires Wf(s) && TaskId(p, UP) in s.tasks
  {
    HiTotal(s) - HiAt(s, TaskId(p, UP)) + LoAt(s, TaskId(p, UP))
  }

  lemma CompletionExact(s: State, k: nat, p: nat)
    requires Inv(s) && TasksLive(s) && Unpaused(s) && s.status == MissionStatus.RUNNING && s.exec.IsOpen(k)
    requires IsFirst(s.n, p) && TaskId(p, UP) in s.tasks
    ensures Top(HandleCompleted(s, k).state, p) <= Top(s, p) - 1
  {
    var id, u := s.exec.commands[k].task, TaskId(p, UP);
    CompletionLive(s, k);
    OpenLands(s, k);
    NotHeld(s, k);
    LandedTotals(s, k);
    LandedCounts(s, k);
    LandedRuns(s, k);
    LandedExact(s, k, p);
    FollowNarrows(Landed(s, k), id);
    OneOfTotals(Landed(s, k), Follow(Landed(s, k), id).state, u);
  }

  lemma NotHeld(s: State, k: nat)
    requires Inv(s) && Unpaused(s) && s.status == MissionStatus.RUNNING && s.exec.IsOpen(k)
    ensures !Held(s, k)
  {
  }

  // ----- The downstream task of the first package -----

  /** The first package has not been loaded, or its downstream task is on its way already. */
  predicate Prestaged(s: State, p: nat)
    requires p in s.items && TaskId(p, DOWN) in s.tasks
  {
    s.items[p] == Package(Source, None) || s.tasks[TaskId(p, DOWN)].index > 0
  }

  /** The least that is left, and the wait move of the first downstream task if that is
      still to start. */
  function Bottom(s: State, p: nat): int
    requires Wf(s) && TaskId(p, DOWN) in s.tasks
  {
    LoTotal(s) + if s.tasks[TaskId(p, DOWN)].index == 0 then 1 else 0
  }

  /** A downstream task started before its package is there makes the wait move. */
  lemma PrestagedWaits(c: Ctx, sib: Task)
    requires CtxOk(c, sib) && c.task.id.leg == DOWN && c.task.index == 0 && c.robot.status == IDLE
    requires c.task.id.item !in c.transfer.packageOccupancy
    ensures Lo(TickTree(c).ctx) == 6 && TickTree(c).ctx.task.index == 1
  {
    var c1 := Next(TickClaim(c).ctx);
    ClaimOk(c, sib);
    assert TickTree(c) == TickTree(c1);
    NodeKeepsInvariant(c1, sib);
    RequestDecision(c1, sib);
    var r := TickNode(Child(1), c1);
    assert !r.success;
    assert TickTree(c1) == r;
  }

  /** What stays as it is until the first package is loaded. */
  ghost predicate Unloaded(s: State, p: nat)
    requires p in s.items && TaskId(p, DOWN) in s.tasks
  {
    s.items[p] == Package(Source, None) && s.tasks[TaskId(p, DOWN)].index == 0
  }

  lemma RunTaskUnloaded(s: State, id: TaskId, t: Task, p: nat)
    requires Inv(s) && MayRun(s, id, t) && p in s.items && TaskId(p, DOWN) in s.tasks && Unloaded(s, p)
    requires id != TaskId(p, DOWN)
    ensures Unloaded(RunTask(s, id, t).state, p)
  {
    RunTaskChanges(s, id, t);
    TickKeepsInvariant(View(s, id).(task := t), s.tasks[Sibling(id)]);
    PutUnloaded(s, TickTree(View(s, id).(task := t)).ctx, p);
  }

  lemma PutUnloaded(s: State, c: Ctx, p: nat)
    requires p in s.items && TaskId(p, DOWN) in s.tasks && Unloaded(s, p) && c.task.id != TaskId(p, DOWN)
    requires c.task.id.item in s.items && c.item == s.items[c.task.id.item]
    ensures p in Put(s, c).items && TaskId(p, DOWN) in Put(s, c).tasks && Unloaded(Put(s, c), p)
  {
  }

  lemma MoveUnloaded(s: State, m: Micro, p: nat)
    requires Inv(s) && Enabled(s, m) && Moves(m) && p in s.items && TaskId(p, DOWN) in s.tasks && Unloaded(s, p)
    ensures Unloaded(Perform(s, m).state, p)
  {
    match m
    case Tick(id) => RunTaskUnloaded(s, id, s.tasks[id], p);
    case Start(id) =>
      ScheduledInOrder(s, id);
      RunTaskUnloaded(s, id, s.tasks[id].(status := TaskStatus.RUNNING, phase := ACQUIRE_PICKUP), p);
    case SetMission(_) =>
  }

  lemma {:induction false} MovesUnloaded(s: State, ms: seq<Micro>, p: nat)
    requires Inv(s) && AllEnabled(s, ms) && (forall m :: m in ms ==> Moves(m))
    requires p in s.items && TaskId(p, DOWN) in s.tasks && Unloaded(s, p)
    ensures Unloaded(PerformAll(s, ms).state, p)
    decreases |ms|
  {
    if ms != [] {
      assert ms[0] in ms;
      MoveUnloaded(s, ms[0], p);
      PerformKeepsInvariant(s, ms[0]);
      MovesUnloaded(Perform(s, ms[0]).state, ms[1..], p);
    }
  }

  predicate Loads(s: State, k: nat, p: nat)
    requires k in s.exec.commands
  {
    s.exec.commands[k].task == TaskId(p, UP) && s.exec.commands[k].kind == HandleItem(p, Load)
  }

  lemma LandedUnloaded(s: State, k: nat, p: nat)
    requires Inv(s) && s.exec.IsOpen(k) && p in s.items && TaskId(p, DOWN) in s.tasks && Unloaded(s, p)
    requires !Loads(s, k, p)
    ensures Unloaded(Landed(s, k), p) && s.exec.commands[k].task != TaskId(p, DOWN)
  {
    var id := s.exec.commands[k].task;
    OpenIsActive(s, k);
    assert TaskAt(s, id) && PackageAt(s, p);
    LandedIsPut(s, k);
    LandingFrame(s, k);
    LandingItem(s, k);
  }

  lemma LandingItem(s: State, k: nat)
    requires Wf(s) && s.exec.IsOpen(k)
    ensures Landing(s, k).task.id == s.exec.commands[k].task
    ensures s.exec.commands[k].kind.MoveRobot? ==> Landing(s, k).item == s.items[s.exec.commands[k].task.item]
  {
  }

  lemma FollowUnloaded(s: State, k: nat, p: nat)
    requires Inv(s) && Enabled(s, Land(k)) && p in s.items && TaskId(p, DOWN) in s.tasks && Unloaded(s, p)
    requires !Loads(s, k, p) && s.exec.commands[k].task in Landed(s, k).tasks
    ensures Unloaded(Follow(Landed(s, k), s.exec.commands[k].task).state, p)
  {
    var id := s.exec.commands[k].task;
    LandedUnloaded(s, k, p);
    var rest := PlanLand(s, k);
    PlanRest(s, k, rest);
    LandedKeepsInvariant(s, k);
    LandedFrame(s, k);
    LandKeepsInvariant(s, k);
    RunTaskUnloaded(Landed(s, k), id, Landed(s, k).tasks[id], p);
    MovesUnloaded(Perform(s, Land(k)).state, rest, p);
  }

  // ----- The event that loads the first package -----

  /** The first package has just been loaded, and its upstream task sent on. */
  ghost predicate JustLoaded(s: State, p: nat) {
    && Inv(s) && Unpaused(s) && IsFirst(s.n, p) && p in s.items && TaskId(p, DOWN) in s.tasks
    && s.items[p] == StageView(CarriedUpstream)
    && s.tasks[TaskId(p, DOWN)].index == 0 && s.tasks[TaskId(p, DOWN)].status == TaskStatus.PENDING
  }

  lemma DownstreamIdle(s: State, p: nat)
    requires JustLoaded(s, p)
    ensures RobotAvailable(s, Tb3_2)
  {
    var leg := DOWN;
    assert RobotOk(leg, s.robots[RobotOf(leg)]);
    var r := s.robots[Tb3_2];
    if r.activeTask.Some? {
      var x := r.activeTask.value;
      assert TaskAt(s, x);
      InOrderAt(s, TaskId(p, DOWN), x);
    }
  }

  lemma LoadedFacts(s: State, p: nat)
    requires JustLoaded(s, p)
    ensures p !in s.transfer.packageOccupancy && s.tasks[TaskId(p, UP)].status != TaskStatus.PENDING
    ensures s.transfer.config == TRANSFER_CONFIG
  {
    assert PackageAt(s, p) && TaskAt(s, TaskId(p, UP));
  }

  lemma PrestagedNext(s: State, p: nat)
    requires JustLoaded(s, p)
    ensures NextReady(s) == Some(TaskId(p, DOWN))
  {
    var d := TaskId(p, DOWN);
    DownstreamIdle(s, p);
    LoadedFacts(s, p);
    assert Ready(s, d);
    NextReadyIsLeast(s, d);
    var v := NextReady(s).value;
    if v != d {
      NothingSooner(s, p, v);
      IdTotal(v, d);
    }
  }

  lemma NothingSooner(s: State, p: nat, v: TaskId)
    requires JustLoaded(s, p) && v in s.tasks && v != TaskId(p, DOWN) && Ready(s, v)
    ensures IdLess(TaskId(p, DOWN), v)
  {
    LoadedFacts(s, p);
    assert v == TaskId(v.item, v.leg);
    if v.item != p {
      BothLegsSortAlike(TaskId(p, DOWN), v);
    }
  }

  lemma PrestagedStart(s: State, emitted: seq<nat>, p: nat)
    requires JustLoaded(s, p)
    ensures var s', d := StartNext(s, emitted).state, TaskId(p, DOWN);
            LoTotal(s') >= LoTotal(s) + 1 && s'.tasks[d].index == 1
  {
    var d := TaskId(p, DOWN);
    PrestagedNext(s, p);
    LoadedFacts(s, p);
    StartNextNarrows(s, emitted);
    PrestagedWork(s, p);
    OneOfTotals(s, StartNext(s, emitted).state, d);
  }

  lemma PrestagedWork(s: State, p: nat)
    requires JustLoaded(s, p) && NextReady(s) == Some(TaskId(p, DOWN))
    ensures var s', d := Mission.StartTask(s, TaskId(p, DOWN)).state, TaskId(p, DOWN);
            LoAt(s', d) == 6 && LoAt(s, d) == 5 && s'.tasks[d].index == 1
  {
    var d := TaskId(p, DOWN);
    var t := s.tasks[d].(status := TaskStatus.RUNNING, phase := ACQUIRE_PICKUP);
    StartRuns(s, d);
    RunTaskChanges(s, d, t);
    LoadedFacts(s, p);
    PrestagedWaits(View(s, d).(task := t), s.tasks[Sibling(d)]);
    ViewPut(s, TickTree(View(s, d).(task := t)).ctx);
  }

  lemma LoadedState(s: State, k: nat, p: nat)
    requires Inv(s) && TasksLive(s) && Unpaused(s) && s.status == MissionStatus.RUNNING && IsFirst(s.n, p)
    requires s.exec.IsOpen(k) && p in s.items && TaskId(p, DOWN) in s.tasks && Unloaded(s, p) && Loads(s, k, p)
    ensures JustLoaded(Landed(s, k), p)
    ensures var u, s' := TaskId(p, UP), Landed(s, k);
            u in s'.tasks && s'.tasks[u].index == 4 && s'.tasks[u].active == None
  {
    LoadedTask(s, k, p);
    assert TaskLive(s, TaskId(p, DOWN));
    LandedKeepsInvariant(s, k);
    OpenIsActive(s, k);
    LandedUnpaused(s, k);
    LandedIsPut(s, k);
  }

  lemma LoadedTask(s: State, k: nat, p: nat)
    requires Inv(s) && s.exec.IsOpen(k) && p in s.items && Loads(s, k, p)
    ensures var u, c := TaskId(p, UP), Landing(s, k);
            && u in s.tasks && c.task.id == u && c.task.index == 4 && c.task.active == None
            && c.item == StageView(CarriedUpstream)
  {
    OpenIsActive(s, k);
    ViewOk(s, TaskId(p, UP));
  }

  lemma SentOn(s: State, p: nat)
    requires JustLoaded(s, p) && TaskId(p, UP) in s.tasks && s.status == MissionStatus.RUNNING
    requires s.tasks[TaskId(p, UP)].index == 4 && s.tasks[TaskId(p, UP)].active == None
    ensures var o := AdvanceTask(s, TaskId(p, UP));
            o.emitted != [] && JustLoaded(o.state, p) && WorkNarrows(s, o.state)
  {
    var u := TaskId(p, UP);
    ViewOk(s, u);
    assert View(s, u).(task := s.tasks[u]) == View(s, u);
    PendingEmits(View(s, u), s.tasks[Sibling(u)]);
    TickKeepsInvariant(View(s, u), s.tasks[Sibling(u)]);
    RunTaskPauses(s, u, s.tasks[u]);
    SentOnFrame(s, p);
  }

  lemma SentOnFrame(s: State, p: nat)
    requires JustLoaded(s, p) && TaskId(p, UP) in s.tasks && MayRun(s, TaskId(p, UP), s.tasks[TaskId(p, UP)])
    ensures var s' := AdvanceTask(s, TaskId(p, UP)).state;
            && Inv(s') && WorkNarrows(s, s') && s'.tasks[TaskId(p, DOWN)] == s.tasks[TaskId(p, DOWN)]
  {
    var u := TaskId(p, UP);
    RunTaskKeepsInvariant(s, u, s.tasks[u]);
    RunTaskNarrows(s, u, s.tasks[u]);
  }

  lemma LoadingFollows(s: State, k: nat, p: nat)
    requires Inv(s) && TasksLive(s) && Unpaused(s) && s.status == MissionStatus.RUNNING && IsFirst(s.n, p)
    requires s.exec.IsOpen(k) && p in s.items && TaskId(p, DOWN) in s.tasks && Unloaded(s, p) && Loads(s, k, p)
    ensures TaskId(p, UP) in Landed(s, k).tasks
    ensures var s' := Follow(Landed(s, k), TaskId(p, UP)).state;
            LoTotal(s') >= LoTotal(s) && s'.tasks[TaskId(p, DOWN)].index == 1
  {
    LoadedState(s, k, p);
    LandedFrame(s, k);
    LandedTotals(s, k);
    var s1 := Landed(s, k);
    SentOn(s1, p);
    var o := AdvanceTask(s1, TaskId(p, UP));
    NarrowTotals(s1, o.state);
    PrestagedStart(o.state, o.emitted, p);
  }

  lemma UnloadedCompletes(s: State, k: nat, p: nat)
    requires Inv(s) && TasksLive(s) && Unpaused(s) && s.status == MissionStatus.RUNNING && IsFirst(s.n, p)
    requires s.exec.IsOpen(k) && p in s.items && TaskId(p, DOWN) in s.tasks && Unloaded(s, p)
    ensures var s' := HandleCompleted(s, k).state;
            Bottom(s', p) >= Bottom(s, p) - 1 && Prestaged(s', p)
  {
    CompletionLive(s, k);
    CompletionCounts(s, k);
    OpenLands(s, k);
    NotHeld(s, k);
    if Loads(s, k, p) {
      LoadingFollows(s, k, p);
    } else {
      FollowUnloaded(s, k, p);
    }
  }

  /** A completion takes at most one off the least that is left, the first wait move included. */
  lemma CompletionPrestaged(s: State, k: nat, p: nat)
    requires Inv(s) && TasksLive(s) && Unpaused(s) && s.status == MissionStatus.RUNNING && IsFirst(s.n, p)
    requires s.exec.IsOpen(k) && p in s.items && TaskId(p, DOWN) in s.tasks && Prestaged(s, p)
    ensures var s' := HandleCompleted(s, k).state;
            Bottom(s', p) >= Bottom(s, p) - 1 && Prestaged(s', p)
  {
    if s.tasks[TaskId(p, DOWN)].index == 0 {
      UnloadedCompletes(s, k, p);
    } else {
      CompletionCounts(s, k);
      StillStarted(s, k, TaskId(p, DOWN));
    }
  }

  lemma StillStarted(s: State, k: nat, id: TaskId)
    requires Inv(s) && id in s.tasks
    ensures HandleCompleted(s, k).state.tasks[id].index >= s.tasks[id].index
  {
    History.StepEvolves(s, Completed(k));
  }
}
