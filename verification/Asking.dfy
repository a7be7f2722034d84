/** A pass over the tasks when nothing is outstanding: every tick emits a command, or is
    refused the zone, or finishes its task; and a pass without a command leaves nothing undone. */
module Asking {
  import opened Domain
  import opened BehaviorTree
  import opened TaskOrder
  import opened LocalInvariant
  import opened TickProof
  import opened Mission
  import opened Invariant
  import opened StepProof
  import opened Work
  import opened Progress
  import Emission

  // ----- Ticks with nothing in flight -----

  /** At its waiting place, asking in vain. */
  predicate Waits(c: Ctx) {
    Asks(c) && Refused(c) && c.robot.location == Exit(c.task.id.leg)
  }

  /** All that is left is bookkeeping. */
  predicate Finishing(c: Ctx) {
    && c.task.index < TREE_SIZE
    && if c.task.id.leg == UP then
         c.task.index >= 13 && c.robot.location == UpstreamExit
       else
         c.task.index >= 11 && c.item == Package(Destination, None)
  }

  predicate Pending(c: Ctx) {
    Owns(c.task) && c.task.active == None && !Waits(c) && !Finishing(c)
  }

  /** A task that neither waits nor finishes emits at its child, or passes on to a child
      where that is still so. */
  predicate GoesOn(r: Ticked) {
    r.emitted != [] || (r.success && Pending(Next(r.ctx)))
  }

  lemma RequestGoesOn(c: Ctx, sib: Task)
    requires CtxOk(c, sib) && Pending(c) && (c.task.index == 1 || c.task.index == 8)
    ensures GoesOn(TickNode(Child(c.task.index), c))
  {
    if Asks(c) {
      RequestDecision(c, sib);
    }
  }

  lemma {:induction false} PendingEmits(c: Ctx, sib: Task)
    requires CtxOk(c, sib) && Pending(c)
    ensures TickTree(c).emitted != []
    decreases TREE_SIZE - c.task.index
  {
    if c.task.index == 1 || c.task.index == 8 {
      RequestGoesOn(c, sib);
    }
    var r := TickNode(Child(c.task.index), c);
    if r.success {
      NodeKeepsInvariant(c, sib);
      PendingEmits(Next(r.ctx), sib);
    }
  }

  lemma FinishingGoesOn(c: Ctx, sib: Task)
    requires CtxOk(c, sib) && Finishing(c)
    ensures var r := TickNode(Child(c.task.index), c);
            r.success && r.emitted == [] && (c.task.index < TREE_SIZE - 1 ==> Finishing(Next(r.ctx)))
  {
    if c.task.id.leg == UP {
      UpFinishingGoesOn(c, sib);
    }
  }

  lemma UpFinishingGoesOn(c: Ctx, sib: Task)
    requires CtxOk(c, sib) && Finishing(c) && c.task.id.leg == UP
    ensures var r := TickNode(Child(c.task.index), c);
            r.success && r.emitted == [] && (c.task.index < TREE_SIZE - 1 ==> Finishing(Next(r.ctx)))
  {
  }

  lemma {:induction false} FinishingFinishes(c: Ctx, sib: Task)
    requires CtxOk(c, sib) && Finishing(c)
    ensures TickTree(c).emitted == [] && TickTree(c).ctx.task.index == TREE_SIZE
    decreases TREE_SIZE - c.task.index
  {
    FinishingGoesOn(c, sib);
    NodeKeepsInvariant(c, sib);
    var r := TickNode(Child(c.task.index), c);
    if c.task.index < TREE_SIZE - 1 {
      FinishingFinishes(Next(r.ctx), sib);
    }
  }

  /** What finishing does to the zone: it gives up the task's lease. */
  lemma FinishedZone(c: Ctx, sib: Task)
    requires CtxOk(c, sib) && Finishing(c)
    ensures var tr' := TickTree(c).ctx.transfer;
            && tr'.packageOccupancy == c.transfer.packageOccupancy
            && tr'.lease == if Leased(c.transfer, c.task.id) then None else c.transfer.lease
  {
    FinishingFinishes(c, sib);
    TickKeepsInvariant(c, sib);
  }

  /** What a tick without a command leaves of the other records. */
  predicate Quiet(c: Ctx, c': Ctx) {
    && c'.task.id == c.task.id && c'.exec == c.exec && c'.item == c.item
    && c'.robot.location == c.robot.location && c'.robot.paused == c.robot.paused
    && c'.task.active == c.task.active
    && c'.transfer.packageOccupancy == c.transfer.packageOccupancy
    && (if Waits(c) then
          Waits(c') && c'.task.index == c.task.index && c'.transfer == c.transfer
        else
          && Finishing(c) && c'.task.index == TREE_SIZE
          && c'.transfer.lease == if Leased(c.transfer, c.task.id) then None else c.transfer.lease)
  }

  /** A tick with nothing in flight that emits nothing. */
  lemma QuietTick(c: Ctx, sib: Task)
    requires CtxOk(c, sib) && Owns(c.task) && c.task.active == None
    requires c.robot.activeTask == Some(c.task.id) && TickTree(c).emitted == []
    ensures Quiet(c, TickTree(c).ctx)
  {
    TickKeepsInvariant(c, sib);
    if Waits(c) {
      RefusedStays(c, sib);
    } else if Finishing(c) {
      FinishingFinishes(c, sib);
      FinishedZone(c, sib);
    } else {
      PendingEmits(c, sib);
    }
  }

  // ----- A pass over the tasks -----

  /** A task that can still get on: it has not been dropped by a failure or an abort. */
  predicate Going(s: State, id: TaskId)
    requires Wf(s) && id in s.tasks
  {
    && (s.tasks[id].index == 0 ==> s.tasks[id].status == TaskStatus.PENDING)
    && (Owns(s.tasks[id]) ==> Active(s.tasks[id]))
  }

  ghost predicate AllGoing(s: State)
    requires Wf(s)
  {
    forall id {:trigger Going(s, id)} :: id in s.tasks ==> Going(s, id)
  }

  /** Running, with nothing outstanding and no task dropped, wherever the tasks stand. */
  ghost predicate Interrupted(s: State) {
    Inv(s) && s.status == MissionStatus.RUNNING && Unpaused(s) && !Outstanding(s) && AllGoing(s)
  }

  /** Of the same package, the upstream task comes first. */
  predicate UpFirst(ids: seq<TaskId>) {
    ids != [] ==> (ids[0].leg == UP ==> TaskId(ids[0].item, DOWN) in ids[1..]) && UpFirst(ids[1..])
  }

  lemma {:induction false} PairAppended(ids: seq<TaskId>, x: nat)
    requires UpFirst(ids)
    ensures UpFirst(ids + [TaskId(x, UP), TaskId(x, DOWN)])
  {
    var pair := [TaskId(x, UP), TaskId(x, DOWN)];
    if ids == [] {
      assert ids + pair == pair && pair[1..] == [TaskId(x, DOWN)] && pair[1..][1..] == [];
    } else {
      PairAppended(ids[1..], x);
      assert (ids + pair)[1..] == ids[1..] + pair;
    }
  }

  lemma {:induction false} IdsUpFirst(n: nat)
    ensures UpFirst(Ids(n))
  {
    if n > 0 {
      IdsUpFirst(n - 1);
      PairAppended(Ids(n - 1), n);
    }
  }

  /** The started tasks outside `ids` wait for the zone. */
  ghost predicate Asked(s: State, ids: seq<TaskId>) {
    && Interrupted(s) && UpFirst(ids)
    && (forall x :: x in ids ==> x in s.tasks)
    && (forall x :: x in s.tasks && Owns(s.tasks[x]) && x !in ids ==> Waits(View(s, x)))
  }

  lemma QuietAdvance(s: State, id: TaskId)
    requires Inv(s) && !Outstanding(s) && id in s.tasks && Owns(s.tasks[id]) && AdvanceTask(s, id).emitted == []
    ensures var s' := AdvanceTask(s, id).state;
            s' == Put(s, View(s', id)) && Quiet(View(s, id), View(s', id))
  {
    ViewOk(s, id);
    assert TaskAt(s, id);
    var c := View(s, id);
    assert c.(task := s.tasks[id]) == c;
    QuietTick(c, s.tasks[Sibling(id)]);
    assert View(Put(s, TickTree(c).ctx), id) == TickTree(c).ctx;
  }

  /** A task that gives up the lease as it finishes leaves its own package behind, which
      only the downstream task of that package can be waiting beside. */
  lemma LeasedFinish(s: State, id: TaskId, x: TaskId)
    requires Inv(s) && id in s.tasks && Finishing(View(s, id)) && Leased(s.transfer, id)
    requires x in s.tasks && x != id && Owns(s.tasks[x]) && Asks(View(s, x))
    ensures id.leg == UP && x == TaskId(id.item, DOWN)
  {
    assert TaskAt(s, id) && TaskAt(s, x) && PackageAt(s, id.item);
    if x.leg == DOWN {
      BufferedIsAwaited(s, id.item, x);
    }
  }

  lemma StillWaits(s: State, s': State, id: TaskId, x: TaskId)
    requires Inv(s) && Wf(s') && s'.n == s.n && id in s.tasks && s' == Put(s, View(s', id))
    requires Quiet(View(s, id), View(s', id)) && Owns(s.tasks[id])
    requires x in s.tasks && x != id && Owns(s.tasks[x]) && Waits(View(s, x))
    requires id.leg == UP ==> x != TaskId(id.item, DOWN)
    ensures Waits(View(s', x))
  {
    assert TaskAt(s, id) && TaskAt(s, x);
    if Finishing(View(s, id)) && Leased(s.transfer, id) {
      LeasedFinish(s, id, x);
    }
  }

  lemma QuietKeepsGoing(s: State, id: TaskId)
    requires Interrupted(s) && id in s.tasks && Owns(s.tasks[id]) && AdvanceTask(s, id).emitted == []
    ensures Interrupted(AdvanceTask(s, id).state)
    ensures AdvanceTask(s, id).state.n == s.n
  {
    var s' := AdvanceTask(s, id).state;
    assert Going(s, id);
    QuietAdvance(s, id);
    RunTaskKeepsInvariant(s, id, s.tasks[id]);
    ViewOk(s, id);
    TickKeepsActive(View(s, id), s.tasks[Sibling(id)]);
    assert View(s, id).(task := s.tasks[id]) == View(s, id);
    PutKeepsGoing(s, View(s', id));
    assert s' == Put(s, View(s', id));
  }

  lemma PutKeepsGoing(s: State, c: Ctx)
    requires Wf(s) && AllGoing(s) && c.task.id in s.tasks && Wf(Put(s, c))
    requires c.task.index > 0 && (Owns(c.task) ==> Active(c.task))
    ensures AllGoing(Put(s, c))
  {
    forall x | x in s.tasks
      ensures Going(Put(s, c), x)
    {
      assert Going(s, x);
    }
  }

  lemma QuietAsks(s: State, ids: seq<TaskId>)
    requires Asked(s, ids) && ids != [] && Owns(s.tasks[ids[0]]) && AdvanceTask(s, ids[0]).emitted == []
    ensures Asked(AdvanceTask(s, ids[0]).state, ids[1..])
  {
    var id := ids[0];
    var s' := AdvanceTask(s, id).state;
    QuietAdvance(s, id);
    QuietKeepsGoing(s, id);
    RestMembers(ids);
    forall x | x in s'.tasks && Owns(s'.tasks[x]) && x !in ids[1..]
      ensures Waits(View(s', x))
    {
      if x != id {
        StillWaits(s, s', id, x);
      }
    }
  }

  /** Started, and not about to ask for the zone. */
  predicate Underway(t: Task) {
    t.index != 0 && t.index != if t.id.leg == UP then 8 else 1
  }

  /** A pass without a command: everything is done, and nothing was waiting or unstarted before. */
  ghost predicate AllDone(s: State, o: Outcome)
    requires Wf(s) && Wf(o.state) && o.state.n == s.n
  {
    forall id :: id in s.tasks ==>
      o.state.tasks[id].index == TREE_SIZE && Underway(s.tasks[id])
  }

  lemma PassEnds(s: State)
    requires Asked(s, [])
    ensures StartNext(s, []).emitted != [] || AllDone(s, StartNext(s, []))
  {
    forall id | id in s.tasks
      ensures TaskLive(s, id)
    {
      assert Going(s, id);
    }
    assert Stuck(s);
    if NextReady(s) == None {
      forall id | id in s.tasks
        ensures s.tasks[id].index == TREE_SIZE
      {
        StuckMeansDone(s, id);
      }
    } else {
      StartRuns(s, NextReady(s).value);
      assert |StartNext(s, []).emitted| == |Mission.StartTask(s, NextReady(s).value).emitted|;
    }
  }

  lemma DoneBefore(s: State, id: TaskId, s': State, o: Outcome)
    requires Inv(s) && Wf(s') && s'.n == s.n && id in s.tasks && s' == Put(s, View(s', id))
    requires Quiet(View(s, id), View(s', id))
    requires Wf(o.state) && o.state.n == s.n && AllDone(s', o)
    ensures AllDone(s, o)
  {
    forall x | x in s.tasks
      ensures Underway(s.tasks[x])
    {
      assert Underway(s'.tasks[x]);
    }
  }

  /** How a pass begins: with a tick of the first task, if that has been started. */
  lemma PassBegins(s: State, ids: seq<TaskId>)
    requires Asked(s, ids) && ids != []
    ensures forall x :: x in ids[1..] ==> x in s.tasks
    ensures ids[0] in s.tasks
    ensures var first := AdvanceTask(s, ids[0]);
            if !Owns(s.tasks[ids[0]]) then
              AdvanceFrom(s, ids) == AdvanceFrom(s, ids[1..])
            else if first.emitted == [] then
              AdvanceFrom(s, ids) == AdvanceFrom(first.state, ids[1..])
            else
              AdvanceFrom(s, ids).emitted != []
  {
    RestMembers(ids);
    assert Going(s, ids[0]);
    if !Owns(s.tasks[ids[0]]) {
      NotActive(s, ids[0]);
    }
  }

  /** When nothing is outstanding, a pass over the tasks emits a command, or everything is
      done after it. */
  lemma {:induction false} PassEmitsOrDone(s: State, ids: seq<TaskId>)
    requires Asked(s, ids)
    ensures AdvanceFrom(s, ids).emitted != [] || AllDone(s, AdvanceFrom(s, ids))
    decreases |ids|
  {
    if ids == [] {
      PassEnds(s);
    } else {
      PassBegins(s, ids);
      if !Owns(s.tasks[ids[0]]) {
        RestMembers(ids);
        PassEmitsOrDone(s, ids[1..]);
      } else if AdvanceTask(s, ids[0]).emitted == [] {
        QuietAsks(s, ids);
        PassEmitsOrDone(AdvanceTask(s, ids[0]).state, ids[1..]);
        if AdvanceFrom(s, ids).emitted == [] {
          QuietAdvance(s, ids[0]);
          DoneBefore(s, ids[0], AdvanceTask(s, ids[0]).state, AdvanceFrom(s, ids));
        }
      }
    }
  }

  lemma NotActive(s: State, id: TaskId)
    requires Inv(s) && s.status == MissionStatus.RUNNING && id in s.tasks && Going(s, id) && !Owns(s.tasks[id])
    ensures !Ticks(s, id)
  {
    assert TaskAt(s, id);
  }

  // ----- Live missions -----

  lemma LiveIsAsked(s: State)
    requires Inv(s) && TasksLive(s) && Unpaused(s) && s.status == MissionStatus.RUNNING && !Outstanding(s)
    ensures Asked(s, Ids(s.n))
  {
    IdsUpFirst(s.n);
    forall id | id in s.tasks
      ensures Going(s, id)
    {
      assert TaskLive(s, id);
    }
  }

  lemma LiveEmits(s: State)
    requires Inv(s) && TasksLive(s) && Unpaused(s) && s.status == MissionStatus.RUNNING && !Outstanding(s)
    requires !AllSucceeded(s)
    ensures AdvanceFrom(s, Ids(s.n)).emitted != []
  {
    LiveIsAsked(s);
    PassEmitsOrDone(s, Ids(s.n));
    var id :| id in s.tasks && s.tasks[id].status != TaskStatus.SUCCEEDED;
    LiveWaits(s, id);
  }

  lemma LiveWaits(s: State, id: TaskId)
    requires Inv(s) && TasksLive(s) && !Outstanding(s) && id in s.tasks && s.tasks[id].status != TaskStatus.SUCCEEDED
    ensures !Underway(s.tasks[id])
  {
    assert TaskAt(s, id) && TaskLive(s, id);
  }

  /** After an advance of a live running mission something is outstanding, or it is complete. */
  lemma AdvanceLive(s: State)
    requires Inv(s) && TasksLive(s) && Unpaused(s) && s.status == MissionStatus.RUNNING
    ensures var s' := Advance(s).state;
            if s'.status == MissionStatus.RUNNING then TasksLive(s') && Outstanding(s') else s'.status == COMPLETED
  {
    if !AllSucceeded(s) {
      AdvanceFromLive(s, Ids(s.n));
      Emission.AdvanceFromEmits(s, Ids(s.n));
      EmitsKeepOpen(s.n, s.exec, Advance(s).state.exec, Advance(s).emitted);
      if !Outstanding(s) {
        LiveEmits(s);
      } else {
        var k :| s.exec.IsOpen(k);
        assert Advance(s).state.exec.IsOpen(k);
      }
    }
  }

  /** A running mission with nothing outstanding and no task dropped, wherever pauses and
      cancellations have left its tasks: advancing it emits a command, or completes it, or
      does all that was left to do. */
  lemma InterruptedGoesOn(s: State)
    requires Interrupted(s)
    ensures var o := Advance(s);
            || o.emitted != []
            || o.state.status == COMPLETED
            || forall id :: id in o.state.tasks ==> o.state.tasks[id].index == TREE_SIZE
  {
    if !AllSucceeded(s) {
      IdsUpFirst(s.n);
      PassEmitsOrDone(s, Ids(s.n));
    }
  }
}
