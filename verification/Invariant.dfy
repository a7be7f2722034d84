/** The invariant of every reachable mission state, and the one lemma through which
    every change of a single task's records preserves it. */
module Invariant {
  import opened Domain
  import opened BehaviorTree
  import opened TaskOrder
  import opened LocalInvariant
  import opened Mission

  function Sibling(id: TaskId): TaskId {
    TaskId(id.item, if id.leg == UP then DOWN else UP)
  }

  predicate TaskAt(s: State, id: TaskId)
    requires Wf(s) && id in s.tasks
  {
    && TaskOk(s.tasks[id], s.robots[RobotOf(id.leg)], s.items[id.item], s.transfer, s.exec)
    && Rests(s.tasks[id])
  }

  predicate PackageAt(s: State, q: nat)
    requires Wf(s) && q in s.items
  {
    PackageOk(s.tasks[TaskId(q, UP)], s.tasks[TaskId(q, DOWN)], s.items[q], s.transfer)
  }

  ghost predicate TasksOk(s: State)
    requires Wf(s)
  {
    forall id {:trigger TaskAt(s, id)} :: id in s.tasks ==> TaskAt(s, id)
  }

  ghost predicate PackagesOk(s: State)
    requires Wf(s)
  {
    forall q {:trigger PackageAt(s, q)} :: q in s.items ==> PackageAt(s, q)
  }

  ghost predicate RobotsOk(s: State)
    requires Wf(s)
  {
    forall leg: Leg ::
      var r := s.robots[RobotOf(leg)];
      RobotOk(leg, r) && (r.activeTask.Some? ==> r.activeTask.value in s.tasks)
  }

  ghost predicate ZoneOk(s: State)
    requires Wf(s)
  {
    && ResourceOk(s.transfer)
    && (s.transfer.lease.Some? ==> s.transfer.lease.value.task in s.tasks)
    && (forall x :: x in s.transfer.packageOccupancy ==> x in s.items)
  }

  /** Every open command is the active command of its own task. */
  ghost predicate OpenOk(s: State)
    requires Wf(s)
  {
    forall k :: s.exec.IsOpen(k) ==> s.tasks[s.exec.commands[k].task].active == Some(k)
  }

  /** A leg of a package is started only once that leg of every package sorted before
      it is finished. */
  ghost predicate InOrder(s: State)
    requires Wf(s)
  {
    forall a, b {:trigger Before(a.item, b.item), s.tasks[a], s.tasks[b]} ::
      a in s.tasks && b in s.tasks && a.leg == b.leg && Before(a.item, b.item) && s.tasks[b].index > 0
      ==> s.tasks[a].index == TREE_SIZE
  }

  ghost predicate UnstartedAre(s: State, status: TaskStatus) {
    forall id :: id in s.tasks && s.tasks[id].index == 0 ==> s.tasks[id].status == status
  }

  /** Unstarted tasks are all pending, or (after an abort) all cancelled. */
  ghost predicate UnstartedAlike(s: State) {
    UnstartedAre(s, TaskStatus.PENDING) || UnstartedAre(s, TaskStatus.CANCELLED)
  }

  ghost predicate Inv(s: State) {
    && Wf(s)
    && TasksOk(s)
    && PackagesOk(s)
    && RobotsOk(s)
    && ZoneOk(s)
    && OpenOk(s)
    && InOrder(s)
    && UnstartedAlike(s)
    && (s.status == COMPLETED ==> AllSucceeded(s))
  }

  lemma ViewOk(s: State, id: TaskId)
    requires Inv(s) && id in s.tasks
    ensures Sibling(id) in s.tasks
    ensures CtxOk(View(s, id), s.tasks[Sibling(id)])
  {
    var sib := Sibling(id);
    assert TaskAt(s, id) && TaskAt(s, sib) && PackageAt(s, id.item);
    var leg := id.leg;
    assert RobotOk(leg, s.robots[RobotOf(leg)]);
    if s.transfer.lease.Some? && s.transfer.lease.value.actor == RobotOf(leg) {
      assert TaskAt(s, s.transfer.lease.value.task);
    }
  }

  // ----- Changing the records of one task -----

  /** Other tasks' commands are untouched, and of its own at most the active one is open. */
  ghost predicate ExecRel(id: TaskId, ex: Exec, ex': Exec, active: Option<nat>) {
    && (forall k :: k in ex.commands && ex.commands[k].task != id ==>
          k in ex'.commands && ex'.commands[k] == ex.commands[k])
    && (forall k :: k in ex'.commands && ex'.commands[k].task != id ==> k in ex.commands && ex.commands[k].task != id)
    && (forall k :: k in ex'.commands && ex'.commands[k].task == id && ex'.IsOpen(k) ==> active == Some(k))
  }

  /** What every other task may rely on when task `c'.task.id` changes. */
  ghost predicate Guarantee(s: State, c': Ctx)
    requires Wf(s) && c'.task.id in s.tasks && Sibling(c'.task.id) in s.tasks
  {
    var id := c'.task.id;
    var c, sib := View(s, id), s.tasks[Sibling(id)];
    && RobotRel(id, c.robot, c'.robot)
    && TransferRel(id, c.transfer, c'.transfer)
    && (c'.robot.location == c.robot.location || c.robot.activeTask == Some(id))
    && (c'.item == c.item || sib.index <= 1 || sib.index == TREE_SIZE)
    && ExecWf(s.n, c'.exec)
    && ExecRel(id, c.exec, c'.exec, c'.task.active)
  }

  ghost predicate StartsInOrder(s: State, id: TaskId)
    requires Wf(s) && id in s.tasks
  {
    forall a :: a in s.tasks && a.leg == id.leg && Before(a.item, id.item) ==> s.tasks[a].index == TREE_SIZE
  }

  /** The task's own side of a change: it moves forward, and starts only in its turn. */
  ghost predicate Forward(s: State, c': Ctx)
    requires Wf(s) && c'.task.id in s.tasks
  {
    var t, t' := s.tasks[c'.task.id], c'.task;
    && 0 < t'.index
    && t.index <= t'.index
    && (t.index == 0 ==> StartsInOrder(s, t.id))
    && (s.status == COMPLETED ==> t'.status == TaskStatus.SUCCEEDED)
  }

  ghost predicate Change(s: State, c': Ctx)
    requires Wf(s) && c'.task.id in s.tasks && Sibling(c'.task.id) in s.tasks
  {
    && CtxOk(c', s.tasks[Sibling(c'.task.id)])
    && Rests(c'.task)
    && Guarantee(s, c')
    && Forward(s, c')
  }

  /** A resting task keeps its part of the invariant when another task `id` changes. */
  lemma Stable(t: Task, r: Robot, it: Package, tr: Resource, ex: Exec,
               id: TaskId, r': Robot, it': Package, tr': Resource, ex': Exec)
    requires TaskOk(t, r, it, tr, ex) && Rests(t) && t.id != id
    requires RobotRel(id, r, r') && TransferRel(id, tr, tr')
    requires r'.location == r.location || r.activeTask == Some(id)
    requires it' == it || t.index <= 1 || t.index == TREE_SIZE
    requires t.active.Some? ==> t.active.value in ex'.commands &&
                                ex'.commands[t.active.value] == ex.commands[t.active.value]
    ensures TaskOk(t, r', it', tr', ex')
  {
  }

  lemma OtherTaskKept(s: State, c': Ctx, x: TaskId)
    requires Wf(s) && c'.task.id in s.tasks && Sibling(c'.task.id) in s.tasks && Guarantee(s, c')
    requires x in s.tasks && x != c'.task.id && TaskAt(s, x)
    requires Wf(Put(s, c'))
    ensures TaskAt(Put(s, c'), x)
  {
    var id := c'.task.id;
    var s' := Put(s, c');
    var c := View(s, id);
    var t := s.tasks[x];
    var r, r' := s.robots[RobotOf(x.leg)], s'.robots[RobotOf(x.leg)];
    var it, it' := s.items[x.item], s'.items[x.item];
    if x.leg == id.leg {
      assert r == c.robot && r' == c'.robot && it' == it;
    } else {
      assert r == r';
      assert x.item == id.item ==> x == Sibling(id);
    }
    Stable(t, r, it, s.transfer, s.exec, id, r', it', s'.transfer, s'.exec);
  }

  lemma OtherPackageKept(s: State, c': Ctx, q: nat)
    requires Wf(s) && c'.task.id in s.tasks && Sibling(c'.task.id) in s.tasks && Guarantee(s, c')
    requires q in s.items && q != c'.task.id.item && PackageAt(s, q)
    requires Wf(Put(s, c'))
    ensures PackageAt(Put(s, c'), q)
  {
    var s' := Put(s, c');
    assert s'.tasks[TaskId(q, UP)] == s.tasks[TaskId(q, UP)];
    assert s'.tasks[TaskId(q, DOWN)] == s.tasks[TaskId(q, DOWN)];
    assert q in s'.transfer.packageOccupancy <==> q in s.transfer.packageOccupancy;
  }

  lemma TasksKept(s: State, c': Ctx)
    requires Wf(s) && c'.task.id in s.tasks && Sibling(c'.task.id) in s.tasks && Guarantee(s, c')
    requires TasksOk(s) && TaskOk(c'.task, c'.robot, c'.item, c'.transfer, c'.exec) && Rests(c'.task)
    requires Wf(Put(s, c'))
    ensures TasksOk(Put(s, c'))
  {
    var s' := Put(s, c');
    forall x | x in s'.tasks
      ensures TaskAt(s', x)
    {
      if x != c'.task.id {
        OtherTaskKept(s, c', x);
      }
    }
  }

  lemma PackagesKept(s: State, c': Ctx)
    requires Wf(s) && c'.task.id in s.tasks && Sibling(c'.task.id) in s.tasks && Guarantee(s, c')
    requires PackagesOk(s) && SiblingOk(c'.task, s.tasks[Sibling(c'.task.id)], c'.item, c'.transfer)
    requires Wf(Put(s, c'))
    ensures PackagesOk(Put(s, c'))
  {
    var s' := Put(s, c');
    forall q | q in s'.items
      ensures PackageAt(s', q)
    {
      if q != c'.task.id.item {
        OtherPackageKept(s, c', q);
      }
    }
  }

  lemma OrderKept(s: State, c': Ctx)
    requires Wf(s) && c'.task.id in s.tasks && Forward(s, c') && InOrder(s) && c'.task.index <= TREE_SIZE
    requires Wf(Put(s, c'))
    ensures InOrder(Put(s, c'))
  {
    var id := c'.task.id;
    var s' := Put(s, c');
    forall a, b | a in s'.tasks && b in s'.tasks && a.leg == b.leg && Before(a.item, b.item) && s'.tasks[b].index > 0
      ensures s'.tasks[a].index == TREE_SIZE
    {
      IdTotal(TaskId(a.item, UP), TaskId(b.item, UP));
    }
  }

  lemma RobotsKept(s: State, c': Ctx)
    requires Wf(s) && c'.task.id in s.tasks && Sibling(c'.task.id) in s.tasks && Guarantee(s, c')
    requires RobotsOk(s) && RobotOk(c'.task.id.leg, c'.robot)
    requires Wf(Put(s, c'))
    ensures RobotsOk(Put(s, c'))
  {
    var s' := Put(s, c');
    forall leg: Leg
      ensures var r := s'.robots[RobotOf(leg)];
              RobotOk(leg, r) && (r.activeTask.Some? ==> r.activeTask.value in s'.tasks)
    {
      assert RobotOk(leg, s.robots[RobotOf(leg)]);
    }
  }

  lemma ZoneKept(s: State, c': Ctx)
    requires Wf(s) && c'.task.id in s.tasks && Sibling(c'.task.id) in s.tasks && Guarantee(s, c')
    requires ZoneOk(s) && ResourceOk(c'.transfer)
    requires Wf(Put(s, c'))
    ensures ZoneOk(Put(s, c'))
  {
  }

  lemma OpenKept(s: State, c': Ctx)
    requires Wf(s) && c'.task.id in s.tasks && Sibling(c'.task.id) in s.tasks && Guarantee(s, c')
    requires OpenOk(s)
    requires Wf(Put(s, c'))
    ensures OpenOk(Put(s, c'))
  {
    var s' := Put(s, c');
    forall k | s'.exec.IsOpen(k)
      ensures s'.tasks[s'.exec.commands[k].task].active == Some(k)
    {
      if s'.exec.commands[k].task != c'.task.id {
        assert s.exec.commands[k] == s'.exec.commands[k];
        assert s.exec.IsOpen(k);
      }
    }
  }

  lemma UnstartedKept(s: State, c': Ctx)
    requires Wf(s) && c'.task.id in s.tasks && Forward(s, c') && UnstartedAlike(s)
    requires Wf(Put(s, c'))
    ensures UnstartedAlike(Put(s, c'))
  {
    var s' := Put(s, c');
    if UnstartedAre(s, TaskStatus.PENDING) {
      assert UnstartedAre(s', TaskStatus.PENDING);
    } else {
      assert UnstartedAre(s', TaskStatus.CANCELLED);
    }
  }

  /** A change within the guarantee, from and to a local invariant, keeps the whole one. */
  lemma ChangeKeepsInvariant(s: State, c': Ctx)
    requires Inv(s) && c'.task.id in s.tasks && Sibling(c'.task.id) in s.tasks && Change(s, c')
    ensures Inv(Put(s, c'))
  {
    PutWf(s, c');
    TasksKept(s, c');
    PackagesKept(s, c');
    OrderKept(s, c');
    RobotsKept(s, c');
    ZoneKept(s, c');
    OpenKept(s, c');
    UnstartedKept(s, c');
  }
}
