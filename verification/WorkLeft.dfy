/** The work left in a whole mission state: no tick widens any task's bounds, and each
    completion takes exactly one off those of its task. */
module WorkLeft {
  import opened Domain
  import opened BehaviorTree
  import opened TaskOrder
  import opened LocalInvariant
  import opened Mission
  import opened Invariant
  import opened StepProof
  import opened Work
  import opened Progress

  // ----- Work left in a state -----

  function HiAt(s: State, id: TaskId): nat
    requires Wf(s) && id in s.tasks
  {
    Hi(View(s, id))
  }

  function LoAt(s: State, id: TaskId): int
    requires Wf(s) && id in s.tasks
  {
    Lo(View(s, id))
  }

  /** What a task's share depends on. */
  predicate SameShare(c: Ctx, d: Ctx) {
    && d.task == c.task
    && (c.task.active.Some? ==>
          var k := c.task.active.value;
          k in c.exec.commands && k in d.exec.commands && d.exec.commands[k] == c.exec.commands[k])
    && (d.robot.location == c.robot.location || c.task.index == 0 || c.task.index >= 16)
    && (d.item == c.item || c.task.index <= 1 || c.task.index >= 16)
  }

  lemma ShareKept(c: Ctx, d: Ctx)
    requires SameShare(c, d)
    ensures Hi(d) == Hi(c) && Lo(d) == Lo(c)
  {
  }

  lemma OtherShare(s: State, c': Ctx, x: TaskId)
    requires Wf(s) && c'.task.id in s.tasks && Sibling(c'.task.id) in s.tasks && Guarantee(s, c')
    requires Wf(Put(s, c')) && x in s.tasks && x != c'.task.id && TaskAt(s, x)
    ensures SameShare(View(s, x), View(Put(s, c'), x))
  {
    var id := c'.task.id;
    assert x.item == id.item && x.leg != id.leg ==> x == Sibling(id);
  }

  /** A resting task's share does not depend on what another task does. */
  lemma OtherWorkKept(s: State, c': Ctx, x: TaskId)
    requires Wf(s) && c'.task.id in s.tasks && Sibling(c'.task.id) in s.tasks && Guarantee(s, c')
    requires Wf(Put(s, c')) && x in s.tasks && x != c'.task.id && TaskAt(s, x)
    ensures HiAt(Put(s, c'), x) == HiAt(s, x) && LoAt(Put(s, c'), x) == LoAt(s, x)
  {
    OtherShare(s, c', x);
    ShareKept(View(s, x), View(Put(s, c'), x));
  }

  ghost predicate WorkNarrows(s: State, s': State)
    requires Wf(s)
  {
    Wf(s') && s'.n == s.n &&
    forall id {:trigger View(s', id)} :: id in s.tasks ==> Narrows(View(s, id), View(s', id))
  }

  lemma ChangeNarrows(s: State, c': Ctx)
    requires Inv(s) && c'.task.id in s.tasks && Sibling(c'.task.id) in s.tasks && Guarantee(s, c')
    requires Narrows(View(s, c'.task.id), c') && Wf(Put(s, c'))
    ensures WorkNarrows(s, Put(s, c'))
  {
    var s' := Put(s, c');
    forall id | id in s.tasks
      ensures Narrows(View(s, id), View(s', id))
    {
      if id == c'.task.id {
        ViewPut(s, c');
      } else {
        assert TaskAt(s, id);
        OtherWorkKept(s, c', id);
        assert HiAt(s', id) == HiAt(s, id) && LoAt(s', id) == LoAt(s, id);
      }
    }
  }

  lemma RunTaskNarrows(s: State, id: TaskId, t: Task)
    requires Inv(s) && MayRun(s, id, t)
    ensures WorkNarrows(s, RunTask(s, id, t).state)
  {
    RunTaskChanges(s, id, t);
    RunNarrows(s, id, t);
    ChangeNarrows(s, TickTree(View(s, id).(task := t)).ctx);
  }

  lemma RunNarrows(s: State, id: TaskId, t: Task)
    requires Inv(s) && MayRun(s, id, t)
    ensures Narrows(View(s, id), TickTree(View(s, id).(task := t)).ctx)
  {
    RunTaskChanges(s, id, t);
    TickNarrows(View(s, id).(task := t), s.tasks[Sibling(id)]);
    SameWork(View(s, id), t);
  }

  lemma SameWork(c: Ctx, t: Task)
    requires t == c.task.(status := t.status, phase := t.phase)
    ensures Hi(c.(task := t)) == Hi(c) && Lo(c.(task := t)) == Lo(c)
  {
  }

  lemma NarrowsTransitive(a: State, b: State, c: State)
    requires Wf(a) && Wf(b) && WorkNarrows(a, b) && WorkNarrows(b, c)
    ensures WorkNarrows(a, c)
  {
    forall id | id in a.tasks
      ensures Narrows(View(a, id), View(c, id))
    {
      assert Narrows(View(a, id), View(b, id));
    }
  }

  lemma StartNextNarrows(s: State, emitted: seq<nat>)
    requires Inv(s)
    ensures WorkNarrows(s, StartNext(s, emitted).state)
  {
    match NextReady(s)
    case None =>
    case Some(id) =>
      StartRuns(s, id);
      RunTaskNarrows(s, id, s.tasks[id].(status := TaskStatus.RUNNING, phase := ACQUIRE_PICKUP));
  }

  lemma {:induction false} AdvanceFromNarrows(s: State, ids: seq<TaskId>)
    requires Inv(s) && s.status == MissionStatus.RUNNING && forall x :: x in ids ==> x in s.tasks
    ensures WorkNarrows(s, AdvanceFrom(s, ids).state)
    decreases |ids|
  {
    if ids == [] {
      StartNextNarrows(s, []);
    } else {
      assert ids == [ids[0]] + ids[1..];
      if Ticks(s, ids[0]) {
        TickRuns(s, ids[0]);
        RunTaskNarrows(s, ids[0], s.tasks[ids[0]]);
        RunTaskKeepsInvariant(s, ids[0], s.tasks[ids[0]]);
        var o := AdvanceTask(s, ids[0]);
        if o.emitted != [] {
          StartNextNarrows(o.state, o.emitted);
        } else {
          AdvanceFromNarrows(o.state, ids[1..]);
        }
        NarrowsTransitive(s, o.state, AdvanceFrom(s, ids).state);
      } else {
        AdvanceFromNarrows(s, ids[1..]);
      }
    }
  }

  lemma StatusNarrows(s: State, status: MissionStatus)
    requires Wf(s)
    ensures WorkNarrows(s, s.(status := status))
  {
    forall id | id in s.tasks
      ensures Narrows(View(s, id), View(s.(status := status), id))
    {
      assert View(s.(status := status), id) == View(s, id);
    }
  }

  lemma AdvanceNarrows(s: State)
    requires Inv(s)
    ensures WorkNarrows(s, Advance(s).state)
  {
    if s.status != MissionStatus.RUNNING {
      StatusNarrows(s, s.status);
    } else if AllSucceeded(s) {
      StatusNarrows(s, COMPLETED);
    } else {
      AdvanceFromNarrows(s, Ids(s.n));
    }
  }

  lemma FollowNarrows(s: State, id: TaskId)
    requires Inv(s) && id in s.tasks && s.tasks[id].index > 0 && s.status != COMPLETED
    ensures WorkNarrows(s, Follow(s, id).state)
  {
    RunTaskNarrows(s, id, s.tasks[id]);
    RunTaskKeepsInvariant(s, id, s.tasks[id]);
    var o := AdvanceTask(s, id);
    if o.emitted != [] {
      StartNextNarrows(o.state, o.emitted);
    } else {
      AdvanceNarrows(o.state);
    }
    NarrowsTransitive(s, o.state, Follow(s, id).state);
  }

  // ----- A completion is one unit of work -----

  /** The effect of a successful command takes exactly one off both bounds. */
  lemma EffectCounts(c: Ctx, sib: Task, k: nat, ex: Exec, t: TaskStatus)
    requires CtxOk(c, sib) && c.task.active == Some(k) && c.exec.commands[k].id == k
    ensures var c1 := Applied(c.(exec := ex), c.exec.commands[k]);
            var c2 := c1.(task := c1.task.(status := t));
            Hi(c2) == Hi(c) - 1 && Lo(c2) == Lo(c) - 1
  {
  }

  lemma LandingCounts(s: State, k: nat)
    requires Inv(s) && s.exec.IsOpen(k)
    ensures var id, c := s.exec.commands[k].task, Landing(s, k);
            && id in s.tasks && c.task.id == id
            && Hi(c) == HiAt(s, id) - 1 && Lo(c) == LoAt(s, id) - 1
  {
    var id := s.exec.commands[k].task;
    OpenIsActive(s, k);
    ViewOk(s, id);
    EffectCounts(View(s, id), s.tasks[Sibling(id)], k, s.exec.Mark(k, CommandStatus.SUCCEEDED, None),
                 Landing(s, k).task.status);
  }

  lemma LandedCounts(s: State, k: nat)
    requires Inv(s) && s.exec.IsOpen(k)
    ensures var id, s' := s.exec.commands[k].task, Landed(s, k);
            && id in s.tasks
            && HiAt(s', id) == HiAt(s, id) - 1 && LoAt(s', id) == LoAt(s, id) - 1
            && forall x :: x in s.tasks && x != id ==> HiAt(s', x) == HiAt(s, x) && LoAt(s', x) == LoAt(s, x)
  {
    var id := s.exec.commands[k].task;
    LandingChanges(s, k);
    var c := Landing(s, k);
    LandingCounts(s, k);
    PutWf(s, c);
    ViewPut(s, c);
    forall x | x in s.tasks && x != id
      ensures HiAt(Landed(s, k), x) == HiAt(s, x) && LoAt(Landed(s, k), x) == LoAt(s, x)
    {
      assert TaskAt(s, x);
      OtherWorkKept(s, c, x);
    }
  }
}
