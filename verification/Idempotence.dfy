/** Ticking a task again, with nothing in between, changes and emits nothing. */
module Idempotence {
  import opened Domain
  import opened BehaviorTree
  import opened Mission

  lemma MoveTwice(c: Ctx, target: Waypoint, phase: Phase)
    ensures var r := TickMove(c, target, phase);
            !r.success ==> TickMove(r.ctx, target, phase) == Still(r.ctx)
  {
  }

  /** Waiting twice: the phase in between is the only thing a second request touches. */
  lemma WaitTwice(c: Ctx, w: Waypoint, d: Decision, phase: Phase)
    requires d.waitWaypoint.Some?
    ensures var r := TickWait(c, w, d);
            !r.success ==> TickWait(r.ctx.(task := r.ctx.task.(phase := phase)), w, d) == Still(r.ctx)
  {
    var r := TickWait(c, w, d);
    if c.robot.location != d.waitWaypoint.value {
      var c1 := WithDetails(c, w, d);
      MoveTwice(c1.(task := c1.task.(status := TaskStatus.RUNNING)), d.waitWaypoint.value, MOVE_TO_WAIT_POINT);
    }
  }

  lemma RequestTwice(c: Ctx, endpoint: Endpoint)
    ensures var r := TickRequest(c, endpoint);
            !r.success ==> TickRequest(r.ctx, endpoint) == Still(r.ctx)
  {
    var r := TickRequest(c, endpoint);
    if !r.success {
      var d := Decide(c.transfer, c.task.Robot(), endpoint, Some(c.task.id.item));
      var w := c.task.At(endpoint);
      var phase := if endpoint == Pickup then ACQUIRE_PICKUP else ACQUIRE_DROPOFF;
      var c1 := c.(task := c.task.(phase := phase));
      assert d.status != GRANTED;
      if d.status == WAIT {
        assert r == TickWait(c1, w, d);
        WaitTwice(c1, w, d, phase);
      }
      assert r.ctx.transfer == c.transfer && r.ctx.task.id == c.task.id;
      assert r.ctx.task.Acquired(endpoint) == c.task.Acquired(endpoint);
    }
  }

  lemma NodeTwice(node: Node, c: Ctx)
    ensures var r := TickNode(node, c);
            !r.success ==> TickNode(node, r.ctx) == Still(r.ctx)
  {
    if node.RequestResourceAccess? {
      RequestTwice(c, node.endpoint);
    }
  }

  /** Whatever the records are: the second of two consecutive ticks is a no-op, even at a
      node that asks for the zone again while its wait move is under way. */
  lemma {:induction false} TickTwice(c: Ctx)
    ensures var r := TickTree(c);
            TickTree(r.ctx) == Ticked(r.ctx, r.success, [])
    decreases TREE_SIZE - c.task.index
  {
    if c.task.index < TREE_SIZE {
      var r := TickNode(Child(c.task.index), c);
      if r.success {
        TickTwice(Next(r.ctx));
      } else {
        NodeTwice(Child(c.task.index), c);
      }
    }
  }

  /** The same for a task in its mission. */
  lemma AdvanceTwice(s: State, id: TaskId)
    requires Wf(s) && id in s.tasks
    ensures var once := AdvanceTask(s, id).state;
            AdvanceTask(once, id) == Outcome(once, [])
  {
    var c := View(s, id);
    assert c.(task := s.tasks[id]) == c;
    TickTwice(c);
    var r := TickTree(c).ctx;
    var once := AdvanceTask(s, id).state;
    assert once == Put(s, r);
    TickItem(c);
    assert View(once, id).(task := once.tasks[id]) == r;
    assert Put(once, r) == once;
  }

  lemma {:induction false} TickItem(c: Ctx)
    ensures TickTree(c).ctx.item == c.item
    decreases TREE_SIZE - c.task.index
  {
    if c.task.index < TREE_SIZE {
      var r := TickNode(Child(c.task.index), c);
      assert r.ctx.item == c.item;
      if r.success {
        TickItem(Next(r.ctx));
      }
    }
  }
}
