/** How many successful commands a task still needs: at least `Lo`, at most `Hi`. Ticks
    never widen the bounds, and every successful command takes exactly one off both. */
module Work {
  import opened Domain
  import opened BehaviorTree
  import opened LocalInvariant
  import opened TickProof

  function Exit(leg: Leg): Waypoint {
    if leg == UP then UpstreamExit else DownstreamExit
  }

  /** The most commands that can still succeed for the task of `c`. */
  function Hi(c: Ctx): nat {
    var i, w := c.task.index, c.robot.location;
    var waiting := c.task.active.Some? && c.task.active.value in c.exec.commands &&
                   c.exec.commands[c.task.active.value].kind == MoveRobot(Exit(c.task.id.leg));
    if c.task.id.leg == UP then
      if i <= 1 then 6
      else if i <= 2 then if w == Source then 5 else 6
      else if i <= 3 then 5
      else if i <= 4 then if c.item.carriedBy == Some(Tb3_1) then 4 else 5
      else if i <= 7 then 4
      else if i <= 8 then if c.task.active == None && w == UpstreamExit then 3 else 4
      else if i <= 9 then if waiting then 4 else if w == Transfer then 2 else 3
      else if i <= 10 then 2
      else if i <= 11 then if c.item.carriedBy == Some(Tb3_1) then 2 else 1
      else if i <= 12 then 1
      else if i <= 13 then if w == UpstreamExit then 0 else 1
      else 0
    else
      if i <= 0 then 6
      else if i <= 1 then if c.task.active == None && w == DownstreamExit then 5 else 6
      else if i <= 2 then if waiting then 6 else if w == Transfer then 4 else 5
      else if i <= 3 then 4
      else if i <= 4 then if c.item.carriedBy == Some(Tb3_2) then 3 else 4
      else if i <= 5 then 3
      else if i <= 6 then if w == DownstreamExit then 2 else 3
      else if i <= 8 then 2
      else if i <= 9 then if w == Destination then 1 else 2
      else if i <= 10 then 1
      else if i <= 11 then if c.item.carriedBy == Some(Tb3_2) then 1 else 0
      else 0
  }

  /** The one command a task may be spared: the move to a waiting place. */
  function Spare(c: Ctx): nat {
    var i := c.task.index;
    if c.task.id.leg == UP then
      if i <= 7 || (i == 8 && c.task.active == None && c.robot.location != UpstreamExit) then 1 else 0
    else
      if i == 0 || (i == 1 && c.task.active == None && c.robot.location != DownstreamExit) then 1 else 0
  }

  function Lo(c: Ctx): int {
    Hi(c) - Spare(c)
  }

  predicate Narrows(c: Ctx, c': Ctx) {
    Hi(c') <= Hi(c) && Lo(c') >= Lo(c)
  }

  lemma NodeNarrows(c: Ctx, sib: Task)
    requires CtxOk(c, sib) && c.task.index < TREE_SIZE
    ensures var r := TickNode(Child(c.task.index), c);
            Narrows(c, if r.success then Next(r.ctx) else r.ctx)
  {
    if Asks(c) {
      AskNarrows(c, sib);
    } else if c.task.id.leg == UP && c.task.index > 8 {
      DropoffUpNarrows(c, sib);
    } else if c.task.id.leg == DOWN && c.task.index < 8 {
      PickupDownNarrows(c, sib);
    }
  }

  lemma AskNarrows(c: Ctx, sib: Task)
    requires CtxOk(c, sib) && Asks(c)
    ensures var r := TickNode(Child(c.task.index), c);
            Narrows(c, if r.success then Next(r.ctx) else r.ctx)
  {
    RequestDecision(c, sib);
  }

  lemma DropoffUpNarrows(c: Ctx, sib: Task)
    requires CtxOk(c, sib) && c.task.id.leg == UP && 8 < c.task.index < TREE_SIZE
    ensures var r := TickNode(Child(c.task.index), c);
            Narrows(c, if r.success then Next(r.ctx) else r.ctx)
  {
  }

  lemma PickupDownNarrows(c: Ctx, sib: Task)
    requires CtxOk(c, sib) && c.task.id.leg == DOWN && c.task.index < 8 && c.task.index != 1
    ensures var r := TickNode(Child(c.task.index), c);
            Narrows(c, if r.success then Next(r.ctx) else r.ctx)
  {
  }

  /** Ticking narrows the bounds or leaves them. */
  lemma {:induction false} TickNarrows(c: Ctx, sib: Task)
    requires CtxOk(c, sib)
    ensures Narrows(c, TickTree(c).ctx)
    decreases TREE_SIZE - c.task.index
  {
    if c.task.index < TREE_SIZE {
      NodeNarrows(c, sib);
      NodeKeepsInvariant(c, sib);
      var r := TickNode(Child(c.task.index), c);
      if r.success {
        TickNarrows(Next(r.ctx), sib);
      }
    }
  }

  /** An outstanding command is counted. */
  lemma ActiveNeedsWork(c: Ctx, sib: Task)
    requires CtxOk(c, sib) && c.task.active.Some?
    ensures Lo(c) >= 1
  {
  }

  lemma BoundsOk(c: Ctx)
    ensures 0 <= Lo(c) <= Hi(c) <= 6 && (c.task.index >= TREE_SIZE ==> Hi(c) == 0)
    ensures c.task.index == 0 ==> Hi(c) == 6 && Lo(c) == 5
  {
  }
}
