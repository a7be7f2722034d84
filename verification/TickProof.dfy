/** Every child of the behavior tree keeps the local invariant. */
module TickProof {
  import opened Domain
  import opened BehaviorTree
  import opened LocalInvariant

  /** The contract of one node: from an invariant context it either stops at rest,
      or hands an invariant context to the next child. */
  predicate NodeOk(c: Ctx, sib: Task, r: Ticked) {
    && TickRel(c, r)
    && CtxOk(if r.success then Next(r.ctx) else r.ctx, sib)
    && (r.success ==> r.emitted == [])
    && (!r.success ==> Rests(r.ctx.task))
  }

  lemma ClaimOk(c: Ctx, sib: Task)
    requires CtxOk(c, sib) && c.task.index == 0
    ensures NodeOk(c, sib, TickNode(Child(c.task.index), c))
  {
  }

  predicate Asks(c: Ctx) {
    if c.task.id.leg == UP then c.task.index == 8 else c.task.index == 1
  }

  predicate Refused(c: Ctx) {
    c.transfer.lease.Some? ||
    if c.task.id.leg == UP then c.transfer.packageOccupancy != []
    else c.task.id.item !in c.transfer.packageOccupancy
  }

  /** A task that asks for the zone never holds the lease already, so it is granted
      exactly when the zone is free and its package fits or is there. */
  lemma RequestDecision(c: Ctx, sib: Task)
    requires CtxOk(c, sib) && Asks(c)
    ensures var e := if c.task.id.leg == UP then Dropoff else Pickup;
            var d := Decide(c.transfer, c.task.Robot(), e, Some(c.task.id.item));
            && (d.status == GRANTED <==>
                  && c.transfer.lease == None
                  && (if c.task.id.leg == UP then c.transfer.packageOccupancy == []
                      else c.task.id.item in c.transfer.packageOccupancy))
            && (d.status != GRANTED ==>
                  d.status == WAIT && d.waitWaypoint == TransferSideWaypoint(c.task.Robot()))
  {
  }

  lemma GrantedUpOk(c: Ctx, sib: Task)
    requires CtxOk(c, sib) && c.task.id.leg == UP && Asks(c) && !Refused(c)
    ensures NodeOk(c, sib, TickNode(Child(c.task.index), c))
  {
    RequestDecision(c, sib);
  }

  lemma GrantedDownOk(c: Ctx, sib: Task)
    requires CtxOk(c, sib) && c.task.id.leg == DOWN && Asks(c) && !Refused(c)
    ensures NodeOk(c, sib, TickNode(Child(c.task.index), c))
  {
    RequestDecision(c, sib);
  }

  lemma DeniedWaitsOk(c: Ctx, sib: Task)
    requires CtxOk(c, sib) && Asks(c) && Refused(c)
    requires Some(c.robot.location) == TransferSideWaypoint(c.task.Robot())
    ensures NodeOk(c, sib, TickNode(Child(c.task.index), c))
  {
    RequestDecision(c, sib);
  }

  lemma DeniedMovesUpOk(c: Ctx, sib: Task)
    requires CtxOk(c, sib) && c.task.id.leg == UP && Asks(c) && Refused(c)
    requires Some(c.robot.location) != TransferSideWaypoint(c.task.Robot())
    ensures NodeOk(c, sib, TickNode(Child(c.task.index), c))
  {
    RequestDecision(c, sib);
  }

  lemma DeniedMovesDownOk(c: Ctx, sib: Task)
    requires CtxOk(c, sib) && c.task.id.leg == DOWN && Asks(c) && Refused(c)
    requires Some(c.robot.location) != TransferSideWaypoint(c.task.Robot())
    ensures NodeOk(c, sib, TickNode(Child(c.task.index), c))
  {
    RequestDecision(c, sib);
  }

  lemma PickupUpOk(c: Ctx, sib: Task)
    requires CtxOk(c, sib) && c.task.id.leg == UP && c.task.index == 2
    ensures NodeOk(c, sib, TickNode(Child(c.task.index), c))
  {
  }

  lemma DropoffUpOk(c: Ctx, sib: Task)
    requires CtxOk(c, sib) && c.task.id.leg == UP && c.task.index == 9
    ensures NodeOk(c, sib, TickNode(Child(c.task.index), c))
  {
  }

  lemma PickupDownOk(c: Ctx, sib: Task)
    requires CtxOk(c, sib) && c.task.id.leg == DOWN && c.task.index == 2
    ensures NodeOk(c, sib, TickNode(Child(c.task.index), c))
  {
  }

  lemma DropoffDownOk(c: Ctx, sib: Task)
    requires CtxOk(c, sib) && c.task.id.leg == DOWN && c.task.index == 9
    ensures NodeOk(c, sib, TickNode(Child(c.task.index), c))
  {
  }

  lemma OccupyOk(c: Ctx, sib: Task)
    requires CtxOk(c, sib) && c.task.index in {3, 10}
    ensures NodeOk(c, sib, TickNode(Child(c.task.index), c))
  {
  }

  lemma LoadUpOk(c: Ctx, sib: Task)
    requires CtxOk(c, sib) && c.task.id.leg == UP && c.task.index == 4
    ensures NodeOk(c, sib, TickNode(Child(c.task.index), c))
  {
  }

  lemma UnloadUpOk(c: Ctx, sib: Task)
    requires CtxOk(c, sib) && c.task.id.leg == UP && c.task.index == 11
    ensures NodeOk(c, sib, TickNode(Child(c.task.index), c))
  {
  }

  lemma LoadDownOk(c: Ctx, sib: Task)
    requires CtxOk(c, sib) && c.task.id.leg == DOWN && c.task.index == 4
    ensures NodeOk(c, sib, TickNode(Child(c.task.index), c))
  {
  }

  lemma UnloadDownOk(c: Ctx, sib: Task)
    requires CtxOk(c, sib) && c.task.id.leg == DOWN && c.task.index == 11
    ensures NodeOk(c, sib, TickNode(Child(c.task.index), c))
  {
  }

  lemma UpdateOk(c: Ctx, sib: Task)
    requires CtxOk(c, sib) && c.task.index in {5, 12}
    ensures NodeOk(c, sib, TickNode(Child(c.task.index), c))
  {
  }

  lemma VacateUpOk(c: Ctx, sib: Task)
    requires CtxOk(c, sib) && c.task.id.leg == UP && c.task.index in {6, 13}
    ensures NodeOk(c, sib, TickNode(Child(c.task.index), c))
  {
  }

  lemma VacateDownOk(c: Ctx, sib: Task)
    requires CtxOk(c, sib) && c.task.id.leg == DOWN && c.task.index in {6, 13}
    ensures NodeOk(c, sib, TickNode(Child(c.task.index), c))
  {
  }

  lemma ReleaseOk(c: Ctx, sib: Task)
    requires CtxOk(c, sib) && c.task.index in {7, 14}
    ensures NodeOk(c, sib, TickNode(Child(c.task.index), c))
  {
  }

  lemma ReleaseRobotOk(c: Ctx, sib: Task)
    requires CtxOk(c, sib) && c.task.index == 15
    ensures NodeOk(c, sib, TickNode(Child(c.task.index), c))
  {
  }

  lemma SucceedOk(c: Ctx, sib: Task)
    requires CtxOk(c, sib) && c.task.index == 16
    ensures NodeOk(c, sib, TickNode(Child(c.task.index), c))
  {
  }

  lemma RequestOk(c: Ctx, sib: Task)
    requires CtxOk(c, sib) && Asks(c)
    ensures NodeOk(c, sib, TickNode(Child(c.task.index), c))
  {
    if !Refused(c) {
      if c.task.id.leg == UP {
        GrantedUpOk(c, sib);
      } else {
        GrantedDownOk(c, sib);
      }
    } else if Some(c.robot.location) == TransferSideWaypoint(c.task.Robot()) {
      DeniedWaitsOk(c, sib);
    } else if c.task.id.leg == UP {
      DeniedMovesUpOk(c, sib);
    } else {
      DeniedMovesDownOk(c, sib);
    }
  }

  lemma MoveOk(c: Ctx, sib: Task)
    requires CtxOk(c, sib) && (c.task.index == 2 || c.task.index == 9)
    ensures NodeOk(c, sib, TickNode(Child(c.task.index), c))
  {
    match (c.task.id.leg, c.task.index == 2)
    case (SourceToTransfer, true) => PickupUpOk(c, sib);
    case (SourceToTransfer, false) => DropoffUpOk(c, sib);
    case (TransferToDestination, true) => PickupDownOk(c, sib);
    case (TransferToDestination, false) => DropoffDownOk(c, sib);
  }

  lemma HandleOk(c: Ctx, sib: Task)
    requires CtxOk(c, sib) && (c.task.index == 4 || c.task.index == 11)
    ensures NodeOk(c, sib, TickNode(Child(c.task.index), c))
  {
    match (c.task.id.leg, c.task.index == 4)
    case (SourceToTransfer, true) => LoadUpOk(c, sib);
    case (SourceToTransfer, false) => UnloadUpOk(c, sib);
    case (TransferToDestination, true) => LoadDownOk(c, sib);
    case (TransferToDestination, false) => UnloadDownOk(c, sib);
  }

  lemma NodeKeepsInvariant(c: Ctx, sib: Task)
    requires CtxOk(c, sib) && c.task.index < TREE_SIZE
    ensures NodeOk(c, sib, TickNode(Child(c.task.index), c))
  {
    var i := c.task.index;
    if i == 0 {
      ClaimOk(c, sib);
    } else if Asks(c) {
      RequestOk(c, sib);
    } else if i == 1 || i == 8 {
      assert TickNode(Child(i), c) == Done(c);
    } else if i == 2 || i == 9 {
      MoveOk(c, sib);
    } else if i == 3 || i == 10 {
      OccupyOk(c, sib);
    } else if i == 4 || i == 11 {
      HandleOk(c, sib);
    } else if i == 5 || i == 12 {
      UpdateOk(c, sib);
    } else if i == 6 || i == 13 {
      if c.task.id.leg == UP {
        VacateUpOk(c, sib);
      } else {
        VacateDownOk(c, sib);
      }
    } else if i == 7 || i == 14 {
      ReleaseOk(c, sib);
    } else if i == 15 {
      ReleaseRobotOk(c, sib);
    } else {
      SucceedOk(c, sib);
    }
  }

  lemma TickRelComposes(c: Ctx, r: Ticked, r': Ticked)
    requires TickRel(c, r) && r.emitted == []
    requires TickRel(Next(r.ctx), r')
    ensures TickRel(c, r')
  {
    assert Next(r.ctx).exec == c.exec && Next(r.ctx).task.active == c.task.active;
    assert TransferRel(c.task.id, c.transfer, r'.ctx.transfer);
  }

  lemma TickRelReflexive(c: Ctx)
    ensures TickRel(c, Done(c))
  {
  }

  /** A whole tick keeps the local invariant, comes to rest, and stays within its
      guarantee to the other tasks. */
  lemma {:induction false} TickKeepsInvariant(c: Ctx, sib: Task)
    requires CtxOk(c, sib)
    ensures var r := TickTree(c);
            && TickRel(c, r)
            && CtxOk(r.ctx, sib)
            && Rests(r.ctx.task)
    decreases TREE_SIZE - c.task.index
  {
    if c.task.index >= TREE_SIZE {
      TickRelReflexive(c);
      assert TickTree(c) == Done(c);
    } else {
      NodeKeepsInvariant(c, sib);
      var r := TickNode(Child(c.task.index), c);
      if r.success {
        TickKeepsInvariant(Next(r.ctx), sib);
        TickRelComposes(c, r, TickTree(Next(r.ctx)));
      }
    }
  }
}
