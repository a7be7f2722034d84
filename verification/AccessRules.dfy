/** The resource manager by itself, for any capacities and waiting places: who gets in,
    what capacity that leaves, and what each bookkeeping call undoes. */
module AccessRules {
  import opened Domain
  import opened BehaviorTree

  /** The rules of entry: nobody else holds the lease, and the actor is inside already or
      there is room for it and for what it comes to do. */
  predicate MayEnter(r: Resource, actor: RobotId, purpose: Endpoint, item: Option<nat>) {
    && (r.lease.Some? ==> r.lease.value.actor == actor)
    && (actor in r.robotOccupancy ||
        (&& r.RobotSlots() > 0
         && item.Some?
         && (if purpose == Dropoff then r.PackageSlots() > 0 else item.value in r.packageOccupancy)))
  }

  /** Access is granted exactly under the rules of entry. A refusal says why; it sends the
      actor to its waiting place if it has one, except for a dropoff of nothing. */
  lemma AccessExactly(r: Resource, actor: RobotId, purpose: Endpoint, item: Option<nat>)
    ensures var d := Decide(r, actor, purpose, item);
            && (d.status == GRANTED <==> MayEnter(r, actor, purpose, item))
            && (d.status == GRANTED <==> d.reason == None)
            && (d.status == WAIT ==> d.waitWaypoint.Some? && d.waitWaypoint == WaitWaypoint(r, actor))
            && (d.status == AccessStatus.BLOCKED ==>
                  WaitWaypoint(r, actor) == None || d.reason == Some(MissingItem))
            && (r.lease.Some? && r.lease.value.actor != actor ==> d.blockedBy == Some(ByRobot(r.lease.value.actor)))
  {
  }

  /** A lease is never taken over: only a free zone is leased, and to the one let in. */
  lemma LeaseIsNotStolen(r: Resource, actor: RobotId, purpose: Endpoint, task: TaskId, item: Option<nat>)
    ensures var r' := Granted(r, actor, purpose, task, item);
            && r' == r.(lease := r'.lease)
            && (r.lease.Some? ==> r'.lease == r.lease)
            && (r.lease == None && r'.lease.Some? <==>
                  r.lease == None && MayEnter(r, actor, purpose, item) && actor !in r.robotOccupancy)
            && (r.lease == None && r'.lease.Some? ==> r'.lease.value == Lease(task, actor, purpose, item))
  {
    AccessExactly(r, actor, purpose, item);
  }

  /** Whoever is let in fits. */
  lemma RobotCapacityKept(r: Resource, actor: RobotId, purpose: Endpoint, task: TaskId, item: Option<nat>)
    requires MayEnter(r, actor, purpose, item) && |r.robotOccupancy| <= r.config.robotCapacity
    ensures var r' := Occupy(Granted(r, actor, purpose, task, item), actor);
            actor in r'.robotOccupancy && |r'.robotOccupancy| <= r.config.robotCapacity
  {
    AccessExactly(r, actor, purpose, item);
  }

  /** What is brought in by an actor that was let in fits too, unless the actor was inside
      already: then nobody looked at the buffer. That is the only way to overfill it. */
  lemma PackageCapacityExactly(r: Resource, actor: RobotId, task: TaskId, x: nat)
    requires MayEnter(r, actor, Dropoff, Some(x)) && |r.packageOccupancy| <= r.config.packageCapacity
    ensures var r' := BufferItem(Occupy(Granted(r, actor, Dropoff, task, Some(x)), actor), x);
            && x in r'.packageOccupancy
            && (|r'.packageOccupancy| <= r.config.packageCapacity <==>
                  !(actor in r.robotOccupancy && x !in r.packageOccupancy && r.PackageSlots() <= 0))
  {
    AccessExactly(r, actor, Dropoff, Some(x));
  }

  // ----- Round trips -----

  lemma {:induction false} RemoveAppended<T>(s: seq<T>, x: T)
    requires x !in s
    ensures RemoveFirst(s + [x], x) == s
  {
    if s == [] {
      assert s + [x] == [x];
    } else {
      assert (s + [x])[1..] == s[1..] + [x];
      RemoveAppended(s[1..], x);
    }
  }

  lemma {:induction false} RemoveAbsent<T>(s: seq<T>, x: T)
    requires x !in s
    ensures RemoveFirst(s, x) == s
  {
    if s != [] {
      RemoveAbsent(s[1..], x);
    }
  }

  /** Removing takes out the first occurrence, at `i`, and leaves the rest in order. */
  lemma {:induction false} RemoveOne<T>(s: seq<T>, x: T) returns (i: nat)
    requires x in s
    ensures i < |s| && s[i] == x && x !in s[..i] && RemoveFirst(s, x) == s[..i] + s[i + 1..]
  {
    i := 0;
    if s[0] != x {
      var j := RemoveOne(s[1..], x);
      i := j + 1;
      assert s[..i] == [s[0]] + s[1..][..j];
      assert s[1..][j + 1..] == s[i + 1..];
    }
  }

  /** Releasing undoes getting in: lease and occupancy are as before. */
  lemma ReleaseUndoesEntry(r: Resource, actor: RobotId, purpose: Endpoint, task: TaskId, item: Option<nat>)
    requires r.lease == None && actor !in r.robotOccupancy
    ensures Release(Occupy(Granted(r, actor, purpose, task, item), actor), actor) == r
  {
    RemoveAppended(r.robotOccupancy, actor);
  }

  /** A release by anybody else leaves the lease alone. */
  lemma OnlyHolderReleases(r: Resource, actor: RobotId)
    requires r.lease.Some? && actor !in r.robotOccupancy
    ensures Release(r, actor) == if r.lease.value.actor == actor then r.(lease := None) else r
  {
    RemoveAbsent(r.robotOccupancy, actor);
  }

  lemma ReleaseItemUndoesBuffer(r: Resource, x: nat)
    requires x !in r.packageOccupancy
    ensures ReleaseItem(BufferItem(r, x), x) == r
  {
    RemoveAppended(r.packageOccupancy, x);
  }
}
