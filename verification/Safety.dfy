/** What holds in every state a mission can reach, whatever events arrive in whatever order. */
module Safety {
  import Emission
  import opened Domain
  import opened BehaviorTree
  import opened TaskOrder
  import opened LocalInvariant
  import opened Mission
  import opened Invariant
  import opened StepProof
  import opened History

  ghost predicate Reachable(s: State) {
    exists n, maxRetries, events :: Run(Initial(n, maxRetries), events).state == s
  }

  lemma ReachableIsInvariant(s: State)
    requires Reachable(s)
    ensures Inv(s)
  {
    var n, maxRetries, events :| Run(Initial(n, maxRetries), events).state == s;
    ReachableInvariant(n, maxRetries, events);
  }

  // ----- Mutual exclusion -----

  ghost predicate UsesZone(s: State, robot: RobotId)
    requires robot in s.robots
  {
    || s.robots[robot].location == Transfer
    || exists k ::
      s.exec.IsOpen(k) && s.exec.commands[k].robot == robot && s.exec.commands[k].kind == MoveRobot(Transfer)
  }

  lemma ZoneUserHoldsLease(s: State, robot: RobotId)
    requires Inv(s) && robot in s.robots && UsesZone(s, robot)
    ensures s.transfer.lease.Some? && s.transfer.lease.value.actor == robot
  {
    var leg := if robot == Tb3_1 then UP else DOWN;
    assert RobotOk(leg, s.robots[RobotOf(leg)]);
    if s.robots[robot].location == Transfer {
      assert TaskAt(s, s.robots[robot].activeTask.value);
    } else {
      var k :| s.exec.IsOpen(k) && s.exec.commands[k].robot == robot && s.exec.commands[k].kind == MoveRobot(Transfer);
      OpenIsActive(s, k);
      assert TaskAt(s, s.exec.commands[k].task);
    }
  }

  /** At most one robot is at transfer or on its way there, and the active lease is its. */
  lemma TransferMutualExclusion(s: State, a: RobotId, b: RobotId)
    requires Reachable(s) && a in s.robots && b in s.robots && UsesZone(s, a) && UsesZone(s, b)
    ensures a == b && s.transfer.lease.Some? && s.transfer.lease.value.actor == a
  {
    ReachableIsInvariant(s);
    ZoneUserHoldsLease(s, a);
    ZoneUserHoldsLease(s, b);
  }

  // ----- Custody -----

  /** One of five stages, and a carried package is that of its carrier's active task. */
  ghost predicate InCustody(s: State, q: nat)
    requires q in s.items
  {
    && (exists g: Stage :: s.items[q] == StageView(g))
    && (s.items[q].carriedBy.Some? ==>
          var r := s.items[q].carriedBy.value;
          r in s.robots && s.robots[r].activeTask.Some? && s.robots[r].activeTask.value.item == q)
  }

  /** A handling command has its robot and its package where it needs them. */
  predicate InPlace(s: State, cmd: Command)
    requires cmd.kind.HandleItem?
  {
    var id := cmd.task;
    && cmd.kind.item == id.item && id in s.tasks && id.item in s.items && cmd.robot in s.robots
    && (if cmd.kind.handling == Load then
          && s.robots[cmd.robot].location == s.tasks[id].At(Pickup)
          && s.items[id.item] == Package(s.tasks[id].At(Pickup), None)
        else
          && s.robots[cmd.robot].location == s.tasks[id].At(Dropoff)
          && s.items[id.item].carriedBy == Some(cmd.robot))
  }

  lemma ItemInCustody(s: State, q: nat)
    requires Inv(s) && q in s.items
    ensures InCustody(s, q)
    ensures s.items[q] == StageView(StageOf(s.items[q]))
  {
    assert PackageAt(s, q) && TaskAt(s, TaskId(q, UP)) && TaskAt(s, TaskId(q, DOWN));
  }

  lemma HandlingInPlace(s: State, k: nat)
    requires Inv(s) && s.exec.IsOpen(k) && s.exec.commands[k].kind.HandleItem?
    ensures InPlace(s, s.exec.commands[k])
  {
    OpenIsActive(s, k);
    assert TaskAt(s, s.exec.commands[k].task);
  }

  /** Every package is in exactly one of five stages; a robot carries at most one package,
      the one of its active task; a load or unload is only outstanding where robot and
      package are in place for it. */
  lemma PackageCustody(s: State)
    requires Reachable(s)
    ensures forall q :: q in s.items ==> InCustody(s, q)
    ensures forall k :: s.exec.IsOpen(k) && s.exec.commands[k].kind.HandleItem? ==> InPlace(s, s.exec.commands[k])
  {
    ReachableIsInvariant(s);
    forall q | q in s.items
      ensures InCustody(s, q)
    {
      ItemInCustody(s, q);
    }
    forall k | s.exec.IsOpen(k) && s.exec.commands[k].kind.HandleItem?
      ensures InPlace(s, s.exec.commands[k])
    {
      HandlingInPlace(s, k);
    }
  }

  // ----- Buffer -----

  predicate LeasedItem(s: State, q: nat) {
    s.transfer.lease.Some? && s.transfer.lease.value.item == Some(q)
  }

  lemma BufferMatches(s: State, q: nat)
    requires Inv(s) && q in s.items && !LeasedItem(s, q)
    ensures s.items[q] == Package(Transfer, None) <==> q in s.transfer.packageOccupancy
  {
    assert PackageAt(s, q) && TaskAt(s, TaskId(q, UP)) && TaskAt(s, TaskId(q, DOWN));
  }

  lemma LeasedItemAlone(s: State, p: nat, q: nat)
    requires Inv(s) && p in s.items && q in s.items && LeasedItem(s, q)
    requires s.items[q] == Package(Transfer, None) && s.items[p] == Package(Transfer, None)
    ensures p == q
  {
    var l := s.transfer.lease.value.task;
    assert TaskAt(s, l) && PackageAt(s, q);
    if p != q {
      BufferMatches(s, p);
    }
  }

  /** The zone's book-keeping and the packages agree: at most one package is there, and
      the two views can differ only in the package the lease is for. */
  lemma BufferAgreement(s: State)
    requires Reachable(s)
    ensures |s.transfer.packageOccupancy| <= 1
    ensures forall q :: q in s.items && !LeasedItem(s, q) ==>
              (s.items[q] == Package(Transfer, None) <==> q in s.transfer.packageOccupancy)
    ensures forall p, q ::
              (p in s.items && q in s.items && s.items[p] == s.items[q] == Package(Transfer, None)) ==> p == q
  {
    ReachableIsInvariant(s);
    forall q | q in s.items && !LeasedItem(s, q)
      ensures s.items[q] == Package(Transfer, None) <==> q in s.transfer.packageOccupancy
    {
      BufferMatches(s, q);
    }
    forall p, q | p in s.items && q in s.items && s.items[p] == s.items[q] == Package(Transfer, None)
      ensures p == q
    {
      LyingAlone(s, p, q);
    }
  }

  lemma LyingAlone(s: State, p: nat, q: nat)
    requires Inv(s) && p in s.items && q in s.items && s.items[p] == s.items[q] == Package(Transfer, None)
    ensures p == q
  {
    if LeasedItem(s, q) {
      LeasedItemAlone(s, p, q);
    } else if LeasedItem(s, p) {
      LeasedItemAlone(s, q, p);
    } else {
      BufferMatches(s, p);
      BufferMatches(s, q);
    }
  }

  /** A handling result was applied, but its task has not been ticked since. */
  predicate Unticked(s: State, q: nat)
    requires TaskId(q, UP) in s.tasks && TaskId(q, DOWN) in s.tasks && q in s.items
  {
    || (s.tasks[TaskId(q, UP)].index == 11 && s.items[q] == Package(Transfer, None))
    || (s.tasks[TaskId(q, DOWN)].index == 4 && s.items[q].carriedBy.Some?)
  }

  /** Exactly when the two views differ: the leased package was handled, its command is
      over, and its task still stands at the handling node. */
  lemma BufferLag(s: State, q: nat)
    requires Reachable(s) && q in s.items
    ensures TaskId(q, UP) in s.tasks && TaskId(q, DOWN) in s.tasks
    ensures (s.items[q] == Package(Transfer, None) <==> q in s.transfer.packageOccupancy) <==> !Unticked(s, q)
    ensures Unticked(s, q) ==>
              && LeasedItem(s, q)
              && s.transfer.lease.value.task in s.tasks && s.tasks[s.transfer.lease.value.task].active == None
  {
    ReachableIsInvariant(s);
    BufferLagInv(s, q);
  }

  lemma BufferLagInv(s: State, q: nat)
    requires Inv(s) && q in s.items
    ensures TaskId(q, UP) in s.tasks && TaskId(q, DOWN) in s.tasks
    ensures (s.items[q] == Package(Transfer, None) <==> q in s.transfer.packageOccupancy) <==> !Unticked(s, q)
    ensures Unticked(s, q) ==>
              && LeasedItem(s, q)
              && s.transfer.lease.value.task in s.tasks && s.tasks[s.transfer.lease.value.task].active == None
  {
    assert PackageAt(s, q) && TaskAt(s, TaskId(q, UP)) && TaskAt(s, TaskId(q, DOWN));
  }

  // ----- Order of work -----

  /** FIFO on both legs: once a leg of package q has started, that leg of every package
      sorted before q has succeeded. */
  lemma FifoHandoff(s: State, p: nat, q: nat, leg: Leg)
    requires Reachable(s) && p in s.items && q in s.items && Before(p, q)
    requires s.tasks[TaskId(q, leg)].index > 0
    ensures s.tasks[TaskId(p, leg)].status == TaskStatus.SUCCEEDED
  {
    ReachableIsInvariant(s);
    EarlierSucceeded(s, p, q, leg);
  }

  lemma EarlierSucceeded(s: State, p: nat, q: nat, leg: Leg)
    requires Inv(s) && p in s.items && q in s.items && Before(p, q) && s.tasks[TaskId(q, leg)].index > 0
    ensures s.tasks[TaskId(p, leg)].status == TaskStatus.SUCCEEDED
  {
    InOrderAt(s, TaskId(p, leg), TaskId(q, leg));
    assert TaskAt(s, TaskId(p, leg));
  }

  /** A downstream task is let into the zone only after the upstream task of its package
      has succeeded. */
  lemma LegDependency(s: State, q: nat)
    requires Reachable(s) && q in s.items
    requires s.tasks[TaskId(q, DOWN)].pickupAcquired || s.tasks[TaskId(q, DOWN)].index >= 2
    ensures s.tasks[TaskId(q, UP)].status == TaskStatus.SUCCEEDED
  {
    ReachableIsInvariant(s);
    assert TaskAt(s, TaskId(q, DOWN)) && TaskAt(s, TaskId(q, UP)) && PackageAt(s, q);
  }

  /** The circular wait cannot happen, whatever was paused, failed, cancelled or aborted:
      while a downstream task waits, the buffer is empty or holds the package it waits for.
      So never is an upstream robot refused because the buffer is full and a downstream
      robot because its package is not there. */
  lemma NoCircularWait(s: State, p: TaskId, q: TaskId)
    requires Reachable(s)
    requires p in s.tasks && p.leg == UP
    requires q in s.tasks && q.leg == DOWN && 1 <= s.tasks[q].index <= 5
    ensures s.transfer.packageOccupancy == [] || s.transfer.packageOccupancy == [q.item]
    ensures !(&& Decide(s.transfer, Tb3_1, Dropoff, Some(p.item)).reason == Some(TransferPackageFull)
              && Decide(s.transfer, Tb3_2, Pickup, Some(q.item)).reason == Some(PackageNotAvailable))
  {
    ReachableIsInvariant(s);
    OnlyAwaited(s, q);
    NotBothRefused(s.transfer, p.item, q.item);
  }

  lemma OnlyAwaited(s: State, q: TaskId)
    requires Inv(s) && q in s.tasks && q.leg == DOWN && 1 <= s.tasks[q].index <= 5
    ensures s.transfer.config == TRANSFER_CONFIG
    ensures s.transfer.packageOccupancy == [] || s.transfer.packageOccupancy == [q.item]
  {
    if s.transfer.packageOccupancy != [] {
      BufferedIsAwaited(s, s.transfer.packageOccupancy[0], q);
    }
  }

  lemma NotBothRefused(r: Resource, p: nat, q: nat)
    requires r.config == TRANSFER_CONFIG && (r.packageOccupancy == [] || r.packageOccupancy == [q])
    ensures !(&& Decide(r, Tb3_1, Dropoff, Some(p)).reason == Some(TransferPackageFull)
              && Decide(r, Tb3_2, Pickup, Some(q)).reason == Some(PackageNotAvailable))
  {
  }

  lemma OpenOwnsRobot(s: State, k: nat)
    requires Inv(s) && s.exec.IsOpen(k)
    ensures var cmd := s.exec.commands[k];
            && cmd.task in s.tasks && s.tasks[cmd.task].active == Some(k)
            && s.robots[cmd.robot].activeTask == Some(cmd.task)
  {
    OpenIsActive(s, k);
    assert TaskAt(s, s.exec.commands[k].task);
  }

  /** The open commands are exactly the active commands of their own tasks, and no robot
      has two. */
  lemma CommandTaskBijection(s: State)
    requires Reachable(s)
    ensures forall k :: s.exec.IsOpen(k) ==>
              s.exec.commands[k].task in s.tasks && s.tasks[s.exec.commands[k].task].active == Some(k)
    ensures forall id :: id in s.tasks && s.tasks[id].active.Some? ==>
              s.exec.IsOpen(s.tasks[id].active.value) && s.exec.commands[s.tasks[id].active.value].task == id
    ensures forall j, k ::
              s.exec.IsOpen(j) && s.exec.IsOpen(k) && s.exec.commands[j].robot == s.exec.commands[k].robot ==> j == k
  {
    ReachableIsInvariant(s);
    forall id | id in s.tasks && s.tasks[id].active.Some?
      ensures s.exec.IsOpen(s.tasks[id].active.value) && s.exec.commands[s.tasks[id].active.value].task == id
    {
      assert TaskAt(s, id);
    }
    forall j, k | s.exec.IsOpen(j) && s.exec.IsOpen(k) && s.exec.commands[j].robot == s.exec.commands[k].robot
      ensures j == k
    {
      OpenOwnsRobot(s, j);
      OpenOwnsRobot(s, k);
    }
    forall k | s.exec.IsOpen(k)
      ensures s.exec.commands[k].task in s.tasks && s.tasks[s.exec.commands[k].task].active == Some(k)
    {
      OpenOwnsRobot(s, k);
    }
  }

  // ----- Completion -----

  ghost predicate Delivered(s: State) {
    && (forall q :: q in s.items ==> s.items[q] == Package(Destination, None))
    && s.transfer.packageOccupancy == [] && s.transfer.robotOccupancy == [] && s.transfer.lease == None
    && (forall r :: r in s.robots ==> s.robots[r].status == IDLE)
    && (forall k :: !s.exec.IsOpen(k))
  }

  lemma AllSucceededIsIndex(s: State)
    requires Inv(s) && AllSucceeded(s)
    ensures forall id :: id in s.tasks ==> s.tasks[id].index == TREE_SIZE
  {
    forall id | id in s.tasks
      ensures s.tasks[id].index == TREE_SIZE
    {
      assert TaskAt(s, id);
    }
  }

  lemma AllSucceededIsDelivered(s: State)
    requires Inv(s) && AllSucceeded(s)
    ensures Delivered(s)
  {
    assert |s.transfer.packageOccupancy| == 0 || s.transfer.packageOccupancy[0] in s.transfer.packageOccupancy;
    forall q | q in s.items
      ensures s.items[q] == Package(Destination, None) && q !in s.transfer.packageOccupancy
    {
      assert PackageAt(s, q) && TaskAt(s, TaskId(q, UP)) && TaskAt(s, TaskId(q, DOWN));
    }
    assert s.transfer.lease.Some? ==> TaskAt(s, s.transfer.lease.value.task);
    AllSucceededIsIndex(s);
    forall r | r in s.robots
      ensures s.robots[r].status == IDLE
    {
      var leg := if r == Tb3_1 then UP else DOWN;
      assert RobotOk(leg, s.robots[RobotOf(leg)]);
      assert s.robots[r].activeTask.Some? ==> TaskAt(s, s.robots[r].activeTask.value);
    }
    forall k
      ensures !s.exec.IsOpen(k)
    {
      if s.exec.IsOpen(k) {
        OpenIsActive(s, k);
      }
    }
  }

  lemma CompletedStep(s: State, e: Event)
    requires Inv(s) && s.status == COMPLETED
    ensures var o := Step(s, e);
            && o.state.status == COMPLETED && o.emitted == []
            && o.state.tasks == s.tasks && o.state.items == s.items && o.state.exec == s.exec
            && o.state.transfer == s.transfer
  {
    AllSucceededIsDelivered(s);
  }

  /** COMPLETED means delivered, and nothing that happens later changes that or emits. */
  lemma CompletedIsFinal(s: State, events: seq<Event>)
    requires Reachable(s) && s.status == COMPLETED
    ensures Delivered(s)
    ensures var o := Run(s, events); Finished(s, o) && Delivered(o.state)
  {
    ReachableIsInvariant(s);
    AllSucceededIsDelivered(s);
    CompletedStays(s, events);
    RunEvolves(s, events);
    AllSucceededIsDelivered(Run(s, events).state);
  }

  /** Nothing has happened to the tasks, the packages and the commands of a completed mission. */
  predicate Finished(s: State, o: Outcome) {
    && o.state.status == COMPLETED && o.emitted == []
    && o.state.tasks == s.tasks && o.state.items == s.items && o.state.exec == s.exec
  }

  lemma {:induction false} CompletedStays(s: State, events: seq<Event>)
    requires Inv(s) && s.status == COMPLETED
    ensures Finished(s, Run(s, events))
  {
    if events != [] {
      CompletedStays(s, events[..|events| - 1]);
      RunEvolves(s, events[..|events| - 1]);
      CompletedStep(Run(s, events[..|events| - 1]).state, events[|events| - 1]);
    }
  }

  // ----- Redelivered results -----

  function About(e: Event): Option<nat> {
    match e
    case Completed(k) => Some(k)
    case Failed(k, _) => Some(k)
    case Cancelled(k, _) => Some(k)
    case _ => None
  }

  /** A result for a command that is unknown or already ended. */
  predicate Stale(s: State, e: Event) {
    About(e).Some? && !s.exec.IsOpen(About(e).value)
  }

  lemma StaleIsIgnored(s: State, e: Event)
    requires Wf(s) && Stale(s, e)
    ensures Step(s, e) == Outcome(s, [])
  {
  }

  /** The events of a run without the stale results among them. */
  function Accepted(s: State, events: seq<Event>): seq<Event>
    requires Wf(s)
  {
    if events == [] then
      []
    else
      var init, last := events[..|events| - 1], events[|events| - 1];
      if Stale(Run(s, init).state, last) then Accepted(s, init) else Accepted(s, init) + [last]
  }

  /** The stale results can all be dropped from any run without changing its final state or
      the commands it emits. */
  lemma {:induction false} RedeliveryIsStutter(s: State, events: seq<Event>)
    requires Wf(s)
    ensures Run(s, events) == Run(s, Accepted(s, events))
  {
    if events != [] {
      var init, last := events[..|events| - 1], events[|events| - 1];
      RedeliveryIsStutter(s, init);
      if Stale(Run(s, init).state, last) {
        StaleIsIgnored(Run(s, init).state, last);
        assert Run(s, init).emitted + [] == Run(s, init).emitted;
      } else {
        var a := Accepted(s, init) + [last];
        assert a[..|a| - 1] == Accepted(s, init);
      }
    }
  }

  lemma RunLast(s: State, events: seq<Event>, e: Event)
    requires Wf(s)
    ensures var mid := Run(s, events);
            var o := Step(mid.state, e);
            Run(s, events + [e]) == Outcome(o.state, mid.emitted + o.emitted)
  {
    var es := events + [e];
    assert es[..|es| - 1] == events;
  }

  /** Runs that have come to the same state go on alike, emitting the same `more`. */
  lemma RunsGoOnAlike(s: State, a: seq<Event>, s': State, b: seq<Event>, e: Event) returns (more: seq<nat>)
    requires Wf(s) && Wf(s') && Run(s, a).state == Run(s', b).state
    ensures Run(s, a + [e]).state == Run(s', b + [e]).state
    ensures Run(s, a + [e]).emitted == Run(s, a).emitted + more
    ensures Run(s', b + [e]).emitted == Run(s', b).emitted + more
  {
    RunLast(s, a, e);
    RunLast(s', b, e);
    more := Step(Run(s, a).state, e).emitted;
  }

  /** The run `whole` is the run `part` after `before` was emitted. */
  predicate Continues(whole: Outcome, before: seq<nat>, part: Outcome) {
    whole.state == part.state && whole.emitted == before + part.emitted
  }

  lemma SplitGoesOn(s: State, first: seq<Event>, mid: Outcome, rest: seq<Event>, e: Event)
    requires Wf(s) && Wf(mid.state) && Continues(Run(s, first + rest), mid.emitted, Run(mid.state, rest))
    ensures Continues(Run(s, (first + rest) + [e]), mid.emitted, Run(mid.state, rest + [e]))
  {
    var more := RunsGoOnAlike(s, first + rest, mid.state, rest, e);
    Associates(mid.emitted, Run(mid.state, rest).emitted, more);
  }

  /** A run is its first part followed by the rest from where that ended. */
  lemma {:induction false} RunSplits(s: State, first: seq<Event>, rest: seq<Event>)
    requires Wf(s)
    ensures var mid := Run(s, first); Continues(Run(s, first + rest), mid.emitted, Run(mid.state, rest))
  {
    var mid := Run(s, first);
    if rest == [] {
      assert first + rest == first && mid.emitted + [] == mid.emitted;
    } else {
      var init, last := rest[..|rest| - 1], rest[|rest| - 1];
      RunSplits(s, first, init);
      SplitGoesOn(s, first, mid, init, last);
      LastOnAgain(first, rest);
    }
  }

  lemma LastOnAgain(a: seq<Event>, b: seq<Event>)
    requires b != []
    ensures b[..|b| - 1] + [b[|b| - 1]] == b
    ensures (a + b[..|b| - 1]) + [b[|b| - 1]] == a + b
  {
  }

  lemma Associates(a: seq<nat>, b: seq<nat>, c: seq<nat>)
    ensures (a + b) + c == a + (b + c)
  {
  }

  /** A duplicate, late or unknown result can be inserted anywhere in any run, or taken out,
      without changing the final state or the commands emitted. */
  lemma StaleInsertion(s: State, before: seq<Event>, x: Event, rest: seq<Event>)
    requires Wf(s) && Stale(Run(s, before).state, x)
    ensures Run(s, before + [x] + rest) == Run(s, before + rest)
  {
    var mid := Run(s, before);
    StaleIsIgnored(mid.state, x);
    var es := before + [x];
    assert es[..|es| - 1] == before && mid.emitted + [] == mid.emitted;
    RunSplits(s, es, rest);
    RunSplits(s, before, rest);
  }

  lemma RecordedEnds(s: State, e: Event)
    requires About(e).Some? && About(e).value in s.exec.commands
    ensures var k := About(e).value;
            k in Emission.Recorded(s, e).commands && !Emission.Recorded(s, e).IsOpen(k)
  {
  }

  lemma EmitsKeepsOld(n: nat, ex: Exec, ex': Exec, emitted: seq<nat>, k: nat)
    requires Mission.ExecWf(n, ex) && Emission.Emits(ex, ex', emitted) && k in ex.commands
    ensures k in ex'.commands && ex'.commands[k] == ex.commands[k]
  {
  }

  lemma ResultEnds(s: State, e: Event)
    requires Inv(s) && About(e).Some? && About(e).value in s.exec.commands
    ensures var k := About(e).value;
            k in Step(s, e).state.exec.commands && !Step(s, e).state.exec.IsOpen(k)
  {
    RecordedEnds(s, e);
    Emission.RecordedWf(s, e);
    Emission.StepEmits(s, e);
    EmitsKeepsOld(s.n, Emission.Recorded(s, e), Step(s, e).state.exec, Step(s, e).emitted, About(e).value);
  }

  /** Only the first result for an issued command counts: after it, and whatever happens
      next, every further result for that command is ignored. */
  lemma FirstResultCounts(s: State, e: Event, between: seq<Event>, again: Event)
    requires Reachable(s) && About(e).Some? && About(again) == About(e) && About(e).value in s.exec.commands
    ensures var later := Run(Step(s, e).state, between).state;
            Step(later, again) == Outcome(later, [])
  {
    ReachableIsInvariant(s);
    ResultEnds(s, e);
    StepKeepsInvariant(s, e);
    RunEvolves(Step(s, e).state, between);
    StaleIsIgnored(Run(Step(s, e).state, between).state, again);
  }
}
