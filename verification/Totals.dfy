/** The work left in a mission, summed over its tasks: a completion takes at least one off
    the most that is left, and at most one off the least. */
module Totals {
  import opened Domain
  import opened BehaviorTree
  import opened TaskOrder
  import opened Mission
  import opened Invariant
  import opened StepProof
  import opened Work
  import opened WorkLeft
  import opened Progress
  import opened Delivery

  function HiSum(s: State, ids: seq<TaskId>): nat
    requires Wf(s) && forall x :: x in ids ==> x in s.tasks
  {
    if ids == [] then 0 else assert ids[0] in ids; HiAt(s, ids[0]) + HiSum(s, ids[1..])
  }

  function LoSum(s: State, ids: seq<TaskId>): int
    requires Wf(s) && forall x :: x in ids ==> x in s.tasks
  {
    if ids == [] then 0 else assert ids[0] in ids; LoAt(s, ids[0]) + LoSum(s, ids[1..])
  }

  lemma {:induction false} NarrowSums(s: State, s': State, ids: seq<TaskId>)
    requires Wf(s) && WorkNarrows(s, s') && forall x :: x in ids ==> x in s.tasks
    ensures HiSum(s', ids) <= HiSum(s, ids) && LoSum(s', ids) >= LoSum(s, ids)
  {
    if ids != [] {
      assert ids[0] in ids;
      assert Narrows(View(s, ids[0]), View(s', ids[0]));
      NarrowSums(s, s', ids[1..]);
    }
  }

  /** The sums change by at least as much as the share of any one task. */
  lemma {:induction false} OneOfSums(s: State, s': State, ids: seq<TaskId>, id: TaskId)
    requires Wf(s) && WorkNarrows(s, s') && id in ids && forall x :: x in ids ==> x in s.tasks
    ensures HiSum(s, ids) - HiSum(s', ids) >= HiAt(s, id) - HiAt(s', id)
    ensures LoSum(s', ids) - LoSum(s, ids) >= LoAt(s', id) - LoAt(s, id)
  {
    RestMembers(ids);
    assert Narrows(View(s, ids[0]), View(s', ids[0]));
    NarrowSums(s, s', ids[1..]);
    if ids[0] != id {
      OneOfSums(s, s', ids[1..], id);
    }
  }

  lemma OneOfTotals(s: State, s': State, id: TaskId)
    requires Wf(s) && WorkNarrows(s, s') && id in s.tasks
    ensures HiTotal(s) - HiTotal(s') >= HiAt(s, id) - HiAt(s', id)
    ensures LoTotal(s') - LoTotal(s) >= LoAt(s', id) - LoAt(s, id)
  {
    OneOfSums(s, s', Ids(s.n), id);
  }

  lemma {:induction false} CountSums(s: State, s': State, ids: seq<TaskId>, id: TaskId)
    requires Wf(s) && Wf(s') && s'.n == s.n && Distinct(ids) && forall x :: x in ids ==> x in s.tasks
    requires id in s.tasks && HiAt(s', id) == HiAt(s, id) - 1 && LoAt(s', id) == LoAt(s, id) - 1
    requires forall x :: x in s.tasks && x != id ==> HiAt(s', x) == HiAt(s, x) && LoAt(s', x) == LoAt(s, x)
    ensures var one := if id in ids then 1 else 0;
            HiSum(s', ids) == HiSum(s, ids) - one && LoSum(s', ids) == LoSum(s, ids) - one
  {
    if ids != [] {
      assert ids == [ids[0]] + ids[1..];
      assert ids[0] in ids;
      CountSums(s, s', ids[1..], id);
      if ids[0] == id {
        assert id !in ids[1..];
      }
    }
  }

  function HiTotal(s: State): nat
    requires Wf(s)
  {
    HiSum(s, Ids(s.n))
  }

  function LoTotal(s: State): int
    requires Wf(s)
  {
    LoSum(s, Ids(s.n))
  }

  lemma NarrowTotals(s: State, s': State)
    requires Wf(s) && WorkNarrows(s, s')
    ensures HiTotal(s') <= HiTotal(s) && LoTotal(s') >= LoTotal(s)
  {
    NarrowSums(s, s', Ids(s.n));
  }

  lemma LandedTotals(s: State, k: nat)
    requires Inv(s) && s.exec.IsOpen(k)
    ensures HiTotal(Landed(s, k)) == HiTotal(s) - 1 && LoTotal(Landed(s, k)) == LoTotal(s) - 1
  {
    LandedCounts(s, k);
    IdsDistinct(s.n);
    CountSums(s, Landed(s, k), Ids(s.n), s.exec.commands[k].task);
  }

  lemma LandedRuns(s: State, k: nat)
    requires Inv(s) && s.exec.IsOpen(k)
    ensures var id, s1 := s.exec.commands[k].task, Landed(s, k);
            Inv(s1) && id in s1.tasks && s1.tasks[id].index > 0 && s1.status != COMPLETED
  {
    OpenIsActive(s, k);
    LandedFrame(s, k);
    LandedKeepsInvariant(s, k);
  }

  /** One completion in a running mission. */
  lemma CompletionCounts(s: State, k: nat)
    requires Inv(s) && TasksLive(s) && Unpaused(s) && s.status == MissionStatus.RUNNING && s.exec.IsOpen(k)
    ensures var s' := HandleCompleted(s, k).state;
            HiTotal(s') <= HiTotal(s) - 1 && LoTotal(s') >= LoTotal(s) - 1
  {
    CompletionLive(s, k);
    LandedTotals(s, k);
    LandedRuns(s, k);
    var s1, id := Landed(s, k), s.exec.commands[k].task;
    FollowNarrows(s1, id);
    NarrowTotals(s1, Follow(s1, id).state);
  }

  lemma {:induction false} OneWithinSum(s: State, ids: seq<TaskId>, id: TaskId)
    requires Wf(s) && id in ids && forall x :: x in ids ==> x in s.tasks
    ensures HiSum(s, ids) >= HiAt(s, id)
  {
    RestMembers(ids);
    if ids[0] != id {
      OneWithinSum(s, ids[1..], id);
    }
  }

  lemma {:induction false} ZeroSums(s: State, ids: seq<TaskId>)
    requires Wf(s) && forall x :: x in ids ==> x in s.tasks && s.tasks[x].index >= TREE_SIZE
    ensures HiSum(s, ids) == 0 && LoSum(s, ids) == 0
  {
    if ids != [] {
      assert ids[0] in ids;
      ZeroSums(s, ids[1..]);
    }
  }

  lemma {:induction false} FullSums(s: State, ids: seq<TaskId>)
    requires Wf(s) && forall x :: x in ids ==> x in s.tasks && s.tasks[x].index == 0
    ensures HiSum(s, ids) == 6 * |ids| && LoSum(s, ids) == 5 * |ids|
  {
    if ids != [] {
      assert ids[0] in ids;
      FullSums(s, ids[1..]);
    }
  }

  lemma {:induction false} IdsLength(n: nat)
    ensures |Ids(n)| == 2 * n
  {
    if n > 0 {
      IdsLength(n - 1);
    }
  }
}
