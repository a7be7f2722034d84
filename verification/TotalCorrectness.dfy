/** Counting: every accepted completion takes exactly one off the work that is left, so
    every order of completions ends, after 10N + 1 to 12N - 1 of them, with everything delivered. */
module TotalCorrectness {
  import opened Domain
  import opened BehaviorTree
  import opened TaskOrder
  import opened Mission
  import opened Invariant
  import opened StepProof
  import opened Work
  import opened WorkLeft
  import opened Totals
  import opened Sharpness
  import opened LocalInvariant
  import opened MicroSteps
  import opened Safety
  import opened Progress
  import opened Delivery

  // ----- The theorem -----

  /** The mission after Start and then the completions `ks`. */
  function After(n: nat, maxRetries: int, ks: seq<nat>): (s: State)
    ensures Wf(s) && s.n == n
  {
    if ks == [] then Step(Initial(n, maxRetries), StartRequested).state
    else Step(After(n, maxRetries, ks[..|ks| - 1]), Completed(ks[|ks| - 1])).state
  }

  function Arrivals(ks: seq<nat>): seq<Event> {
    if ks == [] then [StartRequested] else Arrivals(ks[..|ks| - 1]) + [Completed(ks[|ks| - 1])]
  }

  lemma {:induction false} AfterIsRun(n: nat, maxRetries: int, ks: seq<nat>)
    ensures After(n, maxRetries, ks) == Run(Initial(n, maxRetries), Arrivals(ks)).state
  {
    var es := Arrivals(ks);
    if ks == [] {
      assert es[..0] == [];
    } else {
      AfterIsRun(n, maxRetries, ks[..|ks| - 1]);
      assert es[..|es| - 1] == Arrivals(ks[..|ks| - 1]);
    }
  }

  /** Every completion is of a command that is outstanding when it arrives. */
  predicate Accepts(n: nat, maxRetries: int, ks: seq<nat>) {
    ks != [] ==>
      Accepts(n, maxRetries, ks[..|ks| - 1]) && After(n, maxRetries, ks[..|ks| - 1]).exec.IsOpen(ks[|ks| - 1])
  }

  lemma StartedLive(n: nat, maxRetries: int)
    ensures var s := Step(Initial(n, maxRetries), StartRequested).state;
            Live(s) && (s.status == MissionStatus.RUNNING || s.status == COMPLETED)
  {
    var s := Initial(n, maxRetries);
    InitialLive(n, maxRetries);
    StartLive(s);
    StatusKeepsInvariant(s, MissionStatus.RUNNING);
    StatusKeepsTasksLive(s, MissionStatus.RUNNING);
    AdvanceIsLive(s.(status := MissionStatus.RUNNING));
  }

  /** The work of a mission none of whose tasks has begun. */
  lemma FreshBounds(s: State, p: nat)
    requires Inv(s) && IsFirst(s.n, p) && TaskId(p, UP) in s.tasks && TaskId(p, DOWN) in s.tasks
    requires forall id :: id in s.tasks ==> s.tasks[id].index == 0
    ensures Top(s, p) == 12 * s.n - 1 && Bottom(s, p) == 10 * s.n + 1
  {
    var ids := Ids(s.n);
    FullSums(s, ids);
    IdsLength(s.n);
    assert HiTotal(s) == 6 * |ids| && LoTotal(s) == 5 * |ids|;
    BoundsOk(View(s, TaskId(p, UP)));
  }

  /** The bounds once package `p`, which sorts first, is on its way. */
  lemma StartedBounds(n: nat, maxRetries: int, p: nat)
    requires IsFirst(n, p)
    ensures Bounded(Step(Initial(n, maxRetries), StartRequested).state, p, 0)
  {
    var s := Initial(n, maxRetries);
    InitialInvariant(n, maxRetries);
    StatusKeepsInvariant(s, MissionStatus.RUNNING);
    FreshBounds(s.(status := MissionStatus.RUNNING), p);
    AdvancedBounds(s.(status := MissionStatus.RUNNING), p);
  }

  lemma AdvancedBounds(s: State, p: nat)
    requires Inv(s) && IsFirst(s.n, p) && TaskId(p, UP) in s.tasks && TaskId(p, DOWN) in s.tasks && Unloaded(s, p)
    ensures var s' := Advance(s).state;
            Top(s', p) <= Top(s, p) && Bottom(s', p) >= Bottom(s, p) && Prestaged(s', p)
  {
    var ms := PlanAdvance(s);
    MovesExact(s, ms, p);
    MovesUnloaded(s, ms, p);
    AdvanceNarrows(s);
    OneOfTotals(s, Advance(s).state, TaskId(p, UP));
    NarrowTotals(s, Advance(s).state);
  }

  /** The bounds on the work left after `done` completions. */
  ghost predicate Bounded(s: State, p: nat, done: nat)
    requires Wf(s) && TaskId(p, UP) in s.tasks && TaskId(p, DOWN) in s.tasks && p in s.items
  {
    Top(s, p) <= 12 * s.n - 1 - done && Bottom(s, p) >= 10 * s.n + 1 - done && Prestaged(s, p)
  }

  lemma CompletionBounded(s: State, k: nat, p: nat, done: nat)
    requires Inv(s) && TasksLive(s) && Unpaused(s) && s.status == MissionStatus.RUNNING && s.exec.IsOpen(k)
    requires IsFirst(s.n, p) && Bounded(s, p, done)
    ensures Bounded(HandleCompleted(s, k).state, p, done + 1)
  {
    CompletionExact(s, k, p);
    CompletionPrestaged(s, k, p);
  }

  lemma {:induction false} AfterLive(n: nat, maxRetries: int, ks: seq<nat>)
    requires Accepts(n, maxRetries, ks)
    ensures var s := After(n, maxRetries, ks);
            Live(s) && (s.status == MissionStatus.RUNNING || s.status == COMPLETED)
  {
    if ks == [] {
      StartedLive(n, maxRetries);
    } else {
      var init, k := ks[..|ks| - 1], ks[|ks| - 1];
      AfterLive(n, maxRetries, init);
      NotCompleteIfOpen(After(n, maxRetries, init), k);
      CompletionLive(After(n, maxRetries, init), k);
    }
  }

  lemma {:induction false} AfterBounds(n: nat, maxRetries: int, ks: seq<nat>, p: nat)
    requires Accepts(n, maxRetries, ks) && IsFirst(n, p)
    ensures Bounded(After(n, maxRetries, ks), p, |ks|)
  {
    if ks == [] {
      StartedBounds(n, maxRetries, p);
    } else {
      var init, k := ks[..|ks| - 1], ks[|ks| - 1];
      AfterLive(n, maxRetries, init);
      AfterBounds(n, maxRetries, init, p);
      var s := After(n, maxRetries, init);
      NotCompleteIfOpen(s, k);
      CompletionBounded(s, k, p, |init|);
    }
  }

  lemma NotCompleteIfOpen(s: State, k: nat)
    requires Inv(s) && s.exec.IsOpen(k)
    ensures s.status != COMPLETED
  {
    OpenIsActive(s, k);
  }

  lemma CompleteHasNoWork(s: State)
    requires Inv(s) && s.status == COMPLETED
    ensures HiTotal(s) == 0 && LoTotal(s) == 0
    ensures forall id :: id in s.tasks ==> s.tasks[id].index == TREE_SIZE
  {
    AllSucceededIsIndex(s);
    ZeroSums(s, Ids(s.n));
  }

  lemma TopIsSomething(s: State, p: nat)
    requires Wf(s) && TaskId(p, UP) in s.tasks
    ensures Top(s, p) >= 0
  {
    OneWithinSum(s, Ids(s.n), TaskId(p, UP));
    BoundsOk(View(s, TaskId(p, UP)));
  }

  /** The most and the least completions a mission of `n` packages takes. */
  function Most(n: nat): nat {
    if n == 0 then 0 else 12 * n - 1
  }

  function Least(n: nat): nat {
    if n == 0 then 0 else 10 * n + 1
  }

  lemma CountsWithin(n: nat, maxRetries: int, ks: seq<nat>)
    requires Accepts(n, maxRetries, ks)
    ensures |ks| <= Most(n)
    ensures After(n, maxRetries, ks).status == COMPLETED ==> Least(n) <= |ks|
  {
    AfterLive(n, maxRetries, ks);
    var s := After(n, maxRetries, ks);
    if n == 0 {
      NothingToAccept(maxRetries, ks);
    } else {
      var p := FirstExists(n);
      AfterBounds(n, maxRetries, ks, p);
      TopIsSomething(s, p);
      if s.status == COMPLETED {
        CompleteHasNoWork(s);
      }
    }
  }

  lemma {:induction false} NothingToAccept(maxRetries: int, ks: seq<nat>)
    requires Accepts(0, maxRetries, ks)
    ensures ks == []
  {
    if ks != [] {
      var init := ks[..|ks| - 1];
      AfterLive(0, maxRetries, init);
      OpenIsActive(After(0, maxRetries, init), ks[|ks| - 1]);
    }
  }

  /** For every N >= 1, after Start, whatever the order in which outstanding commands complete:
      at most 12N - 1 completions are ever accepted; as long as the mission is not complete
      another one can be; and when none can, the mission is COMPLETED, every package is at
      the destination and at least 10N + 1 completions were accepted. */
  lemma DeliversEverything(n: nat, maxRetries: int, ks: seq<nat>)
    requires Accepts(n, maxRetries, ks)
    ensures var s := After(n, maxRetries, ks);
            && |ks| <= Most(n)
            && (if Outstanding(s) then
                  s.status == MissionStatus.RUNNING
                else
                  s.status == COMPLETED && Delivered(s) && Least(n) <= |ks|)
  {
    AfterLive(n, maxRetries, ks);
    CountsWithin(n, maxRetries, ks);
    var s := After(n, maxRetries, ks);
    if s.status == COMPLETED {
      AllSucceededIsDelivered(s);
    }
  }

  /** Every partial run can be continued to the end. */
  lemma {:induction false} EveryRunFinishes(n: nat, maxRetries: int, ks: seq<nat>) returns (all: seq<nat>)
    requires Accepts(n, maxRetries, ks)
    ensures Accepts(n, maxRetries, all) && ks <= all && After(n, maxRetries, all).status == COMPLETED
    decreases Most(n) - |ks|
  {
    DeliversEverything(n, maxRetries, ks);
    var s := After(n, maxRetries, ks);
    if Outstanding(s) {
      var k :| s.exec.IsOpen(k);
      var more := ks + [k];
      assert more[..|more| - 1] == ks;
      DeliversEverything(n, maxRetries, more);
      all := EveryRunFinishes(n, maxRetries, more);
      assert ks <= more <= all;
    } else {
      all := ks;
    }
  }

  /** Both bounds are attained: with one package they meet, and every complete run takes
      exactly eleven completions. */
  lemma OnePackageTakesEleven(n: nat, maxRetries: int) returns (ks: seq<nat>)
    requires n == 1
    ensures Accepts(n, maxRetries, ks) && After(n, maxRetries, ks).status == COMPLETED
    ensures |ks| == 11 == Most(n) == Least(n)
  {
    ks := EveryRunFinishes(n, maxRetries, []);
    CountsWithin(n, maxRetries, ks);
  }
}
