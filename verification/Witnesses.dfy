/** Runs in which the code does what its documentation says it does not: a paused mission
    sends a command, and an aborted mission fails. */
module Witnesses {
  import opened Domain
  import opened Mission
  import opened Invariant
  import opened StepProof
  import opened Progress
  import opened Sharpness
  import opened TotalCorrectness
  import opened Safety
  import opened Pausing
  import opened Effects
  import opened Records
  import Emission

  lemma StartedRuns(n: nat, maxRetries: int)
    requires n >= 1
    ensures var s := Step(Initial(n, maxRetries), StartRequested).state;
            Live(s) && s.status == MissionStatus.RUNNING
  {
    var s := Step(Initial(n, maxRetries), StartRequested).state;
    var p := FirstExists(n);
    StartedLive(n, maxRetries);
    StartedBounds(n, maxRetries, p);
    if s.status == COMPLETED {
      CompleteHasNoWork(s);
    }
  }

  /** With both robots still at home, whatever is outstanding is a move. */
  lemma HomeMeansMove(s: State, k: nat)
    requires Inv(s) && s.exec.IsOpen(k)
    requires AtHome(s)
    ensures s.exec.commands[k].kind.MoveRobot?
  {
    OpenIsActive(s, k);
    assert TaskAt(s, s.exec.commands[k].task);
  }

  predicate AtHome(s: State) {
    && Tb3_1 in s.robots && s.robots[Tb3_1].location == Robot1Home
    && Tb3_2 in s.robots && s.robots[Tb3_2].location == Robot2Home
  }

  predicate AllPending(ex: Exec) {
    forall j :: j in ex.commands ==> ex.commands[j].status == CommandStatus.PENDING
  }

  lemma StartedAtHome(n: nat, maxRetries: int)
    ensures var s := Step(Initial(n, maxRetries), StartRequested).state; AtHome(s) && AllPending(s.exec)
  {
    var s0 := Initial(n, maxRetries);
    InitialInvariant(n, maxRetries);
    StepTouches(s0, StartRequested);
    Emission.EmittedIsCreated(s0, StartRequested);
    StaysAtHome(s0, Step(s0, StartRequested));
  }

  lemma StaysAtHome(s: State, o: Outcome)
    requires AtHome(s) && s.exec.commands == map[]
    requires Touches(s, StartRequested, o.state) && Emission.ExactlyCreated(s.exec, o)
    ensures AtHome(o.state) && AllPending(o.state.exec)
  {
  }

  /** A mission with packages, once started, is running with a move outstanding and no
      failure on record. */
  lemma StartedMove(n: nat, maxRetries: int) returns (k: nat)
    requires n >= 1
    ensures var s := Step(Initial(n, maxRetries), StartRequested).state;
            && Inv(s) && s.status == MissionStatus.RUNNING
            && s.exec.IsOpen(k) && s.exec.commands[k].kind.MoveRobot? && AllPending(s.exec)
  {
    var s := Step(Initial(n, maxRetries), StartRequested).state;
    StartedRuns(n, maxRetries);
    StartedAtHome(n, maxRetries);
    k :| s.exec.IsOpen(k);
    HomeMeansMove(s, k);
  }

  lemma PairOfEvents(a: Event, b: Event)
    ensures [] + [a] == [a] && [a] + [b] == [a, b]
  {
  }

  lemma TwoEvents(s: State, a: Event, b: Event)
    requires Wf(s)
    ensures Run(s, [a, b]).state == Step(Step(s, a).state, b).state
  {
    PairOfEvents(a, b);
    RunLast(s, [], a);
    RunLast(s, [a], b);
  }

  lemma PauseKeepsCommands(s: State)
    requires Wf(s) && s.status == MissionStatus.RUNNING
    ensures Step(s, PauseRequested).state == s.(status := PAUSED)
  {
  }

  /** A paused mission sends a command: start, pause, and the first move turns out unverified. */
  lemma PausedMissionCanEmit(n: nat, maxRetries: int) returns (s: State, e: Event)
    requires n >= 1 && maxRetries >= 1
    ensures s == Run(Initial(n, maxRetries), [StartRequested, PauseRequested]).state
    ensures e.Failed? && s.exec.IsOpen(e.command)
    ensures s.status == PAUSED && Step(s, e).emitted != [] && Step(s, e).state.status == PAUSED
  {
    var k := StartedMove(n, maxRetries);
    var events := [StartRequested, PauseRequested];
    s, e := Run(Initial(n, maxRetries), events).state, Failed(k, ArrivalNotVerified);
    TwoEvents(Initial(n, maxRetries), StartRequested, PauseRequested);
    PauseKeepsCommands(Step(Initial(n, maxRetries), StartRequested).state);
    RetriesAreCounted(n, maxRetries, events, k, ArrivalNotVerified);
    ReachableInvariant(n, maxRetries, events);
    FrozenExactly(s, e);
  }

  lemma AbortKeepsCommands(s: State)
    requires Wf(s) && s.status == MissionStatus.RUNNING
    ensures Step(s, AbortRequested).state.status == ABORTED && Step(s, AbortRequested).state.exec == s.exec
  {
  }

  /** An aborted mission does not stay aborted: start, abort, and the first move fails. */
  lemma AbortedMissionCanFail(n: nat, maxRetries: int, text: string) returns (s: State, e: Event)
    requires n >= 1
    ensures s == Run(Initial(n, maxRetries), [StartRequested, AbortRequested]).state
    ensures e.Failed? && s.exec.IsOpen(e.command)
    ensures s.status == ABORTED && Step(s, e).state.status == MissionStatus.FAILED
  {
    var k := StartedMove(n, maxRetries);
    var events := [StartRequested, AbortRequested];
    s, e := Run(Initial(n, maxRetries), events).state, Failed(k, OtherReason(text));
    TwoEvents(Initial(n, maxRetries), StartRequested, AbortRequested);
    AbortKeepsCommands(Step(Initial(n, maxRetries), StartRequested).state);
    ReachableInvariant(n, maxRetries, events);
    FrozenExactly(s, e);
  }
}
