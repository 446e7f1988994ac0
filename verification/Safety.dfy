/** Safety over whole runs. A run is any interleaving of the scheduler's steps:
    each one either starts nothing (Advances) or starts one Task (Starts), which
    is what Output's methods are proved to do. */
module Safety {
  import opened Outcomes
  import opened CollectionTally
  import opened Eligibility
  import opened WaitLists
  import opened RunState
  import opened Cascades
  import opened Starting
  import opened Followers
  import opened Rest

  /** The step from a to b started Task x, under ceiling: on the way, at state at,
      everything x ever named read succeeded. */
  ghost predicate Starts(a: Sched, at: Sched, b: Sched, x: TaskId, ceiling: nat) {
    && !a.cancelled && a.inflight < ceiling
    && Good(at) && Cascaded(a, at, -1)
    && HeadOf(at, x) && AllSucceeded(at, x)
    && x < |at.info| && x < |at.startedAt| && b == ClaimedTask(at, x)
    && forall y :: 0 <= y < |at.phase| && at.phase[y] == PhaseQueued ==> y < |at.info| && at.info[x].decl <= at.info[y].decl
  }

  ghost predicate Moves(a: Sched, b: Sched, ceiling: nat) {
    Advances(a, b) || exists at: Sched, x: nat :: Starts(a, at, b, x, ceiling)
  }

  ghost predicate IsRun(states: seq<Sched>, ceiling: nat) {
    && states != [] && Blank(states[0])
    && (forall i :: 0 <= i < |states| ==> Good(states[i]))
    && forall i :: 0 <= i < |states| - 1 ==> Moves(states[i], states[i + 1], ceiling)
  }

  lemma StartsOne(a: Sched, at: Sched, b: Sched, x: TaskId, ceiling: nat)
    requires Good(a) && Starts(a, at, b, x, ceiling)
    ensures |b.phase| == |at.phase| == |a.phase| && b.named == at.named == a.named
    ensures forall y :: 0 <= y < |b.phase| && b.phase[y] == PhaseRunning ==> y == x || a.phase[y] == PhaseRunning
    ensures b.inflight == a.inflight + 1
  {
    hide Inv, Stops, AllSucceeded;
    LifeOf(a);
    forall y | 0 <= y < |b.phase| && b.phase[y] == PhaseRunning ensures y == x || a.phase[y] == PhaseRunning {
      assert CascadedTask(a, at, y);
    }
  }

  /** What a start leaves: the Task's callback runs, holding one slot more, and a Task
      that had nothing to show yet is shown running. Nobody else changed. */
  lemma StartRuns(a: Sched, at: Sched, b: Sched, x: TaskId, ceiling: nat)
    requires Good(a) && Starts(a, at, b, x, ceiling)
    ensures x < |b.phase| && b.phase[x] == PhaseRunning && b.inflight == a.inflight + 1 <= ceiling && x in b.claimed
    ensures |b.state| == |at.state| && x < |at.state| && x < |at.info|
    ensures b.state[x] == if at.info[x].gateFor < 0 && at.state[x] == Pending then Running else at.state[x]
    ensures forall y :: 0 <= y < |b.state| && y != x ==> b.state[y] == at.state[y]
  {
    hide Inv, Stops, AllSucceeded;
    LifeOf(a);
  }

  ghost predicate RunsNaming(s: Sched, x: nat, named: seq<Pred>) {
    x < |s.phase| && s.phase[x] == PhaseRunning && x < |s.named| && s.named[x] == named
  }

  /** A Task running after a step ran before it, or the step started it. */
  lemma RunsOrStarts(a: Sched, b: Sched, ceiling: nat, x: TaskId, named: seq<Pred>) returns (at: Sched)
    requires Good(a) && Good(b) && Moves(a, b, ceiling) && RunsNaming(b, x, named)
    ensures RunsNaming(a, x, named) || (Starts(a, at, b, x, ceiling) && RunsNaming(b, x, named) && b.named == at.named)
  {
    hide Inv, Stops, Cascaded, AllSucceeded, HeadOf, Starts, Good;
    if Advances(a, b) {
      at := a;
    } else {
      var x';
      at, x' :| Starts(a, at, b, x', ceiling);
      StartsOne(a, at, b, x', ceiling);
    }
  }

  lemma ShorterRun(states: seq<Sched>, ceiling: nat)
    requires IsRun(states, ceiling) && |states| > 1
    ensures IsRun(states[..|states| - 1], ceiling)
  {
    hide Good, Moves, Blank;
    var early := states[..|states| - 1];
    forall i | 0 <= i < |early| - 1 ensures Moves(early[i], early[i + 1], ceiling) {
      assert Moves(states[i], states[i + 1], ceiling);
    }
  }

  /** Task x runs, so it was started at some step of the run: not cancelled, below
      the ceiling, and with every predecessor it has named by now read succeeded. */
  lemma {:induction false} RunningWasStarted(states: seq<Sched>, ceiling: nat, x: TaskId, named: seq<Pred>)
    returns (k: nat, at: Sched)
    requires IsRun(states, ceiling) && RunsNaming(states[|states| - 1], x, named)
    ensures k < |states| - 1 && Starts(states[k], at, states[k + 1], x, ceiling)
    ensures x < |at.named| && at.named[x] == named
    decreases |states|
  {
    hide Good, Moves, Starts;
    var n := |states| - 1;
    if n > 0 {
      assert Moves(states[n - 1], states[n], ceiling);
      at := RunsOrStarts(states[n - 1], states[n], ceiling, x, named);
      k := n - 1;
      if RunsNaming(states[n - 1], x, named) {
        ShorterRun(states, ceiling);
        k, at := RunningWasStarted(states[..n], ceiling, x, named);
      }
    } else {
      assert false;
    }
  }

  lemma StepKeeps(a: Sched, b: Sched, ceiling: nat)
    requires Good(a) && Moves(a, b, ceiling) && a.inflight <= ceiling
    ensures b.inflight <= ceiling
    ensures a.cancelled ==> b.cancelled
    ensures a.cancelled ==> forall x :: 0 <= x < |b.phase| && b.phase[x] == PhaseRunning ==> x < |a.phase| && a.phase[x] == PhaseRunning
  {
    hide Inv, Stops, Cascaded, AllSucceeded, HeadOf, Good;
    if !Advances(a, b) {
      var at, x :| Starts(a, at, b, x, ceiling);
      StartsOne(a, at, b, x, ceiling);
    }
  }

  /** The ceiling holds throughout. */
  lemma {:induction false} CeilingHolds(states: seq<Sched>, ceiling: nat, i: nat)
    requires IsRun(states, ceiling) && i < |states|
    ensures states[i].inflight <= ceiling
  {
    hide Good, Moves;
    if i > 0 {
      CeilingHolds(states, ceiling, i - 1);
      assert Moves(states[i - 1], states[i], ceiling);
      StepKeeps(states[i - 1], states[i], ceiling);
    }
  }

  /** After an interrupt nothing starts: whatever runs was running already. */
  lemma {:induction false} NothingStartsCancelled(states: seq<Sched>, ceiling: nat, i: nat, j: nat, x: TaskId)
    requires IsRun(states, ceiling) && i <= j < |states| && states[i].cancelled
    ensures states[j].cancelled
    ensures x < |states[j].phase| && states[j].phase[x] == PhaseRunning ==> x < |states[i].phase| && states[i].phase[x] == PhaseRunning
    decreases j
  {
    hide Good, Moves;
    if i < j {
      assert Moves(states[j - 1], states[j], ceiling);
      NothingStartsCancelled(states, ceiling, i, j - 1, x);
      CeilingHolds(states, ceiling, j - 1);
      StepKeeps(states[j - 1], states[j], ceiling);
    }
  }
}
