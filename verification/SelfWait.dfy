/** A Task that waits for a container it sits in: when it is declared so, when it is
    stuck, and a run that has one. */
module SelfWait {
  import opened Outcomes
  import opened CollectionTally
  import opened Topology
  import opened Eligibility
  import opened WaitLists
  import opened RunState
  import opened Cascades
  import opened Starting
  import opened Followers
  import opened Rest
  import opened Growing
  import opened Declaring
  import opened Lineage
  import opened Safety

  // ---- when a declaration names a container around it ---------------------------

  /** p is home or a container above it. */
  predicate Around(cols: seq<ColInfo>, home: int, p: Pred) { p.OnCol? && OnChain(cols, home, p.c) }

  ghost predicate NamesAround(cols: seq<ColInfo>, home: int, ps: seq<Pred>) {
    exists p :: p in ps && Around(cols, home, p)
  }

  /** A Sequence above home has passed its step, and its latest step is a container
      around home. */
  ghost predicate PassedAround(s: Sched, home: int) {
    exists step: nat ::
      OnChain(s.cols, home, step) && PassedBy(s, step) && NamesAround(s.cols, home, NextStepPreds(s, s.cols[step].parent))
  }

  /** A passed Sequence's latest step is known: it has the step it passed. */
  lemma LatestThere(s: Sched, step: nat)
    requires Lines(s) && step < |s.cols| && 0 <= s.cols[step].parent < |s.cols| && s.cols[s.cols[step].parent].sequential
    ensures s.lastStep[s.cols[step].parent] != []
  {
    hide Inherits, InOrder, LatestHeld, GateWaits, EachClosed, Meets;
    var q := s.cols[step].parent;
    assert Latest(s, q);
    assert InSequence(s, ColNode(step), q) && StepKnown(s, q, ColNode(step));
  }

  /** A container around home that is q's latest step, but not the step q holds home
      in, was declared into that step once q had passed it. */
  lemma HeldWasPassed(s: Sched, home: nat, step: nat, q: nat, p: Pred)
    requires Lines(s) && ColsOk(s.cols) && home < |s.cols| && OnChain(s.cols, home, step)
    requires step < |s.cols| && s.cols[step].parent == q && q < |s.cols| && s.cols[q].sequential && !IsLastStep(s.lastStep[q], step)
    requires p in s.lastStep[q] && Around(s.cols, home, p)
    ensures PassedBy(s, step)
  {
    hide Inherits, InOrder, Latest, GateWaits, EachClosed;
    assert LatestHeld(s, q, p);
    ChainBounds(s.cols, p.c, q);
    ChainBounds(s.cols, home, step);
    if p.c < step {
      ChainSplit(s.cols, home, step, p.c);
      ChainBounds(s.cols, s.cols[step].parent, p.c);
    } else {
      ChainSplit(s.cols, home, p.c, step);
    }
  }

  /** What is declared into home names a container around it exactly when what home's
      next step starts after does, or a Sequence above has passed its step and its
      latest step is one. */
  lemma NamesAroundExactly(a: Sched, b: Sched, home: nat, self: Pred, named: seq<Pred>)
    requires Good(a) && Traced(a) && StepsAfter(a, b, home, self, named)
    ensures NamesAround(a.cols, home, named) <==>
      NamesAround(a.cols, home, NextStepPreds(a, home)) || PassedAround(a, home)
  {
    hide Inv, Stops, Deep, NextStepPreds, Lines, OnChain;
    NamedLower(a, b, home, self, named);
    if p :| p in named && Around(a.cols, home, p) && !NamesAround(a.cols, home, NextStepPreds(a, home)) {
      var q: nat :| TakenBy(a, b, home, q, self) && p in NextStepPreds(a, q);
      NamedUpper(a, b, home, q, p);
    }
  }

  lemma NamedLower(a: Sched, b: Sched, home: nat, self: Pred, named: seq<Pred>)
    requires StepsAfter(a, b, home, self, named)
    ensures NamesAround(a.cols, home, NextStepPreds(a, home)) || PassedAround(a, home) ==> NamesAround(a.cols, home, named)
  {
    hide NextStepPreds, OnChain;
    if PassedAround(a, home) {
      var step: nat :| OnChain(a.cols, home, step) && PassedBy(a, step)
        && NamesAround(a.cols, home, NextStepPreds(a, a.cols[step].parent));
      var p :| p in NextStepPreds(a, a.cols[step].parent) && Around(a.cols, home, p);
      assert p in named;
    }
    if NamesAround(a.cols, home, NextStepPreds(a, home)) {
      var p :| p in NextStepPreds(a, home) && Around(a.cols, home, p);
      assert p in named;
    }
  }

  lemma NamedUpper(a: Sched, b: Sched, home: nat, q: nat, p: Pred)
    requires Good(a) && Traced(a) && home < |a.cols| && HoldsStep(a, b, home, q) && p in NextStepPreds(a, q)
    requires Around(a.cols, home, p)
    ensures PassedAround(a, home)
  {
    hide Deep, Stops, Tree, Members, Life, NamedOk, Memory, Tallies, Located, Edges, Led, QueueOk, Counts, Holds,
        GatesKnown, Started, StartsPast, NoGate, GatesAlone, Lines, OnChain;
    var step: nat :| OnChain(a.cols, home, step) && PassedOver(a, b, step, q);
    LatestThere(a, step);
    assert p in a.lastStep[q];
    HeldWasPassed(a, home, step, q, p);
    assert NamesAround(a.cols, home, NextStepPreds(a, a.cols[step].parent));
  }

  // ---- when it is stuck -----------------------------------------------------------

  /** An edge to d that was named while empty waits for x. */
  ghost predicate HeldTo(s: Sched, x: TaskId, d: nat) {
    x < |s.info| && d < |s.tally| && (s.tally[d].sealed ==> s.info[x].decl <= s.tally[d].sealedThrough)
  }

  /** A Task declared now is one its container's edges wait for, exactly when the
      container was not sealed before. */
  lemma HeldExactly(a: Sched, b: Sched, home: int, d: nat)
    requires Good(a) && Advances(a, b) && d < |a.tally| && SealsFrom(a, b, b.declSeq)
    requires b.info == a.info + [TaskInfo(home, a.declSeq + 1, -1)] && b.declSeq == a.declSeq + 1
    ensures HeldTo(b, |a.info|, d) <==> !a.tally[d].sealed
  {
    hide Static, Tree, Members, Life, NamedOk, Memory, Tallies, Located, Edges, Led, QueueOk, Counts, Holds, GatesKnown,
        Started, NoGate, GatesAlone, Stops;
    assert TallyAdvances(a.tally[d], b.tally[d]) && a.tally[d].sealedThrough <= a.declSeq;
  }

  lemma HeldLater(a: Sched, b: Sched, x: TaskId, d: nat)
    requires Advances(a, b) && HeldTo(a, x, d) && a.info[x].decl <= a.declSeq
    ensures HeldTo(b, x, d)
  {
    assert TallyAdvances(a.tally[d], b.tally[d]);
  }

  /** While x has not succeeded, no edge to d that waits for it reads succeeded. */
  lemma NeverReads(s: Sched, x: TaskId, d: nat)
    requires Whole(s) && x < |s.state| && StateOutcome(s.state[x]) != PredSucceeded
    requires HeldTo(s, x, d) && Below(s.info, s.cols, x, d) && x < |s.named| && OnCol(d, 0) in s.named[x]
    ensures !AllSucceeded(s, x)
  {
    hide Tree, Life, NamedOk, Memory, Located, Edges, Led, QueueOk, Counts, Holds, GatesKnown, Started, StartsPast,
        NoGate, GatesAlone;
    if AllSucceeded(s, x) {
      var k :| 0 <= k < |s.named[x]| && s.named[x][k] == OnCol(d, 0);
      assert OutcomeOf(V(s), s.named[x][k]).0 == PredSucceeded;
      var t := s.tally[d];
      assert Current(t, s.state) && MembersAt(s.info, s.cols, t, d);
      assert x in Ids(t.members);
      var i :| 0 <= i < |t.members| && t.members[i].id == x;
      SucceededEdgeMeansMembers(V(s), d, 0, i);
    }
  }

  /** A container sealed before x was declared does not wait for x. */
  lemma SealedBeforeIgnores(s: Sched, x: TaskId, d: nat)
    requires Whole(s) && x < |s.info| && d < |s.tally| && !HeldTo(s, x, d) && s.tally[d].holds <= 0 && !s.tally[d].builderFailed
    ensures ViewOk(V(s)) && Member(x, s.info[x].decl) !in MembersThrough(s.tally[d].members, s.tally[d].sealedThrough)
    ensures var through := MembersThrough(s.tally[d].members, s.tally[d].sealedThrough);
      OutcomeOf(V(s), OnCol(d, 0)).0 == if through == [] then EntryOutcome(V(s), d, s.entry[d]).0 else Fold(through, s.state)
  {
    hide Tree, Members, Life, NamedOk, Memory, Located, Edges, Led, QueueOk, Counts, Holds, GatesKnown, Started,
        StartsPast, NoGate, GatesAlone;
    assert Current(s.tally[d], s.state);
    EdgeReads(V(s), d, 0);
    InMembersThrough(s.tally[d].members, s.tally[d].sealedThrough, Member(x, s.info[x].decl));
  }

  /** x names container d, which it sits in and which waits for it, and has not started. */
  ghost predicate Stuck(s: Sched, x: TaskId, d: nat) {
    && HeldTo(s, x, d) && Below(s.info, s.cols, x, d) && x < |s.named| && OnCol(d, 0) in s.named[x]
    && s.info[x].decl <= s.declSeq && !RunsTask(s, x)
  }

  lemma StuckOn(a: Sched, b: Sched, x: TaskId, d: nat)
    requires Advances(a, b) && Stuck(a, x, d)
    ensures Stuck(b, x, d)
  {
    HeldLater(a, b, x, d);
    ChainLonger(a.cols, b.cols, a.info[x].home, d);
  }

  lemma StuckAtStart(a: Sched, at: Sched, b: Sched, y: TaskId, ceiling: nat, x: TaskId, d: nat)
    requires Good(a) && Starts(a, at, b, y, ceiling) && Stuck(a, x, d)
    ensures Stuck(b, x, d)
  {
    hide Inv, Stops, Cascaded, AllSucceeded, Advances, HeldTo;
    LifeOf(a);
    CascadeAdvances(a, at);
    StuckOn(a, at, x, d);
    if y == x {
      HeadPending(at, x);
      NeverReads(at, x, d);
      assert false;
    }
    StuckClaimed(at, y, x, d);
  }

  lemma HeadPending(s: Sched, x: TaskId)
    requires Good(s) && HeadOf(s, x)
    ensures x < |s.state| && StateOutcome(s.state[x]) != PredSucceeded
  {
    TerminalIffDecided(s.state[x]);
  }

  lemma StuckClaimed(s: Sched, y: TaskId, x: TaskId, d: nat)
    requires Stuck(s, x, d) && y != x
    requires y < |s.phase| && y < |s.loc| && y < |s.state| && y < |s.info| && y < |s.startedAt|
    ensures Stuck(ClaimedTask(s, y), x, d)
  {
  }

  /** In no run does such a Task ever start. */
  lemma {:induction false} NeverStarts(states: seq<Sched>, ceiling: nat, i: nat, j: nat, x: TaskId, d: nat)
    requires IsRun(states, ceiling) && i <= j < |states| && Stuck(states[i], x, d)
    ensures Stuck(states[j], x, d)
    decreases j
  {
    hide Good, Moves, Stuck;
    if i < j {
      NeverStarts(states, ceiling, i, j - 1, x, d);
      assert Moves(states[j - 1], states[j], ceiling);
      StuckMoves(states[j - 1], states[j], ceiling, x, d);
    }
  }

  lemma StuckMoves(a: Sched, b: Sched, ceiling: nat, x: TaskId, d: nat)
    requires Good(a) && Moves(a, b, ceiling) && Stuck(a, x, d)
    ensures Stuck(b, x, d)
  {
    hide Good, Stuck, Starts, Advances;
    if Advances(a, b) {
      StuckOn(a, b, x, d);
    } else {
      var at, y: nat :| Starts(a, at, b, y, ceiling);
      StuckAtStart(a, at, b, y, ceiling, x, d);
    }
  }
}
