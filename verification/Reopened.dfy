/** A run that refuses a Task for a member its edge does not read: a builder pending
    below re-opened the closed edge, and a later member failed meanwhile. */
module Reopened {
  import opened Outcomes
  import opened CollectionTally
  import opened Topology
  import opened Eligibility
  import opened WaitLists
  import opened RunState
  import opened Followers
  import opened Rest
  import Order = LedgerOrder

  /** Task 1 named Group 0 when Task 0 was its only member; Task 0 is done. Group 1,
      inside Group 0, was Defined later, and its gate, Task 2, is running. Task 3,
      declared into Group 0 since, failed. Task 1 was submitted only then. */
  const RUN := Sched(
    [TaskInfo(0, 2, -1), TaskInfo(-1, 3, -1), TaskInfo(-1, 5, 1), TaskInfo(0, 6, -1)],
    [Done, NotStarted, Pending, Failed],
    [PhaseRunning, PhaseAbandoned, PhaseRunning, PhaseRunning],
    [[], [OnCol(0, 3)], [], []],
    [[], [], [], []],
    [ColInfo(-1, 1, false), ColInfo(0, 4, false)],
    [Tally([Member(0, 2), Member(3, 6)], 1, 6, true, 3, [], [], 1, false), Tally([], 0, 0, false, 0, [], [], 1, false)],
    [[], []], [[], []], [[0, 3], []], [[1], []], [0, 0], [NoBuilder, BuilderPending],
    [], [], 0, 1, 1, 1, 6, false, false, false,
    [[], [OnCol(0, 3)], [], []],
    [Off, Off, Off, Off],
    [Missing, Missing, Missing, Missing],
    [2, 0, 5, 6],
    {2}, 0, {})

  ghost predicate Infos(info: seq<TaskInfo>, cols: seq<ColInfo>) {
    && |info| == 4 && info[0] == TaskInfo(0, 2, -1) && info[1] == TaskInfo(-1, 3, -1)
    && info[2] == TaskInfo(-1, 5, 1) && info[3] == TaskInfo(0, 6, -1)
    && |cols| == 2 && cols[0] == ColInfo(-1, 1, false) && cols[1] == ColInfo(0, 4, false)
  }

  lemma Declares(info: seq<TaskInfo>, cols: seq<ColInfo>)
    requires Infos(info, cols)
    ensures ColsOk(cols) && TasksOk(info, cols) && DeclaredThrough(info, cols, 6) && QueueOk(info, [])
  {
  }

  lemma Fixed(info: seq<TaskInfo>, cols: seq<ColInfo>, entry: seq<seq<Pred>>)
    requires Infos(info, cols) && entry == [[], []]
    ensures Static(info, cols, 6, entry, entry)
  {
    Declares(info, cols);
    hide ColsOk, TasksOk, DeclaredThrough, Infos;
  }

  lemma Trees(info: seq<TaskInfo>, cols: seq<ColInfo>)
    requires Infos(info, cols)
    ensures Tree(info, cols, [[0, 3], []], [[1], []])
  {
    assert TasksAt(info, [0, 3], 0) && TasksAt(info, [], 1) && ChildrenAt(cols, [1], 0) && ChildrenAt(cols, [], 1);
  }

  lemma Belows(info: seq<TaskInfo>, cols: seq<ColInfo>, x: nat)
    requires Infos(info, cols)
    ensures Below(info, cols, x, 0) <==> x == 0 || x == 3
    ensures !Below(info, cols, x, 1)
  {
  }

  lemma Membership()
    ensures Members(RUN.info, RUN.cols, RUN.tally)
  {
    var t := RUN.tally[0];
    forall x: nat ensures x in Ids(t.members) <==> Below(RUN.info, RUN.cols, x, 0) {
      Belows(RUN.info, RUN.cols, x);
      assert t.members[0].id == 0 && t.members[1].id == 3;
    }
    forall x: nat ensures !Below(RUN.info, RUN.cols, x, 1) {
      Belows(RUN.info, RUN.cols, x);
    }
    assert Ids(RUN.tally[1].members) == {};
  }

  lemma Gates()
    ensures GatesKnown(RUN.info, RUN.builder) && GatesAlone(RUN.info, RUN.dependents)
  {
  }

  lemma Lives()
    ensures Life(RUN.state, RUN.phase) && Counts(RUN.phase, 0, 1, 1, 1, {2})
  {
  }

  lemma Names()
    ensures NamedOk(RUN.named, 2, 6) && Memory(RUN.named, RUN.preds, RUN.state)
    ensures NoGate(RUN.info, RUN.named) && NoGate(RUN.info, RUN.entry) && NoGate(RUN.info, RUN.lastStep)
    ensures Led(RUN.entry, RUN.preds, RUN.loc, RUN.edge)
  {
    assert Forgets(RUN.named[1], RUN.preds[1], RUN.state);
  }

  lemma Lists()
    ensures Located(ListsOf(RUN), RUN.loc, RUN.phase)
  {
    EmptyLists(ListsOf(RUN));
    hide ListsOf, ListAt;
  }

  lemma EmptyLists(w: Lists)
    requires w.queue == [] && w.woken == [] && w.dependents == [[], [], [], []] && |w.tally| == 2
    requires w.tally[0].parked == w.tally[1].parked == [] && w.tally[0].open == w.tally[1].open == []
    ensures forall tag :: tag != Off ==> ListAt(w, tag) == multiset{}
  {
    assert Sts([]) == [];
  }

  lemma Waiting()
    ensures Edges(V(RUN), RUN.loc, RUN.edge, -1) && Hands(RUN.loc, RUN.phase) == {}
  {
  }

  lemma Current0()
    ensures TallyAt(RUN.tally[0], 4, false) && Current(RUN.tally[0], RUN.state)
    ensures TallyAt(RUN.tally[1], 4, false) && Current(RUN.tally[1], RUN.state)
  {
    var t := RUN.tally[0];
    assert t.members[1..] == [Member(3, 6)] && t.members[1..][1..] == [];
  }

  lemma Settled()
    ensures Tallies(RUN.tally, RUN.state, RUN.cols, -1, false)
  {
    hide TallyAt, Current;
    Current0();
  }

  lemma Held(info: seq<TaskInfo>, cols: seq<ColInfo>, state: seq<EntityState>, c: nat)
    requires Infos(info, cols) && state == [Done, NotStarted, Pending, Failed] && c < 2
    ensures PendingGates(info, cols, state, c, 4) == 1
  {
    assert PendingGates(info, cols, state, c, 1) == 0;
    assert PendingGates(info, cols, state, c, 2) == 0;
    assert PendingGates(info, cols, state, c, 3) == 1 by {
      assert OnChain(cols, 1, c);
    }
  }

  lemma HoldsTrue()
    ensures Holds(RUN.info, RUN.cols, RUN.state, RUN.tally, -1)
  {
    Held(RUN.info, RUN.cols, RUN.state, 0);
    Held(RUN.info, RUN.cols, RUN.state, 1);
  }

  lemma Unstopped(s: Sched)
    requires s.stoppedAfter == [0, 0]
    ensures Stops(s)
  {
  }

  lemma Starts()
    ensures Started(RUN.named, RUN.phase, RUN.startedAt, RUN.state, RUN.tally) && StartsPast(RUN.startedAt, RUN.tally, 6)
  {
    assert RUN.named[0] == [] && RUN.named[2] == [] && RUN.named[3] == [];
  }

  lemma RunGood()
    ensures Good(RUN)
  {
    hide Static, Tree, Members, Life, Memory, Tallies, Located, Edges, Led, QueueOk, Counts, Holds, GatesKnown,
        Started, StartsPast, NoGate, GatesAlone, NamedOk, Hands, Stops;
    Declares(RUN.info, RUN.cols);
    Fixed(RUN.info, RUN.cols, RUN.entry);
    Trees(RUN.info, RUN.cols);
    Membership();
    Gates();
    Lives();
    Names();
    Lists();
    Waiting();
    Settled();
    HoldsTrue();
    Unstopped(RUN);
    Starts();
  }

  /** Task 1 is settled for good. Its one edge reads failed, though all it was closed
      over is done, and will read succeeded once the builder gave back its hold. */
  lemma Refused()
    ensures ViewOk(V(RUN)) && RUN.named[1] == [OnCol(0, 3)] && RUN.state[1] == NotStarted
    ensures OutcomeOf(V(RUN), OnCol(0, 3)).0 == PredFailed
    ensures Reading(RUN.tally[0], 3) == PredSucceeded
    ensures var v := V(RUN).(tally := RUN.tally[0 := Released(RUN.tally[0], false, 6)]);
      OutcomeOf(v, OnCol(0, 3)).0 == PredSucceeded
  {
  }
}
