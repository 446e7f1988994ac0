/** Runs that go wrong, one state of each, and exactly when they do. */
module Findings {
  import opened Outcomes
  import opened CollectionTally
  import opened Topology
  import opened Eligibility
  import opened WaitLists
  import opened RunState
  import opened Settling
  import opened Cascades
  import opened Followers
  import opened Rest
  import Order = LedgerOrder

  /** Group 0 was sealed empty, then Defined: gate 0 ran its builder, which declared
      Task 2, and Task 2 is done. Task 1 had parked on the open Group. */
  const STRANDED := Sched(
    [TaskInfo(-1, 2, 0), TaskInfo(-1, 3, -1), TaskInfo(0, 4, -1)],
    [Done, Pending, Done],
    [PhaseRunning, PhaseParked, PhaseRunning],
    [[], [OnCol(0, 0)], []],
    [[], [], []],
    [ColInfo(-1, 1, false)],
    [Tally([Member(2, 4)], 1, 0, true, 1, [], [1], 0, false)],
    [[]], [[]], [[2]], [[]], [0], [BuilderDone],
    [], [], 1, 1, 0, 0, 4, false, false, false,
    [[], [OnCol(0, 0)], []],
    [Off, AtOpen(0), Off],
    [Missing, OnCol(0, 0), Missing],
    [3, 0, 4],
    {}, 0, {})

  lemma StrandedTasks(info: seq<TaskInfo>, cols: seq<ColInfo>)
    requires |info| == 3 && info[0] == TaskInfo(-1, 2, 0) && info[1] == TaskInfo(-1, 3, -1) && info[2] == TaskInfo(0, 4, -1)
    requires |cols| == 1 && cols[0] == ColInfo(-1, 1, false)
    ensures ColsOk(cols) && TasksOk(info, cols) && DeclaredThrough(info, cols, 4)
  {
  }

  lemma StrandedDeclared()
    ensures ColsOk(STRANDED.cols) && TasksOk(STRANDED.info, STRANDED.cols) && DeclaredThrough(STRANDED.info, STRANDED.cols, 4)
  {
    hide ColsOk, TasksOk, DeclaredThrough;
    StrandedTasks(STRANDED.info, STRANDED.cols);
  }

  lemma StrandedStatic()
    ensures Static(STRANDED.info, STRANDED.cols, 4, [[]], [[]])
  {
    StrandedDeclared();
    hide ColsOk, TasksOk, DeclaredThrough;
  }

  lemma StrandedTree()
    ensures Tree(STRANDED.info, STRANDED.cols, [[2]], [[]])
  {
    assert TasksAt(STRANDED.info, [2], 0);
    assert ChildrenAt(STRANDED.cols, [], 0);
  }

  lemma StrandedMembers()
    ensures Members(STRANDED.info, STRANDED.cols, STRANDED.tally)
  {
    var t := STRANDED.tally[0];
    forall x ensures x in Ids(t.members) <==> Below(STRANDED.info, STRANDED.cols, x, 0) {
      assert x in Ids(t.members) <==> x == 2 by {
        assert t.members[0].id == 2;
      }
    }
  }

  lemma StrandedTallies()
    ensures Tallies(STRANDED.tally, STRANDED.state, STRANDED.cols, -1, false)
    ensures Holds(STRANDED.info, STRANDED.cols, STRANDED.state, STRANDED.tally, -1)
  {
  }

  lemma StrandedLists()
    ensures Located(ListsOf(STRANDED), STRANDED.loc, STRANDED.phase)
  {
    var w := ListsOf(STRANDED);
    forall tag: Loc | tag != Off ensures ListAt(w, tag) == if tag == AtOpen(0) then multiset{1} else multiset{} {
      match tag
      case AtTask(t) =>
      case AtClosed(c) =>
      case _ =>
    }
    forall tag: Loc | tag != Off ensures ListOk(ListAt(w, tag), tag, STRANDED.loc, STRANDED.phase) {
      if tag == AtOpen(0) {
        assert STRANDED.loc[1] == tag;
      }
    }
  }

  lemma StrandedCounts()
    ensures Counts(STRANDED.phase, 1, 1, 0, 0, {})
  {
  }

  lemma StrandedNames()
    ensures Memory(STRANDED.named, STRANDED.preds, STRANDED.state) && NamedOk(STRANDED.named, 1, STRANDED.declSeq)
    ensures Led(STRANDED.entry, STRANDED.preds, STRANDED.loc, STRANDED.edge)
    ensures NoGate(STRANDED.info, STRANDED.named) && NoGate(STRANDED.info, STRANDED.entry) && NoGate(STRANDED.info, STRANDED.lastStep)
  {
    assert Leads(STRANDED.entry, OnCol(0, 0), OnCol(0, 0));
    assert OnCol(0, 0) in STRANDED.preds[1];
  }

  lemma StrandedLife()
    ensures Life(STRANDED.state, STRANDED.phase) && QueueOk(STRANDED.info, []) && GatesKnown(STRANDED.info, STRANDED.builder)
  {
  }

  lemma StrandedEdges()
    ensures Edges(V(STRANDED), STRANDED.loc, STRANDED.edge, -1)
  {
  }

  lemma StrandedStarts()
    ensures Started(STRANDED.named, STRANDED.phase, STRANDED.startedAt, STRANDED.state, STRANDED.tally)
  {
    assert STRANDED.named[0] == [] && STRANDED.named[2] == [];
  }

  lemma StrandedPast()
    ensures StartsPast(STRANDED.startedAt, STRANDED.tally, 4) && GatesAlone(STRANDED.info, STRANDED.dependents)
  {
  }

  lemma StrandedQuiet()
    ensures Hands(STRANDED.loc, STRANDED.phase) == {} && Stops(STRANDED)
  {
  }

  lemma StrandedGood()
    ensures Good(STRANDED)
  {
    hide Static, Tree, Members, Life, Memory, Tallies, Located, Edges, Led, QueueOk, Counts, Holds, GatesKnown, Started,
        StartsPast, NoGate, GatesAlone, NamedOk, Hands, Stops;
    StrandedStatic();
    StrandedTree();
    StrandedMembers();
    StrandedTallies();
    StrandedLists();
    StrandedCounts();
    StrandedNames();
    StrandedLife();
    StrandedEdges();
    StrandedStarts();
    StrandedPast();
    StrandedQuiet();
  }

  /** Task 1 is parked on a Group that reads succeeded, for what it starts after. */
  lemma StrandedReads()
    ensures Stranded(STRANDED, 1) && STRANDED.phase[1] == PhaseParked
    ensures ViewOk(V(STRANDED)) && OutcomeOf(V(STRANDED), STRANDED.edge[1]).0 == PredSucceeded
    ensures !DirectlyPending(V(STRANDED), STRANDED.edge[1])
  {
  }

  /** A concluded builder strands those open on its container exactly when it
      declared its children, no other builder below is pending, and the container was
      sealed already. */
  lemma StrandedExactly(a: Sched, b: Sched, st: TaskId, x: TaskId)
    requires Concludes(a, b, st) && a.info[st].gateFor < |a.tally| && x in a.tally[a.info[st].gateFor].open
    requires a.info[st].gateFor < |a.cols|
    ensures var c := a.info[st].gateFor;
      x in b.tally[c].open && b.tally[c].holds <= 0
      <==> a.state[st] == Done && a.tally[c].holds <= 1 && a.tally[c].sealed
  {
    assert OnChain(a.cols, a.info[st].gateFor, a.info[st].gateFor);
  }

  // ---- sealed while draining ------------------------------------------------

  /** Draining, Task 1 was parked on Group 0, which nothing had sealed; the Group was
      sealed at 3; Task 2 was declared into it at 4 and runs; Task 0 is done. */
  const LATE_SEALED := Sched(
    [TaskInfo(0, 2, -1), TaskInfo(-1, 3, -1), TaskInfo(0, 4, -1)],
    [Done, Pending, Running],
    [PhaseRunning, PhaseParked, PhaseRunning],
    [[], [OnCol(0, 0)], []],
    [[], [], []],
    [ColInfo(-1, 1, false)],
    [Tally([Member(0, 2), Member(2, 4)], 1, 0, true, 3, [ParkedTask(1, THROUGH_ALL)], [], 0, false)],
    [[]], [[]], [[0, 2]], [[]], [0], [NoBuilder],
    [], [], 1, 2, 1, 1, 4, false, true, false,
    [[], [OnCol(0, 0)], []],
    [Off, AtClosed(0), Off],
    [Missing, OnCol(0, 0), Missing],
    [3, 0, 4],
    {2}, 3, {})

  lemma LateTasks(info: seq<TaskInfo>, cols: seq<ColInfo>)
    requires |info| == 3 && info[0] == TaskInfo(0, 2, -1) && info[1] == TaskInfo(-1, 3, -1) && info[2] == TaskInfo(0, 4, -1)
    requires |cols| == 1 && cols[0] == ColInfo(-1, 1, false)
    ensures ColsOk(cols) && TasksOk(info, cols) && DeclaredThrough(info, cols, 4)
  {
  }

  lemma LateStatic()
    ensures Static(LATE_SEALED.info, LATE_SEALED.cols, 4, [[]], [[]])
  {
    LateTasks(LATE_SEALED.info, LATE_SEALED.cols);
    hide ColsOk, TasksOk, DeclaredThrough;
  }

  lemma LateTree()
    ensures Tree(LATE_SEALED.info, LATE_SEALED.cols, [[0, 2]], [[]])
  {
    assert TasksAt(LATE_SEALED.info, [0, 2], 0);
    assert ChildrenAt(LATE_SEALED.cols, [], 0);
  }

  lemma LateMembers()
    ensures Members(LATE_SEALED.info, LATE_SEALED.cols, LATE_SEALED.tally)
  {
    var t := LATE_SEALED.tally[0];
    forall x ensures x in Ids(t.members) <==> Below(LATE_SEALED.info, LATE_SEALED.cols, x, 0) {
      assert x in Ids(t.members) <==> x == 0 || x == 2 by {
        assert t.members[0].id == 0 && t.members[1].id == 2;
      }
    }
  }

  lemma LateHolds()
    ensures Holds(LATE_SEALED.info, LATE_SEALED.cols, LATE_SEALED.state, LATE_SEALED.tally, -1)
  {
  }

  lemma LateTallies()
    ensures Tallies(LATE_SEALED.tally, LATE_SEALED.state, LATE_SEALED.cols, -1, true)
  {
    var t := LATE_SEALED.tally[0];
    assert t.members[1..] == [Member(2, 4)] && t.members[1..][1..] == [];
    assert Order.Sorted(t.parked, CursorOf);
  }

  lemma LateLists()
    ensures Located(ListsOf(LATE_SEALED), LATE_SEALED.loc, LATE_SEALED.phase)
  {
    var w := ListsOf(LATE_SEALED);
    assert Sts(w.tally[0].parked) == [1];
    forall tag: Loc | tag != Off ensures ListAt(w, tag) == if tag == AtClosed(0) then multiset{1} else multiset{} {
      match tag
      case AtTask(t) =>
      case AtOpen(c) =>
      case _ =>
    }
    forall tag: Loc | tag != Off ensures ListOk(ListAt(w, tag), tag, LATE_SEALED.loc, LATE_SEALED.phase) {
      if tag == AtClosed(0) {
        assert LATE_SEALED.loc[1] == tag;
      }
    }
  }

  lemma LateCounts()
    ensures Counts(LATE_SEALED.phase, 1, 2, 1, 1, {2})
  {
  }

  lemma LateNames()
    ensures Memory(LATE_SEALED.named, LATE_SEALED.preds, LATE_SEALED.state) && NamedOk(LATE_SEALED.named, 1, 4)
    ensures Led(LATE_SEALED.entry, LATE_SEALED.preds, LATE_SEALED.loc, LATE_SEALED.edge)
    ensures NoGate(LATE_SEALED.info, LATE_SEALED.named) && NoGate(LATE_SEALED.info, LATE_SEALED.entry)
    ensures NoGate(LATE_SEALED.info, LATE_SEALED.lastStep)
  {
    assert Leads(LATE_SEALED.entry, OnCol(0, 0), OnCol(0, 0));
    assert OnCol(0, 0) in LATE_SEALED.preds[1];
  }

  lemma LateLife()
    ensures Life(LATE_SEALED.state, LATE_SEALED.phase) && QueueOk(LATE_SEALED.info, [])
    ensures GatesKnown(LATE_SEALED.info, LATE_SEALED.builder)
  {
  }

  lemma LateEdges()
    ensures Edges(V(LATE_SEALED), LATE_SEALED.loc, LATE_SEALED.edge, -1)
  {
  }

  lemma LateStarts()
    ensures Started(LATE_SEALED.named, LATE_SEALED.phase, LATE_SEALED.startedAt, LATE_SEALED.state, LATE_SEALED.tally)
    ensures StartsPast(LATE_SEALED.startedAt, LATE_SEALED.tally, 4) && GatesAlone(LATE_SEALED.info, LATE_SEALED.dependents)
  {
    assert LATE_SEALED.named[0] == [] && LATE_SEALED.named[2] == [];
  }

  lemma LateQuiet()
    ensures Hands(LATE_SEALED.loc, LATE_SEALED.phase) == {} && Stops(LATE_SEALED)
  {
  }

  lemma LateSealedGood()
    ensures Good(LATE_SEALED)
  {
    hide Static, Tree, Members, Life, Memory, Tallies, Located, Edges, Led, QueueOk, Counts, Holds, GatesKnown, Started,
        StartsPast, NoGate, GatesAlone, NamedOk, Hands, Stops;
    LateStatic();
    LateTree();
    LateMembers();
    LateTallies();
    LateHolds();
    LateLists();
    LateCounts();
    LateNames();
    LateLife();
    LateEdges();
    LateStarts();
    LateQuiet();
  }

  /** Task 1 waits for Task 2, though what it reads has succeeded. */
  lemma LateSealedReads()
    ensures LateSealed(LATE_SEALED, 1) && LATE_SEALED.phase[1] == PhaseParked
    ensures ViewOk(V(LATE_SEALED)) && OutcomeOf(V(LATE_SEALED), LATE_SEALED.edge[1]).0 == PredSucceeded
    ensures !DirectlyPending(V(LATE_SEALED), LATE_SEALED.edge[1])
  {
    assert ParkedTask(1, THROUGH_ALL) in LATE_SEALED.tally[0].parked;
  }

  /** A seal leaves an edge filed too far exactly when the run drains, the seal is
      taken, and a Task is parked on the closed membership it named while empty. */
  lemma LateSealedExactly(s: Sched, c: nat, x: TaskId)
    requires Quiet(s) && c < |s.cols| && x < |s.phase| && s.phase[x] == PhaseParked
    ensures c < |s.tally| && |s.loc| == |s.edge| == |s.phase|
    ensures LateSealed(SealedCol(s, c), x) <==>
      LateSealed(s, x) || (s.draining && !SealRefused(s.tally[c]) && s.loc[x] == AtClosed(c) && s.edge[x] == OnCol(c, 0))
  {
    hide Static, Tree, Members, Life, NamedOk, Memory, Tallies, QueueOk, Counts, Holds, GatesKnown, Started, StartsPast,
        NoGate, GatesAlone, Led, Located;
    assert EdgeAt(V(s), x, s.loc[x], s.edge[x], -1);
    ParkedIsListed(s, x);
    AtRest(s, x);
    assert SealedCol(s, c).loc[x] == if s.loc[x] == AtOpen(c) && x in SealWakes(s.tally[c]) then InWoken else s.loc[x];
    if s.loc[x] == AtClosed(c) && s.edge[x] == OnCol(c, 0) && !s.tally[c].sealed {
      var i :| 0 <= i < |s.tally[c].parked| && Sts(s.tally[c].parked)[i] == x;
      assert s.tally[c].parked[i].st == x;
      assert s.tally[c].parked[i] == ParkedTask(x, s.tally[c].parked[i].cursor);
    }
  }
}
