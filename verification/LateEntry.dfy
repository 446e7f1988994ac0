/** A run that told a container to start after more once a Task had started after
    the container: the search proves what was named last, and it has not settled. */
module LateEntry {
  import opened Outcomes
  import opened CollectionTally
  import opened Topology
  import opened Eligibility
  import opened WaitLists
  import opened RunState
  import opened Followers
  import opened Rest
  import opened Lineage
  import opened ProofWalk
  import opened Provenance

  /** Task 0 names Group 0, which was sealed empty; Task 0 started. Then Group 0 was
      told to start after Task 1, which is pending. */
  const RUN := Sched(
    [TaskInfo(-1, 2, -1), TaskInfo(-1, 3, -1)],
    [Running, Pending],
    [PhaseRunning, PhaseDeclared],
    [[OnCol(0, 0)], []],
    [[], []],
    [ColInfo(-1, 1, false)],
    [Tally([], 0, 0, true, 2, [], [], 0, false)],
    [[OnTask(1)]], [[]], [[]], [[]], [0], [NoBuilder],
    [], [], 0, 1, 1, 1, 3, false, false, false,
    [[OnCol(0, 0)], []],
    [Off, Off],
    [Missing, Missing],
    [2, 0],
    {0}, 0, {0})

  const GRAPH := Declared(RUN.info, RUN.cols, RUN.named, RUN.entry)

  ghost predicate Infos(info: seq<TaskInfo>, cols: seq<ColInfo>) {
    && |info| == 2 && info[0] == TaskInfo(-1, 2, -1) && info[1] == TaskInfo(-1, 3, -1)
    && |cols| == 1 && cols[0] == ColInfo(-1, 1, false)
  }

  lemma Declares(info: seq<TaskInfo>, cols: seq<ColInfo>)
    requires Infos(info, cols)
    ensures ColsOk(cols) && TasksOk(info, cols) && DeclaredThrough(info, cols, 3) && QueueOk(info, [])
  {
  }

  lemma Fixed(info: seq<TaskInfo>, cols: seq<ColInfo>, entry: seq<seq<Pred>>, lastStep: seq<seq<Pred>>)
    requires Infos(info, cols) && entry == [[OnTask(1)]] && lastStep == [[]]
    ensures Static(info, cols, 3, entry, lastStep)
  {
    Declares(info, cols);
    hide ColsOk, TasksOk, DeclaredThrough, Infos;
  }

  lemma Alone()
    ensures Tree(RUN.info, RUN.cols, [[]], [[]]) && Members(RUN.info, RUN.cols, RUN.tally)
    ensures GatesKnown(RUN.info, RUN.builder) && GatesAlone(RUN.info, RUN.dependents)
  {
    assert TasksAt(RUN.info, [], 0) && ChildrenAt(RUN.cols, [], 0);
  }

  lemma Lives()
    ensures Life(RUN.state, RUN.phase) && Counts(RUN.phase, 0, 1, 1, 1, {0})
  {
  }

  lemma Names()
    ensures NamedOk(RUN.named, 1, 3) && Memory(RUN.named, RUN.preds, RUN.state)
    ensures NoGate(RUN.info, RUN.named) && NoGate(RUN.info, RUN.entry) && NoGate(RUN.info, RUN.lastStep)
    ensures Led(RUN.entry, RUN.preds, RUN.loc, RUN.edge)
  {
    assert Forgets(RUN.named[0], RUN.preds[0], RUN.state);
  }

  lemma Lists()
    ensures Located(ListsOf(RUN), RUN.loc, RUN.phase) && Edges(V(RUN), RUN.loc, RUN.edge, -1)
    ensures Hands(RUN.loc, RUN.phase) == {}
  {
    assert Sts(RUN.tally[0].parked) == [];
    forall tag: Loc | tag != Off ensures ListAt(ListsOf(RUN), tag) == multiset{} {
    }
  }

  lemma Stopless()
    ensures Stops(RUN)
  {
  }

  lemma Settled()
    ensures Tallies(RUN.tally, RUN.state, RUN.cols, -1, false)
    ensures RunState.Holds(RUN.info, RUN.cols, RUN.state, RUN.tally, -1)
  {
  }

  lemma Starts()
    ensures Started(RUN.named, RUN.phase, RUN.startedAt, RUN.state, RUN.tally) && StartsPast(RUN.startedAt, RUN.tally, 3)
  {
  }

  lemma RunGood()
    ensures Good(RUN)
  {
    hide Static, Tree, Members, Life, Memory, Tallies, Located, Edges, Led, QueueOk, Counts, RunState.Holds, GatesKnown,
        Started, StartsPast, NoGate, GatesAlone, NamedOk, Hands, Stops;
    Declares(RUN.info, RUN.cols);
    Fixed(RUN.info, RUN.cols, RUN.entry, RUN.lastStep);
    Alone();
    Lives();
    Names();
    Lists();
    Settled();
    Stopless();
    Starts();
  }

  lemma RunLines()
    ensures Lines(RUN)
  {
  }

  lemma RunDeep()
    ensures Deep(RUN)
  {
    assert OnChain(RUN.cols, 0, 0);
    forall e | From(WebOf(RUN), RUN.named[0], e, Clean(RUN)) ensures Firm(RUN, e) {
      var p := FromSplit(WebOf(RUN), RUN.named[0], e, Clean(RUN));
      assert p == OnCol(0, 0) && p !in Clean(RUN);
    }
  }

  lemma RunTraced()
    ensures Traced(RUN)
  {
    hide Lines;
    RunLines();
    RunDeep();
  }

  lemma Searched(g: Declared)
    requires Infos(g.info, g.cols) && g.entry == [[OnTask(1)]] && g.after == [[OnCol(0, 0)], []]
    ensures ProofWalk.DeclaredOk(g) && Proved(g, 1, TaskNode(0))
  {
    hide Proved;
    assert OnCol(0, 0) in g.after[0] && OnTask(1) in g.entry[0];
    ProvedHere(g, 1, TaskNode(1));
    ProvedFurther(g, 1, ColNode(0), TaskNode(1));
    ProvedFurther(g, 1, TaskNode(0), ColNode(0));
  }

  /** Task 0 runs, and of the search's conditions only one fails: Group 0 was told to
      start after more too late. */
  lemma Misleads()
    ensures ProofWalk.DeclaredOk(GRAPH) && Describes(RUN, GRAPH) && RunsTask(RUN, 0) && RUN.state[1] == Pending
    ensures Proved(GRAPH, 1, TaskNode(0)) && InTime(RUN, 1)
    ensures RUN.lateEntry == {0} && forall t: nat :: CleanTask(RUN, t)
  {
    hide ProofWalk.DeclaredOk, Proved;
    Searched(GRAPH);
  }
}
