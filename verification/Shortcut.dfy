/** A run whose program reported a success for a Task that never ran: the search
    proves what that Task named, and it has not settled. */
module Shortcut {
  import opened Outcomes
  import opened CollectionTally
  import opened Topology
  import opened Eligibility
  import opened WaitLists
  import opened RunState
  import opened Followers
  import opened Rest
  import opened Lineage
  import opened ProofWalk
  import opened Provenance

  /** Task 2 names Task 1, which names Task 0. The program resolved Task 1 as done;
      Task 2 started, and Task 0 is pending. */
  const RUN := Sched(
    [TaskInfo(-1, 1, -1), TaskInfo(-1, 2, -1), TaskInfo(-1, 3, -1)],
    [Pending, Done, Running],
    [PhaseDeclared, PhaseDeclared, PhaseRunning],
    [[], [OnTask(0)], []],
    [[], [], []],
    [], [], [], [], [], [], [], [],
    [], [], 0, 1, 1, 1, 3, false, false, false,
    [[], [OnTask(0)], [OnTask(1)]],
    [Off, Off, Off],
    [Missing, Missing, Missing],
    [0, 0, 3],
    {2}, 0, {})

  const GRAPH := Declared(RUN.info, RUN.cols, RUN.named, RUN.entry)

  ghost predicate Infos(info: seq<TaskInfo>) {
    |info| == 3 && info[0] == TaskInfo(-1, 1, -1) && info[1] == TaskInfo(-1, 2, -1) && info[2] == TaskInfo(-1, 3, -1)
  }

  lemma Declares(info: seq<TaskInfo>)
    requires Infos(info)
    ensures Static(info, [], 3, [], []) && QueueOk(info, [])
  {
  }

  lemma Alone(info: seq<TaskInfo>)
    requires Infos(info)
    ensures Tree(info, [], [], []) && Members(info, [], []) && GatesKnown(info, []) && GatesAlone(info, [[], [], []])
  {
  }

  lemma Lives(state: seq<EntityState>, phase: seq<Phase>)
    requires state == [Pending, Done, Running] && phase == [PhaseDeclared, PhaseDeclared, PhaseRunning]
    ensures Life(state, phase)
  {
  }

  lemma Counted()
    ensures Counts(RUN.phase, 0, 1, 1, 1, {2})
  {
  }

  lemma NoContainers(s: Sched)
    requires |s.info| == |s.state| && s.cols == [] && s.stoppedAfter == []
    ensures Tallies([], s.state, [], -1, false) && Stops(s) && RunState.Holds(s.info, [], s.state, [], -1)
  {
  }

  lemma Names()
    ensures NamedOk(RUN.named, 0, 3) && Memory(RUN.named, RUN.preds, RUN.state)
    ensures NoGate(RUN.info, RUN.named) && NoGate(RUN.info, []) && Led([], RUN.preds, RUN.loc, RUN.edge)
  {
    assert Forgets(RUN.named[2], RUN.preds[2], RUN.state);
    assert Forgets(RUN.named[1], RUN.preds[1], RUN.state);
  }

  lemma Lists()
    ensures Located(ListsOf(RUN), RUN.loc, RUN.phase) && Edges(V(RUN), RUN.loc, RUN.edge, -1)
    ensures Hands(RUN.loc, RUN.phase) == {}
  {
    forall tag: Loc | tag != Off ensures ListAt(ListsOf(RUN), tag) == multiset{} {
    }
  }

  lemma Starts()
    ensures Started(RUN.named, RUN.phase, RUN.startedAt, RUN.state, []) && StartsPast(RUN.startedAt, [], 3)
  {
  }

  lemma RunGood()
    ensures Good(RUN)
  {
    hide Static, Tree, Members, Life, Memory, Tallies, Located, Edges, Led, QueueOk, Counts, RunState.Holds, GatesKnown,
        Started, StartsPast, NoGate, GatesAlone, NamedOk, Hands, Stops;
    Declares(RUN.info);
    Alone(RUN.info);
    Lives(RUN.state, RUN.phase);
    Names();
    Lists();
    Counted();
    NoContainers(RUN);
    Starts();
  }

  lemma RunTraced()
    ensures Traced(RUN)
  {
    assert !CleanTask(RUN, 1);
    forall e | From(WebOf(RUN), RUN.named[2], e, Clean(RUN)) ensures Firm(RUN, e) {
      var p := FromSplit(WebOf(RUN), RUN.named[2], e, Clean(RUN));
      assert p == OnTask(1) && p !in Clean(RUN);
    }
    assert Lines(RUN);
  }

  lemma Searched(g: Declared)
    requires Infos(g.info) && g.cols == [] && g.entry == [] && g.after == [[], [OnTask(0)], [OnTask(1)]]
    ensures ProofWalk.DeclaredOk(g) && Proved(g, 0, TaskNode(2))
  {
    hide Proved;
    assert OnTask(1) in g.after[2] && OnTask(0) in g.after[1];
    ProvedHere(g, 0, TaskNode(0));
    ProvedFurther(g, 0, TaskNode(1), TaskNode(0));
    ProvedFurther(g, 0, TaskNode(2), TaskNode(1));
  }

  /** Task 2 runs, and of the search's conditions only one fails: Task 1 was reported
      a success without running. */
  lemma Misleads()
    ensures ProofWalk.DeclaredOk(GRAPH) && Describes(RUN, GRAPH) && RunsTask(RUN, 2) && RUN.state[0] == Pending
    ensures Proved(GRAPH, 0, TaskNode(2)) && InTime(RUN, 0) && RUN.lateEntry == {}
    ensures Succeeded(RUN, 1) && !RunsTask(RUN, 1) && forall t: nat :: t != 1 ==> CleanTask(RUN, t)
  {
    hide ProofWalk.DeclaredOk, Proved;
    Searched(GRAPH);
  }
}
